/** At the final commit of a sync each listed proxy is stored as it was listed last, under the subscription that
    listed it; what swaps and observations wrote since is theirs (app/services/proxiware.py:686-1047). */
module SyncCommit {
  import opened Wrappers
  import opened Inventory
  import opened SyncModel
  import opened SyncInvariants
  import opened SyncTheorems
  import opened SyncContent
  import W = SwapModel
  import WI = SwapInvariants
  import D = DashboardModel
  import opened Composition

  /** What the provider said last about one id, and under which subscription. */
  datatype Listed = Listed(subscription: string, record: RawProxy)

  function LastListed(listing: seq<RawSubscription>, answers: seq<seq<RawProxy>>, ext: string): (r: Option<Listed>)
    requires |answers| <= |listing|
    ensures r.Some? ==> Whole(r.value.record) && r.value.record.id == Some(ext)
  {
    if answers == [] then None
    else
      var k := |answers| - 1;
      var here := LastOf(answers[k], ext);
      if ValidSubscription(listing[k]) && here.Some? then Some(Listed(listing[k].externalId.value, here.value))
      else LastListed(listing, answers[..k], ext)
  }

  /** The ids something is said about are the provider's valid listing. */
  lemma {:induction false} ListedHaveLast(listing: seq<RawSubscription>, answers: seq<seq<RawProxy>>, ext: string)
    requires |answers| <= |listing|
    ensures ext in ListedIds(listing, answers) <==> LastListed(listing, answers, ext).Some?
  {
    if answers != [] {
      var k := |answers| - 1;
      hide IdsOf, LastOf;
      ListedHaveLast(listing, answers[..k], ext);
      IdsHaveLast(answers[k], ext);
    }
  }

  lemma IdsHaveLast(raws: seq<RawProxy>, ext: string)
    ensures ext in IdsOf(raws) <==> LastOf(raws, ext).Some?
  {
    ListedHasRecords(raws, ext);
  }

  /** The row as listed; where another writer touched it since, at least its endpoint, or none at all. */
  predicate Shown(subs: seq<Subscription>, q: Assignment, l: Listed, touched: bool)
    requires Whole(l.record)
  {
    && q.externalId == l.record.id.value && q.missingAt.None?
    && q.subscription < |subs| && subs[q.subscription].externalId == l.subscription
    && (IdentityListed(q, l.record) || (touched && q.identity == BLANK))
    && (touched || ((l.record.status.Some? ==> q.status == l.record.status.value)
                    && (l.record.eligible.Some? ==> q.providerEligible == l.record.eligible.value)))
  }

  ghost predicate ShownIn(subs: seq<Subscription>, t: Table, l: Listed, touched: bool)
    requires Whole(l.record)
  {
    exists k: nat :: Row(t, k) && Shown(subs, t[k].value, l, touched)
  }

  /** While the pass holds its run, each id it was told about is stored as it was told last, deletions aside. */
  ghost predicate Content(s: Site, y: nat, touched: set<string>)
    requires y < |s.syncs|
  {
    var sync := s.syncs[y];
    && |sync.answers| <= |sync.listing|
    && (Holds(s, y) ==>
          forall ext :: ext !in sync.deleted && LastListed(sync.listing, sync.answers, ext).Some? ==>
            ShownIn(s.subscriptions, s.assignments, LastListed(sync.listing, sync.answers, ext).value, ext in touched))
  }

  /** Rows another writer changed in what was listed. */
  function Altered(t: Table, u: Table): set<string> {
    set k | 0 <= k < |t| && k < |u| && t[k].Some? && u[k].Some?
            && (u[k].value.identity != t[k].value.identity || u[k].value.status != t[k].value.status
                || u[k].value.providerEligible != t[k].value.providerEligible) :: t[k].value.externalId
  }

  // ----- Steps that leave the rows as listed -----

  predicate SameTold(a: Sync, b: Sync) {
    b.deleted == a.deleted && ((b.listing == a.listing && b.answers == a.answers) || b.answers == [])
  }

  /** Rows keep their id, place and all that is listed. */
  ghost predicate SameShown(t: Table, u: Table) {
    && |t| <= |u|
    && forall k :: 0 <= k < |t| && t[k].Some? ==>
         && u[k].Some?
         && u[k].value.externalId == t[k].value.externalId && u[k].value.subscription == t[k].value.subscription
         && u[k].value.identity == t[k].value.identity && u[k].value.missingAt == t[k].value.missingAt
         && u[k].value.status == t[k].value.status && u[k].value.providerEligible == t[k].value.providerEligible
  }

  lemma QuietContent(s: Site, after: Site, y: nat, touched: set<string>)
    requires y < |s.syncs| && y < |after.syncs| && Content(s, y, touched) && (Holds(after, y) ==> Holds(s, y))
    requires SameTold(s.syncs[y], after.syncs[y]) && after.subscriptions == s.subscriptions && SameShown(s.assignments, after.assignments)
    ensures Content(after, y, touched)
  {
    hide LastListed, Holds, IdentityListed;
    var sync, told := s.syncs[y], after.syncs[y];
    if Holds(after, y) && told.answers != [] {
      forall ext | ext !in told.deleted && LastListed(told.listing, told.answers, ext).Some?
        ensures ShownIn(after.subscriptions, after.assignments, LastListed(told.listing, told.answers, ext).value, ext in touched)
      {
        var l := LastListed(told.listing, told.answers, ext).value;
        var k: nat :| Row(s.assignments, k) && Shown(s.subscriptions, s.assignments[k].value, l, ext in touched);
        assert Row(after.assignments, k) && Shown(after.subscriptions, after.assignments[k].value, l, ext in touched) by { StaysListed(s.assignments[k].value, after.assignments[k].value, l.record); }
      }
    } else {
      NothingTold(told);
    }
  }

  lemma StaysListed(a: Assignment, b: Assignment, r: RawProxy)
    requires Whole(r) && b.identity == a.identity
    ensures IdentityListed(b, r) <==> IdentityListed(a, r)
  {}

  lemma NothingTold(sync: Sync)
    ensures sync.answers == [] ==> forall ext :: LastListed(sync.listing, sync.answers, ext).None?
  {}

  /** Leases, claims and cancellations. */
  lemma LeaseEvents(s: Site, e: Event, y: nat)
    requires SiteInv(s) && y < |s.syncs| && !e.WriteEvent? && !e.FinishEvent? && !e.OthersEvent?
    requires !e.ClaimChecksEvent? && !e.ProbeEvent? && !e.ConfirmEvent? && !e.OutcomeEvent?
    ensures var after := Step(s, e);
            && y < |after.syncs| && SameTold(s.syncs[y], after.syncs[y])
            && after.subscriptions == s.subscriptions && after.assignments == s.assignments
  {
    hide AnyStatus, Expire, RunsOk, OneRunning, ProbesOk, ExternalIdsDiffer, SubsDiffer, ListedIds, ListedSubs, WritesAlone, AllPresent, AllSubsPresent;
    assert SyncOk(s, y);
  }

  lemma ProbeEvents(s: Site, e: Event)
    requires e.ClaimChecksEvent? || e.ProbeEvent? || e.ConfirmEvent? || e.OutcomeEvent?
    ensures var after := Step(s, e); after.syncs == s.syncs && after.subscriptions == s.subscriptions && SameShown(s.assignments, after.assignments)
  {
    hide IdentityCurrent;
  }

  // ----- A write -----

  lemma LastListedMore(listing: seq<RawSubscription>, answers: seq<seq<RawProxy>>, proxies: seq<RawProxy>, ext: string)
    requires |answers| < |listing|
    ensures var k := |answers|;
            LastListed(listing, answers + [proxies], ext)
            == if ValidSubscription(listing[k]) && LastOf(proxies, ext).Some? then Some(Listed(listing[k].externalId.value, LastOf(proxies, ext).value))
               else LastListed(listing, answers, ext)
  {
    assert (answers + [proxies])[..|answers|] == answers;
  }

  lemma SkipContent(s: Site, y: nat, proxies: seq<RawProxy>, elapsed: nat, touched: set<string>)
    requires SiteInv(s) && y < |s.syncs| && Content(s, y, touched)
    requires s.syncs[y].phase.Working? && |s.syncs[y].answers| < |s.syncs[y].listing|
    requires !ValidSubscription(s.syncs[y].listing[|s.syncs[y].answers|])
    ensures Content(WriteNext(s, y, proxies, elapsed), y, touched)
  {
    hide LastListed, ShownIn;
    var sync := s.syncs[y];
    forall ext
      ensures LastListed(sync.listing, sync.answers + [[]], ext) == LastListed(sync.listing, sync.answers, ext)
    {
      LastListedMore(sync.listing, sync.answers, [], ext);
    }
  }

  /** A written subscription: the ids it lists are as it lists them, the others as they were. */
  lemma WriteContent(s: Site, y: nat, proxies: seq<RawProxy>, elapsed: nat, touched: set<string>)
    requires SiteInv(s) && y < |s.syncs| && Content(s, y, touched)
    requires s.syncs[y].phase.Working? && |s.syncs[y].answers| < |s.syncs[y].listing|
    requires ValidSubscription(s.syncs[y].listing[|s.syncs[y].answers|]) && InLease(s, y, elapsed)
    ensures Content(WriteNext(s, y, proxies, elapsed), y, touched)
  {
    var after, sync := WriteNext(s, y, proxies, elapsed), s.syncs[y];
    var raw := sync.listing[|sync.answers|];
    var sub := Or(FindSubscription(after.subscriptions, |after.subscriptions|, raw.externalId.value), 0);
    UpsertSubscriptionKeeps(s.subscriptions, raw, s.clock);
    assert after.syncs[y].answers == sync.answers + [proxies] && after.syncs[y].listing == sync.listing && after.syncs[y].deleted == sync.deleted;
    assert after.assignments == UpsertAll(s.assignments, proxies, sub, s.clock);
    assert sub < |after.subscriptions| && after.subscriptions[sub].externalId == raw.externalId.value;
    hide WriteNext, UpsertAll, UpsertSubscription, FindSubscription, SyncsOk, RunsOk, ProbesOk, ExternalIdsDiffer, LastListed, LastOf, ShownIn;
    forall ext | ext !in sync.deleted && LastListed(sync.listing, sync.answers + [proxies], ext).Some?
      ensures ShownIn(after.subscriptions, after.assignments, LastListed(sync.listing, sync.answers + [proxies], ext).value, ext in touched)
    {
      LastListedMore(sync.listing, sync.answers, proxies, ext);
      if LastOf(proxies, ext).Some? {
        NewlyShown(s.assignments, after.subscriptions, proxies, sub, s.clock, ext, raw.externalId.value, ext in touched);
      } else {
        StillShown(s.subscriptions, after.subscriptions, s.assignments, proxies, sub, s.clock, ext, LastListed(sync.listing, sync.answers, ext).value, ext in touched);
      }
    }
  }

  lemma NewlyShown(t: Table, subs: seq<Subscription>, proxies: seq<RawProxy>, sub: nat, now: int, ext: string, from: string, touched: bool)
    requires ExternalIdsDiffer(t) && LastOf(proxies, ext).Some? && sub < |subs| && subs[sub].externalId == from
    ensures ShownIn(subs, UpsertAll(t, proxies, sub, now), Listed(from, LastOf(proxies, ext).value), touched)
  {
    hide UpsertAll, LastOf, ExternalIdsDiffer, IdentityListed;
    ListStoredExactly(t, proxies, sub, now, ext);
    var u := UpsertAll(t, proxies, sub, now);
    var k: nat :| Row(u, k) && AsListed(u[k].value, LastOf(proxies, ext).value, sub, now);
    assert Shown(subs, u[k].value, Listed(from, LastOf(proxies, ext).value), touched);
  }

  lemma StillShown(before: seq<Subscription>, subs: seq<Subscription>, t: Table, proxies: seq<RawProxy>, sub: nat, now: int, ext: string, l: Listed, touched: bool)
    requires ExternalIdsDiffer(t) && LastOf(proxies, ext).None? && Whole(l.record) && l.record.id == Some(ext) && ShownIn(before, t, l, touched)
    requires |before| <= |subs| && forall k :: 0 <= k < |before| ==> subs[k].externalId == before[k].externalId
    ensures ShownIn(subs, UpsertAll(t, proxies, sub, now), l, touched)
  {
    hide UpsertAll, ExternalIdsDiffer, IdentityListed, RecordsOf;
    var k: nat :| Row(t, k) && Shown(before, t[k].value, l, touched);
    var h := KnownStoredExactly(t, proxies, sub, now, k);
    assert h == [t[k].value];
    assert Shown(subs, UpsertAll(t, proxies, sub, now)[k].value, l, touched);
  }

  // ----- Other writers -----

  lemma OthersContent(s: Site, subs: seq<Subscription>, u: Table, y: nat, touched: set<string>)
    requires y < |s.syncs| && Content(s, y, touched)
    ensures var after := Others(s, subs, u); y < |after.syncs| && Content(after, y, touched + Altered(s.assignments, after.assignments))
  {
    var after := Others(s, subs, u);
    var sync, more := after.syncs[y], touched + Altered(s.assignments, after.assignments);
    assert sync.listing == s.syncs[y].listing && sync.answers == s.syncs[y].answers && s.syncs[y].deleted <= sync.deleted;
    if Holds(after, y) {
      forall ext | ext !in sync.deleted && LastListed(sync.listing, sync.answers, ext).Some?
        ensures ShownIn(after.subscriptions, after.assignments, LastListed(sync.listing, sync.answers, ext).value, ext in more)
      {
        hide LastListed, Gone, Altered;
        OtherRow(s, subs, u, y, ext, LastListed(sync.listing, sync.answers, ext).value, ext in touched);
      }
    }
  }

  lemma OtherRow(s: Site, subs: seq<Subscription>, u: Table, y: nat, ext: string, l: Listed, touched: bool)
    requires y < |s.syncs| && Whole(l.record) && l.record.id == Some(ext) && ShownIn(s.subscriptions, s.assignments, l, touched)
    requires ext !in Others(s, subs, u).syncs[y].deleted
    ensures var after := Others(s, subs, u);
            ShownIn(after.subscriptions, after.assignments, l, touched || ext in Altered(s.assignments, after.assignments))
  {
    var after := Others(s, subs, u);
    var k: nat :| Row(s.assignments, k) && Shown(s.subscriptions, s.assignments[k].value, l, touched);
    if after != s {
      assert after.assignments == u && ext !in Gone(s.assignments, u);
      assert Row(u, k);
      assert Shown(after.subscriptions, u[k].value, l, touched || ext in Altered(s.assignments, u));
    } else {
      assert Shown(after.subscriptions, after.assignments[k].value, l, touched || ext in Altered(s.assignments, after.assignments));
    }
  }

  // ----- Any step -----

  lemma WriteEventContent(s: Site, y: nat, e: Event, touched: set<string>)
    requires SiteInv(s) && y < |s.syncs| && Content(s, y, touched) && e.WriteEvent?
    ensures Content(Step(s, e), y, touched)
  {
    hide SiteInv, UpsertAll, UpsertSubscription, LastListed, ShownIn;
    LostForGoodBack(s, e, y);
    var after, w := Step(s, e), e.y;
    if w < |s.syncs| && s.syncs[w].phase.Working? && |s.syncs[w].answers| < |s.syncs[w].listing| {
      if !ValidSubscription(s.syncs[w].listing[|s.syncs[w].answers|]) {
        if w == y { SkipContent(s, y, e.proxies, e.elapsed, touched); } else { hide Holds; QuietContent(s, after, y, touched); }
      } else if !InLease(s, w, e.elapsed) {
        hide Holds;
        QuietContent(s, after, y, touched);
      } else if w == y {
        WriteContent(s, y, e.proxies, e.elapsed, touched);
      } else if Holds(after, y) {
        OneHolder(s, w, y);
      }
    }
  }

  lemma OneHolder(s: Site, w: nat, y: nat)
    requires SiteInv(s) && Holds(s, w) && Holds(s, y)
    ensures w == y
  {
    hide SyncsOk, ProbesOk, ExternalIdsDiffer, SubsDiffer;
    HoldsAlone(s, w, y);
  }

  lemma LostForGoodBack(s: Site, e: Event, y: nat)
    requires SiteInv(s) && y < |s.syncs|
    ensures y < |Step(s, e).syncs| && (Holds(Step(s, e), y) ==> Holds(s, y))
  {
    hide SiteInv, Step, Holds;
    if !Holds(s, y) {
      LostForGood(s, e, y);
    } else {
      SyncsStay(s, e);
    }
  }

  lemma SyncsStay(s: Site, e: Event)
    ensures |Step(s, e).syncs| >= |s.syncs|
  {
    hide AnyStatus, Expire, UpsertAll, UpsertSubscription, FindSubscription, IdentityCurrent, Lands, TableStep, MarkMissing, MarkMissingSubs;
  }

  lemma FinishEventContent(s: Site, y: nat, e: Event, touched: set<string>)
    requires SiteInv(s) && y < |s.syncs| && Content(s, y, touched) && e.FinishEvent?
    ensures Content(Step(s, e), y, touched)
  {
    LostForGoodBack(s, e, y);
    hide SiteInv, MarkMissing, MarkMissingSubs, LastListed, ShownIn;
    var after, w := Step(s, e), e.y;
    if w < |s.syncs| && s.syncs[w].phase.Working? && |s.syncs[w].answers| >= |s.syncs[w].listing| {
      if !InLease(s, w, e.elapsed) {
        hide Holds;
        QuietContent(s, after, y, touched);
      } else if Holds(s, y) {
        OneHolder(s, w, y);
        assert !Holds(after, y);
      }
    }
  }

  lemma StepContent(s: Site, e: Event, y: nat, touched: set<string>)
    requires SiteInv(s) && y < |s.syncs| && Content(s, y, touched)
    ensures y < |Step(s, e).syncs|
    ensures Content(Step(s, e), y, touched + if e.OthersEvent? then Altered(s.assignments, Step(s, e).assignments) else {})
  {
    hide SiteInv, Content, Altered;
    LostForGoodBack(s, e, y);
    var after := Step(s, e);
    assert touched + {} == touched;
    match e
    case WriteEvent(_, _, _) => hide Step; WriteEventContent(s, y, e, touched);
    case FinishEvent(_, _) => hide Step; FinishEventContent(s, y, e, touched);
    case OthersEvent(subs, u) => hide Others; OthersContent(s, subs, u, y, touched);
    case ClaimChecksEvent(_) => hide Step; ProbeEvents(s, e); QuietContent(s, after, y, touched);
    case ProbeEvent(_, _) => hide Step; ProbeEvents(s, e); QuietContent(s, after, y, touched);
    case ConfirmEvent(_) => hide Step; ProbeEvents(s, e); QuietContent(s, after, y, touched);
    case OutcomeEvent(_, _) => hide Step; ProbeEvents(s, e); QuietContent(s, after, y, touched);
    case _ => hide Step; LeaseEvents(s, e, y); QuietContent(s, after, y, touched);
  }

  /** A pass begins with nothing told. */
  lemma FreshContent(s: Site, e: Event, y: nat)
    requires |s.syncs| <= y < |Step(s, e).syncs|
    ensures Content(Step(s, e), y, {})
  {
    hide AnyStatus, Expire, UpsertAll, UpsertSubscription, FindSubscription, IdentityCurrent, Lands, TableStep, MarkMissing, MarkMissingSubs;
    hide LastListed, Holds, ShownIn;
    NothingTold(Step(s, e).syncs[y]);
  }

  // ----- The final commit -----

  /** Each id of the listing is stored as it was listed last, deletions aside. */
  ghost predicate ContentLeft(s: Site, y: nat, elapsed: nat, touched: set<string>)
    requires SiteInv(s) && Succeeds(s, y, elapsed)
  {
    var after, sync := Finish(s, y, elapsed), s.syncs[y];
    assert SyncOk(s, y);
    forall ext :: ext in ListedIds(sync.listing, sync.answers) && ext !in sync.deleted ==>
      && LastListed(sync.listing, sync.answers, ext).Some?
      && ShownIn(after.subscriptions, after.assignments, LastListed(sync.listing, sync.answers, ext).value, ext in touched)
  }

  lemma FinalContent(s: Site, y: nat, elapsed: nat, touched: set<string>)
    requires SiteInv(s) && Succeeds(s, y, elapsed) && Content(s, y, touched)
    ensures ContentLeft(s, y, elapsed, touched)
  {
    assert SyncOk(s, y);
    hide LastListed, ListedIds, ListedSubs, IdentityListed;
    var after, sync := Finish(s, y, elapsed), s.syncs[y];
    forall ext | ext in sync.seen && ext !in sync.deleted
      ensures LastListed(sync.listing, sync.answers, ext).Some?
      ensures ShownIn(after.subscriptions, after.assignments, LastListed(sync.listing, sync.answers, ext).value, ext in touched)
    {
      ListedHaveLast(sync.listing, sync.answers, ext);
      var l := LastListed(sync.listing, sync.answers, ext).value;
      var k: nat :| Row(s.assignments, k) && Shown(s.subscriptions, s.assignments[k].value, l, ext in touched);
      assert after.assignments[k] == s.assignments[k];
      assert Shown(after.subscriptions, after.assignments[k].value, l, ext in touched);
    }
  }

  /** Ids whose rows another writer altered since pass `y` began. */
  ghost function Touched(trace: seq<Event>, y: nat): set<string> {
    if trace == [] then {}
    else
      var s, e := Run(Init(), trace[..|trace| - 1]), trace[|trace| - 1];
      if y >= |s.syncs| then {}
      else Touched(trace[..|trace| - 1], y) + (if e.OthersEvent? then Altered(s.assignments, Step(s, e).assignments) else {})
  }

  lemma {:induction false} RunContent(trace: seq<Event>, y: nat)
    requires y < |Run(Init(), trace).syncs|
    ensures Content(Run(Init(), trace), y, Touched(trace, y))
  {
    if trace != [] {
      hide SiteInv, Step, Content, Altered;
      var s, e := Run(Init(), trace[..|trace| - 1]), trace[|trace| - 1];
      RunInv(trace[..|trace| - 1]);
      if y < |s.syncs| {
        RunContent(trace[..|trace| - 1], y);
        StepContent(s, e, y, Touched(trace[..|trace| - 1], y));
      } else {
        FreshContent(s, e, y);
      }
    }
  }

  /** On every run a successful sync leaves each listed proxy as it was listed. */
  lemma SuccessLeavesTheContent(trace: seq<Event>, y: nat, elapsed: nat)
    requires Succeeds(Run(Init(), trace), y, elapsed)
    ensures SiteInv(Run(Init(), trace)) && ContentLeft(Run(Init(), trace), y, elapsed, Touched(trace, y))
  {
    hide Run, SiteInv, Content, ContentLeft, Touched;
    RunInv(trace);
    RunContent(trace, y);
    FinalContent(Run(Init(), trace), y, elapsed, Touched(trace, y));
  }

  // ----- Beside swaps and observations -----

  /** The same in the joint system: what swap workers and observations altered since the pass began. */
  ghost function TouchedBeside(settings: W.Settings, subs: seq<Subscription>, turns: seq<Turn>, y: nat): set<string> {
    if turns == [] then {}
    else
      var w, t := Played(Opening(settings, subs), turns[..|turns| - 1]), turns[|turns| - 1];
      if y >= |w.site.syncs| then {}
      else TouchedBeside(settings, subs, turns[..|turns| - 1], y)
           + (if t.SyncTurn? then {} else Altered(w.site.assignments, Turned(w, t).site.assignments))
  }

  lemma TurnContent(w: World, t: Turn, y: nat, touched: set<string>)
    requires Joined(w) && y < |w.site.syncs| && Content(w.site, y, touched)
    ensures y < |Turned(w, t).site.syncs|
    ensures Content(Turned(w, t).site, y, touched + if t.SyncTurn? then {} else Altered(w.site.assignments, Turned(w, t).site.assignments))
  {
    hide W.Step, SiteInv, Content, Altered;
    assert touched + {} == touched;
    match t
    case SwapTurn(e) =>
      if e.Environment? {
        NothingAltered(w.site.assignments);
      } else {
        var b := W.Step(w.board, e);
        var tick := Tick(Delay(w.board.clock, b.clock));
        StepContent(w.site, tick, y, touched);
        var s := StepInv(w.site, tick);
        StepContent(s, OthersEvent(b.subscriptions, b.assignments), y, touched);
      }
    case SyncTurn(e) => if !e.OthersEvent? { StepContent(w.site, e, y, touched); }
    case ObserveTurn(o) =>
      StepContent(w.site, OthersEvent(w.board.subscriptions, D.Observed(w.board.subscriptions, w.board.assignments, o, w.board.clock)), y, touched);
  }

  lemma NothingAltered(t: Table)
    ensures Altered(t, t) == {}
  {}

  lemma TurnFresh(w: World, t: Turn, y: nat)
    requires |w.site.syncs| <= y < |Turned(w, t).site.syncs|
    ensures Content(Turned(w, t).site, y, {})
  {
    hide W.Step, Content, ClaimRun, WriteNext, Finish, Guard, Abort;
    match t
    case SwapTurn(e) =>
    case SyncTurn(e) => if !e.OthersEvent? { hide Step; FreshContent(w.site, e, y); }
    case ObserveTurn(o) =>
  }

  lemma {:induction false} WorldContent(settings: W.Settings, subs: seq<Subscription>, turns: seq<Turn>, y: nat)
    requires Unspent(subs) && y < |Played(Opening(settings, subs), turns).site.syncs|
    ensures Content(Played(Opening(settings, subs), turns).site, y, TouchedBeside(settings, subs, turns, y))
  {
    if turns != [] {
      hide Joined, Turned, Content, Altered;
      var w, t := Played(Opening(settings, subs), turns[..|turns| - 1]), turns[|turns| - 1];
      WorldInv(settings, subs, turns[..|turns| - 1]);
      if y < |w.site.syncs| {
        WorldContent(settings, subs, turns[..|turns| - 1], y);
        TurnContent(w, t, y, TouchedBeside(settings, subs, turns[..|turns| - 1], y));
      } else {
        TurnFresh(w, t, y);
      }
    }
  }

  /** A sync that succeeds beside swaps and observations leaves each listed proxy as it was listed. */
  lemma WorldSyncedContent(settings: W.Settings, subs: seq<Subscription>, turns: seq<Turn>, y: nat, elapsed: nat)
    requires Unspent(subs) && Succeeds(Played(Opening(settings, subs), turns).site, y, elapsed)
    ensures var s := Played(Opening(settings, subs), turns).site;
            SiteInv(s) && ContentLeft(s, y, elapsed, TouchedBeside(settings, subs, turns, y))
  {
    hide Played, WI.BoardInv, Content, ContentLeft, TouchedBeside, SiteInv;
    WorldInv(settings, subs, turns);
    WorldContent(settings, subs, turns, y);
    FinalContent(Played(Opening(settings, subs), turns).site, y, elapsed, TouchedBeside(settings, subs, turns, y));
  }
}
