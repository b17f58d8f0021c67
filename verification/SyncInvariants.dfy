/** What interleaved syncs, cancellations, probes and swaps keep about leases, listings and identities. */
module SyncInvariants {
  import opened Wrappers
  import opened Inventory
  import opened SyncModel

  // ----- Leases -----

  predicate RunOk(s: Site, r: nat)
    requires r < |s.runs|
  {
    var run := s.runs[r];
    && (run.status.Running? <==> run.token.Some?)
    && (run.status.Running? ==> run.claimedUntil.Some?)
    && (run.token.Some? ==> run.token.value < |s.syncs| && s.syncs[run.token.value].run == r)
  }

  ghost predicate RunsOk(s: Site) {
    forall r: nat :: r < |s.runs| ==> RunOk(s, r)
  }

  ghost predicate OneRunning(runs: seq<SyncRun>) {
    forall i, j :: 0 <= i < j < |runs| ==> !(runs[i].status.Running? && runs[j].status.Running?)
  }

  /** The pass holds its run, whether or not its lease has run out. */
  predicate Holds(s: Site, y: nat) {
    && y < |s.syncs| && s.syncs[y].run < |s.runs|
    && s.runs[s.syncs[y].run].status.Running? && s.runs[s.syncs[y].run].token == Some(y)
  }

  ghost predicate WritesAlone(s: Site, y: nat)
    requires y < |s.syncs|
  {
    && s.syncs[y].claimedAt <= |s.writes|
    && (Holds(s, y) ==> forall k :: s.syncs[y].claimedAt <= k < |s.writes| ==> s.writes[k] == y)
  }

  // ----- Listings -----

  ghost predicate Present(t: Table, ext: string) {
    exists k: nat :: Row(t, k) && t[k].value.externalId == ext && t[k].value.missingAt.None?
  }

  ghost predicate SubPresent(subs: seq<Subscription>, ext: string) {
    exists k :: 0 <= k < |subs| && subs[k].externalId == ext && subs[k].missingAt.None?
  }

  ghost predicate AllPresent(t: Table, seen: set<string>, deleted: set<string>) {
    forall ext :: ext in seen && ext !in deleted ==> Present(t, ext)
  }

  ghost predicate AllSubsPresent(subs: seq<Subscription>, seen: set<string>) {
    forall ext :: ext in seen ==> SubPresent(subs, ext)
  }

  /** What a pass has seen is what the provider answered so far, and while it holds its run all of
      that is in the tables, but for rows a swap has deleted since. */
  ghost predicate SyncOk(s: Site, y: nat)
    requires y < |s.syncs|
  {
    var sync := s.syncs[y];
    && |sync.answers| <= |sync.listing| && sync.lease >= 60 && (sync.phase.Listing? ==> sync.answers == [])
    && sync.seen == ListedIds(sync.listing, sync.answers)
    && sync.seenSubs == ListedSubs(sync.listing, |sync.answers|)
    && WritesAlone(s, y)
    && (Holds(s, y) ==> AllPresent(s.assignments, sync.seen, sync.deleted) && AllSubsPresent(s.subscriptions, sync.seenSubs))
  }

  ghost predicate SyncsOk(s: Site) {
    forall y: nat :: y < |s.syncs| ==> SyncOk(s, y)
  }

  // ----- Identities -----

  /** Since a probe read its row, an unchanged generation means the same identity, or a blanked one. */
  predicate ProbeOk(t: Table, p: Probe) {
    && p.id < |t|
    && (t[p.id].Some? ==>
          && t[p.id].value.generation >= p.generation
          && (t[p.id].value.generation == p.generation ==> t[p.id].value.identity == p.identity || t[p.id].value.identity == BLANK))
  }

  ghost predicate ProbesOk(s: Site) {
    forall k :: 0 <= k < |s.probes| ==> ProbeOk(s.assignments, s.probes[k])
  }

  ghost predicate SubsDiffer(subs: seq<Subscription>) {
    forall i, j :: 0 <= i < j < |subs| ==> subs[i].externalId != subs[j].externalId
  }

  ghost predicate SiteInv(s: Site) {
    && RunsOk(s) && OneRunning(s.runs) && SyncsOk(s) && ProbesOk(s)
    && ExternalIdsDiffer(s.assignments) && SubsDiffer(s.subscriptions)
  }

  // ----- Table changes -----

  /** The changes a sync makes to a row: its identity only together with a higher generation. */
  predicate RowAdvances(a: Assignment, b: Assignment) {
    && b.externalId == a.externalId
    && b.generation >= a.generation && (b.generation == a.generation ==> b.identity == a.identity)
    && (a.missingAt.None? ==> b.missingAt.None?)
  }

  ghost predicate Advances(t: Table, u: Table) {
    && |t| <= |u|
    && (forall k :: 0 <= k < |t| ==> (t[k].Some? <==> u[k].Some?))
    && (forall k :: 0 <= k < |t| && t[k].Some? ==> RowAdvances(t[k].value, u[k].value))
  }

  lemma UpsertAdvances(t: Table, r: RawProxy, sub: nat, now: int)
    requires ExternalIdsDiffer(t)
    ensures Advances(t, UpsertProxy(t, r, sub, now)) && ExternalIdsDiffer(UpsertProxy(t, r, sub, now))
    ensures ValidProxy(r) ==> Present(UpsertProxy(t, r, sub, now), r.id.value)
  {
    if ValidProxy(r) {
      var u := UpsertProxy(t, r, sub, now);
      match FindExternal(t, |t|, r.id.value)
      case None => assert Row(u, |t|) && u[|t|].value.externalId == r.id.value;
      case Some(k) => assert Row(u, k) && u[k].value.externalId == r.id.value;
    }
  }

  /** Every identity a sync changes comes with a higher generation, and no generation ever falls. */
  lemma {:induction false} UpsertAllAdvances(t: Table, raws: seq<RawProxy>, sub: nat, now: int)
    requires ExternalIdsDiffer(t)
    ensures Advances(t, UpsertAll(t, raws, sub, now)) && ExternalIdsDiffer(UpsertAll(t, raws, sub, now))
    ensures forall ext :: ext in IdsOf(raws) ==> Present(UpsertAll(t, raws, sub, now), ext)
  {
    if raws != [] {
      hide UpsertProxy, ExternalIdsDiffer, Present;
      var n := |raws| - 1;
      var u := UpsertAll(t, raws[..n], sub, now);
      UpsertAllAdvances(t, raws[..n], sub, now);
      UpsertAdvances(u, raws[n], sub, now);
      forall ext | ext in IdsOf(raws[..n])
        ensures Present(UpsertProxy(u, raws[n], sub, now), ext)
      {
        PresentStays(u, UpsertProxy(u, raws[n], sub, now), ext);
      }
    }
  }

  lemma PresentStays(t: Table, u: Table, ext: string)
    requires Advances(t, u) && Present(t, ext)
    ensures Present(u, ext)
  {
    var k: nat :| Row(t, k) && t[k].value.externalId == ext && t[k].value.missingAt.None?;
    assert RowAdvances(t[k].value, u[k].value);
    assert Row(u, k) && u[k].value.externalId == ext;
  }

  lemma AdvancesKeepsProbe(t: Table, u: Table, p: Probe)
    requires Advances(t, u) && ProbeOk(t, p)
    ensures ProbeOk(u, p)
  {
    assert t[p.id].Some? ==> RowAdvances(t[p.id].value, u[p.id].value);
  }

  lemma UpsertSubscriptionKeeps(subs: seq<Subscription>, r: RawSubscription, now: int)
    requires SubsDiffer(subs) && r.externalId.Some?
    ensures var out := UpsertSubscription(subs, r, now);
            && SubsDiffer(out) && SubPresent(out, r.externalId.value)
            && |out| >= |subs|
            && (forall k :: 0 <= k < |subs| ==> out[k].externalId == subs[k].externalId && (subs[k].missingAt.None? ==> out[k].missingAt.None?))
            && (forall k :: 0 <= k < |subs| ==> out[k].quota == subs[k].quota && out[k].used == subs[k].used)
            && (forall k :: |subs| <= k < |out| ==> out[k].used == 0)
  {
    var out := UpsertSubscription(subs, r, now);
    match FindSubscription(subs, |subs|, r.externalId.value)
    case None => assert out[|subs|].externalId == r.externalId.value;
    case Some(k) => assert out[k].externalId == r.externalId.value;
  }

  lemma SubPresentStays(subs: seq<Subscription>, out: seq<Subscription>, ext: string)
    requires SubPresent(subs, ext) && |out| >= |subs|
    requires forall k :: 0 <= k < |subs| ==> out[k].externalId == subs[k].externalId && (subs[k].missingAt.None? ==> out[k].missingAt.None?)
    ensures SubPresent(out, ext)
  {
    var k :| 0 <= k < |subs| && subs[k].externalId == ext && subs[k].missingAt.None?;
    assert out[k].externalId == ext && out[k].missingAt.None?;
  }

  // ----- Steps that leave the tables alone -----

  /** Runs close or are renewed, passes end: nothing becomes running, nothing is written. */
  ghost predicate LeasesOnly(s: Site, after: Site) {
    && after.subscriptions == s.subscriptions && after.assignments == s.assignments && after.writes == s.writes
    && after.probes == s.probes
    && |after.syncs| == |s.syncs| && |after.runs| >= |s.runs|
    && (forall y :: 0 <= y < |s.syncs| ==> after.syncs[y] == s.syncs[y] || after.syncs[y] == s.syncs[y].(phase := Finished))
    && (forall r :: 0 <= r < |s.runs| && after.runs[r].status.Running? ==> s.runs[r].status.Running? && after.runs[r].token == s.runs[r].token)
    && (forall r :: |s.runs| <= r < |after.runs| ==> !after.runs[r].status.Running?)
  }

  lemma LeasesInv(s: Site, after: Site)
    requires SiteInv(s) && LeasesOnly(s, after) && RunsOk(after)
    ensures SiteInv(after)
  {
    hide RunOk, ListedIds, ListedSubs, AllPresent, AllSubsPresent;
    forall y: nat | y < |after.syncs|
      ensures SyncOk(after, y)
    {
      assert SyncOk(s, y);
      HoldsBefore(s, after, y);
    }
  }

  lemma HoldsBefore(s: Site, after: Site, y: nat)
    requires RunsOk(s) && RunsOk(after) && LeasesOnly(s, after) && y < |s.syncs|
    ensures Holds(after, y) ==> Holds(s, y)
  {
    if Holds(after, y) {
      assert RunOk(after, s.syncs[y].run);
    }
  }

  lemma GuardInv(s: Site, y: nat)
    requires SiteInv(s)
    ensures SiteInv(Guard(s, y))
  {
    var after := Guard(s, y);
    forall r: nat | r < |after.runs|
      ensures RunOk(after, r)
    {
      assert RunOk(s, r);
    }
    hide RunOk, OneRunning, SyncsOk, ProbesOk, ExternalIdsDiffer, SubsDiffer;
    LeasesInv(s, after);
  }

  lemma AbortInv(s: Site, y: nat)
    requires SiteInv(s)
    ensures SiteInv(Abort(s, y))
  {
    var after := Abort(s, y);
    forall r: nat | r < |after.runs|
      ensures RunOk(after, r)
    {
      assert RunOk(s, r);
    }
    hide RunOk, OneRunning, SyncsOk, ProbesOk, ExternalIdsDiffer, SubsDiffer;
    LeasesInv(s, after);
  }

  lemma QueueInv(s: Site, allow: bool, r: nat)
    requires SiteInv(s)
    ensures SiteInv(Enqueue(s, allow)) && SiteInv(RequestCancel(s, r))
  {
    hide AnyStatus;
    var a, b := Enqueue(s, allow), RequestCancel(s, r);
    forall k: nat | k < |a.runs|
      ensures RunOk(a, k)
    {
      assert k < |s.runs| ==> RunOk(s, k);
    }
    forall k: nat | k < |b.runs|
      ensures RunOk(b, k)
    {
      assert RunOk(s, k);
    }
    hide RunOk, OneRunning, SyncsOk, ProbesOk, ExternalIdsDiffer, SubsDiffer;
    LeasesInv(s, a);
    LeasesInv(s, b);
  }

  /** A claim expires what has run out, and then nothing else is running. */
  lemma ClaimInv(s: Site, seconds: int, create: bool)
    requires SiteInv(s)
    ensures SiteInv(ClaimRun(s, seconds, create))
  {
    var after := ClaimRun(s, seconds, create);
    if after != s {
      forall r: nat | r < |after.runs|
        ensures RunOk(after, r)
      {
        assert r < |s.runs| ==> RunOk(s, r);
      }
      hide RunOk, ListedIds, ListedSubs;
      assert OneRunning(after.runs) by { hide Expire; NoneRunning(s); }
      forall y: nat | y < |after.syncs|
        ensures SyncOk(after, y)
      {
        if y < |s.syncs| {
          assert SyncOk(s, y);
          assert !Holds(after, y);
        } else {
          NothingListed();
        }
      }
    }
  }

  lemma NoneRunning(s: Site)
    ensures !AnyStatus(Expire(s.runs, s.clock), Running) ==>
              forall r :: 0 <= r < |s.runs| ==> !Expire(s.runs, s.clock)[r].status.Running?
  {}

  lemma NothingListed()
    ensures ListedIds([], []) == {} && ListedSubs([], 0) == {}
  {}

  lemma ListInv(s: Site, y: nat, raws: seq<RawSubscription>)
    requires SiteInv(s)
    ensures SiteInv(ReceiveList(s, y, raws))
  {
    var after := ReceiveList(s, y, raws);
    forall r: nat | r < |after.runs|
      ensures RunOk(after, r)
    {
      assert RunOk(s, r);
    }
    hide RunOk;
    forall k: nat | k < |after.syncs|
      ensures SyncOk(after, k)
    {
      assert SyncOk(s, k);
    }
  }

  // ----- Steps that write the tables -----

  /** A malformed subscription is skipped. */
  lemma SkipInv(s: Site, y: nat, proxies: seq<RawProxy>, elapsed: nat)
    requires SiteInv(s) && y < |s.syncs| && s.syncs[y].phase.Working? && |s.syncs[y].answers| < |s.syncs[y].listing|
    requires !ValidSubscription(s.syncs[y].listing[|s.syncs[y].answers|])
    ensures SiteInv(WriteNext(s, y, proxies, elapsed))
  {
    var after := WriteNext(s, y, proxies, elapsed);
    forall r: nat | r < |after.runs|
      ensures RunOk(after, r)
    {
      assert RunOk(s, r);
    }
    hide RunOk, AllPresent, AllSubsPresent;
    forall k: nat | k < |after.syncs|
      ensures SyncOk(after, k)
    {
      assert SyncOk(s, k);
      if k == y {
        ListedMore(s.syncs[y].listing, s.syncs[y].answers, []);
      }
    }
  }

  lemma ListedMore(listing: seq<RawSubscription>, answers: seq<seq<RawProxy>>, proxies: seq<RawProxy>)
    requires |answers| < |listing|
    ensures var k := |answers|;
            && ListedIds(listing, answers + [proxies]) == ListedIds(listing, answers) + (if ValidSubscription(listing[k]) then IdsOf(proxies) else {})
            && ListedSubs(listing, k + 1) == ListedSubs(listing, k) + (if ValidSubscription(listing[k]) then {listing[k].externalId.value} else {})
  {
    assert (answers + [proxies])[..|answers|] == answers;
  }

  /** A pass whose lease ran out stops without writing. */
  lemma LoseInv(s: Site, y: nat)
    requires SiteInv(s) && y < |s.syncs|
    ensures SiteInv(LoseLease(s, y))
  {
    var after := LoseLease(s, y);
    forall r: nat | r < |after.runs|
      ensures RunOk(after, r)
    {
      assert RunOk(s, r);
    }
    hide RunOk, OneRunning, SyncsOk, ProbesOk, ExternalIdsDiffer, SubsDiffer;
    LeasesInv(s, after);
  }

  /** Only one pass holds a run. */
  lemma HoldsAlone(s: Site, y: nat, k: nat)
    requires RunsOk(s) && OneRunning(s.runs) && Holds(s, y) && Holds(s, k)
    ensures k == y
  {}

  lemma WriteInv(s: Site, y: nat, proxies: seq<RawProxy>, elapsed: nat)
    requires SiteInv(s) && y < |s.syncs| && s.syncs[y].phase.Working? && |s.syncs[y].answers| < |s.syncs[y].listing|
    requires ValidSubscription(s.syncs[y].listing[|s.syncs[y].answers|]) && InLease(s, y, elapsed)
    ensures SiteInv(WriteNext(s, y, proxies, elapsed))
  {
    var after := WriteNext(s, y, proxies, elapsed);
    var sync := s.syncs[y];
    var raw := sync.listing[|sync.answers|];
    var sub := Or(FindSubscription(after.subscriptions, |after.subscriptions|, raw.externalId.value), 0);
    forall r: nat | r < |after.runs|
      ensures RunOk(after, r)
    {
      assert RunOk(s, r);
    }
    UpsertAllAdvances(s.assignments, proxies, sub, s.clock);
    UpsertSubscriptionKeeps(s.subscriptions, raw, s.clock);
    hide RunOk, UpsertAll, UpsertSubscription, FindSubscription, ExternalIdsDiffer, SubsDiffer, Present, SubPresent, Advances;
    forall k | 0 <= k < |after.probes|
      ensures ProbeOk(after.assignments, after.probes[k])
    {
      AdvancesKeepsProbe(s.assignments, after.assignments, s.probes[k]);
    }
    WrittenSyncs(s, after, y, proxies);
  }

  /** The passes after a write by `y`: its own has seen more, no other holds a run. */
  lemma WrittenSyncs(s: Site, after: Site, y: nat, proxies: seq<RawProxy>)
    requires RunsOk(s) && OneRunning(s.runs) && SyncsOk(s) && Holds(s, y)
    requires |after.runs| == |s.runs| && forall r :: 0 <= r < |s.runs| ==> after.runs[r] == s.runs[r].(claimedUntil := after.runs[r].claimedUntil)
    requires |s.syncs[y].answers| < |s.syncs[y].listing| && s.syncs[y].phase.Working?
    requires var raw := s.syncs[y].listing[|s.syncs[y].answers|];
             && ValidSubscription(raw)
             && after.syncs == s.syncs[y := s.syncs[y].(answers := s.syncs[y].answers + [proxies],
                                                        seenSubs := s.syncs[y].seenSubs + {raw.externalId.value},
                                                        seen := s.syncs[y].seen + IdsOf(proxies))]
             && SubPresent(after.subscriptions, raw.externalId.value)
    requires after.writes == s.writes + [y]
    requires Advances(s.assignments, after.assignments)
    requires forall ext :: ext in IdsOf(proxies) ==> Present(after.assignments, ext)
    requires |after.subscriptions| >= |s.subscriptions|
    requires forall k :: 0 <= k < |s.subscriptions| ==> after.subscriptions[k].externalId == s.subscriptions[k].externalId
                                                        && (s.subscriptions[k].missingAt.None? ==> after.subscriptions[k].missingAt.None?)
    ensures SyncsOk(after)
  {
    hide Present, SubPresent, Advances, RunOk, IdsOf, ListedIds, ListedSubs;
    forall k: nat | k < |after.syncs|
      ensures SyncOk(after, k)
    {
      assert SyncOk(s, k);
      if k == y {
        ListedMore(s.syncs[y].listing, s.syncs[y].answers, proxies);
        forall ext | ext in s.syncs[y].seen && ext !in s.syncs[y].deleted
          ensures Present(after.assignments, ext)
        {
          PresentStays(s.assignments, after.assignments, ext);
        }
        forall ext | ext in s.syncs[y].seenSubs
          ensures SubPresent(after.subscriptions, ext)
        {
          SubPresentStays(s.subscriptions, after.subscriptions, ext);
        }
      } else if Holds(s, k) {
        HoldsAlone(s, y, k);
      }
    }
  }

  lemma FinishInv(s: Site, y: nat, elapsed: nat)
    requires SiteInv(s)
    ensures SiteInv(Finish(s, y, elapsed))
  {
    var after := Finish(s, y, elapsed);
    if y < |s.syncs| && s.syncs[y].phase.Working? && |s.syncs[y].answers| >= |s.syncs[y].listing| {
      if !InLease(s, y, elapsed) {
        LoseInv(s, y);
      } else {
        forall r: nat | r < |after.runs|
          ensures RunOk(after, r)
        {
          assert RunOk(s, r);
        }
        hide RunOk, ListedIds, ListedSubs;
        forall k | 0 <= k < |after.probes|
          ensures ProbeOk(after.assignments, after.probes[k])
        {
          assert ProbeOk(s.assignments, s.probes[k]);
        }
        forall k: nat | k < |after.syncs|
          ensures SyncOk(after, k)
        {
          assert SyncOk(s, k);
          if Holds(after, k) {
            HoldsAlone(s, y, k);
          }
        }
      }
    }
  }

  // ----- Probes and other writers -----

  /** Rows keep their identity, listing and id; passes and runs are untouched. */
  ghost predicate SameRows(s: Site, after: Site) {
    && after.subscriptions == s.subscriptions && after.runs == s.runs && after.syncs == s.syncs && after.writes == s.writes
    && |after.assignments| == |s.assignments|
    && forall k :: 0 <= k < |s.assignments| ==>
         && (s.assignments[k].Some? <==> after.assignments[k].Some?)
         && (s.assignments[k].Some? ==>
               var a, b := s.assignments[k].value, after.assignments[k].value;
               b.externalId == a.externalId && b.generation == a.generation && b.identity == a.identity && b.missingAt == a.missingAt)
  }

  lemma SameRowsInv(s: Site, after: Site)
    requires SiteInv(s) && SameRows(s, after) && ProbesOk(after)
    ensures SiteInv(after)
  {
    forall r: nat | r < |after.runs|
      ensures RunOk(after, r)
    {
      assert RunOk(s, r);
    }
    hide RunOk, ListedIds, ListedSubs;
    forall y: nat | y < |after.syncs|
      ensures SyncOk(after, y)
    {
      assert SyncOk(s, y);
      forall ext | Present(s.assignments, ext)
        ensures Present(after.assignments, ext)
      {
        var k: nat :| Row(s.assignments, k) && s.assignments[k].value.externalId == ext && s.assignments[k].value.missingAt.None?;
        assert Row(after.assignments, k) && after.assignments[k].value.externalId == ext;
      }
    }
  }

  lemma ProbeStepsInv(s: Site, e: Event)
    requires SiteInv(s) && (e.ClaimChecksEvent? || e.ProbeEvent? || e.ConfirmEvent? || e.OutcomeEvent?)
    ensures SiteInv(Step(s, e))
  {
    hide Step, RunsOk, OneRunning, SyncsOk, ExternalIdsDiffer, SubsDiffer;
    var after := Step(s, e);
    ProbeStepsRows(s, e);
    ProbesMove(s, e);
    forall k | 0 <= k < |after.probes|
      ensures ProbeOk(after.assignments, after.probes[k])
    {
      assert k < |s.probes| ==> ProbeOk(s.assignments, s.probes[k]);
    }
    hide ProbeOk;
    SameRowsInv(s, after);
  }

  lemma ProbeStepsRows(s: Site, e: Event)
    requires e.ClaimChecksEvent? || e.ProbeEvent? || e.ConfirmEvent? || e.OutcomeEvent?
    ensures SameRows(s, Step(s, e))
  {
    hide IdentityCurrent;
  }

  /** Old probes only move on; a new one holds what its row holds. */
  lemma ProbesMove(s: Site, e: Event)
    requires e.ClaimChecksEvent? || e.ProbeEvent? || e.ConfirmEvent? || e.OutcomeEvent?
    ensures var after := Step(s, e);
            && |after.probes| >= |s.probes|
            && (forall k :: 0 <= k < |s.probes| ==> after.probes[k] == s.probes[k].(stage := after.probes[k].stage))
            && (forall k :: |s.probes| <= k < |after.probes| ==> ProbeOk(after.assignments, after.probes[k]))
  {
    hide IdentityCurrent, Lands;
  }

  lemma OthersInv(s: Site, subs: seq<Subscription>, u: Table)
    requires SiteInv(s)
    ensures SiteInv(Others(s, subs, u))
  {
    if TableStep(s.assignments, u) && SubscriptionsStep(s.subscriptions, subs) {
      var after := Others(s, subs, u);
      forall r: nat | r < |after.runs|
        ensures RunOk(after, r)
      {
        assert RunOk(s, r);
      }
      hide RunOk, ListedIds, ListedSubs, Gone;
      forall k | 0 <= k < |after.probes|
        ensures ProbeOk(after.assignments, after.probes[k])
      {
        assert ProbeOk(s.assignments, s.probes[k]);
      }
      forall y: nat | y < |after.syncs|
        ensures SyncOk(after, y)
      {
        assert SyncOk(s, y);
        forall ext | ext !in after.syncs[y].deleted && Present(s.assignments, ext)
          ensures Present(u, ext)
        {
          StaysUnlessGone(s.assignments, u, ext);
        }
        forall ext | SubPresent(s.subscriptions, ext)
          ensures SubPresent(subs, ext)
        {
          SubPresentStays(s.subscriptions, subs, ext);
        }
      }
    }
  }

  lemma StaysUnlessGone(t: Table, u: Table, ext: string)
    requires TableStep(t, u) && Present(t, ext) && ext !in Gone(t, u)
    ensures Present(u, ext)
  {
    var k: nat :| Row(t, k) && t[k].value.externalId == ext && t[k].value.missingAt.None?;
    assert Row(u, k) && u[k].value.externalId == ext;
  }

  lemma TickInv(s: Site, delay: nat)
    requires SiteInv(s)
    ensures SiteInv(s.(clock := s.clock + delay))
  {
    var after := s.(clock := s.clock + delay);
    forall r: nat | r < |after.runs|
      ensures RunOk(after, r)
    {
      assert RunOk(s, r);
    }
    hide RunOk, OneRunning, ProbesOk, ExternalIdsDiffer, SubsDiffer;
    forall y: nat | y < |after.syncs|
      ensures SyncOk(after, y)
    {
      assert SyncOk(s, y);
    }
  }

  // ----- Runs -----

  lemma WriteNextInv(s: Site, y: nat, proxies: seq<RawProxy>, elapsed: nat)
    requires SiteInv(s)
    ensures SiteInv(WriteNext(s, y, proxies, elapsed))
  {
    if y < |s.syncs| && s.syncs[y].phase.Working? && |s.syncs[y].answers| < |s.syncs[y].listing| {
      hide SiteInv, UpsertAll, UpsertSubscription;
      if !ValidSubscription(s.syncs[y].listing[|s.syncs[y].answers|]) {
        SkipInv(s, y, proxies, elapsed);
      } else if !InLease(s, y, elapsed) {
        LoseInv(s, y);
      } else {
        WriteInv(s, y, proxies, elapsed);
      }
    }
  }

  lemma StepInv(s: Site, e: Event) returns (after: Site)
    requires SiteInv(s)
    ensures after == Step(s, e) && SiteInv(after)
  {
    hide SiteInv, Enqueue, ClaimRun, RequestCancel, Guard, ReceiveList, WriteNext, Finish, Abort, Others;
    hide ClaimChecks, StartProbe, ConfirmIdentity, StoreOutcome;
    after := Step(s, e);
    match e
    case Tick(delay) => TickInv(s, delay);
    case EnqueueEvent(allow) => QueueInv(s, allow, 0);
    case ClaimEvent(seconds, create) => ClaimInv(s, seconds, create);
    case CancelEvent(r) => QueueInv(s, false, r);
    case GuardEvent(y) => GuardInv(s, y);
    case ListEvent(y, raws) => ListInv(s, y, raws);
    case WriteEvent(y, proxies, elapsed) => WriteNextInv(s, y, proxies, elapsed);
    case FinishEvent(y, elapsed) => FinishInv(s, y, elapsed);
    case AbortEvent(y) => AbortInv(s, y);
    case OthersEvent(subs, u) => OthersInv(s, subs, u);
    case ClaimChecksEvent(_) => ProbeStepsInv(s, e);
    case ProbeEvent(_, _) => ProbeStepsInv(s, e);
    case ConfirmEvent(_) => ProbeStepsInv(s, e);
    case OutcomeEvent(_, _) => ProbeStepsInv(s, e);
  }

  lemma {:induction false} RunInv(trace: seq<Event>)
    ensures SiteInv(Run(Init(), trace))
  {
    if trace != [] {
      hide SiteInv, Step;
      RunInv(trace[..|trace| - 1]);
      var _ := StepInv(Run(Init(), trace[..|trace| - 1]), trace[|trace| - 1]);
    }
  }
}
