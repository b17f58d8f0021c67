/** The promises of the earning engine, over every run from the empty database. */
module EarningTheorems {
  import opened Wrappers
  import opened Intervals
  import opened EarningModel
  import opened RowInvariants
  import opened LedgerInvariants
  import opened EarningInvariants
  import opened Accrual
  import opened EgressStar
  import opened Balances

  // ----- Money -----

  /** Money only ever becomes available out of seven days without an unobserved gap. */
  lemma AvailableIsBacked(cfg: Config, trace: seq<Timed>, k: nat)
    requires ConfigOk(cfg) && k < |Run(Init(cfg), trace).ledger|
    requires Run(Init(cfg), trace).ledger[k].bucket.Available?
    ensures Backed(Run(Init(cfg), trace).ledger[k], Run(Init(cfg), trace).history, cfg.stale)
  {
    var db := Run(Init(cfg), trace);
    RunInv(cfg, trace);
    RunCfg(cfg, trace);
    assert EntryOk(db.ledger[k], db.proxies, db.history, db.cfg.stale);
  }

  lemma {:induction false} RunCfg(cfg: Config, trace: seq<Timed>)
    ensures Run(Init(cfg), trace).cfg == cfg
  {
    if trace != [] {
      RunCfg(cfg, trace[..|trace| - 1]);
      StepCfg(Run(Init(cfg), trace[..|trace| - 1]), trace[|trace| - 1].event, trace[|trace| - 1].delay);
    }
  }

  lemma StepCfg(db: Db, e: Event, delay: nat)
    ensures Step(db, e, delay).cfg == db.cfg
  {
    hide Canonical, Credit, LiveRow, FailureRow, BlockedRow, EarnappRow, ExpireAll;
  }

  /** One accrual: whatever it makes available closes a cycle of at least seven observed days. */
  lemma UnlockNeedsSevenDays(db: Db, i: nat, suspectToo: bool, now: int, k: nat)
    requires Inv(db) && i < |db.proxies| && now == db.clock
    requires k < |AccrueRow(db, i, suspectToo, now).ledger| && AccrueRow(db, i, suspectToo, now).ledger[k].bucket.Available?
    requires k >= |db.ledger| || !db.ledger[k].bucket.Available?
    ensures var p, q := db.proxies[i], AccrueRow(db, i, suspectToo, now).proxies[i];
            UnlockedCycle(db.history, i, p.generation, db.cfg.stale, p.probation, q.cursor)
  {
    var p := db.proxies[i];
    assert RowOk(p, i, now, db.cfg.stale, db.history);
    var end := ValidatedEnd(db.cfg, p, now);
    if end < p.probation + PROBATION_SECONDS {
      AddEntryAppends(db.ledger, EntryFor(p, i, p.cursor, end, PendingMoney), db.proxies, db.history, db.cfg.stale);
      assert false;
    }
  }

  /** No second of one proxy is in two ledger entries, and none lies after the cursor. */
  lemma NoSecondPaidTwice(cfg: Config, trace: seq<Timed>, j: nat, k: nat, t: int)
    requires ConfigOk(cfg)
    requires j < k < |Run(Init(cfg), trace).ledger|
    requires var l := Run(Init(cfg), trace).ledger; l[j].proxy == l[k].proxy && l[j].start <= t < l[j].end
    ensures var db := Run(Init(cfg), trace);
            !(db.ledger[k].start <= t < db.ledger[k].end)
            && db.ledger[j].proxy < |db.proxies| && t < db.proxies[db.ledger[j].proxy].cursor
  {
    var db := Run(Init(cfg), trace);
    RunInv(cfg, trace);
    assert EntryOk(db.ledger[j], db.proxies, db.history, db.cfg.stale);
  }

  /** Rows keep their place and no cursor goes back. */
  ghost predicate Onward(ps: seq<Proxy>, qs: seq<Proxy>) {
    |ps| <= |qs| && forall j :: 0 <= j < |ps| ==> ps[j].cursor <= qs[j].cursor
  }

  lemma ReconcileKeepsCursors(db: Db, i: nat, ip: Ip, source: Attestation, now: int)
    requires i < |db.proxies|
    ensures var qs := ReconcileExitIp(db, i, ip, source, now).proxies;
            |qs| == |db.proxies| && forall j :: 0 <= j < |qs| ==> qs[j].cursor == db.proxies[j].cursor
  {
    hide Canonical;
  }

  lemma LeaveKeepsCursors(db: Db, i: nat, now: int)
    requires i < |db.proxies|
    ensures var qs := LeaveGroup(db, i, now).proxies;
            |qs| == |db.proxies| && forall j :: 0 <= j < |qs| ==> qs[j].cursor == db.proxies[j].cursor
  {
    hide Canonical;
  }

  lemma AccrueOnward(db: Db, i: nat, suspectToo: bool, now: int)
    requires i < |db.proxies|
    ensures Onward(db.proxies, AccrueRow(db, i, suspectToo, now).proxies) && |AccrueRow(db, i, suspectToo, now).proxies| == |db.proxies|
  {
    hide Credit;
  }

  lemma {:induction false} AccrueFirstOnward(db: Db, n: nat, now: int)
    requires n <= |db.proxies|
    ensures Onward(db.proxies, AccrueFirst(db, n, now).proxies)
  {
    if n > 0 {
      AccrueFirstOnward(db, n - 1, now);
      AccrueOnward(AccrueFirst(db, n - 1, now), n - 1, false, now);
      hide AccrueRow;
    }
  }

  lemma HealthOnward(db: Db, i: nat, generation: nat, token: nat, o: HealthOutcome, now: int)
    requires HealthAccepted(db, i, generation, token) ==> db.proxies[i].cursor <= now
    ensures Onward(db.proxies, ApplyHealth(db, i, generation, token, o, now).proxies)
  {
    if HealthAccepted(db, i, generation, token) {
      var p := db.proxies[i];
      AccrueOnward(db, i, true, now);
      hide AccrueRow, ReconcileExitIp;
      if o.Live? {
        var broken := CycleBroken(db.cfg, p, o, now);
        var credited := if broken && Earning(p.eligibility) then AccrueRow(db, i, true, now) else db;
        var closed := if broken then ExpirePendingCycle(credited, i) else credited;
        var written := SetRow(closed, i, LiveRow(db.cfg, p, o, now)).(history := db.history + {Success(i, p.generation, now)});
        assert Onward(db.proxies, written.proxies);
        if TrustedObservation(o).Some? {
          ReconcileKeepsCursors(written, i, TrustedObservation(o).value, HttpsQuorum, now);
        }
      }
    }
  }

  lemma EarnappOnward(db: Db, i: nat, generation: nat, token: nat, r: EarnappReport, now: int)
    requires EarnappAccepted(db, i, generation, token) ==> db.proxies[i].cursor <= now
    ensures Onward(db.proxies, ApplyEarnapp(db, i, generation, token, r, now).proxies)
  {
    if EarnappAccepted(db, i, generation, token) {
      var p := db.proxies[i];
      var changed := p.eligibility != Classify(p, r);
      AccrueOnward(db, i, true, now);
      hide AccrueRow, ReconcileExitIp, Classify, EarnappEgressChanged, VerifiedCountry;
      var credited := if changed && Earning(p.eligibility) then AccrueRow(db, i, true, now) else db;
      var closed := if changed || EarnappEgressChanged(p, r) then ResetProbation(credited, i, now) else credited;
      assert Onward(db.proxies, closed.proxies) && |closed.proxies| == |db.proxies|;
      if Authenticated(r).Some? {
        ReconcileKeepsCursors(closed, i, Authenticated(r).value, EarnappTls, now);
      }
    }
  }

  lemma OwnerOnward(db: Db, i: nat, user: nat, now: int)
    requires Owned(db, i, user) ==> db.proxies[i].cursor <= now
    ensures Onward(db.proxies, ReplaceProxy(db, i, user, now).proxies)
    ensures Onward(db.proxies, ArchiveProxy(db, i, user, now).proxies)
  {
    if Owned(db, i, user) {
      LeaveKeepsCursors(db, i, now);
      hide LeaveGroup;
    }
  }

  lemma PromoteOnward(db: Db, i: nat, now: int)
    requires forall j :: 0 <= j < |db.proxies| ==> db.proxies[j].cursor <= now
    ensures Onward(db.proxies, PromoteDuplicate(db, i, now).proxies)
  {
    hide FirstOnlineDuplicate, PromotionDue;
  }

  lemma LateOnward(db: Db, i: nat, user: nat, choice: Option<Choice>, replace: bool, c: nat, now: int)
    requires forall j :: 0 <= j < |db.proxies| ==> db.proxies[j].cursor <= now
    ensures Onward(db.proxies, LateLeave(db, i, user, choice, replace, now).proxies)
    ensures Onward(db.proxies, LatePromote(db, i, c, now).proxies)
  {}

  lemma ClaimsOnward(db: Db, e: Event, now: int)
    requires e.ClaimHealthEvent? || e.ClaimEarnappEvent? || e.ReleaseHealthEvent? || e.ReleaseEarnappEvent?
             || e.AddProxyEvent? || e.ArchiveDeadEvent? || e.AddUserEvent? || e.SetUserEvent?
    ensures Onward(db.proxies, Effect(db, e, now).proxies)
  {
    hide HealthDue, EarnappDue, DeadForADay;
  }

  lemma CursorsPast(db: Db, now: int, j: nat)
    requires Inv(db) && db.clock <= now && j < |db.proxies|
    ensures db.proxies[j].cursor <= now
  {
    assert RowOk(db.proxies[j], j, db.clock, db.cfg.stale, db.history);
  }

  /** No step takes a cursor back, the live branch that writes an earlier snapshot included. */
  lemma CursorNeverRewinds(db: Db, e: Event, delay: nat)
    requires Inv(db)
    ensures Onward(db.proxies, Step(db, e, delay).proxies)
  {
    hide Inv, Onward, ApplyHealth, ApplyEarnapp, ReplaceProxy, ArchiveProxy, LateLeave, PromoteDuplicate, LatePromote, AccrueFirst, AccrueRow;
    hide ClaimHealth, ClaimEarnapp, ReleaseHealth, ReleaseEarnapp, AddProxy, ArchiveDead, SetUser, HealthAccepted, EarnappAccepted, Owned;
    var d, now := Tick(db, delay), db.clock + delay;
    forall j: nat | j < |d.proxies|
      ensures d.proxies[j].cursor <= now
    {
      CursorsPast(db, now, j);
    }
    match e
    case HealthEvent(i, g, token, o) =>
      AcceptedRow(d, i, g, token);
      HealthOnward(d, i, g, token, o, now);
    case EarnappEvent(i, g, token, r) =>
      AcceptedRow(d, i, g, token);
      EarnappOnward(d, i, g, token, r, now);
    case ReplaceEvent(i, owner) =>
      OwnedRow(d, i, owner);
      OwnerOnward(d, i, owner, now);
    case ArchiveEvent(i, owner) =>
      OwnedRow(d, i, owner);
      OwnerOnward(d, i, owner, now);
    case LateLeaveEvent(i, owner, choice, replace) => LateOnward(d, i, owner, choice, replace, 0, now);
    case PromoteEvent(i) => PromoteOnward(d, i, now);
    case LatePromoteEvent(i, c) => LateOnward(d, i, 0, None, false, c, now);
    case AccrueAllEvent => AccrueFirstOnward(d, |d.proxies|, now);
    case AccrueOneEvent(i) =>
      if i < |d.proxies| {
        AccrueOnward(d, i, true, now);
      } else {
        SameOnward(d.proxies);
      }
    case _ => ClaimsOnward(d, e, now);
  }

  lemma AcceptedRow(db: Db, i: nat, generation: nat, token: nat)
    ensures HealthAccepted(db, i, generation, token) || EarnappAccepted(db, i, generation, token) ==> i < |db.proxies|
  {}

  lemma OwnedRow(db: Db, i: nat, user: nat)
    ensures Owned(db, i, user) ==> i < |db.proxies|
  {}

  lemma SameOnward(ps: seq<Proxy>)
    ensures Onward(ps, ps)
  {}

  /** A due accrual of an earning user is never swallowed by INSERT OR IGNORE. */
  lemma NoEntryDropped(db: Db, i: nat, now: int)
    requires Inv(db) && i < |db.proxies| && now == db.clock && AccrualDue(db, i, true, now)
    ensures var p, end := db.proxies[i], ValidatedEnd(db.cfg, db.proxies[i], now);
            var l := Credit(db.ledger, p, i, end);
            |l| > |db.ledger| && l[|l| - 1].end == end && l[|db.ledger|].start == p.cursor
  {
    var p, end := db.proxies[i], ValidatedEnd(db.cfg, db.proxies[i], now);
    var unlockAt := p.probation + PROBATION_SECONDS;
    assert RowOk(p, i, now, db.cfg.stale, db.history);
    if end < unlockAt {
      AddEntryAppends(db.ledger, EntryFor(p, i, p.cursor, end, PendingMoney), db.proxies, db.history, db.cfg.stale);
    } else {
      var u := Unlock(db.ledger, i, p.probation);
      UnlockKeeps(db.ledger, i, db.proxies, db.history, db.cfg.stale, p.generation, end) by {
        assert UnlockedCycle(db.history, i, p.generation, db.cfg.stale, p.probation, end);
      }
      if p.cursor < unlockAt {
        AddEntryAppends(u, EntryFor(p, i, p.cursor, unlockAt, Available), db.proxies, db.history, db.cfg.stale);
        AcrossAppends(u, p, i, unlockAt, end, db);
      } else {
        AddEntryAppends(u, EntryFor(p, i, p.cursor, end, Available), db.proxies, db.history, db.cfg.stale);
      }
    }
  }

  lemma AcrossAppends(u: seq<Entry>, p: Proxy, i: nat, unlockAt: int, end: int, db: Db)
    requires LedgerOk(u, db.proxies, db.history, db.cfg.stale) && i < |db.proxies| && p == db.proxies[i]
    requires p.cursor < unlockAt <= end
    ensures var first, second := EntryFor(p, i, p.cursor, unlockAt, Available), EntryFor(p, i, unlockAt, end, Available);
            AddEntry(u + [first], second) == if unlockAt < end then u + [first] + [second] else u + [first]
  {
    var v := u + [EntryFor(p, i, p.cursor, unlockAt, Available)];
    var second := EntryFor(p, i, unlockAt, end, Available);
    forall k | 0 <= k < |v|
      ensures !SameKey(v[k], second)
    {
      if k < |u| {
        assert EntryOk(u[k], db.proxies, db.history, db.cfg.stale);
      }
    }
  }

  /** In every reachable state the pending money of a proxy is exactly its current cycle's. */
  lemma PendingIsCurrentCycle(cfg: Config, trace: seq<Timed>, k: nat)
    requires ConfigOk(cfg) && k < |Run(Init(cfg), trace).ledger|
    requires Run(Init(cfg), trace).ledger[k].bucket.PendingMoney?
    ensures var db := Run(Init(cfg), trace);
            var e := db.ledger[k];
            && e.proxy < |db.proxies| && Reachable(db.proxies[e.proxy])
            && db.proxies[e.proxy].probation <= e.start
            && NoPending(Unlock(db.ledger, e.proxy, db.proxies[e.proxy].probation), e.proxy)
  {
    var db := Run(Init(cfg), trace);
    RunInv(cfg, trace);
    assert EntryOk(db.ledger[k], db.proxies, db.history, db.cfg.stale);
    UnlockTakesAll(db.ledger, db.ledger[k].proxy, db.proxies, db.history, db.cfg.stale);
  }

  /** No proxy is ever credited more than the top monthly rate for any 720 hours. */
  lemma MonthlyCap(cfg: Config, trace: seq<Timed>, i: nat, from: int)
    requires ConfigOk(cfg)
    ensures MicroInside(Run(Init(cfg), trace).ledger, i, from, from + MONTH_SECONDS) <= US_MONTHLY_MICRO_USD
  {
    var db := Run(Init(cfg), trace);
    RunInv(cfg, trace);
    RateCap(db, i, from, US_MONTHLY_MICRO_USD) by {
      forall n | 0 <= n < |db.ledger| && Inside(db.ledger[n], i, from, from + MONTH_SECONDS)
        ensures db.ledger[n].micro <= Amount(US_MONTHLY_MICRO_USD, db.ledger[n].end - db.ledger[n].start)
      {
        assert EntryOk(db.ledger[n], db.proxies, db.history, db.cfg.stale);
      }
    }
  }

  /** The same cap at a lower rate, for months in which nothing was priced above it. */
  lemma RateCap(db: Db, i: nat, from: int, rate: int)
    requires Inv(db) && 0 <= rate
    requires forall n :: 0 <= n < |db.ledger| && Inside(db.ledger[n], i, from, from + MONTH_SECONDS)
                         ==> db.ledger[n].micro <= Amount(rate, db.ledger[n].end - db.ledger[n].start)
    ensures MicroInside(db.ledger, i, from, from + MONTH_SECONDS) <= rate
  {
    var s := Slices(db.ledger, i, from, from + MONTH_SECONDS);
    forall n | 0 <= n < |db.ledger|
      ensures db.ledger[n].start < db.ledger[n].end
    {
      assert EntryOk(db.ledger[n], db.proxies, db.history, db.cfg.stale);
    }
    SlicesOrdered(db.ledger, i, from, from + MONTH_SECONDS);
    MicroAtMost(db.ledger, i, from, from + MONTH_SECONDS, rate);
    forall k | 0 <= k < |s|
      ensures from <= s[k].start && s[k].end <= from + MONTH_SECONDS
    {
      SliceOf(db.ledger, i, from, from + MONTH_SECONDS, k);
    }
    MonthBound(s, rate, from);
  }

  /** Available balances never fall, whatever happens next. */
  lemma BalanceNeverFalls(db: Db, e: Event, delay: nat, user: nat)
    requires Inv(db)
    ensures Balance(db.ledger, user, Available) <= Balance(Step(db, e, delay).ledger, user, Available)
  {
    hide Effect, Step, RowsOk, LedgerOk;
    var after := StepInv(db, e, delay);
    StepGrows(db, e, delay);
    MicroNonNegative(after);
    AvailableNeverFalls(db.ledger, after.ledger, user);
  }

  lemma MicroNonNegative(db: Db)
    requires Inv(db)
    ensures forall k :: 0 <= k < |db.ledger| ==> db.ledger[k].micro >= 0
  {
    forall k | 0 <= k < |db.ledger|
      ensures db.ledger[k].micro >= 0
    {
      assert EntryOk(db.ledger[k], db.proxies, db.history, db.cfg.stale);
    }
  }

  // ----- Identity -----

  /** A step that acts on rows read before its write lock finds them fit for what it writes. */
  ghost predicate Timely(db: Db, e: Event) {
    match e
    case LateLeaveEvent(i, owner, choice, replace) => Owned(db, i, owner) ==> LeaveFits(db.proxies, i, choice, replace)
    case LatePromoteEvent(i, c) => i < |db.proxies| && c < |db.proxies| ==> PromotionFits(db.proxies, i, c)
    case _ => true
  }

  ghost predicate TimelyRun(db: Db, trace: seq<Timed>) {
    trace != [] ==>
      && TimelyRun(db, trace[..|trace| - 1])
      && var before, last := Run(db, trace[..|trace| - 1]), trace[|trace| - 1];
         Timely(Tick(before, last.delay), last.event)
  }

  lemma StepStar(db: Db, e: Event, delay: nat) returns (after: Db)
    requires Star(db.proxies) && Timely(Tick(db, delay), e)
    ensures after == Step(db, e, delay) && Star(after.proxies)
  {
    after := Step(db, e, delay);
    var d, now := Tick(db, delay), db.clock + delay;
    hide Star, ApplyHealth, ApplyEarnapp, ReplaceProxy, ArchiveProxy, LateLeave, AddProxy, PromoteDuplicate, LatePromote, ArchiveDead, AccrueFirst, AccrueRow;
    hide Owned, LeaveFits, PromotionFits;
    match e
    case ReplaceEvent(i, owner) => LifecycleStar(d, i, owner, now);
    case ArchiveEvent(i, owner) => LifecycleStar(d, i, owner, now);
    case LateLeaveEvent(i, owner, choice, replace) => LateLeaveStar(d, i, owner, choice, replace, now);
    case AddProxyEvent(owner) => LifecycleStar(d, 0, owner, now);
    case PromoteEvent(i) => LifecycleStar(d, i, 0, now);
    case LatePromoteEvent(i, c) => LatePromoteStar(d, i, c, now);
    case HealthEvent(i, g, token, o) => HealthStar(d, i, g, token, o, now);
    case EarnappEvent(i, g, token, r) => EarnappStar(d, i, g, token, r, now);
    case ArchiveDeadEvent => BuryStar(d, now);
    case AccrueAllEvent =>
      AccrueFirstIdentity(d, |d.proxies|, now);
      IdentityKeepsStar(d.proxies, after.proxies);
    case AccrueOneEvent(i) =>
      if i < |d.proxies| {
        AccrueRowIdentity(d, i, true, now);
        IdentityKeepsStar(d.proxies, after.proxies);
      }
    case ClaimHealthEvent(_) => IdentityKeepsStar(d.proxies, after.proxies);
    case ClaimEarnappEvent(_) => IdentityKeepsStar(d.proxies, after.proxies);
    case ReleaseHealthEvent(_, _) => IdentityKeepsStar(d.proxies, after.proxies);
    case ReleaseEarnappEvent(_, _) => IdentityKeepsStar(d.proxies, after.proxies);
    case AddUserEvent(_) =>
    case SetUserEvent(_, _) =>
  }

  /** The choice is of another row of the table, as every reading gives one. */
  predicate Chosen(db: Db, e: Event) {
    e.LateLeaveEvent? && e.choice.Some? ==> e.choice.value.canonical < |db.proxies| && e.choice.value.canonical != e.i
  }

  /** Of all steps only an untimely one ever breaks the star, and every untimely one does. */
  lemma StepStarExactly(db: Db, e: Event, delay: nat)
    requires Star(db.proxies) && Chosen(db, e)
    ensures Star(Step(db, e, delay).proxies) <==> Timely(Tick(db, delay), e)
  {
    hide Star, LateLeave, LatePromote, LeaveFits, PromotionFits, Owned;
    hide ApplyHealth, ApplyEarnapp, ReplaceProxy, ArchiveProxy, AddProxy, PromoteDuplicate, ArchiveDead, AccrueFirst, AccrueRow, ClaimHealth, ClaimEarnapp;
    var d, now := Tick(db, delay), db.clock + delay;
    if Timely(d, e) {
      var _ := StepStar(db, e, delay);
    } else {
      match e
      case LateLeaveEvent(i, owner, choice, replace) => LateStepsExactly(d, i, owner, choice, replace, 0, now);
      case LatePromoteEvent(i, c) => LateStepsExactly(d, i, 0, None, false, c, now);
    }
  }

  /** Duplicate egress addresses form stars on every run whose late steps are timely. */
  lemma {:induction false} RunStar(cfg: Config, trace: seq<Timed>)
    requires TimelyRun(Init(cfg), trace)
    ensures Star(Run(Init(cfg), trace).proxies)
  {
    if trace != [] {
      hide Step, Star, Timely;
      RunStar(cfg, trace[..|trace| - 1]);
      var _ := StepStar(Run(Init(cfg), trace[..|trace| - 1]), trace[|trace| - 1].event, trace[|trace| - 1].delay);
    } else {
      assert Star([]);
    }
  }

  /** After the first `n` promotions no online row points at one of the first `n` dead rows. */
  lemma {:induction false} PromotedAway(db: Db, n: nat, now: int)
    requires Inv(db) && now == db.clock && n <= |db.proxies|
    ensures var d := PromoteDead(db, db.proxies, n, now);
            && |d.proxies| == |db.proxies|
            && (forall j :: 0 <= j < |d.proxies| ==> SameFate(db.proxies[j], d.proxies[j]))
            && (forall j, c: nat :: 0 <= j < |d.proxies| && c < n && DeadForADay(db.proxies[c], now) ==> !IsOnlineDuplicate(d.proxies[j], c))
  {
    hide RowsOk, LedgerOk, Precedes;
    if n > 0 {
      PromotedAway(db, n - 1, now);
      var d := PromoteDead(db, db.proxies, n - 1, now);
      var c := n - 1;
      if DeadForADay(db.proxies[c], now) {
        DeadIsDue(db, c, now);
        assert SameFate(db.proxies[c], d.proxies[c]);
        match FirstOnlineDuplicate(d.proxies, c, |d.proxies|)
        case None =>
        case Some(k) => assert SameFate(db.proxies[k], d.proxies[k]);
      }
    }
  }

  predicate SameFate(p: Proxy, q: Proxy) {
    p.status == q.status && p.archivedAt == q.archivedAt && p.offlineSince == q.offlineSince && p.deadSince == q.deadSince
  }

  lemma DeadIsDue(db: Db, c: nat, now: int)
    requires Inv(db) && c < |db.proxies| && DeadForADay(db.proxies[c], now)
    ensures PromotionDue(db.proxies[c], now)
  {
    assert RowOk(db.proxies[c], c, db.clock, db.cfg.stale, db.history);
  }

  /** Archiving dead rows never leaves an online row pointing at one of them. */
  lemma NoOnlineRowLeftBehind(db: Db, now: int, j: nat, c: nat)
    requires Inv(db) && now == db.clock && j < |db.proxies| && c < |db.proxies|
    requires DeadForADay(db.proxies[c], now)
    ensures var qs := ArchiveDueDead(db, now).proxies;
            |qs| == |db.proxies| && qs[c].status.Archived? && !IsOnlineDuplicate(qs[j], c)
  {
    PromotedAway(db, |db.proxies|, now);
    var d := PromoteDead(db, db.proxies, |db.proxies|, now);
    assert SameFate(db.proxies[c], d.proxies[c]) && SameFate(db.proxies[j], d.proxies[j]);
    assert !IsOnlineDuplicate(d.proxies[j], c);
    hide PromoteDead, RowsOk, LedgerOk;
  }

  /** Re-homing a group leaves every cursor where it was; only a promotion starts the new canonical
      row's accrual at the present.  When this pays a second of an address again is settled in
      AddressPayments.dfy. */
  lemma OnlyPromotionMovesTheCursor(db: Db, ip: Ip, prefer: bool, exclude: Option<nat>, canonical: nat, now: int, j: nat)
    requires j < |db.proxies|
    ensures Canonicalize(db, ip, prefer, exclude, now).proxies[j].cursor == db.proxies[j].cursor
    ensures var qs := PromoteDuplicate(db, canonical, now).proxies;
            |qs| == |db.proxies| && (db.proxies[j].duplicateOf.Some? && qs[j].duplicateOf.None? ==> qs[j].cursor == now)
  {
    hide Canonical, Precedes;
  }
}
