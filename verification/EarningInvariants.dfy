/** The row and ledger invariants hold after every transaction of every run. */
module EarningInvariants {
  import opened Wrappers
  import opened EarningModel
  import opened RowInvariants
  import opened LedgerInvariants

  ghost predicate RowsOk(ps: seq<Proxy>, clock: int, stale: int, h: set<Success>) {
    forall i :: 0 <= i < |ps| ==> RowOk(ps[i], i, clock, stale, h)
  }

  ghost predicate Inv(db: Db) {
    && ConfigOk(db.cfg)
    && RowsOk(db.proxies, db.clock, db.cfg.stale, db.history)
    && LedgerOk(db.ledger, db.proxies, db.history, db.cfg.stale)
  }

  /** Rows change at most in the columns reconciliation writes, and nothing but rows and buckets changes. */
  ghost predicate IdentityStep(a: Db, b: Db) {
    && b.cfg == a.cfg && b.users == a.users && b.clock == a.clock && b.history == a.history
    && |b.proxies| == |a.proxies| && |b.ledger| == |a.ledger|
    && (forall j :: 0 <= j < |a.proxies| ==> SameCore(a.proxies[j], b.proxies[j]))
    && (forall i :: NoPending(a.ledger, i) ==> NoPending(b.ledger, i))
  }

  lemma TickInv(db: Db, delay: nat)
    requires Inv(db)
    ensures Inv(Tick(db, delay))
  {
    var later := db.clock + delay;
    forall i | 0 <= i < |db.proxies|
      ensures RowOk(db.proxies[i], i, later, db.cfg.stale, db.history)
    {
      TimeKeepsRow(db.proxies[i], i, db.clock, later, db.cfg.stale, db.history, db.history);
    }
  }

  /** Replacing one row, and possibly recording a success. */
  lemma SetRowInv(db: Db, i: nat, q: Proxy, k: set<Success>)
    requires Inv(db) && i < |db.proxies| && db.history <= k
    requires RowOk(q, i, db.clock, db.cfg.stale, k)
    requires RowMayBecome(db.proxies[i], q, i, db.ledger)
    ensures Inv(SetRow(db, i, q).(history := k))
  {
    var qs := db.proxies[i := q];
    forall j | 0 <= j < |qs|
      ensures RowOk(qs[j], j, db.clock, db.cfg.stale, k)
    {
      if j != i {
        TimeKeepsRow(db.proxies[j], j, db.clock, db.clock, db.cfg.stale, db.history, k);
      }
    }
    RowsMove(db.ledger, db.proxies, qs, db.history, k, db.cfg.stale);
  }

  lemma ExpireInv(db: Db, owners: set<nat>)
    requires Inv(db)
    ensures Inv(db.(ledger := ExpireAll(db.ledger, owners)))
    ensures IdentityStep(db, db.(ledger := ExpireAll(db.ledger, owners)))
    ensures forall i :: i in owners ==> NoPending(ExpireAll(db.ledger, owners), i)
  {
    ExpireKeeps(db.ledger, owners, db.proxies, db.history, db.cfg.stale);
  }

  /** What one accrual of row i may change: its cursor, and its own part of the ledger. */
  ghost predicate AccrualStep(a: Db, b: Db, i: nat) {
    && b.cfg == a.cfg && b.users == a.users && b.clock == a.clock && b.history == a.history && b.nextToken == a.nextToken
    && i < |a.proxies| == |b.proxies|
    && a.proxies[i].cursor <= b.proxies[i].cursor
    && b.proxies == a.proxies[i := a.proxies[i].(cursor := b.proxies[i].cursor)]
  }

  lemma AccrueRowInv(db: Db, i: nat, suspectToo: bool, now: int)
    requires Inv(db) && i < |db.proxies| && now == db.clock
    ensures Inv(AccrueRow(db, i, suspectToo, now)) && AccrualStep(db, AccrueRow(db, i, suspectToo, now), i)
  {
    if AccrualDue(db, i, suspectToo, now) {
      var p := db.proxies[i];
      var q := p.(cursor := ValidatedEnd(db.cfg, p, now));
      AccruedRowOk(db.cfg, p, i, now, db.history);
      SetRowInv(db, i, q, db.history);
      CreditKeeps(db, i, now);
    } else {
      assert db.proxies[i := db.proxies[i]] == db.proxies;
    }
  }

  lemma {:induction false} AccrueFirstInv(db: Db, n: nat, now: int)
    requires Inv(db) && n <= |db.proxies| && now == db.clock
    ensures Inv(AccrueFirst(db, n, now))
  {
    if n > 0 {
      AccrueFirstInv(db, n - 1, now);
      var d := AccrueFirst(db, n - 1, now);
      hide RowsOk, LedgerOk, AccrueRow;
      assert Inv(AccrueRow(d, n - 1, false, now)) by { AccrueRowInv(d, n - 1, false, now); }
      assert AccrueFirst(db, n, now) == AccrueRow(d, n - 1, false, now);
    }
  }

  // ----- Egress identity -----

  /** Rows moved by reconciliation keep both invariants. */
  lemma IdentityRowsInv(db: Db, qs: seq<Proxy>)
    requires Inv(db) && |qs| == |db.proxies|
    requires forall j :: 0 <= j < |qs| ==> SameCore(db.proxies[j], qs[j])
    ensures Inv(db.(proxies := qs))
  {
    forall j | 0 <= j < |qs|
      ensures RowOk(qs[j], j, db.clock, db.cfg.stale, db.history)
    {
      CoreKeepsRow(db.proxies[j], qs[j], j, db.clock, db.cfg.stale, db.history);
    }
    RowsMove(db.ledger, db.proxies, qs, db.history, db.history, db.cfg.stale);
  }

  lemma CanonicalizeInv(db: Db, ip: Ip, prefer: bool, exclude: Option<nat>, now: int)
    requires Inv(db)
    ensures Inv(Canonicalize(db, ip, prefer, exclude, now))
    ensures IdentityStep(db, Canonicalize(db, ip, prefer, exclude, now))
  {
    match Choose(db.proxies, ip, prefer, exclude, now)
    case None =>
    case Some(choice) => RehomeInv(db, choice, exclude);
  }

  /** The rows are sound whatever was chosen. */
  lemma RehomeInv(db: Db, choice: Choice, exclude: Option<nat>)
    requires Inv(db)
    ensures Inv(Rehome(db, choice, exclude)) && IdentityStep(db, Rehome(db, choice, exclude))
  {
    ExpireInv(db, choice.losers);
    IdentityRowsInv(db.(ledger := ExpireAll(db.ledger, choice.losers)), Repoint(db.proxies, choice.ip, exclude, choice.canonical));
  }

  lemma ReconcileInv(db: Db, i: nat, ip: Ip, source: Attestation, now: int)
    requires Inv(db) && i < |db.proxies|
    ensures Inv(ReconcileExitIp(db, i, ip, source, now))
    ensures IdentityStep(db, ReconcileExitIp(db, i, ip, source, now))
  {
    var p := db.proxies[i];
    if Active(p) && source != Unattested {
      var named := SetRow(db, i, WithExit(p, ip, source, now));
      IdentityRowsInv(db, named.proxies);
      CanonicalizeInv(named, ip, p.verifiedAt.Some?, None, now);
      var d := Canonicalize(named, ip, p.verifiedAt.Some?, None, now);
      if p.exitIp.Some? && p.exitIp.value != ip {
        CanonicalizeInv(d, p.exitIp.value, false, None, now);
      }
    }
  }

  // ----- Results -----

  lemma LiveInv(db: Db, i: nat, o: HealthOutcome, now: int)
    requires Inv(db) && i < |db.proxies| && now == db.clock && o.Live? && Active(db.proxies[i])
    ensures Inv(ApplyLive(db, i, o, now)) && ApplyLive(db, i, o, now).clock == now
  {
    var p := db.proxies[i];
    var broken := CycleBroken(db.cfg, p, o, now);
    var credited := if broken && Earning(p.eligibility) then AccrueRow(db, i, true, now) else db;
    AccrueRowInv(db, i, true, now);
    var closed := if broken then ExpirePendingCycle(credited, i) else credited;
    ExpireInv(credited, {i});
    var k := db.history + {Success(i, p.generation, now)};
    LiveRowOk(db.cfg, p, i, o, now, db.history);
    DownHasNoPending(db, i);
    SetRowInv(closed, i, LiveRow(db.cfg, p, o, now), k);
    var written := SetRow(closed, i, LiveRow(db.cfg, p, o, now)).(history := k);
    if TrustedObservation(o).Some? {
      ReconcileInv(written, i, TrustedObservation(o).value, HttpsQuorum, now);
    }
  }

  /** A row that is not up holds no pending money. */
  lemma DownHasNoPending(db: Db, i: nat)
    requires Inv(db) && i < |db.proxies|
    ensures !Reachable(db.proxies[i]) ==> NoPending(db.ledger, i)
  {
    forall k | 0 <= k < |db.ledger| && db.ledger[k].proxy == i && !Reachable(db.proxies[i])
      ensures !db.ledger[k].bucket.PendingMoney?
    {
      assert EntryOk(db.ledger[k], db.proxies, db.history, db.cfg.stale);
    }
  }

  lemma BlockedInv(db: Db, i: nat, now: int)
    requires Inv(db) && i < |db.proxies| && now == db.clock && Active(db.proxies[i])
    ensures Inv(ApplyBlocked(db, i, now)) && ApplyBlocked(db, i, now).clock == now
  {
    var p := db.proxies[i];
    var credited := if Earning(p.eligibility) then AccrueRow(db, i, true, now) else db;
    AccrueRowInv(db, i, true, now);
    ExpireInv(credited, {i});
    BlockedRowOk(db.cfg, p, i, now, db.history);
    SetRowInv(ExpirePendingCycle(credited, i), i, BlockedRow(db.cfg, p, now), db.history);
  }

  lemma FailureInv(db: Db, i: nat, now: int)
    requires Inv(db) && i < |db.proxies| && now == db.clock && Active(db.proxies[i])
    ensures Inv(ApplyFailure(db, i, now)) && ApplyFailure(db, i, now).clock == now
  {
    var p := db.proxies[i];
    var credited := if GoesOffline(p) && Earning(p.eligibility) && Reachable(p) then AccrueRow(db, i, true, now) else db;
    AccrueRowInv(db, i, true, now);
    ExpireInv(credited, {i});
    FailureRowOk(db.cfg, p, i, now, db.history);
    DownHasNoPending(db, i);
    var closed := if GoesOffline(p) then ExpirePendingCycle(credited, i) else credited;
    SetRowInv(closed, i, FailureRow(db.cfg, p, now), db.history);
  }

  lemma HealthInv(db: Db, i: nat, generation: nat, token: nat, o: HealthOutcome, now: int)
    requires Inv(db) && now == db.clock
    ensures Inv(ApplyHealth(db, i, generation, token, o, now)) && ApplyHealth(db, i, generation, token, o, now).clock == now
  {
    if HealthAccepted(db, i, generation, token) {
      match o
      case Live(_, _) => LiveInv(db, i, o, now);
      case ProviderBlocked => BlockedInv(db, i, now);
      case Dead => FailureInv(db, i, now);
      case Inconclusive => SetRowInv(db, i, ApplyHealth(db, i, generation, token, o, now).proxies[i], db.history);
      case ConfirmEgress => SetRowInv(db, i, ApplyHealth(db, i, generation, token, o, now).proxies[i], db.history);
    }
  }

  lemma ResetInv(db: Db, i: nat, now: int)
    requires Inv(db) && i < |db.proxies| && now == db.clock
    ensures Inv(ResetProbation(db, i, now)) && NoPending(ResetProbation(db, i, now).ledger, i)
  {
    ExpireInv(db, {i});
    ResetRowOk(db.proxies[i], i, now, db.cfg.stale, db.history);
    SetRowInv(ExpirePendingCycle(db, i), i, db.proxies[i].(probation := now, cursor := now), db.history);
  }

  lemma EarnappInv(db: Db, i: nat, generation: nat, token: nat, r: EarnappReport, now: int)
    requires Inv(db) && now == db.clock
    ensures Inv(ApplyEarnapp(db, i, generation, token, r, now)) && ApplyEarnapp(db, i, generation, token, r, now).clock == now
  {
    if EarnappAccepted(db, i, generation, token) {
      var p := db.proxies[i];
      assert RowOk(p, i, now, db.cfg.stale, db.history);
      var changed := p.eligibility != Classify(p, r);
      var credited := if changed && Earning(p.eligibility) then AccrueRow(db, i, true, now) else db;
      AccrueRowInv(db, i, true, now);
      var reset := changed || EarnappEgressChanged(p, r);
      var closed := if reset then ResetProbation(credited, i, now) else credited;
      ResetInv(credited, i, now);
      var identified := match Authenticated(r)
        case None => closed
        case Some(ip) => ReconcileExitIp(closed, i, ip, EarnappTls, now);
      if Authenticated(r).Some? {
        ReconcileInv(closed, i, Authenticated(r).value, EarnappTls, now);
      }
      var q := identified.proxies[i];
      assert SameCore(closed.proxies[i], q);
      EarnappRowOk(db.cfg, q, p, i, r, now, db.history);
      SetRowInv(identified, i, EarnappRow(db.cfg, q, p, r, now), db.history);
    }
  }

  // ----- Lifecycle -----

  lemma LeaveGroupInv(db: Db, i: nat, now: int)
    requires Inv(db) && i < |db.proxies|
    ensures Inv(LeaveGroup(db, i, now)) && IdentityStep(db, LeaveGroup(db, i, now))
    ensures NoPending(LeaveGroup(db, i, now).ledger, i)
  {
    if db.proxies[i].exitIp.Some? {
      var left := Canonicalize(db, db.proxies[i].exitIp.value, false, Some(i), now);
      CanonicalizeInv(db, db.proxies[i].exitIp.value, false, Some(i), now);
      ExpireInv(left, {i});
    } else {
      ExpireInv(db, {i});
    }
  }

  lemma LeaveInv(db: Db, i: nat, user: nat, now: int)
    requires Inv(db) && now == db.clock && Owned(db, i, user)
    ensures Inv(ReplaceProxy(db, i, user, now)) && Inv(ArchiveProxy(db, i, user, now))
    ensures ReplaceProxy(db, i, user, now).clock == now && ArchiveProxy(db, i, user, now).clock == now
  {
    var p := db.proxies[i];
    var d := LeaveGroup(db, i, now);
    LeaveGroupInv(db, i, now);
    ReplacedRowOk(p, i, now, db.cfg.stale, db.history);
    assert RowOk(p, i, now, db.cfg.stale, db.history);
    SetRowInv(d, i, ReplacedRow(p, now), db.history);
    SetRowInv(d, i, ArchivedRow(p, now), db.history);
  }

  lemma AddProxyInv(db: Db, user: nat, now: int)
    requires Inv(db) && now == db.clock
    ensures Inv(AddProxy(db, user, now)) && AddProxy(db, user, now).clock == now
  {
    if user < |db.users| {
      var qs := db.proxies + [NewRow(user, now)];
      NewRowOk(user, |db.proxies|, now, db.cfg.stale, db.history);
      RowsMove(db.ledger, db.proxies, qs, db.history, db.history, db.cfg.stale);
    }
  }

  /** A replacement or an archival is sound even if its choice is out of date. */
  lemma LateLeaveInv(db: Db, i: nat, user: nat, choice: Option<Choice>, replace: bool, now: int)
    requires Inv(db) && now == db.clock
    ensures Inv(LateLeave(db, i, user, choice, replace, now)) && LateLeave(db, i, user, choice, replace, now).clock == now
  {
    if Owned(db, i, user) {
      var p := db.proxies[i];
      var left := if choice.Some? then Rehome(db, choice.value, Some(i)) else db;
      if choice.Some? {
        RehomeInv(db, choice.value, Some(i));
      }
      ExpireInv(left, {i});
      ReplacedRowOk(p, i, now, db.cfg.stale, db.history);
      assert RowOk(p, i, now, db.cfg.stale, db.history);
      var q := if replace then ReplacedRow(p, now) else ArchivedRow(p, now);
      SetRowInv(ExpirePendingCycle(left, i), i, q, db.history);
    }
  }

  /** So is a promotion, of whatever row. */
  lemma PromoteToInv(db: Db, canonical: nat, c: nat, now: int)
    requires Inv(db) && now == db.clock && c < |db.proxies|
    ensures Inv(PromoteTo(db, canonical, c, now)) && PromoteTo(db, canonical, c, now).clock == now
  {
    ExpireInv(db, {canonical});
    var d := ExpirePendingCycle(db, canonical);
    IdentityRowsInv(d, PromoteRows(db.proxies, canonical, c));
    ResetInv(d.(proxies := PromoteRows(db.proxies, canonical, c)), c, now);
  }

  lemma PromoteInv(db: Db, canonical: nat, now: int)
    requires Inv(db) && now == db.clock
    ensures Inv(PromoteDuplicate(db, canonical, now)) && PromoteDuplicate(db, canonical, now).clock == now
  {
    if canonical < |db.proxies| && PromotionDue(db.proxies[canonical], now) {
      match FirstOnlineDuplicate(db.proxies, canonical, |db.proxies|)
      case None =>
      case Some(c) => PromoteToInv(db, canonical, c, now);
    }
  }

  /** Rows rewritten one by one, each keeping its own invariant and its pending money. */
  lemma RowwiseInv(db: Db, qs: seq<Proxy>)
    requires Inv(db) && |qs| == |db.proxies|
    requires forall j :: 0 <= j < |qs| ==> RowOk(qs[j], j, db.clock, db.cfg.stale, db.history)
    requires forall j :: 0 <= j < |qs| ==> RowMayBecome(db.proxies[j], qs[j], j, db.ledger)
    ensures Inv(db.(proxies := qs))
  {
    RowsMove(db.ledger, db.proxies, qs, db.history, db.history, db.cfg.stale);
  }

  lemma ArchiveDeadInv(db: Db, now: int)
    requires Inv(db) && now == db.clock
    ensures Inv(ArchiveDead(db, now)) && ArchiveDead(db, now).clock == now
  {
    var qs := ArchiveDead(db, now).proxies;
    forall j | 0 <= j < |qs|
      ensures RowOk(qs[j], j, now, db.cfg.stale, db.history) && RowMayBecome(db.proxies[j], qs[j], j, db.ledger)
    {
      assert RowOk(db.proxies[j], j, now, db.cfg.stale, db.history);
      DownHasNoPending(db, j);
    }
    RowwiseInv(db, qs);
  }

  lemma ClaimInv(db: Db, ids: set<nat>, now: int)
    requires Inv(db) && now == db.clock
    ensures Inv(ClaimHealth(db, ids, now)) && ClaimHealth(db, ids, now).clock == now
    ensures Inv(ClaimEarnapp(db, ids, now)) && ClaimEarnapp(db, ids, now).clock == now
  {
    var hs, es := ClaimHealth(db, ids, now).proxies, ClaimEarnapp(db, ids, now).proxies;
    forall j | 0 <= j < |db.proxies|
      ensures RowOk(hs[j], j, now, db.cfg.stale, db.history) && RowOk(es[j], j, now, db.cfg.stale, db.history)
    {
      assert RowOk(db.proxies[j], j, now, db.cfg.stale, db.history);
    }
    RowwiseInv(db, hs);
    RowwiseInv(db, es);
  }

  lemma ReleaseInv(db: Db, i: nat, token: nat, now: int)
    requires Inv(db) && now == db.clock
    ensures Inv(ReleaseHealth(db, i, token, now)) && ReleaseHealth(db, i, token, now).clock == now
    ensures Inv(ReleaseEarnapp(db, i, token, now)) && ReleaseEarnapp(db, i, token, now).clock == now
  {
    if i < |db.proxies| {
      assert RowOk(db.proxies[i], i, now, db.cfg.stale, db.history);
      if db.proxies[i].checkToken == Some(token) {
        SetRowInv(db, i, ReleaseHealth(db, i, token, now).proxies[i], db.history);
      }
      if db.proxies[i].earnappToken == Some(token) {
        SetRowInv(db, i, ReleaseEarnapp(db, i, token, now).proxies[i], db.history);
      }
    }
  }

  // ----- Runs -----

  lemma EffectInv(db: Db, e: Event, now: int)
    requires Inv(db) && now == db.clock
    ensures Inv(Effect(db, e, now))
  {
    hide ApplyHealth, ApplyEarnapp, AccrueFirst, AccrueRow, LateLeave, PromoteTo, PromoteDuplicate, ArchiveDead, ClaimHealth, ClaimEarnapp;
    match e
    case AddUserEvent(_) =>
    case SetUserEvent(_, _) =>
    case AddProxyEvent(owner) => AddProxyInv(db, owner, now);
    case ReplaceEvent(i, owner) => if Owned(db, i, owner) { LeaveInv(db, i, owner, now); }
    case ArchiveEvent(i, owner) => if Owned(db, i, owner) { LeaveInv(db, i, owner, now); }
    case ClaimHealthEvent(ids) => ClaimInv(db, ids, now);
    case ClaimEarnappEvent(ids) => ClaimInv(db, ids, now);
    case ReleaseHealthEvent(i, token) => ReleaseInv(db, i, token, now);
    case ReleaseEarnappEvent(i, token) => ReleaseInv(db, i, token, now);
    case HealthEvent(i, g, token, o) => HealthInv(db, i, g, token, o, now);
    case EarnappEvent(i, g, token, r) => EarnappInv(db, i, g, token, r, now);
    case AccrueAllEvent => AccrueFirstInv(db, |db.proxies|, now);
    case AccrueOneEvent(i) => if i < |db.proxies| { AccrueRowInv(db, i, true, now); }
    case LateLeaveEvent(i, owner, choice, replace) => LateLeaveInv(db, i, owner, choice, replace, now);
    case PromoteEvent(i) => PromoteInv(db, i, now);
    case LatePromoteEvent(i, c) => if i < |db.proxies| && c < |db.proxies| { PromoteToInv(db, i, c, now); }
    case ArchiveDeadEvent => ArchiveDeadInv(db, now);
  }

  lemma StepInv(db: Db, e: Event, delay: nat) returns (after: Db)
    requires Inv(db)
    ensures after == Step(db, e, delay) && Inv(after)
  {
    hide Effect, RowsOk, LedgerOk;
    after := Step(db, e, delay);
    TickInv(db, delay);
    EffectInv(Tick(db, delay), e, db.clock + delay);
  }

  /** Every run from the empty database keeps the invariant. */
  lemma {:induction false} RunInv(cfg: Config, trace: seq<Timed>)
    requires ConfigOk(cfg)
    ensures Inv(Run(Init(cfg), trace))
  {
    if trace != [] {
      var last := trace[|trace| - 1];
      RunInv(cfg, trace[..|trace| - 1]);
      var _ := StepInv(Run(Init(cfg), trace[..|trace| - 1]), last.event, last.delay);
    }
  }
}
