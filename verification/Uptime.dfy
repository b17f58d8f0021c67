/** The uptime shown to a proxy's owner: online time taken from the ledger, offline time from the
    row's own clock (app/services/uptime.py:44-77, app/services/earnings.py:57-151).

    The two are kept by different writers, in different places.  `Room` is what the credentials'
    age leaves once both are taken from it; no transaction ever uses up more than there is. */
module UptimeDisplay {
  import opened Wrappers
  import opened Intervals
  import opened EarningModel
  import opened RowInvariants
  import opened LedgerInvariants
  import opened EarningInvariants
  import opened Projection

  datatype Uptime = Uptime(online: int, offline: int)

  /** `uptime_hours` before rounding.  `stale` is None when the caller passes no limit, and `earned`
      is the ledger's online time when the caller passes one. */
  function UptimeSeconds(p: Proxy, now: int, earningEnabled: bool, stale: Option<int>, earned: Option<int>): Uptime {
    var online := if !earningEnabled then 0 else if earned.Some? then Max(0, earned.value) else Max(0, p.accOnline);
    var offline := Max(0, p.accOffline);
    if earned.None? && Reachable(p) && p.onlineSince.Some? then
      var until := if stale.None? then now
                   else if p.lastSuccess.None? then p.onlineSince.value
                   else Min(now, p.lastSuccess.value + Max(0, stale.value));
      Uptime(online + (if earningEnabled then Max(0, until - p.onlineSince.value) else 0), offline)
    else if Down(p) && p.offlineSince.Some? then
      Uptime(online, offline + Max(0, now - p.offlineSince.value))
    else Uptime(online, offline)
  }

  /** Ledger seconds that count for the credentials in place since `from`. */
  function Seconds(l: seq<Entry>, i: nat, from: int): int {
    if l == [] then 0
    else
      var e := l[|l| - 1];
      Seconds(l[..|l| - 1], i, from) + (if Counts(e, i, from) then e.end - e.start else 0)
  }

  /** The moment up to which the row's time is spoken for. */
  function Accounted(p: Proxy, clock: int): int {
    if p.status.Archived? then clock
    else if Down(p) && p.offlineSince.Some? then p.offlineSince.value
    else p.cursor
  }

  function RowRoom(p: Proxy, clock: int): int {
    Accounted(p, clock) - p.credentialStart - p.accOffline
  }

  function Room(db: Db, i: nat): int
    requires i < |db.proxies|
  {
    RowRoom(db.proxies[i], db.clock) - Seconds(db.ledger, i, db.proxies[i].credentialStart)
  }

  ghost predicate RoomInv(db: Db) {
    forall i: nat :: i < |db.proxies| ==> Room(db, i) >= 0
  }

  ghost predicate NoTighter(a: Db, b: Db) {
    |a.proxies| == |b.proxies| && forall i: nat :: i < |a.proxies| ==> Room(a, i) <= Room(b, i)
  }

  // ----- The ledger part -----

  lemma {:induction false} ExpireSeconds(l: seq<Entry>, owners: set<nat>, i: nat, from: int)
    requires Forward(l)
    ensures Seconds(ExpireAll(l, owners), i, from) <= Seconds(l, i, from)
  {
    if l != [] {
      ExpireSeconds(l[..|l| - 1], owners, i, from);
      assert ExpireAll(l, owners)[..|l| - 1] == ExpireAll(l[..|l| - 1], owners);
    }
  }

  lemma {:induction false} UnlockSeconds(l: seq<Entry>, j: nat, at: int, i: nat, from: int)
    ensures Seconds(Unlock(l, j, at), i, from) == Seconds(l, i, from)
  {
    if l != [] {
      UnlockSeconds(l[..|l| - 1], j, at, i, from);
      assert Unlock(l, j, at)[..|l| - 1] == Unlock(l[..|l| - 1], j, at);
    }
  }

  /** An inserted entry adds at most its own length, and only to its own proxy. */
  lemma AddSeconds(l: seq<Entry>, e: Entry, i: nat, from: int)
    ensures Seconds(AddEntry(l, e), i, from) <= Seconds(l, i, from) + (if e.proxy == i then Max(0, e.end - e.start) else 0)
  {
    assert (l + [e])[..|l|] == l;
  }

  lemma CreditSeconds(l: seq<Entry>, p: Proxy, j: nat, end: int, i: nat, from: int)
    requires p.cursor <= end
    ensures Seconds(Credit(l, p, j, end), i, from) <= Seconds(l, i, from) + (if j == i then end - p.cursor else 0)
  {
    hide Seconds, AddEntry, Unlock;
    var unlockAt, u := p.probation + PROBATION_SECONDS, Unlock(l, j, p.probation);
    UnlockSeconds(l, j, p.probation, i, from);
    if end < unlockAt {
      AddSeconds(l, EntryFor(p, j, p.cursor, end, PendingMoney), i, from);
    } else if p.cursor < unlockAt {
      var first := EntryFor(p, j, p.cursor, unlockAt, Available);
      AddSeconds(u, first, i, from);
      AddSeconds(AddEntry(u, first), EntryFor(p, j, unlockAt, end, Available), i, from);
    } else {
      AddSeconds(u, EntryFor(p, j, p.cursor, end, Available), i, from);
    }
  }

  /** New credentials start with nothing counted. */
  lemma {:induction false} FreshSeconds(l: seq<Entry>, i: nat, from: int)
    requires forall k :: 0 <= k < |l| && l[k].proxy == i ==> l[k].start < from
    ensures Seconds(l, i, from) == 0
  {
    if l != [] {
      FreshSeconds(l[..|l| - 1], i, from);
    }
  }

  lemma {:induction false} SecondsAreCredited(l: seq<Entry>, i: nat, from: int, now: int)
    requires forall k :: 0 <= k < |l| && l[k].proxy == i ==> l[k].start < l[k].end <= now
    ensures Seconds(l, i, from) == TotalLength(CreditedIntervals(l, i, from, now))
  {
    if l != [] {
      var before := CreditedIntervals(l[..|l| - 1], i, from, now);
      SecondsAreCredited(l[..|l| - 1], i, from, now);
      LengthAppend(before, Bounded(l[|l| - 1], now));
    }
  }

  lemma EntryFits(db: Db, k: nat)
    requires Inv(db) && k < |db.ledger|
    ensures db.ledger[k].proxy < |db.proxies| && db.ledger[k].start < db.ledger[k].end <= db.proxies[db.ledger[k].proxy].cursor <= db.clock
  {
    assert EntryOk(db.ledger[k], db.proxies, db.history, db.cfg.stale);
    assert RowOk(db.proxies[db.ledger[k].proxy], db.ledger[k].proxy, db.clock, db.cfg.stale, db.history);
  }

  ghost predicate Forward(l: seq<Entry>) {
    forall k :: 0 <= k < |l| ==> l[k].start <= l[k].end
  }

  lemma LedgerIsForward(db: Db)
    requires Inv(db)
    ensures Forward(db.ledger)
  {
    forall k | 0 <= k < |db.ledger|
      ensures db.ledger[k].start <= db.ledger[k].end
    {
      EntryFits(db, k);
    }
  }

  // ----- Elementary writes -----

  lemma NoTighterOnwards(a: Db, b: Db, c: Db)
    requires NoTighter(a, b) && NoTighter(b, c)
    ensures NoTighter(a, c)
  {
    hide Room;
    forall i: nat | i < |a.proxies|
      ensures Room(a, i) <= Room(c, i)
    {
      assert Room(a, i) <= Room(b, i) && Room(b, i) <= Room(c, i);
    }
  }

  lemma ExpireRoom(db: Db, owners: set<nat>)
    requires Forward(db.ledger)
    ensures NoTighter(db, db.(ledger := ExpireAll(db.ledger, owners))) && Forward(ExpireAll(db.ledger, owners))
  {
    hide Seconds, RowRoom;
    forall i: nat | i < |db.proxies|
      ensures Seconds(ExpireAll(db.ledger, owners), i, db.proxies[i].credentialStart) <= Seconds(db.ledger, i, db.proxies[i].credentialStart)
    {
      ExpireSeconds(db.ledger, owners, i, db.proxies[i].credentialStart);
    }
  }

  lemma RowsRoom(db: Db, qs: seq<Proxy>, h: set<Success>, nextToken: nat)
    requires |db.proxies| == |qs|
    requires forall j :: 0 <= j < |db.proxies| ==> db.proxies[j].credentialStart == qs[j].credentialStart
    requires forall j :: 0 <= j < |db.proxies| ==> RowRoom(db.proxies[j], db.clock) <= RowRoom(qs[j], db.clock)
    ensures NoTighter(db, db.(proxies := qs, history := h, nextToken := nextToken))
  {
    hide Seconds, RowRoom;
  }

  /** Accruing a row spends exactly the room its cursor gains. */
  lemma AccrueRoom(db: Db, j: nat, suspectToo: bool, now: int)
    requires Inv(db) && j < |db.proxies| && now == db.clock
    ensures NoTighter(db, AccrueRow(db, j, suspectToo, now))
  {
    hide Seconds, Credit, Inv;
    if AccrualDue(db, j, suspectToo, now) {
      var p, end := db.proxies[j], ValidatedEnd(db.cfg, db.proxies[j], now);
      var d := AccrueRow(db, j, suspectToo, now);
      forall i: nat | i < |db.proxies|
        ensures Room(db, i) <= Room(d, i)
      {
        CreditSeconds(db.ledger, p, j, end, i, db.proxies[i].credentialStart);
      }
    }
  }

  lemma {:induction false} AccrueFirstRoom(db: Db, n: nat, now: int)
    requires Inv(db) && n <= |db.proxies| && now == db.clock
    ensures NoTighter(db, AccrueFirst(db, n, now))
  {
    hide AccrueRow, Room, Inv;
    if n > 0 {
      var d := AccrueFirst(db, n - 1, now);
      AccrueFirstRoom(db, n - 1, now);
      AccrueFirstInv(db, n - 1, now);
      AccrueRoom(d, n - 1, false, now);
      NoTighterOnwards(db, d, AccrueRow(d, n - 1, false, now));
    }
  }

  lemma RehomeRoom(db: Db, choice: Choice, exclude: Option<nat>)
    requires Forward(db.ledger)
    ensures NoTighter(db, Rehome(db, choice, exclude)) && Forward(Rehome(db, choice, exclude).ledger)
  {
    hide Room, Forward;
    var qs, d := Repoint(db.proxies, choice.ip, exclude, choice.canonical), db.(ledger := ExpireAll(db.ledger, choice.losers));
    ExpireRoom(db, choice.losers);
    RowsRoom(d, qs, d.history, d.nextToken);
    NoTighterOnwards(db, d, d.(proxies := qs));
  }

  lemma CanonicalizeRoom(db: Db, ip: Ip, prefer: bool, exclude: Option<nat>, now: int)
    requires Forward(db.ledger)
    ensures NoTighter(db, Canonicalize(db, ip, prefer, exclude, now)) && Forward(Canonicalize(db, ip, prefer, exclude, now).ledger)
  {
    match Choose(db.proxies, ip, prefer, exclude, now)
    case None => assert NoTighter(db, db);
    case Some(choice) => RehomeRoom(db, choice, exclude);
  }

  lemma ReconcileRoom(db: Db, i: nat, ip: Ip, source: Attestation, now: int)
    requires Forward(db.ledger) && i < |db.proxies|
    ensures NoTighter(db, ReconcileExitIp(db, i, ip, source, now)) && Forward(ReconcileExitIp(db, i, ip, source, now).ledger)
  {
    var p := db.proxies[i];
    hide Seconds;
    if Active(p) && source != Unattested {
      var named := SetRow(db, i, WithExit(p, ip, source, now));
      RowsRoom(db, named.proxies, db.history, db.nextToken);
      hide Room, Forward, Canonicalize;
      assert named == db.(proxies := named.proxies);
      var d := Canonicalize(named, ip, p.verifiedAt.Some?, None, now);
      CanonicalizeRoom(named, ip, p.verifiedAt.Some?, None, now);
      NoTighterOnwards(db, named, d);
      if p.exitIp.Some? && p.exitIp.value != ip {
        var both := Canonicalize(d, p.exitIp.value, false, None, now);
        CanonicalizeRoom(d, p.exitIp.value, false, None, now);
        NoTighterOnwards(db, d, both);
      }
    } else {
      assert NoTighter(db, db);
    }
  }

  lemma SetRowRoom(db: Db, i: nat, q: Proxy, h: set<Success>)
    requires i < |db.proxies| && q.credentialStart == db.proxies[i].credentialStart
    requires RowRoom(db.proxies[i], db.clock) <= RowRoom(q, db.clock)
    ensures NoTighter(db, SetRow(db, i, q).(history := h))
  {
    hide RowRoom;
    RowsRoom(db, db.proxies[i := q], h, db.nextToken);
  }

  /** Closing a cycle: an accrual that may be due, then the pending money of the row expires. */
  lemma CloseRoom(db: Db, i: nat, credit: bool, expire: bool, now: int)
    requires Inv(db) && i < |db.proxies| && now == db.clock
    ensures var credited := if credit then AccrueRow(db, i, true, now) else db;
            var closed := if expire then ExpirePendingCycle(credited, i) else credited;
            && NoTighter(db, closed) && Forward(closed.ledger) && closed.clock == now
            && |closed.proxies| == |db.proxies| && db.proxies[i].cursor <= closed.proxies[i].cursor <= now
            && closed.proxies[i] == db.proxies[i].(cursor := closed.proxies[i].cursor)
            && (!credit || !Reachable(db.proxies[i]) ==> closed.proxies[i].cursor == db.proxies[i].cursor)
  {
    var credited := if credit then AccrueRow(db, i, true, now) else db;
    AccrueRowInv(db, i, true, now);
    AccrueRoom(db, i, true, now);
    assert RowOk(credited.proxies[i], i, now, credited.cfg.stale, credited.history);
    assert NoTighter(db, db);
    hide Room, Inv, AccrueRow;
    LedgerIsForward(credited);
    ExpireRoom(credited, {i});
    NoTighterOnwards(db, credited, if expire then ExpirePendingCycle(credited, i) else credited);
  }

  // ----- Results -----

  lemma LiveRowRoom(cfg: Config, p: Proxy, cursor: int, i: nat, o: HealthOutcome, now: int, h: set<Success>)
    requires o.Live? && Active(p) && RowOk(p, i, now, cfg.stale, h) && p.cursor <= cursor <= now
    requires !CycleBroken(cfg, p, o, now) || !Reachable(p) ==> cursor == p.cursor
    ensures RowRoom(p.(cursor := cursor), now) <= RowRoom(LiveRow(cfg, p, o, now), now)
    ensures LiveRow(cfg, p, o, now).credentialStart == p.credentialStart
  {
    hide Continuous;
  }

  lemma LiveRoom(db: Db, i: nat, o: HealthOutcome, now: int)
    requires Inv(db) && i < |db.proxies| && now == db.clock && o.Live? && Active(db.proxies[i])
    ensures NoTighter(db, ApplyLive(db, i, o, now))
  {
    var p, broken := db.proxies[i], CycleBroken(db.cfg, db.proxies[i], o, now);
    var credit := broken && Earning(p.eligibility);
    var credited := if credit then AccrueRow(db, i, true, now) else db;
    var closed := if broken then ExpirePendingCycle(credited, i) else credited;
    assert RowOk(p, i, now, db.cfg.stale, db.history);
    CloseRoom(db, i, credit, broken, now);
    LiveRowRoom(db.cfg, p, closed.proxies[i].cursor, i, o, now, db.history);
    var h := db.history + {Success(i, p.generation, now)};
    var q := LiveRow(db.cfg, p, o, now);
    SetRowRoom(closed, i, q, h);
    var written := SetRow(closed, i, q).(history := h);
    hide Room, Inv, Forward, LiveRow, RowOk, ReconcileExitIp, AccrueRow, CycleBroken, RowRoom;
    NoTighterOnwards(db, closed, written);
    if TrustedObservation(o).Some? {
      var ip := TrustedObservation(o).value;
      ReconcileRoom(written, i, ip, HttpsQuorum, now);
      NoTighterOnwards(db, written, ReconcileExitIp(written, i, ip, HttpsQuorum, now));
    }
  }

  lemma BlockedRoom(db: Db, i: nat, now: int)
    requires Inv(db) && i < |db.proxies| && now == db.clock && Active(db.proxies[i])
    ensures NoTighter(db, ApplyBlocked(db, i, now))
  {
    var p := db.proxies[i];
    var credit := Earning(p.eligibility);
    var closed := ExpirePendingCycle(if credit then AccrueRow(db, i, true, now) else db, i);
    assert RowOk(p, i, now, db.cfg.stale, db.history);
    CloseRoom(db, i, credit, true, now);
    hide Continuous;
    SetRowRoom(closed, i, BlockedRow(db.cfg, p, now), closed.history);
    hide Room;
    NoTighterOnwards(db, closed, SetRow(closed, i, BlockedRow(db.cfg, p, now)));
  }

  lemma FailureRoom(db: Db, i: nat, now: int)
    requires Inv(db) && i < |db.proxies| && now == db.clock && Active(db.proxies[i])
    ensures NoTighter(db, ApplyFailure(db, i, now))
  {
    var p := db.proxies[i];
    var credit := GoesOffline(p) && Earning(p.eligibility) && Reachable(p);
    var credited := if credit then AccrueRow(db, i, true, now) else db;
    var closed := if GoesOffline(p) then ExpirePendingCycle(credited, i) else credited;
    assert RowOk(p, i, now, db.cfg.stale, db.history);
    CloseRoom(db, i, credit, GoesOffline(p), now);
    hide Continuous;
    SetRowRoom(closed, i, FailureRow(db.cfg, p, now), closed.history);
    hide Room;
    NoTighterOnwards(db, closed, SetRow(closed, i, FailureRow(db.cfg, p, now)));
  }

  lemma HealthRoom(db: Db, i: nat, generation: nat, token: nat, o: HealthOutcome, now: int)
    requires Inv(db) && now == db.clock
    ensures NoTighter(db, ApplyHealth(db, i, generation, token, o, now))
  {
    assert NoTighter(db, db);
    if HealthAccepted(db, i, generation, token) {
      hide Inv, Room, ApplyLive, ApplyBlocked, ApplyFailure;
      match o
      case Live(_, _) => LiveRoom(db, i, o, now);
      case ProviderBlocked => BlockedRoom(db, i, now);
      case Dead => FailureRoom(db, i, now);
      case Inconclusive => SetRowRoom(db, i, ApplyHealth(db, i, generation, token, o, now).proxies[i], db.history);
      case ConfirmEgress => SetRowRoom(db, i, ApplyHealth(db, i, generation, token, o, now).proxies[i], db.history);
    }
  }

  lemma ResetRoom(db: Db, i: nat, now: int)
    requires Forward(db.ledger) && i < |db.proxies| && now == db.clock && db.proxies[i].cursor <= now
    ensures NoTighter(db, ResetProbation(db, i, now)) && Forward(ResetProbation(db, i, now).ledger)
  {
    var d := ExpirePendingCycle(db, i);
    ExpireRoom(db, {i});
    SetRowRoom(d, i, db.proxies[i].(probation := now, cursor := now), d.history);
    hide Room, ExpireAll;
    NoTighterOnwards(db, d, ResetProbation(db, i, now));
  }

  lemma EarnappRoom(db: Db, i: nat, generation: nat, token: nat, r: EarnappReport, now: int)
    requires Inv(db) && now == db.clock
    ensures NoTighter(db, ApplyEarnapp(db, i, generation, token, r, now))
  {
    assert NoTighter(db, db);
    if EarnappAccepted(db, i, generation, token) {
      var p := db.proxies[i];
      assert RowOk(p, i, now, db.cfg.stale, db.history);
      var changed := p.eligibility != Classify(p, r);
      var credit := changed && Earning(p.eligibility);
      var credited := if credit then AccrueRow(db, i, true, now) else db;
      CloseRoom(db, i, credit, false, now);
      AccrueRowInv(db, i, true, now);
      var reset := changed || EarnappEgressChanged(p, r);
      var closed := if reset then ResetProbation(credited, i, now) else credited;
      ResetRoom(credited, i, now);
      ResetInv(credited, i, now);
      hide Room, Inv, AccrueRow, ResetProbation, ReconcileExitIp, RowOk, Forward;
      if reset { NoTighterOnwards(db, credited, closed); }
      IdentifiedRoom(closed, i, p, r, now);
      NoTighterOnwards(db, closed, ApplyEarnapp(db, i, generation, token, r, now));
    }
  }

  /** The end of the EarnApp transaction: the identity, then the final UPDATE. */
  lemma IdentifiedRoom(closed: Db, i: nat, p: Proxy, r: EarnappReport, now: int)
    requires Inv(closed) && i < |closed.proxies| && now == closed.clock && closed.proxies[i].status.Online?
    ensures var identified := match Authenticated(r)
              case None => closed
              case Some(ip) => ReconcileExitIp(closed, i, ip, EarnappTls, now);
            i < |identified.proxies| && NoTighter(closed, SetRow(identified, i, EarnappRow(closed.cfg, identified.proxies[i], p, r, now)))
  {
    var identified := match Authenticated(r)
      case None => closed
      case Some(ip) => ReconcileExitIp(closed, i, ip, EarnappTls, now);
    assert NoTighter(closed, closed);
    if Authenticated(r).Some? {
      var ip := Authenticated(r).value;
      LedgerIsForward(closed);
      ReconcileInv(closed, i, ip, EarnappTls, now);
      ReconcileRoom(closed, i, ip, EarnappTls, now);
    }
    hide ReconcileExitIp;
    var q := identified.proxies[i];
    assert RowOk(closed.proxies[i], i, now, closed.cfg.stale, closed.history);
    assert SameCore(closed.proxies[i], q);
    hide Inv, Classify, VerifiedCountry, EarnappEgressChanged;
    SetRowRoom(identified, i, EarnappRow(closed.cfg, q, p, r, now), identified.history);
    hide Room;
    NoTighterOnwards(closed, identified, SetRow(identified, i, EarnappRow(closed.cfg, q, p, r, now)));
  }

  // ----- Lifecycle -----

  lemma KeepsRoom(a: Db, b: Db)
    requires RoomInv(a) && NoTighter(a, b)
    ensures RoomInv(b)
  {
    hide Room;
    forall i: nat | i < |b.proxies|
      ensures Room(b, i) >= 0
    {
      assert Room(a, i) <= Room(b, i);
    }
  }

  /** Leaving a group, whatever was chosen for the rows left behind. */
  lemma LateLeaveRoom(db: Db, i: nat, user: nat, choice: Option<Choice>, replace: bool, now: int)
    requires Inv(db) && RoomInv(db) && now == db.clock
    ensures RoomInv(LateLeave(db, i, user, choice, replace, now))
  {
    if Owned(db, i, user) {
      var left := if choice.Some? then Rehome(db, choice.value, Some(i)) else db;
      var d := ExpirePendingCycle(left, i);
      LedgerIsForward(db);
      assert NoTighter(db, db);
      if choice.Some? {
        RehomeInv(db, choice.value, Some(i));
        RehomeRoom(db, choice.value, Some(i));
      }
      ExpireInv(left, {i});
      ExpireRoom(left, {i});
      assert SameCore(db.proxies[i], d.proxies[i]) && RowOk(db.proxies[i], i, now, db.cfg.stale, db.history);
      hide Rehome, Room, ExpirePendingCycle;
      NoTighterOnwards(db, left, d);
      KeepsRoom(db, d);
      GoneRoom(d, db.proxies[i], i, replace, now);
    }
  }

  lemma GoneRoom(d: Db, p: Proxy, i: nat, replace: bool, now: int)
    requires Inv(d) && RoomInv(d) && now == d.clock && i < |d.proxies| && SameCore(p, d.proxies[i])
    ensures RoomInv(SetRow(d, i, if replace then ReplacedRow(p, now) else ArchivedRow(p, now)))
  {
    var after := SetRow(d, i, if replace then ReplacedRow(p, now) else ArchivedRow(p, now));
    forall k | 0 <= k < |d.ledger|
      ensures d.ledger[k].start < now
    {
      EntryFits(d, k);
    }
    FreshSeconds(d.ledger, i, now);
    assert RowOk(d.proxies[i], i, now, d.cfg.stale, d.history);
    hide Seconds, Inv, Continuous;
    forall j: nat | j < |after.proxies|
      ensures Room(after, j) >= 0
    {
      assert j != i ==> Room(after, j) == Room(d, j);
      assert Room(d, j) >= 0;
    }
  }

  lemma LeaveIsLate(db: Db, i: nat, user: nat, now: int)
    requires Owned(db, i, user)
    ensures var choice := LeavingChoice(db.proxies, i, now);
            && ReplaceProxy(db, i, user, now) == LateLeave(db, i, user, choice, true, now)
            && ArchiveProxy(db, i, user, now) == LateLeave(db, i, user, choice, false, now)
  {
    hide Choose;
  }

  lemma LeaveRoom(db: Db, i: nat, user: nat, now: int)
    requires Inv(db) && RoomInv(db) && now == db.clock && Owned(db, i, user)
    ensures RoomInv(ReplaceProxy(db, i, user, now)) && RoomInv(ArchiveProxy(db, i, user, now))
  {
    LeaveIsLate(db, i, user, now);
    hide Inv, RoomInv, LateLeave, ReplaceProxy, ArchiveProxy, LeavingChoice;
    var choice := LeavingChoice(db.proxies, i, now);
    LateLeaveRoom(db, i, user, choice, true, now);
    LateLeaveRoom(db, i, user, choice, false, now);
  }

  lemma AddRoom(db: Db, user: nat, now: int)
    requires Inv(db) && RoomInv(db) && now == db.clock
    ensures RoomInv(AddProxy(db, user, now))
  {
    if user < |db.users| {
      var after := AddProxy(db, user, now);
      forall k | 0 <= k < |db.ledger|
        ensures db.ledger[k].proxy < |db.proxies|
      {
        EntryFits(db, k);
      }
      FreshSeconds(db.ledger, |db.proxies|, now);
      hide Seconds, Inv;
      forall j: nat | j < |after.proxies|
        ensures Room(after, j) >= 0
      {
        assert j < |db.proxies| ==> Room(after, j) == Room(db, j);
      }
    }
  }

  lemma PromoteToRoom(db: Db, canonical: nat, c: nat, now: int)
    requires Inv(db) && now == db.clock && c < |db.proxies|
    ensures NoTighter(db, PromoteTo(db, canonical, c, now))
  {
    assert RowOk(db.proxies[c], c, now, db.cfg.stale, db.history);
    LedgerIsForward(db);
    var d := ExpirePendingCycle(db, canonical);
    var linked := d.(proxies := PromoteRows(db.proxies, canonical, c));
    ExpireRoom(db, {canonical});
    RowsRoom(d, linked.proxies, d.history, d.nextToken);
    hide Inv, Room;
    NoTighterOnwards(db, d, linked);
    ResetRoom(linked, c, now);
    NoTighterOnwards(db, linked, ResetProbation(linked, c, now));
  }

  lemma PromoteRoom(db: Db, canonical: nat, now: int)
    requires Inv(db) && now == db.clock
    ensures NoTighter(db, PromoteDuplicate(db, canonical, now))
  {
    assert NoTighter(db, db);
    hide Inv, Room, PromoteTo;
    if canonical < |db.proxies| && PromotionDue(db.proxies[canonical], now) {
      match FirstOnlineDuplicate(db.proxies, canonical, |db.proxies|)
      case None =>
      case Some(c) => PromoteToRoom(db, canonical, c, now);
    }
  }

  lemma ArchiveDeadRoom(db: Db, now: int)
    requires Inv(db) && now == db.clock
    ensures NoTighter(db, ArchiveDead(db, now))
  {
    var qs := ArchiveDead(db, now).proxies;
    forall j | 0 <= j < |qs|
      ensures RowRoom(db.proxies[j], now) <= RowRoom(qs[j], now)
    {
      assert RowOk(db.proxies[j], j, now, db.cfg.stale, db.history);
    }
    hide Inv, Seconds, RowRoom;
    RowsRoom(db, qs, db.history, db.nextToken);
  }

  lemma ClaimRoom(db: Db, ids: set<nat>, i: nat, token: nat, now: int)
    ensures NoTighter(db, ClaimHealth(db, ids, now)) && NoTighter(db, ClaimEarnapp(db, ids, now))
    ensures NoTighter(db, ReleaseHealth(db, i, token, now)) && NoTighter(db, ReleaseEarnapp(db, i, token, now))
  {
    hide HealthDue, EarnappDue;
    RowsRoom(db, ClaimHealth(db, ids, now).proxies, db.history, db.nextToken + 1);
    RowsRoom(db, ClaimEarnapp(db, ids, now).proxies, db.history, db.nextToken + 1);
    RowsRoom(db, ReleaseHealth(db, i, token, now).proxies, db.history, db.nextToken);
    RowsRoom(db, ReleaseEarnapp(db, i, token, now).proxies, db.history, db.nextToken);
  }

  // ----- Runs -----

  lemma TickRoom(db: Db, delay: nat)
    requires RoomInv(db)
    ensures RoomInv(Tick(db, delay))
  {
    hide Seconds;
    forall i: nat | i < |db.proxies|
      ensures Room(Tick(db, delay), i) >= 0
    {
      assert Room(db, i) >= 0;
    }
  }

  /** Transactions that keep every row's credentials. */
  lemma SteadyRoom(db: Db, e: Event, now: int)
    requires Inv(db) && now == db.clock
    requires !e.AddProxyEvent? && !e.ReplaceEvent? && !e.ArchiveEvent? && !e.LateLeaveEvent?
    ensures NoTighter(db, Effect(db, e, now))
  {
    assert NoTighter(db, db);
    hide Inv, ApplyHealth, ApplyEarnapp, AccrueRow, AccrueFirst, PromoteDuplicate, PromoteTo, ArchiveDead, ClaimHealth, ClaimEarnapp, ReleaseHealth, ReleaseEarnapp;
    match e
    case AddUserEvent(_) => hide Seconds, RowRoom;
    case SetUserEvent(_, _) => hide Seconds, RowRoom;
    case ClaimHealthEvent(ids) => ClaimRoom(db, ids, 0, 0, now);
    case ClaimEarnappEvent(ids) => ClaimRoom(db, ids, 0, 0, now);
    case ReleaseHealthEvent(i, token) => ClaimRoom(db, {}, i, token, now);
    case ReleaseEarnappEvent(i, token) => ClaimRoom(db, {}, i, token, now);
    case HealthEvent(i, g, token, o) => HealthRoom(db, i, g, token, o, now);
    case EarnappEvent(i, g, token, r) => EarnappRoom(db, i, g, token, r, now);
    case AccrueAllEvent => AccrueFirstRoom(db, |db.proxies|, now);
    case AccrueOneEvent(i) => if i < |db.proxies| { AccrueRoom(db, i, true, now); }
    case PromoteEvent(i) => PromoteRoom(db, i, now);
    case LatePromoteEvent(i, c) => if i < |db.proxies| && c < |db.proxies| { PromoteToRoom(db, i, c, now); }
    case ArchiveDeadEvent => ArchiveDeadRoom(db, now);
  }

  lemma EffectRoom(db: Db, e: Event, now: int)
    requires Inv(db) && RoomInv(db) && now == db.clock
    ensures RoomInv(Effect(db, e, now))
  {
    hide Inv, Room, ReplaceProxy, ArchiveProxy, LateLeave, AddProxy, Owned;
    match e
    case AddProxyEvent(owner) => AddRoom(db, owner, now);
    case ReplaceEvent(i, owner) => if Owned(db, i, owner) { LeaveRoom(db, i, owner, now); } else { NotOwned(db, i, owner, now); }
    case ArchiveEvent(i, owner) => if Owned(db, i, owner) { LeaveRoom(db, i, owner, now); } else { NotOwned(db, i, owner, now); }
    case LateLeaveEvent(i, owner, choice, replace) => LateLeaveRoom(db, i, owner, choice, replace, now);
    case _ =>
      hide Effect;
      SteadyRoom(db, e, now);
      KeepsRoom(db, Effect(db, e, now));
  }

  lemma NotOwned(db: Db, i: nat, user: nat, now: int)
    requires !Owned(db, i, user)
    ensures ReplaceProxy(db, i, user, now) == db && ArchiveProxy(db, i, user, now) == db
  {}

  lemma StepRoom(db: Db, e: Event, delay: nat)
    requires Inv(db) && RoomInv(db)
    ensures RoomInv(Step(db, e, delay))
  {
    hide Inv, RoomInv, Effect;
    TickInv(db, delay);
    TickRoom(db, delay);
    EffectRoom(Tick(db, delay), e, db.clock + delay);
  }

  /** No transaction of any run spends more time on a row than its credentials have existed. */
  lemma {:induction false} RunRoom(cfg: Config, trace: seq<Timed>)
    requires ConfigOk(cfg)
    ensures Inv(Run(Init(cfg), trace)) && RoomInv(Run(Init(cfg), trace))
  {
    RunInv(cfg, trace);
    if trace != [] {
      hide Inv, RoomInv, Step;
      var earlier, last := trace[..|trace| - 1], trace[|trace| - 1];
      RunRoom(cfg, earlier);
      StepRoom(Run(Init(cfg), earlier), last.event, last.delay);
    }
  }

  // ----- Theorem -----

  /** Online and offline time never add up to more than the age of the credentials, whether the
      online part is the row's own counter or the seconds the ledger projects. */
  lemma UptimeConserved(cfg: Config, trace: seq<Timed>, i: nat, now: int, earningEnabled: bool, stale: Option<int>, earned: Option<int>)
    requires ConfigOk(cfg)
    requires i < |Run(Init(cfg), trace).proxies| && Run(Init(cfg), trace).clock <= now
    requires earned.None? || earned == Some(Projected(Run(Init(cfg), trace), i, now))
    ensures var p := Run(Init(cfg), trace).proxies[i];
            var u := UptimeSeconds(p, now, earningEnabled, stale, earned);
            0 <= u.online && 0 <= u.offline && u.online + u.offline <= now - p.credentialStart
  {
    var db := Run(Init(cfg), trace);
    RunRoom(cfg, trace);
    assert RowOk(db.proxies[i], i, db.clock, db.cfg.stale, db.history);
    hide Run;
    if earned.Some? {
      ProjectedFits(db, i, now);
    }
  }

  lemma ProjectedFits(db: Db, i: nat, now: int)
    requires Inv(db) && RoomInv(db) && i < |db.proxies| && db.clock <= now
    ensures var p := db.proxies[i];
            && 0 <= Projected(db, i, now)
            && Projected(db, i, now) + p.accOffline + (if Down(p) then now - p.offlineSince.value else 0) <= now - p.credentialStart
  {
    var p := db.proxies[i];
    assert RowOk(p, i, db.clock, db.cfg.stale, db.history);
    assert Room(db, i) >= 0;
    ReachableCredited(db, i, now);
    forall k | 0 <= k < |db.ledger| && db.ledger[k].proxy == i
      ensures db.ledger[k].start < db.ledger[k].end <= now
    {
      EntryFits(db, k);
    }
    SecondsAreCredited(db.ledger, i, p.credentialStart, now);
    hide Inv, RoomInv, CreditedIntervals, Seconds, Covered, TotalLength, LatestEnd, Continuous;
  }
}
