/** When a second of one exit address is paid for twice (app/services/proxies.py:489-501,
    app/services/earnings.py:235-302). */
module AddressPayments {
  import opened Wrappers
  import opened EarningModel
  import opened RowInvariants
  import opened LedgerInvariants
  import opened EarningInvariants

  /** Money of another row for the exit address of row `i` that was not forfeited. */
  predicate OthersMoney(db: Db, i: nat, e: Entry)
    requires i < |db.proxies|
  {
    e.proxy != i && !e.bucket.Expired? && e.address == db.proxies[i].exitIp
  }

  predicate SharesSecond(a: Entry, b: Entry) {
    a.start < a.end && b.start < b.end && a.start < b.end && b.start < a.end
  }

  /** Accruing row `i` credits a second that such money of another row already covers. */
  ghost predicate PaysAgain(db: Db, i: nat, suspectToo: bool, now: int)
    requires i < |db.proxies|
  {
    var l := AccrueRow(db, i, suspectToo, now).ledger;
    exists k, n :: 0 <= k < |db.ledger| <= n < |l| && OthersMoney(db, i, db.ledger[k]) && SharesSecond(db.ledger[k], l[n])
  }

  /** What can be read off before the accrual: some other row was credited past this row's cursor
      for the same address, from before this row's validated end. */
  predicate Overlapped(db: Db, i: nat, now: int)
    requires i < |db.proxies| && db.proxies[i].lastSuccess.Some?
  {
    var p := db.proxies[i];
    exists k :: 0 <= k < |db.ledger| && OthersMoney(db, i, db.ledger[k])
                && p.cursor < db.ledger[k].end && db.ledger[k].start < ValidatedEnd(db.cfg, p, now)
  }

  predicate Paying(db: Db, i: nat, suspectToo: bool, now: int)
    requires i < |db.proxies|
  {
    AccrualDue(db, i, suspectToo, now) && db.users[db.proxies[i].userId].active && !db.users[db.proxies[i].userId].paused
  }

  ghost predicate CreditedAt(l: seq<Entry>, from: nat, t: int) {
    exists n :: from <= n < |l| && l[n].start <= t < l[n].end
  }

  /** The entries an accrual appends cover exactly the seconds from the cursor to the validated end. */
  ghost predicate Covers(l: seq<Entry>, from: nat, i: nat, address: Option<Ip>, start: int, end: int) {
    && from <= |l|
    && (forall n :: from <= n < |l| ==> l[n].proxy == i && l[n].address == address && start <= l[n].start < l[n].end <= end)
    && (forall t :: start <= t < end ==> CreditedAt(l, from, t))
  }

  lemma CreditCovers(db: Db, i: nat, now: int)
    requires Inv(db) && i < |db.proxies| && now == db.clock && AccrualDue(db, i, true, now)
    ensures var p, end := db.proxies[i], ValidatedEnd(db.cfg, db.proxies[i], now);
            Covers(Credit(db.ledger, p, i, end), |db.ledger|, i, p.exitIp, p.cursor, end)
  {
    hide LedgerOk, RowsOk, AddEntry, Unlock, Continuous;
    var p, end := db.proxies[i], ValidatedEnd(db.cfg, db.proxies[i], now);
    var ps, h, stale := db.proxies, db.history, db.cfg.stale;
    var unlockAt := p.probation + PROBATION_SECONDS;
    assert RowOk(p, i, now, stale, h) by { RowFits(db, i); }
    if end < unlockAt {
      AppendCovers(db.ledger, p, i, p.cursor, end, PendingMoney, ps, h, stale);
    } else {
      CycleUnlocked(db, i, now);
      UnlockKeeps(db.ledger, i, ps, h, stale, p.generation, end);
      var u := Unlock(db.ledger, i, p.probation);
      assert |u| == |db.ledger| by { UnlockLength(db.ledger, i, p.probation); }
      if p.cursor < unlockAt {
        AcrossCovers(u, p, i, unlockAt, end, ps, h, stale);
      } else {
        AppendCovers(u, p, i, p.cursor, end, Available, ps, h, stale);
      }
    }
  }

  lemma RowFits(db: Db, i: nat)
    requires Inv(db) && i < |db.proxies|
    ensures RowOk(db.proxies[i], i, db.clock, db.cfg.stale, db.history)
  {}

  lemma UnlockLength(l: seq<Entry>, i: nat, from: int)
    ensures |Unlock(l, i, from)| == |l|
    ensures forall k :: 0 <= k < |l| ==> Unlock(l, i, from)[k] == l[k].(bucket := Unlock(l, i, from)[k].bucket)
    ensures forall k :: 0 <= k < |l| && l[k].proxy != i ==> Unlock(l, i, from)[k] == l[k]
  {}

  lemma AppendCovers(l: seq<Entry>, p: Proxy, i: nat, start: int, end: int, bucket: Bucket, ps: seq<Proxy>, h: set<Success>, stale: int)
    requires LedgerOk(l, ps, h, stale) && i < |ps| && p == ps[i] && p.cursor <= start < end
    ensures Covers(AddEntry(l, EntryFor(p, i, start, end, bucket)), |l|, i, p.exitIp, start, end)
  {
    var e := EntryFor(p, i, start, end, bucket);
    AddEntryAppends(l, e, ps, h, stale);
    hide AddEntry, LedgerOk;
    assert (l + [e])[|l|] == e;
  }

  lemma AcrossCovers(u: seq<Entry>, p: Proxy, i: nat, unlockAt: int, end: int, ps: seq<Proxy>, h: set<Success>, stale: int)
    requires LedgerOk(u, ps, h, stale) && i < |ps| && p == ps[i] && p.cursor < unlockAt <= end
    ensures Covers(AddEntry(AddEntry(u, EntryFor(p, i, p.cursor, unlockAt, Available)), EntryFor(p, i, unlockAt, end, Available)),
                   |u|, i, p.exitIp, p.cursor, end)
  {
    var first, second := EntryFor(p, i, p.cursor, unlockAt, Available), EntryFor(p, i, unlockAt, end, Available);
    AddEntryAppends(u, first, ps, h, stale);
    var v := u + [first];
    forall k | 0 <= k < |v|
      ensures !SameKey(v[k], second)
    {
      assert k < |u| ==> EntryOk(u[k], ps, h, stale);
    }
    assert AddEntry(v, second) == if unlockAt < end then v + [second] else v;
    hide AddEntry, LedgerOk;
    var w := if unlockAt < end then v + [second] else v;
    assert w[|u|] == first && (unlockAt < end ==> w[|u| + 1] == second);
  }

  /** A second of an address is paid again exactly if the accrual pays at all and another row was
      credited, for that address, beyond this row's cursor. */
  lemma PaysAgainExactly(db: Db, i: nat, suspectToo: bool, now: int)
    requires Inv(db) && i < |db.proxies| && now == db.clock
    ensures PaysAgain(db, i, suspectToo, now) <==> (Paying(db, i, suspectToo, now) && Overlapped(db, i, now))
  {
    hide Inv, Credit;
    if Paying(db, i, suspectToo, now) {
      var p, end := db.proxies[i], ValidatedEnd(db.cfg, db.proxies[i], now);
      var l := Credit(db.ledger, p, i, end);
      assert AccrueRow(db, i, suspectToo, now).ledger == l;
      CreditCovers(db, i, now);
      forall k | 0 <= k < |db.ledger|
        ensures db.ledger[k].start < db.ledger[k].end
      {
        EntriesFit(db, k);
      }
      if Overlapped(db, i, now) {
        var k :| 0 <= k < |db.ledger| && OthersMoney(db, i, db.ledger[k]) && p.cursor < db.ledger[k].end && db.ledger[k].start < end;
        var t := Max(p.cursor, db.ledger[k].start);
        assert CreditedAt(l, |db.ledger|, t);
        var n :| |db.ledger| <= n < |l| && l[n].start <= t < l[n].end;
        assert SharesSecond(db.ledger[k], l[n]);
      }
    }
  }

  lemma EntriesFit(db: Db, k: nat)
    requires Inv(db) && k < |db.ledger|
    ensures db.ledger[k].start < db.ledger[k].end <= db.clock
  {
    var e := db.ledger[k];
    assert EntryOk(e, db.proxies, db.history, db.cfg.stale);
    assert RowOk(db.proxies[e.proxy], e.proxy, db.clock, db.cfg.stale, db.history);
  }

  /** A row that becomes canonical by promotion accrues only seconds after everything paid so far. */
  lemma PromotionSkipsPaidTime(db: Db, canonical: nat, now: int, j: nat)
    requires Inv(db) && now == db.clock && j < |db.proxies| && db.proxies[j].duplicateOf.Some?
    requires j < |PromoteDuplicate(db, canonical, now).proxies| && PromoteDuplicate(db, canonical, now).proxies[j].duplicateOf.None?
    ensures var after := PromoteDuplicate(db, canonical, now);
            && after.proxies[j].cursor == now
            && (after.proxies[j].lastSuccess.Some? ==> !Overlapped(after, j, now))
  {
    PromoteInv(db, canonical, now);
    var after := PromoteDuplicate(db, canonical, now);
    hide Inv, FirstOnlineDuplicate, PromotionDue;
    forall k | 0 <= k < |after.ledger|
      ensures after.ledger[k].end <= now
    {
      EntriesFit(after, k);
    }
  }

  // ----- A run on which it happens -----

  const DAY := 86_400
  const WEEK := 604_800
  const CONFIG := Config(DAY, 900, 300, 900, WEEK)
  const LIVE := Live(true, Some("x"))
  const ALLOWED := EarnappReport(CidSet, Some(true), Some("x"), "")

  /** A row added at `added` that was allowed at once and last seen alive at `last`. */
  function UpRow(added: int, last: int, source: Attestation, duplicateOf: Option<nat>): Proxy {
    NewRow(0, added).(status := Online, eligibility := Allow, exitIp := Some("x"), attestation := source, verifiedAt := Some(added),
                      duplicateOf := duplicateOf, onlineSince := Some(added), lastSuccess := Some(last),
                      nextCheck := last + 900, earnappNext := Some(added + WEEK))
  }

  lemma OneMore(trace: seq<Timed>, e: Event, delay: nat) returns (longer: seq<Timed>, after: Db)
    ensures longer == trace + [Timed(e, delay)]
    ensures after == Step(Run(Init(CONFIG), trace), e, delay) && Run(Init(CONFIG), longer) == after
  {
    hide Step;
    longer, after := trace + [Timed(e, delay)], Step(Run(Init(CONFIG), trace), e, delay);
    assert longer[..|trace|] == trace;
  }

  /** What matters of a state on the way: one user, an empty ledger, and the rows. */
  ghost predicate Stage(db: Db, rows: seq<Proxy>, clock: int) {
    db.cfg == CONFIG && db.users == [User(true, false)] && db.proxies == rows && db.ledger == [] && db.clock == clock
  }

  /** One or two members of the group, the first one added and verified first. */
  predicate Grouped(rows: seq<Proxy>) {
    && 1 <= |rows| <= 2
    && (forall k :: 0 <= k < |rows| ==> InGroup(rows[k], "x") && rows[k].status.Online? && rows[k].verifiedAt.Some?)
    && (|rows| == 2 ==> rows[0].createdAt < rows[1].createdAt && rows[0].verifiedAt.value < rows[1].verifiedAt.value)
  }

  function Rehomed(rows: seq<Proxy>): seq<Proxy>
    requires 1 <= |rows| <= 2
  {
    if |rows| == 1 then [rows[0].(duplicateOf := None)]
    else [rows[0].(duplicateOf := None), rows[1].(duplicateOf := Some(0))]
  }

  lemma FirstIsCanonical(rows: seq<Proxy>, prefer: bool, now: int)
    requires Grouped(rows)
    ensures Canonical(rows, "x", prefer, None, now) == Some(0)
  {
    hide Precedes;
    forall byVerified: bool
      ensures Best(rows, |rows|, "x", None, true, byVerified, now) == Some(0)
    {
      assert Candidate(rows, 0, "x", None, true, now);
      if |rows| == 2 {
        EarlierPrecedes(rows, byVerified);
      }
    }
  }

  lemma EarlierPrecedes(rows: seq<Proxy>, byVerified: bool)
    requires Grouped(rows) && |rows| == 2
    ensures Precedes(rows, 0, 1, byVerified) && !Precedes(rows, 1, 0, byVerified)
  {}

  lemma CanonicalizeGroup(db: Db, prefer: bool, now: int)
    requires Grouped(db.proxies) && db.ledger == []
    ensures Canonicalize(db, "x", prefer, None, now) == db.(proxies := Rehomed(db.proxies))
  {
    FirstIsCanonical(db.proxies, prefer, now);
    hide Canonical;
    assert Repoint(db.proxies, "x", None, 0) == Rehomed(db.proxies);
    assert ExpireAll([], Losers(db.proxies, "x", None, 0)) == [];
  }

  lemma FirstAdded() returns (trace: seq<Timed>)
    ensures Stage(Run(Init(CONFIG), trace), [NewRow(0, 0)], 0)
  {
    var db;
    assert Run(Init(CONFIG), []) == Init(CONFIG);
    hide Run;
    trace, db := OneMore([], AddUserEvent(User(true, false)), 0);
    trace, db := OneMore(trace, AddProxyEvent(0), 0);
  }

  /** A claimed row of a stage, and the token it was claimed under. */
  lemma ClaimOne(before: seq<Timed>, rows: seq<Proxy>, i: nat, clock: int, delay: nat) returns (trace: seq<Timed>, token: nat)
    requires Stage(Run(Init(CONFIG), before), rows, clock) && i < |rows|
    requires HealthDue(rows[i], [User(true, false)], clock + delay)
    ensures var now := clock + delay;
            Stage(Run(Init(CONFIG), trace), rows[i := rows[i].(nextCheck := now + 900, checkUntil := Some(now + 600), checkToken := Some(token))], now)
  {
    var db := Run(Init(CONFIG), before);
    token := db.nextToken;
    hide Run, HealthDue;
    trace, db := OneMore(before, ClaimHealthEvent({i}), delay);
  }

  /** A trusted live result of a claimed row, on an address it keeps or gets first. */
  lemma LiveOne(before: seq<Timed>, rows: seq<Proxy>, i: nat, clock: int, token: nat) returns (trace: seq<Timed>)
    requires Stage(Run(Init(CONFIG), before), rows, clock) && i < |rows| <= 2
    requires rows[i].checkToken == Some(token) && rows[i].generation == 1 && Active(rows[i])
    requires rows[i].exitIp.None? || rows[i].exitIp == Some("x")
    requires !StaleRecovery(CONFIG, rows[i], clock)
    requires Grouped(rows[i := WithExit(LiveRow(CONFIG, rows[i], LIVE, clock), "x", HttpsQuorum, clock)])
    ensures Stage(Run(Init(CONFIG), trace),
                  Rehomed(rows[i := WithExit(LiveRow(CONFIG, rows[i], LIVE, clock), "x", HttpsQuorum, clock)]), clock)
  {
    var db := Run(Init(CONFIG), before);
    var q := LiveRow(CONFIG, rows[i], LIVE, clock);
    var written := SetRow(db, i, q).(history := db.history + {Success(i, 1, clock)});
    var named := SetRow(written, i, WithExit(q, "x", HttpsQuorum, clock));
    assert named.proxies == rows[i := WithExit(q, "x", HttpsQuorum, clock)];
    CanonicalizeGroup(named, q.verifiedAt.Some?, clock);
    hide Run, Grouped, Canonicalize, Rehomed;
    assert ReconcileExitIp(written, i, "x", HttpsQuorum, clock) == Canonicalize(named, "x", q.verifiedAt.Some?, None, clock);
    assert ApplyLive(db, i, LIVE, clock) == ReconcileExitIp(written, i, "x", HttpsQuorum, clock);
    hide ApplyLive, ReconcileExitIp, LiveRow;
    trace, db := OneMore(before, HealthEvent(i, 1, token, LIVE), 0);
  }

  lemma ClaimEarnappOne(before: seq<Timed>, rows: seq<Proxy>, i: nat, clock: int) returns (trace: seq<Timed>, token: nat)
    requires Stage(Run(Init(CONFIG), before), rows, clock) && i < |rows|
    requires EarnappDue(rows[i], [User(true, false)], clock)
    ensures Stage(Run(Init(CONFIG), trace), rows[i := rows[i].(earnappUntil := Some(clock + 600), earnappToken := Some(token))], clock)
  {
    var db := Run(Init(CONFIG), before);
    token := db.nextToken;
    hide Run, EarnappDue;
    trace, db := OneMore(before, ClaimEarnappEvent({i}), 0);
  }

  /** The EarnApp verdict that allows an unclassified row of the address. */
  function AllowedRow(p: Proxy, now: int): Proxy {
    WithExit(p.(probation := now, cursor := now), "x", EarnappTls, now)
    .(eligibility := Allow, earnappNext := Some(now + WEEK), earnappToken := None, earnappUntil := None)
  }

  function Named(rows: seq<Proxy>, i: nat, clock: int): seq<Proxy>
    requires i < |rows|
  {
    rows[i := WithExit(rows[i].(probation := clock, cursor := clock), "x", EarnappTls, clock)]
  }

  lemma ResetAndNamed(db: Db, i: nat, clock: int)
    requires i < |db.proxies| <= 2 && db.ledger == [] && Active(db.proxies[i])
    requires Grouped(Named(db.proxies, i, clock)) && Rehomed(Named(db.proxies, i, clock)) == Named(db.proxies, i, clock)
    requires db.proxies[i].exitIp == Some("x")
    ensures ReconcileExitIp(ResetProbation(db, i, clock), i, "x", EarnappTls, clock) == db.(proxies := Named(db.proxies, i, clock))
  {
    var p := db.proxies[i];
    var reset := p.(probation := clock, cursor := clock);
    var closed := ResetProbation(db, i, clock);
    assert closed.proxies == db.proxies[i := reset] && closed.ledger == [] by { assert ExpireAll([], {i}) == []; }
    var named := SetRow(closed, i, WithExit(reset, "x", EarnappTls, clock));
    assert named.proxies == Named(db.proxies, i, clock);
    CanonicalizeGroup(named, p.verifiedAt.Some?, clock);
    hide Grouped, Canonicalize, Rehomed;
  }

  lemma AllowOne(before: seq<Timed>, rows: seq<Proxy>, i: nat, clock: int, token: nat) returns (trace: seq<Timed>)
    requires Stage(Run(Init(CONFIG), before), rows, clock) && i < |rows| <= 2
    requires rows[i].earnappToken == Some(token) && rows[i].generation == 1 && Active(rows[i])
    requires rows[i].eligibility.Unclassified? && rows[i].exitIp == Some("x")
    requires Grouped(Named(rows, i, clock)) && Rehomed(Named(rows, i, clock)) == Named(rows, i, clock)
    ensures Stage(Run(Init(CONFIG), trace), rows[i := AllowedRow(rows[i], clock)], clock)
  {
    var db := Run(Init(CONFIG), before);
    var p := rows[i];
    hide Run, Grouped, Rehomed;
    ResetAndNamed(db, i, clock);
    hide ReconcileExitIp, ResetProbation;
    var identified := db.(proxies := Named(rows, i, clock));
    assert EarnappRow(CONFIG, identified.proxies[i], p, ALLOWED, clock) == AllowedRow(p, clock);
    assert ApplyEarnapp(db, i, 1, token, ALLOWED, clock) == SetRow(identified, i, AllowedRow(p, clock));
    hide ApplyEarnapp, EarnappRow;
    trace, db := OneMore(before, EarnappEvent(i, 1, token, ALLOWED), 0);
  }

  /** The first proxy is added, seen alive and allowed, all at second 0. */
  lemma FirstAllowed() returns (trace: seq<Timed>)
    ensures Stage(Run(Init(CONFIG), trace), [UpRow(0, 0, EarnappTls, None)], 0)
  {
    var token: nat;
    hide Run;
    trace := FirstAdded();
    trace, token := ClaimOne(trace, [NewRow(0, 0)], 0, 0, 0);
    var row := NewRow(0, 0).(nextCheck := 900, checkUntil := Some(600), checkToken := Some(token));
    trace := LiveOne(trace, [row], 0, 0, token);
    var up := UpRow(0, 0, HttpsQuorum, None).(eligibility := Unclassified, earnappNext := None);
    assert Rehomed([row][0 := WithExit(LiveRow(CONFIG, row, LIVE, 0), "x", HttpsQuorum, 0)]) == [up];
    trace, token := ClaimEarnappOne(trace, [up], 0, 0);
    var claimed := up.(earnappUntil := Some(600), earnappToken := Some(token));
    assert [up][0 := claimed] == [claimed];
    trace := AllowOne(trace, [claimed], 0, 0, token);
    assert [claimed][0 := AllowedRow(claimed, 0)] == [UpRow(0, 0, EarnappTls, None)];
  }

  function ClaimedRow(p: Proxy, now: int, token: nat): Proxy {
    p.(nextCheck := now + 900, checkUntil := Some(now + 600), checkToken := Some(token))
  }

  lemma SeenRow(added: int, last: int, source: Attestation, duplicateOf: Option<nat>, now: int, token: nat)
    requires source != Unattested && last + 900 <= now <= last + DAY
    ensures var row := UpRow(added, last, source, duplicateOf);
            && HealthDue(row, [User(true, false)], now) && !StaleRecovery(CONFIG, ClaimedRow(row, now, token), now)
            && WithExit(LiveRow(CONFIG, ClaimedRow(row, now, token), LIVE, now), "x", HttpsQuorum, now) == UpRow(added, now, HttpsQuorum, duplicateOf)
  {}

  /** A row of a settled group is claimed and seen alive within the stale limit. */
  lemma SeeAgain(before: seq<Timed>, rows: seq<Proxy>, i: nat, clock: int, delay: nat, added: int, last: int, source: Attestation)
    returns (trace: seq<Timed>)
    requires Stage(Run(Init(CONFIG), before), rows, clock) && i < |rows| <= 2 && source != Unattested
    requires rows[i] == UpRow(added, last, source, if i == 0 then None else Some(0)) && last + 900 <= clock + delay <= last + DAY
    requires Grouped(rows) && Rehomed(rows) == rows
    ensures var up := UpRow(added, clock + delay, HttpsQuorum, if i == 0 then None else Some(0));
            Stage(Run(Init(CONFIG), trace), rows[i := up], clock + delay) && Grouped(rows[i := up]) && Rehomed(rows[i := up]) == rows[i := up]
  {
    var token;
    hide Run, Stage, LiveRow, HealthDue, Grouped, Rehomed, StaleRecovery, UpRow;
    var now, up := clock + delay, UpRow(added, clock + delay, HttpsQuorum, if i == 0 then None else Some(0));
    GroupKept(rows, i, added, last, source, now);
    SeenRow(added, last, source, if i == 0 then None else Some(0), now, 0);
    trace, token := ClaimOne(before, rows, i, clock, delay);
    SeenRow(added, last, source, if i == 0 then None else Some(0), now, token);
    UpIsAccepted(added, last, source, if i == 0 then None else Some(0), now, token);
    var claimed := ClaimedRow(rows[i], now, token);
    RowIsLive(rows[i], claimed, now, token);
    assert rows[i := claimed][i := up] == rows[i := up];
    trace := LiveOne(trace, rows[i := claimed], i, now, token);
  }

  lemma GroupKept(rows: seq<Proxy>, i: nat, added: int, last: int, source: Attestation, now: int)
    requires i < |rows| <= 2 && source != Unattested && Grouped(rows) && Rehomed(rows) == rows
    requires rows[i] == UpRow(added, last, source, if i == 0 then None else Some(0))
    ensures var up := UpRow(added, now, HttpsQuorum, if i == 0 then None else Some(0));
            Grouped(rows[i := up]) && Rehomed(rows[i := up]) == rows[i := up]
  {}

  lemma UpIsAccepted(added: int, last: int, source: Attestation, duplicateOf: Option<nat>, now: int, token: nat)
    ensures var row := ClaimedRow(UpRow(added, last, source, duplicateOf), now, token);
            row.checkToken == Some(token) && row.generation == 1 && Active(row) && row.exitIp == Some("x")
  {}

  lemma LoneGroup(added: int, last: int, source: Attestation)
    requires source != Unattested
    ensures Grouped([UpRow(added, last, source, None)])
    ensures Rehomed([UpRow(added, last, source, None)]) == [UpRow(added, last, source, None)]
  {}

  lemma RowIsLive(row: Proxy, claimed: Proxy, now: int, token: nat)
    requires claimed == ClaimedRow(row, now, token)
    ensures claimed == row.(nextCheck := now + 900, checkUntil := Some(now + 600), checkToken := Some(token))
  {}

  function SourceAfter(days: nat): Attestation {
    if days == 0 then EarnappTls else HttpsQuorum
  }

  lemma SeenNextDay(before: seq<Timed>, last: int, source: Attestation) returns (trace: seq<Timed>)
    requires Stage(Run(Init(CONFIG), before), [UpRow(0, last, source, None)], last) && source != Unattested
    ensures Stage(Run(Init(CONFIG), trace), [UpRow(0, last + DAY, HttpsQuorum, None)], last + DAY)
  {
    hide Run, Stage, Grouped, Rehomed, UpRow;
    LoneGroup(0, last, source);
    var row, up := UpRow(0, last, source, None), UpRow(0, last + DAY, HttpsQuorum, None);
    assert [row][0 := up] == [up];
    trace := SeeAgain(before, [row], 0, last, DAY, 0, last, source);
  }

  /** It is seen alive once a day. */
  lemma {:induction false} SeenDaily(days: nat) returns (trace: seq<Timed>)
    ensures Stage(Run(Init(CONFIG), trace), [UpRow(0, days * DAY, SourceAfter(days), None)], days * DAY)
  {
    if days == 0 {
      trace := FirstAllowed();
    } else {
      var last, source := (days - 1) * DAY, SourceAfter(days - 1);
      assert source != Unattested && SourceAfter(days) == HttpsQuorum;
      hide Run, Stage, UpRow, SourceAfter, Init;
      trace := SeenDaily(days - 1);
      trace := SeenNextDay(trace, last, source);
      assert last + DAY == days * DAY;
    }
  }

  lemma SecondAdded() returns (trace: seq<Timed>)
    ensures Stage(Run(Init(CONFIG), trace), [UpRow(0, WEEK, HttpsQuorum, None), NewRow(0, WEEK)], WEEK)
  {
    var db;
    trace := SeenDaily(7);
    hide Run, UpRow, NewRow;
    trace, db := OneMore(trace, AddProxyEvent(0), 0);
  }

  lemma SecondClaimed() returns (trace: seq<Timed>, token: nat)
    ensures Stage(Run(Init(CONFIG), trace), [UpRow(0, WEEK, HttpsQuorum, None), ClaimedRow(NewRow(0, WEEK), WEEK, token)], WEEK)
  {
    hide Run, Stage, UpRow, NewRow, HealthDue, ClaimedRow;
    var first, added := UpRow(0, WEEK, HttpsQuorum, None), NewRow(0, WEEK);
    NewRowIsDue();
    trace := SecondAdded();
    trace, token := ClaimOne(trace, [first, added], 1, WEEK, 0);
    RowIsLive(added, ClaimedRow(added, WEEK, token), WEEK, token);
    assert [first, added][1 := ClaimedRow(added, WEEK, token)] == [first, ClaimedRow(added, WEEK, token)];
  }

  lemma NewRowIsDue()
    ensures HealthDue(NewRow(0, WEEK), [User(true, false)], WEEK)
  {}

  /** A second proxy on the same address is added after a week and seen alive: a duplicate. */
  lemma SecondSeen() returns (trace: seq<Timed>)
    ensures Stage(Run(Init(CONFIG), trace),
                  [UpRow(0, WEEK, HttpsQuorum, None),
                   UpRow(WEEK, WEEK, HttpsQuorum, Some(0)).(eligibility := Unclassified, earnappNext := None)], WEEK)
  {
    var token: nat;
    trace, token := SecondClaimed();
    var first, row := UpRow(0, WEEK, HttpsQuorum, None), ClaimedRow(NewRow(0, WEEK), WEEK, token);
    var up := UpRow(WEEK, WEEK, HttpsQuorum, Some(0)).(eligibility := Unclassified, earnappNext := None);
    SecondRow(row, first, up, token);
    hide Run, Stage, LiveRow, Grouped, Rehomed, UpRow, NewRow, ClaimedRow, StaleRecovery;
    trace := LiveOne(trace, [first, row], 1, WEEK, token);
  }

  lemma SecondRow(row: Proxy, first: Proxy, up: Proxy, token: nat)
    requires row == ClaimedRow(NewRow(0, WEEK), WEEK, token) && first == UpRow(0, WEEK, HttpsQuorum, None)
    requires up == UpRow(WEEK, WEEK, HttpsQuorum, Some(0)).(eligibility := Unclassified, earnappNext := None)
    ensures var rows := [first, row][1 := WithExit(LiveRow(CONFIG, row, LIVE, WEEK), "x", HttpsQuorum, WEEK)];
            Grouped(rows) && Rehomed(rows) == [first, up]
    ensures !StaleRecovery(CONFIG, row, WEEK) && Active(row)
  {}

  /** EarnApp allows it at once. */
  lemma SecondAllowed() returns (trace: seq<Timed>)
    ensures Stage(Run(Init(CONFIG), trace), [UpRow(0, WEEK, HttpsQuorum, None), UpRow(WEEK, WEEK, EarnappTls, Some(0))], WEEK)
  {
    var token: nat;
    trace := SecondSeen();
    var first, up := UpRow(0, WEEK, HttpsQuorum, None), UpRow(WEEK, WEEK, HttpsQuorum, Some(0)).(eligibility := Unclassified, earnappNext := None);
    hide Run;
    trace, token := ClaimEarnappOne(trace, [first, up], 1, WEEK);
    var claimed := up.(earnappUntil := Some(WEEK + 600), earnappToken := Some(token));
    assert [first, up][1 := claimed] == [first, claimed];
    trace := AllowOne(trace, [first, claimed], 1, WEEK, token);
    assert [first, claimed][1 := AllowedRow(claimed, WEEK)] == [first, UpRow(WEEK, WEEK, EarnappTls, Some(0))];
  }

  /** A day later both are seen alive. */
  lemma BothSeen() returns (trace: seq<Timed>)
    ensures Stage(Run(Init(CONFIG), trace),
                  [UpRow(0, WEEK + DAY, HttpsQuorum, None), UpRow(WEEK, WEEK + DAY, HttpsQuorum, Some(0))], WEEK + DAY)
  {
    var a, b := UpRow(0, WEEK, HttpsQuorum, None), UpRow(WEEK, WEEK, EarnappTls, Some(0));
    var up, down := UpRow(0, WEEK + DAY, HttpsQuorum, None), UpRow(WEEK, WEEK + DAY, HttpsQuorum, Some(0));
    PairGroup();
    hide Run, Stage, UpRow, Grouped, Rehomed, Init;
    trace := SecondAllowed();
    trace := SeeAgain(trace, [a, b], 0, WEEK, DAY, 0, WEEK, HttpsQuorum);
    assert [a, b][0 := up] == [up, b];
    trace := SeeAgain(trace, [up, b], 1, WEEK + DAY, 0, WEEK, WEEK, EarnappTls);
    assert [up, b][1 := down] == [up, down];
  }

  lemma PairGroup()
    ensures var rows := [UpRow(0, WEEK, HttpsQuorum, None), UpRow(WEEK, WEEK, EarnappTls, Some(0))];
            Grouped(rows) && Rehomed(rows) == rows
  {}

  /** The money of the eighth day. */
  const EIGHTH := Entry(0, 0, WEEK, WEEK + DAY, Amount(NON_US_MONTHLY_MICRO_USD, DAY), Available, Some("x"))

  /** Accrual credits the first proxy for all eight days. */
  lemma FirstCredited() returns (trace: seq<Timed>)
    ensures var db := Run(Init(CONFIG), trace);
            && db.cfg == CONFIG && db.users == [User(true, false)] && db.clock == WEEK + DAY
            && db.proxies == [UpRow(0, WEEK + DAY, HttpsQuorum, None).(cursor := WEEK + DAY), UpRow(WEEK, WEEK + DAY, HttpsQuorum, Some(0))]
            && |db.ledger| == 2 && db.ledger[1] == EIGHTH && (forall k :: 0 <= k < 2 ==> db.ledger[k].proxy == 0 && db.ledger[k].bucket.Available?)
  {
    trace := BothSeen();
    var db := Run(Init(CONFIG), trace);
    var now := WEEK + DAY;
    hide Run;
    var p := db.proxies[0];
    assert Unlock([], 0, 0) == [];
    var first := EntryFor(p, 0, 0, WEEK, Available);
    assert AddEntry([], first) == [first] && AddEntry([first], EIGHTH) == [first, EIGHTH];
    assert Credit([], p, 0, now) == [first, EIGHTH];
    var credited := AccrueRow(db, 0, false, now);
    assert credited.ledger == [first, EIGHTH] && credited.proxies[0] == p.(cursor := now);
    assert AccrueFirst(db, 0, now) == db && AccrueFirst(db, 1, now) == credited;
    assert !AccrualDue(credited, 1, false, now);
    assert AccrueFirst(db, 2, now) == credited;
    hide Credit, AccrueRow, AccrueFirst;
    trace, db := OneMore(trace, AccrueAllEvent, 0);
  }

  /** On a reachable run the owner archives the canonical proxy; its duplicate becomes canonical with
      its old cursor, and its next accrual pays the eighth day of the address once more. */
  lemma PaidAgainRun() returns (trace: seq<Timed>)
    ensures var db := Run(Init(CONFIG), trace);
            && |db.proxies| == 2 && db.proxies[0].archivedAt.Some? && db.proxies[1].duplicateOf.None?
            && EIGHTH in db.ledger && PaysAgain(db, 1, true, db.clock)
  {
    trace := FirstCredited();
    var db := Run(Init(CONFIG), trace);
    var now := WEEK + DAY;
    hide Run;
    var rows := db.proxies;
    assert LeaveGroup(db, 0, now).proxies == [rows[0], rows[1].(duplicateOf := None)] && LeaveGroup(db, 0, now).ledger == db.ledger by {
      SecondIsCanonical(rows, now);
      hide Canonical;
      assert Repoint(rows, "x", Some(0), 1) == [rows[0], rows[1].(duplicateOf := None)];
      assert ExpireAll(db.ledger, Losers(rows, "x", Some(0), 1)) == db.ledger;
      assert ExpireAll(db.ledger, {0}) == db.ledger;
    }
    hide LeaveGroup;
    trace, db := OneMore(trace, ArchiveEvent(0, 0), 0);
    assert db.ledger[1] == EIGHTH && db.ledger[1] in db.ledger;
    assert OthersMoney(db, 1, db.ledger[1]) && Overlapped(db, 1, now) && Paying(db, 1, true, now);
    RunInv(CONFIG, trace);
    hide Inv;
    PaysAgainExactly(db, 1, true, now);
  }

  lemma SecondIsCanonical(rows: seq<Proxy>, now: int)
    requires Grouped(rows) && |rows| == 2
    ensures Canonical(rows, "x", false, Some(0), now) == Some(1)
  {
    hide Precedes;
    forall byVerified: bool
      ensures Best(rows, 2, "x", Some(0), true, byVerified, now) == Some(1)
    {
      assert Candidate(rows, 1, "x", Some(0), true, now) && !Candidate(rows, 0, "x", Some(0), true, now);
    }
  }
}
