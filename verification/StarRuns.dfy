/** Runs on which a write that acts on rows read before its lock breaks the star of an exit address
    (app/services/proxies.py:276-378). */
module StarRuns {
  import opened Wrappers
  import opened EarningModel
  import opened EgressStar
  import opened AddressPayments

  // ----- Three proxies on one address -----

  /** A row added, claimed and seen alive at second 0. */
  function Up(token: nat, duplicateOf: Option<nat>): Proxy {
    Fresh(token).(status := Online, exitIp := Some("x"), attestation := HttpsQuorum, verifiedAt := Some(0), duplicateOf := duplicateOf,
                  onlineSince := Some(0), lastSuccess := Some(0), checkUntil := None, checkToken := None)
  }

  /** A row added and claimed at second 0. */
  function Fresh(token: nat): Proxy {
    NewRow(0, 0).(nextCheck := 900, checkUntil := Some(600), checkToken := Some(token))
  }

  function TrioRow(n: nat, k: int, token: nat): Proxy {
    if k < n then Up(token, if k == 0 then None else Some(0)) else Fresh(token)
  }

  /** The first `n` rows are up, in the order of their ids; the others are claimed. */
  function Trio(n: nat, token: nat): (r: seq<Proxy>)
    ensures |r| == 3 && forall k :: 0 <= k < 3 ==> r[k] == TrioRow(n, k, token)
  {
    [TrioRow(n, 0, token), TrioRow(n, 1, token), TrioRow(n, 2, token)]
  }

  lemma ThreeAdded() returns (trace: seq<Timed>)
    ensures Stage(Run(Init(CONFIG), trace), [NewRow(0, 0), NewRow(0, 0), NewRow(0, 0)], 0)
  {
    var db;
    trace := FirstAdded();
    hide Run, NewRow;
    trace, db := OneMore(trace, AddProxyEvent(0), 0);
    assert db.proxies == [NewRow(0, 0), NewRow(0, 0)];
    trace, db := OneMore(trace, AddProxyEvent(0), 0);
    assert db.proxies == [NewRow(0, 0), NewRow(0, 0), NewRow(0, 0)];
  }

  lemma ThreeClaimed() returns (trace: seq<Timed>, token: nat)
    ensures Stage(Run(Init(CONFIG), trace), Trio(0, token), 0)
  {
    trace := ThreeAdded();
    var p, db := NewRow(0, 0), Run(Init(CONFIG), trace);
    token := db.nextToken;
    assert HealthDue(p, [User(true, false)], 0);
    hide Run, HealthDue;
    assert ClaimHealth(db, {0, 1, 2}, 0).proxies == Trio(0, token);
    hide ClaimHealth, Trio;
    trace, db := OneMore(trace, ClaimHealthEvent({0, 1, 2}), 0);
  }

  /** Row `n` as the live result writes it. */
  function Joining(n: nat, token: nat): (r: seq<Proxy>)
    requires n < 3
    ensures |r| == 3
  {
    Trio(n, token)[n := Up(token, None)]
  }

  lemma FirstLeads(n: nat, token: nat, prefer: bool)
    requires n < 3
    ensures Canonical(Joining(n, token), "x", prefer, None, 0) == Some(0)
  {
    var ps := Joining(n, token);
    forall k: nat | k < 3
      ensures Candidate(ps, k, "x", None, true, 0) <==> k <= n
    {}
    forall byVerified: bool
      ensures Best(ps, 3, "x", None, true, byVerified, 0) == Some(0)
    {
      forall k: nat | 0 < k <= n
        ensures !Precedes(ps, k, 0, byVerified)
      {}
      assert Candidate(ps, 0, "x", None, true, 0);
      hide Precedes, Candidate;
    }
  }

  lemma JoinedGroup(db: Db, n: nat, token: nat, prefer: bool)
    requires n < 3 && db.proxies == Joining(n, token) && db.ledger == []
    ensures Canonicalize(db, "x", prefer, None, 0) == db.(proxies := Trio(n + 1, token))
  {
    FirstLeads(n, token, prefer);
    hide Canonical;
    assert Repoint(db.proxies, "x", None, 0) == Trio(n + 1, token);
    assert ExpireAll([], Losers(db.proxies, "x", None, 0)) == [];
  }

  lemma UpApplied(db: Db, n: nat, token: nat)
    requires n < 3 && db.proxies == Trio(n, token) && db.ledger == [] && db.cfg == CONFIG
    ensures var d := ApplyLive(db, n, LIVE, 0); d == db.(proxies := Trio(n + 1, token), history := d.history)
  {
    var q := LiveRow(CONFIG, Fresh(token), LIVE, 0);
    var written := SetRow(db, n, q).(history := db.history + {Success(n, 1, 0)});
    var named := SetRow(written, n, WithExit(q, "x", HttpsQuorum, 0));
    assert WithExit(q, "x", HttpsQuorum, 0) == Up(token, None);
    assert named.proxies == Joining(n, token);
    JoinedGroup(named, n, token, q.verifiedAt.Some?);
    hide Canonicalize, Trio, Joining;
    assert ReconcileExitIp(written, n, "x", HttpsQuorum, 0) == Canonicalize(named, "x", q.verifiedAt.Some?, None, 0);
    hide ReconcileExitIp;
  }

  lemma OneUp(before: seq<Timed>, n: nat, token: nat) returns (trace: seq<Timed>)
    requires n < 3 && Stage(Run(Init(CONFIG), before), Trio(n, token), 0)
    ensures Stage(Run(Init(CONFIG), trace), Trio(n + 1, token), 0)
  {
    var db := Run(Init(CONFIG), before);
    hide Run, Trio, ApplyLive;
    UpApplied(db, n, token);
    trace, db := OneMore(before, HealthEvent(n, 1, token, LIVE), 0);
  }

  /** Three proxies of one user on one address, the first one canonical. */
  lemma ThreeUp() returns (trace: seq<Timed>, token: nat)
    ensures Stage(Run(Init(CONFIG), trace), Trio(3, token), 0)
  {
    trace, token := ThreeClaimed();
    hide Run, Stage, Trio;
    trace := OneUp(trace, 0, token);
    trace := OneUp(trace, 1, token);
    trace := OneUp(trace, 2, token);
  }

  // ----- Moving to another address -----

  const MOVED := Live(true, Some("y"))

  /** Rows alike but for their links. */
  predicate Alike(p: Proxy, q: Proxy) {
    q == p.(duplicateOf := q.duplicateOf)
  }

  lemma CanonicalizeLinks(db: Db, ip: Ip, prefer: bool, now: int)
    ensures var qs := Canonicalize(db, ip, prefer, None, now).proxies;
            |qs| == |db.proxies| && forall j :: 0 <= j < |qs| ==> Alike(db.proxies[j], qs[j])
  {
    hide Choose;
  }

  lemma ReconcileMoves(db: Db, i: nat, ip: Ip, now: int)
    requires i < |db.proxies| && Active(db.proxies[i])
    ensures var qs := ReconcileExitIp(db, i, ip, HttpsQuorum, now).proxies;
            && |qs| == |db.proxies| && Alike(WithExit(db.proxies[i], ip, HttpsQuorum, now), qs[i])
            && forall j :: 0 <= j < |qs| && j != i ==> Alike(db.proxies[j], qs[j])
  {
    var p := db.proxies[i];
    var named := SetRow(db, i, WithExit(p, ip, HttpsQuorum, now));
    var d := Canonicalize(named, ip, p.verifiedAt.Some?, None, now);
    CanonicalizeLinks(named, ip, p.verifiedAt.Some?, now);
    hide Canonicalize;
    if p.exitIp.Some? && p.exitIp.value != ip {
      CanonicalizeLinks(d, p.exitIp.value, false, now);
    }
  }

  /** A live result on another address moves the row there and changes nothing but links elsewhere. */
  lemma MoveApplied(db: Db, i: nat, now: int)
    requires i < |db.proxies| && Active(db.proxies[i])
    ensures var qs := ApplyLive(db, i, MOVED, now).proxies;
            && |qs| == |db.proxies| && Active(qs[i]) && qs[i].exitIp == Some("y") && qs[i].userId == db.proxies[i].userId
            && forall j :: 0 <= j < |qs| && j != i ==> Alike(db.proxies[j], qs[j])
  {
    var p := db.proxies[i];
    var broken := CycleBroken(db.cfg, p, MOVED, now);
    var credited := if broken && Earning(p.eligibility) then AccrueRow(db, i, true, now) else db;
    AccrueTouchesCursor(db, i, now);
    var closed := if broken then ExpirePendingCycle(credited, i) else credited;
    var q := LiveRow(db.cfg, p, MOVED, now);
    var written := SetRow(closed, i, q).(history := db.history + {Success(i, p.generation, now)});
    hide AccrueRow, CycleBroken;
    assert Active(q) && q.userId == p.userId;
    hide LiveRow;
    ReconcileMoves(written, i, "y", now);
    hide ReconcileExitIp;
  }

  lemma AccrueTouchesCursor(db: Db, i: nat, now: int)
    requires i < |db.proxies|
    ensures var qs := AccrueRow(db, i, true, now).proxies; |qs| == |db.proxies| && forall j :: 0 <= j < |qs| && j != i ==> qs[j] == db.proxies[j]
  {
    hide Credit;
  }

  /** Row 0 on an address is canonical and rows 1 and 2 follow it. */
  lemma LedStar(ps: seq<Proxy>)
    requires |ps| == 3 && (forall k :: 0 <= k < 3 ==> InGroup(ps[k], "x"))
    requires ps[0].duplicateOf.None? && ps[1].duplicateOf == ps[2].duplicateOf == Some(0)
    ensures Star(ps)
  {}

  // ----- A late replacement or archival -----

  lemma SecondIsNext(ps: seq<Proxy>, first: nat, token: nat, now: int)
    requires ps == [Up(first, None), ClaimedRow(Up(first, Some(0)), now, token), Up(first, Some(0))]
    ensures Canonical(ps, "x", false, Some(0), now) == Some(1)
  {
    assert forall k: nat :: k < 3 ==> (Candidate(ps, k, "x", Some(0), true, now) <==> k > 0);
    assert !Precedes(ps, 2, 1, false);
    assert Candidate(ps, 1, "x", Some(0), true, now);
    hide Precedes, Candidate;
    assert Best(ps, 3, "x", Some(0), true, false, now) == Some(1);
  }

  /** The owner of row 0 reads that row 1 comes after it. */
  lemma LeaveRead() returns (read: seq<Timed>, token: nat, choice: Choice)
    ensures var db := Run(Init(CONFIG), read);
            && |db.proxies| == 3 && db.clock == 900 && Star(db.proxies) && LeavingChoice(db.proxies, 0, 900) == Some(choice)
            && choice.ip == "x" && choice.canonical == 1
            && (forall k :: 0 <= k < 3 ==> InGroup(db.proxies[k], "x") && db.proxies[k].userId == 0) && HealthAccepted(db, 1, 1, token)
  {
    var first;
    read, first := ThreeUp();
    var up := Up(first, Some(0));
    assert Trio(3, first) == [Up(first, None), up, up];
    assert HealthDue(up, [User(true, false)], 900);
    hide Run, HealthDue;
    read, token := ClaimOne(read, [Up(first, None), up, up], 1, 0, 900);
    var ps := [Up(first, None), ClaimedRow(up, 900, token), up];
    assert [Up(first, None), up, up][1 := ClaimedRow(up, 900, token)] == ps;
    SecondIsNext(ps, first, token, 900);
    LedStar(ps);
    hide Star, Canonical;
    choice := LeavingChoice(ps, 0, 900).value;
  }

  /** A live result on another address as the step after a reading. */
  lemma OneMoved(read: seq<Timed>, i: nat, token: nat) returns (trace: seq<Timed>)
    requires var db := Run(Init(CONFIG), read); HealthAccepted(db, i, 1, token) && Star(db.proxies)
    ensures trace == read + [Timed(HealthEvent(i, 1, token, MOVED), 0)]
    ensures var ps, qs := Run(Init(CONFIG), read).proxies, Run(Init(CONFIG), trace).proxies;
            && Star(qs) && |qs| == |ps| && i < |qs| && Active(qs[i]) && qs[i].exitIp == Some("y") && qs[i].userId == ps[i].userId
            && forall j :: 0 <= j < |qs| && j != i ==> Alike(ps[j], qs[j])
  {
    var db := Run(Init(CONFIG), read);
    hide Run, Star, ApplyLive;
    HealthStar(Tick(db, 0), i, 1, token, MOVED, db.clock);
    MoveApplied(Tick(db, 0), i, db.clock);
    assert ApplyHealth(Tick(db, 0), i, 1, token, MOVED, db.clock) == ApplyLive(Tick(db, 0), i, MOVED, db.clock);
    hide ApplyHealth, Tick;
    trace, db := OneMore(read, HealthEvent(i, 1, token, MOVED), 0);
  }

  /** The owner's request reads that row 1 comes after row 0; row 1 moves to another address; and the
      request's writes, whether it replaces or archives, leave row 2 pointing at a row of that address. */
  lemma LateLeaveBreaksStar(replace: bool) returns (read: seq<Timed>, late: seq<Timed>, token: nat, choice: Choice)
    ensures var db := Run(Init(CONFIG), read); |db.proxies| == 3 && LeavingChoice(db.proxies, 0, db.clock) == Some(choice)
    ensures late == read + [Timed(HealthEvent(1, 1, token, MOVED), 0), Timed(LateLeaveEvent(0, 0, Some(choice), replace), 0)]
    ensures Star(Run(Init(CONFIG), late[..|late| - 1]).proxies) && !Star(Run(Init(CONFIG), late).proxies)
  {
    var db;
    read, token, choice := LeaveRead();
    hide Run, Star, LeavingChoice, HealthAccepted;
    var moved := OneMoved(read, 1, token);
    db := Run(Init(CONFIG), moved);
    MovedAway(Tick(db, 0), choice, replace, db.clock);
    hide LateLeave;
    late, db := OneMore(moved, LateLeaveEvent(0, 0, Some(choice), replace), 0);
    assert late[..|late| - 1] == moved;
  }

  lemma MovedAway(db: Db, choice: Choice, replace: bool, now: int)
    requires Star(db.proxies) && |db.proxies| == 3 && Owned(db, 0, 0) && InGroup(db.proxies[2], "x") && db.proxies[1].exitIp == Some("y")
    requires choice.ip == "x" && choice.canonical == 1
    ensures !Star(LateLeave(db, 0, 0, Some(choice), replace, now).proxies)
  {
    var ps, p := db.proxies, db.proxies[0];
    var q := if replace then ReplacedRow(p, now) else ArchivedRow(p, now);
    assert Member(ps, 2, "x", Some(0)) && !OnAddressOf(ps[2], ps[1]);
    assert LateLeave(db, 0, 0, Some(choice), replace, now).proxies == LeftRows(ps, 0, Some(choice), q);
    LeaveKeepsStarExactly(ps, 0, Some(choice), replace, q);
  }

  // ----- A late promotion -----

  /** A row that is checked, is not classified and may fail. */
  predicate Failing(p: Proxy) {
    Active(p) && p.generation == 1 && p.eligibility.Unclassified? && p.userId == 0 && p.exitIp == Some("x") && p.attestation == HttpsQuorum
  }

  /** The row after one more failed check at `now`. */
  predicate FailedTo(p: Proxy, q: Proxy, now: int) {
    && Failing(q) && q.duplicateOf == p.duplicateOf
    && q.failures == p.failures + 1 && q.checkUntil.None? && q.nextCheck == now + (if q.failures == 1 then 300 else 900)
    && (q.failures >= 3 ==> q.status.Offline? && (p.offlineSince.None? ==> q.offlineSince == Some(now)))
    && (q.failures < 3 && !p.status.Blocked? ==> q.offlineSince == p.offlineSince && !q.status.Blocked?)
  }

  lemma FailureRowIs(p: Proxy, now: int, token: nat)
    requires Failing(p)
    ensures FailedTo(p, FailureRow(CONFIG, ClaimedRow(p, now, token), now), now)
    ensures Failing(ClaimedRow(p, now, token)) && ClaimedRow(p, now, token).checkToken == Some(token)
  {}

  lemma OneFailed(before: seq<Timed>, rows: seq<Proxy>, clock: int, token: nat) returns (trace: seq<Timed>)
    requires Stage(Run(Init(CONFIG), before), rows, clock) && 0 < |rows| && Failing(rows[0]) && rows[0].checkToken == Some(token)
    ensures Stage(Run(Init(CONFIG), trace), rows[0 := FailureRow(CONFIG, rows[0], clock)], clock)
  {
    var db := Run(Init(CONFIG), before);
    hide Run, FailureRow;
    FailureApplied(db, clock);
    assert ApplyHealth(db, 0, 1, token, Dead, clock) == ApplyFailure(db, 0, clock);
    hide ApplyHealth, ApplyFailure;
    trace, db := OneMore(before, HealthEvent(0, 1, token, Dead), 0);
  }

  /** One failed check of row 0, claimed `delay` seconds after the last step. */
  lemma FailOnce(before: seq<Timed>, p: Proxy, b: Proxy, clock: int, delay: nat) returns (trace: seq<Timed>, q: Proxy)
    requires Stage(Run(Init(CONFIG), before), [p, b, b], clock) && Failing(p) && HealthDue(p, [User(true, false)], clock + delay)
    ensures Stage(Run(Init(CONFIG), trace), [q, b, b], clock + delay) && FailedTo(p, q, clock + delay)
  {
    hide Run, HealthDue, Stage, FailureRow, FailedTo, ClaimedRow, Failing;
    var token: nat;
    var now := clock + delay;
    trace, token := ClaimOne(before, [p, b, b], 0, clock, delay);
    var c := ClaimedRow(p, now, token);
    FailureRowIs(p, now, token);
    RowIsLive(p, c, now, token);
    assert [p, b, b][0 := c] == [c, b, b];
    trace := OneFailed(trace, [c, b, b], now, token);
    q := FailureRow(CONFIG, c, now);
    assert [c, b, b][0 := q] == [q, b, b];
  }

  lemma FailureApplied(db: Db, now: int)
    requires 0 < |db.proxies| && Failing(db.proxies[0]) && db.ledger == [] && db.cfg == CONFIG
    ensures ApplyFailure(db, 0, now) == db.(proxies := db.proxies[0 := FailureRow(CONFIG, db.proxies[0], now)])
  {
    assert ExpireAll([], {0}) == [];
    hide FailureRow;
  }

  /** Row 0 goes offline, with both followers still called online. */
  lemma FirstDown() returns (trace: seq<Timed>, q: Proxy, first: nat)
    ensures Stage(Run(Init(CONFIG), trace), [q, Up(first, Some(0)), Up(first, Some(0))], 2_100)
    ensures Failing(q) && q.duplicateOf.None? && q.status.Offline? && q.offlineSince == Some(2_100) && q.nextCheck == 3_000 && q.checkUntil.None?
  {
    trace, first := ThreeUp();
    var a, b := Up(first, None), Up(first, Some(0));
    assert Trio(3, first) == [a, b, b];
    assert Failing(a) && HealthDue(a, [User(true, false)], 900);
    hide Run, Stage, Up;
    trace, q := FailOnce(trace, a, b, 0, 900);
    trace, q := FailOnce(trace, q, b, 900, 300);
    trace, q := FailOnce(trace, q, b, 1_200, 900);
  }

  lemma SecondIsFirstDuplicate(ps: seq<Proxy>, first: nat)
    requires |ps| == 3 && ps[0].duplicateOf.None? && ps[1] == ps[2] == Up(first, Some(0))
    ensures FirstOnlineDuplicate(ps, 0, 3) == Some(1)
  {
    assert IsOnlineDuplicate(ps[1], 0) && !IsOnlineDuplicate(ps[0], 0);
    assert !Precedes(ps, 2, 1, false);
    hide IsOnlineDuplicate, Precedes;
  }

  /** What is read of row 0, down for a day and claimed once more. */
  lemma DownAndClaimed(q: Proxy, first: nat, now: int, token: nat)
    requires Failing(q) && q.duplicateOf.None? && q.status.Offline? && q.offlineSince == Some(2_100) && now == 2_100 + DAY
    ensures var c, b := ClaimedRow(q, now, token), Up(first, Some(0));
            && PromotionDue(c, now) && FirstOnlineDuplicate([c, b, b], 0, 3) == Some(1) && Star([c, b, b])
            && Active(c) && c.generation == 1 && c.checkToken == Some(token)
  {
    var c, b := ClaimedRow(q, now, token), Up(first, Some(0));
    SecondIsFirstDuplicate([c, b, b], first);
    hide FirstOnlineDuplicate;
    LedStar([c, b, b]);
    hide Star;
  }

  /** A day later the promotion of row 1 in place of row 0 is due. */
  lemma PromotionRead() returns (read: seq<Timed>, token: nat)
    ensures var db := Run(Init(CONFIG), read);
            && |db.proxies| == 3 && PromotionDue(db.proxies[0], db.clock) && FirstOnlineDuplicate(db.proxies, 0, 3) == Some(1)
            && Star(db.proxies) && db.proxies[1].exitIp == Some("x") && HealthAccepted(db, 0, 1, token)
  {
    var q, first;
    read, q, first := FirstDown();
    var b, now := Up(first, Some(0)), 2_100 + DAY;
    assert HealthDue(q, [User(true, false)], now) && b.exitIp == Some("x");
    hide Run, HealthDue, Up, Star, FirstOnlineDuplicate, PromotionDue;
    read, token := ClaimOne(read, [q, b, b], 0, 2_100, DAY);
    var c := ClaimedRow(q, now, token);
    assert [q, b, b][0 := c] == [c, b, b];
    DownAndClaimed(q, first, now, token);
  }

  /** The promotion of row 1 in place of row 0 is due when it is read; row 0 comes back on another
      address; and the promotion's writes leave it pointing at a row of its old one. */
  lemma LatePromotionBreaksStar() returns (read: seq<Timed>, late: seq<Timed>, token: nat)
    ensures var db := Run(Init(CONFIG), read);
            && |db.proxies| == 3 && PromotionDue(db.proxies[0], db.clock) && FirstOnlineDuplicate(db.proxies, 0, 3) == Some(1)
    ensures late == read + [Timed(HealthEvent(0, 1, token, MOVED), 0), Timed(LatePromoteEvent(0, 1), 0)]
    ensures Star(Run(Init(CONFIG), late[..|late| - 1]).proxies) && !Star(Run(Init(CONFIG), late).proxies)
  {
    read, token := PromotionRead();
    hide Run, Star, PromotionDue, FirstOnlineDuplicate, HealthAccepted;
    var moved := OneMoved(read, 0, token);
    var db := Run(Init(CONFIG), moved);
    MovedBeforePromotion(Tick(db, 0), db.clock);
    hide LatePromote;
    late, db := OneMore(moved, LatePromoteEvent(0, 1), 0);
    assert late[..|late| - 1] == moved;
  }

  lemma MovedBeforePromotion(db: Db, now: int)
    requires Star(db.proxies) && |db.proxies| == 3 && Active(db.proxies[0]) && db.proxies[0].exitIp == Some("y") && db.proxies[1].exitIp == Some("x")
    ensures !Star(LatePromote(db, 0, 1, now).proxies)
  {
    var ps := db.proxies;
    PromotionsThatFit(ps, 0, 1);
    PromotionKeepsStarExactly(ps, 0, 1);
    var qs, rs := PromoteRows(ps, 0, 1), PromoteTo(db, 0, 1, now).proxies;
    if Star(rs) {
      IdentityKeepsStar(rs, qs);
    }
  }
}
