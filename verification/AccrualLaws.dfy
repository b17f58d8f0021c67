/** What an accrual does to the ledger, entry by entry and cent by cent (app/services/earnings.py:212-302). */
module AccrualLaws {
  import opened Wrappers
  import opened EarningModel
  import opened RowInvariants
  import opened LedgerInvariants
  import opened EarningInvariants
  import opened Balances

  /** Seven days and the paid month, in seconds. */
  const SEVEN_DAYS := 604_800
  const PAID_MONTH := 2_592_000

  /** What the row and its owner must be for the accrual to move its cursor. */
  predicate Accrues(db: Db, i: nat, suspectToo: bool, now: int)
    requires i < |db.proxies|
  {
    var p := db.proxies[i];
    && p.archivedAt.None? && p.userId < |db.users|
    && (p.status == Online || (suspectToo && p.status == Suspect))
    && (p.eligibility == Allow || p.eligibility == Risk)
    && p.duplicateOf.None? && p.exitIp.Some? && (p.attestation == HttpsQuorum || p.attestation == EarnappTls)
    && p.lastSuccess.Some? && p.cursor < now && p.cursor < p.lastSuccess.value + db.cfg.stale
  }

  /** Up to when the last success vouches for the row. */
  function Until(db: Db, i: nat, now: int): int
    requires i < |db.proxies| && db.proxies[i].lastSuccess.Some?
  {
    var vouched := db.proxies[i].lastSuccess.value + db.cfg.stale;
    if now < vouched then now else vouched
  }

  /** An accrual moves one cursor, exactly when the row accrues, to where its success vouches for it. */
  lemma CursorMovesExactly(db: Db, i: nat, suspectToo: bool, now: int)
    requires i < |db.proxies|
    ensures var p, after := db.proxies[i], AccrueRow(db, i, suspectToo, now);
            && after == db.(proxies := after.proxies, ledger := after.ledger)
            && after.proxies == db.proxies[i := p.(cursor := if Accrues(db, i, suspectToo, now) then Until(db, i, now) else p.cursor)]
            && (!Accrues(db, i, suspectToo, now) || !db.users[p.userId].active || db.users[p.userId].paused ==> after.ledger == db.ledger)
  {
    hide Credit;
    assert db.proxies[i := db.proxies[i]] == db.proxies;
  }

  /** The entry pays one proxy of one user for one interval at the row's monthly rate, rounded down. */
  predicate PaysFor(e: Entry, p: Proxy, i: nat, start: int, end: int, bucket: Bucket) {
    var rate := if p.eligibility == Allow && p.country == "US" then 1_000_000 else 500_000;
    && e.user == p.userId && e.proxy == i && e.start == start && e.end == end && e.bucket == bucket
    && e.address == p.exitIp && e.micro == rate * (end - start) / PAID_MONTH
  }

  /** Everything the proxy had pending is available now, with the same interval and amount. */
  ghost predicate Freed(l: seq<Entry>, m: seq<Entry>, i: nat) {
    |l| <= |m| && forall k :: 0 <= k < |l| ==> m[k] == if l[k].proxy == i && l[k].bucket == PendingMoney then l[k].(bucket := Available) else l[k]
  }

  /** What is appended: up to the moment of unlocking and from it on, empty parts left out. */
  ghost predicate AppendedAvailable(m: seq<Entry>, n: nat, p: Proxy, i: nat, end: int) {
    var unlockAt := p.probation + SEVEN_DAYS;
    if p.cursor < unlockAt < end
    then |m| == n + 2 && PaysFor(m[n], p, i, p.cursor, unlockAt, Available) && PaysFor(m[n + 1], p, i, unlockAt, end, Available)
    else |m| == n + 1 && PaysFor(m[n], p, i, p.cursor, end, Available)
  }

  /** The whole ledger after the accrual of a paid owner's row.  Once the validated end is seven days
      past the probation start, all pending money of the row is freed and what is added is free at
      once; until then what is added is pending and nothing else changes. */
  lemma AccrualExactly(db: Db, i: nat, suspectToo: bool, now: int)
    requires Inv(db) && i < |db.proxies| && now == db.clock && Accrues(db, i, suspectToo, now)
    requires db.users[db.proxies[i].userId].active && !db.users[db.proxies[i].userId].paused
    ensures var p, end, l, m := db.proxies[i], Until(db, i, now), db.ledger, AccrueRow(db, i, suspectToo, now).ledger;
            if end >= p.probation + SEVEN_DAYS
            then Freed(l, m, i) && NoPending(m, i) && AppendedAvailable(m, |l|, p, i, end)
            else |m| == |l| + 1 && m[..|l|] == l && PaysFor(m[|l|], p, i, p.cursor, end, PendingMoney)
  {
    var p, end, l := db.proxies[i], Until(db, i, now), db.ledger;
    var ps, h, stale := db.proxies, db.history, db.cfg.stale;
    assert RowOk(p, i, now, stale, h);
    assert AccrualDue(db, i, true, now) && end == ValidatedEnd(db.cfg, p, now);
    assert AccrueRow(db, i, suspectToo, now).ledger == Credit(l, p, i, end);
    hide LedgerOk, RowsOk, Continuous;
    if end >= p.probation + SEVEN_DAYS {
      CycleUnlocked(db, i, now);
      UnlockKeeps(l, i, ps, h, stale, p.generation, end);
      UnlockFrees(l, i, ps, h, stale);
      FreeCredit(Unlock(l, i, p.probation), p, i, end, ps, h, stale);
      hide Unlock, AddEntry;
      assert forall k :: 0 <= k < |l| ==> Credit(l, p, i, end)[k] == Unlock(l, i, p.probation)[k];
    } else {
      AddEntryAppends(l, EntryFor(p, i, p.cursor, end, PendingMoney), ps, h, stale);
    }
  }

  lemma UnlockFrees(l: seq<Entry>, i: nat, ps: seq<Proxy>, h: set<Success>, stale: int)
    requires LedgerOk(l, ps, h, stale) && i < |ps|
    ensures Freed(l, Unlock(l, i, ps[i].probation), i) && |Unlock(l, i, ps[i].probation)| == |l|
  {
    UnlockTakesAll(l, i, ps, h, stale);
  }

  lemma FreeCredit(u: seq<Entry>, p: Proxy, i: nat, end: int, ps: seq<Proxy>, h: set<Success>, stale: int)
    requires LedgerOk(u, ps, h, stale) && i < |ps| && p == ps[i] && p.cursor < end && end >= p.probation + SEVEN_DAYS && Earning(p.eligibility)
    ensures var m := if p.cursor < p.probation + SEVEN_DAYS
                     then AddEntry(AddEntry(u, EntryFor(p, i, p.cursor, p.probation + SEVEN_DAYS, Available)),
                                   EntryFor(p, i, p.probation + SEVEN_DAYS, end, Available))
                     else AddEntry(u, EntryFor(p, i, p.cursor, end, Available));
            |u| <= |m| && m[..|u|] == u && AppendedAvailable(m, |u|, p, i, end)
  {
    var unlockAt := p.probation + SEVEN_DAYS;
    if p.cursor < unlockAt {
      var first, second := EntryFor(p, i, p.cursor, unlockAt, Available), EntryFor(p, i, unlockAt, end, Available);
      AddEntryAppends(u, first, ps, h, stale);
      var v := u + [first];
      forall k | 0 <= k < |v|
        ensures !SameKey(v[k], second)
      {
        assert k < |u| ==> EntryOk(u[k], ps, h, stale);
      }
      assert AddEntry(v, second) == if unlockAt < end then v + [second] else v;
    } else {
      AddEntryAppends(u, EntryFor(p, i, p.cursor, end, Available), ps, h, stale);
    }
  }

  // ----- Balances -----

  /** What the proxy has pending for one user. */
  function PendingOf(l: seq<Entry>, user: nat, i: nat): int {
    if l == [] then 0
    else
      var e := l[|l| - 1];
      PendingOf(l[..|l| - 1], user, i) + (if e.user == user && e.proxy == i && e.bucket == PendingMoney then e.micro else 0)
  }

  /** What the entries from `n` on make available to one user. */
  function AddedTo(m: seq<Entry>, n: nat, user: nat): int
    requires n <= |m|
  {
    if |m| == n then 0
    else AddedTo(m[..|m| - 1], n, user) + (if m[|m| - 1].user == user && m[|m| - 1].bucket == Available then m[|m| - 1].micro else 0)
  }

  lemma {:induction false} FreedBalance(l: seq<Entry>, m: seq<Entry>, i: nat, user: nat)
    requires Freed(l, m, i)
    ensures Balance(m, user, Available) == Balance(l, user, Available) + PendingOf(l, user, i) + AddedTo(m, |l|, user)
    decreases |m|
  {
    if |l| < |m| {
      FreedBalance(l, m[..|m| - 1], i, user);
    } else if l != [] {
      assert m[|l| - 1] == if l[|l| - 1].proxy == i && l[|l| - 1].bucket == PendingMoney then l[|l| - 1].(bucket := Available) else l[|l| - 1];
      assert Freed(l[..|l| - 1], m[..|l| - 1], i);
      FreedBalance(l[..|l| - 1], m[..|l| - 1], i, user);
    }
  }

  lemma PrefixBalance(l: seq<Entry>, m: seq<Entry>, user: nat)
    requires |m| == |l| + 1 && m[..|l|] == l
    ensures Balance(m, user, Available) == Balance(l, user, Available) + (if m[|l|].user == user && m[|l|].bucket == Available then m[|l|].micro else 0)
  {}

  /** The balance a user can draw on grows by exactly the money freed and the money added when the
      seven days are over, and not at all before. */
  lemma AccrualPaysExactly(db: Db, i: nat, suspectToo: bool, now: int, user: nat)
    requires Inv(db) && i < |db.proxies| && now == db.clock && Accrues(db, i, suspectToo, now)
    requires db.users[db.proxies[i].userId].active && !db.users[db.proxies[i].userId].paused
    ensures var p, end, l, m := db.proxies[i], Until(db, i, now), db.ledger, AccrueRow(db, i, suspectToo, now).ledger;
            && |l| <= |m|
            && Balance(m, user, Available) == Balance(l, user, Available)
               + (if end >= p.probation + SEVEN_DAYS then PendingOf(l, user, i) + AddedTo(m, |l|, user) else 0)
  {
    hide Inv, AccrueRow;
    AccrualExactly(db, i, suspectToo, now);
    var l, m := db.ledger, AccrueRow(db, i, suspectToo, now).ledger;
    if Until(db, i, now) >= db.proxies[i].probation + SEVEN_DAYS {
      FreedBalance(l, m, i, user);
    } else {
      PrefixBalance(l, m, user);
    }
  }
}
