/** The online time shown to a proxy's owner (app/services/earnings.py:57-151). */
module Projection {
  import opened Wrappers
  import opened Intervals
  import opened EarningModel
  import opened RowInvariants
  import opened LedgerInvariants
  import opened EarningInvariants

  /** The ledger rows that count: not expired, and earned with the current credentials. */
  predicate Counts(e: Entry, i: nat, from: int) {
    e.proxy == i && !e.bucket.Expired? && e.start >= from
  }

  function Bounded(e: Entry, now: int): Interval {
    Interval(Min(now, e.start), Min(now, e.end))
  }

  function CreditedIntervals(l: seq<Entry>, i: nat, from: int, now: int): (r: seq<Interval>)
    ensures NonEmpty(r)
  {
    if l == [] then []
    else
      var e := l[|l| - 1];
      var before := CreditedIntervals(l[..|l| - 1], i, from, now);
      if Counts(e, i, from) && Bounded(e, now).start < Bounded(e, now).end then before + [Bounded(e, now)] else before
  }

  function LatestEnd(s: seq<Interval>): Option<int> {
    if s == [] then None
    else
      var before := LatestEnd(s[..|s| - 1]);
      Some(if before.Some? then Max(before.value, s[|s| - 1].end) else s[|s| - 1].end)
  }

  predicate DisplaysEarnings(p: Proxy) {
    Earning(p.eligibility) && p.duplicateOf.None? && Trusted(p)
  }

  predicate HasTail(p: Proxy) {
    Reachable(p) && p.lastSuccess.Some? && p.onlineSince.Some?
  }

  /** `max(online_since, cursor, probation, ledger_end or cursor)`. */
  function TailStart(p: Proxy, ledgerEnd: Option<int>): int
    requires HasTail(p)
  {
    Max(Max(p.onlineSince.value, p.cursor), Max(p.probation, if ledgerEnd.Some? then ledgerEnd.value else p.cursor))
  }

  /** Distinct seconds credited in the ledger, plus the confirmed tail not yet accrued. */
  function Projected(db: Db, i: nat, now: int): int
    requires i < |db.proxies|
  {
    var p := db.proxies[i];
    var s := CreditedIntervals(db.ledger, i, p.credentialStart, now);
    if !DisplaysEarnings(p) then 0
    else |Covered(s)| + (if HasTail(p) then Max(0, ValidatedEnd(db.cfg, p, now) - TailStart(p, LatestEnd(s))) else 0)
  }

  lemma {:induction false} LatestEndIs(s: seq<Interval>, end: int)
    requires EndsAt(s, end) && EndsAtMost(s, end)
    ensures LatestEnd(s) == Some(end)
  {
    var p := s[..|s| - 1];
    if s[|s| - 1].end == end {
      LatestEndAtMost(p, end);
    } else {
      var k :| 0 <= k < |s| && s[k].end == end;
      assert p[k] == s[k];
      LatestEndIs(p, end);
    }
  }

  lemma {:induction false} LatestEndAtMost(s: seq<Interval>, end: int)
    requires EndsAtMost(s, end)
    ensures LatestEnd(s).Some? ==> LatestEnd(s).value <= end
  {
    if s != [] {
      LatestEndAtMost(s[..|s| - 1], end);
    }
  }

  // ----- The credited intervals of a reachable state -----

  lemma {:induction false} CreditedFrom(l: seq<Entry>, i: nat, from: int, now: int, k: nat)
    requires k < |CreditedIntervals(l, i, from, now)|
    ensures exists n :: 0 <= n < |l| && Counts(l[n], i, from) && CreditedIntervals(l, i, from, now)[k] == Bounded(l[n], now)
  {
    var p := l[..|l| - 1];
    if k < |CreditedIntervals(p, i, from, now)| {
      CreditedFrom(p, i, from, now, k);
      var n :| 0 <= n < |p| && Counts(p[n], i, from) && CreditedIntervals(p, i, from, now)[k] == Bounded(p[n], now);
      assert l[n] == p[n];
    }
  }

  /** Every credited interval is a whole ledger interval between the credential start and the cursor. */
  lemma CreditedBounds(db: Db, l: seq<Entry>, i: nat, now: int, k: nat)
    requires LedgerOk(l, db.proxies, db.history, db.cfg.stale) && i < |db.proxies|
    requires db.proxies[i].cursor <= now
    requires k < |CreditedIntervals(l, i, db.proxies[i].credentialStart, now)|
    ensures var v := CreditedIntervals(l, i, db.proxies[i].credentialStart, now)[k];
            db.proxies[i].credentialStart <= v.start && v.end <= db.proxies[i].cursor
  {
    CreditedFrom(l, i, db.proxies[i].credentialStart, now, k);
    var n :| 0 <= n < |l| && Counts(l[n], i, db.proxies[i].credentialStart)
      && CreditedIntervals(l, i, db.proxies[i].credentialStart, now)[k] == Bounded(l[n], now);
    assert EntryOk(l[n], db.proxies, db.history, db.cfg.stale);
  }

  lemma {:induction false} CreditedOrdered(l: seq<Entry>, i: nat, from: int, now: int)
    requires Disjoint(l) && forall n :: 0 <= n < |l| && l[n].proxy == i ==> l[n].end <= now
    ensures Ordered(CreditedIntervals(l, i, from, now))
  {
    if l != [] {
      var p, e := l[..|l| - 1], l[|l| - 1];
      CreditedOrdered(p, i, from, now);
      var s := CreditedIntervals(p, i, from, now);
      if Counts(e, i, from) {
        forall k | 0 <= k < |s|
          ensures s[k].end <= Bounded(e, now).start
        {
          CreditedFrom(p, i, from, now, k);
          var n :| 0 <= n < |p| && Counts(p[n], i, from) && s[k] == Bounded(p[n], now);
          assert l[n] == p[n];
        }
      }
    }
  }

  lemma ReachableCredited(db: Db, i: nat, now: int)
    requires Inv(db) && i < |db.proxies| && db.clock <= now
    ensures var s := CreditedIntervals(db.ledger, i, db.proxies[i].credentialStart, now);
            && NonEmpty(s) && Ordered(s) && EndsAtMost(s, db.proxies[i].cursor)
            && (forall k :: 0 <= k < |s| ==> db.proxies[i].credentialStart <= s[k].start)
            && TotalLength(s) == |Covered(s)|
            && (LatestEnd(s).Some? ==> LatestEnd(s).value <= db.proxies[i].cursor)
  {
    var s := CreditedIntervals(db.ledger, i, db.proxies[i].credentialStart, now);
    assert RowOk(db.proxies[i], i, db.clock, db.cfg.stale, db.history);
    forall n | 0 <= n < |db.ledger| && db.ledger[n].proxy == i
      ensures db.ledger[n].end <= now
    {
      assert EntryOk(db.ledger[n], db.proxies, db.history, db.cfg.stale);
    }
    CreditedOrdered(db.ledger, i, db.proxies[i].credentialStart, now);
    forall k | 0 <= k < |s|
      ensures s[k].end <= db.proxies[i].cursor && db.proxies[i].credentialStart <= s[k].start
    {
      CreditedBounds(db, db.ledger, i, now, k);
    }
    OrderedTotal(s);
    LatestEndAtMost(s, db.proxies[i].cursor);
  }

  // ----- What accrual does to them -----

  lemma {:induction false} UnlockCredits(l: seq<Entry>, j: nat, at: int, i: nat, from: int, now: int)
    ensures CreditedIntervals(Unlock(l, j, at), i, from, now) == CreditedIntervals(l, i, from, now)
  {
    if l != [] {
      var p := l[..|l| - 1];
      UnlockCredits(p, j, at, i, from, now);
      assert Unlock(l, j, at)[..|l| - 1] == Unlock(p, j, at);
    }
  }

  lemma AppendCredits(l: seq<Entry>, e: Entry, i: nat, from: int, now: int)
    ensures CreditedIntervals(l + [e], i, from, now) ==
            if Counts(e, i, from) && Bounded(e, now).start < Bounded(e, now).end
            then CreditedIntervals(l, i, from, now) + [Bounded(e, now)]
            else CreditedIntervals(l, i, from, now)
  {
    assert (l + [e])[..|l|] == l;
  }

  lemma AddEntryCredits(l: seq<Entry>, e: Entry, i: nat, from: int, now: int)
    requires e.proxy != i
    ensures CreditedIntervals(AddEntry(l, e), i, from, now) == CreditedIntervals(l, i, from, now)
  {
    AppendCredits(l, e, i, from, now);
  }

  /** Accruing another row leaves this row's display alone. */
  lemma OtherAccrual(db: Db, j: nat, i: nat, suspectToo: bool, at: int, now: int)
    requires i < |db.proxies| && j < |db.proxies| && i != j
    ensures Projected(AccrueRow(db, j, suspectToo, at), i, now) == Projected(db, i, now)
  {
    hide Covered, LatestEnd;
    var d := AccrueRow(db, j, suspectToo, at);
    assert d.proxies[i] == db.proxies[i];
    if d.ledger != db.ledger {
      var p, end := db.proxies[j], ValidatedEnd(db.cfg, db.proxies[j], at);
      OtherCredit(db.ledger, p, j, end, i, db.proxies[i].credentialStart, now);
    }
  }

  lemma OtherCredit(l: seq<Entry>, p: Proxy, j: nat, end: int, i: nat, from: int, now: int)
    requires i != j
    ensures CreditedIntervals(Credit(l, p, j, end), i, from, now) == CreditedIntervals(l, i, from, now)
  {
    hide CreditedIntervals, AddEntry, Unlock;
    var unlockAt := p.probation + PROBATION_SECONDS;
    var u := Unlock(l, j, p.probation);
    UnlockCredits(l, j, p.probation, i, from, now);
    AddEntryCredits(l, EntryFor(p, j, p.cursor, end, PendingMoney), i, from, now);
    var first := EntryFor(p, j, p.cursor, unlockAt, Available);
    AddEntryCredits(u, first, i, from, now);
    AddEntryCredits(AddEntry(u, first), EntryFor(p, j, unlockAt, end, Available), i, from, now);
    AddEntryCredits(u, EntryFor(p, j, p.cursor, end, Available), i, from, now);
  }

  lemma LengthAppend(s: seq<Interval>, x: Interval)
    ensures TotalLength(s + [x]) == TotalLength(s) + x.end - x.start
  {
    assert (s + [x])[..|s|] == s;
  }

  lemma AcrossCredits(u: seq<Entry>, p: Proxy, i: nat, end: int, from: int, now: int, ps: seq<Proxy>, h: set<Success>, stale: int)
    requires LedgerOk(u, ps, h, stale) && i < |ps| && p == ps[i]
    requires from <= p.probation <= p.cursor < p.probation + PROBATION_SECONDS < end <= now
    ensures var unlockAt := p.probation + PROBATION_SECONDS;
            var t := CreditedIntervals(AddEntry(AddEntry(u, EntryFor(p, i, p.cursor, unlockAt, Available)),
                                                EntryFor(p, i, unlockAt, end, Available)), i, from, now);
            TotalLength(t) == TotalLength(CreditedIntervals(u, i, from, now)) + end - p.cursor && t != [] && t[|t| - 1].end == end
  {
    hide Covered, CreditedIntervals, TotalLength;
    var unlockAt := p.probation + PROBATION_SECONDS;
    var first, second := EntryFor(p, i, p.cursor, unlockAt, Available), EntryFor(p, i, unlockAt, end, Available);
    AddEntryAppends(u, first, ps, h, stale);
    var v := u + [first];
    forall k | 0 <= k < |v|
      ensures !SameKey(v[k], second)
    {
      if k < |u| {
        assert EntryOk(u[k], ps, h, stale);
      }
    }
    assert AddEntry(v, second) == v + [second];
    AppendCredits(u, first, i, from, now);
    AppendCredits(v, second, i, from, now);
    LengthAppend(CreditedIntervals(u, i, from, now), Bounded(first, now));
    LengthAppend(CreditedIntervals(v, i, from, now), Bounded(second, now));
  }

  lemma OneCredit(l: seq<Entry>, p: Proxy, i: nat, end: int, bucket: Bucket, from: int, now: int, ps: seq<Proxy>, h: set<Success>, stale: int)
    requires LedgerOk(l, ps, h, stale) && i < |ps| && p == ps[i] && !bucket.Expired?
    requires from <= p.cursor < end <= now
    ensures var t := CreditedIntervals(AddEntry(l, EntryFor(p, i, p.cursor, end, bucket)), i, from, now);
            TotalLength(t) == TotalLength(CreditedIntervals(l, i, from, now)) + end - p.cursor && t != [] && t[|t| - 1].end == end
  {
    hide Covered, CreditedIntervals, TotalLength;
    var e := EntryFor(p, i, p.cursor, end, bucket);
    AddEntryAppends(l, e, ps, h, stale);
    hide LedgerOk, AddEntry;
    AppendCredits(l, e, i, from, now);
    LengthAppend(CreditedIntervals(l, i, from, now), Bounded(e, now));
  }

  /** Crediting a row adds intervals of exactly the length its cursor moved, ending at the new cursor. */
  lemma CreditCredits(db: Db, i: nat, now: int)
    requires Inv(db) && i < |db.proxies| && now == db.clock && AccrualDue(db, i, true, now)
    ensures var p := db.proxies[i];
            var end := ValidatedEnd(db.cfg, p, now);
            var s := CreditedIntervals(db.ledger, i, p.credentialStart, now);
            var t := CreditedIntervals(Credit(db.ledger, p, i, end), i, p.credentialStart, now);
            TotalLength(t) == TotalLength(s) + end - p.cursor && t != [] && t[|t| - 1].end == end
  {
    hide Covered, CreditedIntervals, TotalLength, AddEntry, LedgerOk, Unlock;
    var p, ps, h, stale := db.proxies[i], db.proxies, db.history, db.cfg.stale;
    var end, unlockAt, from := ValidatedEnd(db.cfg, p, now), p.probation + PROBATION_SECONDS, p.credentialStart;
    assert RowOk(p, i, now, stale, h);
    if end < unlockAt {
      OneCredit(db.ledger, p, i, end, PendingMoney, from, now, ps, h, stale);
    } else {
      var u := Unlock(db.ledger, i, p.probation);
      UnlockCredits(db.ledger, i, p.probation, i, from, now);
      UnlockKeeps(db.ledger, i, ps, h, stale, p.generation, end) by {
        assert UnlockedCycle(h, i, p.generation, stale, p.probation, end);
      }
      if unlockAt <= p.cursor {
        OneCredit(u, p, i, end, Available, from, now, ps, h, stale);
      } else if unlockAt < end {
        AcrossCredits(u, p, i, end, from, now, ps, h, stale);
      } else {
        OneCredit(u, p, i, end, Available, from, now, ps, h, stale);
        EmptyEntry(AddEntry(u, EntryFor(p, i, p.cursor, end, Available)), EntryFor(p, i, unlockAt, end, Available));
      }
    }
  }

  lemma EmptyEntry(l: seq<Entry>, e: Entry)
    requires e.end <= e.start
    ensures AddEntry(l, e) == l
  {}

  // ----- Theorems -----

  /** Accruing a row at time t does not change what is displayed at t, unless its owner is paused. */
  lemma AccrualKeepsDisplay(db: Db, i: nat, suspectToo: bool, now: int)
    requires Inv(db) && i < |db.proxies| && now == db.clock
    requires db.proxies[i].userId < |db.users|
    requires db.users[db.proxies[i].userId].active && !db.users[db.proxies[i].userId].paused
    ensures Projected(AccrueRow(db, i, suspectToo, now), i, now) == Projected(db, i, now)
  {
    if AccrualDue(db, i, suspectToo, now) {
      hide Covered, Credit, CreditedIntervals, TotalLength;
      var p, end := db.proxies[i], ValidatedEnd(db.cfg, db.proxies[i], now);
      var d := AccrueRow(db, i, suspectToo, now);
      assert Inv(d) && d.proxies[i] == p.(cursor := end) by {
        AccrueRowInv(db, i, suspectToo, now);
      }
      assert d.ledger == Credit(db.ledger, p, i, end);
      assert RowOk(p, i, now, db.cfg.stale, db.history);
      CreditCredits(db, i, now);
      ReachableCredited(db, i, now);
      ReachableCredited(d, i, now);
      var t := CreditedIntervals(d.ledger, i, p.credentialStart, now);
      assert EndsAt(t, end);
      LatestEndIs(t, end);
    }
  }

  /** The same for the accrual of every row at once. */
  lemma {:induction false} AccrueAllKeepsDisplay(db: Db, n: nat, i: nat, now: int)
    requires Inv(db) && i < |db.proxies| && n <= |db.proxies| && now == db.clock
    requires db.proxies[i].userId < |db.users|
    requires db.users[db.proxies[i].userId].active && !db.users[db.proxies[i].userId].paused
    ensures Projected(AccrueFirst(db, n, now), i, now) == Projected(db, i, now)
    ensures AccrueFirst(db, n, now).users == db.users && AccrueFirst(db, n, now).proxies[i].userId == db.proxies[i].userId
  {
    hide AccrueRow, Projected, RowsOk, LedgerOk;
    if n > 0 {
      AccrueAllKeepsDisplay(db, n - 1, i, now);
      var d := AccrueFirst(db, n - 1, now);
      AccrueFirstInv(db, n - 1, now);
      AccrueRowInv(d, n - 1, false, now);
      if n - 1 == i {
        AccrualKeepsDisplay(d, i, false, now);
      } else {
        OtherAccrual(d, n - 1, i, false, now, now);
      }
    }
  }

  /** The display is the measure of the ledger seconds together with a tail disjoint from them,
      so it never exceeds the age of the credentials. */
  lemma DisplayIsMeasure(db: Db, i: nat, now: int)
    requires Inv(db) && i < |db.proxies| && db.clock <= now && DisplaysEarnings(db.proxies[i])
    ensures var p := db.proxies[i];
            var s := CreditedIntervals(db.ledger, i, p.credentialStart, now);
            var tail := if HasTail(p) then Span(TailStart(p, LatestEnd(s)), ValidatedEnd(db.cfg, p, now)) else {};
            && Covered(s) !! tail
            && Projected(db, i, now) == |Covered(s) + tail|
            && Projected(db, i, now) <= now - p.credentialStart
  {
    hide CreditedIntervals, LatestEnd, TotalLength, LedgerOk, CycleOk, UptimeOk, Ordered;
    var p := db.proxies[i];
    var s := CreditedIntervals(db.ledger, i, p.credentialStart, now);
    assert RowOk(p, i, db.clock, db.cfg.stale, db.history);
    ReachableCredited(db, i, now);
    var tail := if HasTail(p) then Span(TailStart(p, LatestEnd(s)), ValidatedEnd(db.cfg, p, now)) else {};
    if HasTail(p) && TailStart(p, LatestEnd(s)) <= ValidatedEnd(db.cfg, p, now) {
      SpanSize(TailStart(p, LatestEnd(s)), ValidatedEnd(db.cfg, p, now));
    }
    var whole := Span(p.credentialStart, now);
    forall t
      ensures t in Covered(s) ==> t < p.cursor && t in whole
    {
      CoveredMember(s, t);
    }
    SubsetSize(Covered(s) + tail, whole);
    SpanSize(p.credentialStart, now);
    assert |Covered(s) + tail| == |Covered(s)| + |tail|;
  }
}
