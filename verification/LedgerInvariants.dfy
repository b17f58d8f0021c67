/** What every write keeps true of the earnings ledger. */
module LedgerInvariants {
  import opened Wrappers
  import opened EarningModel
  import opened RowInvariants

  /** A cycle of at least seven days, every instant of it close behind a recorded success. */
  ghost predicate UnlockedCycle(h: set<Success>, i: nat, g: nat, stale: int, from: int, to: int) {
    to >= from + PROBATION_SECONDS && Continuous(h, i, g, stale, from, to)
  }

  /** The entry lies inside an unlocked cycle of its own proxy. */
  ghost predicate Backed(e: Entry, h: set<Success>, stale: int) {
    exists g, from, to :: UnlockedCycle(h, e.proxy, g, stale, from, to) && from <= e.start && e.end <= to
  }

  predicate Priced(e: Entry) {
    || e.micro == Amount(US_MONTHLY_MICRO_USD, e.end - e.start)
    || e.micro == Amount(NON_US_MONTHLY_MICRO_USD, e.end - e.start)
  }

  ghost predicate EntryOk(e: Entry, ps: seq<Proxy>, h: set<Success>, stale: int) {
    && e.proxy < |ps| && e.user == ps[e.proxy].userId
    && e.start < e.end <= ps[e.proxy].cursor
    && Priced(e)
    && (e.bucket.PendingMoney? ==> Reachable(ps[e.proxy]) && ps[e.proxy].probation <= e.start)
    && (e.bucket.Available? ==> Backed(e, h, stale))
  }

  /** Entries of one proxy never overlap, and were appended in time order. */
  ghost predicate Disjoint(l: seq<Entry>) {
    forall j, k :: 0 <= j < k < |l| && l[j].proxy == l[k].proxy ==> l[j].end <= l[k].start
  }

  ghost predicate LedgerOk(l: seq<Entry>, ps: seq<Proxy>, h: set<Success>, stale: int) {
    && Disjoint(l)
    && forall k :: 0 <= k < |l| ==> EntryOk(l[k], ps, h, stale)
  }

  ghost predicate NoPending(l: seq<Entry>, i: nat) {
    forall k :: 0 <= k < |l| && l[k].proxy == i ==> !l[k].bucket.PendingMoney?
  }

  lemma BackedGrows(e: Entry, h: set<Success>, k: set<Success>, stale: int)
    requires h <= k && Backed(e, h, stale)
    ensures Backed(e, k, stale)
  {
    var g, from, to :| UnlockedCycle(h, e.proxy, g, stale, from, to) && from <= e.start && e.end <= to;
    ContinuousGrows(h, k, e.proxy, g, stale, from, to);
    assert UnlockedCycle(k, e.proxy, g, stale, from, to);
  }

  /** A row may be rewritten as long as its cursor does not go back and its pending money stays in its cycle. */
  ghost predicate RowMayBecome(p: Proxy, q: Proxy, i: nat, l: seq<Entry>) {
    && p.userId == q.userId && p.cursor <= q.cursor
    && (NoPending(l, i) || (p.probation == q.probation && (Reachable(p) ==> Reachable(q))))
  }

  lemma RowsMove(l: seq<Entry>, ps: seq<Proxy>, qs: seq<Proxy>, h: set<Success>, k: set<Success>, stale: int)
    requires LedgerOk(l, ps, h, stale) && h <= k && |ps| <= |qs|
    requires forall j :: 0 <= j < |ps| ==> RowMayBecome(ps[j], qs[j], j, l)
    ensures LedgerOk(l, qs, k, stale)
  {
    forall n | 0 <= n < |l|
      ensures EntryOk(l[n], qs, k, stale)
    {
      var e := l[n];
      assert EntryOk(e, ps, h, stale);
      assert RowMayBecome(ps[e.proxy], qs[e.proxy], e.proxy, l);
      if e.bucket.Available? {
        BackedGrows(e, h, k, stale);
      }
    }
  }

  lemma ExpireKeeps(l: seq<Entry>, owners: set<nat>, ps: seq<Proxy>, h: set<Success>, stale: int)
    requires LedgerOk(l, ps, h, stale)
    ensures LedgerOk(ExpireAll(l, owners), ps, h, stale)
    ensures forall i :: i in owners ==> NoPending(ExpireAll(l, owners), i)
    ensures forall i :: NoPending(l, i) ==> NoPending(ExpireAll(l, owners), i)
  {
    var r := ExpireAll(l, owners);
    forall n | 0 <= n < |r|
      ensures EntryOk(r[n], ps, h, stale)
    {
      assert EntryOk(l[n], ps, h, stale);
    }
  }

  /** The unlock filter takes every pending entry of the proxy, none being older than the cycle. */
  lemma UnlockTakesAll(l: seq<Entry>, i: nat, ps: seq<Proxy>, h: set<Success>, stale: int)
    requires LedgerOk(l, ps, h, stale) && i < |ps|
    ensures forall k :: 0 <= k < |l| && l[k].proxy == i && l[k].bucket.PendingMoney? ==> l[k].start >= ps[i].probation
    ensures NoPending(Unlock(l, i, ps[i].probation), i)
    ensures forall k :: 0 <= k < |l| && l[k].proxy != i ==> Unlock(l, i, ps[i].probation)[k] == l[k]
  {
    forall k | 0 <= k < |l| && l[k].proxy == i && l[k].bucket.PendingMoney?
      ensures l[k].start >= ps[i].probation
    {
      assert EntryOk(l[k], ps, h, stale);
    }
  }

  lemma UnlockKeeps(l: seq<Entry>, i: nat, ps: seq<Proxy>, h: set<Success>, stale: int, g: nat, to: int)
    requires LedgerOk(l, ps, h, stale) && i < |ps|
    requires UnlockedCycle(h, i, g, stale, ps[i].probation, to) && ps[i].cursor <= to
    ensures LedgerOk(Unlock(l, i, ps[i].probation), ps, h, stale)
  {
    var r := Unlock(l, i, ps[i].probation);
    forall n | 0 <= n < |r|
      ensures EntryOk(r[n], ps, h, stale)
    {
      assert EntryOk(l[n], ps, h, stale);
    }
  }

  /** An entry that starts at the cursor is new: INSERT OR IGNORE does not ignore it. */
  lemma AddEntryAppends(l: seq<Entry>, e: Entry, ps: seq<Proxy>, h: set<Success>, stale: int)
    requires LedgerOk(l, ps, h, stale) && e.proxy < |ps|
    requires ps[e.proxy].cursor <= e.start < e.end
    ensures AddEntry(l, e) == l + [e]
  {
    forall k | 0 <= k < |l|
      ensures !SameKey(l[k], e)
    {
      assert EntryOk(l[k], ps, h, stale);
    }
  }

  lemma AppendKeeps(l: seq<Entry>, e: Entry, ps: seq<Proxy>, qs: seq<Proxy>, h: set<Success>, stale: int)
    requires LedgerOk(l, ps, h, stale) && e.proxy < |ps|
    requires qs == ps[e.proxy := ps[e.proxy].(cursor := e.end)]
    requires ps[e.proxy].cursor <= e.start && EntryOk(e, qs, h, stale)
    ensures LedgerOk(l + [e], qs, h, stale)
  {
    forall n | 0 <= n < |l|
      ensures EntryOk(l[n], qs, h, stale) && (l[n].proxy == e.proxy ==> l[n].end <= e.start)
    {
      assert EntryOk(l[n], ps, h, stale);
    }
  }

  /** Crediting a row appends exactly the interval it moved over and keeps the ledger sound. */
  lemma CreditKeeps(db: Db, i: nat, now: int)
    requires i < |db.proxies| && ConfigOk(db.cfg)
    requires LedgerOk(db.ledger, db.proxies, db.history, db.cfg.stale)
    requires RowOk(db.proxies[i], i, now, db.cfg.stale, db.history)
    requires AccrualDue(db, i, true, now)
    ensures var p := db.proxies[i];
            var end := ValidatedEnd(db.cfg, p, now);
            LedgerOk(Credit(db.ledger, p, i, end), db.proxies[i := p.(cursor := end)], db.history, db.cfg.stale)
  {
    hide LedgerOk, AddEntry, Unlock, Continuous;
    var p, ps, h, stale := db.proxies[i], db.proxies, db.history, db.cfg.stale;
    var end, unlockAt := ValidatedEnd(db.cfg, p, now), p.probation + PROBATION_SECONDS;
    if end < unlockAt {
      CreditPending(db.ledger, p, i, end, ps, h, stale);
    } else {
      CycleUnlocked(db, i, now);
      UnlockKeeps(db.ledger, i, ps, h, stale, p.generation, end);
      var l := Unlock(db.ledger, i, p.probation);
      if p.cursor < unlockAt {
        CreditAcross(l, p, i, end, ps, h, stale);
      } else {
        AppendAvailable(l, p, i, end, end, ps, h, stale);
      }
    }
  }

  lemma CreditPending(l: seq<Entry>, p: Proxy, i: nat, end: int, ps: seq<Proxy>, h: set<Success>, stale: int)
    requires i < |ps| && p == ps[i] && Earning(p.eligibility) && Reachable(p)
    requires LedgerOk(l, ps, h, stale) && p.probation <= p.cursor < end
    ensures LedgerOk(AddEntry(l, EntryFor(p, i, p.cursor, end, PendingMoney)), ps[i := p.(cursor := end)], h, stale)
  {
    var e := EntryFor(p, i, p.cursor, end, PendingMoney);
    AddEntryAppends(l, e, ps, h, stale);
    AppendKeeps(l, e, ps, ps[i := p.(cursor := end)], h, stale);
  }

  /** A validated end seven days after the probation start closes an unlocked cycle. */
  lemma CycleUnlocked(db: Db, i: nat, now: int)
    requires i < |db.proxies| && RowOk(db.proxies[i], i, now, db.cfg.stale, db.history)
    requires AccrualDue(db, i, true, now)
    requires ValidatedEnd(db.cfg, db.proxies[i], now) >= db.proxies[i].probation + PROBATION_SECONDS
    ensures var p := db.proxies[i];
            UnlockedCycle(db.history, i, p.generation, db.cfg.stale, p.probation, ValidatedEnd(db.cfg, p, now))
  {}

  /** Two available entries around the unlock moment, the second one possibly empty. */
  lemma CreditAcross(l: seq<Entry>, p: Proxy, i: nat, end: int, ps: seq<Proxy>, h: set<Success>, stale: int)
    requires i < |ps| && p == ps[i] && Earning(p.eligibility)
    requires LedgerOk(l, ps, h, stale)
    requires UnlockedCycle(h, i, p.generation, stale, p.probation, end)
    requires p.probation <= p.cursor < p.probation + PROBATION_SECONDS
    ensures var unlockAt := p.probation + PROBATION_SECONDS;
            LedgerOk(AddEntry(AddEntry(l, EntryFor(p, i, p.cursor, unlockAt, Available)), EntryFor(p, i, unlockAt, end, Available)),
                     ps[i := p.(cursor := end)], h, stale)
  {
    var unlockAt := p.probation + PROBATION_SECONDS;
    var q := p.(cursor := unlockAt);
    var qs := ps[i := q];
    var first := EntryFor(p, i, p.cursor, unlockAt, Available);
    AppendAvailable(l, p, i, unlockAt, end, ps, h, stale);
    if unlockAt < end {
      assert q.(cursor := end) == p.(cursor := end);
      assert EntryFor(q, i, q.cursor, end, Available) == EntryFor(p, i, unlockAt, end, Available);
      AppendAvailable(l + [first], q, i, end, end, qs, h, stale);
      assert qs[i := p.(cursor := end)] == ps[i := p.(cursor := end)];
    }
  }

  lemma AppendAvailable(l: seq<Entry>, p: Proxy, i: nat, to: int, end: int, ps: seq<Proxy>, h: set<Success>, stale: int)
    requires i < |ps| && p == ps[i] && Earning(p.eligibility)
    requires LedgerOk(l, ps, h, stale)
    requires UnlockedCycle(h, i, p.generation, stale, p.probation, end) && p.probation <= p.cursor < to <= end
    ensures var e := EntryFor(p, i, p.cursor, to, Available);
            AddEntry(l, e) == l + [e] && LedgerOk(l + [e], ps[i := p.(cursor := to)], h, stale)
  {
    var e := EntryFor(p, i, p.cursor, to, Available);
    assert Backed(e, h, stale);
    AddEntryAppends(l, e, ps, h, stale);
    AppendKeeps(l, e, ps, ps[i := p.(cursor := to)], h, stale);
  }
}
