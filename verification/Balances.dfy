/** Balances read from the ledger, and why available money is never taken back. */
module Balances {
  import opened Wrappers
  import opened EarningModel

  /** `SUM(micro_usd)` of one user's entries in one bucket (app/services/earnings.py:338-344). */
  function Balance(l: seq<Entry>, user: nat, bucket: Bucket): int {
    if l == [] then 0
    else
      var e := l[|l| - 1];
      Balance(l[..|l| - 1], user, bucket) + (if e.user == user && e.bucket == bucket then e.micro else 0)
  }

  /** Later in a run: entries only gain company and only leave the pending bucket. */
  ghost predicate Later(a: Entry, b: Entry) {
    b == a.(bucket := b.bucket) && (a.bucket == b.bucket || a.bucket.PendingMoney?)
  }

  ghost predicate Grows(l: seq<Entry>, m: seq<Entry>) {
    |l| <= |m| && forall k :: 0 <= k < |l| ==> Later(l[k], m[k])
  }

  lemma GrowsOnwards(l: seq<Entry>, m: seq<Entry>, n: seq<Entry>)
    requires Grows(l, m) && Grows(m, n)
    ensures Grows(l, n)
  {
    forall k | 0 <= k < |l|
      ensures Later(l[k], n[k])
    {
      assert Later(l[k], m[k]) && Later(m[k], n[k]);
    }
  }

  /** No operation lowers a user's available balance. */
  lemma {:induction false} AvailableNeverFalls(l: seq<Entry>, m: seq<Entry>, user: nat)
    requires Grows(l, m) && forall k :: 0 <= k < |m| ==> m[k].micro >= 0
    ensures Balance(l, user, Available) <= Balance(m, user, Available)
    decreases |m|
  {
    if |l| < |m| {
      AvailableNeverFalls(l, m[..|m| - 1], user);
    } else if l != [] {
      AvailableNeverFalls(l[..|l| - 1], m[..|m| - 1], user);
      assert Later(l[|l| - 1], m[|m| - 1]);
    }
  }

  // ----- Every ledger statement grows the ledger -----

  lemma ExpireGrows(l: seq<Entry>, owners: set<nat>)
    ensures Grows(l, ExpireAll(l, owners))
  {}

  lemma CreditGrows(l: seq<Entry>, p: Proxy, i: nat, end: int)
    ensures Grows(l, Credit(l, p, i, end))
  {
    var u := Unlock(l, i, p.probation);
    assert Grows(l, u);
    assert Grows(l, l);
  }

  lemma AccrueRowGrows(db: Db, i: nat, suspectToo: bool, now: int)
    requires i < |db.proxies|
    ensures Grows(db.ledger, AccrueRow(db, i, suspectToo, now).ledger)
  {
    if AccrualDue(db, i, suspectToo, now) {
      CreditGrows(db.ledger, db.proxies[i], i, ValidatedEnd(db.cfg, db.proxies[i], now));
    }
  }

  lemma {:induction false} AccrueFirstGrows(db: Db, n: nat, now: int)
    requires n <= |db.proxies|
    ensures Grows(db.ledger, AccrueFirst(db, n, now).ledger)
  {
    if n > 0 {
      hide AccrueRow;
      var d := AccrueFirst(db, n - 1, now);
      AccrueFirstGrows(db, n - 1, now);
      AccrueRowGrows(d, n - 1, false, now);
      GrowsOnwards(db.ledger, d.ledger, AccrueRow(d, n - 1, false, now).ledger);
    }
  }

  lemma CanonicalizeGrows(db: Db, ip: Ip, prefer: bool, exclude: Option<nat>, now: int)
    ensures Grows(db.ledger, Canonicalize(db, ip, prefer, exclude, now).ledger)
  {
    hide Choose;
    match Choose(db.proxies, ip, prefer, exclude, now)
    case None => SelfGrows(db.ledger);
    case Some(choice) => ExpireGrows(db.ledger, choice.losers);
  }

  lemma ReconcileGrows(db: Db, i: nat, ip: Ip, source: Attestation, now: int)
    requires i < |db.proxies|
    ensures Grows(db.ledger, ReconcileExitIp(db, i, ip, source, now).ledger)
  {
    hide Canonicalize, Grows;
    assert Grows(db.ledger, db.ledger) by { SelfGrows(db.ledger); }
    var p := db.proxies[i];
    if Active(p) && source != Unattested {
      var named := SetRow(db, i, WithExit(p, ip, source, now));
      var d := Canonicalize(named, ip, p.verifiedAt.Some?, None, now);
      CanonicalizeGrows(named, ip, p.verifiedAt.Some?, None, now);
      if p.exitIp.Some? && p.exitIp.value != ip {
        CanonicalizeGrows(d, p.exitIp.value, false, None, now);
        GrowsOnwards(db.ledger, d.ledger, Canonicalize(d, p.exitIp.value, false, None, now).ledger);
      }
    }
  }

  lemma SelfGrows(l: seq<Entry>)
    ensures Grows(l, l)
  {}

  /** Accruing and then expiring, each if asked for. */
  lemma CloseGrows(db: Db, i: nat, accrue: bool, expire: bool, now: int)
    requires i < |db.proxies|
    ensures var credited := if accrue then AccrueRow(db, i, true, now) else db;
            Grows(db.ledger, (if expire then ExpirePendingCycle(credited, i) else credited).ledger)
  {
    var credited := if accrue then AccrueRow(db, i, true, now) else db;
    AccrueRowGrows(db, i, true, now);
    hide AccrueRow;
    ExpireGrows(credited.ledger, {i});
    GrowsOnwards(db.ledger, credited.ledger, ExpireAll(credited.ledger, {i}));
  }

  lemma HealthGrows(db: Db, i: nat, generation: nat, token: nat, o: HealthOutcome, now: int)
    ensures Grows(db.ledger, ApplyHealth(db, i, generation, token, o, now).ledger)
  {
    SelfGrows(db.ledger);
    hide Grows, AccrueRow, ReconcileExitIp, LiveRow, BlockedRow, FailureRow;
    if HealthAccepted(db, i, generation, token) {
      var p := db.proxies[i];
      match o
      case Live(_, _) =>
        var broken := CycleBroken(db.cfg, p, o, now);
        CloseGrows(db, i, broken && Earning(p.eligibility), broken, now);
        var credited := if broken && Earning(p.eligibility) then AccrueRow(db, i, true, now) else db;
        var closed := if broken then ExpirePendingCycle(credited, i) else credited;
        assert |closed.proxies| == |db.proxies| by { AccrueRowLength(db, i, true, now); }
        if TrustedObservation(o).Some? {
          var written := SetRow(closed, i, LiveRow(db.cfg, p, o, now)).(history := db.history + {Success(i, p.generation, now)});
          ReconcileGrows(written, i, TrustedObservation(o).value, HttpsQuorum, now);
          GrowsOnwards(db.ledger, closed.ledger, ReconcileExitIp(written, i, TrustedObservation(o).value, HttpsQuorum, now).ledger);
        }
      case ProviderBlocked => CloseGrows(db, i, Earning(p.eligibility), true, now);
      case Dead => CloseGrows(db, i, GoesOffline(p) && Earning(p.eligibility) && Reachable(p), GoesOffline(p), now);
      case Inconclusive =>
      case ConfirmEgress =>
    }
  }

  lemma AccrueRowLength(db: Db, i: nat, suspectToo: bool, now: int)
    requires i < |db.proxies|
    ensures |AccrueRow(db, i, suspectToo, now).proxies| == |db.proxies|
  {}

  lemma EarnappGrows(db: Db, i: nat, generation: nat, token: nat, r: EarnappReport, now: int)
    ensures Grows(db.ledger, ApplyEarnapp(db, i, generation, token, r, now).ledger)
  {
    SelfGrows(db.ledger);
    if EarnappAccepted(db, i, generation, token) {
      var p := db.proxies[i];
      var changed := p.eligibility != Classify(p, r);
      CloseGrows(db, i, changed && Earning(p.eligibility), changed || EarnappEgressChanged(p, r), now);
      AccrueRowLength(db, i, true, now);
      hide Grows, AccrueRow, ReconcileExitIp, EarnappRow;
      var credited := if changed && Earning(p.eligibility) then AccrueRow(db, i, true, now) else db;
      var closed := if changed || EarnappEgressChanged(p, r) then ResetProbation(credited, i, now) else credited;
      if Authenticated(r).Some? {
        var ip := Authenticated(r).value;
        ReconcileGrows(closed, i, ip, EarnappTls, now);
        GrowsOnwards(db.ledger, closed.ledger, ReconcileExitIp(closed, i, ip, EarnappTls, now).ledger);
      }
    }
  }

  lemma LifecycleGrows(db: Db, i: nat, user: nat, now: int)
    ensures Grows(db.ledger, ReplaceProxy(db, i, user, now).ledger)
    ensures Grows(db.ledger, ArchiveProxy(db, i, user, now).ledger)
    ensures Grows(db.ledger, PromoteDuplicate(db, i, now).ledger)
  {
    SelfGrows(db.ledger);
    if Owned(db, i, user) {
      var left := if db.proxies[i].exitIp.Some? then Canonicalize(db, db.proxies[i].exitIp.value, false, Some(i), now) else db;
      if db.proxies[i].exitIp.Some? {
        CanonicalizeGrows(db, db.proxies[i].exitIp.value, false, Some(i), now);
      }
      hide Canonicalize, Canonical;
      ExpireGrows(left.ledger, {i});
      GrowsOnwards(db.ledger, left.ledger, ExpireAll(left.ledger, {i}));
    }
    if i < |db.proxies| && PromotionDue(db.proxies[i], now) && FirstOnlineDuplicate(db.proxies, i, |db.proxies|).Some? {
      PromoteToGrows(db, i, FirstOnlineDuplicate(db.proxies, i, |db.proxies|).value, now);
    }
  }

  lemma PromoteToGrows(db: Db, i: nat, c: nat, now: int)
    requires c < |db.proxies|
    ensures Grows(db.ledger, PromoteTo(db, i, c, now).ledger)
  {
    ExpireGrows(db.ledger, {i});
    ExpireGrows(ExpireAll(db.ledger, {i}), {c});
    GrowsOnwards(db.ledger, ExpireAll(db.ledger, {i}), ExpireAll(ExpireAll(db.ledger, {i}), {c}));
  }

  lemma LateLeaveGrows(db: Db, i: nat, user: nat, choice: Option<Choice>, replace: bool, now: int)
    ensures Grows(db.ledger, LateLeave(db, i, user, choice, replace, now).ledger)
  {
    SelfGrows(db.ledger);
    if Owned(db, i, user) {
      var left := if choice.Some? then ExpireAll(db.ledger, choice.value.losers) else db.ledger;
      if choice.Some? {
        ExpireGrows(db.ledger, choice.value.losers);
      }
      ExpireGrows(left, {i});
      GrowsOnwards(db.ledger, left, ExpireAll(left, {i}));
    }
  }

  lemma EffectGrows(db: Db, e: Event, now: int)
    ensures Grows(db.ledger, Effect(db, e, now).ledger)
  {
    hide Grows, ApplyHealth, ApplyEarnapp, ReplaceProxy, ArchiveProxy, LateLeave, PromoteDuplicate, PromoteTo, AccrueRow, AccrueFirst;
    SelfGrows(db.ledger);
    match e
    case ReplaceEvent(i, owner) => LifecycleGrows(db, i, owner, now);
    case ArchiveEvent(i, owner) => LifecycleGrows(db, i, owner, now);
    case HealthEvent(i, g, token, o) => HealthGrows(db, i, g, token, o, now);
    case EarnappEvent(i, g, token, r) => EarnappGrows(db, i, g, token, r, now);
    case AccrueAllEvent => AccrueFirstGrows(db, |db.proxies|, now);
    case AccrueOneEvent(i) => if i < |db.proxies| { AccrueRowGrows(db, i, true, now); }
    case LateLeaveEvent(i, owner, choice, replace) => LateLeaveGrows(db, i, owner, choice, replace, now);
    case PromoteEvent(i) => LifecycleGrows(db, i, 0, now);
    case LatePromoteEvent(i, c) => if i < |db.proxies| && c < |db.proxies| { PromoteToGrows(db, i, c, now); }
    case _ =>
  }

  lemma StepGrows(db: Db, e: Event, delay: nat)
    ensures Grows(db.ledger, Step(db, e, delay).ledger)
  {
    hide Grows, Effect;
    EffectGrows(Tick(db, delay), e, db.clock + delay);
  }
}
