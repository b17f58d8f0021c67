/** What a health result writes, column by column, and what it leaves of money and displayed time
    (app/services/checks.py:419-678). */
module HealthLaws {
  import opened Wrappers
  import opened EarningModel
  import opened RowInvariants
  import opened LedgerInvariants
  import opened EarningInvariants
  import opened Balances
  import opened UptimeDisplay

  // ----- The row -----

  /** The credentials and their owner, which no result touches. */
  predicate SameCredentials(p: Proxy, q: Proxy) {
    q.userId == p.userId && q.generation == p.generation && q.credentialStart == p.credentialStart && q.createdAt == p.createdAt
    && q.archivedAt == p.archivedAt
  }

  /** Rows alike but for which row they duplicate. */
  predicate Alike(p: Proxy, q: Proxy) {
    q == p.(duplicateOf := q.duplicateOf)
  }

  /** Another address was seen than the one on record, trusted or not. */
  predicate SeenElsewhere(p: Proxy, o: HealthOutcome)
    requires o.Live?
  {
    o.observed.Some? && p.exitIp.Some? && o.observed != p.exitIp
  }

  /** The row counts as up, but its last success is too old. */
  predicate LongUnseen(db: Db, p: Proxy, now: int) {
    (p.status == Online || p.status == Suspect) && p.lastSuccess.Some? && now - p.lastSuccess.value > db.cfg.stale
  }

  /** What a live result makes of its row `p`. */
  predicate LiveTo(db: Db, p: Proxy, q: Proxy, o: HealthOutcome, now: int)
    requires o.Live?
  {
    var named := o.egressTrusted && o.observed.Some?;
    var doubted := SeenElsewhere(p, o) || (p.exitIp.None? && !named);
    var broken := SeenElsewhere(p, o) || LongUnseen(db, p, now);
    var restarts := broken || p.status == Offline || p.status == Blocked;
    && SameCredentials(p, q)
    && q.status == Online && q.failures == 0 && q.lastSuccess == Some(now) && q.offlineSince.None? && q.deadSince.None?
    && q.onlineSince == (if p.onlineSince.None? || LongUnseen(db, p, now) then Some(now) else p.onlineSince)
    && q.nextCheck == now + db.cfg.healthInterval && q.checkToken.None? && q.checkUntil.None?
    && q.eligibility == (if doubted then Unclassified else p.eligibility)
    && q.earnappNext == (if doubted then Some(now) else p.earnappNext)
    && q.earnappToken == (if broken then None else p.earnappToken) && q.earnappUntil == (if broken then None else p.earnappUntil)
    && q.probation == (if restarts then now else p.probation) && q.cursor == (if restarts then now else p.cursor)
    && (if named then q.exitIp == o.observed && q.attestation == HttpsQuorum else q.exitIp == p.exitIp && q.attestation == p.attestation)
    && q.verifiedAt == (if named && (p.verifiedAt.None? || SeenElsewhere(p, o)) then Some(now) else p.verifiedAt)
    && q.country == (if named && SeenElsewhere(p, o) then "" else p.country)
  }

  /** A third failure in a row takes the row offline; before that the second makes it suspect, but a
      blocked row stays blocked. */
  predicate FailedTo(db: Db, p: Proxy, q: Proxy, now: int) {
    var n := p.failures + 1;
    && SameCredentials(p, q) && q.failures == n
    && q.status == (if n >= 3 then Offline else if p.status == Blocked then Blocked else if n == 2 then Suspect else p.status)
    && q.offlineSince == (if p.offlineSince.None? && (n >= 3 || p.status == Blocked) then Some(now) else p.offlineSince)
    && q.onlineSince == (if n >= 3 || p.status == Blocked then None else p.onlineSince)
    && q.deadSince == (if p.deadSince.None? && n >= 3 then Some(now) else p.deadSince)
    && q.probation == (if n >= 3 then now else p.probation) && q.cursor == (if n >= 3 then now else p.cursor)
    && q.nextCheck == now + (if n == 1 then db.cfg.retryFirst else db.cfg.retrySecond) && q.checkToken.None? && q.checkUntil.None?
    && q.earnappToken.None? && q.earnappUntil.None? && q.earnappNext == Some(now)
    && q.lastSuccess == p.lastSuccess && q.eligibility == p.eligibility && q.exitIp == p.exitIp && q.attestation == p.attestation
    && q.country == p.country && q.verifiedAt == p.verifiedAt && q.duplicateOf == p.duplicateOf
  }

  predicate BlockedTo(db: Db, p: Proxy, q: Proxy, now: int) {
    && SameCredentials(p, q) && q.failures == 0 && q.status == Blocked && q.eligibility == Risk
    && q.onlineSince.None? && q.offlineSince == (if p.offlineSince.None? then Some(now) else p.offlineSince)
    && q.probation == now && q.cursor == now
    && q.nextCheck == now + db.cfg.healthInterval && q.checkToken.None? && q.checkUntil.None?
    && q.earnappToken.None? && q.earnappUntil.None? && q.earnappNext == Some(now)
    && q.lastSuccess == p.lastSuccess && q.exitIp == p.exitIp && q.attestation == p.attestation && q.deadSince == p.deadSince
    && q.country == p.country && q.verifiedAt == p.verifiedAt && q.duplicateOf == p.duplicateOf
  }

  /** The row a result writes, by outcome. */
  predicate Becomes(db: Db, p: Proxy, q: Proxy, o: HealthOutcome, now: int) {
    match o
    case Live(_, _) => LiveTo(db, p, q, o, now)
    case Inconclusive => q == p.(nextCheck := now + db.cfg.retryFirst, checkToken := None, checkUntil := None)
    case ConfirmEgress => q == p.(nextCheck := now, checkToken := None, checkUntil := None)
    case ProviderBlocked => BlockedTo(db, p, q, now)
    case Dead => FailedTo(db, p, q, now)
  }

  /** Only the holder of the claim, and only for the credentials it was given, writes anything; and then
      it writes its own row as the outcome says, and other rows at most in what they duplicate. */
  lemma ResultExactly(db: Db, i: nat, generation: nat, token: nat, o: HealthOutcome, now: int)
    requires Inv(db) && now == db.clock
    ensures var after := ApplyHealth(db, i, generation, token, o, now);
            if i < |db.proxies| && db.proxies[i].archivedAt.None? && db.proxies[i].generation == generation && db.proxies[i].checkToken == Some(token)
            then |after.proxies| == |db.proxies| && Becomes(db, db.proxies[i], after.proxies[i], o, now)
                 && forall j :: 0 <= j < |db.proxies| && j != i ==> Alike(db.proxies[j], after.proxies[j])
            else after == db
  {
    if HealthAccepted(db, i, generation, token) {
      assert RowOk(db.proxies[i], i, now, db.cfg.stale, db.history);
      hide Inv, ApplyLive, ApplyBlocked, ApplyFailure, LiveTo, FailedTo, BlockedTo;
      match o
      case Live(_, _) => LiveExactly(db, i, o, now);
      case ProviderBlocked => BlockedExactly(db, i, now);
      case Dead => FailureExactly(db, i, now);
      case Inconclusive =>
      case ConfirmEgress =>
    }
  }

  lemma AccruedRows(db: Db, i: nat, now: int)
    requires i < |db.proxies|
    ensures var qs := AccrueRow(db, i, true, now).proxies; |qs| == |db.proxies| && forall j :: 0 <= j < |qs| && j != i ==> qs[j] == db.proxies[j]
    ensures AccrueRow(db, i, true, now).cfg == db.cfg
  {
    hide Credit;
  }

  lemma CanonicalizedRows(db: Db, ip: Ip, prefer: bool, now: int)
    ensures var qs := Canonicalize(db, ip, prefer, None, now).proxies;
            |qs| == |db.proxies| && forall j :: 0 <= j < |qs| ==> Alike(db.proxies[j], qs[j])
  {
    hide Choose;
  }

  /** Reconciliation names the row's address; of all rows it otherwise changes links only. */
  lemma ReconciledRows(db: Db, i: nat, ip: Ip, source: Attestation, now: int)
    requires i < |db.proxies| && Active(db.proxies[i]) && source != Unattested
    ensures var p, qs := db.proxies[i], ReconcileExitIp(db, i, ip, source, now).proxies;
            && |qs| == |db.proxies| && (forall j :: 0 <= j < |qs| && j != i ==> Alike(db.proxies[j], qs[j]))
            && qs[i] == p.(exitIp := Some(ip), attestation := source, duplicateOf := qs[i].duplicateOf,
                           country := if p.exitIp.Some? && p.exitIp.value != ip then "" else p.country,
                           verifiedAt := if (p.exitIp.Some? && p.exitIp.value != ip) || p.verifiedAt.None? then Some(now) else p.verifiedAt)
  {
    var p := db.proxies[i];
    var named := SetRow(db, i, WithExit(p, ip, source, now));
    var d := Canonicalize(named, ip, p.verifiedAt.Some?, None, now);
    CanonicalizedRows(named, ip, p.verifiedAt.Some?, now);
    hide Canonicalize;
    if p.exitIp.Some? && p.exitIp.value != ip {
      CanonicalizedRows(d, p.exitIp.value, false, now);
    }
  }

  lemma LiveRowIs(db: Db, i: nat, o: HealthOutcome, now: int)
    requires o.Live? && i < |db.proxies| && Active(db.proxies[i]) && RowOk(db.proxies[i], i, now, db.cfg.stale, db.history)
    ensures var p, q := db.proxies[i], LiveRow(db.cfg, db.proxies[i], o, now);
            && (!(o.egressTrusted && o.observed.Some?) ==> LiveTo(db, p, q, o, now))
            && (o.egressTrusted && o.observed.Some? ==>
                  forall r: Proxy :: r == q.(exitIp := o.observed, attestation := HttpsQuorum, duplicateOf := r.duplicateOf,
                                             country := if q.exitIp.Some? && q.exitIp != o.observed then "" else q.country,
                                             verifiedAt := if (q.exitIp.Some? && q.exitIp != o.observed) || q.verifiedAt.None? then Some(now) else q.verifiedAt)
                                     ==> LiveTo(db, p, r, o, now))
  {
    hide Continuous;
  }

  lemma LiveExactly(db: Db, i: nat, o: HealthOutcome, now: int)
    requires o.Live? && i < |db.proxies| && Active(db.proxies[i]) && RowOk(db.proxies[i], i, now, db.cfg.stale, db.history)
    ensures var qs := ApplyLive(db, i, o, now).proxies;
            && |qs| == |db.proxies| && LiveTo(db, db.proxies[i], qs[i], o, now)
            && forall j :: 0 <= j < |qs| && j != i ==> Alike(db.proxies[j], qs[j])
  {
    var p := db.proxies[i];
    var broken := CycleBroken(db.cfg, p, o, now);
    var credited := if broken && Earning(p.eligibility) then AccrueRow(db, i, true, now) else db;
    var closed := if broken then ExpirePendingCycle(credited, i) else credited;
    var q := LiveRow(db.cfg, p, o, now);
    var written := SetRow(closed, i, q).(history := db.history + {Success(i, p.generation, now)});
    AccruedRows(db, i, now);
    LiveRowIs(db, i, o, now);
    assert Active(q);
    hide AccrueRow, CycleBroken, LiveRow, LiveTo, RowOk;
    if TrustedObservation(o).Some? {
      ReconciledRows(written, i, TrustedObservation(o).value, HttpsQuorum, now);
      hide ReconcileExitIp;
    }
  }

  lemma BlockedExactly(db: Db, i: nat, now: int)
    requires i < |db.proxies| && Active(db.proxies[i])
    ensures var qs := ApplyBlocked(db, i, now).proxies;
            && |qs| == |db.proxies| && BlockedTo(db, db.proxies[i], qs[i], now)
            && forall j :: 0 <= j < |qs| && j != i ==> Alike(db.proxies[j], qs[j])
  {
    AccruedRows(db, i, now);
    hide AccrueRow;
  }

  lemma FailureExactly(db: Db, i: nat, now: int)
    requires i < |db.proxies| && Active(db.proxies[i])
    ensures var qs := ApplyFailure(db, i, now).proxies;
            && |qs| == |db.proxies| && FailedTo(db, db.proxies[i], qs[i], now)
            && forall j :: 0 <= j < |qs| && j != i ==> Alike(db.proxies[j], qs[j])
  {
    AccruedRows(db, i, now);
    hide AccrueRow;
  }

  // ----- The money -----

  /** The outcome ends the row's earning cycle. */
  predicate EndsCycle(db: Db, i: nat, o: HealthOutcome, now: int)
    requires i < |db.proxies|
  {
    match o
    case Live(_, _) => SeenElsewhere(db.proxies[i], o) || LongUnseen(db, db.proxies[i], now)
    case ProviderBlocked => true
    case Dead => db.proxies[i].failures >= 2
    case Inconclusive => false
    case ConfirmEgress => false
  }

  /** What the ledger holds once the row has been paid up to its last success, if it earned at all. */
  function PaidUp(db: Db, i: nat, o: HealthOutcome, now: int): seq<Entry>
    requires i < |db.proxies|
  {
    if EndsCycle(db, i, o, now) && (db.proxies[i].eligibility == Allow || db.proxies[i].eligibility == Risk)
    then AccrueRow(db, i, true, now).ledger else db.ledger
  }

  /** Entries that only lose pending money. */
  ghost predicate OnlyForfeits(l: seq<Entry>, m: seq<Entry>) {
    |l| == |m| && forall k :: 0 <= k < |l| ==> m[k] == l[k] || (l[k].bucket == PendingMoney && m[k] == l[k].(bucket := Expired))
  }

  lemma {:induction false} ForfeitsKeepAvailable(l: seq<Entry>, m: seq<Entry>, user: nat)
    requires OnlyForfeits(l, m)
    ensures Balance(m, user, Available) == Balance(l, user, Available)
  {
    if l != [] {
      assert m[|l| - 1] == l[|l| - 1] || (l[|l| - 1].bucket == PendingMoney && m[|l| - 1] == l[|l| - 1].(bucket := Expired));
      ForfeitsKeepAvailable(l[..|l| - 1], m[..|l| - 1], user);
    }
  }

  lemma ForfeitsOnwards(l: seq<Entry>, m: seq<Entry>, n: seq<Entry>)
    requires OnlyForfeits(l, m) && OnlyForfeits(m, n)
    ensures OnlyForfeits(l, n)
  {
    forall k | 0 <= k < |l|
      ensures n[k] == l[k] || (l[k].bucket == PendingMoney && n[k] == l[k].(bucket := Expired))
    {
      assert m[k] == l[k] || (l[k].bucket == PendingMoney && m[k] == l[k].(bucket := Expired));
    }
  }

  lemma ReconcileForfeits(db: Db, i: nat, ip: Ip, source: Attestation, now: int)
    requires i < |db.proxies|
    ensures OnlyForfeits(db.ledger, ReconcileExitIp(db, i, ip, source, now).ledger)
  {
    hide Choose;
    var p := db.proxies[i];
    if Active(p) && source != Unattested {
      var named := SetRow(db, i, WithExit(p, ip, source, now));
      var d := Canonicalize(named, ip, p.verifiedAt.Some?, None, now);
      CanonicalizeForfeits(named, ip, p.verifiedAt.Some?, now);
      if p.exitIp.Some? && p.exitIp.value != ip {
        CanonicalizeForfeits(d, p.exitIp.value, false, now);
        ForfeitsOnwards(db.ledger, d.ledger, Canonicalize(d, p.exitIp.value, false, None, now).ledger);
      }
    }
  }

  lemma CanonicalizeForfeits(db: Db, ip: Ip, prefer: bool, now: int)
    ensures OnlyForfeits(db.ledger, Canonicalize(db, ip, prefer, None, now).ledger)
  {
    hide Choose;
  }

  /** A result first pays what was confirmed before the cycle it ends, then forfeits all that was still
      pending of the row; a result that ends no cycle leaves the money alone, but for what duplicates
      of a newly named address forfeit. */
  lemma ResultSettles(db: Db, i: nat, generation: nat, token: nat, o: HealthOutcome, now: int)
    requires Inv(db) && now == db.clock && HealthAccepted(db, i, generation, token)
    ensures var m := ApplyHealth(db, i, generation, token, o, now).ledger;
            && OnlyForfeits(PaidUp(db, i, o, now), m)
            && (EndsCycle(db, i, o, now) ==> NoPending(m, i))
            && (!EndsCycle(db, i, o, now) && !(o.Live? && o.egressTrusted && o.observed.Some?) ==> m == db.ledger)
  {
    var p := db.proxies[i];
    assert RowOk(p, i, now, db.cfg.stale, db.history);
    assert OnlyForfeits(db.ledger, db.ledger);
    var paid := PaidUp(db, i, o, now);
    assert OnlyForfeits(paid, ExpireAll(paid, {i})) && NoPending(ExpireAll(paid, {i}), i);
    match o
    case Live(_, _) => LiveSettles(db, i, o, now);
    case ProviderBlocked => hide AccrueRow;
    case Dead =>
      if p.failures >= 2 && Earning(p.eligibility) && !Reachable(p) { assert AccrueRow(db, i, true, now) == db; }
      hide AccrueRow;
    case Inconclusive =>
    case ConfirmEgress =>
  }

  lemma LiveSettles(db: Db, i: nat, o: HealthOutcome, now: int)
    requires o.Live? && i < |db.proxies| && Active(db.proxies[i])
    ensures var m := ApplyLive(db, i, o, now).ledger;
            && OnlyForfeits(PaidUp(db, i, o, now), m)
            && (EndsCycle(db, i, o, now) ==> NoPending(m, i))
            && (!EndsCycle(db, i, o, now) && !(o.egressTrusted && o.observed.Some?) ==> m == db.ledger)
  {
    var p := db.proxies[i];
    var broken := CycleBroken(db.cfg, p, o, now);
    assert broken <==> EndsCycle(db, i, o, now);
    var credited := if broken && Earning(p.eligibility) then AccrueRow(db, i, true, now) else db;
    var paid := PaidUp(db, i, o, now);
    AccruedRows(db, i, now);
    assert credited.ledger == paid;
    hide AccrueRow, CycleBroken;
    assert OnlyForfeits(paid, paid) && OnlyForfeits(paid, ExpireAll(paid, {i})) && NoPending(ExpireAll(paid, {i}), i);
    var closed := if broken then ExpirePendingCycle(credited, i) else credited;
    var written := SetRow(closed, i, LiveRow(db.cfg, p, o, now)).(history := db.history + {Success(i, p.generation, now)});
    hide LiveRow, PaidUp, EndsCycle;
    if TrustedObservation(o).Some? {
      ReconcileForfeits(written, i, TrustedObservation(o).value, HttpsQuorum, now);
      hide ReconcileExitIp;
      ForfeitsOnwards(paid, written.ledger, ApplyLive(db, i, o, now).ledger);
    }
  }

  // ----- The displayed time -----

  /** The moment a result is written changes no displayed second: time is only ever moved from the open
      interval to the counters.  */
  lemma ResultKeepsDisplay(db: Db, i: nat, generation: nat, token: nat, o: HealthOutcome, now: int)
    requires Inv(db) && now == db.clock && HealthAccepted(db, i, generation, token)
    ensures var p, q := db.proxies[i], ApplyHealth(db, i, generation, token, o, now).proxies[i];
            UptimeSeconds(q, now, true, Some(db.cfg.stale), None) == UptimeSeconds(p, now, true, Some(db.cfg.stale), None)
  {
    var p := db.proxies[i];
    assert RowOk(p, i, now, db.cfg.stale, db.history);
    AccruedRows(db, i, now);
    match o
    case Live(_, _) => LiveKeepsDisplay(db, i, o, now);
    case ProviderBlocked => hide AccrueRow, Continuous;
    case Dead => hide AccrueRow, Continuous;
    case Inconclusive =>
    case ConfirmEgress =>
  }

  lemma LiveKeepsDisplay(db: Db, i: nat, o: HealthOutcome, now: int)
    requires o.Live? && ConfigOk(db.cfg) && i < |db.proxies| && Active(db.proxies[i]) && RowOk(db.proxies[i], i, now, db.cfg.stale, db.history)
    ensures var p, q := db.proxies[i], ApplyLive(db, i, o, now).proxies[i];
            UptimeSeconds(q, now, true, Some(db.cfg.stale), None) == UptimeSeconds(p, now, true, Some(db.cfg.stale), None)
  {
    var p := db.proxies[i];
    var broken := CycleBroken(db.cfg, p, o, now);
    var credited := if broken && Earning(p.eligibility) then AccrueRow(db, i, true, now) else db;
    var closed := if broken then ExpirePendingCycle(credited, i) else credited;
    var q := LiveRow(db.cfg, p, o, now);
    var written := SetRow(closed, i, q).(history := db.history + {Success(i, p.generation, now)});
    AccruedRows(db, i, now);
    LiveRowDisplay(db.cfg, p, i, o, now, db.history);
    assert Active(q);
    hide AccrueRow, CycleBroken, LiveRow, RowOk;
    if TrustedObservation(o).Some? {
      ReconciledRows(written, i, TrustedObservation(o).value, HttpsQuorum, now);
      hide ReconcileExitIp;
    }
  }

  lemma LiveRowDisplay(cfg: Config, p: Proxy, i: nat, o: HealthOutcome, now: int, h: set<Success>)
    requires o.Live? && ConfigOk(cfg) && Active(p) && RowOk(p, i, now, cfg.stale, h)
    ensures UptimeSeconds(LiveRow(cfg, p, o, now), now, true, Some(cfg.stale), None) == UptimeSeconds(p, now, true, Some(cfg.stale), None)
  {
    hide Continuous;
  }

  /** Between results the clock of a row that is up runs while its last success vouches for it, and that
      of a row that is down runs on. */
  lemma DisplayRuns(db: Db, i: nat, now: int, later: int)
    requires Inv(db) && i < |db.proxies| && db.clock <= now <= later
    ensures var p := db.proxies[i];
            var u, v := UptimeSeconds(p, now, true, Some(db.cfg.stale), None), UptimeSeconds(p, later, true, Some(db.cfg.stale), None);
            && (p.status == Online && later <= p.lastSuccess.value + db.cfg.stale ==> v == u.(online := u.online + later - now))
            && (p.status == Online && now >= p.lastSuccess.value + db.cfg.stale ==> v == u)
            && (p.status == Offline || p.status == Blocked ==> v == u.(offline := u.offline + later - now))
            && (p.status == Pending ==> v == u)
  {
    assert RowOk(db.proxies[i], i, db.clock, db.cfg.stale, db.history);
    hide Continuous;
  }
}
