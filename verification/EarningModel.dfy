/** Proxies, users and the earnings ledger as one value, and the effect of each write
    transaction on it (app/services/checks.py, earnings.py, proxies.py).

    Rows are never deleted, so a table is a sequence and a row's id is its index.
    Times are whole seconds.  `history` records every health success and is read by
    no operation; it only lets properties speak about past observations. */
module EarningModel {
  import opened Wrappers

  const US_MONTHLY_MICRO_USD := 1_000_000
  const NON_US_MONTHLY_MICRO_USD := 500_000
  const MONTH_SECONDS := 720 * 3600
  const PROBATION_SECONDS := 168 * 3600
  const DAY_SECONDS := 24 * 3600
  const CLAIM_SECONDS := 600

  type Ip = string

  datatype Status = Pending | Online | Suspect | Blocked | Offline | Archived
  datatype Eligibility = Unclassified | Allow | Risk
  datatype Attestation = Unattested | HttpsQuorum | EarnappTls
  datatype Bucket = PendingMoney | Available | Expired

  datatype Proxy = Proxy(
    userId: nat,
    generation: nat,
    credentialStart: int,
    createdAt: int,
    status: Status,
    eligibility: Eligibility,
    country: string,
    exitIp: Option<Ip>,
    attestation: Attestation,
    verifiedAt: Option<int>,
    duplicateOf: Option<nat>,
    failures: nat,
    onlineSince: Option<int>,
    offlineSince: Option<int>,
    lastSuccess: Option<int>,
    deadSince: Option<int>,
    archivedAt: Option<int>,
    cursor: int,
    probation: int,
    accOnline: int,
    accOffline: int,
    nextCheck: int,
    checkToken: Option<nat>,
    checkUntil: Option<int>,
    earnappNext: Option<int>,
    earnappToken: Option<nat>,
    earnappUntil: Option<int>)

  /** `address` is the exit address the row had when it was credited; like `history`, no operation reads it. */
  datatype Entry = Entry(user: nat, proxy: nat, start: int, end: int, micro: int, bucket: Bucket, address: Option<Ip>)

  datatype User = User(active: bool, paused: bool)

  /** The checker settings, in seconds and already clamped (app/services/checks.py:65-83). */
  datatype Config = Config(stale: int, healthInterval: int, retryFirst: int, retrySecond: int, refresh: int)

  datatype Success = Success(proxy: nat, generation: nat, at: int)

  datatype Db = Db(
    cfg: Config,
    users: seq<User>,
    proxies: seq<Proxy>,
    ledger: seq<Entry>,
    clock: int,
    nextToken: nat,
    history: set<Success>)

  /** A health worker's verdict about one proxy (app/services/checks.py:443-628). */
  datatype HealthOutcome =
    | Live(egressTrusted: bool, observed: Option<Ip>)
    | Inconclusive
    | ConfirmEgress
    | ProviderBlocked
    | Dead

  datatype Verdict = CidSet | Refused | Other

  /** `trusted` is None for a caller that sends no attestation field. */
  datatype EarnappReport = EarnappReport(verdict: Verdict, trusted: Option<bool>, exitIp: Option<Ip>, country: string)

  predicate ConfigOk(cfg: Config) {
    60 * 60 <= cfg.stale <= 1440 * 60 && 0 < cfg.healthInterval && 0 < cfg.retryFirst && 0 < cfg.retrySecond && 0 < cfg.refresh
  }

  function Init(cfg: Config): Db {
    Db(cfg, [], [], [], 0, 0, {})
  }

  // ----- Row classification -----

  predicate Earning(e: Eligibility) {
    e.Allow? || e.Risk?
  }

  predicate Active(p: Proxy) {
    p.archivedAt.None?
  }

  predicate Reachable(p: Proxy) {
    p.status.Online? || p.status.Suspect?
  }

  predicate Down(p: Proxy) {
    p.status.Offline? || p.status.Blocked?
  }

  predicate Trusted(p: Proxy) {
    p.exitIp.Some? && p.attestation != Unattested
  }

  /** The row filter shared by accrual and display, status aside (app/services/earnings.py:226-230). */
  predicate Accruable(p: Proxy) {
    Active(p) && Earning(p.eligibility) && p.duplicateOf.None? && Trusted(p)
  }

  function RateFor(e: Eligibility, country: string): int {
    match e
    case Allow => if country == "US" then US_MONTHLY_MICRO_USD else NON_US_MONTHLY_MICRO_USD
    case Risk => NON_US_MONTHLY_MICRO_USD
    case Unclassified => 0
  }

  // ----- Ledger statements -----

  function Amount(rate: int, seconds: int): int {
    rate * seconds / MONTH_SECONDS
  }

  predicate SameKey(a: Entry, b: Entry) {
    a.proxy == b.proxy && a.start == b.start && a.end == b.end && a.bucket == b.bucket
  }

  /** `_add_ledger_entry`: nothing for an empty interval, and INSERT OR IGNORE on the unique key. */
  function AddEntry(l: seq<Entry>, e: Entry): seq<Entry> {
    if e.end <= e.start || exists k | 0 <= k < |l| :: SameKey(l[k], e) then l else l + [e]
  }

  function Rebucket(e: Entry, chosen: bool, to: Bucket): Entry {
    if chosen && e.bucket.PendingMoney? then e.(bucket := to) else e
  }

  function ExpireAll(l: seq<Entry>, owners: set<nat>): (r: seq<Entry>)
  {
    seq(|l|, k requires 0 <= k < |l| => Rebucket(l[k], l[k].proxy in owners, Expired))
  }

  /** The unlock statement: pending entries of one proxy that start in the current cycle. */
  function Unlock(l: seq<Entry>, i: nat, from: int): (r: seq<Entry>)
  {
    seq(|l|, k requires 0 <= k < |l| => Rebucket(l[k], l[k].proxy == i && l[k].start >= from, Available))
  }

  function SetRow(db: Db, i: nat, p: Proxy): Db
    requires i < |db.proxies|
  {
    db.(proxies := db.proxies[i := p])
  }

  // ----- Accrual -----

  /** `min(current, last_success + stale)`. */
  function ValidatedEnd(cfg: Config, p: Proxy, now: int): int
    requires p.lastSuccess.Some?
  {
    Min(now, p.lastSuccess.value + cfg.stale)
  }

  function EntryFor(p: Proxy, i: nat, start: int, end: int, bucket: Bucket): Entry {
    Entry(p.userId, i, start, end, Amount(RateFor(p.eligibility, p.country), end - start), bucket, p.exitIp)
  }

  /** The ledger after crediting [cursor, end] of one row (app/services/earnings.py:258-298). */
  function Credit(l: seq<Entry>, p: Proxy, i: nat, end: int): seq<Entry> {
    var unlockAt := p.probation + PROBATION_SECONDS;
    if end < unlockAt then
      AddEntry(l, EntryFor(p, i, p.cursor, end, PendingMoney))
    else if p.cursor < unlockAt then
      AddEntry(AddEntry(Unlock(l, i, p.probation), EntryFor(p, i, p.cursor, unlockAt, Available)),
               EntryFor(p, i, unlockAt, end, Available))
    else
      AddEntry(Unlock(l, i, p.probation), EntryFor(p, i, p.cursor, end, Available))
  }

  predicate AccrualDue(db: Db, i: nat, suspectToo: bool, now: int)
    requires i < |db.proxies|
  {
    var p := db.proxies[i];
    && p.userId < |db.users|
    && Accruable(p) && (p.status.Online? || (suspectToo && p.status.Suspect?))
    && p.lastSuccess.Some? && p.cursor < ValidatedEnd(db.cfg, p, now)
  }

  /** One iteration of the accrual loop. */
  function AccrueRow(db: Db, i: nat, suspectToo: bool, now: int): Db
    requires i < |db.proxies|
  {
    if !AccrualDue(db, i, suspectToo, now) then db
    else
      var p := db.proxies[i];
      var u := db.users[p.userId];
      var end := ValidatedEnd(db.cfg, p, now);
      var moved := SetRow(db, i, p.(cursor := end));
      if !u.active || u.paused then moved else moved.(ledger := Credit(db.ledger, p, i, end))
  }

  /** The loop of `accrue_eligible_time` over its first `n` rows. */
  function AccrueFirst(db: Db, n: nat, now: int): (r: Db)
    requires n <= |db.proxies|
    ensures |r.proxies| == |db.proxies| && r.cfg == db.cfg && r.clock == db.clock
  {
    if n == 0 then db else AccrueRow(AccrueFirst(db, n - 1, now), n - 1, false, now)
  }

  function ExpirePendingCycle(db: Db, i: nat): Db {
    db.(ledger := ExpireAll(db.ledger, {i}))
  }

  function ResetProbation(db: Db, i: nat, at: int): Db
    requires i < |db.proxies|
  {
    SetRow(ExpirePendingCycle(db, i), i, db.proxies[i].(probation := at, cursor := at))
  }

  // ----- Egress identity -----

  predicate InGroup(p: Proxy, ip: Ip) {
    Active(p) && p.exitIp == Some(ip) && p.attestation != Unattested
  }

  predicate Member(ps: seq<Proxy>, j: nat, ip: Ip, exclude: Option<nat>)
    requires j < |ps|
  {
    InGroup(ps[j], ip) && exclude != Some(j)
  }

  predicate LongOffline(p: Proxy, now: int) {
    p.status.Offline? && p.offlineSince.Some? && p.offlineSince.value <= now - DAY_SECONDS
  }

  /** The sort key: verification time when every member has one, then creation order. */
  predicate Precedes(ps: seq<Proxy>, a: nat, b: nat, byVerified: bool)
    requires a < |ps| && b < |ps|
  {
    var va := if byVerified && ps[a].verifiedAt.Some? then ps[a].verifiedAt.value else 0;
    var vb := if byVerified && ps[b].verifiedAt.Some? then ps[b].verifiedAt.value else 0;
    va < vb || (va == vb && (ps[a].createdAt < ps[b].createdAt || (ps[a].createdAt == ps[b].createdAt && a < b)))
  }

  predicate Candidate(ps: seq<Proxy>, j: nat, ip: Ip, exclude: Option<nat>, freshOnly: bool, now: int)
    requires j < |ps|
  {
    Member(ps, j, ip, exclude) && !(freshOnly && LongOffline(ps[j], now))
  }

  /** `min(candidates, key=key)` among the first `n` rows. */
  function Best(ps: seq<Proxy>, n: nat, ip: Ip, exclude: Option<nat>, freshOnly: bool, byVerified: bool, now: int): (r: Option<nat>)
    requires n <= |ps|
    ensures r.None? <==> forall j :: 0 <= j < n ==> !Candidate(ps, j, ip, exclude, freshOnly, now)
    ensures r.Some? ==> r.value < n && Candidate(ps, r.value, ip, exclude, freshOnly, now)
    ensures r.Some? ==> forall j :: 0 <= j < n && j != r.value && Candidate(ps, j, ip, exclude, freshOnly, now) ==>
                                      Precedes(ps, r.value, j, byVerified)
  {
    if n == 0 then None
    else
      var r := Best(ps, n - 1, ip, exclude, freshOnly, byVerified, now);
      if !Candidate(ps, n - 1, ip, exclude, freshOnly, now) then r
      else if r.Some? && Precedes(ps, r.value, n - 1, byVerified) then r
      else Some(n - 1)
  }

  predicate AllVerified(ps: seq<Proxy>, ip: Ip, exclude: Option<nat>) {
    forall j | 0 <= j < |ps| :: Member(ps, j, ip, exclude) ==> ps[j].verifiedAt.Some?
  }

  function Canonical(ps: seq<Proxy>, ip: Ip, preferVerified: bool, exclude: Option<nat>, now: int): Option<nat> {
    var byVerified := preferVerified && AllVerified(ps, ip, exclude);
    var recent := Best(ps, |ps|, ip, exclude, true, byVerified, now);
    if recent.Some? then recent else Best(ps, |ps|, ip, exclude, false, byVerified, now)
  }

  function Repointed(ps: seq<Proxy>, j: nat, ip: Ip, exclude: Option<nat>, canonical: nat): Proxy
    requires j < |ps|
  {
    if j == canonical then ps[j].(duplicateOf := None)
    else if Member(ps, j, ip, exclude) then ps[j].(duplicateOf := Some(canonical))
    else ps[j]
  }

  function Repoint(ps: seq<Proxy>, ip: Ip, exclude: Option<nat>, canonical: nat): (r: seq<Proxy>)
  {
    seq(|ps|, j requires 0 <= j < |ps| => Repointed(ps, j, ip, exclude, canonical))
  }

  function Losers(ps: seq<Proxy>, ip: Ip, exclude: Option<nat>, canonical: nat): set<nat> {
    set j: nat | j < |ps| && Member(ps, j, ip, exclude) && j != canonical
  }

  /** What a canonicalization decides from its SELECT: the canonical row and the rows losing that status. */
  datatype Choice = Choice(ip: Ip, canonical: nat, losers: set<nat>)

  function Choose(ps: seq<Proxy>, ip: Ip, preferVerified: bool, exclude: Option<nat>, now: int): Option<Choice> {
    match Canonical(ps, ip, preferVerified, exclude, now)
    case None => None
    case Some(c) => Some(Choice(ip, c, Losers(ps, ip, exclude, c)))
  }

  /** And the UPDATEs that follow (app/services/proxies.py:490-501). */
  function Rehome(db: Db, choice: Choice, exclude: Option<nat>): Db {
    db.(proxies := Repoint(db.proxies, choice.ip, exclude, choice.canonical), ledger := ExpireAll(db.ledger, choice.losers))
  }

  function Canonicalize(db: Db, ip: Ip, preferVerified: bool, exclude: Option<nat>, now: int): Db {
    match Choose(db.proxies, ip, preferVerified, exclude, now)
    case None => db
    case Some(choice) => Rehome(db, choice, exclude)
  }

  function WithExit(p: Proxy, ip: Ip, source: Attestation, now: int): Proxy {
    var changed := p.exitIp.Some? && p.exitIp.value != ip;
    p.(exitIp := Some(ip), attestation := source,
       country := if changed then "" else p.country,
       verifiedAt := if changed || p.verifiedAt.None? then Some(now) else p.verifiedAt)
  }

  function ReconcileExitIp(db: Db, i: nat, ip: Ip, source: Attestation, now: int): Db
    requires i < |db.proxies|
  {
    var p := db.proxies[i];
    if !Active(p) || source == Unattested then db
    else
      var d := Canonicalize(SetRow(db, i, WithExit(p, ip, source, now)), ip, p.verifiedAt.Some?, None, now);
      if p.exitIp.Some? && p.exitIp.value != ip then Canonicalize(d, p.exitIp.value, false, None, now) else d
  }

  // ----- Health results -----

  function TrustedObservation(o: HealthOutcome): Option<Ip>
    requires o.Live?
  {
    if o.egressTrusted then o.observed else None
  }

  predicate EgressChanged(p: Proxy, o: HealthOutcome)
    requires o.Live?
  {
    p.exitIp.Some? && TrustedObservation(o).Some? && p.exitIp != TrustedObservation(o)
  }

  predicate UntrustedMismatch(p: Proxy, o: HealthOutcome)
    requires o.Live?
  {
    !o.egressTrusted && p.exitIp.Some? && o.observed.Some? && p.exitIp != o.observed
  }

  predicate MissingEgress(p: Proxy, o: HealthOutcome)
    requires o.Live?
  {
    p.exitIp.None? && TrustedObservation(o).None?
  }

  predicate UnobservedRecovery(p: Proxy) {
    Reachable(p) && p.onlineSince.Some? && p.lastSuccess.None?
  }

  predicate StaleRecovery(cfg: Config, p: Proxy, now: int) {
    Reachable(p) && p.lastSuccess.Some? && now > p.lastSuccess.value + cfg.stale
  }

  /** The live outcomes that close the earning cycle before the row is rewritten. */
  predicate CycleBroken(cfg: Config, p: Proxy, o: HealthOutcome, now: int)
    requires o.Live?
  {
    EgressChanged(p, o) || UntrustedMismatch(p, o) || StaleRecovery(cfg, p, now)
  }

  predicate ContinuityReset(cfg: Config, p: Proxy, o: HealthOutcome, now: int)
    requires o.Live?
  {
    Down(p) || CycleBroken(cfg, p, o, now) || UnobservedRecovery(p)
  }

  /** `max(0, observed_until - online_since)` with observation bounded by the stale limit. */
  function ObservedOnline(cfg: Config, p: Proxy, now: int): int {
    if p.onlineSince.Some? && p.lastSuccess.Some?
    then Max(0, ValidatedEnd(cfg, p, now) - p.onlineSince.value)
    else 0
  }

  /** The row written by a live result, from the row `p` read at the start of the transaction. */
  function LiveRow(cfg: Config, p: Proxy, o: HealthOutcome, now: int): Proxy
    requires o.Live?
  {
    var reset := ContinuityReset(cfg, p, o, now);
    var restart := StaleRecovery(cfg, p, now) || UnobservedRecovery(p);
    var unclassified := EgressChanged(p, o) || UntrustedMismatch(p, o) || MissingEgress(p, o);
    var dropClaim := CycleBroken(cfg, p, o, now) || UnobservedRecovery(p);
    p.(status := Online, failures := 0, offlineSince := None, deadSince := None,
       onlineSince := if restart || p.onlineSince.None? then Some(now) else p.onlineSince,
       accOnline := p.accOnline + (if StaleRecovery(cfg, p, now) then ObservedOnline(cfg, p, now) else 0),
       accOffline := p.accOffline + (if Down(p) && p.offlineSince.Some? then Max(0, now - p.offlineSince.value) else 0),
       verifiedAt := if TrustedObservation(o).Some? && (p.verifiedAt.None? || EgressChanged(p, o)) then Some(now) else p.verifiedAt,
       eligibility := if unclassified then Unclassified else p.eligibility,
       earnappNext := if unclassified then Some(now) else p.earnappNext,
       earnappToken := if dropClaim then None else p.earnappToken,
       earnappUntil := if dropClaim then None else p.earnappUntil,
       probation := if reset then now else p.probation,
       cursor := if reset then now else p.cursor,
       lastSuccess := Some(now),
       nextCheck := now + cfg.healthInterval, checkToken := None, checkUntil := None)
  }

  function ApplyLive(db: Db, i: nat, o: HealthOutcome, now: int): Db
    requires i < |db.proxies| && o.Live?
  {
    var p := db.proxies[i];
    var broken := CycleBroken(db.cfg, p, o, now);
    var credited := if broken && Earning(p.eligibility) then AccrueRow(db, i, true, now) else db;
    var closed := if broken then ExpirePendingCycle(credited, i) else credited;
    var written := SetRow(closed, i, LiveRow(db.cfg, p, o, now)).(
      history := db.history + {Success(i, p.generation, now)});
    match TrustedObservation(o)
    case None => written
    case Some(ip) => ReconcileExitIp(written, i, ip, HttpsQuorum, now)
  }

  function BlockedRow(cfg: Config, p: Proxy, now: int): Proxy {
    p.(status := Blocked, eligibility := Risk, failures := 0, onlineSince := None,
       offlineSince := if p.offlineSince.Some? then p.offlineSince else Some(now),
       accOnline := p.accOnline + (if Reachable(p) then ObservedOnline(cfg, p, now) else 0),
       probation := now, cursor := now,
       nextCheck := now + cfg.healthInterval, checkToken := None, checkUntil := None,
       earnappToken := None, earnappUntil := None, earnappNext := Some(now))
  }

  function ApplyBlocked(db: Db, i: nat, now: int): Db
    requires i < |db.proxies|
  {
    var p := db.proxies[i];
    var credited := if Earning(p.eligibility) then AccrueRow(db, i, true, now) else db;
    SetRow(ExpirePendingCycle(credited, i), i, BlockedRow(db.cfg, p, now))
  }

  predicate GoesOffline(p: Proxy) {
    p.failures + 1 >= 3
  }

  function FailureRow(cfg: Config, p: Proxy, now: int): Proxy {
    var offline := GoesOffline(p);
    var failures := p.failures + 1;
    p.(status := if offline then Offline else if p.status.Blocked? then Blocked else if failures >= 2 then Suspect else p.status,
       failures := failures,
       offlineSince := if (offline || p.status.Blocked?) && p.offlineSince.None? then Some(now) else p.offlineSince,
       onlineSince := if offline || p.status.Blocked? then None else p.onlineSince,
       accOnline := p.accOnline + (if offline && Reachable(p) then ObservedOnline(cfg, p, now) else 0),
       deadSince := if offline && p.deadSince.None? then Some(now) else p.deadSince,
       probation := if offline then now else p.probation,
       cursor := if offline then now else p.cursor,
       nextCheck := now + (if failures == 1 then cfg.retryFirst else cfg.retrySecond),
       checkToken := None, checkUntil := None,
       earnappToken := None, earnappUntil := None, earnappNext := Some(now))
  }

  function ApplyFailure(db: Db, i: nat, now: int): Db
    requires i < |db.proxies|
  {
    var p := db.proxies[i];
    var credited := if GoesOffline(p) && Earning(p.eligibility) && Reachable(p) then AccrueRow(db, i, true, now) else db;
    var closed := if GoesOffline(p) then ExpirePendingCycle(credited, i) else credited;
    SetRow(closed, i, FailureRow(db.cfg, p, now))
  }

  predicate HealthAccepted(db: Db, i: nat, generation: nat, token: nat) {
    i < |db.proxies| && Active(db.proxies[i])
    && db.proxies[i].generation == generation && db.proxies[i].checkToken == Some(token)
  }

  function ApplyHealth(db: Db, i: nat, generation: nat, token: nat, o: HealthOutcome, now: int): Db {
    if !HealthAccepted(db, i, generation, token) then db
    else
      var p := db.proxies[i];
      match o
      case Live(_, _) => ApplyLive(db, i, o, now)
      case Inconclusive => SetRow(db, i, p.(nextCheck := now + db.cfg.retryFirst, checkToken := None, checkUntil := None))
      case ConfirmEgress => SetRow(db, i, p.(nextCheck := now, checkToken := None, checkUntil := None))
      case ProviderBlocked => ApplyBlocked(db, i, now)
      case Dead => ApplyFailure(db, i, now)
  }

  // ----- EarnApp results -----

  function Authenticated(r: EarnappReport): Option<Ip> {
    if r.trusted == Some(true) then r.exitIp else None
  }

  predicate EarnappEgressChanged(p: Proxy, r: EarnappReport) {
    Authenticated(r).Some? && p.exitIp.Some? && Authenticated(r) != p.exitIp
  }

  function Classify(p: Proxy, r: EarnappReport): Eligibility {
    if EarnappEgressChanged(p, r) then Unclassified
    else match r.verdict
      case CidSet => if r.trusted.Some? && Authenticated(r).None? then Unclassified else Allow
      case Refused => Risk
      case Other => Unclassified
  }

  predicate CountryCode(c: string) {
    |c| == 2 && 'A' <= c[0] <= 'Z' && 'A' <= c[1] <= 'Z'
  }

  function VerifiedCountry(p: Proxy, r: EarnappReport): Option<string> {
    var evidence := if Authenticated(r).Some? then Authenticated(r) else if r.trusted.None? then r.exitIp else None;
    if CountryCode(r.country) && evidence.Some? && evidence == p.exitIp then Some(r.country) else None
  }

  /** The final UPDATE, applied to the row `q` as reconciliation left it; `p` is the row first read. */
  function EarnappRow(cfg: Config, q: Proxy, p: Proxy, r: EarnappReport, now: int): Proxy {
    var reset := p.eligibility != Classify(p, r) || EarnappEgressChanged(p, r);
    q.(eligibility := Classify(p, r),
       country := if VerifiedCountry(p, r).Some? then VerifiedCountry(p, r).value else q.country,
       earnappNext := Some(if EarnappEgressChanged(p, r) then now else now + cfg.refresh),
       earnappToken := None, earnappUntil := None,
       probation := if reset then now else q.probation,
       cursor := if reset then now else q.cursor)
  }

  predicate EarnappAccepted(db: Db, i: nat, generation: nat, token: nat) {
    i < |db.proxies| && Active(db.proxies[i])
    && db.proxies[i].generation == generation && db.proxies[i].earnappToken == Some(token)
  }

  function ApplyEarnapp(db: Db, i: nat, generation: nat, token: nat, r: EarnappReport, now: int): Db {
    if !EarnappAccepted(db, i, generation, token) then db
    else
      var p := db.proxies[i];
      var changed := p.eligibility != Classify(p, r);
      var credited := if changed && Earning(p.eligibility) then AccrueRow(db, i, true, now) else db;
      var closed := if changed || EarnappEgressChanged(p, r) then ResetProbation(credited, i, now) else credited;
      var identified := match Authenticated(r)
        case None => closed
        case Some(ip) => ReconcileExitIp(closed, i, ip, EarnappTls, now);
      SetRow(identified, i, EarnappRow(db.cfg, identified.proxies[i], p, r, now))
  }

  // ----- Proxy lifecycle -----

  function NewRow(user: nat, now: int): Proxy {
    Proxy(user, 1, now, now, Pending, Unclassified, "", None, Unattested, None, None, 0, None, None, None, None, None,
          now, now, 0, 0, now, None, None, None, None, None)
  }

  function AddProxy(db: Db, user: nat, now: int): Db {
    if user < |db.users| then db.(proxies := db.proxies + [NewRow(user, now)]) else db
  }

  /** New credentials on the same row: everything observed about the old ones is dropped. */
  function ReplacedRow(p: Proxy, now: int): Proxy {
    NewRow(p.userId, now).(generation := p.generation + 1, createdAt := p.createdAt)
  }

  function LeaveGroup(db: Db, i: nat, now: int): Db
    requires i < |db.proxies|
  {
    var left := match db.proxies[i].exitIp
      case None => db
      case Some(ip) => Canonicalize(db, ip, false, Some(i), now);
    ExpirePendingCycle(left, i)
  }

  predicate Owned(db: Db, i: nat, user: nat) {
    i < |db.proxies| && Active(db.proxies[i]) && db.proxies[i].userId == user
  }

  function ReplaceProxy(db: Db, i: nat, user: nat, now: int): Db {
    if !Owned(db, i, user) then db
    else SetRow(LeaveGroup(db, i, now), i, ReplacedRow(db.proxies[i], now))
  }

  function ArchiveProxy(db: Db, i: nat, user: nat, now: int): Db {
    if !Owned(db, i, user) then db
    else SetRow(LeaveGroup(db, i, now), i, ArchivedRow(db.proxies[i], now))
  }

  /** What `archive_proxy` and `replace_proxy` choose from the rows as they are. */
  function LeavingChoice(ps: seq<Proxy>, i: nat, now: int): Option<Choice>
    requires i < |ps|
  {
    match ps[i].exitIp
    case None => None
    case Some(ip) => Choose(ps, ip, false, Some(i), now)
  }

  function ArchivedRow(p: Proxy, now: int): Proxy {
    p.(archivedAt := Some(now), status := Archived)
  }

  /** Replacing or archiving with a choice read before the write lock was taken: by the time of the
      writes the rows may have changed in any way (app/services/proxies.py:276-353). */
  function LateLeave(db: Db, i: nat, user: nat, choice: Option<Choice>, replace: bool, now: int): Db {
    if !Owned(db, i, user) then db
    else
      var p := db.proxies[i];
      var left := match choice
        case None => db
        case Some(made) => Rehome(db, made, Some(i));
      SetRow(ExpirePendingCycle(left, i), i, if replace then ReplacedRow(p, now) else ArchivedRow(p, now))
  }

  /** The online duplicate created first, among the first `n` rows. */
  function FirstOnlineDuplicate(ps: seq<Proxy>, canonical: nat, n: nat): (r: Option<nat>)
    requires n <= |ps|
    ensures r.Some? ==> r.value < n && IsOnlineDuplicate(ps[r.value], canonical)
    ensures r.None? <==> forall j :: 0 <= j < n ==> !IsOnlineDuplicate(ps[j], canonical)
    ensures r.Some? ==> forall j :: 0 <= j < n && j != r.value && IsOnlineDuplicate(ps[j], canonical) ==> Precedes(ps, r.value, j, false)
  {
    if n == 0 then None
    else
      var r := FirstOnlineDuplicate(ps, canonical, n - 1);
      if !IsOnlineDuplicate(ps[n - 1], canonical) then r
      else if r.Some? && Precedes(ps, r.value, n - 1, false) then r
      else Some(n - 1)
  }

  predicate IsOnlineDuplicate(p: Proxy, canonical: nat) {
    p.duplicateOf == Some(canonical) && p.status.Online? && Active(p)
  }

  predicate PromotionDue(p: Proxy, now: int) {
    && (p.status.Offline? || p.status.Archived?) && p.offlineSince.Some?
    && (p.status.Archived? || now - p.offlineSince.value >= DAY_SECONDS)
  }

  function Promoted(ps: seq<Proxy>, j: nat, canonical: nat, promoted: nat): Proxy
    requires j < |ps|
  {
    if j == promoted then ps[j].(duplicateOf := None)
    else if j == canonical || ps[j].duplicateOf == Some(canonical) then ps[j].(duplicateOf := Some(promoted))
    else ps[j]
  }

  function PromoteRows(ps: seq<Proxy>, canonical: nat, promoted: nat): (r: seq<Proxy>)
  {
    seq(|ps|, j requires 0 <= j < |ps| => Promoted(ps, j, canonical, promoted))
  }

  /** The writes of a promotion. */
  function PromoteTo(db: Db, canonical: nat, c: nat, now: int): Db
    requires c < |db.proxies|
  {
    ResetProbation(ExpirePendingCycle(db, canonical).(proxies := PromoteRows(db.proxies, canonical, c)), c, now)
  }

  /** A promotion whose rows were read before the write lock was taken (app/services/proxies.py:357-378). */
  function LatePromote(db: Db, canonical: nat, c: nat, now: int): Db {
    if canonical < |db.proxies| && c < |db.proxies| then PromoteTo(db, canonical, c, now) else db
  }

  function PromoteDuplicate(db: Db, canonical: nat, now: int): Db {
    if canonical >= |db.proxies| || !PromotionDue(db.proxies[canonical], now) then db
    else
      match FirstOnlineDuplicate(db.proxies, canonical, |db.proxies|)
      case None => db
      case Some(c) => PromoteTo(db, canonical, c, now)
  }

  predicate DeadForADay(p: Proxy, now: int) {
    Active(p) && p.status.Offline? && p.deadSince.Some? && p.deadSince.value <= now - DAY_SECONDS
  }

  function Buried(p: Proxy, now: int): Proxy {
    if DeadForADay(p, now) then p.(status := Archived, archivedAt := Some(now)) else p
  }

  function ArchiveDead(db: Db, now: int): Db {
    db.(proxies := seq(|db.proxies|, j requires 0 <= j < |db.proxies| => Buried(db.proxies[j], now)))
  }

  /** Promotions for the rows that were dead for a day in `was`, in row order. */
  function PromoteDead(db: Db, was: seq<Proxy>, n: nat, now: int): Db
    requires n <= |was|
  {
    if n == 0 then db
    else
      var d := PromoteDead(db, was, n - 1, now);
      if DeadForADay(was[n - 1], now) then PromoteDuplicate(d, n - 1, now) else d
  }

  /** `archive_due_dead_proxies`: re-home first, then archive. */
  function ArchiveDueDead(db: Db, now: int): Db {
    ArchiveDead(PromoteDead(db, db.proxies, |db.proxies|, now), now)
  }

  // ----- Claims -----

  predicate HealthDue(p: Proxy, users: seq<User>, now: int) {
    && Active(p) && p.userId < |users| && users[p.userId].active
    && (p.nextCheck <= now || p.checkUntil.Some?)
    && (p.checkUntil.None? || p.checkUntil.value <= now)
  }

  predicate EarnappDue(p: Proxy, users: seq<User>, now: int) {
    && Active(p) && p.status.Online? && p.userId < |users| && users[p.userId].active
    && (p.earnappNext.None? || p.earnappNext.value <= now)
    && (p.earnappUntil.None? || p.earnappUntil.value <= now)
  }

  function HealthClaimed(db: Db, j: nat, ids: set<nat>, now: int): Proxy
    requires j < |db.proxies|
  {
    var p := db.proxies[j];
    if j in ids && HealthDue(p, db.users, now)
    then p.(nextCheck := now + db.cfg.healthInterval, checkUntil := Some(now + CLAIM_SECONDS), checkToken := Some(db.nextToken))
    else p
  }

  /** Claims the due rows among `ids` under one fresh token. */
  function ClaimHealth(db: Db, ids: set<nat>, now: int): Db {
    db.(proxies := seq(|db.proxies|, j requires 0 <= j < |db.proxies| => HealthClaimed(db, j, ids, now)),
        nextToken := db.nextToken + 1)
  }

  function EarnappClaimed(db: Db, j: nat, ids: set<nat>, now: int): Proxy
    requires j < |db.proxies|
  {
    var p := db.proxies[j];
    if j in ids && EarnappDue(p, db.users, now)
    then p.(earnappUntil := Some(now + CLAIM_SECONDS), earnappToken := Some(db.nextToken))
    else p
  }

  function ClaimEarnapp(db: Db, ids: set<nat>, now: int): Db {
    db.(proxies := seq(|db.proxies|, j requires 0 <= j < |db.proxies| => EarnappClaimed(db, j, ids, now)),
        nextToken := db.nextToken + 1)
  }

  function ReleaseHealth(db: Db, i: nat, token: nat, now: int): Db {
    if i < |db.proxies| && db.proxies[i].checkToken == Some(token)
    then SetRow(db, i, db.proxies[i].(nextCheck := now, checkUntil := None, checkToken := None)) else db
  }

  function ReleaseEarnapp(db: Db, i: nat, token: nat, now: int): Db {
    if i < |db.proxies| && db.proxies[i].earnappToken == Some(token)
    then SetRow(db, i, db.proxies[i].(earnappNext := Some(now), earnappUntil := None, earnappToken := None)) else db
  }

  function SetUser(db: Db, u: nat, user: User): Db {
    if u < |db.users| then db.(users := db.users[u := user]) else db
  }

  // ----- Runs -----

  datatype Event =
    | AddUserEvent(user: User)
    | SetUserEvent(u: nat, user: User)
    | AddProxyEvent(owner: nat)
    | ReplaceEvent(i: nat, owner: nat)
    | ArchiveEvent(i: nat, owner: nat)
    | ClaimHealthEvent(ids: set<nat>)
    | ClaimEarnappEvent(ids: set<nat>)
    | ReleaseHealthEvent(i: nat, token: nat)
    | ReleaseEarnappEvent(i: nat, token: nat)
    | HealthEvent(i: nat, generation: nat, token: nat, outcome: HealthOutcome)
    | EarnappEvent(i: nat, generation: nat, token: nat, report: EarnappReport)
    | AccrueAllEvent
    | AccrueOneEvent(i: nat)
    | LateLeaveEvent(i: nat, owner: nat, choice: Option<Choice>, replace: bool)
    | PromoteEvent(i: nat)
    | LatePromoteEvent(i: nat, c: nat)
    | ArchiveDeadEvent

  function Effect(db: Db, e: Event, now: int): Db {
    match e
    case AddUserEvent(user) => db.(users := db.users + [user])
    case SetUserEvent(u, user) => SetUser(db, u, user)
    case AddProxyEvent(owner) => AddProxy(db, owner, now)
    case ReplaceEvent(i, owner) => ReplaceProxy(db, i, owner, now)
    case ArchiveEvent(i, owner) => ArchiveProxy(db, i, owner, now)
    case ClaimHealthEvent(ids) => ClaimHealth(db, ids, now)
    case ClaimEarnappEvent(ids) => ClaimEarnapp(db, ids, now)
    case ReleaseHealthEvent(i, token) => ReleaseHealth(db, i, token, now)
    case ReleaseEarnappEvent(i, token) => ReleaseEarnapp(db, i, token, now)
    case HealthEvent(i, generation, token, outcome) => ApplyHealth(db, i, generation, token, outcome, now)
    case EarnappEvent(i, generation, token, report) => ApplyEarnapp(db, i, generation, token, report, now)
    case AccrueAllEvent => AccrueFirst(db, |db.proxies|, now)
    case AccrueOneEvent(i) => if i < |db.proxies| then AccrueRow(db, i, true, now) else db
    case LateLeaveEvent(i, owner, choice, replace) => LateLeave(db, i, owner, choice, replace, now)
    case PromoteEvent(i) => PromoteDuplicate(db, i, now)
    case LatePromoteEvent(i, c) => LatePromote(db, i, c, now)
    case ArchiveDeadEvent => ArchiveDead(db, now)
  }

  function Tick(db: Db, delay: nat): Db {
    db.(clock := db.clock + delay)
  }

  /** One transaction, `delay` seconds after the previous one. */
  function Step(db: Db, e: Event, delay: nat): Db {
    Effect(Tick(db, delay), e, db.clock + delay)
  }

  datatype Timed = Timed(event: Event, delay: nat)

  function Run(db: Db, trace: seq<Timed>): Db {
    if trace == [] then db
    else Step(Run(db, trace[..|trace| - 1]), trace[|trace| - 1].event, trace[|trace| - 1].delay)
  }
}
