/** The leased inventory sync and the probes that run beside it, each write transaction as one
    step (app/services/proxiware.py, app/services/proxiware_qualification.py).

    A claim token is the index of the sync session it opened.  `writes` and `deleted` are
    history that no operation reads. */
module SyncModel {
  import opened Wrappers
  import opened Inventory

  datatype RunStatus = Queued | Running | Success | Failed | Canceled

  datatype SyncRun = SyncRun(status: RunStatus, token: Option<nat>, claimedUntil: Option<int>, cancelRequested: bool)

  /** One subscription as the provider lists it; None marks a missing or malformed field. */
  datatype RawSubscription = RawSubscription(externalId: Option<string>, id: Option<int>, status: string,
                                             expiresAt: Option<int>, eligibleCount: Option<int>)

  /** One proxy as the provider lists it; None marks an absent field. */
  datatype RawProxy = RawProxy(id: Option<string>, host: string, port: Option<int>, username: Option<string>, password: Option<string>,
                               status: Option<string>, qualification: Option<string>, eligible: Option<bool>, live: Option<string>,
                               exitIp: string)

  datatype Phase = Listing | Working | Finished

  /** A worker's pass: what it listed and fetched so far, and what it has seen. */
  datatype Sync = Sync(run: nat, lease: int, phase: Phase, listing: seq<RawSubscription>, answers: seq<seq<RawProxy>>,
                       seenSubs: set<string>, seen: set<string>, claimedAt: nat, deleted: set<string>)

  /** A probe of one assignment, with the identity it measures. */
  datatype Probe = Probe(id: nat, generation: nat, identity: Identity, token: Option<nat>, stage: ProbeStage)

  datatype ProbeStage = Measuring | Confirmed | Ended

  datatype Outcome = Outcome(live: string, qualification: string, exitIp: string, duplicate: bool, distribution: bool)

  datatype Site = Site(
    subscriptions: seq<Subscription>,
    assignments: Table,
    runs: seq<SyncRun>,
    syncs: seq<Sync>,
    probes: seq<Probe>,
    writes: seq<nat>,
    nextClaim: nat,
    clock: int)

  function Init(): Site {
    Site([], [], [], [], [], [], 0, 0)
  }

  // ----- Parsing -----

  predicate ValidSubscription(r: RawSubscription) {
    r.externalId.Some? && r.id.Some? && r.id.value > 0
  }

  predicate ValidProxy(r: RawProxy) {
    r.id.Some? && r.host != "" && r.port.Some? && 1 <= r.port.value <= 65535
  }

  // ----- Upserts -----

  function Or<T>(a: Option<T>, b: T): T {
    if a.Some? then a.value else b
  }

  function FindSubscription(subs: seq<Subscription>, n: nat, ext: string): (r: Option<nat>)
    requires n <= |subs|
    ensures r.Some? ==> r.value < n && subs[r.value].externalId == ext
    ensures r.None? <==> forall k :: 0 <= k < n ==> subs[k].externalId != ext
  {
    if n == 0 then None else if subs[n - 1].externalId == ext then Some(n - 1) else FindSubscription(subs, n - 1, ext)
  }

  function UpsertSubscription(subs: seq<Subscription>, r: RawSubscription, now: int): seq<Subscription>
    requires r.externalId.Some?
  {
    match FindSubscription(subs, |subs|, r.externalId.value)
    case None => subs + [Subscription(r.externalId.value, r.status, None, r.expiresAt, r.eligibleCount, Some(now), -1, 0)]
    case Some(k) => subs[k := subs[k].(status := r.status, expiresAt := r.expiresAt, eligibleCount := r.eligibleCount,
                                       lastSeen := Some(now), missingAt := None)]
  }

  function NewIdentity(r: RawProxy, was: Identity): Identity
    requires r.port.Some?
  {
    Identity(r.host, r.port.value, Or(r.username, was.username), Or(r.password, was.password))
  }

  function Inserted(r: RawProxy, sub: nat, now: int): Assignment
    requires ValidProxy(r)
  {
    Assignment(sub, r.id.value, NewIdentity(r, BLANK), 1, Or(r.status, "active"), Or(r.qualification, "pending"), Or(r.live, "pending"),
               r.exitIp, Or(r.eligible, false), false, false, "", None, None, None, "", Some(now), None, None, None)
  }

  /** The UPDATE of a known assignment; a changed identity drops everything measured on the old one. */
  function Refreshed(a: Assignment, r: RawProxy, sub: nat, now: int): Assignment
    requires ValidProxy(r)
  {
    var identity := NewIdentity(r, a.identity);
    var changed := identity != a.identity;
    var kept := if changed then WithoutDashboard(a).(exitIp := "", duplicateEgress := false, checkToken := None) else a;
    kept.(subscription := sub, identity := identity, generation := a.generation + (if changed then 1 else 0),
          status := Or(r.status, a.status),
          qualification := if changed then "pending" else Or(r.qualification, a.qualification),
          live := if changed then "pending" else Or(r.live, a.live),
          providerEligible := Or(r.eligible, a.providerEligible), lastSeen := Some(now), missingAt := None)
  }

  function UpsertProxy(t: Table, r: RawProxy, sub: nat, now: int): Table {
    if !ValidProxy(r) then t
    else
      match FindExternal(t, |t|, r.id.value)
      case None => t + [Some(Inserted(r, sub, now))]
      case Some(k) => t[k := Some(Refreshed(t[k].value, r, sub, now))]
  }

  /** The proxies of one subscription, in order; a repeated id is refreshed again. */
  function UpsertAll(t: Table, raws: seq<RawProxy>, sub: nat, now: int): Table {
    if raws == [] then t else UpsertProxy(UpsertAll(t, raws[..|raws| - 1], sub, now), raws[|raws| - 1], sub, now)
  }

  function IdsOf(raws: seq<RawProxy>): set<string> {
    if raws == [] then {}
    else IdsOf(raws[..|raws| - 1]) + (if ValidProxy(raws[|raws| - 1]) then {raws[|raws| - 1].id.value} else {})
  }

  /** Every valid proxy id of the valid subscriptions answered so far: the provider's valid listing. */
  function ListedIds(listing: seq<RawSubscription>, answers: seq<seq<RawProxy>>): set<string>
    requires |answers| <= |listing|
  {
    if answers == [] then {}
    else
      var k := |answers| - 1;
      ListedIds(listing, answers[..k]) + (if ValidSubscription(listing[k]) then IdsOf(answers[k]) else {})
  }

  function ListedSubs(listing: seq<RawSubscription>, n: nat): set<string>
    requires n <= |listing|
  {
    if n == 0 then {}
    else ListedSubs(listing, n - 1) + (if ValidSubscription(listing[n - 1]) then {listing[n - 1].externalId.value} else {})
  }

  function MarkMissing(t: Table, seen: set<string>, now: int): (r: Table)
  {
    seq(|t|, k requires 0 <= k < |t| =>
      if t[k].Some? && t[k].value.missingAt.None? && t[k].value.externalId !in seen
      then Some(t[k].value.(status := "missing", missingAt := Some(now))) else t[k])
  }

  function MarkMissingSubs(subs: seq<Subscription>, seen: set<string>, now: int): (r: seq<Subscription>)
  {
    seq(|subs|, k requires 0 <= k < |subs| =>
      if subs[k].missingAt.None? && subs[k].externalId !in seen
      then subs[k].(status := "missing", missingAt := Some(now)) else subs[k])
  }

  // ----- Runs and leases -----

  predicate AnyStatus(runs: seq<SyncRun>, st: RunStatus) {
    exists k :: 0 <= k < |runs| && runs[k].status == st
  }

  function Enqueue(s: Site, allowDuringRunning: bool): Site {
    if AnyStatus(s.runs, Queued) || (AnyStatus(s.runs, Running) && !allowDuringRunning) then s
    else s.(runs := s.runs + [SyncRun(Queued, None, None, false)])
  }

  function Expired(r: SyncRun, now: int): SyncRun {
    if r.status.Running? && (r.claimedUntil.None? || r.claimedUntil.value <= now)
    then r.(status := Failed, token := None, claimedUntil := None) else r
  }

  function Expire(runs: seq<SyncRun>, now: int): (r: seq<SyncRun>)
  {
    seq(|runs|, k requires 0 <= k < |runs| => Expired(runs[k], now))
  }

  function FirstQueued(runs: seq<SyncRun>, from: nat): (r: Option<nat>)
    requires from <= |runs|
    ensures r.Some? ==> from <= r.value < |runs| && runs[r.value].status.Queued?
    ensures r.Some? ==> forall k :: from <= k < r.value ==> !runs[k].status.Queued?
    ensures r.None? <==> forall k :: from <= k < |runs| ==> !runs[k].status.Queued?
    decreases |runs| - from
  {
    if from == |runs| then None else if runs[from].status.Queued? then Some(from) else FirstQueued(runs, from + 1)
  }

  function NewSync(run: nat, lease: int, claimedAt: nat): Sync {
    Sync(run, lease, Listing, [], [], {}, {}, claimedAt, {})
  }

  /** Fails expired leases, then takes the oldest queued run or a new one; a live run elsewhere undoes it all. */
  function ClaimRun(s: Site, seconds: int, create: bool): Site {
    var runs := Expire(s.runs, s.clock);
    var lease := Max(60, seconds);
    var claimed := SyncRun(Running, Some(|s.syncs|), Some(s.clock + lease), false);
    if AnyStatus(runs, Running) then s
    else
      match FirstQueued(runs, 0)
      case Some(k) =>
        s.(runs := runs[k := claimed.(cancelRequested := runs[k].cancelRequested)], syncs := s.syncs + [NewSync(k, lease, |s.writes|)])
      case None =>
        if create then s.(runs := runs + [claimed], syncs := s.syncs + [NewSync(|runs|, lease, |s.writes|)]) else s
  }

  function RequestCancel(s: Site, r: nat): Site {
    if r < |s.runs| && (s.runs[r].status.Queued? || s.runs[r].status.Running?) && !s.runs[r].cancelRequested
    then s.(runs := s.runs[r := s.runs[r].(cancelRequested := true, status := if s.runs[r].status.Queued? then Canceled else Running)])
    else s
  }

  predicate Owns(s: Site, y: nat) {
    && y < |s.syncs| && s.syncs[y].run < |s.runs|
    && s.runs[s.syncs[y].run].status.Running? && s.runs[s.syncs[y].run].token == Some(y)
    && s.runs[s.syncs[y].run].claimedUntil.Some? && s.runs[s.syncs[y].run].claimedUntil.value > s.clock
  }

  function SetSync(s: Site, y: nat, sync: Sync): Site
    requires y < |s.syncs|
  {
    s.(syncs := s.syncs[y := sync])
  }

  function Renewed(s: Site, y: nat): Site
    requires Owns(s, y)
  {
    s.(runs := s.runs[s.syncs[y].run := s.runs[s.syncs[y].run].(claimedUntil := Some(s.clock + s.syncs[y].lease))])
  }

  function Closed(r: SyncRun, st: RunStatus): SyncRun {
    r.(status := st, token := None, claimedUntil := None)
  }

  /** `_raise_if_sync_cancelled`. */
  function Guard(s: Site, y: nat): Site {
    if y >= |s.syncs| || s.syncs[y].phase.Finished? then s
    else if !Owns(s, y) then SetSync(s, y, s.syncs[y].(phase := Finished))
    else if s.runs[s.syncs[y].run].cancelRequested then
      SetSync(s.(runs := s.runs[s.syncs[y].run := Closed(s.runs[s.syncs[y].run], Canceled)]), y, s.syncs[y].(phase := Finished))
    else Renewed(s, y)
  }

  function ReceiveList(s: Site, y: nat, raws: seq<RawSubscription>): Site {
    if y < |s.syncs| && s.syncs[y].phase.Listing? then SetSync(s, y, s.syncs[y].(phase := Working, listing := raws)) else s
  }

  /** A transaction that ends `elapsed` seconds after it began still owns its renewed lease. */
  predicate InLease(s: Site, y: nat, elapsed: nat) {
    Owns(s, y) && elapsed < s.syncs[y].lease
  }

  function LoseLease(s: Site, y: nat): Site
    requires y < |s.syncs|
  {
    SetSync(s, y, s.syncs[y].(phase := Finished))
  }

  /** The next subscription of the listing: skipped when malformed, else upserted in one transaction. */
  function WriteNext(s: Site, y: nat, proxies: seq<RawProxy>, elapsed: nat): Site {
    if y >= |s.syncs| || !s.syncs[y].phase.Working? || |s.syncs[y].answers| >= |s.syncs[y].listing| then s
    else
      var sync := s.syncs[y];
      var raw := sync.listing[|sync.answers|];
      if !ValidSubscription(raw) then SetSync(s, y, sync.(answers := sync.answers + [[]]))
      else if !InLease(s, y, elapsed) then LoseLease(s, y)
      else
        var subs := UpsertSubscription(s.subscriptions, raw, s.clock);
        var sub := Or(FindSubscription(subs, |subs|, raw.externalId.value), 0);
        SetSync(Renewed(s, y), y, sync.(answers := sync.answers + [proxies], seenSubs := sync.seenSubs + {raw.externalId.value},
                                        seen := sync.seen + IdsOf(proxies)))
        .(subscriptions := subs, assignments := UpsertAll(s.assignments, proxies, sub, s.clock),
          writes := s.writes + [y], clock := s.clock + elapsed)
  }

  /** The final transaction: what was not listed goes missing and the run succeeds. */
  function Finish(s: Site, y: nat, elapsed: nat): Site {
    if y >= |s.syncs| || !s.syncs[y].phase.Working? || |s.syncs[y].answers| < |s.syncs[y].listing| then s
    else if !InLease(s, y, elapsed) then LoseLease(s, y)
    else
      var sync := s.syncs[y];
      SetSync(s, y, sync.(phase := Finished))
      .(runs := s.runs[sync.run := Closed(s.runs[sync.run], Success)],
        subscriptions := MarkMissingSubs(s.subscriptions, sync.seenSubs, s.clock),
        assignments := MarkMissing(s.assignments, sync.seen, s.clock),
        writes := s.writes + [y], clock := s.clock + elapsed)
  }

  /** Any other exception of the pass. */
  function Abort(s: Site, y: nat): Site {
    if y >= |s.syncs| || s.syncs[y].phase.Finished? then s
    else
      var r := s.syncs[y].run;
      var ended := SetSync(s, y, s.syncs[y].(phase := Finished));
      if r < |s.runs| && s.runs[r].status.Running? && s.runs[r].token == Some(y)
      then ended.(runs := s.runs[r := Closed(s.runs[r], Failed)]) else ended
  }

  // ----- Qualification -----

  function Claimed(a: Option<Assignment>, chosen: bool, token: nat): Option<Assignment> {
    if a.Some? && chosen && a.value.missingAt.None? then Some(a.value.(checkToken := Some(token))) else a
  }

  /** One batch claims the due rows among `ids` under one token. */
  function ClaimChecks(s: Site, ids: set<nat>): Site {
    s.(assignments := seq(|s.assignments|, k requires 0 <= k < |s.assignments| => Claimed(s.assignments[k], k in ids, s.nextClaim)),
       nextClaim := s.nextClaim + 1)
  }

  predicate TokenMatches(a: Assignment, token: Option<nat>) {
    token.Some? ==> a.checkToken == token
  }

  /** The row a probe measures, read with its generation. */
  function StartProbe(s: Site, id: nat, token: Option<nat>): Site {
    if Row(s.assignments, id) && s.assignments[id].value.missingAt.None? && TokenMatches(s.assignments[id].value, token)
    then
      var a := s.assignments[id].value;
      s.(probes := s.probes + [Probe(id, a.generation, a.identity, token, Measuring)])
    else s
  }

  predicate IdentityCurrent(s: Site, p: Probe) {
    && Row(s.assignments, p.id) && s.assignments[p.id].value.missingAt.None?
    && s.assignments[p.id].value.generation == p.generation && s.assignments[p.id].value.identity == p.identity
  }

  function SetStage(s: Site, k: nat, stage: ProbeStage): Site
    requires k < |s.probes|
  {
    s.(probes := s.probes[k := s.probes[k].(stage := stage)])
  }

  /** `_identity_is_current`. */
  function ConfirmIdentity(s: Site, k: nat): Site {
    if k >= |s.probes| || !s.probes[k].stage.Measuring? then s
    else SetStage(s, k, if IdentityCurrent(s, s.probes[k]) then Confirmed else Ended)
  }

  /** The guarded UPDATE matches: same row, same generation, same claim. */
  predicate Lands(s: Site, k: nat) {
    && k < |s.probes| && s.probes[k].stage.Confirmed?
    && Row(s.assignments, s.probes[k].id)
    && s.assignments[s.probes[k].id].value.generation == s.probes[k].generation
    && TokenMatches(s.assignments[s.probes[k].id].value, s.probes[k].token)
  }

  function StoreOutcome(s: Site, k: nat, o: Outcome): Site {
    if k >= |s.probes| || !s.probes[k].stage.Confirmed? then s
    else if !Lands(s, k) then SetStage(s, k, Ended)
    else
      var id := s.probes[k].id;
      SetStage(s, k, Ended).(assignments := s.assignments[id := Some(s.assignments[id].value.(
        live := o.live, qualification := o.qualification, exitIp := o.exitIp, duplicateEgress := o.duplicate,
        distribution := o.distribution, checkToken := None))])
  }

  // ----- Other writers -----

  /** What swaps, dashboard observation and duplicate detection do to the table: any column but
      id, subscription, listing and generation; an identity only by blanking it; and deletion. */
  ghost predicate TableStep(t: Table, u: Table) {
    && |u| == |t|
    && forall k :: 0 <= k < |t| ==>
         && (t[k].None? ==> u[k].None?)
         && (u[k].Some? ==>
               && u[k].value.externalId == t[k].value.externalId && u[k].value.generation == t[k].value.generation
               && u[k].value.subscription == t[k].value.subscription
               && u[k].value.missingAt == t[k].value.missingAt
               && (u[k].value.identity == t[k].value.identity || u[k].value.identity == BLANK))
  }

  /** External ids of rows that are in `t` and no longer in `u`. */
  function Gone(t: Table, u: Table): set<string>
    requires |u| == |t|
  {
    set k | 0 <= k < |t| && t[k].Some? && u[k].None? :: t[k].value.externalId
  }

  function WithDeleted(syncs: seq<Sync>, gone: set<string>): (r: seq<Sync>)
  {
    seq(|syncs|, k requires 0 <= k < |syncs| => syncs[k].(deleted := syncs[k].deleted + gone))
  }

  /** And to subscriptions: neither which there are nor whether they are missing. */
  ghost predicate SubscriptionsStep(subs: seq<Subscription>, out: seq<Subscription>) {
    |out| == |subs| && forall k :: 0 <= k < |subs| ==> out[k].externalId == subs[k].externalId && out[k].missingAt == subs[k].missingAt
  }

  ghost function Others(s: Site, subs: seq<Subscription>, u: Table): Site {
    if TableStep(s.assignments, u) && SubscriptionsStep(s.subscriptions, subs)
    then s.(subscriptions := subs, assignments := u, syncs := WithDeleted(s.syncs, Gone(s.assignments, u)))
    else s
  }

  // ----- Runs -----

  datatype Event =
    | Tick(delay: nat)
    | EnqueueEvent(allowDuringRunning: bool)
    | ClaimEvent(seconds: int, create: bool)
    | CancelEvent(r: nat)
    | GuardEvent(y: nat)
    | ListEvent(y: nat, raws: seq<RawSubscription>)
    | WriteEvent(y: nat, proxies: seq<RawProxy>, elapsed: nat)
    | FinishEvent(y: nat, elapsed: nat)
    | AbortEvent(y: nat)
    | ClaimChecksEvent(ids: set<nat>)
    | ProbeEvent(id: nat, token: Option<nat>)
    | ConfirmEvent(k: nat)
    | OutcomeEvent(k: nat, o: Outcome)
    | OthersEvent(subs: seq<Subscription>, u: Table)

  ghost function Step(s: Site, e: Event): Site {
    match e
    case Tick(delay) => s.(clock := s.clock + delay)
    case EnqueueEvent(allow) => Enqueue(s, allow)
    case ClaimEvent(seconds, create) => ClaimRun(s, seconds, create)
    case CancelEvent(r) => RequestCancel(s, r)
    case GuardEvent(y) => Guard(s, y)
    case ListEvent(y, raws) => ReceiveList(s, y, raws)
    case WriteEvent(y, proxies, elapsed) => WriteNext(s, y, proxies, elapsed)
    case FinishEvent(y, elapsed) => Finish(s, y, elapsed)
    case AbortEvent(y) => Abort(s, y)
    case ClaimChecksEvent(ids) => ClaimChecks(s, ids)
    case ProbeEvent(id, token) => StartProbe(s, id, token)
    case ConfirmEvent(k) => ConfirmIdentity(s, k)
    case OutcomeEvent(k, o) => StoreOutcome(s, k, o)
    case OthersEvent(subs, u) => Others(s, subs, u)
  }

  ghost function Run(s: Site, trace: seq<Event>): Site {
    if trace == [] then s else Step(Run(s, trace[..|trace| - 1]), trace[|trace| - 1])
  }
}
