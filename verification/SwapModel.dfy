/** The swap queue: leases, the mutation fence, read-only reconciliation, quota and requeues
    (app/services/proxiware_swap.py, app/proxiware_swap_service.py).

    A claim token is the index of the worker session it opened.  `calls`, `entries` and
    `requeues` are history counters that no operation reads. */
module SwapModel {
  import opened Wrappers
  import opened Inventory

  const CONNECTION_LIMIT := 1000
  const RECHECK_SECONDS := 30

  datatype State = Pending | Running | Mutating | Applied | Reconciling | Success | Blocked | Canceled

  datatype Address = Address(host: string, port: Option<int>)

  datatype AddressText = Empty | Invalid | Valid(address: Address)

  datatype Job = Job(
    subscription: nat,
    assignment: nat,
    replacement: Option<nat>,
    state: State,
    attempts: nat,
    token: Option<nat>,
    claimedUntil: Option<int>,
    createdAt: int,
    startedAt: Option<int>,
    appliedAt: Option<int>,
    oldExternal: string,
    oldHost: string,
    oldPort: int,
    dashboardId: string,
    newExternal: string,
    newAddress: Option<Address>,
    calls: nat,
    entries: nat,
    requeues: nat)

  datatype Mapping = Mapping(job: nat, oldExternal: string, newExternal: string, at: int)

  /** Where a worker stands around the provider call. */
  datatype Phase = Claimed | Entered | Checked | Called | Finished

  datatype Session = Session(job: nat, phase: Phase)

  /** What a reconciliation pass read about one job before acting on it. */
  datatype Reading = Reading(job: nat, seen: Job)

  /** What a reconciliation pass concluded, from the job as it had read it and the tables as they
      were later, before its write transaction. */
  datatype Finding = NoChange(job: nat, seen: Job) | Replaced(job: nat, seen: Job, external: string)

  datatype Settings = Settings(
    autoSwap: bool, automationPaused: bool, workerPaused: bool,
    threshold: int, maxAge: int, retryLimit: int, cooldown: int)

  datatype Board = Board(
    settings: Settings,
    subscriptions: seq<Subscription>,
    assignments: Table,
    jobs: seq<Job>,
    mappings: seq<Mapping>,
    sessions: seq<Session>,
    readings: seq<Reading>,
    findings: seq<Finding>,
    clock: int)

  datatype Reason =
    | ManualAction | NotLive | Duplicate | NotRisk | ProviderIneligible | DashboardStale
    | ConnectionsLimit | QuotaExhausted | Cooldown | MutationInProgress

  datatype Decision = Allowed | Refused(reason: Reason)

  function Init(settings: Settings): Board {
    Board(settings, [], [], [], [], [], [], [], 0)
  }

  // ----- Job states -----

  predicate InMutation(s: State) {
    s.Mutating? || s.Applied? || s.Reconciling?
  }

  predicate Busy(s: State) {
    s.Running? || InMutation(s)
  }

  predicate Live(s: State) {
    s.Pending? || Busy(s)
  }

  function CountLive(jobs: seq<Job>, sub: nat, skip: Option<nat>): nat {
    if jobs == [] then 0
    else
      var k := |jobs| - 1;
      CountLive(jobs[..k], sub, skip) + (if jobs[k].subscription == sub && Live(jobs[k].state) && skip != Some(k) then 1 else 0)
  }

  function CountMutations(jobs: seq<Job>, sub: nat): nat {
    if jobs == [] then 0
    else
      var k := |jobs| - 1;
      CountMutations(jobs[..k], sub) + (if jobs[k].subscription == sub && InMutation(jobs[k].state) then 1 else 0)
  }

  function CountSuccesses(jobs: seq<Job>, sub: nat): nat {
    if jobs == [] then 0
    else
      var k := |jobs| - 1;
      CountSuccesses(jobs[..k], sub) + (if jobs[k].subscription == sub && jobs[k].state.Success? then 1 else 0)
  }

  // ----- The swap decision -----

  function MaxAge(s: Settings): int {
    Max(60, s.maxAge)
  }

  predicate FreshAt(s: Settings, at: Option<int>, now: int) {
    at.Some? && now - at.value <= MaxAge(s) && at.value - now <= 60
  }

  predicate EligibleRow(b: Board, sub: nat, a: Assignment) {
    && a.subscription == sub && InService(a) && a.missingAt.None?
    && a.dashboardEligible == Some(true) && FreshAt(b.settings, a.observedAt, b.clock)
  }

  function CountEligible(b: Board, sub: nat, n: nat): nat
    requires n <= |b.assignments|
  {
    if n == 0 then 0
    else CountEligible(b, sub, n - 1) + (if b.assignments[n - 1].Some? && EligibleRow(b, sub, b.assignments[n - 1].value) then 1 else 0)
  }

  function EligibleCount(b: Board, sub: nat): int
    requires sub < |b.subscriptions|
  {
    if b.subscriptions[sub].eligibleCount.Some? then b.subscriptions[sub].eligibleCount.value
    else CountEligible(b, sub, |b.assignments|)
  }

  function QuotaLeft(b: Board, sub: nat, exclude: Option<nat>): bool
    requires sub < |b.subscriptions|
  {
    var s := b.subscriptions[sub];
    s.quota < 0 || s.used + CountLive(b.jobs, sub, exclude) < s.quota
  }

  /** The subscription must be active and unexpired. */
  function SubscriptionReason(b: Board, sub: nat): Option<Reason> {
    if sub >= |b.subscriptions| then Some(ManualAction)
    else
      var s := b.subscriptions[sub];
      if !(s.status == "active" || s.status == "ready") || s.missingAt.Some? then Some(ManualAction)
      else if s.expiresAt.Some? && s.expiresAt.value <= b.clock then Some(ManualAction)
      else None
  }

  /** The assignment must be a live, unduplicated risk the provider would swap. */
  function RowReason(t: Table, sub: nat, id: nat): (r: Option<Reason>)
    ensures r.None? ==> Row(t, id)
  {
    if !Row(t, id) then Some(ManualAction)
    else
      var a := t[id].value;
      if a.subscription != sub || !InService(a) || a.missingAt.Some? then Some(ManualAction)
      else if !(a.live == "live" || a.live == "online") then Some(NotLive)
      else if a.duplicateEgress then Some(Duplicate)
      else if a.qualification != "risk" then Some(NotRisk)
      else if !a.providerEligible then Some(ProviderIneligible)
      else None
  }

  /** The dashboard must have shown it recently, eligible and below the connection limit. */
  function DashboardReason(s: Settings, a: Assignment, now: int): Option<Reason> {
    if a.dashboardId == "" || !FreshAt(s, a.observedAt, now) then Some(DashboardStale)
    else if a.dashboardEligible.None? then Some(DashboardStale)
    else if !a.dashboardEligible.value then Some(ProviderIneligible)
    else if a.connections.None? || a.connections.value < 0 then Some(DashboardStale)
    else if a.connections.value >= CONNECTION_LIMIT then Some(ConnectionsLimit)
    else None
  }

  function LimitReason(b: Board, sub: nat, readyAt: Option<int>, exclude: Option<nat>): Option<Reason>
    requires sub < |b.subscriptions|
  {
    if b.subscriptions[sub].eligibleCount.None? && EligibleCount(b, sub) <= 0 then Some(ManualAction)
    else if EligibleCount(b, sub) >= Max(1, b.settings.threshold) then Some(ProviderIneligible)
    else if !QuotaLeft(b, sub, exclude) then Some(QuotaExhausted)
    else if readyAt.Some? && readyAt.value > b.clock then Some(Cooldown)
    else None
  }

  /** `SwapDecision.for_subscription` for a named assignment: the first guard that fails gives the reason. */
  function Decide(b: Board, sub: nat, id: nat, exclude: Option<nat>): Decision {
    if SubscriptionReason(b, sub).Some? then Refused(SubscriptionReason(b, sub).value)
    else if RowReason(b.assignments, sub, id).Some? then Refused(RowReason(b.assignments, sub, id).value)
    else
      var a := b.assignments[id].value;
      if DashboardReason(b.settings, a, b.clock).Some? then Refused(DashboardReason(b.settings, a, b.clock).value)
      else if LimitReason(b, sub, a.readyAt, exclude).Some? then Refused(LimitReason(b, sub, a.readyAt, exclude).value)
      else Allowed
  }

  // ----- Queueing and claiming -----

  function SetJob(b: Board, j: nat, q: Job): Board
    requires j < |b.jobs|
  {
    b.(jobs := b.jobs[j := q])
  }

  function SetPhase(b: Board, s: nat, phase: Phase): Board
    requires s < |b.sessions|
  {
    b.(sessions := b.sessions[s := b.sessions[s].(phase := phase)])
  }

  /** Another live job holds the same assignment: the partial unique index. */
  predicate AssignmentTaken(jobs: seq<Job>, id: nat, skip: Option<nat>) {
    exists k: nat :: k < |jobs| && skip != Some(k) && jobs[k].assignment == id && Live(jobs[k].state)
  }

  predicate MayQueue(b: Board, id: nat) {
    && b.settings.autoSwap && !b.settings.automationPaused && !b.settings.workerPaused
    && Row(b.assignments, id)
    && Decide(b, b.assignments[id].value.subscription, id, None).Allowed?
    && !AssignmentTaken(b.jobs, id, None)
  }

  function NewJob(sub: nat, id: nat, now: int): Job {
    Job(sub, id, None, Pending, 0, None, None, now, None, None, "", "", 0, "", "", None, 0, 0, 0)
  }

  /** One candidate of `queue_eligible_swaps`. */
  function QueueOne(b: Board, id: nat): Board {
    if MayQueue(b, id) then b.(jobs := b.jobs + [NewJob(b.assignments[id].value.subscription, id, b.clock)]) else b
  }

  /** The candidates of one batch, in order; each sees the jobs queued before it. */
  function QueueAll(b: Board, ids: seq<nat>): Board {
    if ids == [] then b else QueueOne(QueueAll(b, ids[..|ids| - 1]), ids[|ids| - 1])
  }

  function Reclaimed(p: Job, now: int): Job {
    if p.state.Running? && p.claimedUntil.Some? && p.claimedUntil.value <= now
    then p.(state := Pending, token := None, claimedUntil := None) else p
  }

  /** Leases abandoned by crashed workers go back to the queue. */
  function Reclaim(jobs: seq<Job>, now: int): (r: seq<Job>)
  {
    seq(|jobs|, k requires 0 <= k < |jobs| => Reclaimed(jobs[k], now))
  }

  predicate SiblingBusy(jobs: seq<Job>, j: nat)
    requires j < |jobs|
  {
    exists k: nat :: k < |jobs| && k != j && jobs[k].subscription == jobs[j].subscription && Busy(jobs[k].state)
  }

  predicate Claimable(jobs: seq<Job>, j: nat, now: int)
    requires j < |jobs|
  {
    jobs[j].state.Pending? && (jobs[j].claimedUntil.None? || jobs[j].claimedUntil.value <= now) && !SiblingBusy(jobs, j)
  }

  /** ORDER BY created_at, id LIMIT 1 over the first `n` jobs. */
  function FirstClaimable(jobs: seq<Job>, n: nat, now: int): (r: Option<nat>)
    requires n <= |jobs|
    ensures r.Some? ==> r.value < n && Claimable(jobs, r.value, now)
    ensures r.None? <==> forall k: nat :: k < n ==> !Claimable(jobs, k, now)
    ensures r.Some? ==> forall k: nat :: k < n && Claimable(jobs, k, now) ==>
                                           jobs[r.value].createdAt < jobs[k].createdAt
                                           || (jobs[r.value].createdAt == jobs[k].createdAt && r.value <= k)
  {
    if n == 0 then None
    else
      var r := FirstClaimable(jobs, n - 1, now);
      if Claimable(jobs, n - 1, now) && (r.None? || jobs[n - 1].createdAt < jobs[r.value].createdAt) then Some(n - 1) else r
  }

  function Pick(jobs: seq<Job>, wanted: Option<nat>, now: int): (r: Option<nat>)
    ensures r.Some? ==> r.value < |jobs| && Claimable(jobs, r.value, now)
  {
    if wanted.None? then FirstClaimable(jobs, |jobs|, now)
    else if wanted.value < |jobs| && Claimable(jobs, wanted.value, now) then wanted
    else None
  }

  function Claim(b: Board, wanted: Option<nat>, seconds: int): Board {
    var jobs := Reclaim(b.jobs, b.clock);
    match Pick(jobs, wanted, b.clock)
    case None => b.(jobs := jobs)
    case Some(j) =>
      b.(jobs := jobs[j := jobs[j].(state := Running, token := Some(|b.sessions|), claimedUntil := Some(b.clock + Max(30, seconds)),
                                    attempts := jobs[j].attempts + 1)],
         sessions := b.sessions + [Session(j, Claimed)])
  }

  // ----- Revalidation and the mutation fence -----

  predicate Gated(s: Settings, manual: bool) {
    (s.automationPaused && !manual) || s.workerPaused || (!manual && !s.autoSwap)
  }

  function Verdict(b: Board, j: nat, manual: bool): Decision
    requires j < |b.jobs|
  {
    if Gated(b.settings, manual) then Refused(ManualAction)
    else if SiblingBusy(b.jobs, j) then Refused(MutationInProgress)
    else Decide(b, b.jobs[j].subscription, b.jobs[j].assignment, Some(j))
  }

  /** The session's job, if the claim is not stale; entering the mutation also needs an unexpired lease. */
  predicate HoldsClaim(b: Board, s: nat, enter: bool) {
    && s < |b.sessions| && b.sessions[s].job < |b.jobs|
    && b.jobs[b.sessions[s].job].token == Some(s) && b.jobs[b.sessions[s].job].state.Running?
    && (enter ==> b.jobs[b.sessions[s].job].claimedUntil.Some? && b.jobs[b.sessions[s].job].claimedUntil.value > b.clock)
  }

  predicate IdentityKnown(b: Board, j: nat)
    requires j < |b.jobs|
  {
    && Row(b.assignments, b.jobs[j].assignment) && b.assignments[b.jobs[j].assignment].value.externalId != ""
    && b.assignments[b.jobs[j].assignment].value.dashboardId != ""
    && b.jobs[j].subscription < |b.subscriptions| && b.subscriptions[b.jobs[j].subscription].externalId != ""
  }

  /** running -> mutating: a fence no lease expiry can reopen. */
  function Enter(b: Board, s: nat, j: nat): Board
    requires j < |b.jobs| && s < |b.sessions| && Row(b.assignments, b.jobs[j].assignment)
  {
    var p, a := b.jobs[j], b.assignments[b.jobs[j].assignment].value;
    b.(jobs := b.jobs[j := p.(state := Mutating, startedAt := Some(b.clock), claimedUntil := None,
                              oldExternal := a.externalId, oldHost := a.identity.host, oldPort := a.identity.port,
                              dashboardId := a.dashboardId, entries := p.entries + 1)],
       assignments := b.assignments[p.assignment := Some(WithoutDashboard(a))],
       sessions := b.sessions[s := b.sessions[s].(phase := Entered)])
  }

  function Revalidate(b: Board, s: nat, manual: bool, enter: bool): Board {
    if !HoldsClaim(b, s, enter) || !b.sessions[s].phase.Claimed? then b
    else
      var j := b.sessions[s].job;
      var verdict := Verdict(b, j, manual);
      if verdict.Allowed? then
        if enter && IdentityKnown(b, j) then Enter(b, s, j) else b
      else if verdict.reason.DashboardStale? && !manual then
        SetJob(b, j, b.jobs[j].(state := Pending, token := None, claimedUntil := Some(b.clock + RECHECK_SECONDS)))
      else
        SetJob(b, j, b.jobs[j].(state := Blocked, token := None, claimedUntil := None))
  }

  // ----- Around the provider call -----

  predicate Fenced(b: Board, s: nat) {
    && s < |b.sessions| && b.sessions[s].job < |b.jobs|
    && b.jobs[b.sessions[s].job].state.Mutating? && b.jobs[b.sessions[s].job].token == Some(s)
  }

  /** The SELECT of the fenced job before the call. */
  function CheckFence(b: Board, s: nat): Board {
    if s < |b.sessions| && b.sessions[s].phase.Entered? && Fenced(b, s) then SetPhase(b, s, Checked) else b
  }

  /** The one place where the provider is asked to swap. */
  function Call(b: Board, s: nat): Board {
    if s < |b.sessions| && b.sessions[s].phase.Checked? && b.sessions[s].job < |b.jobs|
    then
      var j := b.sessions[s].job;
      SetPhase(SetJob(b, j, b.jobs[j].(calls := b.jobs[j].calls + 1)), s, Called)
    else b
  }

  predicate AppliedRefused(b: Board, s: nat, oldExt: string, newExt: string, address: AddressText) {
    || oldExt == "" || (newExt == "" && address.Empty?) || oldExt == newExt || address.Invalid?
    || !Fenced(b, s)
    || (b.jobs[b.sessions[s].job].oldExternal != "" && b.jobs[b.sessions[s].job].oldExternal != oldExt)
    || (var found := FindExternal(b.assignments, |b.assignments|, oldExt);
        found.None? || b.assignments[found.value].value.subscription != b.jobs[b.sessions[s].job].subscription
        || found.value != b.jobs[b.sessions[s].job].assignment)
    || (var replacement := FindExternal(b.assignments, |b.assignments|, newExt);
        newExt != "" && replacement.Some?
        && b.assignments[replacement.value].value.subscription != b.jobs[b.sessions[s].job].subscription)
  }

  function ClearRow(t: Table, id: nat): Table
    requires Row(t, id)
  {
    t[id := Some(WithoutDashboard(t[id].value))]
  }

  function BlankExternal(t: Table, ext: string): Table {
    var found := FindExternal(t, |t|, ext);
    if ext != "" && found.Some? then t[found.value := Some(Blanked(t[found.value].value))] else t
  }

  function MarkApplied(b: Board, s: nat, oldExt: string, newExt: string, address: AddressText): Board {
    if s >= |b.sessions| || !b.sessions[s].phase.Called? || AppliedRefused(b, s, oldExt, newExt, address) then b
    else
      var j := b.sessions[s].job;
      SetJob(b, j, b.jobs[j].(state := Applied, appliedAt := Some(b.clock), oldExternal := oldExt, newExternal := newExt,
                              newAddress := if address.Valid? then Some(address.address) else None, claimedUntil := None))
      .(assignments := BlankExternal(ClearRow(b.assignments, b.jobs[j].assignment), newExt))
  }

  /** Freezes an uncertain mutation and stops automatic swapping. */
  function Freeze(b: Board, j: nat, token: Option<nat>): Board {
    if j < |b.jobs| && InMutation(b.jobs[j].state) && token.Some? && b.jobs[j].token == token
    then SetJob(b, j, b.jobs[j].(state := Reconciling, claimedUntil := None)).(settings := b.settings.(autoSwap := false))
    else b
  }

  /** The worker's exception path once the mutation was entered. */
  function Uncertain(b: Board, s: nat): Board {
    if s < |b.sessions| && (b.sessions[s].phase.Entered? || b.sessions[s].phase.Checked? || b.sessions[s].phase.Called?)
    then SetPhase(Freeze(b, b.sessions[s].job, Some(s)), s, Finished)
    else b
  }

  // ----- Read-only reconciliation -----

  /** The SELECT at the start of a reconciliation pass, for one job. */
  function ReadJob(b: Board, j: nat): Board {
    if j < |b.jobs| && (b.jobs[j].state.Applied? || b.jobs[j].state.Reconciling?)
    then b.(readings := b.readings + [Reading(j, b.jobs[j])])
    else b
  }

  /** A pass that cannot finish an applied job freezes it with the token it read. */
  function FreezeRead(b: Board, r: nat): Board {
    if r < |b.readings| then Freeze(b, b.readings[r].job, b.readings[r].seen.token) else b
  }

  datatype Trouble = Waiting | Rejected

  function MutationTime(p: Job): Option<int> {
    if p.appliedAt.Some? then p.appliedAt else p.startedAt
  }

  predicate AtAddress(a: Assignment, at: Address) {
    a.identity.host == at.host && (at.port.None? || a.identity.port == at.port.value)
  }

  predicate AddressCandidate(b: Board, p: Job, at: Address, since: int, id: nat) {
    && Row(b.assignments, id) && id != p.assignment
    && (var a := b.assignments[id].value;
        && a.subscription == p.subscription && AtAddress(a, at) && a.missingAt.None? && a.status != "replaced"
        && a.lastSeen.Some? && a.lastSeen.value > since)
  }

  /** The candidates among the first `n` rows, in id order. */
  function AddressCandidates(b: Board, p: Job, at: Address, since: int, n: nat): (r: seq<nat>)
    requires n <= |b.assignments|
    ensures forall k :: 0 <= k < |r| ==> r[k] < n && AddressCandidate(b, p, at, since, r[k])
    ensures forall id: nat :: id < n && AddressCandidate(b, p, at, since, id) ==> id in r
  {
    if n == 0 then []
    else AddressCandidates(b, p, at, since, n - 1) + (if AddressCandidate(b, p, at, since, n - 1) then [n - 1] else [])
  }

  /** The replacement row: by the provider's id if it gave one, else the one fresh row at its address. */
  function Replacement(b: Board, p: Job, since: int): (r: Result<nat, Trouble>)
    ensures r.Ok? ==> Row(b.assignments, r.value)
  {
    if p.newExternal != "" then
      var found := FindExternal(b.assignments, |b.assignments|, p.newExternal);
      if found.None? then Err(Waiting)
      else if p.newAddress.Some? && !AtAddress(b.assignments[found.value].value, p.newAddress.value) then Err(Waiting)
      else Ok(found.value)
    else if p.newAddress.None? then Err(Waiting)
    else
      var candidates := AddressCandidates(b, p, p.newAddress.value, since, |b.assignments|);
      if |candidates| == 1 then Ok(candidates[0]) else Err(Waiting)
  }

  /** What the official sync and the dashboard must have shown about a replacement after the mutation. */
  function Evidence(b: Board, p: Job, a: Assignment, since: int): Result<bool, Trouble> {
    if a.externalId == "" || a.externalId == p.oldExternal || a.subscription != p.subscription then Err(Rejected)
    else if a.lastSeen.None? || a.observedAt.None? || a.lastSeen.value <= since || a.observedAt.value <= since then Err(Waiting)
    else if a.dashboardSource != DASHBOARD || a.dashboardId == "" then Err(Rejected)
    else if !FreshAt(b.settings, a.observedAt, b.clock) then Err(Waiting)
    else if a.identity.host == "" || a.identity.port <= 0 || a.identity.username == "" || a.identity.password == "" then Err(Waiting)
    else Ok(true)
  }

  /** What is wrong with the job itself, before any assignment is read. */
  function JobTrouble(p: Job, oldExt: string, newExt: string, address: AddressText, token: Option<nat>): Option<Trouble> {
    if oldExt == "" || !(p.state.Applied? || p.state.Reconciling?) then Some(Rejected)
    else if token.None? || p.token != token || p.oldExternal != oldExt then Some(Rejected)
    else if newExt != "" && ((p.newExternal != "" && p.newExternal != newExt) || newExt == oldExt) then Some(Rejected)
    else if !address.Empty? && p.newAddress.Some? && (address.Invalid? || address.address != p.newAddress.value) then Some(Rejected)
    else if p.newExternal == "" && p.newAddress.None? then Some(Waiting)
    else None
  }

  /** The checks of `mark_swap_success`, giving the replacement row. */
  function Finalizable(b: Board, j: nat, oldExt: string, newExt: string, address: AddressText, token: Option<nat>): (r: Result<nat, Trouble>)
    ensures r.Ok? ==> Row(b.assignments, r.value)
  {
    if j >= |b.jobs| then Err(Rejected)
    else
      var p := b.jobs[j];
      var trouble := JobTrouble(p, oldExt, newExt, address, token);
      if trouble.Some? then Err(trouble.value)
      else
        var found := FindExternal(b.assignments, |b.assignments|, oldExt);
        if found.None? || b.assignments[found.value].value.subscription != p.subscription || found.value != p.assignment then Err(Rejected)
        else if MutationTime(p).None? then Err(Waiting)
        else
          var replacement := Replacement(b, p, MutationTime(p).value);
          if replacement.Err? then replacement
          else
            var evidence := Evidence(b, p, b.assignments[replacement.value].value, MutationTime(p).value);
            if evidence.Err? then Err(evidence.error) else replacement
  }

  function Finalized(b: Board, j: nat, id: nat): Board
    requires j < |b.jobs| && Row(b.assignments, id) && b.jobs[j].assignment < |b.assignments|
  {
    var p, a := b.jobs[j], b.assignments[id].value;
    var since := if MutationTime(p).Some? then MutationTime(p).value else b.clock;
    var ready := Max(b.clock, since) + Max(60, b.settings.cooldown);
    b.(jobs := b.jobs[j := p.(state := Success, replacement := Some(id), token := None, claimedUntil := None)],
       assignments := b.assignments[id := Some(a.(readyAt := Some(ready), status := "active", qualification := "pending",
                                                  live := "pending", checkToken := None, distribution := false))]
                                   [p.assignment := None],
       mappings := b.mappings + [Mapping(j, p.oldExternal, a.externalId, b.clock)],
       subscriptions := if p.subscription < |b.subscriptions|
                        then b.subscriptions[p.subscription := b.subscriptions[p.subscription].(used := b.subscriptions[p.subscription].used + 1)]
                        else b.subscriptions)
  }

  function Finalize(b: Board, j: nat, oldExt: string, newExt: string, address: AddressText, token: Option<nat>): Board {
    match Finalizable(b, j, oldExt, newExt, address, token)
    case Err(_) => b
    case Ok(id) => if b.jobs[j].assignment < |b.assignments| then Finalized(b, j, id) else b
  }

  predicate Fresher(b: Board, a: Assignment, since: int) {
    && a.lastSeen.Some? && a.observedAt.Some? && a.lastSeen.value > since && a.observedAt.value > since
    && a.dashboardSource == DASHBOARD
  }

  predicate Covering(b: Board, a: Assignment, since: int) {
    Fresher(b, a, since) && FreshAt(b.settings, a.observedAt, b.clock) && FreshAt(b.settings, a.lastSeen, b.clock)
  }

  predicate Listed(b: Board, sub: nat, id: nat) {
    && Row(b.assignments, id) && b.assignments[id].value.subscription == sub
    && b.assignments[id].value.missingAt.None? && InService(b.assignments[id].value)
  }

  /** A dashboard snapshot newer than the mutation shows every listed row of the subscription. */
  predicate SnapshotCovers(b: Board, sub: nat, since: int) {
    && (exists id: nat :: id < |b.assignments| && Listed(b, sub, id))
    && forall id: nat :: id < |b.assignments| && Listed(b, sub, id) ==> Covering(b, b.assignments[id].value, since)
  }

  predicate ValidEndpoint(host: string, port: int) {
    host != "" && 1 <= port <= 65535
  }

  predicate Unchanged(b: Board, p: Job) {
    var found := FindExternal(b.assignments, |b.assignments|, p.oldExternal);
    && MutationTime(p).Some? && p.oldExternal != "" && p.dashboardId != "" && ValidEndpoint(p.oldHost, p.oldPort)
    && SnapshotCovers(b, p.subscription, MutationTime(p).value)
    && found.Some?
    && (var a := b.assignments[found.value].value;
        && a.missingAt.None? && a.status != "replaced" && a.identity.host == p.oldHost && a.identity.port == p.oldPort
        && a.dashboardId == p.dashboardId && a.dashboardSource == DASHBOARD)
  }

  /** The UPDATE that closes an uncertain job (app/services/proxiware_swap.py:1639-1646). */
  function Close(b: Board, j: nat): Board {
    if j < |b.jobs| && b.jobs[j].state.Reconciling?
    then SetJob(b, j, b.jobs[j].(state := Blocked, token := None, claimedUntil := None))
    else b
  }

  /** Closes an uncertain job when later evidence shows the provider changed nothing. */
  function CloseUnchanged(b: Board, j: nat): Board {
    if j < |b.jobs| && Unchanged(b, b.jobs[j]) then Close(b, j) else b
  }

  predicate Inferable(b: Board, p: Job, since: int, id: nat) {
    && Row(b.assignments, id) && Listed(b, p.subscription, id)
    && b.assignments[id].value.externalId != p.oldExternal && b.assignments[id].value.dashboardId == p.dashboardId
    && Fresher(b, b.assignments[id].value, since)
  }

  function InferCandidates(b: Board, p: Job, since: int, n: nat): (r: seq<nat>)
    requires n <= |b.assignments|
    ensures forall k :: 0 <= k < |r| ==> r[k] < n && Inferable(b, p, since, r[k])
    ensures forall id: nat :: id < n && Inferable(b, p, since, id) ==> id in r
  {
    if n == 0 then []
    else InferCandidates(b, p, since, n - 1) + (if Inferable(b, p, since, n - 1) then [n - 1] else [])
  }

  /** The old row is gone from the listing and the subscription itself was seen since. */
  predicate OldGone(b: Board, p: Job, since: int) {
    var found := FindExternal(b.assignments, |b.assignments|, p.oldExternal);
    && (found.None? || b.assignments[found.value].value.missingAt.Some? || b.assignments[found.value].value.status == "replaced")
    && p.subscription < |b.subscriptions| && b.subscriptions[p.subscription].lastSeen.Some?
    && b.subscriptions[p.subscription].lastSeen.value > since
  }

  function Inferred(b: Board, p: Job): (r: Option<nat>)
    ensures r.Some? ==> MutationTime(p).Some? && Inferable(b, p, MutationTime(p).value, r.value)
  {
    if MutationTime(p).None? || p.oldExternal == "" || p.dashboardId == "" then None
    else
      var since := MutationTime(p).value;
      var candidates := InferCandidates(b, p, since, |b.assignments|);
      if OldGone(b, p, since) && SnapshotCovers(b, p.subscription, since) && |candidates| == 1 then Some(candidates[0]) else None
  }

  /** The UPDATE that records a replacement (app/services/proxiware_swap.py:1707-1712). */
  function Note(b: Board, j: nat, external: string): Board {
    if j < |b.jobs| && b.jobs[j].state.Reconciling? && b.jobs[j].newExternal == "" && b.jobs[j].newAddress.None?
    then SetJob(b, j, b.jobs[j].(newExternal := external))
    else b
  }

  /** Records the one replacement later evidence points to. */
  function Infer(b: Board, j: nat): Board {
    if j < |b.jobs| && Inferred(b, b.jobs[j]).Some?
    then Note(b, j, b.assignments[Inferred(b, b.jobs[j]).value].value.externalId)
    else b
  }

  /** The evidence is judged by the columns a pass read before, and outside its write transaction,
      so other steps may come in between on both sides. */
  function Find(b: Board, r: nat): Board {
    if r >= |b.readings| then b
    else
      var j, p := b.readings[r].job, b.readings[r].seen;
      b.(findings := b.findings + (if Unchanged(b, p) then [NoChange(j, p)] else [])
                     + (if Inferred(b, p).Some? then [Replaced(j, p, b.assignments[Inferred(b, p).value].value.externalId)] else []))
  }

  /** The write that follows a finding. */
  function ActOn(b: Board, f: nat): Board {
    if f >= |b.findings| then b
    else
      match b.findings[f]
      case NoChange(j, _) => Close(b, j)
      case Replaced(j, _, external) => Note(b, j, external)
  }

  // ----- Failures and the administrator -----

  function MarkBlocked(b: Board, j: nat, manualCode: bool, token: Option<nat>): Board {
    if j < |b.jobs| && (b.jobs[j].state.Pending? || b.jobs[j].state.Running?) && (token.Some? ==> b.jobs[j].token == token)
    then
      SetJob(b, j, b.jobs[j].(state := Blocked, token := None, claimedUntil := None))
      .(settings := if manualCode then b.settings.(autoSwap := false) else b.settings)
    else b
  }

  predicate Terminal(b: Board, p: Job, retryable: bool, limit: Option<int>) {
    !retryable || p.attempts >= Max(1, if limit.Some? && limit.value != 0 then limit.value else b.settings.retryLimit)
  }

  function MarkFailed(b: Board, j: nat, manualCode: bool, retryable: bool, limit: Option<int>, token: Option<nat>): Board {
    if j < |b.jobs| && (b.jobs[j].state.Pending? || b.jobs[j].state.Running?) && (token.Some? ==> b.jobs[j].token == token)
    then
      var terminal := Terminal(b, b.jobs[j], retryable, limit);
      SetJob(b, j, b.jobs[j].(state := if terminal then Blocked else Pending, token := None, claimedUntil := None))
      .(settings := if terminal && manualCode then b.settings.(autoSwap := false) else b.settings)
    else b
  }

  function Cancel(b: Board, j: nat): Board {
    if j < |b.jobs| && (b.jobs[j].state.Pending? || b.jobs[j].state.Running?)
    then SetJob(b, j, b.jobs[j].(state := Canceled, token := None, claimedUntil := None))
    else b
  }

  function Requeued(p: Job): Job {
    p.(state := Pending, token := None, claimedUntil := None,
       requeues := p.requeues + (if p.state.Pending? then 0 else 1))
  }

  /** The unique index refuses a second live job on one assignment. */
  function Retry(b: Board, j: nat): Board {
    if j < |b.jobs| && (b.jobs[j].state.Blocked? || b.jobs[j].state.Canceled?) && !AssignmentTaken(b.jobs, b.jobs[j].assignment, Some(j))
    then SetJob(b, j, Requeued(b.jobs[j]))
    else b
  }

  function RequestManual(b: Board, j: nat): Board {
    if !b.settings.workerPaused && j < |b.jobs|
       && (b.jobs[j].state.Pending? || b.jobs[j].state.Blocked? || b.jobs[j].state.Canceled?)
       && Decide(b, b.jobs[j].subscription, b.jobs[j].assignment, Some(j)).Allowed?
       && !AssignmentTaken(b.jobs, b.jobs[j].assignment, Some(j))
    then SetJob(b, j, Requeued(b.jobs[j]))
    else b
  }

  // ----- Runs -----

  /** What inventory sync, dashboard observation and qualification may do to the tables between
      swap steps: any columns of any row, new rows, but no deletion and no spent quota. */
  ghost predicate EnvironmentStep(b: Board, subs: seq<Subscription>, t: Table) {
    && |b.subscriptions| <= |subs| && |b.assignments| <= |t|
    && (forall k :: 0 <= k < |b.subscriptions| ==> subs[k].quota == b.subscriptions[k].quota && subs[k].used == b.subscriptions[k].used)
    && (forall k :: |b.subscriptions| <= k < |subs| ==> subs[k].used == 0)
    && (forall k :: 0 <= k < |b.assignments| ==> (t[k].Some? <==> b.assignments[k].Some?))
    && (forall k :: 0 <= k < |b.assignments| && t[k].Some? ==> t[k].value.externalId == b.assignments[k].value.externalId)
    && ExternalIdsDiffer(t)
  }

  datatype Event =
    | Tick(delay: nat)
    | Configure(settings: Settings)
    | Environment(subs: seq<Subscription>, t: Table)
    | QueueEvent(id: nat)
    | ClaimEvent(wanted: Option<nat>, seconds: int)
    | RevalidateEvent(s: nat, manual: bool, enter: bool)
    | CheckEvent(s: nat)
    | CallEvent(s: nat)
    | AppliedEvent(s: nat, oldExt: string, newExt: string, address: AddressText)
    | UncertainEvent(s: nat)
    | ReadEvent(j: nat)
    | FreezeEvent(r: nat)
    | CloseEvent(j: nat)
    | InferEvent(j: nat)
    | FindEvent(r: nat)
    | ActEvent(f: nat)
    | FinalizeEvent(j: nat, oldExt: string, newExt: string, address: AddressText, token: Option<nat>)
    | BlockedEvent(j: nat, manualCode: bool, token: Option<nat>)
    | FailedEvent(j: nat, manualCode: bool, retryable: bool, limit: Option<int>, token: Option<nat>)
    | CancelEvent(j: nat)
    | RetryEvent(j: nat)
    | ManualEvent(j: nat)

  ghost function Step(b: Board, e: Event): Board {
    match e
    case Tick(delay) => b.(clock := b.clock + delay)
    case Configure(settings) => b.(settings := settings)
    case Environment(subs, t) => if EnvironmentStep(b, subs, t) then b.(subscriptions := subs, assignments := t) else b
    case QueueEvent(id) => QueueOne(b, id)
    case ClaimEvent(wanted, seconds) => Claim(b, wanted, seconds)
    case RevalidateEvent(s, manual, enter) => Revalidate(b, s, manual, enter)
    case CheckEvent(s) => CheckFence(b, s)
    case CallEvent(s) => Call(b, s)
    case AppliedEvent(s, oldExt, newExt, address) => MarkApplied(b, s, oldExt, newExt, address)
    case UncertainEvent(s) => Uncertain(b, s)
    case ReadEvent(j) => ReadJob(b, j)
    case FreezeEvent(r) => FreezeRead(b, r)
    case CloseEvent(j) => CloseUnchanged(b, j)
    case InferEvent(j) => Infer(b, j)
    case FindEvent(r) => Find(b, r)
    case ActEvent(f) => ActOn(b, f)
    case FinalizeEvent(j, oldExt, newExt, address, token) => Finalize(b, j, oldExt, newExt, address, token)
    case BlockedEvent(j, manualCode, token) => MarkBlocked(b, j, manualCode, token)
    case FailedEvent(j, manualCode, retryable, limit, token) => MarkFailed(b, j, manualCode, retryable, limit, token)
    case CancelEvent(j) => Cancel(b, j)
    case RetryEvent(j) => Retry(b, j)
    case ManualEvent(j) => RequestManual(b, j)
  }

  ghost function Run(b: Board, trace: seq<Event>): Board {
    if trace == [] then b else Step(Run(b, trace[..|trace| - 1]), trace[|trace| - 1])
  }
}
