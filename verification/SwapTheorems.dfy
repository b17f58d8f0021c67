/** The promises of the swap queue, over every run from an empty board. */
module SwapTheorems {
  import opened Wrappers
  import opened Inventory
  import opened SwapModel
  import opened SwapInvariants
  import opened SwapRuns

  /** Between two requeues by an administrator a job reaches the provider at most once, whatever
      leases expire, workers crash, calls time out or passes reconcile. */
  lemma AtMostOneCall(settings: Settings, trace: seq<Event>, j: nat)
    requires j < |Run(Init(settings), trace).jobs|
    ensures var p := Run(Init(settings), trace).jobs[j];
            p.calls <= 1 + p.requeues && (p.state.Pending? || p.state.Running? ==> p.calls <= p.requeues)
  {
    hide Run;
    RunInv(settings, trace);
    assert JobOk(Run(Init(settings), trace), j);
  }

  /** Spent swaps and swaps under way never exceed a limited quota. */
  lemma QuotaNeverOverspent(settings: Settings, trace: seq<Event>, sub: nat)
    requires sub < |Run(Init(settings), trace).subscriptions| && Run(Init(settings), trace).subscriptions[sub].quota >= 0
    ensures var b := Run(Init(settings), trace);
            b.subscriptions[sub].used + CountMutations(b.jobs, sub) <= b.subscriptions[sub].quota
  {
    hide Run;
    RunInv(settings, trace);
  }

  /** One subscription never has two jobs running or in mutation. */
  lemma OneBusyJob(settings: Settings, trace: seq<Event>, i: nat, j: nat)
    requires var jobs := Run(Init(settings), trace).jobs;
             && i < |jobs| && j < |jobs| && i != j && jobs[i].subscription == jobs[j].subscription
             && Busy(jobs[i].state)
    ensures !Busy(Run(Init(settings), trace).jobs[j].state)
  {
    hide Run;
    RunInv(settings, trace);
  }

  /** So a worker is never refused for a sibling's mutation, and entering one never meets the
      unique index over mutations: both checks are only a second line of defence. */
  lemma SiblingCheckNeverFires(b: Board, s: nat, manual: bool, enter: bool)
    requires BoardInv(b) && HoldsClaim(b, s, enter)
    ensures Verdict(b, b.sessions[s].job, manual) != Refused(MutationInProgress)
    ensures CountMutations(b.jobs, b.jobs[b.sessions[s].job].subscription) == 0
  {
    var j := b.sessions[s].job;
    hide JobsOk, SessionsOk, ReadingsOk, MappingsOk, QuotaKept;
    assert !SiblingBusy(b.jobs, j);
    assert Verdict(b, j, manual) != Refused(MutationInProgress) by { DecideNeverBlames(b, b.jobs[j].subscription, b.jobs[j].assignment, Some(j)); }
    NoMutations(b.jobs, j);
  }

  lemma DecideNeverBlames(b: Board, sub: nat, id: nat, exclude: Option<nat>)
    ensures Decide(b, sub, id, exclude) != Refused(MutationInProgress)
  {}

  lemma NoMutations(jobs: seq<Job>, j: nat)
    requires j < |jobs| && jobs[j].state.Running? && !SiblingBusy(jobs, j)
    ensures CountMutations(jobs, jobs[j].subscription) == 0
  {
    forall k: nat | k < |jobs| && jobs[k].subscription == jobs[j].subscription
      ensures !InMutation(jobs[k].state)
    {
      assert k != j ==> !Busy(jobs[k].state);
    }
    NoneCounted(jobs, jobs[j].subscription);
  }

  lemma {:induction false} NoneCounted(jobs: seq<Job>, sub: nat)
    requires forall k: nat :: k < |jobs| && jobs[k].subscription == sub ==> !InMutation(jobs[k].state)
    ensures CountMutations(jobs, sub) == 0
  {
    if jobs != [] {
      NoneCounted(jobs[..|jobs| - 1], sub);
    }
  }

  // ----- The fence -----

  /** A worker that entered the mutation always finds its fence. */
  lemma FenceIsFound(settings: Settings, trace: seq<Event>, s: nat)
    requires s < |Run(Init(settings), trace).sessions| && Armed(Run(Init(settings), trace).sessions[s])
    ensures var b := Run(Init(settings), trace);
            && Fenced(b, s)
            && (b.sessions[s].phase.Entered? ==> s < |CheckFence(b, s).sessions| && CheckFence(b, s).sessions[s].phase.Checked?)
  {
    hide Run;
    RunInv(settings, trace);
    var b := Run(Init(settings), trace);
    hide JobsOk, ReadingsOk, MappingsOk, QuotaKept, UsedCounted;
    assert SessionOk(b, s);
  }

  /** Two workers that may still call the provider work on different subscriptions. */
  lemma ArmedWorkersDiffer(settings: Settings, trace: seq<Event>, s: nat, r: nat)
    requires var b := Run(Init(settings), trace);
             s < |b.sessions| && Armed(b.sessions[s]) && r < |b.sessions| && r != s && Armed(b.sessions[r])
    ensures var b := Run(Init(settings), trace);
            && Fenced(b, s) && Fenced(b, r)
            && b.jobs[b.sessions[s].job].subscription != b.jobs[b.sessions[r].job].subscription
  {
    hide Run;
    RunInv(settings, trace);
    var b := Run(Init(settings), trace);
    hide JobsOk, ReadingsOk, MappingsOk, QuotaKept, UsedCounted;
    assert SessionOk(b, s) && SessionOk(b, r);
    assert b.sessions[s].job != b.sessions[r].job;
  }

  predicate Settled(s: State) {
    InMutation(s) || s.Success?
  }

  /** Claims, and everything before the mutation, pass by jobs in mutation and finished jobs. */
  lemma ClaimPassesBy(b: Board, wanted: Option<nat>, seconds: int, j: nat)
    requires j < |b.jobs| && Settled(b.jobs[j].state)
    ensures j < |Claim(b, wanted, seconds).jobs| && Claim(b, wanted, seconds).jobs[j] == b.jobs[j]
  {
    hide FirstClaimable, SiblingBusy;
  }

  lemma RevalidatePassesBy(b: Board, s: nat, manual: bool, enter: bool, j: nat)
    requires j < |b.jobs| && Settled(b.jobs[j].state)
    ensures j < |Revalidate(b, s, manual, enter).jobs| && Revalidate(b, s, manual, enter).jobs[j] == b.jobs[j]
  {
    hide Verdict, IdentityKnown;
    assert IdentityKnown(b, j) || !IdentityKnown(b, j);
    if HoldsClaim(b, s, enter) && IdentityKnown(b, b.sessions[s].job) {
      KnownRow(b, b.sessions[s].job);
    }
  }

  lemma KnownRow(b: Board, j: nat)
    requires j < |b.jobs| && IdentityKnown(b, j)
    ensures Row(b.assignments, b.jobs[j].assignment)
  {}

  lemma AdminPassesBy(b: Board, e: Event, j: nat)
    requires j < |b.jobs| && Settled(b.jobs[j].state)
    requires e.BlockedEvent? || e.FailedEvent? || e.CancelEvent? || e.RetryEvent? || e.ManualEvent?
    ensures j < |Step(b, e).jobs| && Step(b, e).jobs[j] == b.jobs[j]
  {
    hide Decide, Terminal, AssignmentTaken;
  }

  lemma QueuePassesBy(b: Board, id: nat, j: nat)
    requires j < |b.jobs|
    ensures j < |QueueOne(b, id).jobs| && QueueOne(b, id).jobs[j] == b.jobs[j]
  {
    hide Decide, AssignmentTaken;
  }

  predicate PassesBy(e: Event) {
    || e.Tick? || e.Configure? || e.Environment? || e.QueueEvent? || e.ClaimEvent? || e.RevalidateEvent? || e.CheckEvent? || e.ReadEvent? || e.FindEvent?
    || e.BlockedEvent? || e.FailedEvent? || e.CancelEvent? || e.RetryEvent? || e.ManualEvent?
  }

  lemma PassedBy(b: Board, e: Event, j: nat)
    requires j < |b.jobs| && Settled(b.jobs[j].state) && PassesBy(e)
    ensures j < |Step(b, e).jobs| && Step(b, e).jobs[j] == b.jobs[j]
  {
    hide QueueOne, Claim, Revalidate, EnvironmentStep;
    match e
    case QueueEvent(id) => QueuePassesBy(b, id, j);
    case ClaimEvent(wanted, seconds) => ClaimPassesBy(b, wanted, seconds, j);
    case RevalidateEvent(s, manual, enter) => RevalidatePassesBy(b, s, manual, enter, j);
    case Tick(_) =>
    case Configure(_) =>
    case Environment(_, _) =>
    case CheckEvent(_) =>
    case ReadEvent(_) =>
    case FindEvent(_) => hide Unchanged, Inferred;
    case BlockedEvent(_, _, _) => AdminPassesBy(b, e, j);
    case FailedEvent(_, _, _, _, _) => AdminPassesBy(b, e, j);
    case CancelEvent(_) => AdminPassesBy(b, e, j);
    case RetryEvent(_) => AdminPassesBy(b, e, j);
    case ManualEvent(_) => AdminPassesBy(b, e, j);
  }

  /** A job in mutation leaves it only for success or, on evidence that nothing changed, for blocked. */
  lemma MutationIsNeverReclaimed(b: Board, e: Event, j: nat)
    requires BoardInv(b) && j < |b.jobs| && InMutation(b.jobs[j].state)
    ensures var after := Step(b, e);
            && j < |after.jobs|
            && Leaves(b, e, b.jobs[j], after.jobs[j], j)
  {
    hide Step, BoardInv, Unchanged;
    match e
    case FinalizeEvent(_, _, _, _, _) => FinalizeMoves(b, e, j);
    case CloseEvent(_) => CloseMoves(b, e, j);
    case InferEvent(_) => CloseMoves(b, e, j);
    case ActEvent(_) => CloseMoves(b, e, j);
    case AppliedEvent(_, _, _, _) => WorkerMoves(b, e, j);
    case UncertainEvent(_) => WorkerMoves(b, e, j);
    case FreezeEvent(_) => WorkerMoves(b, e, j);
    case CallEvent(_) => CallMoves(b, e, j);
    case _ => PassedBy(b, e, j);
  }

  /** The job stood exactly so, applied or uncertain, at some earlier moment of the run. */
  ghost predicate WasRead(settings: Settings, trace: seq<Event>, j: nat, seen: Job) {
    exists m :: 0 <= m < |trace| && StoodSo(Run(Init(settings), trace[..m]), j, seen)
  }

  predicate StoodSo(b: Board, j: nat, seen: Job) {
    j < |b.jobs| && b.jobs[j] == seen && (seen.state.Applied? || seen.state.Reconciling?)
  }

  /** A pass read the job at one moment of the run, and at a later one the tables bore the finding out
      for the columns it had read. */
  ghost predicate Seen(settings: Settings, trace: seq<Event>, f: Finding) {
    exists n :: 0 <= n < |trace| && WasRead(settings, trace[..n], f.job, f.seen) && Bears(Run(Init(settings), trace[..n]), f)
  }

  predicate Bears(b: Board, f: Finding) {
    match f
    case NoChange(_, p) => Unchanged(b, p)
    case Replaced(_, p, external) => Inferred(b, p).Some? && external == b.assignments[Inferred(b, p).value].value.externalId
  }

  lemma {:induction false} ReadingsWereRead(settings: Settings, trace: seq<Event>, k: nat)
    requires k < |Run(Init(settings), trace).readings|
    ensures var r := Run(Init(settings), trace).readings[k]; WasRead(settings, trace, r.job, r.seen)
  {
    if trace != [] {
      hide StoodSo, Step;
      var n := |trace| - 1;
      var b, r := Run(Init(settings), trace[..n]), Run(Init(settings), trace).readings[k];
      NewReadings(b, trace[n], k);
      if k < |b.readings| {
        ReadingsWereRead(settings, trace[..n], k);
        var m :| 0 <= m < n && StoodSo(Run(Init(settings), trace[..n][..m]), r.job, r.seen);
        assert trace[..n][..m] == trace[..m];
      }
    }
  }

  lemma NewReadings(b: Board, e: Event, k: nat)
    requires k < |Step(b, e).readings|
    ensures var r := Step(b, e).readings[k]; if k < |b.readings| then r == b.readings[k] else StoodSo(b, r.job, r.seen)
  {
    hide Unchanged, Inferred, Decide, AssignmentTaken, Terminal, Verdict, FindExternal, Finalizable, EnvironmentStep, FirstClaimable, Reclaim;
  }

  /** Whatever a late write acts on was read and then evident, earlier in the same run. */
  lemma {:induction false} FindingsWereSeen(settings: Settings, trace: seq<Event>, k: nat)
    requires k < |Run(Init(settings), trace).findings|
    ensures Seen(settings, trace, Run(Init(settings), trace).findings[k])
  {
    if trace != [] {
      hide Bears, Step, WasRead;
      var n := |trace| - 1;
      var b, f := Run(Init(settings), trace[..n]), Run(Init(settings), trace).findings[k];
      NewFindings(b, trace[n], k);
      if k < |b.findings| {
        FindingsWereSeen(settings, trace[..n], k);
        hide Run;
        SeenLonger(settings, trace, n, f);
      } else {
        var r: nat :| r < |b.readings| && b.readings[r].job == f.job && b.readings[r].seen == f.seen;
        hide Run;
        ReadingsWereRead(settings, trace[..n], r);
      }
    }
  }

  lemma SeenLonger(settings: Settings, trace: seq<Event>, n: nat, f: Finding)
    requires n <= |trace| && Seen(settings, trace[..n], f)
    ensures Seen(settings, trace, f)
  {
    hide Run, Bears, WasRead;
    var m :| 0 <= m < n && WasRead(settings, trace[..n][..m], f.job, f.seen) && Bears(Run(Init(settings), trace[..n][..m]), f);
    assert trace[..n][..m] == trace[..m];
  }

  /** A step keeps the findings there are and adds only what the tables show about a job as it was read. */
  lemma NewFindings(b: Board, e: Event, k: nat)
    requires k < |Step(b, e).findings|
    ensures var f := Step(b, e).findings[k];
            if k < |b.findings| then f == b.findings[k]
            else Bears(b, f) && exists r: nat :: r < |b.readings| && b.readings[r].job == f.job && b.readings[r].seen == f.seen
  {
    hide Unchanged, Inferred, Decide, AssignmentTaken, Terminal, Verdict, FindExternal, Finalizable, EnvironmentStep, FirstClaimable, Reclaim;
  }

  lemma CallMoves(b: Board, e: Event, j: nat)
    requires j < |b.jobs| && InMutation(b.jobs[j].state) && e.CallEvent?
    ensures j < |Step(b, e).jobs| && Leaves(b, e, b.jobs[j], Step(b, e).jobs[j], j)
  {
    hide Unchanged;
  }

  /** The only ways out of the mutation. */
  predicate Leaves(b: Board, e: Event, p: Job, q: Job, j: nat) {
    && (InMutation(q.state) || q.state.Success?
        || (q.state.Blocked? && e == CloseEvent(j) && Unchanged(b, p))
        || (q.state.Blocked? && e.ActEvent? && e.f < |b.findings| && b.findings[e.f].NoChange? && b.findings[e.f].job == j))
    && (q.state.Mutating? ==> p.state.Mutating? && q.entries == p.entries)
  }

  lemma FinalizeMoves(b: Board, e: Event, j: nat)
    requires j < |b.jobs| && InMutation(b.jobs[j].state) && e.FinalizeEvent?
    ensures j < |Step(b, e).jobs| && Leaves(b, e, b.jobs[j], Step(b, e).jobs[j], j)
  {
    FinalizedState(b, e.j, e.oldExt, e.newExt, e.address, e.token);
    hide Finalizable, Unchanged;
  }

  lemma CloseMoves(b: Board, e: Event, j: nat)
    requires j < |b.jobs| && InMutation(b.jobs[j].state) && (e.CloseEvent? || e.InferEvent? || e.ActEvent?)
    ensures j < |Step(b, e).jobs| && Leaves(b, e, b.jobs[j], Step(b, e).jobs[j], j)
  {
    hide Unchanged, Inferred;
  }

  lemma WorkerMoves(b: Board, e: Event, j: nat)
    requires BoardInv(b) && j < |b.jobs| && InMutation(b.jobs[j].state) && (e.AppliedEvent? || e.UncertainEvent? || e.FreezeEvent?)
    ensures j < |Step(b, e).jobs| && Leaves(b, e, b.jobs[j], Step(b, e).jobs[j], j)
  {
    if e.AppliedEvent? && e.s < |b.sessions| {
      assert SessionOk(b, e.s);
    }
    hide BoardInv, FindExternal, BlankExternal, Unchanged;
  }

  /** The provider is called only inside the mutation, under the calling worker's own token. */
  lemma CallsAreFenced(b: Board, s: nat)
    requires BoardInv(b) && Call(b, s) != b
    ensures Fenced(b, s) && Call(b, s).jobs[b.sessions[s].job].calls == b.jobs[b.sessions[s].job].calls + 1 <= b.jobs[b.sessions[s].job].entries
  {
    assert SessionOk(b, s) && JobOk(b, b.sessions[s].job);
  }

  // ----- Lineage -----

  /** A successful job is exactly one with a mapping, and it has one; the mapping names two
      different assignments, and the old row is gone. */
  lemma LineageIsConserved(settings: Settings, trace: seq<Event>, j: nat)
    requires j < |Run(Init(settings), trace).jobs|
    ensures var b := Run(Init(settings), trace);
            && (b.jobs[j].state.Success? <==> Mapped(b.mappings, j))
            && (forall k, l :: 0 <= k < l < |b.mappings| ==> !(b.mappings[k].job == j == b.mappings[l].job))
            && (forall k :: 0 <= k < |b.mappings| && b.mappings[k].job == j ==>
                              && b.mappings[k].oldExternal == b.jobs[j].oldExternal
                              && b.mappings[k].newExternal != b.mappings[k].oldExternal)
            && (b.jobs[j].state.Success? ==> b.jobs[j].assignment < |b.assignments| && b.assignments[b.jobs[j].assignment].None?)
  {
    hide Run;
    RunInv(settings, trace);
    var b := Run(Init(settings), trace);
    assert JobOk(b, j);
    hide JobsOk, SessionsOk, ReadingsOk, QuotaKept, UsedCounted;
  }

  /** `swap_used` counts the successful jobs of the subscription. */
  lemma UsedIsSuccesses(settings: Settings, trace: seq<Event>, sub: nat)
    requires sub < |Run(Init(settings), trace).subscriptions|
    ensures var b := Run(Init(settings), trace); b.subscriptions[sub].used == CountSuccesses(b.jobs, sub)
  {
    hide Run;
    RunInv(settings, trace);
  }

  /** No assignment row is replaced twice. */
  lemma ReplacedOnce(settings: Settings, trace: seq<Event>, i: nat, j: nat)
    requires var jobs := Run(Init(settings), trace).jobs;
             i < |jobs| && j < |jobs| && i != j && jobs[i].state.Success? && jobs[j].state.Success?
    ensures var jobs := Run(Init(settings), trace).jobs; jobs[i].assignment != jobs[j].assignment
  {
    hide Run;
    RunInv(settings, trace);
  }

  /** Success is final: no step touches the job again. */
  lemma SuccessIsFinal(b: Board, e: Event, j: nat)
    requires BoardInv(b) && j < |b.jobs| && b.jobs[j].state.Success?
    ensures j < |Step(b, e).jobs| && Step(b, e).jobs[j] == b.jobs[j]
  {
    hide Step;
    if PassesBy(e) {
      PassedBy(b, e, j);
    } else {
      FinishedStays(b, e, j);
    }
  }

  lemma FinishedStays(b: Board, e: Event, j: nat)
    requires BoardInv(b) && j < |b.jobs| && b.jobs[j].state.Success? && !PassesBy(e)
    ensures j < |Step(b, e).jobs| && Step(b, e).jobs[j] == b.jobs[j]
  {
    if e.FinalizeEvent? {
      FinishedByFinalize(b, e, j);
    } else if e.CallEvent? {
      FinishedByCall(b, e, j);
    } else {
      FinishedByOthers(b, e, j);
    }
    hide BoardInv, Step;
  }

  lemma FinishedByFinalize(b: Board, e: Event, j: nat)
    requires j < |b.jobs| && b.jobs[j].state.Success? && e.FinalizeEvent?
    ensures j < |Step(b, e).jobs| && Step(b, e).jobs[j] == b.jobs[j]
  {
    FinalizedState(b, e.j, e.oldExt, e.newExt, e.address, e.token);
    hide Finalizable;
  }

  lemma FinishedByCall(b: Board, e: Event, j: nat)
    requires BoardInv(b) && j < |b.jobs| && b.jobs[j].state.Success? && e.CallEvent?
    ensures j < |Step(b, e).jobs| && Step(b, e).jobs[j] == b.jobs[j]
  {
    if e.s < |b.sessions| {
      assert SessionOk(b, e.s);
    }
  }

  lemma FinishedByOthers(b: Board, e: Event, j: nat)
    requires j < |b.jobs| && b.jobs[j].state.Success? && !PassesBy(e) && !e.FinalizeEvent? && !e.CallEvent?
    ensures j < |Step(b, e).jobs| && Step(b, e).jobs[j] == b.jobs[j]
  {
    hide Unchanged, Inferred, FindExternal, BlankExternal;
  }

  lemma FinalizedState(b: Board, j: nat, oldExt: string, newExt: string, address: AddressText, token: Option<nat>)
    ensures Finalizable(b, j, oldExt, newExt, address, token).Ok? ==> j < |b.jobs| && (b.jobs[j].state.Applied? || b.jobs[j].state.Reconciling?)
  {
    hide Evidence, Replacement;
  }

  // ----- The decision -----

  /** Seen on the dashboard at most the configured age ago, never less than a minute, and not from the future. */
  predicate SeenLately(b: Board, at: Option<int>) {
    var age := if b.settings.maxAge > 60 then b.settings.maxAge else 60;
    at.Some? && b.clock - age <= at.value <= b.clock + 60
  }

  predicate LatelyEligible(b: Board, sub: nat, a: Assignment) {
    && a.subscription == sub && (a.status == "active" || a.status == "current") && a.missingAt.None?
    && a.dashboardEligible == Some(true) && SeenLately(b, a.observedAt)
  }

  /** The rows of a subscription that are in service and that the dashboard lately showed as eligible. */
  function ShownEligible(b: Board, sub: nat): set<nat> {
    set id: nat | id < |b.assignments| && b.assignments[id].Some? && LatelyEligible(b, sub, b.assignments[id].value)
  }

  predicate Underway(p: Job, sub: nat) {
    && p.subscription == sub
    && (p.state == Pending || p.state == Running || p.state == Mutating || p.state == Applied || p.state == Reconciling)
  }

  /** The jobs of a subscription that hold or may still take a part of its quota. */
  function Reserving(jobs: seq<Job>, sub: nat, exclude: Option<nat>): set<nat> {
    set j: nat | j < |jobs| && exclude != Some(j) && Underway(jobs[j], sub)
  }

  /** What the subscription must grant: it reports fewer eligible rows than the threshold, or, if it reports
      none, the dashboard shows fewer; and its quota is unlimited or not used up. */
  predicate Grants(b: Board, sub: nat, exclude: Option<nat>)
    requires sub < |b.subscriptions|
  {
    var s := b.subscriptions[sub];
    var threshold := if b.settings.threshold > 1 then b.settings.threshold else 1;
    && (s.status == "active" || s.status == "ready") && s.missingAt.None? && (s.expiresAt.Some? ==> b.clock < s.expiresAt.value)
    && (if s.eligibleCount.Some? then s.eligibleCount.value < threshold else 0 < |ShownEligible(b, sub)| < threshold)
    && (s.quota >= 0 ==> s.used + |Reserving(b.jobs, sub, exclude)| < s.quota)
  }

  /** What the assignment must be: live, a risk, unduplicated, and lately shown as swappable. */
  predicate Swappable(b: Board, sub: nat, a: Assignment) {
    && a.subscription == sub && (a.status == "active" || a.status == "current") && a.missingAt.None?
    && (a.live == "live" || a.live == "online") && a.qualification == "risk" && a.providerEligible && !a.duplicateEgress
    && a.dashboardId != "" && a.dashboardEligible == Some(true) && SeenLately(b, a.observedAt)
    && a.connections.Some? && 0 <= a.connections.value < 1_000
    && (a.readyAt.Some? ==> a.readyAt.value <= b.clock)
  }

  /** A swap is allowed exactly for a swappable assignment of a subscription that grants it. */
  lemma AllowedExactly(b: Board, sub: nat, id: nat, exclude: Option<nat>)
    ensures Decide(b, sub, id, exclude).Allowed? <==>
              sub < |b.subscriptions| && Row(b.assignments, id) && Grants(b, sub, exclude) && Swappable(b, sub, b.assignments[id].value)
  {
    if sub < |b.subscriptions| {
      EligibleIsCard(b, sub, |b.assignments|);
      LiveIsCard(b.jobs, sub, exclude);
      assert ShownAmong(b, sub, |b.assignments|) == ShownEligible(b, sub);
    }
    hide CountEligible, CountLive, ShownEligible, Reserving;
  }

  function ShownAmong(b: Board, sub: nat, n: nat): set<nat> {
    set id: nat | id in ShownEligible(b, sub) && id < n
  }

  lemma {:induction false} EligibleIsCard(b: Board, sub: nat, n: nat)
    requires n <= |b.assignments|
    ensures CountEligible(b, sub, n) == |ShownAmong(b, sub, n)|
  {
    if n > 0 {
      EligibleIsCard(b, sub, n - 1);
      assert b.assignments[n - 1].Some? ==> LatelyEligible(b, sub, b.assignments[n - 1].value) == EligibleRow(b, sub, b.assignments[n - 1].value);
      hide LatelyEligible, EligibleRow;
      if n - 1 in ShownEligible(b, sub) {
        assert ShownAmong(b, sub, n) == ShownAmong(b, sub, n - 1) + {n - 1};
      } else {
        assert ShownAmong(b, sub, n) == ShownAmong(b, sub, n - 1);
      }
    } else {
      assert ShownAmong(b, sub, 0) == {};
    }
  }

  lemma {:induction false} LiveIsCard(jobs: seq<Job>, sub: nat, exclude: Option<nat>)
    ensures CountLive(jobs, sub, exclude) == |Reserving(jobs, sub, exclude)|
  {
    if jobs != [] {
      var n := |jobs| - 1;
      LiveIsCard(jobs[..n], sub, exclude);
      assert Underway(jobs[n], sub) == (jobs[n].subscription == sub && Live(jobs[n].state));
      hide Underway, Live;
      if n in Reserving(jobs, sub, exclude) {
        assert Reserving(jobs, sub, exclude) == Reserving(jobs[..n], sub, exclude) + {n};
      } else {
        assert Reserving(jobs, sub, exclude) == Reserving(jobs[..n], sub, exclude);
      }
    } else {
      assert Reserving(jobs, sub, exclude) == {};
    }
  }

  /** Inference names a replacement only when the evidence leaves exactly one. */
  lemma InferenceIsUnambiguous(b: Board, j: nat, id: nat)
    requires j < |b.jobs| && Infer(b, j) != b
    requires Inferable(b, b.jobs[j], MutationTime(b.jobs[j]).value, id)
    ensures Inferred(b, b.jobs[j]) == Some(id) && Infer(b, j).jobs[j].newExternal == b.assignments[id].value.externalId
    ensures Covering(b, b.assignments[id].value, MutationTime(b.jobs[j]).value)
  {
    hide Inferable, Covering, Listed;
    var candidates := InferCandidates(b, b.jobs[j], MutationTime(b.jobs[j]).value, |b.assignments|);
    assert id in candidates by { InferableIsRow(b, b.jobs[j], MutationTime(b.jobs[j]).value, id); }
    assert Listed(b, b.jobs[j].subscription, id) && id < |b.assignments| by { InferableIsRow(b, b.jobs[j], MutationTime(b.jobs[j]).value, id); }
  }

  lemma InferableIsRow(b: Board, p: Job, since: int, id: nat)
    requires Inferable(b, p, since, id)
    ensures Row(b.assignments, id) && Listed(b, p.subscription, id)
  {}
}
