/** What every interleaving of workers, reconciliation passes, administrators and inventory
    changes keeps about swap jobs. */
module SwapInvariants {
  import opened Wrappers
  import opened Inventory
  import opened SwapModel

  // ----- One job -----

  predicate Holding(b: Board, j: nat)
    requires j < |b.jobs|
  {
    && b.jobs[j].state.Mutating? && b.jobs[j].token.Some? && b.jobs[j].token.value < |b.sessions|
    && (b.sessions[b.jobs[j].token.value].phase.Entered? || b.sessions[b.jobs[j].token.value].phase.Checked?)
  }

  /** A provider call still to come counts as made. */
  function Calls(b: Board, j: nat): nat
    requires j < |b.jobs|
  {
    b.jobs[j].calls + (if Holding(b, j) then 1 else 0)
  }

  predicate TokenOk(b: Board, j: nat)
    requires j < |b.jobs|
  {
    var p := b.jobs[j];
    && (Busy(p.state) <==> p.token.Some?)
    && (p.token.Some? ==> p.token.value < |b.sessions| && b.sessions[p.token.value].job == j)
  }

  predicate CountersOk(p: Job) {
    && p.entries <= p.requeues + 1
    && (p.state.Pending? || p.state.Running? ==> p.entries <= p.requeues)
  }

  /** A job that entered the mutation at most once, and a job whose last mutation was answered,
      carry no stamp older than their latest mutation. */
  predicate TimesOk(p: Job, clock: int) {
    && p.createdAt <= clock
    && (p.startedAt.Some? ==> p.startedAt.value <= clock)
    && (InMutation(p.state) ==> p.startedAt.Some? && p.oldExternal != "" && p.entries > 0)
    && (p.entries == 0 ==> p.appliedAt.None?)
    && (p.entries == 1 && p.state.Mutating? ==> p.appliedAt.None?)
    && (p.entries == 1 || p.state.Applied? ==> Ordered(p))
    && (p.state.Applied? ==> p.appliedAt.Some?)
  }

  /** The time evidence is compared with is not before the latest mutation. */
  predicate Ordered(p: Job) {
    p.appliedAt.Some? ==> p.startedAt.Some? && p.startedAt.value <= p.appliedAt.value
  }

  predicate PlaceOk(b: Board, p: Job) {
    && p.subscription < |b.subscriptions| && p.assignment < |b.assignments|
    && (p.state.Success? ==> b.assignments[p.assignment].None?)
  }

  predicate JobOk(b: Board, j: nat)
    requires j < |b.jobs|
  {
    TokenOk(b, j) && CountersOk(b.jobs[j]) && Calls(b, j) <= b.jobs[j].entries
    && TimesOk(b.jobs[j], b.clock) && PlaceOk(b, b.jobs[j])
  }

  ghost predicate JobsOk(b: Board) {
    forall j: nat :: j < |b.jobs| ==> JobOk(b, j)
  }

  /** A worker that may still call the provider holds the mutation fence. */
  predicate SessionOk(b: Board, s: nat)
    requires s < |b.sessions|
  {
    && b.sessions[s].job < |b.jobs|
    && (b.sessions[s].phase.Entered? || b.sessions[s].phase.Checked? ==> Fenced(b, s))
  }

  ghost predicate SessionsOk(b: Board) {
    forall s: nat :: s < |b.sessions| ==> SessionOk(b, s)
  }

  /** A token that was read from an applied job never opens a new mutation. */
  predicate ReadingOk(b: Board, r: Reading) {
    && r.job < |b.jobs| && r.seen.token.Some? && r.seen.token.value < |b.sessions|
    && (b.jobs[r.job].token == r.seen.token ==> b.jobs[r.job].state.Applied? || b.jobs[r.job].state.Reconciling?)
  }

  ghost predicate ReadingsOk(b: Board) {
    forall k :: 0 <= k < |b.readings| ==> ReadingOk(b, b.readings[k])
  }

  // ----- Between jobs -----

  /** At most one job per subscription is running or in mutation. */
  ghost predicate Exclusive(jobs: seq<Job>) {
    forall i: nat, j: nat :: i < j < |jobs| && jobs[i].subscription == jobs[j].subscription ==> !(Busy(jobs[i].state) && Busy(jobs[j].state))
  }

  /** The partial unique index over live jobs. */
  ghost predicate OneLivePerAssignment(jobs: seq<Job>) {
    forall i: nat, j: nat :: i < j < |jobs| && jobs[i].assignment == jobs[j].assignment ==> !(Live(jobs[i].state) && Live(jobs[j].state))
  }

  ghost predicate OneSuccessPerAssignment(jobs: seq<Job>) {
    forall i: nat, j: nat :: i < j < |jobs| && jobs[i].assignment == jobs[j].assignment ==> !(jobs[i].state.Success? && jobs[j].state.Success?)
  }

  ghost predicate QuotaKept(b: Board) {
    forall k: nat :: k < |b.subscriptions| && b.subscriptions[k].quota >= 0 ==>
                       b.subscriptions[k].used + CountMutations(b.jobs, k) <= b.subscriptions[k].quota
  }

  ghost predicate UsedCounted(b: Board) {
    forall k: nat :: k < |b.subscriptions| ==> b.subscriptions[k].used == CountSuccesses(b.jobs, k)
  }

  predicate MapsTo(m: Mapping, p: Job, j: nat) {
    m.job == j && p.state.Success? && m.oldExternal == p.oldExternal && m.oldExternal != m.newExternal && m.newExternal != ""
  }

  ghost predicate MappingsOk(jobs: seq<Job>, maps: seq<Mapping>) {
    && (forall k :: 0 <= k < |maps| ==> maps[k].job < |jobs| && MapsTo(maps[k], jobs[maps[k].job], maps[k].job))
    && (forall k, l :: 0 <= k < l < |maps| ==> maps[k].job != maps[l].job)
    && (forall j: nat :: j < |jobs| && jobs[j].state.Success? ==> Mapped(maps, j))
  }

  ghost predicate Mapped(maps: seq<Mapping>, j: nat) {
    exists k :: 0 <= k < |maps| && maps[k].job == j
  }

  ghost predicate BoardInv(b: Board) {
    && JobsOk(b) && SessionsOk(b) && ReadingsOk(b)
    && Exclusive(b.jobs) && OneLivePerAssignment(b.jobs) && OneSuccessPerAssignment(b.jobs)
    && QuotaKept(b) && UsedCounted(b) && MappingsOk(b.jobs, b.mappings)
    && ExternalIdsDiffer(b.assignments)
  }

  // ----- Counting -----

  function Bit(c: bool): nat {
    if c then 1 else 0
  }

  lemma {:induction false} CountsUpdate(jobs: seq<Job>, j: nat, q: Job, sub: nat)
    requires j < |jobs| && q.subscription == jobs[j].subscription
    ensures var here := jobs[j].subscription == sub;
            && CountMutations(jobs[j := q], sub) == CountMutations(jobs, sub) - Bit(here && InMutation(jobs[j].state)) + Bit(here && InMutation(q.state))
            && CountSuccesses(jobs[j := q], sub) == CountSuccesses(jobs, sub) - Bit(here && jobs[j].state.Success?) + Bit(here && q.state.Success?)
    decreases |jobs|
  {
    var n := |jobs| - 1;
    if j < n {
      CountsUpdate(jobs[..n], j, q, sub);
      assert jobs[j := q][..n] == jobs[..n][j := q];
    } else {
      assert jobs[j := q][..n] == jobs[..n];
    }
  }

  /** Jobs in mutation, one of them aside, are live jobs. */
  lemma {:induction false} MutationsAreLive(jobs: seq<Job>, sub: nat, j: nat)
    requires j < |jobs| && !InMutation(jobs[j].state)
    ensures CountMutations(jobs, sub) <= CountLive(jobs, sub, Some(j))
    decreases |jobs|
  {
    var n := |jobs| - 1;
    if j < n {
      MutationsAreLive(jobs[..n], sub, j);
    } else {
      MutationsAreLiveBelow(jobs[..n], sub, j);
    }
  }

  lemma {:induction false} MutationsAreLiveBelow(jobs: seq<Job>, sub: nat, j: nat)
    requires j >= |jobs|
    ensures CountMutations(jobs, sub) <= CountLive(jobs, sub, Some(j))
  {
    if jobs != [] {
      MutationsAreLiveBelow(jobs[..|jobs| - 1], sub, j);
    }
  }

  // ----- Moving one job -----

  predicate Armed(s: Session) {
    s.phase.Entered? || s.phase.Checked?
  }

  /** Tables only lose rows for good; sessions keep their job and are armed only by entering the mutation. */
  ghost predicate TablesMove(b: Board, after: Board) {
    && after.clock >= b.clock
    && |after.subscriptions| >= |b.subscriptions| && |after.assignments| >= |b.assignments|
    && (forall k :: 0 <= k < |b.assignments| && b.assignments[k].None? ==> after.assignments[k].None?)
    && |after.sessions| == |b.sessions|
    && (forall k :: 0 <= k < |b.sessions| ==> after.sessions[k].job == b.sessions[k].job)
  }

  /** Job `j` alone is rewritten, staying within what its token and its siblings allow. */
  ghost predicate Moved(b: Board, after: Board, j: nat) {
    && j < |b.jobs| == |after.jobs| && after.jobs == b.jobs[j := after.jobs[j]]
    && TablesMove(b, after) && after.readings == b.readings
    && (var p, q := b.jobs[j], after.jobs[j];
        && q.subscription == p.subscription && q.assignment == p.assignment && !p.state.Success?
        && (q.token == p.token || q.token.None?)
        && (q.token == p.token && (p.state.Applied? || p.state.Reconciling?) ==> q.state.Applied? || q.state.Reconciling?)
        && (Busy(q.state) ==> Busy(p.state))
        && (Live(q.state) ==> Live(p.state) || !AssignmentTaken(b.jobs, p.assignment, Some(j)))
        && (q.state.Success? ==> Row(b.assignments, p.assignment)))
    && (forall k: nat :: k < |b.sessions| && Armed(after.sessions[k]) ==>
                           if b.sessions[k].job == j then Fenced(after, k) else Armed(b.sessions[k]))
    && JobOk(after, j)
  }

  lemma MovedRows(b: Board, after: Board, j: nat)
    requires JobsOk(b) && SessionsOk(b) && ReadingsOk(b) && Moved(b, after, j)
    ensures JobsOk(after) && SessionsOk(after) && ReadingsOk(after)
  {
    hide AssignmentTaken;
    forall i: nat | i < |after.jobs|
      ensures JobOk(after, i)
    {
      assert JobOk(b, i);
    }
    forall s: nat | s < |after.sessions|
      ensures SessionOk(after, s)
    {
      assert SessionOk(b, s);
    }
    forall k | 0 <= k < |after.readings|
      ensures ReadingOk(after, after.readings[k])
    {
      assert ReadingOk(b, b.readings[k]);
    }
  }

  lemma MovedBetween(b: Board, after: Board, j: nat)
    requires JobsOk(b) && Exclusive(b.jobs) && OneLivePerAssignment(b.jobs) && OneSuccessPerAssignment(b.jobs) && Moved(b, after, j)
    ensures Exclusive(after.jobs) && OneLivePerAssignment(after.jobs) && OneSuccessPerAssignment(after.jobs)
  {
    forall i: nat, k: nat | i < k < |after.jobs| && after.jobs[i].assignment == after.jobs[k].assignment
      ensures !(after.jobs[i].state.Success? && after.jobs[k].state.Success?)
    {
      assert JobOk(b, i) && JobOk(b, k);
    }
    hide JobOk;
    forall i: nat, k: nat | i < k < |after.jobs| && after.jobs[i].assignment == after.jobs[k].assignment
      ensures !(Live(after.jobs[i].state) && Live(after.jobs[k].state))
    {
    }
  }

  /** Spent quota is untouched and no job enters or leaves success. */
  lemma MovedQuota(b: Board, after: Board, j: nat)
    requires QuotaKept(b) && UsedCounted(b) && Moved(b, after, j) && after.subscriptions == b.subscriptions
    requires InMutation(after.jobs[j].state) ==> InMutation(b.jobs[j].state)
    requires !after.jobs[j].state.Success?
    ensures QuotaKept(after) && UsedCounted(after)
  {
    hide JobOk, TablesMove, AssignmentTaken, CountMutations, CountSuccesses;
    forall k: nat | k < |after.subscriptions|
      ensures after.subscriptions[k].quota >= 0 ==> after.subscriptions[k].used + CountMutations(after.jobs, k) <= after.subscriptions[k].quota
      ensures after.subscriptions[k].used == CountSuccesses(after.jobs, k)
    {
      CountsUpdate(b.jobs, j, after.jobs[j], k);
    }
  }

  lemma MovedMappings(jobs: seq<Job>, maps: seq<Mapping>, j: nat, q: Job)
    requires MappingsOk(jobs, maps) && j < |jobs| && !jobs[j].state.Success? && !q.state.Success?
    ensures MappingsOk(jobs[j := q], maps)
  {
    hide Mapped;
  }

  /** Everything a plain move of one job keeps. */
  lemma MoveInv(b: Board, after: Board, j: nat)
    requires BoardInv(b) && Moved(b, after, j)
    requires after.subscriptions == b.subscriptions && after.mappings == b.mappings && ExternalIdsDiffer(after.assignments)
    requires InMutation(after.jobs[j].state) ==> InMutation(b.jobs[j].state)
    requires !after.jobs[j].state.Success?
    ensures BoardInv(after)
  {
    hide Moved, JobsOk, SessionsOk, ReadingsOk, Exclusive, OneLivePerAssignment, OneSuccessPerAssignment, QuotaKept, UsedCounted, MappingsOk, ExternalIdsDiffer;
    MovedRows(b, after, j);
    MovedBetween(b, after, j);
    MovedQuota(b, after, j);
    MovedParts(b, after, j);
    MovedMappings(b.jobs, b.mappings, j, after.jobs[j]);
  }

  lemma MovedParts(b: Board, after: Board, j: nat)
    requires Moved(b, after, j)
    ensures j < |b.jobs| && !b.jobs[j].state.Success? && after.jobs == b.jobs[j := after.jobs[j]]
  {}

  /** No job moves; tables, clock and the phases of unarmed sessions may. */
  lemma QuietInv(b: Board, after: Board)
    requires BoardInv(b) && TablesMove(b, after)
    requires after.jobs == b.jobs && after.mappings == b.mappings
    requires after.readings == b.readings && ExternalIdsDiffer(after.assignments)
    requires forall k :: 0 <= k < |b.subscriptions| ==>
                           after.subscriptions[k].quota == b.subscriptions[k].quota && after.subscriptions[k].used == b.subscriptions[k].used
    requires forall k :: |b.subscriptions| <= k < |after.subscriptions| ==> after.subscriptions[k].used == 0
    requires forall k :: 0 <= k < |b.sessions| && Armed(after.sessions[k]) ==> Armed(b.sessions[k])
    ensures BoardInv(after)
  {
    forall i: nat | i < |after.jobs|
      ensures JobOk(after, i)
    {
      assert JobOk(b, i);
    }
    forall s: nat | s < |after.sessions|
      ensures SessionOk(after, s)
    {
      assert SessionOk(b, s);
    }
    forall k | 0 <= k < |after.readings|
      ensures ReadingOk(after, after.readings[k])
    {
      assert ReadingOk(b, b.readings[k]);
    }
    hide MappingsOk, Exclusive, OneLivePerAssignment, OneSuccessPerAssignment, ExternalIdsDiffer, SessionOk, ReadingOk;
    forall k: nat | |b.subscriptions| <= k < |after.subscriptions|
      ensures CountMutations(b.jobs, k) == 0 && CountSuccesses(b.jobs, k) == 0
    {
      forall i | 0 <= i < |b.jobs|
        ensures b.jobs[i].subscription != k
      {
        assert JobOk(b, i);
      }
      NoJobsNoCounts(b.jobs, k);
    }
  }

  lemma {:induction false} NoJobsNoCounts(jobs: seq<Job>, sub: nat)
    requires forall i :: 0 <= i < |jobs| ==> jobs[i].subscription != sub
    ensures CountMutations(jobs, sub) == 0 && CountSuccesses(jobs, sub) == 0
  {
    if jobs != [] {
      NoJobsNoCounts(jobs[..|jobs| - 1], sub);
    }
  }
}
