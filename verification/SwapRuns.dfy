/** Every swap step keeps the board invariant, and what that promises over whole runs. */
module SwapRuns {
  import opened Wrappers
  import opened Inventory
  import opened SwapModel
  import opened SwapInvariants

  // ----- Queueing and claiming -----

  lemma QueueInv(b: Board, id: nat)
    requires BoardInv(b)
    ensures BoardInv(QueueOne(b, id))
  {
    if MayQueue(b, id) {
      assert b.assignments[id].value.subscription < |b.subscriptions|;
      assert !AssignmentTaken(b.jobs, id, None);
      hide MayQueue, BoardInv;
      QueuedInv(b, NewJob(b.assignments[id].value.subscription, id, b.clock));
    }
  }

  lemma QueuedInv(b: Board, p: Job)
    requires BoardInv(b) && p == NewJob(p.subscription, p.assignment, b.clock)
    requires p.subscription < |b.subscriptions| && Row(b.assignments, p.assignment) && !AssignmentTaken(b.jobs, p.assignment, None)
    ensures BoardInv(b.(jobs := b.jobs + [p]))
  {
    var after := b.(jobs := b.jobs + [p]);
    var n := |b.jobs|;
    assert after.jobs[..n] == b.jobs;
    forall i: nat | i < |after.jobs|
      ensures JobOk(after, i)
    {
      assert i < n ==> JobOk(b, i);
    }
    forall s: nat | s < |after.sessions|
      ensures SessionOk(after, s)
    {
      assert SessionOk(b, s);
    }
    forall k | 0 <= k < |after.readings|
      ensures ReadingOk(after, after.readings[k])
    {
      assert ReadingOk(b, b.readings[k]);
    }
    forall k: nat
      ensures CountMutations(after.jobs, k) == CountMutations(b.jobs, k) && CountSuccesses(after.jobs, k) == CountSuccesses(b.jobs, k)
    {}
    hide JobOk, ReadingOk, SessionOk, CountMutations, CountSuccesses;
  }

  lemma {:induction false} ReclaimCounts(jobs: seq<Job>, now: int, sub: nat)
    ensures CountMutations(Reclaim(jobs, now), sub) == CountMutations(jobs, sub)
    ensures CountSuccesses(Reclaim(jobs, now), sub) == CountSuccesses(jobs, sub)
  {
    if jobs != [] {
      var n := |jobs| - 1;
      assert Reclaim(jobs, now)[..n] == Reclaim(jobs[..n], now);
      ReclaimCounts(jobs[..n], now, sub);
    }
  }

  lemma ReclaimInv(b: Board)
    requires BoardInv(b)
    ensures BoardInv(b.(jobs := Reclaim(b.jobs, b.clock)))
  {
    var after := b.(jobs := Reclaim(b.jobs, b.clock));
    forall i: nat | i < |after.jobs|
      ensures JobOk(after, i)
    {
      assert JobOk(b, i);
    }
    forall s: nat | s < |after.sessions|
      ensures SessionOk(after, s)
    {
      assert SessionOk(b, s);
    }
    forall k | 0 <= k < |after.readings|
      ensures ReadingOk(after, after.readings[k])
    {
      assert ReadingOk(b, b.readings[k]);
    }
    hide JobOk, ReadingOk, SessionOk, CountMutations, CountSuccesses;
    forall k: nat | k < |b.subscriptions|
      ensures CountMutations(after.jobs, k) == CountMutations(b.jobs, k) && CountSuccesses(after.jobs, k) == CountSuccesses(b.jobs, k)
    {
      ReclaimCounts(b.jobs, b.clock, k);
    }
    ReclaimMappings(b.jobs, b.mappings, b.clock);
  }

  lemma ReclaimMappings(jobs: seq<Job>, maps: seq<Mapping>, now: int)
    requires MappingsOk(jobs, maps)
    ensures MappingsOk(Reclaim(jobs, now), maps)
  {
    hide Mapped;
    var after := Reclaim(jobs, now);
    forall k | 0 <= k < |maps|
      ensures maps[k].job < |after| && MapsTo(maps[k], after[maps[k].job], maps[k].job)
    {
      assert MapsTo(maps[k], jobs[maps[k].job], maps[k].job);
    }
  }

  /** A fresh claim of a claimable job. */
  lemma TakeInv(b: Board, j: nat, until: int)
    requires BoardInv(b) && j < |b.jobs| && Claimable(b.jobs, j, b.clock)
    ensures BoardInv(b.(jobs := b.jobs[j := b.jobs[j].(state := Running, token := Some(|b.sessions|), claimedUntil := Some(until),
                                                       attempts := b.jobs[j].attempts + 1)],
                        sessions := b.sessions + [Session(j, Claimed)]))
  {
    var q := b.jobs[j].(state := Running, token := Some(|b.sessions|), claimedUntil := Some(until), attempts := b.jobs[j].attempts + 1);
    var after := b.(jobs := b.jobs[j := q], sessions := b.sessions + [Session(j, Claimed)]);
    forall i: nat | i < |after.jobs|
      ensures JobOk(after, i)
    {
      assert JobOk(b, i);
    }
    forall s: nat | s < |after.sessions|
      ensures SessionOk(after, s)
    {
      assert s < |b.sessions| ==> SessionOk(b, s);
    }
    forall k | 0 <= k < |after.readings|
      ensures ReadingOk(after, after.readings[k])
    {
      assert ReadingOk(b, b.readings[k]);
    }
    hide JobOk, ReadingOk, SessionOk, CountMutations, CountSuccesses;
    forall k: nat | k < |b.subscriptions|
      ensures CountMutations(after.jobs, k) == CountMutations(b.jobs, k) && CountSuccesses(after.jobs, k) == CountSuccesses(b.jobs, k)
    {
      CountsUpdate(b.jobs, j, q, k);
    }
    MovedMappings(b.jobs, b.mappings, j, q);
  }

  lemma ClaimInv(b: Board, wanted: Option<nat>, seconds: int)
    requires BoardInv(b)
    ensures BoardInv(Claim(b, wanted, seconds))
  {
    hide BoardInv, Claimable, Reclaim, FirstClaimable;
    ReclaimInv(b);
    var c := b.(jobs := Reclaim(b.jobs, b.clock));
    match Pick(c.jobs, wanted, b.clock)
    case None =>
    case Some(j) => TakeInv(c, j, b.clock + Max(30, seconds));
  }

  // ----- Plain moves -----

  /** Pending and running jobs that are parked or requeued. */
  lemma ParkInv(b: Board, j: nat, to: State, until: Option<int>, settings: Settings)
    requires BoardInv(b) && j < |b.jobs| && (b.jobs[j].state.Pending? || b.jobs[j].state.Running?)
    requires to.Pending? || to.Blocked? || to.Canceled?
    ensures BoardInv(SetJob(b, j, b.jobs[j].(state := to, token := None, claimedUntil := until)).(settings := settings))
  {
    var after := SetJob(b, j, b.jobs[j].(state := to, token := None, claimedUntil := until)).(settings := settings);
    assert JobOk(b, j);
    ArmedElsewhere(b, j);
    MoveInv(b, after, j);
  }

  /** No session is armed for a job that is not in the mutation. */
  lemma ArmedElsewhere(b: Board, j: nat)
    requires SessionsOk(b) && j < |b.jobs| && !b.jobs[j].state.Mutating?
    ensures forall k: nat :: k < |b.sessions| && Armed(b.sessions[k]) ==> b.sessions[k].job != j
  {
    forall k: nat | k < |b.sessions| && Armed(b.sessions[k])
      ensures b.sessions[k].job != j
    {
      assert SessionOk(b, k);
    }
  }

  lemma RequeueInv(b: Board, j: nat)
    requires BoardInv(b) && j < |b.jobs| && (b.jobs[j].state.Pending? || b.jobs[j].state.Blocked? || b.jobs[j].state.Canceled?)
    requires !AssignmentTaken(b.jobs, b.jobs[j].assignment, Some(j))
    ensures BoardInv(SetJob(b, j, Requeued(b.jobs[j])))
  {
    var after := SetJob(b, j, Requeued(b.jobs[j]));
    assert JobOk(b, j);
    ArmedElsewhere(b, j);
    MoveInv(b, after, j);
  }

  /** Closing a job and noting a replacement keep the invariant, on whatever evidence. */
  lemma CloseInv(b: Board, j: nat, external: string)
    requires BoardInv(b)
    ensures BoardInv(Close(b, j)) && BoardInv(Note(b, j, external))
  {
    if j < |b.jobs| && b.jobs[j].state.Reconciling? {
      assert JobOk(b, j);
      ArmedElsewhere(b, j);
      MoveInv(b, Close(b, j), j);
      if Note(b, j, external) != b {
        MoveInv(b, Note(b, j, external), j);
      }
    }
  }

  lemma ReconcileInv(b: Board, e: Event)
    requires BoardInv(b) && (e.CloseEvent? || e.InferEvent? || e.ActEvent?)
    ensures BoardInv(Step(b, e))
  {
    hide BoardInv, Unchanged, Inferred, Close, Note;
    match e
    case CloseEvent(j) => CloseInv(b, j, "");
    case InferEvent(j) =>
      if j < |b.jobs| && Inferred(b, b.jobs[j]).Some? { CloseInv(b, j, b.assignments[Inferred(b, b.jobs[j]).value].value.externalId); }
    case ActEvent(f) =>
      if f < |b.findings| { CloseInv(b, b.findings[f].job, if b.findings[f].Replaced? then b.findings[f].external else ""); }
  }

  lemma FindInv(b: Board, j: nat)
    requires BoardInv(b)
    ensures BoardInv(Find(b, j))
  {
    hide Unchanged, Inferred, Exclusive, OneLivePerAssignment, OneSuccessPerAssignment, QuotaKept, UsedCounted, MappingsOk, ExternalIdsDiffer;
    QuietInv(b, Find(b, j));
  }

  lemma FreezeReadInv(b: Board, r: nat)
    requires BoardInv(b)
    ensures BoardInv(FreezeRead(b, r))
  {
    if FreezeRead(b, r) != b {
      var j := b.readings[r].job;
      assert ReadingOk(b, b.readings[r]) && JobOk(b, j);
      ArmedElsewhere(b, j);
      MoveInv(b, FreezeRead(b, r), j);
    }
  }

  lemma ReadInv(b: Board, j: nat)
    requires BoardInv(b)
    ensures BoardInv(ReadJob(b, j))
  {
    var after := ReadJob(b, j);
    if after != b {
      assert JobOk(b, j);
      forall i: nat | i < |after.jobs|
        ensures JobOk(after, i)
      {
        assert JobOk(b, i);
      }
      forall s: nat | s < |after.sessions|
        ensures SessionOk(after, s)
      {
        assert SessionOk(b, s);
      }
      forall k | 0 <= k < |after.readings|
        ensures ReadingOk(after, after.readings[k])
      {
        assert k < |b.readings| ==> ReadingOk(b, b.readings[k]);
      }
      hide JobOk, SessionOk, ReadingOk, MappingsOk;
    }
  }

  // ----- Around the provider call -----

  lemma CheckInv(b: Board, s: nat)
    requires BoardInv(b)
    ensures BoardInv(CheckFence(b, s))
  {
    if CheckFence(b, s) != b {
      hide JobsOk, SessionsOk, ReadingsOk, Exclusive, OneLivePerAssignment, OneSuccessPerAssignment, QuotaKept, UsedCounted, MappingsOk;
      QuietInv(b, CheckFence(b, s));
    }
  }

  lemma CallInv(b: Board, s: nat)
    requires BoardInv(b)
    ensures BoardInv(Call(b, s))
  {
    if Call(b, s) != b {
      var j := b.sessions[s].job;
      var after := Call(b, s);
      assert SessionOk(b, s) && JobOk(b, j);
      forall k: nat | k < |b.sessions| && Armed(after.sessions[k])
        ensures if b.sessions[k].job == j then Fenced(after, k) else Armed(b.sessions[k])
      {
        assert SessionOk(b, k);
      }
      MoveInv(b, after, j);
    }
  }

  lemma UncertainInv(b: Board, s: nat)
    requires BoardInv(b)
    ensures BoardInv(Uncertain(b, s))
  {
    var after := Uncertain(b, s);
    if after != b {
      var j := b.sessions[s].job;
      assert SessionOk(b, s);
      if Freeze(b, j, Some(s)) == b {
        assert !Armed(b.sessions[s]);
        hide JobsOk, SessionsOk, ReadingsOk, Exclusive, OneLivePerAssignment, OneSuccessPerAssignment, QuotaKept, UsedCounted, MappingsOk;
        QuietInv(b, after);
      } else {
        assert JobOk(b, j);
        forall k: nat | k < |b.sessions| && Armed(after.sessions[k])
          ensures b.sessions[k].job != j && Armed(b.sessions[k])
        {
          assert SessionOk(b, k);
        }
        MoveInv(b, after, j);
      }
    }
  }

  lemma EnterInv(b: Board, s: nat)
    requires BoardInv(b) && HoldsClaim(b, s, true) && b.sessions[s].phase.Claimed?
    requires Verdict(b, b.sessions[s].job, false).Allowed? || Verdict(b, b.sessions[s].job, true).Allowed?
    requires IdentityKnown(b, b.sessions[s].job)
    ensures BoardInv(Enter(b, s, b.sessions[s].job))
  {
    var j := b.sessions[s].job;
    var after := Enter(b, s, j);
    assert JobOk(b, j);
    QuotaHeld(b, j);
    hide Decide, QuotaLeft;
    ArmedElsewhere(b, j);
    RowKeepsIds(b.assignments, b.jobs[j].assignment, WithoutDashboard(b.assignments[b.jobs[j].assignment].value));
    assert Moved(b, after, j);
    MovedRows(b, after, j);
    MovedBetween(b, after, j);
    MovedMappings(b.jobs, b.mappings, j, after.jobs[j]);
    hide Moved, JobsOk, SessionsOk, ReadingsOk, Exclusive, OneLivePerAssignment, OneSuccessPerAssignment, MappingsOk, ExternalIdsDiffer;
    EnterQuota(b, after, j);
  }

  lemma EnterQuota(b: Board, after: Board, j: nat)
    requires QuotaKept(b) && UsedCounted(b) && j < |b.jobs| == |after.jobs| && after.jobs == b.jobs[j := after.jobs[j]]
    requires after.subscriptions == b.subscriptions && after.jobs[j].subscription == b.jobs[j].subscription < |b.subscriptions|
    requires !InMutation(b.jobs[j].state) && !b.jobs[j].state.Success? && after.jobs[j].state.Mutating?
    requires QuotaLeft(b, b.jobs[j].subscription, Some(j))
    ensures QuotaKept(after) && UsedCounted(after)
  {
    hide CountMutations, CountSuccesses, CountLive;
    forall k: nat | k < |after.subscriptions|
      ensures after.subscriptions[k].quota >= 0 ==> after.subscriptions[k].used + CountMutations(after.jobs, k) <= after.subscriptions[k].quota
      ensures after.subscriptions[k].used == CountSuccesses(after.jobs, k)
    {
      CountsUpdate(b.jobs, j, after.jobs[j], k);
      MutationsAreLive(b.jobs, k, j);
    }
  }

  lemma QuotaHeld(b: Board, j: nat)
    requires j < |b.jobs| && (Verdict(b, j, false).Allowed? || Verdict(b, j, true).Allowed?)
    ensures b.jobs[j].subscription < |b.subscriptions| && QuotaLeft(b, b.jobs[j].subscription, Some(j))
  {}

  lemma RowKeepsIds(t: Table, id: nat, a: Assignment)
    requires ExternalIdsDiffer(t) && Row(t, id) && a.externalId == t[id].value.externalId
    ensures ExternalIdsDiffer(t[id := Some(a)])
  {}

  lemma RevalidateInv(b: Board, s: nat, manual: bool, enter: bool)
    requires BoardInv(b)
    ensures BoardInv(Revalidate(b, s, manual, enter))
  {
    if HoldsClaim(b, s, enter) && b.sessions[s].phase.Claimed? {
      var j := b.sessions[s].job;
      var verdict := Verdict(b, j, manual);
      hide BoardInv, Verdict, Enter;
      if verdict.Allowed? {
        if enter && IdentityKnown(b, j) {
          EnterInv(b, s);
        }
      } else if verdict.reason.DashboardStale? && !manual {
        ParkInv(b, j, Pending, Some(b.clock + RECHECK_SECONDS), b.settings);
      } else {
        ParkInv(b, j, Blocked, None, b.settings);
      }
    }
  }

  lemma AppliedInv(b: Board, s: nat, oldExt: string, newExt: string, address: AddressText)
    requires BoardInv(b)
    ensures BoardInv(MarkApplied(b, s, oldExt, newExt, address))
  {
    hide ExternalIdsDiffer, FindExternal, BlankExternal, AssignmentTaken, Exclusive, OneLivePerAssignment, OneSuccessPerAssignment;
    hide QuotaKept, UsedCounted, MappingsOk, ReadingsOk;
    var after := MarkApplied(b, s, oldExt, newExt, address);
    if after != b {
      var j := b.sessions[s].job;
      assert JobOk(b, j) && SessionOk(b, s);
      var cleared := ClearRow(b.assignments, b.jobs[j].assignment);
      RowKeepsIds(b.assignments, b.jobs[j].assignment, cleared[b.jobs[j].assignment].value);
      BlankKeeps(cleared, newExt);
      forall k: nat | k < |b.sessions| && Armed(after.sessions[k])
        ensures b.sessions[k].job != j
      {
        assert SessionOk(b, k);
      }
      hide ClearRow, JobsOk, SessionsOk;
      ClearKeeps(b.assignments, b.jobs[j].assignment);
      assert Moved(b, after, j);
      hide Moved;
      MoveInv(b, after, j);
    }
  }

  lemma BlankKeeps(t: Table, ext: string)
    requires ExternalIdsDiffer(t)
    ensures ExternalIdsDiffer(BlankExternal(t, ext)) && |BlankExternal(t, ext)| == |t|
    ensures forall k :: 0 <= k < |t| && t[k].None? ==> BlankExternal(t, ext)[k].None?
  {}

  lemma ClearKeeps(t: Table, id: nat)
    requires Row(t, id)
    ensures |ClearRow(t, id)| == |t|
    ensures forall k :: 0 <= k < |t| && t[k].None? ==> ClearRow(t, id)[k].None?
  {}

  // ----- Success -----

  lemma FinalizeInv(b: Board, j: nat, oldExt: string, newExt: string, address: AddressText, token: Option<nat>)
    requires BoardInv(b)
    ensures BoardInv(Finalize(b, j, oldExt, newExt, address, token))
  {
    var r := Finalizable(b, j, oldExt, newExt, address, token);
    if r.Ok? {
      Finishable(b, j, oldExt, newExt, address, token);
      hide Finalizable, Evidence;
      FinishInv(b, j, r.value);
    }
  }

  /** What `mark_swap_success` has established when it starts writing. */
  lemma Finishable(b: Board, j: nat, oldExt: string, newExt: string, address: AddressText, token: Option<nat>)
    requires Finalizable(b, j, oldExt, newExt, address, token).Ok?
    ensures var id := Finalizable(b, j, oldExt, newExt, address, token).value;
            && j < |b.jobs| && (b.jobs[j].state.Applied? || b.jobs[j].state.Reconciling?)
            && Row(b.assignments, b.jobs[j].assignment) && b.assignments[b.jobs[j].assignment].value.externalId == b.jobs[j].oldExternal == oldExt
            && Row(b.assignments, id) && MutationTime(b.jobs[j]).Some?
            && Evidence(b, b.jobs[j], b.assignments[id].value, MutationTime(b.jobs[j]).value).Ok?
  {
    hide Evidence, Replacement;
  }

  lemma FinishInv(b: Board, j: nat, id: nat)
    requires BoardInv(b) && j < |b.jobs| && (b.jobs[j].state.Applied? || b.jobs[j].state.Reconciling?)
    requires Row(b.assignments, b.jobs[j].assignment) && Row(b.assignments, id)
    requires b.assignments[b.jobs[j].assignment].value.externalId == b.jobs[j].oldExternal
    requires MutationTime(b.jobs[j]).Some?
    requires Evidence(b, b.jobs[j], b.assignments[id].value, MutationTime(b.jobs[j]).value).Ok?
    ensures BoardInv(Finalized(b, j, id))
  {
    var after := Finalized(b, j, id);
    var p, q := b.jobs[j], after.jobs[j];
    assert JobOk(b, j);
    ArmedElsewhere(b, j);
    FinishedTable(b, j, id);
    MovedRows(b, after, j);
    MovedBetween(b, after, j);
    hide Moved, JobsOk, SessionsOk, ReadingsOk, Exclusive, OneLivePerAssignment, OneSuccessPerAssignment, ExternalIdsDiffer;
    FinishedQuota(b, after, j);
    FinishedMappings(b.jobs, b.mappings, j, q, after.mappings[|b.mappings|]);
  }

  lemma FinishedTable(b: Board, j: nat, id: nat)
    requires j < |b.jobs| && Row(b.assignments, id) && b.jobs[j].assignment < |b.assignments| && ExternalIdsDiffer(b.assignments)
    ensures ExternalIdsDiffer(Finalized(b, j, id).assignments)
  {}

  lemma FinishedQuota(b: Board, after: Board, j: nat)
    requires QuotaKept(b) && UsedCounted(b) && j < |b.jobs| == |after.jobs| && after.jobs == b.jobs[j := after.jobs[j]]
    requires InMutation(b.jobs[j].state) && after.jobs[j].state.Success?
    requires after.jobs[j].subscription == b.jobs[j].subscription < |b.subscriptions|
    requires var k := b.jobs[j].subscription;
             after.subscriptions == b.subscriptions[k := b.subscriptions[k].(used := b.subscriptions[k].used + 1)]
    ensures QuotaKept(after) && UsedCounted(after)
  {
    hide CountMutations, CountSuccesses;
    forall k: nat | k < |after.subscriptions|
      ensures after.subscriptions[k].quota >= 0 ==> after.subscriptions[k].used + CountMutations(after.jobs, k) <= after.subscriptions[k].quota
      ensures after.subscriptions[k].used == CountSuccesses(after.jobs, k)
    {
      CountsUpdate(b.jobs, j, after.jobs[j], k);
    }
  }

  lemma FinishedMappings(jobs: seq<Job>, maps: seq<Mapping>, j: nat, q: Job, m: Mapping)
    requires MappingsOk(jobs, maps) && j < |jobs| && !jobs[j].state.Success? && MapsTo(m, q, j)
    ensures MappingsOk(jobs[j := q], maps + [m])
  {
    var after := maps + [m];
    forall i: nat | i < |jobs| && jobs[j := q][i].state.Success?
      ensures Mapped(after, i)
    {
      if i == j {
        assert after[|maps|].job == j;
      } else {
        var k :| 0 <= k < |maps| && maps[k].job == i;
        assert after[k].job == i;
      }
    }
    hide Mapped;
  }

  // ----- Runs -----

  lemma StepInv(b: Board, e: Event) returns (after: Board)
    requires BoardInv(b)
    ensures after == Step(b, e) && BoardInv(after)
  {
    hide BoardInv, QueueOne, Claim, Revalidate, CheckFence, Call, MarkApplied, Uncertain, ReadJob, FreezeRead, CloseUnchanged, Infer, Find, ActOn, Finalize;
    hide Terminal, Decide, AssignmentTaken, EnvironmentStep;
    after := Step(b, e);
    match e
    case Tick(_) => EnvironmentInv(b, e);
    case Configure(_) => EnvironmentInv(b, e);
    case Environment(_, _) => EnvironmentInv(b, e);
    case QueueEvent(id) => QueueInv(b, id);
    case ClaimEvent(wanted, seconds) => ClaimInv(b, wanted, seconds);
    case RevalidateEvent(s, manual, enter) => RevalidateInv(b, s, manual, enter);
    case CheckEvent(s) => CheckInv(b, s);
    case CallEvent(s) => CallInv(b, s);
    case AppliedEvent(s, oldExt, newExt, address) => AppliedInv(b, s, oldExt, newExt, address);
    case UncertainEvent(s) => UncertainInv(b, s);
    case ReadEvent(j) => ReadInv(b, j);
    case FreezeEvent(r) => FreezeReadInv(b, r);
    case CloseEvent(_) => ReconcileInv(b, e);
    case InferEvent(_) => ReconcileInv(b, e);
    case FindEvent(j) => FindInv(b, j);
    case ActEvent(_) => ReconcileInv(b, e);
    case FinalizeEvent(j, oldExt, newExt, address, token) => FinalizeInv(b, j, oldExt, newExt, address, token);
    case BlockedEvent(j, manualCode, token) => AdminInv(b, e);
    case FailedEvent(j, manualCode, retryable, limit, token) => AdminInv(b, e);
    case CancelEvent(j) => AdminInv(b, e);
    case RetryEvent(j) => AdminInv(b, e);
    case ManualEvent(j) => AdminInv(b, e);
  }

  lemma EnvironmentInv(b: Board, e: Event)
    requires BoardInv(b) && (e.Tick? || e.Configure? || e.Environment?)
    ensures BoardInv(Step(b, e))
  {
    assert ExternalIdsDiffer(b.assignments);
    hide JobsOk, SessionsOk, ReadingsOk, Exclusive, OneLivePerAssignment, OneSuccessPerAssignment, QuotaKept, UsedCounted, MappingsOk, ExternalIdsDiffer;
    if Step(b, e) != b {
      QuietInv(b, Step(b, e));
    }
  }

  lemma AdminInv(b: Board, e: Event)
    requires BoardInv(b) && (e.BlockedEvent? || e.FailedEvent? || e.CancelEvent? || e.RetryEvent? || e.ManualEvent?)
    ensures BoardInv(Step(b, e))
  {
    var after := Step(b, e);
    var j := e.j;
    hide BoardInv, Terminal, Decide, AssignmentTaken;
    if j < |b.jobs| {
      if e.RetryEvent? || e.ManualEvent? {
        if after != b {
          RequeueInv(b, j);
        }
      } else if after != b {
        ParkInv(b, j, after.jobs[j].state, None, after.settings);
      }
    }
  }

  lemma {:induction false} RunInv(settings: Settings, trace: seq<Event>)
    ensures BoardInv(Run(Init(settings), trace))
  {
    if trace != [] {
      hide BoardInv, Step;
      RunInv(settings, trace[..|trace| - 1]);
      var _ := StepInv(Run(Init(settings), trace[..|trace| - 1]), trace[|trace| - 1]);
    }
  }
}
