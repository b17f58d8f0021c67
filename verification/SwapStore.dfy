/** The swap tables updated in place, and one pass of the worker around the provider call.

    Each method is proved to have the effect its counterpart in SwapModel describes. */
module SwapStore {
  import opened Wrappers
  import opened Inventory
  import opened SwapModel

  datatype Outcome = Idle | Stale | Rejected(reason: Reason) | Deferred | Reconcile | Frozen

  /** What the provider call came to: an answer, or an exception whose effect is unknown. */
  datatype Answer = Answer(oldExt: string, newExt: string, address: AddressText) | Unknown

  lemma {:induction false} QueueGated(b: Board, ids: seq<nat>)
    requires !b.settings.autoSwap || b.settings.automationPaused || b.settings.workerPaused
    ensures QueueAll(b, ids) == b
  {
    if ids != [] {
      QueueGated(b, ids[..|ids| - 1]);
    }
  }

  lemma Unfold(b: Board, sub: nat, a: Assignment)
    ensures EligibleRow(b, sub, a) <==> && a.subscription == sub && (a.status == "active" || a.status == "current") && a.missingAt.None?
                                         && a.dashboardEligible == Some(true) && FreshAt(b.settings, a.observedAt, b.clock)
  {}

  lemma UnfoldAddress(b: Board, p: Job, at: Address, since: int, k: nat)
    ensures AddressCandidate(b, p, at, since, k) <==>
            && k < |b.assignments| && b.assignments[k].Some? && k != p.assignment
            && (var a := b.assignments[k].value;
                && a.subscription == p.subscription && a.identity.host == at.host && a.missingAt.None? && a.status != "replaced"
                && (at.port.None? || a.identity.port == at.port.value)
                && a.lastSeen.Some? && a.lastSeen.value > since)
  {}

  lemma FinalizableRow(b: Board, j: nat, oldExt: string, newExt: string, address: AddressText, token: Option<nat>)
    requires Finalizable(b, j, oldExt, newExt, address, token).Ok?
    ensures j < |b.jobs| && b.jobs[j].assignment < |b.assignments|
  {
    hide Replacement, Evidence, JobTrouble;
  }

  class Queue {
    var settings: Settings
    var subscriptions: seq<Subscription>
    var assignments: Table
    var jobs: seq<Job>
    var mappings: seq<Mapping>
    var sessions: seq<Session>
    var readings: seq<Reading>
    var findings: seq<Finding>
    var clock: int

    function Contents(): Board
      reads this
    {
      Board(settings, subscriptions, assignments, jobs, mappings, sessions, readings, findings, clock)
    }

    constructor (settings: Settings)
      ensures Contents() == Init(settings)
    {
      this.settings := settings;
      subscriptions, assignments, jobs, mappings, sessions, readings, findings, clock := [], [], [], [], [], [], [], 0;
    }

    // ----- Decisions -----

    method CountReserved(sub: nat, skip: Option<nat>) returns (count: nat)
      ensures count == CountLive(jobs, sub, skip)
    {
      count := 0;
      var k := 0;
      while k < |jobs|
        invariant 0 <= k <= |jobs|
        invariant count == CountLive(jobs[..k], sub, skip)
      {
        assert jobs[..k + 1][..k] == jobs[..k];
        if jobs[k].subscription == sub && Live(jobs[k].state) && skip != Some(k) {
          count := count + 1;
        }
        k := k + 1;
      }
      assert jobs[..k] == jobs;
    }

    method CountFreshRows(sub: nat) returns (count: nat)
      ensures count == CountEligible(Contents(), sub, |assignments|)
    {
      hide EligibleRow;
      count := 0;
      var k := 0;
      while k < |assignments|
        invariant 0 <= k <= |assignments|
        invariant count == CountEligible(Contents(), sub, k)
      {
        if assignments[k].Some? {
          var a := assignments[k].value;
          var inService := a.subscription == sub && (a.status == "active" || a.status == "current") && a.missingAt.None?;
          if inService && a.dashboardEligible == Some(true) && FreshAt(settings, a.observedAt, clock) {
            assert EligibleRow(Contents(), sub, a) by { Unfold(Contents(), sub, a); }
            count := count + 1;
          } else {
            assert !EligibleRow(Contents(), sub, a) by { Unfold(Contents(), sub, a); }
          }
        }
        k := k + 1;
      }
    }

    method RefuseAssignment(sub: nat, id: nat) returns (r: Option<Reason>)
      ensures r == RowReason(assignments, sub, id)
    {
      if id >= |assignments| || assignments[id].None? { return Some(ManualAction); }
      var a := assignments[id].value;
      if a.subscription != sub || !(a.status == "active" || a.status == "current") || a.missingAt.Some? { return Some(ManualAction); }
      if !(a.live == "live" || a.live == "online") { return Some(NotLive); }
      if a.duplicateEgress { return Some(Duplicate); }
      if a.qualification != "risk" { return Some(NotRisk); }
      if !a.providerEligible { return Some(ProviderIneligible); }
      return None;
    }

    method RefuseDashboard(a: Assignment) returns (r: Option<Reason>)
      ensures r == DashboardReason(settings, a, clock)
    {
      if a.dashboardId == "" || a.observedAt.None? { return Some(DashboardStale); }
      var observed := a.observedAt.value;
      if clock - observed > Max(60, settings.maxAge) || observed - clock > 60 { return Some(DashboardStale); }
      if a.dashboardEligible.None? { return Some(DashboardStale); }
      if !a.dashboardEligible.value { return Some(ProviderIneligible); }
      if a.connections.None? || a.connections.value < 0 { return Some(DashboardStale); }
      if a.connections.value >= CONNECTION_LIMIT { return Some(ConnectionsLimit); }
      return None;
    }

    method RefuseSubscription(sub: nat) returns (r: Option<Reason>)
      ensures r == SubscriptionReason(Contents(), sub)
    {
      if sub >= |subscriptions| { return Some(ManualAction); }
      var s := subscriptions[sub];
      if !(s.status == "active" || s.status == "ready") || s.missingAt.Some? { return Some(ManualAction); }
      if s.expiresAt.Some? && s.expiresAt.value <= clock { return Some(ManualAction); }
      return None;
    }

    method RefuseLimits(sub: nat, readyAt: Option<int>, exclude: Option<nat>) returns (r: Option<Reason>)
      requires sub < |subscriptions|
      ensures r == LimitReason(Contents(), sub, readyAt, exclude)
    {
      hide CountEligible, CountLive;
      var s := subscriptions[sub];
      var eligible := 0;
      if s.eligibleCount.Some? {
        eligible := s.eligibleCount.value;
      } else {
        eligible := CountFreshRows(sub);
        if eligible <= 0 { return Some(ManualAction); }
      }
      if eligible >= Max(1, settings.threshold) { return Some(ProviderIneligible); }
      var reserved := CountReserved(sub, exclude);
      if s.quota >= 0 && s.quota <= s.used + reserved { return Some(QuotaExhausted); }
      if readyAt.Some? && readyAt.value > clock { return Some(Cooldown); }
      return None;
    }

    /** `SwapDecision.for_subscription`. */
    method DecideSwap(sub: nat, id: nat, exclude: Option<nat>) returns (d: Decision)
      ensures d == Decide(Contents(), sub, id, exclude)
    {
      var r := RefuseSubscription(sub);
      if r.Some? { return Refused(r.value); }
      assert sub < |subscriptions|;
      hide SubscriptionReason, RowReason, DashboardReason, LimitReason;
      r := RefuseAssignment(sub, id);
      if r.Some? { return Refused(r.value); }
      var a := assignments[id].value;
      r := RefuseDashboard(a);
      if r.Some? { return Refused(r.value); }
      r := RefuseLimits(sub, a.readyAt, exclude);
      return if r.Some? then Refused(r.value) else Allowed;
    }

    method FindLive(id: nat, skip: Option<nat>) returns (taken: bool)
      ensures taken == AssignmentTaken(jobs, id, skip)
    {
      var k := 0;
      while k < |jobs|
        invariant 0 <= k <= |jobs|
        invariant forall n: nat :: n < k && skip != Some(n) && jobs[n].assignment == id ==> !Live(jobs[n].state)
      {
        if skip != Some(k) && jobs[k].assignment == id && Live(jobs[k].state) { return true; }
        k := k + 1;
      }
      return false;
    }

    /** The transaction of `queue_eligible_swaps` over the candidate rows its SELECT returned. */
    method QueueEligible(candidates: seq<nat>) returns (queued: nat)
      modifies this`jobs
      ensures Contents() == QueueAll(old(Contents()), candidates)
      ensures queued == |jobs| - |old(jobs)|
    {
      hide Decide, AssignmentTaken;
      queued := 0;
      if !settings.autoSwap || settings.automationPaused || settings.workerPaused {
        QueueGated(Contents(), candidates);
        return;
      }
      var k := 0;
      while k < |candidates|
        invariant 0 <= k <= |candidates|
        invariant Contents() == QueueAll(old(Contents()), candidates[..k])
        invariant queued == |jobs| - |old(jobs)|
      {
        assert candidates[..k + 1][..k] == candidates[..k];
        var id := candidates[k];
        k := k + 1;
        if id >= |assignments| || assignments[id].None? { continue; }
        var sub := assignments[id].value.subscription;
        var decision := DecideSwap(sub, id, None);
        if !decision.Allowed? { continue; }
        var taken := FindLive(id, None);
        if taken { continue; }
        jobs := jobs + [NewJob(sub, id, clock)];
        queued := queued + 1;
      }
      assert candidates[..k] == candidates;
    }

    // ----- Claims -----

    method FindBusySibling(j: nat) returns (busy: bool)
      requires j < |jobs|
      ensures busy == SiblingBusy(jobs, j)
    {
      var k := 0;
      while k < |jobs|
        invariant 0 <= k <= |jobs|
        invariant forall n: nat :: n < k && n != j && jobs[n].subscription == jobs[j].subscription ==> !Busy(jobs[n].state)
      {
        if k != j && jobs[k].subscription == jobs[j].subscription && Busy(jobs[k].state) { return true; }
        k := k + 1;
      }
      return false;
    }

    method PickFirst() returns (picked: Option<nat>)
      ensures picked == FirstClaimable(jobs, |jobs|, clock)
    {
      hide SiblingBusy;
      picked := None;
      var k := 0;
      while k < |jobs|
        invariant 0 <= k <= |jobs|
        invariant picked == FirstClaimable(jobs, k, clock)
      {
        if jobs[k].state.Pending? && (jobs[k].claimedUntil.None? || jobs[k].claimedUntil.value <= clock) {
          var busy := FindBusySibling(k);
          if !busy && (picked.None? || jobs[k].createdAt < jobs[picked.value].createdAt) {
            picked := Some(k);
          }
        }
        k := k + 1;
      }
    }

    method PickJob(wanted: Option<nat>) returns (picked: Option<nat>)
      ensures picked == Pick(jobs, wanted, clock)
    {
      hide SiblingBusy, FirstClaimable;
      if wanted.None? {
        picked := PickFirst();
        return;
      }
      var j := wanted.value;
      if j >= |jobs| || !jobs[j].state.Pending? || (jobs[j].claimedUntil.Some? && jobs[j].claimedUntil.value > clock) { return None; }
      var busy := FindBusySibling(j);
      return if busy then None else wanted;
    }

    method ClaimNext(wanted: Option<nat>, seconds: int) returns (session: Option<nat>)
      modifies this`jobs, this`sessions
      ensures Contents() == Claim(old(Contents()), wanted, seconds)
      ensures session == if Pick(Reclaim(old(jobs), clock), wanted, clock).Some? then Some(|old(sessions)|) else None
      ensures session.Some? ==> |sessions| == |old(sessions)| + 1 && sessions[session.value].phase.Claimed?
    {
      hide Reclaim, FirstClaimable, Claimable;
      jobs := Reclaim(jobs, clock);
      var picked := PickJob(wanted);
      if picked.None? { return None; }
      var j := picked.value;
      jobs := jobs[j := jobs[j].(state := Running, token := Some(|sessions|), claimedUntil := Some(clock + Max(30, seconds)),
                                 attempts := jobs[j].attempts + 1)];
      sessions := sessions + [Session(j, Claimed)];
      return Some(|sessions| - 1);
    }

    // ----- The worker's steps -----

    method RevalidateJob(s: nat, manual: bool, enter: bool) returns (decision: Option<Decision>)
      requires s < |sessions| && sessions[s].phase.Claimed?
      modifies this`jobs, this`assignments, this`sessions
      ensures Contents() == Revalidate(old(Contents()), s, manual, enter)
      ensures |sessions| == |old(sessions)| && sessions[s].job == old(sessions)[s].job
      ensures decision.None? ==> Contents() == old(Contents())
      ensures decision == Some(Allowed) ==> sessions[s].phase == if enter then Entered else Claimed
    {
      hide Decide, SiblingBusy;
      var j := sessions[s].job;
      if j >= |jobs| || jobs[j].token != Some(s) || !jobs[j].state.Running? { return None; }
      if enter && (jobs[j].claimedUntil.None? || jobs[j].claimedUntil.value <= clock) { return None; }
      var verdict := Refused(ManualAction);
      if !Gated(settings, manual) {
        var busy := FindBusySibling(j);
        if busy {
          verdict := Refused(MutationInProgress);
        } else {
          verdict := DecideSwap(jobs[j].subscription, jobs[j].assignment, Some(j));
        }
      }
      if verdict.Allowed? {
        if enter {
          var id, sub := jobs[j].assignment, jobs[j].subscription;
          if id >= |assignments| || assignments[id].None? || sub >= |subscriptions| { return None; }
          var a := assignments[id].value;
          if a.externalId == "" || a.dashboardId == "" || subscriptions[sub].externalId == "" { return None; }
          jobs := jobs[j := jobs[j].(state := Mutating, startedAt := Some(clock), claimedUntil := None,
                                     oldExternal := a.externalId, oldHost := a.identity.host, oldPort := a.identity.port,
                                     dashboardId := a.dashboardId, entries := jobs[j].entries + 1)];
          assignments := assignments[jobs[j].assignment := Some(WithoutDashboard(a))];
          sessions := sessions[s := sessions[s].(phase := Entered)];
        }
      } else if verdict.reason.DashboardStale? && !manual {
        jobs := jobs[j := jobs[j].(state := Pending, token := None, claimedUntil := Some(clock + RECHECK_SECONDS))];
      } else {
        jobs := jobs[j := jobs[j].(state := Blocked, token := None, claimedUntil := None)];
      }
      return Some(verdict);
    }

    method MarkProviderApplied(s: nat, oldExt: string, newExt: string, address: AddressText) returns (ok: bool)
      requires s < |sessions| && sessions[s].phase.Called?
      modifies this`jobs, this`assignments
      ensures Contents() == MarkApplied(old(Contents()), s, oldExt, newExt, address)
      ensures ok <==> !AppliedRefused(old(Contents()), s, oldExt, newExt, address)
    {
      hide FindExternal, BlankExternal, ClearRow;
      if oldExt == "" || (newExt == "" && address.Empty?) || oldExt == newExt || address.Invalid? { return false; }
      var j := sessions[s].job;
      if j >= |jobs| || !jobs[j].state.Mutating? || jobs[j].token != Some(s) { return false; }
      if jobs[j].oldExternal != "" && jobs[j].oldExternal != oldExt { return false; }
      var found := LookUp(assignments, oldExt);
      if found.None? || assignments[found.value].value.subscription != jobs[j].subscription || found.value != jobs[j].assignment { return false; }
      var replacement := LookUp(assignments, newExt);
      if newExt != "" && replacement.Some? && assignments[replacement.value].value.subscription != jobs[j].subscription { return false; }
      assignments := BlankExternal(ClearRow(assignments, found.value), newExt);
      jobs := jobs[j := jobs[j].(state := Applied, appliedAt := Some(clock), oldExternal := oldExt, newExternal := newExt,
                                 newAddress := if address.Valid? then Some(address.address) else None, claimedUntil := None)];
      return true;
    }

    method MarkReconciliationRequired(j: nat, token: Option<nat>)
      modifies this`jobs, this`settings
      ensures Contents() == Freeze(old(Contents()), j, token)
    {
      if j >= |jobs| || !InMutation(jobs[j].state) || token.None? || jobs[j].token != token { return; }
      jobs := jobs[j := jobs[j].(state := Reconciling, claimedUntil := None)];
      settings := settings.(autoSwap := false);
    }

    // ----- Reconciliation -----

    method ResolveByAddress(p: Job, at: Address, since: int) returns (r: Result<nat, Trouble>)
      ensures var found := AddressCandidates(Contents(), p, at, since, |assignments|);
              r == if |found| == 1 then Ok(found[0]) else Err(Waiting)
    {
      hide AddressCandidate;
      var rows: seq<nat> := [];
      var k := 0;
      while k < |assignments|
        invariant 0 <= k <= |assignments|
        invariant rows == AddressCandidates(Contents(), p, at, since, k)
      {
        if assignments[k].Some? && k != p.assignment {
          var a := assignments[k].value;
          var listed := a.subscription == p.subscription && a.identity.host == at.host && a.missingAt.None? && a.status != "replaced";
          var port := at.port.None? || a.identity.port == at.port.value;
          if listed && port && a.lastSeen.Some? && a.lastSeen.value > since {
            assert AddressCandidate(Contents(), p, at, since, k) by { UnfoldAddress(Contents(), p, at, since, k); }
            rows := rows + [k];
          } else {
            assert !AddressCandidate(Contents(), p, at, since, k) by { UnfoldAddress(Contents(), p, at, since, k); }
          }
        } else {
          assert !AddressCandidate(Contents(), p, at, since, k) by { UnfoldAddress(Contents(), p, at, since, k); }
        }
        k := k + 1;
      }
      return if |rows| == 1 then Ok(rows[0]) else Err(Waiting);
    }

    method ResolveReplacement(p: Job, since: int) returns (r: Result<nat, Trouble>)
      ensures r == Replacement(Contents(), p, since)
    {
      hide FindExternal, AddressCandidates;
      if p.newExternal != "" {
        var found := LookUp(assignments, p.newExternal);
        if found.None? { return Err(Waiting); }
        if p.newAddress.Some? && !AtAddress(assignments[found.value].value, p.newAddress.value) { return Err(Waiting); }
        return Ok(found.value);
      }
      if p.newAddress.None? { return Err(Waiting); }
      r := ResolveByAddress(p, p.newAddress.value, since);
    }

    /** The job's own fields must match the provider's answer before any row is read. */
    method CheckJob(p: Job, oldExt: string, newExt: string, address: AddressText, token: Option<nat>) returns (r: Option<Trouble>)
      ensures r == JobTrouble(p, oldExt, newExt, address, token)
    {
      if oldExt == "" || !(p.state.Applied? || p.state.Reconciling?) { return Some(Trouble.Rejected); }
      if token.None? || p.token != token || p.oldExternal != oldExt { return Some(Trouble.Rejected); }
      if newExt != "" && ((p.newExternal != "" && p.newExternal != newExt) || newExt == oldExt) { return Some(Trouble.Rejected); }
      if !address.Empty? && p.newAddress.Some? && (address.Invalid? || address.address != p.newAddress.value) { return Some(Trouble.Rejected); }
      if p.newExternal == "" && p.newAddress.None? { return Some(Waiting); }
      return None;
    }

    method CheckSuccess(j: nat, oldExt: string, newExt: string, address: AddressText, token: Option<nat>) returns (r: Result<nat, Trouble>)
      ensures r == Finalizable(Contents(), j, oldExt, newExt, address, token)
    {
      hide FindExternal, Replacement, Evidence, JobTrouble;
      if j >= |jobs| { return Err(Trouble.Rejected); }
      var p := jobs[j];
      var trouble := CheckJob(p, oldExt, newExt, address, token);
      if trouble.Some? { return Err(trouble.value); }
      var found := LookUp(assignments, oldExt);
      if found.None? || assignments[found.value].value.subscription != p.subscription || found.value != p.assignment { return Err(Trouble.Rejected); }
      var mutation := if p.appliedAt.Some? then p.appliedAt else p.startedAt;
      if mutation.None? { return Err(Waiting); }
      r := ResolveReplacement(p, mutation.value);
      if r.Err? { return; }
      var evidence := Evidence(Contents(), p, assignments[r.value].value, mutation.value);
      if evidence.Err? { return Err(evidence.error); }
    }

    /** The writes of `mark_swap_success`: replacement row, mapping, deletion, job, quota. */
    method WriteSuccess(j: nat, id: nat)
      requires j < |jobs| && Row(assignments, id) && jobs[j].assignment < |assignments|
      modifies this`jobs, this`assignments, this`mappings, this`subscriptions
      ensures Contents() == Finalized(old(Contents()), j, id)
    {
      var p := jobs[j];
      var a := assignments[id].value;
      var since := if p.appliedAt.Some? then p.appliedAt.value else if p.startedAt.Some? then p.startedAt.value else clock;
      var ready := Max(clock, since) + Max(60, settings.cooldown);
      assignments := assignments[id := Some(a.(readyAt := Some(ready), status := "active", qualification := "pending", live := "pending",
                                                checkToken := None, distribution := false))];
      mappings := mappings + [Mapping(j, p.oldExternal, a.externalId, clock)];
      assignments := assignments[p.assignment := None];
      jobs := jobs[j := p.(state := Success, replacement := Some(id), token := None, claimedUntil := None)];
      if p.subscription < |subscriptions| {
        subscriptions := subscriptions[p.subscription := subscriptions[p.subscription].(used := subscriptions[p.subscription].used + 1)];
      }
    }

    /** `mark_swap_success`. */
    method MarkSwapSuccess(j: nat, oldExt: string, newExt: string, address: AddressText, token: Option<nat>)
      returns (r: Result<nat, Trouble>)
      modifies this`jobs, this`assignments, this`mappings, this`subscriptions
      ensures r == Finalizable(old(Contents()), j, oldExt, newExt, address, token)
      ensures Contents() == Finalize(old(Contents()), j, oldExt, newExt, address, token)
    {
      hide Finalizable, Finalized;
      r := CheckSuccess(j, oldExt, newExt, address, token);
      if r.Err? { return; }
      FinalizableRow(Contents(), j, oldExt, newExt, address, token);
      WriteSuccess(j, r.value);
    }

    /** `_fresh_dashboard_snapshot_covers_subscription`. */
    method CoversSubscription(sub: nat, since: int) returns (covers: bool)
      ensures covers == SnapshotCovers(Contents(), sub, since)
    {
      hide Covering, InService;
      var any := false;
      var k := 0;
      while k < |assignments|
        invariant 0 <= k <= |assignments|
        invariant any <==> exists id: nat :: id < k && Listed(Contents(), sub, id)
        invariant forall id: nat :: id < k && Listed(Contents(), sub, id) ==> Covering(Contents(), assignments[id].value, since)
      {
        if Listed(Contents(), sub, k) {
          any := true;
          if !Covering(Contents(), assignments[k].value, since) { return false; }
        }
        k := k + 1;
      }
      return any;
    }

    method CloseIfUnchanged(j: nat) returns (closed: bool)
      modifies this`jobs
      ensures Contents() == CloseUnchanged(old(Contents()), j)
      ensures closed <==> j < |old(jobs)| && old(jobs)[j].state.Reconciling? && Unchanged(old(Contents()), old(jobs)[j])
    {
      hide SnapshotCovers, FindExternal;
      if j >= |jobs| || !jobs[j].state.Reconciling? { return false; }
      var p := jobs[j];
      var mutation := if p.appliedAt.Some? then p.appliedAt else p.startedAt;
      if mutation.None? || p.oldExternal == "" || p.dashboardId == "" { return false; }
      var covers := CoversSubscription(p.subscription, mutation.value);
      if !covers || !ValidEndpoint(p.oldHost, p.oldPort) { return false; }
      var found := LookUp(assignments, p.oldExternal);
      if found.None? { return false; }
      var a := assignments[found.value].value;
      if a.missingAt.Some? || a.status == "replaced" { return false; }
      if a.identity.host != p.oldHost || a.identity.port != p.oldPort { return false; }
      if a.dashboardId != p.dashboardId || a.dashboardSource != DASHBOARD { return false; }
      jobs := jobs[j := p.(state := Blocked, token := None, claimedUntil := None)];
      return true;
    }

    method InferReplacement(j: nat) returns (inferred: bool)
      modifies this`jobs
      ensures Contents() == Infer(old(Contents()), j)
      ensures inferred ==> j < |jobs| && jobs[j].state.Reconciling? && old(jobs)[j].newExternal == ""
    {
      hide SnapshotCovers, FindExternal, InferCandidates;
      if j >= |jobs| || !jobs[j].state.Reconciling? || jobs[j].newExternal != "" || jobs[j].newAddress.Some? { return false; }
      var p := jobs[j];
      var mutation := if p.appliedAt.Some? then p.appliedAt else p.startedAt;
      if mutation.None? || p.oldExternal == "" || p.dashboardId == "" { return false; }
      var since := mutation.value;
      var found := LookUp(assignments, p.oldExternal);
      if found.Some? && assignments[found.value].value.missingAt.None? && assignments[found.value].value.status != "replaced" { return false; }
      if p.subscription >= |subscriptions| || subscriptions[p.subscription].lastSeen.None? { return false; }
      if subscriptions[p.subscription].lastSeen.value <= since { return false; }
      var covers := CoversSubscription(p.subscription, since);
      if !covers { return false; }
      var candidates := FreshCandidates(p, since);
      if |candidates| != 1 { return false; }
      jobs := jobs[j := p.(newExternal := assignments[candidates[0]].value.externalId)];
      return true;
    }

    method FreshCandidates(p: Job, since: int) returns (rows: seq<nat>)
      ensures rows == InferCandidates(Contents(), p, since, |assignments|)
    {
      hide Inferable;
      rows := [];
      var k := 0;
      while k < |assignments|
        invariant 0 <= k <= |assignments|
        invariant rows == InferCandidates(Contents(), p, since, k)
      {
        if Inferable(Contents(), p, since, k) {
          rows := rows + [k];
        }
        k := k + 1;
      }
    }

    /** The branch of a pass for an uncertain job without a known replacement. */
    method InferOrClose(j: nat) returns (go: bool, ghost trace: seq<Event>)
      modifies this`jobs
      ensures Contents() == Run(old(Contents()), trace)
      ensures go ==> j < |jobs|
    {
      hide CloseUnchanged, Infer, Unchanged, Run;
      ghost var b := Contents();
      var closed := CloseIfUnchanged(j);
      trace := [CloseEvent(j)];
      RunOne(b, CloseEvent(j));
      if closed { return false, trace; }
      go := InferReplacement(j);
      RunNext(b, trace, InferEvent(j));
      trace := trace + [InferEvent(j)];
    }

    /** The branch of a pass that tries to finish the job, and what it does when it cannot. */
    method FinishOrFreeze(j: nat, wasApplied: bool, reading: nat) returns (ghost trace: seq<Event>)
      requires j < |jobs| && reading < |readings| && readings[reading].job == j
      modifies this`jobs, this`assignments, this`mappings, this`subscriptions, this`settings
      ensures Contents() == Run(old(Contents()), trace)
    {
      hide CloseUnchanged, Finalize, Finalizable, Unchanged, Freeze, Run;
      ghost var b := Contents();
      var seen := jobs[j];
      var address := if seen.newAddress.Some? then Valid(seen.newAddress.value) else Empty;
      var r := MarkSwapSuccess(j, seen.oldExternal, seen.newExternal, address, seen.token);
      trace := [FinalizeEvent(j, seen.oldExternal, seen.newExternal, address, seen.token)];
      RunOne(b, trace[0]);
      if r.Ok? { return; }
      if !wasApplied {
        var _ := CloseIfUnchanged(j);
        RunNext(b, trace, CloseEvent(j));
        trace := trace + [CloseEvent(j)];
      } else if r.error.Rejected? {
        MarkReconciliationRequired(j, readings[reading].seen.token);
        RunNext(b, trace, FreezeEvent(reading));
        trace := trace + [FreezeEvent(reading)];
      }
    }

    /** One row of `reconcile_provider_applied_swaps`; every pass is a run of the swap steps. */
    method ReconcileJob(j: nat) returns (ghost trace: seq<Event>)
      requires j < |jobs| && (jobs[j].state.Applied? || jobs[j].state.Reconciling?)
      modifies this`jobs, this`assignments, this`mappings, this`subscriptions, this`settings, this`readings
      ensures Contents() == Run(old(Contents()), trace)
    {
      hide Run;
      ghost var b := Contents();
      var applied, blank := jobs[j].state.Applied?, jobs[j].newExternal == "" && jobs[j].newAddress.None?;
      readings := readings + [Reading(j, jobs[j])];
      trace := [ReadEvent(j)];
      RunOne(b, ReadEvent(j));
      var go := true;
      ghost var more;
      hide Step;
      if !applied && blank {
        go, more := InferOrClose(j);
        RunsJoin(b, trace, more);
        trace := trace + more;
      }
      if go {
        more := FinishOrFreeze(j, applied, |readings| - 1);
        RunsJoin(b, trace, more);
        trace := trace + more;
      }
    }

    // ----- Failures and the administrator -----

    method MarkSwapBlocked(j: nat, manualCode: bool, token: Option<nat>)
      modifies this`jobs, this`settings
      ensures Contents() == MarkBlocked(old(Contents()), j, manualCode, token)
    {
      if j >= |jobs| || !(jobs[j].state.Pending? || jobs[j].state.Running?) { return; }
      if token.Some? && jobs[j].token != token { return; }
      jobs := jobs[j := jobs[j].(state := Blocked, token := None, claimedUntil := None)];
      if manualCode {
        settings := settings.(autoSwap := false);
      }
    }

    method MarkSwapFailed(j: nat, manualCode: bool, retryable: bool, limit: Option<int>, token: Option<nat>)
      modifies this`jobs, this`settings
      ensures Contents() == MarkFailed(old(Contents()), j, manualCode, retryable, limit, token)
    {
      if j >= |jobs| || !(jobs[j].state.Pending? || jobs[j].state.Running?) { return; }
      if token.Some? && jobs[j].token != token { return; }
      var maximum := Max(1, if limit.Some? && limit.value != 0 then limit.value else settings.retryLimit);
      var terminal := !retryable || jobs[j].attempts >= maximum;
      jobs := jobs[j := jobs[j].(state := if terminal then Blocked else Pending, token := None, claimedUntil := None)];
      if terminal && manualCode {
        settings := settings.(autoSwap := false);
      }
    }

    method CancelSwap(j: nat)
      modifies this`jobs
      ensures Contents() == Cancel(old(Contents()), j)
    {
      if j >= |jobs| || !(jobs[j].state.Pending? || jobs[j].state.Running?) { return; }
      jobs := jobs[j := jobs[j].(state := Canceled, token := None, claimedUntil := None)];
    }

    method RetrySwap(j: nat)
      modifies this`jobs
      ensures Contents() == Retry(old(Contents()), j)
    {
      hide AssignmentTaken;
      if j >= |jobs| || !(jobs[j].state.Blocked? || jobs[j].state.Canceled?) { return; }
      var taken := FindLive(jobs[j].assignment, Some(j));
      if taken { return; }
      jobs := jobs[j := Requeued(jobs[j])];
    }

    method RequestManualSwap(j: nat)
      modifies this`jobs
      ensures Contents() == RequestManual(old(Contents()), j)
    {
      hide AssignmentTaken, Decide;
      if settings.workerPaused || j >= |jobs| { return; }
      if !(jobs[j].state.Pending? || jobs[j].state.Blocked? || jobs[j].state.Canceled?) { return; }
      var decision := DecideSwap(jobs[j].subscription, jobs[j].assignment, Some(j));
      if !decision.Allowed? { return; }
      var taken := FindLive(jobs[j].assignment, Some(j));
      if taken { return; }
      jobs := jobs[j := Requeued(jobs[j])];
    }

    // ----- One pass of the worker -----

    /** The fence is looked up and the provider is called, or the fence is gone. */
    method FencedCall(s: nat) returns (called: bool, ghost trace: seq<Event>)
      requires s < |sessions| && sessions[s].phase.Entered?
      modifies this`jobs, this`sessions
      ensures Contents() == Run(old(Contents()), trace) && CallsIn(trace) == (if called then 1 else 0)
      ensures |sessions| == |old(sessions)| && sessions[s].phase == if called then Called else Entered
    {
      hide Run;
      ghost var b := Contents();
      var j := sessions[s].job;
      if j >= |jobs| || !jobs[j].state.Mutating? || jobs[j].token != Some(s) {
        RunNone(b);
        return false, [];
      }
      sessions := sessions[s := sessions[s].(phase := Checked)];
      RunOne(b, CheckEvent(s));
      jobs := jobs[j := jobs[j].(calls := jobs[j].calls + 1)];
      sessions := sessions[s := sessions[s].(phase := Called)];
      RunNext(b, [CheckEvent(s)], CallEvent(s));
      return true, [CheckEvent(s)] + [CallEvent(s)];
    }

    /** The worker's exception path once the mutation was entered. */
    method GiveUp(s: nat)
      requires s < |sessions| && (sessions[s].phase.Entered? || sessions[s].phase.Called?)
      modifies this`jobs, this`sessions, this`settings
      ensures Contents() == Uncertain(old(Contents()), s)
    {
      MarkReconciliationRequired(sessions[s].job, Some(s));
      sessions := sessions[s := sessions[s].(phase := Finished)];
    }

    /** The provider's answer is recorded, or anything else freezes the job. */
    method RecordAnswer(s: nat, answer: Answer) returns (outcome: Outcome, ghost trace: seq<Event>)
      requires s < |sessions| && (sessions[s].phase.Entered? || sessions[s].phase.Called?)
      modifies this`jobs, this`assignments, this`sessions, this`settings
      ensures Contents() == Run(old(Contents()), trace) && CallsIn(trace) == 0
      ensures outcome.Reconcile? ==> old(sessions)[s].phase.Called?
    {
      hide MarkApplied, AppliedRefused, Uncertain, Run, Step;
      ghost var b := Contents();
      trace := [];
      RunNone(b);
      AnswerSteps(b, s, answer);
      if sessions[s].phase.Called? && answer.Answer? {
        var ok := MarkProviderApplied(s, answer.oldExt, answer.newExt, answer.address);
        trace := [AppliedEvent(s, answer.oldExt, answer.newExt, answer.address)];
        RunOne(b, trace[0]);
        if ok { return Reconcile, trace; }
      }
      AnswerSteps(Contents(), s, answer);
      GiveUp(s);
      RunNext(b, trace, UncertainEvent(s));
      return Frozen, trace + [UncertainEvent(s)];
    }

    /** The steps around the provider call once the mutation was entered; `delay` is how long
        the provider takes to answer. */
    method CallProvider(s: nat, answer: Answer, delay: nat) returns (outcome: Outcome, ghost trace: seq<Event>)
      requires s < |sessions| && sessions[s].phase.Entered?
      modifies this
      ensures Contents() == Run(old(Contents()), trace) && CallsIn(trace) <= 1
      ensures outcome.Reconcile? ==> CallsIn(trace) == 1
    {
      hide Run;
      ghost var b := Contents();
      var called;
      called, trace := FencedCall(s);
      clock := clock + delay;
      RunNext(b, trace, Tick(delay));
      hide Step;
      trace := trace + [Tick(delay)];
      ghost var more;
      outcome, more := RecordAnswer(s, answer);
      RunsJoin(b, trace, more);
      trace := trace + more;
    }

    /** A revalidation that raises fails the job under the worker's own token. */
    method RevalidateOrFail(s: nat, manual: bool, enter: bool) returns (decision: Option<Decision>, ghost trace: seq<Event>)
      requires s < |sessions| && sessions[s].phase.Claimed?
      modifies this`jobs, this`assignments, this`sessions, this`settings
      ensures Contents() == Run(old(Contents()), trace) && CallsIn(trace) == 0
      ensures |sessions| == |old(sessions)|
      ensures decision == Some(Allowed) ==> sessions[s].phase == if enter then Entered else Claimed
    {
      hide Revalidate, MarkFailed, Run;
      ghost var b := Contents();
      decision := RevalidateJob(s, manual, enter);
      trace := [RevalidateEvent(s, manual, enter)];
      RunOne(b, trace[0]);
      if decision.None? {
        ghost var failed := FailedEvent(sessions[s].job, false, true, None, Some(s));
        MarkSwapFailed(sessions[s].job, false, true, None, Some(s));
        RunNext(b, trace, failed);
        trace := trace + [failed];
      }
    }

    /** `_run_once_for_job_impl` from the claim on: a run of the swap steps with at most one call. */
    method RunOnce(wanted: Option<nat>, manual: bool, seconds: int, answer: Answer, delay: nat)
      returns (outcome: Outcome, ghost trace: seq<Event>)
      modifies this
      ensures Contents() == Run(old(Contents()), trace) && CallsIn(trace) <= 1
      ensures outcome.Reconcile? ==> CallsIn(trace) == 1
    {
      hide Claim, Run;
      ghost var b := Contents();
      var session := ClaimNext(wanted, seconds);
      RunOne(b, ClaimEvent(wanted, seconds));
      trace := [ClaimEvent(wanted, seconds)];
      if session.None? { return Idle, trace; }
      hide Step;
      var s := session.value;
      var round := 0;
      while round < 2
        invariant 0 <= round <= 2 && s < |sessions|
        invariant sessions[s].phase == if round < 2 then Claimed else Entered
        invariant Contents() == Run(b, trace) && CallsIn(trace) == 0
      {
        var decision;
        ghost var more;
        decision, more := RevalidateOrFail(s, manual, round == 1);
        RunsJoin(b, trace, more);
        trace := trace + more;
        if decision.None? { return Stale, trace; }
        if decision.value.Refused? {
          return if decision.value.reason.DashboardStale? && !manual then Deferred else Outcome.Rejected(decision.value.reason), trace;
        }
        round := round + 1;
      }
      ghost var more;
      outcome, more := CallProvider(s, answer, delay);
      RunsJoin(b, trace, more);
      trace := trace + more;
    }
  }

  // ----- Traces -----

  ghost function CallsIn(trace: seq<Event>): nat {
    if trace == [] then 0 else CallsIn(trace[..|trace| - 1]) + (if trace[|trace| - 1].CallEvent? then 1 else 0)
  }

  lemma AnswerSteps(b: Board, s: nat, answer: Answer)
    ensures answer.Answer? ==> Step(b, AppliedEvent(s, answer.oldExt, answer.newExt, answer.address))
                               == MarkApplied(b, s, answer.oldExt, answer.newExt, answer.address)
    ensures Step(b, UncertainEvent(s)) == Uncertain(b, s)
  {
    hide MarkApplied, Uncertain;
  }

  lemma RunNone(b: Board)
    ensures Run(b, []) == b
  {}

  lemma RunOne(b: Board, e: Event)
    ensures Run(b, [e]) == Step(b, e) && CallsIn([e]) == if e.CallEvent? then 1 else 0
  {
    assert [e][..0] == [];
    assert Run(b, []) == b;
  }

  lemma RunNext(b: Board, trace: seq<Event>, e: Event)
    ensures Run(b, trace + [e]) == Step(Run(b, trace), e)
    ensures CallsIn(trace + [e]) == CallsIn(trace) + (if e.CallEvent? then 1 else 0)
  {
    assert (trace + [e])[..|trace|] == trace;
  }

  lemma {:induction false} RunsJoin(b: Board, trace: seq<Event>, more: seq<Event>)
    ensures Run(b, trace + more) == Run(Run(b, trace), more) && CallsIn(trace + more) == CallsIn(trace) + CallsIn(more)
  {
    if more == [] {
      assert trace + more == trace;
    } else {
      hide Step;
      var n := |more| - 1;
      RunsJoin(b, trace, more[..n]);
      assert (trace + more)[..|trace| + n] == trace + more[..n];
    }
  }
}
