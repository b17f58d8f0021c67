/** What each step of the swap queue asks for and writes, column by column
    (app/services/proxiware_swap.py:940-1945). */
module SwapLaws {
  import opened Wrappers
  import opened Inventory
  import opened SwapModel
  import opened SwapInvariants
  import opened SwapTheorems

  // ----- Queueing -----

  /** A job is pending, running, or somewhere in its mutation. */
  predicate Unfinished(p: Job) {
    p.state == Pending || p.state == Running || p.state == Mutating || p.state == Applied || p.state == Reconciling
  }

  predicate Untouched(p: Job, sub: nat, id: nat, now: int) {
    && p.subscription == sub && p.assignment == id && p.state == Pending && p.createdAt == now
    && p.replacement.None? && p.attempts == 0 && p.token.None? && p.claimedUntil.None? && p.startedAt.None? && p.appliedAt.None?
    && p.oldExternal == "" && p.oldHost == "" && p.oldPort == 0 && p.dashboardId == "" && p.newExternal == "" && p.newAddress.None?
    && p.calls == 0 && p.entries == 0 && p.requeues == 0
  }

  /** An assignment is queued exactly when automatic swapping is on, nothing is paused, the swap is allowed
      and no unfinished job has it. */
  lemma QueuedExactly(b: Board, id: nat)
    ensures var after := QueueOne(b, id);
            if b.settings.autoSwap && !b.settings.automationPaused && !b.settings.workerPaused
               && id < |b.assignments| && b.assignments[id].Some? && Decide(b, b.assignments[id].value.subscription, id, None).Allowed?
               && forall k :: 0 <= k < |b.jobs| && b.jobs[k].assignment == id ==> !Unfinished(b.jobs[k])
            then after == b.(jobs := after.jobs) && |after.jobs| == |b.jobs| + 1 && after.jobs[..|b.jobs|] == b.jobs
                 && Untouched(after.jobs[|b.jobs|], b.assignments[id].value.subscription, id, b.clock)
            else after == b
  {
    hide Decide;
    assert (exists k: nat :: k < |b.jobs| && b.jobs[k].assignment == id && Live(b.jobs[k].state))
           <==> !(forall k :: 0 <= k < |b.jobs| && b.jobs[k].assignment == id ==> !Unfinished(b.jobs[k]));
  }

  /** Missing, stale or contradictory dashboard evidence, and nothing before it, refuses a swap as stale. */
  lemma StaleExactly(b: Board, sub: nat, id: nat, exclude: Option<nat>)
    ensures Decide(b, sub, id, exclude) == Refused(DashboardStale) <==>
            && sub < |b.subscriptions| && Row(b.assignments, id)
            && (var s, a := b.subscriptions[sub], b.assignments[id].value;
                && (s.status == "active" || s.status == "ready") && s.missingAt.None? && (s.expiresAt.Some? ==> b.clock < s.expiresAt.value)
                && a.subscription == sub && (a.status == "active" || a.status == "current") && a.missingAt.None?
                && (a.live == "live" || a.live == "online") && a.qualification == "risk" && a.providerEligible && !a.duplicateEgress
                && (a.dashboardId == "" || !SeenLately(b, a.observedAt) || a.dashboardEligible.None?
                    || (a.dashboardEligible.value && (a.connections.None? || a.connections.value < 0))))
  {
    hide CountEligible, CountLive;
  }

  // ----- Claiming -----

  /** The lease of a running job has run out. */
  predicate Abandoned(p: Job, now: int) {
    p.state == Running && p.claimedUntil.Some? && p.claimedUntil.value <= now
  }

  /** Waiting in the queue, or left behind by a worker whose lease has run out. */
  predicate Free(p: Job, now: int) {
    Abandoned(p, now) || (p.state == Pending && (p.claimedUntil.Some? ==> p.claimedUntil.value <= now))
  }

  /** Running under a lease that has not run out, or in its mutation. */
  predicate Occupied(p: Job, now: int) {
    (p.state == Running && !Abandoned(p, now)) || p.state == Mutating || p.state == Applied || p.state == Reconciling
  }

  /** The job is free and no other job of its subscription is occupied. */
  predicate Takeable(jobs: seq<Job>, j: nat, now: int)
    requires j < |jobs|
  {
    Free(jobs[j], now) && forall k :: 0 <= k < |jobs| && k != j && jobs[k].subscription == jobs[j].subscription ==> !Occupied(jobs[k], now)
  }

  /** Back in the queue if its worker has left it behind. */
  predicate LeftTo(p: Job, q: Job, now: int) {
    q == if Abandoned(p, now) then p.(state := Pending, token := None, claimedUntil := None) else p
  }

  predicate TakenTo(p: Job, q: Job, session: nat, until: int) {
    q == p.(state := Running, token := Some(session), claimedUntil := Some(until), attempts := p.attempts + 1)
  }

  lemma {:induction false} TakeableIsClaimable(jobs: seq<Job>, j: nat, now: int)
    requires j < |jobs|
    ensures Takeable(jobs, j, now) <==> Claimable(Reclaim(jobs, now), j, now)
  {
    var r := Reclaim(jobs, now);
    assert forall k :: 0 <= k < |jobs| ==> r[k] == Reclaimed(jobs[k], now);
    if !Takeable(jobs, j, now) && Free(jobs[j], now) {
      var k :| 0 <= k < |jobs| && k != j && jobs[k].subscription == jobs[j].subscription && Occupied(jobs[k], now);
      assert r[k].subscription == r[j].subscription && Busy(r[k].state);
    }
    if SiblingBusy(r, j) {
      var k: nat :| k < |r| && k != j && r[k].subscription == r[j].subscription && Busy(r[k].state);
      assert Occupied(jobs[k], now);
    }
  }

  predicate Asked(wanted: Option<nat>, j: nat) {
    wanted.Some? ==> j == wanted.value
  }

  /** The takeable job asked for, or else the oldest. */
  ghost predicate Chosen(b: Board, wanted: Option<nat>, j: nat) {
    && j < |b.jobs| && Asked(wanted, j) && Takeable(b.jobs, j, b.clock)
    && forall k: nat :: k < |b.jobs| && Asked(wanted, k) && Takeable(b.jobs, k, b.clock) ==>
         b.jobs[j].createdAt < b.jobs[k].createdAt || (b.jobs[j].createdAt == b.jobs[k].createdAt && j <= k)
  }

  /** Job j under a fresh session and a lease of at least half a minute; abandoned jobs back in the queue. */
  ghost predicate Took(b: Board, after: Board, j: nat, seconds: int) {
    && j < |b.jobs| == |after.jobs| && after == b.(jobs := after.jobs, sessions := b.sessions + [Session(j, SwapModel.Claimed)])
    && TakenTo(b.jobs[j], after.jobs[j], |b.sessions|, b.clock + (if seconds > 30 then seconds else 30))
    && forall k :: 0 <= k < |b.jobs| && k != j ==> LeftTo(b.jobs[k], after.jobs[k], b.clock)
  }

  /** A claim takes one job exactly when there is one to take. */
  lemma ClaimedExactly(b: Board, wanted: Option<nat>, seconds: int)
    ensures var after := Claim(b, wanted, seconds);
            if exists j: nat :: j < |b.jobs| && Asked(wanted, j) && Takeable(b.jobs, j, b.clock)
            then exists j: nat :: Chosen(b, wanted, j) && Took(b, after, j, seconds)
            else |after.jobs| == |b.jobs| && after == b.(jobs := after.jobs) && forall k :: 0 <= k < |b.jobs| ==> LeftTo(b.jobs[k], after.jobs[k], b.clock)
  {
    var r := Reclaim(b.jobs, b.clock);
    ReclaimedExactly(b.jobs, b.clock);
    hide Takeable, Claimable, Reclaim, LeftTo, Asked;
    var picked := Pick(r, wanted, b.clock);
    PicksExactly(r, wanted, b.clock);
    hide Pick;
    if picked.Some? {
      assert Chosen(b, wanted, picked.value);
      TookIt(b, wanted, seconds, picked.value);
    }
    hide Took, Chosen;
  }

  lemma ReclaimedExactly(jobs: seq<Job>, now: int)
    ensures var r := Reclaim(jobs, now);
            && |r| == |jobs| && (forall k: nat :: k < |jobs| ==> r[k].createdAt == jobs[k].createdAt && LeftTo(jobs[k], r[k], now))
            && forall j: nat :: j < |jobs| ==> (Takeable(jobs, j, now) <==> Claimable(r, j, now))
  {
    forall j: nat | j < |jobs|
      ensures Takeable(jobs, j, now) <==> Claimable(Reclaim(jobs, now), j, now)
    {
      TakeableIsClaimable(jobs, j, now);
    }
    hide Takeable, Claimable;
  }

  lemma TookIt(b: Board, wanted: Option<nat>, seconds: int, j: nat)
    requires j < |b.jobs| && Pick(Reclaim(b.jobs, b.clock), wanted, b.clock) == Some(j) && Takeable(b.jobs, j, b.clock)
    ensures Took(b, Claim(b, wanted, seconds), j, seconds)
  {
    var r := Reclaim(b.jobs, b.clock);
    assert forall k :: 0 <= k < |b.jobs| ==> LeftTo(b.jobs[k], r[k], b.clock);
    hide Reclaim, Pick, LeftTo;
    TakenOf(b.jobs[j], r[j], b.clock, |b.sessions|, b.clock + (if seconds > 30 then seconds else 30));
  }

  lemma TakenOf(p: Job, r: Job, now: int, session: nat, until: int)
    requires LeftTo(p, r, now)
    ensures TakenTo(p, r.(state := Running, token := Some(session), claimedUntil := Some(until), attempts := r.attempts + 1), session, until)
  {}

  lemma PicksExactly(jobs: seq<Job>, wanted: Option<nat>, now: int)
    ensures var r := Pick(jobs, wanted, now);
            && (r.None? ==> forall k: nat :: k < |jobs| && Asked(wanted, k) ==> !Claimable(jobs, k, now))
            && (r.Some? ==>
                  && r.value < |jobs| && Asked(wanted, r.value) && Claimable(jobs, r.value, now)
                  && forall k: nat :: k < |jobs| && Asked(wanted, k) && Claimable(jobs, k, now) ==>
                       jobs[r.value].createdAt < jobs[k].createdAt || (jobs[r.value].createdAt == jobs[k].createdAt && r.value <= k))
  {
    hide Claimable;
  }
}
