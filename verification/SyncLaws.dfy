/** Which sync runs are queued, claimed, renewed and ended, and where the outcome of a probe goes
    (app/services/proxiware.py:250-405, 601-650, 999-1072, app/services/proxiware_qualification.py:125-134, 234-380). */
module SyncLaws {
  import opened Wrappers
  import opened Inventory
  import opened SyncModel
  import opened SyncInvariants

  // ----- Runs -----

  /** The run is being worked on: its lease lasts beyond this moment. */
  predicate Alive(r: SyncRun, now: int) {
    r.status.Running? && r.claimedUntil.Some? && now < r.claimedUntil.value
  }

  /** A request adds one waiting run unless one waits already, or one is under way and the caller minds. */
  lemma EnqueuedExactly(s: Site, allow: bool)
    ensures var u := Enqueue(s, allow);
            if (forall k :: 0 <= k < |s.runs| ==> !s.runs[k].status.Queued? && (allow || !s.runs[k].status.Running?))
            then u.runs == s.runs + [SyncRun(Queued, None, None, false)] && u == s.(runs := u.runs) else u == s
  {}

  /** A claim succeeds exactly when no run is alive and there is one waiting or the caller may create one.  It takes
      the run waiting longest, for sixty seconds at least; whatever was left running has failed. */
  lemma RunClaimedExactly(s: Site, seconds: int, create: bool)
    ensures var u := ClaimRun(s, seconds, create);
            if (exists k :: 0 <= k < |s.runs| && Alive(s.runs[k], s.clock)) || (!create && forall k :: 0 <= k < |s.runs| ==> !s.runs[k].status.Queued?)
            then u == s
            else |u.syncs| == |s.syncs| + 1 && Taken(s, u, u.syncs[|s.syncs|].run, seconds)
  {
    hide AnyStatus;
    var runs := Expire(s.runs, s.clock);
    AliveStays(s.runs, s.clock);
    if !AnyStatus(runs, Running) && (create || exists k :: 0 <= k < |s.runs| && s.runs[k].status.Queued?) {
      var u := ClaimRun(s, seconds, create);
      var first := FirstQueued(runs, 0);
      var n := if first.Some? then first.value else |runs|;
      assert u.syncs[|s.syncs|].run == n;
      assert first.None? ==> create;
    }
  }

  lemma AliveStays(runs: seq<SyncRun>, now: int)
    ensures AnyStatus(Expire(runs, now), Running) <==> exists k :: 0 <= k < |runs| && Alive(runs[k], now)
    ensures forall k :: 0 <= k < |runs| ==> (Expire(runs, now)[k].status.Queued? <==> runs[k].status.Queued?)
  {
    if k :| 0 <= k < |runs| && Alive(runs[k], now) {
      assert Expire(runs, now)[k].status.Running?;
    }
    if k :| 0 <= k < |runs| && Expire(runs, now)[k].status.Running? {
      assert Alive(runs[k], now);
    }
  }

  ghost predicate Taken(s: Site, u: Site, n: nat, seconds: int)
    requires |u.syncs| == |s.syncs| + 1
  {
    var pass := u.syncs[|s.syncs|];
    && n < |u.runs| && (n < |s.runs| ==> s.runs[n].status.Queued? && forall k :: 0 <= k < n ==> !s.runs[k].status.Queued?)
    && (n >= |s.runs| ==> n == |s.runs| && forall k :: 0 <= k < |s.runs| ==> !s.runs[k].status.Queued?)
    && |u.runs| == (if n < |s.runs| then |s.runs| else |s.runs| + 1)
    && pass.lease >= 60 && pass.lease >= seconds && (pass.lease == 60 || pass.lease == seconds)
    && pass.phase.Listing? && pass.listing == [] && pass.answers == [] && pass.seen == {} && pass.seenSubs == {}
    && u.runs[n] == SyncRun(Running, Some(|s.syncs|), Some(s.clock + pass.lease), n < |s.runs| && s.runs[n].cancelRequested)
    && (forall k :: 0 <= k < |s.runs| && k != n ==>
          u.runs[k] == if s.runs[k].status.Running? then SyncRun(Failed, None, None, s.runs[k].cancelRequested) else s.runs[k])
    && u == s.(runs := u.runs, syncs := s.syncs + [pass])
  }

  /** A cancellation ends a waiting run and flags one under way; it finds nothing to do where one was asked for before. */
  lemma CancelledExactly(s: Site, r: nat)
    ensures var u := RequestCancel(s, r);
            if r < |s.runs| && !s.runs[r].cancelRequested && (s.runs[r].status.Queued? || s.runs[r].status.Running?)
            then && |u.runs| == |s.runs| && u == s.(runs := u.runs)
                 && (forall k :: 0 <= k < |s.runs| && k != r ==> u.runs[k] == s.runs[k])
                 && u.runs[r].cancelRequested && u.runs[r].token == s.runs[r].token && u.runs[r].claimedUntil == s.runs[r].claimedUntil
                 && (s.runs[r].status.Queued? ==> u.runs[r].status.Canceled?) && (s.runs[r].status.Running? ==> u.runs[r].status.Running?)
            else u == s
  {}

  /** Between transactions a pass goes on exactly while its run is alive under its token and nobody asked for its
      end; then its lease runs anew from this moment.  The run it still holds when asked to stop is cancelled. */
  lemma GuardedExactly(s: Site, y: nat)
    requires RunsOk(s) && y < |s.syncs| && !s.syncs[y].phase.Finished? && s.syncs[y].run < |s.runs|
    ensures var u, n := Guard(s, y), s.syncs[y].run;
            var run := s.runs[n];
            && |u.runs| == |s.runs| && |u.syncs| == |s.syncs|
            && (forall k :: 0 <= k < |s.runs| && k != n ==> u.runs[k] == s.runs[k])
            && (forall k :: 0 <= k < |s.syncs| && k != y ==> u.syncs[k] == s.syncs[k])
            && u == s.(runs := u.runs, syncs := u.syncs)
            && if Alive(run, s.clock) && run.token == Some(y)
               then if run.cancelRequested then u.runs[n] == SyncRun(Canceled, None, None, true) && u.syncs[y] == s.syncs[y].(phase := Finished)
                    else u.runs[n] == SyncRun(Running, Some(y), Some(s.clock + s.syncs[y].lease), false) && u.syncs[y] == s.syncs[y]
               else u.runs[n] == run && u.syncs[y] == s.syncs[y].(phase := Finished)
  {
    assert RunOk(s, s.syncs[y].run);
  }

  /** Any other failure of a pass fails the run it still holds, lease or no lease, and no other. */
  lemma AbortedExactly(s: Site, y: nat)
    requires y < |s.syncs| && !s.syncs[y].phase.Finished?
    ensures var u := Abort(s, y);
            && |u.runs| == |s.runs| && u.syncs == s.syncs[y := s.syncs[y].(phase := Finished)] && u == s.(runs := u.runs, syncs := u.syncs)
            && forall k :: 0 <= k < |s.runs| ==>
                 u.runs[k] == if k == s.syncs[y].run && s.runs[k].status.Running? && s.runs[k].token == Some(y)
                              then SyncRun(Failed, None, None, s.runs[k].cancelRequested) else s.runs[k]
  {}

  /** A transaction begun in time and ended within the lease it renewed is written, with the clock moved on; one
      that lost its lease writes nothing. */
  lemma FinishedExactly(s: Site, y: nat, elapsed: nat)
    requires y < |s.syncs| && s.syncs[y].phase.Working? && |s.syncs[y].answers| == |s.syncs[y].listing|
    ensures var u, n := Finish(s, y, elapsed), s.syncs[y].run;
            if n < |s.runs| && Alive(s.runs[n], s.clock) && s.runs[n].token == Some(y) && elapsed < s.syncs[y].lease
            then && |u.runs| == |s.runs| && u.runs[n] == SyncRun(Success, None, None, s.runs[n].cancelRequested)
                 && (forall k :: 0 <= k < |s.runs| && k != n ==> u.runs[k] == s.runs[k])
                 && |u.assignments| == |s.assignments| && |u.subscriptions| == |s.subscriptions|
                 && (forall k: nat :: k < |s.assignments| ==> u.assignments[k] == Unlisted(s.assignments[k], s.syncs[y].seen, s.clock))
                 && (forall k: nat :: k < |s.subscriptions| ==>
                       u.subscriptions[k] == if s.subscriptions[k].missingAt.Some? || s.subscriptions[k].externalId in s.syncs[y].seenSubs then s.subscriptions[k]
                                             else s.subscriptions[k].(status := "missing", missingAt := Some(s.clock)))
                 && u.clock == s.clock + elapsed
            else u == s.(syncs := u.syncs)
  {}

  /** What becomes of a row that a whole listing did not name: missing from this moment, if it was not before. */
  function Unlisted(a: Option<Assignment>, seen: set<string>, now: int): Option<Assignment> {
    match a
    case None => None
    case Some(v) => if v.missingAt.None? && v.externalId !in seen then Some(v.(status := "missing", missingAt := Some(now))) else a
  }

  // ----- Probes -----

  /** A batch claims the listed rows among its ids under one token nobody was given before. */
  lemma ChecksClaimedExactly(s: Site, ids: set<nat>, k: nat)
    requires k < |s.assignments|
    ensures var u := ClaimChecks(s, ids);
            && |u.assignments| == |s.assignments| && u.nextClaim == s.nextClaim + 1
            && u == s.(assignments := u.assignments, nextClaim := u.nextClaim)
            && u.assignments[k] == if k in ids && s.assignments[k].Some? && s.assignments[k].value.missingAt.None?
                                   then Some(s.assignments[k].value.(checkToken := Some(s.nextClaim))) else s.assignments[k]
  {}

  /** A probe starts on a listed row, of its own claim if it has one, with what the row is now. */
  lemma ProbeStartedExactly(s: Site, id: nat, token: Option<nat>)
    ensures var u := StartProbe(s, id, token);
            if id < |s.assignments| && s.assignments[id].Some? && s.assignments[id].value.missingAt.None?
               && (token.None? || s.assignments[id].value.checkToken == token)
            then u == s.(probes := s.probes + [Probe(id, s.assignments[id].value.generation, s.assignments[id].value.identity, token, Measuring)])
            else u == s
  {}

  /** The row is still listed, of the same generation, at the same endpoint and with the same credentials. */
  predicate Measured(t: Table, p: Probe) {
    && p.id < |t| && t[p.id].Some? && t[p.id].value.missingAt.None? && t[p.id].value.generation == p.generation
    && t[p.id].value.identity.host == p.identity.host && t[p.id].value.identity.port == p.identity.port
    && t[p.id].value.identity.username == p.identity.username && t[p.id].value.identity.password == p.identity.password
  }

  lemma ConfirmedExactly(s: Site, k: nat)
    requires k < |s.probes| && s.probes[k].stage.Measuring?
    ensures var u := ConfirmIdentity(s, k);
            && u == s.(probes := s.probes[k := s.probes[k].(stage := u.probes[k].stage)])
            && u.probes[k].stage == if Measured(s.assignments, s.probes[k]) then Confirmed else Ended
  {}

  /** An outcome is written to the row it was measured on exactly if that still has the generation read and the
      claim of the probe, if any; then the claim is given back and nothing else of the row changes. */
  lemma OutcomeStoredExactly(s: Site, k: nat, o: Outcome)
    requires k < |s.probes| && s.probes[k].stage.Confirmed?
    ensures var u, p := StoreOutcome(s, k, o), s.probes[k];
            && |u.assignments| == |s.assignments| && u == s.(assignments := u.assignments, probes := s.probes[k := p.(stage := Ended)])
            && forall i: nat :: i < |s.assignments| ==>
                 if i == p.id && s.assignments[i].Some? && s.assignments[i].value.generation == p.generation
                    && (p.token.None? || s.assignments[i].value.checkToken == p.token)
                 then u.assignments[i].Some? && Stored(s.assignments[i].value, u.assignments[i].value, o)
                 else u.assignments[i] == s.assignments[i]
  {}

  predicate Stored(a: Assignment, b: Assignment, o: Outcome) {
    && b.live == o.live && b.qualification == o.qualification && b.exitIp == o.exitIp
    && b.duplicateEgress == o.duplicate && b.distribution == o.distribution && b.checkToken.None?
    && a == b.(live := a.live, qualification := a.qualification, exitIp := a.exitIp, duplicateEgress := a.duplicateEgress,
               distribution := a.distribution, checkToken := a.checkToken)
  }
}
