/** The inventory tables and sync leases updated in place.

    Each method is proved to have the effect its counterpart in SyncModel describes, and a whole
    pass is proved to be a run of its steps. */
module SyncStore {
  import opened Wrappers
  import opened Inventory
  import opened SyncModel

  class Mirror {
    var subscriptions: seq<Subscription>
    var assignments: Table
    var runs: seq<SyncRun>
    var syncs: seq<Sync>
    var probes: seq<Probe>
    var writes: seq<nat>
    var nextClaim: nat
    var clock: int

    function Contents(): Site
      reads this
    {
      Site(subscriptions, assignments, runs, syncs, probes, writes, nextClaim, clock)
    }

    constructor ()
      ensures Contents() == Init()
    {
      subscriptions, assignments, runs, syncs, probes, writes, nextClaim, clock := [], [], [], [], [], [], 0, 0;
    }

    // ----- Leases -----

    method HasStatus(st: RunStatus) returns (any: bool)
      ensures any == AnyStatus(runs, st)
    {
      var k := 0;
      while k < |runs|
        invariant 0 <= k <= |runs|
        invariant forall n :: 0 <= n < k ==> runs[n].status != st
      {
        if runs[k].status == st { return true; }
        k := k + 1;
      }
      return false;
    }

    method EnqueueSyncRun(allowDuringRunning: bool) returns (queued: bool)
      modifies this`runs
      ensures Contents() == Enqueue(old(Contents()), allowDuringRunning)
      ensures queued <==> |runs| > |old(runs)|
    {
      var anyQueued := HasStatus(Queued);
      var anyRunning := HasStatus(Running);
      if anyQueued || (anyRunning && !allowDuringRunning) { return false; }
      runs := runs + [SyncRun(Queued, None, None, false)];
      return true;
    }

    method FailExpired()
      modifies this`runs
      ensures runs == Expire(old(runs), clock)
    {
      var k := 0;
      while k < |runs|
        invariant 0 <= k <= |runs| == |old(runs)|
        invariant forall n :: 0 <= n < k ==> runs[n] == Expired(old(runs)[n], clock)
        invariant forall n :: k <= n < |runs| ==> runs[n] == old(runs)[n]
      {
        if runs[k].status.Running? && (runs[k].claimedUntil.None? || runs[k].claimedUntil.value <= clock) {
          runs := runs[k := runs[k].(status := Failed, token := None, claimedUntil := None)];
        }
        k := k + 1;
      }
    }

    method OldestQueued() returns (k: nat)
      ensures k == match FirstQueued(runs, 0) case Some(q) => q case None => |runs|
    {
      k := 0;
      while k < |runs| && !runs[k].status.Queued?
        invariant 0 <= k <= |runs|
        invariant forall n :: 0 <= n < k ==> !runs[n].status.Queued?
      {
        k := k + 1;
      }
    }

    /** Rolling back restores the expired leases too. */
    method ClaimSyncRun(seconds: int, create: bool) returns (claimed: Option<nat>)
      modifies this`runs, this`syncs
      ensures Contents() == ClaimRun(old(Contents()), seconds, create)
      ensures claimed.Some? ==> claimed.value == |old(syncs)| < |syncs| && syncs[claimed.value].phase.Listing? && syncs[claimed.value].answers == []
    {
      hide Expire, AnyStatus, FirstQueued;
      var before := runs;
      FailExpired();
      var active := HasStatus(Running);
      if active {
        runs := before;
        return None;
      }
      var lease := Max(60, seconds);
      var k := OldestQueued();
      if k < |runs| {
        runs := runs[k := SyncRun(Running, Some(|syncs|), Some(clock + lease), runs[k].cancelRequested)];
      } else if create {
        runs := runs + [SyncRun(Running, Some(|syncs|), Some(clock + lease), false)];
      } else {
        runs := before;
        return None;
      }
      syncs := syncs + [NewSync(k, lease, |writes|)];
      return Some(|syncs| - 1);
    }

    method RequestSyncCancel(r: nat) returns (requested: bool)
      modifies this`runs
      ensures Contents() == RequestCancel(old(Contents()), r)
      ensures requested <==> r < |runs| && !old(runs)[r].cancelRequested && runs[r].cancelRequested
    {
      if r >= |runs| || runs[r].cancelRequested { return false; }
      if runs[r].status.Queued? {
        runs := runs[r := runs[r].(cancelRequested := true, status := Canceled)];
        return true;
      }
      if !runs[r].status.Running? { return false; }
      runs := runs[r := runs[r].(cancelRequested := true)];
      return true;
    }

    /** The UPDATE of `_renew_sync_lease`: it matches only an unexpired lease of this very claim. */
    method RenewLease(y: nat) returns (owned: bool)
      requires y < |syncs|
      modifies this`runs
      ensures owned == Owns(old(Contents()), y)
      ensures Contents() == if owned then Renewed(old(Contents()), y) else old(Contents())
    {
      var r := syncs[y].run;
      if r >= |runs| || !runs[r].status.Running? || runs[r].token != Some(y) { return false; }
      if runs[r].claimedUntil.None? || runs[r].claimedUntil.value <= clock { return false; }
      runs := runs[r := runs[r].(claimedUntil := Some(clock + syncs[y].lease))];
      return true;
    }

    /** `_raise_if_sync_cancelled`; false is one of its two exceptions. */
    method CheckCancelled(y: nat) returns (go: bool)
      requires y < |syncs| && !syncs[y].phase.Finished?
      modifies this`runs, this`syncs
      ensures Contents() == Guard(old(Contents()), y)
      ensures |syncs| == |old(syncs)| && (if go then syncs == old(syncs) else syncs[y].phase.Finished?)
    {
      var owned := RenewLease(y);
      if !owned {
        syncs := syncs[y := syncs[y].(phase := Finished)];
        return false;
      }
      var r := syncs[y].run;
      if runs[r].cancelRequested {
        runs := runs[r := runs[r].(status := Canceled, token := None, claimedUntil := None)];
        syncs := syncs[y := syncs[y].(phase := Finished)];
        return false;
      }
      return true;
    }

    // ----- Upserts -----

    method LookUpSubscription(ext: string) returns (found: Option<nat>)
      ensures found == FindSubscription(subscriptions, |subscriptions|, ext)
    {
      found := None;
      var k := 0;
      while k < |subscriptions|
        invariant 0 <= k <= |subscriptions|
        invariant found == FindSubscription(subscriptions, k, ext)
      {
        if subscriptions[k].externalId == ext {
          found := Some(k);
        }
        k := k + 1;
      }
    }

    method StoreSubscription(raw: RawSubscription)
      requires raw.externalId.Some?
      modifies this`subscriptions
      ensures subscriptions == UpsertSubscription(old(subscriptions), raw, clock)
    {
      hide FindSubscription;
      var found := LookUpSubscription(raw.externalId.value);
      if found.None? {
        subscriptions := subscriptions + [Subscription(raw.externalId.value, raw.status, None, raw.expiresAt, raw.eligibleCount, Some(clock), -1, 0)];
      } else {
        var k := found.value;
        subscriptions := subscriptions[k := subscriptions[k].(status := raw.status, expiresAt := raw.expiresAt,
                                                              eligibleCount := raw.eligibleCount, lastSeen := Some(clock), missingAt := None)];
      }
    }

    method StoreProxy(r: RawProxy, sub: nat)
      modifies this`assignments
      ensures assignments == UpsertProxy(old(assignments), r, sub, clock)
    {
      hide FindExternal;
      if r.id.None? || r.host == "" || r.port.None? || r.port.value < 1 || r.port.value > 65535 { return; }
      var found := LookUp(assignments, r.id.value);
      if found.None? {
        assignments := assignments + [Some(Inserted(r, sub, clock))];
        return;
      }
      var k := found.value;
      var a := assignments[k].value;
      var identity := Identity(r.host, r.port.value, Or(r.username, a.identity.username), Or(r.password, a.identity.password));
      var changed := identity != a.identity;
      var qualification, live := Or(r.qualification, a.qualification), Or(r.live, a.live);
      if changed {
        qualification, live := "pending", "pending";
        a := WithoutDashboard(a).(exitIp := "", duplicateEgress := false, checkToken := None);
      }
      assignments := assignments[k := Some(a.(subscription := sub, identity := identity, generation := a.generation + (if changed then 1 else 0),
                                              status := Or(r.status, a.status), qualification := qualification, live := live,
                                              providerEligible := Or(r.eligible, a.providerEligible), lastSeen := Some(clock), missingAt := None))];
    }

    /** The proxy loop of one subscription, with the ids it has seen. */
    method StoreProxies(raws: seq<RawProxy>, sub: nat) returns (seen: set<string>)
      modifies this`assignments
      ensures assignments == UpsertAll(old(assignments), raws, sub, clock) && seen == IdsOf(raws)
    {
      hide UpsertProxy;
      seen := {};
      var k := 0;
      while k < |raws|
        invariant 0 <= k <= |raws|
        invariant assignments == UpsertAll(old(assignments), raws[..k], sub, clock) && seen == IdsOf(raws[..k])
      {
        assert raws[..k + 1][..k] == raws[..k];
        if ValidProxy(raws[k]) {
          seen := seen + {raws[k].id.value};
        }
        StoreProxy(raws[k], sub);
        k := k + 1;
      }
      assert raws[..k] == raws;
    }

    /** One subscription of the listing; false is a lost lease, with everything rolled back. */
    method WriteSubscription(y: nat, proxies: seq<RawProxy>, elapsed: nat) returns (go: bool)
      requires y < |syncs| && syncs[y].phase.Working? && |syncs[y].answers| < |syncs[y].listing|
      modifies this
      ensures Contents() == WriteNext(old(Contents()), y, proxies, elapsed)
      ensures |syncs| == |old(syncs)| && syncs[y].listing == old(syncs)[y].listing
      ensures go ==> syncs[y].phase.Working? && |syncs[y].answers| == |old(syncs)[y].answers| + 1
      ensures !go ==> syncs[y].phase.Finished?
    {
      hide UpsertAll, UpsertSubscription, FindSubscription, IdsOf;
      var sync := syncs[y];
      var raw := sync.listing[|sync.answers|];
      if !ValidSubscription(raw) {
        syncs := syncs[y := sync.(answers := sync.answers + [[]])];
        return true;
      }
      var before := runs;
      var owned := RenewLease(y);
      if !owned || elapsed >= sync.lease {
        runs := before;
        syncs := syncs[y := sync.(phase := Finished)];
        return false;
      }
      StoreSubscription(raw);
      var sub := LookUpSubscription(raw.externalId.value);
      var seen := StoreProxies(proxies, Or(sub, 0));
      syncs := syncs[y := sync.(answers := sync.answers + [proxies], seenSubs := sync.seenSubs + {raw.externalId.value}, seen := sync.seen + seen)];
      writes := writes + [y];
      clock := clock + elapsed;
      return true;
    }

    // ----- The final transaction -----

    method MissAssignments(seen: set<string>)
      modifies this`assignments
      ensures assignments == MarkMissing(old(assignments), seen, clock)
    {
      ghost var target := MarkMissing(assignments, seen, clock);
      var k := 0;
      while k < |assignments|
        invariant 0 <= k <= |assignments| == |target|
        invariant assignments[..k] == target[..k] && assignments[k..] == old(assignments)[k..]
      {
        if assignments[k].Some? && assignments[k].value.missingAt.None? && assignments[k].value.externalId !in seen {
          assignments := assignments[k := Some(assignments[k].value.(status := "missing", missingAt := Some(clock)))];
        }
        k := k + 1;
      }
    }

    method MissSubscriptions(seen: set<string>)
      modifies this`subscriptions
      ensures subscriptions == MarkMissingSubs(old(subscriptions), seen, clock)
    {
      ghost var target := MarkMissingSubs(subscriptions, seen, clock);
      var k := 0;
      while k < |subscriptions|
        invariant 0 <= k <= |subscriptions| == |target|
        invariant subscriptions[..k] == target[..k] && subscriptions[k..] == old(subscriptions)[k..]
      {
        if subscriptions[k].missingAt.None? && subscriptions[k].externalId !in seen {
          subscriptions := subscriptions[k := subscriptions[k].(status := "missing", missingAt := Some(clock))];
        }
        k := k + 1;
      }
    }

    method FinishSync(y: nat, elapsed: nat) returns (ok: bool)
      requires y < |syncs| && syncs[y].phase.Working? && |syncs[y].answers| == |syncs[y].listing|
      modifies this
      ensures Contents() == Finish(old(Contents()), y, elapsed)
      ensures ok == InLease(old(Contents()), y, elapsed)
    {
      hide MarkMissing, MarkMissingSubs;
      var sync := syncs[y];
      var before := runs;
      var owned := RenewLease(y);
      if !owned || elapsed >= sync.lease {
        runs := before;
        syncs := syncs[y := sync.(phase := Finished)];
        return false;
      }
      MissSubscriptions(sync.seenSubs);
      MissAssignments(sync.seen);
      runs := runs[sync.run := runs[sync.run].(status := Success, token := None, claimedUntil := None)];
      syncs := syncs[y := sync.(phase := Finished)];
      writes := writes + [y];
      clock := clock + elapsed;
      return true;
    }

    // ----- A whole pass -----

    /** The subscription loop of `sync_proxiware_inventory`; `answers` are the provider's proxy
        lists and `elapsed` how long each transaction takes. */
    method WriteListing(y: nat, answers: seq<seq<RawProxy>>, elapsed: seq<nat>) returns (go: bool, ghost trace: seq<Event>)
      requires y < |syncs| && syncs[y].phase.Working? && syncs[y].answers == []
      requires |answers| == |elapsed| == |syncs[y].listing|
      modifies this
      ensures Contents() == Run(old(Contents()), trace)
      ensures go ==> y < |syncs| && syncs[y].phase.Working? && |syncs[y].answers| == |syncs[y].listing|
    {
      hide Run, Guard, WriteNext;
      ghost var s := Contents();
      trace := [];
      RunNone(s);
      var k := 0;
      while k < |answers|
        invariant 0 <= k <= |answers|
        invariant y < |syncs| && syncs[y].phase.Working? && |syncs[y].answers| == k && |syncs[y].listing| == |answers|
        invariant Contents() == Run(s, trace)
      {
        go := CheckCancelled(y);
        RunNext(s, trace, GuardEvent(y));
        trace := trace + [GuardEvent(y)];
        if !go { return; }
        go := WriteSubscription(y, answers[k], elapsed[k]);
        RunNext(s, trace, WriteEvent(y, answers[k], elapsed[k]));
        trace := trace + [WriteEvent(y, answers[k], elapsed[k])];
        if !go { return; }
        k := k + 1;
      }
      go := CheckCancelled(y);
      RunNext(s, trace, GuardEvent(y));
      trace := trace + [GuardEvent(y)];
    }

    /** A pass that nothing interrupts is a run of the sync steps; it succeeds by its final commit. */
    method SyncInventory(seconds: int, listing: seq<RawSubscription>, answers: seq<seq<RawProxy>>, elapsed: seq<nat>, last: nat)
      returns (run: Option<nat>, ghost trace: seq<Event>)
      requires |answers| == |elapsed| == |listing|
      modifies this
      ensures Contents() == Run(old(Contents()), trace)
      ensures run.Some? ==> trace != [] && trace[|trace| - 1] == FinishEvent(|old(syncs)|, last)
      ensures run.Some? ==> run.value < |runs| && runs[run.value].status.Success?
    {
      hide Run, ClaimRun, Guard, Finish;
      ghost var s := Contents();
      var claimed := ClaimSyncRun(seconds, true);
      trace := [ClaimEvent(seconds, true)];
      RunOne(s, trace[0]);
      if claimed.None? { return None, trace; }
      var y := claimed.value;
      var go := CheckCancelled(y);
      RunNext(s, trace, GuardEvent(y));
      trace := trace + [GuardEvent(y)];
      if !go { return None, trace; }
      syncs := syncs[y := syncs[y].(phase := Working, listing := listing)];
      RunNext(s, trace, ListEvent(y, listing));
      trace := trace + [ListEvent(y, listing)];
      ghost var more;
      go, more := WriteListing(y, answers, elapsed);
      RunsJoin(s, trace, more);
      trace := trace + more;
      if !go { return None, trace; }
      var r := syncs[y].run;
      var ok := FinishSync(y, last);
      FinishCloses(Run(s, trace), y, last);
      RunNext(s, trace, FinishEvent(y, last));
      trace := trace + [FinishEvent(y, last)];
      return if ok then Some(r) else None, trace;
    }

    // ----- Qualification -----

    /** `qualify_proxiware_assignment` after its probe answered: check, then guarded write. */
    method RecordOutcome(k: nat, o: Outcome) returns (stored: bool)
      requires k < |probes| && probes[k].stage.Measuring?
      modifies this`assignments, this`probes
      ensures Contents() == StoreOutcome(ConfirmIdentity(old(Contents()), k), k, o)
      ensures stored <==> IdentityCurrent(old(Contents()), old(probes)[k]) && TokenMatches(old(assignments)[old(probes)[k].id].value, old(probes)[k].token)
    {
      var p := probes[k];
      if p.id >= |assignments| || assignments[p.id].None? || assignments[p.id].value.missingAt.Some?
         || assignments[p.id].value.generation != p.generation || assignments[p.id].value.identity != p.identity {
        probes := probes[k := p.(stage := Ended)];
        return false;
      }
      probes := probes[k := p.(stage := Ended)];
      var a := assignments[p.id].value;
      if p.token.Some? && a.checkToken != p.token { return false; }
      assignments := assignments[p.id := Some(a.(live := o.live, qualification := o.qualification, exitIp := o.exitIp,
                                                 duplicateEgress := o.duplicate, distribution := o.distribution, checkToken := None))];
      return true;
    }
  }

  // ----- Traces -----

  lemma FinishCloses(s: Site, y: nat, elapsed: nat)
    ensures y < |s.syncs| && s.syncs[y].phase.Working? && |s.syncs[y].answers| == |s.syncs[y].listing| && InLease(s, y, elapsed) ==>
              s.syncs[y].run < |Finish(s, y, elapsed).runs| && Finish(s, y, elapsed).runs[s.syncs[y].run].status.Success?
  {}

  lemma RunNone(s: Site)
    ensures Run(s, []) == s
  {}

  lemma RunOne(s: Site, e: Event)
    ensures Run(s, [e]) == Step(s, e)
  {
    assert [e][..0] == [];
    assert Run(s, []) == s;
  }

  lemma RunNext(s: Site, trace: seq<Event>, e: Event)
    ensures Run(s, trace + [e]) == Step(Run(s, trace), e)
  {
    assert (trace + [e])[..|trace|] == trace;
  }

  lemma {:induction false} RunsJoin(s: Site, trace: seq<Event>, more: seq<Event>)
    ensures Run(s, trace + more) == Run(Run(s, trace), more)
  {
    if more == [] {
      assert trace + more == trace;
    } else {
      hide Step;
      var n := |more| - 1;
      RunsJoin(s, trace, more[..n]);
      assert (trace + more)[..|trace| + n] == trace + more[..n];
    }
  }
}
