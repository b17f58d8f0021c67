/** The promises of the inventory sync and of the probes beside it, over every run. */
module SyncTheorems {
  import opened Wrappers
  import opened Inventory
  import opened SyncModel
  import opened SyncInvariants

  // ----- The lease -----

  /** At most one sync run is running. */
  lemma OneSyncRuns(trace: seq<Event>, i: nat, j: nat)
    requires var runs := Run(Init(), trace).runs; i < |runs| && j < |runs| && i != j && runs[i].status.Running?
    ensures !Run(Init(), trace).runs[j].status.Running?
  {
    hide Run;
    RunInv(trace);
  }

  /** A pass that lost its run never gets it back, so nothing it does writes the inventory again. */
  lemma LostForGood(s: Site, e: Event, y: nat)
    requires SiteInv(s) && y < |s.syncs| && !Holds(s, y)
    ensures y < |Step(s, e).syncs| && !Holds(Step(s, e), y)
  {
    hide UpsertAll, UpsertSubscription, FindSubscription, TableStep, IdentityCurrent, Lands, SyncsOk, ProbesOk, ExternalIdsDiffer, SubsDiffer;
    assert s.syncs[y].run < |s.runs| ==> RunOk(s, s.syncs[y].run);
    if e.ClaimEvent? {
      ClaimTakesFresh(s, e.seconds, e.create, y);
    }
  }

  lemma ClaimTakesFresh(s: Site, seconds: int, create: bool, y: nat)
    requires RunsOk(s) && y < |s.syncs| && !Holds(s, y)
    ensures y < |ClaimRun(s, seconds, create).syncs| && !Holds(ClaimRun(s, seconds, create), y)
  {
    hide AnyStatus;
    assert s.syncs[y].run < |s.runs| ==> RunOk(s, s.syncs[y].run);
  }

  lemma {:induction false} LostForever(s: Site, trace: seq<Event>, y: nat)
    requires SiteInv(s) && y < |s.syncs| && !Holds(s, y)
    ensures SiteInv(Run(s, trace)) && y < |Run(s, trace).syncs| && !Holds(Run(s, trace), y)
  {
    if trace != [] {
      hide SiteInv, Step, Holds;
      var before, e := Run(s, trace[..|trace| - 1]), trace[|trace| - 1];
      LostForever(s, trace[..|trace| - 1], y);
      LostForGood(before, e, y);
      var _ := StepInv(before, e);
    }
  }

  // ----- A successful sync -----

  /** The pass has answered its whole listing and still holds its lease at the final commit. */
  predicate Succeeds(s: Site, y: nat, elapsed: nat) {
    y < |s.syncs| && s.syncs[y].phase.Working? && |s.syncs[y].answers| == |s.syncs[y].listing| && InLease(s, y, elapsed)
  }

  /** Row `k` after the final commit: missing exactly when it was not listed, unless a swap deleted
      that assignment during the pass. */
  predicate LeftByListing(s: Site, y: nat, elapsed: nat, k: nat)
    requires Succeeds(s, y, elapsed) && Row(Finish(s, y, elapsed).assignments, k)
  {
    var a, sync := Finish(s, y, elapsed).assignments[k].value, s.syncs[y];
    && (a.missingAt.None? ==> a.externalId in ListedIds(sync.listing, sync.answers))
    && (a.externalId !in sync.deleted ==> (a.missingAt.None? <==> a.externalId in ListedIds(sync.listing, sync.answers)))
  }

  lemma FinalRows(s: Site, y: nat, elapsed: nat, k: nat)
    requires SiteInv(s) && Succeeds(s, y, elapsed) && Row(Finish(s, y, elapsed).assignments, k)
    ensures LeftByListing(s, y, elapsed, k)
  {
    assert SyncOk(s, y);
    hide ListedIds, ListedSubs;
    var sync, a := s.syncs[y], s.assignments[k].value;
    if a.externalId in sync.seen && a.externalId !in sync.deleted {
      assert Present(s.assignments, a.externalId);
      var n: nat :| Row(s.assignments, n) && s.assignments[n].value.externalId == a.externalId && s.assignments[n].value.missingAt.None?;
      assert n == k;
    }
  }

  /** What the final commit of pass `y` leaves: the run succeeded; each row is missing exactly when not
      listed, and each listed id is there, deletions by swaps aside; the subscriptions are exactly the
      listed ones; and nobody else wrote the inventory since the run was claimed. */
  ghost predicate ListingLeft(s: Site, y: nat, elapsed: nat)
    requires SiteInv(s) && Succeeds(s, y, elapsed)
  {
    var after, sync := Finish(s, y, elapsed), s.syncs[y];
    assert SyncOk(s, y);
    var ids, subs := ListedIds(sync.listing, sync.answers), ListedSubs(sync.listing, |sync.listing|);
    && after.runs[sync.run].status.Success?
    && (forall k: nat :: Row(after.assignments, k) ==> LeftByListing(s, y, elapsed, k))
    && (forall ext :: ext in ids && ext !in sync.deleted ==> Present(after.assignments, ext))
    && (forall k :: 0 <= k < |after.subscriptions| ==> (after.subscriptions[k].missingAt.None? <==> after.subscriptions[k].externalId in subs))
    && (forall ext :: ext in subs ==> SubPresent(after.subscriptions, ext))
    && (forall k :: sync.claimedAt <= k < |after.writes| ==> after.writes[k] == y)
  }

  lemma FinalCommit(s: Site, y: nat, elapsed: nat)
    requires SiteInv(s) && Succeeds(s, y, elapsed)
    ensures ListingLeft(s, y, elapsed)
  {
    forall k: nat | Row(Finish(s, y, elapsed).assignments, k)
      ensures LeftByListing(s, y, elapsed, k)
    {
      FinalRows(s, y, elapsed, k);
    }
    hide LeftByListing;
    assert SyncOk(s, y);
    hide ListedIds, ListedSubs;
    var after, sync := Finish(s, y, elapsed), s.syncs[y];
    forall ext | ext in sync.seen && Present(s.assignments, ext)
      ensures Present(after.assignments, ext)
    {
      var k: nat :| Row(s.assignments, k) && s.assignments[k].value.externalId == ext && s.assignments[k].value.missingAt.None?;
      assert Row(after.assignments, k) && after.assignments[k].value.externalId == ext;
    }
    FinalSubscriptions(s, y, elapsed);
  }

  /** The final commit leaves exactly the provider's valid listing, less rows swaps have deleted,
      and nobody else wrote the inventory since the run was claimed. */
  lemma SuccessLeavesTheListing(trace: seq<Event>, y: nat, elapsed: nat)
    requires Succeeds(Run(Init(), trace), y, elapsed)
    ensures SiteInv(Run(Init(), trace)) && ListingLeft(Run(Init(), trace), y, elapsed)
  {
    hide Run, ListingLeft;
    RunInv(trace);
    FinalCommit(Run(Init(), trace), y, elapsed);
  }

  lemma FinalSubscriptions(s: Site, y: nat, elapsed: nat)
    requires SiteInv(s) && Succeeds(s, y, elapsed)
    ensures var after, sync := Finish(s, y, elapsed), s.syncs[y];
            && (forall k :: 0 <= k < |after.subscriptions| ==> (after.subscriptions[k].missingAt.None? <==> after.subscriptions[k].externalId in sync.seenSubs))
            && (forall ext :: ext in sync.seenSubs ==> SubPresent(after.subscriptions, ext))
  {
    assert SyncOk(s, y);
    hide ListedIds, ListedSubs;
    var after, sync := Finish(s, y, elapsed), s.syncs[y];
    forall ext | ext in sync.seenSubs
      ensures SubPresent(after.subscriptions, ext)
    {
      var k :| 0 <= k < |s.subscriptions| && s.subscriptions[k].externalId == ext && s.subscriptions[k].missingAt.None?;
      assert after.subscriptions[k].externalId == ext;
    }
    forall k | 0 <= k < |s.subscriptions| && s.subscriptions[k].externalId in sync.seenSubs
      ensures s.subscriptions[k].missingAt.None?
    {
      assert SubPresent(s.subscriptions, s.subscriptions[k].externalId);
      var n :| 0 <= n < |s.subscriptions| && s.subscriptions[n].externalId == s.subscriptions[k].externalId && s.subscriptions[n].missingAt.None?;
      assert n == k;
    }
  }

  // ----- Identities -----

  /** Within one row a generation never falls, and an identity changes only together with a higher
      generation or by being blanked. */
  lemma GenerationsGuardIdentities(s: Site, e: Event, k: nat)
    requires SiteInv(s) && Row(s.assignments, k) && Row(Step(s, e).assignments, k)
    ensures var a, b := s.assignments[k].value, Step(s, e).assignments[k].value;
            && b.generation >= a.generation && b.externalId == a.externalId
            && (b.identity != a.identity ==> b.generation > a.generation || b.identity == BLANK)
  {
    if e.WriteEvent? {
      hide SyncsOk, RunsOk, ProbesOk, SubsDiffer, UpsertAll, UpsertSubscription, FindSubscription;
      WriteAdvances(s, e.y, e.proxies, e.elapsed);
      assert RowAdvances(s.assignments[k].value, Step(s, e).assignments[k].value);
    } else {
      hide SiteInv, WriteNext, ClaimRun, Guard, IdentityCurrent;
    }
  }

  lemma WriteAdvances(s: Site, y: nat, proxies: seq<RawProxy>, elapsed: nat)
    requires ExternalIdsDiffer(s.assignments)
    ensures Advances(s.assignments, WriteNext(s, y, proxies, elapsed).assignments)
    ensures ExternalIdsDiffer(WriteNext(s, y, proxies, elapsed).assignments)
  {
    hide UpsertAll, UpsertSubscription, FindSubscription, ExternalIdsDiffer, IdsOf, Present;
    if y < |s.syncs| && s.syncs[y].phase.Working? && |s.syncs[y].answers| < |s.syncs[y].listing|
       && s.syncs[y].listing[|s.syncs[y].answers|].externalId.Some? {
      var subs := UpsertSubscription(s.subscriptions, s.syncs[y].listing[|s.syncs[y].answers|], s.clock);
      var sub := Or(FindSubscription(subs, |subs|, s.syncs[y].listing[|s.syncs[y].answers|].externalId.value), 0);
      UpsertAllAdvances(s.assignments, proxies, sub, s.clock);
    }
  }

  /** In every run a probe outcome lands on the identity it was measured on exactly when that row
      has not been blanked under it. */
  lemma OutcomesLandOnWhatWasMeasured(trace: seq<Event>, k: nat)
    requires Lands(Run(Init(), trace), k)
    ensures var s := Run(Init(), trace);
            var p := s.probes[k];
            s.assignments[p.id].value.identity == p.identity <==> (s.assignments[p.id].value.identity != BLANK || p.identity == BLANK)
  {
    hide Run;
    RunInv(trace);
    var s := Run(Init(), trace);
    assert ProbeOk(s.assignments, s.probes[k]);
  }

  /** The exception: a confirmed replacement is blanked between the identity check and the write,
      and the generation does not tell. */
  lemma BlankedMidProbe(s: Site, k: nat)
    requires k < |s.probes| && s.probes[k].stage.Measuring? && IdentityCurrent(s, s.probes[k])
    requires TokenMatches(s.assignments[s.probes[k].id].value, s.probes[k].token) && s.probes[k].identity != BLANK
    ensures var id := s.probes[k].id;
            var u := s.assignments[id := Some(Blanked(s.assignments[id].value))];
            var checked := Step(s, ConfirmEvent(k));
            var blanked := Step(checked, OthersEvent(s.subscriptions, u));
            && TableStep(s.assignments, u) && blanked.assignments == u
            && Lands(blanked, k) && blanked.assignments[id].value.identity != s.probes[k].identity
  {}
}
