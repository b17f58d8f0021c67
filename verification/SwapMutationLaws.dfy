/** What a swap job's steps from revalidation to success write, and exactly when
    (app/services/proxiware_swap.py:1098-1945). */
module SwapMutationLaws {
  import opened Wrappers
  import opened Inventory
  import opened SwapModel
  import opened SwapInvariants
  import opened SwapRuns
  import opened SwapTheorems
  import opened SwapLaws

  // ----- Revalidation -----

  /** The session has claimed the job and nobody has taken it since; the mutation also needs a live lease. */
  predicate StillClaimed(b: Board, s: nat, enter: bool) {
    && s < |b.sessions| && b.sessions[s].phase == SwapModel.Claimed && b.sessions[s].job < |b.jobs|
    && var p := b.jobs[b.sessions[s].job];
       p.state == Running && p.token == Some(s) && (enter ==> p.claimedUntil.Some? && p.claimedUntil.value > b.clock)
  }

  /** Automatic work needs the switch on and no pause; manual work only that the worker is not paused. */
  predicate MayWork(t: Settings, manual: bool) {
    !t.workerPaused && (manual || (t.autoSwap && !t.automationPaused))
  }

  /** The job goes into its mutation: frozen evidence of the old row, no lease, the row off the market. */
  predicate EnteredTo(b: Board, after: Board, s: nat, j: nat)
    requires j < |b.jobs| && s < |b.sessions| && Row(b.assignments, b.jobs[j].assignment)
  {
    var p, id := b.jobs[j], b.jobs[j].assignment;
    var a := b.assignments[id].value;
    after == b.(
      jobs := b.jobs[j := p.(state := Mutating, startedAt := Some(b.clock), claimedUntil := None, oldExternal := a.externalId,
                             oldHost := a.identity.host, oldPort := a.identity.port, dashboardId := a.dashboardId, entries := p.entries + 1)],
      assignments := b.assignments[id := Some(a.(dashboardId := "", dashboardEligible := None, connections := None, observedAt := None,
                                                 dashboardSource := "", distribution := false))],
      sessions := b.sessions[s := b.sessions[s].(phase := Entered)])
  }

  /** A claimed job that may be worked on and is still allowed enters its mutation if asked to; one refused
      only for stale evidence waits half a minute in the queue unless a person asked; any other refusal
      blocks it. */
  lemma RevalidatedExactly(b: Board, s: nat, manual: bool, enter: bool)
    requires BoardInv(b)
    ensures var after := Revalidate(b, s, manual, enter);
            if !StillClaimed(b, s, enter) then after == b
            else
              var j := b.sessions[s].job;
              var p := b.jobs[j];
              var d := Decide(b, p.subscription, p.assignment, Some(j));
              if MayWork(b.settings, manual) && d.Allowed? then
                && Row(b.assignments, p.assignment)
                && var a := b.assignments[p.assignment].value;
                   if enter && a.externalId != "" && b.subscriptions[p.subscription].externalId != ""
                   then EnteredTo(b, after, s, j) else after == b
              else
                after == b.(jobs := b.jobs[j :=
                  if MayWork(b.settings, manual) && d == Refused(DashboardStale) && !manual
                  then p.(state := Pending, token := None, claimedUntil := Some(b.clock + 30))
                  else p.(state := Blocked, token := None, claimedUntil := None)])
  {
    if StillClaimed(b, s, enter) {
      var j := b.sessions[s].job;
      assert JobOk(b, j);
      NoSibling(b, j);
      AllowedExactly(b, b.jobs[j].subscription, b.jobs[j].assignment, Some(j));
      hide BoardInv, Decide, SiblingBusy, Grants;
    }
  }

  lemma NoSibling(b: Board, j: nat)
    requires BoardInv(b) && j < |b.jobs| && b.jobs[j].state == Running
    ensures !SiblingBusy(b.jobs, j)
  {
    hide JobsOk, SessionsOk, ReadingsOk, QuotaKept, UsedCounted, MappingsOk, ExternalIdsDiffer;
    assert Busy(b.jobs[j].state);
  }

  // ----- Around the call -----

  /** The row with one external id, as there is at most one. */
  lemma FoundExactly(t: Table, ext: string, id: nat)
    requires ExternalIdsDiffer(t)
    ensures FindExternal(t, |t|, ext) == Some(id) <==> Row(t, id) && t[id].value.externalId == ext
  {}

  /** The provider's answer names the old row and a different new one, by id or by address. */
  predicate Answers(b: Board, s: nat, oldExt: string, newExt: string, address: AddressText) {
    && s < |b.sessions| && b.sessions[s].phase == Called && b.sessions[s].job < |b.jobs|
    && var p := b.jobs[b.sessions[s].job];
       && p.state == Mutating && p.token == Some(s)
       && oldExt != "" && oldExt != newExt && !address.Invalid? && (newExt != "" || address.Valid?)
       && p.oldExternal == oldExt
       && Row(b.assignments, p.assignment)
       && b.assignments[p.assignment].value.externalId == oldExt && b.assignments[p.assignment].value.subscription == p.subscription
       && (newExt != "" ==> forall k :: 0 <= k < |b.assignments| && b.assignments[k].Some? && b.assignments[k].value.externalId == newExt ==>
                                          b.assignments[k].value.subscription == p.subscription)
  }

  /** Nothing is known of the row but its id, its place and when it was listed. */
  predicate WipedTo(a: Assignment, q: Assignment) {
    q == a.(identity := Identity("", 0, "", ""), status := "pending", qualification := "pending", live := "pending", exitIp := "",
            providerEligible := false, duplicateEgress := false, distribution := false, readyAt := None,
            dashboardId := "", dashboardEligible := None, connections := None, observedAt := None, dashboardSource := "")
  }

  predicate OffMarket(a: Assignment, q: Assignment) {
    q == a.(dashboardId := "", dashboardEligible := None, connections := None, observedAt := None, dashboardSource := "", distribution := false)
  }

  /** An answer is recorded exactly when it fits the fence; then the old row is off the market and a new one
      that is known already is wiped, to be listed afresh. */
  lemma AppliedExactly(b: Board, s: nat, oldExt: string, newExt: string, address: AddressText)
    requires BoardInv(b)
    ensures var after := MarkApplied(b, s, oldExt, newExt, address);
            if !Answers(b, s, oldExt, newExt, address) then after == b
            else
              var j := b.sessions[s].job;
              var p := b.jobs[j];
              && after == b.(jobs := b.jobs[j := p.(state := Applied, appliedAt := Some(b.clock), newExternal := newExt,
                                                     newAddress := if address.Valid? then Some(address.address) else None, claimedUntil := None)],
                             assignments := after.assignments)
              && |after.assignments| == |b.assignments|
              && forall k :: 0 <= k < |b.assignments| ==>
                   if k == p.assignment then after.assignments[k].Some? && OffMarket(b.assignments[k].value, after.assignments[k].value)
                   else if newExt != "" && b.assignments[k].Some? && b.assignments[k].value.externalId == newExt
                   then after.assignments[k].Some? && WipedTo(b.assignments[k].value, after.assignments[k].value)
                   else after.assignments[k] == b.assignments[k]
  {
    if s < |b.sessions| && b.sessions[s].phase == Called && b.sessions[s].job < |b.jobs| && b.jobs[b.sessions[s].job].state == Mutating
       && b.jobs[b.sessions[s].job].token == Some(s) {
      var j := b.sessions[s].job;
      assert JobOk(b, j);
      RefusedExactly(b, s, oldExt, newExt, address);
      AppliedTables(b.assignments, b.jobs[j].assignment, newExt);
    }
    hide BoardInv, AppliedRefused, ClearRow, BlankExternal;
  }

  lemma RefusedExactly(b: Board, s: nat, oldExt: string, newExt: string, address: AddressText)
    requires ExternalIdsDiffer(b.assignments) && s < |b.sessions| && b.sessions[s].phase == Called && Fenced(b, s)
    requires b.jobs[b.sessions[s].job].oldExternal != ""
    ensures AppliedRefused(b, s, oldExt, newExt, address) <==> !Answers(b, s, oldExt, newExt, address)
  {
    var p := b.jobs[b.sessions[s].job];
    FoundExactly(b.assignments, oldExt, p.assignment);
    var found := FindExternal(b.assignments, |b.assignments|, newExt);
    if found.Some? {
      FoundExactly(b.assignments, newExt, found.value);
    }
    hide FindExternal;
  }

  lemma AppliedTables(t: Table, id: nat, newExt: string)
    requires ExternalIdsDiffer(t)
    ensures Row(t, id) && t[id].value.externalId != newExt ==>
              var u := BlankExternal(ClearRow(t, id), newExt);
              && |u| == |t|
              && forall k :: 0 <= k < |t| ==>
                   if k == id then u[k].Some? && OffMarket(t[k].value, u[k].value)
                   else if newExt != "" && t[k].Some? && t[k].value.externalId == newExt then u[k].Some? && WipedTo(t[k].value, u[k].value)
                   else u[k] == t[k]
  {
    if Row(t, id) {
      var c := ClearRow(t, id);
      var found := FindExternal(c, |c|, newExt);
      assert ExternalIdsDiffer(c);
      if found.Some? {
        FoundExactly(c, newExt, found.value);
      }
      hide FindExternal;
    }
  }

  // ----- Success -----

  /** The row is at the address: its host, and its port if one was given. */
  predicate LiesAt(a: Assignment, at: Address) {
    a.identity.host == at.host && (at.port.Some? ==> a.identity.port == at.port.value)
  }

  /** The replacement: the row with the id the provider named, at the address if it gave one as well; or, if it
      gave an address only, the one other listed row there that was seen since. */
  ghost predicate Replaces(b: Board, p: Job, since: int, id: nat) {
    && Row(b.assignments, id)
    && if p.newExternal != ""
       then b.assignments[id].value.externalId == p.newExternal && (p.newAddress.Some? ==> LiesAt(b.assignments[id].value, p.newAddress.value))
       else p.newAddress.Some? && SeenThere(b, p, since, id) && forall k: nat :: SeenThere(b, p, since, k) ==> k == id
  }

  predicate SeenThere(b: Board, p: Job, since: int, id: nat) {
    && p.newAddress.Some? && Row(b.assignments, id) && id != p.assignment
    && var a := b.assignments[id].value;
       a.subscription == p.subscription && LiesAt(a, p.newAddress.value) && a.missingAt.None? && a.status != "replaced"
       && a.lastSeen.Some? && a.lastSeen.value > since
  }

  /** Sync and dashboard have both shown the row, whole and trusted, since that moment. */
  predicate Proven(b: Board, p: Job, a: Assignment, since: int) {
    && a.externalId != "" && a.externalId != p.oldExternal && a.subscription == p.subscription
    && a.lastSeen.Some? && a.lastSeen.value > since && a.observedAt.Some? && a.observedAt.value > since && SeenLately(b, a.observedAt)
    && a.dashboardSource == "provider_dashboard" && a.dashboardId != ""
    && a.identity.host != "" && a.identity.port > 0 && a.identity.username != "" && a.identity.password != ""
  }

  /** The call fits the job: its token, its old row, and whatever of the new one the provider named. */
  predicate Fits(p: Job, oldExt: string, newExt: string, address: AddressText, token: Option<nat>) {
    && (p.state == Applied || p.state == Reconciling) && token.Some? && p.token == token
    && oldExt != "" && p.oldExternal == oldExt
    && (newExt == "" || (newExt != oldExt && (p.newExternal == "" || p.newExternal == newExt)))
    && (address.Empty? || p.newAddress.None? || (address.Valid? && address.address == p.newAddress.value))
    && (p.newExternal != "" || p.newAddress.Some?)
  }

  /** The moment that evidence is compared with: when the provider answered, or else when it was asked. */
  function Moment(p: Job): Option<int> {
    if p.appliedAt.Some? then p.appliedAt else p.startedAt
  }

  ghost predicate Succeeds(b: Board, j: nat, oldExt: string, newExt: string, address: AddressText, token: Option<nat>, id: nat) {
    && j < |b.jobs|
    && var p := b.jobs[j];
       && Fits(p, oldExt, newExt, address, token) && Moment(p).Some?
       && Row(b.assignments, p.assignment)
       && b.assignments[p.assignment].value.externalId == oldExt && b.assignments[p.assignment].value.subscription == p.subscription
       && Replaces(b, p, Moment(p).value, id) && Proven(b, p, b.assignments[id].value, Moment(p).value)
  }

  lemma ReplacesExactly(b: Board, p: Job, since: int, id: nat)
    requires ExternalIdsDiffer(b.assignments)
    ensures Replacement(b, p, since) == Ok(id) <==> Replaces(b, p, since, id)
  {
    if p.newExternal != "" {
      FoundExactly(b.assignments, p.newExternal, id);
      hide FindExternal;
    } else if p.newAddress.Some? {
      forall k: nat
        ensures SeenThere(b, p, since, k) == AddressCandidate(b, p, p.newAddress.value, since, k)
        ensures SeenThere(b, p, since, k) ==> Row(b.assignments, k)
      {}
      hide AddressCandidate, SeenThere;
      OneCandidate(b, p, since, id);
    }
  }

  predicate Distinct(s: seq<nat>) {
    forall i, k :: 0 <= i < k < |s| ==> s[i] != s[k]
  }

  lemma {:induction false} CandidatesOnce(b: Board, p: Job, at: Address, since: int, n: nat)
    requires n <= |b.assignments|
    ensures Distinct(AddressCandidates(b, p, at, since, n))
  {
    if n > 0 {
      CandidatesOnce(b, p, at, since, n - 1);
      hide AddressCandidate;
    }
  }

  lemma OneCandidate(b: Board, p: Job, since: int, id: nat)
    requires p.newAddress.Some? && p.newExternal == ""
    ensures Replacement(b, p, since) == Ok(id) <==>
              AddressCandidate(b, p, p.newAddress.value, since, id) && forall k: nat :: AddressCandidate(b, p, p.newAddress.value, since, k) ==> k == id
  {
    var at := p.newAddress.value;
    var r := AddressCandidates(b, p, at, since, |b.assignments|);
    CandidatesOnce(b, p, at, since, |b.assignments|);
    forall k: nat
      ensures AddressCandidate(b, p, at, since, k) <==> k in r
    {
      assert AddressCandidate(b, p, at, since, k) ==> k < |b.assignments|;
    }
    hide AddressCandidate, AddressCandidates;
    assert Replacement(b, p, since) == if |r| == 1 then Ok(r[0]) else Err(Waiting);
    hide Replacement;
    if |r| >= 2 {
      assert r[0] != r[1];
      assert AddressCandidate(b, p, at, since, r[0]) && AddressCandidate(b, p, at, since, r[1]);
    } else if |r| == 1 {
      assert AddressCandidate(b, p, at, since, r[0]);
    }
  }

  /** A swap succeeds with a replacement exactly when everything about call, job, rows and evidence fits. */
  lemma SucceedsExactly(b: Board, j: nat, oldExt: string, newExt: string, address: AddressText, token: Option<nat>, id: nat)
    requires BoardInv(b)
    ensures Finalizable(b, j, oldExt, newExt, address, token) == Ok(id) <==> Succeeds(b, j, oldExt, newExt, address, token, id)
  {
    if j < |b.jobs| {
      var p := b.jobs[j];
      FoundExactly(b.assignments, oldExt, p.assignment);
      FitsExactly(p, oldExt, newExt, address, token);
      if MutationTime(p).Some? {
        ReplacesExactly(b, p, MutationTime(p).value, id);
        if Row(b.assignments, id) {
          ProvenExactly(b, p, b.assignments[id].value, MutationTime(p).value);
        }
      }
      hide BoardInv, FindExternal, Replacement, Evidence, JobTrouble, Fits, Replaces, Proven;
    }
  }

  lemma FitsExactly(p: Job, oldExt: string, newExt: string, address: AddressText, token: Option<nat>)
    ensures JobTrouble(p, oldExt, newExt, address, token).None? <==> Fits(p, oldExt, newExt, address, token)
  {}

  lemma ProvenExactly(b: Board, p: Job, a: Assignment, since: int)
    ensures Evidence(b, p, a, since).Ok? <==> Proven(b, p, a, since)
  {}

  /** The new row starts over as untested, not to be swapped again before the cooldown of at least a minute. */
  predicate StartsOver(b: Board, p: Job, a: Assignment, q: Assignment) {
    var from := if Moment(p).Some? && Moment(p).value > b.clock then Moment(p).value else b.clock;
    q == a.(readyAt := Some(from + (if b.settings.cooldown > 60 then b.settings.cooldown else 60)),
            status := "active", qualification := "pending", live := "pending", checkToken := None, distribution := false)
  }

  /** The whole state after the success of job j with the replacement `id`. */
  ghost predicate Swapped(b: Board, after: Board, j: nat, id: nat)
    requires j < |b.jobs| && Row(b.assignments, id)
  {
    var p := b.jobs[j];
    && id != p.assignment < |b.assignments| == |after.assignments| && p.subscription < |b.subscriptions|
    && after == b.(
         jobs := b.jobs[j := p.(state := Success, replacement := Some(id), token := None, claimedUntil := None)],
         assignments := after.assignments,
         mappings := b.mappings + [Mapping(j, p.oldExternal, b.assignments[id].value.externalId, b.clock)],
         subscriptions := b.subscriptions[p.subscription := b.subscriptions[p.subscription].(used := b.subscriptions[p.subscription].used + 1)])
    && after.assignments[p.assignment].None?
    && after.assignments[id].Some? && StartsOver(b, p, b.assignments[id].value, after.assignments[id].value)
    && forall k :: 0 <= k < |b.assignments| && k != id && k != p.assignment ==> after.assignments[k] == b.assignments[k]
  }

  lemma FinalizedExactly(b: Board, j: nat, id: nat)
    requires j < |b.jobs| && Row(b.assignments, id) && id != b.jobs[j].assignment < |b.assignments| && b.jobs[j].subscription < |b.subscriptions|
    ensures Swapped(b, Finalized(b, j, id), j, id)
  {}

  /** A success writes all of it at once: the job, one mapping, the old row gone, the new one started over, one
      swap used; and without one nothing is written. */
  lemma SuccessWrites(b: Board, j: nat, oldExt: string, newExt: string, address: AddressText, token: Option<nat>, id: nat)
    requires BoardInv(b)
    ensures var after := Finalize(b, j, oldExt, newExt, address, token);
            && (Succeeds(b, j, oldExt, newExt, address, token, id) ==> Swapped(b, after, j, id))
            && (after != b ==> exists k: nat :: Succeeds(b, j, oldExt, newExt, address, token, k))
  {
    SucceedsExactly(b, j, oldExt, newExt, address, token, id);
    if j < |b.jobs| { assert JobOk(b, j); }
    hide BoardInv, JobOk, Swapped, Finalized, Finalizable;
    if Succeeds(b, j, oldExt, newExt, address, token, id) {
      FinalizedExactly(b, j, id) by { assert id != b.jobs[j].assignment; }
    }
    hide Succeeds;
    var r := Finalizable(b, j, oldExt, newExt, address, token);
    if r.Ok? {
      SucceedsExactly(b, j, oldExt, newExt, address, token, r.value);
    }
  }

  // ----- Reconciliation -----

  predicate OnList(b: Board, sub: nat, id: nat) {
    && Row(b.assignments, id)
    && var a := b.assignments[id].value;
       a.subscription == sub && a.missingAt.None? && (a.status == "active" || a.status == "current")
  }

  /** Sync and dashboard have shown the row since that moment. */
  predicate ShownSince(a: Assignment, since: int) {
    && a.lastSeen.Some? && a.lastSeen.value > since && a.observedAt.Some? && a.observedAt.value > since
    && a.dashboardSource == "provider_dashboard"
  }

  /** Some row of the subscription is listed, and each listed one was shown since, and lately. */
  ghost predicate WholeListShown(b: Board, sub: nat, since: int) {
    && (exists id: nat :: OnList(b, sub, id))
    && forall id: nat :: OnList(b, sub, id) ==>
         && ShownSince(b.assignments[id].value, since)
         && SeenLately(b, b.assignments[id].value.observedAt) && SeenLately(b, b.assignments[id].value.lastSeen)
  }

  /** The old row as it was frozen, still under its dashboard id. */
  predicate StillThere(b: Board, p: Job, id: nat) {
    && Row(b.assignments, id) && b.assignments[id].value.externalId == p.oldExternal
    && var a := b.assignments[id].value;
       && a.missingAt.None? && a.status != "replaced" && a.identity.host == p.oldHost && a.identity.port == p.oldPort
       && a.dashboardId == p.dashboardId && a.dashboardSource == "provider_dashboard"
  }

  /** Nothing was changed exactly if the whole list was shown since the mutation and the old row is still there. */
  lemma UnchangedExactly(b: Board, p: Job)
    requires ExternalIdsDiffer(b.assignments)
    ensures Unchanged(b, p) <==>
              && Moment(p).Some? && p.oldExternal != "" && p.dashboardId != "" && p.oldHost != "" && 1 <= p.oldPort <= 65_535
              && WholeListShown(b, p.subscription, Moment(p).value) && exists id: nat :: StillThere(b, p, id)
  {
    if Moment(p).Some? {
      ListExactly(b, p.subscription, Moment(p).value);
    }
    var found := FindExternal(b.assignments, |b.assignments|, p.oldExternal);
    forall id: nat
      ensures found == Some(id) <==> Row(b.assignments, id) && b.assignments[id].value.externalId == p.oldExternal
    {
      FoundExactly(b.assignments, p.oldExternal, id);
    }
    hide SnapshotCovers, WholeListShown, FindExternal, ExternalIdsDiffer;
    if found.Some? {
      assert StillThere(b, p, found.value) <==> (exists id: nat :: StillThere(b, p, id));
    }
  }

  lemma ListExactly(b: Board, sub: nat, since: int)
    ensures SnapshotCovers(b, sub, since) <==> WholeListShown(b, sub, since)
  {
    forall id: nat
      ensures OnList(b, sub, id) == (id < |b.assignments| && Listed(b, sub, id))
      ensures OnList(b, sub, id) ==>
                (Covering(b, b.assignments[id].value, since) <==>
                   ShownSince(b.assignments[id].value, since) && SeenLately(b, b.assignments[id].value.observedAt)
                   && SeenLately(b, b.assignments[id].value.lastSeen))
    {}
    hide OnList, Listed, Covering, ShownSince, SeenLately;
  }

  /** A listed row under the old dashboard id that is not the old row. */
  predicate InItsPlace(b: Board, p: Job, since: int, id: nat) {
    && OnList(b, p.subscription, id) && b.assignments[id].value.externalId != p.oldExternal
    && b.assignments[id].value.dashboardId == p.dashboardId && ShownSince(b.assignments[id].value, since)
  }

  /** A replacement is inferred exactly if the old row is off the list, the subscription and its whole list were
      shown since the mutation, and just one row is in the old one's place. */
  lemma InferredExactly(b: Board, p: Job, id: nat)
    requires ExternalIdsDiffer(b.assignments)
    ensures Inferred(b, p) == Some(id) <==>
              && Moment(p).Some? && p.oldExternal != "" && p.dashboardId != ""
              && (forall k: nat :: Row(b.assignments, k) && b.assignments[k].value.externalId == p.oldExternal ==>
                    b.assignments[k].value.missingAt.Some? || b.assignments[k].value.status == "replaced")
              && p.subscription < |b.subscriptions| && b.subscriptions[p.subscription].lastSeen.Some?
              && b.subscriptions[p.subscription].lastSeen.value > Moment(p).value
              && WholeListShown(b, p.subscription, Moment(p).value)
              && InItsPlace(b, p, Moment(p).value, id) && forall k: nat :: InItsPlace(b, p, Moment(p).value, k) ==> k == id
  {
    if Moment(p).Some? {
      var since := Moment(p).value;
      ListExactly(b, p.subscription, since);
      OneInPlace(b, p, since, id);
      GoneExactly(b, p, since);
      hide SnapshotCovers, WholeListShown, InferCandidates, OldGone, InItsPlace, ExternalIdsDiffer;
    }
  }

  lemma GoneExactly(b: Board, p: Job, since: int)
    requires ExternalIdsDiffer(b.assignments)
    ensures OldGone(b, p, since) <==>
              && (forall k: nat :: Row(b.assignments, k) && b.assignments[k].value.externalId == p.oldExternal ==>
                    b.assignments[k].value.missingAt.Some? || b.assignments[k].value.status == "replaced")
              && p.subscription < |b.subscriptions| && b.subscriptions[p.subscription].lastSeen.Some?
              && b.subscriptions[p.subscription].lastSeen.value > since
  {
    var found := FindExternal(b.assignments, |b.assignments|, p.oldExternal);
    forall id: nat
      ensures found == Some(id) <==> Row(b.assignments, id) && b.assignments[id].value.externalId == p.oldExternal
    {
      FoundExactly(b.assignments, p.oldExternal, id);
    }
    hide FindExternal, ExternalIdsDiffer;
  }

  lemma {:induction false} InferredOnce(b: Board, p: Job, since: int, n: nat)
    requires n <= |b.assignments|
    ensures Distinct(InferCandidates(b, p, since, n))
  {
    if n > 0 {
      InferredOnce(b, p, since, n - 1);
      hide Inferable;
    }
  }

  lemma OneInPlace(b: Board, p: Job, since: int, id: nat)
    ensures var r := InferCandidates(b, p, since, |b.assignments|);
            |r| == 1 && r[0] == id <==> InItsPlace(b, p, since, id) && forall k: nat :: InItsPlace(b, p, since, k) ==> k == id
  {
    var r := InferCandidates(b, p, since, |b.assignments|);
    InferredOnce(b, p, since, |b.assignments|);
    forall k: nat
      ensures InItsPlace(b, p, since, k) <==> k in r
    {
      assert InItsPlace(b, p, since, k) <==> Inferable(b, p, since, k);
      assert Inferable(b, p, since, k) ==> k < |b.assignments|;
    }
    hide Inferable, InferCandidates, InItsPlace;
    if |r| >= 2 {
      assert r[0] != r[1];
      assert InItsPlace(b, p, since, r[0]) && InItsPlace(b, p, since, r[1]);
    } else if |r| == 1 {
      assert InItsPlace(b, p, since, r[0]);
    }
  }

  /** What a finding writes: no change closes the job, if it is uncertain still, and gives up its claim; a
      replacement is noted on one that is uncertain still and names no other. */
  lemma ActedExactly(b: Board, f: nat)
    ensures var after := ActOn(b, f);
            if f >= |b.findings| || b.findings[f].job >= |b.jobs| || b.jobs[b.findings[f].job].state != Reconciling then after == b
            else
              var j := b.findings[f].job;
              match b.findings[f]
              case NoChange(_, _) => after == b.(jobs := b.jobs[j := b.jobs[j].(state := Blocked, token := None, claimedUntil := None)])
              case Replaced(_, _, external) =>
                after == if b.jobs[j].newExternal == "" && b.jobs[j].newAddress.None?
                         then b.(jobs := b.jobs[j := b.jobs[j].(newExternal := external)]) else b
  {}

  /** A reconciliation pass starts from a job whose mutation awaits its outcome, and reads it as it stands. */
  lemma ReadExactly(b: Board, j: nat)
    ensures ReadJob(b, j) == if j < |b.jobs| && (b.jobs[j].state == Applied || b.jobs[j].state == Reconciling)
                             then b.(readings := b.readings + [Reading(j, b.jobs[j])]) else b
  {}

  // ----- The call -----

  /** A session asks the provider once after it has entered the mutation and found its own token on the job;
      each call counts; and giving up afterwards freezes the job under that token. */
  lemma AskedExactly(b: Board, s: nat)
    requires s < |b.sessions| && b.sessions[s].job < |b.jobs|
    ensures var j, phase := b.sessions[s].job, b.sessions[s].phase;
            var p := b.jobs[j];
            && CheckFence(b, s) ==
                 (if phase == Entered && p.state == Mutating && p.token == Some(s) then b.(sessions := b.sessions[s := Session(j, Checked)]) else b)
            && Call(b, s) ==
                 (if phase == Checked then b.(jobs := b.jobs[j := p.(calls := p.calls + 1)], sessions := b.sessions[s := Session(j, Called)]) else b)
            && Uncertain(b, s) ==
                 (if phase == Entered || phase == Checked || phase == Called then Freeze(b, j, Some(s)).(sessions := b.sessions[s := Session(j, Finished)])
                  else b)
  {}

  // ----- Failures and the administrator -----

  /** Before its mutation, and still the caller's if the caller names a claim. */
  predicate Stoppable(b: Board, j: nat, token: Option<nat>) {
    j < |b.jobs| && (b.jobs[j].state == Pending || b.jobs[j].state == Running) && (token.Some? ==> b.jobs[j].token == token)
  }

  /** Failures requeue a job that may be retried and has attempts left, and block any other; blocking it for a
      reason that needs a person also stops automatic swapping.  Cancelling ends it. */
  lemma StoppedExactly(b: Board, j: nat, manualCode: bool, retryable: bool, limit: Option<int>, token: Option<nat>)
    ensures var allowed := if limit.Some? && limit.value != 0 then limit.value else b.settings.retryLimit;
            var over := !retryable || (j < |b.jobs| && b.jobs[j].attempts >= (if allowed > 1 then allowed else 1));
            var stopped := if j < |b.jobs| then b.jobs[j].(token := None, claimedUntil := None) else NewJob(0, 0, 0);
            var off := b.settings.(autoSwap := false);
            && MarkBlocked(b, j, manualCode, token) ==
                 (if Stoppable(b, j, token) then b.(jobs := b.jobs[j := stopped.(state := Blocked)], settings := if manualCode then off else b.settings)
                  else b)
            && MarkFailed(b, j, manualCode, retryable, limit, token) ==
                 (if Stoppable(b, j, token)
                  then b.(jobs := b.jobs[j := stopped.(state := if over then Blocked else Pending)],
                          settings := if over && manualCode then off else b.settings)
                  else b)
            && Cancel(b, j) == (if Stoppable(b, j, None) then b.(jobs := b.jobs[j := stopped.(state := Canceled)]) else b)
  {}

  /** A mutation whose outcome is unknown is frozen for reconciliation, by its holder only, and automatic
      swapping stops. */
  lemma FrozenExactly(b: Board, j: nat, token: Option<nat>)
    ensures Freeze(b, j, token) ==
              if j < |b.jobs| && (b.jobs[j].state == Mutating || b.jobs[j].state == Applied || b.jobs[j].state == Reconciling)
                 && token.Some? && b.jobs[j].token == token
              then b.(jobs := b.jobs[j := b.jobs[j].(state := Reconciling, claimedUntil := None)], settings := b.settings.(autoSwap := false))
              else b
  {}

  /** An administrator puts a finished job without success back in the queue, or, with every guard but the
      automatic switch still passing, any job that is not at work; never beside another unfinished job of the
      assignment. */
  lemma RequeuedExactly(b: Board, j: nat)
    requires j < |b.jobs|
    ensures var p := b.jobs[j];
            var again := b.(jobs := b.jobs[j := p.(state := Pending, token := None, claimedUntil := None,
                                                  requeues := p.requeues + (if p.state == Pending then 0 else 1))]);
            var alone := forall k :: 0 <= k < |b.jobs| && k != j && b.jobs[k].assignment == p.assignment ==> !Unfinished(b.jobs[k]);
            && Retry(b, j) == (if (p.state == Blocked || p.state == Canceled) && alone then again else b)
            && RequestManual(b, j) ==
                 (if !b.settings.workerPaused && (p.state == Pending || p.state == Blocked || p.state == Canceled) && alone
                     && Decide(b, p.subscription, p.assignment, Some(j)).Allowed?
                  then again else b)
  {
    hide Decide;
    assert AssignmentTaken(b.jobs, b.jobs[j].assignment, Some(j))
           <==> !(forall k :: 0 <= k < |b.jobs| && k != j && b.jobs[k].assignment == b.jobs[j].assignment ==> !Unfinished(b.jobs[k]));
  }
}
