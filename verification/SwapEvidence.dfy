/** How old the evidence may be that finishes a swap (app/services/proxiware_swap.py:1490-1525). */
module SwapEvidence {
  import opened Wrappers
  import opened Inventory
  import opened SwapModel
  import opened SwapInvariants
  import opened SwapRuns

  /** The replacement row was seen by sync and dashboard after the latest mutation started. */
  predicate Newer(p: Job, a: Assignment) {
    && p.startedAt.Some?
    && a.lastSeen.Some? && a.lastSeen.value > p.startedAt.value
    && a.observedAt.Some? && a.observedAt.value > p.startedAt.value
  }

  /** With the assignments `t`, this call finishes the job on evidence that is not newer. */
  predicate AcceptsOlder(b: Board, j: nat, t: Table, oldExt: string, newExt: string, address: AddressText, token: Option<nat>) {
    var r := Finalizable(b.(assignments := t), j, oldExt, newExt, address, token);
    r.Ok? && j < |b.jobs| && !Newer(b.jobs[j], t[r.value].value)
  }

  /** Whatever the tables show, the job is finished only on newer evidence. */
  ghost predicate AlwaysNewer(b: Board, j: nat) {
    forall t: Table, oldExt: string, newExt: string, address: AddressText, token: Option<nat> ::
      !AcceptsOlder(b, j, t, oldExt, newExt, address, token)
  }

  /** The job's own columns let some evidence finish it. */
  predicate Completable(p: Job) {
    && (p.state.Applied? || p.state.Reconciling?) && p.token.Some? && p.oldExternal != "" && MutationTime(p).Some?
    && p.newExternal != p.oldExternal
    && (p.newExternal != "" || p.newAddress.Some?)
    && (p.newAddress.Some? ==> p.newAddress.value.host != "" && (p.newAddress.value.port.Some? ==> p.newAddress.value.port.value > 0))
  }

  /** Evidence older than the latest mutation is accepted from some table exactly when the job can be
      finished at all and was stamped as applied before that mutation started. */
  lemma EvidenceIsNewerExactly(b: Board, j: nat)
    requires j < |b.jobs| && b.jobs[j].startedAt.Some? && b.jobs[j].startedAt.value <= b.clock
    ensures AlwaysNewer(b, j) <==> (Ordered(b.jobs[j]) || !Completable(b.jobs[j]))
  {
    var p := b.jobs[j];
    if Ordered(p) || !Completable(p) {
      forall t: Table, oldExt: string, newExt: string, address: AddressText, token: Option<nat>
        ensures !AcceptsOlder(b, j, t, oldExt, newExt, address, token)
      {
        if AcceptsOlder(b, j, t, oldExt, newExt, address, token) {
          OnlyNewer(b, j, t, oldExt, newExt, address, token);
        }
      }
    } else {
      OlderAccepted(b, j);
    }
  }

  lemma OnlyNewer(b: Board, j: nat, t: Table, oldExt: string, newExt: string, address: AddressText, token: Option<nat>)
    requires j < |b.jobs| && b.jobs[j].startedAt.Some?
    requires Finalizable(b.(assignments := t), j, oldExt, newExt, address, token).Ok?
    ensures Completable(b.jobs[j])
    ensures Ordered(b.jobs[j]) ==> Newer(b.jobs[j], t[Finalizable(b.(assignments := t), j, oldExt, newExt, address, token).value].value)
  {
    var c := b.(assignments := t);
    Finishable(c, j, oldExt, newExt, address, token);
    FoundAtAddress(c, j, oldExt, newExt, address, token);
    hide Finalizable;
  }

  lemma FoundAtAddress(b: Board, j: nat, oldExt: string, newExt: string, address: AddressText, token: Option<nat>)
    requires Finalizable(b, j, oldExt, newExt, address, token).Ok?
    ensures j < |b.jobs| && JobTrouble(b.jobs[j], oldExt, newExt, address, token).None?
    ensures var p, a := b.jobs[j], b.assignments[Finalizable(b, j, oldExt, newExt, address, token).value].value;
            && (p.newAddress.Some? ==> AtAddress(a, p.newAddress.value))
            && (p.newExternal != "" ==> a.externalId == p.newExternal)
  {
    hide Evidence, JobTrouble, FindExternal;
    var p := b.jobs[j];
    if p.newExternal == "" && p.newAddress.Some? && MutationTime(p).Some? {
      var found := AddressCandidates(b, p, p.newAddress.value, MutationTime(p).value, |b.assignments|);
      assert |found| == 1 ==> AddressCandidate(b, p, p.newAddress.value, MutationTime(p).value, found[0]);
    }
  }

  // ----- The table that shows it -----

  /** The old row as the sync lists it. */
  function OldRow(p: Job): Assignment {
    Assignment(p.subscription, p.oldExternal, Identity("old", 1, "", ""), 1, "active", "risk", "live", "", true, false, false,
               "", None, None, None, "", None, None, None, None)
  }

  /** A replacement last listed one second after the first application, and observed just now. */
  function LateRow(p: Job, seen: int, now: int): Assignment {
    var host := if p.newAddress.Some? then p.newAddress.value.host else "new";
    var port := if p.newAddress.Some? && p.newAddress.value.port.Some? then p.newAddress.value.port.value else 1;
    Assignment(p.subscription, if p.newExternal != "" then p.newExternal else p.oldExternal + "'", Identity(host, port, "u", "p"), 1,
               "active", "pending", "pending", "", false, false, false,
               "d", None, None, Some(now), DASHBOARD, Some(seen), None, None, None)
  }

  function LateTable(p: Job, seen: int, now: int): (t: Table)
    ensures |t| == p.assignment + 2 && t[p.assignment] == Some(OldRow(p)) && t[p.assignment + 1] == Some(LateRow(p, seen, now))
    ensures forall k :: 0 <= k < p.assignment ==> t[k].None?
  {
    seq(p.assignment, k => None) + [Some(OldRow(p)), Some(LateRow(p, seen, now))]
  }

  lemma OlderAccepted(b: Board, j: nat)
    requires j < |b.jobs| && b.jobs[j].startedAt.Some? && b.jobs[j].startedAt.value <= b.clock
    requires Completable(b.jobs[j]) && !Ordered(b.jobs[j])
    ensures !AlwaysNewer(b, j)
  {
    var p := b.jobs[j];
    var seen := p.appliedAt.value + 1;
    var t := LateTable(p, seen, b.clock);
    var c, n := b.(assignments := t), p.assignment + 1;
    assert (p.oldExternal + "'")[..|p.oldExternal|] == p.oldExternal && |p.oldExternal + "'"| > |p.oldExternal|;
    assert FindExternal(t, |t|, p.oldExternal) == Some(p.assignment);
    assert Replacement(c, p, p.appliedAt.value) == Ok(n) by { LateReplacement(c, p, seen); }
    hide LateTable, FindExternal, Replacement;
    assert Finalizable(c, j, p.oldExternal, p.newExternal, Empty, p.token) == Ok(n);
    assert AcceptsOlder(b, j, t, p.oldExternal, p.newExternal, Empty, p.token);
  }

  lemma LateReplacement(c: Board, p: Job, seen: int)
    requires p.appliedAt.Some? && seen == p.appliedAt.value + 1 && c.assignments == LateTable(p, seen, c.clock)
    requires Completable(p)
    ensures Replacement(c, p, p.appliedAt.value) == Ok(p.assignment + 1)
  {
    var n, since := p.assignment + 1, p.appliedAt.value;
    hide LateTable;
    if p.newExternal != "" {
      assert Row(c.assignments, n);
      assert FindExternal(c.assignments, |c.assignments|, p.newExternal) == Some(n);
    } else {
      var at := p.newAddress.value;
      var before := AddressCandidates(c, p, at, since, n);
      assert before == [] || AddressCandidate(c, p, at, since, before[0]);
      assert AddressCandidate(c, p, at, since, n);
      assert AddressCandidates(c, p, at, since, n + 1) == [n];
    }
  }

  // ----- Closing and inferring -----

  /** With the assignments `t` the job is closed although they do not cover its subscription since
      the latest mutation started. */
  predicate ClosesOnOlder(b: Board, p: Job, t: Table)
    requires p.startedAt.Some?
  {
    Unchanged(b.(assignments := t), p) && !SnapshotCovers(b.(assignments := t), p.subscription, p.startedAt.value)
  }

  ghost predicate ClosedOnNewer(b: Board, p: Job)
    requires p.startedAt.Some?
  {
    forall t: Table :: !ClosesOnOlder(b, p, t)
  }

  /** The job's own columns let some evidence close it. */
  predicate Closable(p: Job) {
    MutationTime(p).Some? && p.oldExternal != "" && p.dashboardId != "" && ValidEndpoint(p.oldHost, p.oldPort)
  }

  /** Evidence from before the latest mutation is not too old yet to be believed. */
  predicate StillFresh(b: Board, p: Job)
    requires p.startedAt.Some?
  {
    b.clock - p.startedAt.value <= MaxAge(b.settings)
  }

  /** A row listed and observed at one moment. */
  function ShownAt(sub: nat, ext: string, host: string, port: int, id: string, at: int): Assignment {
    Assignment(sub, ext, Identity(host, port, "u", "p"), 1, "active", "risk", "live", "", true, false, false,
               id, Some(true), Some(0), Some(at), DASHBOARD, Some(at), None, None, None)
  }

  lemma LaterCovers(b: Board, sub: nat, since: int, later: int)
    requires SnapshotCovers(b, sub, since)
    requires later <= since || later < b.clock - MaxAge(b.settings)
    ensures SnapshotCovers(b, sub, later)
  {
    forall id: nat | id < |b.assignments| && Listed(b, sub, id)
      ensures Covering(b, b.assignments[id].value, later)
    {
      assert Covering(b, b.assignments[id].value, since);
    }
  }

  /** An uncertain job is closed on evidence older than its latest mutation, from some table, exactly
      when its columns let it be closed, its first application is stamped before that mutation, and
      the mutation is recent enough for such evidence to be fresh. */
  lemma ClosingIsNewerExactly(b: Board, p: Job)
    requires p.startedAt.Some? && p.startedAt.value <= b.clock
    ensures ClosedOnNewer(b, p) <==> (Ordered(p) || !Closable(p) || !StillFresh(b, p))
  {
    hide SnapshotCovers;
    var from := p.startedAt.value;
    if Ordered(p) || !Closable(p) || !StillFresh(b, p) {
      forall t: Table
        ensures !ClosesOnOlder(b, p, t)
      {
        if Unchanged(b.(assignments := t), p) {
          LaterCovers(b.(assignments := t), p.subscription, MutationTime(p).value, from);
        }
      }
    } else {
      var t := [Some(ShownAt(p.subscription, p.oldExternal, p.oldHost, p.oldPort, p.dashboardId, from))];
      ShownOnly(b.(assignments := t), p.subscription, MutationTime(p).value, from);
      assert FindExternal(t, 1, p.oldExternal) == Some(0);
      assert ClosesOnOlder(b, p, t);
    }
  }

  /** The one listed row covers any earlier moment, and none from its own on. */
  lemma ShownOnly(b: Board, sub: nat, since: int, at: int)
    requires |b.assignments| == 1 && Listed(b, sub, 0) && b.assignments[0].value.dashboardSource == DASHBOARD
    requires b.assignments[0].value.lastSeen == b.assignments[0].value.observedAt == Some(at)
    requires since < at && b.clock - MaxAge(b.settings) <= at <= b.clock
    ensures SnapshotCovers(b, sub, since) && !SnapshotCovers(b, sub, at)
  {
    assert Covering(b, b.assignments[0].value, since) && !Covering(b, b.assignments[0].value, at);
  }

  /** A replacement is inferred although the subscription, or a listed row of it, was not seen since
      the latest mutation started. */
  predicate InfersOnOlder(b: Board, p: Job, subs: seq<Subscription>, t: Table)
    requires p.startedAt.Some?
  {
    var c := b.(subscriptions := subs, assignments := t);
    && Inferred(c, p).Some?
    && !(SnapshotCovers(c, p.subscription, p.startedAt.value)
         && p.subscription < |subs| && subs[p.subscription].lastSeen.Some? && subs[p.subscription].lastSeen.value > p.startedAt.value)
  }

  ghost predicate InferredOnNewer(b: Board, p: Job)
    requires p.startedAt.Some?
  {
    forall subs: seq<Subscription>, t: Table :: !InfersOnOlder(b, p, subs, t)
  }

  predicate Traceable(p: Job) {
    MutationTime(p).Some? && p.oldExternal != "" && p.dashboardId != ""
  }

  /** A replacement is inferred on older evidence exactly when the job's columns let one be inferred and
      its first application is stamped before the latest mutation: how long ago that is does not matter. */
  lemma InferringIsNewerExactly(b: Board, p: Job)
    requires p.startedAt.Some? && p.startedAt.value <= b.clock
    ensures InferredOnNewer(b, p) <==> (Ordered(p) || !Traceable(p))
  {
    hide SnapshotCovers;
    var from := p.startedAt.value;
    if Ordered(p) || !Traceable(p) {
      forall subs: seq<Subscription>, t: Table
        ensures !InfersOnOlder(b, p, subs, t)
      {
        var c := b.(subscriptions := subs, assignments := t);
        hide InferCandidates, FindExternal;
        if Inferred(c, p).Some? {
          LaterCovers(c, p.subscription, MutationTime(p).value, from);
        }
      }
    } else {
      var subs := seq(p.subscription + 1, _ => Subscription("s", "active", None, None, None, Some(from), -1, 0));
      var t := [Some(ShownAt(p.subscription, p.oldExternal + "'", "h", 1, p.dashboardId, b.clock))];
      var c := b.(subscriptions := subs, assignments := t);
      ShownOnly(c, p.subscription, MutationTime(p).value, b.clock);
      assert FindExternal(t, 1, p.oldExternal) == None;
      assert Inferable(c, p, MutationTime(p).value, 0);
      assert InferCandidates(c, p, MutationTime(p).value, 0) == [];
      assert InferCandidates(c, p, MutationTime(p).value, 1) == [0];
      assert InfersOnOlder(b, p, subs, t);
    }
  }

  // ----- Over whole runs -----

  /** Every job that entered the mutation at most once, or whose latest mutation the provider
      answered, is finished only on newer evidence, whatever the tables show. */
  lemma AnsweredEvidenceIsNewer(settings: Settings, trace: seq<Event>, j: nat)
    requires j < |Run(Init(settings), trace).jobs|
    requires var p := Run(Init(settings), trace).jobs[j]; p.entries <= 1 || p.state.Applied?
    ensures AlwaysNewer(Run(Init(settings), trace), j)
  {
    hide Run;
    RunInv(settings, trace);
    var b := Run(Init(settings), trace);
    assert JobOk(b, j);
    hide AlwaysNewer;
    if b.jobs[j].startedAt.Some? {
      EvidenceIsNewerExactly(b, j);
    } else {
      NeverStarted(b, j);
    }
  }

  /** And it is closed, or has a replacement inferred, only on newer evidence. */
  lemma AnsweredReconciliationIsNewer(settings: Settings, trace: seq<Event>, j: nat)
    requires j < |Run(Init(settings), trace).jobs|
    requires var p := Run(Init(settings), trace).jobs[j]; p.startedAt.Some? && (p.entries <= 1 || p.state.Applied?)
    ensures var b := Run(Init(settings), trace); ClosedOnNewer(b, b.jobs[j]) && InferredOnNewer(b, b.jobs[j])
  {
    hide Run;
    RunInv(settings, trace);
    var b := Run(Init(settings), trace);
    assert JobOk(b, j);
    hide ClosedOnNewer, InferredOnNewer;
    ClosingIsNewerExactly(b, b.jobs[j]);
    InferringIsNewerExactly(b, b.jobs[j]);
  }

  lemma NeverStarted(b: Board, j: nat)
    requires j < |b.jobs| && !InMutation(b.jobs[j].state)
    ensures AlwaysNewer(b, j)
  {
    forall t: Table, oldExt: string, newExt: string, address: AddressText, token: Option<nat>
      ensures !AcceptsOlder(b, j, t, oldExt, newExt, address, token)
    {
      hide Evidence, Replacement;
    }
  }

  // ----- A run on which older evidence is accepted -----

  const SETTINGS := Settings(true, false, false, 1000, 900, 3, 60)
  const PLAN := Subscription("plan", "active", None, None, Some(0), Some(0), -1, 0)

  /** One risky assignment, as sync and dashboard show it at a moment. */
  function Shown(seen: int): Assignment {
    Assignment(0, "a", Identity("h", 1, "u", "p"), 1, "active", "risk", "live", "", true, false, false,
               "d", Some(true), Some(0), Some(seen), DASHBOARD, Some(seen), None, None, None)
  }

  /** The replacement the provider named, listed five seconds after that. */
  const LISTED := Shown(5).(externalId := "b", dashboardId := "e")

  /** The job, applied at second 0 to the replacement "b". */
  function Swapped(state: State, startedAt: int, token: Option<nat>, attempts: nat, entries: nat, requeues: nat): Job {
    Job(0, 0, None, state, attempts, token, None, 0, Some(startedAt), Some(0), "a", "h", 1, "d", "b", None, 1, entries, requeues)
  }

  lemma RunStep(b: Board, trace: seq<Event>, e: Event)
    ensures Run(b, trace + [e]) == Step(Run(b, trace), e)
  {
    assert (trace + [e])[..|trace|] == trace;
  }

  /** The run continued by one step. */
  lemma OneMore(trace: seq<Event>, e: Event) returns (longer: seq<Event>, after: Board)
    ensures longer == trace + [e] && after == Step(Run(Init(SETTINGS), trace), e) && Run(Init(SETTINGS), longer) == after
  {
    hide Step;
    RunStep(Init(SETTINGS), trace, e);
    longer, after := trace + [e], Step(Run(Init(SETTINGS), trace), e);
  }

  ghost predicate OneRow(b: Board) {
    b.subscriptions == [PLAN] && |b.assignments| == 1 && b.assignments[0].Some?
    && b.assignments[0].value.externalId == "a" && b.assignments[0].value.subscription == 0
  }

  /** The shown assignment may be swapped while its evidence is fresh. */
  lemma ShownIsAllowed(b: Board, seen: int)
    requires b.subscriptions == [PLAN] && b.assignments == [Some(Shown(seen))] && b.settings == SETTINGS && 0 <= b.clock - seen <= 900
    requires |b.jobs| == 1 && b.jobs[0].subscription == 0 && b.jobs[0].assignment == 0
    ensures Verdict(b, 0, false) == Allowed
  {
    assert CountLive(b.jobs, 0, Some(0)) == 0 by { assert b.jobs[..0] == []; }
    assert !SiblingBusy(b.jobs, 0);
  }

  lemma Listed0() returns (trace: seq<Event>)
    ensures Run(Init(SETTINGS), trace) == Init(SETTINGS).(subscriptions := [PLAN], assignments := [Some(Shown(0))])
  {
    assert Run(Init(SETTINGS), []) == Init(SETTINGS);
    hide Run;
    var b;
    trace, b := OneMore([], Environment([PLAN], [Some(Shown(0))]));
  }

  lemma Queued() returns (trace: seq<Event>)
    ensures Run(Init(SETTINGS), trace)
            == Init(SETTINGS).(subscriptions := [PLAN], assignments := [Some(Shown(0))], jobs := [NewJob(0, 0, 0)])
  {
    trace := Listed0();
    var b := Run(Init(SETTINGS), trace);
    hide Run;
    assert CountLive(b.jobs, 0, None) == 0;
    assert MayQueue(b, 0);
    hide Decide, MayQueue;
    trace, b := OneMore(trace, QueueEvent(0));
  }

  lemma Claimed() returns (trace: seq<Event>)
    ensures var b := Run(Init(SETTINGS), trace);
            && b.jobs == [CLAIMED]
            && b.subscriptions == [PLAN] && b.assignments == [Some(Shown(0))] && b.clock == 0 && b.settings == SETTINGS
            && b.sessions == [Session(0, SwapModel.Claimed)] && b.readings == []
  {
    trace := Queued();
    var b := Run(Init(SETTINGS), trace);
    hide Run;
    assert Reclaim(b.jobs, 0) == b.jobs && Claimable(b.jobs, 0, 0) && Pick(b.jobs, None, 0) == Some(0);
    hide Reclaim, Pick;
    trace, b := OneMore(trace, ClaimEvent(None, 300));
  }

  const CLAIMED := NewJob(0, 0, 0).(state := Running, token := Some(0), claimedUntil := Some(300), attempts := 1)
  const ENTERED := Swapped(Mutating, 0, Some(0), 1, 1, 0).(calls := 0, appliedAt := None, newExternal := "")

  lemma EnterFirst(b: Board)
    requires b.jobs == [CLAIMED] && b.subscriptions == [PLAN] && b.assignments == [Some(Shown(0))] && b.clock == 0 && b.settings == SETTINGS
    requires b.sessions == [Session(0, SwapModel.Claimed)] && b.readings == []
    ensures var after := Revalidate(b, 0, false, true);
            && after.jobs == [ENTERED] && after.sessions == [Session(0, Entered)] && after.readings == []
            && OneRow(after) && after.clock == 0 && after.settings == SETTINGS
  {
    ShownIsAllowed(b, 0);
    hide Verdict;
  }

  lemma InFirstMutation() returns (trace: seq<Event>)
    ensures var b := Run(Init(SETTINGS), trace);
            && b.jobs == [ENTERED]
            && OneRow(b) && b.clock == 0 && b.settings == SETTINGS
            && b.sessions == [Session(0, Entered)] && b.readings == []
  {
    trace := Claimed();
    var b := Run(Init(SETTINGS), trace);
    hide Run;
    EnterFirst(b);
    hide Revalidate, OneRow;
    trace, b := OneMore(trace, RevalidateEvent(0, false, true));
  }

  lemma CalledOnce() returns (trace: seq<Event>)
    ensures var b := Run(Init(SETTINGS), trace);
            && b.jobs == [Swapped(Mutating, 0, Some(0), 1, 1, 0).(appliedAt := None, newExternal := "")]
            && OneRow(b) && b.clock == 0 && b.settings == SETTINGS
            && b.sessions == [Session(0, Called)] && b.readings == []
  {
    trace := InFirstMutation();
    var b := Run(Init(SETTINGS), trace);
    hide Run;
    trace, b := OneMore(trace, CheckEvent(0));
    trace, b := OneMore(trace, CallEvent(0));
  }

  lemma Answered() returns (trace: seq<Event>)
    ensures var b := Run(Init(SETTINGS), trace);
            && b.jobs == [Swapped(Applied, 0, Some(0), 1, 1, 0)]
            && OneRow(b) && b.clock == 0 && b.settings == SETTINGS && |b.sessions| == 1 && b.readings == []
  {
    trace := CalledOnce();
    var b := Run(Init(SETTINGS), trace);
    hide Run;
    assert FindExternal(b.assignments, 1, "a") == Some(0) && FindExternal(b.assignments, 1, "b") == None;
    assert !AppliedRefused(b, 0, "a", "b", Empty);
    hide AppliedRefused;
    trace, b := OneMore(trace, AppliedEvent(0, "a", "b", Empty));
  }

  /** The first mutation is answered with the replacement "b" and then frozen. */
  lemma Frozen() returns (trace: seq<Event>)
    ensures var b := Run(Init(SETTINGS), trace);
            && b.jobs == [Swapped(Reconciling, 0, Some(0), 1, 1, 0)]
            && OneRow(b) && b.clock == 0 && b.settings == SETTINGS.(autoSwap := false) && |b.sessions| == 1
  {
    trace := Answered();
    var b := Run(Init(SETTINGS), trace);
    hide Run;
    trace, b := OneMore(trace, ReadEvent(0));
    trace, b := OneMore(trace, FreezeEvent(0));
  }

  /** Later evidence shows the old row unchanged, so the job is closed. */
  lemma Closed() returns (trace: seq<Event>)
    ensures var b := Run(Init(SETTINGS), trace);
            && b.jobs == [Swapped(Blocked, 0, None, 1, 1, 0)]
            && b.subscriptions == [PLAN] && b.assignments == [Some(Shown(1))] && b.clock == 1 && |b.sessions| == 1
            && b.settings == SETTINGS.(autoSwap := false)
  {
    trace := Frozen();
    var b := Run(Init(SETTINGS), trace);
    hide Run;
    trace, b := OneMore(trace, Tick(1));
    trace, b := OneMore(trace, Environment([PLAN], [Some(Shown(1))]));
    assert b.assignments == [Some(Shown(1))];
    assert FindExternal(b.assignments, 1, "a") == Some(0);
    assert Listed(b, 0, 0) && SnapshotCovers(b, 0, 0);
    assert Unchanged(b, b.jobs[0]);
    hide Unchanged;
    trace, b := OneMore(trace, CloseEvent(0));
  }

  /** An administrator resumes automatic swaps and requeues the job; ten seconds pass. */
  lemma RequeuedAgain() returns (trace: seq<Event>)
    ensures var b := Run(Init(SETTINGS), trace);
            && b.jobs == [Swapped(Pending, 0, None, 1, 1, 1)]
            && b.subscriptions == [PLAN] && b.assignments == [Some(Shown(1))] && b.clock == 10 && |b.sessions| == 1
            && b.settings == SETTINGS
  {
    trace := Closed();
    var b := Run(Init(SETTINGS), trace);
    hide Run;
    trace, b := OneMore(trace, Configure(SETTINGS));
    trace, b := OneMore(trace, RetryEvent(0));
    trace, b := OneMore(trace, Tick(9));
  }

  lemma ClaimedAgain() returns (trace: seq<Event>)
    ensures var b := Run(Init(SETTINGS), trace);
            && b.jobs == [Swapped(Running, 0, Some(1), 2, 1, 1).(claimedUntil := Some(310))]
            && b.subscriptions == [PLAN] && b.assignments == [Some(Shown(1))] && b.clock == 10 && b.settings == SETTINGS
            && |b.sessions| == 2 && b.sessions[1] == Session(0, SwapModel.Claimed)
  {
    trace := RequeuedAgain();
    var b := Run(Init(SETTINGS), trace);
    hide Run;
    assert Reclaim(b.jobs, 10) == b.jobs && Claimable(b.jobs, 0, 10) && Pick(b.jobs, None, 10) == Some(0);
    hide Reclaim, Pick;
    trace, b := OneMore(trace, ClaimEvent(None, 300));
  }

  /** A second mutation starts at second 10 and ends in doubt; the job still carries the stamp of
      the first one. */
  lemma SecondMutation() returns (trace: seq<Event>)
    ensures var b := Run(Init(SETTINGS), trace);
            && b.jobs == [Swapped(Reconciling, 10, Some(1), 2, 2, 1)] && OneRow(b) && b.clock == 10
  {
    trace := ClaimedAgain();
    var b := Run(Init(SETTINGS), trace);
    hide Run;
    ShownIsAllowed(b, 1);
    hide Verdict;
    trace, b := OneMore(trace, RevalidateEvent(1, false, true));
    assert b.jobs[0].state.Mutating? && b.sessions[1] == Session(0, Entered);
    trace, b := OneMore(trace, UncertainEvent(1));
  }

  /** A reachable job, requeued after its first mutation, whose second mutation started at second 10
      and which is finished on a listing from second 5. */
  lemma OlderEvidenceRun() returns (trace: seq<Event>)
    ensures var b := Run(Init(SETTINGS), trace);
            && |b.jobs| == 1 && b.jobs[0].entries == 2 && b.jobs[0].startedAt == Some(10)
            && Finalizable(b, 0, "a", "b", Empty, Some(1)) == Ok(1)
            && b.assignments[1].value.lastSeen == Some(5)
            && AcceptsOlder(b, 0, b.assignments, "a", "b", Empty, Some(1))
            && Finalize(b, 0, "a", "b", Empty, Some(1)).jobs[0].state.Success?
  {
    trace := SecondMutation();
    var b := Run(Init(SETTINGS), trace);
    hide Run, AddressCandidates;
    trace, b := OneMore(trace, Environment([PLAN], [Some(Shown(5)), Some(LISTED)]));
    assert b.assignments == [Some(Shown(5)), Some(LISTED)];
    assert FindExternal(b.assignments, 2, "a") == Some(0) && FindExternal(b.assignments, 2, "b") == Some(1);
    assert Finalizable(b, 0, "a", "b", Empty, Some(1)) == Ok(1);
    assert b.(assignments := b.assignments) == b;
  }
}
