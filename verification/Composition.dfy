/** The swap queue and the inventory sync work on the same tables: each only does what the other
    allows its environment, so the promises of both hold together. */
module Composition {
  import opened Wrappers
  import opened Inventory
  import D = DashboardModel
  import W = SwapModel
  import S = SyncModel
  import SI = SyncInvariants
  import ST = SyncTheorems
  import WI = SwapInvariants
  import WR = SwapRuns

  // ----- Swaps, as the sync sees them -----

  /** Every swap step changes the tables only as the sync model allows other writers. */
  lemma SwapsAreOtherWriters(b: W.Board, e: W.Event)
    requires !e.Environment?
    ensures S.TableStep(b.assignments, W.Step(b, e).assignments)
    ensures S.SubscriptionsStep(b.subscriptions, W.Step(b, e).subscriptions)
  {
    hide W.QueueOne, W.Claim, W.CheckFence, W.Call, W.Uncertain, W.ReadJob, W.FreezeRead, W.MarkBlocked, W.MarkFailed, W.Cancel, W.Retry, W.RequestManual,
         W.Revalidate, W.MarkApplied, W.Finalize, W.Infer, W.CloseUnchanged, W.Find, W.ActOn, W.Decide, W.AssignmentTaken, W.Terminal;
    match e
    case RevalidateEvent(s, manual, enter) => EnterTable(b, s, manual, enter);
    case AppliedEvent(s, oldExt, newExt, address) => AppliedTable(b, s, oldExt, newExt, address);
    case FinalizeEvent(j, oldExt, newExt, address, token) => FinalizeTable(b, j, oldExt, newExt, address, token);
    case _ => QuietStep(b, e);
  }

  /** Most swap steps leave both tables alone. */
  lemma QuietStep(b: W.Board, e: W.Event)
    requires !e.Environment? && !e.RevalidateEvent? && !e.AppliedEvent? && !e.FinalizeEvent?
    ensures W.Step(b, e).assignments == b.assignments && W.Step(b, e).subscriptions == b.subscriptions && W.Step(b, e).clock >= b.clock
  {
    hide W.QueueOne, W.Claim, W.CloseUnchanged, W.Infer, W.Find, W.ActOn, W.Decide, W.AssignmentTaken, W.Terminal;
    match e
    case QueueEvent(id) => JobsOnly(b, id, None, 0);
    case ClaimEvent(wanted, seconds) => JobsOnly(b, 0, wanted, seconds);
    case CloseEvent(j) => JobsOnly(b, j, None, 0);
    case InferEvent(j) => JobsOnly(b, j, None, 0);
    case FindEvent(j) => JobsOnly(b, j, None, 0);
    case ActEvent(f) => JobsOnly(b, f, None, 0);
    case _ =>
  }

  predicate SameTables(b: W.Board, after: W.Board) {
    after.assignments == b.assignments && after.subscriptions == b.subscriptions && after.clock == b.clock
  }

  lemma JobsOnly(b: W.Board, k: nat, wanted: Option<nat>, seconds: int)
    ensures SameTables(b, W.QueueOne(b, k)) && SameTables(b, W.Claim(b, wanted, seconds)) && SameTables(b, W.CloseUnchanged(b, k))
    ensures SameTables(b, W.Infer(b, k)) && SameTables(b, W.Find(b, k)) && SameTables(b, W.ActOn(b, k))
  {
    hide W.Decide, W.AssignmentTaken, W.Reclaim, W.FirstClaimable, W.Unchanged, W.Inferred;
  }

  lemma EnterTable(b: W.Board, s: nat, manual: bool, enter: bool)
    ensures S.TableStep(b.assignments, W.Revalidate(b, s, manual, enter).assignments)
    ensures W.Revalidate(b, s, manual, enter).subscriptions == b.subscriptions
  {
    hide W.Verdict;
  }

  lemma AppliedTable(b: W.Board, s: nat, oldExt: string, newExt: string, address: W.AddressText)
    ensures S.TableStep(b.assignments, W.MarkApplied(b, s, oldExt, newExt, address).assignments)
    ensures W.MarkApplied(b, s, oldExt, newExt, address).subscriptions == b.subscriptions
  {
    hide FindExternal;
  }

  lemma FinalizeTable(b: W.Board, j: nat, oldExt: string, newExt: string, address: W.AddressText, token: Option<nat>)
    ensures S.TableStep(b.assignments, W.Finalize(b, j, oldExt, newExt, address, token).assignments)
    ensures S.SubscriptionsStep(b.subscriptions, W.Finalize(b, j, oldExt, newExt, address, token).subscriptions)
  {
    hide W.Finalizable;
    if W.Finalizable(b, j, oldExt, newExt, address, token).Ok? {
      FinalizableJob(b, j, oldExt, newExt, address, token);
    }
  }

  lemma FinalizableJob(b: W.Board, j: nat, oldExt: string, newExt: string, address: W.AddressText, token: Option<nat>)
    ensures W.Finalizable(b, j, oldExt, newExt, address, token).Ok? ==> j < |b.jobs|
  {
    hide W.JobTrouble, W.Replacement, W.Evidence;
  }

  /** An assignment row disappears only as the old side of a swap that just succeeded. */
  lemma DeletionsAreSuccesses(b: W.Board, e: W.Event, k: nat)
    requires !e.Environment? && Row(b.assignments, k) && !Row(W.Step(b, e).assignments, k)
    ensures e.FinalizeEvent? && e.j < |b.jobs| == |W.Step(b, e).jobs|
    ensures b.jobs[e.j].assignment == k && W.Step(b, e).jobs[e.j].state.Success?
  {
    hide W.QueueOne, W.Claim, W.CheckFence, W.Call, W.Uncertain, W.ReadJob, W.FreezeRead, W.MarkBlocked, W.MarkFailed, W.Cancel, W.Retry, W.RequestManual,
         W.Revalidate, W.MarkApplied, W.Infer, W.CloseUnchanged, W.Find, W.ActOn, W.Finalizable, W.Terminal, W.Decide, W.AssignmentTaken;
    match e
    case RevalidateEvent(s, manual, enter) => KeepsRows(b, s, manual, enter, "", "", W.Empty, k);
    case AppliedEvent(s, oldExt, newExt, address) => KeepsRows(b, s, false, false, oldExt, newExt, address, k);
    case FinalizeEvent(j, oldExt, newExt, address, token) => FinalizableJob(b, j, oldExt, newExt, address, token);
    case _ => QuietStep(b, e);
  }

  lemma KeepsRows(b: W.Board, s: nat, manual: bool, enter: bool, oldExt: string, newExt: string, address: W.AddressText, k: nat)
    requires Row(b.assignments, k)
    ensures Row(W.Revalidate(b, s, manual, enter).assignments, k)
    ensures Row(W.MarkApplied(b, s, oldExt, newExt, address).assignments, k)
  {
    hide W.Verdict, FindExternal;
  }

  // ----- The sync, as swaps see it -----

  /** Every sync and probe step changes the tables only as the swap model allows its environment. */
  lemma SyncsAreEnvironment(s: S.Site, e: S.Event, b: W.Board)
    requires SI.SiteInv(s) && !e.OthersEvent?
    requires b.subscriptions == s.subscriptions && b.assignments == s.assignments
    ensures W.EnvironmentStep(b, S.Step(s, e).subscriptions, S.Step(s, e).assignments)
  {
    hide SI.RunsOk, SI.SyncsOk, SI.ProbesOk, ExternalIdsDiffer, S.WriteNext, S.Finish, S.ClaimRun, S.Guard, S.Abort;
    match e
    case WriteEvent(y, proxies, elapsed) => WriteEnvironment(s, y, proxies, elapsed, b);
    case FinishEvent(y, elapsed) => FinishEnvironment(s, y, elapsed, b);
    case ClaimEvent(seconds, create) => LeaseSteps(s, 0, seconds, create);
    case GuardEvent(y) => LeaseSteps(s, y, 0, false);
    case AbortEvent(y) => LeaseSteps(s, y, 0, false);
    case ClaimChecksEvent(_) => ProbeEnvironment(s, e, b);
    case ProbeEvent(_, _) => ProbeEnvironment(s, e, b);
    case ConfirmEvent(_) => ProbeEnvironment(s, e, b);
    case OutcomeEvent(_, _) => ProbeEnvironment(s, e, b);
    case _ =>
  }

  lemma LeaseSteps(s: S.Site, y: nat, seconds: int, create: bool)
    ensures S.ClaimRun(s, seconds, create).subscriptions == s.subscriptions && S.ClaimRun(s, seconds, create).assignments == s.assignments
    ensures S.Guard(s, y).subscriptions == s.subscriptions && S.Guard(s, y).assignments == s.assignments
    ensures S.Abort(s, y).subscriptions == s.subscriptions && S.Abort(s, y).assignments == s.assignments
  {
    hide S.AnyStatus, S.Expire;
  }

  lemma WriteEnvironment(s: S.Site, y: nat, proxies: seq<S.RawProxy>, elapsed: nat, b: W.Board)
    requires SI.SiteInv(s) && b.subscriptions == s.subscriptions && b.assignments == s.assignments
    ensures W.EnvironmentStep(b, S.WriteNext(s, y, proxies, elapsed).subscriptions, S.WriteNext(s, y, proxies, elapsed).assignments)
  {
    hide SI.RunsOk, SI.SyncsOk, SI.ProbesOk, S.UpsertAll, S.UpsertSubscription, S.FindSubscription, S.IdsOf, ExternalIdsDiffer, SI.SubsDiffer;
    ST.WriteAdvances(s, y, proxies, elapsed);
    var after := S.WriteNext(s, y, proxies, elapsed);
    if after.subscriptions != s.subscriptions {
      SI.UpsertSubscriptionKeeps(s.subscriptions, s.syncs[y].listing[|s.syncs[y].answers|], s.clock);
    }
    forall k | 0 <= k < |s.assignments| && s.assignments[k].Some?
      ensures after.assignments[k].Some? && after.assignments[k].value.externalId == s.assignments[k].value.externalId
    {
      assert SI.RowAdvances(s.assignments[k].value, after.assignments[k].value);
    }
  }

  lemma FinishEnvironment(s: S.Site, y: nat, elapsed: nat, b: W.Board)
    requires SI.SiteInv(s) && b.subscriptions == s.subscriptions && b.assignments == s.assignments
    ensures W.EnvironmentStep(b, S.Finish(s, y, elapsed).subscriptions, S.Finish(s, y, elapsed).assignments)
  {
    hide SI.RunsOk, SI.SyncsOk, SI.ProbesOk, SI.SubsDiffer;
  }

  lemma ProbeEnvironment(s: S.Site, e: S.Event, b: W.Board)
    requires SI.SiteInv(s) && b.subscriptions == s.subscriptions && b.assignments == s.assignments
    requires e.ClaimChecksEvent? || e.ProbeEvent? || e.ConfirmEvent? || e.OutcomeEvent?
    ensures W.EnvironmentStep(b, S.Step(s, e).subscriptions, S.Step(s, e).assignments)
  {
    hide SI.RunsOk, SI.SyncsOk, SI.ProbesOk, SI.SubsDiffer, S.IdentityCurrent, S.Lands;
    SI.ProbeStepsRows(s, e);
  }

  // ----- Dashboard observations, as both see them -----

  /** An observation is a step that both models allow, and it deletes nothing. */
  lemma ObservationsAreBoth(b: W.Board, o: D.Observation)
    requires WI.BoardInv(b)
    ensures var u := D.Observed(b.subscriptions, b.assignments, o, b.clock);
            && S.TableStep(b.assignments, u) && S.SubscriptionsStep(b.subscriptions, b.subscriptions)
            && S.Gone(b.assignments, u) == {} && W.EnvironmentStep(b, b.subscriptions, u)
  {
    hide D.Observed, WI.JobsOk, WI.SessionsOk, WI.ReadingsOk, WI.Exclusive, WI.QuotaKept, WI.UsedCounted, WI.MappingsOk;
    forall k: nat | k < |b.assignments|
      ensures D.SameListing(b.assignments[k], D.Observed(b.subscriptions, b.assignments, o, b.clock)[k])
    {
      D.ObservedKeepsListing(b.subscriptions, b.assignments, o, b.clock, k);
    }
  }

  // ----- All at once -----

  /** One database: the swap board and the sync site share tables and clock. */
  datatype World = World(board: W.Board, site: S.Site)

  /** A step of a swap worker or administrator, of a sync or probe, or of dashboard observation and
      duplicate detection. */
  datatype Turn = SwapTurn(swap: W.Event) | SyncTurn(sync: S.Event) | ObserveTurn(seen: D.Observation)

  ghost predicate Joined(w: World) {
    && WI.BoardInv(w.board) && SI.SiteInv(w.site)
    && w.board.subscriptions == w.site.subscriptions && w.board.assignments == w.site.assignments && w.board.clock == w.site.clock
  }

  function Delay(from: int, to: int): nat {
    if to > from then to - from else 0
  }

  /** A step of one side is an environment step of the other. */
  ghost function Turned(w: World, t: Turn): World {
    match t
    case SwapTurn(e) =>
      if e.Environment? then w
      else
        var b := W.Step(w.board, e);
        var s := S.Step(w.site, S.Tick(Delay(w.board.clock, b.clock)));
        World(b, S.Step(s, S.OthersEvent(b.subscriptions, b.assignments)))
    case SyncTurn(e) =>
      if e.OthersEvent? then w
      else
        var s := S.Step(w.site, e);
        var b := W.Step(w.board, W.Tick(Delay(w.site.clock, s.clock)));
        World(W.Step(b, W.Environment(s.subscriptions, s.assignments)), s)
    case ObserveTurn(o) =>
      var subs, u := w.board.subscriptions, D.Observed(w.board.subscriptions, w.board.assignments, o, w.board.clock);
      World(W.Step(w.board, W.Environment(subs, u)), S.Step(w.site, S.OthersEvent(subs, u)))
  }

  ghost function Played(w: World, turns: seq<Turn>): World {
    if turns == [] then w else Turned(Played(w, turns[..|turns| - 1]), turns[|turns| - 1])
  }

  lemma SwapClock(b: W.Board, e: W.Event)
    ensures W.Step(b, e).clock >= b.clock
  {
    hide W.QueueOne, W.Claim, W.CheckFence, W.Call, W.Uncertain, W.ReadJob, W.FreezeRead, W.MarkBlocked, W.MarkFailed, W.Cancel, W.Retry, W.RequestManual,
         W.Revalidate, W.MarkApplied, W.Finalize, W.Infer, W.CloseUnchanged, W.Find, W.ActOn, W.Decide, W.AssignmentTaken, W.Terminal;
    match e
    case RevalidateEvent(s, manual, enter) => ClockStays(b, s, manual, enter);
    case AppliedEvent(s, oldExt, newExt, address) => AppliedClock(b, s, oldExt, newExt, address);
    case FinalizeEvent(j, oldExt, newExt, address, token) => FinalizeClock(b, j, oldExt, newExt, address, token);
    case Environment(_, _) =>
    case _ => QuietStep(b, e);
  }

  lemma ClockStays(b: W.Board, s: nat, manual: bool, enter: bool)
    ensures W.Revalidate(b, s, manual, enter).clock == b.clock
  {
    hide W.Verdict;
  }

  lemma AppliedClock(b: W.Board, s: nat, oldExt: string, newExt: string, address: W.AddressText)
    ensures W.MarkApplied(b, s, oldExt, newExt, address).clock == b.clock
  {
    hide FindExternal, W.AppliedRefused;
  }

  lemma FinalizeClock(b: W.Board, j: nat, oldExt: string, newExt: string, address: W.AddressText, token: Option<nat>)
    ensures W.Finalize(b, j, oldExt, newExt, address, token).clock == b.clock
  {
    hide W.Finalizable;
  }

  lemma SyncClock(s: S.Site, e: S.Event)
    ensures S.Step(s, e).clock >= s.clock
  {
    hide S.UpsertAll, S.UpsertSubscription, S.FindSubscription, S.AnyStatus, S.Expire, S.TableStep, S.IdentityCurrent, S.Lands;
  }

  lemma SwapTurnJoined(w: World, e: W.Event)
    requires Joined(w) && !e.Environment?
    ensures Joined(Turned(w, SwapTurn(e)))
  {
    hide WI.BoardInv, SI.SiteInv, W.Step;
    var b := WR.StepInv(w.board, e);
    SwapClock(w.board, e);
    SwapsAreOtherWriters(w.board, e);
    var s := SI.StepInv(w.site, S.Tick(Delay(w.board.clock, b.clock)));
    var _ := SI.StepInv(s, S.OthersEvent(b.subscriptions, b.assignments));
  }

  lemma SyncTurnJoined(w: World, e: S.Event)
    requires Joined(w) && !e.OthersEvent?
    ensures Joined(Turned(w, SyncTurn(e)))
  {
    hide WI.BoardInv, SI.SiteInv, S.Step;
    var s := SI.StepInv(w.site, e);
    SyncClock(w.site, e);
    var b := WR.StepInv(w.board, W.Tick(Delay(w.site.clock, s.clock)));
    SyncsAreEnvironment(w.site, e, b);
    var _ := WR.StepInv(b, W.Environment(s.subscriptions, s.assignments));
  }

  lemma ObserveTurnJoined(w: World, o: D.Observation)
    requires Joined(w)
    ensures Joined(Turned(w, ObserveTurn(o)))
  {
    hide WI.BoardInv, SI.SiteInv, D.Observed;
    ObservationsAreBoth(w.board, o);
    var subs, u := w.board.subscriptions, D.Observed(w.board.subscriptions, w.board.assignments, o, w.board.clock);
    var _ := WR.StepInv(w.board, W.Environment(subs, u));
    var _ := SI.StepInv(w.site, S.OthersEvent(subs, u));
  }

  /** Subscriptions known at the start, with whatever quota an operator gave them. */
  ghost predicate Unspent(subs: seq<Subscription>) {
    SI.SubsDiffer(subs) && forall k :: 0 <= k < |subs| ==> subs[k].used == 0
  }

  function Opening(settings: W.Settings, subs: seq<Subscription>): World {
    World(W.Init(settings).(subscriptions := subs), S.Init().(subscriptions := subs))
  }

  lemma OpeningJoined(settings: W.Settings, subs: seq<Subscription>)
    requires Unspent(subs)
    ensures Joined(Opening(settings, subs))
  {}

  /** Swaps, syncs, probes and observations interleaved in any order over one database keep both invariants. */
  lemma {:induction false} WorldInv(settings: W.Settings, subs: seq<Subscription>, turns: seq<Turn>)
    requires Unspent(subs)
    ensures Joined(Played(Opening(settings, subs), turns))
  {
    if turns == [] {
      OpeningJoined(settings, subs);
    } else {
      hide Joined, Turned;
      WorldInv(settings, subs, turns[..|turns| - 1]);
      TurnJoined(Played(Opening(settings, subs), turns[..|turns| - 1]), turns[|turns| - 1]);
    }
  }

  /** The quota a subscription started with is the quota it keeps. */
  lemma {:induction false} QuotasStand(settings: W.Settings, subs: seq<Subscription>, turns: seq<Turn>, sub: nat)
    requires Unspent(subs) && sub < |subs|
    ensures var b := Played(Opening(settings, subs), turns).board; sub < |b.subscriptions| && b.subscriptions[sub].quota == subs[sub].quota
  {
    if turns != [] {
      var w, t := Played(Opening(settings, subs), turns[..|turns| - 1]), turns[|turns| - 1];
      QuotasStand(settings, subs, turns[..|turns| - 1], sub);
      WorldInv(settings, subs, turns[..|turns| - 1]);
      hide Joined, W.Step, S.Step;
      TurnKeepsQuota(w, t, sub);
      hide Turned;
    }
  }

  lemma TurnKeepsQuota(w: World, t: Turn, sub: nat)
    requires Joined(w) && sub < |w.board.subscriptions|
    ensures sub < |Turned(w, t).board.subscriptions| && Turned(w, t).board.subscriptions[sub].quota == w.board.subscriptions[sub].quota
  {
    hide WI.BoardInv, SI.SiteInv, S.Step;
    match t
    case SwapTurn(e) => if !e.Environment? { SwapKeepsQuota(w.board, e, sub); }
    case SyncTurn(e) =>
      if !e.OthersEvent? {
        var s := S.Step(w.site, e);
        var b := W.Step(w.board, W.Tick(Delay(w.site.clock, s.clock)));
        SyncsAreEnvironment(w.site, e, b);
      }
    case ObserveTurn(_) =>
  }

  lemma SwapKeepsQuota(b: W.Board, e: W.Event, sub: nat)
    requires !e.Environment? && sub < |b.subscriptions|
    ensures sub < |W.Step(b, e).subscriptions| && W.Step(b, e).subscriptions[sub].quota == b.subscriptions[sub].quota
  {
    hide W.QueueOne, W.Claim, W.CheckFence, W.Call, W.Uncertain, W.ReadJob, W.FreezeRead, W.MarkBlocked, W.MarkFailed, W.Cancel, W.Retry, W.RequestManual,
         W.Revalidate, W.MarkApplied, W.Finalizable, W.Infer, W.CloseUnchanged, W.Find, W.ActOn, W.Decide, W.AssignmentTaken, W.Terminal;
    match e
    case RevalidateEvent(s, manual, enter) => EnterTable(b, s, manual, enter);
    case AppliedEvent(s, oldExt, newExt, address) => AppliedTable(b, s, oldExt, newExt, address);
    case FinalizeEvent(j, oldExt, newExt, address, token) => FinalizableJob(b, j, oldExt, newExt, address, token);
    case _ => QuietStep(b, e);
  }

  lemma TurnJoined(w: World, t: Turn)
    requires Joined(w)
    ensures Joined(Turned(w, t))
  {
    hide W.Step, S.Step, WI.BoardInv, SI.SiteInv;
    match t
    case SwapTurn(e) => if !e.Environment? { SwapTurnJoined(w, e); }
    case SyncTurn(e) => if !e.OthersEvent? { SyncTurnJoined(w, e); }
    case ObserveTurn(o) => ObserveTurnJoined(w, o);
  }

  /** In that joint system, too, a job calls the provider at most once per requeue. */
  lemma WorldCalls(settings: W.Settings, subs: seq<Subscription>, turns: seq<Turn>, j: nat)
    requires Unspent(subs) && j < |Played(Opening(settings, subs), turns).board.jobs|
    ensures var p := Played(Opening(settings, subs), turns).board.jobs[j]; p.calls <= 1 + p.requeues
  {
    hide Played, WI.JobOk, SI.SiteInv;
    WorldInv(settings, subs, turns);
    var b := Played(Opening(settings, subs), turns).board;
    assert WI.JobOk(b, j);
    CallsBounded(b, j);
  }

  /** A subscription opened with a limited quota never spends more than that quota. */
  lemma WorldQuota(settings: W.Settings, subs: seq<Subscription>, turns: seq<Turn>, sub: nat)
    requires Unspent(subs) && sub < |subs| && subs[sub].quota >= 0
    ensures var b := Played(Opening(settings, subs), turns).board;
            && sub < |b.subscriptions|
            && b.subscriptions[sub].used + W.CountMutations(b.jobs, sub) <= subs[sub].quota
  {
    hide Played, SI.SiteInv, WI.JobsOk, WI.SessionsOk, WI.ReadingsOk, WI.MappingsOk;
    WorldInv(settings, subs, turns);
    QuotasStand(settings, subs, turns, sub);
  }

  // ----- What is deleted during a sync -----

  ghost predicate SwappedAway(maps: seq<W.Mapping>, ext: string) {
    exists k :: 0 <= k < |maps| && maps[k].oldExternal == ext
  }

  /** Each id a pass knows as deleted is the old side of a recorded swap. */
  ghost predicate DeletionsMapped(w: World) {
    forall y: nat, ext :: y < |w.site.syncs| && ext in w.site.syncs[y].deleted ==> SwappedAway(w.board.mappings, ext)
  }

  lemma MappingsGrow(b: W.Board, e: W.Event)
    ensures |b.mappings| <= |W.Step(b, e).mappings| && W.Step(b, e).mappings[..|b.mappings|] == b.mappings
  {
    hide W.Decide, W.AssignmentTaken, W.Terminal, W.Verdict, W.AppliedRefused, FindExternal, W.Finalizable, W.Reclaim, W.FirstClaimable;
    hide W.Unchanged, W.Inferred;
  }

  lemma SwapDeletes(b: W.Board, e: W.Event, ext: string)
    requires !e.Environment? && S.TableStep(b.assignments, W.Step(b, e).assignments)
    requires ext in S.Gone(b.assignments, W.Step(b, e).assignments)
    ensures SwappedAway(W.Step(b, e).mappings, ext)
  {
    hide W.Step;
    var after := W.Step(b, e);
    assert |after.assignments| == |b.assignments|;
    var k :| 0 <= k < |b.assignments| && b.assignments[k].Some? && after.assignments[k].None? && b.assignments[k].value.externalId == ext;
    DeletionsAreSuccesses(b, e, k);
    FinalizeMaps(b, e, ext);
  }

  lemma FinalizeMaps(b: W.Board, e: W.Event, ext: string)
    requires e.FinalizeEvent? && e.j < |b.jobs| == |W.Step(b, e).jobs| && Row(b.assignments, b.jobs[e.j].assignment)
    requires b.assignments[b.jobs[e.j].assignment].value.externalId == ext && !Row(W.Step(b, e).assignments, b.jobs[e.j].assignment)
    ensures SwappedAway(W.Step(b, e).mappings, ext)
  {
    if W.Finalizable(b, e.j, e.oldExt, e.newExt, e.address, e.token).Ok? {
      WR.Finishable(b, e.j, e.oldExt, e.newExt, e.address, e.token);
      hide W.Finalizable;
      assert W.Step(b, e).mappings[|b.mappings|].oldExternal == ext;
    }
  }

  lemma SyncKeepsDeleted(s: S.Site, e: S.Event)
    requires !e.OthersEvent?
    ensures |s.syncs| <= |S.Step(s, e).syncs|
    ensures forall y :: 0 <= y < |s.syncs| ==> S.Step(s, e).syncs[y].deleted == s.syncs[y].deleted
    ensures forall y :: |s.syncs| <= y < |S.Step(s, e).syncs| ==> S.Step(s, e).syncs[y].deleted == {}
  {
    hide S.AnyStatus, S.Expire, S.UpsertAll, S.UpsertSubscription, S.FindSubscription, S.IdentityCurrent, S.Lands, S.MarkMissing, S.MarkMissingSubs;
  }

  lemma SwapTurnMapped(w: World, e: W.Event)
    requires Joined(w) && DeletionsMapped(w) && !e.Environment?
    ensures DeletionsMapped(Turned(w, SwapTurn(e)))
  {
    hide WI.BoardInv, SI.SiteInv, W.Step, S.Gone;
    var after, b := Turned(w, SwapTurn(e)), W.Step(w.board, e);
    SwapsAreOtherWriters(w.board, e);
    MappingsGrow(w.board, e);
    hide S.TableStep, S.SubscriptionsStep;
    forall y: nat, ext | y < |after.site.syncs| && ext in after.site.syncs[y].deleted
      ensures SwappedAway(b.mappings, ext)
    {
      if ext in w.site.syncs[y].deleted {
        assert SwappedAway(w.board.mappings, ext);
        var k :| 0 <= k < |w.board.mappings| && w.board.mappings[k].oldExternal == ext;
        assert b.mappings[..|w.board.mappings|][k] == b.mappings[k];
      } else {
        SwapDeletes(w.board, e, ext);
      }
    }
  }

  lemma SyncTurnMapped(w: World, e: S.Event)
    requires DeletionsMapped(w) && !e.OthersEvent?
    ensures DeletionsMapped(Turned(w, SyncTurn(e)))
  {
    hide S.Step, W.EnvironmentStep;
    SyncKeepsDeleted(w.site, e);
  }

  lemma ObserveTurnMapped(w: World, o: D.Observation)
    requires Joined(w) && DeletionsMapped(w)
    ensures DeletionsMapped(Turned(w, ObserveTurn(o)))
  {
    hide WI.BoardInv, SI.SiteInv, D.Observed;
    ObservationsAreBoth(w.board, o);
  }

  lemma {:induction false} WorldDeletions(settings: W.Settings, subs: seq<Subscription>, turns: seq<Turn>)
    requires Unspent(subs)
    ensures DeletionsMapped(Played(Opening(settings, subs), turns))
  {
    if turns != [] {
      hide Joined, DeletionsMapped, Turned;
      var w, t := Played(Opening(settings, subs), turns[..|turns| - 1]), turns[|turns| - 1];
      WorldDeletions(settings, subs, turns[..|turns| - 1]);
      WorldInv(settings, subs, turns[..|turns| - 1]);
      TurnMapped(w, t);
    }
  }

  lemma TurnMapped(w: World, t: Turn)
    requires Joined(w) && DeletionsMapped(w)
    ensures DeletionsMapped(Turned(w, t))
  {
    hide W.Step, S.Step, WI.BoardInv, SI.SiteInv;
    match t
    case SwapTurn(e) => if !e.Environment? { SwapTurnMapped(w, e); }
    case SyncTurn(e) => if !e.OthersEvent? { SyncTurnMapped(w, e); }
    case ObserveTurn(o) => ObserveTurnMapped(w, o);
  }

  /** A successful sync leaves exactly its listing, although swaps finish beside it; each listed id
      it lacks is the old side of a swap that succeeded. */
  lemma WorldListing(settings: W.Settings, subs: seq<Subscription>, turns: seq<Turn>, y: nat, elapsed: nat)
    requires Unspent(subs) && ST.Succeeds(Played(Opening(settings, subs), turns).site, y, elapsed)
    ensures var w := Played(Opening(settings, subs), turns);
            && SI.SiteInv(w.site) && ST.ListingLeft(w.site, y, elapsed)
            && forall ext :: ext in w.site.syncs[y].deleted ==> SwappedAway(w.board.mappings, ext)
  {
    hide Played, WI.BoardInv, ST.ListingLeft;
    WorldInv(settings, subs, turns);
    WorldDeletions(settings, subs, turns);
    ST.FinalCommit(Played(Opening(settings, subs), turns).site, y, elapsed);
  }

  lemma CallsBounded(b: W.Board, j: nat)
    requires j < |b.jobs| && WI.JobOk(b, j)
    ensures b.jobs[j].calls <= 1 + b.jobs[j].requeues
  {}
}
