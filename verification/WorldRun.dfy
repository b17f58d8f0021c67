/** A run of the joint system in which a swap succeeds while a sync is under way. */
module WorldRun {
  import opened Wrappers
  import opened Inventory
  import opened Composition
  import D = DashboardModel
  import W = SwapModel
  import WI = SwapInvariants
  import S = SyncModel
  import SI = SyncInvariants
  import ST = SyncTheorems

  const SETTINGS := W.Settings(true, false, false, 1000, 900, 3, 60)
  const OPENED := Subscription("plan", "active", None, None, Some(0), None, 1, 0)
  const LISTED := S.RawSubscription(Some("plan"), Some(1), "active", None, Some(0))

  /** The provider lists the subscription twice: first with the old proxy, later with the new one. */
  const LISTING := [LISTED, LISTED]
  const OLD := S.RawProxy(Some("a"), "h", Some(1), Some("u"), Some("p"), Some("active"), Some("risk"), Some(true), Some("live"), "")
  const NEW := S.RawProxy(Some("b"), "k", Some(1), Some("u"), Some("p"), Some("active"), Some("risk"), Some(true), Some("live"), "")

  const OLD_ROW := Assignment(0, "a", Identity("h", 1, "u", "p"), 1, "active", "risk", "live", "", true, false, false,
                              "", None, None, None, "", Some(0), None, None, None)
  const NEW_ROW := OLD_ROW.(externalId := "b", identity := Identity("k", 1, "u", "p"), lastSeen := Some(1))

  const OLD_SHOWN := D.Snapshot("plan", "d", "h", Some(1), Some(true), Some(0), 0)
  const NEW_SHOWN := D.Snapshot("plan", "e", "k", Some(1), Some(true), Some(0), 1)

  function Plan(seen: int): Subscription {
    OPENED.(lastSeen := Some(seen))
  }

  /** The pass after `answers`, with the ids it has seen and those deleted under it. */
  function Pass(phase: S.Phase, listing: seq<S.RawSubscription>, answers: seq<seq<S.RawProxy>>, subs: set<string>, seen: set<string>): S.Sync {
    S.Sync(0, 300, phase, listing, answers, subs, seen, 0, {})
  }

  /** The state of a world, but for what no later turn of this run reads. */
  ghost predicate At(w: World, subs: seq<Subscription>, t: Table, jobs: seq<W.Job>, sessions: seq<W.Session>, until: int, pass: S.Sync, clock: int) {
    && Joined(w)
    && w.board.settings == SETTINGS && w.board.subscriptions == subs && w.board.assignments == t && w.board.jobs == jobs
    && w.board.sessions == sessions && w.board.clock == clock
    && w.site.runs == [S.SyncRun(S.Running, Some(0), Some(until), false)] && w.site.syncs == [pass]
  }

  // ----- One turn at a time -----

  lemma OneTurn(turns: seq<Turn>, t: Turn) returns (longer: seq<Turn>, after: World)
    ensures longer == turns + [t] && after == Played(Opening(SETTINGS, [OPENED]), longer)
    ensures after == Turned(Played(Opening(SETTINGS, [OPENED]), turns), t)
    ensures Joined(Played(Opening(SETTINGS, [OPENED]), turns)) && Joined(after)
  {
    longer, after := turns + [t], Played(Opening(SETTINGS, [OPENED]), turns + [t]);
    assert longer[..|turns|] == turns;
    hide Turned, Joined;
    WorldInv(SETTINGS, [OPENED], turns);
    WorldInv(SETTINGS, [OPENED], longer);
  }

  lemma NoneGone(t: Table, u: Table)
    requires |u| == |t| && forall k :: 0 <= k < |t| && t[k].Some? ==> u[k].Some?
    ensures S.Gone(t, u) == {}
  {}

  lemma NothingDeleted(syncs: seq<S.Sync>)
    ensures S.WithDeleted(syncs, {}) == syncs
  {
    forall y | 0 <= y < |syncs|
      ensures S.WithDeleted(syncs, {})[y] == syncs[y]
    {
      assert syncs[y].deleted + {} == syncs[y].deleted;
    }
  }

  /** A swap step that does not let time pass. */
  lemma SwapMoves(w: World, e: W.Event)
    requires Joined(w) && !e.Environment? && W.Step(w.board, e).clock == w.board.clock
    ensures var b, after := W.Step(w.board, e), Turned(w, SwapTurn(e));
            && |b.assignments| == |w.board.assignments|
            && after.board == b && after.site.runs == w.site.runs
            && after.site.syncs == S.WithDeleted(w.site.syncs, S.Gone(w.board.assignments, b.assignments))
  {
    hide W.Step, WI.BoardInv, SI.SiteInv;
    SwapsAreOtherWriters(w.board, e);
  }

  /** One that deletes nothing either. */
  lemma SwapMovesQuietly(w: World, e: W.Event)
    requires Joined(w) && !e.Environment? && W.Step(w.board, e).clock == w.board.clock
    requires |W.Step(w.board, e).assignments| == |w.board.assignments|
    requires forall k :: 0 <= k < |w.board.assignments| && w.board.assignments[k].Some? ==> W.Step(w.board, e).assignments[k].Some?
    ensures var after := Turned(w, SwapTurn(e));
            after.board == W.Step(w.board, e) && after.site.runs == w.site.runs && after.site.syncs == w.site.syncs
  {
    hide W.Step, Joined, Turned, S.Gone, S.WithDeleted;
    SwapMoves(w, e);
    NoneGone(w.board.assignments, W.Step(w.board, e).assignments);
    NothingDeleted(w.site.syncs);
  }

  lemma SyncMoves(w: World, e: S.Event)
    requires Joined(w) && !e.OthersEvent? && S.Step(w.site, e).clock == w.site.clock
    ensures var s, after := S.Step(w.site, e), Turned(w, SyncTurn(e));
            after.site == s && after.board == w.board.(subscriptions := s.subscriptions, assignments := s.assignments)
  {
    hide S.Step, WI.BoardInv, SI.SiteInv, W.EnvironmentStep;
    SyncsAreEnvironment(w.site, e, w.board);
  }

  lemma ObserveMoves(w: World, o: D.Observation)
    requires Joined(w)
    ensures var after := Turned(w, ObserveTurn(o));
            && after.board == w.board.(assignments := D.Observed(w.board.subscriptions, w.board.assignments, o, w.board.clock))
            && after.site.runs == w.site.runs && after.site.syncs == w.site.syncs
  {
    hide D.Observed, WI.BoardInv, SI.SiteInv;
    ObservationsAreBoth(w.board, o);
    hide W.EnvironmentStep, S.Gone, S.TableStep, S.SubscriptionsStep, S.WithDeleted;
    NothingDeleted(w.site.syncs);
  }

  /** A sync turn that takes no time. */
  lemma SyncOnward(turns: seq<Turn>, e: S.Event) returns (longer: seq<Turn>, s: S.Site)
    requires var before := Played(Opening(SETTINGS, [OPENED]), turns); !e.OthersEvent? && S.Step(before.site, e).clock == before.site.clock
    ensures var before, after := Played(Opening(SETTINGS, [OPENED]), turns), Played(Opening(SETTINGS, [OPENED]), longer);
            && Joined(after) && s == after.site == S.Step(before.site, e)
            && after.board == before.board.(subscriptions := s.subscriptions, assignments := s.assignments)
  {
    var before, w := Played(Opening(SETTINGS, [OPENED]), turns), Opening(SETTINGS, [OPENED]);
    hide Played, Turned, Joined, S.Step;
    longer, w := OneTurn(turns, SyncTurn(e));
    SyncMoves(before, e);
    s := w.site;
  }

  // ----- The run -----

  /** A sync run is claimed. */
  lemma Claimed() returns (turns: seq<Turn>)
    ensures At(Played(Opening(SETTINGS, [OPENED]), turns), [OPENED], [], [], [], 300, Pass(S.Listing, [], [], {}, {}), 0)
  {
    var start, w := Opening(SETTINGS, [OPENED]), Opening(SETTINGS, [OPENED]);
    assert Played(start, []) == start;
    ClaimedSite(start.site);
    hide Played, Turned, Joined, S.ClaimRun;
    turns, w := OneTurn([], SyncTurn(S.ClaimEvent(300, true)));
    SyncMoves(start, S.ClaimEvent(300, true));
  }

  lemma ClaimedSite(s: S.Site)
    requires s == S.Init().(subscriptions := [OPENED])
    ensures var after := S.ClaimRun(s, 300, true);
            && after == s.(runs := after.runs, syncs := after.syncs)
            && after.runs == [S.SyncRun(S.Running, Some(0), Some(300), false)] && after.syncs == [Pass(S.Listing, [], [], {}, {})]
  {
    assert S.Expire([], 0) == [];
  }

  /** The provider lists the subscription, twice. */
  lemma Listed() returns (turns: seq<Turn>)
    ensures At(Played(Opening(SETTINGS, [OPENED]), turns), [OPENED], [], [], [], 300, Pass(S.Working, LISTING, [], {}, {}), 0)
  {
    turns := Claimed();
    var s := Played(Opening(SETTINGS, [OPENED]), turns).site;
    hide Played, WI.BoardInv, SI.SiteInv;
    turns, s := SyncOnward(turns, S.ListEvent(0, LISTING));
  }

  /** A write of the plan under a live lease. */
  lemma Wrote(s: S.Site, known: Subscription, pass: S.Sync, until: int, r: S.RawProxy, now: int)
    requires s.subscriptions == [known] && known.externalId == "plan" && s.clock == now < until
    requires s.runs == [S.SyncRun(S.Running, Some(0), Some(until), false)] && s.syncs == [pass]
    requires pass.run == 0 && pass.lease == 300 && pass.phase.Working? && pass.listing == LISTING && |pass.answers| < 2 && S.ValidProxy(r)
    ensures var after := S.WriteNext(s, 0, [r], 0);
            && after.subscriptions == [known.(status := "active", expiresAt := None, eligibleCount := Some(0), lastSeen := Some(now), missingAt := None)]
            && after.assignments == S.UpsertProxy(s.assignments, r, 0, now) && after.clock == now
            && after.runs == [S.SyncRun(S.Running, Some(0), Some(now + 300), false)]
            && after.syncs == [pass.(answers := pass.answers + [[r]], seenSubs := pass.seenSubs + {"plan"}, seen := pass.seen + {r.id.value})]
  {
    assert pass.listing[|pass.answers|] == LISTED;
    assert S.FindSubscription(s.subscriptions, 1, "plan") == Some(0);
    var subs := S.UpsertSubscription(s.subscriptions, LISTED, now);
    assert S.FindSubscription(subs, 1, "plan") == Some(0);
    assert [r][..0] == [];
    assert S.UpsertAll(s.assignments, [r], 0, now) == S.UpsertProxy(s.assignments, r, 0, now);
    assert S.IdsOf([r]) == {r.id.value};
    hide S.UpsertAll, S.UpsertProxy, S.FindSubscription, S.IdsOf;
  }

  lemma FirstWrite(s: S.Site)
    requires s.subscriptions == [OPENED] && s.assignments == [] && s.clock == 0
    requires s.runs == [S.SyncRun(S.Running, Some(0), Some(300), false)] && s.syncs == [Pass(S.Working, LISTING, [], {}, {})]
    ensures var after := S.WriteNext(s, 0, [OLD], 0);
            && after.subscriptions == [Plan(0)] && after.assignments == [Some(OLD_ROW)] && after.clock == 0
            && after.runs == [S.SyncRun(S.Running, Some(0), Some(300), false)]
            && after.syncs == [Pass(S.Working, LISTING, [[OLD]], {"plan"}, {"a"})]
  {
    Wrote(s, OPENED, Pass(S.Working, LISTING, [], {}, {}), 300, OLD, 0);
    hide S.WriteNext;
    assert S.UpsertProxy([], OLD, 0, 0) == [Some(OLD_ROW)];
    assert [] + [[OLD]] == [[OLD]] && {} + {"plan"} == {"plan"} && {} + {"a"} == {"a"};
  }

  /** The old proxy is stored: a live risk. */
  lemma OldStored() returns (turns: seq<Turn>)
    ensures At(Played(Opening(SETTINGS, [OPENED]), turns), [Plan(0)], [Some(OLD_ROW)], [], [], 300,
               Pass(S.Working, LISTING, [[OLD]], {"plan"}, {"a"}), 0)
  {
    turns := Listed();
    var s := Played(Opening(SETTINGS, [OPENED]), turns).site;
    hide Played, Pass, WI.BoardInv, SI.SiteInv;
    FirstWrite(s);
    hide S.WriteNext;
    turns, s := SyncOnward(turns, S.WriteEvent(0, [OLD], 0));
  }

  const OLD_PASS := Pass(S.Working, LISTING, [[OLD]], {"plan"}, {"a"})
  const NEW_PASS := Pass(S.Working, LISTING, [[OLD], [NEW]], {"plan"}, {"a", "b"})

  /** A row as the dashboard shows it. */
  function Seen(a: Assignment, id: string, at: int): Assignment {
    a.(dashboardId := id, dashboardEligible := Some(true), connections := Some(0), observedAt := Some(at), dashboardSource := DASHBOARD)
  }

  lemma OneMatch(subs: seq<Subscription>, t: Table, s: D.Snapshot, k: nat)
    requires k < |t| <= 2 && D.Shows(subs, t, s, k) && (forall i: nat :: i < |t| && i != k ==> !D.Shows(subs, t, s, i))
    ensures D.Matches(subs, t, s, |t|) == [k]
  {
    hide D.Shows;
    assert D.Matches(subs, t, s, 0) == [];
    assert D.Matches(subs, t, s, 1) == if k == 0 then [0] else [];
  }

  lemma OneResolved(subs: seq<Subscription>, t: Table, s: D.Snapshot, now: int, k: nat)
    requires Row(t, k) && D.Resolve(subs, t, s, now, 900) == Some(k) && s.subscription == "plan"
    ensures D.ResolveAll(subs, t, "plan", [s], now, 900) == Some([k])
  {
    hide D.Resolve;
    assert [s][..0] == [];
    assert D.ResolveAll(subs, t, "plan", [], now, 900) == Some([]);
    hide D.ResolveAll;
    assert D.ResolveNext(subs, t, "plan", [], [], s, now, 900) == Some([k]);
  }

  lemma OneAttached(t: Table, s: D.Snapshot, k: nat)
    ensures D.AttachAll(t, [k], [s]) == D.Attach(t, k, s)
  {
    assert [k][..0] == [] && [s][..0] == [];
  }

  lemma OnlyOne(t: Table, s: D.Snapshot, now: int, k: nat)
    requires k < |t| <= 2 && D.Shows([Plan(now)], t, s, k) && (forall i: nat :: i < |t| && i != k ==> !D.Shows([Plan(now)], t, s, i))
    requires s.subscription == "plan" && s.observedAt == now && (t[k].value.observedAt.Some? ==> t[k].value.observedAt.value <= now)
    ensures D.ApplySnapshot([Plan(now)], t, "plan", [s], now, 900) == D.Attach(D.Clear([Plan(now)], t, "plan"), k, s)
  {
    var subs := [Plan(now)];
    OneMatch(subs, t, s, k);
    hide D.Shows, D.Matches;
    assert D.Resolve(subs, t, s, now, 900) == Some(k);
    OneResolved(subs, t, s, now, k);
    hide D.Resolve, D.ResolveAll, D.AttachAll, D.Attach, D.Clear;
    OneAttached(D.Clear(subs, t, "plan"), s, k);
  }

  lemma FirstObserved()
    ensures D.Observed([Plan(0)], [Some(OLD_ROW)], D.Whole("plan", [OLD_SHOWN], 900), 0) == [Some(Seen(OLD_ROW, "d", 0))]
  {
    OnlyOne([Some(OLD_ROW)], OLD_SHOWN, 0, 0);
    assert D.Clear([Plan(0)], [Some(OLD_ROW)], "plan") == [Some(OLD_ROW)];
  }

  /** The dashboard shows it. */
  lemma OldShown() returns (turns: seq<Turn>)
    ensures At(Played(Opening(SETTINGS, [OPENED]), turns), [Plan(0)], [Some(Seen(OLD_ROW, "d", 0))], [], [], 300, OLD_PASS, 0)
  {
    turns := OldStored();
    var before, w := Played(Opening(SETTINGS, [OPENED]), turns), Opening(SETTINGS, [OPENED]);
    hide Played, Turned, Pass, Joined, D.Observed;
    FirstObserved();
    ObserveMoves(before, D.Whole("plan", [OLD_SHOWN], 900));
    turns, w := OneTurn(turns, ObserveTurn(D.Whole("plan", [OLD_SHOWN], 900)));
  }

  /** A swap turn under which the sync's own state stays as it is. */
  lemma SwapOnward(turns: seq<Turn>, e: W.Event, pass: S.Sync) returns (longer: seq<Turn>, b: W.Board)
    requires var w := Played(Opening(SETTINGS, [OPENED]), turns);
             && !e.Environment? && W.Step(w.board, e).clock == w.board.clock && |W.Step(w.board, e).assignments| == |w.board.assignments|
             && (forall k :: 0 <= k < |w.board.assignments| && w.board.assignments[k].Some? ==> W.Step(w.board, e).assignments[k].Some?)
             && w.site.runs == [S.SyncRun(S.Running, Some(0), Some(300), false)] && w.site.syncs == [pass]
    ensures var after := Played(Opening(SETTINGS, [OPENED]), longer);
            && Joined(after) && b == after.board == W.Step(Played(Opening(SETTINGS, [OPENED]), turns).board, e)
            && after.site.runs == [S.SyncRun(S.Running, Some(0), Some(300), false)] && after.site.syncs == [pass]
  {
    var before, w := Played(Opening(SETTINGS, [OPENED]), turns), Opening(SETTINGS, [OPENED]);
    hide Played, Turned, Joined, W.Step;
    longer, w := OneTurn(turns, SwapTurn(e));
    SwapMovesQuietly(before, e);
    b := w.board;
  }

  const QUEUED := W.NewJob(0, 0, 0)
  const TAKEN := QUEUED.(state := W.Running, token := Some(0), claimedUntil := Some(300), attempts := 1)
  const ENTERED := TAKEN.(state := W.Mutating, startedAt := Some(0), claimedUntil := None, oldExternal := "a", oldHost := "h", oldPort := 1,
                          dashboardId := "d", entries := 1)
  const CALLED := ENTERED.(calls := 1)
  const APPLIED := CALLED.(state := W.Applied, appliedAt := Some(0), newExternal := "b")

  lemma ShownIsAllowed(b: W.Board, exclude: Option<nat>)
    requires b.settings == SETTINGS && b.subscriptions == [Plan(0)] && b.assignments == [Some(Seen(OLD_ROW, "d", 0))] && b.clock == 0
    requires W.CountLive(b.jobs, 0, exclude) == 0
    ensures W.Decide(b, 0, 0, exclude) == W.Allowed
  {}

  lemma QueueStep(b: W.Board)
    requires b.settings == SETTINGS && b.subscriptions == [Plan(0)] && b.assignments == [Some(Seen(OLD_ROW, "d", 0))] && b.clock == 0 && b.jobs == []
    ensures W.QueueOne(b, 0) == b.(jobs := [QUEUED])
  {
    assert W.CountLive(b.jobs, 0, None) == 0;
    ShownIsAllowed(b, None);
    hide W.Decide;
    assert W.MayQueue(b, 0);
  }

  lemma Queued() returns (turns: seq<Turn>)
    ensures At(Played(Opening(SETTINGS, [OPENED]), turns), [Plan(0)], [Some(Seen(OLD_ROW, "d", 0))], [QUEUED], [], 300, OLD_PASS, 0)
  {
    turns := OldShown();
    var b := Played(Opening(SETTINGS, [OPENED]), turns).board;
    QueueStep(b);
    hide Played, Pass, Joined, W.QueueOne;
    turns, b := SwapOnward(turns, W.QueueEvent(0), OLD_PASS);
  }

  lemma ClaimStep(b: W.Board)
    requires b.jobs == [QUEUED] && b.sessions == [] && b.clock == 0
    ensures W.Claim(b, None, 300) == b.(jobs := [TAKEN], sessions := [W.Session(0, W.Claimed)])
  {
    assert W.Reclaim(b.jobs, 0) == b.jobs && W.Claimable(b.jobs, 0, 0) && W.Pick(b.jobs, None, 0) == Some(0);
    hide W.Reclaim, W.Pick;
  }

  lemma Taken() returns (turns: seq<Turn>)
    ensures At(Played(Opening(SETTINGS, [OPENED]), turns), [Plan(0)], [Some(Seen(OLD_ROW, "d", 0))], [TAKEN], [W.Session(0, W.Claimed)], 300, OLD_PASS, 0)
  {
    turns := Queued();
    var b := Played(Opening(SETTINGS, [OPENED]), turns).board;
    ClaimStep(b);
    hide Played, Pass, Joined, W.Claim;
    turns, b := SwapOnward(turns, W.ClaimEvent(None, 300), OLD_PASS);
  }

  lemma EnterStep(b: W.Board)
    requires b.settings == SETTINGS && b.subscriptions == [Plan(0)] && b.assignments == [Some(Seen(OLD_ROW, "d", 0))] && b.clock == 0
    requires b.jobs == [TAKEN] && b.sessions == [W.Session(0, W.Claimed)]
    ensures W.Revalidate(b, 0, false, true) == b.(jobs := [ENTERED], assignments := [Some(OLD_ROW)], sessions := [W.Session(0, W.Entered)])
  {
    assert W.CountLive(b.jobs, 0, Some(0)) == 0 by { assert b.jobs[..0] == []; }
    assert !W.SiblingBusy(b.jobs, 0);
    ShownIsAllowed(b, Some(0));
    hide W.Decide, W.SiblingBusy;
    assert W.Verdict(b, 0, false) == W.Allowed;
    hide W.Verdict;
  }

  lemma Entered() returns (turns: seq<Turn>)
    ensures At(Played(Opening(SETTINGS, [OPENED]), turns), [Plan(0)], [Some(OLD_ROW)], [ENTERED], [W.Session(0, W.Entered)], 300, OLD_PASS, 0)
  {
    turns := Taken();
    var b := Played(Opening(SETTINGS, [OPENED]), turns).board;
    EnterStep(b);
    hide Played, Pass, Joined, W.Revalidate;
    turns, b := SwapOnward(turns, W.RevalidateEvent(0, false, true), OLD_PASS);
  }

  lemma CheckStep(b: W.Board)
    requires b.jobs == [ENTERED] && b.sessions == [W.Session(0, W.Entered)]
    ensures W.CheckFence(b, 0) == b.(sessions := [W.Session(0, W.Checked)])
  {}

  lemma CallStep(b: W.Board)
    requires b.jobs == [ENTERED] && b.sessions == [W.Session(0, W.Checked)]
    ensures W.Call(b, 0) == b.(jobs := [CALLED], sessions := [W.Session(0, W.Called)])
  {}

  lemma Checked() returns (turns: seq<Turn>)
    ensures At(Played(Opening(SETTINGS, [OPENED]), turns), [Plan(0)], [Some(OLD_ROW)], [ENTERED], [W.Session(0, W.Checked)], 300, OLD_PASS, 0)
  {
    turns := Entered();
    var b := Played(Opening(SETTINGS, [OPENED]), turns).board;
    CheckStep(b);
    hide Played, Pass, Joined, W.CheckFence;
    turns, b := SwapOnward(turns, W.CheckEvent(0), OLD_PASS);
  }

  /** The provider is called, once. */
  lemma CalledOnce() returns (turns: seq<Turn>)
    ensures At(Played(Opening(SETTINGS, [OPENED]), turns), [Plan(0)], [Some(OLD_ROW)], [CALLED], [W.Session(0, W.Called)], 300, OLD_PASS, 0)
  {
    turns := Checked();
    var b := Played(Opening(SETTINGS, [OPENED]), turns).board;
    CallStep(b);
    hide Played, Pass, Joined, W.Call;
    turns, b := SwapOnward(turns, W.CallEvent(0), OLD_PASS);
  }

  lemma AppliedStep(b: W.Board)
    requires b.subscriptions == [Plan(0)] && b.assignments == [Some(OLD_ROW)] && b.clock == 0
    requires b.jobs == [CALLED] && b.sessions == [W.Session(0, W.Called)]
    ensures W.MarkApplied(b, 0, "a", "b", W.Empty) == b.(jobs := [APPLIED])
  {
    assert FindExternal(b.assignments, 1, "a") == Some(0) && FindExternal(b.assignments, 1, "b") == None;
    assert !W.AppliedRefused(b, 0, "a", "b", W.Empty);
    hide W.AppliedRefused;
    assert W.ClearRow(b.assignments, 0) == b.assignments;
  }

  /** It answers with the replacement "b". */
  lemma Answered() returns (turns: seq<Turn>)
    ensures At(Played(Opening(SETTINGS, [OPENED]), turns), [Plan(0)], [Some(OLD_ROW)], [APPLIED], [W.Session(0, W.Called)], 300, OLD_PASS, 0)
  {
    turns := CalledOnce();
    var b := Played(Opening(SETTINGS, [OPENED]), turns).board;
    AppliedStep(b);
    hide Played, Pass, Joined, W.MarkApplied;
    turns, b := SwapOnward(turns, W.AppliedEvent(0, "a", "b", W.Empty), OLD_PASS);
  }

  lemma SecondPasses(w: World)
    requires Joined(w)
    ensures var after := Turned(w, SwapTurn(W.Tick(1)));
            after.board == w.board.(clock := w.board.clock + 1) && after.site.runs == w.site.runs && after.site.syncs == w.site.syncs
  {
    hide WI.BoardInv, SI.SiteInv;
    SwapsAreOtherWriters(w.board, W.Tick(1));
    NoneGone(w.board.assignments, w.board.assignments);
    NothingDeleted(w.site.syncs);
    hide S.Gone, S.WithDeleted;
  }

  /** A second later the sync lists the replacement. */
  lemma Later() returns (turns: seq<Turn>)
    ensures At(Played(Opening(SETTINGS, [OPENED]), turns), [Plan(0)], [Some(OLD_ROW)], [APPLIED], [W.Session(0, W.Called)], 300, OLD_PASS, 1)
  {
    turns := Answered();
    var before, w := Played(Opening(SETTINGS, [OPENED]), turns), Opening(SETTINGS, [OPENED]);
    hide Played, Pass, Joined, Turned;
    SecondPasses(before);
    turns, w := OneTurn(turns, SwapTurn(W.Tick(1)));
  }

  lemma SecondWrite(s: S.Site)
    requires s.subscriptions == [Plan(0)] && s.assignments == [Some(OLD_ROW)] && s.clock == 1
    requires s.runs == [S.SyncRun(S.Running, Some(0), Some(300), false)] && s.syncs == [OLD_PASS]
    ensures var after := S.WriteNext(s, 0, [NEW], 0);
            && after.subscriptions == [Plan(1)] && after.assignments == [Some(OLD_ROW), Some(NEW_ROW)] && after.clock == 1
            && after.runs == [S.SyncRun(S.Running, Some(0), Some(301), false)] && after.syncs == [NEW_PASS]
  {
    Wrote(s, Plan(0), OLD_PASS, 300, NEW, 1);
    hide S.WriteNext;
    assert FindExternal(s.assignments, 1, "b") == None;
    assert S.UpsertProxy(s.assignments, NEW, 0, 1) == [Some(OLD_ROW), Some(NEW_ROW)];
    assert [[OLD]] + [[NEW]] == [[OLD], [NEW]] && {"plan"} + {"plan"} == {"plan"} && {"a"} + {"b"} == {"a", "b"};
  }

  lemma NewStored() returns (turns: seq<Turn>)
    ensures At(Played(Opening(SETTINGS, [OPENED]), turns), [Plan(1)], [Some(OLD_ROW), Some(NEW_ROW)], [APPLIED], [W.Session(0, W.Called)],
               301, NEW_PASS, 1)
  {
    turns := Later();
    var s := Played(Opening(SETTINGS, [OPENED]), turns).site;
    hide Played, Pass, WI.BoardInv, SI.SiteInv;
    SecondWrite(s);
    hide S.WriteNext;
    turns, s := SyncOnward(turns, S.WriteEvent(0, [NEW], 0));
  }

  lemma SecondObserved()
    ensures D.Observed([Plan(1)], [Some(OLD_ROW), Some(NEW_ROW)], D.Whole("plan", [NEW_SHOWN], 900), 1) == [Some(OLD_ROW), Some(Seen(NEW_ROW, "e", 1))]
  {
    OnlyOne([Some(OLD_ROW), Some(NEW_ROW)], NEW_SHOWN, 1, 1);
    assert D.Clear([Plan(1)], [Some(OLD_ROW), Some(NEW_ROW)], "plan") == [Some(OLD_ROW), Some(NEW_ROW)];
  }

  /** And the dashboard shows it. */
  lemma NewShown() returns (turns: seq<Turn>)
    ensures At(Played(Opening(SETTINGS, [OPENED]), turns), [Plan(1)], [Some(OLD_ROW), Some(Seen(NEW_ROW, "e", 1))], [APPLIED],
               [W.Session(0, W.Called)], 301, NEW_PASS, 1)
  {
    turns := NewStored();
    var before, w := Played(Opening(SETTINGS, [OPENED]), turns), Opening(SETTINGS, [OPENED]);
    hide Played, Turned, Pass, Joined, D.Observed;
    SecondObserved();
    ObserveMoves(before, D.Whole("plan", [NEW_SHOWN], 900));
    turns, w := OneTurn(turns, ObserveTurn(D.Whole("plan", [NEW_SHOWN], 900)));
  }

  lemma FinalizeStep(b: W.Board)
    requires b.settings == SETTINGS && b.subscriptions == [Plan(1)] && b.assignments == [Some(OLD_ROW), Some(Seen(NEW_ROW, "e", 1))] && b.clock == 1
    requires b.jobs == [APPLIED]
    ensures var after := W.Finalize(b, 0, "a", "b", W.Empty, Some(0));
            && |after.jobs| == 1 && after.jobs[0].state.Success? && after.jobs[0].calls == 1 && after.clock == 1
            && after.subscriptions == [Plan(1).(used := 1)]
            && |after.assignments| == 2 && after.assignments[0].None? && after.assignments[1].Some?
  {
    assert FindExternal(b.assignments, 2, "a") == Some(0) && FindExternal(b.assignments, 2, "b") == Some(1);
    assert W.Finalizable(b, 0, "a", "b", W.Empty, Some(0)) == Ok(1);
    hide W.Finalizable;
  }

  /** The swap succeeds, and the sync knows that the old id is gone. */
  lemma Succeeded() returns (turns: seq<Turn>)
    ensures var w := Played(Opening(SETTINGS, [OPENED]), turns);
            && Joined(w) && |w.board.jobs| == 1 && w.board.jobs[0].state.Success? && w.board.jobs[0].calls == 1
            && w.board.subscriptions == [Plan(1).(used := 1)] && w.board.clock == 1
            && |w.board.assignments| == 2 && w.board.assignments[0].None?
            && w.board.assignments[1].Some? && w.board.assignments[1].value.externalId == "b" && w.board.assignments[1].value.missingAt.None?
            && w.site.runs == [S.SyncRun(S.Running, Some(0), Some(301), false)] && w.site.syncs == [NEW_PASS.(deleted := {"a"})]
  {
    turns := NewShown();
    var before, w := Played(Opening(SETTINGS, [OPENED]), turns), Opening(SETTINGS, [OPENED]);
    FinalizeStep(before.board);
    hide Played, Turned, W.Finalize, Joined, Pass;
    SwapMoves(before, W.FinalizeEvent(0, "a", "b", W.Empty, Some(0)));
    OldGone(before.board.assignments, W.Finalize(before.board, 0, "a", "b", W.Empty, Some(0)).assignments);
    hide S.Gone, S.WithDeleted;
    turns, w := OneTurn(turns, SwapTurn(W.FinalizeEvent(0, "a", "b", W.Empty, Some(0))));
  }

  lemma OldGone(t: Table, u: Table)
    requires |t| == |u| == 2 && t[0] == Some(OLD_ROW) && u[0].None? && u[1].Some?
    ensures S.Gone(t, u) == {"a"} && S.WithDeleted([NEW_PASS], {"a"}) == [NEW_PASS.(deleted := {"a"})]
  {
    assert {} + {"a"} == {"a"};
  }

  lemma AfterFinish(s: S.Site)
    requires |s.assignments| == 2 && s.assignments[0].None? && s.assignments[1].Some?
    requires s.assignments[1].value.externalId == "b" && s.assignments[1].value.missingAt.None?
    requires s.runs == [S.SyncRun(S.Running, Some(0), Some(301), false)] && s.syncs == [NEW_PASS.(deleted := {"a"})] && s.clock == 1
    ensures ST.Succeeds(s, 0, 0)
    ensures !SI.Present(S.Finish(s, 0, 0).assignments, "a") && SI.Present(S.Finish(s, 0, 0).assignments, "b")
  {
    var t := S.Finish(s, 0, 0).assignments;
    assert Row(t, 1) && t[1].value.externalId == "b" && t[1].value.missingAt.None?;
  }

  /** With a quota of one swap, a job is queued, calls the provider once and succeeds while a sync is
      under way; the sync then succeeds without the old proxy it had listed. */
  lemma SwapBesideSync() returns (turns: seq<Turn>)
    ensures Unspent([OPENED]) && OPENED.quota == 1
    ensures var w := Played(Opening(SETTINGS, [OPENED]), turns);
            && |w.board.jobs| == 1 && w.board.jobs[0].state.Success? && w.board.jobs[0].calls == 1
            && w.board.subscriptions == [Plan(1).(used := 1)]
            && |w.site.syncs| == 1 && w.site.syncs[0].deleted == {"a"} && "a" in w.site.syncs[0].seen
            && SI.SiteInv(w.site) && ST.Succeeds(w.site, 0, 0) && ST.ListingLeft(w.site, 0, 0) && SwappedAway(w.board.mappings, "a")
            && !SI.Present(S.Finish(w.site, 0, 0).assignments, "a") && SI.Present(S.Finish(w.site, 0, 0).assignments, "b")
  {
    turns := Succeeded();
    var w := Played(Opening(SETTINGS, [OPENED]), turns);
    assert w.site.assignments == w.board.assignments && w.site.clock == 1;
    hide Played, Joined, WI.BoardInv, SI.SiteInv, ST.ListingLeft, S.Finish, SI.Present, SwappedAway;
    AfterFinish(w.site);
    hide ST.Succeeds;
    WorldListing(SETTINGS, [OPENED], turns, 0, 0);
  }
}
