/** Dashboard observations attached to the provider's assignments, and the duplicate marks
    (app/services/proxiware_dashboard.py:160-320, app/services/proxiware_qualification.py:176-231). */
module DashboardModel {
  import opened Wrappers
  import opened Inventory

  /** One row of the provider's dashboard; the port is None when its address names none. */
  datatype Snapshot = Snapshot(subscription: string, assignmentId: string, host: string, port: Option<int>,
                               eligible: Option<bool>, connections: Option<int>, observedAt: int)

  datatype Marks = Marks(duplicate: bool, distribution: bool)

  /** A whole subscription at once; one row whose id was looked up before; and the two columns of
      duplicate detection, computed from rows read before. */
  datatype Observation =
    | Whole(subscription: string, snapshots: seq<Snapshot>, maxAge: int)
    | Single(id: nat, snapshot: Snapshot)
    | Duplicates(marks: map<nat, Marks>)

  // ----- Finding the row -----

  /** The subscription of the row has this external id. */
  predicate Under(subs: seq<Subscription>, t: Table, k: nat, ext: string) {
    Row(t, k) && t[k].value.subscription < |subs| && subs[t[k].value.subscription].externalId == ext
  }

  predicate Shows(subs: seq<Subscription>, t: Table, s: Snapshot, k: nat) {
    && Under(subs, t, k, s.subscription) && t[k].value.missingAt.None?
    && t[k].value.identity.host == s.host && (s.port.Some? ==> t[k].value.identity.port == s.port.value)
  }

  /** The rows a snapshot may mean among the first `n`, in id order. */
  function Matches(subs: seq<Subscription>, t: Table, s: Snapshot, n: nat): (r: seq<nat>)
    requires n <= |t|
    ensures forall i :: 0 <= i < |r| ==> r[i] < n && Shows(subs, t, s, r[i])
    ensures forall k: nat :: k < n && Shows(subs, t, s, k) ==> k in r
  {
    if n == 0 then []
    else Matches(subs, t, s, n - 1) + (if Shows(subs, t, s, n - 1) then [n - 1] else [])
  }

  predicate Timely(s: Snapshot, now: int, maxAge: int) {
    -60 <= now - s.observedAt <= Max(1, maxAge)
  }

  /** `_resolved_observation`: the one row meant, unless the observation is stale or older than the last. */
  function Resolve(subs: seq<Subscription>, t: Table, s: Snapshot, now: int, maxAge: int): (r: Option<nat>)
    ensures r.Some? ==> Shows(subs, t, s, r.value) && Timely(s, now, maxAge)
    ensures r.Some? ==> forall k: nat :: Shows(subs, t, s, k) ==> k == r.value
    ensures r.Some? && t[r.value].value.observedAt.Some? ==> t[r.value].value.observedAt.value <= s.observedAt
  {
    var found := Matches(subs, t, s, |t|);
    if !Timely(s, now, maxAge) || |found| != 1 then None
    else if t[found[0]].value.observedAt.Some? && s.observedAt < t[found[0]].value.observedAt.value then None
    else
      assert forall k: nat :: Shows(subs, t, s, k) ==> k in found;
      Some(found[0])
  }

  /** The next row of a whole snapshot: in scope, not repeated, and on a row of its own. */
  function ResolveNext(subs: seq<Subscription>, t: Table, ext: string, earlier: seq<Snapshot>, ids: seq<nat>, s: Snapshot, now: int, maxAge: int)
    : (r: Option<seq<nat>>)
    ensures r.Some? ==> s.subscription == ext && (forall k :: 0 <= k < |earlier| ==> earlier[k].assignmentId != s.assignmentId)
    ensures r.Some? ==> |r.value| == |ids| + 1 && r.value[..|ids|] == ids && Resolve(subs, t, s, now, maxAge) == Some(r.value[|ids|])
    ensures r.Some? ==> r.value[|ids|] !in ids
  {
    if s.subscription != ext || (exists k :: 0 <= k < |earlier| && earlier[k].assignmentId == s.assignmentId) then None
    else
      match Resolve(subs, t, s, now, maxAge)
      case None => None
      case Some(id) => if id in ids then None else Some(ids + [id])
  }

  /** The rows of a whole snapshot in its order; None if anything is out of scope, repeated or unresolved. */
  function ResolveAll(subs: seq<Subscription>, t: Table, ext: string, snaps: seq<Snapshot>, now: int, maxAge: int): (r: Option<seq<nat>>)
    ensures r.Some? ==> |r.value| == |snaps|
    ensures r.Some? ==> forall i :: 0 <= i < |snaps| ==> snaps[i].subscription == ext && Resolve(subs, t, snaps[i], now, maxAge) == Some(r.value[i])
    ensures r.Some? ==> forall i, j :: 0 <= i < j < |snaps| ==> r.value[i] != r.value[j] && snaps[i].assignmentId != snaps[j].assignmentId
  {
    if snaps == [] then Some([])
    else
      var n := |snaps| - 1;
      var before := ResolveAll(subs, t, ext, snaps[..n], now, maxAge);
      if before.None? then None else ResolveNext(subs, t, ext, snaps[..n], before.value, snaps[n], now, maxAge)
  }

  // ----- Writing it -----

  function Attached(a: Assignment, s: Snapshot): Assignment {
    a.(dashboardId := s.assignmentId, dashboardEligible := s.eligible, connections := s.connections, observedAt := Some(s.observedAt),
       dashboardSource := DASHBOARD, providerEligible := if s.eligible.Some? then s.eligible.value else a.providerEligible)
  }

  function Attach(t: Table, id: nat, s: Snapshot): Table {
    if Row(t, id) then t[id := Some(Attached(t[id].value, s))] else t
  }

  function AttachAll(t: Table, ids: seq<nat>, snaps: seq<Snapshot>): (r: Table)
    requires |ids| == |snaps|
    ensures |r| == |t|
  {
    if ids == [] then t else Attach(AttachAll(t, ids[..|ids| - 1], snaps[..|ids| - 1]), ids[|ids| - 1], snaps[|ids| - 1])
  }

  /** Every row of the subscription forgets the dashboard, missing rows included. */
  function Clear(subs: seq<Subscription>, t: Table, ext: string): (r: Table)
    ensures |r| == |t|
  {
    seq(|t|, k requires 0 <= k < |t| => if Under(subs, t, k, ext) then Some(WithoutDashboard(t[k].value)) else t[k])
  }

  /** `apply_dashboard_snapshot`: an empty snapshot clears, a bad one changes nothing. */
  function ApplySnapshot(subs: seq<Subscription>, t: Table, ext: string, snaps: seq<Snapshot>, now: int, maxAge: int): (r: Table)
    ensures |r| == |t|
  {
    match ResolveAll(subs, t, ext, snaps, now, maxAge)
    case None => t
    case Some(ids) => AttachAll(Clear(subs, t, ext), ids, snaps)
  }

  function Marked(a: Option<Assignment>, marks: map<nat, Marks>, k: nat): Option<Assignment> {
    if a.Some? && k in marks
    then Some(a.value.(duplicateEgress := marks[k].duplicate, distribution := marks[k].distribution)) else a
  }

  function Observed(subs: seq<Subscription>, t: Table, o: Observation, now: int): (r: Table)
    ensures |r| == |t|
  {
    match o
    case Whole(ext, snaps, maxAge) => ApplySnapshot(subs, t, ext, snaps, now, maxAge)
    case Single(id, s) => Attach(t, id, s)
    case Duplicates(marks) => seq(|t|, k requires 0 <= k < |t| => Marked(t[k], marks, k))
  }

  // ----- What an observation changes -----

  /** Rows alike in all that sync, swaps and probes go by. */
  predicate SameListing(a: Option<Assignment>, b: Option<Assignment>) {
    && (a.Some? <==> b.Some?)
    && (a.Some? ==>
          b.value == a.value.(dashboardId := b.value.dashboardId, dashboardEligible := b.value.dashboardEligible,
                              connections := b.value.connections, observedAt := b.value.observedAt,
                              dashboardSource := b.value.dashboardSource, providerEligible := b.value.providerEligible,
                              duplicateEgress := b.value.duplicateEgress, distribution := b.value.distribution))
  }

  lemma {:induction false} AttachKeepsListing(t: Table, ids: seq<nat>, snaps: seq<Snapshot>, k: nat)
    requires |ids| == |snaps| && k < |t|
    ensures SameListing(t[k], AttachAll(t, ids, snaps)[k])
  {
    if ids != [] {
      AttachKeepsListing(t, ids[..|ids| - 1], snaps[..|ids| - 1], k);
    }
  }

  /** No observation deletes a row, or touches an id, an identity, a generation or a listing. */
  lemma ObservedKeepsListing(subs: seq<Subscription>, t: Table, o: Observation, now: int, k: nat)
    requires k < |t|
    ensures SameListing(t[k], Observed(subs, t, o, now)[k])
  {
    if o.Whole? {
      var ids := ResolveAll(subs, t, o.subscription, o.snapshots, now, o.maxAge);
      if ids.Some? {
        AttachKeepsListing(Clear(subs, t, o.subscription), ids.value, o.snapshots, k);
      }
    }
  }

  lemma {:induction false} AttachedAt(t: Table, ids: seq<nat>, snaps: seq<Snapshot>, k: nat)
    requires |ids| == |snaps| && Row(t, k) && (forall i, j :: 0 <= i < j < |ids| ==> ids[i] != ids[j])
    requires forall i :: 0 <= i < |ids| ==> Row(t, ids[i])
    ensures var r := AttachAll(t, ids, snaps);
            && (k !in ids ==> r[k] == t[k])
            && (forall i :: 0 <= i < |ids| && ids[i] == k ==> r[k] == Some(Attached(t[k].value, snaps[i])))
  {
    if ids != [] {
      var n := |ids| - 1;
      AttachedAt(t, ids[..n], snaps[..n], k);
      AttachKeepsListing(t, ids[..n], snaps[..n], ids[n]);
      assert ids == ids[..n] + [ids[n]];
    }
  }

  /** An accepted snapshot is the whole truth about its subscription: each of its rows is on one
      assignment of its own, observed no earlier than before; every other assignment of the
      subscription shows nothing; and no other subscription is touched. */
  lemma SnapshotIsWhole(subs: seq<Subscription>, t: Table, ext: string, snaps: seq<Snapshot>, now: int, maxAge: int, k: nat)
    requires Row(t, k) && ResolveAll(subs, t, ext, snaps, now, maxAge).Some?
    ensures var ids, r := ResolveAll(subs, t, ext, snaps, now, maxAge).value, ApplySnapshot(subs, t, ext, snaps, now, maxAge);
            && Row(r, k)
            && (!Under(subs, t, k, ext) ==> r[k] == t[k] && k !in ids)
            && (Under(subs, t, k, ext) && k !in ids ==> r[k] == Some(WithoutDashboard(t[k].value)))
            && forall i :: 0 <= i < |snaps| && ids[i] == k ==>
                 && r[k] == Some(Attached(WithoutDashboard(t[k].value), snaps[i])) && Shows(subs, t, snaps[i], k)
                 && (t[k].value.observedAt.Some? ==> t[k].value.observedAt.value <= snaps[i].observedAt)
  {
    hide Resolve;
    var ids := ResolveAll(subs, t, ext, snaps, now, maxAge).value;
    forall i | 0 <= i < |ids|
      ensures Row(Clear(subs, t, ext), ids[i]) && Under(subs, t, ids[i], ext)
    {
      assert Resolve(subs, t, snaps[i], now, maxAge) == Some(ids[i]);
    }
    AttachedAt(Clear(subs, t, ext), ids, snaps, k);
  }

  // ----- The loop over a snapshot -----

  method ResolveSnapshots(subs: seq<Subscription>, t: Table, ext: string, snaps: seq<Snapshot>, now: int, maxAge: int) returns (ids: Option<seq<nat>>)
    ensures ids == ResolveAll(subs, t, ext, snaps, now, maxAge)
  {
    hide Resolve, ResolveAll, ResolveNext;
    var resolved: seq<nat>, seenIds: set<string>, seenRows: set<nat> := [], {}, {};
    var k := 0;
    NoneToResolve(subs, t, ext, snaps, now, maxAge);
    while k < |snaps|
      invariant 0 <= k <= |snaps|
      invariant ResolveAll(subs, t, ext, snaps[..k], now, maxAge) == Some(resolved)
      invariant forall i :: 0 <= i < k ==> snaps[i].assignmentId in seenIds
      invariant forall x :: x in seenIds ==> exists i :: 0 <= i < k && snaps[i].assignmentId == x
      invariant forall x :: x in seenRows <==> x in resolved
    {
      var s := snaps[k];
      var row := Resolve(subs, t, s, now, maxAge);
      ResolvedStep(subs, t, ext, snaps, k, resolved, seenIds, now, maxAge);
      if s.subscription != ext || s.assignmentId in seenIds || row.None? || row.value in seenRows {
        Unresolved(subs, t, ext, snaps, k + 1, now, maxAge);
        return None;
      }
      resolved, seenIds, seenRows := resolved + [row.value], seenIds + {s.assignmentId}, seenRows + {row.value};
      k := k + 1;
    }
    assert snaps[..k] == snaps;
    return Some(resolved);
  }

  lemma NoneToResolve(subs: seq<Subscription>, t: Table, ext: string, snaps: seq<Snapshot>, now: int, maxAge: int)
    ensures ResolveAll(subs, t, ext, snaps[..0], now, maxAge) == Some([])
  {}

  lemma ResolvedStep(subs: seq<Subscription>, t: Table, ext: string, snaps: seq<Snapshot>, k: nat, ids: seq<nat>, seen: set<string>, now: int, maxAge: int)
    requires k < |snaps| && ResolveAll(subs, t, ext, snaps[..k], now, maxAge) == Some(ids)
    requires forall i :: 0 <= i < k ==> snaps[i].assignmentId in seen
    requires forall x :: x in seen ==> exists i :: 0 <= i < k && snaps[i].assignmentId == x
    ensures var row := Resolve(subs, t, snaps[k], now, maxAge);
            ResolveAll(subs, t, ext, snaps[..k + 1], now, maxAge)
            == if snaps[k].subscription != ext || snaps[k].assignmentId in seen || row.None? || row.value in ids then None else Some(ids + [row.value])
  {
    hide Resolve;
    assert snaps[..k + 1][..k] == snaps[..k];
    assert ResolveAll(subs, t, ext, snaps[..k + 1], now, maxAge) == ResolveNext(subs, t, ext, snaps[..k], ids, snaps[k], now, maxAge);
    if snaps[k].assignmentId in seen {
      var i :| 0 <= i < k && snaps[i].assignmentId == snaps[k].assignmentId;
      assert snaps[..k][i] == snaps[i];
    }
  }

  /** One bad row spoils every longer snapshot. */
  lemma {:induction false} Unresolved(subs: seq<Subscription>, t: Table, ext: string, snaps: seq<Snapshot>, k: nat, now: int, maxAge: int)
    requires k <= |snaps| && ResolveAll(subs, t, ext, snaps[..k], now, maxAge).None?
    ensures ResolveAll(subs, t, ext, snaps, now, maxAge).None?
  {
    if k < |snaps| {
      assert snaps[..|snaps| - 1][..k] == snaps[..k];
      Unresolved(subs, t, ext, snaps[..|snaps| - 1], k, now, maxAge);
    } else {
      assert snaps[..k] == snaps;
    }
  }
}
