/** What a dashboard observation writes, and when it counts (app/services/proxiware_dashboard.py:160-320). */
module DashboardLaws {
  import opened Wrappers
  import opened Inventory
  import opened DashboardModel

  /** The row is a listed one of the subscription, at the address shown, and at its port if one is shown. */
  predicate Means(subs: seq<Subscription>, t: Table, s: Snapshot, k: nat) {
    && k < |t| && t[k].Some? && t[k].value.missingAt.None?
    && t[k].value.subscription < |subs| && subs[t[k].value.subscription].externalId == s.subscription
    && t[k].value.identity.host == s.host && (s.port.None? || t[k].value.identity.port == s.port.value)
  }

  /** An observation counts for a row exactly when it is no older than the limit and no more than a minute ahead,
      means that row and no other, and is no older than what the row shows. */
  lemma ResolvedExactly(subs: seq<Subscription>, t: Table, s: Snapshot, now: int, maxAge: int, k: nat)
    ensures Resolve(subs, t, s, now, maxAge) == Some(k)
            <==> && s.observedAt <= now + 60 && (now - s.observedAt <= 1 || now - s.observedAt <= maxAge)
                 && Means(subs, t, s, k) && (forall i: nat :: Means(subs, t, s, i) ==> i == k)
                 && (t[k].value.observedAt.None? || t[k].value.observedAt.value <= s.observedAt)
  {
    MeansIsShows(subs, t, s);
    if Means(subs, t, s, k) && forall i: nat :: Means(subs, t, s, i) ==> i == k {
      hide Means, Shows;
      OneMatch(subs, t, s, |t|, k);
    }
  }

  lemma MeansIsShows(subs: seq<Subscription>, t: Table, s: Snapshot)
    ensures forall i: nat :: Means(subs, t, s, i) <==> Shows(subs, t, s, i)
  {}

  lemma {:induction false} OneMatch(subs: seq<Subscription>, t: Table, s: Snapshot, n: nat, k: nat)
    requires n <= |t| && Shows(subs, t, s, k) && forall i: nat :: Shows(subs, t, s, i) ==> i == k
    ensures Matches(subs, t, s, n) == if k < n then [k] else []
  {
    hide Shows;
    if n > 0 {
      OneMatch(subs, t, s, n - 1, k);
    }
  }

  /** A whole snapshot counts exactly when each of its rows is in scope, counts by itself, and no assignment id and
      no row of ours comes twice. */
  lemma SnapshotResolvedExactly(subs: seq<Subscription>, t: Table, ext: string, snaps: seq<Snapshot>, now: int, maxAge: int)
    ensures ResolveAll(subs, t, ext, snaps, now, maxAge).Some?
            <==> && (forall i :: 0 <= i < |snaps| ==> snaps[i].subscription == ext && Resolve(subs, t, snaps[i], now, maxAge).Some?)
                 && (forall i, j :: 0 <= i < j < |snaps| ==> snaps[i].assignmentId != snaps[j].assignmentId)
                 && (forall i, j :: 0 <= i < j < |snaps| ==> Resolve(subs, t, snaps[i], now, maxAge) != Resolve(subs, t, snaps[j], now, maxAge))
  {
    hide Resolve;
    if (&& (forall i :: 0 <= i < |snaps| ==> snaps[i].subscription == ext && Resolve(subs, t, snaps[i], now, maxAge).Some?)
        && (forall i, j :: 0 <= i < j < |snaps| ==> snaps[i].assignmentId != snaps[j].assignmentId)
        && (forall i, j :: 0 <= i < j < |snaps| ==> Resolve(subs, t, snaps[i], now, maxAge) != Resolve(subs, t, snaps[j], now, maxAge))) {
      AllResolve(subs, t, ext, snaps, now, maxAge);
    }
  }

  lemma {:induction false} AllResolve(subs: seq<Subscription>, t: Table, ext: string, snaps: seq<Snapshot>, now: int, maxAge: int)
    requires forall i :: 0 <= i < |snaps| ==> snaps[i].subscription == ext && Resolve(subs, t, snaps[i], now, maxAge).Some?
    requires forall i, j :: 0 <= i < j < |snaps| ==> snaps[i].assignmentId != snaps[j].assignmentId
    requires forall i, j :: 0 <= i < j < |snaps| ==> Resolve(subs, t, snaps[i], now, maxAge) != Resolve(subs, t, snaps[j], now, maxAge)
    ensures ResolveAll(subs, t, ext, snaps, now, maxAge).Some?
  {
    hide Resolve;
    if snaps != [] {
      var n := |snaps| - 1;
      AllResolve(subs, t, ext, snaps[..n], now, maxAge);
      var ids := ResolveAll(subs, t, ext, snaps[..n], now, maxAge).value;
      forall i | 0 <= i < n
        ensures Some(ids[i]) != Resolve(subs, t, snaps[n], now, maxAge)
      {
        assert Resolve(subs, t, snaps[..n][i], now, maxAge) == Some(ids[i]);
      }
    }
  }

  /** The row shows this observation, and what it is besides is as before. */
  predicate ShowsNow(a: Assignment, b: Assignment, s: Snapshot) {
    && b.dashboardId == s.assignmentId && b.dashboardEligible == s.eligible && b.connections == s.connections
    && b.observedAt == Some(s.observedAt) && b.dashboardSource == DASHBOARD
    && (s.eligible.Some? ==> b.providerEligible == s.eligible.value) && (s.eligible.None? ==> b.providerEligible == a.providerEligible)
    && a == b.(dashboardId := a.dashboardId, dashboardEligible := a.dashboardEligible, connections := a.connections, observedAt := a.observedAt,
               dashboardSource := a.dashboardSource, providerEligible := a.providerEligible, distribution := a.distribution)
  }

  /** The row shows nothing, and is as before otherwise. */
  predicate ShowsNothing(a: Assignment, b: Assignment) {
    && b.dashboardId == "" && b.dashboardEligible.None? && b.connections.None? && b.observedAt.None? && b.dashboardSource == "" && !b.distribution
    && a == b.(dashboardId := a.dashboardId, dashboardEligible := a.dashboardEligible, connections := a.connections, observedAt := a.observedAt,
               dashboardSource := a.dashboardSource, distribution := a.distribution)
  }

  /** A whole snapshot that counts shows each of its rows on the row it means, and nothing on the subscription's
      other rows; one that does not count changes nothing. */
  lemma SnapshotWrittenExactly(subs: seq<Subscription>, t: Table, ext: string, snaps: seq<Snapshot>, now: int, maxAge: int, k: nat)
    requires Row(t, k)
    ensures var u, a := Observed(subs, t, Whole(ext, snaps, maxAge), now), t[k].value;
            && |u| == |t| && u[k].Some?
            && if ResolveAll(subs, t, ext, snaps, now, maxAge).None? || a.subscription >= |subs| || subs[a.subscription].externalId != ext then u[k] == t[k]
               else (forall i :: 0 <= i < |snaps| && Resolve(subs, t, snaps[i], now, maxAge) == Some(k) ==>
                       ShowsNow(a, u[k].value, snaps[i]) && !u[k].value.distribution)
                    && ((forall i :: 0 <= i < |snaps| ==> Resolve(subs, t, snaps[i], now, maxAge) != Some(k)) ==> ShowsNothing(a, u[k].value))
  {
    hide Resolve;
    var found := ResolveAll(subs, t, ext, snaps, now, maxAge);
    if found.Some? {
      SnapshotIsWhole(subs, t, ext, snaps, now, maxAge, k);
      hide ResolveAll, AttachAll;
      assert forall i :: 0 <= i < |snaps| ==> Resolve(subs, t, snaps[i], now, maxAge) == Some(found.value[i]);
    }
  }

  /** A single observation is shown on the row it was resolved to, if that is still there, and on no other. */
  lemma SingleWrittenExactly(subs: seq<Subscription>, t: Table, id: nat, s: Snapshot, now: int, k: nat)
    requires k < |t|
    ensures var u := Observed(subs, t, Single(id, s), now);
            |u| == |t| && if k == id && t[k].Some? then u[k].Some? && ShowsNow(t[k].value, u[k].value, s) && u[k].value.distribution == t[k].value.distribution
                          else u[k] == t[k]
  {}

  /** Duplicate detection writes its two marks where it has them and nothing else. */
  lemma MarksWrittenExactly(subs: seq<Subscription>, t: Table, marks: map<nat, Marks>, now: int, k: nat)
    requires k < |t|
    ensures var u := Observed(subs, t, Duplicates(marks), now);
            |u| == |t| && u[k] == if t[k].None? || k !in marks then t[k]
                                  else Some(t[k].value.(duplicateEgress := marks[k].duplicate, distribution := marks[k].distribution))
  {}
}
