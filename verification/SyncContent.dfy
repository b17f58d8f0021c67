/** What a sync stores of each listed proxy, and that it is still there when the sync succeeds
    (app/services/proxiware.py:718-1047). */
module SyncContent {
  import opened Wrappers
  import opened Inventory
  import opened SyncModel
  import opened SyncInvariants
  import opened SyncTheorems

  // ----- One record -----

  /** A record with an id, a host and a port. */
  predicate Whole(r: RawProxy) {
    r.id.Some? && r.host != "" && r.port.Some? && 1 <= r.port.value <= 65_535
  }

  function Given<T>(field: Option<T>, was: T): T {
    match field
    case Some(v) => v
    case None => was
  }

  /** A proxy never seen before, as it was listed; what was not listed is empty or pending. */
  predicate StoredNew(q: Assignment, r: RawProxy, sub: nat, now: int)
    requires Whole(r)
  {
    q == Assignment(sub, r.id.value, Identity(r.host, r.port.value, Given(r.username, ""), Given(r.password, "")), 1,
                    Given(r.status, "active"), Given(r.qualification, "pending"), Given(r.live, "pending"), r.exitIp, Given(r.eligible, false),
                    false, false, "", None, None, None, "", Some(now), None, None, None)
  }

  /** A known proxy: endpoint as listed, and of credentials, status and eligibility what was listed.  If that
      makes another identity of it, its generation rises by one and all that was measured is forgotten. */
  predicate StoredAgain(a: Assignment, q: Assignment, r: RawProxy, sub: nat, now: int)
    requires Whole(r)
  {
    var identity := Identity(r.host, r.port.value, Given(r.username, a.identity.username), Given(r.password, a.identity.password));
    var listed := a.(subscription := sub, identity := identity, status := Given(r.status, a.status),
                     providerEligible := Given(r.eligible, a.providerEligible), lastSeen := Some(now), missingAt := None);
    q == if identity == a.identity
         then listed.(qualification := Given(r.qualification, a.qualification), live := Given(r.live, a.live))
         else listed.(generation := a.generation + 1, qualification := "pending", live := "pending", exitIp := "", duplicateEgress := false,
                      distribution := false, checkToken := None, dashboardId := "", dashboardEligible := None, connections := None,
                      observedAt := None, dashboardSource := "")
  }

  /** Storing one record changes the row of its id, or adds one, and nothing else; a broken record nothing. */
  lemma StoredExactly(t: Table, r: RawProxy, sub: nat, now: int)
    requires ExternalIdsDiffer(t)
    ensures var u := UpsertProxy(t, r, sub, now);
            if !Whole(r) then u == t
            else if exists k: nat :: Row(t, k) && t[k].value.externalId == r.id.value
            then |u| == |t| && forall k: nat :: k < |t| ==>
                   if Row(t, k) && t[k].value.externalId == r.id.value then u[k].Some? && StoredAgain(t[k].value, u[k].value, r, sub, now)
                   else u[k] == t[k]
            else |u| == |t| + 1 && u[..|t|] == t && u[|t|].Some? && StoredNew(u[|t|].value, r, sub, now)
  {
    if Whole(r) {
      var found := FindExternal(t, |t|, r.id.value);
      if found.Some? {
        assert Row(t, found.value);
        RefreshedExactly(t[found.value].value, r, sub, now);
      }
      hide FindExternal, Refreshed, StoredAgain;
    }
  }

  lemma RefreshedExactly(a: Assignment, r: RawProxy, sub: nat, now: int)
    requires Whole(r)
    ensures StoredAgain(a, Refreshed(a, r, sub, now), r, sub, now)
  {}

  // ----- A list of records -----

  /** The whole records of one id, in order. */
  function RecordsOf(raws: seq<RawProxy>, ext: string): (r: seq<RawProxy>)
    ensures forall i :: 0 <= i < |r| ==> Whole(r[i]) && r[i].id == Some(ext)
  {
    if raws == [] then []
    else RecordsOf(raws[..|raws| - 1], ext) + (if Whole(raws[|raws| - 1]) && raws[|raws| - 1].id.value == ext then [raws[|raws| - 1]] else [])
  }

  lemma {:induction false} ListedHasRecords(raws: seq<RawProxy>, ext: string)
    ensures ext in IdsOf(raws) <==> RecordsOf(raws, ext) != []
  {
    if raws != [] {
      ListedHasRecords(raws[..|raws| - 1], ext);
    }
  }

  /** The row went through these states, one for each record. */
  ghost predicate Refreshes(h: seq<Assignment>, records: seq<RawProxy>, sub: nat, now: int)
    requires forall i :: 0 <= i < |records| ==> Whole(records[i])
  {
    |h| == |records| + 1 && forall i :: 0 <= i < |records| ==> StoredAgain(h[i], h[i + 1], records[i], sub, now)
  }

  lemma RefreshedAgain(h: seq<Assignment>, records: seq<RawProxy>, q: Assignment, r: RawProxy, sub: nat, now: int)
    requires forall i :: 0 <= i < |records| ==> Whole(records[i])
    requires Refreshes(h, records, sub, now) && Whole(r) && StoredAgain(h[|records|], q, r, sub, now)
    ensures Refreshes(h + [q], records + [r], sub, now)
  {
    hide StoredAgain;
    var g, all := h + [q], records + [r];
    forall i | 0 <= i < |all|
      ensures StoredAgain(g[i], g[i + 1], all[i], sub, now)
    {
      if i < |records| {
        assert StoredAgain(h[i], h[i + 1], records[i], sub, now);
      }
    }
  }

  /** A known row is stored again for each record of its id, in order, and for nothing else. */
  lemma {:induction false} KnownStoredExactly(t: Table, raws: seq<RawProxy>, sub: nat, now: int, k: nat) returns (h: seq<Assignment>)
    requires ExternalIdsDiffer(t) && Row(t, k)
    ensures Refreshes(h, RecordsOf(raws, t[k].value.externalId), sub, now) && h[0] == t[k].value
    ensures var u := UpsertAll(t, raws, sub, now);
            k < |u| && u[k] == Some(h[|h| - 1]) && u[k].value.externalId == t[k].value.externalId
  {
    h := [t[k].value];
    if raws != [] {
      var n := |raws| - 1;
      var u, r := UpsertAll(t, raws[..n], sub, now), raws[n];
      h := KnownStoredExactly(t, raws[..n], sub, now, k);
      UpsertAllAdvances(t, raws[..n], sub, now);
      assert RowAdvances(t[k].value, u[k].value);
      StoredExactly(u, r, sub, now);
      UpsertAdvances(u, r, sub, now);
      assert RowAdvances(u[k].value, UpsertProxy(u, r, sub, now)[k].value);
      hide UpsertProxy, StoredAgain, StoredNew, ExternalIdsDiffer, RowAdvances;
      if Whole(r) && r.id.value == t[k].value.externalId {
        var q := UpsertProxy(u, r, sub, now)[k].value;
        RefreshedAgain(h, RecordsOf(raws[..n], r.id.value), q, r, sub, now);
        h := h + [q];
      }
    }
  }

  ghost predicate Unknown(t: Table, ext: string) {
    forall k: nat :: Row(t, k) ==> t[k].value.externalId != ext
  }

  lemma {:induction false} UnlistedStaysUnknown(t: Table, raws: seq<RawProxy>, sub: nat, now: int, ext: string)
    requires ExternalIdsDiffer(t) && Unknown(t, ext) && RecordsOf(raws, ext) == []
    ensures Unknown(UpsertAll(t, raws, sub, now), ext)
  {
    if raws != [] {
      var n := |raws| - 1;
      UnlistedStaysUnknown(t, raws[..n], sub, now, ext);
    }
  }

  /** An id without a row gets one from its first record, stored again for each later one. */
  lemma {:induction false} UnknownStoredExactly(t: Table, raws: seq<RawProxy>, sub: nat, now: int, ext: string) returns (k: nat, h: seq<Assignment>)
    requires ExternalIdsDiffer(t) && Unknown(t, ext) && RecordsOf(raws, ext) != []
    ensures Refreshes(h, RecordsOf(raws, ext)[1..], sub, now) && StoredNew(h[0], RecordsOf(raws, ext)[0], sub, now)
    ensures var u := UpsertAll(t, raws, sub, now); |t| <= k < |u| && u[k] == Some(h[|h| - 1]) && u[k].value.externalId == ext
  {
    var n := |raws| - 1;
    var u, r := UpsertAll(t, raws[..n], sub, now), raws[n];
    var before := RecordsOf(raws[..n], ext);
    UpsertAllAdvances(t, raws[..n], sub, now);
    if before == [] {
      UnlistedStaysUnknown(t, raws[..n], sub, now, ext);
      StoredExactly(u, r, sub, now);
      hide UpsertProxy, StoredAgain, StoredNew, ExternalIdsDiffer;
      k, h := |u|, [UpsertProxy(u, r, sub, now)[|u|].value];
    } else {
      k, h := UnknownStoredExactly(t, raws[..n], sub, now, ext);
      h := OneMore(u, r, before, h, sub, now, k, ext);
    }
  }

  /** One record more for a row that was new. */
  lemma OneMore(u: Table, r: RawProxy, before: seq<RawProxy>, h: seq<Assignment>, sub: nat, now: int, k: nat, ext: string) returns (g: seq<Assignment>)
    requires ExternalIdsDiffer(u) && Row(u, k) && u[k].value.externalId == ext && before != []
    requires forall i :: 0 <= i < |before| ==> Whole(before[i])
    requires Refreshes(h, before[1..], sub, now) && StoredNew(h[0], before[0], sub, now) && u[k] == Some(h[|h| - 1])
    ensures var v, records := UpsertProxy(u, r, sub, now), if Whole(r) && r.id.value == ext then before + [r] else before;
            && (forall i :: 0 <= i < |records| ==> Whole(records[i]))
            && Refreshes(g, records[1..], sub, now) && StoredNew(g[0], records[0], sub, now)
            && Row(v, k) && v[k] == Some(g[|g| - 1]) && v[k].value.externalId == ext
  {
    StoredExactly(u, r, sub, now);
    UpsertAdvances(u, r, sub, now);
    var v := UpsertProxy(u, r, sub, now);
    assert RowAdvances(u[k].value, v[k].value);
    hide UpsertProxy, StoredAgain, StoredNew, ExternalIdsDiffer, Refreshes;
    g := h;
    if Whole(r) && r.id.value == ext {
      RefreshedAgain(h, before[1..], v[k].value, r, sub, now);
      assert (before + [r])[1..] == before[1..] + [r];
      g := h + [v[k].value];
    }
  }

  /** The row of an id has what its record says, under the subscription it was listed for. */
  predicate AsListed(q: Assignment, r: RawProxy, sub: nat, now: int)
    requires Whole(r)
  {
    && q.externalId == r.id.value && q.subscription == sub && q.missingAt.None? && q.lastSeen == Some(now) && IdentityListed(q, r)
    && (r.status.Some? ==> q.status == r.status.value) && (r.eligible.Some? ==> q.providerEligible == r.eligible.value)
  }

  predicate IdentityListed(q: Assignment, r: RawProxy)
    requires Whole(r)
  {
    && q.identity.host == r.host && q.identity.port == r.port.value
    && (r.username.Some? ==> q.identity.username == r.username.value) && (r.password.Some? ==> q.identity.password == r.password.value)
  }

  lemma StoredIsListed(a: Assignment, q: Assignment, r: RawProxy, sub: nat, now: int)
    requires Whole(r) && q.externalId == r.id.value && (StoredNew(q, r, sub, now) || StoredAgain(a, q, r, sub, now))
    ensures AsListed(q, r, sub, now)
  {}

  /** The last whole record of an id. */
  function LastOf(raws: seq<RawProxy>, ext: string): (r: Option<RawProxy>)
    ensures r.Some? ==> Whole(r.value) && r.value.id == Some(ext)
  {
    var records := RecordsOf(raws, ext);
    if records == [] then None else Some(records[|records| - 1])
  }

  ghost predicate Stands(t: Table, r: RawProxy, sub: nat, now: int)
    requires Whole(r)
  {
    exists k: nat :: Row(t, k) && AsListed(t[k].value, r, sub, now)
  }

  /** After a list is stored the row of each listed id is as its last record says. */
  lemma ListStoredExactly(t: Table, raws: seq<RawProxy>, sub: nat, now: int, ext: string)
    requires ExternalIdsDiffer(t) && LastOf(raws, ext).Some?
    ensures Stands(UpsertAll(t, raws, sub, now), LastOf(raws, ext).value, sub, now)
  {
    hide UpsertAll, StoredAgain, StoredNew, ExternalIdsDiffer, AsListed;
    var records, u := RecordsOf(raws, ext), UpsertAll(t, raws, sub, now);
    var n := |records| - 1;
    if k: nat :| Row(t, k) && t[k].value.externalId == ext {
      var h := KnownStoredExactly(t, raws, sub, now, k);
      assert StoredAgain(h[n], h[n + 1], records[n], sub, now);
      StoredIsListed(h[n], h[n + 1], records[n], sub, now);
      assert Row(u, k);
    } else {
      var k, h := UnknownStoredExactly(t, raws, sub, now, ext);
      if n > 0 {
        assert records[1..][n - 1] == records[n];
        assert StoredAgain(h[n - 1], h[n], records[1..][n - 1], sub, now);
        StoredIsListed(h[n - 1], h[n], records[n], sub, now);
      } else {
        StoredIsListed(h[0], h[0], records[0], sub, now);
      }
      assert Row(u, k);
    }
  }

  // ----- Subscriptions -----

  /** A subscription is stored as listed; what it may swap and has swapped is not the provider's to say. */
  lemma SubscriptionStoredExactly(subs: seq<Subscription>, r: RawSubscription, now: int)
    requires SubsDiffer(subs) && r.externalId.Some?
    ensures var out := UpsertSubscription(subs, r, now);
            if exists k :: 0 <= k < |subs| && subs[k].externalId == r.externalId.value
            then |out| == |subs| && forall k :: 0 <= k < |subs| ==>
                   out[k] == if subs[k].externalId == r.externalId.value
                             then Subscription(r.externalId.value, r.status, None, r.expiresAt, r.eligibleCount, Some(now), subs[k].quota, subs[k].used)
                             else subs[k]
            else out == subs + [Subscription(r.externalId.value, r.status, None, r.expiresAt, r.eligibleCount, Some(now), -1, 0)]
  {}
}
