/** Provider subscriptions and assignments, as the inventory sync and the swap worker both see them.

    Assignment ids are never reused: an id is an index, and None marks a deleted row.
    Texts are stored trimmed and in lower case; "" stands for NULL. */
module Inventory {
  import opened Wrappers

  datatype Subscription = Subscription(
    externalId: string,
    status: string,
    missingAt: Option<int>,
    expiresAt: Option<int>,
    eligibleCount: Option<int>,
    lastSeen: Option<int>,
    quota: int,
    used: nat)

  /** What a probe of an assignment measures. */
  datatype Identity = Identity(host: string, port: int, username: string, password: string)

  /** Where dashboard columns come from. */
  const DASHBOARD := "provider_dashboard"

  const BLANK := Identity("", 0, "", "")

  datatype Assignment = Assignment(
    subscription: nat,
    externalId: string,
    identity: Identity,
    generation: nat,
    status: string,
    qualification: string,
    live: string,
    exitIp: string,
    providerEligible: bool,
    duplicateEgress: bool,
    distribution: bool,
    dashboardId: string,
    dashboardEligible: Option<bool>,
    connections: Option<int>,
    observedAt: Option<int>,
    dashboardSource: string,
    lastSeen: Option<int>,
    missingAt: Option<int>,
    readyAt: Option<int>,
    checkToken: Option<nat>)

  type Table = seq<Option<Assignment>>

  predicate Row(t: Table, id: nat) {
    id < |t| && t[id].Some?
  }

  predicate InService(a: Assignment) {
    a.status == "active" || a.status == "current"
  }

  /** (provider, external_id) is unique. */
  ghost predicate ExternalIdsDiffer(t: Table) {
    forall i: nat, j: nat :: i < j < |t| && t[i].Some? && t[j].Some? ==> t[i].value.externalId != t[j].value.externalId
  }

  /** The row with one external id, looked up among the first `n` rows. */
  function FindExternal(t: Table, n: nat, ext: string): (r: Option<nat>)
    requires n <= |t|
    ensures r.Some? ==> r.value < n && Row(t, r.value) && t[r.value].value.externalId == ext
    ensures r.None? <==> forall j: nat :: j < n && Row(t, j) ==> t[j].value.externalId != ext
  {
    if n == 0 then None
    else if Row(t, n - 1) && t[n - 1].value.externalId == ext then Some(n - 1)
    else FindExternal(t, n - 1, ext)
  }

  function WithoutDashboard(a: Assignment): Assignment {
    a.(dashboardId := "", dashboardEligible := None, connections := None, observedAt := None, dashboardSource := "", distribution := false)
  }

  /** A replacement named by the provider: nothing known about it until the next sync. */
  function Blanked(a: Assignment): Assignment {
    WithoutDashboard(a).(identity := BLANK, status := "pending", qualification := "pending", live := "pending", exitIp := "",
                         providerEligible := false, duplicateEgress := false, readyAt := None)
  }

  /** The SELECT by external id. */
  method LookUp(t: Table, ext: string) returns (found: Option<nat>)
    ensures found == FindExternal(t, |t|, ext)
  {
    found := None;
    var k := 0;
    while k < |t|
      invariant 0 <= k <= |t|
      invariant found == FindExternal(t, k, ext)
    {
      if t[k].Some? && t[k].value.externalId == ext {
        found := Some(k);
      }
      k := k + 1;
    }
  }
}
