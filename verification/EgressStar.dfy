/** Duplicate egress addresses always form stars.

    For one exit IP, `duplicate_of` links point straight at one canonical row
    (app/services/proxies.py:355-379, 392-501; app/services/checks.py:681-696). */
module EgressStar {
  import opened Wrappers
  import opened EarningModel

  predicate Center(p: Proxy) {
    Active(p) && Trusted(p) && p.duplicateOf.None?
  }

  predicate Follower(p: Proxy) {
    Active(p) && p.duplicateOf.Some?
  }

  predicate SameCenter(p: Proxy, q: Proxy, bad: set<Ip>) {
    Center(p) && Center(q) && p.exitIp == q.exitIp && p.exitIp.value !in bad
  }

  /** No two canonical rows for one address. */
  ghost predicate OneCenter(ps: seq<Proxy>, bad: set<Ip>) {
    forall a, b :: 0 <= a < |ps| && 0 <= b < |ps| && SameCenter(ps[a], ps[b], bad) ==> a == b
  }

  /** A duplicate points at a row of its own address, which is canonical if it is still active. */
  ghost predicate PointsWell(ps: seq<Proxy>, a: nat, bad: set<Ip>)
    requires a < |ps|
  {
    var p := ps[a];
    Follower(p) ==>
      && Trusted(p) && p.duplicateOf.value < |ps|
      && (p.exitIp.value !in bad ==>
            && ps[p.duplicateOf.value].exitIp == p.exitIp
            && (Active(ps[p.duplicateOf.value]) ==> Center(ps[p.duplicateOf.value])))
  }

  ghost predicate Pointing(ps: seq<Proxy>, bad: set<Ip>) {
    forall a :: 0 <= a < |ps| ==> PointsWell(ps, a, bad)
  }

  /** Row a points at an archived row and row b is active on the same address. */
  predicate OrphanBeside(ps: seq<Proxy>, a: nat, b: nat, bad: set<Ip>)
    requires a < |ps| && b < |ps|
  {
    && Follower(ps[a]) && ps[a].duplicateOf.value < |ps| && !Active(ps[ps[a].duplicateOf.value])
    && Active(ps[b]) && Trusted(ps[b])
    && ps[a].exitIp.Some? && ps[a].exitIp == ps[b].exitIp && ps[a].exitIp.value !in bad
  }

  /** Rows still pointing at an archived row have the whole active group pointing there with them. */
  ghost predicate Orphans(ps: seq<Proxy>, bad: set<Ip>) {
    forall a, b :: 0 <= a < |ps| && 0 <= b < |ps| && OrphanBeside(ps, a, b, bad) ==> ps[b].duplicateOf == ps[a].duplicateOf
  }

  /** The star property, except for the addresses in `bad`. */
  ghost predicate StarExcept(ps: seq<Proxy>, bad: set<Ip>) {
    OneCenter(ps, bad) && Pointing(ps, bad) && Orphans(ps, bad)
  }

  ghost predicate Attested(ps: seq<Proxy>) {
    forall a :: 0 <= a < |ps| ==> (ps[a].exitIp.Some? <==> ps[a].attestation != Unattested)
  }

  ghost predicate Star(ps: seq<Proxy>) {
    Attested(ps) && StarExcept(ps, {})
  }

  /** Exactly one canonical row, and every other member points at it. */
  ghost predicate Settled(ps: seq<Proxy>, ip: Ip) {
    (forall j :: 0 <= j < |ps| ==> !InGroup(ps[j], ip)) || exists c :: SettledOn(ps, ip, c)
  }

  ghost predicate SettledOn(ps: seq<Proxy>, ip: Ip, c: nat) {
    && c < |ps| && InGroup(ps[c], ip) && ps[c].duplicateOf.None?
    && forall j :: 0 <= j < |ps| && j != c && InGroup(ps[j], ip) ==> ps[j].duplicateOf == Some(c)
  }

  /** The columns the star property reads. */
  predicate SameIdentity(p: Proxy, q: Proxy) {
    p.archivedAt == q.archivedAt && p.exitIp == q.exitIp && p.attestation == q.attestation && p.duplicateOf == q.duplicateOf
  }

  ghost predicate IdentityKept(ps: seq<Proxy>, qs: seq<Proxy>) {
    |ps| == |qs| && forall j :: 0 <= j < |ps| ==> SameIdentity(ps[j], qs[j])
  }

  lemma IdentityKeepsStar(ps: seq<Proxy>, qs: seq<Proxy>)
    requires Star(ps) && IdentityKept(ps, qs)
    ensures Star(qs)
  {
    forall a | 0 <= a < |qs|
      ensures PointsWell(qs, a, {})
    {
      assert PointsWell(ps, a, {}) && SameIdentity(ps[a], qs[a]);
    }
    forall a, b | 0 <= a < |qs| && 0 <= b < |qs| && SameCenter(qs[a], qs[b], {})
      ensures a == b
    {
      assert SameIdentity(ps[a], qs[a]) && SameIdentity(ps[b], qs[b]);
      assert SameCenter(ps[a], ps[b], {});
    }
    forall a, b | 0 <= a < |qs| && 0 <= b < |qs| && OrphanBeside(qs, a, b, {})
      ensures qs[b].duplicateOf == qs[a].duplicateOf
    {
      assert SameIdentity(ps[a], qs[a]) && SameIdentity(ps[b], qs[b]);
      assert OrphanBeside(ps, a, b, {});
    }
  }

  // ----- Canonicalization -----

  lemma CanonicalExists(ps: seq<Proxy>, ip: Ip, prefer: bool, exclude: Option<nat>, now: int)
    ensures var c := Canonical(ps, ip, prefer, exclude, now);
            && (c.None? <==> forall j :: 0 <= j < |ps| ==> !Member(ps, j, ip, exclude))
            && (c.Some? ==> c.value < |ps| && Member(ps, c.value, ip, exclude))
  {
    var byVerified := prefer && AllVerified(ps, ip, exclude);
    var recent := Best(ps, |ps|, ip, exclude, true, byVerified, now);
    var any := Best(ps, |ps|, ip, exclude, false, byVerified, now);
    if recent.Some? {
      assert Candidate(ps, recent.value, ip, exclude, true, now);
    } else if any.None? {
      forall j | 0 <= j < |ps|
        ensures !Member(ps, j, ip, exclude)
      {
        assert !Candidate(ps, j, ip, exclude, false, now);
      }
    }
  }

  /** The choice is the first row in key order among those not offline for a day, if there are any. */
  lemma CanonicalIsFirst(ps: seq<Proxy>, ip: Ip, prefer: bool, exclude: Option<nat>, now: int, j: nat)
    requires j < |ps| && Member(ps, j, ip, exclude)
    ensures var c := Canonical(ps, ip, prefer, exclude, now);
            && c.Some?
            && (!LongOffline(ps[j], now) ==> !LongOffline(ps[c.value], now))
            && (LongOffline(ps[j], now) == LongOffline(ps[c.value], now) && j != c.value ==>
                  Precedes(ps, c.value, j, prefer && AllVerified(ps, ip, exclude)))
  {
    var byVerified := prefer && AllVerified(ps, ip, exclude);
    var recent := Best(ps, |ps|, ip, exclude, true, byVerified, now);
    if recent.None? {
      assert !Candidate(ps, j, ip, exclude, true, now);
      assert Candidate(ps, j, ip, exclude, false, now);
      var any := Best(ps, |ps|, ip, exclude, false, byVerified, now);
      assert !Candidate(ps, any.value, ip, exclude, true, now);
    }
  }

  /** The effect of `Canonicalize` on the rows. */
  function CanonicalizedRows(ps: seq<Proxy>, ip: Ip, prefer: bool, exclude: Option<nat>, now: int): seq<Proxy> {
    match Canonical(ps, ip, prefer, exclude, now)
    case None => ps
    case Some(c) => Repoint(ps, ip, exclude, c)
  }

  lemma OnlyLinksMove(ps: seq<Proxy>, ip: Ip, prefer: bool, exclude: Option<nat>, now: int)
    ensures var qs := CanonicalizedRows(ps, ip, prefer, exclude, now);
            |qs| == |ps| && forall j :: 0 <= j < |ps| ==> qs[j] == ps[j].(duplicateOf := qs[j].duplicateOf)
  {
    hide Canonical;
  }

  /** Canonicalizing one address settles it and disturbs no other. */
  lemma CanonicalizeStar(ps: seq<Proxy>, ip: Ip, prefer: bool, now: int, bad: set<Ip>, qs: seq<Proxy>)
    requires StarExcept(ps, bad) && qs == CanonicalizedRows(ps, ip, prefer, None, now)
    ensures StarExcept(qs, bad - {ip}) && Settled(qs, ip)
  {
    CanonicalExists(ps, ip, prefer, None, now);
    if Canonical(ps, ip, prefer, None, now).Some? {
      RepointStar(ps, ip, Canonical(ps, ip, prefer, None, now).value, bad);
    } else {
      forall j | 0 <= j < |ps|
        ensures !InGroup(ps[j], ip) && PointsWell(ps, j, bad - {ip})
      {
        assert !Member(ps, j, ip, None) && PointsWell(ps, j, bad);
      }
    }
  }

  lemma RepointStar(ps: seq<Proxy>, ip: Ip, c: nat, bad: set<Ip>)
    requires StarExcept(ps, bad) && c < |ps| && InGroup(ps[c], ip)
    ensures StarExcept(Repoint(ps, ip, None, c), bad - {ip}) && SettledOn(Repoint(ps, ip, None, c), ip, c)
  {
    var qs := Repoint(ps, ip, None, c);
    assert forall j :: 0 <= j < |ps| ==> qs[j] == Repointed(ps, j, ip, None, c);
    assert forall j :: 0 <= j < |ps| && !InGroup(ps[j], ip) ==> qs[j] == ps[j];
    forall a | 0 <= a < |qs|
      ensures PointsWell(qs, a, bad - {ip})
    {
      assert PointsWell(ps, a, bad);
    }
    forall a, b | 0 <= a < |qs| && 0 <= b < |qs| && SameCenter(qs[a], qs[b], bad - {ip})
      ensures a == b
    {
      if qs[a].exitIp == Some(ip) {
        assert a == c && b == c;
      }
    }
    forall a, b | 0 <= a < |qs| && 0 <= b < |qs| && OrphanBeside(qs, a, b, bad - {ip})
      ensures qs[b].duplicateOf == qs[a].duplicateOf
    {
      assert PointsWell(ps, a, bad);
      assert qs[a].exitIp != Some(ip);
    }
  }

  lemma RowsOfCanonicalize(db: Db, ip: Ip, prefer: bool, exclude: Option<nat>, now: int)
    ensures Canonicalize(db, ip, prefer, exclude, now).proxies == CanonicalizedRows(db.proxies, ip, prefer, exclude, now)
  {}

  // ----- Reconciliation -----

  /** Writing a new address on one row can only disturb the address it had and the one it gets. */
  lemma MoveStar(ps: seq<Proxy>, i: nat, q: Proxy, ip: Ip)
    requires Star(ps) && i < |ps| && Active(ps[i])
    requires q.exitIp == Some(ip) && q.attestation != Unattested && q.archivedAt.None? && q.duplicateOf == ps[i].duplicateOf
    ensures Attested(ps[i := q])
    ensures StarExcept(ps[i := q], if ps[i].exitIp.Some? then {ip, ps[i].exitIp.value} else {ip})
  {
    var qs := ps[i := q];
    var bad := if ps[i].exitIp.Some? then {ip, ps[i].exitIp.value} else {ip};
    forall a | 0 <= a < |qs|
      ensures PointsWell(qs, a, bad)
    {
      assert PointsWell(ps, a, {});
    }
    forall a, b | 0 <= a < |qs| && 0 <= b < |qs| && OrphanBeside(qs, a, b, bad)
      ensures qs[b].duplicateOf == qs[a].duplicateOf
    {
      assert a != i && b != i && PointsWell(ps, a, {});
    }
  }

  /** After reconciliation both the new and the previous address are settled. */
  lemma ReconcileStar(db: Db, i: nat, ip: Ip, source: Attestation, now: int)
    requires Star(db.proxies) && i < |db.proxies|
    ensures Star(ReconcileExitIp(db, i, ip, source, now).proxies)
    ensures Active(db.proxies[i]) && source != Unattested ==>
              var qs := ReconcileExitIp(db, i, ip, source, now).proxies;
              && qs[i].exitIp == Some(ip) && Settled(qs, ip)
              && (db.proxies[i].exitIp.Some? ==> Settled(qs, db.proxies[i].exitIp.value))
  {
    hide Canonicalize, CanonicalizedRows, Settled;
    var p := db.proxies[i];
    if Active(p) && source != Unattested {
      var named := SetRow(db, i, WithExit(p, ip, source, now));
      var bad := if p.exitIp.Some? then {ip, p.exitIp.value} else {ip};
      var prefer := p.verifiedAt.Some?;
      var d := Canonicalize(named, ip, prefer, None, now);
      CanonicalizeDb(named, ip, prefer, now, bad) by {
        MoveStar(db.proxies, i, named.proxies[i], ip);
      }
      assert bad - {ip} == if p.exitIp.Some? && p.exitIp.value != ip then {p.exitIp.value} else {};
      if p.exitIp.Some? && p.exitIp.value != ip {
        var other := p.exitIp.value;
        CanonicalizeDb(d, other, false, now, {other});
        assert {other} - {other} == {};
        OtherStaysSettled(d.proxies, ip, other, now, Canonicalize(d, other, false, None, now).proxies);
      }
    }
  }

  lemma CanonicalizeDb(db: Db, ip: Ip, prefer: bool, now: int, bad: set<Ip>)
    requires Attested(db.proxies) && StarExcept(db.proxies, bad)
    ensures var qs := Canonicalize(db, ip, prefer, None, now).proxies;
            && Attested(qs) && StarExcept(qs, bad - {ip}) && Settled(qs, ip)
            && qs == CanonicalizedRows(db.proxies, ip, prefer, None, now)
            && |qs| == |db.proxies|
            && forall j :: 0 <= j < |qs| ==> qs[j].exitIp == db.proxies[j].exitIp
  {
    RowsOfCanonicalize(db, ip, prefer, None, now);
    hide Canonicalize, CanonicalizedRows, Settled, StarExcept;
    OnlyLinksMove(db.proxies, ip, prefer, None, now);
    CanonicalizeStar(db.proxies, ip, prefer, now, bad, Canonicalize(db, ip, prefer, None, now).proxies);
  }

  lemma OtherStaysSettled(ps: seq<Proxy>, ip: Ip, other: Ip, now: int, qs: seq<Proxy>)
    requires Settled(ps, ip) && ip != other && qs == CanonicalizedRows(ps, other, false, None, now)
    ensures Settled(qs, ip)
  {
    CanonicalExists(ps, other, false, None, now);
    assert forall j :: 0 <= j < |ps| && !InGroup(ps[j], other) ==> qs[j] == ps[j];
    if exists c :: SettledOn(ps, ip, c) {
      var c :| SettledOn(ps, ip, c);
      assert SettledOn(qs, ip, c);
    }
  }

  // ----- Leaving a group -----

  lemma PrecedesElsewhere(ps: seq<Proxy>, a: nat, b: nat, i: nat, q: Proxy, byVerified: bool)
    requires a < |ps| && b < |ps| && i < |ps| && a != i && b != i
    ensures Precedes(ps, a, b, byVerified) == Precedes(ps[i := q], a, b, byVerified)
  {}

  /** Choosing without row i is choosing after row i has left. */
  lemma {:induction false} BestWithout(ps: seq<Proxy>, n: nat, i: nat, q: Proxy, ip: Ip, freshOnly: bool, byVerified: bool, now: int)
    requires n <= |ps| && i < |ps| && !InGroup(q, ip)
    ensures Best(ps, n, ip, Some(i), freshOnly, byVerified, now) == Best(ps[i := q], n, ip, None, freshOnly, byVerified, now)
  {
    hide Precedes;
    if n > 0 {
      BestWithout(ps, n - 1, i, q, ip, freshOnly, byVerified, now);
      assert Candidate(ps, n - 1, ip, Some(i), freshOnly, now) == Candidate(ps[i := q], n - 1, ip, None, freshOnly, now);
      var r := Best(ps, n - 1, ip, Some(i), freshOnly, byVerified, now);
      if r.Some? && n - 1 != i {
        PrecedesElsewhere(ps, r.value, n - 1, i, q, byVerified);
      }
    }
  }

  lemma LeaveThenSet(ps: seq<Proxy>, i: nat, q: Proxy, ip: Ip, now: int)
    requires i < |ps| && !InGroup(q, ip)
    ensures CanonicalizedRows(ps, ip, false, Some(i), now)[i := q] == CanonicalizedRows(ps[i := q], ip, false, None, now)
  {
    assert Canonical(ps, ip, false, Some(i), now) == Canonical(ps[i := q], ip, false, None, now) by {
      BestWithout(ps, |ps|, i, q, ip, true, false, now);
      BestWithout(ps, |ps|, i, q, ip, false, false, now);
    }
    CanonicalExists(ps, ip, false, Some(i), now);
    hide Canonical;
    assert CanonicalizedRows(ps, ip, false, Some(i), now)[i := q] == CanonicalizedRows(ps[i := q], ip, false, None, now);
  }

  /** A row may leave the active trusted rows once its group has been re-homed. */
  lemma LeaveStar(db: Db, i: nat, q: Proxy, now: int)
    requires Star(db.proxies) && i < |db.proxies| && Active(db.proxies[i])
    requires q.exitIp.Some? <==> q.attestation != Unattested
    requires !Active(q) || (q.exitIp.None? && q.duplicateOf.None?)
    requires !Active(q) ==> q.exitIp == db.proxies[i].exitIp
    ensures Star(SetRow(LeaveGroup(db, i, now), i, q).proxies)
  {
    hide Canonicalize, CanonicalizedRows, Canonical, Settled, OneCenter, Orphans;
    var ps, p := db.proxies, db.proxies[i];
    var qs := ps[i := q];
    var bad := if p.exitIp.Some? then {p.exitIp.value} else {};
    forall a | 0 <= a < |qs|
      ensures PointsWell(qs, a, bad)
    {
      assert PointsWell(ps, a, {});
    }
    LeaveOrphans(ps, i, q, bad);
    LeaveCenters(ps, i, q, bad);
    assert StarExcept(qs, bad);
    if p.exitIp.Some? {
      var ip := p.exitIp.value;
      LeaveThenSet(ps, i, q, ip, now);
      OnlyLinksMove(qs, ip, false, None, now);
      RowsOfCanonicalize(db, ip, false, Some(i), now);
      CanonicalizeStar(qs, ip, false, now, bad, CanonicalizedRows(qs, ip, false, None, now));
      assert bad - {ip} == {};
    }
  }

  lemma LeaveCenters(ps: seq<Proxy>, i: nat, q: Proxy, bad: set<Ip>)
    requires OneCenter(ps, {}) && i < |ps| && !Center(q)
    ensures OneCenter(ps[i := q], bad)
  {
    var qs := ps[i := q];
    forall a, b | 0 <= a < |qs| && 0 <= b < |qs| && SameCenter(qs[a], qs[b], bad)
      ensures a == b
    {
      assert SameCenter(ps[a], ps[b], {});
    }
  }

  lemma LeaveOrphans(ps: seq<Proxy>, i: nat, q: Proxy, bad: set<Ip>)
    requires Star(ps) && i < |ps| && Active(ps[i])
    requires !Active(q) || (q.exitIp.None? && q.duplicateOf.None?)
    requires bad == if ps[i].exitIp.Some? then {ps[i].exitIp.value} else {}
    ensures Orphans(ps[i := q], bad)
  {
    var qs := ps[i := q];
    forall a, b | 0 <= a < |qs| && 0 <= b < |qs| && OrphanBeside(qs, a, b, bad)
      ensures qs[b].duplicateOf == qs[a].duplicateOf
    {
      assert a != i && b != i && PointsWell(ps, a, {});
    }
  }

  // ----- Promotion and burial -----

  lemma BuryStar(db: Db, now: int)
    requires Star(db.proxies)
    ensures Star(ArchiveDead(db, now).proxies)
  {
    var ps, qs := db.proxies, ArchiveDead(db, now).proxies;
    assert forall j :: 0 <= j < |ps| ==> qs[j] == Buried(ps[j], now);
    forall a | 0 <= a < |qs|
      ensures PointsWell(qs, a, {})
    {
      assert PointsWell(ps, a, {});
    }
    forall a, b | 0 <= a < |qs| && 0 <= b < |qs| && OrphanBeside(qs, a, b, {})
      ensures qs[b].duplicateOf == qs[a].duplicateOf
    {
      BuriedTogether(ps, a, b);
    }
  }

  /** A group points at one row, whether or not that row is still active. */
  lemma BuriedTogether(ps: seq<Proxy>, a: nat, b: nat)
    requires Star(ps) && a < |ps| && b < |ps|
    requires Follower(ps[a]) && Active(ps[b]) && Trusted(ps[b]) && ps[a].exitIp == ps[b].exitIp
    requires ps[a].duplicateOf.value < |ps|
    ensures ps[b].duplicateOf == ps[a].duplicateOf || b == ps[a].duplicateOf.value
  {
    assert PointsWell(ps, a, {}) && PointsWell(ps, b, {});
    var c := ps[a].duplicateOf.value;
    if Active(ps[c]) {
      if ps[b].duplicateOf.Some? {
        var d := ps[b].duplicateOf.value;
        if Active(ps[d]) {
          assert SameCenter(ps[c], ps[d], {});
        } else {
          assert ps[a].duplicateOf == ps[b].duplicateOf;
        }
      } else {
        assert SameCenter(ps[b], ps[c], {});
      }
    }
  }

  // ----- Runs -----

  /** Row i rewritten in columns the star property does not read. */
  lemma RowRewritten(ps: seq<Proxy>, i: nat, q: Proxy)
    requires Star(ps) && i < |ps| && SameIdentity(ps[i], q)
    ensures Star(ps[i := q])
  {
    IdentityKeepsStar(ps, ps[i := q]);
  }

  lemma AccrueRowIdentity(db: Db, i: nat, suspectToo: bool, now: int)
    requires i < |db.proxies|
    ensures IdentityKept(db.proxies, AccrueRow(db, i, suspectToo, now).proxies)
  {}

  lemma {:induction false} AccrueFirstIdentity(db: Db, n: nat, now: int)
    requires n <= |db.proxies|
    ensures IdentityKept(db.proxies, AccrueFirst(db, n, now).proxies)
  {
    if n > 0 {
      AccrueFirstIdentity(db, n - 1, now);
      AccrueRowIdentity(AccrueFirst(db, n - 1, now), n - 1, false, now);
    }
  }

  lemma LiveStar(db: Db, i: nat, o: HealthOutcome, now: int)
    requires Star(db.proxies) && i < |db.proxies| && o.Live?
    ensures Star(ApplyLive(db, i, o, now).proxies)
  {
    hide Star, ReconcileExitIp;
    var p := db.proxies[i];
    AccrueRowIdentity(db, i, true, now);
    var broken := CycleBroken(db.cfg, p, o, now);
    var credited := if broken && Earning(p.eligibility) then AccrueRow(db, i, true, now) else db;
    var closed := if broken then ExpirePendingCycle(credited, i) else credited;
    var written := SetRow(closed, i, LiveRow(db.cfg, p, o, now)).(
      history := db.history + {Success(i, p.generation, now)});
    IdentityKeepsStar(db.proxies, written.proxies);
    if TrustedObservation(o).Some? {
      ReconcileStar(written, i, TrustedObservation(o).value, HttpsQuorum, now);
    }
  }

  lemma HealthStar(db: Db, i: nat, generation: nat, token: nat, o: HealthOutcome, now: int)
    requires Star(db.proxies)
    ensures Star(ApplyHealth(db, i, generation, token, o, now).proxies)
  {
    hide Star;
    if HealthAccepted(db, i, generation, token) {
      if o.Live? {
        hide ApplyLive;
        LiveStar(db, i, o, now);
      } else {
        AccrueRowIdentity(db, i, true, now);
        IdentityKeepsStar(db.proxies, ApplyHealth(db, i, generation, token, o, now).proxies);
      }
    }
  }

  lemma EarnappStar(db: Db, i: nat, generation: nat, token: nat, r: EarnappReport, now: int)
    requires Star(db.proxies)
    ensures Star(ApplyEarnapp(db, i, generation, token, r, now).proxies)
  {
    hide Star, ReconcileExitIp;
    if EarnappAccepted(db, i, generation, token) {
      var p := db.proxies[i];
      AccrueRowIdentity(db, i, true, now);
      var changed := p.eligibility != Classify(p, r);
      var credited := if changed && Earning(p.eligibility) then AccrueRow(db, i, true, now) else db;
      var closed := if changed || EarnappEgressChanged(p, r) then ResetProbation(credited, i, now) else credited;
      IdentityKeepsStar(db.proxies, closed.proxies);
      var identified := match Authenticated(r)
        case None => closed
        case Some(ip) => ReconcileExitIp(closed, i, ip, EarnappTls, now);
      if Authenticated(r).Some? {
        ReconcileStar(closed, i, Authenticated(r).value, EarnappTls, now);
        ReconcileLength(closed, i, Authenticated(r).value, EarnappTls, now);
      }
      RowRewritten(identified.proxies, i, EarnappRow(db.cfg, identified.proxies[i], p, r, now));
    }
  }

  lemma ReconcileLength(db: Db, i: nat, ip: Ip, source: Attestation, now: int)
    requires i < |db.proxies|
    ensures |ReconcileExitIp(db, i, ip, source, now).proxies| == |db.proxies|
  {}

  lemma LifecycleStar(db: Db, i: nat, user: nat, now: int)
    requires Star(db.proxies)
    ensures Star(ReplaceProxy(db, i, user, now).proxies) && Star(ArchiveProxy(db, i, user, now).proxies)
    ensures Star(AddProxy(db, user, now).proxies)
    ensures Star(PromoteDuplicate(db, i, now).proxies)
  {
    if Owned(db, i, user) {
      LeaveStar(db, i, ReplacedRow(db.proxies[i], now), now);
      LeaveStar(db, i, ArchivedRow(db.proxies[i], now), now);
    }
    AddStar(db.proxies, NewRow(user, now));
    if i < |db.proxies| && PromotionDue(db.proxies[i], now) {
      match FirstOnlineDuplicate(db.proxies, i, |db.proxies|)
      case None =>
      case Some(c) =>
        PromoteStar(db.proxies, i, c);
        IdentityKeepsStar(PromoteRows(db.proxies, i, c), PromoteDuplicate(db, i, now).proxies);
    }
  }

  // ----- Writes that act on an earlier reading -----

  predicate OnAddressOf(p: Proxy, q: Proxy) {
    Trusted(p) && p.exitIp == q.exitIp
  }

  /** Row j still points at the leaving row after the group chosen from was re-homed. */
  predicate Deserted(ps: seq<Proxy>, i: nat, choice: Option<Choice>, j: nat)
    requires j < |ps|
  {
    && j != i && Active(ps[j]) && ps[j].duplicateOf == Some(i)
    && (choice.Some? ==> j != choice.value.canonical && !Member(ps, j, choice.value.ip, Some(i)))
  }

  /** The group re-homed shares its new canonical row's address, nobody else on that address is left
      out, and a replaced row leaves no follower behind. */
  predicate LeaveFits(ps: seq<Proxy>, i: nat, choice: Option<Choice>, replace: bool) {
    && (replace ==> forall j :: 0 <= j < |ps| ==> !Deserted(ps, i, choice, j))
    && (choice.Some? ==>
          var c, ip := choice.value.canonical, choice.value.ip;
          && c < |ps| && c != i
          && (forall j :: 0 <= j < |ps| && j != c && Member(ps, j, ip, Some(i)) ==> OnAddressOf(ps[j], ps[c]))
          && (Active(ps[c]) ==> forall j :: 0 <= j < |ps| && j != c && j != i && Active(ps[j]) && OnAddressOf(ps[j], ps[c]) ==>
                                              Member(ps, j, ip, Some(i)) || ps[j].duplicateOf == Some(c)))
  }

  /** The rows after a leave, before and apart from money. */
  function LeftRows(ps: seq<Proxy>, i: nat, choice: Option<Choice>, q: Proxy): seq<Proxy>
    requires i < |ps|
  {
    (if choice.Some? then Repoint(ps, choice.value.ip, Some(i), choice.value.canonical) else ps)[i := q]
  }

  /** What becomes of the leaving row. */
  predicate Departed(p: Proxy, q: Proxy, replace: bool) {
    if replace then Active(q) && q.exitIp.None? && q.attestation == Unattested && q.duplicateOf.None?
    else !Active(q) && q.exitIp == p.exitIp && q.attestation == p.attestation
  }

  /** Whatever happened to the rows since they were read, a leave keeps the star exactly when it fits. */
  lemma LeaveKeepsStarExactly(ps: seq<Proxy>, i: nat, choice: Option<Choice>, replace: bool, q: Proxy)
    requires Star(ps) && i < |ps| && Active(ps[i]) && Departed(ps[i], q, replace)
    requires choice.Some? ==> choice.value.canonical < |ps| && choice.value.canonical != i
    ensures Star(LeftRows(ps, i, choice, q)) <==> LeaveFits(ps, i, choice, replace)
  {
    if LeaveFits(ps, i, choice, replace) {
      FittingLeaveKeepsStar(ps, i, choice, replace, q);
    } else {
      UnfitLeaveBreaksStar(ps, i, choice, replace, q);
    }
  }

  lemma FittingLeaveKeepsStar(ps: seq<Proxy>, i: nat, choice: Option<Choice>, replace: bool, q: Proxy)
    requires Star(ps) && i < |ps| && Active(ps[i]) && Departed(ps[i], q, replace) && LeaveFits(ps, i, choice, replace)
    ensures Star(LeftRows(ps, i, choice, q))
  {
    var qs := LeftRows(ps, i, choice, q);
    assert Attested(qs);
    forall a | 0 <= a < |qs|
      ensures PointsWell(qs, a, {})
    {
      LeftPoints(ps, i, choice, replace, q, a);
    }
    forall a, b | 0 <= a < |qs| && 0 <= b < |qs| && SameCenter(qs[a], qs[b], {})
      ensures a == b
    {
      var c := if choice.Some? then choice.value.canonical else i;
      assert a == c || b == c || SameCenter(ps[a], ps[b], {});
    }
    forall a, b | 0 <= a < |qs| && 0 <= b < |qs| && OrphanBeside(qs, a, b, {})
      ensures qs[b].duplicateOf == qs[a].duplicateOf
    {
      LeftOrphans(ps, i, choice, replace, q, a, b);
    }
  }

  lemma LeftPoints(ps: seq<Proxy>, i: nat, choice: Option<Choice>, replace: bool, q: Proxy, a: nat)
    requires Star(ps) && i < |ps| && Active(ps[i]) && Departed(ps[i], q, replace) && LeaveFits(ps, i, choice, replace)
    requires a < |ps|
    ensures PointsWell(LeftRows(ps, i, choice, q), a, {})
  {
    assert PointsWell(ps, a, {});
    if Deserted(ps, i, choice, a) {
      assert !replace;
    } else if choice.Some? && a != choice.value.canonical && Member(ps, a, choice.value.ip, Some(i)) {
      assert OnAddressOf(ps[a], ps[choice.value.canonical]);
    }
  }

  /** Everyone on the address of an active canonical row follows it. */
  lemma FollowersAgree(ps: seq<Proxy>, i: nat, a: nat, b: nat)
    requires Star(ps) && i < |ps| && a < |ps| && b < |ps| && b != i && Active(ps[i])
    requires Active(ps[a]) && ps[a].duplicateOf == Some(i) && Active(ps[b]) && OnAddressOf(ps[b], ps[a])
    ensures ps[b].duplicateOf == Some(i)
  {
    assert PointsWell(ps, a, {}) && PointsWell(ps, b, {});
    assert !SameCenter(ps[b], ps[i], {});
    var t := if ps[b].duplicateOf.Some? then ps[b].duplicateOf.value else i;
    assert SameCenter(ps[t], ps[i], {}) ==> t == i;
    assert !OrphanBeside(ps, b, a, {}) || ps[b].duplicateOf == Some(i);
  }

  lemma LeftOrphans(ps: seq<Proxy>, i: nat, choice: Option<Choice>, replace: bool, q: Proxy, a: nat, b: nat)
    requires Star(ps) && i < |ps| && Active(ps[i]) && Departed(ps[i], q, replace) && LeaveFits(ps, i, choice, replace)
    requires a < |ps| && b < |ps| && OrphanBeside(LeftRows(ps, i, choice, q), a, b, {})
    ensures LeftRows(ps, i, choice, q)[b].duplicateOf == LeftRows(ps, i, choice, q)[a].duplicateOf
  {
    assert PointsWell(ps, a, {}) && PointsWell(ps, b, {});
    if Deserted(ps, i, choice, a) {
      FollowersAgree(ps, i, a, b);
    } else {
      assert OrphanBeside(ps, a, b, {}) || (choice.Some? && Member(ps, a, choice.value.ip, Some(i)));
    }
  }

  lemma UnfitLeaveBreaksStar(ps: seq<Proxy>, i: nat, choice: Option<Choice>, replace: bool, q: Proxy)
    requires Star(ps) && i < |ps| && Active(ps[i]) && Departed(ps[i], q, replace) && !LeaveFits(ps, i, choice, replace)
    requires choice.Some? ==> choice.value.canonical < |ps| && choice.value.canonical != i
    ensures !Star(LeftRows(ps, i, choice, q))
  {
    var qs := LeftRows(ps, i, choice, q);
    if j :| replace && 0 <= j < |ps| && Deserted(ps, i, choice, j) {
      assert !PointsWell(qs, j, {});
    } else {
      var c, ip := choice.value.canonical, choice.value.ip;
      if j :| 0 <= j < |ps| && j != c && Member(ps, j, ip, Some(i)) && !OnAddressOf(ps[j], ps[c]) {
        assert !PointsWell(qs, j, {});
      } else {
        var j :| 0 <= j < |ps| && j != c && j != i && Active(ps[j]) && OnAddressOf(ps[j], ps[c])
                 && !Member(ps, j, ip, Some(i)) && ps[j].duplicateOf != Some(c);
        assert qs[j] == ps[j] && PointsWell(ps, j, {});
        if ps[j].duplicateOf.None? {
          assert SameCenter(qs[j], qs[c], {});
        } else {
          var t := ps[j].duplicateOf.value;
          assert !PointsWell(qs, j, {}) || SameCenter(qs[t], qs[c], {}) || OrphanBeside(qs, j, c, {});
        }
      }
    }
  }

  lemma LateLeaveStar(db: Db, i: nat, user: nat, choice: Option<Choice>, replace: bool, now: int)
    requires Star(db.proxies)
    requires Owned(db, i, user) ==> LeaveFits(db.proxies, i, choice, replace)
    ensures Star(LateLeave(db, i, user, choice, replace, now).proxies)
  {
    if Owned(db, i, user) {
      var p := db.proxies[i];
      var q := if replace then ReplacedRow(p, now) else ArchivedRow(p, now);
      assert LateLeave(db, i, user, choice, replace, now).proxies == LeftRows(db.proxies, i, choice, q);
      FittingLeaveKeepsStar(db.proxies, i, choice, replace, q);
    }
  }

  /** A choice read under the lock always fits. */
  lemma TimelyLeaveFits(db: Db, i: nat, replace: bool, now: int)
    requires Star(db.proxies) && i < |db.proxies| && Active(db.proxies[i])
    ensures LeaveFits(db.proxies, i, LeavingChoice(db.proxies, i, now), replace)
  {
    var q := if replace then ReplacedRow(db.proxies[i], now) else ArchivedRow(db.proxies[i], now);
    var choice := LeavingChoice(db.proxies, i, now);
    LeaveStar(db, i, q, now);
    assert SetRow(LeaveGroup(db, i, now), i, q).proxies == LeftRows(db.proxies, i, choice, q) by { hide Star, Canonical; }
    hide LeaveGroup, Choose, LeavingChoice, Star, LeaveFits, LeftRows;
    assert choice.Some? ==> choice.value.canonical < |db.proxies| && choice.value.canonical != i by { ChoiceIsMember(db.proxies, i, now); }
    LeaveKeepsStarExactly(db.proxies, i, choice, replace, q);
  }

  lemma ChoiceIsMember(ps: seq<Proxy>, i: nat, now: int)
    requires i < |ps|
    ensures var choice := LeavingChoice(ps, i, now);
            choice.Some? ==> choice.value.canonical < |ps| && choice.value.canonical != i
  {}

  /** The active rows that a promotion makes point at the promoted row. */
  predicate Redirected(ps: seq<Proxy>, j: nat, canonical: nat, c: nat)
    requires j < |ps|
  {
    Active(ps[j]) && j != c && (j == canonical || ps[j].duplicateOf == Some(canonical))
  }

  /** All rows redirected share the promoted row's address, and nobody else on it is left out. */
  predicate PromotionFits(ps: seq<Proxy>, canonical: nat, c: nat)
    requires canonical < |ps| && c < |ps|
  {
    && (forall j :: 0 <= j < |ps| && Redirected(ps, j, canonical, c) ==> OnAddressOf(ps[j], ps[c]))
    && (Active(ps[c]) || (exists j :: 0 <= j < |ps| && Redirected(ps, j, canonical, c)) ==>
          forall j :: 0 <= j < |ps| && j != c && Active(ps[j]) && OnAddressOf(ps[j], ps[c]) ==>
                        Redirected(ps, j, canonical, c) || ps[j].duplicateOf == Some(c))
  }

  /** Whatever happened to the rows since they were read, a promotion keeps the star exactly when it fits. */
  lemma PromotionKeepsStarExactly(ps: seq<Proxy>, canonical: nat, c: nat)
    requires Star(ps) && canonical < |ps| && c < |ps|
    ensures Star(PromoteRows(ps, canonical, c)) <==> PromotionFits(ps, canonical, c)
  {
    if PromotionFits(ps, canonical, c) {
      FittingKeepsStar(ps, canonical, c);
    } else {
      UnfitBreaksStar(ps, canonical, c);
    }
  }

  lemma FittingKeepsStar(ps: seq<Proxy>, canonical: nat, c: nat)
    requires Star(ps) && canonical < |ps| && c < |ps| && PromotionFits(ps, canonical, c)
    ensures Star(PromoteRows(ps, canonical, c))
  {
    var qs := PromoteRows(ps, canonical, c);
    assert forall j :: 0 <= j < |ps| ==> qs[j] == Promoted(ps, j, canonical, c);
    forall a | 0 <= a < |qs|
      ensures PointsWell(qs, a, {})
    {
      assert PointsWell(ps, a, {});
    }
    forall a, b | 0 <= a < |qs| && 0 <= b < |qs| && SameCenter(qs[a], qs[b], {})
      ensures a == b
    {
      assert SameCenter(ps[a], ps[b], {}) || a == c || b == c;
    }
    forall a, b | 0 <= a < |qs| && 0 <= b < |qs| && OrphanBeside(qs, a, b, {})
      ensures qs[b].duplicateOf == qs[a].duplicateOf
    {
      FittingOrphans(ps, canonical, c, a, b);
    }
  }

  lemma FittingOrphans(ps: seq<Proxy>, canonical: nat, c: nat, a: nat, b: nat)
    requires Star(ps) && canonical < |ps| && c < |ps| && PromotionFits(ps, canonical, c)
    requires a < |ps| && b < |ps| && OrphanBeside(PromoteRows(ps, canonical, c), a, b, {})
    ensures PromoteRows(ps, canonical, c)[b].duplicateOf == PromoteRows(ps, canonical, c)[a].duplicateOf
  {
    var p, q := ps[a], ps[b];
    assert PointsWell(ps, a, {});
    if Redirected(ps, a, canonical, c) {
      assert OnAddressOf(p, ps[c]) && OnAddressOf(q, ps[c]) && b != c;
    } else {
      assert OrphanBeside(ps, a, b, {});
      assert b == c ==> OnAddressOf(p, ps[c]);
      assert Redirected(ps, b, canonical, c) ==> OnAddressOf(q, ps[c]) && OnAddressOf(p, ps[c]);
    }
  }

  lemma UnfitBreaksStar(ps: seq<Proxy>, canonical: nat, c: nat)
    requires Star(ps) && canonical < |ps| && c < |ps| && !PromotionFits(ps, canonical, c)
    ensures !Star(PromoteRows(ps, canonical, c))
  {
    var qs := PromoteRows(ps, canonical, c);
    if j :| 0 <= j < |ps| && Redirected(ps, j, canonical, c) && !OnAddressOf(ps[j], ps[c]) {
      assert !PointsWell(qs, j, {});
    } else {
      var j :| 0 <= j < |ps| && j != c && Active(ps[j]) && OnAddressOf(ps[j], ps[c])
               && !Redirected(ps, j, canonical, c) && ps[j].duplicateOf != Some(c);
      LeftOut(ps, canonical, c, j);
    }
  }

  /** A row on the promoted row's address that the promotion passes over. */
  lemma LeftOut(ps: seq<Proxy>, canonical: nat, c: nat, j: nat)
    requires Star(ps) && canonical < |ps| && c < |ps| && j < |ps| && j != c
    requires Active(ps[j]) && OnAddressOf(ps[j], ps[c]) && !Redirected(ps, j, canonical, c) && ps[j].duplicateOf != Some(c)
    requires Active(ps[c]) || exists r :: 0 <= r < |ps| && Redirected(ps, r, canonical, c)
    ensures !Star(PromoteRows(ps, canonical, c))
  {
    var qs := PromoteRows(ps, canonical, c);
    assert qs[j] == ps[j] && PointsWell(ps, j, {});
    if !Active(ps[c]) {
      var r :| 0 <= r < |ps| && Redirected(ps, r, canonical, c);
      assert !PointsWell(qs, r, {}) || OrphanBeside(qs, r, j, {});
    } else if ps[j].duplicateOf.None? {
      assert SameCenter(qs[j], qs[c], {});
    } else {
      var t := ps[j].duplicateOf.value;
      assert !PointsWell(qs, j, {}) || SameCenter(qs[t], qs[c], {}) || OrphanBeside(qs, j, c, {});
    }
  }

  /** Promoting an online duplicate of the canonical row. */
  lemma PromoteStar(ps: seq<Proxy>, canonical: nat, c: nat)
    requires Star(ps) && canonical < |ps| && c < |ps| && IsOnlineDuplicate(ps[c], canonical)
    ensures PromotionFits(ps, canonical, c)
    ensures Star(PromoteRows(ps, canonical, c)) && Center(PromoteRows(ps, canonical, c)[c])
  {
    assert PointsWell(ps, c, {});
    forall j | 0 <= j < |ps| && Redirected(ps, j, canonical, c)
      ensures OnAddressOf(ps[j], ps[c])
    {
      assert PointsWell(ps, j, {});
    }
    forall j | 0 <= j < |ps| && j != c && Active(ps[j]) && OnAddressOf(ps[j], ps[c])
      ensures Redirected(ps, j, canonical, c)
    {
      assert PointsWell(ps, j, {});
      if Active(ps[canonical]) && ps[j].duplicateOf.Some? {
        assert OrphanBeside(ps, j, c, {}) || SameCenter(ps[ps[j].duplicateOf.value], ps[canonical], {});
      } else {
        assert OrphanBeside(ps, c, j, {}) || SameCenter(ps[j], ps[canonical], {});
      }
    }
    FittingKeepsStar(ps, canonical, c);
  }

  lemma LatePromoteStar(db: Db, canonical: nat, c: nat, now: int)
    requires Star(db.proxies)
    requires canonical < |db.proxies| && c < |db.proxies| ==> PromotionFits(db.proxies, canonical, c)
    ensures Star(LatePromote(db, canonical, c, now).proxies)
  {
    if canonical < |db.proxies| && c < |db.proxies| {
      PromotionKeepsStarExactly(db.proxies, canonical, c);
      IdentityKeepsStar(PromoteRows(db.proxies, canonical, c), PromoteTo(db, canonical, c, now).proxies);
    }
  }

  /** The same of the whole steps. */
  lemma LateStepsExactly(db: Db, i: nat, user: nat, choice: Option<Choice>, replace: bool, c: nat, now: int)
    requires Star(db.proxies)
    ensures Owned(db, i, user) && (choice.Some? ==> choice.value.canonical < |db.proxies| && choice.value.canonical != i) ==>
              (Star(LateLeave(db, i, user, choice, replace, now).proxies) <==> LeaveFits(db.proxies, i, choice, replace))
    ensures i < |db.proxies| && c < |db.proxies| ==> (Star(LatePromote(db, i, c, now).proxies) <==> PromotionFits(db.proxies, i, c))
  {
    hide LeaveFits, PromotionFits;
    if Owned(db, i, user) && (choice.Some? ==> choice.value.canonical < |db.proxies| && choice.value.canonical != i) {
      var q := if replace then ReplacedRow(db.proxies[i], now) else ArchivedRow(db.proxies[i], now);
      assert LateLeave(db, i, user, choice, replace, now).proxies == LeftRows(db.proxies, i, choice, q);
      LeaveKeepsStarExactly(db.proxies, i, choice, replace, q);
    }
    if i < |db.proxies| && c < |db.proxies| {
      PromotionKeepsStarExactly(db.proxies, i, c);
      var qs, rs := PromoteRows(db.proxies, i, c), LatePromote(db, i, c, now).proxies;
      hide Star;
      if Star(rs) { IdentityKeepsStar(rs, qs); }
      if Star(qs) { IdentityKeepsStar(qs, rs); }
    }
  }

  /** A promotion read under the lock always fits; one whose canonical row has moved to another
      address since it was read never does. */
  lemma PromotionsThatFit(ps: seq<Proxy>, canonical: nat, c: nat)
    requires Star(ps) && canonical < |ps| && c < |ps| && c != canonical
    ensures IsOnlineDuplicate(ps[c], canonical) ==> PromotionFits(ps, canonical, c)
    ensures Active(ps[canonical]) && ps[canonical].exitIp != ps[c].exitIp ==> !PromotionFits(ps, canonical, c)
  {
    if Active(ps[canonical]) && ps[canonical].exitIp != ps[c].exitIp {
      assert Redirected(ps, canonical, canonical, c);
    }
    if IsOnlineDuplicate(ps[c], canonical) {
      PromoteStar(ps, canonical, c);
    }
  }

  lemma AddStar(ps: seq<Proxy>, q: Proxy)
    requires Star(ps) && q.exitIp.None? && q.attestation == Unattested && q.duplicateOf.None?
    ensures Star(ps + [q])
  {
    var qs := ps + [q];
    forall a | 0 <= a < |qs|
      ensures PointsWell(qs, a, {})
    {
      assert a < |ps| ==> PointsWell(ps, a, {});
    }
    forall a, b | 0 <= a < |qs| && 0 <= b < |qs| && OrphanBeside(qs, a, b, {})
      ensures qs[b].duplicateOf == qs[a].duplicateOf
    {
      assert PointsWell(ps, a, {}) && OrphanBeside(ps, a, b, {});
    }
  }
}
