/** What EarnApp verdicts, claims, re-homing and the life of a proxy write, column by column
    (app/services/checks.py:154-256 and 312-384, app/services/proxies.py:238-501). */
module ProxyLaws {
  import opened Wrappers
  import opened EarningModel
  import opened RowInvariants
  import opened LedgerInvariants
  import opened EarningInvariants
  import opened EgressStar
  import opened HealthLaws

  const ONE_DAY := 86_400

  // ----- EarnApp verdicts -----

  /** The address EarnApp saw over its own authenticated connection. */
  function SeenAt(r: EarnappReport): Option<Ip> {
    if r.trusted == Some(true) then r.exitIp else None
  }

  predicate MovedAway(p: Proxy, r: EarnappReport) {
    SeenAt(r).Some? && p.exitIp.Some? && SeenAt(r) != p.exitIp
  }

  /** Allowed, a risk, or undecided: an allowing verdict counts only with an authenticated address, unless
      the caller reports no attestation at all, and none counts if the address has moved. */
  function Standing(p: Proxy, r: EarnappReport): Eligibility {
    if MovedAway(p, r) then Unclassified
    else if r.verdict == Refused then Risk
    else if r.verdict == CidSet && (r.trusted.None? || SeenAt(r).Some?) then Allow
    else Unclassified
  }

  /** A two-letter country reported from the address on record. */
  predicate CountryShown(p: Proxy, r: EarnappReport) {
    && |r.country| == 2 && 'A' <= r.country[0] <= 'Z' && 'A' <= r.country[1] <= 'Z'
    && p.exitIp.Some? && r.exitIp == p.exitIp && (r.trusted.None? || r.trusted.value)
  }

  predicate VerdictTo(cfg: Config, p: Proxy, q: Proxy, r: EarnappReport, now: int) {
    var restarts := p.eligibility != Standing(p, r) || MovedAway(p, r);
    && SameCredentials(p, q)
    && q.eligibility == Standing(p, r)
    && q.earnappNext == Some(if MovedAway(p, r) then now else now + cfg.refresh) && q.earnappToken.None? && q.earnappUntil.None?
    && q.probation == (if restarts then now else p.probation) && q.cursor == (if restarts then now else p.cursor)
    && (if SeenAt(r).Some? then q.exitIp == SeenAt(r) && q.attestation == EarnappTls else q.exitIp == p.exitIp && q.attestation == p.attestation)
    && q.verifiedAt == (if SeenAt(r).Some? && (p.verifiedAt.None? || MovedAway(p, r)) then Some(now) else p.verifiedAt)
    && q.country == (if CountryShown(p, r) then r.country else if MovedAway(p, r) then "" else p.country)
    && q.status == p.status && q.failures == p.failures && q.onlineSince == p.onlineSince && q.offlineSince == p.offlineSince
    && q.lastSuccess == p.lastSuccess && q.deadSince == p.deadSince && q.accOnline == p.accOnline && q.accOffline == p.accOffline
    && q.nextCheck == p.nextCheck && q.checkToken == p.checkToken && q.checkUntil == p.checkUntil
  }

  lemma VerdictExactly(db: Db, i: nat, generation: nat, token: nat, r: EarnappReport, now: int)
    requires Inv(db) && now == db.clock
    ensures var after := ApplyEarnapp(db, i, generation, token, r, now);
            if i < |db.proxies| && db.proxies[i].archivedAt.None? && db.proxies[i].generation == generation && db.proxies[i].earnappToken == Some(token)
            then |after.proxies| == |db.proxies| && VerdictTo(db.cfg, db.proxies[i], after.proxies[i], r, now)
                 && forall j :: 0 <= j < |db.proxies| && j != i ==> Alike(db.proxies[j], after.proxies[j])
            else after == db
  {
    hide Inv, AccrueRow, VerdictTo, EarnappRow, ReconcileExitIp, Classify, EarnappEgressChanged, ResetProbation, Alike;
    if EarnappAccepted(db, i, generation, token) {
      var p := db.proxies[i];
      var changed, moved := p.eligibility != Classify(p, r), EarnappEgressChanged(p, r);
      ClosedRows(db, i, changed && Earning(p.eligibility), changed || moved, now);
      var credited := if changed && Earning(p.eligibility) then AccrueRow(db, i, true, now) else db;
      var closed := if changed || moved then ResetProbation(credited, i, now) else credited;
      IdentifiedExactly(db.cfg, p, closed, i, r, now);
      var identified := match Authenticated(r)
        case None => closed
        case Some(ip) => ReconcileExitIp(closed, i, ip, EarnappTls, now);
      var after := SetRow(identified, i, EarnappRow(db.cfg, identified.proxies[i], p, r, now));
      assert ApplyEarnapp(db, i, generation, token, r, now) == after;
      forall j | 0 <= j < |db.proxies| && j != i
        ensures Alike(db.proxies[j], after.proxies[j])
      {
        assert closed.proxies[j] == db.proxies[j];
      }
    }
  }

  /** Paying and restarting a row. */
  lemma ClosedRows(db: Db, i: nat, credit: bool, restart: bool, now: int)
    requires i < |db.proxies| && (credit ==> restart)
    ensures var credited := if credit then AccrueRow(db, i, true, now) else db;
            i < |credited.proxies|
            && var closed := if restart then ResetProbation(credited, i, now) else credited;
            closed.proxies == db.proxies[i := if restart then db.proxies[i].(probation := now, cursor := now) else db.proxies[i]]
            && closed.cfg == db.cfg
  {
    hide Credit;
    assert db.proxies[i := db.proxies[i]] == db.proxies;
  }

  lemma IdentifiedExactly(cfg: Config, p: Proxy, closed: Db, i: nat, r: EarnappReport, now: int)
    requires i < |closed.proxies| && Active(p)
    requires closed.proxies[i] == if p.eligibility != Classify(p, r) || EarnappEgressChanged(p, r)
                                  then p.(probation := now, cursor := now) else p
    ensures var identified := match Authenticated(r)
              case None => closed
              case Some(ip) => ReconcileExitIp(closed, i, ip, EarnappTls, now);
            && |identified.proxies| == |closed.proxies|
            && VerdictTo(cfg, p, EarnappRow(cfg, identified.proxies[i], p, r, now), r, now)
            && forall j :: 0 <= j < |closed.proxies| && j != i ==> Alike(closed.proxies[j], identified.proxies[j])
  {
    if Authenticated(r).Some? {
      ReconciledRows(closed, i, Authenticated(r).value, EarnappTls, now);
    }
    hide ReconcileExitIp;
    CountryIs(p, r);
    hide CountryShown, VerifiedCountry;
  }

  lemma CountryIs(p: Proxy, r: EarnappReport)
    ensures VerifiedCountry(p, r) == if CountryShown(p, r) then Some(r.country) else None
  {}

  /** A verdict that changes the standing first pays what was earned under the old one, at its rate; a
      cycle that restarts forfeits what is pending. */
  lemma VerdictSettles(db: Db, i: nat, generation: nat, token: nat, r: EarnappReport, now: int)
    requires Inv(db) && now == db.clock && EarnappAccepted(db, i, generation, token)
    ensures var p, m := db.proxies[i], ApplyEarnapp(db, i, generation, token, r, now).ledger;
            var paid := if p.eligibility != Standing(p, r) && (p.eligibility == Allow || p.eligibility == Risk)
                        then AccrueRow(db, i, true, now).ledger else db.ledger;
            && OnlyForfeits(paid, m)
            && (p.eligibility != Standing(p, r) || MovedAway(p, r) ==> NoPending(m, i))
            && (p.eligibility == Standing(p, r) && SeenAt(r).None? ==> m == db.ledger)
  {
    var p := db.proxies[i];
    var changed := p.eligibility != Classify(p, r);
    assert Classify(p, r) == Standing(p, r) && EarnappEgressChanged(p, r) == MovedAway(p, r);
    var credited := if changed && Earning(p.eligibility) then AccrueRow(db, i, true, now) else db;
    AccruedRows(db, i, now);
    hide AccrueRow, Inv;
    var paid := credited.ledger;
    assert OnlyForfeits(paid, paid) && OnlyForfeits(paid, ExpireAll(paid, {i})) && NoPending(ExpireAll(paid, {i}), i);
    var closed := if changed || EarnappEgressChanged(p, r) then ResetProbation(credited, i, now) else credited;
    if Authenticated(r).Some? {
      ReconcileForfeits(closed, i, Authenticated(r).value, EarnappTls, now);
      ForfeitsOnwards(paid, closed.ledger, ReconcileExitIp(closed, i, Authenticated(r).value, EarnappTls, now).ledger);
      hide ReconcileExitIp;
    }
  }

  // ----- Claims -----

  /** A row whose owner is active is due when its lease has run out, or when it has none and its time has come. */
  predicate CheckDue(db: Db, p: Proxy, now: int) {
    && p.archivedAt.None? && p.userId < |db.users| && db.users[p.userId].active
    && (if p.checkUntil.Some? then p.checkUntil.value <= now else p.nextCheck <= now)
  }

  predicate VerdictDue(db: Db, p: Proxy, now: int) {
    && p.archivedAt.None? && p.status == Online && p.userId < |db.users| && db.users[p.userId].active
    && (p.earnappNext.Some? ==> p.earnappNext.value <= now) && (p.earnappUntil.Some? ==> p.earnappUntil.value <= now)
  }

  /** A batch takes exactly its due rows, for ten minutes, under a token nobody had before. */
  lemma ClaimsExactly(db: Db, ids: set<nat>, now: int, j: nat)
    requires j < |db.proxies|
    ensures var p, h, e := db.proxies[j], ClaimHealth(db, ids, now), ClaimEarnapp(db, ids, now);
            && h == db.(proxies := h.proxies, nextToken := db.nextToken + 1) && |h.proxies| == |db.proxies|
            && e == db.(proxies := e.proxies, nextToken := db.nextToken + 1) && |e.proxies| == |db.proxies|
            && h.proxies[j] == (if j in ids && CheckDue(db, p, now)
                                then p.(nextCheck := now + db.cfg.healthInterval, checkUntil := Some(now + 600), checkToken := Some(db.nextToken)) else p)
            && e.proxies[j] == (if j in ids && VerdictDue(db, p, now)
                                then p.(earnappUntil := Some(now + 600), earnappToken := Some(db.nextToken)) else p)
  {}

  /** Once a row was claimed anew, the result of an earlier claim changes nothing. */
  lemma EarlierClaimsAreLost(db: Db, ids: set<nat>, i: nat, generation: nat, token: nat, o: HealthOutcome, r: EarnappReport, now: int, later: int)
    requires i < |db.proxies| && i in ids && token < db.nextToken
    ensures CheckDue(db, db.proxies[i], now) ==>
              var h := ClaimHealth(db, ids, now); ApplyHealth(h, i, generation, token, o, later) == h && ReleaseHealth(h, i, token, later) == h
    ensures VerdictDue(db, db.proxies[i], now) ==>
              var e := ClaimEarnapp(db, ids, now); ApplyEarnapp(e, i, generation, token, r, later) == e && ReleaseEarnapp(e, i, token, later) == e
  {
    ClaimsExactly(db, ids, now, i);
    hide ClaimHealth, ClaimEarnapp, ApplyLive, ApplyBlocked, ApplyFailure;
  }

  /** Giving a claim back makes the row due at once, for its holder only. */
  lemma ReleasesExactly(db: Db, i: nat, token: nat, now: int)
    requires i < |db.proxies|
    ensures var p := db.proxies[i];
            && ReleaseHealth(db, i, token, now) == (if p.checkToken == Some(token)
                 then db.(proxies := db.proxies[i := p.(nextCheck := now, checkUntil := None, checkToken := None)]) else db)
            && ReleaseEarnapp(db, i, token, now) == (if p.earnappToken == Some(token)
                 then db.(proxies := db.proxies[i := p.(earnappNext := Some(now), earnappUntil := None, earnappToken := None)]) else db)
  {}

  // ----- Re-homing -----

  /** Re-homing a group forfeits the pending money of exactly the members that end up as duplicates. */
  lemma RehomingForfeitsExactly(db: Db, ip: Ip, prefer: bool, exclude: Option<nat>, now: int, k: nat)
    requires k < |db.ledger| && db.ledger[k].proxy < |db.proxies|
    ensures var after, j := Canonicalize(db, ip, prefer, exclude, now), db.ledger[k].proxy;
            var p := db.proxies[j];
            && |after.ledger| == |db.ledger| && |after.proxies| == |db.proxies|
            && after.ledger[k] == (if db.ledger[k].bucket == PendingMoney && p.archivedAt.None? && p.exitIp == Some(ip)
                                      && p.attestation != Unattested && exclude != Some(j) && after.proxies[j].duplicateOf.Some?
                                   then db.ledger[k].(bucket := Expired) else db.ledger[k])
  {
    var c := Canonical(db.proxies, ip, prefer, exclude, now);
    var j := db.ledger[k].proxy;
    if c.None? {
      assert !Candidate(db.proxies, j, ip, exclude, false, now);
    }
    hide Canonical;
  }

  /** A member of the group: active, trusted, on the address, and not the row that is leaving. */
  predicate OnAddress(ps: seq<Proxy>, j: nat, ip: Ip, exclude: Option<nat>)
    requires j < |ps|
  {
    ps[j].archivedAt.None? && ps[j].exitIp == Some(ip) && ps[j].attestation != Unattested && exclude != Some(j)
  }

  predicate DownForADay(p: Proxy, now: int) {
    p.status == Offline && p.offlineSince.Some? && now - p.offlineSince.value >= ONE_DAY
  }

  /** Verified earlier, or at the same time and created earlier. */
  predicate VerifiedBefore(ps: seq<Proxy>, a: nat, b: nat)
    requires a < |ps| && b < |ps| && ps[a].verifiedAt.Some? && ps[b].verifiedAt.Some?
  {
    ps[a].verifiedAt.value < ps[b].verifiedAt.value || (ps[a].verifiedAt.value == ps[b].verifiedAt.value && CreatedBefore(ps, a, b))
  }

  lemma ChoiceIsMember(ps: seq<Proxy>, ip: Ip, prefer: bool, exclude: Option<nat>, now: int)
    ensures var c := Canonical(ps, ip, prefer, exclude, now);
            && (c.None? ==> forall j: nat :: j < |ps| ==> !Member(ps, j, ip, exclude))
            && (c.Some? ==> c.value < |ps| && Member(ps, c.value, ip, exclude))
  {
    if Canonical(ps, ip, prefer, exclude, now).None? {
      forall j: nat | j < |ps|
        ensures !Member(ps, j, ip, exclude)
      {
        assert !Candidate(ps, j, ip, exclude, false, now);
      }
    }
  }

  /** The canonical row of an address is a member not down for a day if there is one, and of those the one
      verified first if that is asked for and known of all, else the one created first. */
  lemma CanonicalExactly(ps: seq<Proxy>, ip: Ip, prefer: bool, exclude: Option<nat>, now: int)
    ensures var c := Canonical(ps, ip, prefer, exclude, now);
            && (c.None? <==> forall j: nat :: j < |ps| ==> !OnAddress(ps, j, ip, exclude))
            && (c.Some? ==>
                  && c.value < |ps| && OnAddress(ps, c.value, ip, exclude)
                  && var known := prefer && forall j: nat :: j < |ps| && OnAddress(ps, j, ip, exclude) ==> ps[j].verifiedAt.Some?;
                     forall j: nat :: j < |ps| && j != c.value && OnAddress(ps, j, ip, exclude) ==>
                       && (DownForADay(ps[c.value], now) ==> DownForADay(ps[j], now))
                       && (DownForADay(ps[c.value], now) == DownForADay(ps[j], now) ==>
                             if known then VerifiedBefore(ps, c.value, j) else CreatedBefore(ps, c.value, j)))
  {
    assert forall j: nat :: j < |ps| ==> OnAddress(ps, j, ip, exclude) == Member(ps, j, ip, exclude);
    assert forall j: nat :: j < |ps| ==> DownForADay(ps[j], now) == LongOffline(ps[j], now);
    hide OnAddress, DownForADay, LongOffline, Member, Canonical;
    var c := Canonical(ps, ip, prefer, exclude, now);
    ChoiceIsMember(ps, ip, prefer, exclude, now);
    if c.Some? {
      var known := prefer && forall j: nat :: j < |ps| && OnAddress(ps, j, ip, exclude) ==> ps[j].verifiedAt.Some?;
      assert known == (prefer && AllVerified(ps, ip, exclude));
      assert Member(ps, c.value, ip, exclude);
      forall j: nat | j < |ps| && j != c.value && OnAddress(ps, j, ip, exclude)
        ensures DownForADay(ps[c.value], now) ==> DownForADay(ps[j], now)
        ensures DownForADay(ps[c.value], now) == DownForADay(ps[j], now) ==>
                  if known then VerifiedBefore(ps, c.value, j) else CreatedBefore(ps, c.value, j)
      {
        CanonicalIsFirst(ps, ip, prefer, exclude, now, j);
      }
    }
  }

  // ----- The life of a proxy -----

  /** Nothing is known yet, everything starts now, and a check is due. */
  predicate Untried(p: Proxy, now: int) {
    && p.credentialStart == now && p.cursor == now && p.probation == now && p.nextCheck == now
    && p.status == Pending && p.eligibility == Unclassified && p.country == "" && p.failures == 0
    && p.exitIp.None? && p.attestation == Unattested && p.verifiedAt.None? && p.duplicateOf.None?
    && p.onlineSince.None? && p.offlineSince.None? && p.lastSuccess.None? && p.deadSince.None? && p.archivedAt.None?
    && p.accOnline == 0 && p.accOffline == 0
    && p.checkToken.None? && p.checkUntil.None? && p.earnappNext.None? && p.earnappToken.None? && p.earnappUntil.None?
  }

  lemma AddedExactly(db: Db, user: nat, now: int)
    ensures var after := AddProxy(db, user, now);
            if user < |db.users|
            then after == db.(proxies := after.proxies) && |after.proxies| == |db.proxies| + 1 && after.proxies[..|db.proxies|] == db.proxies
                 && Untried(after.proxies[|db.proxies|], now) && after.proxies[|db.proxies|].userId == user
                 && after.proxies[|db.proxies|].generation == 1 && after.proxies[|db.proxies|].createdAt == now
            else after == db
  {}

  /** New credentials start over on the old row; an archived row keeps all but its status. Both are for
      the owner only, and forfeit what the row had pending. */
  lemma LeavingExactly(db: Db, i: nat, user: nat, now: int)
    requires i < |db.proxies|
    ensures var p, r, a := db.proxies[i], ReplaceProxy(db, i, user, now), ArchiveProxy(db, i, user, now);
            if p.archivedAt.None? && p.userId == user
            then && |r.proxies| == |a.proxies| == |db.proxies|
                 && Untried(r.proxies[i], now) && r.proxies[i].userId == user
                 && r.proxies[i].generation == p.generation + 1 && r.proxies[i].createdAt == p.createdAt
                 && a.proxies[i] == p.(status := Archived, archivedAt := Some(now))
                 && OnlyForfeits(db.ledger, r.ledger) && NoPending(r.ledger, i) && a.ledger == r.ledger
                 && forall j :: 0 <= j < |db.proxies| && j != i ==> Alike(db.proxies[j], r.proxies[j]) && a.proxies[j] == r.proxies[j]
            else r == db && a == db
  {
    hide Choose;
  }

  predicate Follows(p: Proxy, canonical: nat) {
    p.duplicateOf == Some(canonical) && p.status == Online && p.archivedAt.None?
  }

  /** Row `c` takes the place of `canonical` and starts over; both forfeit what they had pending. */
  ghost predicate TakesOver(db: Db, after: Db, canonical: nat, c: nat, now: int) {
    var ps := db.proxies;
    && |after.proxies| == |ps| && |after.ledger| == |db.ledger| && c < |ps|
    && after.proxies[c] == ps[c].(duplicateOf := None, probation := now, cursor := now)
    && (forall j: nat :: j < |ps| && j != c ==>
          after.proxies[j] == if j == canonical || ps[j].duplicateOf == Some(canonical) then ps[j].(duplicateOf := Some(c)) else ps[j])
    && forall k :: 0 <= k < |db.ledger| ==>
         after.ledger[k] == if db.ledger[k].bucket == PendingMoney && (db.ledger[k].proxy == canonical || db.ledger[k].proxy == c)
                            then db.ledger[k].(bucket := Expired) else db.ledger[k]
  }

  lemma TakesOverExactly(db: Db, canonical: nat, c: nat, now: int)
    requires c < |db.proxies|
    ensures TakesOver(db, PromoteTo(db, canonical, c, now), canonical, c, now)
  {}

  /** A row offline for a day, or archived after being offline, gives way to its online duplicate created
      first; the row and all its other duplicates then duplicate that one. */
  lemma PromotedExactly(db: Db, canonical: nat, now: int)
    requires canonical < |db.proxies|
    ensures var p, ps, after := db.proxies[canonical], db.proxies, PromoteDuplicate(db, canonical, now);
            var due := p.offlineSince.Some? && (p.status == Archived || (p.status == Offline && now - p.offlineSince.value >= ONE_DAY));
            if due && exists j: nat :: j < |ps| && Follows(ps[j], canonical)
            then exists c: nat ::
                   && c < |ps| && Follows(ps[c], canonical) && TakesOver(db, after, canonical, c, now)
                   && (forall j: nat :: j < |ps| && j != c && Follows(ps[j], canonical) ==> CreatedBefore(ps, c, j))
            else after == db
  {
    var ps := db.proxies;
    var first := FirstOnlineDuplicate(ps, canonical, |ps|);
    assert forall j: nat :: j < |ps| ==> IsOnlineDuplicate(ps[j], canonical) == Follows(ps[j], canonical);
    hide FirstOnlineDuplicate, IsOnlineDuplicate, Follows, PromoteTo, TakesOver;
    if PromotionDue(ps[canonical], now) && first.Some? {
      var c := first.value;
      TakesOverExactly(db, canonical, c, now);
      forall j: nat | j < |ps| && j != c && Follows(ps[j], canonical)
        ensures CreatedBefore(ps, c, j)
      {
        assert Precedes(ps, c, j, false);
      }
    }
  }

  predicate CreatedBefore(ps: seq<Proxy>, a: nat, b: nat)
    requires a < |ps| && b < |ps|
  {
    ps[a].createdAt < ps[b].createdAt || (ps[a].createdAt == ps[b].createdAt && a < b)
  }

  /** Exactly the active rows dead for a day are archived. */
  lemma BuriedExactly(db: Db, now: int, j: nat)
    requires j < |db.proxies|
    ensures var p, after := db.proxies[j], ArchiveDead(db, now);
            && after == db.(proxies := after.proxies) && |after.proxies| == |db.proxies|
            && after.proxies[j] == if p.archivedAt.None? && p.status == Offline && p.deadSince.Some? && now - p.deadSince.value >= ONE_DAY
                                   then p.(status := Archived, archivedAt := Some(now)) else p
  {}
}
