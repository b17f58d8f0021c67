/** The earning tables updated in place, transaction by transaction, as the services do it.

    Each method is proved to have the effect its counterpart in EarningModel describes. */
module EarningStore {
  import opened Wrappers
  import opened Intervals
  import opened EarningModel
  import opened Projection
  import opened Balances

  class Store {
    const cfg: Config
    var users: seq<User>
    var proxies: seq<Proxy>
    var ledger: seq<Entry>
    var nextToken: nat
    ghost var clock: int
    ghost var history: set<Success>

    ghost function Contents(): Db
      reads this
    {
      Db(cfg, users, proxies, ledger, clock, nextToken, history)
    }

    constructor (cfg: Config)
      ensures Contents() == Init(cfg)
    {
      this.cfg := cfg;
      users, proxies, ledger, nextToken := [], [], [], 0;
      clock, history := 0, {};
    }

    // ----- Ledger -----

    method AddLedgerEntry(p: Proxy, i: nat, startedAt: int, endedAt: int, bucket: Bucket)
      modifies this`ledger
      ensures Contents() == old(Contents()).(ledger := AddEntry(old(ledger), EntryFor(p, i, startedAt, endedAt, bucket)))
    {
      var duration := if endedAt <= startedAt then 0 else endedAt - startedAt;
      if duration == 0 { return; }
      var e := Entry(p.userId, i, startedAt, endedAt, RateFor(p.eligibility, p.country) * duration / MONTH_SECONDS, bucket, p.exitIp);
      var k := 0;
      while k < |ledger|
        invariant 0 <= k <= |ledger|
        invariant forall j :: 0 <= j < k ==> !SameKey(ledger[j], e)
      {
        if SameKey(ledger[k], e) { return; }
        k := k + 1;
      }
      ledger := ledger + [e];
    }

    method ExpirePendingCycle(i: nat)
      modifies this`ledger
      ensures Contents() == EarningModel.ExpirePendingCycle(old(Contents()), i)
    {
      ledger := ExpireAll(ledger, {i});
    }

    method ResetProbation(i: nat, at: int)
      requires i < |proxies|
      modifies this`ledger, this`proxies
      ensures Contents() == EarningModel.ResetProbation(old(Contents()), i, at)
    {
      ExpirePendingCycle(i);
      proxies := proxies[i := proxies[i].(probation := at, cursor := at)];
    }

    /** The body of the accrual loop for one selected row. */
    method AccrueOne(i: nat, suspectToo: bool, now: int)
      requires i < |proxies|
      modifies this`ledger, this`proxies
      ensures Contents() == AccrueRow(old(Contents()), i, suspectToo, now) && |proxies| == |old(proxies)|
    {
      var row := proxies[i];
      if !(Accruable(row) && row.userId < |users| && (row.status.Online? || (suspectToo && row.status.Suspect?))) { return; }
      var cursor := row.cursor;
      if row.lastSuccess.None? { return; }
      var end := Min(now, row.lastSuccess.value + cfg.stale);
      if end <= cursor { return; }
      if !users[row.userId].active || users[row.userId].paused {
        proxies := proxies[i := row.(cursor := end)];
        return;
      }
      var unlockAt := row.probation + PROBATION_SECONDS;
      if end >= unlockAt {
        ledger := Unlock(ledger, i, row.probation);
        if cursor < unlockAt {
          AddLedgerEntry(row, i, cursor, unlockAt, Available);
          AddLedgerEntry(row, i, unlockAt, end, Available);
        } else {
          AddLedgerEntry(row, i, cursor, end, Available);
        }
      } else {
        AddLedgerEntry(row, i, cursor, end, if end <= unlockAt then PendingMoney else Available);
      }
      proxies := proxies[i := row.(cursor := end)];
    }

    /** `accrue_eligible_time`. */
    method AccrueEligibleTime(now: int)
      modifies this`ledger, this`proxies
      ensures Contents() == AccrueFirst(old(Contents()), |old(proxies)|, now)
    {
      hide AccrueRow;
      var n := 0;
      while n < |proxies|
        invariant 0 <= n <= |proxies| == |old(proxies)|
        invariant Contents() == AccrueFirst(old(Contents()), n, now)
      {
        AccrueOne(n, false, now);
        n := n + 1;
      }
    }

    method BalanceOf(user: nat, bucket: Bucket) returns (total: int)
      ensures total == Balance(ledger, user, bucket)
    {
      total := 0;
      var k := 0;
      while k < |ledger|
        invariant 0 <= k <= |ledger|
        invariant total == Balance(ledger[..k], user, bucket)
      {
        assert ledger[..k + 1][..k] == ledger[..k];
        if ledger[k].user == user && ledger[k].bucket == bucket {
          total := total + ledger[k].micro;
        }
        k := k + 1;
      }
      assert ledger[..k] == ledger;
    }

    /** `earning_online_seconds_for_proxies` for one row: collect, sort, merge, sum, add the tail. */
    method EarningOnlineSeconds(i: nat, now: int) returns (total: int)
      requires i < |proxies|
      ensures total == Projected(Contents(), i, now)
    {
      hide Covered, TotalLength, IsSorted;
      var row := proxies[i];
      var intervals := [];
      var k := 0;
      while k < |ledger|
        invariant 0 <= k <= |ledger|
        invariant intervals == CreditedIntervals(ledger[..k], i, row.credentialStart, now)
      {
        assert ledger[..k + 1][..k] == ledger[..k];
        var e := ledger[k];
        if Counts(e, i, row.credentialStart) {
          var start, end := Min(now, e.start), Min(now, e.end);
          if start < end {
            intervals := intervals + [Interval(start, end)];
          }
        }
        k := k + 1;
      }
      assert ledger[..k] == ledger;
      var ledgerEnd: Option<int>;
      total, ledgerEnd := MergedTotal(intervals);
      if !(Earning(row.eligibility) && row.duplicateOf.None? && Trusted(row)) { return 0; }
      if !Reachable(row) || row.lastSuccess.None? || row.onlineSince.None? { return; }
      var currentEnd := Min(now, row.lastSuccess.value + cfg.stale);
      var currentStart := TailStart(row, ledgerEnd);
      if currentEnd > currentStart {
        total := total + (currentEnd - currentStart);
      }
    }

    // ----- Egress identity -----

    /** `_canonicalize_exit_group`: choose, expire the losers one by one, repoint the group. */
    method CanonicalizeExitGroup(ip: Ip, preferVerified: bool, exclude: Option<nat>, now: int)
      modifies this`ledger, this`proxies
      ensures Contents() == Canonicalize(old(Contents()), ip, preferVerified, exclude, now)
    {
      hide Best, Precedes, LongOffline, Losers, ExpireAll;
      var byVerified := preferVerified && AllVerified(proxies, ip, exclude);
      var canonical := ChooseFrom(ip, exclude, true, byVerified, now);
      if canonical.None? {
        canonical := ChooseFrom(ip, exclude, false, byVerified, now);
      }
      if canonical.None? { return; }
      ExpireLosers(ip, exclude, canonical.value);
      var j := 0;
      while j < |proxies|
        invariant 0 <= j <= |proxies| == |old(proxies)|
        invariant forall m :: 0 <= m < j ==> proxies[m] == Repointed(old(proxies), m, ip, exclude, canonical.value)
        invariant forall m :: j <= m < |proxies| ==> proxies[m] == old(proxies[m])
        invariant Contents() == old(Contents()).(proxies := proxies, ledger := ExpireAll(old(ledger), Losers(old(proxies), ip, exclude, canonical.value)))
      {
        proxies := proxies[j := Repointed(proxies, j, ip, exclude, canonical.value)];
        j := j + 1;
      }
      assert proxies == Repoint(old(proxies), ip, exclude, canonical.value);
    }

    /** `min(candidates, key=key)`. */
    method ChooseFrom(ip: Ip, exclude: Option<nat>, freshOnly: bool, byVerified: bool, now: int) returns (best: Option<nat>)
      ensures best == Best(proxies, |proxies|, ip, exclude, freshOnly, byVerified, now)
    {
      hide Precedes, LongOffline;
      best := None;
      var j := 0;
      while j < |proxies|
        invariant 0 <= j <= |proxies|
        invariant best == Best(proxies, j, ip, exclude, freshOnly, byVerified, now)
      {
        if Candidate(proxies, j, ip, exclude, freshOnly, now) && (best.None? || !Precedes(proxies, best.value, j, byVerified)) {
          best := Some(j);
        }
        j := j + 1;
      }
    }

    method ExpireLosers(ip: Ip, exclude: Option<nat>, canonical: nat)
      modifies this`ledger
      ensures Contents() == old(Contents()).(ledger := ExpireAll(old(ledger), Losers(proxies, ip, exclude, canonical)))
    {
      ghost var done: set<nat> := {};
      assert ledger == ExpireAll(ledger, {});
      var j := 0;
      while j < |proxies|
        invariant 0 <= j <= |proxies|
        invariant done == set m: nat | m < j && Member(proxies, m, ip, exclude) && m != canonical
        invariant ledger == ExpireAll(old(ledger), done)
      {
        if Member(proxies, j, ip, exclude) && j != canonical {
          ExpirePendingCycle(j);
          assert ExpireAll(ExpireAll(old(ledger), done), {j}) == ExpireAll(old(ledger), done + {j});
          done := done + {j};
        }
        j := j + 1;
      }
      assert done == Losers(proxies, ip, exclude, canonical);
    }

    method ReconcileExitIp(i: nat, ip: Ip, source: Attestation, now: int)
      requires i < |proxies|
      modifies this`ledger, this`proxies
      ensures Contents() == EarningModel.ReconcileExitIp(old(Contents()), i, ip, source, now)
    {
      var previous := proxies[i];
      if !Active(previous) || source == Unattested { return; }
      var moved := previous.exitIp.Some? && previous.exitIp.value != ip;
      proxies := proxies[i := previous.(
        exitIp := Some(ip),
        country := if moved then "" else previous.country,
        verifiedAt := if moved && previous.verifiedAt.Some? then Some(now)
                      else if previous.verifiedAt.Some? then previous.verifiedAt else Some(now),
        attestation := source)];
      CanonicalizeExitGroup(ip, previous.verifiedAt.Some?, None, now);
      if moved {
        CanonicalizeExitGroup(previous.exitIp.value, false, None, now);
      }
    }

    // ----- Results -----

    /** The live branch: accrue, reset, then write the row back from the snapshot read first. */
    method ApplyLiveResult(i: nat, o: HealthOutcome, now: int)
      requires i < |proxies| && o.Live?
      modifies this`ledger, this`proxies, this`history
      ensures Contents() == ApplyLive(old(Contents()), i, o, now)
    {
      hide EarningModel.ReconcileExitIp, AccrueRow, LiveRow;
      var row := proxies[i];
      var trustedExit := if o.egressTrusted then o.observed else None;
      var broken := CycleBroken(cfg, row, o, now);
      if broken && Earning(row.eligibility) {
        AccrueOne(i, true, now);
        AccrueKeepsOthers(old(Contents()), i, now);
      }
      if broken {
        ResetProbation(i, now);
      }
      var written := LiveColumns(row, o, now);
      proxies := proxies[i := written];
      history := history + {Success(i, row.generation, now)};
      ghost var before := old(Contents());
      ghost var credited := if broken && Earning(row.eligibility) then AccrueRow(before, i, true, now) else before;
      ghost var closed := if broken then EarningModel.ExpirePendingCycle(credited, i) else credited;
      assert proxies == closed.proxies[i := written];
      assert Contents() == SetRow(closed, i, written).(history := history);
      if trustedExit.Some? {
        ReconcileExitIp(i, trustedExit.value, HttpsQuorum, now);
      }
    }

    /** The columns of the live UPDATE, computed from the snapshot `row`. */
    method LiveColumns(row: Proxy, o: HealthOutcome, now: int) returns (q: Proxy)
      requires o.Live?
      ensures q == LiveRow(cfg, row, o, now)
    {
      var trustedExit := if o.egressTrusted then o.observed else None;
      var egressChanged := row.exitIp.Some? && trustedExit.Some? && row.exitIp != trustedExit;
      var mismatch := !o.egressTrusted && row.exitIp.Some? && o.observed.Some? && o.observed != row.exitIp;
      var missing := row.exitIp.None? && trustedExit.None?;
      var recovered := row.status.Offline? || row.status.Blocked?;
      var unobserved := Reachable(row) && row.onlineSince.Some? && row.lastSuccess.None?;
      var staleRecovery := Reachable(row) && row.lastSuccess.Some? && now > row.lastSuccess.value + cfg.stale;
      var accOffline := row.accOffline;
      if recovered && row.offlineSince.Some? {
        accOffline := accOffline + Max(0, now - row.offlineSince.value);
      }
      var accOnline := row.accOnline;
      if staleRecovery && row.onlineSince.Some? && row.lastSuccess.Some? {
        var observedUntil := Min(now, row.lastSuccess.value + cfg.stale);
        accOnline := accOnline + Max(0, observedUntil - row.onlineSince.value);
      }
      var dropClaim := egressChanged || mismatch || staleRecovery || unobserved;
      var reset := recovered || dropClaim;
      q := row.(
        status := Online, failures := 0, offlineSince := None, deadSince := None,
        onlineSince := if staleRecovery || unobserved || row.onlineSince.None? then Some(now) else row.onlineSince,
        accOnline := accOnline, accOffline := accOffline,
        verifiedAt := if trustedExit.Some? && (row.verifiedAt.None? || egressChanged) then Some(now) else row.verifiedAt,
        eligibility := if egressChanged || mismatch || missing then Unclassified else row.eligibility,
        earnappNext := if egressChanged || mismatch || missing then Some(now) else row.earnappNext,
        earnappToken := if dropClaim then None else row.earnappToken,
        earnappUntil := if dropClaim then None else row.earnappUntil,
        probation := if reset then now else row.probation,
        cursor := if reset then now else row.cursor,
        lastSuccess := Some(now),
        nextCheck := now + cfg.healthInterval, checkToken := None, checkUntil := None);
    }

    lemma AccrueKeepsOthers(db: Db, i: nat, now: int)
      requires i < |db.proxies|
      ensures var d := AccrueRow(db, i, true, now);
              |d.proxies| == |db.proxies| && d == db.(proxies := d.proxies, ledger := d.ledger)
              && d.proxies == db.proxies[i := d.proxies[i]]
    {}

    /** `_apply_health_result_locked`; results for other credentials or a lost claim are ignored. */
    method ApplyHealthResult(i: nat, generation: nat, token: nat, o: HealthOutcome, now: int)
      modifies this`ledger, this`proxies, this`history
      ensures Contents() == ApplyHealth(old(Contents()), i, generation, token, o, now)
    {
      hide AccrueRow, ApplyLive;
      if i >= |proxies| { return; }
      var row := proxies[i];
      if !Active(row) || row.generation != generation || row.checkToken != Some(token) { return; }
      AccrueKeepsOthers(old(Contents()), i, now);
      match o
      case Live(_, _) => ApplyLiveResult(i, o, now);
      case Inconclusive =>
        proxies := proxies[i := row.(nextCheck := now + cfg.retryFirst, checkToken := None, checkUntil := None)];
      case ConfirmEgress =>
        proxies := proxies[i := row.(nextCheck := now, checkToken := None, checkUntil := None)];
      case ProviderBlocked =>
        if Earning(row.eligibility) {
          AccrueOne(i, true, now);
        }
        ResetProbation(i, now);
        proxies := proxies[i := BlockedRow(cfg, row, now)];
      case Dead =>
        var failures := row.failures + 1;
        var offline := failures >= 3;
        if offline && Earning(row.eligibility) && Reachable(row) {
          AccrueOne(i, true, now);
        }
        proxies := proxies[i := FailureRow(cfg, row, now)];
        if offline {
          ResetProbation(i, now);
        }
    }

    /** `_apply_earnapp_result_locked`. */
    method ApplyEarnappResult(i: nat, generation: nat, token: nat, r: EarnappReport, now: int)
      modifies this`ledger, this`proxies
      ensures Contents() == ApplyEarnapp(old(Contents()), i, generation, token, r, now)
    {
      hide AccrueRow, EarningModel.ReconcileExitIp;
      if i >= |proxies| { return; }
      var previous := proxies[i];
      if !Active(previous) || previous.generation != generation || previous.earnappToken != Some(token) { return; }
      AccrueKeepsOthers(old(Contents()), i, now);
      var eligibility := Classify(previous, r);
      var authenticated := if r.trusted == Some(true) then r.exitIp else None;
      var egressChanged := authenticated.Some? && previous.exitIp.Some? && authenticated != previous.exitIp;
      var changed := previous.eligibility != eligibility;
      if changed && Earning(previous.eligibility) {
        AccrueOne(i, true, now);
      }
      if changed || egressChanged {
        ResetProbation(i, now);
      }
      if authenticated.Some? {
        ReconcileLength(Contents(), i, authenticated.value, EarnappTls, now);
        ReconcileExitIp(i, authenticated.value, EarnappTls, now);
      }
      proxies := proxies[i := EarnappRow(cfg, proxies[i], previous, r, now)];
    }

    lemma ReconcileLength(db: Db, i: nat, ip: Ip, source: Attestation, now: int)
      requires i < |db.proxies|
      ensures |EarningModel.ReconcileExitIp(db, i, ip, source, now).proxies| == |db.proxies|
    {}

    // ----- Lifecycle -----

    method AddProxy(user: nat, now: int) returns (id: Option<nat>)
      modifies this`proxies
      ensures Contents() == EarningModel.AddProxy(old(Contents()), user, now)
      ensures id.Some? <==> user < |users|
      ensures id.Some? ==> id.value == |old(proxies)| && proxies[id.value].userId == user
    {
      if user >= |users| { return None; }
      id := Some(|proxies|);
      proxies := proxies + [NewRow(user, now)];
    }

    method LeaveGroup(i: nat, now: int)
      requires i < |proxies|
      modifies this`ledger, this`proxies
      ensures Contents() == EarningModel.LeaveGroup(old(Contents()), i, now)
    {
      var previous := proxies[i].exitIp;
      if previous.Some? {
        CanonicalizeExitGroup(previous.value, false, Some(i), now);
      }
      ExpirePendingCycle(i);
    }

    method ReplaceProxy(i: nat, user: nat, now: int) returns (found: bool)
      modifies this`ledger, this`proxies
      ensures Contents() == EarningModel.ReplaceProxy(old(Contents()), i, user, now)
      ensures found <==> Owned(old(Contents()), i, user)
    {
      found := i < |proxies| && Active(proxies[i]) && proxies[i].userId == user;
      if found {
        var row := proxies[i];
        LeaveGroup(i, now);
        proxies := proxies[i := NewRow(row.userId, now).(generation := row.generation + 1, createdAt := row.createdAt)];
      }
    }

    method ArchiveProxy(i: nat, user: nat, now: int) returns (found: bool)
      modifies this`ledger, this`proxies
      ensures Contents() == EarningModel.ArchiveProxy(old(Contents()), i, user, now)
      ensures found <==> Owned(old(Contents()), i, user)
    {
      found := i < |proxies| && Active(proxies[i]) && proxies[i].userId == user;
      if found {
        var row := proxies[i];
        LeaveGroup(i, now);
        proxies := proxies[i := row.(archivedAt := Some(now), status := Archived)];
      }
    }

    method PromoteDuplicateIfDue(canonical: nat, now: int) returns (promoted: Option<nat>)
      modifies this`ledger, this`proxies
      ensures Contents() == PromoteDuplicate(old(Contents()), canonical, now)
      ensures |proxies| == |old(proxies)|
    {
      if canonical >= |proxies| || !PromotionDue(proxies[canonical], now) { return None; }
      promoted := None;
      var j := 0;
      while j < |proxies|
        invariant 0 <= j <= |proxies|
        invariant promoted == FirstOnlineDuplicate(proxies, canonical, j)
      {
        if IsOnlineDuplicate(proxies[j], canonical) && (promoted.None? || !Precedes(proxies, promoted.value, j, false)) {
          promoted := Some(j);
        }
        j := j + 1;
      }
      if promoted.None? { return; }
      ExpirePendingCycle(canonical);
      proxies := PromoteRows(proxies, canonical, promoted.value);
      ResetProbation(promoted.value, now);
    }

    /** `archive_due_dead_proxies`; returns how many rows it archived. */
    method ArchiveDueDeadProxies(now: int) returns (archived: nat)
      modifies this`ledger, this`proxies
      ensures Contents() == ArchiveDueDead(old(Contents()), now)
    {
      var candidates := proxies;
      var n := 0;
      while n < |candidates|
        invariant 0 <= n <= |candidates| == |proxies|
        invariant candidates == old(proxies)
        invariant Contents() == PromoteDead(old(Contents()), candidates, n, now)
      {
        if DeadForADay(candidates[n], now) {
          var _ := PromoteDuplicateIfDue(n, now);
        }
        n := n + 1;
      }
      archived := 0;
      ghost var rehomed := Contents();
      var j := 0;
      while j < |proxies|
        invariant 0 <= j <= |proxies| == |rehomed.proxies|
        invariant forall m :: 0 <= m < j ==> proxies[m] == Buried(rehomed.proxies[m], now)
        invariant forall m :: j <= m < |proxies| ==> proxies[m] == rehomed.proxies[m]
        invariant Contents() == rehomed.(proxies := proxies)
      {
        if DeadForADay(proxies[j], now) {
          proxies := proxies[j := proxies[j].(status := Archived, archivedAt := Some(now))];
          archived := archived + 1;
        }
        j := j + 1;
      }
      assert proxies == ArchiveDead(rehomed, now).proxies;
    }

    // ----- Claims -----

    /** Hands out one fresh token for the due rows among `ids`, and returns the claimed ones. */
    method ClaimDueProxies(ids: set<nat>, now: int) returns (claimed: set<nat>)
      modifies this`proxies, this`nextToken
      ensures Contents() == ClaimHealth(old(Contents()), ids, now)
      ensures claimed == set j: nat | j < |old(proxies)| && j in ids && HealthDue(old(proxies)[j], users, now)
    {
      claimed := {};
      var j := 0;
      while j < |proxies|
        invariant 0 <= j <= |proxies| == |old(proxies)|
        invariant Contents() == old(Contents()).(proxies := proxies)
        invariant forall m :: 0 <= m < j ==> proxies[m] == HealthClaimed(old(Contents()), m, ids, now)
        invariant forall m :: j <= m < |proxies| ==> proxies[m] == old(proxies)[m]
        invariant claimed == set m: nat | m < j && m in ids && HealthDue(old(proxies)[m], users, now)
      {
        if j in ids && HealthDue(proxies[j], users, now) {
          proxies := proxies[j := proxies[j].(nextCheck := now + cfg.healthInterval, checkUntil := Some(now + CLAIM_SECONDS), checkToken := Some(nextToken))];
          claimed := claimed + {j};
        }
        j := j + 1;
      }
      nextToken := nextToken + 1;
      assert proxies == ClaimHealth(old(Contents()), ids, now).proxies;
    }

    method ClaimDueEarnapp(ids: set<nat>, now: int) returns (claimed: set<nat>)
      modifies this`proxies, this`nextToken
      ensures Contents() == ClaimEarnapp(old(Contents()), ids, now)
      ensures claimed == set j: nat | j < |old(proxies)| && j in ids && EarnappDue(old(proxies)[j], users, now)
    {
      claimed := {};
      var j := 0;
      while j < |proxies|
        invariant 0 <= j <= |proxies| == |old(proxies)|
        invariant Contents() == old(Contents()).(proxies := proxies)
        invariant forall m :: 0 <= m < j ==> proxies[m] == EarnappClaimed(old(Contents()), m, ids, now)
        invariant forall m :: j <= m < |proxies| ==> proxies[m] == old(proxies)[m]
        invariant claimed == set m: nat | m < j && m in ids && EarnappDue(old(proxies)[m], users, now)
      {
        if j in ids && EarnappDue(proxies[j], users, now) {
          proxies := proxies[j := proxies[j].(earnappUntil := Some(now + CLAIM_SECONDS), earnappToken := Some(nextToken))];
          claimed := claimed + {j};
        }
        j := j + 1;
      }
      nextToken := nextToken + 1;
      assert proxies == ClaimEarnapp(old(Contents()), ids, now).proxies;
    }
  }

  /** `sorted`, merged and summed; also the end of the last merged interval. */
  method MergedTotal(intervals: seq<Interval>) returns (total: int, last: Option<int>)
    requires NonEmpty(intervals)
    ensures total == |Covered(intervals)| && last == LatestEnd(intervals)
  {
    hide Covered, TotalLength, LatestEnd, IsSorted;
    SortSorted(intervals);
    SortCovers(intervals);
    SortKeepsEnds(intervals);
    var merged := Merge(Sort(intervals));
    total := 0;
    var k := 0;
    EmptySums();
    assert merged[..0] == [];
    while k < |merged|
      invariant 0 <= k <= |merged|
      invariant total == TotalLength(merged[..k])
    {
      TotalNext(merged, k);
      total := total + (merged[k].end - merged[k].start);
      k := k + 1;
    }
    assert merged[..k] == merged;
    if merged == [] {
      last := None;
      assert Sort(intervals) == [];
    } else {
      last := Some(merged[|merged| - 1].end);
      assert EndsAt(intervals, last.value) && EndsAtMost(intervals, last.value);
      LatestEndIs(intervals, last.value);
    }
  }

  lemma EmptySums()
    ensures LatestEnd([]) == None && TotalLength([]) == 0
  {}

  lemma TotalNext(s: seq<Interval>, k: nat)
    requires k < |s|
    ensures TotalLength(s[..k + 1]) == TotalLength(s[..k]) + s[k].end - s[k].start
  {
    assert s[..k + 1][..k] == s[..k];
  }

  /** Sorting keeps the intervals, so it keeps their ends. */
  lemma SortKeepsEnds(s: seq<Interval>)
    requires NonEmpty(s)
    ensures NonEmpty(Sort(s)) && (Sort(s) == [] <==> s == [])
    ensures forall end :: EndsAt(Sort(s), end) ==> EndsAt(s, end)
    ensures forall end :: EndsAtMost(Sort(s), end) ==> EndsAtMost(s, end)
  {
    var r := Sort(s);
    SortContents(s);
    forall k | 0 <= k < |r|
      ensures r[k] in s
    {
      assert r[k] in multiset(r);
    }
    forall k | 0 <= k < |s|
      ensures s[k] in r
    {
      assert s[k] in multiset(s);
    }
    assert |r| == |multiset(r)| && |s| == |multiset(s)|;
  }
}
