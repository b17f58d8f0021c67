/** What every write keeps true of one proxy row.

    The branches of app/services/checks.py write the status, the two clocks, the
    probation start, the cursor and the accumulators in different combinations;
    `RowOk` is the joint invariant that makes the money and uptime properties hold. */
module RowInvariants {
  import opened Wrappers
  import opened EarningModel

  // ----- Recorded successes -----

  /** Some success of generation `g` was recorded at most `stale` seconds before `t`. */
  ghost predicate Witnessed(h: set<Success>, i: nat, g: nat, stale: int, t: int) {
    exists at :: Success(i, g, at) in h && at <= t <= at + stale
  }

  ghost predicate Continuous(h: set<Success>, i: nat, g: nat, stale: int, from: int, to: int) {
    forall t :: from <= t <= to ==> Witnessed(h, i, g, stale, t)
  }

  lemma ContinuousGrows(h: set<Success>, k: set<Success>, i: nat, g: nat, stale: int, from: int, to: int)
    requires h <= k && Continuous(h, i, g, stale, from, to)
    ensures Continuous(k, i, g, stale, from, to)
  {
    forall t | from <= t <= to
      ensures Witnessed(k, i, g, stale, t)
    {
      assert Witnessed(h, i, g, stale, t);
      var at :| Success(i, g, at) in h && at <= t <= at + stale;
      assert Success(i, g, at) in k;
    }
  }

  /** One success vouches for the stale limit after it. */
  lemma OneSuccess(h: set<Success>, i: nat, g: nat, stale: int, at: int, from: int)
    requires Success(i, g, at) in h && at <= from
    ensures Continuous(h, i, g, stale, from, at + stale)
  {
    forall t | from <= t <= at + stale
      ensures Witnessed(h, i, g, stale, t)
    {
      assert Success(i, g, at) in h;
    }
  }

  /** A success that arrives before the previous one goes stale extends the cycle. */
  lemma Extend(h: set<Success>, i: nat, g: nat, stale: int, from: int, previous: int, at: int)
    requires Continuous(h, i, g, stale, from, previous + stale)
    requires at <= previous + stale
    ensures Continuous(h + {Success(i, g, at)}, i, g, stale, from, at + stale)
  {
    var k := h + {Success(i, g, at)};
    ContinuousGrows(h, k, i, g, stale, from, previous + stale);
    forall t | from <= t <= at + stale
      ensures Witnessed(k, i, g, stale, t)
    {
      assert t <= previous + stale ==> Witnessed(k, i, g, stale, t);
      assert Success(i, g, at) in k;
    }
  }

  // ----- The row invariant -----

  ghost predicate ClocksOk(p: Proxy, clock: int) {
    && p.credentialStart <= p.probation <= p.cursor <= clock
    && (p.lastSuccess.Some? ==> p.lastSuccess.value <= clock)
    && (p.onlineSince.Some? ==> p.onlineSince.value <= clock)
    && (p.offlineSince.Some? ==> p.offlineSince.value <= clock)
  }

  /** Which columns may be set in which status. */
  ghost predicate ShapeOk(p: Proxy) {
    && (p.status.Archived? <==> p.archivedAt.Some?)
    && (p.status.Online? ==> p.onlineSince.Some? && p.lastSuccess.Some?)
    && (p.status.Suspect? ==> (p.onlineSince.Some? <==> p.lastSuccess.Some?))
    && (p.status.Pending? ==> p.onlineSince.None? && p.lastSuccess.None?)
    && (p.status.Pending? || Reachable(p) ==> p.offlineSince.None?)
    && (Down(p) ==> p.onlineSince.None? && p.offlineSince.Some?)
    && (p.status.Offline? ==> p.failures >= 3 && p.deadSince.Some?)
    && (p.deadSince.Some? && Active(p) ==> p.offlineSince.Some? && p.offlineSince.value <= p.deadSince.value)
    && (Active(p) && p.earnappToken.Some? ==> p.status.Online?)
    && (p.status.Pending? || (p.status.Suspect? && p.onlineSince.None?) ==> p.eligibility.Unclassified?)
  }

  /** The moment up to which online and offline time has been accumulated. */
  function Anchor(p: Proxy, clock: int): int {
    if Reachable(p) && p.onlineSince.Some? then p.onlineSince.value
    else if Down(p) && p.offlineSince.Some? then p.offlineSince.value
    else clock
  }

  ghost predicate UptimeOk(p: Proxy, clock: int) {
    && 0 <= p.accOnline && 0 <= p.accOffline
    && p.credentialStart + p.accOnline + p.accOffline <= Anchor(p, clock)
  }

  /** An earning row that is up has been seen without a gap since its probation began. */
  ghost predicate CycleOk(p: Proxy, i: nat, stale: int, h: set<Success>) {
    && (p.lastSuccess.Some? ==> Success(i, p.generation, p.lastSuccess.value) in h)
    && (Reachable(p) && Earning(p.eligibility) ==>
          && p.onlineSince.Some? && p.lastSuccess.Some?
          && p.onlineSince.value <= p.cursor
          && Continuous(h, i, p.generation, stale, p.probation, p.lastSuccess.value + stale))
  }

  ghost predicate RowOk(p: Proxy, i: nat, clock: int, stale: int, h: set<Success>) {
    ClocksOk(p, clock) && ShapeOk(p) && UptimeOk(p, clock) && CycleOk(p, i, stale, h)
  }

  /** Rows equal except in the columns reconciliation writes. */
  ghost predicate SameCore(p: Proxy, q: Proxy) {
    q == p.(exitIp := q.exitIp, attestation := q.attestation, country := q.country,
            verifiedAt := q.verifiedAt, duplicateOf := q.duplicateOf)
  }

  lemma CoreKeepsRow(p: Proxy, q: Proxy, i: nat, clock: int, stale: int, h: set<Success>)
    requires SameCore(p, q)
    ensures RowOk(p, i, clock, stale, h) <==> RowOk(q, i, clock, stale, h)
  {}

  lemma TimeKeepsRow(p: Proxy, i: nat, clock: int, later: int, stale: int, h: set<Success>, k: set<Success>)
    requires RowOk(p, i, clock, stale, h) && clock <= later && h <= k
    ensures RowOk(p, i, later, stale, k)
  {
    if Reachable(p) && Earning(p.eligibility) {
      ContinuousGrows(h, k, i, p.generation, stale, p.probation, p.lastSuccess.value + stale);
    }
  }

  // ----- The row writers keep it -----

  lemma NewRowOk(user: nat, i: nat, now: int, stale: int, h: set<Success>)
    ensures RowOk(NewRow(user, now), i, now, stale, h)
  {}

  lemma ReplacedRowOk(p: Proxy, i: nat, now: int, stale: int, h: set<Success>)
    ensures RowOk(ReplacedRow(p, now), i, now, stale, h)
  {}

  /** The `unobserved_recovery` branch never runs: an open online clock implies a recorded success. */
  lemma NoUnobservedRecovery(p: Proxy, i: nat, clock: int, stale: int, h: set<Success>)
    requires RowOk(p, i, clock, stale, h)
    ensures !UnobservedRecovery(p)
  {}

  lemma LiveRowOk(cfg: Config, p: Proxy, i: nat, o: HealthOutcome, now: int, h: set<Success>)
    requires o.Live? && ConfigOk(cfg) && Active(p) && RowOk(p, i, now, cfg.stale, h)
    ensures RowOk(LiveRow(cfg, p, o, now), i, now, cfg.stale, h + {Success(i, p.generation, now)})
  {
    var q, k := LiveRow(cfg, p, o, now), h + {Success(i, p.generation, now)};
    assert ClocksOk(q, now) && ShapeOk(q);
    assert UptimeOk(q, now);
    if Earning(q.eligibility) {
      if ContinuityReset(cfg, p, o, now) {
        OneSuccess(k, i, p.generation, cfg.stale, now, now);
      } else {
        Extend(h, i, p.generation, cfg.stale, p.probation, p.lastSuccess.value, now);
      }
    }
  }

  lemma BlockedRowOk(cfg: Config, p: Proxy, i: nat, now: int, h: set<Success>)
    requires ConfigOk(cfg) && Active(p) && RowOk(p, i, now, cfg.stale, h)
    ensures RowOk(BlockedRow(cfg, p, now), i, now, cfg.stale, h)
  {}

  lemma FailureRowOk(cfg: Config, p: Proxy, i: nat, now: int, h: set<Success>)
    requires ConfigOk(cfg) && Active(p) && RowOk(p, i, now, cfg.stale, h)
    ensures RowOk(FailureRow(cfg, p, now), i, now, cfg.stale, h)
  {}

  lemma EarnappRowOk(cfg: Config, q: Proxy, p: Proxy, i: nat, r: EarnappReport, now: int, h: set<Success>)
    requires ConfigOk(cfg) && Active(p) && p.earnappToken.Some?
    requires RowOk(p, i, now, cfg.stale, h) && RowOk(q, i, now, cfg.stale, h)
    requires q.status == p.status && q.archivedAt == p.archivedAt && q.eligibility == p.eligibility
    requires q.lastSuccess == p.lastSuccess && q.onlineSince == p.onlineSince && q.generation == p.generation
    ensures RowOk(EarnappRow(cfg, q, p, r, now), i, now, cfg.stale, h)
  {
    OneSuccess(h, i, p.generation, cfg.stale, p.lastSuccess.value, now);
  }

  lemma AccruedRowOk(cfg: Config, p: Proxy, i: nat, now: int, h: set<Success>)
    requires RowOk(p, i, now, cfg.stale, h) && p.lastSuccess.Some? && p.cursor < ValidatedEnd(cfg, p, now)
    ensures RowOk(p.(cursor := ValidatedEnd(cfg, p, now)), i, now, cfg.stale, h)
  {}

  /** Restarting the cycle of a row keeps it backed by its last success. */
  lemma ResetRowOk(p: Proxy, i: nat, now: int, stale: int, h: set<Success>)
    requires RowOk(p, i, now, stale, h)
    ensures RowOk(p.(probation := now, cursor := now), i, now, stale, h)
  {
    if p.lastSuccess.Some? {
      OneSuccess(h, i, p.generation, stale, p.lastSuccess.value, now);
    }
  }
}
