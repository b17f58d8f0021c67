/** The payout tables updated in place, and the worker that verifies them.

    Each method is proved to have the effect its counterpart in PayoutModel describes. */
module PayoutStore {
  import opened Wrappers
  import EarningStore
  import E = EarningModel
  import R = Receipts
  import opened PayoutModel

  class Desk {
    const earnings: EarningStore.Store
    const verifier: R.Verifier
    var wallets: map<nat, Wallet>
    var payouts: seq<Payout>
    var sessions: seq<Session>
    var nextToken: nat

    ghost function Contents(): Office
      reads this, earnings
    {
      Office(earnings.Contents(), verifier, wallets, payouts, sessions, nextToken)
    }

    constructor (earnings: EarningStore.Store, verifier: R.Verifier)
      ensures Contents() == Office(earnings.Contents(), verifier, map[], [], [], 0)
    {
      this.earnings, this.verifier := earnings, verifier;
      wallets, payouts, sessions, nextToken := map[], [], [], 0;
    }

    method CountOutstanding(user: nat) returns (count: nat)
      ensures count == OutstandingCount(payouts, user)
    {
      count := 0;
      var k := 0;
      while k < |payouts|
        invariant 0 <= k <= |payouts|
        invariant count == OutstandingCount(payouts[..k], user)
      {
        assert payouts[..k + 1][..k] == payouts[..k];
        if Outstanding(payouts[k], user) {
          count := count + 1;
        }
        k := k + 1;
      }
      assert payouts[..k] == payouts;
    }

    method SumReserved(user: nat, skip: Option<nat>) returns (total: int)
      ensures total == Reserved(payouts, user, skip)
    {
      total := 0;
      var k := 0;
      while k < |payouts|
        invariant 0 <= k <= |payouts|
        invariant total == Reserved(payouts[..k], user, skip)
      {
        assert payouts[..k + 1][..k] == payouts[..k];
        if Reserves(payouts[k], user) && skip != Some(k) {
          total := total + payouts[k].quote.amount;
        }
        k := k + 1;
      }
      assert payouts[..k] == payouts;
    }

    method RequestPayout(user: nat, amount: int, limit: Option<int>, now: int) returns (r: Result<nat, Refusal>)
      requires now == earnings.clock
      modifies this`payouts
      ensures Contents() == Request(old(Contents()), user, amount, limit)
      ensures match RequestRefusal(old(Contents()), user, amount, limit)
              case Some(e) => r == Err(e)
              case None => r == Ok(|old(payouts)|)
    {
      if amount < MIN_PAYOUT { return Err(TooSmall); }
      if amount > MAX_PAYOUT { return Err(TooLarge); }
      var bps := if amount >= FEE_THRESHOLD then HIGH_TIER_BPS else LOW_TIER_BPS;
      var fee := amount * bps / 10_000;
      if user !in wallets { return Err(NoWallet); }
      if wallets[user].lockedUntil > now { return Err(WalletLocked); }
      var outstanding := CountOutstanding(user);
      if outstanding >= OutstandingLimit(limit) { return Err(TooManyOutstanding); }
      var available := earnings.BalanceOf(user, E.Available);
      var reserved := SumReserved(user, None);
      if amount > available - reserved { return Err(ExceedsBalance); }
      payouts := payouts + [NewPayout(user, wallets[user].address, Quote(amount, bps, fee, amount - fee), now)];
      return Ok(|payouts| - 1);
    }

    method ApprovePayout(i: nat) returns (refused: Option<Refusal>)
      modifies this`payouts
      ensures Contents() == Approve(old(Contents()), i)
      ensures refused == if i < |old(payouts)| && old(payouts)[i].status.Requested? then None else Some(NotFound)
    {
      if i >= |payouts| || !payouts[i].status.Requested? { return Some(NotFound); }
      payouts := payouts[i := payouts[i].(status := Approved)];
      return None;
    }

    method SubmitTransaction(i: nat, text: string, now: int) returns (refused: Option<Refusal>)
      requires now == earnings.clock
      modifies this`payouts
      ensures Contents() == Submit(old(Contents()), i, text)
      ensures refused == SubmitRefusal(old(Contents()), i, text)
    {
      var hash := R.Normalize(text, R.HASH_DIGITS);
      if hash.None? { return Some(BadHash); }
      if i >= |payouts| { return Some(NotFound); }
      var p := payouts[i];
      if p.status.Failed? {
        var available := earnings.BalanceOf(p.user, E.Available);
        var reserved := SumReserved(p.user, Some(i));
        if p.quote.amount > available - reserved { return Some(RetryExceedsBalance); }
      }
      var taken := FindHash(i, hash.value);
      if taken { return Some(HashTaken); }
      if !(p.status.Approved? || p.status.Failed? || p.status.Verifying?) { return Some(NotFound); }
      payouts := payouts[i := p.(status := Verifying, txHash := hash.value, attempts := 0, nextAt := Some(now), verifiedAt := None,
                                 confirmations := 0, block := None, claimedUntil := None, token := None)];
      return None;
    }

    method FindHash(i: nat, hash: string) returns (taken: bool)
      ensures taken <==> HashTakenBy(payouts, i, hash)
    {
      var k := 0;
      while k < |payouts|
        invariant 0 <= k <= |payouts|
        invariant forall j :: 0 <= j < k && j != i ==> R.Lower(payouts[j].txHash) != hash
      {
        if k != i && R.Lower(payouts[k].txHash) == hash { return true; }
        k := k + 1;
      }
      return false;
    }

    method FindDue(now: int) returns (best: Option<nat>)
      ensures best == FirstDue(payouts, |payouts|, now)
    {
      best := None;
      var k := 0;
      while k < |payouts|
        invariant 0 <= k <= |payouts|
        invariant best == FirstDue(payouts, k, now)
      {
        if Due(payouts[k], now) && (best.None? || DueKey(payouts[k]) < DueKey(payouts[best.value])) {
          best := Some(k);
        }
        k := k + 1;
      }
    }

    /** The transaction of `_claim_one`; the session it opens has read nothing back yet. */
    method ClaimDue(now: int) returns (session: Option<nat>)
      requires now == earnings.clock
      modifies this`payouts, this`sessions, this`nextToken
      ensures Contents() == ClaimOne(old(Contents()))
      ensures session == if FirstDue(old(payouts), |old(payouts)|, now).Some? then Some(|old(sessions)|) else None
    {
      hide FirstDue;
      var best := FindDue(now);
      if best.None? { return None; }
      var i := best.value;
      payouts := payouts[i := payouts[i].(claimedUntil := Some(now + CLAIM_SECONDS), token := Some(nextToken))];
      nextToken := nextToken + 1;
      sessions := sessions + [Session(i, None, None)];
      return Some(|sessions| - 1);
    }

    /** `run_batch` when nothing interrupts it. */
    method RunBatch(reply: R.Reply, now: int) returns (done: nat)
      requires now == earnings.clock
      modifies this`payouts, this`sessions, this`nextToken
      ensures var s := |old(sessions)|;
              if FirstDue(old(payouts), |old(payouts)|, now).None? then done == 0 && Contents() == old(Contents())
              else done == 1 && Contents() == Apply(Hear(ReadBack(ClaimOne(old(Contents())), s), s, reply), s)
    {
      hide R.Judge, FirstDue, Apply;
      var session := ClaimDue(now);
      if session.None? { return 0; }
      var s := session.value;
      var row := payouts[sessions[s].payout];
      sessions := sessions[s := sessions[s].(read := Some(Snapshot(row.token, ClaimOf(row))))];
      var result := R.VerifyPayout(ClaimOf(row), verifier, reply);
      sessions := sessions[s := sessions[s].(reply := Some(reply))];
      var _ := ApplyVerification(s, result, now);
      return 1;
    }

    method ApplyVerification(s: nat, result: R.Judgement, now: int) returns (applied: bool)
      requires now == earnings.clock && s < |sessions| && sessions[s].read.Some? && sessions[s].reply.Some?
      requires result == Outcome(Contents(), sessions[s])
      modifies this`payouts
      ensures applied <==> Holds(old(Contents()), s)
      ensures Contents() == Apply(old(Contents()), s)
    {
      hide R.Judge;
      var i, token := sessions[s].payout, sessions[s].read.value.token;
      if i >= |payouts| || !payouts[i].status.Verifying? || token.None? || payouts[i].token != token { return false; }
      var status := if result.verdict.Pending? then Verifying else if result.verdict.Confirmed? then Confirmed else Failed;
      var nextAt := if result.verdict.Pending? then Some(now + RETRY_SECONDS) else None;
      var verifiedAt := if result.verdict.Pending? then None else Some(now);
      payouts := payouts[i := payouts[i].(status := status, attempts := payouts[i].attempts + 1, nextAt := nextAt, verifiedAt := verifiedAt,
                                          confirmations := result.confirmations, block := result.block,
                                          claimedUntil := None, token := None)];
      return true;
    }

    method ReleaseClaim(s: nat)
      modifies this`payouts
      ensures Contents() == Release(old(Contents()), s)
    {
      if s >= |sessions| || sessions[s].read.None? { return; }
      var i, token := sessions[s].payout, sessions[s].read.value.token;
      if i >= |payouts| || !payouts[i].status.Verifying? || token.None? || payouts[i].token != token { return; }
      payouts := payouts[i := payouts[i].(claimedUntil := None, token := None)];
    }
  }
}
