/** Payout requests, approvals and leased verification against the earnings ledger, each
    write transaction and each worker step as one function (app/services/payouts.py,
    payout_verification.py, app/payout_verifier_service.py). */
module PayoutModel {
  import opened Wrappers
  import E = EarningModel
  import R = Receipts
  import opened Balances

  const MIN_PAYOUT := 10_000_000
  const MAX_PAYOUT := 1_000_000_000_000_000
  const FEE_THRESHOLD := 50_000_000
  const LOW_TIER_BPS := 1_000
  const HIGH_TIER_BPS := 200
  const PROCESSING_SECONDS := 48 * 3600
  const CLAIM_SECONDS := 300
  const RETRY_SECONDS := 300

  datatype Status = Requested | Approved | Verifying | Confirmed | Failed

  datatype Wallet = Wallet(address: string, lockedUntil: int)

  datatype Quote = Quote(amount: int, feeBps: int, fee: int, net: int)

  datatype Payout = Payout(
    user: nat,
    address: string,
    quote: Quote,
    dueAt: int,
    createdAt: int,
    status: Status,
    txHash: string,
    attempts: nat,
    nextAt: Option<int>,
    claimedUntil: Option<int>,
    token: Option<nat>,
    verifiedAt: Option<int>,
    confirmations: nat,
    block: Option<nat>)

  /** What a worker read back after claiming; the token column may be NULL again by then. */
  datatype Snapshot = Snapshot(token: Option<nat>, claim: R.Claim)

  /** One pass of the worker: claim, read back, ask the chain, apply. */
  datatype Session = Session(payout: nat, read: Option<Snapshot>, reply: Option<R.Reply>)

  datatype Office = Office(
    books: E.Db,
    verifier: R.Verifier,
    wallets: map<nat, Wallet>,
    payouts: seq<Payout>,
    sessions: seq<Session>,
    nextToken: nat)

  datatype Refusal =
    | TooSmall | TooLarge | NoWallet | WalletLocked | TooManyOutstanding | ExceedsBalance
    | NotFound | BadHash | RetryExceedsBalance | HashTaken

  function Init(cfg: E.Config, verifier: R.Verifier): Office {
    Office(E.Init(cfg), verifier, map[], [], [], 0)
  }

  // ----- Quotes -----

  function FeeBps(amount: int): int {
    if amount >= FEE_THRESHOLD then HIGH_TIER_BPS else LOW_TIER_BPS
  }

  function QuoteFor(amount: int): Result<Quote, Refusal> {
    if amount < MIN_PAYOUT then Err(TooSmall)
    else if amount > MAX_PAYOUT then Err(TooLarge)
    else
      var fee := amount * FeeBps(amount) / 10_000;
      Ok(Quote(amount, FeeBps(amount), fee, amount - fee))
  }

  /** Every quote splits the amount exactly, keeps at most a tenth, and pays more for more. */
  lemma QuotesAreFair(a: int, b: int)
    requires QuoteFor(a).Ok? && QuoteFor(b).Ok? && a <= b
    ensures var p, q := QuoteFor(a).value, QuoteFor(b).value;
            && p.fee + p.net == a && 0 < p.fee && 10 * p.fee <= a
            && p.net <= q.net && (a < FEE_THRESHOLD <= b ==> p.net < q.net)
  {}

  function OutstandingLimit(value: Option<int>): nat {
    Max(1, Min(1_000, if value.Some? then value.value else 10))
  }

  // ----- Sums over the table -----

  predicate Reserves(p: Payout, user: nat) {
    p.user == user && !p.status.Failed?
  }

  predicate Outstanding(p: Payout, user: nat) {
    p.user == user && (p.status.Requested? || p.status.Approved? || p.status.Verifying?)
  }

  /** SUM of the reserved amounts of a user, leaving out row `skip`. */
  function Reserved(ps: seq<Payout>, user: nat, skip: Option<nat>): int {
    if ps == [] then 0
    else
      var last := |ps| - 1;
      Reserved(ps[..last], user, skip) + (if Reserves(ps[last], user) && skip != Some(last) then ps[last].quote.amount else 0)
  }

  function OutstandingCount(ps: seq<Payout>, user: nat): nat {
    if ps == [] then 0
    else OutstandingCount(ps[..|ps| - 1], user) + (if Outstanding(ps[|ps| - 1], user) then 1 else 0)
  }

  function AvailableTo(o: Office, user: nat): int {
    Balance(o.books.ledger, user, E.Available)
  }

  // ----- Requests and approvals -----

  function RequestRefusal(o: Office, user: nat, amount: int, limit: Option<int>): Option<Refusal> {
    if QuoteFor(amount).Err? then Some(QuoteFor(amount).error)
    else if user !in o.wallets then Some(NoWallet)
    else if o.wallets[user].lockedUntil > o.books.clock then Some(WalletLocked)
    else if OutstandingCount(o.payouts, user) >= OutstandingLimit(limit) then Some(TooManyOutstanding)
    else if amount > AvailableTo(o, user) - Reserved(o.payouts, user, None) then Some(ExceedsBalance)
    else None
  }

  function NewPayout(user: nat, address: string, quote: Quote, now: int): Payout {
    Payout(user, address, quote, now + PROCESSING_SECONDS, now, Requested, "", 0, None, None, None, None, 0, None)
  }

  function Request(o: Office, user: nat, amount: int, limit: Option<int>): Office {
    if RequestRefusal(o, user, amount, limit).Some? then o
    else o.(payouts := o.payouts + [NewPayout(user, o.wallets[user].address, QuoteFor(amount).value, o.books.clock)])
  }

  function SetPayout(o: Office, i: nat, p: Payout): Office
    requires i < |o.payouts|
  {
    o.(payouts := o.payouts[i := p])
  }

  function Approve(o: Office, i: nat): Office {
    if i < |o.payouts| && o.payouts[i].status.Requested? then SetPayout(o, i, o.payouts[i].(status := Approved)) else o
  }

  // ----- Submitting a transaction -----

  predicate HashTakenBy(ps: seq<Payout>, i: nat, hash: string) {
    exists j :: 0 <= j < |ps| && j != i && R.Lower(ps[j].txHash) == hash
  }

  function SubmitRefusal(o: Office, i: nat, text: string): Option<Refusal> {
    if R.Normalize(text, R.HASH_DIGITS).None? then Some(BadHash)
    else if i >= |o.payouts| then Some(NotFound)
    else
      var p := o.payouts[i];
      if p.status.Failed? && p.quote.amount > AvailableTo(o, p.user) - Reserved(o.payouts, p.user, Some(i)) then Some(RetryExceedsBalance)
      else if HashTakenBy(o.payouts, i, R.Normalize(text, R.HASH_DIGITS).value) then Some(HashTaken)
      else if !(p.status.Approved? || p.status.Failed? || p.status.Verifying?) then Some(NotFound)
      else None
  }

  function Submit(o: Office, i: nat, text: string): Office {
    if SubmitRefusal(o, i, text).Some? then o
    else
      SetPayout(o, i, o.payouts[i].(status := Verifying, txHash := R.Normalize(text, R.HASH_DIGITS).value, attempts := 0,
                                    nextAt := Some(o.books.clock), verifiedAt := None, confirmations := 0, block := None,
                                    claimedUntil := None, token := None))
  }

  // ----- The verification worker -----

  predicate Due(p: Payout, now: int) {
    && p.status.Verifying?
    && (p.nextAt.None? || p.nextAt.value <= now)
    && (p.claimedUntil.None? || p.claimedUntil.value <= now)
  }

  function DueKey(p: Payout): int {
    if p.nextAt.Some? then p.nextAt.value else p.createdAt
  }

  /** ORDER BY COALESCE(next_verification_at, created_at), id LIMIT 1 over the first `n` rows. */
  function FirstDue(ps: seq<Payout>, n: nat, now: int): (r: Option<nat>)
    requires n <= |ps|
    ensures r.None? <==> forall j :: 0 <= j < n ==> !Due(ps[j], now)
    ensures r.Some? ==> r.value < n && Due(ps[r.value], now)
    ensures r.Some? ==> forall j :: 0 <= j < n && Due(ps[j], now) ==>
                                      DueKey(ps[r.value]) < DueKey(ps[j]) || (DueKey(ps[r.value]) == DueKey(ps[j]) && r.value <= j)
  {
    if n == 0 then None
    else
      var r := FirstDue(ps, n - 1, now);
      if Due(ps[n - 1], now) && (r.None? || DueKey(ps[n - 1]) < DueKey(ps[r.value])) then Some(n - 1) else r
  }

  /** `_claim_one` up to its commit: a fresh token and lease on the first due payout. */
  function ClaimOne(o: Office): Office {
    match FirstDue(o.payouts, |o.payouts|, o.books.clock)
    case None => o
    case Some(i) =>
      SetPayout(o, i, o.payouts[i].(claimedUntil := Some(o.books.clock + CLAIM_SECONDS), token := Some(o.nextToken)))
      .(nextToken := o.nextToken + 1, sessions := o.sessions + [Session(i, None, None)])
  }

  function ClaimOf(p: Payout): R.Claim {
    R.Claim(p.txHash, p.address, p.quote.amount, p.quote.net)
  }

  /** The SELECT after the claim was committed: whatever the row holds by then. */
  function ReadBack(o: Office, s: nat): Office {
    if s < |o.sessions| && o.sessions[s].read.None? && o.sessions[s].payout < |o.payouts|
    then
      var p := o.payouts[o.sessions[s].payout];
      o.(sessions := o.sessions[s := o.sessions[s].(read := Some(Snapshot(p.token, ClaimOf(p))))])
    else o
  }

  function Hear(o: Office, s: nat, reply: R.Reply): Office {
    if s < |o.sessions| && o.sessions[s].read.Some? && o.sessions[s].reply.None?
    then o.(sessions := o.sessions[s := o.sessions[s].(reply := Some(reply))])
    else o
  }

  /** The update of `apply_payout_verification`. */
  function Verified(p: Payout, j: R.Judgement, now: int): Payout {
    p.(status := match j.verdict case Pending => Verifying case Confirmed => Confirmed case Failed => Failed,
       attempts := p.attempts + 1,
       nextAt := if j.verdict.Pending? then Some(now + RETRY_SECONDS) else None,
       verifiedAt := if j.verdict.Pending? then None else Some(now),
       confirmations := j.confirmations, block := j.block, claimedUntil := None, token := None)
  }

  /** A read session whose token is still on the row; a NULL token reads as '' and matches nothing. */
  predicate Holds(o: Office, s: nat) {
    && s < |o.sessions| && o.sessions[s].read.Some? && o.sessions[s].payout < |o.payouts|
    && o.payouts[o.sessions[s].payout].status.Verifying?
    && o.sessions[s].read.value.token.Some?
    && o.payouts[o.sessions[s].payout].token == o.sessions[s].read.value.token
  }

  function Outcome(o: Office, s: Session): R.Judgement
    requires s.read.Some? && s.reply.Some?
  {
    R.Judge(s.read.value.claim, o.verifier, s.reply.value)
  }

  function Apply(o: Office, s: nat): Office {
    if Holds(o, s) && o.sessions[s].reply.Some?
    then SetPayout(o, o.sessions[s].payout, Verified(o.payouts[o.sessions[s].payout], Outcome(o, o.sessions[s]), o.books.clock))
    else o
  }

  function Release(o: Office, s: nat): Office {
    if Holds(o, s)
    then SetPayout(o, o.sessions[s].payout, o.payouts[o.sessions[s].payout].(claimedUntil := None, token := None))
    else o
  }

  // ----- Runs -----

  /** Worker steps of different sessions interleave freely with everything else. */
  datatype Event =
    | Earn(e: E.Event, delay: nat)
    | SetWallet(owner: nat, wallet: Wallet)
    | RequestEvent(user: nat, amount: int, limit: Option<int>)
    | ApproveEvent(i: nat)
    | SubmitEvent(i: nat, text: string)
    | ClaimEvent
    | ReadBackEvent(s: nat)
    | HearEvent(s: nat, reply: R.Reply)
    | ApplyEvent(s: nat)
    | ReleaseEvent(s: nat)

  function Step(o: Office, e: Event): Office {
    match e
    case Earn(earning, delay) => o.(books := E.Step(o.books, earning, delay))
    case SetWallet(owner, wallet) => o.(wallets := o.wallets[owner := wallet])
    case RequestEvent(user, amount, limit) => Request(o, user, amount, limit)
    case ApproveEvent(i) => Approve(o, i)
    case SubmitEvent(i, text) => Submit(o, i, text)
    case ClaimEvent => ClaimOne(o)
    case ReadBackEvent(s) => ReadBack(o, s)
    case HearEvent(s, reply) => Hear(o, s, reply)
    case ApplyEvent(s) => Apply(o, s)
    case ReleaseEvent(s) => Release(o, s)
  }

  function Run(o: Office, trace: seq<Event>): Office {
    if trace == [] then o else Step(Run(o, trace[..|trace| - 1]), trace[|trace| - 1])
  }
}
