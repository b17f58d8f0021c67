/** Judging a payout transaction from what the chain answers
    (app/services/payout_verification.py).

    The answers of the RPC endpoint are input values; None stands for a call that failed
    or a quantity that could not be parsed.  Texts carry no surrounding whitespace. */
module Receipts {
  import opened Wrappers

  const EXPECTED_CHAIN_ID := 56
  const TRANSFER_TOPIC := "0xddf252ad1be2c89b69c2b068fc378daa952ba7f163c4a11628f55a4df523b3ef"
  const HASH_DIGITS := 64
  const ADDRESS_DIGITS := 40

  datatype Log = Malformed | Log(address: string, topics: Option<seq<string>>, data: Option<nat>)

  datatype Receipt = Missing | NotADict | Receipt(status: Option<nat>, block: Option<nat>, logs: seq<Log>)

  /** `receipt` is None when the call itself failed. */
  datatype Reply = Reply(chainId: Option<nat>, receipt: Option<Receipt>, currentBlock: Option<nat>)

  datatype Verifier = Verifier(contract: string, decimals: int, minConfirmations: int)

  /** The columns of a payout row that verification reads. */
  datatype Claim = Claim(txHash: string, address: string, amount: int, net: int)

  datatype Verdict = Pending | Confirmed | Failed

  datatype Reason =
    | NoReason | Raised | WrongChain | NoReceipt | BadReceipt | Reverted | Waiting
    | NoTransfer | WrongRecipient | WrongAmount

  datatype Judgement = Judgement(verdict: Verdict, reason: Reason, confirmations: nat, block: Option<nat>)

  // ----- Normalised hexadecimal words -----

  predicate HexDigit(c: char) {
    '0' <= c <= '9' || 'a' <= c <= 'f'
  }

  predicate HexWord(s: string, digits: nat) {
    |s| == digits + 2 && s[0] == '0' && s[1] == 'x' && forall k :: 2 <= k < |s| ==> HexDigit(s[k])
  }

  function LowerChar(c: char): char {
    if 'A' <= c <= 'Z' then (c as int + 32) as char else c
  }

  function Lower(s: string): string {
    seq(|s|, k requires 0 <= k < |s| => LowerChar(s[k]))
  }

  function Normalize(s: string, digits: nat): Option<string> {
    if HexWord(Lower(s), digits) then Some(Lower(s)) else None
  }

  /** The last twenty bytes of a 32-byte topic. */
  function TopicAddress(s: string): Option<string> {
    match Normalize(s, HASH_DIGITS)
    case None => None
    case Some(t) => Some("0x" + t[26..])
  }

  /** Normalising is idempotent, and every topic names a well-formed address. */
  lemma NormalForms(s: string, digits: nat)
    ensures Normalize(s, digits).Some? ==> Normalize(Normalize(s, digits).value, digits) == Normalize(s, digits)
    ensures TopicAddress(s).Some? ==> HexWord(TopicAddress(s).value, ADDRESS_DIGITS)
  {
    assert Lower(Lower(s)) == Lower(s);
  }

  // ----- What a confirmed payout needs -----

  function Pow10(n: nat): (r: nat)
    ensures r > 0
  {
    if n == 0 then 1 else 10 * Pow10(n - 1)
  }

  /** Token units for a payout: its net amount, or the gross one on rows without a net amount. */
  function ExpectedUnits(c: Claim, decimals: nat): int {
    (if c.net <= 0 then c.amount else c.net) * Pow10(decimals) / 1_000_000
  }

  predicate FromContract(g: Log, contract: string) {
    g.Log? && Normalize(g.address, ADDRESS_DIGITS) == Some(contract)
  }

  predicate ToWallet(g: Log, contract: string, wallet: string) {
    && FromContract(g, contract)
    && g.topics.Some? && |g.topics.value| >= 3
    && Lower(g.topics.value[0]) == TRANSFER_TOPIC && TopicAddress(g.topics.value[2]) == Some(wallet)
  }

  predicate Transfers(g: Log, contract: string, wallet: string, units: int) {
    ToWallet(g, contract, wallet) && g.data.Some? && g.data.value == units
  }

  function Required(v: Verifier): nat {
    Max(1, Min(1000, v.minConfirmations))
  }

  function Confirmations(block: nat, current: nat): nat {
    Max(0, current - block + 1)
  }

  predicate Readable(c: Claim, v: Verifier) {
    && Normalize(c.txHash, HASH_DIGITS).Some? && Normalize(c.address, ADDRESS_DIGITS).Some?
    && Normalize(v.contract, ADDRESS_DIGITS).Some? && 0 <= v.decimals <= 36
  }

  /** The chain shows a successful, deep enough transaction. */
  predicate Settled(v: Verifier, r: Reply) {
    && r.chainId == Some(EXPECTED_CHAIN_ID) && r.receipt.Some? && r.receipt.value.Receipt?
    && r.receipt.value.status == Some(1) && r.receipt.value.block.Some? && r.currentBlock.Some?
    && Confirmations(r.receipt.value.block.value, r.currentBlock.value) >= Required(v)
  }

  /** The transaction pays exactly this payout: the configured token, its wallet, its amount. */
  predicate Pays(c: Claim, v: Verifier, r: Reply) {
    && Readable(c, v) && Settled(v, r)
    && exists k :: 0 <= k < |r.receipt.value.logs| &&
                   Transfers(r.receipt.value.logs[k], Normalize(v.contract, ADDRESS_DIGITS).value,
                             Normalize(c.address, ADDRESS_DIGITS).value, ExpectedUnits(c, v.decimals))
  }

  /** `verify_bsc_payout` without its loop. */
  function Judge(c: Claim, v: Verifier, r: Reply): Judgement {
    if !Readable(c, v) then Judgement(Pending, Raised, 0, None)
    else if r.chainId.None? then Judgement(Pending, Raised, 0, None)
    else if r.chainId.value != EXPECTED_CHAIN_ID then Judgement(Pending, WrongChain, 0, None)
    else if r.receipt.None? then Judgement(Pending, Raised, 0, None)
    else
      match r.receipt.value
      case Missing => Judgement(Pending, NoReceipt, 0, None)
      case NotADict => Judgement(Pending, BadReceipt, 0, None)
      case Receipt(status, block, logs) =>
        if status.None? || block.None? || r.currentBlock.None? then Judgement(Pending, Raised, 0, None)
        else
          var depth := Confirmations(block.value, r.currentBlock.value);
          if status.value != 1 then Judgement(Failed, Reverted, depth, block)
          else if depth < Required(v) then Judgement(Pending, Waiting, depth, block)
          else
            var contract := Normalize(v.contract, ADDRESS_DIGITS).value;
            var wallet := Normalize(c.address, ADDRESS_DIGITS).value;
            var units := ExpectedUnits(c, v.decimals);
            if exists k :: 0 <= k < |logs| && Transfers(logs[k], contract, wallet, units) then Judgement(Confirmed, NoReason, depth, block)
            else if !exists k :: 0 <= k < |logs| && FromContract(logs[k], contract) then Judgement(Failed, NoTransfer, depth, block)
            else if !exists k :: 0 <= k < |logs| && ToWallet(logs[k], contract, wallet) then Judgement(Failed, WrongRecipient, depth, block)
            else Judgement(Failed, WrongAmount, depth, block)
  }

  /** Confirmed exactly when the transaction pays the payout; failed only by a settled or reverted receipt. */
  lemma ConfirmedExactly(c: Claim, v: Verifier, r: Reply)
    ensures Judge(c, v, r).verdict.Confirmed? <==> Pays(c, v, r)
    ensures Judge(c, v, r).verdict.Failed? ==>
              && r.chainId == Some(EXPECTED_CHAIN_ID) && r.receipt.Some? && r.receipt.value.Receipt?
              && (Settled(v, r) || (r.receipt.value.status.Some? && r.receipt.value.status.value != 1))
  {
    hide Transfers, FromContract, ToWallet, Normalize;
  }

  /** What the logs alone say about a settled transaction. */
  predicate Scanned(logs: seq<Log>, contract: string, wallet: string, units: int, verdict: Verdict, reason: Reason) {
    if exists k :: 0 <= k < |logs| && Transfers(logs[k], contract, wallet, units) then verdict.Confirmed? && reason.NoReason?
    else if !exists k :: 0 <= k < |logs| && FromContract(logs[k], contract) then verdict.Failed? && reason.NoTransfer?
    else if !exists k :: 0 <= k < |logs| && ToWallet(logs[k], contract, wallet) then verdict.Failed? && reason.WrongRecipient?
    else verdict.Failed? && reason.WrongAmount?
  }

  /** The log loop of `verify_bsc_payout`. */
  method ScanLogs(logs: seq<Log>, contract: string, destination: string, expected: int) returns (verdict: Verdict, reason: Reason)
    ensures Scanned(logs, contract, destination, expected, verdict, reason)
  {
    hide Normalize, TopicAddress;
    var matchingContract, matchingRecipient := false, false;
    var k := 0;
    while k < |logs|
      invariant 0 <= k <= |logs|
      invariant matchingContract <==> exists n :: 0 <= n < k && FromContract(logs[n], contract)
      invariant matchingRecipient <==> exists n :: 0 <= n < k && ToWallet(logs[n], contract, destination)
      invariant forall n :: 0 <= n < k ==> !Transfers(logs[n], contract, destination, expected)
    {
      var g := logs[k];
      k := k + 1;
      if g.Malformed? { continue; }
      if Normalize(g.address, ADDRESS_DIGITS) != Some(contract) { continue; }
      matchingContract := true;
      if g.topics.None? || |g.topics.value| < 3 || Lower(g.topics.value[0]) != TRANSFER_TOPIC { continue; }
      if TopicAddress(g.topics.value[2]) != Some(destination) { continue; }
      matchingRecipient := true;
      if g.data.None? { continue; }
      if g.data.value == expected {
        assert Transfers(logs[k - 1], contract, destination, expected);
        return Confirmed, NoReason;
      }
    }
    if !matchingContract { return Failed, NoTransfer; }
    if !matchingRecipient { return Failed, WrongRecipient; }
    return Failed, WrongAmount;
  }

  method VerifyPayout(c: Claim, v: Verifier, r: Reply) returns (j: Judgement)
    ensures j == Judge(c, v, r)
  {
    hide Normalize, Transfers, ToWallet, FromContract, Pow10;
    var hash, destination := Normalize(c.txHash, HASH_DIGITS), Normalize(c.address, ADDRESS_DIGITS);
    var contract := Normalize(v.contract, ADDRESS_DIGITS);
    if hash.None? || destination.None? || contract.None? || v.decimals < 0 || v.decimals > 36 || r.chainId.None? {
      return Judgement(Pending, Raised, 0, None);
    }
    var required := Max(1, Min(1000, v.minConfirmations));
    if r.chainId.value != EXPECTED_CHAIN_ID { return Judgement(Pending, WrongChain, 0, None); }
    if r.receipt.None? { return Judgement(Pending, Raised, 0, None); }
    if r.receipt.value.Missing? { return Judgement(Pending, NoReceipt, 0, None); }
    if r.receipt.value.NotADict? { return Judgement(Pending, BadReceipt, 0, None); }
    var status, block, logs := r.receipt.value.status, r.receipt.value.block, r.receipt.value.logs;
    if status.None? || block.None? || r.currentBlock.None? { return Judgement(Pending, Raised, 0, None); }
    var confirmations := Max(0, r.currentBlock.value - block.value + 1);
    if status.value != 1 { return Judgement(Failed, Reverted, confirmations, block); }
    if confirmations < required { return Judgement(Pending, Waiting, confirmations, block); }
    var transfer := c.net;
    if transfer <= 0 { transfer := c.amount; }
    var expected := transfer * Pow10(v.decimals) / 1_000_000;
    var verdict, reason := ScanLogs(logs, contract.value, destination.value, expected);
    return Judgement(verdict, reason, confirmations, block);
  }

  // ----- Units -----

  lemma {:induction false} Pow10Splits(a: nat, b: nat)
    ensures Pow10(a + b) == Pow10(a) * Pow10(b)
  {
    if a > 0 {
      Pow10Splits(a - 1, b);
    }
  }

  /** With six decimals or more nothing is rounded away, so equal units mean equal amounts. */
  lemma UnitsAreExact(c: Claim, d: Claim, decimals: nat)
    requires decimals >= 6 && c.net > 0 && d.net > 0
    ensures ExpectedUnits(c, decimals) == c.net * Pow10(decimals - 6)
    ensures ExpectedUnits(c, decimals) == ExpectedUnits(d, decimals) ==> c.net == d.net
  {
    SixDecimals(c, decimals);
    SixDecimals(d, decimals);
    var p := Pow10(decimals - 6);
    if c.net != d.net {
      assert (c.net - d.net) * p != 0;
    }
  }

  lemma SixDecimals(c: Claim, decimals: nat)
    requires decimals >= 6 && c.net > 0
    ensures ExpectedUnits(c, decimals) == c.net * Pow10(decimals - 6)
  {
    Pow10Splits(decimals - 6, 6);
    var p := Pow10(decimals - 6);
    assert Pow10(6) == 1_000_000;
    assert c.net * (p * 1_000_000) == (c.net * p) * 1_000_000;
  }
}
