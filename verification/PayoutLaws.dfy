/** When a payout is accepted, submitted, verified, and what is written then, in the plainest terms
    (app/services/payouts.py:27-133, app/services/payout_verification.py:239-331, app/payout_verifier_service.py:50-98). */
module PayoutLaws {
  import opened Wrappers
  import E = EarningModel
  import R = Receipts
  import opened Balances
  import opened PayoutModel
  import opened PayoutInvariants

  // ----- Quotes -----

  /** Ten percent below fifty dollars and two from there on, rounded down to a micro-dollar; the rest is paid. */
  predicate Quoted(q: Quote, amount: int) {
    && q.amount == amount && q.net == amount - q.fee
    && (if amount < 50_000_000 then q.feeBps == 1_000 && 10 * q.fee <= amount < 10 * q.fee + 10
        else q.feeBps == 200 && 50 * q.fee <= amount < 50 * q.fee + 50)
  }

  lemma QuotesExactly(amount: int)
    ensures var r := QuoteFor(amount);
            if amount < 10_000_000 then r == Err(TooSmall)
            else if amount > 1_000_000_000_000_000 then r == Err(TooLarge)
            else r.Ok? && Quoted(r.value, amount)
  {}

  // ----- Sums and counts -----

  /** The rows whose amount is spoken for: all but failed ones. */
  predicate Committed(p: Payout, user: nat) {
    p.user == user && (p.status == Requested || p.status == Approved || p.status == Verifying || p.status == Confirmed)
  }

  predicate Open(p: Payout, user: nat) {
    p.user == user && (p.status == Requested || p.status == Approved || p.status == Verifying)
  }

  /** What the user's other payouts have spoken for, `but` left out. */
  function Owed(ps: seq<Payout>, from: nat, user: nat, but: Option<nat>): int
    requires from <= |ps|
    decreases |ps| - from
  {
    if from == |ps| then 0
    else (if Committed(ps[from], user) && but != Some(from) then ps[from].quote.amount else 0) + Owed(ps, from + 1, user, but)
  }

  /** What the ledger has made available to the user. */
  function Earned(l: seq<E.Entry>, from: nat, user: nat): int
    requires from <= |l|
    decreases |l| - from
  {
    if from == |l| then 0
    else (if l[from].user == user && l[from].bucket == E.Available then l[from].micro else 0) + Earned(l, from + 1, user)
  }

  function OpenRows(ps: seq<Payout>, user: nat): set<nat> {
    set k: nat | k < |ps| && Open(ps[k], user)
  }

  lemma {:induction false} OwedFrom(ps: seq<Payout>, from: nat, user: nat, but: Option<nat>)
    requires from < |ps|
    ensures Owed(ps, from, user, but)
            == Owed(ps[..|ps| - 1], from, user, but)
               + (if Committed(ps[|ps| - 1], user) && but != Some(|ps| - 1) then ps[|ps| - 1].quote.amount else 0)
    decreases |ps| - from
  {
    if from < |ps| - 1 {
      OwedFrom(ps, from + 1, user, but);
      assert ps[..|ps| - 1][from] == ps[from];
    } else {
      assert Owed(ps, |ps|, user, but) == 0;
    }
  }

  lemma {:induction false} ReservedIsOwed(ps: seq<Payout>, user: nat, but: Option<nat>)
    ensures Reserved(ps, user, but) == Owed(ps, 0, user, but)
  {
    if ps != [] {
      ReservedIsOwed(ps[..|ps| - 1], user, but);
      OwedFrom(ps, 0, user, but);
    }
  }

  lemma {:induction false} EarnedFrom(l: seq<E.Entry>, from: nat, user: nat)
    requires from < |l|
    ensures Earned(l, from, user)
            == Earned(l[..|l| - 1], from, user) + (if l[|l| - 1].user == user && l[|l| - 1].bucket == E.Available then l[|l| - 1].micro else 0)
    decreases |l| - from
  {
    if from < |l| - 1 {
      EarnedFrom(l, from + 1, user);
      assert l[..|l| - 1][from] == l[from];
    } else {
      assert Earned(l, |l|, user) == 0;
    }
  }

  lemma {:induction false} BalanceIsEarned(l: seq<E.Entry>, user: nat)
    ensures Balance(l, user, E.Available) == Earned(l, 0, user)
  {
    if l != [] {
      BalanceIsEarned(l[..|l| - 1], user);
      EarnedFrom(l, 0, user);
    }
  }

  lemma {:induction false} OutstandingIsCard(ps: seq<Payout>, user: nat)
    ensures OutstandingCount(ps, user) == |OpenRows(ps, user)|
  {
    if ps != [] {
      var n := |ps| - 1;
      OutstandingIsCard(ps[..n], user);
      assert Open(ps[n], user) == Outstanding(ps[n], user);
      hide Open, Outstanding;
      if n in OpenRows(ps, user) {
        assert OpenRows(ps, user) == OpenRows(ps[..n], user) + {n};
      } else {
        assert OpenRows(ps, user) == OpenRows(ps[..n], user);
      }
    } else {
      assert OpenRows(ps, user) == {};
    }
  }

  /** On every run what a user's unfailed payouts add up to is within what the ledger has made available. */
  lemma OwedIsEarned(cfg: E.Config, verifier: R.Verifier, trace: seq<Event>, user: nat)
    requires E.ConfigOk(cfg)
    ensures var o := Run(Init(cfg, verifier), trace); Owed(o.payouts, 0, user, None) <= Earned(o.books.ledger, 0, user)
  {
    hide Run;
    var o := Run(Init(cfg, verifier), trace);
    CommittedIsEarned(cfg, verifier, trace, user);
    ReservedIsOwed(o.payouts, user, None);
    BalanceIsEarned(o.books.ledger, user);
  }

  // ----- Requests -----

  /** Between one and a thousand payouts at a time, ten if nothing is configured. */
  function AtMost(limit: Option<int>): int {
    var n := if limit.Some? then limit.value else 10;
    if n < 1 then 1 else if n > 1_000 then 1_000 else n
  }

  /** A new row: the quote, the wallet as it is now, due in 48 hours, and nothing known of a transfer. */
  predicate Opens(p: Payout, user: nat, address: string, amount: int, now: int) {
    && p.user == user && p.address == address && Quoted(p.quote, amount) && p.createdAt == now && p.dueAt == now + 172_800
    && p.status == Requested && p.txHash == "" && p.attempts == 0 && p.nextAt.None? && p.claimedUntil.None? && p.token.None?
    && p.verifiedAt.None? && p.confirmations == 0 && p.block.None?
  }

  /** A request adds a row exactly when the amount is within its bounds, the user has a wallet whose lock has
      passed, too many payouts are not open, and the amount fits what is earned less what is owed. */
  lemma RequestedExactly(o: Office, user: nat, amount: int, limit: Option<int>)
    ensures var after := Request(o, user, amount, limit);
            if && 10_000_000 <= amount <= 1_000_000_000_000_000
               && user in o.wallets && o.wallets[user].lockedUntil <= o.books.clock
               && |OpenRows(o.payouts, user)| < AtMost(limit)
               && amount <= Earned(o.books.ledger, 0, user) - Owed(o.payouts, 0, user, None)
            then && after == o.(payouts := after.payouts) && |after.payouts| == |o.payouts| + 1 && after.payouts[..|o.payouts|] == o.payouts
                 && Opens(after.payouts[|o.payouts|], user, o.wallets[user].address, amount, o.books.clock)
            else after == o
  {
    OutstandingIsCard(o.payouts, user);
    ReservedIsOwed(o.payouts, user, None);
    BalanceIsEarned(o.books.ledger, user);
    QuotesExactly(amount);
    hide OpenRows, Owed, Earned, Reserved, OutstandingCount, Balance, QuoteFor;
  }

  /** Each refusal of a request, in the order it is given. */
  lemma RefusedExactly(o: Office, user: nat, amount: int, limit: Option<int>)
    ensures RequestRefusal(o, user, amount, limit) ==
              if amount < 10_000_000 then Some(TooSmall)
              else if amount > 1_000_000_000_000_000 then Some(TooLarge)
              else if user !in o.wallets then Some(NoWallet)
              else if o.wallets[user].lockedUntil > o.books.clock then Some(WalletLocked)
              else if |OpenRows(o.payouts, user)| >= AtMost(limit) then Some(TooManyOutstanding)
              else if amount > Earned(o.books.ledger, 0, user) - Owed(o.payouts, 0, user, None) then Some(ExceedsBalance)
              else None
  {
    OutstandingIsCard(o.payouts, user);
    ReservedIsOwed(o.payouts, user, None);
    BalanceIsEarned(o.books.ledger, user);
    hide OpenRows, Owed, Earned, Reserved, OutstandingCount, Balance;
  }

  /** The state in which the payout was requested: the wallet's lock had passed and the row has its address. */
  predicate Requestable(o: Office, p: Payout) {
    && p.user in o.wallets && o.wallets[p.user].lockedUntil <= o.books.clock && o.wallets[p.user].address == p.address
    && p.createdAt == o.books.clock && p.dueAt == o.books.clock + 172_800
    && Quoted(p.quote, p.quote.amount) && 10_000_000 <= p.quote.amount <= 1_000_000_000_000_000
  }

  ghost predicate WasRequestable(cfg: E.Config, verifier: R.Verifier, trace: seq<Event>, p: Payout) {
    exists n :: 0 <= n < |trace| && Requestable(Run(Init(cfg, verifier), trace[..n]), p)
  }

  /** What a request fixes for good. */
  predicate SameOrder(p: Payout, q: Payout) {
    q.user == p.user && q.address == p.address && q.quote == p.quote && q.createdAt == p.createdAt && q.dueAt == p.dueAt
  }

  /** Every payout there was is still the same order. */
  ghost predicate OrdersKept(o: Office, after: Office) {
    |after.payouts| == |o.payouts| && forall k :: 0 <= k < |o.payouts| ==> SameOrder(o.payouts[k], after.payouts[k])
  }

  lemma RewriteKeepsOrders(o: Office, after: Office, i: nat, q: Payout)
    requires i < |o.payouts| && SameOrder(o.payouts[i], q) && after.payouts == o.payouts[i := q]
    ensures OrdersKept(o, after)
  {}

  lemma RewritesKeepOrders(o: Office, i: nat, text: string, s: nat)
    ensures OrdersKept(o, Approve(o, i)) && OrdersKept(o, Submit(o, i, text)) && OrdersKept(o, ClaimOne(o))
    ensures OrdersKept(o, Apply(o, s)) && OrdersKept(o, Release(o, s))
  {
    hide SubmitRefusal, R.Judge, FirstDue;
    assert OrdersKept(o, o);
    if i < |o.payouts| {
      RewriteKeepsOrders(o, Approve(o, i), i, Approve(o, i).payouts[i]);
      RewriteKeepsOrders(o, Submit(o, i, text), i, Submit(o, i, text).payouts[i]);
    } else {
      assert Submit(o, i, text) == o by { SubmitsKnown(o, i, text); }
    }
    var first := FirstDue(o.payouts, |o.payouts|, o.books.clock);
    if first.Some? {
      RewriteKeepsOrders(o, ClaimOne(o), first.value, ClaimOne(o).payouts[first.value]);
    }
    if Holds(o, s) {
      var k := o.sessions[s].payout;
      RewriteKeepsOrders(o, Apply(o, s), k, Apply(o, s).payouts[k]);
      RewriteKeepsOrders(o, Release(o, s), k, Release(o, s).payouts[k]);
    }
    hide OrdersKept;
  }

  lemma SubmitsKnown(o: Office, i: nat, text: string)
    ensures SubmitRefusal(o, i, text).None? ==> i < |o.payouts|
  {}

  lemma StepKeepsOrders(o: Office, e: Event, k: nat)
    requires k < |Step(o, e).payouts|
    ensures |o.payouts| <= |Step(o, e).payouts|
    ensures if k < |o.payouts| then SameOrder(o.payouts[k], Step(o, e).payouts[k]) else Requestable(o, Step(o, e).payouts[k])
  {
    hide E.Step, Approve, Submit, ClaimOne, Apply, Release, RequestRefusal, QuoteFor;
    match e
    case RequestEvent(user, amount, limit) => NewOrder(o, user, amount, limit);
    case ApproveEvent(i) => RewritesKeepOrders(o, i, "", 0);
    case SubmitEvent(i, text) => RewritesKeepOrders(o, i, text, 0);
    case ClaimEvent => RewritesKeepOrders(o, 0, "", 0);
    case ApplyEvent(s) => RewritesKeepOrders(o, 0, "", s);
    case ReleaseEvent(s) => RewritesKeepOrders(o, 0, "", s);
    case _ =>
  }

  lemma NewOrder(o: Office, user: nat, amount: int, limit: Option<int>)
    ensures RequestRefusal(o, user, amount, limit).None? ==>
              Requestable(o, Request(o, user, amount, limit).payouts[|o.payouts|])
  {
    QuotesExactly(amount);
    hide OutstandingCount, Reserved, Balance;
  }

  /** On every run each payout was requested while its wallet's lock had passed, at the price of its amount, and
      goes to the address the wallet had at that moment. */
  lemma {:induction false} PaidToUnlockedWallets(cfg: E.Config, verifier: R.Verifier, trace: seq<Event>, k: nat)
    requires k < |Run(Init(cfg, verifier), trace).payouts|
    ensures WasRequestable(cfg, verifier, trace, Run(Init(cfg, verifier), trace).payouts[k])
  {
    if trace != [] {
      hide Step;
      var n := |trace| - 1;
      var o := Run(Init(cfg, verifier), trace[..n]);
      StepKeepsOrders(o, trace[n], k);
      if k < |o.payouts| {
        PaidToUnlockedWallets(cfg, verifier, trace[..n], k);
        hide Run;
        var m :| 0 <= m < n && Requestable(Run(Init(cfg, verifier), trace[..n][..m]), o.payouts[k]);
        assert trace[..n][..m] == trace[..m];
      }
    }
  }

  // ----- Submissions -----

  predicate HexChar(c: char) {
    '0' <= c <= '9' || 'a' <= c <= 'f' || 'A' <= c <= 'F'
  }

  function SmallLetter(c: char): char {
    if 'A' <= c <= 'Z' then c - 'A' + 'a' else c
  }

  /** A hexadecimal word of that many digits, in letters of either case, with its prefix. */
  predicate Word(s: string, digits: nat) {
    |s| == digits + 2 && s[0] == '0' && (s[1] == 'x' || s[1] == 'X') && forall k :: 2 <= k < |s| ==> HexChar(s[k])
  }

  /** Equal but for the case of letters, the first in small ones. */
  predicate InSmall(r: string, s: string) {
    |r| == |s| && forall k :: 0 <= k < |s| ==> r[k] == SmallLetter(s[k])
  }

  lemma NormalizesExactly(s: string, digits: nat)
    ensures var r := R.Normalize(s, digits); if Word(s, digits) then r.Some? && InSmall(r.value, s) else r.None?
  {
    forall k | 0 <= k < |s|
      ensures R.Lower(s)[k] == SmallLetter(s[k]) && (R.HexDigit(R.Lower(s)[k]) <==> HexChar(s[k]))
    {}
    hide R.HexDigit, HexChar;
    assert R.HexWord(R.Lower(s), digits) <==> Word(s, digits);
  }

  /** A hash is taken by an approved, failed or already submitted payout exactly when it is a hash, no other
      payout has it, and a failed one still fits what is earned less what is owed otherwise. */
  lemma SubmittedExactly(o: Office, i: nat, text: string)
    requires i < |o.payouts|
    ensures var p, after := o.payouts[i], Submit(o, i, text);
            if && Word(text, 64) && (p.status == Approved || p.status == Failed || p.status == Verifying)
               && (forall j :: 0 <= j < |o.payouts| && j != i ==> !SameWord(text, o.payouts[j].txHash))
               && (p.status == Failed ==> p.quote.amount <= Earned(o.books.ledger, 0, p.user) - Owed(o.payouts, 0, p.user, Some(i)))
            then && |after.payouts| == |o.payouts| && InSmall(after.payouts[i].txHash, text)
                 && after == o.(payouts := o.payouts[i := p.(status := Verifying, txHash := after.payouts[i].txHash, attempts := 0,
                                                             nextAt := Some(o.books.clock), verifiedAt := None, confirmations := 0,
                                                             block := None, claimedUntil := None, token := None)])
            else after == o
  {
    var p := o.payouts[i];
    NormalizesExactly(text, 64);
    ReservedIsOwed(o.payouts, p.user, Some(i));
    BalanceIsEarned(o.books.ledger, p.user);
    if Word(text, 64) {
      TakenExactly(o.payouts, i, text);
    }
    hide Owed, Earned, Reserved, Balance, HashTakenBy, Word, InSmall, SameWord, R.Normalize;
  }

  /** Equal but for the case of letters. */
  predicate SameWord(s: string, t: string) {
    |s| == |t| && forall k :: 0 <= k < |s| ==> SmallLetter(s[k]) == SmallLetter(t[k])
  }

  lemma SameSmall(r: string, s: string, t: string, u: string)
    requires InSmall(r, s) && InSmall(t, u)
    ensures r == t <==> SameWord(s, u)
  {}

  lemma TakenExactly(ps: seq<Payout>, i: nat, text: string)
    requires R.Normalize(text, 64).Some? && InSmall(R.Normalize(text, 64).value, text)
    ensures HashTakenBy(ps, i, R.Normalize(text, 64).value) <==> !(forall j :: 0 <= j < |ps| && j != i ==> !SameWord(text, ps[j].txHash))
  {
    var h := R.Normalize(text, 64).value;
    forall j | 0 <= j < |ps|
      ensures R.Lower(ps[j].txHash) == h <==> SameWord(text, ps[j].txHash)
    {
      LowerIsSmall(ps[j].txHash, h);
      SameSmall(h, text, R.Lower(ps[j].txHash), ps[j].txHash);
    }
    hide InSmall, SameWord, R.Lower, R.Normalize;
  }

  lemma LowerIsSmall(s: string, h: string)
    ensures InSmall(R.Lower(s), s) && (R.Lower(s) == h <==> InSmall(h, s))
  {}

  /** An approval moves a requested payout on, and nothing else. */
  lemma ApprovedExactly(o: Office, i: nat)
    ensures Approve(o, i) == if i < |o.payouts| && o.payouts[i].status == Requested
                             then o.(payouts := o.payouts[i := o.payouts[i].(status := Approved)]) else o
  {}

  // ----- Verification -----

  /** Being verified, its time has come, and nobody holds a lease on it. */
  predicate Awaiting(p: Payout, now: int) {
    p.status == Verifying && (p.nextAt.Some? ==> p.nextAt.value <= now) && (p.claimedUntil.Some? ==> p.claimedUntil.value <= now)
  }

  function Since(p: Payout): int {
    if p.nextAt.Some? then p.nextAt.value else p.createdAt
  }

  /** The awaiting payout that has waited longest, by its number if two have. */
  ghost predicate NextUp(o: Office, i: nat) {
    && i < |o.payouts| && Awaiting(o.payouts[i], o.books.clock)
    && forall j: nat :: j < |o.payouts| && Awaiting(o.payouts[j], o.books.clock) ==>
         Since(o.payouts[i]) < Since(o.payouts[j]) || (Since(o.payouts[i]) == Since(o.payouts[j]) && i <= j)
  }

  /** A claim leases the payout next up for five minutes, under a token nobody had before. */
  lemma ClaimedExactly(o: Office)
    ensures var after := ClaimOne(o);
            if exists i: nat :: i < |o.payouts| && Awaiting(o.payouts[i], o.books.clock)
            then exists i: nat ::
                   NextUp(o, i)
                   && after == o.(payouts := o.payouts[i := o.payouts[i].(claimedUntil := Some(o.books.clock + 300), token := Some(o.nextToken))],
                                  nextToken := o.nextToken + 1, sessions := o.sessions + [Session(i, None, None)])
            else after == o
  {
    NextIsFirstDue(o);
    hide Awaiting, FirstDue, NextUp;
  }

  lemma NextIsFirstDue(o: Office)
    ensures var first := FirstDue(o.payouts, |o.payouts|, o.books.clock);
            && (first.Some? ==> NextUp(o, first.value) && first.value < |o.payouts| && Awaiting(o.payouts[first.value], o.books.clock))
            && (first.None? ==> forall i: nat :: i < |o.payouts| ==> !Awaiting(o.payouts[i], o.books.clock))
  {
    assert forall j: nat :: j < |o.payouts| ==> Awaiting(o.payouts[j], o.books.clock) == Due(o.payouts[j], o.books.clock)
                                                && Since(o.payouts[j]) == DueKey(o.payouts[j]);
    hide Awaiting, Due, Since, DueKey, FirstDue;
  }

  /** The session read a token that is still on the row it was read from. */
  predicate StillHeld(o: Office, s: nat) {
    && s < |o.sessions| && o.sessions[s].read.Some? && o.sessions[s].read.value.token.Some? && o.sessions[s].payout < |o.payouts|
    && var p := o.payouts[o.sessions[s].payout];
       p.status == Verifying && p.token == o.sessions[s].read.value.token
  }

  /** A verdict is written only under the token the session has read, and gives the lease back: pending ones
      are tried again after five minutes, the others are final as of now. */
  lemma VerifiedExactly(o: Office, s: nat)
    ensures var after, back := Apply(o, s), Release(o, s);
            if !StillHeld(o, s) then after == o && back == o
            else
              var i := o.sessions[s].payout;
              var p := o.payouts[i];
              && back == o.(payouts := o.payouts[i := p.(claimedUntil := None, token := None)])
              && (o.sessions[s].reply.None? ==> after == o)
              && (o.sessions[s].reply.Some? ==>
                    var j := R.Judge(o.sessions[s].read.value.claim, o.verifier, o.sessions[s].reply.value);
                    var q := p.(attempts := p.attempts + 1, confirmations := j.confirmations, block := j.block, claimedUntil := None, token := None);
                    after == o.(payouts := o.payouts[i :=
                      match j.verdict
                      case Pending => q.(status := Verifying, nextAt := Some(o.books.clock + 300), verifiedAt := None)
                      case Confirmed => q.(status := Confirmed, nextAt := None, verifiedAt := Some(o.books.clock))
                      case Failed => q.(status := Failed, nextAt := None, verifiedAt := Some(o.books.clock))]))
  {
    hide R.Judge;
  }

  /** What a session reads back is the row as it stands: its token, hash, wallet, amount and net. */
  lemma ReadExactly(o: Office, s: nat)
    requires s < |o.sessions| && o.sessions[s].payout < |o.payouts| && o.sessions[s].read.None?
    ensures var p, read := o.payouts[o.sessions[s].payout], ReadBack(o, s).sessions[s].read;
            && read.Some? && read.value.token == p.token
            && read.value.claim.txHash == p.txHash && read.value.claim.address == p.address
            && read.value.claim.amount == p.quote.amount && read.value.claim.net == p.quote.net
  {}

  // ----- The judgement -----

  /** How deep the block lies, counting itself. */
  function Depth(block: nat, current: nat): int {
    if current >= block then current - block + 1 else 0
  }

  predicate DeepEnough(v: R.Verifier, block: nat, current: nat) {
    var needed := if v.minConfirmations < 1 then 1 else if v.minConfirmations > 1_000 then 1_000 else v.minConfirmations;
    Depth(block, current) >= needed
  }

  /** A transfer event of the token to the wallet, for exactly the payout's net amount in token units. */
  predicate TransfersTo(g: R.Log, c: R.Claim, v: R.Verifier)
    requires v.decimals >= 0
  {
    && g.Log? && Word(g.address, 40) && Word(v.contract, 40) && SameWord(g.address, v.contract)
    && g.topics.Some? && |g.topics.value| >= 3
    && InSmall("0xddf252ad1be2c89b69c2b068fc378daa952ba7f163c4a11628f55a4df523b3ef", g.topics.value[0])
    && Word(g.topics.value[2], 64) && Word(c.address, 40)
    && SameWord(g.topics.value[2][26..], c.address[2..])
    && g.data == Some((if c.net > 0 then c.net else c.amount) * R.Pow10(v.decimals) / 1_000_000)
  }

  /** The row, the contract and the endpoint's answers are such that the receipt can be judged. */
  predicate Judgeable(c: R.Claim, v: R.Verifier, r: R.Reply) {
    && Word(c.txHash, 64) && Word(c.address, 40) && Word(v.contract, 40) && 0 <= v.decimals <= 36
    && r.chainId == Some(56) && r.receipt.Some? && r.receipt.value.Receipt?
    && r.receipt.value.status.Some? && r.receipt.value.block.Some? && r.currentBlock.Some?
  }

  ghost predicate ShowsTransfer(c: R.Claim, v: R.Verifier, logs: seq<R.Log>)
    requires v.decimals >= 0
  {
    exists k :: 0 <= k < |logs| && TransfersTo(logs[k], c, v)
  }

  /** A payout is confirmed exactly by a successful transaction, deep enough, that transfers its net amount of
      the token to its wallet; it has failed exactly if the transaction was reverted or is deep enough without
      that transfer; anything else leaves it pending.  Depth and block are those of the receipt. */
  lemma JudgedExactly(c: R.Claim, v: R.Verifier, r: R.Reply)
    ensures var j := R.Judge(c, v, r);
            if !Judgeable(c, v, r) then j.verdict == R.Pending && j.confirmations == 0 && j.block.None?
            else
              var block, current, logs := r.receipt.value.block.value, r.currentBlock.value, r.receipt.value.logs;
              && j.block == Some(block) && j.confirmations == Depth(block, current)
              && (j.verdict == R.Confirmed <==>
                    r.receipt.value.status == Some(1) && DeepEnough(v, block, current) && ShowsTransfer(c, v, logs))
              && (j.verdict == R.Failed <==>
                    r.receipt.value.status != Some(1) || (DeepEnough(v, block, current) && !ShowsTransfer(c, v, logs)))
  {
    NormalizesExactly(c.txHash, 64);
    NormalizesExactly(c.address, 40);
    NormalizesExactly(v.contract, 40);
    if Judgeable(c, v, r) {
      forall k | 0 <= k < |r.receipt.value.logs|
        ensures R.Transfers(r.receipt.value.logs[k], R.Normalize(v.contract, 40).value, R.Normalize(c.address, 40).value,
                            R.ExpectedUnits(c, v.decimals))
                <==> TransfersTo(r.receipt.value.logs[k], c, v)
      {
        TransfersExactly(r.receipt.value.logs[k], c, v);
      }
    }
    hide Word, InSmall, R.Normalize, R.Transfers, TransfersTo, R.FromContract, R.ToWallet, R.ExpectedUnits;
  }

  lemma TransfersExactly(g: R.Log, c: R.Claim, v: R.Verifier)
    requires Word(c.address, 40) && Word(v.contract, 40) && 0 <= v.decimals
    ensures R.Normalize(v.contract, 40).Some? && R.Normalize(c.address, 40).Some?
    ensures R.Transfers(g, R.Normalize(v.contract, 40).value, R.Normalize(c.address, 40).value, R.ExpectedUnits(c, v.decimals))
            <==> TransfersTo(g, c, v)
  {
    NormalizesExactly(c.address, 40);
    NormalizesExactly(v.contract, 40);
    if g.Log? {
      ContractExactly(g, v);
      if g.topics.Some? && |g.topics.value| >= 3 {
        TopicExactly(g.topics.value[0]);
        RecipientExactly(g.topics.value[2], c.address);
      }
    }
    hide R.Normalize, R.Lower, R.TopicAddress, Word, InSmall, SameWord;
  }

  lemma ContractExactly(g: R.Log, v: R.Verifier)
    requires g.Log? && Word(v.contract, 40)
    ensures R.Normalize(g.address, 40) == R.Normalize(v.contract, 40) <==> Word(g.address, 40) && SameWord(g.address, v.contract)
  {
    NormalizesExactly(g.address, 40);
    NormalizesExactly(v.contract, 40);
    hide R.Normalize, Word, InSmall, SameWord;
    if R.Normalize(g.address, 40).Some? {
      SameSmall(R.Normalize(g.address, 40).value, g.address, R.Normalize(v.contract, 40).value, v.contract);
    }
  }

  lemma TopicExactly(s: string)
    ensures R.Lower(s) == R.TRANSFER_TOPIC <==> InSmall("0xddf252ad1be2c89b69c2b068fc378daa952ba7f163c4a11628f55a4df523b3ef", s)
  {
    LowerIsSmall(s, R.TRANSFER_TOPIC);
  }

  /** The recipient is in the last twenty bytes of its topic. */
  lemma RecipientExactly(topic: string, address: string)
    requires Word(address, 40)
    ensures R.Normalize(address, 40).Some?
    ensures R.TopicAddress(topic) == R.Normalize(address, 40) <==> Word(topic, 64) && SameWord(topic[26..], address[2..])
  {
    NormalizesExactly(address, 40);
    NormalizesExactly(topic, 64);
    if Word(topic, 64) {
      var t, a := R.Normalize(topic, 64).value, R.Normalize(address, 40).value;
      assert t[26..] == a[2..] <==> SameWord(topic[26..], address[2..]) by {
        assert InSmall(t[26..], topic[26..]) && InSmall(a[2..], address[2..]);
        SameSmall(t[26..], topic[26..], a[2..], address[2..]);
      }
      assert a[..2] == "0x";
      assert a == a[..2] + a[2..];
      assert ("0x" + t[26..])[2..] == t[26..];
    }
    hide Word, SameWord, InSmall;
  }
}
