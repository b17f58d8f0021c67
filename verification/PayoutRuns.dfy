/** A run on which retrying a failed payout passes the limit of outstanding payouts
    (app/services/payouts.py:78-88, app/services/payout_verification.py:252-275). */
module PayoutRuns {
  import opened Wrappers
  import E = EarningModel
  import A = AddressPayments
  import R = Receipts
  import opened Balances
  import opened PayoutModel
  import opened PayoutInvariants

  /** A well-formed hexadecimal word. */
  function Word(digits: nat): (r: string)
    ensures |r| == digits + 2
  {
    "0x" + seq(digits, _ => '0')
  }

  lemma WordIsNormal(digits: nat)
    ensures R.Normalize(Word(digits), digits) == Some(Word(digits)) && R.Lower(Word(digits)) == Word(digits)
  {
    assert R.Lower(Word(digits)) == Word(digits);
  }

  const DAYS := 1_300
  const NOW := DAYS * A.DAY
  const AMOUNT := MIN_PAYOUT
  const REVERTED := R.Reply(Some(56), Some(R.Receipt(Some(0), Some(1), [])), Some(1))

  function Checker(): R.Verifier {
    R.Verifier(Word(R.ADDRESS_DIGITS), 18, 1)
  }

  // ----- Enough money for two payouts -----

  /** One proxy is seen alive every day for 1300 days, and then its time is credited. */
  lemma Earned() returns (trace: seq<E.Timed>)
    ensures var db := E.Run(E.Init(A.CONFIG), trace); db.clock == NOW && Balance(db.ledger, 0, E.Available) >= 2 * AMOUNT
  {
    trace := A.SeenDaily(DAYS);
    var db := E.Run(E.Init(A.CONFIG), trace);
    var p := A.UpRow(0, NOW, E.HttpsQuorum, None);
    hide E.Run;
    assert db.proxies == [p];
    CreditedAll(db, p);
    hide E.AccrueFirst, A.UpRow;
    trace, db := A.OneMore(trace, E.AccrueAllEvent, 0);
  }

  lemma CreditedAll(db: E.Db, p: E.Proxy)
    requires A.Stage(db, [p], NOW) && p == A.UpRow(0, NOW, E.HttpsQuorum, None)
    ensures var after := E.AccrueFirst(db, 1, NOW); Balance(after.ledger, 0, E.Available) >= 2 * AMOUNT
  {
    assert E.Unlock([], 0, 0) == [];
    var first, second := E.EntryFor(p, 0, 0, A.WEEK, E.Available), E.EntryFor(p, 0, A.WEEK, NOW, E.Available);
    assert E.AddEntry([], first) == [first] && E.AddEntry([first], second) == [first, second];
    assert E.Credit([], p, 0, NOW) == [first, second];
    assert E.AccrueFirst(db, 1, NOW) == E.AccrueRow(db, 0, false, NOW) by { assert E.AccrueFirst(db, 0, NOW) == db; }
    assert E.AccrueRow(db, 0, false, NOW).ledger == [first, second];
    hide E.AccrueFirst, E.AccrueRow, E.Credit;
    assert first.micro + second.micro >= 2 * AMOUNT;
    TwoEntries(first, second);
  }

  lemma TwoEntries(a: E.Entry, b: E.Entry)
    requires a.user == b.user == 0 && a.bucket == b.bucket == E.Available
    ensures Balance([a, b], 0, E.Available) == a.micro + b.micro
  {
    assert [a, b][..1] == [a] && [a][..0] == [];
    assert Balance([a], 0, E.Available) == a.micro;
  }

  // ----- In the office -----

  function Earning(trace: seq<E.Timed>): (r: seq<Event>)
    ensures |r| == |trace|
  {
    seq(|trace|, k requires 0 <= k < |trace| => Earn(trace[k].event, trace[k].delay))
  }

  lemma {:induction false} EarningOnly(v: R.Verifier, trace: seq<E.Timed>)
    ensures Run(Init(A.CONFIG, v), Earning(trace)) == Init(A.CONFIG, v).(books := E.Run(E.Init(A.CONFIG), trace))
  {
    if trace != [] {
      hide E.Step;
      EarningOnly(v, trace[..|trace| - 1]);
      assert Earning(trace)[..|trace| - 1] == Earning(trace[..|trace| - 1]);
    }
  }

  /** The desk of one user with a wallet and enough money. */
  ghost predicate Desk(o: Office, payouts: seq<Payout>, sessions: seq<Session>) {
    && o.books.clock == NOW && AvailableTo(o, 0) >= 2 * AMOUNT && o.verifier == Checker()
    && o.wallets == map[0 := Wallet(Word(R.ADDRESS_DIGITS), 0)]
    && o.payouts == payouts && o.sessions == sessions
  }

  lemma OneMore(trace: seq<Event>, e: Event) returns (longer: seq<Event>, after: Office)
    ensures longer == trace + [e] && after == Run(Init(A.CONFIG, Checker()), longer) == Step(Run(Init(A.CONFIG, Checker()), trace), e)
  {
    hide Step;
    longer, after := trace + [e], Step(Run(Init(A.CONFIG, Checker()), trace), e);
    assert longer[..|trace|] == trace;
  }

  function Asked(): Payout {
    NewPayout(0, Word(R.ADDRESS_DIGITS), Quote(AMOUNT, LOW_TIER_BPS, AMOUNT / 10, AMOUNT - AMOUNT / 10), NOW)
  }

  function Submitted(): Payout {
    Asked().(status := Verifying, txHash := Word(R.HASH_DIGITS), nextAt := Some(NOW))
  }

  function Reverted(): Payout {
    Submitted().(status := Failed, attempts := 1, nextAt := None, verifiedAt := Some(NOW), confirmations := 1, block := Some(1))
  }

  lemma Opened() returns (trace: seq<Event>)
    ensures Desk(Run(Init(A.CONFIG, Checker()), trace), [], [])
  {
    var earned := Earned();
    EarningOnly(Checker(), earned);
    trace := Earning(earned);
    var o := Run(Init(A.CONFIG, Checker()), trace);
    hide Run, E.Run, Balance, Word, Earning;
    trace, o := OneMore(trace, SetWallet(0, Wallet(Word(R.ADDRESS_DIGITS), 0)));
  }

  lemma MayAsk(o: Office, payouts: seq<Payout>, sessions: seq<Session>)
    requires Desk(o, payouts, sessions) && OutstandingCount(payouts, 0) == 0 && Reserved(payouts, 0, None) == 0
    ensures Request(o, 0, AMOUNT, Some(1)) == o.(payouts := payouts + [Asked()])
  {
    hide Balance, Word, OutstandingCount, Reserved;
  }

  lemma FirstAsked() returns (trace: seq<Event>)
    ensures Desk(Run(Init(A.CONFIG, Checker()), trace), [Asked().(status := Approved)], [])
  {
    trace := Opened();
    var o := Run(Init(A.CONFIG, Checker()), trace);
    MayAsk(o, [], []);
    hide Run, Balance, Request, Asked, Word;
    trace, o := OneMore(trace, RequestEvent(0, AMOUNT, Some(1)));
    assert o.payouts == [Asked()];
    AskedIsRequested();
    assert [Asked()][0 := Asked().(status := Approved)] == [Asked().(status := Approved)];
    trace, o := OneMore(trace, ApproveEvent(0));
  }

  lemma AskedIsRequested()
    ensures Asked().status.Requested? && Asked().user == 0 && Asked().quote.amount == AMOUNT
  {}

  lemma SubmitStep(o: Office)
    requires Desk(o, [Asked().(status := Approved)], [])
    ensures Submit(o, 0, Word(R.HASH_DIGITS)) == o.(payouts := [Submitted()])
  {
    WordIsNormal(R.HASH_DIGITS);
    hide Balance, Word, R.Lower, R.Normalize;
    assert !HashTakenBy(o.payouts, 0, Word(R.HASH_DIGITS));
    assert SubmitRefusal(o, 0, Word(R.HASH_DIGITS)).None?;
  }

  lemma FirstSubmitted() returns (trace: seq<Event>)
    ensures Desk(Run(Init(A.CONFIG, Checker()), trace), [Submitted()], [])
  {
    trace := FirstAsked();
    var o := Run(Init(A.CONFIG, Checker()), trace);
    SubmitStep(o);
    hide Run, Balance, Submit, Word, Submitted, Asked;
    trace, o := OneMore(trace, SubmitEvent(0, Word(R.HASH_DIGITS)));
  }

  /** What the worker has read and heard. */
  function Heard(token: nat): Session {
    Session(0, Some(Snapshot(Some(token), ClaimOf(Submitted()))), Some(REVERTED))
  }

  lemma ClaimStep(o: Office)
    requires Desk(o, [Submitted()], [])
    ensures var after := Hear(ReadBack(ClaimOne(o), 0), 0, REVERTED);
            after == o.(payouts := [Submitted().(claimedUntil := Some(NOW + CLAIM_SECONDS), token := Some(o.nextToken))],
                        sessions := [Heard(o.nextToken)], nextToken := o.nextToken + 1)
  {
    hide Balance, Word;
    assert FirstDue(o.payouts, 0, NOW) == None && FirstDue(o.payouts, 1, NOW) == Some(0);
  }

  lemma FirstHeard() returns (trace: seq<Event>, token: nat)
    ensures Desk(Run(Init(A.CONFIG, Checker()), trace), [Submitted().(claimedUntil := Some(NOW + CLAIM_SECONDS), token := Some(token))], [Heard(token)])
  {
    trace := FirstSubmitted();
    var o := Run(Init(A.CONFIG, Checker()), trace);
    token := o.nextToken;
    ClaimStep(o);
    hide Run, Balance, ClaimOne, ReadBack, Hear, Word, Submitted, Heard;
    trace, o := OneMore(trace, ClaimEvent);
    trace, o := OneMore(trace, ReadBackEvent(0));
    trace, o := OneMore(trace, HearEvent(0, REVERTED));
  }

  lemma ApplyStep(o: Office, token: nat)
    requires Desk(o, [Submitted().(claimedUntil := Some(NOW + CLAIM_SECONDS), token := Some(token))], [Heard(token)])
    ensures Apply(o, 0) == o.(payouts := [Reverted()])
  {
    WordIsNormal(R.HASH_DIGITS);
    WordIsNormal(R.ADDRESS_DIGITS);
    hide Balance, Word, R.Normalize, R.Transfers;
    assert R.Judge(ClaimOf(Submitted()), Checker(), REVERTED) == R.Judgement(R.Failed, R.Reverted, 1, Some(1));
    hide R.Judge;
  }

  lemma FirstFailed() returns (trace: seq<Event>, token: nat)
    ensures Desk(Run(Init(A.CONFIG, Checker()), trace), [Reverted()], [Heard(token)])
  {
    trace, token := FirstHeard();
    var o := Run(Init(A.CONFIG, Checker()), trace);
    ApplyStep(o, token);
    hide Run, Balance, Apply, Word, Submitted, Reverted, Heard;
    trace, o := OneMore(trace, ApplyEvent(0));
  }

  lemma RetryStep(o: Office, token: nat)
    requires Desk(o, [Reverted(), Asked()], [Heard(token)])
    ensures OutstandingCount(o.payouts, 0) == 1 && SubmitRefusal(o, 0, Word(R.HASH_DIGITS)).None?
    ensures RequestRefusal(o, 0, AMOUNT, Some(1)) == Some(TooManyOutstanding)
  {
    WordIsNormal(R.HASH_DIGITS);
    hide Balance, Word, R.Lower, R.Normalize;
    assert o.payouts[..1] == [Reverted()] && [Reverted()][..0] == [];
    assert OutstandingCount([Reverted()], 0) == 0;
    assert Reserved([Reverted()], 0, Some(0)) == 0;
    assert Reserved(o.payouts, 0, Some(0)) == AMOUNT;
    EmptyIsNoHash();
    assert !HashTakenBy(o.payouts, 0, Word(R.HASH_DIGITS));
  }

  lemma EmptyIsNoHash()
    ensures R.Lower("") != Word(R.HASH_DIGITS)
  {
    assert |R.Lower("")| == 0;
  }

  /** Under a limit of one outstanding payout: the first is submitted and reverted, a second is
      requested and a third refused, and then the first is retried, making two. */
  lemma RetryRun() returns (trace: seq<Event>)
    ensures var o := Run(Init(A.CONFIG, Checker()), trace);
            var retried := Step(o, SubmitEvent(0, Word(R.HASH_DIGITS)));
            && OutstandingCount(o.payouts, 0) == 1 && RequestRefusal(o, 0, AMOUNT, Some(1)) == Some(TooManyOutstanding)
            && OutstandingCount(retried.payouts, 0) == 2 > OutstandingLimit(Some(1))
  {
    var token;
    trace, token := FirstFailed();
    var o := Run(Init(A.CONFIG, Checker()), trace);
    assert [Reverted()][..0] == [];
    assert OutstandingCount([Reverted()], 0) == 0 && Reserved([Reverted()], 0, None) == 0;
    MayAsk(o, [Reverted()], [Heard(token)]);
    hide Run, Balance, Request, Word, Heard;
    trace, o := OneMore(trace, RequestEvent(0, AMOUNT, Some(1)));
    assert o.payouts == [Reverted(), Asked()];
    RetryStep(o, token);
    hide Submit, SubmitRefusal, RequestRefusal, OutstandingCount;
    RetryPassesTheLimit(o, Word(R.HASH_DIGITS));
  }
}
