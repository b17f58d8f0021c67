/** What every interleaving of earning, payout requests and verification keeps. */
module PayoutInvariants {
  import opened Wrappers
  import E = EarningModel
  import EI = EarningInvariants
  import ET = EarningTheorems
  import R = Receipts
  import opened PayoutModel

  /** Amounts come from a quote, hashes are normalised, and a lease only sits on a verifying row. */
  predicate PayoutOk(p: Payout, nextToken: nat) {
    && QuoteFor(p.quote.amount) == Ok(p.quote)
    && (if p.status.Requested? || p.status.Approved? then p.txHash == "" else R.HexWord(p.txHash, R.HASH_DIGITS))
    && R.Lower(p.txHash) == p.txHash
    && (p.token.Some? ==> p.status.Verifying? && p.token.value < nextToken)
  }

  ghost predicate PayoutsOk(ps: seq<Payout>, nextToken: nat) {
    forall i :: 0 <= i < |ps| ==> PayoutOk(ps[i], nextToken)
  }

  ghost predicate HashesDiffer(ps: seq<Payout>) {
    forall i, j :: 0 <= i < j < |ps| && ps[i].txHash != "" ==> ps[i].txHash != ps[j].txHash
  }

  /** A token that is still on the row was read together with the hash that is still on the row. */
  predicate SessionOk(s: Session, ps: seq<Payout>, nextToken: nat) {
    && s.payout < |ps|
    && (s.reply.Some? ==> s.read.Some?)
    && (s.read.Some? ==>
          var c, p := s.read.value.claim, ps[s.payout];
          && c.address == p.address && c.net == p.quote.net && c.amount == p.quote.amount
          && (s.read.value.token.Some? ==> s.read.value.token.value < nextToken)
          && (s.read.value.token.Some? && s.read.value.token == p.token ==> c.txHash == p.txHash))
  }

  ghost predicate SessionsOk(ss: seq<Session>, ps: seq<Payout>, nextToken: nat) {
    forall k :: 0 <= k < |ss| ==> SessionOk(ss[k], ps, nextToken)
  }

  /** Some worker saw the chain confirm exactly this payout under exactly this hash. */
  predicate Proves(o: Office, k: nat, i: nat) {
    && k < |o.sessions| && i < |o.payouts| && o.sessions[k].payout == i
    && o.sessions[k].read.Some? && o.sessions[k].reply.Some?
    && o.sessions[k].read.value.claim == ClaimOf(o.payouts[i])
    && R.Pays(ClaimOf(o.payouts[i]), o.verifier, o.sessions[k].reply.value)
  }

  ghost predicate Proven(o: Office, i: nat) {
    exists k: nat :: Proves(o, k, i)
  }

  ghost predicate ConfirmedProven(o: Office) {
    forall i: nat :: i < |o.payouts| && o.payouts[i].status.Confirmed? ==> Proven(o, i)
  }

  ghost predicate Solvent(o: Office) {
    forall u: nat :: Reserved(o.payouts, u, None) <= AvailableTo(o, u)
  }

  ghost predicate OfficeInv(o: Office) {
    && EI.Inv(o.books)
    && PayoutsOk(o.payouts, o.nextToken)
    && HashesDiffer(o.payouts)
    && SessionsOk(o.sessions, o.payouts, o.nextToken)
    && ConfirmedProven(o)
    && Solvent(o)
  }

  // ----- Reserved sums -----

  /** Rewriting one row moves the sum by that row's share alone. */
  lemma {:induction false} ReservedUpdate(ps: seq<Payout>, i: nat, q: Payout, u: nat, skip: Option<nat>)
    requires i < |ps|
    ensures Reserved(ps[i := q], u, skip) ==
            Reserved(ps, u, Some(i)) + (if skip != Some(i) && Reserves(q, u) then q.quote.amount else 0)
            - (if skip.Some? && skip.value != i && skip.value < |ps| && Reserves(ps[skip.value], u) then ps[skip.value].quote.amount else 0)
    decreases |ps|
  {
    var n := |ps| - 1;
    if i < n {
      ReservedUpdate(ps[..n], i, q, u, skip);
      assert ps[i := q][..n] == ps[..n][i := q];
    } else {
      assert ps[i := q][..n] == ps[..n];
      ReservedSkip(ps[..n], u, skip, i);
    }
  }

  lemma {:induction false} ReservedSkip(ps: seq<Payout>, u: nat, skip: Option<nat>, beyond: nat)
    requires beyond >= |ps|
    ensures Reserved(ps, u, skip) == Reserved(ps, u, Some(beyond))
            - (if skip.Some? && skip.value < |ps| && Reserves(ps[skip.value], u) then ps[skip.value].quote.amount else 0)
  {
    if ps != [] {
      ReservedSkip(ps[..|ps| - 1], u, skip, beyond);
    }
  }

  /** A row rewritten for the same user and amount keeps the books solvent if it reserved before, does not now, or fits. */
  lemma RewriteSolvent(o: Office, i: nat, q: Payout)
    requires Solvent(o) && i < |o.payouts|
    requires q.user == o.payouts[i].user && q.quote == o.payouts[i].quote
    requires q.status.Failed? ==> q.quote.amount >= 0
    requires || !o.payouts[i].status.Failed?
             || q.status.Failed?
             || q.quote.amount <= AvailableTo(o, q.user) - Reserved(o.payouts, q.user, Some(i))
    ensures Solvent(SetPayout(o, i, q))
  {
    var after := SetPayout(o, i, q);
    forall u: nat
      ensures Reserved(after.payouts, u, None) <= AvailableTo(after, u)
    {
      ReservedUpdate(o.payouts, i, q, u, None);
      ReservedUpdate(o.payouts, i, o.payouts[i], u, None);
      assert o.payouts[i := o.payouts[i]] == o.payouts;
    }
  }

  // ----- Each step -----

  /** The conditions under which one payout row may be rewritten. */
  ghost predicate Rewritable(o: Office, i: nat, q: Payout) {
    && i < |o.payouts| && PayoutOk(q, o.nextToken)
    && q.user == o.payouts[i].user && q.quote == o.payouts[i].quote && q.address == o.payouts[i].address
    && (q.txHash == o.payouts[i].txHash || !HashTakenBy(o.payouts, i, q.txHash))
    && (q.token.None? || (q.token == o.payouts[i].token && q.txHash == o.payouts[i].txHash))
    && !o.payouts[i].status.Confirmed?
  }

  lemma RewriteRows(o: Office, i: nat, q: Payout)
    requires OfficeInv(o) && Rewritable(o, i, q)
    ensures PayoutsOk(o.payouts[i := q], o.nextToken) && HashesDiffer(o.payouts[i := q])
    ensures SessionsOk(o.sessions, o.payouts[i := q], o.nextToken)
  {
    hide QuoteFor, R.HexWord, R.Lower, Solvent, ConfirmedProven, EI.Inv;
    var ps, qs := o.payouts, o.payouts[i := q];
    forall j, k | 0 <= j < k < |qs| && qs[j].txHash != ""
      ensures qs[j].txHash != qs[k].txHash
    {
      assert R.Lower(ps[j].txHash) == ps[j].txHash by { assert PayoutOk(ps[j], o.nextToken); }
      assert R.Lower(ps[k].txHash) == ps[k].txHash by { assert PayoutOk(ps[k], o.nextToken); }
    }
    forall k | 0 <= k < |o.sessions|
      ensures SessionOk(o.sessions[k], qs, o.nextToken)
    {
      assert SessionOk(o.sessions[k], ps, o.nextToken);
    }
  }

  lemma RewriteProven(o: Office, i: nat, q: Payout)
    requires ConfirmedProven(o) && i < |o.payouts| && !o.payouts[i].status.Confirmed?
    requires q.status.Confirmed? ==> Proven(SetPayout(o, i, q), i)
    ensures ConfirmedProven(SetPayout(o, i, q))
  {
    var after := SetPayout(o, i, q);
    forall j: nat | j < |after.payouts| && after.payouts[j].status.Confirmed?
      ensures Proven(after, j)
    {
      if j != i {
        var k: nat :| Proves(o, k, j);
        assert Proves(after, k, j);
      }
    }
  }

  lemma ApproveInv(o: Office, i: nat)
    requires OfficeInv(o)
    ensures OfficeInv(Approve(o, i))
  {
    if i < |o.payouts| && o.payouts[i].status.Requested? {
      var q := o.payouts[i].(status := Approved);
      assert PayoutOk(o.payouts[i], o.nextToken);
      hide PayoutsOk, HashesDiffer, SessionsOk, ConfirmedProven, Solvent, EI.Inv, QuoteFor, R.Lower;
      RewriteRows(o, i, q);
      RewriteProven(o, i, q);
      RewriteSolvent(o, i, q);
    }
  }

  lemma SubmitInv(o: Office, i: nat, text: string)
    requires OfficeInv(o)
    ensures OfficeInv(Submit(o, i, text))
  {
    if SubmitRefusal(o, i, text).None? {
      var q := Submit(o, i, text).payouts[i];
      assert PayoutOk(o.payouts[i], o.nextToken);
      R.NormalForms(text, R.HASH_DIGITS);
      hide PayoutsOk, HashesDiffer, SessionsOk, ConfirmedProven, Solvent, EI.Inv, QuoteFor, Reserved, HashTakenBy;
      RewriteRows(o, i, q);
      RewriteProven(o, i, q);
      RewriteSolvent(o, i, q);
    }
  }

  lemma RequestInv(o: Office, user: nat, amount: int, limit: Option<int>)
    requires OfficeInv(o)
    ensures OfficeInv(Request(o, user, amount, limit))
  {
    var after := Request(o, user, amount, limit);
    if RequestRefusal(o, user, amount, limit).None? {
      var q := after.payouts[|o.payouts|];
      assert after.payouts[..|o.payouts|] == o.payouts;
      hide EI.Inv;
      assert R.Lower("") == "";
      assert PayoutOk(q, o.nextToken);
      hide QuoteFor, R.Lower, R.HexWord;
      forall k | 0 <= k < |o.sessions|
        ensures SessionOk(after.sessions[k], after.payouts, after.nextToken)
      {
        assert SessionOk(o.sessions[k], o.payouts, o.nextToken);
      }
      SameProofs(o, after);
      forall u: nat
        ensures Reserved(after.payouts, u, None) <= AvailableTo(after, u)
      {
        assert Reserved(o.payouts, u, None) <= AvailableTo(o, u);
      }
    }
  }

  /** Confirmed rows and their sessions untouched: their proofs stand. */
  lemma SameProofs(o: Office, after: Office)
    requires ConfirmedProven(o) && after.verifier == o.verifier
    requires |o.sessions| <= |after.sessions| && |o.payouts| <= |after.payouts|
    requires forall i :: 0 <= i < |o.payouts| && after.payouts[i].status.Confirmed? ==> after.payouts[i] == o.payouts[i]
    requires forall i :: |o.payouts| <= i < |after.payouts| ==> !after.payouts[i].status.Confirmed?
    requires forall k :: 0 <= k < |o.sessions| && o.sessions[k].read.Some? && o.sessions[k].reply.Some? ==> after.sessions[k] == o.sessions[k]
    ensures ConfirmedProven(after)
  {
    forall i: nat | i < |after.payouts| && after.payouts[i].status.Confirmed?
      ensures Proven(after, i)
    {
      var k: nat :| Proves(o, k, i);
      assert Proves(after, k, i);
    }
  }

  lemma ClaimInv(o: Office)
    requires OfficeInv(o)
    ensures OfficeInv(ClaimOne(o))
  {
    match FirstDue(o.payouts, |o.payouts|, o.books.clock)
    case None =>
    case Some(i) =>
      var after := ClaimOne(o);
      var q := after.payouts[i];
      hide EI.Inv, QuoteFor, R.Lower, R.HexWord, Solvent;
      assert PayoutOk(o.payouts[i], o.nextToken);
      forall k | 0 <= k < |after.sessions|
        ensures SessionOk(after.sessions[k], after.payouts, after.nextToken)
      {
        assert k < |o.sessions| ==> SessionOk(o.sessions[k], o.payouts, o.nextToken);
      }
      SameProofs(o, after);
      RewriteSolvent(o, i, q);
      assert Solvent(after) by { SolventReads(SetPayout(o, i, q), after); }
  }

  lemma SolventReads(o: Office, after: Office)
    requires Solvent(o) && after.payouts == o.payouts && after.books.ledger == o.books.ledger
    ensures Solvent(after)
  {
    forall u: nat
      ensures Reserved(after.payouts, u, None) <= AvailableTo(after, u)
    {
      assert Reserved(o.payouts, u, None) <= AvailableTo(o, u);
    }
  }

  lemma SessionStepInv(o: Office, s: nat, reply: R.Reply)
    requires OfficeInv(o)
    ensures OfficeInv(ReadBack(o, s)) && OfficeInv(Hear(o, s, reply))
  {
    hide EI.Inv, QuoteFor, R.Lower, R.HexWord, Solvent;
    SolventReads(o, ReadBack(o, s));
    SolventReads(o, Hear(o, s, reply));
    SameProofs(o, ReadBack(o, s));
    SameProofs(o, Hear(o, s, reply));
    if s < |o.sessions| && o.sessions[s].payout < |o.payouts| {
      assert PayoutOk(o.payouts[o.sessions[s].payout], o.nextToken);
    }
  }

  lemma ApplyInv(o: Office, s: nat)
    requires OfficeInv(o)
    ensures OfficeInv(Apply(o, s)) && OfficeInv(Release(o, s))
  {
    if Holds(o, s) {
      var i := o.sessions[s].payout;
      var p := o.payouts[i];
      assert PayoutOk(p, o.nextToken) && SessionOk(o.sessions[s], o.payouts, o.nextToken);
      hide PayoutsOk, HashesDiffer, SessionsOk, ConfirmedProven, Solvent, EI.Inv, QuoteFor, R.Lower, R.HexWord, R.Judge, R.Pays;
      var q := Release(o, s).payouts[i];
      RewriteRows(o, i, q);
      RewriteProven(o, i, q);
      RewriteSolvent(o, i, q);
      if o.sessions[s].reply.Some? {
        var j := Outcome(o, o.sessions[s]);
        var v := Verified(p, j, o.books.clock);
        R.ConfirmedExactly(o.sessions[s].read.value.claim, o.verifier, o.sessions[s].reply.value);
        assert v.status.Confirmed? ==> Proves(SetPayout(o, i, v), s, i);
        assert QuoteFor(p.quote.amount) == Ok(p.quote) && p.quote.amount >= 0 by { QuotedPositive(p.quote.amount); }
        RewriteRows(o, i, v);
        RewriteProven(o, i, v);
        RewriteSolvent(o, i, v);
      }
    }
  }

  lemma QuotedPositive(amount: int)
    requires QuoteFor(amount).Ok?
    ensures amount >= MIN_PAYOUT > 0
  {}

  lemma EarnInv(o: Office, e: E.Event, delay: nat)
    requires OfficeInv(o)
    ensures OfficeInv(Step(o, Earn(e, delay)))
  {
    hide E.Step, PayoutsOk, HashesDiffer, SessionsOk, EI.Inv;
    var after := Step(o, Earn(e, delay));
    assert EI.Inv(after.books) by { var _ := EI.StepInv(o.books, e, delay); }
    SameProofs(o, after);
    forall u: nat
      ensures Reserved(after.payouts, u, None) <= AvailableTo(after, u)
    {
      ET.BalanceNeverFalls(o.books, e, delay, u);
      assert Reserved(o.payouts, u, None) <= AvailableTo(o, u);
    }
  }

  lemma StepInv(o: Office, e: Event) returns (after: Office)
    requires OfficeInv(o)
    ensures after == Step(o, e) && OfficeInv(after)
  {
    hide OfficeInv, Request, Approve, Submit, ClaimOne, ReadBack, Hear, Apply, Release, E.Step;
    after := Step(o, e);
    match e
    case Earn(earning, delay) => EarnInv(o, earning, delay);
    case SetWallet(owner, wallet) => WalletInv(o, owner, wallet);
    case RequestEvent(user, amount, limit) => RequestInv(o, user, amount, limit);
    case ApproveEvent(i) => ApproveInv(o, i);
    case SubmitEvent(i, text) => SubmitInv(o, i, text);
    case ClaimEvent => ClaimInv(o);
    case ReadBackEvent(s) => SessionStepInv(o, s, R.Reply(None, None, None));
    case HearEvent(s, reply) => SessionStepInv(o, s, reply);
    case ApplyEvent(s) => ApplyInv(o, s);
    case ReleaseEvent(s) => ApplyInv(o, s);
  }

  lemma WalletInv(o: Office, owner: nat, wallet: Wallet)
    requires OfficeInv(o)
    ensures OfficeInv(o.(wallets := o.wallets[owner := wallet]))
  {
    hide EI.Inv, PayoutsOk, HashesDiffer, SessionsOk;
    var after := o.(wallets := o.wallets[owner := wallet]);
    SameProofs(o, after);
    SolventReads(o, after);
  }

  lemma {:induction false} RunInv(cfg: E.Config, verifier: R.Verifier, trace: seq<Event>)
    requires E.ConfigOk(cfg)
    ensures OfficeInv(Run(Init(cfg, verifier), trace))
  {
    if trace != [] {
      hide OfficeInv, Step;
      RunInv(cfg, verifier, trace[..|trace| - 1]);
      var _ := StepInv(Run(Init(cfg, verifier), trace[..|trace| - 1]), trace[|trace| - 1]);
    } else {
      EI.RunInv(cfg, []);
      forall u: nat
        ensures Reserved([], u, None) <= AvailableTo(Init(cfg, verifier), u)
      {
      }
    }
  }

  // ----- The promises -----

  /** Committed payouts never exceed earned money, on every run and for every user. */
  lemma CommittedIsEarned(cfg: E.Config, verifier: R.Verifier, trace: seq<Event>, user: nat)
    requires E.ConfigOk(cfg)
    ensures var o := Run(Init(cfg, verifier), trace);
            Reserved(o.payouts, user, None) <= AvailableTo(o, user)
  {
    hide EI.Inv, PayoutsOk, HashesDiffer, SessionsOk, ConfirmedProven, Run;
    RunInv(cfg, verifier, trace);
  }

  /** A confirmed payout was paid: the chain answered, for the hash it holds, with a settled
      transfer of its net amount to its wallet; and no other payout holds that hash. */
  lemma ConfirmedWasPaid(cfg: E.Config, verifier: R.Verifier, trace: seq<Event>, i: nat)
    requires E.ConfigOk(cfg)
    requires i < |Run(Init(cfg, verifier), trace).payouts| && Run(Init(cfg, verifier), trace).payouts[i].status.Confirmed?
    ensures var o := Run(Init(cfg, verifier), trace);
            && Proven(o, i)
            && forall j: nat :: j < |o.payouts| && j != i ==> o.payouts[j].txHash != o.payouts[i].txHash
  {
    var o := Run(Init(cfg, verifier), trace);
    RunInv(cfg, verifier, trace);
    hide Run, R.HexWord, QuoteFor, R.Lower, EI.Inv, Solvent, SessionsOk;
    assert PayoutOk(o.payouts[i], o.nextToken);
    assert R.HexWord(o.payouts[i].txHash, R.HASH_DIGITS) ==> o.payouts[i].txHash != "" by { WordsAreNotEmpty(o.payouts[i].txHash); }
  }

  lemma WordsAreNotEmpty(s: string)
    ensures R.HexWord(s, R.HASH_DIGITS) ==> s != ""
  {}

  /** A result is applied only to the hash it was computed for. */
  lemma AppliedToItsOwnHash(o: Office, s: nat)
    requires OfficeInv(o) && Apply(o, s) != o
    ensures Holds(o, s) && o.sessions[s].read.value.claim == ClaimOf(o.payouts[o.sessions[s].payout])
  {
    assert SessionOk(o.sessions[s], o.payouts, o.nextToken);
  }

  /** One uninterrupted pass of the worker judges the first due payout on the hash it holds. */
  lemma UninterruptedPass(o: Office, reply: R.Reply)
    ensures var s, due := |o.sessions|, FirstDue(o.payouts, |o.payouts|, o.books.clock);
            due.Some? ==>
              var p := o.payouts[due.value];
              Apply(Hear(ReadBack(ClaimOne(o), s), s, reply), s).payouts
              == o.payouts[due.value := Verified(p, R.Judge(ClaimOf(p), o.verifier, reply), o.books.clock)]
  {
    hide FirstDue, R.Judge;
    var s, due := |o.sessions|, FirstDue(o.payouts, |o.payouts|, o.books.clock);
    if due.Some? {
      var claimed := ClaimOne(o);
      var heard := Hear(ReadBack(claimed, s), s, reply);
      assert Holds(heard, s) && heard.payouts == claimed.payouts;
    }
  }

  /** No session holds the row right after a resubmission. */
  lemma ResubmittingFences(o: Office, i: nat, text: string, s: nat)
    requires OfficeInv(o) && SubmitRefusal(o, i, text).None?
    requires s < |o.sessions| && o.sessions[s].payout == i
    ensures Apply(Submit(o, i, text), s) == Submit(o, i, text)
  {}

  /** The session read its token before `from`, and the row's token, if any, was issued later. */
  predicate CutOff(o: Office, i: nat, s: nat, from: nat) {
    && s < |o.sessions| && o.sessions[s].payout == i < |o.payouts| && o.sessions[s].read.Some?
    && (o.sessions[s].read.value.token.Some? ==> o.sessions[s].read.value.token.value < from)
    && from <= o.nextToken
    && (o.payouts[i].token.Some? ==> o.payouts[i].token.value >= from)
  }

  lemma StaysCutOff(o: Office, e: Event, i: nat, s: nat, from: nat)
    requires CutOff(o, i, s, from)
    ensures CutOff(Step(o, e), i, s, from) && !Holds(Step(o, e), s)
  {
    hide E.Step, RequestRefusal, SubmitRefusal, R.Judge, FirstDue;
    assert e.SubmitEvent? && SubmitRefusal(o, e.i, e.text).None? ==> e.i < |o.payouts| by {
      if e.SubmitEvent? && SubmitRefusal(o, e.i, e.text).None? {
        Submittable(o, e.i, e.text);
      }
    }
  }

  lemma {:induction false} CutOffForever(o: Office, trace: seq<Event>, i: nat, s: nat, from: nat)
    requires CutOff(o, i, s, from)
    ensures CutOff(Run(o, trace), i, s, from)
  {
    if trace != [] {
      hide Step, CutOff;
      CutOffForever(o, trace[..|trace| - 1], i, s, from);
      StaysCutOff(Run(o, trace[..|trace| - 1]), trace[|trace| - 1], i, s, from);
    }
  }

  /** Resubmitting cuts off, for every later run, each session that had read the payout before. */
  lemma ResubmittingFencesForever(o: Office, i: nat, text: string, s: nat, trace: seq<Event>)
    requires OfficeInv(o) && SubmitRefusal(o, i, text).None?
    requires s < |o.sessions| && o.sessions[s].payout == i && o.sessions[s].read.Some?
    ensures var later := Run(Submit(o, i, text), trace);
            !Holds(later, s) && Apply(later, s) == later && Release(later, s) == later
  {
    assert SessionOk(o.sessions[s], o.payouts, o.nextToken);
    Submittable(o, i, text);
    hide SubmitRefusal, OfficeInv, Run;
    assert CutOff(Submit(o, i, text), i, s, o.nextToken);
    CutOffForever(Submit(o, i, text), trace, i, s, o.nextToken);
    assert CutOff(Run(Submit(o, i, text), trace), i, s, o.nextToken);
    hide Submit;
  }

  /** A session that had not read yet reads whatever the row holds by then, so it can only ever
      apply to the hash it read, which is a later one. */
  lemma LateReadersHoldTheNewHash(o: Office, s: nat)
    requires OfficeInv(o) && s < |o.sessions| && o.sessions[s].read.None?
    ensures var after := ReadBack(o, s);
            && o.sessions[s].payout < |o.payouts| && after.sessions[s].read.Some?
            && after.sessions[s].read.value == Snapshot(o.payouts[o.sessions[s].payout].token, ClaimOf(o.payouts[o.sessions[s].payout]))
  {
    assert SessionOk(o.sessions[s], o.payouts, o.nextToken);
  }

  /** A confirmed row never changes again. */
  lemma ConfirmedIsFinal(o: Office, e: Event, i: nat)
    requires i < |o.payouts| && o.payouts[i].status.Confirmed?
    ensures i < |Step(o, e).payouts| && Step(o, e).payouts[i] == o.payouts[i]
  {
    hide E.Step, QuoteFor, R.Judge, R.Normalize;
  }

  lemma {:induction false} ConfirmedForever(o: Office, trace: seq<Event>, i: nat)
    requires i < |o.payouts| && o.payouts[i].status.Confirmed?
    ensures i < |Run(o, trace).payouts| && Run(o, trace).payouts[i] == o.payouts[i]
  {
    if trace != [] {
      hide Step;
      ConfirmedForever(o, trace[..|trace| - 1], i);
      ConfirmedIsFinal(Run(o, trace[..|trace| - 1]), trace[|trace| - 1], i);
    }
  }

  // ----- Outstanding payouts -----

  function Counts(p: Payout, u: nat): nat {
    if Outstanding(p, u) then 1 else 0
  }

  lemma {:induction false} OutstandingUpdate(ps: seq<Payout>, i: nat, q: Payout, u: nat)
    requires i < |ps|
    ensures OutstandingCount(ps[i := q], u) == OutstandingCount(ps, u) - Counts(ps[i], u) + Counts(q, u)
    decreases |ps|
  {
    var n := |ps| - 1;
    if i < n {
      OutstandingUpdate(ps[..n], i, q, u);
      assert ps[i := q][..n] == ps[..n][i := q];
    } else {
      assert ps[i := q][..n] == ps[..n];
    }
  }

  lemma Rewritten(o: Office, after: Office, i: nat, u: nat)
    requires i < |o.payouts| == |after.payouts| && after.payouts == o.payouts[i := after.payouts[i]]
    ensures OutstandingCount(after.payouts, u) == OutstandingCount(o.payouts, u) - Counts(o.payouts[i], u) + Counts(after.payouts[i], u)
  {
    OutstandingUpdate(o.payouts, i, after.payouts[i], u);
  }

  predicate RetriesFailed(o: Office, e: Event, u: nat) {
    && e.SubmitEvent? && SubmitRefusal(o, e.i, e.text).None?
    && o.payouts[e.i].status.Failed? && o.payouts[e.i].user == u
  }

  lemma SubmitGrowth(o: Office, i: nat, text: string, u: nat)
    ensures OutstandingCount(Submit(o, i, text).payouts, u) > OutstandingCount(o.payouts, u) <==> RetriesFailed(o, SubmitEvent(i, text), u)
  {
    hide SubmitRefusal, OutstandingCount;
    if SubmitRefusal(o, i, text).None? {
      Submittable(o, i, text);
      Rewritten(o, Submit(o, i, text), i, u);
    }
  }

  predicate SubmittableStatus(p: Payout) {
    p.status.Approved? || p.status.Failed? || p.status.Verifying?
  }

  lemma Submittable(o: Office, i: nat, text: string)
    requires SubmitRefusal(o, i, text).None?
    ensures i < |o.payouts| && SubmittableStatus(o.payouts[i])
  {}

  lemma RequestGrowth(o: Office, user: nat, amount: int, limit: Option<int>, u: nat)
    ensures var before, after := OutstandingCount(o.payouts, u), OutstandingCount(Request(o, user, amount, limit).payouts, u);
            var requested := user == u && RequestRefusal(o, user, amount, limit).None?;
            && (after > before <==> requested)
            && (requested ==> after == before + 1 <= OutstandingLimit(limit))
  {
    hide QuoteFor, Reserved;
    assert RequestRefusal(o, user, amount, limit).None? ==> Request(o, user, amount, limit).payouts[..|o.payouts|] == o.payouts;
  }

  lemma WorkerGrowth(o: Office, i: nat, s: nat, u: nat)
    ensures OutstandingCount(Approve(o, i).payouts, u) <= OutstandingCount(o.payouts, u)
    ensures OutstandingCount(ClaimOne(o).payouts, u) <= OutstandingCount(o.payouts, u)
    ensures OutstandingCount(Apply(o, s).payouts, u) <= OutstandingCount(o.payouts, u)
    ensures OutstandingCount(Release(o, s).payouts, u) <= OutstandingCount(o.payouts, u)
  {
    hide OutstandingCount, FirstDue, R.Judge;
    if i < |o.payouts| {
      Rewritten(o, Approve(o, i), i, u);
    }
    if Holds(o, s) {
      Rewritten(o, Apply(o, s), o.sessions[s].payout, u);
      Rewritten(o, Release(o, s), o.sessions[s].payout, u);
    }
    var due := FirstDue(o.payouts, |o.payouts|, o.books.clock);
    if due.Some? {
      Rewritten(o, ClaimOne(o), due.value, u);
    }
  }

  /** A request respects the limit; the only other step that adds an outstanding payout is the
      retry of a failed one, which does not count again. */
  lemma OutstandingGrowth(o: Office, e: Event, u: nat)
    ensures var before, after := OutstandingCount(o.payouts, u), OutstandingCount(Step(o, e).payouts, u);
            var requested := e.RequestEvent? && e.user == u && RequestRefusal(o, u, e.amount, e.limit).None?;
            && (after > before <==> requested || RetriesFailed(o, e, u))
            && (requested ==> after == before + 1 <= OutstandingLimit(e.limit))
  {
    hide E.Step, Request, RequestRefusal, Submit, SubmitRefusal, Approve, ClaimOne, Apply, Release, OutstandingCount;
    match e
    case RequestEvent(user, amount, limit) => RequestGrowth(o, user, amount, limit, u);
    case SubmitEvent(i, text) => SubmitGrowth(o, i, text, u);
    case ApproveEvent(i) => WorkerGrowth(o, i, 0, u);
    case ClaimEvent => WorkerGrowth(o, 0, 0, u);
    case ApplyEvent(s) => WorkerGrowth(o, 0, s, u);
    case ReleaseEvent(s) => WorkerGrowth(o, 0, s, u);
    case _ =>
  }

  /** Two payouts under a limit of one: the first fails, a second is requested, the first is retried. */
  lemma RetryPassesTheLimit(o: Office, text: string)
    requires |o.payouts| == 2 && o.payouts[0].status.Failed? && o.payouts[1].status.Requested?
    requires o.payouts[0].user == o.payouts[1].user && SubmitRefusal(o, 0, text).None?
    ensures OutstandingCount(o.payouts, o.payouts[0].user) == 1
    ensures OutstandingCount(Submit(o, 0, text).payouts, o.payouts[0].user) == 2
  {
    var u := o.payouts[0].user;
    OutstandingUpdate(o.payouts, 0, Submit(o, 0, text).payouts[0], u);
    assert o.payouts[..1][..0] == [] && o.payouts[..1][0] == o.payouts[0];
    assert OutstandingCount(o.payouts[..1], u) == 0;
  }
}
