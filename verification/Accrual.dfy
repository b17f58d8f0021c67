/** Integer accrual amounts and their bound over a month (app/services/earnings.py:190-193). */
module Accrual {
  import opened Wrappers
  import opened Intervals
  import opened EarningModel
  import opened LedgerInvariants

  /** What crediting each interval of `s` separately adds up to. */
  function Paid(s: seq<Interval>, rate: int): int {
    if s == [] then 0
    else Paid(s[..|s| - 1], rate) + Amount(rate, s[|s| - 1].end - s[|s| - 1].start)
  }

  lemma AmountBounds(rate: int, seconds: int)
    requires 0 <= rate
    ensures rate * seconds - MONTH_SECONDS < MONTH_SECONDS * Amount(rate, seconds) <= rate * seconds
  {
    var total := rate * seconds;
    assert total == MONTH_SECONDS * (total / MONTH_SECONDS) + total % MONTH_SECONDS;
  }

  /** However the time is cut, rounding loses less than one micro-dollar an entry and never adds any. */
  lemma {:induction false} PaidBounds(s: seq<Interval>, rate: int)
    requires 0 <= rate && NonEmpty(s)
    ensures rate * TotalLength(s) - MONTH_SECONDS * |s| <= MONTH_SECONDS * Paid(s, rate) <= rate * TotalLength(s)
    ensures s != [] ==> rate * TotalLength(s) - MONTH_SECONDS * |s| < MONTH_SECONDS * Paid(s, rate)
  {
    if s != [] {
      var p, d := s[..|s| - 1], s[|s| - 1].end - s[|s| - 1].start;
      PaidBounds(p, rate);
      AmountBounds(rate, d);
      assert rate * TotalLength(s) == rate * TotalLength(p) + rate * d by {
        Distribute(rate, TotalLength(p), d);
      }
    }
  }

  lemma Distribute(rate: int, a: int, b: int)
    ensures rate * (a + b) == rate * a + rate * b
  {}

  /** Intervals that do not overlap and lie within one month are paid at most the monthly rate. */
  lemma MonthBound(s: seq<Interval>, rate: int, from: int)
    requires 0 <= rate && NonEmpty(s) && Ordered(s)
    requires forall k :: 0 <= k < |s| ==> from <= s[k].start && s[k].end <= from + MONTH_SECONDS
    ensures Paid(s, rate) <= rate
  {
    OrderedWithin(s, from, from + MONTH_SECONDS);
    PaidBounds(s, rate);
    Scale(rate, TotalLength(s), MONTH_SECONDS);
    assert MONTH_SECONDS * Paid(s, rate) <= MONTH_SECONDS * rate;
  }

  lemma Scale(rate: int, a: int, b: int)
    requires 0 <= rate && a <= b
    ensures rate * a <= rate * b
  {}

  // ----- Applied to the ledger -----

  predicate Inside(e: Entry, i: nat, from: int, to: int) {
    e.proxy == i && from <= e.start && e.end <= to
  }

  /** The intervals of one proxy's entries inside [from, to], in ledger order. */
  function Slices(l: seq<Entry>, i: nat, from: int, to: int): seq<Interval> {
    if l == [] then []
    else
      var e := l[|l| - 1];
      Slices(l[..|l| - 1], i, from, to) + (if Inside(e, i, from, to) then [Interval(e.start, e.end)] else [])
  }

  function MicroInside(l: seq<Entry>, i: nat, from: int, to: int): int {
    if l == [] then 0
    else
      var e := l[|l| - 1];
      MicroInside(l[..|l| - 1], i, from, to) + (if Inside(e, i, from, to) then e.micro else 0)
  }

  lemma {:induction false} SliceOf(l: seq<Entry>, i: nat, from: int, to: int, k: nat)
    requires k < |Slices(l, i, from, to)|
    ensures exists n :: 0 <= n < |l| && Inside(l[n], i, from, to) && Slices(l, i, from, to)[k] == Interval(l[n].start, l[n].end)
  {
    var p := l[..|l| - 1];
    if k < |Slices(p, i, from, to)| {
      SliceOf(p, i, from, to, k);
      var n :| 0 <= n < |p| && Inside(p[n], i, from, to) && Slices(p, i, from, to)[k] == Interval(p[n].start, p[n].end);
      assert l[n] == p[n];
    }
  }

  lemma {:induction false} SlicesOrdered(l: seq<Entry>, i: nat, from: int, to: int)
    requires Disjoint(l) && forall n :: 0 <= n < |l| ==> l[n].start < l[n].end
    ensures NonEmpty(Slices(l, i, from, to)) && Ordered(Slices(l, i, from, to))
  {
    if l != [] {
      var p, e := l[..|l| - 1], l[|l| - 1];
      SlicesOrdered(p, i, from, to);
      var s := Slices(p, i, from, to);
      forall k | 0 <= k < |s| && Inside(e, i, from, to)
        ensures s[k].end <= e.start
      {
        SliceOf(p, i, from, to, k);
        var n :| 0 <= n < |p| && Inside(p[n], i, from, to) && s[k] == Interval(p[n].start, p[n].end);
        assert l[n] == p[n];
      }
    }
  }

  /** Entries priced at `rate` or below are paid at most what `rate` pays for their slices. */
  lemma {:induction false} MicroAtMost(l: seq<Entry>, i: nat, from: int, to: int, rate: int)
    requires forall n :: 0 <= n < |l| && Inside(l[n], i, from, to) ==> l[n].micro <= Amount(rate, l[n].end - l[n].start)
    ensures MicroInside(l, i, from, to) <= Paid(Slices(l, i, from, to), rate)
  {
    if l != [] {
      var p, e := l[..|l| - 1], l[|l| - 1];
      MicroAtMost(p, i, from, to, rate);
      var s := Slices(p, i, from, to);
      if Inside(l[|l| - 1], i, from, to) {
        assert (s + [Interval(e.start, e.end)])[..|s|] == s;
      } else {
        assert s + [] == s;
      }
    }
  }
}
