/** Half-open intervals of whole seconds and the seconds they cover.

    The display code sorts and merges ledger intervals before summing them
    (app/services/earnings.py:103-113).  Here the sum is shown to be the number of
    distinct covered seconds, whatever the order and overlap of the input. */
module Intervals {

  datatype Interval = Interval(start: int, end: int)

  /** The seconds of one interval. */
  function Span(a: int, b: int): (r: set<int>)
    ensures forall t :: t in r <==> a <= t < b
    decreases b - a
  {
    if b <= a then {} else Span(a, b - 1) + {b - 1}
  }

  /** The seconds covered by at least one interval. */
  function Covered(s: seq<Interval>): set<int> {
    if s == [] then {} else Covered(s[..|s| - 1]) + Span(s[|s| - 1].start, s[|s| - 1].end)
  }

  function TotalLength(s: seq<Interval>): int {
    if s == [] then 0 else TotalLength(s[..|s| - 1]) + s[|s| - 1].end - s[|s| - 1].start
  }

  ghost predicate NonEmpty(s: seq<Interval>) {
    forall i :: 0 <= i < |s| ==> s[i].start < s[i].end
  }

  /** Each interval ends before, or exactly where, every later one starts. */
  ghost predicate Ordered(s: seq<Interval>) {
    forall i, j :: 0 <= i < j < |s| ==> s[i].end <= s[j].start
  }

  /** Python's tuple order, used by `sorted`. */
  predicate AtMost(a: Interval, b: Interval) {
    a.start < b.start || (a.start == b.start && a.end <= b.end)
  }

  ghost predicate IsSorted(s: seq<Interval>) {
    forall i, j :: 0 <= i < j < |s| ==> AtMost(s[i], s[j])
  }

  lemma {:induction false} CoveredMember(s: seq<Interval>, t: int)
    ensures t in Covered(s) <==> exists i :: 0 <= i < |s| && s[i].start <= t < s[i].end
  {
    if s != [] {
      var p := s[..|s| - 1];
      CoveredMember(p, t);
      assert t in Covered(s) <==> t in Covered(p) || s[|s| - 1].start <= t < s[|s| - 1].end;
      if exists i :: 0 <= i < |s| && s[i].start <= t < s[i].end {
        var i :| 0 <= i < |s| && s[i].start <= t < s[i].end;
        if i < |s| - 1 {
          assert p[i] == s[i];
        }
      }
      if t in Covered(p) {
        var i :| 0 <= i < |p| && p[i].start <= t < p[i].end;
        assert s[i] == p[i];
      }
    }
  }

  lemma {:induction false} SpanSize(a: int, b: int)
    requires a <= b
    ensures |Span(a, b)| == b - a
    decreases b - a
  {
    if a < b { SpanSize(a, b - 1); }
  }

  /** Intervals that do not overlap cover as many seconds as their lengths add up to. */
  lemma {:induction false} OrderedTotal(s: seq<Interval>)
    requires NonEmpty(s) && Ordered(s)
    ensures TotalLength(s) == |Covered(s)|
  {
    if s != [] {
      var p, last := s[..|s| - 1], s[|s| - 1];
      OrderedTotal(p);
      SpanSize(last.start, last.end);
      forall t | t in Covered(p)
        ensures t !in Span(last.start, last.end)
      {
        CoveredMember(p, t);
      }
      assert Covered(p) !! Span(last.start, last.end);
    }
  }

  /** Non-overlapping intervals inside a window are no longer than the window. */
  lemma OrderedWithin(s: seq<Interval>, a: int, b: int)
    requires NonEmpty(s) && Ordered(s) && a <= b
    requires forall i :: 0 <= i < |s| ==> a <= s[i].start && s[i].end <= b
    ensures TotalLength(s) <= b - a
  {
    OrderedTotal(s);
    SpanSize(a, b);
    forall t | t in Covered(s)
      ensures t in Span(a, b)
    {
      CoveredMember(s, t);
    }
    SubsetSize(Covered(s), Span(a, b));
  }

  lemma SubsetSize(a: set<int>, b: set<int>)
    requires a <= b
    ensures |a| <= |b|
  {
    assert b == a + (b - a);
  }

  function Insert(x: Interval, s: seq<Interval>): seq<Interval> {
    if s == [] || AtMost(x, s[0]) then [x] + s else [s[0]] + Insert(x, s[1..])
  }

  /** `sorted(intervals)`. */
  function Sort(s: seq<Interval>): seq<Interval> {
    if s == [] then [] else Insert(s[0], Sort(s[1..]))
  }

  lemma {:induction false} InsertContents(x: Interval, s: seq<Interval>)
    ensures multiset(Insert(x, s)) == multiset(s) + multiset{x}
  {
    if !(s == [] || AtMost(x, s[0])) {
      InsertContents(x, s[1..]);
      assert s == [s[0]] + s[1..];
    }
  }

  lemma {:induction false} SortContents(s: seq<Interval>)
    ensures multiset(Sort(s)) == multiset(s)
  {
    if s != [] {
      SortContents(s[1..]);
      InsertContents(s[0], Sort(s[1..]));
      assert s == [s[0]] + s[1..];
    }
  }

  ghost predicate FirstAtMost(x: Interval, s: seq<Interval>) {
    forall k :: 0 <= k < |s| ==> AtMost(x, s[k])
  }

  lemma {:induction false} InsertSorted(x: Interval, s: seq<Interval>)
    requires IsSorted(s)
    ensures IsSorted(Insert(x, s))
    ensures forall h :: FirstAtMost(h, s) && AtMost(h, x) ==> FirstAtMost(h, Insert(x, s))
  {
    if s == [] || AtMost(x, s[0]) {
    } else {
      InsertSorted(x, s[1..]);
      assert FirstAtMost(s[0], s[1..]);
    }
  }

  lemma {:induction false} SortSorted(s: seq<Interval>)
    ensures IsSorted(Sort(s))
  {
    if s != [] {
      SortSorted(s[1..]);
      InsertSorted(s[0], Sort(s[1..]));
    }
  }

  lemma SameElementsCover(r: seq<Interval>, s: seq<Interval>, t: int)
    requires multiset(r) == multiset(s)
    requires t in Covered(r)
    ensures t in Covered(s)
  {
    CoveredMember(r, t);
    CoveredMember(s, t);
    var i :| 0 <= i < |r| && r[i].start <= t < r[i].end;
    assert r[i] in multiset(s);
    var j :| 0 <= j < |s| && s[j] == r[i];
  }

  lemma SortCovers(s: seq<Interval>)
    ensures Covered(Sort(s)) == Covered(s)
  {
    var r := Sort(s);
    SortContents(s);
    forall t
      ensures t in Covered(r) <==> t in Covered(s)
    {
      if t in Covered(r) { SameElementsCover(r, s, t); }
      if t in Covered(s) { SameElementsCover(s, r, t); }
    }
  }

  lemma CoveredAppend(s: seq<Interval>, x: Interval)
    ensures Covered(s + [x]) == Covered(s) + Span(x.start, x.end)
  {
    assert (s + [x])[..|s|] == s;
  }

  /** Extending the last interval to the end of one that touches it adds exactly the new seconds. */
  lemma CoveredExtend(front: seq<Interval>, last: Interval, next: Interval, end: int)
    requires last.start <= next.start <= last.end
    requires end == if next.end > last.end then next.end else last.end
    ensures Covered(front + [Interval(last.start, end)]) == Covered(front + [last]) + Span(next.start, next.end)
  {
    CoveredAppend(front, last);
    CoveredAppend(front, Interval(last.start, end));
    assert Span(last.start, end) == Span(last.start, last.end) + Span(next.start, next.end);
  }

  ghost predicate EndsAtMost(s: seq<Interval>, end: int) {
    forall i :: 0 <= i < |s| ==> s[i].end <= end
  }

  ghost predicate EndsAt(s: seq<Interval>, end: int) {
    exists i :: 0 <= i < |s| && s[i].end == end
  }

  /** What the loop below has established once it has consumed `done`. */
  ghost predicate MergeOf(done: seq<Interval>, merged: seq<Interval>) {
    && NonEmpty(merged) && Ordered(merged)
    && Covered(merged) == Covered(done)
    && (merged == []) == (done == [])
    && (merged != [] ==>
          && merged[|merged| - 1].start <= done[|done| - 1].start
          && EndsAt(done, merged[|merged| - 1].end)
          && EndsAtMost(done, merged[|merged| - 1].end))
  }

  lemma OpenNew(done: seq<Interval>, merged: seq<Interval>, next: Interval)
    requires MergeOf(done, merged) && next.start < next.end
    requires merged != [] ==> merged[|merged| - 1].end < next.start
    ensures MergeOf(done + [next], merged + [next])
  {
    var m, all := merged + [next], done + [next];
    assert Covered(m) == Covered(all) by {
      CoveredAppend(done, next);
      CoveredAppend(merged, next);
    }
    assert all[|done|].end == m[|m| - 1].end && m[|m| - 1].start == all[|all| - 1].start;
    assert Ordered(m) by {
      if merged != [] { LastEndsLast(merged); }
    }
    assert EndsAtMost(all, next.end);
  }

  lemma LastEndsLast(s: seq<Interval>)
    requires s != [] && NonEmpty(s) && Ordered(s)
    ensures EndsAtMost(s, s[|s| - 1].end)
  {
    forall i | 0 <= i < |s|
      ensures s[i].end <= s[|s| - 1].end
    {
      if i < |s| - 1 {
        assert s[i].end <= s[|s| - 1].start;
      }
    }
  }

  lemma ExtendLast(done: seq<Interval>, front: seq<Interval>, last: Interval, next: Interval, end: int)
    requires MergeOf(done, front + [last]) && next.start < next.end
    requires done[|done| - 1].start <= next.start <= last.end
    requires end == if next.end > last.end then next.end else last.end
    ensures MergeOf(done + [next], front + [Interval(last.start, end)])
  {
    CoveredAppend(done, next);
    var m := front + [last];
    assert m[|m| - 1] == last;
    CoveredExtend(front, last, next, end);
    var all := done + [next];
    assert all[|done|] == next;
    var i :| 0 <= i < |done| && done[i].end == last.end;
    assert all[i] == done[i];
    var r := front + [Interval(last.start, end)];
    assert forall k :: 0 <= k < |front| ==> r[k] == m[k];
  }

  /** The merge loop: extends the last merged interval in place while the next one
      touches it, and opens a new one otherwise. */
  method Merge(sorted: seq<Interval>) returns (merged: seq<Interval>)
    requires NonEmpty(sorted) && IsSorted(sorted)
    ensures NonEmpty(merged) && Ordered(merged)
    ensures Covered(merged) == Covered(sorted) && TotalLength(merged) == |Covered(sorted)|
    ensures (merged == []) == (sorted == [])
    ensures sorted != [] ==> EndsAt(sorted, merged[|merged| - 1].end) && EndsAtMost(sorted, merged[|merged| - 1].end)
  {
    hide Covered, TotalLength;
    merged := [];
    var n := 0;
    while n < |sorted|
      invariant 0 <= n <= |sorted|
      invariant MergeOf(sorted[..n], merged)
    {
      var next := sorted[n];
      assert sorted[..n + 1] == sorted[..n] + [next];
      assert n > 0 ==> AtMost(sorted[n - 1], next);
      if merged != [] && next.start <= merged[|merged| - 1].end {
        var k := |merged| - 1;
        var last := merged[k];
        var end := if next.end > last.end then next.end else last.end;
        assert merged == merged[..k] + [last];
        ExtendLast(sorted[..n], merged[..k], last, next, end);
        merged := merged[..k] + [Interval(last.start, end)];
      } else {
        OpenNew(sorted[..n], merged, next);
        merged := merged + [next];
      }
      n := n + 1;
    }
    assert sorted[..n] == sorted && Covered(sorted[..n]) == Covered(sorted);
    OrderedTotal(merged);
  }
}
