/** The history log and the end-of-run evaluation over it. */
module Evaluation {

  /** One history record: the day, the reported total and the haze multiplier used. */
  datatype Entry = Entry(day: int, total: real, hazeMult: real)

  /** The three end-of-run outcomes: a brutal week, bad but improved, a strong outcome. */
  datatype Tier = Brutal | Improved | Strong

  /** A log whose every reported total is non-negative, as the engine keeps it. */
  predicate TotalsNonNeg(h: seq<Entry>) {
    forall i :: 0 <= i < |h| ==> h[i].total >= 0.0
  }

  /** The sum of the reported totals, accumulated left to right from 0. */
  function SumTotals(h: seq<Entry>): real
    decreases |h|
  {
    if h == [] then 0.0 else SumTotals(h[..|h| - 1]) + h[|h| - 1].total
  }

  /** The mean reported total over the whole log. */
  function MeanTotal(h: seq<Entry>): (avg: real)
    requires |h| > 0
    ensures TotalsNonNeg(h) ==> avg >= 0.0
  {
    assert TotalsNonNeg(h) ==> SumTotals(h) >= 0.0 by {
      if TotalsNonNeg(h) {
        SumAtLeast(h, 0.0);
      }
    }
    SumTotals(h) / |h| as real
  }

  /** The mean lies between any lower and upper bound of the totals; in particular the mean of
      a log whose totals are all equal is that total. */
  lemma MeanWithin(h: seq<Entry>, lo: real, hi: real)
    requires |h| > 0
    requires forall i :: 0 <= i < |h| ==> lo <= h[i].total <= hi
    ensures lo <= MeanTotal(h) <= hi
  {
    SumAtMost(h, hi);
    SumAtLeast(h, lo);
    DivAtMost(SumTotals(h), |h| as real, hi);
    DivAtLeast(SumTotals(h), |h| as real, lo);
  }

  /** The thresholds: above 180 is a brutal week, above 120 bad but improved, else strong. */
  function Classify(avg: real): (t: Tier)
    ensures t == Brutal <==> avg > 180.0
    ensures t == Strong <==> avg <= 120.0
  {
    if avg > 180.0 then Brutal else if avg > 120.0 then Improved else Strong
  }

  /** A worse average never earns a better tier. */
  lemma ClassifyMonotone(avg1: real, avg2: real)
    requires avg1 <= avg2
    ensures Classify(avg2) == Strong ==> Classify(avg1) == Strong
    ensures Classify(avg1) == Brutal ==> Classify(avg2) == Brutal
  {
  }

  /** Appending one record adds its total to the sum. */
  lemma SumAppend(h: seq<Entry>, e: Entry)
    ensures SumTotals(h + [e]) == SumTotals(h) + e.total
  {
    assert (h + [e])[..|h|] == h;
  }

  /** If no total exceeds `hi`, the sum is at most `|h| * hi`. */
  lemma {:induction false} SumAtMost(h: seq<Entry>, hi: real)
    requires forall i :: 0 <= i < |h| ==> h[i].total <= hi
    ensures SumTotals(h) <= |h| as real * hi
    decreases |h|
  {
    if h != [] {
      var init, n := h[..|h| - 1], |h| as real;
      assert forall i :: 0 <= i < |init| ==> init[i] == h[i];
      SumAtMost(init, hi);
      assert SumTotals(h) == SumTotals(init) + h[|h| - 1].total;
      StepUp(SumTotals(init), h[|h| - 1].total, n, hi);
    } else {
      assert |h| as real * hi == 0.0 * hi == 0.0;
    }
  }

  /** If every total is at least `lo`, the sum is at least `|h| * lo`. */
  lemma {:induction false} SumAtLeast(h: seq<Entry>, lo: real)
    requires forall i :: 0 <= i < |h| ==> lo <= h[i].total
    ensures |h| as real * lo <= SumTotals(h)
    decreases |h|
  {
    if h != [] {
      var init, n := h[..|h| - 1], |h| as real;
      assert forall i :: 0 <= i < |init| ==> init[i] == h[i];
      SumAtLeast(init, lo);
      assert SumTotals(h) == SumTotals(init) + h[|h| - 1].total;
      StepDown(SumTotals(init), h[|h| - 1].total, n, lo);
    } else {
      assert |h| as real * lo == 0.0 * lo == 0.0;
    }
  }

  /** If every total is above `lo`, the sum of a non-empty log is strictly above `|h| * lo`. */
  lemma {:induction false} SumAbove(h: seq<Entry>, lo: real)
    requires |h| > 0
    requires forall i :: 0 <= i < |h| ==> lo < h[i].total
    ensures |h| as real * lo < SumTotals(h)
    decreases |h|
  {
    var init, n := h[..|h| - 1], |h| as real;
    assert SumTotals(h) == SumTotals(init) + h[|h| - 1].total;
    if |h| > 1 {
      assert forall i :: 0 <= i < |init| ==> init[i] == h[i];
      SumAbove(init, lo);
      StepAbove(SumTotals(init), h[|h| - 1].total, n, lo);
    }
  }

  /** A run whose every day reported at most 120 ends with a strong outcome. */
  lemma CleanRunIsStrong(h: seq<Entry>)
    requires |h| > 0
    requires forall i :: 0 <= i < |h| ==> h[i].total <= 120.0
    ensures Classify(MeanTotal(h)) == Strong
  {
    SumAtMost(h, 120.0);
    DivAtMost(SumTotals(h), |h| as real, 120.0);
  }

  /** A run whose every day reported above 180 ends as a brutal week. */
  lemma SmoggyRunIsBrutal(h: seq<Entry>)
    requires |h| > 0
    requires forall i :: 0 <= i < |h| ==> h[i].total > 180.0
    ensures Classify(MeanTotal(h)) == Brutal
  {
    SumAbove(h, 180.0);
    var n := |h| as real;
    assert 180.0 * n < SumTotals(h);
    DivAbove(SumTotals(h), n, 180.0);
  }

  lemma DivAtMost(s: real, n: real, hi: real)
    requires n > 0.0 && s <= hi * n
    ensures s / n <= hi
  {
  }

  lemma DivAbove(s: real, n: real, lo: real)
    requires n > 0.0 && lo * n < s
    ensures lo < s / n
  {
  }

  lemma DivAtLeast(s: real, n: real, lo: real)
    requires n > 0.0 && lo * n <= s
    ensures lo <= s / n
  {
  }

  lemma StepUp(s: real, x: real, n: real, hi: real)
    requires s <= (n - 1.0) * hi && x <= hi
    ensures s + x <= n * hi
  {
  }

  lemma StepDown(s: real, x: real, n: real, lo: real)
    requires (n - 1.0) * lo <= s && lo <= x
    ensures n * lo <= s + x
  {
  }

  lemma StepAbove(s: real, x: real, n: real, lo: real)
    requires (n - 1.0) * lo < s && lo < x
    ensures n * lo < s + x
  {
  }
}
