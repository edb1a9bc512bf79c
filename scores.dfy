/**
 * The relative methylation scores: the read count, the per-position boundary fractions,
 * min-max normalisation, inversion, and the score dict keyed by position. Fractions are
 * exact rationals (`real`), not floating-point numbers.
 */
module Scores {
  import opened Errors
  import opened PositionMaps
  import opened BoundaryCounts

  /** Lines 157-159: one increment per fetched read. */
  method CountReads(alignment: seq<AlignedRead>) returns (count: nat)
    ensures count == |alignment|
  {
    count := 0;
    for i := 0 to |alignment|
      invariant count == i
    {
      count := count + 1;
    }
  }

  /** The fractions of lines 163-166 as a list: entry i is `totals[i + 1] / readCount`. */
  function FractionList(totals: Dense<nat>, readCount: nat, n: nat): (fs: seq<real>)
    requires n > 0 ==> readCount > 0
    requires forall p :: 1 <= p <= n ==> totals.HasKey(p)
    ensures |fs| == n
  {
    seq(n, i requires 0 <= i < n => totals.Get(i + 1) as real / readCount as real)
  }

  /** Lines 163-166: `totals[position] / reads` for every position in 1 .. referenceLength - 1,
      so position 0 is left out. The first division by zero reads raises; with no position at
      all nothing is divided, so there is no error even with zero reads. */
  method Fractions(totals: Dense<nat>, readCount: nat, referenceLength: nat) returns (r: Result<seq<real>>)
    requires forall p :: 1 <= p < referenceLength ==> totals.HasKey(p)
    ensures r.Err? <==> referenceLength > 1 && readCount == 0
    ensures r.Err? ==> r.error == ZeroReads
    ensures r.Ok? ==> |r.value| == |Range(1, referenceLength)|
    ensures r.Ok? ==> forall i :: 0 <= i < |r.value| ==>
      readCount > 0 && r.value[i] == totals.Get(i + 1) as real / readCount as real
    ensures r.Ok? ==> r.value == FractionList(totals, readCount, |Range(1, referenceLength)|)
  {
    var fractions: seq<real> := [];
    var positions := Range(1, referenceLength);
    for i := 0 to |positions|
      invariant |fractions| == i
      invariant i > 0 ==> readCount > 0
      invariant forall j :: 0 <= j < i ==>
        readCount > 0 && fractions[j] == totals.Get(j + 1) as real / readCount as real
    {
      var position := positions[i];
      if readCount == 0 {
        return Err(ZeroReads);
      }
      fractions := fractions + [totals.Get(position) as real / readCount as real];
    }
    return Ok(fractions);
  }

  /** `min(s)` */
  function Min(s: seq<real>): (m: real)
    requires |s| > 0
    ensures forall i :: 0 <= i < |s| ==> m <= s[i]
    ensures exists i :: 0 <= i < |s| && s[i] == m
  {
    if |s| == 1 then s[0]
    else
      var rest := Min(s[1..]);
      assert forall i :: 1 <= i < |s| ==> s[i] == s[1..][i - 1];
      if s[0] <= rest then s[0] else rest
  }

  /** `max(s)` */
  function Max(s: seq<real>): (m: real)
    requires |s| > 0
    ensures forall i :: 0 <= i < |s| ==> s[i] <= m
    ensures exists i :: 0 <= i < |s| && s[i] == m
  {
    if |s| == 1 then s[0]
    else
      var rest := Max(s[1..]);
      assert forall i :: 1 <= i < |s| ==> s[i] == s[1..][i - 1];
      if rest <= s[0] then s[0] else rest
  }

  /** One element of line 170: `(x - lo) / (hi - lo)` with lo the minimum, hi the maximum. */
  function Rescaled(x: real, lo: real, hi: real): (y: real)
    requires lo < hi
  {
    (x - lo) / (hi - lo)
  }

  /** Dividing by a positive number keeps the order of two values, in both directions. */
  lemma DivOrder(a: real, b: real, d: real)
    requires d > 0.0
    ensures a <= b <==> a / d <= b / d
  {
    assert a / d * d == a && b / d * d == b;
  }

  /** Rescaling keeps the order of two values, in both directions. */
  lemma RescaledOrder(x: real, y: real, lo: real, hi: real)
    requires lo < hi
    ensures x <= y <==> Rescaled(x, lo, hi) <= Rescaled(y, lo, hi)
  {
    DivOrder(x - lo, y - lo, hi - lo);
  }

  /** Rescaling sends lo to 0, hi to 1, and only them; it maps lo .. hi into [0, 1]. */
  lemma RescaledEnds(x: real, lo: real, hi: real)
    requires lo < hi
    ensures Rescaled(lo, lo, hi) == 0.0 && Rescaled(hi, lo, hi) == 1.0
    ensures Rescaled(x, lo, hi) == 0.0 <==> x == lo
    ensures Rescaled(x, lo, hi) == 1.0 <==> x == hi
    ensures lo <= x <= hi ==> 0.0 <= Rescaled(x, lo, hi) <= 1.0
  {
    assert (hi - lo) / (hi - lo) == 1.0;
    RescaledOrder(x, lo, lo, hi);
    RescaledOrder(lo, x, lo, hi);
    RescaledOrder(x, hi, lo, hi);
    RescaledOrder(hi, x, lo, hi);
  }

  /** Rescaling is invertible: x is recovered from its rescaled value y as `lo + y * (hi - lo)`. */
  lemma RescaledRoundTrip(x: real, y: real, lo: real, hi: real)
    requires lo < hi && y == Rescaled(x, lo, hi)
    ensures lo + y * (hi - lo) == x
  {
  }

  /** Line 170: `[(f - min(fs)) / (max(fs) - min(fs)) for f in fs]`. The first element of a
      non-empty list whose maximum equals its minimum raises ZeroDivisionError. */
  function Normalised(fs: seq<real>): (r: Result<seq<real>>)
    ensures r.Err? <==> |fs| > 0 && Max(fs) == Min(fs)
    ensures r.Err? ==> r.error == ZeroRange
    ensures r.Ok? ==> |r.value| == |fs|
    ensures r.Ok? && |fs| > 0 ==> Min(fs) < Max(fs)
    ensures r.Ok? ==> forall i :: 0 <= i < |fs| ==> r.value[i] == Rescaled(fs[i], Min(fs), Max(fs))
  {
    if |fs| == 0 then Ok([])
    else if Max(fs) == Min(fs) then Err(ZeroRange)
    else
      assert Min(fs) <= fs[0] <= Max(fs);
      Ok(seq(|fs|, i requires 0 <= i < |fs| => Rescaled(fs[i], Min(fs), Max(fs))))
  }

  /** Line 171: `[1 - x for x in s]` */
  function Inverted(s: seq<real>): (r: seq<real>)
    ensures |r| == |s|
    ensures forall i :: 0 <= i < |s| ==> r[i] == 1.0 - s[i]
  {
    seq(|s|, i requires 0 <= i < |s| => 1.0 - s[i])
  }

  /** Lines 170-171: min-max normalisation followed by inversion. */
  function RelativeScores(fs: seq<real>): (r: Result<seq<real>>)
    ensures r.Err? <==> |fs| > 0 && Max(fs) == Min(fs)
    ensures r.Err? ==> r.error == ZeroRange
    ensures r.Ok? ==> |r.value| == |fs|
    ensures r.Ok? && |fs| > 0 ==> Min(fs) < Max(fs)
    ensures r.Ok? ==> forall i :: 0 <= i < |fs| ==> r.value[i] == 1.0 - Rescaled(fs[i], Min(fs), Max(fs))
  {
    var normalised :- Normalised(fs);
    Ok(Inverted(normalised))
  }

  /** Lines 175-179: `dict.fromkeys(positions, 0)` over positions 1 .. referenceLength - 1,
      then `scoresdict[positions[n]] = scores[n]` with a manual index n: the dict holds exactly
      those keys and, in list order, one score per position. */
  method FillScores(scores: seq<real>, referenceLength: nat) returns (d: Dense<real>)
    requires |scores| >= |Range(1, referenceLength)|
    ensures forall p :: d.HasKey(p) <==> 1 <= p < referenceLength
    ensures forall p :: 1 <= p < referenceLength ==> d.Get(p) == scores[p - 1]
    ensures d.values == scores[..|Range(1, referenceLength)|]
  {
    var positions := Range(1, referenceLength);
    d := FromKeys(1, referenceLength, 0.0);
    var n := 0;
    for i := 0 to |positions|
      invariant n == i
      invariant d.first == 1 && |d.values| == |positions|
      invariant forall m :: 0 <= m < n ==> d.Get(m + 1) == scores[m]
    {
      d := d.Set(positions[i], scores[n]);
      n := n + 1;
    }
    assert forall m :: 0 <= m < |positions| ==> d.values[m] == d.Get(m + 1);
  }

  /** Two values of a non-empty list are its min and max together exactly when the list is
      constant, which is when line 170 divides by zero. */
  lemma {:induction false} FlatIffConstant(fs: seq<real>)
    requires |fs| > 0
    ensures Max(fs) == Min(fs) <==> forall i, j :: 0 <= i < |fs| && 0 <= j < |fs| ==> fs[i] == fs[j]
  {
    if Max(fs) != Min(fs) {
      var i :| 0 <= i < |fs| && fs[i] == Max(fs);
      var j :| 0 <= j < |fs| && fs[j] == Min(fs);
      assert fs[i] != fs[j];
    }
  }

  /** A value is the minimum exactly when no value is below it. */
  lemma MinimumIffLeAll(fs: seq<real>, i: int)
    requires 0 <= i < |fs|
    ensures fs[i] == Min(fs) <==> forall j :: 0 <= j < |fs| ==> fs[i] <= fs[j]
  {
  }

  /** A value is the maximum exactly when no value is above it. */
  lemma MaximumIffGeAll(fs: seq<real>, i: int)
    requires 0 <= i < |fs|
    ensures fs[i] == Max(fs) <==> forall j :: 0 <= j < |fs| ==> fs[i] >= fs[j]
  {
  }

  /** Every normalised value lies in [0, 1]. */
  lemma NormalisedInUnitInterval(fs: seq<real>, i: int)
    requires Normalised(fs).Ok? && 0 <= i < |fs|
    ensures 0.0 <= Normalised(fs).value[i] <= 1.0
  {
    RescaledEnds(fs[i], Min(fs), Max(fs));
  }

  /** Every score lies in [0, 1]. */
  lemma ScoreInUnitInterval(fs: seq<real>, i: int)
    requires RelativeScores(fs).Ok? && 0 <= i < |fs|
    ensures 0.0 <= RelativeScores(fs).value[i] <= 1.0
  {
    RescaledEnds(fs[i], Min(fs), Max(fs));
  }

  /** A position scores exactly 1 if and only if its fraction is the minimum. */
  lemma ScoreOneIffMinimum(fs: seq<real>, i: int)
    requires RelativeScores(fs).Ok? && 0 <= i < |fs|
    ensures RelativeScores(fs).value[i] == 1.0 <==> fs[i] == Min(fs)
  {
    RescaledEnds(fs[i], Min(fs), Max(fs));
  }

  /** A position scores exactly 0 if and only if its fraction is the maximum. */
  lemma ScoreZeroIffMaximum(fs: seq<real>, i: int)
    requires RelativeScores(fs).Ok? && 0 <= i < |fs|
    ensures RelativeScores(fs).value[i] == 0.0 <==> fs[i] == Max(fs)
  {
    RescaledEnds(fs[i], Min(fs), Max(fs));
  }

  /** Normalising and inverting reverses the order of the fractions, in both directions:
      a smaller-or-equal fraction gets a greater-or-equal score. */
  lemma ScoresReverseOrder(fs: seq<real>, i: int, j: int)
    requires RelativeScores(fs).Ok? && 0 <= i < |fs| && 0 <= j < |fs|
    ensures fs[i] <= fs[j] <==> RelativeScores(fs).value[i] >= RelativeScores(fs).value[j]
  {
    RescaledOrder(fs[i], fs[j], Min(fs), Max(fs));
  }

  /** Equal fractions get equal scores. */
  lemma EqualFractionsEqualScores(fs: seq<real>, i: int, j: int)
    requires RelativeScores(fs).Ok? && 0 <= i < |fs| && 0 <= j < |fs|
    requires fs[i] == fs[j]
    ensures RelativeScores(fs).value[i] == RelativeScores(fs).value[j]
  {
    ScoresReverseOrder(fs, i, j);
    ScoresReverseOrder(fs, j, i);
  }

  /** Inverting twice gives back the list. */
  lemma InvertedTwice(s: seq<real>)
    ensures Inverted(Inverted(s)) == s
  {
  }
}
