/**
 * The whole positional pipeline of the profile script (lines 76-179), from the aligned
 * reads and the reference sequence length N to the four dicts it plots, with the
 * exception that aborts the run when one is raised.
 */
module Profile {
  import opened Errors
  import opened PositionMaps
  import opened BoundaryCounts
  import opened Scores

  /** The start, end and total count dicts of lines 84, 107 and 130. */
  datatype Counts = Counts(starts: Dense<nat>, ends: Dense<nat>, totals: Dense<nat>)

  /** The four dicts the script plots. */
  datatype Maps = Maps(counts: Counts, scores: Dense<real>)

  /** How many reads start at p plus how many end at p. */
  function BoundaryCount(alignment: seq<AlignedRead>, p: int): (count: nat) {
    multiset(Starts(alignment))[p] + multiset(Ends(alignment))[p]
  }

  /** Every scored position 1 .. n has the same boundary count: the degenerate profile. */
  predicate Uniform(alignment: seq<AlignedRead>, n: nat) {
    forall p, q :: 1 <= p <= n && 1 <= q <= n ==> BoundaryCount(alignment, p) == BoundaryCount(alignment, q)
  }

  /** The totals at every scored position 1 .. n are equal. */
  ghost predicate EqualTotals(totals: Dense<nat>, n: nat)
    requires forall p :: 1 <= p <= n ==> totals.HasKey(p)
  {
    forall p, q :: 1 <= p <= n && 1 <= q <= n ==> totals.Get(p) == totals.Get(q)
  }

  /** The three count dicts of a reference of length n, as lines 83-140 build them: starts keyed
      exactly 0 .. n - 1 and ends keyed exactly 1 .. n, each position holding how many reads start
      (end) there, each summing to the number of reads; totals keyed exactly 0 .. n, holding
      starts.get(p, 0) + ends.get(p, 0), which is the boundary count of p, so that totals[0] is
      starts[0], totals[n] is ends[n], and the totals sum to twice the number of reads. */
  ghost predicate CountsMatch(c: Counts, alignment: seq<AlignedRead>, n: nat) {
    && (forall p :: c.starts.HasKey(p) <==> 0 <= p < n)
    && (forall p :: c.starts.HasKey(p) ==> c.starts.Get(p) == multiset(Starts(alignment))[p])
    && Sum(c.starts.values) == |alignment|
    && (forall p :: c.ends.HasKey(p) <==> 1 <= p <= n)
    && (forall p :: c.ends.HasKey(p) ==> c.ends.Get(p) == multiset(Ends(alignment))[p])
    && Sum(c.ends.values) == |alignment|
    && (forall p :: c.totals.HasKey(p) <==> 0 <= p <= n)
    && (forall p :: c.totals.HasKey(p) ==> c.totals.Get(p) == c.starts.GetOr(p, 0) + c.ends.GetOr(p, 0))
    && (forall p :: c.totals.HasKey(p) ==> c.totals.Get(p) == BoundaryCount(alignment, p))
    && (n > 0 ==> c.totals.Get(0) == c.starts.Get(0) && c.totals.Get(n) == c.ends.Get(n))
    && Sum(c.totals.values) == 2 * |alignment|
  }

  /** The score dict of a reference of length n against the totals it comes from: keyed exactly
      1 .. n, each score in [0, 1], a position scoring 1 exactly when its total is the smallest
      and 0 exactly when it is the largest, and a smaller-or-equal total meaning a
      greater-or-equal score. */
  ghost predicate ScoresMatch(scores: Dense<real>, totals: Dense<nat>, n: nat) {
    && (forall p :: scores.HasKey(p) <==> 1 <= p <= n)
    && (forall p :: 1 <= p <= n ==> totals.HasKey(p))
    && (forall p :: 1 <= p <= n ==> 0.0 <= scores.Get(p) <= 1.0)
    && (forall p :: 1 <= p <= n ==>
         (scores.Get(p) == 1.0 <==> forall q :: 1 <= q <= n ==> totals.Get(p) <= totals.Get(q)))
    && (forall p :: 1 <= p <= n ==>
         (scores.Get(p) == 0.0 <==> forall q :: 1 <= q <= n ==> totals.Get(p) >= totals.Get(q)))
    && (forall p, q :: 1 <= p <= n && 1 <= q <= n ==>
         (totals.Get(p) <= totals.Get(q) <==> scores.Get(p) >= scores.Get(q)))
  }

  /** A position outside the range every boundary falls in occurs nowhere. */
  lemma NotABoundary(bs: seq<int>, lo: int, hi: int, p: int)
    requires FirstOutside(bs, lo, hi) == |bs|
    requires !(lo <= p < hi)
    ensures multiset(bs)[p] == 0
  {
    assert p !in bs;
  }

  /** Dividing two counts by the same positive read count keeps their order. */
  lemma FractionOrder(a: nat, b: nat, count: nat)
    requires count > 0
    ensures a <= b <==> a as real / count as real <= b as real / count as real
  {
    DivOrder(a as real, b as real, count as real);
  }

  /** Scoring divides every total by the same positive read count, so the fractions are all
      equal exactly when the totals at positions 1 .. n are. */
  lemma FlatIffEqualTotals(totals: Dense<nat>, n: nat, count: nat, fs: seq<real>)
    requires n > 0 && count > 0 && |fs| == n
    requires forall p :: 1 <= p <= n ==> totals.HasKey(p)
    requires forall i :: 0 <= i < n ==> fs[i] == totals.Get(i + 1) as real / count as real
    ensures Max(fs) == Min(fs) <==> EqualTotals(totals, n)
  {
    FlatIffConstant(fs);
    forall p, q | 1 <= p <= n && 1 <= q <= n
      ensures fs[p - 1] == fs[q - 1] <==> totals.Get(p) == totals.Get(q)
    {
      FractionOrder(totals.Get(p), totals.Get(q), count);
      FractionOrder(totals.Get(q), totals.Get(p), count);
    }
    if EqualTotals(totals, n) {
      forall i, j | 0 <= i < n && 0 <= j < n ensures fs[i] == fs[j] {
        assert totals.Get(i + 1) == totals.Get(j + 1);
      }
    }
  }

  /** The boundary counts at 1 .. n are all equal exactly when the totals there are. */
  lemma UniformIffEqualTotals(c: Counts, alignment: seq<AlignedRead>, n: nat)
    requires CountsMatch(c, alignment, n)
    ensures Uniform(alignment, n) <==> EqualTotals(c.totals, n)
  {
    assert forall p :: 1 <= p <= n ==> c.totals.Get(p) == BoundaryCount(alignment, p);
  }

  /** The score of one position p against the totals at 1 .. n: in [0, 1], exactly 1 when the
      total at p is the smallest, exactly 0 when it is the largest. */
  lemma ScoreAt(totals: Dense<nat>, n: nat, count: nat, fs: seq<real>, p: int)
    requires count > 0 && |fs| == n
    requires forall p :: 1 <= p <= n ==> totals.HasKey(p)
    requires forall i :: 0 <= i < n ==> fs[i] == totals.Get(i + 1) as real / count as real
    requires RelativeScores(fs).Ok? && 1 <= p <= n
    ensures 0.0 <= RelativeScores(fs).value[p - 1] <= 1.0
    ensures RelativeScores(fs).value[p - 1] == 1.0 <==>
      forall q :: 1 <= q <= n ==> totals.Get(p) <= totals.Get(q)
    ensures RelativeScores(fs).value[p - 1] == 0.0 <==>
      forall q :: 1 <= q <= n ==> totals.Get(p) >= totals.Get(q)
  {
    var i := p - 1;
    ScoreInUnitInterval(fs, i);
    ScoreOneIffMinimum(fs, i);
    ScoreZeroIffMaximum(fs, i);
    MinimumIffLeAll(fs, i);
    MaximumIffGeAll(fs, i);
    forall q | 1 <= q <= n
      ensures fs[i] <= fs[q - 1] <==> totals.Get(p) <= totals.Get(q)
      ensures fs[i] >= fs[q - 1] <==> totals.Get(p) >= totals.Get(q)
    {
      FractionOrder(totals.Get(p), totals.Get(q), count);
      FractionOrder(totals.Get(q), totals.Get(p), count);
    }
    assert forall j :: 0 <= j < n ==> fs[j] == fs[(j + 1) - 1];
  }

  /** Two positions p and q: a smaller-or-equal total means a greater-or-equal score. */
  lemma ScoreOrderAt(totals: Dense<nat>, n: nat, count: nat, fs: seq<real>, p: int, q: int)
    requires count > 0 && |fs| == n
    requires forall p :: 1 <= p <= n ==> totals.HasKey(p)
    requires forall i :: 0 <= i < n ==> fs[i] == totals.Get(i + 1) as real / count as real
    requires RelativeScores(fs).Ok? && 1 <= p <= n && 1 <= q <= n
    ensures totals.Get(p) <= totals.Get(q) <==> RelativeScores(fs).value[p - 1] >= RelativeScores(fs).value[q - 1]
  {
    var i, j := p - 1, q - 1;
    ScoresReverseOrder(fs, i, j);
    FractionOrder(totals.Get(p), totals.Get(q), count);
    assert fs[i] == totals.Get(p) as real / count as real;
    assert fs[j] == totals.Get(q) as real / count as real;
  }

  /** The score dict built from the fractions of the totals at positions 1 .. n relates to
      those totals as ScoresMatch says. */
  lemma ScoresFollowTotals(totals: Dense<nat>, n: nat, count: nat, fs: seq<real>, scores: Dense<real>)
    requires n > 0 ==> count > 0
    requires |fs| == n
    requires forall p :: 1 <= p <= n ==> totals.HasKey(p)
    requires forall i :: 0 <= i < n ==> fs[i] == totals.Get(i + 1) as real / count as real
    requires RelativeScores(fs).Ok?
    requires forall p :: scores.HasKey(p) <==> 1 <= p <= n
    requires forall p :: 1 <= p <= n ==> scores.Get(p) == RelativeScores(fs).value[p - 1]
    ensures ScoresMatch(scores, totals, n)
  {
    forall p | 1 <= p <= n
      ensures 0.0 <= scores.Get(p) <= 1.0
      ensures scores.Get(p) == 1.0 <==> forall q :: 1 <= q <= n ==> totals.Get(p) <= totals.Get(q)
      ensures scores.Get(p) == 0.0 <==> forall q :: 1 <= q <= n ==> totals.Get(p) >= totals.Get(q)
    {
      ScoreAt(totals, n, count, fs, p);
    }
    forall p, q | 1 <= p <= n && 1 <= q <= n
      ensures totals.Get(p) <= totals.Get(q) <==> scores.Get(p) >= scores.Get(q)
    {
      ScoreOrderAt(totals, n, count, fs, p, q);
    }
  }

  /** Where no boundary falls outside its dict, the total at each position 0 .. n is its
      boundary count. */
  lemma TotalsAreBoundaryCounts(c: Counts, alignment: seq<AlignedRead>, n: nat)
    requires FirstOutside(Starts(alignment), 0, n) == |alignment|
    requires FirstOutside(Ends(alignment), 1, n + 1) == |alignment|
    requires forall p :: c.starts.HasKey(p) <==> 0 <= p < n
    requires forall p :: c.starts.HasKey(p) ==> c.starts.Get(p) == multiset(Starts(alignment))[p]
    requires forall p :: c.ends.HasKey(p) <==> 1 <= p <= n
    requires forall p :: c.ends.HasKey(p) ==> c.ends.Get(p) == multiset(Ends(alignment))[p]
    requires forall p :: c.totals.HasKey(p) <==> 0 <= p <= n
    requires forall p :: c.totals.HasKey(p) ==> c.totals.Get(p) == c.starts.GetOr(p, 0) + c.ends.GetOr(p, 0)
    ensures forall p :: c.totals.HasKey(p) ==> c.totals.Get(p) == BoundaryCount(alignment, p)
  {
    forall p | c.totals.HasKey(p) ensures c.totals.Get(p) == BoundaryCount(alignment, p) {
      if !c.starts.HasKey(p) {
        NotABoundary(Starts(alignment), 0, n, p);
      }
      if !c.ends.HasKey(p) {
        NotABoundary(Ends(alignment), 1, n + 1, p);
      }
    }
  }

  /** Lines 79-140 with referenceLength = sequenceLength + 1: the start counter, the end
      counter and the total combiner. The run stops at the first read whose start has no key in
      the start dict, else at the first read whose end has no key in the end dict (KeyError);
      the combiner itself never raises. */
  method CountAll(alignment: seq<AlignedRead>, sequenceLength: nat) returns (r: Result<Counts>)
    ensures var ns := FirstOutside(Starts(alignment), 0, sequenceLength);
      var ne := FirstOutside(Ends(alignment), 1, sequenceLength + 1);
      if ns < |alignment| then r == Err(KeyError(alignment[ns].referenceStart))
      else if ne < |alignment| then r == Err(KeyError(alignment[ne].referenceEnd))
      else r.Ok?
    ensures r.Ok? ==> CountsMatch(r.value, alignment, sequenceLength)
  {
    var n := sequenceLength;
    var referenceLength := n + 1;
    var starts :- CountStarts(alignment, referenceLength);
    var ends :- CountEnds(alignment, referenceLength);
    CombineNeverFails(starts, ends, referenceLength);
    var combined := CombineTotals(starts, ends, referenceLength);
    var counts := Counts(starts, ends, combined.value);
    TotalsAreBoundaryCounts(counts, alignment, n);
    if n > 0 {
      assert !ends.HasKey(0) && !starts.HasKey(n);
    }
    return Ok(counts);
  }

  /** Lines 157-179 on the totals dict of a reference of length n: the read count, the
      fractions, the normalised and inverted scores and the score dict. When there is a position
      to score the run stops on zero reads, else on equal totals at every scored position
      (ZeroDivisionError); with no position to score nothing is divided. */
  method ScoreAll(alignment: seq<AlignedRead>, totals: Dense<nat>, n: nat) returns (r: Result<Dense<real>>)
    requires forall p :: totals.HasKey(p) <==> 0 <= p <= n
    ensures if n > 0 && |alignment| == 0 then r == Err(ZeroReads)
      else if n > 0 && EqualTotals(totals, n) then r == Err(ZeroRange)
      else r.Ok?
    ensures r.Ok? ==> ScoresMatch(r.value, totals, n)
    ensures r.Ok? ==> Ok(r.value.values) == RelativeScores(FractionList(totals, |alignment|, n))
  {
    var referenceLength := n + 1;
    var count := CountReads(alignment);
    var fractions :- Fractions(totals, count, referenceLength);
    assert |Range(1, referenceLength)| == n;
    assert fractions == FractionList(totals, |alignment|, n);
    var relative := RelativeScores(fractions);
    if n > 0 {
      FlatIffEqualTotals(totals, n, count, fractions);
    }
    var scores :- relative;
    var scoresDict := FillScores(scores, referenceLength);
    assert scoresDict.values == scores;
    ScoresFollowTotals(totals, n, count, fractions, scoresDict);
    return Ok(scoresDict);
  }

  /** Lines 76-179 with referenceLength = sequenceLength + 1: the counting stages, then the
      scoring stages. The first read whose start has no key in the start dict, else the first
      read whose end has no key in the end dict, raises KeyError; else, when there is a position
      to score, zero reads or equal boundary counts at every scored position raise
      ZeroDivisionError. Otherwise the run yields the count dicts and the score dict. */
  method Run(alignment: seq<AlignedRead>, sequenceLength: nat) returns (r: Result<Maps>)
    ensures var ns := FirstOutside(Starts(alignment), 0, sequenceLength);
      var ne := FirstOutside(Ends(alignment), 1, sequenceLength + 1);
      if ns < |alignment| then r == Err(KeyError(alignment[ns].referenceStart))
      else if ne < |alignment| then r == Err(KeyError(alignment[ne].referenceEnd))
      else if sequenceLength > 0 && |alignment| == 0 then r == Err(ZeroReads)
      else if sequenceLength > 0 && Uniform(alignment, sequenceLength) then r == Err(ZeroRange)
      else r.Ok?
    ensures r.Ok? ==> CountsMatch(r.value.counts, alignment, sequenceLength)
    ensures r.Ok? ==> ScoresMatch(r.value.scores, r.value.counts.totals, sequenceLength)
    ensures r.Ok? ==>
      Ok(r.value.scores.values) == RelativeScores(FractionList(r.value.counts.totals, |alignment|, sequenceLength))
  {
    var counts :- CountAll(alignment, sequenceLength);
    UniformIffEqualTotals(counts, alignment, sequenceLength);
    var scores :- ScoreAll(alignment, counts.totals, sequenceLength);
    return Ok(Maps(counts, scores));
  }
}
