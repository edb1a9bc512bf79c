/**
 * The boundary counters and the total combiner of the profile script: the 5' start
 * counts keyed 0 .. N - 1, the 3' end counts keyed 1 .. N, and their key-by-key sum
 * keyed 0 .. N, where N is the reference sequence length and referenceLength = N + 1.
 */
module BoundaryCounts {
  import opened Errors
  import opened PositionMaps

  /** The two coordinates of an aligned read that the profile uses: reference_start
      (0-based, first aligned base) and reference_end (one past the last aligned base). */
  datatype AlignedRead = AlignedRead(referenceStart: int, referenceEnd: int)

  /** The reference_start of every read, in fetch order. */
  function Starts(alignment: seq<AlignedRead>): (s: seq<int>)
  {
    seq(|alignment|, i requires 0 <= i < |alignment| => alignment[i].referenceStart)
  }

  /** The reference_end of every read, in fetch order. */
  function Ends(alignment: seq<AlignedRead>): (s: seq<int>)
  {
    seq(|alignment|, i requires 0 <= i < |alignment| => alignment[i].referenceEnd)
  }

  /** Tallies the boundaries bs, in order, into `dict.fromkeys(range(lo, hi), 0)` with
      `d[b] += 1`. The first boundary outside lo .. hi - 1 raises KeyError; otherwise the
      dict keeps exactly the keys lo .. hi - 1, each holding how often it occurs in bs,
      and its values add up to |bs|. */
  method CountBoundaries(bs: seq<int>, lo: int, hi: int) returns (r: Result<Dense<nat>>)
    ensures var n := FirstOutside(bs, lo, hi);
      if n < |bs| then r == Err(KeyError(bs[n])) else r.Ok?
    ensures r.Ok? ==> forall p :: r.value.HasKey(p) <==> lo <= p < hi
    ensures r.Ok? ==> forall p :: r.value.HasKey(p) ==> r.value.Get(p) == multiset(bs)[p]
    ensures r.Ok? ==> Sum(r.value.values) == |bs|
  {
    var d := FromKeys(lo, hi, 0);
    ghost var keys := d;
    SumZero(d.values);
    for i := 0 to |bs|
      invariant forall j :: 0 <= j < i ==> lo <= bs[j] < hi
      invariant d.first == keys.first && |d.values| == |keys.values|
      invariant forall p :: d.HasKey(p) ==> d.Get(p) == multiset(bs[..i])[p]
      invariant Sum(d.values) == i
    {
      d :- AddAt(d, bs[i], 1);
      assert bs[..i + 1] == bs[..i] + [bs[i]];
    }
    assert bs[..|bs|] == bs;
    return Ok(d);
  }

  /** Lines 83-89: starts are keyed 0 .. referenceLength - 2 (positions shifted left by one
      base); a read starting at a position without a key raises KeyError. */
  method CountStarts(alignment: seq<AlignedRead>, referenceLength: nat) returns (r: Result<Dense<nat>>)
    ensures var n := FirstOutside(Starts(alignment), 0, referenceLength - 1);
      if n < |alignment| then r == Err(KeyError(alignment[n].referenceStart)) else r.Ok?
    ensures r.Ok? ==> forall p :: r.value.HasKey(p) <==> 0 <= p < referenceLength - 1
    ensures r.Ok? ==> forall p :: r.value.HasKey(p) ==> r.value.Get(p) == multiset(Starts(alignment))[p]
    ensures r.Ok? ==> Sum(r.value.values) == |alignment|
  {
    r := CountBoundaries(Starts(alignment), 0, referenceLength - 1);
  }

  /** Lines 106-112: ends are keyed 1 .. referenceLength - 1; a read ending at a position
      without a key raises KeyError. */
  method CountEnds(alignment: seq<AlignedRead>, referenceLength: nat) returns (r: Result<Dense<nat>>)
    ensures var n := FirstOutside(Ends(alignment), 1, referenceLength);
      if n < |alignment| then r == Err(KeyError(alignment[n].referenceEnd)) else r.Ok?
    ensures r.Ok? ==> forall p :: r.value.HasKey(p) <==> 1 <= p < referenceLength
    ensures r.Ok? ==> forall p :: r.value.HasKey(p) ==> r.value.Get(p) == multiset(Ends(alignment))[p]
    ensures r.Ok? ==> Sum(r.value.values) == |alignment|
  {
    r := CountBoundaries(Ends(alignment), 1, referenceLength);
  }

  /** `for key, value in src.items(): dst[key] += value`. The first key of src that dst
      does not hold raises KeyError; otherwise every key of dst gains src.get(key, 0). */
  method AddItems(dst: Dense<nat>, src: Dense<nat>) returns (r: Result<Dense<nat>>)
    ensures var n := FirstOutside(src.Keys(), dst.first, dst.first + |dst.values|);
      if n < |src.values| then r == Err(KeyError(src.first + n)) else r.Ok?
    ensures r.Ok? ==> r.value.first == dst.first && |r.value.values| == |dst.values|
    ensures r.Ok? ==> forall p :: dst.HasKey(p) ==> r.value.Get(p) == dst.Get(p) + src.GetOr(p, 0)
    ensures r.Ok? ==> Sum(r.value.values) == Sum(dst.values) + Sum(src.values)
  {
    var d := dst;
    var keys := src.Keys();
    for i := 0 to |src.values|
      invariant forall j :: 0 <= j < i ==> dst.HasKey(keys[j])
      invariant d.first == dst.first && |d.values| == |dst.values|
      invariant forall p :: dst.HasKey(p) ==>
        d.Get(p) == dst.Get(p) + (if src.first <= p < src.first + i then src.Get(p) else 0)
      invariant Sum(d.values) == Sum(dst.values) + Sum(src.values[..i])
    {
      d :- AddAt(d, keys[i], src.values[i]);
      SumPrefix(src.values, i);
    }
    assert src.values[..|src.values|] == src.values;
    return Ok(d);
  }

  /** Lines 129-140: totals keyed 0 .. referenceLength - 1, into which the items of starts
      and then those of ends are added. Where every key fits, totals[p] is
      starts.get(p, 0) + ends.get(p, 0) and the totals add up to both sums together. */
  method CombineTotals(starts: Dense<nat>, ends: Dense<nat>, referenceLength: nat)
    returns (r: Result<Dense<nat>>)
    ensures var ns := FirstOutside(starts.Keys(), 0, referenceLength);
      var ne := FirstOutside(ends.Keys(), 0, referenceLength);
      if ns < |starts.values| then r == Err(KeyError(starts.first + ns))
      else if ne < |ends.values| then r == Err(KeyError(ends.first + ne))
      else r.Ok?
    ensures r.Ok? ==> forall p :: r.value.HasKey(p) <==> 0 <= p < referenceLength
    ensures r.Ok? ==> forall p :: r.value.HasKey(p) ==>
      r.value.Get(p) == starts.GetOr(p, 0) + ends.GetOr(p, 0)
    ensures r.Ok? ==> Sum(r.value.values) == Sum(starts.values) + Sum(ends.values)
  {
    var totals := FromKeys(0, referenceLength, 0);
    SumZero(totals.values);
    totals :- AddItems(totals, starts);
    totals :- AddItems(totals, ends);
    return Ok(totals);
  }

  /** The start and end dicts of lines 84 and 107 always fit into the totals dict of
      line 130, so combining them never raises. */
  lemma CombineNeverFails(starts: Dense<nat>, ends: Dense<nat>, referenceLength: nat)
    requires forall p :: starts.HasKey(p) <==> 0 <= p < referenceLength - 1
    requires forall p :: ends.HasKey(p) <==> 1 <= p < referenceLength
    ensures FirstOutside(starts.Keys(), 0, referenceLength) == |starts.values|
    ensures FirstOutside(ends.Keys(), 0, referenceLength) == |ends.values|
  {
    var ns := FirstOutside(starts.Keys(), 0, referenceLength);
    if ns < |starts.values| {
      assert starts.HasKey(starts.first + ns);
    }
    var ne := FirstOutside(ends.Keys(), 0, referenceLength);
    if ne < |ends.values| {
      assert ends.HasKey(ends.first + ne);
    }
  }
}
