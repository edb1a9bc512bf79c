# RiboMethSeq positional profile in Dafny

`ribomethprofile.py` aligns RiboMethSeq reads to a ribosomal RNA reference. From the aligned
reads it builds a positional profile of 2'-O-methylation. 2'-O-methylation protects the adjacent
phosphodiester bond from alkaline cleavage, so fewer reads start or end at methylated positions.
This project models the part of the script that turns the aligned reads into that profile, as
four stages:

1. **Start counter.** A dict keyed 0 .. N - 1, counting `reference_start` once per read.
2. **End counter.** A dict keyed 1 .. N, counting `reference_end` once per read.
3. **Total combiner.** A dict keyed 0 .. N, into which the start and end counts are added key by key.
4. **Scorer.** The scorer:
   - counts the reads;
   - computes the fraction `totals[p] / reads` for each position 1 .. N;
   - min-max normalises and inverts the fractions;
   - stores the scores in a dict keyed by position.

N is the length of the reference sequence, and `referencelength` is N + 1.

The model is split into these modules:

- `Errors` (`errors.dfy`):
  - the exceptions that end a run: `KeyError(key)`, `ZeroReads` (division by zero reads) and `ZeroRange` (division by max - min = 0);
  - a `Result` type that propagates them.
- `PositionMaps` (`positions.dfy`):
  - a dict whose keys are a run of consecutive integers in insertion order, which is what `dict.fromkeys(range(lo, hi), v)` builds;
  - `d[k] += v`, which raises KeyError for a missing key;
  - `sum`;
  - `FirstOutside`, the index of the first key outside a range.
- `BoundaryCounts` (`boundaries.dfy`): the two boundary counters and the combiner. Each is a method that keeps the source's loop.
- `Scores` (`scores.dfy`):
  - the read-count loop, the fraction loop and the score-dict fill loop, as methods;
  - min-max normalisation and inversion, which are list comprehensions in the source, as functions;
  - lemmas about normalisation and inversion.
- `Profile` (`profile.dfy`): the pipeline from the aligned reads and N to the four dicts, or to the exception that stops the script.

Each read is an `AlignedRead(referenceStart, referenceEnd)`. The alignment is the sequence of
reads in the order `samfile.fetch()` returns them, and every pass over the alignment replays that
same sequence. Fractions and scores are exact `real` numbers.

## Behaviour worth noting

- **Scored positions.** The fraction list and the score dict use `range(1, referencelength)`
  (lines 164 and 175): positions 1 .. N, N entries, position N included.
- **Boundaries outside a dict.** A read whose start or end is not a key of its count dict raises
  KeyError (lines 89 and 112). The start loop passes over every read before the end loop
  begins. The first read whose start has no key decides the error. Only when every start has a
  key does the first read whose end has no key decide it.
- **Zero divisions.** Zero reads, and equal fractions at every scored position, raise
  ZeroDivisionError (lines 166 and 170). This happens only when there is at least one position
  to score. A reference of length 1 with at least one read always gives max = min, and so
  ZeroRange.
- **Ties.** Several positions can share the minimum or the maximum fraction. Every one of them
  scores exactly 1 (or 0).

## Model

| member | source | states |
|---|---|---|
| PositionMaps.RangeHoldsKeys | ribomethprofile.py:83 | `list(range(lo, hi))` holds exactly the positions lo .. hi - 1, each once, in ascending order |
| PositionMaps.FromKeys | ribomethprofile.py:84 | `dict.fromkeys(range(lo, hi), v)` holds exactly the keys lo .. hi - 1, every value is v |
| PositionMaps.Dense.Set | ribomethprofile.py:178 | `d[k] = v` on a held key changes the value at k to v and no other value, and keeps the keys |
| PositionMaps.AddAt | ribomethprofile.py:89 | `d[k] += v` fails exactly when k is not a key, with KeyError(k); otherwise it raises d[k] by v, leaves every other key and the key set unchanged, and raises the sum by v |
| PositionMaps.SumUpdate | ribomethprofile.py:89 | raising one count by v raises the total of the counts by exactly v |
| PositionMaps.SumZero | ribomethprofile.py:84 | a zero-initialised count dict sums to 0 |
| PositionMaps.FirstOutside | ribomethprofile.py:88-89 | the index of the first read whose boundary is not a key: all earlier boundaries are keys, that one is not |
| BoundaryCounts.CountBoundaries | ribomethprofile.py:83-89 | the counting loop raises KeyError for the first boundary outside lo .. hi - 1; otherwise the dict holds exactly the keys lo .. hi - 1, each holding how many boundaries equal it, summing to the number of boundaries |
| BoundaryCounts.CountStarts | ribomethprofile.py:83-89 | the start dict is keyed exactly 0 .. N - 1, holds at p the number of reads starting at p and sums to the read count; the first read starting outside raises KeyError with its start |
| BoundaryCounts.CountEnds | ribomethprofile.py:106-112 | the end dict is keyed exactly 1 .. N, holds at p the number of reads ending at p and sums to the read count; the first read ending outside raises KeyError with its end |
| BoundaryCounts.AddItems | ribomethprofile.py:134-140 | adding a dict item by item raises KeyError for the first source key the target lacks; otherwise each target value grows by the source's value there (0 when absent), and the sums add |
| BoundaryCounts.CombineTotals | ribomethprofile.py:129-140 | the totals dict is keyed exactly 0 .. N with totals[p] = starts.get(p, 0) + ends.get(p, 0), and it sums to the sum of both; KeyError only for a start or end key outside 0 .. N |
| BoundaryCounts.CombineNeverFails | ribomethprofile.py:129-140 | start keys 0 .. N - 1 and end keys 1 .. N all lie in 0 .. N, so the combiner never raises |
| Scores.CountReads | ribomethprofile.py:157-159 | the read counter equals the number of reads fetched |
| Scores.FractionList | ribomethprofile.py:163-166 | the fraction list of positions 1 .. n has n entries |
| Scores.Fractions | ribomethprofile.py:163-166 | fails exactly when there is a position to score and there are zero reads, with ZeroReads; otherwise it has one entry per position 1 .. N and entry i is totals[i + 1] / reads, position 0 being excluded |
| Scores.Min | ribomethprofile.py:170 | `min(fs)` is at most every entry and is one of them |
| Scores.Max | ribomethprofile.py:170 | `max(fs)` is at least every entry and is one of them |
| Scores.Normalised | ribomethprofile.py:170 | min-max normalisation fails exactly when the list is non-empty and max = min, with ZeroRange; otherwise entry i is (fs[i] - min) / (max - min), and the length is kept |
| Scores.Inverted | ribomethprofile.py:171 | `[1 - x for x in s]` keeps the length, and entry i is 1 - s[i] |
| Scores.InvertedTwice | ribomethprofile.py:171 | inverting twice gives back the list |
| Scores.RelativeScores | ribomethprofile.py:170-171 | normalising then inverting fails exactly when normalising does; otherwise score i is 1 - (fs[i] - min) / (max - min) |
| Scores.DivOrder | ribomethprofile.py:166 | dividing by a positive number keeps the order of two values, in both directions |
| Scores.RescaledOrder | ribomethprofile.py:170 | rescaling by (x - min) / (max - min) keeps order, in both directions |
| Scores.RescaledEnds | ribomethprofile.py:170 | rescaling sends exactly the minimum to 0 and exactly the maximum to 1, and sends min .. max into [0, 1] |
| Scores.RescaledRoundTrip | ribomethprofile.py:170 | a rescaled value y gives back x as min + y * (max - min) |
| Scores.FillScores | ribomethprofile.py:175-179 | the score dict is keyed exactly 1 .. N, position p holds scores[p - 1], and the values keep the list order |
| Scores.FlatIffConstant | ribomethprofile.py:170 | max = min of a non-empty list exactly when all its entries are equal |
| Scores.MinimumIffLeAll | ribomethprofile.py:170 | an entry is the minimum exactly when no entry is below it |
| Scores.MaximumIffGeAll | ribomethprofile.py:170 | an entry is the maximum exactly when no entry is above it |
| Scores.NormalisedInUnitInterval | ribomethprofile.py:170 | every normalised value lies in [0, 1] |
| Scores.ScoreInUnitInterval | ribomethprofile.py:170-171 | every score lies in [0, 1] |
| Scores.ScoreOneIffMinimum | ribomethprofile.py:170-171 | a position scores exactly 1 exactly when its fraction is the minimum |
| Scores.ScoreZeroIffMaximum | ribomethprofile.py:170-171 | a position scores exactly 0 exactly when its fraction is the maximum |
| Scores.ScoresReverseOrder | ribomethprofile.py:170-171 | f[i] <= f[j] exactly when score[i] >= score[j] |
| Scores.EqualFractionsEqualScores | ribomethprofile.py:170-171 | equal fractions get equal scores |
| Profile.NotABoundary | ribomethprofile.py:88-89 | when every boundary lies in a range, no read has a boundary at a position outside it |
| Profile.FractionOrder | ribomethprofile.py:166 | dividing two totals by the same positive read count keeps their order, in both directions |
| Profile.FlatIffEqualTotals | ribomethprofile.py:166-170 | the fractions have max = min exactly when the totals at 1 .. N are all equal |
| Profile.UniformIffEqualTotals | ribomethprofile.py:129-140 | the totals at 1 .. N are all equal exactly when the boundary counts of the reads there are |
| Profile.TotalsAreBoundaryCounts | ribomethprofile.py:129-140 | each total is the number of reads starting at p plus the number of reads ending at p |
| Profile.ScoreAt | ribomethprofile.py:163-171 | the score of a position lies in [0, 1], is exactly 1 when its total is the smallest and exactly 0 when its total is the largest (both directions) |
| Profile.ScoreOrderAt | ribomethprofile.py:163-171 | a smaller-or-equal total gets a greater-or-equal score, and conversely |
| Profile.ScoresFollowTotals | ribomethprofile.py:163-179 | the filled score dict is keyed exactly 1 .. N and relates to the totals in all four ways above |
| Profile.CountAll | ribomethprofile.py:79-140 | KeyError for the first read starting outside 0 .. N - 1, else for the first read ending outside 1 .. N. Otherwise: the start and end dicts hold exact per-position counts, each summing to the read count; totals = starts.get + ends.get = boundary count; totals[0] = starts[0] and totals[N] = ends[N]; the totals sum to twice the read count |
| Profile.ScoreAll | ribomethprofile.py:157-179 | with a position to score: zero reads give ZeroReads, else equal totals at 1 .. N give ZeroRange. Otherwise the score dict relates to the totals as above, and its values are the inverted normalised fractions |
| Profile.Run | ribomethprofile.py:76-179 | the whole pipeline with referencelength = N + 1: KeyError (start, then end), else ZeroReads, else ZeroRange when every scored position has the same boundary count. Otherwise the count dicts and the score dict with every property above |

## Left out

- Command-line parsing and the derived file names (lines 15-26): argparse and string plumbing.
- The temp directory, `cp`, bowtie2 and samtools (lines 29-62 and 195-197): processes and file system.
- Opening the BAM file with pysam and `samfile.fetch()` (lines 70, 88, 111 and 158): a foreign
  library. They are replaced by a sequence of reads that every pass replays in the same order.
  Unmapped reads, and reads without a `reference_end`, are not modelled.
- Reading `reference.fasta` (lines 74-76): file I/O. The sequence length N is a parameter, and
  referencelength is N + 1.
- All plotting and `savefig` calls (lines 93-99, 116-122, 144-150 and 183-189), and the
  completion message (line 201): rendering and console output.
- IEEE floating-point rounding in the divisions of lines 166 and 170: fractions and scores are
  exact rationals, so "scores exactly 1" and "scores exactly 0" hold without a tolerance.
- Scores.Fractions: requires the totals dict to hold keys 1 .. N, as the dict of line 130 always
  does. The KeyError that line 166 would raise on a missing key is not modelled.
- Scores.FillScores: requires at least one score per position, as line 170 always provides. The
  IndexError that line 178 would raise is not modelled.
- Scores.Normalised: the round trip is stated per value (Scores.RescaledRoundTrip), not for the
  whole list.
- The writes to the count dicts are modelled as updates of immutable values, not as dicts shared
  by several names. The script never aliases them.
