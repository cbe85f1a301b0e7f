/** The masked reference reducer (`build_reference_matrix`) as a function of
    its inputs: the bins x samples matrix of trusted cells, the NaN-aware row
    reduction, the flat fallback and the weight derivation. The imperative
    builder in module ReferenceBuilder is proved equal to BuildReference. */
module ReferenceModel {
  import opened Options
  import opened NanStats
  import opened BinLayout

  /** What the loader gives for one sample's coverage file. */
  datatype Coverage = Loaded(bins: seq<Bin>) | Unreadable

  /** One entry of the input mapping, in key order. */
  datatype Sample = Sample(id: string, coverage: Coverage)

  /** Sample identifier -> chromosomes trusted for that sample. */
  type InclusionMap = map<string, seq<string>>

  /** One row of the returned reference: the template's bin and annotations
      with log2, depth, spread and weight replaced. */
  datatype RefRow = RefRow(
    chromosome: string,
    start: int,
    end: int,
    annotations: seq<string>,
    log2: real,
    depth: real,
    spread: real,
    weight: real)

  datatype BuildError =
    | EmptyInput          // no input files
    | TemplateUnreadable  // the first file could not be read (not caught)
    | NoValidSamples      // no sample contributed a column

  const SpreadFloor: real := 0.0001
  const MaxWeight: real := 100000000.0  // 1 / SpreadFloor^2
  const DefaultDepth: real := 1.0
  const DefaultSpread: real := 0.1

  /** Inverse-variance weight `1 / max(spread, 1e-4)^2`. */
  function Weight(spread: real): (w: real)
    ensures 0.0 < w <= MaxWeight
    ensures spread <= SpreadFloor ==> w == MaxWeight
  {
    var c := if spread > SpreadFloor then spread else SpreadFloor;
    assert c * c >= SpreadFloor * SpreadFloor by {
      assert c * c >= SpreadFloor * c;
    }
    1.0 / (c * c)
  }

  /** More spread never means more weight. */
  lemma WeightAntitone(s1: real, s2: real)
    requires s1 <= s2
    ensures Weight(s2) <= Weight(s1)
  {
    var c1 := if s1 > SpreadFloor then s1 else SpreadFloor;
    var c2 := if s2 > SpreadFloor then s2 else SpreadFloor;
    assert 0.0 < c1 <= c2;
    assert c1 * c1 <= c2 * c2 by {
      assert c1 * c1 <= c1 * c2;
      assert c1 * c2 <= c2 * c2;
    }
  }

  /** The normalised template chromosome at bin `b` is on the sample's allow-list. */
  predicate Keeps(template: seq<Bin>, inclusion: InclusionMap, s: Sample, b: nat)
    requires b < |template|
  {
    NormalizeChrom(template[b].chromosome) in AllowedChroms(inclusion, s.id)
  }

  /** The sample loaded, passed the layout check and has a non-empty allow-list:
      it writes its column and counts towards `valid_samples_count`. */
  predicate Contributes(template: seq<Bin>, inclusion: InclusionMap, s: Sample)
    ensures Contributes(template, inclusion, s) ==>
      s.coverage.Loaded? && |s.coverage.bins| == |template| > 0 && AllowedChroms(inclusion, s.id) != {}
  {
    && s.coverage.Loaded?
    && ValidateCompatibility(template, s.coverage.bins).Pass?
    && AllowedChroms(inclusion, s.id) != {}
  }

  /** Cell (b, i) of `mat_log2`. */
  function Log2Cell(template: seq<Bin>, inclusion: InclusionMap, s: Sample, b: nat): Option<real>
    requires b < |template|
  {
    if Contributes(template, inclusion, s) && Keeps(template, inclusion, s, b) then
      Some(s.coverage.bins[b].log2)
    else None
  }

  /** Cell (b, i) of `mat_depth`. */
  function DepthCell(template: seq<Bin>, inclusion: InclusionMap, s: Sample, b: nat): Option<real>
    requires b < |template|
  {
    if Contributes(template, inclusion, s) && Keeps(template, inclusion, s, b) then
      Some(s.coverage.bins[b].depth)
    else None
  }

  /** A sample that does not contribute leaves its whole column empty. */
  lemma SkippedSampleCells(template: seq<Bin>, inclusion: InclusionMap, s: Sample)
    requires !Contributes(template, inclusion, s)
    ensures forall b :: 0 <= b < |template| ==>
      Log2Cell(template, inclusion, s, b) == None && DepthCell(template, inclusion, s, b) == None
  {
  }

  /** Row b of `mat_log2`, one cell per sample. */
  function Log2Row(template: seq<Bin>, inclusion: InclusionMap, samples: seq<Sample>, b: nat): (row: seq<Option<real>>)
    requires b < |template|
    ensures |row| == |samples|
  {
    seq(|samples|, i requires 0 <= i < |samples| => Log2Cell(template, inclusion, samples[i], b))
  }

  /** Row b of `mat_depth`, one cell per sample. */
  function DepthRow(template: seq<Bin>, inclusion: InclusionMap, samples: seq<Sample>, b: nat): (row: seq<Option<real>>)
    requires b < |template|
    ensures |row| == |samples|
  {
    seq(|samples|, i requires 0 <= i < |samples| => DepthCell(template, inclusion, samples[i], b))
  }

  /** `valid_samples_count` after processing `samples`. */
  function Contributors(template: seq<Bin>, inclusion: InclusionMap, samples: seq<Sample>): (n: nat)
    ensures n <= |samples|
  {
    if samples == [] then 0
    else
      Contributors(template, inclusion, samples[..|samples| - 1])
        + (if Contributes(template, inclusion, samples[|samples| - 1]) then 1 else 0)
  }

  /** Counting one more sample adds one exactly when that sample contributes. */
  lemma ContributorsPrefix(template: seq<Bin>, inclusion: InclusionMap, samples: seq<Sample>, i: nat)
    requires i < |samples|
    ensures Contributors(template, inclusion, samples[..i + 1])
         == Contributors(template, inclusion, samples[..i]) + (if Contributes(template, inclusion, samples[i]) then 1 else 0)
  {
    assert samples[..i + 1][..i] == samples[..i];
  }

  /** The trusted log2 values of bin b, sample by sample: an independent
      statement of what the matrix row holds. */
  function TrustedLog2(template: seq<Bin>, inclusion: InclusionMap, samples: seq<Sample>, b: nat): (t: seq<real>)
    requires b < |template|
    ensures |t| <= Contributors(template, inclusion, samples)
  {
    if samples == [] then []
    else
      var s := samples[|samples| - 1];
      TrustedLog2(template, inclusion, samples[..|samples| - 1], b)
        + (if Contributes(template, inclusion, s) && Keeps(template, inclusion, s, b) then [s.coverage.bins[b].log2] else [])
  }

  /** The trusted depth values of bin b, sample by sample. */
  function TrustedDepth(template: seq<Bin>, inclusion: InclusionMap, samples: seq<Sample>, b: nat): (t: seq<real>)
    requires b < |template|
    ensures |t| == |TrustedLog2(template, inclusion, samples, b)|
  {
    if samples == [] then []
    else
      var s := samples[|samples| - 1];
      TrustedDepth(template, inclusion, samples[..|samples| - 1], b)
        + (if Contributes(template, inclusion, s) && Keeps(template, inclusion, s, b) then [s.coverage.bins[b].depth] else [])
  }

  /** The log2 and the depth matrix lack data in the same cells. */
  lemma RowsDefinedAlike(template: seq<Bin>, inclusion: InclusionMap, samples: seq<Sample>, b: nat)
    requires b < |template|
    ensures NanMean(Log2Row(template, inclusion, samples, b)).None? <==> NanMean(DepthRow(template, inclusion, samples, b)).None?
  {
    var l, d := Log2Row(template, inclusion, samples, b), DepthRow(template, inclusion, samples, b);
    assert forall i :: 0 <= i < |samples| ==> (l[i].None? <==> d[i].None?);
  }

  /** The three per-bin statistics, each possibly "no data". */
  datatype Columns = Columns(log2: seq<Option<real>>, depth: seq<Option<real>>, spread: seq<Option<real>>)

  /** Equal lengths, and the three columns lack data at the same bins. */
  ghost predicate Aligned(c: Columns) {
    && |c.log2| == |c.depth| == |c.spread|
    && forall b :: 0 <= b < |c.log2| ==>
         (c.log2[b].None? <==> c.depth[b].None?) && (c.log2[b].None? <==> c.spread[b].None?)
  }

  ghost predicate AllDefined(c: Columns) {
    && |c.log2| == |c.depth| == |c.spread|
    && forall b :: 0 <= b < |c.log2| ==> c.log2[b].Some? && c.depth[b].Some? && c.spread[b].Some?
  }

  /** Row-wise `nanmean` of both matrices and `nanstd` of the log2 matrix. */
  function Reduced(template: seq<Bin>, inclusion: InclusionMap, samples: seq<Sample>, root: real -> real): (c: Columns)
    ensures Aligned(c) && |c.log2| == |template|
  {
    var n := |template|;
    forall b | 0 <= b < n
      ensures NanMean(Log2Row(template, inclusion, samples, b)).None? <==> NanMean(DepthRow(template, inclusion, samples, b)).None?
    {
      RowsDefinedAlike(template, inclusion, samples, b);
    }
    Columns(
      seq(n, b requires 0 <= b < n => NanMean(Log2Row(template, inclusion, samples, b))),
      seq(n, b requires 0 <= b < n => NanMean(DepthRow(template, inclusion, samples, b))),
      seq(n, b requires 0 <= b < n => NanStd(Log2Row(template, inclusion, samples, b), root)))
  }

  /** `np.isnan(s)`: the bins without data. */
  function IsNaN(s: seq<Option<real>>): (mask: seq<bool>)
    ensures |mask| == |s|
  {
    seq(|s|, b requires 0 <= b < |s| => s[b].None?)
  }

  /** `s[mask] = v`: the masked bins take `v`, the others keep their value. */
  function Substitute(s: seq<Option<real>>, mask: seq<bool>, v: real): (r: seq<Option<real>>)
    requires |mask| == |s|
    ensures |r| == |s|
  {
    seq(|s|, b requires 0 <= b < |s| => if mask[b] then Some(v) else s[b])
  }

  /** The flat fallback, applied only when some bin has no log2 value.
      Both global means are taken over the columns before substitution; the
      second spread substitution catches whatever is still NaN. */
  function Fallback(c: Columns): (r: Columns)
    requires Aligned(c)
    ensures AllDefined(r) && |r.log2| == |c.log2|
  {
    var fallbackMask := IsNaN(c.log2);
    if true !in fallbackMask then
      assert forall b :: 0 <= b < |c.log2| ==> c.log2[b].Some? && c.depth[b].Some? && c.spread[b].Some? by {
        forall b | 0 <= b < |c.log2| ensures c.log2[b].Some? {
          assert fallbackMask[b] in fallbackMask;
        }
      }
      c
    else
      var fillDepth := NanMean(c.depth).GetOr(DefaultDepth);
      var safeSpread := NanMean(c.spread).GetOr(DefaultSpread);
      var spread := Substitute(c.spread, fallbackMask, safeSpread);
      Columns(
        Substitute(c.log2, fallbackMask, 0.0),
        Substitute(c.depth, fallbackMask, fillDepth),
        Substitute(spread, IsNaN(spread), safeSpread))
  }

  /** The template's rows with the computed statistics and weights. */
  function Finish(template: seq<Bin>, c: Columns): (rows: seq<RefRow>)
    requires AllDefined(c) && |c.log2| == |template|
    ensures |rows| == |template|
    ensures forall b :: 0 <= b < |rows| ==> 0.0 < rows[b].weight <= MaxWeight
  {
    seq(|template|, b requires 0 <= b < |template| =>
      var t := template[b];
      var spread := c.spread[b].value;
      RefRow(t.chromosome, t.start, t.end, t.annotations, c.log2[b].value, c.depth[b].value, spread, Weight(spread)))
  }

  /** `build_reference_matrix` with `root` as the square root inside `nanstd`. */
  function BuildReference(samples: seq<Sample>, inclusion: InclusionMap, root: real -> real): (r: Result<seq<RefRow>, BuildError>)
    ensures r == Failure(EmptyInput) <==> |samples| == 0
    ensures r.Success? ==> samples[0].coverage.Loaded? && |r.value| == |samples[0].coverage.bins|
  {
    if |samples| == 0 then Failure(EmptyInput)
    else if samples[0].coverage.Unreadable? then Failure(TemplateUnreadable)
    else
      var template := samples[0].coverage.bins;
      if Contributors(template, inclusion, samples) == 0 then Failure(NoValidSamples)
      else Success(Finish(template, Fallback(Reduced(template, inclusion, samples, root))))
  }
}
