/** `build_reference_matrix` as the source runs it: two preallocated
    bins x samples matrices filled column by column with masked writes, a
    `valid_samples_count` counter, and reference arrays overwritten in place
    by the flat fallback. */
module ReferenceBuilder {
  import opened Options
  import opened NanStats
  import opened BinLayout
  import opened ReferenceModel

  /** Row b of a bins x samples matrix. */
  function MatrixRow(mat: array2<Option<real>>, b: nat): (row: seq<Option<real>>)
    requires b < mat.Length0
    reads mat
    ensures |row| == mat.Length1
    ensures forall i :: 0 <= i < mat.Length1 ==> row[i] == mat[b, i]
  {
    seq(mat.Length1, i requires 0 <= i < mat.Length1 reads mat => mat[b, i])
  }

  /** `mat[keep_mask, i] = values[keep_mask]`: column i takes the value at
      every kept bin; every other cell keeps what it held. */
  method InjectColumn(mat: array2<Option<real>>, i: nat, keepMask: seq<bool>, values: seq<real>)
    requires i < mat.Length1
    requires |keepMask| == |values| == mat.Length0
    modifies mat
    ensures forall b, j :: 0 <= b < mat.Length0 && 0 <= j < mat.Length1 ==>
      mat[b, j] == if j == i && keepMask[b] then Some(values[b]) else old(mat[b, j])
  {
    forall b | 0 <= b < mat.Length0 && keepMask[b] {
      mat[b, i] := Some(values[b]);
    }
  }

  /** One pass of the per-sample loading loop: sample `s` loads, passes the layout check
      and has a non-empty allow-list, or it is logged and skipped with its
      column left empty; otherwise its values go into column i at the bins
      whose normalised template chromosome is on its allow-list. */
  method LoadSample(template: seq<Bin>, templateChroms: seq<string>, inclusion: InclusionMap, s: Sample,
                    matLog2: array2<Option<real>>, matDepth: array2<Option<real>>, i: nat)
    returns (contributed: bool)
    requires matLog2 != matDepth
    requires matLog2.Length0 == matDepth.Length0 == |template| == |templateChroms|
    requires i < matLog2.Length1 == matDepth.Length1
    requires forall b :: 0 <= b < |template| ==> templateChroms[b] == NormalizeChrom(template[b].chromosome)
    requires forall b :: 0 <= b < |template| ==> matLog2[b, i].None? && matDepth[b, i].None?
    modifies matLog2, matDepth
    ensures contributed == Contributes(template, inclusion, s)
    ensures forall b, j :: 0 <= b < |template| && 0 <= j < matLog2.Length1 ==>
      matLog2[b, j] == (if j == i then Log2Cell(template, inclusion, s, b) else old(matLog2[b, j])) &&
      matDepth[b, j] == (if j == i then DepthCell(template, inclusion, s, b) else old(matDepth[b, j]))
  {
    var nBins := |template|;
    // A failing sample is logged and skipped; its column stays empty.
    if s.coverage.Unreadable? {
      SkippedSampleCells(template, inclusion, s);
      return false;
    }
    var raw := s.coverage.bins;
    var check := ValidateCompatibility(template, raw);
    if check.Fail? {
      SkippedSampleCells(template, inclusion, s);
      return false;
    }
    var allowed := AllowedChroms(inclusion, s.id);
    if allowed == {} {
      SkippedSampleCells(template, inclusion, s);
      return false;
    }
    WriteColumn(template, templateChroms, inclusion, s, allowed, matLog2, matDepth, i);
    return true;
  }

  /** The masked write of a contributing sample: column i of each matrix takes
      the sample's values at the bins whose normalised template chromosome is
      in `allowed`. */
  method WriteColumn(template: seq<Bin>, templateChroms: seq<string>, inclusion: InclusionMap, s: Sample,
                     allowed: set<string>, matLog2: array2<Option<real>>, matDepth: array2<Option<real>>, i: nat)
    requires Contributes(template, inclusion, s) && allowed == AllowedChroms(inclusion, s.id)
    requires matLog2 != matDepth
    requires matLog2.Length0 == matDepth.Length0 == |template| == |templateChroms|
    requires i < matLog2.Length1 == matDepth.Length1
    requires forall b :: 0 <= b < |template| ==> templateChroms[b] == NormalizeChrom(template[b].chromosome)
    requires forall b :: 0 <= b < |template| ==> matLog2[b, i].None? && matDepth[b, i].None?
    modifies matLog2, matDepth
    ensures forall b, j :: 0 <= b < |template| && 0 <= j < matLog2.Length1 ==>
      matLog2[b, j] == (if j == i then Log2Cell(template, inclusion, s, b) else old(matLog2[b, j])) &&
      matDepth[b, j] == (if j == i then DepthCell(template, inclusion, s, b) else old(matDepth[b, j]))
  {
    var nBins := |template|;
    var raw := s.coverage.bins;
    var keepMask := seq(nBins, b requires 0 <= b < nBins => templateChroms[b] in allowed);
    assert forall b :: 0 <= b < nBins ==> (keepMask[b] <==> Keeps(template, inclusion, s, b));
    InjectColumn(matLog2, i, keepMask, seq(nBins, b requires 0 <= b < nBins => raw[b].log2));
    InjectColumn(matDepth, i, keepMask, seq(nBins, b requires 0 <= b < nBins => raw[b].depth));
  }

  /** Matrix allocation and loading: allocate both matrices with every cell "no data", then
      load the samples one column at a time, counting those that contribute. */
  method FillMatrices(template: seq<Bin>, inclusion: InclusionMap, samples: seq<Sample>)
    returns (matLog2: array2<Option<real>>, matDepth: array2<Option<real>>, validCount: nat)
    ensures fresh(matLog2) && fresh(matDepth)
    ensures matLog2.Length0 == matDepth.Length0 == |template|
    ensures matLog2.Length1 == matDepth.Length1 == |samples|
    ensures forall b, i :: 0 <= b < |template| && 0 <= i < |samples| ==>
      matLog2[b, i] == Log2Cell(template, inclusion, samples[i], b) &&
      matDepth[b, i] == DepthCell(template, inclusion, samples[i], b)
    ensures validCount == Contributors(template, inclusion, samples)
  {
    var nBins, nSamples := |template|, |samples|;
    matLog2 := new Option<real>[nBins, nSamples]((b, i) => None);
    matDepth := new Option<real>[nBins, nSamples]((b, i) => None);
    var templateChroms := seq(nBins, b requires 0 <= b < nBins => NormalizeChrom(template[b].chromosome));

    validCount := 0;
    for i := 0 to nSamples
      invariant forall b, j :: 0 <= b < nBins && 0 <= j < nSamples ==>
        matLog2[b, j] == if j < i then Log2Cell(template, inclusion, samples[j], b) else None
      invariant forall b, j :: 0 <= b < nBins && 0 <= j < nSamples ==>
        matDepth[b, j] == if j < i then DepthCell(template, inclusion, samples[j], b) else None
      invariant validCount == Contributors(template, inclusion, samples[..i])
    {
      ContributorsPrefix(template, inclusion, samples, i);
      var contributed := LoadSample(template, templateChroms, inclusion, samples[i], matLog2, matDepth, i);
      if contributed {
        validCount := validCount + 1;
      }
    }
    assert samples[..nSamples] == samples;
  }

  /** The row reduction: row-wise `nanmean` of both matrices and `nanstd` of log2. */
  method ReduceRows(matLog2: array2<Option<real>>, matDepth: array2<Option<real>>, root: real -> real,
                    ghost template: seq<Bin>, ghost inclusion: InclusionMap, ghost samples: seq<Sample>)
    returns (refLog2: array<Option<real>>, refDepth: array<Option<real>>, refSpread: array<Option<real>>)
    requires matLog2.Length0 == matDepth.Length0 == |template|
    requires matLog2.Length1 == matDepth.Length1 == |samples|
    requires forall b, i :: 0 <= b < |template| && 0 <= i < |samples| ==>
      matLog2[b, i] == Log2Cell(template, inclusion, samples[i], b) &&
      matDepth[b, i] == DepthCell(template, inclusion, samples[i], b)
    ensures fresh(refLog2) && fresh(refDepth) && fresh(refSpread)
    ensures refLog2 != refDepth && refLog2 != refSpread && refDepth != refSpread
    ensures Columns(refLog2[..], refDepth[..], refSpread[..]) == Reduced(template, inclusion, samples, root)
  {
    var nBins := matLog2.Length0;
    refLog2 := new Option<real>[nBins];
    refDepth := new Option<real>[nBins];
    refSpread := new Option<real>[nBins];
    forall b | 0 <= b < nBins
      ensures MatrixRow(matLog2, b) == Log2Row(template, inclusion, samples, b)
      ensures MatrixRow(matDepth, b) == DepthRow(template, inclusion, samples, b)
    {
    }
    forall b | 0 <= b < nBins {
      refLog2[b] := NanMean(MatrixRow(matLog2, b));
    }
    forall b | 0 <= b < nBins {
      refDepth[b] := NanMean(MatrixRow(matDepth, b));
    }
    forall b | 0 <= b < nBins {
      refSpread[b] := NanStd(MatrixRow(matLog2, b), root);
    }
  }

  /** `a[mask] = v` on an array. */
  method AssignWhere(a: array<Option<real>>, mask: seq<bool>, v: real)
    requires |mask| == a.Length
    modifies a
    ensures a[..] == Substitute(old(a[..]), mask, v)
  {
    forall b | 0 <= b < a.Length && mask[b] {
      a[b] := Some(v);
    }
  }

  /** The flat fallback, overwriting the reference arrays in place,
      only when some bin has no log2 value at all. */
  method ApplyFallback(refLog2: array<Option<real>>, refDepth: array<Option<real>>, refSpread: array<Option<real>>)
    requires refLog2 != refDepth && refLog2 != refSpread && refDepth != refSpread
    requires Aligned(Columns(refLog2[..], refDepth[..], refSpread[..]))
    modifies refLog2, refDepth, refSpread
    ensures Columns(refLog2[..], refDepth[..], refSpread[..])
         == Fallback(old(Columns(refLog2[..], refDepth[..], refSpread[..])))
  {
    var fallbackMask := IsNaN(refLog2[..]);
    if true in fallbackMask {
      AssignWhere(refLog2, fallbackMask, 0.0);
      var globalMeanDepth := NanMean(refDepth[..]);
      AssignWhere(refDepth, fallbackMask, globalMeanDepth.GetOr(DefaultDepth));
      var globalMeanSpread := NanMean(refSpread[..]);
      var safeSpread := globalMeanSpread.GetOr(DefaultSpread);
      AssignWhere(refSpread, fallbackMask, safeSpread);
      AssignWhere(refSpread, IsNaN(refSpread[..]), safeSpread);
    }
  }

  /** `build_reference_matrix`. */
  method BuildReferenceMatrix(samples: seq<Sample>, inclusion: InclusionMap, root: real -> real)
    returns (r: Result<seq<RefRow>, BuildError>)
    ensures r == BuildReference(samples, inclusion, root)
  {
    if |samples| == 0 {
      return Failure(EmptyInput);
    }
    // The template load is outside the per-sample error handling.
    if samples[0].coverage.Unreadable? {
      return Failure(TemplateUnreadable);
    }
    var template := samples[0].coverage.bins;
    var matLog2, matDepth, validCount := FillMatrices(template, inclusion, samples);
    if validCount == 0 {
      return Failure(NoValidSamples);
    }
    var refLog2, refDepth, refSpread := ReduceRows(matLog2, matDepth, root, template, inclusion, samples);
    ApplyFallback(refLog2, refDepth, refSpread);
    // The final table: the template's rows with the new columns and weights.
    r := Success(Finish(template, Columns(refLog2[..], refDepth[..], refSpread[..])));
  }
}
