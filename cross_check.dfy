/** The reference that `build_reference_matrix` writes, read back by
    `validate_reference`: which built references the validator accepts. */
module CrossCheck {
  import opened Options
  import opened NanStats
  import opened BinLayout
  import opened ReferenceModel
  import opened ReferenceProperties
  import opened ReferenceValidator

  /** A built row as the validator reads it back: every cell is finite. */
  function ToRecord(row: RefRow): (r: Record)
    ensures !HasNaN(r) && !HasInf(r)
  {
    Record(Some(row.chromosome), Fin(row.start as real), Fin(row.end as real),
           Fin(row.log2), Fin(row.depth), Fin(row.spread), Fin(row.weight))
  }

  /** The written table: the required columns, one record per built row. */
  function Written(rows: seq<RefRow>): (t: Table)
    ensures ColumnsPresent(t) && |t.records| == |rows|
  {
    Table(set c | c in RequiredColumns, seq(|rows|, b requires 0 <= b < |rows| => ToRecord(rows[b])))
  }

  /** A built reference with a fallback bin always passes the flat check. */
  lemma FallbackBinPassesFlatCheck(samples: seq<Sample>, inclusion: InclusionMap, root: real -> real, b: nat)
    requires BuildReference(samples, inclusion, root).Success?
    requires b < |Template(samples)|
    requires TrustedLog2(Template(samples), inclusion, samples, b) == []
    ensures var recs := Written(BuildReference(samples, inclusion, root).value).records;
      SomeFlatBin(recs)
  {
    BuiltRow(samples, inclusion, root, b);
    var recs := Written(BuildReference(samples, inclusion, root).value).records;
    assert IsFlat(recs[b]);
  }

  /** A built reference is never rejected for a NaN or an infinite cell. */
  lemma BuiltTableIsFinite(samples: seq<Sample>, inclusion: InclusionMap, root: real -> real)
    requires BuildReference(samples, inclusion, root).Success?
    ensures var recs := Written(BuildReference(samples, inclusion, root).value).records;
      NoNaNCells(recs) && NoInfCells(recs)
  {
  }

  /** The validator rejects every built reference that has a bin with exactly
      one trusted sample: that bin's spread is 0.0, below the 1e-5 threshold. */
  lemma SingleTrustedSampleIsRejected(samples: seq<Sample>, inclusion: InclusionMap, root: real -> real, b: nat)
    requires IsSqrt(root)
    requires BuildReference(samples, inclusion, root).Success?
    requires b < |Template(samples)|
    requires |TrustedLog2(Template(samples), inclusion, samples, b)| == 1
    ensures !Acceptable(Written(BuildReference(samples, inclusion, root).value).records)
    ensures !SpreadsAboveFloor(Written(BuildReference(samples, inclusion, root).value).records)
  {
    SingleTrustedSample(samples, inclusion, root, b);
    var recs := Written(BuildReference(samples, inclusion, root).value).records;
    assert LowSpread(recs[b]);
  }

  /** A single sample with a single bin whose chromosome it is trusted on is
      the one contributor, and its value is the bin's only trusted value. */
  lemma SoleSampleIsTrusted(bin: Bin, inclusion: InclusionMap, id: string)
    requires NormalizeChrom(bin.chromosome) in AllowedChroms(inclusion, id)
    ensures var samples := [Sample(id, Loaded([bin]))];
      && Contributors([bin], inclusion, samples) == 1
      && TrustedLog2([bin], inclusion, samples, 0) == [bin.log2]
  {
    var samples := [Sample(id, Loaded([bin]))];
    assert samples[..0] == [];
    assert Contributes([bin], inclusion, samples[0]);
    assert Keeps([bin], inclusion, samples[0], 0);
  }

  /** A build from one sample with one bin it is trusted on succeeds, and
      the validator rejects its output. */
  lemma SoleSampleReferenceIsRejected(bin: Bin, inclusion: InclusionMap, id: string, root: real -> real)
    requires IsSqrt(root)
    requires NormalizeChrom(bin.chromosome) in AllowedChroms(inclusion, id)
    ensures var built := BuildReference([Sample(id, Loaded([bin]))], inclusion, root);
      built.Success? && !Acceptable(Written(built.value).records)
  {
    SoleSampleIsTrusted(bin, inclusion, id);
    SingleTrustedSampleIsRejected([Sample(id, Loaded([bin]))], inclusion, root, 0);
  }

  /** One sample, one bin on "1", allowed on "chr1": the build succeeds and
      the validator rejects its output. */
  lemma OneSampleReferenceIsRejected(root: real -> real)
    requires IsSqrt(root)
    ensures var built := BuildReference([Sample("A", Loaded([Bin("1", 0, 100, 0.5, 10.0, [])]))], map["A" := ["chr1"]], root);
      built.Success? && !Acceptable(Written(built.value).records)
  {
    assert NormalizeChrom("1") == "chr1";
    assert "chr1" in AllowedChroms(map["A" := ["chr1"]], "A") by {
      assert NormalizeChrom("chr1") == "chr1";
    }
    SoleSampleReferenceIsRejected(Bin("1", 0, 100, 0.5, 10.0, []), map["A" := ["chr1"]], "A", root);
  }
}
