/** What `build_reference_matrix` promises, proved about BuildReference. */
module ReferenceProperties {
  import opened Options
  import opened NanStats
  import opened BinLayout
  import opened ReferenceModel

  /** The template: the first sample's bins. */
  function Template(samples: seq<Sample>): seq<Bin>
    requires |samples| > 0 && samples[0].coverage.Loaded?
  {
    samples[0].coverage.bins
  }

  /** Depth given to fallback bins: the mean of the reduced depths that are
      defined before any substitution, or 1.0 when none is. */
  function FallbackDepth(samples: seq<Sample>, inclusion: InclusionMap, root: real -> real): real
    requires |samples| > 0 && samples[0].coverage.Loaded?
  {
    NanMean(Reduced(Template(samples), inclusion, samples, root).depth).GetOr(DefaultDepth)
  }

  /** Spread given to fallback bins: the mean of the reduced spreads that are
      defined before any substitution, or 0.1 when none is. */
  function FallbackSpread(samples: seq<Sample>, inclusion: InclusionMap, root: real -> real): real
    requires |samples| > 0 && samples[0].coverage.Loaded?
  {
    NanMean(Reduced(Template(samples), inclusion, samples, root).spread).GetOr(DefaultSpread)
  }

  /** `valid_samples_count` is zero exactly when no sample contributes. */
  lemma {:induction false} ContributorsZero(template: seq<Bin>, inclusion: InclusionMap, samples: seq<Sample>)
    ensures Contributors(template, inclusion, samples) == 0
        <==> forall i :: 0 <= i < |samples| ==> !Contributes(template, inclusion, samples[i])
  {
    if samples != [] {
      var front := samples[..|samples| - 1];
      ContributorsZero(template, inclusion, front);
      assert forall i :: 0 <= i < |front| ==> front[i] == samples[i];
    }
  }

  /** Replacing one sample by another that contributes alike leaves the count unchanged. */
  lemma {:induction false} ContributorsUpdate(template: seq<Bin>, inclusion: InclusionMap, samples: seq<Sample>, i: nat, s: Sample)
    requires i < |samples|
    requires Contributes(template, inclusion, s) == Contributes(template, inclusion, samples[i])
    ensures Contributors(template, inclusion, samples[i := s]) == Contributors(template, inclusion, samples)
  {
    var u := samples[i := s];
    if i < |samples| - 1 {
      assert u[..|u| - 1] == samples[..|samples| - 1][i := s];
      ContributorsUpdate(template, inclusion, samples[..|samples| - 1], i, s);
    } else {
      assert u[..|u| - 1] == samples[..|samples| - 1];
    }
  }

  /** The error cases: no input, an unreadable template, or no contributing sample. */
  lemma BuildFailures(samples: seq<Sample>, inclusion: InclusionMap, root: real -> real)
    ensures BuildReference(samples, inclusion, root) == Failure(EmptyInput) <==> |samples| == 0
    ensures BuildReference(samples, inclusion, root) == Failure(TemplateUnreadable)
        <==> |samples| > 0 && samples[0].coverage.Unreadable?
    ensures BuildReference(samples, inclusion, root) == Failure(NoValidSamples)
        <==> && |samples| > 0 && samples[0].coverage.Loaded?
             && forall i :: 0 <= i < |samples| ==> !Contributes(Template(samples), inclusion, samples[i])
    ensures BuildReference(samples, inclusion, root).Success? ==>
      |Template(samples)| > 0 && |BuildReference(samples, inclusion, root).value| == |Template(samples)|
  {
    if |samples| > 0 && samples[0].coverage.Loaded? {
      var template := Template(samples);
      ContributorsZero(template, inclusion, samples);
      if BuildReference(samples, inclusion, root).Success? {
        var i :| 0 <= i < |samples| && Contributes(template, inclusion, samples[i]);
        assert ValidateCompatibility(template, samples[i].coverage.bins).Pass?;
      }
    }
  }

  /** Dropping the last cell of a row drops its last defined value, if any. */
  lemma DefinedSnoc(s: seq<Option<real>>)
    requires |s| > 0
    ensures Defined(s) == Defined(s[..|s| - 1]) + (if s[|s| - 1].Some? then [s[|s| - 1].value] else [])
  {
  }

  /** A matrix row over all samples but the last is the full row without its last cell. */
  lemma RowsPrefix(template: seq<Bin>, inclusion: InclusionMap, samples: seq<Sample>, b: nat)
    requires b < |template| && |samples| > 0
    ensures var n := |samples|;
      && Log2Row(template, inclusion, samples, b)[..n - 1] == Log2Row(template, inclusion, samples[..n - 1], b)
      && DepthRow(template, inclusion, samples, b)[..n - 1] == DepthRow(template, inclusion, samples[..n - 1], b)
  {
  }

  /** The defined cells of a log2 matrix row are the trusted values, sample by sample. */
  lemma {:induction false} DefinedLog2RowIsTrusted(template: seq<Bin>, inclusion: InclusionMap, samples: seq<Sample>, b: nat)
    requires b < |template|
    ensures Defined(Log2Row(template, inclusion, samples, b)) == TrustedLog2(template, inclusion, samples, b)
  {
    if samples != [] {
      var n := |samples|;
      DefinedLog2RowIsTrusted(template, inclusion, samples[..n - 1], b);
      RowsPrefix(template, inclusion, samples, b);
      DefinedSnoc(Log2Row(template, inclusion, samples, b));
    }
  }

  /** The defined cells of a depth matrix row are the trusted depths, sample by sample. */
  lemma {:induction false} DefinedDepthRowIsTrusted(template: seq<Bin>, inclusion: InclusionMap, samples: seq<Sample>, b: nat)
    requires b < |template|
    ensures Defined(DepthRow(template, inclusion, samples, b)) == TrustedDepth(template, inclusion, samples, b)
  {
    if samples != [] {
      var n := |samples|;
      DefinedDepthRowIsTrusted(template, inclusion, samples[..n - 1], b);
      RowsPrefix(template, inclusion, samples, b);
      DefinedSnoc(DepthRow(template, inclusion, samples, b));
    }
  }

  /** A fallback bin keeps nothing of the reduction; any other bin keeps all of it. */
  lemma FallbackAt(c: Columns, b: nat)
    requires Aligned(c) && b < |c.log2|
    ensures c.log2[b].None? ==>
      && Fallback(c).log2[b] == Some(0.0)
      && Fallback(c).depth[b] == Some(NanMean(c.depth).GetOr(DefaultDepth))
      && Fallback(c).spread[b] == Some(NanMean(c.spread).GetOr(DefaultSpread))
    ensures c.log2[b].Some? ==>
      Fallback(c).log2[b] == c.log2[b] && Fallback(c).depth[b] == c.depth[b] && Fallback(c).spread[b] == c.spread[b]
  {
    var mask := IsNaN(c.log2);
    if true in mask {
      var safe := NanMean(c.spread).GetOr(DefaultSpread);
      var spread := Substitute(c.spread, mask, safe);
      assert spread[b] == if c.log2[b].None? then Some(safe) else c.spread[b];
    } else {
      assert mask[b] in mask;
    }
  }

  /** The second spread substitution never finds a NaN spread: after the first one the spreads that were
      NaN are exactly those of the fallback bins, which now hold `safe`. */
  lemma SecondSpreadPassIsNoOp(c: Columns, safe: real)
    requires Aligned(c)
    ensures true !in IsNaN(Substitute(c.spread, IsNaN(c.log2), safe))
  {
    var spread := Substitute(c.spread, IsNaN(c.log2), safe);
    forall b | 0 <= b < |spread| ensures spread[b].Some? {
      assert c.log2[b].None? <==> c.spread[b].None?;
    }
  }

  /** Each output row: the template's bin and annotations, log2 exactly 0.0 and
      the global fallback depth and spread when no sample is trusted at the bin,
      otherwise the mean, the mean depth and the ddof = 0 deviation of the
      trusted values; the weight is derived from the stored spread. */
  lemma BuiltRow(samples: seq<Sample>, inclusion: InclusionMap, root: real -> real, b: nat)
    requires BuildReference(samples, inclusion, root).Success?
    requires b < |Template(samples)|
    ensures b < |BuildReference(samples, inclusion, root).value|
    ensures
      var row := BuildReference(samples, inclusion, root).value[b];
      var bin := Template(samples)[b];
      var trusted := TrustedLog2(Template(samples), inclusion, samples, b);
      && row.chromosome == bin.chromosome && row.start == bin.start && row.end == bin.end
      && row.annotations == bin.annotations
      && row.weight == Weight(row.spread)
      && (trusted == [] ==>
            && row.log2 == 0.0
            && row.depth == FallbackDepth(samples, inclusion, root)
            && row.spread == FallbackSpread(samples, inclusion, root))
      && (trusted != [] ==>
            && row.log2 == Mean(trusted)
            && row.depth == Mean(TrustedDepth(Template(samples), inclusion, samples, b))
            && row.spread == root(PopVariance(trusted)))
  {
    var template := Template(samples);
    var c := Reduced(template, inclusion, samples, root);
    BuildFailures(samples, inclusion, root);
    DefinedLog2RowIsTrusted(template, inclusion, samples, b);
    DefinedDepthRowIsTrusted(template, inclusion, samples, b);
    FallbackAt(c, b);
  }

  /** With exactly one trusted sample (ddof = 0) the bin keeps that sample's
      log2, its spread is 0.0 rather than the fallback spread, and its weight
      is clamped to 1e8. */
  lemma SingleTrustedSample(samples: seq<Sample>, inclusion: InclusionMap, root: real -> real, b: nat)
    requires IsSqrt(root)
    requires BuildReference(samples, inclusion, root).Success?
    requires b < |Template(samples)|
    requires |TrustedLog2(Template(samples), inclusion, samples, b)| == 1
    ensures b < |BuildReference(samples, inclusion, root).value|
    ensures BuildReference(samples, inclusion, root).value[b].log2 == TrustedLog2(Template(samples), inclusion, samples, b)[0]
    ensures BuildReference(samples, inclusion, root).value[b].spread == 0.0
    ensures BuildReference(samples, inclusion, root).value[b].weight == MaxWeight
  {
    var trusted := TrustedLog2(Template(samples), inclusion, samples, b);
    BuiltRow(samples, inclusion, root, b);
    assert trusted == [trusted[0]];
    SingletonStatistics(trusted[0]);
  }

  /** Every reduced spread that is defined is non-negative. */
  lemma ReducedSpreadsNonNegative(template: seq<Bin>, inclusion: InclusionMap, samples: seq<Sample>, root: real -> real)
    requires IsSqrt(root)
    ensures forall x :: Some(x) in Reduced(template, inclusion, samples, root).spread ==> x >= 0.0
  {
    var c := Reduced(template, inclusion, samples, root);
    forall x | Some(x) in c.spread ensures x >= 0.0 {
      var b :| 0 <= b < |c.spread| && c.spread[b] == Some(x);
      var xs := Defined(Log2Row(template, inclusion, samples, b));
      assert |xs| > 0 && x == root(PopVariance(xs));
    }
  }

  /** Every stored spread is non-negative (it can be 0.0, see SingleTrustedSample). */
  lemma SpreadsNonNegative(samples: seq<Sample>, inclusion: InclusionMap, root: real -> real)
    requires IsSqrt(root)
    requires BuildReference(samples, inclusion, root).Success?
    ensures forall b :: 0 <= b < |BuildReference(samples, inclusion, root).value| ==>
      BuildReference(samples, inclusion, root).value[b].spread >= 0.0
  {
    var template := Template(samples);
    var c := Reduced(template, inclusion, samples, root);
    var rows := BuildReference(samples, inclusion, root).value;
    BuildFailures(samples, inclusion, root);
    ReducedSpreadsNonNegative(template, inclusion, samples, root);
    var xs := Defined(c.spread);
    if |xs| > 0 {
      MeanNonNegative(xs);
    }
    assert FallbackSpread(samples, inclusion, root) >= 0.0;
    forall b | 0 <= b < |rows| ensures rows[b].spread >= 0.0 {
      FallbackAt(c, b);
      if c.log2[b].Some? {
        assert Some(rows[b].spread) in c.spread;
      }
    }
  }

  /** When no sample is trusted at any bin, the reduction has no value at
      any bin, so neither global mean is defined. */
  lemma NothingTrustedReducesToNaN(template: seq<Bin>, inclusion: InclusionMap, samples: seq<Sample>, root: real -> real)
    requires forall b :: 0 <= b < |template| ==> TrustedLog2(template, inclusion, samples, b) == []
    ensures var c := Reduced(template, inclusion, samples, root);
      NanMean(c.depth).None? && NanMean(c.spread).None?
  {
    var c := Reduced(template, inclusion, samples, root);
    forall b | 0 <= b < |template| ensures c.log2[b].None? && c.depth[b].None? && c.spread[b].None? {
      DefinedLog2RowIsTrusted(template, inclusion, samples, b);
    }
  }

  /** When no sample is trusted at any bin (every allow-list misses the
      template's chromosomes), every row is flat with the defaults:
      log2 0.0, depth 1.0, spread 0.1 and weight 100. */
  lemma NothingTrustedGivesDefaults(samples: seq<Sample>, inclusion: InclusionMap, root: real -> real)
    requires BuildReference(samples, inclusion, root).Success?
    requires forall b :: 0 <= b < |Template(samples)| ==> TrustedLog2(Template(samples), inclusion, samples, b) == []
    ensures forall row :: row in BuildReference(samples, inclusion, root).value ==>
      row.log2 == 0.0 && row.depth == DefaultDepth && row.spread == DefaultSpread && row.weight == 100.0
  {
    var rows := BuildReference(samples, inclusion, root).value;
    NothingTrustedReducesToNaN(Template(samples), inclusion, samples, root);
    assert Weight(DefaultSpread) == 100.0 by {
      assert 1.0 / (0.1 * 0.1) == 100.0;
    }
    BuildFailures(samples, inclusion, root);
    forall b | 0 <= b < |rows|
      ensures rows[b].log2 == 0.0 && rows[b].depth == DefaultDepth && rows[b].spread == DefaultSpread
      ensures rows[b].weight == 100.0
    {
      BuiltRow(samples, inclusion, root, b);
    }
  }

  /** A sample other than the template that does not contribute (it failed to
      load, failed the layout check, or has an empty allow-list) can be
      replaced by any other such sample without changing the result. */
  lemma NonContributingSampleIsIgnored(samples: seq<Sample>, inclusion: InclusionMap, root: real -> real, i: nat, s: Sample)
    requires 0 < i < |samples| && samples[0].coverage.Loaded?
    requires !Contributes(Template(samples), inclusion, samples[i])
    requires !Contributes(Template(samples), inclusion, s)
    ensures BuildReference(samples[i := s], inclusion, root) == BuildReference(samples, inclusion, root)
  {
    var template := Template(samples);
    var u := samples[i := s];
    assert Template(u) == template;
    forall b | 0 <= b < |template|
      ensures Log2Row(template, inclusion, u, b) == Log2Row(template, inclusion, samples, b)
      ensures DepthRow(template, inclusion, u, b) == DepthRow(template, inclusion, samples, b)
    {
    }
    assert Reduced(template, inclusion, u, root) == Reduced(template, inclusion, samples, root);
    ContributorsUpdate(template, inclusion, samples, i, s);
  }

  /** A sample whose allow-list is absent or empty contributes to no bin,
      whatever its coverage values. */
  lemma EmptyAllowListIsIgnored(samples: seq<Sample>, inclusion: InclusionMap, root: real -> real, i: nat, other: Coverage)
    requires 0 < i < |samples| && samples[0].coverage.Loaded?
    requires samples[i].id !in inclusion || inclusion[samples[i].id] == []
    ensures BuildReference(samples[i := Sample(samples[i].id, other)], inclusion, root)
         == BuildReference(samples, inclusion, root)
  {
    NonContributingSampleIsIgnored(samples, inclusion, root, i, Sample(samples[i].id, other));
  }
}
