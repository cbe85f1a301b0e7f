/** The shared bin layout of coverage files: chromosome-name normalisation,
    the coarse compatibility check between a template and a candidate, and
    the per-sample chromosome allow-lists. */
module BinLayout {
  import opened Options

  /** One row of a coverage file. `annotations` stands for the pass-through
      columns (gene name and the like) that are copied, never recomputed. */
  datatype Bin = Bin(
    chromosome: string,
    start: int,
    end: int,
    log2: real,
    depth: real,
    annotations: seq<string>)

  /** Python's `s.startswith("chr")`. */
  predicate HasChrPrefix(s: string) {
    |s| >= 3 && s[..3] == "chr"
  }

  /** `normalize_chrom`: prefix "chr" unless the name already starts with it. */
  function NormalizeChrom(name: string): (r: string)
    ensures HasChrPrefix(r)
    ensures HasChrPrefix(name) ==> r == name
    ensures |r| == |name| || |r| == |name| + 3
    ensures r[|r| - |name|..] == name
  {
    if HasChrPrefix(name) then name else "chr" + name
  }

  /** Normalising twice is normalising once. */
  lemma NormalizeChromIdempotent(name: string)
    ensures NormalizeChrom(NormalizeChrom(name)) == NormalizeChrom(name)
  {
  }

  /** Two names normalise to the same string only if they are equal, or one is
      the other with "chr" in front. */
  lemma {:induction false} NormalizeChromCollisions(a: string, b: string)
    requires NormalizeChrom(a) == NormalizeChrom(b)
    ensures a == b || a == "chr" + b || b == "chr" + a
  {
    if HasChrPrefix(a) && !HasChrPrefix(b) {
      assert a == "chr" + b;
    } else if !HasChrPrefix(a) && HasChrPrefix(b) {
      assert b == "chr" + a;
    } else if !HasChrPrefix(a) && !HasChrPrefix(b) {
      assert a == ("chr" + a)[3..] == ("chr" + b)[3..] == b;
    }
  }

  /** Why `validate_compatibility` rejects a candidate. */
  datatype LayoutError =
    | CountMismatch(templateBins: nat, candidateBins: nat)
    | CoordinateMismatch
    | NoBins  // `iloc[0]` on two empty tables raises IndexError

  /** `validate_compatibility`: compares the bin count first, then only the
      first bin's start and the last bin's end. */
  function ValidateCompatibility(template: seq<Bin>, candidate: seq<Bin>): (r: Outcome<LayoutError>)
    ensures r.Pass? <==>
      && |template| == |candidate| > 0
      && template[0].start == candidate[0].start
      && template[|template| - 1].end == candidate[|candidate| - 1].end
    ensures r == Fail(CountMismatch(|template|, |candidate|)) <==> |template| != |candidate|
    ensures r == Fail(NoBins) <==> template == candidate == []
    ensures r == Fail(CoordinateMismatch) <==>
      && |template| == |candidate| > 0
      && (template[0].start != candidate[0].start || template[|template| - 1].end != candidate[|candidate| - 1].end)
  {
    if |template| != |candidate| then Fail(CountMismatch(|template|, |candidate|))
    else if |template| == 0 then Fail(NoBins)
    else if template[0].start != candidate[0].start || template[|template| - 1].end != candidate[|candidate| - 1].end then
      Fail(CoordinateMismatch)
    else Pass
  }

  /** The check looks at the endpoints only: a candidate that agrees with the
      template on its first start and last end passes, whatever its inner bins. */
  lemma CompatibilityIgnoresInnerBins(template: seq<Bin>, candidate: seq<Bin>, k: nat, b: Bin)
    requires ValidateCompatibility(template, candidate).Pass?
    requires 0 < k < |candidate| - 1
    ensures ValidateCompatibility(template, candidate[k := b]).Pass?
  {
  }

  /** The normalised allow-list of a sample: `inclusion_map.get(sample_id, [])`
      with every name normalised. */
  function AllowedChroms(inclusion: map<string, seq<string>>, id: string): (r: set<string>)
    ensures forall c :: c in r ==> HasChrPrefix(c)
    ensures r == {} <==> id !in inclusion || inclusion[id] == []
  {
    var listed := if id in inclusion then inclusion[id] else [];
    var r := set c | c in listed :: NormalizeChrom(c);
    assert listed != [] ==> listed[0] in listed && NormalizeChrom(listed[0]) in r;
    assert listed == [] ==> r == {};
    r
  }
}
