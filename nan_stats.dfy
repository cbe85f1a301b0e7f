/** NaN-aware reductions in the style of `numpy.nanmean` and `numpy.nanstd`
    (default ddof = 0): undefined cells are dropped, and a reduction over no
    defined cell is itself undefined. */
module NanStats {
  import opened Options

  /** The defined values of `s`, in order (the cells that are not NaN). */
  function Defined(s: seq<Option<real>>): (r: seq<real>)
    ensures |r| <= |s|
    ensures |r| == 0 <==> forall i :: 0 <= i < |s| ==> s[i].None?
    ensures forall x :: x in r <==> Some(x) in s
  {
    if s == [] then []
    else
      var last := s[|s| - 1];
      assert s == s[..|s| - 1] + [last];
      Defined(s[..|s| - 1]) + (if last.Some? then [last.value] else [])
  }

  function Sum(xs: seq<real>): real {
    if xs == [] then 0.0 else Sum(xs[..|xs| - 1]) + xs[|xs| - 1]
  }

  /** Arithmetic mean of a non-empty sequence. */
  function Mean(xs: seq<real>): real
    requires |xs| > 0
  {
    Sum(xs) / |xs| as real
  }

  /** Sum of squared deviations of `xs` from `m`. */
  function SquaredDeviations(xs: seq<real>, m: real): (r: real)
    ensures r >= 0.0
  {
    if xs == [] then 0.0
    else
      var d := xs[|xs| - 1] - m;
      SquaredDeviations(xs[..|xs| - 1], m) + d * d
  }

  /** Population variance (ddof = 0): mean squared deviation from the mean. */
  function PopVariance(xs: seq<real>): (v: real)
    requires |xs| > 0
    ensures v >= 0.0
  {
    SquaredDeviations(xs, Mean(xs)) / |xs| as real
  }

  /** What the model uses of the square root inside `numpy.nanstd`: it is
      non-negative on non-negative arguments and maps 0 to 0. */
  ghost predicate IsSqrt(root: real -> real) {
    && root(0.0) == 0.0
    && forall v: real :: 0.0 <= v ==> 0.0 <= root(v)
  }

  /** `numpy.nanmean` over one axis: undefined exactly when no cell is defined. */
  function NanMean(s: seq<Option<real>>): (r: Option<real>)
    ensures r.None? <==> forall i :: 0 <= i < |s| ==> s[i].None?
  {
    var xs := Defined(s);
    if |xs| == 0 then None else Some(Mean(xs))
  }

  /** `numpy.nanstd` with ddof = 0: undefined exactly when no cell is defined. */
  function NanStd(s: seq<Option<real>>, root: real -> real): (r: Option<real>)
    ensures r.None? <==> forall i :: 0 <= i < |s| ==> s[i].None?
  {
    var xs := Defined(s);
    if |xs| == 0 then None else Some(root(PopVariance(xs)))
  }

  /** The sum of non-negative values is non-negative. */
  lemma {:induction false} SumNonNegative(xs: seq<real>)
    requires forall x :: x in xs ==> x >= 0.0
    ensures Sum(xs) >= 0.0
  {
    if xs != [] {
      var front := xs[..|xs| - 1];
      forall x | x in front ensures x >= 0.0 {
        var k :| 0 <= k < |front| && front[k] == x;
        assert xs[k] == x && xs[k] in xs;
      }
      SumNonNegative(front);
      assert xs[|xs| - 1] in xs;
    }
  }

  /** The mean of non-negative values is non-negative. */
  lemma MeanNonNegative(xs: seq<real>)
    requires |xs| > 0
    requires forall x :: x in xs ==> x >= 0.0
    ensures Mean(xs) >= 0.0
  {
    SumNonNegative(xs);
  }

  /** A single observation has mean equal to itself and variance zero. */
  lemma SingletonStatistics(x: real)
    ensures Mean([x]) == x
    ensures PopVariance([x]) == 0.0
  {
    assert [x][..0] == [];
    assert Sum([x]) == x;
    assert SquaredDeviations([x], x) == SquaredDeviations([], x) + (x - x) * (x - x);
  }
}
