/** `validate_reference`: the rule set a reference table must pass. Numeric
    cells follow IEEE semantics (NaN compares false, infinities are ordered). */
module ReferenceValidator {
  import opened Options

  /** A numeric cell as pandas reads it. */
  datatype Num = Fin(x: real) | NaN | Inf(negative: bool)

  /** IEEE `a < b`. */
  predicate Lt(a: Num, b: Num) {
    match (a, b)
    case (Fin(x), Fin(y)) => x < y
    case (Inf(na), Fin(_)) => na
    case (Fin(_), Inf(nb)) => !nb
    case (Inf(na), Inf(nb)) => na && !nb
    case _ => false
  }

  /** IEEE `a <= b`. */
  predicate Le(a: Num, b: Num) {
    Lt(a, b) || (a == b && !a.NaN?)
  }

  /** IEEE `a >= b`. */
  predicate Ge(a: Num, b: Num) {
    Le(b, a)
  }

  /** A comparison with NaN is always false. */
  lemma NaNComparesFalse(a: Num)
    ensures !Lt(a, NaN) && !Lt(NaN, a) && !Le(a, NaN) && !Le(NaN, a)
  {
  }

  /** One row of the table; `chromosome` is None when the cell is empty. */
  datatype Record = Record(
    chromosome: Option<string>,
    start: Num,
    end: Num,
    log2: Num,
    depth: Num,
    spread: Num,
    weight: Num)

  datatype Table = Table(columns: set<string>, records: seq<Record>)

  /** What reading the file gives. */
  datatype Input = Missing | Unparseable | Parsed(table: Table)

  /** True, False, or an exception raised before a verdict on a table with no rows. */
  datatype Verdict = Valid | Invalid | Crashed

  /** The names under which `validate_reference` records its checks. */
  datatype CheckName =
    FileLoad | ColumnStructure | NaNCheck | InfCheck | Coordinates | Positivity | SpreadValidity | FallbackLogic

  const RequiredColumns: seq<string> := ["chromosome", "start", "end", "log2", "depth", "spread", "weight"]
  const MinSpread: real := 0.00001

  /** `df[mask]` / `[x for x in xs if keep(x)]`. */
  function Where<T>(xs: seq<T>, keep: T -> bool): (r: seq<T>)
    ensures |r| <= |xs|
    ensures |r| == 0 <==> forall i :: 0 <= i < |xs| ==> !keep(xs[i])
  {
    if xs == [] then []
    else
      var last := xs[|xs| - 1];
      assert forall i :: 0 <= i < |xs| - 1 ==> xs[..|xs| - 1][i] == xs[i];
      Where(xs[..|xs| - 1], keep) + (if keep(last) then [last] else [])
  }

  predicate HasNaN(r: Record) {
    r.chromosome.None? || r.start.NaN? || r.end.NaN? || r.log2.NaN? || r.depth.NaN? || r.spread.NaN? || r.weight.NaN?
  }

  predicate HasInf(r: Record) {
    r.log2.Inf? || r.depth.Inf? || r.spread.Inf? || r.weight.Inf?
  }

  /** `start >= end`. */
  predicate BadOrder(r: Record) {
    Ge(r.start, r.end)
  }

  /** `start < 0 or end < 0`. */
  predicate NegativeCoordinate(r: Record) {
    Lt(r.start, Fin(0.0)) || Lt(r.end, Fin(0.0))
  }

  /** `depth <= 0`. */
  predicate NonPositiveDepth(r: Record) {
    Le(r.depth, Fin(0.0))
  }

  /** `spread < 1e-5`. */
  predicate LowSpread(r: Record) {
    Lt(r.spread, Fin(MinSpread))
  }

  /** `log2 == 0.0`. */
  predicate IsFlat(r: Record) {
    r.log2 == Fin(0.0)
  }

  predicate ColumnsPresent(t: Table) {
    forall c :: c in RequiredColumns ==> c in t.columns
  }

  /** The column check: `missing_cols` is empty. */
  function ColumnCheck(t: Table): (passed: bool)
    ensures passed <==> ColumnsPresent(t)
  {
    var missingCols := Where(RequiredColumns, c => c !in t.columns);
    assert |missingCols| == 0 <==> forall i :: 0 <= i < |RequiredColumns| ==> RequiredColumns[i] in t.columns;
    assert (forall i :: 0 <= i < |RequiredColumns| ==> RequiredColumns[i] in t.columns) ==> ColumnsPresent(t);
    |missingCols| == 0
  }

  predicate NoNaNCells(recs: seq<Record>) {
    forall i :: 0 <= i < |recs| ==> !HasNaN(recs[i])
  }

  predicate NoInfCells(recs: seq<Record>) {
    forall i :: 0 <= i < |recs| ==> !HasInf(recs[i])
  }

  predicate CoordinatesOrdered(recs: seq<Record>) {
    forall i :: 0 <= i < |recs| ==> !BadOrder(recs[i])
  }

  predicate CoordinatesNonNegative(recs: seq<Record>) {
    forall i :: 0 <= i < |recs| ==> !NegativeCoordinate(recs[i])
  }

  predicate DepthsPositive(recs: seq<Record>) {
    forall i :: 0 <= i < |recs| ==> !NonPositiveDepth(recs[i])
  }

  predicate SpreadsAboveFloor(recs: seq<Record>) {
    forall i :: 0 <= i < |recs| ==> !LowSpread(recs[i])
  }

  predicate SomeFlatBin(recs: seq<Record>) {
    exists i :: 0 <= i < |recs| && IsFlat(recs[i])
  }

  /** The NaN check: no required cell is NaN. */
  method NaNCheckPasses(recs: seq<Record>) returns (passed: bool)
    ensures passed <==> NoNaNCells(recs)
  {
    var bad := Where(recs, HasNaN);
    passed := |bad| == 0;
  }

  /** The Inf check: no log2, depth, spread or weight cell is infinite. */
  method InfCheckPasses(recs: seq<Record>) returns (passed: bool)
    ensures passed <==> NoInfCells(recs)
  {
    var bad := Where(recs, HasInf);
    passed := |bad| == 0;
  }

  /** The coordinate check: no bin with `start >= end`. */
  method CoordinateCheckPasses(recs: seq<Record>) returns (passed: bool)
    ensures passed <==> CoordinatesOrdered(recs)
  {
    var bad := Where(recs, BadOrder);
    passed := |bad| == 0;
  }

  /** The positivity check: no negative `start` or `end`. */
  method PositivityCheckPasses(recs: seq<Record>) returns (passed: bool)
    ensures passed <==> CoordinatesNonNegative(recs)
  {
    var bad := Where(recs, NegativeCoordinate);
    passed := |bad| == 0;
  }

  /** The depth check, which is printed but never recorded. */
  method DepthCheckPasses(recs: seq<Record>) returns (passed: bool)
    ensures passed <==> DepthsPositive(recs)
  {
    var bad := Where(recs, NonPositiveDepth);
    passed := |bad| == 0;
  }

  /** The spread check: no bin with spread below 1e-5. */
  method SpreadCheckPasses(recs: seq<Record>) returns (passed: bool)
    ensures passed <==> SpreadsAboveFloor(recs)
  {
    var bad := Where(recs, LowSpread);
    passed := |bad| == 0;
  }

  /** `n_flat`: how many bins have log2 exactly 0.0; positive iff one does. */
  method FlatCount(recs: seq<Record>) returns (n: nat)
    ensures n <= |recs|
    ensures n > 0 <==> SomeFlatBin(recs)
  {
    var flat := Where(recs, IsFlat);
    n := |flat|;
  }

  /** The conditions under which `validate_reference` returns True, stated
      bin by bin. The depth check is absent: it is reported, never recorded. */
  predicate Acceptable(recs: seq<Record>) {
    && NoNaNCells(recs)
    && NoInfCells(recs)
    && CoordinatesOrdered(recs)
    && CoordinatesNonNegative(recs)
    && SpreadsAboveFloor(recs)
    && SomeFlatBin(recs)
  }

  /** The summary loop: the verdict is True iff every recorded check passed. */
  method AllPassed(results: seq<(CheckName, bool)>) returns (allPassed: bool)
    ensures allPassed <==> forall j :: 0 <= j < |results| ==> results[j].1
  {
    allPassed := true;
    for k := 0 to |results|
      invariant allPassed <==> forall j :: 0 <= j < k ==> results[j].1
    {
      if !results[k].1 {
        allPassed := false;
      }
    }
  }

  /** `validate_reference`: returns False at once for a missing or unreadable
      file or a missing column; otherwise runs the recorded checks. */
  method ValidateReference(input: Input) returns (v: Verdict)
    ensures v == Crashed <==>
      input.Parsed? && ColumnsPresent(input.table) && |input.table.records| == 0
    ensures v == Valid <==>
      input.Parsed? && ColumnsPresent(input.table) && |input.table.records| > 0 && Acceptable(input.table.records)
  {
    if input.Missing? {
      return Invalid;
    }
    if input.Unparseable? {
      return Invalid;
    }
    var results: seq<(CheckName, bool)> := [(FileLoad, true)];
    var passed := ColumnCheck(input.table);
    results := results + [(ColumnStructure, passed)];
    if !passed {
      return Invalid;
    }
    v := RunRecordedChecks(input.table.records, results);
  }

  /** The numeric checks, each outcome appended to `results` in order; the
      depth check is computed and reported but not appended. */
  method RecordNumericChecks(recs: seq<Record>, loaded: seq<(CheckName, bool)>) returns (results: seq<(CheckName, bool)>)
    ensures results == loaded + [(NaNCheck, NoNaNCells(recs)), (InfCheck, NoInfCells(recs)),
                                 (Coordinates, CoordinatesOrdered(recs)), (Positivity, CoordinatesNonNegative(recs)),
                                 (SpreadValidity, SpreadsAboveFloor(recs))]
  {
    results := loaded;
    var passedNaN := NaNCheckPasses(recs);
    results := results + [(NaNCheck, passedNaN)];
    var passedInf := InfCheckPasses(recs);
    results := results + [(InfCheck, passedInf)];
    var passedCoords := CoordinateCheckPasses(recs);
    results := results + [(Coordinates, passedCoords)];
    var passedNeg := PositivityCheckPasses(recs);
    results := results + [(Positivity, passedNeg)];
    var passedDepth := DepthCheckPasses(recs);
    var passedSpread := SpreadCheckPasses(recs);
    results := results + [(SpreadValidity, passedSpread)];
  }

  /** The checks after the column check, then the flat-bin check and the
      summary loop; a table with no rows raises before any verdict. */
  method RunRecordedChecks(recs: seq<Record>, loaded: seq<(CheckName, bool)>) returns (v: Verdict)
    requires forall j :: 0 <= j < |loaded| ==> loaded[j].1
    ensures v == Crashed <==> |recs| == 0
    ensures v == Valid <==> |recs| > 0 && Acceptable(recs)
  {
    var results := RecordNumericChecks(recs, loaded);
    var nFlat := FlatCount(recs);
    if |recs| == 0 {
      // With no rows the checks raise before a verdict (the Inf check on
      // object-typed columns, or the division computing the flat percentage).
      return Crashed;
    }
    var passedFlat := nFlat > 0;
    results := results + [(FallbackLogic, passedFlat)];
    var allPassed := AllPassed(results);
    var n := |loaded|;
    assert allPassed <==> forall j :: n <= j < n + 6 ==> results[j].1 by {
      assert forall j :: 0 <= j < n ==> results[j] == loaded[j];
    }
    assert allPassed <==> Acceptable(recs) by {
      assert results[n].1 == NoNaNCells(recs) && results[n + 1].1 == NoInfCells(recs);
      assert results[n + 2].1 == CoordinatesOrdered(recs) && results[n + 3].1 == CoordinatesNonNegative(recs);
      assert results[n + 4].1 == SpreadsAboveFloor(recs) && results[n + 5].1 == passedFlat;
    }
    v := if allPassed then Valid else Invalid;
  }
}
