# Curated CNV reference: masked reducer and reference validator

This project models the core of a tool that builds a copy-number (CNVkit)
reference from several samples' binned coverage tables. Each sample is
trusted only on the chromosomes listed for it in an inclusion map. The core:

- `normalize_chrom` puts a `chr` prefix on a chromosome name unless it already
  has one.
- `validate_compatibility` accepts a sample whose bin table has the template's
  bin count, the template's first bin start and the template's last bin end.
- `build_reference_matrix` first loads a template (the first sample). It then
  fills two bins x samples matrices (log2 and depth), starting from "no data"
  everywhere. Each sample that loads, passes the layout check and has a
  non-empty allow-list writes its values into its own column, at the bins
  whose normalised chromosome it is trusted on. The function reduces every
  row with NaN-aware mean and standard deviation and applies the flat
  fallback to bins no sample is trusted on. Finally it derives the weights
  `1 / max(spread, 1e-4)^2`.
- `validate_reference` is the validator that reads such a reference back.
  It checks the columns, NaN and infinite cells, coordinate order and sign,
  depth, the spread floor `1e-5`, and that at least one bin is exactly flat.

Modules, one per file:

- `Options` (`options.dfy`): the Option, Result and Outcome wrappers.
- `NanStats` (`nan_stats.dfy`): `numpy.nanmean`, and `numpy.nanstd` with its
  default ddof = 0.
- `BinLayout` (`bin_layout.dfy`): bins, `normalize_chrom`,
  `validate_compatibility` and the normalised allow-list.
- `ReferenceModel` (`reference_model.dfy`): `build_reference_matrix` as a
  function of its inputs (`BuildReference`).
- `ReferenceBuilder` (`reference_builder.dfy`): the same operation as the
  source runs it. Two `array2` matrices are filled column by column with
  masked writes. The reference arrays are overwritten in place by the
  fallback. `BuildReferenceMatrix` is proved equal to `BuildReference`.
- `ReferenceProperties` (`reference_properties.dfy`): what the reducer
  promises, proved about `BuildReference`.
- `ReferenceValidator` (`reference_validator.dfy`): `validate_reference`,
  with IEEE comparison semantics for NaN and infinities.
- `CrossCheck` (`cross_check.dfy`): a built reference read back by the
  validator.

### How the inputs are represented

- **Cells.** A matrix or reference cell is an `Option<real>`, and `None` is NaN.
- **Samples.** The input mapping `{sample_id: path}` is a sequence of samples
  in key order. Each sample's coverage is either its loaded bin table or
  `Unreadable`.
- **Template.** The template is the first sample. Its load is not guarded:
  when it fails, the whole build fails (`TemplateUnreadable`).
- **Failures.** The other raised failures become `BuildError` values:
  - `EmptyInput` for the empty mapping;
  - `NoValidSamples` when the count of contributing samples is zero.
- **Skipped samples.** Per-sample exceptions are caught, logged and skipped.
  This includes the `IndexError` that `iloc[0]` raises when both tables are
  empty (modelled as `NoBins`).
- **Validator crash.** On a table with a header and no rows the validator
  raises before it returns a verdict: at the infinity check
  (test/validate_cnv_reference.py:78, which cannot handle the object-typed
  columns such a table is read with) or, failing that, at the division by
  the row count (test/validate_cnv_reference.py:127). That verdict is
  `Crashed`.

### Where the code and its documented intent differ

The model follows the code.

- `numpy.nanstd` is called with its default ddof = 0, so a bin with exactly
  one trusted sample gets spread `0.0`, not an undefined spread. The comment
  at src/create_curated_reference.py:220 expects such bins to yield NaN and
  to receive the global fallback spread.
- As a result, the second spread substitution (line 221) never changes anything.
- Such a bin gets the clamped weight 1e8 (`SingleTrustedSample`).
- The validator then rejects any reference that has such a bin, because its
  spread is below 1e-5 (`CrossCheck.SingleTrustedSampleIsRejected`,
  `CrossCheck.OneSampleReferenceIsRejected`).
- The fallback branch runs only when at least one bin has no log2 value.
  When it runs, both global means are taken before any substitution.

## Model

| member | source | states |
|---|---|---|
| BinLayout.NormalizeChrom | src/create_curated_reference.py:95-98 | the result starts with "chr"; a name that already does is returned unchanged; otherwise the result is "chr" followed by the name |
| BinLayout.NormalizeChromIdempotent | src/create_curated_reference.py:95-98 | normalising a normalised name changes nothing |
| BinLayout.NormalizeChromCollisions | src/create_curated_reference.py:95-98 | two names share a normal form only if they are equal or one is the other with "chr" in front, so "1" and "chr1" select the same bins |
| BinLayout.ValidateCompatibility | src/create_curated_reference.py:100-112 | passes iff the bin counts are equal and non-zero, the first starts agree and the last ends agree; a count mismatch is reported iff the counts differ; the empty-table failure happens iff both are empty; a coordinate mismatch is reported iff the counts agree and an endpoint differs |
| BinLayout.CompatibilityIgnoresInnerBins | src/create_curated_reference.py:109-112 | replacing any inner bin of an accepted candidate keeps it accepted |
| BinLayout.AllowedChroms | src/create_curated_reference.py:161-165 | every allowed name carries the chr prefix; the set is empty iff the sample has no entry or an empty list |
| NanStats.Defined | src/create_curated_reference.py:193-197 | the non-NaN cells in order: empty iff every cell is NaN, and a value is kept iff it occurs as a defined cell |
| NanStats.NanMean | src/create_curated_reference.py:195-196 | the row mean is NaN iff every cell of the row is NaN |
| NanStats.NanStd | src/create_curated_reference.py:197 | the row deviation is NaN iff every cell of the row is NaN |
| NanStats.PopVariance | src/create_curated_reference.py:197 | the ddof = 0 variance is non-negative |
| NanStats.SingletonStatistics | src/create_curated_reference.py:197 | one observation has itself as mean and variance 0 |
| ReferenceModel.Weight | src/create_curated_reference.py:233-234 | the weight is positive and at most 1e8, and exactly 1e8 at or below the 1e-4 floor |
| ReferenceModel.WeightAntitone | src/create_curated_reference.py:233-234 | a larger spread never gives a larger weight |
| ReferenceModel.Contributes | src/create_curated_reference.py:153-181 | a sample that contributes loaded, has the template's non-zero bin count and a non-empty allow-list |
| ReferenceModel.Contributors | src/create_curated_reference.py:150-181 | the count of contributing samples is at most the number of samples |
| ReferenceModel.ContributorsPrefix | src/create_curated_reference.py:152-181 | processing one more sample raises the count by one exactly when that sample contributes |
| ReferenceModel.TrustedLog2 | src/create_curated_reference.py:170-179 | a bin has at most as many trusted log2 values as there are contributing samples |
| ReferenceModel.TrustedDepth | src/create_curated_reference.py:170-179 | a bin has exactly as many trusted depths as trusted log2 values |
| ReferenceModel.RowsDefinedAlike | src/create_curated_reference.py:178-196 | the log2 and depth row means are NaN at the same bins, because both columns are written under the same mask |
| ReferenceModel.Reduced | src/create_curated_reference.py:195-197 | one statistic per template bin, and the three reduced columns are NaN at the same bins |
| ReferenceModel.Fallback | src/create_curated_reference.py:201-221 | after the fallback no bin of log2, depth or spread is NaN, and the bin count is unchanged |
| ReferenceModel.Finish | src/create_curated_reference.py:224-234 | one row per template bin, each with a weight in (0, 1e8] |
| ReferenceModel.BuildReference | src/create_curated_reference.py:114-236 | the functional build: it fails with EmptyInput iff there is no input; on success the template loaded and there is one row per template bin (the full description is in BuiltRow and BuildFailures) |
| ReferenceBuilder.InjectColumn | src/create_curated_reference.py:178-179 | column i takes the sample's value at every kept bin; every other cell is unchanged |
| ReferenceBuilder.LoadSample | src/create_curated_reference.py:153-184 | the sample is counted iff it contributes, and its column then holds its values exactly at its trusted bins and "no data" elsewhere |
| ReferenceBuilder.WriteColumn | src/create_curated_reference.py:170-179 | a contributing sample's column holds its log2 and depth at the bins on its allow-list and "no data" elsewhere; the other columns are unchanged |
| ReferenceBuilder.FillMatrices | src/create_curated_reference.py:142-184 | the matrices have template-bins x samples cells, each cell holds the sample's value iff the sample contributes and is trusted at that bin, and the counter equals the number of contributing samples |
| ReferenceBuilder.ReduceRows | src/create_curated_reference.py:193-197 | the three new arrays hold the row-wise nanmean and nanstd of the matrices |
| ReferenceBuilder.AssignWhere | src/create_curated_reference.py:209 | masked entries take the value; the others are unchanged |
| ReferenceBuilder.ApplyFallback | src/create_curated_reference.py:201-221 | the arrays updated in place equal the fallback applied to their old contents |
| ReferenceBuilder.BuildReferenceMatrix | src/create_curated_reference.py:114-236 | the imperative build returns exactly BuildReference, error cases included |
| ReferenceProperties.ContributorsZero | src/create_curated_reference.py:186-187 | the count of contributing samples is zero iff no sample contributes |
| ReferenceProperties.ContributorsUpdate | src/create_curated_reference.py:150-181 | swapping one sample for another that contributes alike leaves the count unchanged |
| ReferenceProperties.BuildFailures | src/create_curated_reference.py:114-187 | the build fails with each error kind iff, respectively, the mapping is empty, the template is unreadable, or no sample contributes; on success the template is non-empty and the result has one row per template bin |
| ReferenceProperties.DefinedLog2RowIsTrusted | src/create_curated_reference.py:170-195 | the defined cells of a log2 matrix row are the trusted samples' log2 values, in sample order |
| ReferenceProperties.DefinedDepthRowIsTrusted | src/create_curated_reference.py:170-196 | the defined cells of a depth matrix row are the trusted samples' depths, in sample order |
| ReferenceProperties.FallbackAt | src/create_curated_reference.py:201-221 | a bin with no log2 value gets log2 0.0, the global mean depth (or 1.0) and the global mean spread (or 0.1), both taken before substitution; every other bin keeps its reduced values |
| ReferenceProperties.NothingTrustedReducesToNaN | src/create_curated_reference.py:195-218 | when no bin has a trusted sample, neither global mean (depth, spread) is defined, so the defaults 1.0 and 0.1 apply |
| ReferenceProperties.SecondSpreadPassIsNoOp | src/create_curated_reference.py:219-221 | after line 219 no spread is NaN, so the substitution at line 221 changes nothing |
| ReferenceProperties.BuiltRow | src/create_curated_reference.py:114-236 | each output row keeps the template's bin and annotations and has the weight of its spread; with no trusted sample it is flat with the fallback depth and spread; otherwise it holds the mean log2, the mean depth and the ddof = 0 deviation of the trusted values |
| ReferenceProperties.SingleTrustedSample | src/create_curated_reference.py:195-234 | a bin with exactly one trusted sample keeps that sample's log2, has spread 0.0 and weight 1e8 |
| ReferenceProperties.ReducedSpreadsNonNegative | src/create_curated_reference.py:197 | every defined reduced spread is non-negative |
| ReferenceProperties.SpreadsNonNegative | src/create_curated_reference.py:197-227 | every stored spread is non-negative |
| ReferenceProperties.NothingTrustedGivesDefaults | src/create_curated_reference.py:201-234 | when no bin has a trusted sample, every row has log2 0.0, depth 1.0, spread 0.1 and weight 100 |
| ReferenceProperties.NonContributingSampleIsIgnored | src/create_curated_reference.py:152-184 | a non-template sample that is skipped can be replaced by any other skipped sample without changing the result |
| ReferenceProperties.EmptyAllowListIsIgnored | src/create_curated_reference.py:161-165 | a sample after the first with no or an empty allow-list has no influence, whatever its coverage |
| ReferenceValidator.NaNComparesFalse | test/validate_cnv_reference.py:88-113 | every comparison with NaN is false, so NaN cells never count as bad order, negative, non-positive or low spread |
| ReferenceValidator.ColumnCheck | test/validate_cnv_reference.py:56-59 | passes iff all seven required columns are present |
| ReferenceValidator.NaNCheckPasses | test/validate_cnv_reference.py:69-71 | passes iff no required cell of any row is NaN |
| ReferenceValidator.InfCheckPasses | test/validate_cnv_reference.py:77-79 | passes iff no log2, depth, spread or weight cell is infinite |
| ReferenceValidator.CoordinateCheckPasses | test/validate_cnv_reference.py:88-89 | passes iff no row has start >= end |
| ReferenceValidator.PositivityCheckPasses | test/validate_cnv_reference.py:95-96 | passes iff no row has a negative start or end |
| ReferenceValidator.DepthCheckPasses | test/validate_cnv_reference.py:105-109 | passes iff no row has depth <= 0 |
| ReferenceValidator.SpreadCheckPasses | test/validate_cnv_reference.py:113-114 | passes iff no row has spread < 1e-5 |
| ReferenceValidator.FlatCount | test/validate_cnv_reference.py:125-129 | the flat count is at most the row count and is positive iff some row has log2 exactly 0.0 |
| ReferenceValidator.AllPassed | test/validate_cnv_reference.py:140-145 | the summary is true iff every recorded check passed |
| ReferenceValidator.RecordNumericChecks | test/validate_cnv_reference.py:65-117 | the NaN, Inf, coordinate, positivity and spread outcomes are appended in that order, each true iff its condition holds on every row; the depth outcome is not appended |
| ReferenceValidator.RunRecordedChecks | test/validate_cnv_reference.py:65-154 | crashes iff the table has no rows; otherwise valid iff the NaN, Inf, coordinate, positivity, spread and flat checks all hold, and the depth check does not matter |
| ReferenceValidator.ValidateReference | test/validate_cnv_reference.py:33-154 | crashes iff the file parses with all columns and no rows; returns True iff the file parses with all columns, at least one row, and every row passes the recorded checks with some row flat; False otherwise, including a missing or unreadable file |
| CrossCheck.ToRecord | src/create_curated_reference.py:224-234 | a built row is read back without NaN or infinite cells |
| CrossCheck.Written | src/create_curated_reference.py:224-236 | the written table has every required column and one record per built row |
| CrossCheck.FallbackBinPassesFlatCheck | test/validate_cnv_reference.py:125-129 | a built reference with a fallback bin passes the flat check |
| CrossCheck.BuiltTableIsFinite | test/validate_cnv_reference.py:69-79 | a built reference always passes the NaN and Inf checks |
| CrossCheck.SingleTrustedSampleIsRejected | test/validate_cnv_reference.py:113-114 | a built reference with a bin that has exactly one trusted sample fails the spread check and is rejected |
| CrossCheck.SoleSampleReferenceIsRejected | test/validate_cnv_reference.py:113-114 | a build from one sample with one bin it is trusted on succeeds, and the validator rejects its output |
| CrossCheck.OneSampleReferenceIsRejected | test/validate_cnv_reference.py:113-114 | one sample allowed on chr1 with one bin on "1": the build succeeds and the validator rejects its output |

## Left out

- File loading (`cnvlib.read`, `pd.read_csv`), `os.path.exists`, logging, the
  printed report and the command-line entry points are left out. A sample's
  coverage is given as loaded bins or `Unreadable`. The validator's input is
  given as missing, unparseable or a parsed table.
- `locate_files`, `main`, and the merging, sorting and writing of the two
  references are not part of this model. Neither is the contents of the
  sample-to-chromosome map: the inclusion map is a parameter.
- Values are exact reals. The `float32` rounding of the matrices and the
  float64 arithmetic are not modelled.
- NaN or infinite values inside a sample's input coverage are not
  modelled: raw log2 and depth values are finite reals.
- The square root inside `numpy.nanstd` is a parameter `root`. The lemmas
  that need it assume only `root(0) = 0` and that `root` is non-negative on
  non-negative arguments (`NanStats.IsSqrt`). They do not assume
  `root(v)^2 = v`.
- BinLayout.NormalizeChrom: the `str()` conversion is not modelled, because
  chromosome names are always strings here.
- ReferenceValidator.ValidateReference: the file-readability and
  column-structure entries of `results` are represented by early returns.
  The source returns False at those points before the summary, so the
  verdict is the same.
- Writing the reference and reading it back is idealised (`CrossCheck.ToRecord`):
  every value survives the round trip, whereas a chromosome name that pandas
  reads as missing (such as "NA" or an empty name) would fail the NaN check.
  The file the validator is run on is the merged target and antitarget
  reference; merging keeps every row, so the cross-check's conclusions about
  a single built table carry over, but the merge is not modelled.
- `dtype` handling of the validator's columns is not modelled. A chromosome
  cell is either a string or empty, and a numeric cell is finite, NaN or
  ±infinity.
