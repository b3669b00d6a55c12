/** What a test operation hands back: an outcome (a raised error or a
    significance verdict) and the advisory warnings it emitted on the way. */
module Outcomes {

  /** Why an operation aborted. All are Python `ValueError`s except
      `NoSamples`, the `IndexError` of reading the first of zero samples. */
  datatype Failure =
    | SizeMismatch             // the samples must have equal lengths
    | NotNormal                // a sample fails the normality check and CLT was not requested
    | CltTooSmall              // CLT requested for a non-normal sample of size 30 or less
    | BartlettNeedsNormality   // Bartlett's variance test on a non-normal sample
    | ZeroVariance             // a sample's variance is zero (Pearson)
    | LowExpectedFrequencies   // too many expected cells below 5 (chi-square)
    | NoSamples                // ANOVA called with no samples

  /** Advisory notices; they never stop an operation. */
  datatype Warning =
    | UnequalGroupSizes    // ANOVA samples of different lengths
    | LargeSizeDifference  // Mann-Whitney samples of very different lengths
    | PreferTtest          // Mann-Whitney on two normal samples
    | PreferPairedTtest    // Wilcoxon on two normal samples
    | PreferChiSquare      // Fisher's exact test on two samples of length 5 or more

  /** The source's `(rejected, p_value)` tuple, or the error it raised. */
  datatype Outcome = Error(failure: Failure) | Result(rejected: bool, p: real)

  datatype Report = Report(outcome: Outcome, warnings: seq<Warning>)

  /** A helper's value, or the error it raised. */
  datatype Checked<T> = Ok(value: T) | Raised(failure: Failure)

  /** The invariant every verdict keeps: rejected exactly when p < alpha. */
  predicate Uniform(alpha: real, o: Outcome) {
    o.Result? ==> (o.rejected <==> o.p < alpha)
  }
}
