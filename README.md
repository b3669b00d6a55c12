# Hypothesis-testing decision layer

A Dafny model of the `TestHypothesis` engine of ML-Helper
(`MLHelper/src/hypothesis_testing.py`). The engine holds one significance
level α and offers a family of tests: normality, variance equality, one-sample,
independent and paired t-tests, one-way ANOVA, Mann-Whitney U, Wilcoxon
signed-rank, Kruskal-Wallis, chi-square, Fisher's exact test, and Pearson and
Spearman correlation. Each test checks its preconditions, may emit advisory
warnings, calls a statistics routine and turns the p-value into a verdict.

The model keeps exactly that decision layer and nothing of the statistics:

- `Oracles` (oracles.dfy): samples (`seq<real>`, or `seq<string>` for
  categorical data) and `Stats`, a record with one total function per library
  routine the engine calls (Shapiro-Wilk, Kolmogorov-Smirnov, Levene, Bartlett,
  the t-tests, ANOVA, the rank tests, cross-tabulation plus chi-square or
  Fisher, Pearson, Spearman, and the sample variance). Every theorem except
  `VerdictsAreProbabilities` holds for every choice of these functions; that
  one assumes `Valid`, which says a library returns p-values in [0, 1].
- `Outcomes` (outcomes.dfy): the raised error kinds, the warning tags,
  `Outcome = Error(failure) | Result(rejected, p)` and a `Report` that pairs
  the outcome with the warnings emitted before it. Warnings never abort.
- `HypothesisTesting` (hypothesis_testing.dfy): one pure function per method
  of the class. α, the class's only field, is the `alpha` parameter. It is
  written once in the constructor, defaults to 0.05 and is never checked, so
  the model puts no constraint on it. The `for` loops of ANOVA and the `any(...)`
  of the Bartlett check only test samples. They become recursive functions
  (`FirstStop`, `AnyLengthDiffers`, `AnyNotNormal`) that scan the samples in
  the source's order, with contracts that say what the scan finds.
- `HypothesisProperties` (properties.dfy): lemmas that relate several calls.

One consequence of the code as written is proved rather than assumed. ANOVA's
normality loop lets a non-normal sample of more than 30 items through when
`clt` is true. Bartlett's check runs right after it and raises on any
non-normal sample. So ANOVA gives a verdict exactly when every sample is
normal, whatever `clt` says (`Anova`, `AnovaIgnoresClt`, `AnovaCltCannotRescue`).
The model follows the code here.

Two checks do less than their names suggest, and the model keeps them as
written. The paired t-test has no equal-length check (`PairedGateAdmitsUnequalSizes`).
The Fisher warning tests the lengths of the two samples, not the shape of the
contingency table (`FisherExactTest`).

## Model

| member | source | states |
|---|---|---|
| HypothesisTesting.IsNormal | MLHelper/src/hypothesis_testing.py:17-30 | above 5000 items the Kolmogorov-Smirnov p-value decides, otherwise Shapiro-Wilk's; normal iff that p-value is strictly greater than α |
| HypothesisTesting.AnyNotNormal | MLHelper/src/hypothesis_testing.py:42 | true iff some sample of the list fails the normality check |
| HypothesisTesting.HasEqualVariance | MLHelper/src/hypothesis_testing.py:32-48 | with "bartlett" it raises iff some sample is not normal; any other name uses Levene and never raises; the answer is "p-value of the chosen test > α" |
| HypothesisTesting.CheckSignificance | MLHelper/src/hypothesis_testing.py:50-63 | a verdict whose p-value is the input unchanged, rejected iff p < α (so p == α is not rejected) |
| HypothesisTesting.CltGate | MLHelper/src/hypothesis_testing.py:75-79 | passes iff the sample is normal or (clt and size > 30); a stop is "not normal" without clt and "CLT impossible" with it |
| HypothesisTesting.FirstStop | MLHelper/src/hypothesis_testing.py:148-153 | the normality loop passes iff every sample passes the gate; a stop carries the gate's error kind |
| HypothesisTesting.AnyLengthDiffers | MLHelper/src/hypothesis_testing.py:142-146 | true iff some sample's length differs from the given length |
| HypothesisTesting.SizesFarApart | MLHelper/src/hypothesis_testing.py:174 | the real comparison `|n1 - n2| > 0.5 * min` agrees with the integer comparison `2|n1 - n2| > min` |
| HypothesisTesting.CountBelow | MLHelper/src/hypothesis_testing.py:231 | the count of cells below the bound is at most the cell count; zero iff no cell is below; all iff every cell is below |
| HypothesisTesting.TooManyLowFrequencies | MLHelper/src/hypothesis_testing.py:231 | "count below 5 > 0.2 × size" holds iff 5 × count > size |
| HypothesisTesting.OneSampleTtest | MLHelper/src/hypothesis_testing.py:65-83 | raises iff the sample is not normal and (no clt or size ≤ 30), with the matching error kind; otherwise the verdict on the one-sample t-test p-value; no warnings |
| HypothesisTesting.TwoSampleTtest | MLHelper/src/hypothesis_testing.py:86-110 | unequal lengths raise whatever the samples are; then the gate on "both normal" with the first sample's size; the t-test gets Levene's "p > α" as its equal-variance flag |
| HypothesisTesting.PairedTtest | MLHelper/src/hypothesis_testing.py:112-130 | raises only through the gate on "both normal" with the first sample's size, never for sizes; otherwise the verdict on the paired t-test p-value |
| HypothesisTesting.Anova | MLHelper/src/hypothesis_testing.py:132-159 | no samples raise; at most one warning, present iff some length differs from the first; a verdict iff every sample is normal, whatever clt; the error kind by clt and sample size; the p-value is the F-test's |
| HypothesisTesting.MannWhitneyUtest | MLHelper/src/hypothesis_testing.py:161-182 | never raises; warns about sizes iff they differ by more than half the smaller, and suggests a t-test iff both are normal; each warning at most once, the size warning first, no other warning |
| HypothesisTesting.WilcoxonSignedRankTest | MLHelper/src/hypothesis_testing.py:184-205 | unequal lengths raise with no warning; otherwise a verdict on the signed-rank p-value, with the paired-t-test suggestion iff both samples are normal |
| HypothesisTesting.KruskalWallis | MLHelper/src/hypothesis_testing.py:207-217 | always a verdict on the Kruskal-Wallis p-value, no warnings |
| HypothesisTesting.ChiSquare | MLHelper/src/hypothesis_testing.py:219-234 | raises iff 5 × (expected cells below 5) > number of cells; otherwise the verdict on the chi-square p-value |
| HypothesisTesting.FisherExactTest | MLHelper/src/hypothesis_testing.py:236-252 | never raises; warns iff both lengths are at least 5; the verdict on Fisher's p-value |
| HypothesisTesting.PearsonCorrelation | MLHelper/src/hypothesis_testing.py:254-274 | checks in order: equal lengths, nonzero variance of both, normality of both; a verdict iff all three hold |
| HypothesisTesting.SpearmanCorrelation | MLHelper/src/hypothesis_testing.py:276-290 | raises iff the lengths differ; otherwise the verdict on Spearman's p-value |
| HypothesisProperties.LevelMonotone | MLHelper/src/hypothesis_testing.py:30 | raising α never withdraws a rejection and never makes a sample normal; p == α is never rejected |
| HypothesisProperties.VerdictsAreProbabilities | MLHelper/src/hypothesis_testing.py:58-63 | with a library whose p-values lie in [0, 1], every verdict of every operation carries such a p-value |
| HypothesisProperties.CltOnlyRelaxes | MLHelper/src/hypothesis_testing.py:100-104 | in the three t-tests, asking for clt never turns a verdict into an error nor changes it |
| HypothesisProperties.AnovaIgnoresClt | MLHelper/src/hypothesis_testing.py:148-155 | in ANOVA clt changes neither the warnings nor whether or which verdict is given |
| HypothesisProperties.AnovaCltCannotRescue | MLHelper/src/hypothesis_testing.py:155 | a non-normal sample of more than 30 items passes the one-sample t-test under clt but makes ANOVA raise Bartlett's normality error |
| HypothesisProperties.AnovaUnequalLengthsOnlyWarn | MLHelper/src/hypothesis_testing.py:143-146 | normal samples of different lengths get a verdict and exactly one warning |
| HypothesisProperties.TwoSampleGateSymmetric | MLHelper/src/hypothesis_testing.py:97-104 | swapping the two samples does not change whether the independent t-test raises |
| HypothesisProperties.PairedGateIgnoresSecondLength | MLHelper/src/hypothesis_testing.py:122-126 | the paired gate sees the second sample only through its normality, not its length |
| HypothesisProperties.PairedGateAdmitsUnequalSizes | MLHelper/src/hypothesis_testing.py:122-128 | the engine's own gates raise nothing for two normal samples of different lengths, so the call reaches the paired t-test routine, while the independent and Wilcoxon tests raise a size error |
| HypothesisProperties.SuggestedTestsAccept | MLHelper/src/hypothesis_testing.py:177-201 | when Wilcoxon suggests the paired t-test, that test accepts the same samples; when Mann-Whitney suggests the independent t-test, that test accepts them if their lengths agree |
| HypothesisProperties.MannWhitneySuggestionIgnoresLengths | MLHelper/src/hypothesis_testing.py:177-178 | two normal samples of different lengths get Mann-Whitney's t-test suggestion, and the independent t-test raises a size error on them |
| HypothesisProperties.PearsonZeroVarianceRaises | MLHelper/src/hypothesis_testing.py:263-267 | a zero-variance sample in either position makes Pearson raise a size or variance error, whatever the other sample is |
| HypothesisProperties.AllLowCellsRaise | MLHelper/src/hypothesis_testing.py:230-232 | a nonempty table whose expected cells are all below 5 raises |
| HypothesisProperties.NoLowCellsPass | MLHelper/src/hypothesis_testing.py:230-234 | a table with no expected cell below 5 gets a verdict |
| HypothesisProperties.OneFifthIsTolerated | MLHelper/src/hypothesis_testing.py:231 | exactly one fifth of the cells below 5 does not raise (the comparison is strict) |
| HypothesisProperties.CountBelowAppend | MLHelper/src/hypothesis_testing.py:231 | the low-cell count of two concatenated cell lists is the sum of their counts |
| HypothesisProperties.CountBelowPermutation | MLHelper/src/hypothesis_testing.py:231 | the low-cell count depends only on the multiset of cells |
| HypothesisProperties.LowFrequencyRuleIgnoresCellOrder | MLHelper/src/hypothesis_testing.py:228-232 | the low-frequency rule gives the same answer however the table's cells are ordered |

## Left out

- HypothesisProperties.PairedGateAdmitsUnequalSizes: the verdict it promises exists only because the paired t-test oracle is total; scipy's `ttest_rel` at line 128 raises on samples of unequal length, so the program itself gives no verdict there. The lemma is about the engine's own gates.
- The mathematics of every statistics routine (scipy's tests, numpy's mean, standard deviation and variance, pandas' cross-tabulation): foreign floating-point code. Each is an arbitrary total function in `Oracles.Stats`. The cross-tabulation lives inside the chi-square and Fisher functions.
- Exceptions that the library itself raises, such as Shapiro-Wilk on fewer than three items, `ttest_rel` on unequal lengths or `fisher_exact` on a table that is not 2×2: library behaviour, not the engine's. NaN results are not representable.
- Statistical claims such as "a normal sample passes with high probability" or "identical samples give p = 1.0 in Wilcoxon": they depend on the library, not on this code.
- The printed verdict message of `checkSignificance` and the warning texts: console output. Warnings are tags in `Report.warnings`, and all errors are tags of `Failure`.
- Floating-point arithmetic in the two guards that use it. `0.5 * min(len1, len2)` is exact. `0.2 * expected.size` is compared as an exact real; the double nearest 0.2 is slightly above 1/5, so this agrees with the integer count for every realistic table size.
- Default arguments: the source defaults `clt` to `False` (lines 65, 86, 112, 132) and the variance test name to `"levene"` (line 32). Dafny functions have no defaults, so callers of the model pass these values explicitly; `Levene` is the constant for the default name.
- Short-circuit evaluation of `or`/`and` around `isNormal`: the oracles are pure, so evaluation order does not change the result.
- `MLHelper/src/data_loader.py`: file I/O around pandas readers. Its only logic is a file-suffix check and a "nothing loaded" check.
