/** The decision layer of the `TestHypothesis` engine: which test runs, which
    preconditions raise, which conditions only warn, and how a p-value becomes
    a verdict. The engine's one field, the significance level, is the `alpha`
    parameter of every operation; the statistics library is the `st` parameter. */
module HypothesisTesting {
  import opened Oracles
  import opened Outcomes

  /** Above this size the Kolmogorov-Smirnov test replaces Shapiro-Wilk. */
  const LargeSampleSize: nat := 5000
  /** The central-limit relaxation needs more observations than this. */
  const CltMinimumSize: nat := 30
  /** An expected contingency cell below this is a low frequency. */
  const MinExpectedFrequency: real := 5.0
  /** The share of low-frequency cells the chi-square test tolerates. */
  const LowFrequencyShare: real := 0.2

  /** The variance test names the engine recognises. */
  const Bartlett: string := "bartlett"
  const Levene: string := "levene"

  /** Whether the outcome of a normality gate lets the operation go on. */
  datatype Gate = Pass | Stop(failure: Failure)

  // ---------------------------------------------------------------------
  // Shared predicates

  /** The normality check: Kolmogorov-Smirnov above 5000 observations,
      Shapiro-Wilk otherwise; normal when the p-value exceeds alpha. */
  function IsNormal(alpha: real, st: Stats, feature: Sample): (r: bool)
    ensures |feature| > LargeSampleSize ==> (r <==> st.ks(feature) > alpha)
    ensures |feature| <= LargeSampleSize ==> (r <==> st.shapiro(feature) > alpha)
  {
    var p := if |feature| > LargeSampleSize then st.ks(feature) else st.shapiro(feature);
    p > alpha
  }

  /** Whether some sample, scanned from the first, fails the normality check. */
  function AnyNotNormal(alpha: real, st: Stats, features: seq<Sample>): (r: bool)
    ensures r <==> exists i :: 0 <= i < |features| && !IsNormal(alpha, st, features[i])
  {
    if features == [] then false
    else !IsNormal(alpha, st, features[0]) || AnyNotNormal(alpha, st, features[1..])
  }

  /** The variance-equality check. Bartlett's test demands that every sample be
      normal and raises otherwise; any other test name means Levene's test,
      which never raises. Equal variances when the p-value exceeds alpha. */
  function HasEqualVariance(alpha: real, st: Stats, features: seq<Sample>, test: string): (r: Checked<bool>)
    ensures test == Bartlett ==>
              (r.Raised? <==> exists i :: 0 <= i < |features| && !IsNormal(alpha, st, features[i]))
    ensures test != Bartlett ==> r.Ok?
    ensures r.Raised? ==> r.failure == BartlettNeedsNormality
    ensures r.Ok? ==> (r.value <==> (if test == Bartlett then st.bartlett(features) else st.levene(features)) > alpha)
  {
    if test == Bartlett then
      if AnyNotNormal(alpha, st, features) then Raised(BartlettNeedsNormality)
      else Ok(st.bartlett(features) > alpha)
    else
      Ok(st.levene(features) > alpha)
  }

  /** The uniform verdict: the null hypothesis is rejected exactly when the
      p-value is strictly below alpha; the p-value is passed through. */
  function CheckSignificance(alpha: real, p: real): (r: Outcome)
    ensures r.Result? && r.p == p
    ensures r.rejected <==> p < alpha
  {
    if p < alpha then Result(true, p) else Result(false, p)
  }

  /** The normality precondition of the parametric tests, with the optional
      central-limit relaxation: a normal sample passes; a non-normal one passes
      only when the relaxation is requested and the size exceeds 30. */
  function CltGate(normal: bool, clt: bool, size: nat): (g: Gate)
    ensures g.Pass? <==> normal || (clt && size > CltMinimumSize)
    ensures g.Stop? ==> g.failure == (if clt then CltTooSmall else NotNormal)
  {
    if normal then Pass
    else if !clt then Stop(NotNormal)
    else if size <= CltMinimumSize then Stop(CltTooSmall)
    else Pass
  }

  /** The gate applied to one sample on its own. */
  predicate Admitted(alpha: real, st: Stats, feature: Sample, clt: bool) {
    CltGate(IsNormal(alpha, st, feature), clt, |feature|).Pass?
  }

  /** ANOVA's normality loop: the gate applied to each sample in turn, stopping
      at the first that it rejects. */
  function FirstStop(alpha: real, st: Stats, features: seq<Sample>, clt: bool): (g: Gate)
    ensures g.Pass? <==> forall i :: 0 <= i < |features| ==> Admitted(alpha, st, features[i], clt)
    ensures g.Stop? ==> g.failure == (if clt then CltTooSmall else NotNormal)
  {
    if features == [] then Pass
    else
      match CltGate(IsNormal(alpha, st, features[0]), clt, |features[0]|)
      case Stop(f) => Stop(f)
      case Pass => FirstStop(alpha, st, features[1..], clt)
  }

  /** ANOVA's length loop: whether some sample's length differs from n. */
  function AnyLengthDiffers(features: seq<Sample>, n: nat): (r: bool)
    ensures r <==> exists i :: 0 <= i < |features| && |features[i]| != n
  {
    if features == [] then false
    else |features[0]| != n || AnyLengthDiffers(features[1..], n)
  }

  function Dist(a: nat, b: nat): nat {
    if a < b then b - a else a - b
  }

  function Min(a: nat, b: nat): nat {
    if a < b then a else b
  }

  /** Mann-Whitney's accuracy condition: the sizes differ by more than half of
      the smaller size. The source compares against the float `0.5 * min`,
      which is exact; the integer form shows there is no rounding boundary. */
  predicate SizesFarApart(n1: nat, n2: nat)
    ensures SizesFarApart(n1, n2) <==> 2 * Dist(n1, n2) > Min(n1, n2)
  {
    Dist(n1, n2) as real > 0.5 * (Min(n1, n2) as real)
  }

  /** How many expected cells are below the minimum frequency. */
  function CountBelow(cells: seq<real>, bound: real): (r: nat)
    ensures r <= |cells|
    ensures r == 0 <==> forall i :: 0 <= i < |cells| ==> cells[i] >= bound
    ensures r == |cells| <==> forall i :: 0 <= i < |cells| ==> cells[i] < bound
  {
    if cells == [] then 0
    else (if cells[0] < bound then 1 else 0) + CountBelow(cells[1..], bound)
  }

  /** The chi-square validity rule: more than 20% of the expected cells are
      below 5. */
  predicate TooManyLowFrequencies(expected: seq<real>)
    ensures TooManyLowFrequencies(expected) <==> 5 * CountBelow(expected, MinExpectedFrequency) > |expected|
  {
    CountBelow(expected, MinExpectedFrequency) as real > LowFrequencyShare * (|expected| as real)
  }

  // ---------------------------------------------------------------------
  // Parametric tests

  /** One-sample t-test of `feature` against the population mean `mu`. */
  function OneSampleTtest(alpha: real, st: Stats, feature: Sample, mu: real, clt: bool): (r: Report)
    ensures r.warnings == []
    ensures r.outcome.Error? <==> !IsNormal(alpha, st, feature) && (!clt || |feature| <= CltMinimumSize)
    ensures r.outcome.Error? ==> r.outcome.failure == (if clt then CltTooSmall else NotNormal)
    ensures r.outcome.Result? ==> r.outcome.p == st.ttest1(feature, mu)
    ensures Uniform(alpha, r.outcome)
  {
    match CltGate(IsNormal(alpha, st, feature), clt, |feature|)
    case Stop(f) => Report(Error(f), [])
    case Pass => Report(CheckSignificance(alpha, st.ttest1(feature, mu)), [])
  }

  /** Independent two-sample t-test; Levene's test decides between the pooled
      and the Welch form. The size check comes first, and the relaxation looks
      at the first sample's size only. */
  function TwoSampleTtest(alpha: real, st: Stats, feature1: Sample, feature2: Sample, clt: bool): (r: Report)
    ensures r.warnings == []
    ensures |feature1| != |feature2| ==> r.outcome == Error(SizeMismatch)
    ensures |feature1| == |feature2| ==>
              (r.outcome.Error? <==>
                 !(IsNormal(alpha, st, feature1) && IsNormal(alpha, st, feature2))
                 && (!clt || |feature1| <= CltMinimumSize))
    ensures |feature1| == |feature2| && r.outcome.Error? ==>
              r.outcome.failure == (if clt then CltTooSmall else NotNormal)
    ensures r.outcome.Result? ==>
              r.outcome.p == st.ttestInd(feature1, feature2, st.levene([feature1, feature2]) > alpha)
    ensures Uniform(alpha, r.outcome)
  {
    if |feature1| != |feature2| then Report(Error(SizeMismatch), [])
    else
      match CltGate(IsNormal(alpha, st, feature1) && IsNormal(alpha, st, feature2), clt, |feature1|)
      case Stop(f) => Report(Error(f), [])
      case Pass =>
        var equalVar := HasEqualVariance(alpha, st, [feature1, feature2], Levene);
        Report(CheckSignificance(alpha, st.ttestInd(feature1, feature2, equalVar.value)), [])
  }

  /** Paired-sample t-test. There is no size check; the relaxation looks at
      the first sample's size only. */
  function PairedTtest(alpha: real, st: Stats, feature1: Sample, feature2: Sample, clt: bool): (r: Report)
    ensures r.warnings == []
    ensures r.outcome.Error? <==>
              !(IsNormal(alpha, st, feature1) && IsNormal(alpha, st, feature2))
              && (!clt || |feature1| <= CltMinimumSize)
    ensures r.outcome.Error? ==> r.outcome.failure == (if clt then CltTooSmall else NotNormal)
    ensures r.outcome.Result? ==> r.outcome.p == st.ttestRel(feature1, feature2)
    ensures Uniform(alpha, r.outcome)
  {
    match CltGate(IsNormal(alpha, st, feature1) && IsNormal(alpha, st, feature2), clt, |feature1|)
    case Stop(f) => Report(Error(f), [])
    case Pass => Report(CheckSignificance(alpha, st.ttestRel(feature1, feature2)), [])
  }

  /** One-way ANOVA. Different lengths give one warning and no error; every
      sample goes through the normality gate; Bartlett's test then runs, and
      only its normality demand matters, not its verdict. Because that demand
      ignores the relaxation, ANOVA gives a verdict exactly when every sample
      is normal, whatever `clt` says. */
  function Anova(alpha: real, st: Stats, features: seq<Sample>, clt: bool): (r: Report)
    ensures |features| == 0 ==> r == Report(Error(NoSamples), [])
    ensures |features| > 0 ==>
              r.warnings == if exists i :: 0 <= i < |features| && |features[i]| != |features[0]|
                            then [UnequalGroupSizes] else []
    ensures r.outcome.Result? <==>
              |features| > 0 && forall i :: 0 <= i < |features| ==> IsNormal(alpha, st, features[i])
    ensures |features| > 0 && r.outcome.Error? && !clt ==> r.outcome.failure == NotNormal
    ensures |features| > 0 && r.outcome.Error? && clt ==>
              r.outcome.failure ==
                if exists i :: 0 <= i < |features| && !Admitted(alpha, st, features[i], clt)
                then CltTooSmall else BartlettNeedsNormality
    ensures r.outcome.Result? ==> r.outcome.p == st.fOneway(features)
    ensures Uniform(alpha, r.outcome)
  {
    if |features| == 0 then Report(Error(NoSamples), [])
    else
      var warnings := if AnyLengthDiffers(features, |features[0]|) then [UnequalGroupSizes] else [];
      match FirstStop(alpha, st, features, clt)
      case Stop(f) => Report(Error(f), warnings)
      case Pass =>
        match HasEqualVariance(alpha, st, features, Bartlett)
        case Raised(f) => Report(Error(f), warnings)
        case Ok(_) => Report(CheckSignificance(alpha, st.fOneway(features)), warnings)
  }

  // ---------------------------------------------------------------------
  // Rank tests

  /** Two-sided Mann-Whitney U test. It never raises; it warns about very
      different sizes and about two normal samples. */
  function MannWhitneyUtest(alpha: real, st: Stats, feature1: Sample, feature2: Sample): (r: Report)
    ensures r.outcome.Result? && r.outcome.p == st.mannWhitneyU(feature1, feature2)
    ensures Uniform(alpha, r.outcome)
    ensures LargeSizeDifference in r.warnings <==> SizesFarApart(|feature1|, |feature2|)
    ensures PreferTtest in r.warnings <==> IsNormal(alpha, st, feature1) && IsNormal(alpha, st, feature2)
    ensures forall w :: w in r.warnings ==> w == LargeSizeDifference || w == PreferTtest
    ensures |r.warnings| ==
              (if SizesFarApart(|feature1|, |feature2|) then 1 else 0)
              + (if IsNormal(alpha, st, feature1) && IsNormal(alpha, st, feature2) then 1 else 0)
    ensures LargeSizeDifference in r.warnings ==> r.warnings[0] == LargeSizeDifference
  {
    var sizeWarning := if SizesFarApart(|feature1|, |feature2|) then [LargeSizeDifference] else [];
    var normalWarning :=
      if IsNormal(alpha, st, feature1) && IsNormal(alpha, st, feature2) then [PreferTtest] else [];
    Report(CheckSignificance(alpha, st.mannWhitneyU(feature1, feature2)), sizeWarning + normalWarning)
  }

  /** Two-sided Wilcoxon signed-rank test: equal sizes are required; two
      normal samples only warn. */
  function WilcoxonSignedRankTest(alpha: real, st: Stats, feature1: Sample, feature2: Sample): (r: Report)
    ensures |feature1| != |feature2| ==> r == Report(Error(SizeMismatch), [])
    ensures |feature1| == |feature2| ==> r.outcome.Result? && r.outcome.p == st.wilcoxon(feature1, feature2)
    ensures |feature1| == |feature2| ==>
              (r.warnings != [] <==> IsNormal(alpha, st, feature1) && IsNormal(alpha, st, feature2))
    ensures forall w :: w in r.warnings ==> w == PreferPairedTtest
    ensures |r.warnings| <= 1
    ensures Uniform(alpha, r.outcome)
  {
    if |feature1| != |feature2| then Report(Error(SizeMismatch), [])
    else
      var normalWarning :=
        if IsNormal(alpha, st, feature1) && IsNormal(alpha, st, feature2) then [PreferPairedTtest] else [];
      Report(CheckSignificance(alpha, st.wilcoxon(feature1, feature2)), normalWarning)
  }

  /** Kruskal-Wallis H test: no precondition at all. */
  function KruskalWallis(alpha: real, st: Stats, features: seq<Sample>): (r: Report)
    ensures r.outcome.Result? && r.outcome.p == st.kruskal(features)
    ensures r.warnings == []
    ensures Uniform(alpha, r.outcome)
  {
    Report(CheckSignificance(alpha, st.kruskal(features)), [])
  }

  // ---------------------------------------------------------------------
  // Contingency tests

  /** Chi-square test of independence on the cross-tabulation of two
      categorical samples; raises when more than 20% of the expected cells
      are below 5. */
  function ChiSquare(alpha: real, st: Stats, feature1: Labels, feature2: Labels): (r: Report)
    ensures r.warnings == []
    ensures r.outcome.Error? <==>
              5 * CountBelow(st.chi2Contingency(feature1, feature2).expected, MinExpectedFrequency)
              > |st.chi2Contingency(feature1, feature2).expected|
    ensures r.outcome.Error? ==> r.outcome.failure == LowExpectedFrequencies
    ensures r.outcome.Result? ==> r.outcome.p == st.chi2Contingency(feature1, feature2).p
    ensures Uniform(alpha, r.outcome)
  {
    var fit := st.chi2Contingency(feature1, feature2);
    if TooManyLowFrequencies(fit.expected) then Report(Error(LowExpectedFrequencies), [])
    else Report(CheckSignificance(alpha, fit.p), [])
  }

  /** Fisher's exact test. It never raises; when both samples have at least
      five observations it warns that the chi-square test is preferable. */
  function FisherExactTest(alpha: real, st: Stats, feature1: Labels, feature2: Labels): (r: Report)
    ensures r.outcome.Result? && r.outcome.p == st.fisherExact(feature1, feature2)
    ensures r.warnings != [] <==> |feature1| >= 5 && |feature2| >= 5
    ensures forall w :: w in r.warnings ==> w == PreferChiSquare
    ensures |r.warnings| <= 1
    ensures Uniform(alpha, r.outcome)
  {
    var warnings := if |feature1| >= 5 && |feature2| >= 5 then [PreferChiSquare] else [];
    Report(CheckSignificance(alpha, st.fisherExact(feature1, feature2)), warnings)
  }

  // ---------------------------------------------------------------------
  // Correlation tests

  /** Pearson correlation test. Its gates, in order: equal lengths, nonzero
      sample variance of both samples, normality of both samples. */
  function PearsonCorrelation(alpha: real, st: Stats, feature1: Sample, feature2: Sample): (r: Report)
    ensures r.warnings == []
    ensures |feature1| != |feature2| ==> r.outcome == Error(SizeMismatch)
    ensures |feature1| == |feature2| && (st.sampleVariance(feature1) == 0.0 || st.sampleVariance(feature2) == 0.0) ==>
              r.outcome == Error(ZeroVariance)
    ensures r.outcome == Error(NotNormal) <==>
              |feature1| == |feature2| && st.sampleVariance(feature1) != 0.0 && st.sampleVariance(feature2) != 0.0
              && !(IsNormal(alpha, st, feature1) && IsNormal(alpha, st, feature2))
    ensures r.outcome.Result? <==>
              |feature1| == |feature2| && st.sampleVariance(feature1) != 0.0 && st.sampleVariance(feature2) != 0.0
              && IsNormal(alpha, st, feature1) && IsNormal(alpha, st, feature2)
    ensures r.outcome.Result? ==> r.outcome.p == st.pearsonr(feature1, feature2)
    ensures Uniform(alpha, r.outcome)
  {
    if |feature1| != |feature2| then Report(Error(SizeMismatch), [])
    else if st.sampleVariance(feature1) == 0.0 || st.sampleVariance(feature2) == 0.0 then
      Report(Error(ZeroVariance), [])
    else if !IsNormal(alpha, st, feature1) || !IsNormal(alpha, st, feature2) then
      Report(Error(NotNormal), [])
    else
      Report(CheckSignificance(alpha, st.pearsonr(feature1, feature2)), [])
  }

  /** Spearman rank correlation test: equal lengths only. */
  function SpearmanCorrelation(alpha: real, st: Stats, feature1: Sample, feature2: Sample): (r: Report)
    ensures r.warnings == []
    ensures r.outcome.Error? <==> |feature1| != |feature2|
    ensures r.outcome.Error? ==> r.outcome.failure == SizeMismatch
    ensures r.outcome.Result? ==> r.outcome.p == st.spearmanr(feature1, feature2)
    ensures Uniform(alpha, r.outcome)
  {
    if |feature1| != |feature2| then Report(Error(SizeMismatch), [])
    else Report(CheckSignificance(alpha, st.spearmanr(feature1, feature2)), [])
  }
}
