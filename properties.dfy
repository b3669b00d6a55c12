/** Properties of the decision layer that relate several calls: how the
    verdict moves with the significance level, what the central-limit
    relaxation can and cannot change, which gates look at which sample, and
    why the chi-square rule does not depend on how the table is flattened. */
module HypothesisProperties {
  import opened Oracles
  import opened Outcomes
  import opened HypothesisTesting

  /** A larger significance level rejects at least as often, and finds a
      sample normal at most as often. A p-value equal to alpha is never a
      rejection. */
  lemma LevelMonotone(alpha: real, beta: real, st: Stats, p: real, feature: Sample)
    requires alpha <= beta
    ensures CheckSignificance(alpha, p).rejected ==> CheckSignificance(beta, p).rejected
    ensures IsNormal(beta, st, feature) ==> IsNormal(alpha, st, feature)
    ensures !CheckSignificance(p, p).rejected
  {
  }

  /** With a well-behaved library every verdict carries a p-value in [0, 1]. */
  lemma VerdictsAreProbabilities(alpha: real, st: Stats, feature1: Sample, feature2: Sample,
                                 features: seq<Sample>, mu: real, clt: bool,
                                 labels1: Labels, labels2: Labels)
    requires Valid(st)
    ensures var o := OneSampleTtest(alpha, st, feature1, mu, clt).outcome; o.Result? ==> IsProbability(o.p)
    ensures var o := TwoSampleTtest(alpha, st, feature1, feature2, clt).outcome; o.Result? ==> IsProbability(o.p)
    ensures var o := PairedTtest(alpha, st, feature1, feature2, clt).outcome; o.Result? ==> IsProbability(o.p)
    ensures var o := Anova(alpha, st, features, clt).outcome; o.Result? ==> IsProbability(o.p)
    ensures IsProbability(MannWhitneyUtest(alpha, st, feature1, feature2).outcome.p)
    ensures var o := WilcoxonSignedRankTest(alpha, st, feature1, feature2).outcome; o.Result? ==> IsProbability(o.p)
    ensures IsProbability(KruskalWallis(alpha, st, features).outcome.p)
    ensures var o := ChiSquare(alpha, st, labels1, labels2).outcome; o.Result? ==> IsProbability(o.p)
    ensures IsProbability(FisherExactTest(alpha, st, labels1, labels2).outcome.p)
    ensures var o := PearsonCorrelation(alpha, st, feature1, feature2).outcome; o.Result? ==> IsProbability(o.p)
    ensures var o := SpearmanCorrelation(alpha, st, feature1, feature2).outcome; o.Result? ==> IsProbability(o.p)
  {
  }

  /** Requesting the central-limit relaxation never turns a verdict into an
      error, nor changes a verdict, in the t-tests. */
  lemma CltOnlyRelaxes(alpha: real, st: Stats, feature1: Sample, feature2: Sample, mu: real)
    ensures OneSampleTtest(alpha, st, feature1, mu, false).outcome.Result? ==>
              OneSampleTtest(alpha, st, feature1, mu, true) == OneSampleTtest(alpha, st, feature1, mu, false)
    ensures TwoSampleTtest(alpha, st, feature1, feature2, false).outcome.Result? ==>
              TwoSampleTtest(alpha, st, feature1, feature2, true) == TwoSampleTtest(alpha, st, feature1, feature2, false)
    ensures PairedTtest(alpha, st, feature1, feature2, false).outcome.Result? ==>
              PairedTtest(alpha, st, feature1, feature2, true) == PairedTtest(alpha, st, feature1, feature2, false)
  {
  }

  /** In ANOVA the relaxation changes only which error is raised: the
      warnings, and whether and which verdict is given, are the same either way. */
  lemma AnovaIgnoresClt(alpha: real, st: Stats, features: seq<Sample>)
    ensures Anova(alpha, st, features, true).warnings == Anova(alpha, st, features, false).warnings
    ensures Anova(alpha, st, features, true).outcome.Result? <==> Anova(alpha, st, features, false).outcome.Result?
    ensures Anova(alpha, st, features, false).outcome.Result? ==>
              Anova(alpha, st, features, true) == Anova(alpha, st, features, false)
  {
  }

  /** A large non-normal sample that the relaxation lets through the
      one-sample t-test is still refused by ANOVA, by Bartlett's normality
      demand. */
  lemma AnovaCltCannotRescue(alpha: real, st: Stats, feature: Sample, mu: real)
    requires |feature| > CltMinimumSize && !IsNormal(alpha, st, feature)
    ensures OneSampleTtest(alpha, st, feature, mu, true).outcome.Result?
    ensures Anova(alpha, st, [feature], true).outcome == Error(BartlettNeedsNormality)
  {
  }

  /** ANOVA raises nothing over unequal lengths: samples of different lengths
      that are all normal get a verdict with exactly one warning. */
  lemma AnovaUnequalLengthsOnlyWarn(alpha: real, st: Stats, features: seq<Sample>, k: nat)
    requires k < |features| && |features[k]| != |features[0]|
    requires forall i :: 0 <= i < |features| ==> IsNormal(alpha, st, features[i])
    ensures forall clt :: Anova(alpha, st, features, clt).outcome.Result?
    ensures forall clt :: Anova(alpha, st, features, clt).warnings == [UnequalGroupSizes]
  {
  }

  /** The two-sample gate does not depend on the order of the samples: once
      their lengths agree, the first sample's size is the second's too. */
  lemma TwoSampleGateSymmetric(alpha: real, st: Stats, feature1: Sample, feature2: Sample, clt: bool)
    ensures TwoSampleTtest(alpha, st, feature1, feature2, clt).outcome.Error? <==>
            TwoSampleTtest(alpha, st, feature2, feature1, clt).outcome.Error?
  {
  }

  /** The paired gate looks at the second sample only through its normality:
      its length matters to neither the size nor the relaxation rule. */
  lemma PairedGateIgnoresSecondLength(alpha: real, st: Stats, feature1: Sample, feature2: Sample,
                                      other: Sample, clt: bool)
    requires IsNormal(alpha, st, feature2) == IsNormal(alpha, st, other)
    ensures PairedTtest(alpha, st, feature1, feature2, clt).outcome.Error? ==
            PairedTtest(alpha, st, feature1, other, clt).outcome.Error?
  {
  }

  /** Unlike the independent and the Wilcoxon tests, the paired t-test's own
      gates raise nothing for two normal samples of different lengths: the
      call reaches the paired t-test routine, which here is a total function. */
  lemma PairedGateAdmitsUnequalSizes(alpha: real, st: Stats, feature1: Sample, feature2: Sample, clt: bool)
    requires |feature1| != |feature2|
    requires IsNormal(alpha, st, feature1) && IsNormal(alpha, st, feature2)
    ensures PairedTtest(alpha, st, feature1, feature2, clt).outcome.Result?
    ensures TwoSampleTtest(alpha, st, feature1, feature2, clt).outcome == Error(SizeMismatch)
    ensures WilcoxonSignedRankTest(alpha, st, feature1, feature2).outcome == Error(SizeMismatch)
  {
  }

  /** The t-tests that the rank tests' warnings recommend accept the same data. */
  lemma SuggestedTestsAccept(alpha: real, st: Stats, feature1: Sample, feature2: Sample, clt: bool)
    ensures PreferTtest in MannWhitneyUtest(alpha, st, feature1, feature2).warnings && |feature1| == |feature2| ==>
              TwoSampleTtest(alpha, st, feature1, feature2, clt).outcome.Result?
    ensures PreferPairedTtest in WilcoxonSignedRankTest(alpha, st, feature1, feature2).warnings ==>
              PairedTtest(alpha, st, feature1, feature2, clt).outcome.Result?
  {
  }

  /** Mann-Whitney's t-test suggestion ignores lengths: two normal samples of
      different lengths are told to use a t-test that refuses them. */
  lemma MannWhitneySuggestionIgnoresLengths(alpha: real, st: Stats, feature1: Sample, feature2: Sample, clt: bool)
    requires |feature1| != |feature2|
    requires IsNormal(alpha, st, feature1) && IsNormal(alpha, st, feature2)
    ensures PreferTtest in MannWhitneyUtest(alpha, st, feature1, feature2).warnings
    ensures TwoSampleTtest(alpha, st, feature1, feature2, clt).outcome == Error(SizeMismatch)
  {
  }

  /** A sample whose variance is zero makes the Pearson test raise, whatever
      the other sample is. */
  lemma PearsonZeroVarianceRaises(alpha: real, st: Stats, constant: Sample, other: Sample)
    requires st.sampleVariance(constant) == 0.0
    ensures PearsonCorrelation(alpha, st, constant, other).outcome.Error?
    ensures PearsonCorrelation(alpha, st, other, constant).outcome.Error?
    ensures PearsonCorrelation(alpha, st, constant, other).outcome.failure in {SizeMismatch, ZeroVariance}
    ensures PearsonCorrelation(alpha, st, other, constant).outcome.failure in {SizeMismatch, ZeroVariance}
  {
  }

  /** A nonempty table whose expected cells are all below 5 is refused. */
  lemma AllLowCellsRaise(alpha: real, st: Stats, feature1: Labels, feature2: Labels)
    requires var e := st.chi2Contingency(feature1, feature2).expected;
             |e| > 0 && forall i :: 0 <= i < |e| ==> e[i] < MinExpectedFrequency
    ensures ChiSquare(alpha, st, feature1, feature2).outcome == Error(LowExpectedFrequencies)
  {
  }

  /** A table without a low expected cell gets a verdict. */
  lemma NoLowCellsPass(alpha: real, st: Stats, feature1: Labels, feature2: Labels)
    requires var e := st.chi2Contingency(feature1, feature2).expected;
             forall i :: 0 <= i < |e| ==> e[i] >= MinExpectedFrequency
    ensures ChiSquare(alpha, st, feature1, feature2).outcome.Result?
  {
  }

  /** The rule is strict: exactly one fifth of the cells below 5 is tolerated. */
  lemma OneFifthIsTolerated(alpha: real, st: Stats, feature1: Labels, feature2: Labels)
    requires var e := st.chi2Contingency(feature1, feature2).expected;
             5 * CountBelow(e, MinExpectedFrequency) == |e|
    ensures ChiSquare(alpha, st, feature1, feature2).outcome.Result?
  {
  }

  lemma {:induction false} CountBelowAppend(a: seq<real>, b: seq<real>, bound: real)
    ensures CountBelow(a + b, bound) == CountBelow(a, bound) + CountBelow(b, bound)
  {
    if a == [] {
      assert a + b == b;
    } else {
      assert (a + b)[1..] == a[1..] + b;
      CountBelowAppend(a[1..], b, bound);
    }
  }

  /** The number of low cells depends only on the multiset of cell values. */
  lemma {:induction false} CountBelowPermutation(a: seq<real>, b: seq<real>, bound: real)
    requires multiset(a) == multiset(b)
    ensures CountBelow(a, bound) == CountBelow(b, bound)
    decreases |a|
  {
    if a == [] {
      assert |b| == |multiset(b)| == 0;
    } else {
      var x := a[0];
      assert x in multiset(b);
      var j :| 0 <= j < |b| && b[j] == x;
      var rest := b[..j] + b[j+1..];
      assert b == b[..j] + ([b[j]] + b[j+1..]);
      assert a == [x] + a[1..];
      calc {
        multiset(b);
        multiset(b[..j]) + multiset([b[j]] + b[j+1..]);
        multiset(b[..j]) + multiset([x]) + multiset(b[j+1..]);
        multiset(rest) + multiset([x]);
      }
      assert multiset(a) == multiset([x]) + multiset(a[1..]);
      assert multiset(a[1..]) == multiset(a) - multiset([x]);
      assert multiset(rest) == multiset(b) - multiset([x]);
      CountBelowPermutation(a[1..], rest, bound);
      CountBelowAppend(b[..j], [b[j]] + b[j+1..], bound);
      CountBelowAppend([b[j]], b[j+1..], bound);
      CountBelowAppend(b[..j], b[j+1..], bound);
      CountBelowAppend([x], a[1..], bound);
    }
  }

  /** Flattening the table by rows or by columns gives the same verdict on
      low frequencies: the rule sees only the multiset of expected cells. */
  lemma LowFrequencyRuleIgnoresCellOrder(e1: seq<real>, e2: seq<real>)
    requires multiset(e1) == multiset(e2)
    ensures TooManyLowFrequencies(e1) <==> TooManyLowFrequencies(e2)
  {
    CountBelowPermutation(e1, e2, MinExpectedFrequency);
    assert |e1| == |multiset(e1)| == |multiset(e2)| == |e2|;
  }
}
