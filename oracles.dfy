/** The statistics library the test engine delegates to.
    Every scipy, numpy or pandas routine that the engine calls is a field of
    `Stats`: a total function from its arguments to what the engine reads back
    from it (a p-value, a sample variance, or the expected cell counts of a
    contingency table). Nothing about the mathematics of the tests is modelled;
    the engine's decisions are proved for every choice of these functions. */
module Oracles {

  /** A numeric sample: an ordered sequence of observations. */
  type Sample = seq<real>

  /** A categorical sample, one label per observation. */
  type Labels = seq<string>

  /** What the chi-square contingency test on the cross-tabulation of two
      categorical samples yields: its p-value and the expected frequency of
      every cell of the table, flattened row by row. */
  datatype ContingencyFit = ContingencyFit(p: real, expected: seq<real>)

  datatype Stats = Stats(
    /** Shapiro-Wilk normality test */
    shapiro: Sample -> real,
    /** Kolmogorov-Smirnov test against the normal law with the sample's own mean and deviation */
    ks: Sample -> real,
    /** Levene's test of equal variances */
    levene: seq<Sample> -> real,
    /** Bartlett's test of equal variances */
    bartlett: seq<Sample> -> real,
    /** one-sample t-test against a population mean */
    ttest1: (Sample, real) -> real,
    /** independent two-sample t-test; the flag selects pooled variance (true) or Welch (false) */
    ttestInd: (Sample, Sample, bool) -> real,
    /** paired-sample t-test */
    ttestRel: (Sample, Sample) -> real,
    /** one-way ANOVA F-test */
    fOneway: seq<Sample> -> real,
    /** two-sided Mann-Whitney U test */
    mannWhitneyU: (Sample, Sample) -> real,
    /** two-sided Wilcoxon signed-rank test */
    wilcoxon: (Sample, Sample) -> real,
    /** Kruskal-Wallis H test */
    kruskal: seq<Sample> -> real,
    /** cross-tabulation followed by the chi-square contingency test */
    chi2Contingency: (Labels, Labels) -> ContingencyFit,
    /** cross-tabulation followed by Fisher's exact test */
    fisherExact: (Labels, Labels) -> real,
    /** Pearson correlation test */
    pearsonr: (Sample, Sample) -> real,
    /** Spearman rank correlation test */
    spearmanr: (Sample, Sample) -> real,
    /** sample variance with one degree of freedom removed */
    sampleVariance: Sample -> real
  )

  predicate IsProbability(p: real) {
    0.0 <= p <= 1.0
  }

  /** A well-behaved library: every test returns a p-value in [0, 1]. */
  ghost predicate Valid(st: Stats) {
    && (forall s :: IsProbability(st.shapiro(s)))
    && (forall s :: IsProbability(st.ks(s)))
    && (forall fs :: IsProbability(st.levene(fs)))
    && (forall fs :: IsProbability(st.bartlett(fs)))
    && (forall s, mu :: IsProbability(st.ttest1(s, mu)))
    && (forall s, t, eq :: IsProbability(st.ttestInd(s, t, eq)))
    && (forall s, t :: IsProbability(st.ttestRel(s, t)))
    && (forall fs :: IsProbability(st.fOneway(fs)))
    && (forall s, t :: IsProbability(st.mannWhitneyU(s, t)))
    && (forall s, t :: IsProbability(st.wilcoxon(s, t)))
    && (forall fs :: IsProbability(st.kruskal(fs)))
    && (forall a, b :: IsProbability(st.chi2Contingency(a, b).p))
    && (forall a, b :: IsProbability(st.fisherExact(a, b)))
    && (forall s, t :: IsProbability(st.pearsonr(s, t)))
    && (forall s, t :: IsProbability(st.spearmanr(s, t)))
  }
}
