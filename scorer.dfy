/**
 * The scorer (scoring/scorer.py): three rules, tried in order, turn the
 * classification of a backstory's final judgments into a binary label
 * (1 = consistent, 0 = contradictory) and a one-line rationale.
 */
module Scorer {
  import opened Strings
  import opened Records
  import opened Constraints
  import opened Seqs

  /** The `scoring` section of the configuration. */
  datatype ScoringConfig = ScoringConfig(
    hardWeight: real,
    softWeight: real,
    supportWeight: real,
    insufficientThreshold: real)

  /**
   * The `(label, rationale)` pair `compute_score` returns. The rationale is kept
   * as the rule that fired with the numbers it quotes; `Rationale` renders it as
   * the text the scorer writes.
   */
  datatype Score = Score(prediction: int, reason: Reason)

  /** Rule 3's weighted sum: minus the hard and soft contradictions, plus the supported claims. */
  function WeightedScore(config: ScoringConfig, c: Classification): real
  {
    0.0 - c.hard as real * config.hardWeight - c.soft as real * config.softWeight + c.consistent as real * config.supportWeight
  }

  /** Rule 2's test: too few claims have enough evidence. */
  predicate LowCoverage(config: ScoringConfig, c: Classification)
  {
    EvidenceCoverage(c) < 1.0 - config.insufficientThreshold
  }

  /** Which rule decided, with the numbers its rationale quotes. */
  datatype Reason =
    | HardContradictions(hard: nat)
    | PoorCoverage(coverage: real)
    | Supported(consistent: nat, soft: nat)
    | Outweighed(soft: nat, consistent: nat)

  /** The first word of every rationale: the label it argues for. */
  const ConsistentWord: string := "CONSISTENT"
  const ContradictoryWord: string := "CONTRADICTORY"

  function HardText(hard: nat): string
  {
    ContradictoryWord + ": Found " + NatToString(hard) + " hard contradiction(s) that cannot be reconciled with the novel."
  }

  function CoverageText(coverage: real): string
  {
    ContradictoryWord + " (conservative): Only " + PercentZero(coverage) + " of claims have sufficient evidence. Insufficient data to validate backstory."
  }

  function SupportedText(consistent: nat, soft: nat): string
  {
    ConsistentWord + ": " + NatToString(consistent) + " claims supported, " + NatToString(soft) + " minor conflicts (resolvable)."
  }

  function OutweighedText(soft: nat, consistent: nat): string
  {
    ContradictoryWord + ": " + NatToString(soft) + " contradictions outweigh " + NatToString(consistent) + " supporting claims."
  }

  /** The rationale string each rule writes. */
  function Rationale(reason: Reason): string
  {
    match reason
    case HardContradictions(hard) => HardText(hard)
    case PoorCoverage(coverage) => CoverageText(coverage)
    case Supported(consistent, soft) => SupportedText(consistent, soft)
    case Outweighed(soft, consistent) => OutweighedText(soft, consistent)
  }

  /** Only the weighted rule, when the support wins, labels a backstory consistent. */
  function Label(reason: Reason): int
  {
    if reason.Supported? then 1 else 0
  }

  /** The rule chain of `compute_score`, applied to a classification: the first rule that fires decides. */
  function Decide(config: ScoringConfig, c: Classification): Reason
  {
    if HasCriticalViolations(c) then HardContradictions(c.hard)
    else if LowCoverage(config, c) then PoorCoverage(EvidenceCoverage(c))
    else if WeightedScore(config, c) >= 0.0 then Supported(c.consistent, c.soft)
    else Outweighed(c.soft, c.consistent)
  }

  /** `compute_score`: classify the deliberations' final judgments, then apply the rules. */
  function ComputeScore(config: ScoringConfig, deliberations: seq<Deliberation>): (s: Score)
    ensures s.prediction == 0 || s.prediction == 1
  {
    var reason := Decide(config, Tally(Finals(deliberations)));
    Score(Label(reason), reason)
  }

  // Each rule, first for a classification on its own, then for the
  // classification of a backstory's deliberations.

  lemma DecideHard(config: ScoringConfig, c: Classification)
    requires c.hard > 0
    ensures Decide(config, c) == HardContradictions(c.hard)
  {
  }

  lemma DecideLowCoverage(config: ScoringConfig, c: Classification)
    requires c.hard == 0 && LowCoverage(config, c)
    ensures Decide(config, c) == PoorCoverage(EvidenceCoverage(c))
  {
  }

  lemma DecideWeighted(config: ScoringConfig, c: Classification)
    requires c.hard == 0 && !LowCoverage(config, c)
    ensures Label(Decide(config, c)) == 1 <==> WeightedScore(config, c) >= 0.0
  {
  }

  /** With no hard contradictions the weighted sum is the support minus the soft contradictions. */
  lemma WeightedScoreWithoutHard(config: ScoringConfig, c: Classification)
    requires c.hard == 0
    ensures WeightedScore(config, c) == c.consistent as real * config.supportWeight - c.soft as real * config.softWeight
  {
  }

  lemma DecideAccepted(config: ScoringConfig, c: Classification)
    requires Label(Decide(config, c)) == 1
    ensures c.hard == 0
    ensures EvidenceCoverage(c) >= 1.0 - config.insufficientThreshold
  {
  }

  /** Rule 1: a single hard contradiction among the final judgments decides label 0, whatever else was found. */
  lemma HardContradictionRejects(config: ScoringConfig, deliberations: seq<Deliberation>)
    requires SomeHard(Finals(deliberations))
    ensures var c := Tally(Finals(deliberations));
      ComputeScore(config, deliberations) == Score(0, HardContradictions(c.hard))
  {
    HardCountMeansHardFinal(Finals(deliberations));
    DecideHard(config, Tally(Finals(deliberations)));
  }

  /** Rule 2: without hard contradictions, too little coverage decides label 0. */
  lemma LowCoverageRejects(config: ScoringConfig, deliberations: seq<Deliberation>)
    requires !SomeHard(Finals(deliberations))
    requires LowCoverage(config, Tally(Finals(deliberations)))
    ensures var c := Tally(Finals(deliberations));
      ComputeScore(config, deliberations) == Score(0, PoorCoverage(EvidenceCoverage(c)))
  {
    HardCountMeansHardFinal(Finals(deliberations));
    DecideLowCoverage(config, Tally(Finals(deliberations)));
  }

  /**
   * Rule 3: when neither earlier rule fires the label is 1 exactly when the
   * weighted sum is not negative. No hard contradiction is left at this point, so
   * that sum is the support minus the soft contradictions (`WeightedScoreWithoutHard`).
   */
  lemma WeightedRuleDecides(config: ScoringConfig, deliberations: seq<Deliberation>)
    requires !SomeHard(Finals(deliberations))
    requires !LowCoverage(config, Tally(Finals(deliberations)))
    ensures Tally(Finals(deliberations)).hard == 0
    ensures ComputeScore(config, deliberations).prediction == 1 <==> WeightedScore(config, Tally(Finals(deliberations))) >= 0.0
  {
    HardCountMeansHardFinal(Finals(deliberations));
    DecideWeighted(config, Tally(Finals(deliberations)));
  }

  /** No claims means no coverage, so the label is 0 unless the threshold tolerates a coverage of zero. */
  lemma NoClaimsRejects(config: ScoringConfig)
    requires config.insufficientThreshold < 1.0
    ensures ComputeScore(config, []).prediction == 0
  {
    assert Finals([]) == [];
    assert Tally([]) == Zero;
    DecideLowCoverage(config, Zero);
  }

  /** A label of 1 means no final judgment was a hard contradiction and coverage met the threshold. */
  lemma AcceptedMeansNoHardContradiction(config: ScoringConfig, deliberations: seq<Deliberation>)
    requires ComputeScore(config, deliberations).prediction == 1
    ensures !SomeHard(Finals(deliberations))
    ensures EvidenceCoverage(Tally(Finals(deliberations))) >= 1.0 - config.insufficientThreshold
  {
    HardCountMeansHardFinal(Finals(deliberations));
    DecideAccepted(config, Tally(Finals(deliberations)));
  }

  /** With a zero threshold, a label of 1 needs at least one claim and every final verdict decided. */
  lemma StrictThresholdAcceptanceNeedsFullCoverage(config: ScoringConfig, deliberations: seq<Deliberation>)
    requires config.insufficientThreshold == 0.0
    requires ComputeScore(config, deliberations).prediction == 1
    ensures |deliberations| > 0
    ensures NoneInsufficient(Finals(deliberations))
  {
    var c := Tally(Finals(deliberations));
    DecideAccepted(config, c);
    FullCoverage(c);
    TallyTotal(Finals(deliberations));
    InsufficientCountMeansVerdict(Finals(deliberations));
  }

  lemma FullCoverage(c: Classification)
    requires EvidenceCoverage(c) >= 1.0
    ensures Total(c) > 0 && c.insufficient == 0
  {
  }

  /** The score depends only on which final judgments occur, not on the order of the deliberations. */
  lemma ScoreIgnoresOrder(config: ScoringConfig, a: seq<Deliberation>, b: seq<Deliberation>)
    requires multiset(Finals(a)) == multiset(Finals(b))
    ensures ComputeScore(config, a) == ComputeScore(config, b)
  {
    TallyPermutation(Finals(a), Finals(b));
  }

  /** The rationale opens with the label's name: CONSISTENT for 1, CONTRADICTORY for 0. */
  lemma RationaleNamesLabel(reason: Reason)
    ensures StartsWith(Rationale(reason), if Label(reason) == 1 then ConsistentWord else ContradictoryWord)
  {
    match reason
    case HardContradictions(hard) => HardTextOpens(hard);
    case PoorCoverage(coverage) => CoverageTextOpens(coverage);
    case Supported(consistent, soft) => SupportedTextOpens(consistent, soft);
    case Outweighed(soft, consistent) => OutweighedTextOpens(soft, consistent);
  }

  lemma HardTextOpens(hard: nat)
    ensures StartsWith(HardText(hard), ContradictoryWord)
  {
    OpensWith(ContradictoryWord, ": Found ", NatToString(hard), " hard contradiction(s) that cannot be reconciled with the novel.", "");
  }

  lemma CoverageTextOpens(coverage: real)
    ensures StartsWith(CoverageText(coverage), ContradictoryWord)
  {
    OpensWith(ContradictoryWord, " (conservative): Only ", PercentZero(coverage), " of claims have sufficient evidence. Insufficient data to validate backstory.", "");
  }

  lemma SupportedTextOpens(consistent: nat, soft: nat)
    ensures StartsWith(SupportedText(consistent, soft), ConsistentWord)
  {
    OpensWith(ConsistentWord, ": ", NatToString(consistent), " claims supported, ", NatToString(soft));
    StartsWithExtended(ConsistentWord + ": " + NatToString(consistent) + " claims supported, " + NatToString(soft), ConsistentWord, " minor conflicts (resolvable).");
  }

  lemma OutweighedTextOpens(soft: nat, consistent: nat)
    ensures StartsWith(OutweighedText(soft, consistent), ContradictoryWord)
  {
    OpensWith(ContradictoryWord, ": ", NatToString(soft), " contradictions outweigh ", NatToString(consistent));
    StartsWithExtended(ContradictoryWord + ": " + NatToString(soft) + " contradictions outweigh " + NatToString(consistent), ContradictoryWord, " supporting claims.");
  }

  lemma StartsWithExtended(s: string, head: string, t: string)
    requires StartsWith(s, head)
    ensures StartsWith(s + t, head)
  {
    assert (s + t)[..|head|] == s[..|head|];
  }

  /** A left-nested concatenation starts with its first part. */
  lemma OpensWith(head: string, a: string, b: string, c: string, d: string)
    ensures StartsWith(head + a + b + c + d, head)
  {
    assert (head + a)[..|head|] == head;
    StartsWithExtended(head + a, head, b);
    StartsWithExtended(head + a + b, head, c);
    StartsWithExtended(head + a + b + c, head, d);
  }

  /** `score_all`: one score per backstory, in order. */
  method ScoreAll(config: ScoringConfig, all: seq<seq<Deliberation>>) returns (results: seq<Score>)
    ensures |results| == |all|
    ensures forall i :: 0 <= i < |all| ==> results[i] == ComputeScore(config, all[i])
  {
    ghost var score := (deliberations: seq<Deliberation>) => ComputeScore(config, deliberations);
    results := [];
    var i := 0;
    while i < |all|
      invariant 0 <= i <= |all|
      invariant results == Map(score, all[..i])
    {
      assert all[..i + 1][..i] == all[..i];
      results := results + [ComputeScore(config, all[i])];
      i := i + 1;
    }
    assert all[..|all|] == all;
    MapAt(score, all);
  }
}
