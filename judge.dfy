/**
 * The judge (agents/judge.py): a fixed-order decision table over the two
 * sides' judgments, and one arbitration call to the model when no rule fires.
 */
module Judge {
  import opened Wrappers
  import opened Strings
  import opened Records
  import opened Base

  const Opening: string := "You are a JUDGE evaluating conflicting arguments about a backstory claim."

  /** The instructions and output format that close the judge's prompt. */
  const Instructions: string :=
    "YOUR TASK:\n"
    + "Determine which side has the stronger argument based on:\n"
    + "1. Strength of evidence cited\n"
    + "2. Logical soundness of reasoning\n"
    + "3. Conservative principle: contradictions override weak consistency\n"
    + "\n"
    + "OUTPUT FORMAT (MUST FOLLOW EXACTLY):\n"
    + "VERDICT: CONSISTENT|CONTRADICTORY|INSUFFICIENT\n"
    + "CONFIDENCE: [0.0-1.0]\n"
    + "REASONING: [Explain your final judgment in 2-3 sentences]\n"
    + "\n"
    + "Think step-by-step, but output ONLY the format above."

  /** One side's judgment as the judge's prompt shows it, confidence to two decimals. */
  function Argument(j: Judgment): string
  {
    Framed("Verdict: ", VerdictName(j.verdict), "\nConfidence: " + FixedTwo(j.confidence) + "\nReasoning: ", j.reasoning, "")
  }

  /** The two sides' arguments under their headings. */
  function Sides(p: Judgment, d: Judgment): string
  {
    Framed("\n\nPROSECUTOR (finds contradictions):\n", Argument(p), "\n\nDEFENSE (finds consistency):\n", Argument(d), "")
  }

  /** The arbitration prompt's text: the claim, then the prosecutor's and the defense's arguments. */
  function PromptText(claim: string, p: Judgment, d: Judgment): string
  {
    Framed(Opening + "\n\nCLAIM:\n", claim, "", Sides(p, d), "\n\n" + Instructions)
  }

  /** The arbitration prompt's text shows the claim and both sides' reasoning. */
  lemma PromptShows(claim: string, p: Judgment, d: Judgment)
    ensures Contains(PromptText(claim, p, d), claim)
    ensures Contains(PromptText(claim, p, d), p.reasoning)
    ensures Contains(PromptText(claim, p, d), d.reasoning)
  {
    var prompt := PromptText(claim, p, d);
    FramedShows(Opening + "\n\nCLAIM:\n", claim, "", Sides(p, d), "\n\n" + Instructions);
    FramedShows("\n\nPROSECUTOR (finds contradictions):\n", Argument(p), "\n\nDEFENSE (finds consistency):\n", Argument(d), "");
    FramedShows("Verdict: ", VerdictName(p.verdict), "\nConfidence: " + FixedTwo(p.confidence) + "\nReasoning: ", p.reasoning, "");
    FramedShows("Verdict: ", VerdictName(d.verdict), "\nConfidence: " + FixedTwo(d.confidence) + "\nReasoning: ", d.reasoning, "");
    ContainsTransitive(Sides(p, d), Argument(p), p.reasoning);
    ContainsTransitive(Sides(p, d), Argument(d), d.reasoning);
    ContainsTransitive(prompt, Sides(p, d), p.reasoning);
    ContainsTransitive(prompt, Sides(p, d), d.reasoning);
  }

  /** Rule 1: both sides found too little evidence. */
  predicate BothInsufficient(p: Judgment, d: Judgment)
  {
    p.verdict == Insufficient && d.verdict == Insufficient
  }

  /** Rule 2: the prosecutor found a contradiction with confidence strictly above 0.7. */
  predicate HardContradiction(p: Judgment)
  {
    p.verdict == Contradictory && p.confidence > HardConfidence
  }

  /** Rule 3: both sides found the claim consistent. */
  predicate BothConsistent(p: Judgment, d: Judgment)
  {
    p.verdict == Consistent && d.verdict == Consistent
  }

  /** No rule of the table fires, so the model arbitrates. */
  predicate Disputed(p: Judgment, d: Judgment)
  {
    !BothInsufficient(p, d) && !HardContradiction(p) && !BothConsistent(p, d)
  }

  /**
   * `JudgeAgent.deliberate`: the first rule that fires decides without a model
   * call; otherwise one call with the judge task type, whose parsed answer is
   * the result, or, when the model returns nothing, the prosecutor's judgment
   * unchanged.
   */
  function Deliberate(env: Env, claim: string, p: Judgment, d: Judgment): (r: Reply)
    ensures BothInsufficient(p, d) ==>
      r == Reply(Judgment(Insufficient, 0.0, "Both sides lack sufficient evidence", None), [])
    ensures HardContradiction(p) ==>
      r == Reply(Judgment(Contradictory, p.confidence, "Hard contradiction found: " + p.reasoning, None), [])
    ensures BothConsistent(p, d) ==>
      r == Reply(Judgment(Consistent, (p.confidence + d.confidence) / 2.0, "Both sides agree: consistent", None), [])
    ensures Disputed(p, d) ==>
      var response := env.generate(ArbitrationPrompt(claim, p, d), JudgeTask);
      && r.requests == [Request(ArbitrationPrompt(claim, p, d), JudgeTask)]
      && (IsEmptyResponse(response) ==> r.judgment == p)
      && (!IsEmptyResponse(response) ==> r.judgment == ParsedJudgment(response, env.parseFloat))
  {
    if BothInsufficient(p, d) then
      Reply(Judgment(Insufficient, 0.0, "Both sides lack sufficient evidence", None), [])
    else if HardContradiction(p) then
      Reply(Judgment(Contradictory, p.confidence, "Hard contradiction found: " + p.reasoning, None), [])
    else if BothConsistent(p, d) then
      Reply(Judgment(Consistent, (p.confidence + d.confidence) / 2.0, "Both sides agree: consistent", None), [])
    else
      var prompt := ArbitrationPrompt(claim, p, d);
      var response := env.generate(prompt, JudgeTask);
      if IsEmptyResponse(response) then Reply(p, [Request(prompt, JudgeTask)])
      else Reply(ParsedJudgment(response, env.parseFloat), [Request(prompt, JudgeTask)])
  }

  /** The judge calls the model at most once, and exactly when no rule fires. */
  lemma CallsOnlyWhenDisputed(env: Env, claim: string, p: Judgment, d: Judgment)
    ensures |Deliberate(env, claim, p, d).requests| <= 1
    ensures Deliberate(env, claim, p, d).requests != [] <==> Disputed(p, d)
  {
  }

  /** Confidences in [0, 1] on both sides give a final confidence in [0, 1]. */
  lemma DeliberateKeepsRange(env: Env, claim: string, p: Judgment, d: Judgment)
    requires ConfidenceInRange(p) && ConfidenceInRange(d)
    ensures ConfidenceInRange(Deliberate(env, claim, p, d).judgment)
  {
  }

  /** A hard contradiction decides the claim whatever the defense says. */
  lemma HardContradictionIgnoresDefense(env: Env, claim: string, p: Judgment, d1: Judgment, d2: Judgment)
    requires HardContradiction(p)
    ensures Deliberate(env, claim, p, d1) == Deliberate(env, claim, p, d2)
    ensures Deliberate(env, claim, p, d1).judgment.verdict == Contradictory
  {
  }

  /** A contradiction at confidence 0.7 or less is not hard: no rule fires, so the model arbitrates. */
  lemma SoftContradictionIsArbitrated(env: Env, claim: string, p: Judgment, d: Judgment)
    requires p.verdict == Contradictory && p.confidence <= HardConfidence
    ensures Deliberate(env, claim, p, d).requests == [Request(ArbitrationPrompt(claim, p, d), JudgeTask)]
  {
  }
}
