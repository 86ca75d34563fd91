/**
 * The defense (agents/defense.py): asks the model whether a claim is
 * consistent with the retrieved evidence.
 */
module Defense {
  import opened Wrappers
  import opened Strings
  import opened Seqs
  import opened Records
  import opened Base

  /** The opening line of the defense's prompt. */
  const Role: string := "You are a DEFENSE attorney analyzing whether a backstory claim is CONSISTENT with a novel."

  /** The instructions and output format that close the defense's prompt. */
  const Instructions: string :=
    "YOUR TASK:\n"
    + "1. Find ANY plausible interpretation where the claim fits the evidence\n"
    + "2. Look for:\n"
    + "   - Compatible causal pathways (claim \U{2192} evidence makes sense)\n"
    + "   - Consistent character development (claim explains later behavior)\n"
    + "   - No explicit contradictions\n"
    + "\n"
    + "PERMISSIVE RULES:\n"
    + "- If claim doesn't contradict evidence, it's CONSISTENT\n"
    + "- Unstated details can be assumed if plausible\n"
    + "- Coincidences are acceptable unless impossible\n"
    + "- Benefit of doubt favors CONSISTENT\n"
    + "\n"
    + "OUTPUT FORMAT (MUST FOLLOW EXACTLY):\n"
    + "VERDICT: CONSISTENT|CONTRADICTORY|INSUFFICIENT\n"
    + "CONFIDENCE: [0.0-1.0]\n"
    + "REASONING: [Explain your verdict in 2-3 sentences]\n"
    + "\n"
    + "Think step-by-step, but output ONLY the format above."

  /** The text of the prompt built from the claim and the formatted evidence. */
  function PromptText(claim: string, evidenceText: string): string
  {
    Framed(Role + "\n\nBACKSTORY CLAIM:\n", claim, "\n\nNOVEL EVIDENCE:\n", evidenceText, "\n\n" + Instructions)
  }

  /**
   * `DefenseAgent.analyze_claim`: without evidence, the "no evidence"
   * judgment and no model call; otherwise one call with the defense task
   * type on a prompt holding the claim and at most three formatted chunks.
   */
  function AnalyzeClaim(env: Env, claim: string, evidence: seq<Evidence>): (r: Reply)
    ensures evidence == [] ==> r == Reply(NoEvidenceJudgment(), [])
    ensures evidence != [] ==> r.requests == [Request(DefensePrompt(claim, FormattedEvidence(evidence, DefaultMaxChunks)), DefenseTask)]
    ensures ConfidenceInRange(r.judgment)
  {
    if evidence == [] then Reply(NoEvidenceJudgment(), [])
    else Consult(env, DefenseTask, DefensePrompt(claim, FormattedEvidence(evidence, DefaultMaxChunks)), evidence)
  }

  /** The prompt's text shows the claim and the formatted evidence. */
  lemma PromptShows(claim: string, evidenceText: string)
    ensures Contains(PromptText(claim, evidenceText), claim)
    ensures Contains(PromptText(claim, evidenceText), evidenceText)
  {
    FramedShows(Role + "\n\nBACKSTORY CLAIM:\n", claim, "\n\nNOVEL EVIDENCE:\n", evidenceText, "\n\n" + Instructions);
  }

  /**
   * With evidence, and `response` what the model answers to the prompt: a
   * failed call gives the "call failed" judgment; an answer gives the parsed
   * verdict, confidence and reasoning with the first five chunk ids as
   * `evidence_used`.
   */
  lemma AnalyzeClaimOutcome(env: Env, claim: string, evidence: seq<Evidence>, response: Option<string>)
    requires evidence != []
    requires response == env.generate(DefensePrompt(claim, FormattedEvidence(evidence, DefaultMaxChunks)), DefenseTask)
    ensures IsEmptyResponse(response) ==> AnalyzeClaim(env, claim, evidence).judgment == CallFailedJudgment()
    ensures !IsEmptyResponse(response) ==>
      && AnalyzeClaim(env, claim, evidence).judgment.verdict == ParsedJudgment(response, env.parseFloat).verdict
      && AnalyzeClaim(env, claim, evidence).judgment.confidence == ParsedJudgment(response, env.parseFloat).confidence
      && AnalyzeClaim(env, claim, evidence).judgment.reasoning == ParsedJudgment(response, env.parseFloat).reasoning
    ensures !IsEmptyResponse(response) ==>
      var used := AnalyzeClaim(env, claim, evidence).judgment.evidenceUsed;
      && used.Some?
      && |used.value| == Min(EvidenceUsedLimit, |evidence|)
      && forall i :: 0 <= i < |used.value| ==> used.value[i] == evidence[i].chunk.chunkId
  {
    if !IsEmptyResponse(response) {
      ConsultRecordsFirstFive(env, DefenseTask, DefensePrompt(claim, FormattedEvidence(evidence, DefaultMaxChunks)), evidence);
    }
  }
}
