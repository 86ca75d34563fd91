/**
 * The prosecutor (agents/prosecutor.py): asks the model whether a claim
 * contradicts the retrieved evidence.
 */
module Prosecutor {
  import opened Wrappers
  import opened Strings
  import opened Seqs
  import opened Records
  import opened Base

  /** The opening line of the prosecutor's prompt. */
  const Role: string := "You are a PROSECUTOR analyzing whether a backstory claim CONTRADICTS a novel."

  /** The instructions and output format that close the prosecutor's prompt. */
  const Instructions: string :=
    "YOUR TASK:\n"
    + "1. Identify ANY direct contradictions between the claim and evidence\n"
    + "2. Look for:\n"
    + "   - Temporal impossibilities (events that couldn't happen in claimed order)\n"
    + "   - Logical contradictions (claim states X, novel shows NOT X)\n"
    + "   - Causal violations (claim's preconditions prevent novel's events)\n"
    + "\n"
    + "STRICT RULES:\n"
    + "- A contradiction must be EXPLICIT and DIRECT\n"
    + "- Absence of confirmation is NOT contradiction\n"
    + "- Unexplained events are NOT contradictions\n"
    + "- Only flag HARD contradictions, not soft implausibilities\n"
    + "\n"
    + "OUTPUT FORMAT (MUST FOLLOW EXACTLY):\n"
    + "VERDICT: CONTRADICTORY|CONSISTENT|INSUFFICIENT\n"
    + "CONFIDENCE: [0.0-1.0]\n"
    + "REASONING: [Explain your verdict in 2-3 sentences]\n"
    + "\n"
    + "Think step-by-step, but output ONLY the format above."

  /** The text of the prompt built from the claim and the formatted evidence. */
  function PromptText(claim: string, evidenceText: string): string
  {
    Framed(Role + "\n\nBACKSTORY CLAIM:\n", claim, "\n\nNOVEL EVIDENCE:\n", evidenceText, "\n\n" + Instructions)
  }

  /**
   * `ProsecutorAgent.analyze_claim`: without evidence, the "no evidence"
   * judgment and no model call; otherwise one call with the prosecutor task
   * type on a prompt holding the claim and at most three formatted chunks.
   */
  function AnalyzeClaim(env: Env, claim: string, evidence: seq<Evidence>): (r: Reply)
    ensures evidence == [] ==> r == Reply(NoEvidenceJudgment(), [])
    ensures evidence != [] ==> r.requests == [Request(ProsecutorPrompt(claim, FormattedEvidence(evidence, DefaultMaxChunks)), ProsecutorTask)]
    ensures ConfidenceInRange(r.judgment)
  {
    if evidence == [] then Reply(NoEvidenceJudgment(), [])
    else Consult(env, ProsecutorTask, ProsecutorPrompt(claim, FormattedEvidence(evidence, DefaultMaxChunks)), evidence)
  }

  /** The prompt's text shows the claim and the formatted evidence. */
  lemma PromptShows(claim: string, evidenceText: string)
    ensures Contains(PromptText(claim, evidenceText), claim)
    ensures Contains(PromptText(claim, evidenceText), evidenceText)
  {
    FramedShows(Role + "\n\nBACKSTORY CLAIM:\n", claim, "\n\nNOVEL EVIDENCE:\n", evidenceText, "\n\n" + Instructions);
  }

  /**
   * With evidence, and `response` what the model answers to the prompt: a
   * failed call gives the "call failed" judgment; an answer gives the parsed
   * verdict, confidence and reasoning with the first five chunk ids as
   * `evidence_used`.
   */
  lemma AnalyzeClaimOutcome(env: Env, claim: string, evidence: seq<Evidence>, response: Option<string>)
    requires evidence != []
    requires response == env.generate(ProsecutorPrompt(claim, FormattedEvidence(evidence, DefaultMaxChunks)), ProsecutorTask)
    ensures IsEmptyResponse(response) ==> AnalyzeClaim(env, claim, evidence).judgment == CallFailedJudgment()
    ensures !IsEmptyResponse(response) ==>
      && AnalyzeClaim(env, claim, evidence).judgment.verdict == ParsedJudgment(response, env.parseFloat).verdict
      && AnalyzeClaim(env, claim, evidence).judgment.confidence == ParsedJudgment(response, env.parseFloat).confidence
      && AnalyzeClaim(env, claim, evidence).judgment.reasoning == ParsedJudgment(response, env.parseFloat).reasoning
    ensures !IsEmptyResponse(response) ==>
      var used := AnalyzeClaim(env, claim, evidence).judgment.evidenceUsed;
      && used.Some?
      && |used.value| == Min(EvidenceUsedLimit, |evidence|)
      && forall i :: 0 <= i < |used.value| ==> used.value[i] == evidence[i].chunk.chunkId
  {
    if !IsEmptyResponse(response) {
      ConsultRecordsFirstFive(env, ProsecutorTask, ProsecutorPrompt(claim, FormattedEvidence(evidence, DefaultMaxChunks)), evidence);
    }
  }
}
