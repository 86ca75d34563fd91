/**
 * The records the adjudication pipeline passes between its stages, and the two
 * external capabilities it consults.
 */
module Records {
  import opened Wrappers

  datatype Verdict = Consistent | Contradictory | Insufficient

  /** The upper-case spelling of a verdict, as the agents print and parse it. */
  function VerdictName(v: Verdict): string
  {
    match v
    case Consistent => "CONSISTENT"
    case Contradictory => "CONTRADICTORY"
    case Insufficient => "INSUFFICIENT"
  }

  /** The verdict a string names exactly, if any. */
  function VerdictNamed(s: string): Option<Verdict>
  {
    if s == "CONSISTENT" then Some(Consistent)
    else if s == "CONTRADICTORY" then Some(Contradictory)
    else if s == "INSUFFICIENT" then Some(Insufficient)
    else None
  }

  /** A string names a verdict exactly when it is one of the three spellings, and names the one it spells. */
  lemma VerdictNamedMeaning(s: string)
    ensures VerdictNamed(s).Some? <==> s in {"CONSISTENT", "CONTRADICTORY", "INSUFFICIENT"}
    ensures VerdictNamed(s).Some? ==> VerdictName(VerdictNamed(s).value) == s
  {
  }

  /** Every verdict's spelling names it. */
  lemma VerdictNameRoundTrip(v: Verdict)
    ensures VerdictNamed(VerdictName(v)) == Some(v)
  {
  }

  /**
   * One agent's judgment of a claim. `evidenceUsed` is the `evidence_used` key,
   * which only the prosecutor and defense attach (`None` when the key is absent).
   */
  datatype Judgment = Judgment(verdict: Verdict, confidence: real, reasoning: string, evidenceUsed: Option<seq<string>>)

  /** Above this confidence a contradiction counts as hard, for the judge and for the tally alike. */
  const HardConfidence: real := 0.7

  predicate ConfidenceInRange(j: Judgment)
  {
    0.0 <= j.confidence <= 1.0
  }

  /** A passage of a novel, as the ingestor stores it. */
  datatype Chunk = Chunk(text: string, bookId: string, chunkId: string, position: nat, wordCount: nat)

  /** A stored chunk copied out by the retriever with its `similarity` key set. */
  datatype Evidence = Evidence(chunk: Chunk, similarity: real)

  /** The record kept for one claim: both sides' judgments and the judge's. */
  datatype Deliberation = Deliberation(claim: string, prosecutor: Judgment, defense: Judgment, final: Judgment)

  /** The `task_type` argument that picks the language model for a call. */
  datatype TaskType = ClaimExtraction | ProsecutorTask | DefenseTask | JudgeTask | General

  /**
   * A prompt the pipeline sends to the model, given by the values it embeds;
   * each role's module renders its exact text, and `Debate.Text` gathers them.
   * The model answers the prompt's text, so it is modelled as a function of the
   * prompt value that text is rendered from (any function of the text is one).
   */
  datatype Prompt =
    | ExtractionPrompt(backstory: string, maxClaims: nat)
    | ProsecutorPrompt(claim: string, evidenceText: string)
    | DefensePrompt(claim: string, evidenceText: string)
    | ArbitrationPrompt(claim: string, prosecutor: Judgment, defense: Judgment)

  /** One call made to the text generator. */
  datatype Request = Request(prompt: Prompt, task: TaskType)

  /** What an agent returns, together with the generator calls it made to get there. */
  datatype Reply = Reply(judgment: Judgment, requests: seq<Request>)

  /** A Python float: a finite value, an infinity, or not-a-number. */
  datatype Float = Finite(value: real) | PositiveInfinity | NegativeInfinity | NaN

  /**
   * The capabilities the core consults but does not implement: the language model
   * (`generate` answers `None` when every retry failed) and Python's `float()`
   * conversion of a string (`None` when it raises `ValueError`).
   */
  datatype Env = Env(generate: (Prompt, TaskType) -> Option<string>, parseFloat: string -> Option<Float>)

  /** Python's `not response` on an optional string. */
  predicate IsEmptyResponse(response: Option<string>)
  {
    response.None? || response.value == []
  }
}
