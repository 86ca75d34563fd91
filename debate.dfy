/**
 * The debate orchestrator (reasoning/debate.py): breaks a backstory into
 * claims, retrieves evidence for every claim, and has the prosecutor, the
 * defense and the judge deliberate on each claim in turn.
 */
module Debate {
  import opened Wrappers
  import opened Strings
  import opened Seqs
  import opened Records
  import opened Base
  import opened Constraints
  import opened Scorer
  import opened Retrieve
  import Prosecutor
  import Defense
  import Judge

  // ---------------------------------------------------------------------------
  // The prompts as text
  // ---------------------------------------------------------------------------

  /** The opening of the claim-extraction prompt, up to the backstory. */
  const ExtractionHead: string :=
    "Extract atomic claims from this character backstory. Each claim should be:\n"
    + "- A single verifiable statement\n"
    + "- Specific enough to check against evidence\n"
    + "- Free of compound statements\n"
    + "\n"
    + "BACKSTORY:\n"

  /** The part of the claim-extraction prompt between the backstory and the claim limit. */
  const ExtractionFormat: string :=
    "\n\n"
    + "OUTPUT FORMAT:\n"
    + "Return ONLY a numbered list of claims, one per line:\n"
    + "1. [First claim]\n"
    + "2. [Second claim]\n"
    + "...\n"
    + "\n"
    + "Limit to "

  /** The text of the claim-extraction prompt for a backstory and the configured claim limit. */
  function PromptText(backstory: string, maxClaims: nat): string
  {
    Framed(ExtractionHead, backstory, ExtractionFormat, NatToString(maxClaims), " most important claims.")
  }

  /** The extraction prompt shows the backstory and the claim limit. */
  lemma PromptShows(backstory: string, maxClaims: nat)
    ensures Contains(PromptText(backstory, maxClaims), backstory)
    ensures Contains(PromptText(backstory, maxClaims), NatToString(maxClaims))
  {
    FramedShows(ExtractionHead, backstory, ExtractionFormat, NatToString(maxClaims), " most important claims.");
  }

  /** The text the model is sent for each prompt of the pipeline. */
  function Text(p: Prompt): string
  {
    match p
    case ExtractionPrompt(backstory, maxClaims) => PromptText(backstory, maxClaims)
    case ProsecutorPrompt(claim, evidenceText) => Prosecutor.PromptText(claim, evidenceText)
    case DefensePrompt(claim, evidenceText) => Defense.PromptText(claim, evidenceText)
    case ArbitrationPrompt(claim, prosecutor, defense) => Judge.PromptText(claim, prosecutor, defense)
  }

  /** What a prompt is about: the backstory for the extraction, the claim for every other role. */
  function Subject(p: Prompt): string
  {
    match p
    case ExtractionPrompt(backstory, _) => backstory
    case ProsecutorPrompt(claim, _) => claim
    case DefensePrompt(claim, _) => claim
    case ArbitrationPrompt(claim, _, _) => claim
  }

  /** Every prompt's text shows what it is about. */
  lemma TextShowsSubject(p: Prompt)
    ensures Contains(Text(p), Subject(p))
  {
    match p
    case ExtractionPrompt(backstory, maxClaims) => PromptShows(backstory, maxClaims);
    case ProsecutorPrompt(claim, evidenceText) => Prosecutor.PromptShows(claim, evidenceText);
    case DefensePrompt(claim, evidenceText) => Defense.PromptShows(claim, evidenceText);
    case ArbitrationPrompt(claim, prosecutor, defense) => Judge.PromptShows(claim, prosecutor, defense);
  }

  // ---------------------------------------------------------------------------
  // Claims from the sentences of the backstory, when the model fails
  // ---------------------------------------------------------------------------

  /** The fallback keeps at most this many sentences. */
  const FallbackLimit: nat := 10

  /** A sentence is kept when it is longer than this once stripped. */
  const MinSentenceLength: nat := 20

  /** The claim one `.`-separated piece of the backstory contributes to the fallback, if any. */
  function SentenceClaim(s: string): Option<string>
  {
    if |Strip(s)| > MinSentenceLength then Some(Strip(s) + ".") else None
  }

  /** `[s.strip() + '.' for s in backstory.split('.') if len(s.strip()) > 20][:10]`. */
  function FallbackClaims(backstory: string): seq<string>
  {
    Take(FilterMap(Split(backstory, '.'), SentenceClaim), FallbackLimit)
  }

  /** The shape of a fallback claim: one stripped sentence of more than 20 characters, then its full stop. */
  predicate SentenceShaped(c: string)
  {
    && |c| > MinSentenceLength + 1
    && c[|c| - 1] == '.'
    && '.' !in c[..|c| - 1]
    && !IsSpace(c[0]) && !IsSpace(c[|c| - 2])
  }

  lemma SentenceClaimShape(s: string)
    requires '.' !in s
    requires SentenceClaim(s).Some?
    ensures SentenceShaped(SentenceClaim(s).value)
  {
    StripEnds(s);
    StripKeepsOut(s, '.');
    FullStopShape(Strip(s));
  }

  lemma FullStopShape(t: string)
    requires |t| > MinSentenceLength && '.' !in t && !IsSpace(t[0]) && !IsSpace(t[|t| - 1])
    ensures SentenceShaped(t + ".")
  {
    var c := t + ".";
    assert c[..|c| - 1] == t;
    assert c[0] == t[0];
    assert c[|c| - 2] == t[|t| - 1];
  }

  /** At most ten fallback claims, each a stripped sentence with its full stop. */
  lemma FallbackClaimsShape(backstory: string)
    ensures |FallbackClaims(backstory)| <= FallbackLimit
    ensures forall i :: 0 <= i < |FallbackClaims(backstory)| ==> SentenceShaped(FallbackClaims(backstory)[i])
  {
    var pieces := Split(backstory, '.');
    var kept := FilterMap(pieces, SentenceClaim);
    var positions := KeptPositions(pieces, SentenceClaim);
    KeptPositionsCount(pieces, SentenceClaim);
    FilterMapKeeps(pieces, SentenceClaim);
    forall i | 0 <= i < |FallbackClaims(backstory)|
      ensures SentenceShaped(FallbackClaims(backstory)[i])
    {
      assert FallbackClaims(backstory)[i] == kept[i];
      SentenceClaimShape(pieces[positions[i]]);
    }
  }

  /**
   * The fallback claims come from the backstory's `.`-separated pieces, in
   * order: the i-th is the stripped text of a piece longer than 20 characters,
   * followed by a full stop.
   */
  lemma FallbackClaimsSources(backstory: string, pieces: seq<string>)
    requires pieces == Split(backstory, '.')
    ensures |FallbackClaims(backstory)| <= |KeptPositions(pieces, SentenceClaim)|
    ensures forall i :: 0 <= i < |FallbackClaims(backstory)| ==>
      && KeptPositions(pieces, SentenceClaim)[i] < |pieces|
      && |Strip(pieces[KeptPositions(pieces, SentenceClaim)[i]])| > MinSentenceLength
      && FallbackClaims(backstory)[i] == Strip(pieces[KeptPositions(pieces, SentenceClaim)[i]]) + "."
    ensures forall i, j :: 0 <= i < j < |FallbackClaims(backstory)| ==>
      KeptPositions(pieces, SentenceClaim)[i] < KeptPositions(pieces, SentenceClaim)[j]
  {
    KeptPositionsCount(pieces, SentenceClaim);
    FilterMapKeeps(pieces, SentenceClaim);
    KeptPositionsIncrease(pieces, SentenceClaim);
  }

  /** With at most ten long sentences, every one of them is a fallback claim. */
  lemma FallbackClaimsComplete(backstory: string, pieces: seq<string>, k: nat)
    requires pieces == Split(backstory, '.')
    requires |FilterMap(pieces, SentenceClaim)| <= FallbackLimit
    requires k < |pieces| && |Strip(pieces[k])| > MinSentenceLength
    ensures Strip(pieces[k]) + "." in FallbackClaims(backstory)
  {
    KeptPositionsComplete(pieces, SentenceClaim);
    KeptPositionsCount(pieces, SentenceClaim);
    FilterMapKeeps(pieces, SentenceClaim);
    var positions := KeptPositions(pieces, SentenceClaim);
    assert SentenceClaim(pieces[k]).Some?;
    var i :| 0 <= i < |positions| && positions[i] == k;
    assert FallbackClaims(backstory)[i] == FilterMap(pieces, SentenceClaim)[i];
  }

  // ---------------------------------------------------------------------------
  // Claims parsed from the model's numbered list
  // ---------------------------------------------------------------------------

  /** The characters `lstrip` removes from the front of a list item. */
  const MarkerChars: set<char> := {'0', '1', '2', '3', '4', '5', '6', '7', '8', '9', '.', '-', '\U{2022}', ')'}

  /** A stripped line is a list item when it starts with a digit, `-` or `•`. */
  predicate IsListItem(line: string)
  {
    line != [] && (IsDigit(line[0]) || line[0] == '-' || line[0] == '\U{2022}')
  }

  /** The claim one line of the model's answer contributes, if any: a list item without its marker. */
  function ClaimOf(line: string): Option<string>
  {
    var t := Strip(line);
    if IsListItem(t) then
      var claim := Strip(LStripChars(t, MarkerChars));
      if claim != [] then Some(claim) else None
    else None
  }

  /** The parsed claims of an answer, cut to the configured limit. */
  function ParsedClaims(response: string, maxClaims: nat): seq<string>
  {
    Take(FilterMap(Split(response, '\n'), ClaimOf), maxClaims)
  }

  /** The shape of a parsed claim: not empty, stripped, and within one line. */
  predicate ClaimShaped(c: string)
  {
    c != [] && !IsSpace(c[0]) && !IsSpace(c[|c| - 1]) && '\n' !in c
  }

  /** A line of text, as `split('\n')` produces. */
  predicate OneLine(line: string)
  {
    '\n' !in line
  }

  /** Only a list item yields a claim, and the claim taken from a line has the shape of a parsed claim. */
  lemma ClaimOfShape(line: string)
    requires OneLine(line)
    requires ClaimOf(line).Some?
    ensures IsListItem(Strip(line))
    ensures ClaimShaped(ClaimOf(line).value)
  {
    var t := Strip(line);
    var rest := LStripChars(t, MarkerChars);
    StripKeepsOut(line, '\n');
    LStripCharsKeepsOut(t, MarkerChars, '\n');
    StripKeepsOut(rest, '\n');
    StripEnds(rest);
  }

  /** At most `maxClaims` parsed claims, each non-empty, stripped and on one line. */
  lemma ParsedClaimsShape(response: string, maxClaims: nat)
    ensures |ParsedClaims(response, maxClaims)| <= maxClaims
    ensures forall i :: 0 <= i < |ParsedClaims(response, maxClaims)| ==> ClaimShaped(ParsedClaims(response, maxClaims)[i])
  {
    LineClaimsShape(Split(response, '\n'));
  }

  /** Every claim taken from lines of text has the shape of a parsed claim. */
  lemma LineClaimsShape(lines: seq<string>)
    requires forall i :: 0 <= i < |lines| ==> '\n' !in lines[i]
    ensures forall i :: 0 <= i < |FilterMap(lines, ClaimOf)| ==> ClaimShaped(FilterMap(lines, ClaimOf)[i])
  {
    ClaimOfShapeAll();
    FilterMapAllWhere(lines, ClaimOf, OneLine, ClaimShaped);
  }

  lemma ClaimOfShapeAll()
    ensures forall line :: OneLine(line) && ClaimOf(line).Some? ==> ClaimShaped(ClaimOf(line).value)
  {
    forall line | OneLine(line) && ClaimOf(line).Some?
      ensures ClaimShaped(ClaimOf(line).value)
    {
      ClaimOfShape(line);
    }
  }

  /**
   * The parsed claims come from the lines of the answer, in line order: the
   * i-th is the claim of the i-th line that yields one.
   */
  lemma ParsedClaimsSources(response: string, maxClaims: nat, lines: seq<string>)
    requires lines == Split(response, '\n')
    ensures |ParsedClaims(response, maxClaims)| <= |KeptPositions(lines, ClaimOf)|
    ensures forall i :: 0 <= i < |ParsedClaims(response, maxClaims)| ==>
      && KeptPositions(lines, ClaimOf)[i] < |lines|
      && ClaimOf(lines[KeptPositions(lines, ClaimOf)[i]]) == Some(ParsedClaims(response, maxClaims)[i])
    ensures forall i, j :: 0 <= i < j < |ParsedClaims(response, maxClaims)| ==>
      KeptPositions(lines, ClaimOf)[i] < KeptPositions(lines, ClaimOf)[j]
  {
    KeptPositionsCount(lines, ClaimOf);
    FilterMapKeeps(lines, ClaimOf);
    KeptPositionsIncrease(lines, ClaimOf);
  }

  /** Within the limit, every list item that leaves a claim is parsed. */
  lemma ParsedClaimsComplete(response: string, maxClaims: nat, lines: seq<string>, k: nat)
    requires lines == Split(response, '\n')
    requires |FilterMap(lines, ClaimOf)| <= maxClaims
    requires k < |lines| && ClaimOf(lines[k]).Some?
    ensures ClaimOf(lines[k]).value in ParsedClaims(response, maxClaims)
  {
    KeptPositionsComplete(lines, ClaimOf);
    KeptPositionsCount(lines, ClaimOf);
    FilterMapKeeps(lines, ClaimOf);
    var positions := KeptPositions(lines, ClaimOf);
    var i :| 0 <= i < |positions| && positions[i] == k;
    assert ParsedClaims(response, maxClaims)[i] == FilterMap(lines, ClaimOf)[i];
  }

  /**
   * `extract_claims`: one call with the claim-extraction task type; the
   * sentence fallback when the model returns nothing, the parsed list otherwise.
   */
  function Claims(env: Env, backstory: string, maxClaims: nat): seq<string>
  {
    var response := env.generate(ExtractionPrompt(backstory, maxClaims), ClaimExtraction);
    if IsEmptyResponse(response) then FallbackClaims(backstory) else ParsedClaims(response.value, maxClaims)
  }

  /** `DebateOrchestrator.extract_claims`, with its line-by-line parsing loop. */
  method ExtractClaims(env: Env, backstory: string, maxClaims: nat) returns (claims: seq<string>)
    ensures claims == Claims(env, backstory, maxClaims)
  {
    var response := env.generate(ExtractionPrompt(backstory, maxClaims), ClaimExtraction);
    if IsEmptyResponse(response) {
      return FallbackClaims(backstory);
    }
    var lines := Split(response.value, '\n');
    var parsed: seq<string> := [];
    var i := 0;
    while i < |lines|
      invariant 0 <= i <= |lines|
      invariant parsed == FilterMap(lines[..i], ClaimOf)
    {
      var line := Strip(lines[i]);
      if IsListItem(line) {
        var claim := Strip(LStripChars(line, MarkerChars));
        if claim != [] {
          parsed := parsed + [claim];
        }
      }
      FilterMapStep(lines, ClaimOf, i);
      i := i + 1;
    }
    assert lines[..|lines|] == lines;
    assert parsed == FilterMap(lines, ClaimOf);
    claims := Take(parsed, maxClaims);
  }

  // ---------------------------------------------------------------------------
  // Deliberation
  // ---------------------------------------------------------------------------

  /** The judgment the judge gives when neither side found evidence. */
  function NoEvidenceVerdict(): Judgment
  {
    Judgment(Insufficient, 0.0, "Both sides lack sufficient evidence", None)
  }

  /** One claim's deliberation record, with the model calls made for it in order. */
  datatype Round = Round(record: Deliberation, requests: seq<Request>)

  /**
   * The body of the loop in `deliberate_on_backstory`: the prosecutor and the
   * defense each analyze the claim against the same evidence, then the judge
   * deliberates on their two judgments.
   */
  function DebateClaim(env: Env, claim: string, evidence: seq<Evidence>): (r: Round)
    ensures r.record.claim == claim
    ensures ConfidenceInRange(r.record.final)
  {
    var p := Prosecutor.AnalyzeClaim(env, claim, evidence);
    var d := Defense.AnalyzeClaim(env, claim, evidence);
    var final := Judge.Deliberate(env, claim, p.judgment, d.judgment);
    Judge.DeliberateKeepsRange(env, claim, p.judgment, d.judgment);
    Round(Deliberation(claim, p.judgment, d.judgment, final.judgment), p.requests + d.requests + final.requests)
  }

  /** A claim without retrieved evidence costs no model call and ends with the no-evidence verdict. */
  lemma DebateWithoutEvidence(env: Env, claim: string)
    ensures DebateClaim(env, claim, []).requests == []
    ensures DebateClaim(env, claim, []).record.final == NoEvidenceVerdict()
  {
  }

  /** With evidence, a claim's debate asks the prosecutor first and the defense second. */
  lemma DebateAsksAdvocates(env: Env, claim: string, evidence: seq<Evidence>)
    requires evidence != []
    ensures [Request(ProsecutorPrompt(claim, FormattedEvidence(evidence, DefaultMaxChunks)), ProsecutorTask),
             Request(DefensePrompt(claim, FormattedEvidence(evidence, DefaultMaxChunks)), DefenseTask)]
      <= DebateClaim(env, claim, evidence).requests
  {
    var p := Prosecutor.AnalyzeClaim(env, claim, evidence);
    var d := Defense.AnalyzeClaim(env, claim, evidence);
    var final := Judge.Deliberate(env, claim, p.judgment, d.judgment);
    assert DebateClaim(env, claim, evidence).requests == (p.requests + d.requests) + final.requests;
  }

  /** With evidence, the judge is asked as well exactly when the two advocates leave a dispute, and no one else is. */
  lemma DebateAsksJudgeOnDispute(env: Env, claim: string, evidence: seq<Evidence>)
    requires evidence != []
    ensures |DebateClaim(env, claim, evidence).requests| <= 3
    ensures |DebateClaim(env, claim, evidence).requests| == 3
      <==> Judge.Disputed(DebateClaim(env, claim, evidence).record.prosecutor, DebateClaim(env, claim, evidence).record.defense)
  {
    var p := Prosecutor.AnalyzeClaim(env, claim, evidence);
    var d := Defense.AnalyzeClaim(env, claim, evidence);
    var final := Judge.Deliberate(env, claim, p.judgment, d.judgment);
    Judge.CallsOnlyWhenDisputed(env, claim, p.judgment, d.judgment);
    var r := DebateClaim(env, claim, evidence);
    assert r.requests == p.requests + d.requests + final.requests;
    assert r.record.prosecutor == p.judgment && r.record.defense == d.judgment;
  }

  /**
   * A `DebateOrchestrator`: the model and `float()` it consults, the retriever's
   * settings and index, and the configured `max_claims_per_backstory`.
   */
  datatype Orchestrator = Orchestrator(env: Env, retrieval: RetrievalConfig, index: Index, maxClaims: nat)

  /** The deliberation record of a claim on the evidence retrieved for it from the book. */
  function DeliberationFor(session: (Orchestrator, string), claim: string): Deliberation
  {
    var (o, bookId) := session;
    DebateClaim(o.env, claim, RetrievedFor(o.retrieval, o.index, claim, bookId)).record
  }

  /** The records of the claims against one book, one per claim in claim order. */
  function Deliberations(o: Orchestrator, bookId: string, claims: seq<string>): seq<Deliberation>
  {
    MapWith(DeliberationFor, (o, bookId), claims)
  }

  /**
   * `DebateOrchestrator.deliberate_on_backstory`: extract the claims, retrieve
   * evidence for all of them at once, then deliberate on each claim in order.
   */
  method DeliberateOnBackstory(o: Orchestrator, backstory: string, bookId: string) returns (deliberations: seq<Deliberation>)
    ensures deliberations == Deliberations(o, bookId, Claims(o.env, backstory, o.maxClaims))
  {
    var claims := ExtractClaims(o.env, backstory, o.maxClaims);
    deliberations := DebateClaims(o, claims, bookId);
  }

  /** The part of `deliberate_on_backstory` after extraction: one batch retrieval, then one debate per claim. */
  method DebateClaims(o: Orchestrator, claims: seq<string>, bookId: string) returns (deliberations: seq<Deliberation>)
    ensures deliberations == Deliberations(o, bookId, claims)
  {
    var evidenceMap := RetrieveForClaims(o.retrieval, o.index, claims, bookId);
    deliberations := [];
    var i := 0;
    while i < |claims|
      invariant 0 <= i <= |claims|
      invariant deliberations == MapWith(DeliberationFor, (o, bookId), claims[..i])
    {
      var claim := claims[i];
      var evidence := evidenceMap[claim];
      var prosecutor := Prosecutor.AnalyzeClaim(o.env, claim, evidence).judgment;
      var defense := Defense.AnalyzeClaim(o.env, claim, evidence).judgment;
      var final := Judge.Deliberate(o.env, claim, prosecutor, defense).judgment;
      deliberations := deliberations + [Deliberation(claim, prosecutor, defense, final)];
      MapWithStep(DeliberationFor, (o, bookId), claims, i);
      i := i + 1;
    }
    assert claims[..|claims|] == claims;
  }

  /** One record per claim, in claim order, each with a final confidence in [0, 1]. */
  lemma DeliberationsFollowClaims(o: Orchestrator, bookId: string, claims: seq<string>)
    ensures |Deliberations(o, bookId, claims)| == |claims|
    ensures forall k :: 0 <= k < |claims| ==>
      && Deliberations(o, bookId, claims)[k].claim == claims[k]
      && ConfidenceInRange(Deliberations(o, bookId, claims)[k].final)
  {
    MapWithAt(DeliberationFor, (o, bookId), claims);
  }

  /** When no claim retrieves any evidence, the judge finds every claim INSUFFICIENT without consulting the model. */
  lemma NoEvidenceAllInsufficient(o: Orchestrator, bookId: string, claims: seq<string>)
    requires forall i :: 0 <= i < |claims| ==> RetrievedFor(o.retrieval, o.index, claims[i], bookId) == []
    ensures forall k :: 0 <= k < |claims| ==> Deliberations(o, bookId, claims)[k].final == NoEvidenceVerdict()
  {
    MapWithAt(DeliberationFor, (o, bookId), claims);
  }

  /** Deliberations whose final verdicts are all INSUFFICIENT have zero coverage, so the scorer labels them 0 unless its threshold tolerates that. */
  lemma AllInsufficientRejects(scoring: ScoringConfig, deliberations: seq<Deliberation>)
    requires forall k :: 0 <= k < |deliberations| ==> deliberations[k].final.verdict == Insufficient
    requires scoring.insufficientThreshold < 1.0
    ensures ComputeScore(scoring, deliberations).prediction == 0
  {
    var finals := Finals(deliberations);
    AllInsufficientTally(finals);
    DecideLowCoverage(scoring, Tally(finals));
  }

  /**
   * When no claim retrieves any evidence, every final verdict is INSUFFICIENT,
   * so the backstory's coverage is zero and the scorer labels it 0 unless its
   * threshold tolerates a coverage of zero.
   */
  lemma NoEvidenceRejects(o: Orchestrator, bookId: string, claims: seq<string>, scoring: ScoringConfig)
    requires forall i :: 0 <= i < |claims| ==> RetrievedFor(o.retrieval, o.index, claims[i], bookId) == []
    requires scoring.insufficientThreshold < 1.0
    ensures ComputeScore(scoring, Deliberations(o, bookId, claims)).prediction == 0
  {
    NoEvidenceAllInsufficient(o, bookId, claims);
    AllInsufficientRejects(scoring, Deliberations(o, bookId, claims));
  }

  /** A book the index does not hold gives every claim no evidence, so the backstory is labelled 0. */
  lemma UnknownBookRejects(o: Orchestrator, bookId: string, claims: seq<string>, scoring: ScoringConfig)
    requires bookId !in o.index
    requires scoring.insufficientThreshold < 1.0
    ensures ComputeScore(scoring, Deliberations(o, bookId, claims)).prediction == 0
  {
    NoEvidenceRejects(o, bookId, claims, scoring);
  }
}
