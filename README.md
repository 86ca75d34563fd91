# Backstory adjudication, modelled in Dafny

This project models the claim-adjudication core of a pipeline. The pipeline
decides whether a character's backstory is consistent with a novel:

- The novel is cut into overlapping windows of words (the ingestor).
- The backstory is broken into atomic claims (the orchestrator's claim
  extraction). A language model lists the claims, and a sentence split is
  the fallback.
- For every claim, the chunks most similar to it are retrieved (the retriever).
- Two advocates each ask the model for a verdict on the claim and its evidence.
  The prosecutor looks for contradictions and the defense for consistency.
- A judge settles the claim by a fixed decision table. It asks the model to
  arbitrate only when no rule fires.
- The judges' final verdicts are counted into hard contradictions, soft
  contradictions, consistent claims and claims without enough evidence (the
  constraint tracker).
- Three ordered rules turn those counts into a label, 1 (consistent) or
  0 (contradictory), and a rationale (the scorer).

The model is built on values. None of the core's objects changes its fields
after construction, so the configurations, the index and the two external
capabilities are datatypes passed as parameters. `Records.Env` holds those
capabilities: the language model `generate(prompt, task_type)` and Python's
`float()`.

The source works step by step in several places. Each of these is a `method`
with a loop, proved equal to a specification function that the rest of the
model uses:

- `Base.FormatEvidence` and `Base.ExtractJudgment`;
- `Constraints.ClassifyConstraints`;
- `Retrieve.RetrieveEvidence` and `Retrieve.RetrieveForClaims`;
- `Debate.ExtractClaims` and `Debate.DebateClaims`;
- `Ingest.ChunkText`;
- `Scorer.ScoreAll`.

Every agent returns a `Reply`: its judgment together with the model calls it
made, in order. This lets the contracts say when the model is consulted and
when it is not.

Modules follow the source files. `Wrappers`, `Strings` and `Seqs` model the
Python built-ins the core relies on:

- `str.strip`, `lstrip(chars)`, `split`, `split()`, `join`, `upper` and `replace`;
- `str(int)`, `:.2f` and `:.0%`;
- list slicing and comprehensions.

Behaviour worth noting:

- **Empty response.** An empty model response gives the reasoning text
  "LLM returned empty response" (agents/base.py:49).
- **Confidence percent signs.** Every `%` is removed from a confidence value
  before `float()` reads it (agents/base.py:71).
- **Claim extraction.** A parsed claim has no minimum length. The sentence
  fallback keeps at most 10 sentences, each longer than 20 characters
  (reasoning/debate.py:43-55). A backstory without such a sentence gives no
  claims at all when the model returns nothing.
- **Hard contradiction.** The judge's rule 2 builds a new judgment with
  reasoning "Hard contradiction found: …" and no `evidence_used`
  (agents/judge.py:30-36).
- **Zero similarities.** The retriever divides by the embedding norms without
  a guard (retrieval/retrieve.py:28-34). The model takes similarities as given.
- **Failing claims.** An error anywhere in `deliberate_on_backstory` is caught
  only by the inference script's catch-all, which records prediction 0 for the
  whole sample (run_inference.py:131-140).

## Model

| member | source | states |
|---|---|---|
| Base.Truncated | agents/base.py:26-28 | a text of at most 800 characters is shown unchanged; a longer one as its first 800 characters followed by "..." |
| Base.EvidenceEntries | agents/base.py:24-32 | one block per shown chunk, the i-th numbered i + 1 and built from the i-th chunk |
| Base.FormatEvidence | agents/base.py:12-34 | the loop that appends one block per shown chunk and joins them on newlines returns exactly `FormattedEvidence` (the placeholder when there are no chunks) |
| Base.PlaceholderMeansNoEvidence | agents/base.py:20-21 | the "No relevant evidence found." placeholder is returned if and only if there are no chunks |
| Base.NonEmptyEvidenceIsNotPlaceholder | agents/base.py:23-34 | with at least one chunk the formatted text is never the placeholder |
| Base.FormattedEvidenceShows | agents/base.py:24-34 | exactly the first min(max_chunks, len) chunks are shown, in order; each block and each truncated chunk text occurs in the formatted text |
| Base.NormalizedConfidence | agents/base.py:74-76 | the stored confidence always lies in [0, 1] |
| Base.NormalizedConfidenceCases | agents/base.py:72-76 | a value in [0, 1] is kept; one in (1, 100] is divided by 100; a larger value, +inf and nan give 1.0; a negative value and -inf give 0.0 |
| Base.EffectMeaning | agents/base.py:60-83 | both directions for every kind of line, keys tried in the order VERDICT, CONFIDENCE, REASONING on the upper-cased line: a `VERDICT:` line whose upper-cased value names a verdict sets that verdict, and an unknown value does nothing; a `CONFIDENCE:` line sets the normalised confidence (in [0, 1]) exactly when `float()` accepts its value; a `REASONING:` line sets the reasoning exactly when its value is not empty; a line with none of the keys does nothing; and no line has any other effect |
| Base.ApplyAll | agents/base.py:59-83 | processing lines never touches `evidence_used`, and it keeps the confidence in [0, 1] |
| Base.Effects | agents/base.py:59-83 | there is one effect per line, and no line sets a confidence outside [0, 1] |
| Base.ParsedJudgment | agents/base.py:36-85 | an empty or absent response gives the "LLM returned empty response" judgment; every parsed confidence is in [0, 1]; the parser attaches no `evidence_used` |
| Base.ReadLine | agents/base.py:60-83 | one pass of the loop body applies exactly that line's effect |
| Base.ReadVerdict | agents/base.py:62-65 | the `VERDICT:` branch applies the verdict effect of the line |
| Base.ReadConfidence | agents/base.py:67-78 | the `CONFIDENCE:` branch applies the confidence effect, and a failed `float()` changes nothing |
| Base.ReadReasoning | agents/base.py:80-83 | the `REASONING:` branch applies the reasoning effect of the line |
| Base.ExtractJudgment | agents/base.py:36-85 | the line loop returns exactly `ParsedJudgment` |
| Base.LastVerdictWins | agents/base.py:59-65 | the verdict is the one set by the last line that sets one, or the starting verdict |
| Base.LastConfidenceWins | agents/base.py:67-78 | the confidence is the one set by the last line that sets one, or the starting confidence |
| Base.LastReasoningWins | agents/base.py:80-83 | the reasoning is the one set by the last line that sets one, or the starting reasoning |
| Base.ParsedVerdict | agents/base.py:52-65 | for a non-empty response the verdict defaults to INSUFFICIENT and is set by the last line that sets one |
| Base.ParsedConfidence | agents/base.py:52-78 | for a non-empty response the confidence defaults to 0.0 and is set by the last line that sets one |
| Base.ParsedReasoning | agents/base.py:52-83 | for a non-empty response the reasoning defaults to the whole response and is set by the last line that sets one |
| Base.ChunkIds | agents/prosecutor.py:61 | the i-th id is the `chunk_id` of the i-th evidence chunk |
| Base.Consult | agents/prosecutor.py:50-63 | exactly one model call with the given prompt and task type; a failed call gives the "LLM call failed" judgment; otherwise the parsed verdict, confidence and reasoning, with the ids of the first five chunks as `evidence_used` |
| Base.ConsultRecordsFirstFive | agents/prosecutor.py:61 | when the model answered, `evidence_used` lists the chunk ids of the first min(5, len) chunks, in evidence order |
| Records.VerdictNamedMeaning | agents/base.py:63-65 | a string is accepted as a verdict exactly when it is one of the three spellings, and it names the verdict it spells |
| Records.VerdictNameRoundTrip | agents/base.py:64-65 | every verdict's spelling is accepted as that verdict |
| Prosecutor.AnalyzeClaim | agents/prosecutor.py:10-63 | no evidence gives the "No evidence available for analysis" judgment with no model call; otherwise exactly one call with the prosecutor task type on the prompt built from the claim and the formatted evidence; the confidence is always in [0, 1] |
| Prosecutor.PromptShows | agents/prosecutor.py:20-48 | the prompt's text contains the claim and the formatted evidence |
| Prosecutor.AnalyzeClaimOutcome | agents/prosecutor.py:50-63 | with evidence, a failed call gives the "LLM call failed" judgment; an answer gives its parsed verdict, confidence and reasoning, and the ids of the first five chunks in order |
| Defense.AnalyzeClaim | agents/defense.py:10-63 | no evidence gives the "No evidence available for analysis" judgment with no model call; otherwise exactly one call with the defense task type on the prompt built from the claim and the formatted evidence; the confidence is always in [0, 1] |
| Defense.PromptShows | agents/defense.py:20-48 | the prompt's text contains the claim and the formatted evidence |
| Defense.AnalyzeClaimOutcome | agents/defense.py:50-63 | with evidence, a failed call gives the "LLM call failed" judgment; an answer gives its parsed verdict, confidence and reasoning, and the ids of the first five chunks in order |
| Judge.PromptShows | agents/judge.py:49-75 | the arbitration prompt's text contains the claim and both sides' reasoning |
| Judge.Deliberate | agents/judge.py:10-83 | the rules are tried in order: both INSUFFICIENT gives INSUFFICIENT at 0.0; a prosecutor CONTRADICTORY above 0.7 gives CONTRADICTORY at the prosecutor's confidence; both CONSISTENT gives CONSISTENT at the mean confidence; none of these makes one arbitration call, whose parsed answer is final, or the prosecutor's judgment when the model returns nothing |
| Judge.CallsOnlyWhenDisputed | agents/judge.py:21-83 | the judge calls the model at most once, and it calls it if and only if none of the three rules fires |
| Judge.DeliberateKeepsRange | agents/judge.py:10-83 | when both sides' confidences are in [0, 1], so is the final confidence |
| Judge.HardContradictionIgnoresDefense | agents/judge.py:29-36 | a hard contradiction decides CONTRADICTORY whatever the defense said |
| Judge.SoftContradictionIsArbitrated | agents/judge.py:29-77 | a prosecutor CONTRADICTORY at confidence 0.7 or less is not hard, and the model is asked to arbitrate |
| Constraints.Finals | reasoning/constraints.py:24-26 | one final judgment per deliberation, in order |
| Constraints.ClassifyConstraints | reasoning/constraints.py:6-40 | the counting loop returns the tally of the final judgments, and the four counters add up to the number of deliberations |
| Constraints.CountFinal | reasoning/constraints.py:28-38 | the if-chain increments exactly the counter of the judgment's bucket |
| Constraints.TallyTotal | reasoning/constraints.py:24-38 | every final judgment is counted exactly once |
| Constraints.TallyAppend | reasoning/constraints.py:24-38 | tallying two lists one after the other adds their counts |
| Constraints.TallyPermutation | reasoning/constraints.py:24-38 | the counts depend only on the multiset of final judgments, not on their order |
| Constraints.BucketCounts | reasoning/constraints.py:28-38 | a CONTRADICTORY above 0.7 is hard, one at 0.7 or less is soft, CONSISTENT is consistent, INSUFFICIENT is insufficient |
| Constraints.HardCountMeansHardFinal | reasoning/constraints.py:28-48 | `has_critical_violations` holds if and only if some final verdict is CONTRADICTORY with confidence above 0.7 |
| Constraints.InsufficientCountMeansVerdict | reasoning/constraints.py:37-38 | the insufficient counter is zero if and only if no final verdict is INSUFFICIENT |
| Constraints.AllInsufficientTally | reasoning/constraints.py:24-38 | all-INSUFFICIENT finals are all counted as insufficient and nothing else |
| Constraints.EvidenceCoverage | reasoning/constraints.py:50-61 | the coverage lies in [0, 1]; it is 0.0 with no claims; otherwise it is 1.0 if and only if no claim is insufficient |
| Scorer.ComputeScore | scoring/scorer.py:17-61 | the label is 0 or 1 |
| Scorer.DecideHard | scoring/scorer.py:27-33 | rule 1: any hard contradiction decides, quoting the hard count |
| Scorer.DecideLowCoverage | scoring/scorer.py:35-42 | rule 2: with no hard contradiction, coverage below 1 − threshold decides, quoting the coverage |
| Scorer.DecideWeighted | scoring/scorer.py:44-61 | rule 3: otherwise the label is 1 if and only if the weighted score is not negative |
| Scorer.WeightedScoreWithoutHard | scoring/scorer.py:45-48 | with no hard contradiction, the weighted score is the support minus the soft contradictions |
| Scorer.DecideAccepted | scoring/scorer.py:27-55 | a label of 1 means no hard contradiction and a coverage that meets the threshold |
| Scorer.HardContradictionRejects | scoring/scorer.py:25-33 | one hard contradiction among the final judgments gives label 0, whatever else was found |
| Scorer.LowCoverageRejects | scoring/scorer.py:35-42 | with no hard contradiction and low coverage the label is 0 |
| Scorer.WeightedRuleDecides | scoring/scorer.py:44-61 | when neither earlier rule fires, the label is 1 if and only if the weighted score is not negative |
| Scorer.NoClaimsRejects | scoring/scorer.py:36-42 | no deliberations give label 0 unless the threshold tolerates a coverage of zero |
| Scorer.AcceptedMeansNoHardContradiction | scoring/scorer.py:27-55 | a label of 1 means no final judgment was a hard contradiction and the coverage met the threshold |
| Scorer.StrictThresholdAcceptanceNeedsFullCoverage | scoring/scorer.py:35-42 | with a zero threshold, a label of 1 needs at least one claim and no INSUFFICIENT final verdict |
| Scorer.FullCoverage | reasoning/constraints.py:56-61 | full coverage means at least one claim and none insufficient |
| Scorer.ScoreIgnoresOrder | scoring/scorer.py:25-61 | the score depends only on the multiset of final judgments |
| Scorer.RationaleNamesLabel | scoring/scorer.py:29-61 | every rationale opens with the name of its label: CONSISTENT for 1, CONTRADICTORY for 0 |
| Scorer.ScoreAll | scoring/scorer.py:63-78 | one score per backstory, in order, each the `compute_score` of its deliberations |
| Retrieve.Similarities | retrieval/retrieve.py:28-34 | one similarity per stored chunk, in chunk order |
| Retrieve.ArgsortIsRanking | retrieval/retrieve.py:37 | the descending argsort lists every chunk position exactly once, by non-increasing similarity |
| Retrieve.RankingCovers | retrieval/retrieve.py:37 | a ranking has one entry per chunk, and every chunk position occurs in it |
| Retrieve.Pick | retrieval/retrieve.py:41-44 | a ranked position gives evidence if and only if its similarity reaches the threshold, and the evidence is that chunk with its similarity |
| Retrieve.RetrieveEvidence | retrieval/retrieve.py:14-46 | the ranking loop returns exactly `RetrievedFor`, which is empty for a book the index does not hold |
| Retrieve.SelectionBound | retrieval/retrieve.py:37-46 | at most `top_k` chunks are returned |
| Retrieve.SelectionPicks | retrieval/retrieve.py:37-46 | the i-th result is the chunk at the i-th kept entry of the top `top_k`, copied with its similarity, which reaches the threshold |
| Retrieve.SelectionCopies | retrieval/retrieve.py:41-44 | every result is a stored chunk carrying its own similarity |
| Retrieve.SelectionDescending | retrieval/retrieve.py:37-46 | the results come by non-increasing similarity |
| Retrieve.SelectionKeepsBetter | retrieval/retrieve.py:37-46 | a chunk strictly more similar than a returned chunk is returned too |
| Retrieve.RetrieveForClaims | retrieval/retrieve.py:48-59 | the map has exactly one key per distinct claim, each holding what `retrieve` returns for it |
| Debate.PromptShows | reasoning/debate.py:23-37 | the extraction prompt's text contains the backstory and the claim limit |
| Debate.TextShowsSubject | reasoning/debate.py:23-39 | every prompt's text contains what it is about: the backstory for the extraction, the claim for each role |
| Debate.FallbackClaimsShape | reasoning/debate.py:41-43 | there are at most ten fallback claims, each a stripped sentence of more than 20 characters with its full stop |
| Debate.FallbackClaimsSources | reasoning/debate.py:43 | the fallback claims come from the backstory's `.`-separated pieces in order, each the stripped text of a long piece with a full stop |
| Debate.FallbackClaimsComplete | reasoning/debate.py:43 | with at most ten long sentences, every one becomes a fallback claim |
| Debate.ClaimOfShape | reasoning/debate.py:48-53 | only a list item (a digit, `-` or `•` first) yields a claim, which is non-empty, stripped and on one line |
| Debate.ParsedClaimsShape | reasoning/debate.py:46-55 | there are at most `max_claims` parsed claims, each non-empty, stripped and on one line |
| Debate.ParsedClaimsSources | reasoning/debate.py:46-55 | the parsed claims come from the answer's lines in line order |
| Debate.ParsedClaimsComplete | reasoning/debate.py:46-55 | within the limit, every line that leaves a claim is parsed |
| Debate.ExtractClaims | reasoning/debate.py:19-55 | the extraction with its parsing loop returns exactly `Claims`: the sentence fallback when the model returns nothing, the parsed list otherwise |
| Debate.DebateClaim | reasoning/debate.py:76-96 | the record keeps the claim, and its final confidence is in [0, 1] |
| Debate.DebateWithoutEvidence | reasoning/debate.py:76-89 | a claim without evidence costs no model call and ends INSUFFICIENT at 0.0 |
| Debate.DebateAsksAdvocates | reasoning/debate.py:79-85 | with evidence, the prosecutor is asked first and the defense second, both on the same formatted evidence |
| Debate.DebateAsksJudgeOnDispute | reasoning/debate.py:79-89 | with evidence there are at most three calls, and a third (the judge's) happens if and only if the two advocates leave a dispute |
| Debate.DeliberateOnBackstory | reasoning/debate.py:57-101 | the orchestrator returns the deliberations of the extracted claims against the book |
| Debate.DebateClaims | reasoning/debate.py:69-101 | one batch retrieval, then one debate per claim in order, returns exactly `Deliberations` |
| Debate.DeliberationsFollowClaims | reasoning/debate.py:71-101 | there is one record per claim, in claim order, each naming its claim with a final confidence in [0, 1] |
| Debate.NoEvidenceAllInsufficient | reasoning/debate.py:76-89 | when no claim retrieves evidence, every final judgment is the no-evidence INSUFFICIENT verdict |
| Debate.AllInsufficientRejects | scoring/scorer.py:35-42 | all-INSUFFICIENT deliberations are labelled 0 unless the threshold tolerates zero coverage |
| Debate.NoEvidenceRejects | reasoning/debate.py:57-101 | a backstory none of whose claims retrieves evidence is labelled 0 unless the threshold tolerates zero coverage |
| Debate.UnknownBookRejects | retrieval/retrieve.py:20-22 | a book the index does not hold gives every claim no evidence, so the backstory is labelled 0 unless the threshold tolerates zero coverage |
| Ingest.Slice | pathway_pipeline/ingest.py:49 | Python's `words[start:end]`: the sub-list for a stop inside the list, empty for a stop at or before the start |
| Ingest.ChunkIdInjective | pathway_pipeline/ingest.py:56 | different positions of one book get different chunk ids |
| Ingest.ChunkAt | pathway_pipeline/ingest.py:48-59 | the chunk names its book, has id `f"{book_id}_chunk_{chunk_idx}"` and sits at position `chunk_idx` |
| Ingest.ChunkText | pathway_pipeline/ingest.py:27-64 | the window loop returns exactly `Chunks` |
| Ingest.ChunksAccExtends | pathway_pipeline/ingest.py:47-62 | the loop only appends: chunks already kept stay at the front |
| Ingest.ChunksStart | pathway_pipeline/ingest.py:44-60 | a text without words gives no chunks; otherwise the first chunk is the first window, kept whatever its size |
| Ingest.ChunksNumbered | pathway_pipeline/ingest.py:53-60 | chunk i sits at position i with id `f"{book_id}_chunk_{i}"`, so ids never repeat |
| Ingest.ChunksLaterAreLarge | pathway_pipeline/ingest.py:51-52 | every chunk after the first has at least `min_chunk_size` words |
| Ingest.ChunksFromWindows | pathway_pipeline/ingest.py:47-62 | the chunks are exactly the kept windows in window order: their texts are, in order, the joined windows at the starts the loop visits (0, one stride on, and so on while below the word count), keeping the first window always and a later one when it has at least `min_chunk_size` words; every chunk counts the words of its own text |
| Ingest.StartsFromShape | pathway_pipeline/ingest.py:47-62 | the visited starts begin at the first start, each is one stride past the one before, every one is below the word count, and one more stride from the last leaves the text |
| Ingest.ChunkLoopNeverEnds | pathway_pipeline/ingest.py:47-62 | with `chunk_overlap >= chunk_size`, the start stays at or before 0 in every round, so the loop test holds for ever on a text with words |
| Ingest.WindowChunkWords | pathway_pipeline/ingest.py:41-58 | a window's chunk holds between one and `chunk_size` of the text's words, consecutive and in order |
| Ingest.WindowWords | pathway_pipeline/ingest.py:48-49 | splitting the joined window gives back exactly the window's words |
| Strings.StripEnds | agents/base.py:63 | `strip()` leaves no whitespace at either end |
| Strings.StripEmpty | reasoning/debate.py:52 | `strip()` gives the empty string exactly for all-whitespace text |
| Strings.TrimLeftSpaces | agents/base.py:81 | `lstrip()` removes exactly the leading whitespace |
| Strings.TrimRightSpaces | agents/base.py:81 | `rstrip()` removes exactly the trailing whitespace |
| Strings.LStripChars | reasoning/debate.py:51 | `lstrip(chars)` removes a prefix and leaves no character of `chars` in front |
| Strings.WithoutRemoves | agents/base.py:71 | `replace('%', '')` leaves no `%`, and changes nothing when there is none |
| Strings.UpperAt | agents/base.py:60 | `upper()` works character by character |
| Strings.AfterFirstSplits | agents/base.py:63 | `split(':', 1)[1]` is the text after the first colon |
| Strings.Split | agents/base.py:52 | `split('\n')` is never empty and no piece holds a newline |
| Strings.JoinSplit | agents/base.py:52 | joining the pieces of a split on the separator gives the original text |
| Strings.WordsAreWords | pathway_pipeline/ingest.py:41 | every element of `split()` is a non-empty run without whitespace |
| Strings.WordsOfJoin | pathway_pipeline/ingest.py:49-58 | splitting a space-joined list of words gives the same words |
| Strings.NatToStringRoundTrip | pathway_pipeline/ingest.py:56 | `str(n)` reads back as n |
| Strings.RoundHalfEven | agents/judge.py:56 | the rounding used by `:.2f` is within one half, and ties go to the even integer |
| Seqs.Take | agents/prosecutor.py:61 | `s[:n]` is the prefix of length min(n, len) |
| Inference.BindFrom | run_inference.py:114-118 | when a call binds, every parameter, every earlier binding and every keyword's name is bound |
| Inference.UnknownKeywordRefused | run_inference.py:114-118 | a keyword that names no parameter makes the call raise, whatever the other keywords are |
| Inference.BoundValues | run_inference.py:114-118 | when a call binds, each keyword's parameter holds that keyword's value |
| Inference.InferSample | run_inference.py:113-140 | the row keeps the sample's id, book and character, and its prediction is 0 or 1 |
| Inference.AsWrittenAlwaysFails | run_inference.py:114-118 | the call as written raises on `book_name`, so every sample is predicted 0 |
| Inference.CorrectedCallScores | run_inference.py:114-120 | the corrected call scores the debate over the sample's own backstory and book |

## Left out

- I/O and progress output: file reading (`load_novel`), `ingest_books`, the
  `print` calls and the progress bar. The model starts from the text and the
  rows.
- The language model's transport: the retry and back-off loops, the call
  counters and the clients. `Records.Env.generate` is an arbitrary function
  of the prompt and task type, with `None` when every retry failed.
  llm/groq_client.py and llm/ollama_client.py are not part of this model.
- The embedding model and the cosine computation. Each book's index supplies
  the similarity of a query to each chunk. pathway_pipeline/index.py is not
  part of this model.
- NumPy's order among equal similarities, which is unspecified. The argsort
  is a fixed insertion sort, and the selection lemmas hold for any descending
  ranking.
- Floating point. Confidences, weights and similarities are exact reals
  (`float()` is the `Env.parseFloat` capability, with infinities and nan). The
  `:.2f` and `:.0%` renderings use exact rounding half to even.
- Strings.UpperChar: `upper()` is modelled on ASCII letters only, and
  `isdigit()` on ASCII digits only.
- Retrieve.RetrievalConfig: `top_k` is a natural number. A negative `top_k`,
  which Python's slice would count from the end, is not modelled.
- Debate.Claims: `max_claims_per_backstory` is a natural number. A negative
  configured limit, which Python's slice would count from the end, is not
  modelled.
- Ingest.ChunkText: requires a positive stride (`chunk_size - chunk_overlap`)
  when the text has words. The source's loop never ends otherwise.
- Ingest.WindowChunkWords: holds only for a positive `chunk_size`. With size
  0 every window is empty. With a negative size the slice stop counts from the
  end of the list, so a window can hold more words than `chunk_size` and the
  bound fails.
- The inference script beyond the body of its loop for one sample: reading
  the CSV, label normalisation, accuracy and the output files.
  analyze_result.py is not part of this model.
- Inference.InferSample: the caught error is recorded as the binding error,
  not as the text `f"Error during inference: {e}"`.
- Errors other than the keyword `TypeError` (a missing dictionary key, a
  failed model client) are not modelled.

## Findings

| source | as written | input that shows it | evidently intended | confidence | as-written member | corrected member |
|---|---|---|---|---|---|---|
| pathway_pipeline/ingest.py:47-62 | `start += chunk_size - chunk_overlap` with no check on the configured values | a text with words and `chunk_overlap >= chunk_size`, say size 2 and overlap 2: the start never moves and the loop never ends | reject an overlap at least the chunk size before chunking | not executed | Ingest.ChunkLoopNeverEnds | Ingest.ChunkText |
| run_inference.py:114-118 | `deliberate_on_backstory(backstory=…, book_name=…, character=…)`, but the method takes `(backstory, book_id)` (reasoning/debate.py:57) | any validation row: Python raises `TypeError` on the unexpected keyword `book_name`. The catch-all at run_inference.py:131-140 records prediction 0 | pass the row's book as `book_id=book_name` and drop `character` | not executed | Inference.AsWrittenAlwaysFails | Inference.CorrectedCallScores |
