/**
 * The agents' shared toolkit (agents/base.py): the evidence formatter that
 * builds the evidence section of a prompt, and the line-oriented parser that
 * turns a model's free text into a judgment. Both are loops in the source; each
 * is a method here, proved equal to a function that the pure agents use.
 */
module Base {
  import opened Wrappers
  import opened Strings
  import opened Seqs
  import opened Records

  // ---------------------------------------------------------------------------
  // Evidence formatting
  // ---------------------------------------------------------------------------

  /** How many chunks the agents show the model. */
  const DefaultMaxChunks: nat := 3
  /** How many characters of a chunk are shown before it is cut. */
  const MaxShownChars: nat := 800

  /** A chunk's text as shown: over 800 characters, its first 800 and "...". */
  function Truncated(text: string): (r: string)
    ensures |text| <= MaxShownChars ==> r == text
    ensures |text| > MaxShownChars ==> |r| == MaxShownChars + 3 && text[..MaxShownChars] <= r && r[MaxShownChars..] == "..."
  {
    if |text| > MaxShownChars then text[..MaxShownChars] + "..." else text
  }

  /** The block for the `number`-th shown chunk. */
  function EvidenceEntry(number: nat, e: Evidence): string
  {
    "[Evidence " + NatToString(number) + "] (Similarity: " + FixedTwo(e.similarity) + ")\n" + Truncated(e.chunk.text) + "\n"
  }

  /** The blocks for the shown chunks, numbered from 1 in their order. */
  function EvidenceEntries(shown: seq<Evidence>): (entries: seq<string>)
    ensures |entries| == |shown|
    ensures forall i :: 0 <= i < |shown| ==> entries[i] == EvidenceEntry(i + 1, shown[i])
  {
    seq(|shown|, i requires 0 <= i < |shown| => EvidenceEntry(i + 1, shown[i]))
  }

  /** What `format_evidence(chunks, max_chunks)` returns. */
  function FormattedEvidence(chunks: seq<Evidence>, maxChunks: nat): string
  {
    if chunks == [] then "No relevant evidence found."
    else Join(EvidenceEntries(Take(chunks, maxChunks)), "\n")
  }

  /** `format_evidence`: the loop appending one block per shown chunk, then the join. */
  method FormatEvidence(chunks: seq<Evidence>, maxChunks: nat) returns (text: string)
    ensures text == FormattedEvidence(chunks, maxChunks)
  {
    if chunks == [] {
      return "No relevant evidence found.";
    }
    var shown := Take(chunks, maxChunks);
    var formatted: seq<string> := [];
    var i := 0;
    while i < |shown|
      invariant 0 <= i <= |shown|
      invariant formatted == EvidenceEntries(shown[..i])
    {
      var block := EvidenceEntry(i + 1, shown[i]);
      EvidenceEntriesStep(shown, i);
      formatted := formatted + [block];
      i := i + 1;
    }
    assert shown[..|shown|] == shown;
    text := Join(formatted, "\n");
  }

  lemma EvidenceEntriesStep(shown: seq<Evidence>, i: nat)
    requires i < |shown|
    ensures EvidenceEntries(shown[..i + 1]) == EvidenceEntries(shown[..i]) + [EvidenceEntry(i + 1, shown[i])]
  {
    var a := EvidenceEntries(shown[..i + 1]);
    var b := EvidenceEntries(shown[..i]) + [EvidenceEntry(i + 1, shown[i])];
    assert |a| == |b|;
    forall k | 0 <= k < |a|
      ensures a[k] == b[k]
    {
      assert shown[..i + 1][k] == shown[k];
    }
  }

  /** The placeholder is returned exactly when there is no evidence. */
  lemma PlaceholderMeansNoEvidence(chunks: seq<Evidence>, maxChunks: nat)
    ensures chunks == [] <==> FormattedEvidence(chunks, maxChunks) == "No relevant evidence found."
  {
    if chunks != [] {
      NonEmptyEvidenceIsNotPlaceholder(chunks, maxChunks);
    }
  }

  /** With evidence, the formatted text is never the "no evidence" placeholder. */
  lemma NonEmptyEvidenceIsNotPlaceholder(chunks: seq<Evidence>, maxChunks: nat)
    requires chunks != []
    ensures FormattedEvidence(chunks, maxChunks) != "No relevant evidence found."
  {
    var entries := EvidenceEntries(Take(chunks, maxChunks));
    if |entries| > 0 {
      JoinStartsWithFirst(entries, "\n");
      var text := FormattedEvidence(chunks, maxChunks);
      assert entries[0][0] == '[';
      assert text[0] == '[';
    } else {
      assert FormattedEvidence(chunks, maxChunks) == [];
    }
  }

  /**
   * The formatted text shows exactly the first `min(maxChunks, |chunks|)` chunks:
   * the i-th shown chunk appears as block number i + 1, with its truncated text.
   */
  lemma {:induction false} FormattedEvidenceShows(chunks: seq<Evidence>, maxChunks: nat)
    requires chunks != []
    ensures var shown := Take(chunks, maxChunks);
      && |shown| == Min(maxChunks, |chunks|)
      && FormattedEvidence(chunks, maxChunks) == Join(EvidenceEntries(shown), "\n")
      && forall i :: 0 <= i < |shown| ==>
           shown[i] == chunks[i]
           && Contains(FormattedEvidence(chunks, maxChunks), EvidenceEntry(i + 1, chunks[i]))
           && Contains(FormattedEvidence(chunks, maxChunks), Truncated(chunks[i].chunk.text))
  {
    var shown := Take(chunks, maxChunks);
    var entries := EvidenceEntries(shown);
    forall i | 0 <= i < |shown|
      ensures Contains(FormattedEvidence(chunks, maxChunks), EvidenceEntry(i + 1, chunks[i]))
      ensures Contains(FormattedEvidence(chunks, maxChunks), Truncated(chunks[i].chunk.text))
    {
      JoinContainsPart(entries, "\n", i);
      var entry := EvidenceEntry(i + 1, chunks[i]);
      var head := "[Evidence " + NatToString(i + 1) + "] (Similarity: " + FixedTwo(chunks[i].similarity) + ")\n";
      assert entry == head + Truncated(chunks[i].chunk.text) + "\n";
      ContainsInside(head, Truncated(chunks[i].chunk.text), "\n");
      ContainsTransitive(FormattedEvidence(chunks, maxChunks), entry, Truncated(chunks[i].chunk.text));
    }
  }

  lemma {:induction false} ContainsTransitive(s: string, t: string, u: string)
    requires Contains(s, t) && Contains(t, u)
    ensures Contains(s, u)
    decreases |s|
  {
    if t <= s {
      PrefixContains(s, t, u);
    } else {
      ContainsTransitive(s[1..], t, u);
    }
  }

  lemma {:induction false} PrefixContains(s: string, t: string, u: string)
    requires t <= s && Contains(t, u)
    ensures Contains(s, u)
    decreases |t|
  {
    if u <= t {
      assert u <= s;
    } else {
      assert t[1..] <= s[1..];
      PrefixContains(s[1..], t[1..], u);
    }
  }

  // ---------------------------------------------------------------------------
  // Judgment parsing
  // ---------------------------------------------------------------------------

  /** What `extract_judgment` returns for an empty or absent response. */
  function EmptyResponseJudgment(): Judgment
  {
    Judgment(Insufficient, 0.0, "LLM returned empty response", None)
  }

  /** The judgment the parser starts from: nothing decided, the whole response as reasoning. */
  function InitialJudgment(response: string): Judgment
  {
    Judgment(Insufficient, 0.0, response, None)
  }

  /**
   * The confidence a parsed number becomes: above 1.0 it is read as a percentage
   * and divided by 100, then it is clamped into [0, 1] with Python's
   * `max(0.0, min(1.0, x))`, which sends `nan` to 1.0.
   */
  function NormalizedConfidence(x: Float): (c: real)
    ensures 0.0 <= c <= 1.0
  {
    match x
    case Finite(v) =>
      var p := if v > 1.0 then v / 100.0 else v;
      var upper := if p < 1.0 then p else 1.0;
      if upper > 0.0 then upper else 0.0
    case PositiveInfinity => 1.0
    case NegativeInfinity => 0.0
    case NaN => 1.0
  }

  /**
   * A fraction in [0, 1] is kept, a percentage in (1, 100] is divided by 100,
   * anything larger (and +inf, nan) becomes 1.0, anything negative (and -inf) 0.0.
   */
  lemma NormalizedConfidenceCases(x: Float)
    ensures x.Finite? && 0.0 <= x.value <= 1.0 ==> NormalizedConfidence(x) == x.value
    ensures x.Finite? && 1.0 < x.value <= 100.0 ==> NormalizedConfidence(x) == x.value / 100.0
    ensures x.Finite? && x.value > 100.0 ==> NormalizedConfidence(x) == 1.0
    ensures x.Finite? && x.value < 0.0 ==> NormalizedConfidence(x) == 0.0
    ensures x == PositiveInfinity || x == NaN ==> NormalizedConfidence(x) == 1.0
    ensures x == NegativeInfinity ==> NormalizedConfidence(x) == 0.0
  {
  }

  /** The effect one line of the response has on the judgment: at most one field. */
  datatype LineEffect = SetVerdict(verdict: Verdict) | SetConfidence(confidence: real) | SetReasoning(reasoning: string) | NoEffect

  lemma KeyedLineHasColon(line: string, key: string)
    requires |key| > 0 && key[|key| - 1] == ':' && StartsWith(Upper(line), key)
    ensures ':' in line
  {
    var k := |key| - 1;
    assert Upper(line)[k] == key[k];
    UpperAt(line, k);
    assert line[k] == ':';
  }

  /** `line.split(':', 1)[1].strip()`. */
  function ValueAfterColon(line: string): string
    requires ':' in line
  {
    Strip(AfterFirst(line, ':'))
  }

  /** The confidence text handed to `float()`: the value with every '%' removed, stripped. */
  function ConfidenceText(line: string): string
    requires ':' in line
  {
    Strip(Without(ValueAfterColon(line), '%'))
  }

  /**
   * The if/elif chain of the parser's loop body. A line is keyed by a
   * case-insensitive prefix of the unstripped line; an unrecognised verdict, an
   * unparsable confidence and an empty reasoning leave everything as it was.
   */
  function Effect(line: string, parseFloat: string -> Option<Float>): LineEffect
  {
    var lineUpper := Upper(line);
    if StartsWith(lineUpper, "VERDICT:") then
      KeyedLineHasColon(line, "VERDICT:");
      VerdictEffect(line)
    else if StartsWith(lineUpper, "CONFIDENCE:") then
      KeyedLineHasColon(line, "CONFIDENCE:");
      ConfidenceEffect(line, parseFloat)
    else if StartsWith(lineUpper, "REASONING:") then
      KeyedLineHasColon(line, "REASONING:");
      ReasoningEffect(line)
    else
      NoEffect
  }

  /** A `VERDICT:` line: the value, upper-cased, if it names a verdict. */
  function VerdictEffect(line: string): LineEffect
    requires ':' in line
  {
    match VerdictNamed(Upper(ValueAfterColon(line)))
    case Some(v) => SetVerdict(v)
    case None => NoEffect
  }

  /** A `CONFIDENCE:` line: the value, if `float()` accepts it, normalised. */
  function ConfidenceEffect(line: string, parseFloat: string -> Option<Float>): LineEffect
    requires ':' in line
  {
    match parseFloat(ConfidenceText(line))
    case Some(x) => SetConfidence(NormalizedConfidence(x))
    case None => NoEffect
  }

  /** A `REASONING:` line: the value, if it is not empty. */
  function ReasoningEffect(line: string): LineEffect
    requires ':' in line
  {
    var reasoning := ValueAfterColon(line);
    if reasoning != [] then SetReasoning(reasoning) else NoEffect
  }

  /** What each kind of line can do to the judgment (the contract of the if/elif chain). */
  lemma EffectMeaning(line: string, parseFloat: string -> Option<Float>)
    ensures var e := Effect(line, parseFloat);
      e.SetVerdict? ==> (StartsWith(Upper(line), "VERDICT:") && ':' in line
                         && VerdictName(e.verdict) == Upper(ValueAfterColon(line)))
    ensures var e := Effect(line, parseFloat);
      e.SetConfidence? ==> (!StartsWith(Upper(line), "VERDICT:") && StartsWith(Upper(line), "CONFIDENCE:") && ':' in line
                            && 0.0 <= e.confidence <= 1.0
                            && parseFloat(ConfidenceText(line)).Some?
                            && e.confidence == NormalizedConfidence(parseFloat(ConfidenceText(line)).value))
    ensures var e := Effect(line, parseFloat);
      e.SetReasoning? ==> (!StartsWith(Upper(line), "VERDICT:") && !StartsWith(Upper(line), "CONFIDENCE:")
                           && StartsWith(Upper(line), "REASONING:") && ':' in line
                           && e.reasoning == ValueAfterColon(line) && e.reasoning != [])
    ensures StartsWith(Upper(line), "VERDICT:") && ':' in line && VerdictNamed(Upper(ValueAfterColon(line))).None?
            ==> Effect(line, parseFloat) == NoEffect
    ensures StartsWith(Upper(line), "VERDICT:") && ':' in line && VerdictNamed(Upper(ValueAfterColon(line))).Some?
            ==> Effect(line, parseFloat) == SetVerdict(VerdictNamed(Upper(ValueAfterColon(line))).value)
    ensures !StartsWith(Upper(line), "VERDICT:") && StartsWith(Upper(line), "CONFIDENCE:") && ':' in line
            ==> Effect(line, parseFloat)
                == if parseFloat(ConfidenceText(line)).Some?
                   then SetConfidence(NormalizedConfidence(parseFloat(ConfidenceText(line)).value))
                   else NoEffect
    ensures !StartsWith(Upper(line), "VERDICT:") && !StartsWith(Upper(line), "CONFIDENCE:")
            && StartsWith(Upper(line), "REASONING:") && ':' in line
            ==> Effect(line, parseFloat) == if ValueAfterColon(line) != [] then SetReasoning(ValueAfterColon(line)) else NoEffect
    ensures !StartsWith(Upper(line), "VERDICT:") && !StartsWith(Upper(line), "CONFIDENCE:") && !StartsWith(Upper(line), "REASONING:")
            ==> Effect(line, parseFloat) == NoEffect
  {
    var lineUpper := Upper(line);
    if StartsWith(lineUpper, "VERDICT:") {
      KeyedLineHasColon(line, "VERDICT:");
      VerdictNamedMeaning(Upper(ValueAfterColon(line)));
    } else if StartsWith(lineUpper, "CONFIDENCE:") {
      KeyedLineHasColon(line, "CONFIDENCE:");
    } else if StartsWith(lineUpper, "REASONING:") {
      KeyedLineHasColon(line, "REASONING:");
    }
  }

  function Apply(j: Judgment, e: LineEffect): Judgment
  {
    match e
    case SetVerdict(v) => j.(verdict := v)
    case SetConfidence(c) => j.(confidence := c)
    case SetReasoning(r) => j.(reasoning := r)
    case NoEffect => j
  }

  /** A line effect never sets a confidence outside [0, 1]. */
  predicate InRangeEffect(e: LineEffect)
  {
    e.SetConfidence? ==> 0.0 <= e.confidence <= 1.0
  }

  /** The judgment after applying the effects of successive lines, starting from `init`. */
  function ApplyAll(init: Judgment, effects: seq<LineEffect>): (j: Judgment)
    ensures j.evidenceUsed == init.evidenceUsed
    ensures ConfidenceInRange(init) && (forall i :: 0 <= i < |effects| ==> InRangeEffect(effects[i])) ==> ConfidenceInRange(j)
  {
    if effects == [] then init
    else Apply(ApplyAll(init, effects[..|effects| - 1]), effects[|effects| - 1])
  }

  /** The effect of each line, in order. */
  function Effects(lines: seq<string>, parseFloat: string -> Option<Float>): (effects: seq<LineEffect>)
    ensures |effects| == |lines|
    ensures forall i :: 0 <= i < |effects| ==> InRangeEffect(effects[i])
  {
    if lines == [] then []
    else
      EffectMeaning(lines[|lines| - 1], parseFloat);
      Effects(lines[..|lines| - 1], parseFloat) + [Effect(lines[|lines| - 1], parseFloat)]
  }

  /** The i-th effect is the effect of the i-th line. */
  lemma {:induction false} EffectsAt(lines: seq<string>, parseFloat: string -> Option<Float>, i: nat)
    requires i < |lines|
    ensures Effects(lines, parseFloat)[i] == Effect(lines[i], parseFloat)
  {
    if i < |lines| - 1 {
      EffectsAt(lines[..|lines| - 1], parseFloat, i);
    }
  }

  /** What `extract_judgment(response)` returns. */
  function ParsedJudgment(response: Option<string>, parseFloat: string -> Option<Float>): (j: Judgment)
    ensures IsEmptyResponse(response) ==> j == EmptyResponseJudgment()
    ensures ConfidenceInRange(j)
    ensures j.evidenceUsed.None?
  {
    if IsEmptyResponse(response) then EmptyResponseJudgment()
    else ApplyAll(InitialJudgment(response.value), Effects(Split(response.value, '\n'), parseFloat))
  }

  /** One pass of the loop in `extract_judgment`: the if/elif chain applied to one line. */
  method ReadLine(judgment: Judgment, line: string, parseFloat: string -> Option<Float>) returns (next: Judgment)
    ensures next == Apply(judgment, Effect(line, parseFloat))
  {
    var lineUpper := Upper(line);
    if StartsWith(lineUpper, "VERDICT:") {
      KeyedLineHasColon(line, "VERDICT:");
      next := ReadVerdict(judgment, line);
    } else if StartsWith(lineUpper, "CONFIDENCE:") {
      KeyedLineHasColon(line, "CONFIDENCE:");
      next := ReadConfidence(judgment, line, parseFloat);
    } else if StartsWith(lineUpper, "REASONING:") {
      KeyedLineHasColon(line, "REASONING:");
      next := ReadReasoning(judgment, line);
    } else {
      next := judgment;
    }
  }

  /** The `VERDICT:` branch: the verdict is set only when the value names one. */
  method ReadVerdict(judgment: Judgment, line: string) returns (next: Judgment)
    requires ':' in line
    ensures next == Apply(judgment, VerdictEffect(line))
  {
    next := judgment;
    var verdict := Upper(ValueAfterColon(line));
    match VerdictNamed(verdict) {
      case Some(v) => next := next.(verdict := v);
      case None =>
    }
  }

  /** The `CONFIDENCE:` branch: the confidence is set only when `float()` accepts the value. */
  method ReadConfidence(judgment: Judgment, line: string, parseFloat: string -> Option<Float>) returns (next: Judgment)
    requires ':' in line
    ensures next == Apply(judgment, ConfidenceEffect(line, parseFloat))
  {
    next := judgment;
    var confText := ConfidenceText(line);
    match parseFloat(confText) {
      case Some(x) => next := next.(confidence := NormalizedConfidence(x));
      case None =>
    }
  }

  /** The `REASONING:` branch: the reasoning is set only when the value is not empty. */
  method ReadReasoning(judgment: Judgment, line: string) returns (next: Judgment)
    requires ':' in line
    ensures next == Apply(judgment, ReasoningEffect(line))
  {
    next := judgment;
    var reasoning := ValueAfterColon(line);
    if reasoning != [] {
      next := next.(reasoning := reasoning);
    }
  }

  /** `extract_judgment`: the loop over the response's lines, overwriting fields of the judgment. */
  method ExtractJudgment(response: Option<string>, parseFloat: string -> Option<Float>) returns (judgment: Judgment)
    ensures judgment == ParsedJudgment(response, parseFloat)
  {
    if IsEmptyResponse(response) {
      return Judgment(Insufficient, 0.0, "LLM returned empty response", None);
    }
    var lines := Split(response.value, '\n');
    ghost var effects := Effects(lines, parseFloat);
    judgment := Judgment(Insufficient, 0.0, response.value, None);
    var i := 0;
    while i < |lines|
      invariant 0 <= i <= |lines|
      invariant judgment == ApplyAll(InitialJudgment(response.value), effects[..i])
    {
      judgment := ReadLine(judgment, lines[i], parseFloat);
      EffectsAt(lines, parseFloat, i);
      ApplyAllStep(InitialJudgment(response.value), effects, i);
      i := i + 1;
    }
    assert effects[..|lines|] == effects;
  }

  lemma ApplyAllStep(init: Judgment, effects: seq<LineEffect>, i: nat)
    requires i < |effects|
    ensures ApplyAll(init, effects[..i + 1]) == Apply(ApplyAll(init, effects[..i]), effects[i])
  {
    assert effects[..i + 1][..i] == effects[..i];
  }

  /** The verdict an effect sets, if it sets one. */
  function VerdictSet(e: LineEffect): Option<Verdict>
  {
    if e.SetVerdict? then Some(e.verdict) else None
  }

  /** The confidence an effect sets, if it sets one. */
  function ConfidenceSet(e: LineEffect): Option<real>
  {
    if e.SetConfidence? then Some(e.confidence) else None
  }

  /** The reasoning an effect sets, if it sets one. */
  function ReasoningSet(e: LineEffect): Option<string>
  {
    if e.SetReasoning? then Some(e.reasoning) else None
  }

  /** The verdict is the one set last, or the starting verdict if no line sets one. */
  lemma {:induction false} LastVerdictWins(init: Judgment, effects: seq<LineEffect>)
    ensures (forall i :: 0 <= i < |effects| ==> VerdictSet(effects[i]).None?) ==> ApplyAll(init, effects).verdict == init.verdict
    ensures forall i :: 0 <= i < |effects| && VerdictSet(effects[i]).Some?
              && (forall k :: i < k < |effects| ==> VerdictSet(effects[k]).None?)
              ==> ApplyAll(init, effects).verdict == VerdictSet(effects[i]).value
  {
    if effects != [] {
      var prefix := effects[..|effects| - 1];
      var last := |effects| - 1;
      LastVerdictWins(init, prefix);
      assert ApplyAll(init, effects) == Apply(ApplyAll(init, prefix), effects[last]);
      forall i | 0 <= i < |effects| && VerdictSet(effects[i]).Some?
          && (forall k :: i < k < |effects| ==> VerdictSet(effects[k]).None?)
        ensures ApplyAll(init, effects).verdict == VerdictSet(effects[i]).value
      {
        if i < last {
          assert VerdictSet(effects[last]).None?;
          assert prefix[i] == effects[i];
          forall k | i < k < |prefix|
            ensures VerdictSet(prefix[k]).None?
          {
            assert prefix[k] == effects[k];
          }
        }
      }
      if forall i :: 0 <= i < |effects| ==> VerdictSet(effects[i]).None? {
        forall k | 0 <= k < |prefix|
          ensures VerdictSet(prefix[k]).None?
        {
          assert prefix[k] == effects[k];
        }
      }
    }
  }

  /** The confidence is the one set last, or the starting confidence if no line sets one. */
  lemma {:induction false} LastConfidenceWins(init: Judgment, effects: seq<LineEffect>)
    ensures (forall i :: 0 <= i < |effects| ==> ConfidenceSet(effects[i]).None?) ==> ApplyAll(init, effects).confidence == init.confidence
    ensures forall i :: 0 <= i < |effects| && ConfidenceSet(effects[i]).Some?
              && (forall k :: i < k < |effects| ==> ConfidenceSet(effects[k]).None?)
              ==> ApplyAll(init, effects).confidence == ConfidenceSet(effects[i]).value
  {
    if effects != [] {
      var prefix := effects[..|effects| - 1];
      var last := |effects| - 1;
      LastConfidenceWins(init, prefix);
      assert ApplyAll(init, effects) == Apply(ApplyAll(init, prefix), effects[last]);
      forall i | 0 <= i < |effects| && ConfidenceSet(effects[i]).Some?
          && (forall k :: i < k < |effects| ==> ConfidenceSet(effects[k]).None?)
        ensures ApplyAll(init, effects).confidence == ConfidenceSet(effects[i]).value
      {
        if i < last {
          assert ConfidenceSet(effects[last]).None?;
          assert prefix[i] == effects[i];
          forall k | i < k < |prefix|
            ensures ConfidenceSet(prefix[k]).None?
          {
            assert prefix[k] == effects[k];
          }
        }
      }
      if forall i :: 0 <= i < |effects| ==> ConfidenceSet(effects[i]).None? {
        forall k | 0 <= k < |prefix|
          ensures ConfidenceSet(prefix[k]).None?
        {
          assert prefix[k] == effects[k];
        }
      }
    }
  }

  /** The reasoning is the one set last, or the starting reasoning if no line sets one. */
  lemma {:induction false} LastReasoningWins(init: Judgment, effects: seq<LineEffect>)
    ensures (forall i :: 0 <= i < |effects| ==> ReasoningSet(effects[i]).None?) ==> ApplyAll(init, effects).reasoning == init.reasoning
    ensures forall i :: 0 <= i < |effects| && ReasoningSet(effects[i]).Some?
              && (forall k :: i < k < |effects| ==> ReasoningSet(effects[k]).None?)
              ==> ApplyAll(init, effects).reasoning == ReasoningSet(effects[i]).value
  {
    if effects != [] {
      var prefix := effects[..|effects| - 1];
      var last := |effects| - 1;
      LastReasoningWins(init, prefix);
      assert ApplyAll(init, effects) == Apply(ApplyAll(init, prefix), effects[last]);
      forall i | 0 <= i < |effects| && ReasoningSet(effects[i]).Some?
          && (forall k :: i < k < |effects| ==> ReasoningSet(effects[k]).None?)
        ensures ApplyAll(init, effects).reasoning == ReasoningSet(effects[i]).value
      {
        if i < last {
          assert ReasoningSet(effects[last]).None?;
          assert prefix[i] == effects[i];
          forall k | i < k < |prefix|
            ensures ReasoningSet(prefix[k]).None?
          {
            assert prefix[k] == effects[k];
          }
        }
      }
      if forall i :: 0 <= i < |effects| ==> ReasoningSet(effects[i]).None? {
        forall k | 0 <= k < |prefix|
          ensures ReasoningSet(prefix[k]).None?
        {
          assert prefix[k] == effects[k];
        }
      }
    }
  }

  /**
   * For a non-empty response whose '\n'-separated lines have the effects
   * `effects`: the verdict defaults to INSUFFICIENT and is the one set by the last
   * line that sets one.
   */
  lemma ParsedVerdict(response: string, parseFloat: string -> Option<Float>, effects: seq<LineEffect>)
    requires response != []
    requires effects == Effects(Split(response, '\n'), parseFloat)
    ensures (forall i :: 0 <= i < |effects| ==> VerdictSet(effects[i]).None?)
            ==> ParsedJudgment(Some(response), parseFloat).verdict == Insufficient
    ensures forall i :: 0 <= i < |effects| && VerdictSet(effects[i]).Some?
              && (forall k :: i < k < |effects| ==> VerdictSet(effects[k]).None?)
              ==> ParsedJudgment(Some(response), parseFloat).verdict == VerdictSet(effects[i]).value
  {
    var init := InitialJudgment(response);
    assert ParsedJudgment(Some(response), parseFloat) == ApplyAll(init, effects);
    LastVerdictWins(init, effects);
  }

  /**
   * For a non-empty response whose '\n'-separated lines have the effects
   * `effects`: the confidence defaults to 0.0 and is the one set by the last
   * line that sets one.
   */
  lemma ParsedConfidence(response: string, parseFloat: string -> Option<Float>, effects: seq<LineEffect>)
    requires response != []
    requires effects == Effects(Split(response, '\n'), parseFloat)
    ensures (forall i :: 0 <= i < |effects| ==> ConfidenceSet(effects[i]).None?)
            ==> ParsedJudgment(Some(response), parseFloat).confidence == 0.0
    ensures forall i :: 0 <= i < |effects| && ConfidenceSet(effects[i]).Some?
              && (forall k :: i < k < |effects| ==> ConfidenceSet(effects[k]).None?)
              ==> ParsedJudgment(Some(response), parseFloat).confidence == ConfidenceSet(effects[i]).value
  {
    var init := InitialJudgment(response);
    assert ParsedJudgment(Some(response), parseFloat) == ApplyAll(init, effects);
    LastConfidenceWins(init, effects);
  }

  /**
   * For a non-empty response whose '\n'-separated lines have the effects
   * `effects`: the reasoning defaults to the whole response and is the one set by the last
   * line that sets one.
   */
  lemma ParsedReasoning(response: string, parseFloat: string -> Option<Float>, effects: seq<LineEffect>)
    requires response != []
    requires effects == Effects(Split(response, '\n'), parseFloat)
    ensures (forall i :: 0 <= i < |effects| ==> ReasoningSet(effects[i]).None?)
            ==> ParsedJudgment(Some(response), parseFloat).reasoning == response
    ensures forall i :: 0 <= i < |effects| && ReasoningSet(effects[i]).Some?
              && (forall k :: i < k < |effects| ==> ReasoningSet(effects[k]).None?)
              ==> ParsedJudgment(Some(response), parseFloat).reasoning == ReasoningSet(effects[i]).value
  {
    var init := InitialJudgment(response);
    assert ParsedJudgment(Some(response), parseFloat) == ApplyAll(init, effects);
    LastReasoningWins(init, effects);
  }

  // ---------------------------------------------------------------------------
  // The part of `analyze_claim` the prosecutor and defense share
  // ---------------------------------------------------------------------------

  /** At most this many chunk ids are recorded as `evidence_used`. */
  const EvidenceUsedLimit: nat := 5

  /** `[e['chunk_id'] for e in evidence]`. */
  function ChunkIds(evidence: seq<Evidence>): (ids: seq<string>)
    ensures |ids| == |evidence|
    ensures forall i :: 0 <= i < |evidence| ==> ids[i] == evidence[i].chunk.chunkId
  {
    seq(|evidence|, i requires 0 <= i < |evidence| => evidence[i].chunk.chunkId)
  }

  /** The judgment an agent returns without consulting the model when no evidence was retrieved. */
  function NoEvidenceJudgment(): Judgment
  {
    Judgment(Insufficient, 0.0, "No evidence available for analysis", Some([]))
  }

  /** The judgment an agent returns when the model produced nothing. */
  function CallFailedJudgment(): Judgment
  {
    Judgment(Insufficient, 0.0, "LLM call failed", Some([]))
  }

  /**
   * One call to the model with the role's prompt and task type, then the parsed
   * judgment with the first five evidence chunk ids attached; the failed-call
   * judgment when the model returned nothing.
   */
  function Consult(env: Env, task: TaskType, prompt: Prompt, evidence: seq<Evidence>): (r: Reply)
    ensures r.requests == [Request(prompt, task)]
    ensures ConfidenceInRange(r.judgment)
    ensures IsEmptyResponse(env.generate(prompt, task)) ==> r.judgment == CallFailedJudgment()
    ensures !IsEmptyResponse(env.generate(prompt, task)) ==>
      var parsed := ParsedJudgment(env.generate(prompt, task), env.parseFloat);
      && r.judgment.verdict == parsed.verdict
      && r.judgment.confidence == parsed.confidence
      && r.judgment.reasoning == parsed.reasoning
      && r.judgment.evidenceUsed == Some(ChunkIds(Take(evidence, EvidenceUsedLimit)))
  {
    var response := env.generate(prompt, task);
    var judgment :=
      if IsEmptyResponse(response) then CallFailedJudgment()
      else ParsedJudgment(response, env.parseFloat).(evidenceUsed := Some(ChunkIds(Take(evidence, EvidenceUsedLimit))));
    Reply(judgment, [Request(prompt, task)])
  }

  /**
   * When the model answered, `evidence_used` lists the chunk ids of the first
   * min(5, |evidence|) chunks, in evidence order.
   */
  lemma ConsultRecordsFirstFive(env: Env, task: TaskType, prompt: Prompt, evidence: seq<Evidence>)
    requires !IsEmptyResponse(env.generate(prompt, task))
    ensures var used := Consult(env, task, prompt, evidence).judgment.evidenceUsed;
      && used.Some?
      && |used.value| == Min(EvidenceUsedLimit, |evidence|)
      && forall i :: 0 <= i < |used.value| ==> used.value[i] == evidence[i].chunk.chunkId
  {
    var shown := Take(evidence, EvidenceUsedLimit);
    assert forall i :: 0 <= i < |shown| ==> shown[i] == evidence[i];
  }

  /** A prompt that embeds two texts between fixed pieces of wording. */
  function Framed(head: string, first: string, middle: string, second: string, tail: string): string
  {
    head + first + middle + second + tail
  }

  /** A framed prompt shows both embedded texts. */
  lemma FramedShows(head: string, first: string, middle: string, second: string, tail: string)
    ensures Contains(Framed(head, first, middle, second, tail), first)
    ensures Contains(Framed(head, first, middle, second, tail), second)
  {
    assert Framed(head, first, middle, second, tail) == head + first + (middle + second + tail);
    ContainsInside(head, first, middle + second + tail);
    ContainsInside(head + first + middle, second, tail);
  }
}
