/**
 * One sample of the inference script: the keyword call into the orchestrator, the scorer on
 * its records, and the catch-all that turns any raised error into a prediction of 0.
 */
module Inference {
  import opened Records
  import opened Scorer
  import opened Debate

  /** A keyword argument `name=value` of a Python call. */
  datatype Keyword = Keyword(name: string, value: string)

  /** Why Python refuses to bind a call's keyword arguments: the `TypeError` it raises. */
  datatype CallError =
    | UnexpectedKeyword(name: string)
    | MultipleValues(name: string)
    | MissingArgument(name: string)

  /** The outcome of binding a call's arguments to a function's parameters. */
  datatype Binding = Bound(values: map<string, string>) | Refused(error: CallError)

  /** The parameters of `deliberate_on_backstory` after `self`; none has a default. */
  const DeliberateParameters: seq<string> := ["backstory", "book_id"]

  /**
   * Python's binding of keyword arguments, taken in call order, to parameters without defaults,
   * once `bound` holds what the earlier arguments set.
   */
  function BindFrom(params: seq<string>, args: seq<Keyword>, bound: map<string, string>): (r: Binding)
    ensures r.Bound? ==> forall k :: 0 <= k < |params| ==> params[k] in r.values
    ensures r.Bound? ==> forall n :: n in bound ==> n in r.values && r.values[n] == bound[n]
    ensures r.Bound? ==> forall i :: 0 <= i < |args| ==> args[i].name in r.values
    decreases |args|
  {
    if args == [] then
      if forall k :: 0 <= k < |params| ==> params[k] in bound then Bound(bound)
      else Refused(MissingArgument(FirstUnbound(params, bound)))
    else if args[0].name !in params then Refused(UnexpectedKeyword(args[0].name))
    else if args[0].name in bound then Refused(MultipleValues(args[0].name))
    else BindFrom(params, args[1..], bound[args[0].name := args[0].value])
  }

  /** The first parameter no argument has set. */
  function FirstUnbound(params: seq<string>, bound: map<string, string>): string
  {
    if params == [] then [] else if params[0] !in bound then params[0] else FirstUnbound(params[1..], bound)
  }

  function Bind(params: seq<string>, args: seq<Keyword>): (r: Binding)
    ensures r.Bound? ==> forall k :: 0 <= k < |params| ==> params[k] in r.values
  {
    BindFrom(params, args, map[])
  }

  /** A keyword that names no parameter makes the call raise, whatever the other arguments are. */
  lemma {:induction false} UnknownKeywordRefused(params: seq<string>, args: seq<Keyword>, bound: map<string, string>, i: nat)
    requires i < |args| && args[i].name !in params
    ensures BindFrom(params, args, bound).Refused?
    decreases |args|
  {
    if i > 0 && args[0].name in params && args[0].name !in bound {
      assert args[1..][i - 1] == args[i];
      UnknownKeywordRefused(params, args[1..], bound[args[0].name := args[0].value], i - 1);
    }
  }

  /** When a call binds, every parameter a keyword names holds that keyword's value. */
  lemma {:induction false} BoundValues(params: seq<string>, args: seq<Keyword>, bound: map<string, string>)
    requires BindFrom(params, args, bound).Bound?
    ensures forall i :: 0 <= i < |args| ==> BindFrom(params, args, bound).values[args[i].name] == args[i].value
    decreases |args|
  {
    if args != [] {
      var rest := args[1..];
      var bound' := bound[args[0].name := args[0].value];
      assert BindFrom(params, args, bound) == BindFrom(params, rest, bound');
      BoundValues(params, rest, bound');
      forall i | 0 < i < |args|
        ensures BindFrom(params, args, bound).values[args[i].name] == args[i].value
      {
        assert args[i] == rest[i - 1];
      }
    }
  }

  /** A row of the validation split. */
  datatype Sample = Sample(id: string, bookName: string, character: string, content: string)

  /** What a sample's result row says: the scorer's rule, or the error caught instead. */
  datatype Rationale = Scored(reason: Reason) | Failed(error: CallError)

  /** One row of `results`. */
  datatype SampleResult = SampleResult(id: string, bookName: string, character: string, prediction: int, rationale: Rationale)

  /**
   * The body of the script's loop for one sample, for a given keyword call into
   * `deliberate_on_backstory`: score its records, or record prediction 0 when the call raises.
   */
  function InferSample(o: Orchestrator, scoring: ScoringConfig, sample: Sample, args: seq<Keyword>): (r: SampleResult)
    ensures r.id == sample.id && r.bookName == sample.bookName && r.character == sample.character
    ensures r.prediction == 0 || r.prediction == 1
  {
    match Bind(DeliberateParameters, args)
    case Refused(error) =>
      SampleResult(sample.id, sample.bookName, sample.character, 0, Failed(error))
    case Bound(values) =>
      assert DeliberateParameters[0] == "backstory" && DeliberateParameters[1] == "book_id";
      var deliberations := Deliberations(o, values["book_id"], Claims(o.env, values["backstory"], o.maxClaims));
      var score := ComputeScore(scoring, deliberations);
      SampleResult(sample.id, sample.bookName, sample.character, score.prediction, Scored(score.reason))
  }

  /** The call as the script writes it: `backstory=`, `book_name=`, `character=`. */
  function AsWrittenCall(sample: Sample): seq<Keyword>
  {
    [Keyword("backstory", sample.content), Keyword("book_name", sample.bookName), Keyword("character", sample.character)]
  }

  /** As written, the call never binds: every sample is scored 0 with the `TypeError` as its rationale. */
  lemma AsWrittenAlwaysFails(o: Orchestrator, scoring: ScoringConfig, sample: Sample)
    ensures InferSample(o, scoring, sample, AsWrittenCall(sample))
      == SampleResult(sample.id, sample.bookName, sample.character, 0, Failed(UnexpectedKeyword("book_name")))
  {
    var args := AsWrittenCall(sample);
    assert "book_name"[1] != "backstory"[1] && "book_name"[1] != "book_id"[5];
    UnknownKeywordRefused(DeliberateParameters, args, map[], 1);
    var rest := args[1..];
    assert rest[0] == Keyword("book_name", sample.bookName);
    assert Bind(DeliberateParameters, args) == BindFrom(DeliberateParameters, rest, map["backstory" := sample.content]);
  }

  /** The evidently intended call: the row's book name as `book_id`. */
  function CorrectedCall(sample: Sample): seq<Keyword>
  {
    [Keyword("backstory", sample.content), Keyword("book_id", sample.bookName)]
  }

  /** Corrected, every sample is scored on the debate over its own backstory and book. */
  lemma CorrectedCallScores(o: Orchestrator, scoring: ScoringConfig, sample: Sample)
    ensures InferSample(o, scoring, sample, CorrectedCall(sample)).prediction
      == ComputeScore(scoring, Deliberations(o, sample.bookName, Claims(o.env, sample.content, o.maxClaims))).prediction
    ensures InferSample(o, scoring, sample, CorrectedCall(sample)).rationale
      == Scored(ComputeScore(scoring, Deliberations(o, sample.bookName, Claims(o.env, sample.content, o.maxClaims))).reason)
  {
    var args := CorrectedCall(sample);
    var first := map["backstory" := sample.content];
    var bound := first["book_id" := sample.bookName];
    assert "book_id"[1] != "backstory"[1];
    assert Bind(DeliberateParameters, args) == BindFrom(DeliberateParameters, args[1..], first);
    assert args[1..][0] == Keyword("book_id", sample.bookName) && args[1..][1..] == [];
    assert BindFrom(DeliberateParameters, args[1..], first) == BindFrom(DeliberateParameters, [], bound);
    assert BindFrom(DeliberateParameters, [], bound) == Bound(bound);
  }
}
