/**
 * The VLM judge: four comparative verdicts, one per dimension, each parsed
 * from a remote answer, combined by a hierarchical rule into an overall
 * winner and its score.
 */
module Judge {
  import opened Base
  import opened Json
  import opened Types

  /** The dimensions, in the order they are queried (and exported). */
  const Dimensions: seq<string> := ["faithfulness", "conciseness", "readability", "aesthetics"]

  const FallbackReasoning := "Could not parse evaluation response."

  /** The side a label favours; both tie labels favour neither. */
  datatype Side = ModelSide | HumanSide | Tie

  function WinnerToSide(w: string): (s: Side)
    ensures s == ModelSide <==> w == "Model"
    ensures s == HumanSide <==> w == "Human"
  {
    if w == "Model" then ModelSide else if w == "Human" then HumanSide else Tie
  }

  /** The label the aggregation returns for a decisive side. */
  function SideLabel(s: Side): string {
    match s
    case ModelSide => "Model"
    case HumanSide => "Human"
    case Tie => "Both are good"
  }

  /** How many of the two labels favour side `s`. */
  function Votes(w1: string, w2: string, s: Side): nat {
    (if WinnerToSide(w1) == s then 1 else 0) + (if WinnerToSide(w2) == s then 1 else 0)
  }

  /**
   * Two verdicts are decisive for a side when at least one favours it and
   * neither favours the other side; a split or two ties give `None`.
   */
  function AggregatePair(w1: string, w2: string): (r: Option<Side>)
    ensures r.Some? ==> r.value != Tie
    ensures r == Some(ModelSide) <==> Votes(w1, w2, ModelSide) >= 1 && Votes(w1, w2, HumanSide) == 0
    ensures r == Some(HumanSide) <==> Votes(w1, w2, HumanSide) >= 1 && Votes(w1, w2, ModelSide) == 0
  {
    var s1 := WinnerToSide(w1);
    var s2 := WinnerToSide(w2);
    if s1 == s2 && s1 != Tie then Some(s1)
    else if s1 != Tie && s2 == Tie then Some(s1)
    else if s2 != Tie && s1 == Tie then Some(s2)
    else None
  }

  /** The order of the two verdicts does not matter. */
  lemma AggregatePairSymmetric(w1: string, w2: string)
    ensures AggregatePair(w1, w2) == AggregatePair(w2, w1)
  {
  }

  /**
   * The hierarchical rule on the four labels: the primary pair (faithfulness,
   * readability) decides if it can, then the secondary pair (conciseness,
   * aesthetics), and otherwise the result is a tie.
   */
  function Overall(faithfulness: string, conciseness: string, readability: string, aesthetics: string): (r: string)
    ensures r in {"Model", "Human", "Both are good"}
  {
    match AggregatePair(faithfulness, readability)
    case Some(s) => SideLabel(s)
    case None =>
      match AggregatePair(conciseness, aesthetics)
      case Some(s) => SideLabel(s)
      case None => "Both are good"
  }

  /** A decisive primary pair wins whatever the secondary pair says. */
  lemma PrimaryPrecedence(f: string, r: string, c1: string, a1: string, c2: string, a2: string)
    requires AggregatePair(f, r).Some?
    ensures Overall(f, c1, r, a1) == Overall(f, c2, r, a2) == SideLabel(AggregatePair(f, r).value)
  {
  }

  /** An undecided primary pair hands the decision to the secondary pair. */
  lemma SecondaryFallthrough(f: string, c: string, r: string, a: string)
    requires AggregatePair(f, r).None? && AggregatePair(c, a).Some?
    ensures Overall(f, c, r, a) == SideLabel(AggregatePair(c, a).value)
  {
  }

  /** With both pairs undecided the result is a tie; it is never "Both are bad". */
  lemma CompleteTie(f: string, c: string, r: string, a: string)
    ensures Overall(f, c, r, a) == "Both are good" <==> AggregatePair(f, r).None? && AggregatePair(c, a).None?
    ensures Overall(f, c, r, a) != "Both are bad"
  {
  }

  /** Exchanging the roles of the generated and the human image. */
  function Swap(w: string): string {
    if w == "Model" then "Human" else if w == "Human" then "Model" else w
  }

  /** The rule favours neither side: swapping every label swaps the result. */
  lemma OverallSymmetric(f: string, c: string, r: string, a: string)
    ensures Overall(Swap(f), Swap(c), Swap(r), Swap(a)) == Swap(Overall(f, c, r, a))
  {
  }

  /** The overall score is 100, 0 or 50, following the overall label. */
  lemma OverallScore(f: string, c: string, r: string, a: string)
    ensures var w := Overall(f, c, r, a);
      ScoreOf(w) == (if w == "Model" then 100.0 else if w == "Human" then 0.0 else 50.0)
  {
  }

  /** The result recorded when an answer cannot be used. */
  function FallbackResult(): DimensionResult {
    DimensionResult("Both are good", 50.0, FallbackReasoning)
  }

  /**
   * One dimension's answer. Malformed JSON, an unhashable `winner` and a
   * `comparison_reasoning` that is not a string (pydantic rejects it) all give
   * the fallback; any other winner outside the four labels (a string, null,
   * a number or a boolean) becomes "Both are good" with the reasoning kept; a decoded
   * value that is not an object has no `get`, and that error escapes.
   */
  function ParseResult(response: Decoded): (r: Result<DimensionResult>)
    ensures response.Malformed? ==> r == Ok(FallbackResult())
    ensures r.Err? <==> response.Parsed? && !response.value.JObject?
    ensures r.Err? ==> r.error.kind == "AttributeError"
    ensures r.Ok? ==> r.value.winner in ValidWinners && NewDimensionResult(r.value.winner, r.value.score, r.value.reasoning) == r
    ensures r.Ok? ==> r.value.score == ScoreOf(r.value.winner)
    ensures response.Parsed? && response.value.JObject? ==>
      var fields := response.value.fields;
      match (GetOr(fields, "winner", JString("Both are good")), GetOr(fields, "comparison_reasoning", JString("")))
      case (JString(w), JString(reason)) =>
        r == Ok(if w in ValidWinners then DimensionResult(w, ScoreOf(w), reason) else DimensionResult("Both are good", 50.0, reason))
      case (w, JString(reason)) =>
        r == Ok(if !Hashable(w) then FallbackResult() else DimensionResult("Both are good", 50.0, reason))
      case (_, _) => r == Ok(FallbackResult())
  {
    match response
    case Malformed => Ok(FallbackResult())
    case Parsed(data) =>
      if !data.JObject? then Err(Exception("AttributeError", "object has no attribute 'get'"))
      else
        var winner := GetOr(data.fields, "winner", JString("Both are good"));
        var reasoning := GetOr(data.fields, "comparison_reasoning", JString(""));
        if !Hashable(winner) || !reasoning.JString? then Ok(FallbackResult())
        else
          var w := if winner.JString? && winner.s in ValidWinners then winner.s else "Both are good";
          Ok(DimensionResult(w, ScoreOf(w), reasoning.s))
  }

  /** `_hierarchical_aggregate` reads the four results by dimension name. */
  function HierarchicalAggregate(results: map<string, DimensionResult>): (r: string)
    requires forall d :: d in Dimensions ==> d in results
    ensures r in {"Model", "Human", "Both are good"}
  {
    Overall(results[Dimensions[0]].winner, results[Dimensions[1]].winner,
            results[Dimensions[2]].winner, results[Dimensions[3]].winner)
  }

  /** One request to the remote judge: the dimension asked and the images sent, in order. */
  datatype Query = Query(dimension: string, images: seq<string>)

  /** The evaluation as a value: the four parsed answers and their aggregate. */
  function Evaluation(answer: nat -> Decoded): Result<EvaluationScore> {
    Combine(ParsedAnswers(answer))
  }

  /** The four answers, parsed, in dimension order. */
  function ParsedAnswers(answer: nat -> Decoded): (r: seq<Result<DimensionResult>>)
    ensures |r| == 4 && forall k :: 0 <= k < 4 ==> r[k] == ParseResult(answer(k))
  {
    seq(4, k requires 0 <= k < 4 => ParseResult(answer(k)))
  }

  /** The four parsed answers combined: the first error, or the aggregate of the four results. */
  function Combine(parsed: seq<Result<DimensionResult>>): Result<EvaluationScore>
    requires |parsed| == 4
  {
    match (parsed[0], parsed[1], parsed[2], parsed[3])
    case (Ok(f), Ok(c), Ok(r), Ok(a)) =>
      var w := Overall(f.winner, c.winner, r.winner, a.winner);
      NewEvaluationScore(f, c, r, a, w, ScoreOf(w))
    case (Err(e), _, _, _) => Err(e)
    case (_, Err(e), _, _) => Err(e)
    case (_, _, Err(e), _) => Err(e)
    case (_, _, _, Err(e)) => Err(e)
  }

  /** An evaluation that completes is well formed: labels match scores and the overall is never "Both are bad". */
  lemma {:induction false} EvaluationConsistent(answer: nat -> Decoded)
    requires Evaluation(answer).Ok?
    ensures var e := Evaluation(answer).value;
      && e.overallWinner in {"Model", "Human", "Both are good"}
      && e.overallScore == ScoreOf(e.overallWinner)
      && e.faithfulness.score == ScoreOf(e.faithfulness.winner)
      && e.conciseness.score == ScoreOf(e.conciseness.winner)
      && e.readability.score == ScoreOf(e.readability.winner)
      && e.aesthetics.score == ScoreOf(e.aesthetics.winner)
  {
    var parsed := ParsedAnswers(answer);
    assert parsed[0].Ok? && parsed[1].Ok? && parsed[2].Ok? && parsed[3].Ok?;
  }

  /**
   * `evaluate`: one remote query per dimension, in order, each sending the
   * human reference first and the generated image second; `answer(i)` is the
   * judge's i-th answer. A parse error escapes and ends the loop.
   */
  method Evaluate(generatedImage: string, referenceImage: string, answer: nat -> Decoded)
    returns (r: Result<EvaluationScore>, queries: seq<Query>)
    ensures r == Evaluation(answer)
    ensures 1 <= |queries| <= |Dimensions|
    ensures r.Ok? ==> |queries| == |Dimensions|
    ensures forall i :: 0 <= i < |queries| ==> queries[i] == Query(Dimensions[i], [referenceImage, generatedImage])
  {
    var images := [referenceImage, generatedImage];
    var results: map<string, DimensionResult> := map[];
    queries := [];
    var i := 0;
    while i < |Dimensions|
      invariant 0 <= i <= |Dimensions|
      invariant |queries| == i
      invariant forall k :: 0 <= k < i ==> queries[k] == Query(Dimensions[k], images)
      invariant Recorded(results, answer, i)
    {
      var dim := Dimensions[i];
      queries := queries + [Query(dim, images)];
      var parsed := ParseResult(answer(i));
      if parsed.Err? {
        FirstError(answer, i);
        r := Err(parsed.error);
        return;
      }
      RecordOne(results, answer, i, parsed.value);
      results := results[dim := parsed.value];
      i := i + 1;
    }
    AllParsed(answer, results);
    var winner := HierarchicalAggregate(results);
    r := NewEvaluationScore(results[Dimensions[0]], results[Dimensions[1]], results[Dimensions[2]],
                            results[Dimensions[3]], winner, ScoreOf(winner));
  }

  /** The results of the first `i` dimensions are recorded under their names. */
  predicate Recorded(results: map<string, DimensionResult>, answer: nat -> Decoded, i: nat) {
    i <= |Dimensions| &&
    forall k :: 0 <= k < i ==> Dimensions[k] in results && Ok(results[Dimensions[k]]) == ParseResult(answer(k))
  }

  /** Recording the next dimension's result keeps the earlier ones. */
  lemma RecordOne(results: map<string, DimensionResult>, answer: nat -> Decoded, i: nat, v: DimensionResult)
    requires i < |Dimensions| && Recorded(results, answer, i) && ParseResult(answer(i)) == Ok(v)
    ensures Recorded(results[Dimensions[i] := v], answer, i + 1)
  {
    DimensionsDistinct();
  }

  /** The dimension names are distinct, so recording one result keeps the others. */
  lemma DimensionsDistinct()
    ensures forall j, k :: 0 <= j < k < |Dimensions| ==> Dimensions[j] != Dimensions[k]
  {
    assert Dimensions[0][0] == 'f' && Dimensions[1][0] == 'c' && Dimensions[2][0] == 'r' && Dimensions[3][0] == 'a';
  }

  /** An answer that cannot be parsed, after answers that could, is the evaluation's error. */
  lemma FirstError(answer: nat -> Decoded, i: nat)
    requires i < 4 && ParseResult(answer(i)).Err?
    requires forall k :: 0 <= k < i ==> ParseResult(answer(k)).Ok?
    ensures Evaluation(answer) == Err(ParseResult(answer(i)).error)
  {
    CombineFirstError(ParsedAnswers(answer), i);
  }

  lemma CombineFirstError(parsed: seq<Result<DimensionResult>>, i: nat)
    requires |parsed| == 4 && i < 4 && parsed[i].Err?
    requires forall k :: 0 <= k < i ==> parsed[k].Ok?
    ensures Combine(parsed) == Err(parsed[i].error)
  {
    assert i > 0 ==> parsed[0].Ok?;
    assert i > 1 ==> parsed[1].Ok?;
    assert i > 2 ==> parsed[2].Ok?;
  }

  /** With every answer parsed, the evaluation is built from the four results read by dimension name. */
  lemma AllParsed(answer: nat -> Decoded, results: map<string, DimensionResult>)
    requires Recorded(results, answer, |Dimensions|)
    ensures forall d :: d in Dimensions ==> d in results
    ensures Evaluation(answer) == NewEvaluationScore(results[Dimensions[0]], results[Dimensions[1]], results[Dimensions[2]],
      results[Dimensions[3]], HierarchicalAggregate(results), ScoreOf(HierarchicalAggregate(results)))
  {
    assert Dimensions[0] in results && Dimensions[1] in results && Dimensions[2] in results && Dimensions[3] in results;
  }
}
