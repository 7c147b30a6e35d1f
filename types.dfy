/**
 * The records passed between the pipeline's agents, the critic's verdict with
 * its two derived properties, and the judge's labels, score table and
 * validated score records.
 */
module Types {
  import opened Base
  import opened Strings
  import opened Json

  datatype DiagramType = Methodology | StatisticalPlot

  /** The prompt template an agent uses: the diagram prompt for methodology figures, the plot prompt otherwise. */
  function PromptType(diagramType: DiagramType): (r: string)
    ensures r == "diagram" <==> diagramType == Methodology
    ensures r == "plot" <==> diagramType == StatisticalPlot
  {
    match diagramType
    case Methodology => "diagram"
    case StatisticalPlot => assert |"diagram"| != |"plot"|; "plot"
  }

  /** What a caller asks the pipeline to draw; `rawData` is a JSON dict or absent. */
  datatype GenerationInput = GenerationInput(
    sourceContext: string,
    communicativeIntent: string,
    diagramType: DiagramType,
    rawData: Option<Json>)

  /** The constructor with only the two required fields given. */
  function NewGenerationInput(sourceContext: string, communicativeIntent: string): (g: GenerationInput)
    ensures g.diagramType == Methodology && g.rawData == None
    ensures g.sourceContext == sourceContext && g.communicativeIntent == communicativeIntent
  {
    GenerationInput(sourceContext, communicativeIntent, Methodology, None)
  }

  /** One entry of the curated reference set. */
  datatype ReferenceExample = ReferenceExample(
    id: string,
    sourceContext: string,
    caption: string,
    imagePath: string,
    category: Option<string>)

  /** The critic's verdict on one rendered image. */
  datatype CritiqueResult = CritiqueResult(suggestions: seq<string>, revisedDescription: Option<string>)

  const NoIssuesSummary := "No issues found. Image is publication-ready."

  /**
   * A critique asks for a revision exactly when it has a suggestion; one
   * that does not is summarised as publication-ready, and one that does
   * leads its summary with its first suggestion.
   */
  predicate NeedsRevision(c: CritiqueResult)
    ensures !NeedsRevision(c) ==> Summary(c) == NoIssuesSummary
    ensures NeedsRevision(c) ==> StartsWith(Summary(c), c.suggestions[0])
  {
    |c.suggestions| > 0
  }

  /** The one-line summary logged for a critique: up to three suggestions. */
  function Summary(c: CritiqueResult): (r: string)
    ensures c.suggestions == [] ==> r == NoIssuesSummary
    ensures c.suggestions != [] ==> r == Join("; ", c.suggestions[..Min(3, |c.suggestions|)])
  {
    if c.suggestions == [] then NoIssuesSummary else Join("; ", Take(c.suggestions, 3))
  }

  /** Each of the first three suggestions appears in the summary, and nothing longer is added. */
  lemma {:induction false} SummaryShowsFirstThree(c: CritiqueResult)
    requires NeedsRevision(c)
    ensures forall i :: 0 <= i < Min(3, |c.suggestions|) ==> Contains(Summary(c), c.suggestions[i])
    ensures |Summary(c)| == SumLengths(c.suggestions[..Min(3, |c.suggestions|)]) + 2 * (Min(3, |c.suggestions|) - 1)
  {
    var shown := c.suggestions[..Min(3, |c.suggestions|)];
    forall i | 0 <= i < |shown|
      ensures Contains(Summary(c), c.suggestions[i])
    {
      JoinContainsPart("; ", shown, i);
    }
    JoinLength("; ", shown);
  }

  /** One refinement round: the description rendered, the image and its critique. */
  datatype IterationRecord = IterationRecord(
    iteration: int,
    description: string,
    imagePath: string,
    critique: Option<CritiqueResult>)

  /** The run metadata the model keeps; identifiers, timestamps and provider names are left out. */
  datatype RunMetadata = RunMetadata(refinementIterations: int)

  datatype GenerationOutput = GenerationOutput(
    imagePath: string,
    description: string,
    iterations: seq<IterationRecord>,
    metadata: RunMetadata)

  const ValidWinners: set<string> := {"Model", "Human", "Both are good", "Both are bad"}

  const WinnerScoreMap: map<string, real> :=
    map["Model" := 100.0, "Human" := 0.0, "Both are good" := 50.0, "Both are bad" := 50.0]

  /** The score table is defined exactly on the four labels. */
  lemma ScoreMapKeys()
    ensures WinnerScoreMap.Keys == ValidWinners
  {
  }

  /** `WINNER_SCORE_MAP.get(w, 50.0)`. */
  function ScoreOf(w: string): (r: real)
    ensures 0.0 <= r <= 100.0
    ensures r == 100.0 <==> w == "Model"
    ensures r == 0.0 <==> w == "Human"
    ensures w != "Model" && w != "Human" ==> r == 50.0
  {
    if w in WinnerScoreMap then WinnerScoreMap[w] else 50.0
  }

  /** One dimension of a comparative evaluation. */
  datatype DimensionResult = DimensionResult(winner: string, score: real, reasoning: string)

  /** Construction with pydantic's bounds check on `score`. */
  function NewDimensionResult(winner: string, score: real, reasoning: string): (r: Result<DimensionResult>)
    ensures r.Ok? <==> 0.0 <= score <= 100.0
    ensures r.Ok? ==> r.value == DimensionResult(winner, score, reasoning)
    ensures r.Err? ==> r.error.kind == "ValidationError"
  {
    if 0.0 <= score <= 100.0 then Ok(DimensionResult(winner, score, reasoning))
    else Err(Exception("ValidationError", "score"))
  }

  /** The four dimension results and their hierarchical aggregate. */
  datatype EvaluationScore = EvaluationScore(
    faithfulness: DimensionResult,
    conciseness: DimensionResult,
    readability: DimensionResult,
    aesthetics: DimensionResult,
    overallWinner: string,
    overallScore: real)

  /** Construction with pydantic's bounds check on `overall_score`. */
  function NewEvaluationScore(
    faithfulness: DimensionResult, conciseness: DimensionResult,
    readability: DimensionResult, aesthetics: DimensionResult,
    overallWinner: string, overallScore: real): (r: Result<EvaluationScore>)
    ensures r.Ok? <==> 0.0 <= overallScore <= 100.0
    ensures r.Ok? ==> r.value == EvaluationScore(faithfulness, conciseness, readability, aesthetics, overallWinner, overallScore)
    ensures r.Err? ==> r.error.kind == "ValidationError"
  {
    if 0.0 <= overallScore <= 100.0 then
      Ok(EvaluationScore(faithfulness, conciseness, readability, aesthetics, overallWinner, overallScore))
    else Err(Exception("ValidationError", "overall_score"))
  }
}
