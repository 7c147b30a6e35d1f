/**
 * The generation pipeline: three planning steps (retrieval, planning,
 * styling) followed by up to N rounds of rendering and critique, with a
 * numbered progress message before every step.
 *
 * The remote steps are parameters: the outcome of retrieval and of
 * planning, the stylist model's answer to a request, the image path the
 * visualizer produces for a round and a description, and the critic's raw
 * answer for a round, an image and a description. Each of the remote calls
 * may raise instead, and the exception then escapes `generate`.
 */
module Pipeline {
  import opened Base
  import opened Strings
  import opened Json
  import opened Types
  import Critic
  import Stylist

  /** The visualizer: the image path it produces for a round and a description, or the exception it raises. */
  type Renderer = (nat, string) -> Result<string>

  /**
   * The critic's remote call for a round, an image and a description: its
   * decoded answer, or the exception raised while loading the image or
   * asking the model.
   */
  type CriticCall = (nat, string, string) -> Result<Decoded>

  /** One progress message: its number, the total announced with it, and its text. */
  datatype Progress = Progress(step: nat, total: int, text: string)

  /** The message as the callback receives it, `[step/total] text`. */
  function Message(p: Progress): string {
    "[" + IntToString(p.step) + "/" + IntToString(p.total) + "] " + p.text
  }

  /** The guidelines the pipeline hands to the stylist for a diagram type. */
  function Guidelines(diagramType: DiagramType, methodology: string, plot: string): (r: string)
    ensures diagramType == Methodology ==> r == methodology
    ensures diagramType == StatisticalPlot ==> r == plot
  {
    if diagramType == Methodology then methodology else plot
  }

  /**
   * The guidelines the stylist ends up using. Its own guidelines are the
   * methodology ones, so a plot with empty plot guidelines is styled with
   * the methodology guidelines.
   */
  lemma {:induction false} EffectiveGuidelines(diagramType: DiagramType, methodology: string, plot: string)
    ensures var used := Stylist.StyleGuidelines(Some(Guidelines(diagramType, methodology, plot)), methodology);
      && (diagramType == Methodology ==> used == (if methodology != "" then methodology else Stylist.DefaultGuidelines))
      && (diagramType == StatisticalPlot ==>
            used == (if plot != "" then plot else if methodology != "" then methodology else Stylist.DefaultGuidelines))
  {
    var g := Guidelines(diagramType, methodology, plot);
    var used := Stylist.StyleGuidelines(Some(g), methodology);
    if g == "" {
      assert used == (if methodology != "" then methodology else Stylist.DefaultGuidelines);
    } else {
      assert used == g;
    }
  }

  /** A critique continues the loop when it has suggestions and a non-empty revised description. */
  predicate Continues(c: CritiqueResult) {
    NeedsRevision(c) && c.revisedDescription.Some? && c.revisedDescription.value != ""
  }

  /**
   * A refinement history: record k is round k + 1 and carries its critique;
   * round 1 renders `first`, and every round but the last continued, handing
   * its revised description to the next round.
   */
  predicate Chained(h: seq<IterationRecord>, first: string) {
    && (forall k :: 0 <= k < |h| ==> h[k].iteration == k + 1 && h[k].critique.Some?)
    && (|h| > 0 ==> h[0].description == first)
    && (forall k :: 0 <= k < |h| - 1 ==>
          Continues(h[k].critique.value) && h[k + 1].description == h[k].critique.value.revisedDescription.value)
  }

  /** The description being worked on after the rounds of `h`. */
  function Working(h: seq<IterationRecord>, first: string): string
    requires Chained(h, first)
  {
    if |h| == 0 then first
    else
      var c := h[|h| - 1].critique.value;
      if Continues(c) then c.revisedDescription.value else h[|h| - 1].description
  }

  /** A history grows by one round that renders the current working description. */
  lemma {:induction false} ChainedSnoc(h: seq<IterationRecord>, first: string, rec: IterationRecord)
    requires Chained(h, first)
    requires |h| == 0 || Continues(h[|h| - 1].critique.value)
    requires rec.iteration == |h| + 1 && rec.critique.Some? && rec.description == Working(h, first)
    ensures Chained(h + [rec], first)
  {
    var h' := h + [rec];
    forall k | 0 <= k < |h'| - 1
      ensures Continues(h'[k].critique.value) && h'[k + 1].description == h'[k].critique.value.revisedDescription.value
    {
      if k == |h| - 1 {
        assert h'[k + 1] == rec;
      } else {
        assert h'[k] == h[k] && h'[k + 1] == h[k + 1];
      }
    }
  }

  /** The critic's `run` for round k + 1: the remote failure, else the answer parsed. */
  function Critiqued(k: nat, image: string, description: string, critique: CriticCall): Result<CritiqueResult> {
    match critique(k + 1, image, description)
    case Err(e) => Err(e)
    case Ok(answer) => Critic.ParseResponse(answer)
  }

  /**
   * What round k + 1 yields for a description: the visualizer's exception,
   * else the critic's, else the record of the description, the image and
   * the critique.
   */
  function RoundValue(k: nat, description: string, render: Renderer, critique: CriticCall): Result<IterationRecord> {
    match render(k + 1, description)
    case Err(e) => Err(e)
    case Ok(image) =>
      match Critiqued(k, image, description, critique)
      case Err(e) => Err(e)
      case Ok(c) => Ok(IterationRecord(k + 1, description, image, Some(c)))
  }

  /** Record k + 1 holds the image the visualizer produced for its description and the critique parsed from the critic's answer. */
  predicate ProducedRecord(k: nat, rec: IterationRecord, render: Renderer, critique: CriticCall) {
    && rec.critique.Some?
    && render(k + 1, rec.description) == Ok(rec.imagePath)
    && Critiqued(k, rec.imagePath, rec.description, critique) == Ok(rec.critique.value)
  }

  /** Every record of `h` was produced by the remote steps for its round. */
  predicate Produced(h: seq<IterationRecord>, render: Renderer, critique: CriticCall) {
    forall k :: 0 <= k < |h| ==> ProducedRecord(k, h[k], render, critique)
  }

  /** Progress messages numbered 1, 2, ... in the order they were sent. */
  predicate Numbered(log: seq<Progress>) {
    forall k :: 0 <= k < |log| ==> log[k].step == k + 1
  }

  /**
   * `_progress`: the message is sent numbered one past the last one sent,
   * with the total announced at the time, so the log stays numbered.
   */
  method Announce(log0: seq<Progress>, total: int, msg: string) returns (log: seq<Progress>)
    ensures log == log0 + [Progress(|log0| + 1, total, msg)]
    ensures Numbered(log0) ==> Numbered(log)
  {
    log := log0 + [Progress(|log0| + 1, total, msg)];
  }

  /** What the refinement rounds leave behind: the history, the working description and the announced total. */
  datatype Rounds = Rounds(history: seq<IterationRecord>, current: string, total: int)

  /** A loop that stopped early: its last critique did not continue. */
  predicate Stopped(h: seq<IterationRecord>) {
    |h| > 0 && h[|h| - 1].critique.Some? && !Continues(h[|h| - 1].critique.value)
  }

  /**
   * One round: announce and render, then announce and critique. The record
   * is returned when both remote steps succeed.
   */
  method Round(
    k: nat, refinementIterations: int, description: string, total: int, log0: seq<Progress>,
    render: Renderer, critique: CriticCall)
    returns (r: Result<IterationRecord>, log: seq<Progress>)
    requires Numbered(log0)
    ensures Numbered(log) && |log| >= |log0| && log[..|log0|] == log0
    ensures forall j :: |log0| <= j < |log| ==> log[j].total == total
    ensures r.Ok? ==> |log| == |log0| + 2
    ensures r.Ok? ==> r.value.iteration == k + 1 && r.value.description == description
    ensures r.Ok? ==> ProducedRecord(k, r.value, render, critique)
    ensures r == RoundValue(k, description, render, critique)
    ensures |log| == |log0| + (if render(k + 1, description).Err? then 1 else 2)
  {
    var round := IntToString(k + 1) + "/" + IntToString(refinementIterations);
    log := Announce(log0, total, "Visualizer: rendering image (round " + round + ")...");
    var image := render(k + 1, description);
    if image.Err? {
      r := Err(image.error);
      return;
    }
    log := Announce(log, total, "Critic: evaluating result (round " + round + ")...");
    var answer := critique(k + 1, image.value, description);
    if answer.Err? {
      r := Err(answer.error);
      return;
    }
    var parsed := Critic.ParseResponse(answer.value);
    if parsed.Err? {
      r := Err(parsed.error);
      return;
    }
    r := Ok(IterationRecord(k + 1, description, image.value, Some(parsed.value)));
  }

  /**
   * Rounds i + 1 to n after the history `h`, with `current` the description
   * to render next: the first exception raised ends them; a critique that
   * does not continue stops them after its round.
   */
  function RefineFrom(i: nat, n: int, h: seq<IterationRecord>, current: string, render: Renderer, critique: CriticCall)
    : Result<seq<IterationRecord>>
    decreases n - i
  {
    if i >= n then Ok(h)
    else
      match RoundValue(i, current, render, critique)
      case Err(e) => Err(e)
      case Ok(rec) =>
        if Continues(rec.critique.value) then
          RefineFrom(i + 1, n, h + [rec], rec.critique.value.revisedDescription.value, render, critique)
        else Ok(h + [rec])
  }

  /** The history the refinement loop yields from the styled description, or the first exception raised in it. */
  function RefineValue(first: string, n: int, render: Renderer, critique: CriticCall): Result<seq<IterationRecord>> {
    RefineFrom(0, n, [], first, render, critique)
  }

  /**
   * The rounds fail only by a round's exception: when every round that can
   * be reached succeeds, so do they, and an exception they end with is the
   * one some round k + 1 raised for some description.
   */
  lemma {:induction false} RefineFromOutcome(i: nat, n: int, h: seq<IterationRecord>, current: string, render: Renderer, critique: CriticCall)
    ensures (forall k: nat, d :: i <= k < n ==> RoundValue(k, d, render, critique).Ok?) ==>
      RefineFrom(i, n, h, current, render, critique).Ok?
    ensures RefineFrom(i, n, h, current, render, critique).Err? ==>
      exists k: nat, d :: i <= k < n && RoundValue(k, d, render, critique) == Err(RefineFrom(i, n, h, current, render, critique).error)
    decreases n - i
  {
    if i < n {
      var round := RoundValue(i, current, render, critique);
      if round.Ok? && Continues(round.value.critique.value) {
        RefineFromOutcome(i + 1, n, h + [round.value], round.value.critique.value.revisedDescription.value, render, critique);
      }
    }
  }

  /**
   * A history the rounds yield is chained from the description rendered
   * first and produced by the remote steps; it has at most n rounds, at
   * least one when n is positive, and fewer than n only when the last
   * critique stopped the loop.
   */
  lemma {:induction false} RefineFromSound(
    i: nat, n: int, h: seq<IterationRecord>, current: string, first: string, render: Renderer, critique: CriticCall)
    requires Chained(h, first) && Produced(h, render, critique) && |h| == i
    requires |h| == 0 || Continues(h[|h| - 1].critique.value)
    requires current == Working(h, first)
    requires if n <= 0 then i == 0 else i <= n
    ensures RefineFrom(i, n, h, current, render, critique).Ok? ==>
      var hs := RefineFrom(i, n, h, current, render, critique).value;
      && Chained(hs, first) && Produced(hs, render, critique)
      && |hs| <= (if n < 0 then 0 else n) && (n > 0 ==> |hs| >= 1)
      && (|hs| < n ==> Stopped(hs))
    decreases n - i
  {
    if i < n {
      var round := RoundValue(i, current, render, critique);
      if round.Ok? {
        var rec := round.value;
        ChainedSnoc(h, first, rec);
        var h' := h + [rec];
        assert ProducedRecord(i, rec, render, critique);
        assert forall k :: 0 <= k < |h| ==> h'[k] == h[k];
        assert Produced(h', render, critique);
        if Continues(rec.critique.value) {
          RefineFromSound(i + 1, n, h', rec.critique.value.revisedDescription.value, first, render, critique);
        }
      }
    }
  }

  /**
   * The refinement loop: round i + 1 renders the working description and
   * has it critiqued; the record is appended; the loop goes on only when
   * the critique continues, and otherwise the announced total is cut to the
   * next step. An exception from either remote step escapes.
   */
  method Refine(
    first: string, refinementIterations: int, total: int, log0: seq<Progress>,
    render: Renderer, critique: CriticCall)
    returns (r: Result<Rounds>, log: seq<Progress>)
    requires Numbered(log0)
    ensures Numbered(log) && |log| >= |log0| && log[..|log0|] == log0
    ensures forall j :: |log0| <= j < |log| ==> log[j].total == total
    ensures refinementIterations <= 0 ==> r == Ok(Rounds([], first, total)) && log == log0
    ensures r.Ok? ==>
      var h := r.value.history;
      && |h| <= (if refinementIterations < 0 then 0 else refinementIterations)
      && Chained(h, first)
      && Produced(h, render, critique)
      && r.value.current == Working(h, first)
      && (|h| < refinementIterations ==> Stopped(h))
      && |log| == |log0| + 2 * |h|
      && r.value.total == (if Stopped(h) then |log| + 1 else total)
    ensures r.Ok? ==> RefineValue(first, refinementIterations, render, critique) == Ok(r.value.history)
    ensures r.Err? ==> RefineValue(first, refinementIterations, render, critique) == Err(r.error)
  {
    var current := first;
    var history: seq<IterationRecord> := [];
    var newTotal := total;
    log := log0;
    var i := 0;
    var stopped := false;
    while i < refinementIterations && !stopped
      invariant 0 <= i && (refinementIterations > 0 ==> i <= refinementIterations)
      invariant refinementIterations <= 0 ==> i == 0
      invariant |history| == i
      invariant Chained(history, first)
      invariant Produced(history, render, critique)
      invariant current == Working(history, first)
      invariant stopped == Stopped(history)
      invariant Numbered(log) && |log| == |log0| + 2 * i && log[..|log0|] == log0
      invariant forall j :: |log0| <= j < |log| ==> log[j].total == total
      invariant newTotal == (if stopped then |log| + 1 else total)
      invariant RefineValue(first, refinementIterations, render, critique) ==
        if stopped then Ok(history) else RefineFrom(i, refinementIterations, history, current, render, critique)
    {
      var next, log' := Round(i, refinementIterations, current, newTotal, log, render, critique);
      assert log'[..|log0|] == log[..|log0|];
      assert forall j :: |log0| <= j < |log| ==> log'[j] == log[j];
      log := log';
      if next.Err? {
        r := Err(next.error);
        return;
      }
      var rec := next.value;
      ChainedSnoc(history, first, rec);
      history := history + [rec];
      if Continues(rec.critique.value) {
        current := rec.critique.value.revisedDescription.value;
      } else {
        newTotal := |log| + 1;
        stopped := true;
      }
      i := i + 1;
    }
    r := Ok(Rounds(history, current, newTotal));
  }

  /** The progress messages of the phases before and after the rounds. */
  const RetrieverMessage := "Retriever: selecting reference examples..."
  const PlannerMessage := "Planner: generating diagram description..."
  const StylistMessage := "Stylist: applying style guidelines..."
  const FinalizingMessage := "Finalizing output..."

  const IndexErrorEmpty := Exception("IndexError", "list index out of range")

  /** The total announced with every message before the loop stops early: 3 planning steps, 2 per round, 1 to finish. */
  function InitialTotal(refinementIterations: int): int {
    3 + refinementIterations * 2 + 1
  }

  /**
   * What the stylist is sent: the diagram type's prompt, the planner's
   * description, and the guidelines it ends up using. For a methodology
   * diagram those are the methodology guidelines; for a plot, the plot
   * guidelines, else the methodology ones (the stylist's own). The default
   * text is used when those are empty.
   */
  predicate StyleRequest(
    req: Stylist.Request, diagramType: DiagramType, description: string, methodology: string, plot: string)
  {
    && req.promptType == PromptType(diagramType)
    && req.description == description
    && (diagramType == Methodology ==>
          req.guidelines == (if methodology != "" then methodology else Stylist.DefaultGuidelines))
    && (diagramType == StatisticalPlot ==>
          req.guidelines == (if plot != "" then plot else if methodology != "" then methodology else Stylist.DefaultGuidelines))
  }

  /** Step 3: announce the stylist, then ask it to restyle the description with the diagram type's guidelines. */
  method Style(
    diagramType: DiagramType, description: string, methodology: string, plot: string,
    stylist: Stylist.Request -> Result<string>, total: int, log0: seq<Progress>)
    returns (styled: Result<string>, req: Stylist.Request, log: seq<Progress>)
    requires Numbered(log0)
    ensures log == log0 + [Progress(|log0| + 1, total, StylistMessage)] && Numbered(log)
    ensures StyleRequest(req, diagramType, description, methodology, plot)
    ensures styled == stylist(req)
  {
    var guidelines := Guidelines(diagramType, methodology, plot);
    log := Announce(log0, total, StylistMessage);
    req := Stylist.RequestFor(description, Some(guidelines), methodology, diagramType);
    EffectiveGuidelines(diagramType, methodology, plot);
    styled := Stylist.Run(description, Some(guidelines), methodology, diagramType, stylist);
  }

  /** Every message but the last announces `total`. */
  predicate EarlierTotals(log: seq<Progress>, total: int) {
    forall k :: 0 <= k < |log| - 1 ==> log[k].total == total
  }

  /**
   * `generate`. The stylist is handed the guidelines of the diagram type
   * and has the methodology guidelines as its own; `stylist` stands for its
   * remote model. The result, on success, holds the history, the final
   * description and the metadata; `finalImage` is the image copied to
   * `final_output.png`; `log` is every progress message sent;
   * `styleRequest` is what was sent to the stylist, if anything.
   */
  method Generate(
    input: GenerationInput, refinementIterations: int, runDir: string,
    methodologyGuidelines: string, plotGuidelines: string,
    retrieval: Result<seq<ReferenceExample>>, plan: Result<string>, stylist: Stylist.Request -> Result<string>,
    render: Renderer, critique: CriticCall)
    returns (r: Result<GenerationOutput>, log: seq<Progress>, finalImage: Option<string>, styleRequest: Option<Stylist.Request>)
    ensures |log| >= 1 && Numbered(log)
    ensures EarlierTotals(log, InitialTotal(refinementIterations))
    ensures r.Err? ==> log[|log| - 1].total == InitialTotal(refinementIterations)
    ensures retrieval.Err? ==> r == Err(retrieval.error) && |log| == 1
    ensures retrieval.Ok? && plan.Err? ==> r == Err(plan.error) && |log| == 2
    ensures styleRequest.Some? <==> retrieval.Ok? && plan.Ok?
    ensures styleRequest.Some? ==>
      StyleRequest(styleRequest.value, input.diagramType, plan.value, methodologyGuidelines, plotGuidelines)
    ensures styleRequest.Some? && stylist(styleRequest.value).Err? ==> r == Err(stylist(styleRequest.value).error) && |log| == 3
    ensures r.Ok? ==> styleRequest.Some? && stylist(styleRequest.value).Ok?
    ensures refinementIterations <= 0 && styleRequest.Some? && stylist(styleRequest.value).Ok? ==>
      r == Err(IndexErrorEmpty) && |log| == 4 && finalImage.None?
    ensures r.Ok? ==>
      Completed(r.value, log, finalImage, stylist(styleRequest.value).value, refinementIterations, runDir, render, critique)
    ensures styleRequest.Some? && stylist(styleRequest.value).Ok? ==>
      var rounds := RefineValue(stylist(styleRequest.value).value, refinementIterations, render, critique);
      && (rounds.Err? ==> r == Err(rounds.error))
      && (refinementIterations > 0 && rounds.Ok? ==> r.Ok?)
  {
    var total := InitialTotal(refinementIterations);
    finalImage := None;
    styleRequest := None;
    log := Announce([], total, RetrieverMessage);
    if retrieval.Err? {
      r := Err(retrieval.error);
      return;
    }
    log := Announce(log, total, PlannerMessage);
    if plan.Err? {
      r := Err(plan.error);
      return;
    }
    var styled, req;
    styled, req, log := Style(input.diagramType, plan.value, methodologyGuidelines, plotGuidelines, stylist, total, log);
    styleRequest := Some(req);
    if styled.Err? {
      r := Err(styled.error);
      return;
    }
    ghost var beforeRounds := log;
    r, log, finalImage := RefineAndFinish(styled.value, refinementIterations, total, runDir, log, render, critique);
    assert forall k :: 0 <= k < |beforeRounds| ==> log[k] == beforeRounds[k];
  }

  /**
   * Steps 4 and 5 of `generate`, after the three planning messages: the
   * refinement loop, then the finalisation. Every message they add but the
   * last announces the initial total, and so does the last one of a run
   * that fails.
   */
  method RefineAndFinish(
    first: string, refinementIterations: int, total: int, runDir: string, log0: seq<Progress>,
    render: Renderer, critique: CriticCall)
    returns (r: Result<GenerationOutput>, log: seq<Progress>, finalImage: Option<string>)
    requires Numbered(log0) && |log0| == 3 && total == InitialTotal(refinementIterations)
    ensures Numbered(log) && |log| >= |log0| && log[..|log0|] == log0
    ensures forall j :: |log0| <= j < |log| - 1 ==> log[j].total == total
    ensures r.Err? ==> forall j :: |log0| <= j < |log| ==> log[j].total == total
    ensures refinementIterations <= 0 ==> r == Err(IndexErrorEmpty) && |log| == |log0| + 1 && finalImage.None?
    ensures r.Ok? ==> Completed(r.value, log, finalImage, first, refinementIterations, runDir, render, critique)
    ensures RefineValue(first, refinementIterations, render, critique).Err? ==>
      r == Err(RefineValue(first, refinementIterations, render, critique).error)
    ensures refinementIterations > 0 && RefineValue(first, refinementIterations, render, critique).Ok? ==> r.Ok?
  {
    var rounds;
    rounds, log := Refine(first, refinementIterations, total, log0, render, critique);
    finalImage := None;
    if rounds.Err? {
      r := Err(rounds.error);
      return;
    }
    ghost var before := log;
    r, log, finalImage := Finish(rounds.value, log, runDir);
    assert log[..|before|] == before;
    FinishCompletes(rounds.value, before, first, refinementIterations, total, render, critique, r, log, finalImage, runDir);
  }

  /**
   * A completed run: between one and the configured number of rounds, each
   * produced by the remote steps and chained from the styled description,
   * fewer only when the last critique stopped the loop; the final
   * description is the working one; the image is copied to
   * `final_output.png` from the last round; and the last of the
   * 3 + 2 * rounds + 1 messages is numbered with the total it announces.
   */
  predicate Completed(
    out: GenerationOutput, log: seq<Progress>, finalImage: Option<string>, first: string, refinementIterations: int,
    runDir: string, render: Renderer, critique: CriticCall)
    ensures Completed(out, log, finalImage, first, refinementIterations, runDir, render, critique) ==>
      && finalImage.Some?
      && 6 <= |log| <= InitialTotal(refinementIterations)
      && log[|log| - 1].step == log[|log| - 1].total
  {
    var h := out.iterations;
    && 1 <= |h| <= refinementIterations
    && Chained(h, first)
    && Produced(h, render, critique)
    && (|h| < refinementIterations ==> Stopped(h))
    && out.description == Working(h, first)
    && out.imagePath == runDir + "/final_output.png"
    && out.metadata.refinementIterations == |h|
    && finalImage == Some(h[|h| - 1].imagePath)
    && |log| == 3 + 2 * |h| + 1
    && log[|log| - 1] == Progress(|log|, |log|, FinalizingMessage)
  }

  /** What the refinement loop and the finalisation promise make a completed run. */
  lemma FinishCompletes(
    rounds: Rounds, log0: seq<Progress>, first: string, refinementIterations: int, total: int,
    render: Renderer, critique: CriticCall,
    r: Result<GenerationOutput>, log: seq<Progress>, finalImage: Option<string>, runDir: string)
    requires total == InitialTotal(refinementIterations)
    requires var h := rounds.history;
      && |h| <= (if refinementIterations < 0 then 0 else refinementIterations)
      && Chained(h, first)
      && Produced(h, render, critique)
      && rounds.current == Working(h, first)
      && (|h| < refinementIterations ==> Stopped(h))
      && |log0| == 3 + 2 * |h|
      && rounds.total == (if Stopped(h) then |log0| + 1 else total)
    requires log == log0 + [Progress(|log0| + 1, rounds.total, FinalizingMessage)]
    requires rounds.history != [] ==>
      && r == Ok(GenerationOutput(runDir + "/final_output.png", rounds.current, rounds.history, RunMetadata(|rounds.history|)))
      && finalImage == Some(rounds.history[|rounds.history| - 1].imagePath)
    requires rounds.history == [] ==> r.Err?
    ensures r.Ok? ==> Completed(r.value, log, finalImage, first, refinementIterations, runDir, render, critique)
  {
    if rounds.history != [] && !Stopped(rounds.history) {
      assert |rounds.history| == refinementIterations;
    }
  }

  /** The last step of `generate`: announce the finalisation, then take the last round's image. */
  method Finish(rounds: Rounds, log0: seq<Progress>, runDir: string)
    returns (r: Result<GenerationOutput>, log: seq<Progress>, finalImage: Option<string>)
    requires Numbered(log0)
    ensures log == log0 + [Progress(|log0| + 1, rounds.total, FinalizingMessage)] && Numbered(log)
    ensures rounds.history == [] ==> r == Err(IndexErrorEmpty) && finalImage.None?
    ensures rounds.history != [] ==>
      && r == Ok(GenerationOutput(runDir + "/final_output.png", rounds.current, rounds.history, RunMetadata(|rounds.history|)))
      && finalImage == Some(rounds.history[|rounds.history| - 1].imagePath)
  {
    var history := rounds.history;
    log := Announce(log0, rounds.total, FinalizingMessage);
    finalImage := None;
    if |history| == 0 {
      r := Err(IndexErrorEmpty);
      return;
    }
    finalImage := Some(history[|history| - 1].imagePath);
    r := Ok(GenerationOutput(runDir + "/final_output.png", rounds.current, history, RunMetadata(|history|)));
  }
}
