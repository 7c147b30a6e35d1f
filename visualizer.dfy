/**
 * The visualizer agent: the choice between an image-model diagram and a
 * generated plotting program, the default file names, the text sent for
 * plots, the extraction of code from a fenced answer, and the rewriting of
 * that code before it is run.
 */
module Visualizer {
  import opened Base
  import opened Strings
  import opened Json
  import opened Types

  /** The two ways of producing an image. */
  datatype Route = DiagramRoute | PlotRoute

  /** Statistical plots are drawn by a generated program; everything else by the image model. */
  function RouteFor(diagramType: DiagramType): (r: Route)
    ensures r == PlotRoute <==> diagramType == StatisticalPlot
  {
    if diagramType == StatisticalPlot then PlotRoute else DiagramRoute
  }

  /** `str(Path(directory) / name)` for a directory without a trailing separator. */
  function PathJoin(directory: string, name: string): string {
    directory + "/" + name
  }

  /** The file name used when no output path is given. */
  function DefaultFileName(route: Route, iteration: int): (r: string)
    ensures route == DiagramRoute ==> r == "diagram_iter_" + IntToString(iteration) + ".png"
    ensures route == PlotRoute ==> r == "plot_iter_" + IntToString(iteration) + ".png"
  {
    (if route == DiagramRoute then "diagram_iter_" else "plot_iter_") + IntToString(iteration) + ".png"
  }

  /** The output path: the one given, else the default name in the output directory. */
  function OutputPath(given: Option<string>, outputDir: string, route: Route, iteration: int): (r: string)
    ensures given.Some? ==> r == given.value
    ensures given.None? ==> r == PathJoin(outputDir, DefaultFileName(route, iteration))
  {
    if given.Some? then given.value else PathJoin(outputDir, DefaultFileName(route, iteration))
  }

  /** Distinct rounds of the same route get distinct default names. */
  lemma {:induction false} DefaultNamesDistinct(route: Route, i: nat, j: nat)
    requires i != j
    ensures DefaultFileName(route, i) != DefaultFileName(route, j)
  {
    var prefix := if route == DiagramRoute then "diagram_iter_" else "plot_iter_";
    var a, b := NatToString(i), NatToString(j);
    assert DefaultFileName(route, i) == prefix + a + ".png";
    assert DefaultFileName(route, j) == prefix + b + ".png";
    if prefix + a + ".png" == prefix + b + ".png" {
      assert |a| == |b|;
      assert a == (prefix + a + ".png")[|prefix|..|prefix| + |a|];
      assert b == (prefix + b + ".png")[|prefix|..|prefix| + |b|];
      NatToStringValue(i);
      NatToStringValue(j);
      assert false;
    }
  }

  /**
   * The text sent for a plot: the description, followed by a "Raw Data"
   * JSON block only when the raw data is truthy; `dump` stands for
   * `json.dumps(..., indent=2)`.
   */
  function PlotDescription(description: string, rawData: Option<Json>, dump: Json -> string): (r: string)
    ensures (rawData.None? || !Truthy(rawData.value)) ==> r == description
    ensures rawData.Some? && Truthy(rawData.value) ==>
      r == description + "\n\n## Raw Data\n```json\n" + dump(rawData.value) + "\n```"
  {
    if rawData.Some? && Truthy(rawData.value) then
      description + "\n\n## Raw Data\n```json\n" + dump(rawData.value) + "\n```"
    else description
  }

  const Fence := "```"
  const PythonFence := "```python"

  /** `response[start:response.index("```", start)].strip()`; `index` raises when there is no closing fence. */
  function UpToFence(response: string, start: nat): (r: Result<string>)
    requires start <= |response|
    ensures r.Err? <==> forall j :: start <= j <= |response| ==> !StartsWith(response[j..], Fence)
    ensures r.Err? ==> r.error.kind == "ValueError"
    ensures r.Ok? ==> r.value == Strip(response[start..FindFrom(response, Fence, start).value])
  {
    match FindFrom(response, Fence, start)
    case None => Err(Exception("ValueError", "substring not found"))
    case Some(end) => Ok(Strip(response[start..end]))
  }

  /**
   * `_extract_code`: the body of the first "```python" block if there is
   * one, else of the first plain fenced block, else the whole answer; the
   * result is stripped. A block without a closing fence raises.
   */
  function ExtractCode(response: string): (r: Result<string>)
    ensures !Contains(response, Fence) ==> r == Ok(Strip(response))
    ensures r.Err? ==> Contains(response, Fence) && r.error.kind == "ValueError"
    ensures Contains(response, PythonFence) ==>
      var s := FindFrom(response, PythonFence, 0).value + |PythonFence|;
      && s <= |response|
      && (FindFrom(response, Fence, s).None? ==> r.Err?)
      && (FindFrom(response, Fence, s).Some? ==> r == Ok(Strip(response[s..FindFrom(response, Fence, s).value])))
    ensures !Contains(response, PythonFence) && Contains(response, Fence) ==>
      var s := FindFrom(response, Fence, 0).value + |Fence|;
      && s <= |response|
      && (FindFrom(response, Fence, s).None? ==> r.Err?)
      && (FindFrom(response, Fence, s).Some? ==> r == Ok(Strip(response[s..FindFrom(response, Fence, s).value])))
  {
    if Contains(response, PythonFence) then
      PythonFenceHasFence(response);
      var s := AfterOpening(response, PythonFence);
      UpToFence(response, s)
    else if Contains(response, Fence) then
      var s := AfterOpening(response, Fence);
      UpToFence(response, s)
    else Ok(Strip(response))
  }

  /** `response.index(opening) + len(opening)`: where the block after the first opening starts. */
  function AfterOpening(response: string, opening: string): (s: nat)
    requires Contains(response, opening)
    ensures s == FindFrom(response, opening, 0).value + |opening| && s <= |response|
  {
    FindFrom(response, opening, 0).value + |opening|
  }

  /** An opening "```python" is itself a fence. */
  lemma PythonFenceHasFence(s: string)
    requires Contains(s, PythonFence)
    ensures Contains(s, Fence)
  {
    var j := FindFrom(s, PythonFence, 0).value;
    assert s[j..][..3] == PythonFence[..3] == Fence;
    ContainsAt(s, Fence, j);
  }

  /** A fenced Python program with no fence inside it is extracted back, stripped. */
  lemma {:induction false} ExtractFencedProgram(code: string)
    requires !Contains(code, Fence)
    ensures ExtractCode(PythonFence + "\n" + code + "\n" + Fence) == Ok(Strip(code))
  {
    var s := PythonFence + "\n" + code + "\n" + Fence;
    var start := |PythonFence|;
    var close := start + 1 + |code| + 1;
    FencedLayout(code);
    forall j | start <= j < close
      ensures !StartsWith(s[j..], Fence)
    {
      NoFenceAt(code, j);
    }
    FindFromFirst(s, Fence, start, close);
    StripPadded(code, '\n');
  }

  /** Where the parts of a fenced program lie. */
  lemma FencedLayout(code: string)
    ensures var s := PythonFence + "\n" + code + "\n" + Fence;
      && Contains(s, PythonFence) && FindFrom(s, PythonFence, 0) == Some(0)
      && s[|PythonFence| + 1 + |code| + 1..] == Fence
      && StartsWith(s[|PythonFence| + 1 + |code| + 1..], Fence)
      && s[|PythonFence|..|PythonFence| + 1 + |code| + 1] == ['\n'] + code + ['\n']
  {
    var s := PythonFence + "\n" + code + "\n" + Fence;
    assert s[..|PythonFence|] == PythonFence;
    ContainsAt(s, PythonFence, 0);
    assert s[|PythonFence| + 1 + |code| + 1..] == Fence;
    assert s[|PythonFence|..|PythonFence| + 1 + |code| + 1] == ['\n'] + code + ['\n'];
  }

  /** No fence opens between the opening line and the closing fence. */
  lemma NoFenceAt(code: string, j: nat)
    requires !Contains(code, Fence)
    requires |PythonFence| <= j < |PythonFence| + 1 + |code| + 1
    ensures var s := PythonFence + "\n" + code + "\n" + Fence; !StartsWith(s[j..], Fence)
  {
    var s := PythonFence + "\n" + code + "\n" + Fence;
    var start := |PythonFence|;
    var close := start + 1 + |code| + 1;
    assert |s| == close + 3;
    if j == start || j == close - 1 {
      assert s[j] == '\n';
    } else if j + 3 <= close - 1 {
      var i := j - start - 1;
      assert s[j..][..3] == [code[i], code[i + 1], code[i + 2]] by {
        assert s[j] == code[i] && s[j + 1] == code[i + 1] && s[j + 2] == code[i + 2];
      }
      assert code[i..][..3] == [code[i], code[i + 1], code[i + 2]];
      assert !StartsWith(code[i..], Fence);
    } else {
      assert s[close - 1] == '\n';
      assert s[j..][close - 1 - j] == '\n';
    }
  }

  /** `find` returns the first occurrence at or after `k`. */
  lemma {:induction false} FindFromFirst(s: string, p: string, k: nat, at: nat)
    requires k <= at <= |s| && StartsWith(s[at..], p)
    requires forall j :: k <= j < at ==> !StartsWith(s[j..], p)
    ensures FindFrom(s, p, k) == Some(at)
    decreases at - k
  {
    if k < at {
      FindFromFirst(s, p, k + 1, at);
    }
  }

  predicate IsQuote(c: char) { c == '"' || c == '\'' }

  /**
   * One line that the pattern `^OUTPUT_PATH\s*=\s*["'].*["']\s*$` matches:
   * the name at the start of the line, an `=`, then a quoted text (two
   * quote characters) and nothing but whitespace after the closing quote.
   */
  predicate IsOutputPathAssignment(line: string) {
    && StartsWith(line, "OUTPUT_PATH")
    && var afterName := LStrip(line[11..]);
    && |afterName| >= 1 && afterName[0] == '='
    && var value := RStrip(LStrip(afterName[1..]));
    && |value| >= 2 && IsQuote(value[0]) && IsQuote(value[|value| - 1])
  }

  /** Each line that assigns a quoted path to `OUTPUT_PATH` is blanked; every other line is kept. */
  function BlankAssignment(line: string): (r: string)
    ensures !IsOutputPathAssignment(r)
    ensures IsOutputPathAssignment(line) ==> r == ""
    ensures !IsOutputPathAssignment(line) ==> r == line
  {
    if IsOutputPathAssignment(line) then "" else line
  }

  /** Each line of `lines` with its assignment blanked. */
  function BlankLines(lines: seq<string>): (r: seq<string>)
    ensures |r| == |lines|
    ensures forall i :: 0 <= i < |r| ==> r[i] == BlankAssignment(lines[i])
  {
    seq(|lines|, i requires 0 <= i < |lines| => BlankAssignment(lines[i]))
  }

  /**
   * The `re.sub` in `_execute_plot_code`, line by line: every line that
   * assigns a quoted path to `OUTPUT_PATH` becomes empty, the others and
   * the line structure stay.
   */
  function StripAssignments(code: string): (r: string)
    ensures |SplitOn(r, '\n')| == |SplitOn(code, '\n')|
    ensures forall i :: 0 <= i < |SplitOn(r, '\n')| ==>
      SplitOn(r, '\n')[i] == BlankAssignment(SplitOn(code, '\n')[i])
    ensures forall i :: 0 <= i < |SplitOn(r, '\n')| ==> !IsOutputPathAssignment(SplitOn(r, '\n')[i])
    ensures (forall i :: 0 <= i < |SplitOn(code, '\n')| ==> !IsOutputPathAssignment(SplitOn(code, '\n')[i])) ==> r == code
  {
    var lines := SplitOn(code, '\n');
    var kept := BlankLines(lines);
    assert forall k :: 0 <= k < |kept| ==> '\n' !in kept[k];
    SplitOnJoin(kept, '\n');
    if forall k :: 0 <= k < |lines| ==> !IsOutputPathAssignment(lines[k]) then
      assert kept == lines;
      JoinSplitOn(code, '\n');
      Join("\n", kept)
    else Join("\n", kept)
  }

  /** The line injected ahead of the generated code. */
  function Injection(outputPath: string): string {
    "OUTPUT_PATH = \"" + outputPath + "\""
  }

  /**
   * The program that is run: the injected assignment as its first line,
   * then the code with its own assignments blanked, so the injected path is
   * the only one set.
   */
  function PlotProgram(outputPath: string, code: string): (program: string)
    ensures '\n' !in outputPath ==>
      && SplitOn(program, '\n')[0] == Injection(outputPath)
      && |SplitOn(program, '\n')| == |SplitOn(code, '\n')| + 1
      && forall i :: 1 <= i < |SplitOn(program, '\n')| ==>
           SplitOn(program, '\n')[i] == BlankAssignment(SplitOn(code, '\n')[i - 1])
  {
    var stripped := StripAssignments(code);
    var program := Injection(outputPath) + "\n" + stripped;
    if '\n' in outputPath then program
    else
      InjectionOneLine(outputPath);
      SplitAfterLine(Injection(outputPath), stripped);
      var lines, source := SplitOn(program, '\n'), SplitOn(stripped, '\n');
      assert lines == [Injection(outputPath)] + source;
      assert forall i :: 1 <= i < |lines| ==> lines[i] == source[i - 1];
      program
  }

  /** After the injected first line, no line of the program sets `OUTPUT_PATH` to a quoted path. */
  lemma {:induction false} InjectedPathAuthoritative(outputPath: string, code: string)
    requires '\n' !in outputPath
    ensures var lines := SplitOn(PlotProgram(outputPath, code), '\n');
      && lines[0] == Injection(outputPath)
      && forall i :: 1 <= i < |lines| ==> !IsOutputPathAssignment(lines[i])
  {
    var lines := SplitOn(PlotProgram(outputPath, code), '\n');
    forall i | 1 <= i < |lines|
      ensures !IsOutputPathAssignment(lines[i])
    {
      assert lines[i] == BlankAssignment(SplitOn(code, '\n')[i - 1]);
    }
  }

  lemma InjectionOneLine(outputPath: string)
    requires '\n' !in outputPath
    ensures '\n' !in Injection(outputPath)
  {
    var a, b := "OUTPUT_PATH = \"", "\"";
    assert Injection(outputPath) == a + outputPath + b;
    forall k | 0 <= k < |a + outputPath + b|
      ensures (a + outputPath + b)[k] != '\n'
    {
      if k < |a| {
      } else if k < |a| + |outputPath| {
        assert (a + outputPath + b)[k] == outputPath[k - |a|];
      }
    }
  }

  /** Splitting a line, a newline and a text gives the line followed by the text's lines. */
  lemma SplitAfterLine(line: string, rest: string)
    requires '\n' !in line
    ensures SplitOn(line + "\n" + rest, '\n') == [line] + SplitOn(rest, '\n')
  {
    var s := line + "\n" + rest;
    assert s[|line|] == '\n' && s[..|line|] == line;
    IndexOfCharAt(s, '\n', |line|);
    assert s[|line| + 1..] == rest;
  }

  /** What the image model is asked for: the diagram prompt for a description, at 1792 by 1024. */
  datatype ImageRequest = ImageRequest(description: string, width: int, height: int, seed: Option<int>)

  /**
   * `_generate_diagram`. `imageGen` stands for the image model: it returns
   * the exception it raised, if any. Saving the image is left out.
   */
  function GenerateDiagram(
    description: string, outputPath: Option<string>, outputDir: string, iteration: int, seed: Option<int>,
    imageGen: ImageRequest -> Option<Exception>): (r: Result<string>)
    ensures r.Err? <==> imageGen(ImageRequest(description, 1792, 1024, seed)).Some?
    ensures r.Err? ==> r.error == imageGen(ImageRequest(description, 1792, 1024, seed)).value
    ensures r.Ok? ==> r.value == OutputPath(outputPath, outputDir, DiagramRoute, iteration)
  {
    var failure := imageGen(ImageRequest(description, 1792, 1024, seed));
    if failure.Some? then Err(failure.value)
    else Ok(OutputPath(outputPath, outputDir, DiagramRoute, iteration))
  }

  /** A plot round: the image path, the program that was run, and whether a placeholder replaced a failed run. */
  datatype PlotRun = PlotRun(path: string, program: string, placeholder: bool)

  /**
   * `_generate_plot`. `codeAnswer` stands for the language model asked for
   * plotting code with the plot prompt; `execute` for running the program in
   * a subprocess (false on a non-zero exit, a timeout or a missing image
   * file); `dump` for `json.dumps`.
   */
  function GeneratePlot(
    description: string, rawData: Option<Json>, outputPath: Option<string>, outputDir: string, iteration: int,
    dump: Json -> string, codeAnswer: string -> string, execute: (string, string) -> bool): (r: Result<PlotRun>)
    ensures var code := ExtractCode(codeAnswer(PlotDescription(description, rawData, dump)));
      && (r.Err? <==> code.Err?)
      && (r.Err? ==> r.error == code.error)
      && (r.Ok? ==>
            && r.value.path == OutputPath(outputPath, outputDir, PlotRoute, iteration)
            && r.value.program == PlotProgram(r.value.path, code.value)
            && (r.value.placeholder <==> !execute(r.value.program, r.value.path)))
  {
    var code := ExtractCode(codeAnswer(PlotDescription(description, rawData, dump)));
    if code.Err? then Err(code.error)
    else
      var path := OutputPath(outputPath, outputDir, PlotRoute, iteration);
      var program := PlotProgram(path, code.value);
      Ok(PlotRun(path, program, !execute(program, path)))
  }

  /**
   * `run`: statistical plots go through generated code, everything else
   * through the image model; either way the path returned is the output
   * path, also when a plot program failed and a placeholder was saved.
   */
  function Run(
    description: string, diagramType: DiagramType, rawData: Option<Json>, outputPath: Option<string>,
    outputDir: string, iteration: int, seed: Option<int>,
    imageGen: ImageRequest -> Option<Exception>, dump: Json -> string,
    codeAnswer: string -> string, execute: (string, string) -> bool): (r: Result<string>)
    ensures r.Ok? ==> r.value == OutputPath(outputPath, outputDir, RouteFor(diagramType), iteration)
    ensures diagramType == Methodology ==> r == GenerateDiagram(description, outputPath, outputDir, iteration, seed, imageGen)
    ensures diagramType == StatisticalPlot ==>
      var plot := GeneratePlot(description, rawData, outputPath, outputDir, iteration, dump, codeAnswer, execute);
      (r.Ok? <==> plot.Ok?) && (r.Err? ==> r.error == plot.error)
  {
    if diagramType == StatisticalPlot then
      var plot := GeneratePlot(description, rawData, outputPath, outputDir, iteration, dump, codeAnswer, execute);
      if plot.Err? then Err(plot.error) else Ok(plot.value.path)
    else GenerateDiagram(description, outputPath, outputDir, iteration, seed, imageGen)
  }
}
