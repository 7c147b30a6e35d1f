/**
 * The planner agent: the numbered example list shown in its prompt, the
 * images it loads for the examples that have one, and the request it sends.
 * The file system is a parameter: `pathExists` says whether a path exists (a
 * file or a directory, as `Path.exists` does),
 * `load` returns the image read from a path, or nothing when reading fails.
 */
module Planner {
  import opened Base
  import opened Strings
  import opened Types

  const NoExamplesText := "(No reference examples available. Generate based on source context alone.)"

  /** `_has_valid_image`: a non-empty path that exists. */
  predicate HasValidImage(ex: ReferenceExample, pathExists: string -> bool) {
    ex.imagePath != "" && pathExists(ex.imagePath)
  }

  /** How many of the first `k` examples have a valid image. */
  function ValidCount(examples: seq<ReferenceExample>, k: nat, pathExists: string -> bool): (n: nat)
    requires k <= |examples|
    ensures n <= k
  {
    if k == 0 then 0
    else ValidCount(examples, k - 1, pathExists) + (if HasValidImage(examples[k - 1], pathExists) then 1 else 0)
  }

  /** The line pointing the model at the n-th image. */
  function ImageRef(n: nat): string {
    "\n**Diagram**: [See reference image " + NatToString(n) + " above]"
  }

  /**
   * The block for example i (counted from 0): its number from 1, caption,
   * the first 500 characters of its source context, and, when it has a valid
   * image, a reference to that image by its number among the valid ones
   * (numbers that `ImageNumbersConsecutive` shows run 1, 2, … without gaps).
   */
  function Entry(examples: seq<ReferenceExample>, i: nat, pathExists: string -> bool): (r: string)
    requires i < |examples|
    ensures StartsWith(r, "### Example " + NatToString(i + 1) + "\n**Caption**: " + examples[i].caption + "\n")
    ensures r == "### Example " + NatToString(i + 1) + "\n**Caption**: " + examples[i].caption + "\n"
      + "**Source Context**: " + Take(examples[i].sourceContext, 500)
      + (if HasValidImage(examples[i], pathExists) then ImageRef(ValidCount(examples, i + 1, pathExists)) else "")
      + "\n"
  {
    var ex := examples[i];
    var imageRef := if HasValidImage(ex, pathExists) then ImageRef(ValidCount(examples, i + 1, pathExists)) else "";
    var header := "### Example " + NatToString(i + 1) + "\n**Caption**: " + ex.caption + "\n";
    var r := header + "**Source Context**: " + Take(ex.sourceContext, 500) + imageRef + "\n";
    assert r[..|header|] == header;
    r
  }

  /**
   * `_format_examples`: the fixed text for no examples, else one block per
   * example, in order, joined by newlines.
   */
  method FormatExamples(examples: seq<ReferenceExample>, pathExists: string -> bool) returns (text: string)
    ensures |examples| == 0 ==> text == NoExamplesText
    ensures |examples| > 0 ==> text == Join("\n", seq(|examples|, i requires 0 <= i < |examples| => Entry(examples, i, pathExists)))
    ensures forall i :: 0 <= i < |examples| ==> Contains(text, Entry(examples, i, pathExists))
  {
    if |examples| == 0 {
      return NoExamplesText;
    }
    var lines: seq<string> := [];
    var imgIndex := 0;
    var i := 0;
    while i < |examples|
      invariant 0 <= i <= |examples|
      invariant imgIndex == ValidCount(examples, i, pathExists)
      invariant |lines| == i && forall k :: 0 <= k < i ==> lines[k] == Entry(examples, k, pathExists)
    {
      var line;
      line, imgIndex := FormatEntry(examples, i, imgIndex, pathExists);
      lines := lines + [line];
      i := i + 1;
    }
    text := Join("\n", lines);
    assert lines == seq(|examples|, i requires 0 <= i < |examples| => Entry(examples, i, pathExists));
    JoinContainsAll(lines);
  }

  /** Each line is found in the lines joined. */
  lemma JoinContainsAll(lines: seq<string>)
    ensures forall i :: 0 <= i < |lines| ==> Contains(Join("\n", lines), lines[i])
  {
    forall i | 0 <= i < |lines|
      ensures Contains(Join("\n", lines), lines[i])
    {
      JoinContainsPart("\n", lines, i);
    }
  }

  /** The body of the formatting loop: example i's block, counting its image if it has a valid one. */
  method FormatEntry(examples: seq<ReferenceExample>, i: nat, imgIndex0: nat, pathExists: string -> bool)
    returns (line: string, imgIndex: nat)
    requires i < |examples| && imgIndex0 == ValidCount(examples, i, pathExists)
    ensures line == Entry(examples, i, pathExists) && imgIndex == ValidCount(examples, i + 1, pathExists)
  {
    var ex := examples[i];
    imgIndex := imgIndex0;
    var imageRef := "";
    if ex.imagePath != "" && pathExists(ex.imagePath) {
      imgIndex := imgIndex + 1;
      imageRef := ImageRef(imgIndex);
    }
    line := "### Example " + NatToString(i + 1) + "\n**Caption**: " + ex.caption + "\n"
      + "**Source Context**: " + Take(ex.sourceContext, 500) + imageRef + "\n";
  }

  /** Image numbers only grow along the list. */
  lemma {:induction false} ValidCountMonotone(examples: seq<ReferenceExample>, j: nat, k: nat, pathExists: string -> bool)
    requires j <= k <= |examples|
    ensures ValidCount(examples, j, pathExists) <= ValidCount(examples, k, pathExists)
    decreases k - j
  {
    if j < k {
      ValidCountMonotone(examples, j, k - 1, pathExists);
    }
  }

  /**
   * The image references are numbered 1, 2, ... without gaps or repeats:
   * each example with a valid image gets a number between 1 and the number
   * of such examples, later ones get larger numbers, and every number in
   * that range is used.
   */
  lemma {:induction false} ImageNumbersConsecutive(examples: seq<ReferenceExample>, pathExists: string -> bool)
    ensures forall i :: 0 <= i < |examples| && HasValidImage(examples[i], pathExists) ==>
      1 <= ValidCount(examples, i + 1, pathExists) <= ValidCount(examples, |examples|, pathExists)
    ensures forall i, j :: 0 <= i < j < |examples| && HasValidImage(examples[i], pathExists) && HasValidImage(examples[j], pathExists) ==>
      ValidCount(examples, i + 1, pathExists) < ValidCount(examples, j + 1, pathExists)
    ensures forall n :: 1 <= n <= ValidCount(examples, |examples|, pathExists) ==> ImageNumberUsed(examples, n, pathExists)
  {
    forall i | 0 <= i < |examples| && HasValidImage(examples[i], pathExists)
      ensures 1 <= ValidCount(examples, i + 1, pathExists) <= ValidCount(examples, |examples|, pathExists)
    {
      ValidCountMonotone(examples, i + 1, |examples|, pathExists);
    }
    forall i, j | 0 <= i < j < |examples| && HasValidImage(examples[i], pathExists) && HasValidImage(examples[j], pathExists)
      ensures ValidCount(examples, i + 1, pathExists) < ValidCount(examples, j + 1, pathExists)
    {
      ValidCountMonotone(examples, i + 1, j, pathExists);
    }
    forall n | 1 <= n <= ValidCount(examples, |examples|, pathExists)
      ensures ImageNumberUsed(examples, n, pathExists)
    {
      var i := FirstReaching(examples, |examples|, n, pathExists);
    }
  }

  /** Some example with a valid image is shown as image n. */
  predicate ImageNumberUsed(examples: seq<ReferenceExample>, n: nat, pathExists: string -> bool) {
    exists i :: 0 <= i < |examples| && HasValidImage(examples[i], pathExists) && ValidCount(examples, i + 1, pathExists) == n
  }

  /** The example at which the running count of valid images first reaches n. */
  lemma {:induction false} FirstReaching(examples: seq<ReferenceExample>, k: nat, n: nat, pathExists: string -> bool) returns (i: nat)
    requires k <= |examples| && 1 <= n <= ValidCount(examples, k, pathExists)
    ensures i < k && HasValidImage(examples[i], pathExists) && ValidCount(examples, i + 1, pathExists) == n
    decreases k
  {
    if n <= ValidCount(examples, k - 1, pathExists) {
      i := FirstReaching(examples, k - 1, n, pathExists);
    } else {
      i := k - 1;
    }
  }

  /** The images read, in example order: examples without a valid image and failed reads are skipped. */
  function Loaded<Image>(examples: seq<ReferenceExample>, pathExists: string -> bool, load: string -> Option<Image>): seq<Image>
    decreases |examples|
  {
    if |examples| == 0 then []
    else
      var rest := Loaded(examples[..|examples| - 1], pathExists, load);
      var ex := examples[|examples| - 1];
      if HasValidImage(ex, pathExists) && load(ex.imagePath).Some? then rest + [load(ex.imagePath).value] else rest
  }

  /**
   * Every image read belongs to an example with a valid image; there are at
   * most as many as such examples, and exactly as many when no read fails.
   */
  lemma {:induction false} LoadedSound<Image>(examples: seq<ReferenceExample>, pathExists: string -> bool, load: string -> Option<Image>)
    ensures |Loaded(examples, pathExists, load)| <= ValidCount(examples, |examples|, pathExists)
    ensures (forall i :: 0 <= i < |examples| && HasValidImage(examples[i], pathExists) ==> load(examples[i].imagePath).Some?) ==>
      |Loaded(examples, pathExists, load)| == ValidCount(examples, |examples|, pathExists)
    ensures forall m :: 0 <= m < |Loaded(examples, pathExists, load)| ==>
      exists i :: 0 <= i < |examples| && HasValidImage(examples[i], pathExists) && load(examples[i].imagePath) == Some(Loaded(examples, pathExists, load)[m])
    decreases |examples|
  {
    if |examples| > 0 {
      var init := examples[..|examples| - 1];
      LoadedSound(init, pathExists, load);
      assert forall k :: 0 <= k <= |init| ==> ValidCount(init, k, pathExists) == ValidCount(examples, k, pathExists) by {
        forall k | 0 <= k <= |init|
          ensures ValidCount(init, k, pathExists) == ValidCount(examples, k, pathExists)
        {
          PrefixCount(examples, init, k, pathExists);
        }
      }
      var rest := Loaded(init, pathExists, load);
      forall m | 0 <= m < |Loaded(examples, pathExists, load)|
        ensures exists i :: 0 <= i < |examples| && HasValidImage(examples[i], pathExists) && load(examples[i].imagePath) == Some(Loaded(examples, pathExists, load)[m])
      {
        if m < |rest| {
          var i :| 0 <= i < |init| && HasValidImage(init[i], pathExists) && load(init[i].imagePath) == Some(rest[m]);
          assert examples[i] == init[i];
        } else {
          assert HasValidImage(examples[|examples| - 1], pathExists);
        }
      }
    }
  }

  /** The running count only looks at the examples before position k. */
  lemma {:induction false} PrefixCount(examples: seq<ReferenceExample>, init: seq<ReferenceExample>, k: nat, pathExists: string -> bool)
    requires k <= |init| <= |examples| && init == examples[..|init|]
    ensures ValidCount(init, k, pathExists) == ValidCount(examples, k, pathExists)
    decreases k
  {
    if k > 0 {
      PrefixCount(examples, init, k - 1, pathExists);
    }
  }

  /** `_load_example_images`. */
  method LoadExampleImages<Image>(examples: seq<ReferenceExample>, pathExists: string -> bool, load: string -> Option<Image>)
    returns (images: seq<Image>)
    ensures images == Loaded(examples, pathExists, load)
  {
    images := [];
    var i := 0;
    while i < |examples|
      invariant 0 <= i <= |examples|
      invariant images == Loaded(examples[..i], pathExists, load)
    {
      var ex := examples[i];
      assert examples[..i + 1][..i] == examples[..i];
      if !(ex.imagePath != "" && pathExists(ex.imagePath)) {
        i := i + 1;
        continue;
      }
      var img := load(ex.imagePath);
      if img.Some? {
        images := images + [img.value];
      }
      i := i + 1;
    }
    assert examples[..|examples|] == examples;
  }

  /** What the planner sends: the prompt's fields and the images, or none when no image was read. */
  datatype PlanRequest<Image> = PlanRequest(
    promptType: string,
    sourceContext: string,
    caption: string,
    examplesText: string,
    images: Option<seq<Image>>)

  /**
   * `run`: format the examples, read their images, and ask the model; its
   * answer is the description.
   */
  method Run<Image>(
    sourceContext: string, caption: string, examples: seq<ReferenceExample>, diagramType: DiagramType,
    pathExists: string -> bool, load: string -> Option<Image>, answer: PlanRequest<Image> -> string)
    returns (description: string, request: PlanRequest<Image>)
    ensures request.promptType == PromptType(diagramType)
    ensures request.sourceContext == sourceContext && request.caption == caption
    ensures |examples| == 0 ==> request.examplesText == NoExamplesText
    ensures |examples| > 0 ==>
      request.examplesText == Join("\n", seq(|examples|, i requires 0 <= i < |examples| => Entry(examples, i, pathExists)))
    ensures forall i :: 0 <= i < |examples| ==> Contains(request.examplesText, Entry(examples, i, pathExists))
    ensures request.images.None? <==> Loaded(examples, pathExists, load) == []
    ensures request.images.Some? ==> request.images.value == Loaded(examples, pathExists, load)
    ensures description == answer(request)
  {
    var text := FormatExamples(examples, pathExists);
    var images := LoadExampleImages(examples, pathExists, load);
    request := PlanRequest(PromptType(diagramType), sourceContext, caption, text, if images != [] then Some(images) else None);
    description := answer(request);
  }
}
