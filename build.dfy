/**
 * The reference-set builder: which sections of a parsed paper are its
 * methodology, the text collected from them, which figures are candidate
 * methodology diagrams and in what order, the identifier and category given
 * to a paper, and the merge of new examples into an existing index.
 *
 * The heading classifiers are parameters: `isMethod` (a methodology
 * heading), `isPre` (a section that comes before the method) and `isStop`
 * (a section that ends it), each applied to a heading's stripped text.
 */
module Build {
  import opened Base
  import opened Strings
  import opened Headings

  /** A heading as the builder records it: its stripped text and its section number. */
  datatype Heading = Heading(text: string, sec: Option<nat>)

  /** The heading an item is, if it is one. */
  function HeadingOf(item: ContentItem): Option<Heading> {
    match ViewOf(item)
    case HeadingView(text, sec) => Some(Heading(text, sec))
    case BodyView(_) => None
  }

  /**
   * The headings of a content list, in order. Its contract is only the
   * length bound; that they are every heading item's and nothing else is
   * `HeadingsOfComplete` and `HeadingsOfSound`.
   */
  function HeadingsOf(items: seq<ContentItem>): (r: seq<Heading>)
    ensures |r| <= |items|
    decreases |items|
  {
    if |items| == 0 then []
    else
      var init := HeadingsOf(items[..|items| - 1]);
      match HeadingOf(items[|items| - 1])
      case Some(h) => init + [h]
      case None => init
  }

  /** Every heading item's heading is listed. */
  lemma {:induction false} HeadingsOfComplete(items: seq<ContentItem>, k: nat)
    requires k < |items| && HeadingOf(items[k]).Some?
    ensures HeadingOf(items[k]).value in HeadingsOf(items)
    decreases |items|
  {
    var pre, last := items[..|items| - 1], HeadingOf(items[|items| - 1]);
    assert HeadingsOf(items) == if last.Some? then HeadingsOf(pre) + [last.value] else HeadingsOf(pre);
    if k < |pre| {
      assert pre[k] == items[k];
      HeadingsOfComplete(pre, k);
      assert HeadingsOf(pre) <= HeadingsOf(items);
    } else {
      assert k == |items| - 1;
      var h := last.value;
      assert HeadingsOf(items) == HeadingsOf(pre) + [h];
      assert HeadingsOf(items)[|HeadingsOf(pre)|] == h;
    }
  }

  /** Every listed heading is a heading item's. */
  lemma {:induction false} HeadingsOfSound(items: seq<ContentItem>, h: Heading)
    requires h in HeadingsOf(items)
    ensures exists k :: 0 <= k < |items| && HeadingOf(items[k]) == Some(h)
    decreases |items|
  {
    var pre := items[..|items| - 1];
    if h in HeadingsOf(pre) {
      HeadingsOfSound(pre, h);
      var k :| 0 <= k < |pre| && HeadingOf(pre[k]) == Some(h);
      assert pre[k] == items[k];
    } else {
      assert HeadingOf(items[|items| - 1]) == Some(h);
    }
  }

  /** Step 2 of `parse_content_list`: the loop that lists the headings. */
  method CollectHeadings(items: seq<ContentItem>) returns (headings: seq<Heading>)
    ensures headings == HeadingsOf(items)
  {
    headings := [];
    var i := 0;
    while i < |items|
      invariant 0 <= i <= |items|
      invariant headings == HeadingsOf(items[..i])
    {
      var item := items[i];
      assert items[..i + 1][..i] == items[..i];
      var heading := HeadingOf(item);
      if heading.Some? {
        headings := headings + [heading.value];
      }
      i := i + 1;
    }
    assert items[..i] == items;
  }

  /** A numbered heading the classifier accepts. */
  predicate NumberedBy(h: Heading, classifier: string -> bool) {
    h.sec.Some? && classifier(h.text)
  }

  /** The largest number of a numbered heading the classifier accepts. */
  function MaxNumbered(hs: seq<Heading>, classifier: string -> bool): (r: Option<nat>)
    ensures r.None? <==> forall k :: 0 <= k < |hs| ==> !NumberedBy(hs[k], classifier)
    ensures r.Some? ==> exists k :: 0 <= k < |hs| && NumberedBy(hs[k], classifier) && hs[k].sec.value == r.value
    ensures r.Some? ==> forall k :: 0 <= k < |hs| && NumberedBy(hs[k], classifier) ==> hs[k].sec.value <= r.value
    decreases |hs|
  {
    if |hs| == 0 then None
    else
      assert forall k :: 0 <= k < |hs| - 1 ==> hs[..|hs| - 1][k] == hs[k];
      MaxStep(MaxNumbered(hs[..|hs| - 1], classifier), hs[|hs| - 1], classifier)
  }

  /** One step of the running maximum. */
  function MaxStep(acc: Option<nat>, h: Heading, classifier: string -> bool): Option<nat> {
    if !NumberedBy(h, classifier) then acc
    else if acc.None? || h.sec.value > acc.value then h.sec
    else acc
  }

  /** The smallest number of a numbered heading the classifier accepts. */
  function MinNumbered(hs: seq<Heading>, classifier: string -> bool): (r: Option<nat>)
    ensures r.None? <==> forall k :: 0 <= k < |hs| ==> !NumberedBy(hs[k], classifier)
    ensures r.Some? ==> exists k :: 0 <= k < |hs| && NumberedBy(hs[k], classifier) && hs[k].sec.value == r.value
    ensures r.Some? ==> forall k :: 0 <= k < |hs| && NumberedBy(hs[k], classifier) ==> r.value <= hs[k].sec.value
    decreases |hs|
  {
    if |hs| == 0 then None
    else
      assert forall k :: 0 <= k < |hs| - 1 ==> hs[..|hs| - 1][k] == hs[k];
      MinStep(MinNumbered(hs[..|hs| - 1], classifier), hs[|hs| - 1], classifier)
  }

  /** One step of the running minimum. */
  function MinStep(acc: Option<nat>, h: Heading, classifier: string -> bool): Option<nat> {
    if !NumberedBy(h, classifier) then acc
    else if acc.None? || h.sec.value < acc.value then h.sec
    else acc
  }

  /** `list(range(lo, hi))`. */
  function Range(lo: int, hi: int): (r: seq<int>)
    ensures |r| == Max(0, hi - lo)
    ensures forall k :: 0 <= k < |r| ==> r[k] == lo + k
    decreases hi - lo
  {
    if lo >= hi then [] else [lo] + Range(lo + 1, hi)
  }

  /**
   * The positional guess: every number after the last numbered pre-method
   * heading and before the first numbered stop heading; nothing when either
   * kind is missing.
   */
  function Positional(hs: seq<Heading>, isPre: string -> bool, isStop: string -> bool): (r: seq<int>)
    ensures forall k :: 0 <= k < |r| ==> r[k] == r[0] + k
    ensures r != [] ==>
      && MaxNumbered(hs, isPre).Some? && MinNumbered(hs, isStop).Some?
      && r[0] == MaxNumbered(hs, isPre).value + 1
      && r[|r| - 1] == MinNumbered(hs, isStop).value - 1
  {
    Between(MaxNumbered(hs, isPre), MinNumbered(hs, isStop))
  }

  /** The numbers strictly between two bounds, or nothing when a bound is missing. */
  function Between(pre: Option<nat>, post: Option<nat>): seq<int> {
    if pre.None? || post.None? then [] else Range(pre.value + 1, post.value)
  }

  /**
   * A number is in the positional guess exactly when both kinds of heading
   * exist and the number lies above every pre-method number and below every
   * stop number.
   */
  lemma {:induction false} PositionalMembers(hs: seq<Heading>, isPre: string -> bool, isStop: string -> bool, n: int)
    ensures n in Positional(hs, isPre, isStop) <==>
      && (exists k :: 0 <= k < |hs| && NumberedBy(hs[k], isPre))
      && (exists k :: 0 <= k < |hs| && NumberedBy(hs[k], isStop))
      && (forall k :: 0 <= k < |hs| && NumberedBy(hs[k], isPre) ==> hs[k].sec.value < n)
      && (forall k :: 0 <= k < |hs| && NumberedBy(hs[k], isStop) ==> n < hs[k].sec.value)
  {
    var pre, post := MaxNumbered(hs, isPre), MinNumbered(hs, isStop);
    if pre.Some? && post.Some? {
      var r := Range(pre.value + 1, post.value);
      if pre.value < n < post.value {
        assert r[n - pre.value - 1] == n;
      }
    }
  }

  /** `_find_method_sections_by_position`: one pass keeping the running maximum and minimum. */
  method FindMethodSectionsByPosition(headings: seq<Heading>, isPre: string -> bool, isStop: string -> bool)
    returns (r: seq<int>)
    ensures r == Positional(headings, isPre, isStop)
  {
    var lastPre: Option<nat> := None;
    var firstPost: Option<nat> := None;
    var i := 0;
    while i < |headings|
      invariant 0 <= i <= |headings|
      invariant lastPre == MaxNumbered(headings[..i], isPre)
      invariant firstPost == MinNumbered(headings[..i], isStop)
    {
      assert headings[..i + 1][..i] == headings[..i];
      lastPre, firstPost := Track(lastPre, firstPost, headings[i], isPre, isStop);
      i := i + 1;
    }
    assert headings[..i] == headings;
    if lastPre.None? || firstPost.None? {
      return [];
    }
    r := Range(lastPre.value + 1, firstPost.value);
  }

  /** The body of the pass: one heading updates the running maximum and minimum. */
  method Track(lastPre0: Option<nat>, firstPost0: Option<nat>, h: Heading, isPre: string -> bool, isStop: string -> bool)
    returns (lastPre: Option<nat>, firstPost: Option<nat>)
    ensures lastPre == MaxStep(lastPre0, h, isPre) && firstPost == MinStep(firstPost0, h, isStop)
  {
    lastPre, firstPost := lastPre0, firstPost0;
    if h.sec.Some? {
      var secNum := h.sec.value;
      if isPre(h.text) {
        if lastPre.None? || secNum > lastPre.value {
          lastPre := Some(secNum);
        }
      }
      if isStop(h.text) {
        if firstPost.None? || secNum < firstPost.value {
          firstPost := Some(secNum);
        }
      }
    }
  }

  /** The numbers of the numbered headings that the methodology classifier accepts. */
  function ExplicitNumbers(hs: seq<Heading>, isMethod: string -> bool): set<int> {
    set k | 0 <= k < |hs| && NumberedBy(hs[k], isMethod) :: hs[k].sec.value as int
  }

  /** Step 3: the loop gathering the explicitly named methodology sections. */
  method GatherExplicit(headings: seq<Heading>, isMethod: string -> bool) returns (nums: set<int>)
    ensures nums == ExplicitNumbers(headings, isMethod)
  {
    nums := {};
    var i := 0;
    while i < |headings|
      invariant 0 <= i <= |headings|
      invariant nums == ExplicitNumbers(headings[..i], isMethod)
    {
      var prefix := headings[..i + 1];
      assert prefix[..i] == headings[..i];
      assert ExplicitNumbers(prefix, isMethod) ==
        ExplicitNumbers(headings[..i], isMethod) + (if NumberedBy(headings[i], isMethod) then {headings[i].sec.value as int} else {}) by {
        assert forall k :: 0 <= k < i ==> prefix[k] == headings[k];
        assert prefix[i] == headings[i];
      }
      var h := headings[i];
      if h.sec.Some? && isMethod(h.text) {
        nums := nums + {h.sec.value};
      }
      i := i + 1;
    }
    assert headings[..i] == headings;
  }

  /** The sections treated as methodology: the named ones when there are any, else the positional guess. */
  function MethodSections(items: seq<ContentItem>, isMethod: string -> bool, isPre: string -> bool, isStop: string -> bool): (r: set<int>)
    ensures ExplicitNumbers(HeadingsOf(items), isMethod) != {} ==> r == ExplicitNumbers(HeadingsOf(items), isMethod)
    ensures ExplicitNumbers(HeadingsOf(items), isMethod) == {} ==>
      forall n :: n in r <==> n in Positional(HeadingsOf(items), isPre, isStop)
  {
    Chosen(HeadingsOf(items), isMethod, isPre, isStop)
  }

  /** The choice made from the list of headings. */
  function Chosen(hs: seq<Heading>, isMethod: string -> bool, isPre: string -> bool, isStop: string -> bool): (r: set<int>)
    ensures ExplicitNumbers(hs, isMethod) != {} ==> r == ExplicitNumbers(hs, isMethod)
    ensures ExplicitNumbers(hs, isMethod) == {} ==> forall n :: n in r <==> n in Positional(hs, isPre, isStop)
  {
    var explicit := ExplicitNumbers(hs, isMethod);
    if explicit != {} then explicit else set n | n in Positional(hs, isPre, isStop)
  }

  /**
   * Steps 2 to 4 of `parse_content_list`: choose the methodology sections
   * and collect their text, joined by blank lines.
   */
  method ExtractMethodology(items: seq<ContentItem>, isMethod: string -> bool, isPre: string -> bool, isStop: string -> bool)
    returns (sections: set<int>, text: string)
    ensures sections == MethodSections(items, isMethod, isPre, isStop)
    ensures text == Join("\n\n", Collect(items, sections, isStop))
  {
    var headings := CollectHeadings(items);
    sections := ChooseSections(headings, isMethod, isPre, isStop);
    text := CollectText(items, sections, isStop);
  }

  /** Step 3: the named sections, or the positional guess when none is named. */
  method ChooseSections(headings: seq<Heading>, isMethod: string -> bool, isPre: string -> bool, isStop: string -> bool)
    returns (sections: set<int>)
    ensures sections == Chosen(headings, isMethod, isPre, isStop)
  {
    var explicit := GatherExplicit(headings, isMethod);
    if explicit != {} {
      sections := explicit;
    } else {
      var positional := FindMethodSectionsByPosition(headings, isPre, isStop);
      sections := set n | n in positional;
    }
  }

  /** Step 4: the walk over the items, collecting the chosen sections' text. */
  method CollectText(items: seq<ContentItem>, sections: set<int>, isStop: string -> bool) returns (text: string)
    ensures text == Join("\n\n", Collect(items, sections, isStop))
  {
    var inMethod := false;
    var parts: seq<string> := [];
    var i := 0;
    while i < |items|
      invariant 0 <= i <= |items|
      invariant Collector(inMethod, parts) == Run(Start, Views(items)[..i], sections, isStop)
    {
      RunSnoc(Start, Views(items), i, sections, isStop);
      ViewAt(items, i);
      inMethod, parts := Visit(inMethod, parts, items[i], sections, isStop);
      i := i + 1;
    }
    assert Views(items)[..i] == Views(items);
    text := Join("\n\n", parts);
  }

  /** The body of the extraction loop: what one item does to the flag and the parts. */
  method Visit(inMethod0: bool, parts0: seq<string>, item: ContentItem, sections: set<int>, isStop: string -> bool)
    returns (inMethod: bool, parts: seq<string>)
    ensures Collector(inMethod, parts) == Step(Collector(inMethod0, parts0), ViewOf(item), sections, isStop)
  {
    inMethod, parts := inMethod0, parts0;
    var text := Strip(item.text);
    if item.level != 0 && text != "" {
      var secNum := SectionNumber(text);
      assert ViewOf(item) == HeadingView(text, secNum);
      if secNum.Some? && secNum.value in sections {
        inMethod := true;
        parts := parts + [text];
        return;
      }
      if secNum.Some? && inMethod {
        if PrefixOfChosen(secNum.value, sections) {
          parts := parts + [text];
          return;
        } else {
          inMethod := false;
          return;
        }
      }
      if inMethod && isStop(text) {
        inMethod := false;
        return;
      }
      if inMethod {
        parts := parts + [text];
        return;
      }
    }
    assert !IsHeading(item) ==> ViewOf(item) == BodyView(BodyParts(item));
    if inMethod {
      if item.kind == "text" && text != "" {
        parts := parts + [text];
      } else if item.kind == "equation" && text != "" {
        parts := parts + ["[Equation: " + text + "]"];
      } else if item.kind == "list" {
        parts := AppendListItems(parts, item.listItems);
      }
    }
  }

  // ----- Figures -----

  /** A figure of a parsed paper: its caption and its width-to-height ratio. */
  datatype Figure = Figure(caption: string, aspectRatio: real, imagePath: string)

  /** A figure kept as a candidate, with whether its caption suggests a methodology diagram. */
  datatype Candidate = Candidate(figure: Figure, isMethodFigure: bool)

  /** Caption words of result plots. */
  const ResultKeywords: seq<string> := [
    "performance", "accuracy", "comparison", "ablation",
    "training curve", "loss curve", "convergence",
    "visualization of", "t-sne", "tsne", "qualitative",
    "pass@", "wall-clock", "efficiency"]

  /** Caption words of methodology diagrams. */
  const MethodKeywords: seq<string> := [
    "overview", "architecture", "framework", "pipeline",
    "model", "method", "proposed", "approach", "system",
    "structure", "design", "workflow", "diagram",
    "illustration", "confronting", "mechanism"]

  /** `any(kw in text for kw in keywords)`. */
  predicate HasKeyword(text: string, keywords: seq<string>) {
    exists k :: 0 <= k < |keywords| && Contains(text, keywords[k])
  }

  /** A figure that passes the filter: a caption, a ratio in range, and no result word in the caption. */
  predicate Admissible(f: Figure, minRatio: real, maxRatio: real) {
    f.caption != "" && minRatio <= f.aspectRatio <= maxRatio && !HasKeyword(Lower(f.caption), ResultKeywords)
  }

  /** The candidate a figure becomes when it passes the filter. */
  function Tagged(f: Figure): Candidate {
    Candidate(f, HasKeyword(Lower(f.caption), MethodKeywords))
  }

  /**
   * The candidates, in figure order. Its contract is only the length
   * bound; that they are exactly the admissible figures, tagged, is
   * `CandidatesExact`.
   */
  function Candidates(figures: seq<Figure>, minRatio: real, maxRatio: real): (r: seq<Candidate>)
    ensures |r| <= |figures|
    decreases |figures|
  {
    if |figures| == 0 then []
    else
      var init := Candidates(figures[..|figures| - 1], minRatio, maxRatio);
      var f := figures[|figures| - 1];
      if Admissible(f, minRatio, maxRatio) then init + [Tagged(f)] else init
  }

  /**
   * The candidates are exactly the admissible figures, each tagged by
   * whether its caption has a methodology word.
   */
  lemma {:induction false} CandidatesExact(figures: seq<Figure>, minRatio: real, maxRatio: real)
    ensures forall c :: c in Candidates(figures, minRatio, maxRatio) <==>
      exists f :: f in figures && Admissible(f, minRatio, maxRatio) && c == Tagged(f)
    decreases |figures|
  {
    if |figures| > 0 {
      var init := figures[..|figures| - 1];
      CandidatesExact(init, minRatio, maxRatio);
      assert figures == init + [figures[|figures| - 1]];
    }
  }

  /** How far a candidate's ratio lies from 2.0, the sort's second key. */
  function Distance(c: Candidate): real {
    var d := c.figure.aspectRatio - 2.0;
    if d < 0.0 then -d else d
  }

  /**
   * The sort key `(not is_method_figure, abs(aspect_ratio - 2.0))` compared
   * as a tuple: `a` sorts strictly before `b`.
   */
  predicate KeyLess(a: Candidate, b: Candidate) {
    (a.isMethodFigure && !b.isMethodFigure) ||
    (a.isMethodFigure == b.isMethodFigure && Distance(a) < Distance(b))
  }

  /** No candidate sorts before an earlier one. */
  predicate SortedByKey(s: seq<Candidate>) {
    forall i, j :: 0 <= i < j < |s| ==> !KeyLess(s[j], s[i])
  }

  /**
   * Placing `x` into a sorted list after every candidate whose key is not
   * larger than its own, as a stable sort places a later element.
   */
  function Insert(s: seq<Candidate>, x: Candidate): (r: seq<Candidate>)
    ensures multiset(r) == multiset(s) + multiset{x}
    decreases |s|
  {
    if |s| == 0 then [x]
    else
      var init, last := s[..|s| - 1], s[|s| - 1];
      assert s == init + [last];
      if KeyLess(x, last) then Insert(init, x) + [last] else s + [x]
  }

  /** `list.sort(key=...)`, Python's stable sort, as insertion of each candidate in turn. */
  function SortByKey(cs: seq<Candidate>): (r: seq<Candidate>)
    ensures multiset(r) == multiset(cs)
    decreases |cs|
  {
    if |cs| == 0 then []
    else
      assert cs == cs[..|cs| - 1] + [cs[|cs| - 1]];
      Insert(SortByKey(cs[..|cs| - 1]), cs[|cs| - 1])
  }

  /** Inserting into a sorted list keeps it sorted. */
  lemma {:induction false} InsertSorted(s: seq<Candidate>, x: Candidate)
    requires SortedByKey(s)
    ensures SortedByKey(Insert(s, x))
    decreases |s|
  {
    if |s| > 0 {
      var init, last := s[..|s| - 1], s[|s| - 1];
      var r := Insert(s, x);
      if KeyLess(x, last) {
        assert SortedByKey(init);
        InsertSorted(init, x);
        var front := Insert(init, x);
        assert r == front + [last];
        forall i | 0 <= i < |front|
          ensures !KeyLess(last, front[i])
        {
          assert front[i] in multiset(init) + multiset{x};
          if front[i] != x {
            assert front[i] in init;
          }
        }
      } else {
        assert r == s + [x];
      }
    }
  }

  /** The sort yields a sorted list. */
  lemma {:induction false} SortByKeySorted(cs: seq<Candidate>)
    ensures SortedByKey(SortByKey(cs))
    decreases |cs|
  {
    if |cs| > 0 {
      SortByKeySorted(cs[..|cs| - 1]);
      InsertSorted(SortByKey(cs[..|cs| - 1]), cs[|cs| - 1]);
    }
  }

  /**
   * The sort is a permutation of the candidates that puts every methodology
   * figure before every other figure and, within each group, a ratio closer
   * to 2.0 first.
   */
  lemma SortByKeyOrdered(cs: seq<Candidate>)
    ensures multiset(SortByKey(cs)) == multiset(cs)
    ensures var r := SortByKey(cs);
      forall i, j :: 0 <= i < j < |r| && r[j].isMethodFigure ==> r[i].isMethodFigure
    ensures var r := SortByKey(cs);
      forall i, j :: 0 <= i < j < |r| && r[i].isMethodFigure == r[j].isMethodFigure ==> Distance(r[i]) <= Distance(r[j])
  {
    SortByKeySorted(cs);
  }

  /** The filtering loop of `identify_methodology_figures`. */
  method FilterFigures(figures: seq<Figure>, minRatio: real, maxRatio: real) returns (candidates: seq<Candidate>)
    ensures candidates == Candidates(figures, minRatio, maxRatio)
  {
    candidates := [];
    var i := 0;
    while i < |figures|
      invariant 0 <= i <= |figures|
      invariant candidates == Candidates(figures[..i], minRatio, maxRatio)
    {
      assert figures[..i + 1][..i] == figures[..i];
      var fig := figures[i];
      i := i + 1;
      if fig.caption == "" {
        continue;
      }
      var ratio := fig.aspectRatio;
      if ratio < minRatio || ratio > maxRatio {
        continue;
      }
      var captionLower := Lower(fig.caption);
      if HasKeyword(captionLower, ResultKeywords) {
        continue;
      }
      var isMethod := HasKeyword(captionLower, MethodKeywords);
      candidates := candidates + [Candidate(fig, isMethod)];
    }
    assert figures[..i] == figures;
  }

  /**
   * `identify_methodology_figures`: the admissible figures, methodology
   * figures first, each group by closeness of its ratio to 2.0.
   */
  method IdentifyMethodologyFigures(figures: seq<Figure>, minRatio: real, maxRatio: real) returns (ordered: seq<Candidate>)
    ensures ordered == SortByKey(Candidates(figures, minRatio, maxRatio))
  {
    var candidates := FilterFigures(figures, minRatio, maxRatio);
    ordered := SortByKey(candidates);
  }

  /**
   * What the caller gets: admissible figures, correctly tagged, each as
   * often as among the candidates, methodology figures first, and within a
   * group the ratios closest to 2.0 first.
   */
  lemma IdentifiedFigures(figures: seq<Figure>, minRatio: real, maxRatio: real)
    ensures var r := SortByKey(Candidates(figures, minRatio, maxRatio));
      && (forall c :: c in r ==> c.figure in figures && Admissible(c.figure, minRatio, maxRatio) && c == Tagged(c.figure))
      && (forall f :: f in figures && Admissible(f, minRatio, maxRatio) ==> Tagged(f) in r)
      && multiset(r) == multiset(Candidates(figures, minRatio, maxRatio))
      && (forall i, j :: 0 <= i < j < |r| && r[j].isMethodFigure ==> r[i].isMethodFigure)
      && (forall i, j :: 0 <= i < j < |r| && r[i].isMethodFigure == r[j].isMethodFigure ==> Distance(r[i]) <= Distance(r[j]))
  {
    var cs := Candidates(figures, minRatio, maxRatio);
    CandidatesExact(figures, minRatio, maxRatio);
    SortByKeyOrdered(cs);
    var r := SortByKey(cs);
    forall c | c in r
      ensures c in cs
    {
      assert c in multiset(r);
    }
    forall f | f in figures && Admissible(f, minRatio, maxRatio)
      ensures Tagged(f) in r
    {
      assert Tagged(f) in cs;
      assert Tagged(f) in multiset(r);
    }
  }

  // ----- Paper identifiers -----

  /** A character `[^a-zA-Z0-9\s]` does not remove. */
  predicate IsTitleChar(c: char) {
    IsAsciiAlnum(c) || IsSpace(c)
  }

  /** Removing every character that is neither an ASCII letter or digit nor whitespace. */
  function KeepTitleChars(s: string): (r: string)
    ensures forall k :: 0 <= k < |r| ==> IsTitleChar(r[k])
    decreases |s|
  {
    if |s| == 0 then ""
    else (if IsTitleChar(s[0]) then [s[0]] else "") + KeepTitleChars(s[1..])
  }

  /** At most the first five lower-cased words of the cleaned title. */
  function TitleWords(title: string): seq<string> {
    Take(Words(Lower(KeepTitleChars(title))), 5)
  }

  /** The directory name with every character other than an ASCII letter or digit turned into `_`. */
  function Underscored(s: string): string {
    seq(|s|, i requires 0 <= i < |s| => if IsAsciiAlnum(s[i]) then s[i] else '_')
  }

  /** `s.lstrip(c)`. */
  function TrimStart(s: string, c: char): (r: string)
    ensures |r| <= |s| && r == s[|s| - |r|..]
    ensures r == [] || r[0] != c
    ensures forall i :: 0 <= i < |s| - |r| ==> s[i] == c
    decreases |s|
  {
    if |s| > 0 && s[0] == c then TrimStart(s[1..], c) else s
  }

  /** `s.rstrip(c)`. */
  function TrimEnd(s: string, c: char): (r: string)
    ensures |r| <= |s| && r == s[..|r|]
    ensures r == [] || r[|r| - 1] != c
    ensures forall i :: |r| <= i < |s| ==> s[i] == c
    decreases |s|
  {
    if |s| > 0 && s[|s| - 1] == c then TrimEnd(s[..|s| - 1], c) else s
  }

  /**
   * `generate_paper_id`: the first five words of the cleaned, lower-cased
   * title joined by `_`; when that is empty, the directory name with
   * non-alphanumerics turned into `_` and outer underscores removed.
   */
  function GeneratePaperId(title: string, dirName: string): (r: string)
    ensures TitleWords(title) != [] ==> r == Join("_", TitleWords(title))
    ensures TitleWords(title) == [] ==> r == DirId(dirName)
  {
    TitleWordsJoin(title);
    if title != "" && Join("_", TitleWords(title)) != "" then Join("_", TitleWords(title))
    else DirId(dirName)
  }

  /** The directory-name identifier: non-alphanumerics turned into `_`, then outer underscores removed. */
  function DirId(dirName: string): string {
    TrimEnd(TrimStart(Underscored(dirName), '_'), '_')
  }

  /** Only ASCII letters, digits and underscores. */
  predicate IdChars(s: string) {
    forall k :: 0 <= k < |s| ==> IsAsciiAlnum(s[k]) || s[k] == '_'
  }

  /** A lower-case ASCII letter or a digit. */
  predicate IsSlugChar(c: char) {
    IsDigit(c) || 'a' <= c <= 'z'
  }

  /** A non-empty title slug is made of one to five words of lower-case letters and digits, and splitting it on `_` gives them back. */
  lemma TitleSlug(title: string, dirName: string)
    requires TitleWords(title) != []
    ensures var ws := TitleWords(title);
      && 1 <= |ws| <= 5
      && (forall i, k :: 0 <= i < |ws| && 0 <= k < |ws[i]| ==> IsSlugChar(ws[i][k]))
      && (forall i :: 0 <= i < |ws| ==> ws[i] != "")
      && SplitOn(GeneratePaperId(title, dirName), '_') == ws
  {
    var ws := TitleWords(title);
    TitleWordChars(title);
    forall i | 0 <= i < |ws|
      ensures '_' !in ws[i]
    {
      assert forall k :: 0 <= k < |ws[i]| ==> IsSlugChar(ws[i][k]);
    }
    assert title != "";
    NonEmptyJoin(ws);
    SplitOnJoin(ws, '_');
  }

  /** The title words are non-empty runs of lower-case letters and digits. */
  lemma TitleWordChars(title: string)
    ensures var ws := TitleWords(title);
      && (forall i, k :: 0 <= i < |ws| && 0 <= k < |ws[i]| ==> IsSlugChar(ws[i][k]))
      && (forall i :: 0 <= i < |ws| ==> ws[i] != "")
  {
    var kept := KeepTitleChars(title);
    var low := Lower(kept);
    forall k | 0 <= k < |low|
      ensures IsSlugChar(low[k]) || IsSpace(low[k])
    {
      assert IsTitleChar(kept[k]);
    }
    WordsChars(low);
    WordsAreWords(low);
    var ws := TitleWords(title);
    forall i | 0 <= i < |ws|
      ensures ws[i] == Words(low)[i] && ws[i] != ""
    {
    }
    forall i, k | 0 <= i < |ws| && 0 <= k < |ws[i]|
      ensures IsSlugChar(ws[i][k])
    {
      assert CharsIn(ws[i], low);
      assert ws[i][k] in low && !IsSpace(ws[i][k]);
    }
  }

  /** Title words come only from a non-empty title, and joining them gives a non-empty identifier. */
  lemma TitleWordsJoin(title: string)
    ensures TitleWords(title) != [] ==> title != "" && Join("_", TitleWords(title)) != ""
  {
    TitleWordChars(title);
    if TitleWords(title) != [] {
      NonEmptyJoin(TitleWords(title));
    }
  }

  /** Joining at least one non-empty part gives a non-empty string. */
  lemma NonEmptyJoin(parts: seq<string>)
    requires |parts| >= 1 && parts[0] != ""
    ensures Join("_", parts) != ""
  {
  }

  /** The ASCII letters and digits of a string, in order. */
  function Alnums(s: string): string
    decreases |s|
  {
    if |s| == 0 then "" else (if IsAsciiAlnum(s[0]) then [s[0]] else "") + Alnums(s[1..])
  }

  lemma {:induction false} AlnumsAppend(a: string, b: string)
    ensures Alnums(a + b) == Alnums(a) + Alnums(b)
    decreases |a|
  {
    if |a| == 0 {
      assert a + b == b;
    } else {
      var h := if IsAsciiAlnum(a[0]) then [a[0]] else "";
      assert (a + b)[0] == a[0];
      assert (a + b)[1..] == a[1..] + b;
      assert Alnums(a + b) == h + Alnums(a[1..] + b);
      assert Alnums(a) == h + Alnums(a[1..]);
      AlnumsAppend(a[1..], b);
      assert h + (Alnums(a[1..]) + Alnums(b)) == (h + Alnums(a[1..])) + Alnums(b);
    }
  }

  lemma {:induction false} AlnumsUnderscored(s: string)
    ensures Alnums(Underscored(s)) == Alnums(s)
    decreases |s|
  {
    if |s| > 0 {
      assert Underscored(s)[1..] == Underscored(s[1..]);
      AlnumsUnderscored(s[1..]);
    }
  }

  lemma {:induction false} AlnumsNone(s: string)
    requires forall k :: 0 <= k < |s| ==> s[k] == '_'
    ensures Alnums(s) == ""
    decreases |s|
  {
    if |s| > 0 {
      AlnumsNone(s[1..]);
    }
  }

  /**
   * The directory-name fallback: letters, digits and underscores only, no
   * underscore at either end, and the letters and digits of the directory
   * name kept, in order; so it is empty exactly when the name has none.
   */
  lemma DirIdShape(dirName: string)
    ensures var r := DirId(dirName);
      && IdChars(r)
      && (r == "" || (r[0] != '_' && r[|r| - 1] != '_'))
      && Alnums(r) == Alnums(dirName)
  {
    var u := Underscored(dirName);
    var a := TrimStart(u, '_');
    var r := TrimEnd(a, '_');
    assert IdChars(u);
    TrimStartAlnums(u);
    TrimEndAlnums(a);
    AlnumsUnderscored(dirName);
    if r != "" {
      assert r[0] == a[0];
    }
  }

  /** Removing leading underscores keeps the letters and digits, and keeps the characters allowed. */
  lemma TrimStartAlnums(u: string)
    ensures Alnums(TrimStart(u, '_')) == Alnums(u)
    ensures IdChars(u) ==> IdChars(TrimStart(u, '_'))
  {
    var a := TrimStart(u, '_');
    var n := |u| - |a|;
    var d := u[..n];
    assert a == u[n..];
    assert u == d + a;
    forall k | 0 <= k < |d|
      ensures d[k] == '_'
    {
      assert d[k] == u[k];
    }
    AlnumsNone(d);
    AlnumsAppend(d, a);
    assert Alnums(d) + Alnums(a) == Alnums(a);
    if IdChars(u) {
      IdCharsSuffix(u, n);
    }
  }

  /** A suffix of a string of identifier characters is one too. */
  lemma IdCharsSuffix(u: string, n: nat)
    requires IdChars(u) && n <= |u|
    ensures IdChars(u[n..])
  {
    forall k | 0 <= k < |u| - n
      ensures IsAsciiAlnum(u[n..][k]) || u[n..][k] == '_'
    {
      assert u[n..][k] == u[n + k];
    }
  }

  /** Removing trailing underscores keeps the letters and digits, and keeps the characters allowed. */
  lemma TrimEndAlnums(a: string)
    ensures Alnums(TrimEnd(a, '_')) == Alnums(a)
    ensures IdChars(a) ==> IdChars(TrimEnd(a, '_'))
  {
    var r := TrimEnd(a, '_');
    var d := a[|r|..];
    assert a == r + d;
    forall k | 0 <= k < |d|
      ensures d[k] == '_'
    {
      assert d[k] == a[|r| + k];
    }
    AlnumsNone(d);
    AlnumsAppend(r, d);
    assert Alnums(r) + Alnums(d) == Alnums(r);
    if IdChars(a) {
      forall k | 0 <= k < |r|
        ensures IsAsciiAlnum(r[k]) || r[k] == '_'
      {
        assert r[k] == a[k];
      }
    }
  }

  // ----- Categories -----

  /** The categories, in declaration order. */
  const Categories: seq<string> := ["agent_reasoning", "vision_perception", "generative_learning", "science_applications"]

  /** The keywords of each category, in the order of `Categories`. */
  const CategoryKeywords: seq<seq<string>> := [
    ["agent", "llm", "language model", "retrieval", "reasoning",
     "reinforcement learning", "planning", "rag",
     "multi-agent", "dialogue", "chatbot", "instruction",
     "chain-of-thought", "code generation", "tool use"],
    ["vision", "image", "object detection", "segmentation",
     "visual", "point cloud", "3d", "video", "camera",
     "optical", "lidar", "depth", "perception", "reconstruction"],
    ["diffusion", "generative", "vae", "autoencoder", "gan",
     "generation", "synthesis", "denoising", "latent",
     "flow matching", "score-based"],
    ["graph", "molecule", "protein", "drug", "chemical",
     "physics", "material", "biology", "genome",
     "gnn", "scientific", "neural network"]]

  /** How many of the keywords occur in the text. */
  function Hits(text: string, keywords: seq<string>): (n: nat)
    ensures n <= |keywords|
    decreases |keywords|
  {
    if |keywords| == 0 then 0
    else Hits(text, keywords[..|keywords| - 1]) + (if Contains(text, keywords[|keywords| - 1]) then 1 else 0)
  }

  /** A keyword found in the text scores. */
  lemma {:induction false} HitsPositive(text: string, keywords: seq<string>, k: nat)
    requires k < |keywords| && Contains(text, keywords[k])
    ensures Hits(text, keywords) > 0
    decreases |keywords|
  {
    if k < |keywords| - 1 {
      HitsPositive(text, keywords[..|keywords| - 1], k);
    }
  }

  /** The index of the first largest score. */
  function FirstMax(scores: seq<nat>): (i: nat)
    requires |scores| > 0
    ensures i < |scores|
    ensures forall j :: 0 <= j < |scores| ==> scores[j] <= scores[i]
    ensures forall j :: 0 <= j < i ==> scores[j] < scores[i]
    decreases |scores|
  {
    if |scores| == 1 then 0
    else
      var init := scores[..|scores| - 1];
      var m := FirstMax(init);
      assert forall j :: 0 <= j < |init| ==> init[j] == scores[j];
      if scores[|scores| - 1] > scores[m] then |scores| - 1 else m
  }

  /** The score of each category on the lower-cased title and methodology text. */
  function Scores(combined: string): (r: seq<nat>)
    ensures |r| == |Categories|
  {
    seq(|CategoryKeywords|, i requires 0 <= i < |CategoryKeywords| => Hits(combined, CategoryKeywords[i]))
  }

  /** `guess_category`: the first category with the most keyword hits, or the science category when nothing hits. */
  function GuessCategory(title: string, methodologyText: string): (r: string)
    ensures r in Categories
    ensures var sc := Scores(Lower(title + " " + methodologyText));
      (forall i :: 0 <= i < |sc| ==> sc[i] == 0) ==> r == "science_applications"
    ensures var sc := Scores(Lower(title + " " + methodologyText));
      (exists i :: 0 <= i < |sc| && sc[i] > 0) ==>
        exists i :: 0 <= i < |sc| && r == Categories[i] &&
          (forall j :: 0 <= j < |sc| ==> sc[j] <= sc[i]) && (forall j :: 0 <= j < i ==> sc[j] < sc[i])
  {
    var sc := Scores(Lower(title + " " + methodologyText));
    var best := FirstMax(sc);
    if sc[best] > 0 then Categories[best] else "science_applications"
  }

  // ----- Merging into an existing index -----

  /** The identifiers of a list of examples. */
  function IdsOf<E(==)>(xs: seq<E>, id: E -> string): set<string> {
    set x | x in xs :: id(x)
  }

  /**
   * The new examples that are kept, in order: one whose identifier is
   * among `seen` or among the examples kept before it is skipped.
   */
  function Admitted<E(==)>(seen: set<string>, found: seq<E>, id: E -> string): (r: seq<E>)
    ensures forall i, j :: 0 <= i < j < |r| ==> id(r[i]) != id(r[j])
    ensures forall i :: 0 <= i < |r| ==> id(r[i]) !in seen && r[i] in found
    ensures forall k :: 0 <= k < |found| ==> id(found[k]) in seen || id(found[k]) in IdsOf(r, id)
    decreases |found|
  {
    if |found| == 0 then []
    else
      var init := Admitted(seen, found[..|found| - 1], id);
      var x := found[|found| - 1];
      assert forall k :: 0 <= k < |found| - 1 ==> found[..|found| - 1][k] == found[k];
      if id(x) in seen || id(x) in IdsOf(init, id) then init
      else
        var r := init + [x];
        assert id(x) in IdsOf(r, id);
        assert forall k :: 0 <= k < |found| - 1 ==> id(found[k]) in seen || id(found[k]) in IdsOf(r, id) by {
          assert forall y :: y in init ==> y in r;
        }
        r
  }

  /**
   * The same choice read front to back, as the merge loop makes it: an
   * example whose identifier is seen is skipped; otherwise it is kept and
   * its identifier becomes seen, so only the first of several examples
   * sharing an identifier is kept, and the kept ones stay in order.
   */
  function FirstUnseen<E>(seen: set<string>, found: seq<E>, id: E -> string): seq<E>
    decreases |found|
  {
    if |found| == 0 then []
    else if id(found[0]) in seen then FirstUnseen(seen, found[1..], id)
    else [found[0]] + FirstUnseen(seen + {id(found[0])}, found[1..], id)
  }

  lemma IdsOfAppend<E>(a: seq<E>, b: seq<E>, id: E -> string)
    ensures IdsOf(a + b, id) == IdsOf(a, id) + IdsOf(b, id)
  {
    assert forall x :: x in a + b <==> x in a || x in b;
  }

  /**
   * Choosing from a concatenation chooses from the first part, then from
   * the second part with the identifiers chosen from the first counted as seen.
   */
  lemma {:induction false} FirstUnseenAppend<E>(seen: set<string>, a: seq<E>, b: seq<E>, id: E -> string)
    ensures var first := FirstUnseen(seen, a, id);
      FirstUnseen(seen, a + b, id) == first + FirstUnseen(seen + IdsOf(first, id), b, id)
    decreases |a|
  {
    if |a| == 0 {
      assert a + b == b;
      assert IdsOf(FirstUnseen(seen, a, id), id) == {};
      assert seen + {} == seen;
    } else {
      var x, a' := a[0], a[1..];
      assert (a + b)[0] == x && (a + b)[1..] == a' + b;
      if id(x) in seen {
        FirstUnseenAppend(seen, a', b, id);
      } else {
        var seen2 := seen + {id(x)};
        FirstUnseenAppend(seen2, a', b, id);
        var rest := FirstUnseen(seen2, a', id);
        IdsOfAppend([x], rest, id);
        assert IdsOf([x], id) == {id(x)};
        assert seen + IdsOf([x] + rest, id) == seen2 + IdsOf(rest, id);
      }
    }
  }

  /**
   * `Admitted` is the front-to-back choice: the kept examples are the found
   * ones, in order, whose identifier is unseen and did not occur earlier.
   */
  lemma {:induction false} AdmittedInOrder<E>(seen: set<string>, found: seq<E>, id: E -> string)
    ensures Admitted(seen, found, id) == FirstUnseen(seen, found, id)
    decreases |found|
  {
    if |found| > 0 {
      var pre, y := found[..|found| - 1], found[|found| - 1];
      AdmittedInOrder(seen, pre, id);
      assert found == pre + [y];
      FirstUnseenAppend(seen, pre, [y], id);
      assert [y][1..] == [];
    }
  }

  /**
   * Admitting a concatenation admits the first part, then the second part
   * with the identifiers admitted from the first counted as seen.
   */
  lemma AdmittedAppend<E>(seen: set<string>, a: seq<E>, b: seq<E>, id: E -> string)
    ensures var first := Admitted(seen, a, id);
      Admitted(seen, a + b, id) == first + Admitted(seen + IdsOf(first, id), b, id)
  {
    var first := Admitted(seen, a, id);
    AdmittedInOrder(seen, a + b, id);
    AdmittedInOrder(seen, a, id);
    AdmittedInOrder(seen + IdsOf(first, id), b, id);
    FirstUnseenAppend(seen, a, b, id);
  }

  /**
   * The de-duplication loop of `main`: the existing examples followed by
   * the new ones whose identifiers were not seen before.
   */
  method AppendNew<E(==)>(existing: seq<E>, found: seq<E>, id: E -> string) returns (all: seq<E>, added: seq<E>)
    ensures added == Admitted(IdsOf(existing, id), found, id)
    ensures all == existing + added
  {
    var existingIds := set e | e in existing :: id(e);
    added := [];
    var i := 0;
    while i < |found|
      invariant 0 <= i <= |found|
      invariant added == Admitted(IdsOf(existing, id), found[..i], id)
      invariant existingIds == IdsOf(existing, id) + IdsOf(added, id)
    {
      assert found[..i + 1][..i] == found[..i];
      var ex := found[i];
      if id(ex) in existingIds {
        i := i + 1;
        continue;
      }
      added := added + [ex];
      existingIds := existingIds + {id(ex)};
      i := i + 1;
    }
    assert found[..i] == found;
    all := existing + added;
  }

  /** When the existing index has unique identifiers, so has the merged one. */
  lemma MergedUnique<E>(existing: seq<E>, found: seq<E>, id: E -> string)
    requires forall i, j :: 0 <= i < j < |existing| ==> id(existing[i]) != id(existing[j])
    ensures var all := existing + Admitted(IdsOf(existing, id), found, id);
      forall i, j :: 0 <= i < j < |all| ==> id(all[i]) != id(all[j])
  {
    var added := Admitted(IdsOf(existing, id), found, id);
    var all := existing + added;
    forall i, j | 0 <= i < j < |all|
      ensures id(all[i]) != id(all[j])
    {
      if i < |existing| && j >= |existing| {
        assert all[i] in existing;
        assert all[j] == added[j - |existing|];
      } else if i >= |existing| {
        assert all[i] == added[i - |existing|] && all[j] == added[j - |existing|];
      }
    }
  }
}
