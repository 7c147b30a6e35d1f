/**
 * The curation script's text extraction: the methodology text of the chosen
 * sections of a parsed paper, and the paper's title.
 */
module Curate {
  import opened Base
  import opened Strings
  import opened Headings

  /**
   * `extract_methodology_text`: the parts collected for the chosen section
   * numbers, joined by blank lines. The curation script has no stop
   * classifier.
   */
  method ExtractMethodologyText(items: seq<ContentItem>, sectionNums: seq<int>) returns (text: string)
    ensures text == Join("\n\n", Collect(items, (set s | s in sectionNums), NeverStop))
  {
    var sectionSet := set s | s in sectionNums;
    var inMethod := false;
    var parts: seq<string> := [];
    var i := 0;
    while i < |items|
      invariant 0 <= i <= |items|
      invariant Collector(inMethod, parts) == Run(Start, Views(items)[..i], sectionSet, NeverStop)
    {
      RunSnoc(Start, Views(items), i, sectionSet, NeverStop);
      ViewAt(items, i);
      inMethod, parts := Visit(inMethod, parts, items[i], sectionSet);
      i := i + 1;
    }
    assert Views(items)[..i] == Views(items);
    text := Join("\n\n", parts);
  }

  /** The body of the walk over the items: what one item does to the flag and the parts. */
  method Visit(inMethod0: bool, parts0: seq<string>, item: ContentItem, sectionSet: set<int>)
    returns (inMethod: bool, parts: seq<string>)
    ensures Collector(inMethod, parts) == Step(Collector(inMethod0, parts0), ViewOf(item), sectionSet, NeverStop)
  {
    inMethod, parts := inMethod0, parts0;
    var text := Strip(item.text);
    if item.level != 0 && text != "" {
      var secNum := SectionNumber(text);
      assert ViewOf(item) == HeadingView(text, secNum);
      if secNum.Some? {
        if secNum.value in sectionSet {
          inMethod := true;
          parts := parts + [text];
          return;
        }
        var parentMatch := PrefixOfChosen(secNum.value, sectionSet);
        if parentMatch && inMethod {
          parts := parts + [text];
          return;
        }
        inMethod := false;
        return;
      }
      if inMethod {
        parts := parts + [text];
        return;
      }
    }
    assert !IsHeading(item) ==> ViewOf(item) == BodyView(BodyParts(item));
    if inMethod {
      if item.kind == "text" && text != "" {
        parts := parts + [text];
      } else if item.kind == "equation" && text != "" {
        parts := parts + ["[Equation: " + text + "]"];
      } else if item.kind == "list" {
        parts := AppendListItems(parts, item.listItems);
      }
    }
  }

  /** The headings a title never starts with, lower-cased. */
  const SkipTitles: set<string> := {
    "abstract", "contents", "table of contents", "references", "acknowledgment",
    "acknowledgments", "introduction", "conclusion", "related work"}

  predicate IsSeparator(c: char) {
    c == '.' || IsSpace(c)
  }

  /**
   * A section label at the start of a text: digits, or a capital letter
   * with an optional dot and optional digits, then a dot or whitespace
   * (as in "3 Method", "2.1", "A. Proofs", "B1 Setup").
   */
  predicate IsSectionLabel(t: string) {
    var d := LeadingDigits(t);
    if |d| > 0 then |t| > |d| && IsSeparator(t[|d|])
    else
      |t| >= 2 && 'A' <= t[0] <= 'Z' &&
      (t[1] == '.' ||
       var e := LeadingDigits(t[1..]); |t| > 1 + |e| && IsSeparator(t[1 + |e|]))
  }

  /** The lower-cased text starts with one of the skip words. */
  predicate StartsWithSkipWord(text: string, skip: set<string>) {
    exists s :: s in skip && StartsWith(Lower(text), s)
  }

  /** A level-1 text item that is neither a section label nor a skipped heading. */
  predicate IsTitleItem(item: ContentItem, skip: set<string>) {
    item.kind == "text" && item.level == 1 &&
    !IsSectionLabel(Strip(item.text)) && !StartsWithSkipWord(Strip(item.text), skip)
  }

  /**
   * `extract_title`: the stripped text of the first title item, or "" when
   * there is none. A first title item whose text is blank gives "" too.
   */
  method ExtractTitle(items: seq<ContentItem>) returns (title: string)
    ensures (forall i :: 0 <= i < |items| ==> !IsTitleItem(items[i], SkipTitles)) ==> title == ""
    ensures (exists i :: 0 <= i < |items| && IsTitleItem(items[i], SkipTitles)) ==>
      exists i :: 0 <= i < |items| && IsTitleItem(items[i], SkipTitles) && title == Strip(items[i].text) &&
        forall j :: 0 <= j < i ==> !IsTitleItem(items[j], SkipTitles)
    ensures title != "" ==> !IsSectionLabel(title) && !StartsWithSkipWord(title, SkipTitles)
  {
    title := FirstTitle(items, SkipTitles);
  }

  /** The walk over the items, for any set of skip words. */
  method FirstTitle(items: seq<ContentItem>, skip: set<string>) returns (title: string)
    ensures (forall i :: 0 <= i < |items| ==> !IsTitleItem(items[i], skip)) ==> title == ""
    ensures (exists i :: 0 <= i < |items| && IsTitleItem(items[i], skip)) ==>
      exists i :: 0 <= i < |items| && IsTitleItem(items[i], skip) && title == Strip(items[i].text) &&
        forall j :: 0 <= j < i ==> !IsTitleItem(items[j], skip)
    ensures title != "" ==> !IsSectionLabel(title) && !StartsWithSkipWord(title, skip)
  {
    var i := 0;
    while i < |items| && !IsTitleItem(items[i], skip)
      invariant 0 <= i <= |items|
      invariant forall j :: 0 <= j < i ==> !IsTitleItem(items[j], skip)
    {
      i := i + 1;
    }
    if i < |items| {
      title := Strip(items[i].text);
      assert IsTitleItem(items[i], skip);
    } else {
      title := "";
    }
  }
}
