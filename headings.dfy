/**
 * What the two reference-set scripts share: the items of a MinerU content
 * list, the section number read off a heading, and the heading-driven
 * collection of methodology text.
 *
 * Collection walks the items with an "in the method section" flag. A heading
 * whose number is chosen turns it on; a numbered heading that is not chosen
 * is kept while collecting when its number's decimal string starts with a
 * chosen number's string and otherwise turns it off; an unnumbered heading
 * that the stop classifier accepts turns it off; every other heading, and
 * the body items, are kept while collecting. The curation script has no
 * stop classifier: it is the one that accepts nothing.
 */
module Headings {
  import opened Base
  import opened Strings

  /** An entry of a list item's `list_items`: a string, or any other value. */
  datatype ListEntry = TextEntry(s: string) | OtherEntry

  /**
   * One item of a content list: its `type` ("" when absent), its `text`
   * ("" when absent), its `text_level` (0 when absent or null) and its
   * `list_items` (empty when absent).
   */
  datatype ContentItem = ContentItem(kind: string, text: string, level: int, listItems: seq<ListEntry>)

  /**
   * `get_section_number`: the value of the digits the stripped text starts
   * with, or nothing when it does not start with a digit.
   */
  function SectionNumber(text: string): (r: Option<nat>)
    ensures r.Some? <==> Strip(text) != [] && IsDigit(Strip(text)[0])
  {
    var d := LeadingDigits(Strip(text));
    if d == [] then None else Some(DigitsValue(d))
  }

  /** Whitespace followed by leading whitespace is dropped as a whole. */
  lemma {:induction false} LStripPadding(pad: string, t: string)
    requires forall k :: 0 <= k < |pad| ==> IsSpace(pad[k])
    requires t != [] && !IsSpace(t[0])
    ensures LStrip(pad + t) == t
    decreases |pad|
  {
    if |pad| > 0 {
      assert (pad + t)[1..] == pad[1..] + t;
      LStripPadding(pad[1..], t);
    }
  }

  /** The leading digits of a text that starts with the digits `d` and then a non-digit. */
  lemma LeadingDigitsExactly(t: string, d: string)
    requires StartsWith(t, d) && AllDigits(d)
    requires |d| == |t| || !IsDigit(t[|d|])
    ensures LeadingDigits(t) == d
  {
    var r := LeadingDigits(t);
    assert |r| == |d|;
    assert r == t[..|r|];
  }

  /** Trailing whitespace after a numeral does not change its leading digits. */
  lemma NumeralRStrip(num: string, rest: string)
    requires |num| >= 1 && AllDigits(num)
    requires rest == [] || !IsDigit(rest[0])
    ensures LeadingDigits(RStrip(num + rest)) == num
  {
    var x := num + rest;
    var t := RStrip(x);
    assert IsDigit(x[|num| - 1]);
    assert !IsSpace(x[|num| - 1]);
    assert |t| >= |num|;
    assert t[..|num|] == x[..|num|] == num;
    if |t| > |num| {
      assert t[|num|] == rest[0];
    }
    LeadingDigitsExactly(t, num);
  }

  /**
   * A heading written as optional whitespace, the number n and then anything
   * not starting with a digit has section number n.
   */
  lemma {:induction false} SectionNumberOfNumeral(pad: string, n: nat, rest: string)
    requires forall k :: 0 <= k < |pad| ==> IsSpace(pad[k])
    requires rest == [] || !IsDigit(rest[0])
    ensures SectionNumber(pad + NatToString(n) + rest) == Some(n)
  {
    var num := NatToString(n);
    var x := num + rest;
    assert pad + num + rest == pad + x;
    assert IsDigit(x[0]);
    LStripPadding(pad, x);
    NumeralRStrip(num, rest);
    NatToStringValue(n);
  }

  /** A heading: an item with a non-zero level and non-empty stripped text. */
  predicate IsHeading(item: ContentItem) {
    item.level != 0 && Strip(item.text) != []
  }

  /** The bullet lines of a list item's string entries; other entries are dropped. */
  function ListParts(entries: seq<ListEntry>): (r: seq<string>)
    ensures |r| <= |entries|
    decreases |entries|
  {
    if |entries| == 0 then []
    else ListParts(entries[..|entries| - 1]) + Bullet(entries[|entries| - 1])
  }

  /** The line one list entry contributes: a bullet for a string, nothing otherwise. */
  function Bullet(e: ListEntry): (r: seq<string>)
    ensures |r| <= 1
  {
    match e
    case TextEntry(s) => ["- " + Strip(s)]
    case OtherEntry => []
  }

  /** `ListParts` over one more entry. */
  lemma ListPartsSnoc(entries: seq<ListEntry>, j: nat)
    requires j < |entries|
    ensures ListParts(entries[..j + 1]) == ListParts(entries[..j]) + Bullet(entries[j])
  {
    assert entries[..j + 1][..j] == entries[..j];
  }

  /** The loop over a list item's entries, as both scripts write it. */
  method AppendListItems(parts0: seq<string>, entries: seq<ListEntry>) returns (parts: seq<string>)
    ensures parts == parts0 + ListParts(entries)
  {
    parts := parts0;
    var j := 0;
    while j < |entries|
      invariant 0 <= j <= |entries|
      invariant parts == parts0 + ListParts(entries[..j])
    {
      ListPartsSnoc(entries, j);
      parts := AddBullet(parts, entries[j]);
      j := j + 1;
    }
    assert entries[..j] == entries;
  }

  /** One step of that loop: a string entry is appended as a bullet line. */
  method AddBullet(parts0: seq<string>, e: ListEntry) returns (parts: seq<string>)
    ensures parts == parts0 + Bullet(e)
  {
    parts := parts0;
    if e.TextEntry? {
      parts := parts + ["- " + Strip(e.s)];
    }
  }

  /** What a non-heading item contributes while collecting. */
  function BodyParts(item: ContentItem): seq<string> {
    var text := Strip(item.text);
    if item.kind == "text" && text != "" then [text]
    else if item.kind == "equation" && text != "" then ["[Equation: " + text + "]"]
    else if item.kind == "list" then ListParts(item.listItems)
    else []
  }

  /**
   * What the walk sees of an item: a heading, with its stripped text and
   * section number, or the parts a body item adds while collecting.
   */
  datatype View = HeadingView(text: string, sec: Option<nat>) | BodyView(parts: seq<string>)

  function ViewOf(item: ContentItem): View {
    if IsHeading(item) then HeadingView(Strip(item.text), SectionNumber(Strip(item.text)))
    else BodyView(BodyParts(item))
  }

  /** The views of a list of items, in order. */
  function Views(items: seq<ContentItem>): seq<View> {
    seq(|items|, k requires 0 <= k < |items| => ViewOf(items[k]))
  }

  /** A heading whose section number is one of the chosen ones. */
  predicate IsChosen(v: View, chosen: set<int>) {
    v.HeadingView? && v.sec.Some? && v.sec.value in chosen
  }

  predicate IsChosenHeading(item: ContentItem, chosen: set<int>) {
    IsChosen(ViewOf(item), chosen)
  }

  /** `str(sec)` starts with `str(s)` for some chosen s. */
  predicate PrefixOfChosen(sec: nat, chosen: set<int>) {
    exists s :: s in chosen && StartsWith(NatToString(sec), IntToString(s))
  }

  /** The stop classifier of the curation script, which has none. */
  predicate NeverStop(text: string) {
    false
  }

  /** The collection state: the flag and the parts kept so far. */
  datatype Collector = Collector(inMethod: bool, parts: seq<string>)

  const Start := Collector(false, [])

  /**
   * How one item changes the collection state. Parts are only appended; a
   * chosen heading turns collection on and is kept; while collection is
   * off, nothing else changes anything.
   */
  function Step(c: Collector, v: View, chosen: set<int>, isStop: string -> bool): (r: Collector)
    ensures |c.parts| <= |r.parts| && r.parts[..|c.parts|] == c.parts
    ensures IsChosen(v, chosen) ==> r == Collector(true, c.parts + [v.text])
    ensures !c.inMethod && !IsChosen(v, chosen) ==> r == c
  {
    match v
    case HeadingView(text, sec) =>
      if sec.Some? && sec.value in chosen then Collector(true, c.parts + [text])
      else if sec.Some? && c.inMethod then
        if PrefixOfChosen(sec.value, chosen) then Collector(true, c.parts + [text]) else Collector(false, c.parts)
      else if c.inMethod && isStop(text) then Collector(false, c.parts)
      else if c.inMethod then Collector(true, c.parts + [text])
      else c
    case BodyView(parts) =>
      if c.inMethod then Collector(true, c.parts + parts) else c
  }

  /** The state after walking the views `vs` from `c`. */
  function Run(c: Collector, vs: seq<View>, chosen: set<int>, isStop: string -> bool): Collector
    decreases |vs|
  {
    if |vs| == 0 then c
    else Step(Run(c, vs[..|vs| - 1], chosen, isStop), vs[|vs| - 1], chosen, isStop)
  }

  /** The parts collected from a whole content list. */
  function Collect(items: seq<ContentItem>, chosen: set<int>, isStop: string -> bool): seq<string> {
    Run(Start, Views(items), chosen, isStop).parts
  }

  /** Walking one more view is one more step. */
  lemma RunSnoc(c: Collector, vs: seq<View>, i: nat, chosen: set<int>, isStop: string -> bool)
    requires i < |vs|
    ensures Run(c, vs[..i + 1], chosen, isStop) == Step(Run(c, vs[..i], chosen, isStop), vs[i], chosen, isStop)
  {
    assert vs[..i + 1][..i] == vs[..i];
    assert vs[..i + 1][i] == vs[i];
  }

  /** Walking two lists one after the other is walking their concatenation. */
  lemma {:induction false} RunAppend(c: Collector, a: seq<View>, b: seq<View>, chosen: set<int>, isStop: string -> bool)
    ensures Run(c, a + b, chosen, isStop) == Run(Run(c, a, chosen, isStop), b, chosen, isStop)
    decreases |b|
  {
    if |b| == 0 {
      assert a + b == a;
    } else {
      assert (a + b)[..|a + b| - 1] == a + b[..|b| - 1];
      RunAppend(c, a, b[..|b| - 1], chosen, isStop);
    }
  }

  /** Parts are only ever appended: the walk extends what was collected before it. */
  lemma {:induction false} RunExtends(c: Collector, vs: seq<View>, chosen: set<int>, isStop: string -> bool)
    ensures var r := Run(c, vs, chosen, isStop).parts; |c.parts| <= |r| && r[..|c.parts|] == c.parts
    decreases |vs|
  {
    if |vs| > 0 {
      RunExtends(c, vs[..|vs| - 1], chosen, isStop);
    }
  }

  /**
   * While not collecting, items other than chosen headings change nothing:
   * after collection stops, nothing is kept until the next chosen heading.
   */
  lemma {:induction false} IdleUntilChosen(c: Collector, vs: seq<View>, chosen: set<int>, isStop: string -> bool)
    requires !c.inMethod
    requires forall k :: 0 <= k < |vs| ==> !IsChosen(vs[k], chosen)
    ensures Run(c, vs, chosen, isStop) == c
    decreases |vs|
  {
    if |vs| > 0 {
      IdleUntilChosen(c, vs[..|vs| - 1], chosen, isStop);
    }
  }

  /** A walk that opens with a chosen heading collects that heading's text first. */
  lemma {:induction false} OpensWithChosen(vs: seq<View>, chosen: set<int>, isStop: string -> bool)
    requires |vs| > 0 && IsChosen(vs[0], chosen)
    ensures var r := Run(Start, vs, chosen, isStop).parts; |r| > 0 && r[0] == vs[0].text
  {
    var head, tail := vs[..1], vs[1..];
    assert vs == head + tail;
    RunAppend(Start, head, tail, chosen, isStop);
    assert head[..0] == [] && head[0] == vs[0];
    assert Run(Start, head[..0], chosen, isStop) == Start;
    var c := Run(Start, head, chosen, isStop);
    assert c == Step(Start, vs[0], chosen, isStop);
    assert c.parts == [vs[0].text];
    RunExtends(c, tail, chosen, isStop);
    var r := Run(c, tail, chosen, isStop).parts;
    assert r[..1] == [vs[0].text];
    assert r[0] == r[..1][0];
  }

  /**
   * Nothing before the first chosen heading is collected: collecting from
   * the whole list is collecting from that heading on, and the heading's
   * text is the first part.
   */
  lemma {:induction false} CollectFromFirstChosen(items: seq<ContentItem>, k: nat, chosen: set<int>, isStop: string -> bool)
    requires k < |items| && IsChosenHeading(items[k], chosen)
    requires forall j :: 0 <= j < k ==> !IsChosenHeading(items[j], chosen)
    ensures Collect(items, chosen, isStop) == Collect(items[k..], chosen, isStop)
    ensures |Collect(items, chosen, isStop)| > 0 && Collect(items, chosen, isStop)[0] == Strip(items[k].text)
  {
    var vs := Views(items);
    ViewsAround(items, k, chosen);
    IdleUntilChosen(Start, vs[..k], chosen, isStop);
    RunAppend(Start, vs[..k], vs[k..], chosen, isStop);
    OpensWithChosen(vs[k..], chosen, isStop);
  }

  /** The views before the first chosen heading, and from it on. */
  lemma ViewsAround(items: seq<ContentItem>, k: nat, chosen: set<int>)
    requires k < |items| && IsChosenHeading(items[k], chosen)
    requires forall j :: 0 <= j < k ==> !IsChosenHeading(items[j], chosen)
    ensures var vs := Views(items); vs == vs[..k] + vs[k..] && vs[k..] == Views(items[k..])
    ensures forall j :: 0 <= j < k ==> !IsChosen(Views(items)[..k][j], chosen)
    ensures IsChosen(Views(items)[k..][0], chosen) && Views(items)[k..][0].text == Strip(items[k].text)
  {
    var vs := Views(items);
    assert vs == vs[..k] + vs[k..];
    ViewsSuffix(items, k);
    forall j | 0 <= j < k
      ensures !IsChosen(vs[..k][j], chosen)
    {
      ViewAt(items, j);
    }
    ViewAt(items, k);
    ChosenText(items[k], chosen);
  }

  lemma ViewsSuffix(items: seq<ContentItem>, k: nat)
    requires k <= |items|
    ensures Views(items)[k..] == Views(items[k..])
  {
  }

  lemma ViewAt(items: seq<ContentItem>, j: nat)
    requires j < |items|
    ensures Views(items)[j] == ViewOf(items[j])
  {
  }

  /** The view of a chosen heading carries its stripped text. */
  lemma ChosenText(item: ContentItem, chosen: set<int>)
    requires IsChosenHeading(item, chosen)
    ensures ViewOf(item).text == Strip(item.text)
  {
  }

  /** A list without a chosen heading (in particular, any list when nothing is chosen) yields no text. */
  lemma {:induction false} NoChosenNoText(items: seq<ContentItem>, chosen: set<int>, isStop: string -> bool)
    requires forall k :: 0 <= k < |items| ==> !IsChosenHeading(items[k], chosen)
    ensures Collect(items, chosen, isStop) == []
  {
    IdleUntilChosen(Start, Views(items), chosen, isStop);
  }

  /** Every chosen heading's text is among the collected parts. */
  lemma {:induction false} ChosenHeadingKept(items: seq<ContentItem>, k: nat, chosen: set<int>, isStop: string -> bool)
    requires k < |items| && IsChosenHeading(items[k], chosen)
    ensures Strip(items[k].text) in Collect(items, chosen, isStop)
  {
    ChosenViewKept(Start, Views(items), k, chosen, isStop);
  }

  /** A chosen heading met anywhere in a walk is among the parts at its end. */
  lemma {:induction false} ChosenViewKept(c: Collector, vs: seq<View>, k: nat, chosen: set<int>, isStop: string -> bool)
    requires k < |vs| && IsChosen(vs[k], chosen)
    ensures vs[k].text in Run(c, vs, chosen, isStop).parts
  {
    var a, b := vs[..k + 1], vs[k + 1..];
    assert vs == a + b;
    RunAppend(c, a, b, chosen, isStop);
    assert a[..k] == vs[..k] && a[k] == vs[k];
    var c1 := Run(c, a, chosen, isStop);
    assert vs[k].text in c1.parts;
    RunExtends(c1, b, chosen, isStop);
    InPrefix(Run(c1, b, chosen, isStop).parts, c1.parts, vs[k].text);
  }

  /** An element of a prefix is an element of the whole. */
  lemma InPrefix<T>(r: seq<T>, p: seq<T>, x: T)
    requires |p| <= |r| && r[..|p|] == p && x in p
    ensures x in r
  {
    var i :| 0 <= i < |p| && p[i] == x;
    assert r[i] == x;
  }
}
