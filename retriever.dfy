/**
 * The retriever agent: which reference examples it hands on, how it lists
 * the candidates for the remote model, and how it maps the IDs in the
 * model's answer back to examples.
 */
module Retriever {
  import opened Base
  import opened Strings
  import opened Json
  import opened Types

  /** The candidate that `{c.id: c for c in candidates}` keeps for `id`: the last one with that ID. */
  function LastWithId(candidates: seq<ReferenceExample>, id: string): (r: Option<ReferenceExample>)
    ensures r.None? <==> forall i :: 0 <= i < |candidates| ==> candidates[i].id != id
    ensures r.Some? ==> r.value in candidates && r.value.id == id
    ensures r.Some? ==>
      (exists i :: 0 <= i < |candidates| && candidates[i] == r.value && (forall j :: i < j < |candidates| ==> candidates[j].id != id))
    decreases |candidates|
  {
    if |candidates| == 0 then None
    else
      var last, init := candidates[|candidates| - 1], candidates[..|candidates| - 1];
      if last.id == id then Some(last)
      else
        assert forall k :: 0 <= k < |init| ==> init[k] == candidates[k];
        LastWithId(init, id)
  }

  /** `{c.id: c for c in candidates}`. */
  method IndexById(candidates: seq<ReferenceExample>) returns (m: map<string, ReferenceExample>)
    ensures forall id :: id in m <==> LastWithId(candidates, id).Some?
    ensures forall id :: id in m ==> m[id] == LastWithId(candidates, id).value
  {
    m := map[];
    var i := 0;
    while i < |candidates|
      invariant 0 <= i <= |candidates|
      invariant forall id :: id in m <==> LastWithId(candidates[..i], id).Some?
      invariant forall id :: id in m ==> m[id] == LastWithId(candidates[..i], id).value
    {
      assert candidates[..i + 1][..i] == candidates[..i];
      m := m[candidates[i].id := candidates[i]];
      i := i + 1;
    }
    assert candidates[..i] == candidates;
  }

  /**
   * `data.get("selected_ids") or data.get("top_10_papers") or
   * data.get("top_10_plots") or []`: the first of the three keys whose value
   * is truthy, a missing or empty value falling through to the next.
   */
  function IdList(fields: seq<(string, Json)>): (r: Json)
    ensures Truthy(r) || r == JArray([])
    ensures Truthy(GetOr(fields, "selected_ids", JNull)) ==> r == GetOr(fields, "selected_ids", JNull)
    ensures !Truthy(GetOr(fields, "selected_ids", JNull)) && Truthy(GetOr(fields, "top_10_papers", JNull)) ==>
      r == GetOr(fields, "top_10_papers", JNull)
    ensures !Truthy(GetOr(fields, "selected_ids", JNull)) && !Truthy(GetOr(fields, "top_10_papers", JNull)) ==>
      r == (if Truthy(GetOr(fields, "top_10_plots", JNull)) then GetOr(fields, "top_10_plots", JNull) else JArray([]))
  {
    var a, b, c := GetOr(fields, "selected_ids", JNull), GetOr(fields, "top_10_papers", JNull), GetOr(fields, "top_10_plots", JNull);
    if Truthy(a) then a else if Truthy(b) then b else if Truthy(c) then c else JArray([])
  }

  /**
   * The examples chosen by the IDs, in the IDs' order: an ID naming a
   * candidate contributes it, any other hashable ID is skipped, and a list or
   * dict as an ID makes the membership test raise `TypeError`.
   */
  function Select(ids: seq<Json>, candidates: seq<ReferenceExample>): Result<seq<ReferenceExample>>
    decreases |ids|
  {
    if |ids| == 0 then Ok([])
    else
      var id := ids[|ids| - 1];
      match Select(ids[..|ids| - 1], candidates)
      case Err(e) => Err(e)
      case Ok(front) =>
        if !Hashable(id) then Err(Exception("TypeError", "unhashable type"))
        else if id.JString? && LastWithId(candidates, id.s).Some? then Ok(front + [LastWithId(candidates, id.s).value])
        else Ok(front)
  }

  /** A selection never invents an example, has at most one entry per ID, and every entry answers one of the IDs. */
  lemma {:induction false} SelectFromCandidates(ids: seq<Json>, candidates: seq<ReferenceExample>)
    requires Select(ids, candidates).Ok?
    ensures var sel := Select(ids, candidates).value;
      && |sel| <= |ids|
      && (forall e :: e in sel ==> e in candidates)
      && (forall k :: 0 <= k < |sel| ==> JString(sel[k].id) in ids)
    decreases |ids|
  {
    if |ids| > 0 {
      SelectFromCandidates(ids[..|ids| - 1], candidates);
      var sel := Select(ids, candidates).value;
      var front := Select(ids[..|ids| - 1], candidates).value;
      forall k | 0 <= k < |sel|
        ensures JString(sel[k].id) in ids
      {
        if k < |front| {
          assert sel[k] == front[k];
          assert JString(sel[k].id) in ids[..|ids| - 1];
        } else {
          assert JString(sel[k].id) == ids[|ids| - 1];
        }
      }
    }
  }

  /** The IDs' order is kept: the selection for `a + b` is the selection for `a` followed by that for `b`. */
  lemma {:induction false} SelectAppend(a: seq<Json>, b: seq<Json>, candidates: seq<ReferenceExample>)
    requires Select(a, candidates).Ok? && Select(b, candidates).Ok?
    ensures Select(a + b, candidates) == Ok(Select(a, candidates).value + Select(b, candidates).value)
    decreases |b|
  {
    if |b| == 0 {
      assert a + b == a;
      assert Select(a, candidates).value + [] == Select(a, candidates).value;
    } else {
      var b' := b[..|b| - 1];
      assert (a + b)[..|a + b| - 1] == a + b';
      assert (a + b)[|a + b| - 1] == b[|b| - 1];
      assert Select(b', candidates).Ok?;
      SelectAppend(a, b', candidates);
      var x, sa, sb' := b[|b| - 1], Select(a, candidates).value, Select(b', candidates).value;
      assert Select(a + b', candidates) == Ok(sa + sb');
      if x.JString? && LastWithId(candidates, x.s).Some? {
        var v := LastWithId(candidates, x.s).value;
        assert (sa + sb') + [v] == sa + (sb' + [v]);
      }
    }
  }

  /** A single known ID selects the candidate the ID index keeps for it. */
  lemma SelectOne(id: string, candidates: seq<ReferenceExample>)
    requires LastWithId(candidates, id).Some?
    ensures Select([JString(id)], candidates) == Ok([LastWithId(candidates, id).value])
  {
    var ids, v := [JString(id)], LastWithId(candidates, id).value;
    assert ids[..0] == [];
    assert Select(ids, candidates) == Ok([] + [v]);
    assert [] + [v] == [v];
  }

  /** Once an ID raises, the rest of the IDs are never looked at. */
  lemma {:induction false} SelectErrorStops(ids: seq<Json>, k: nat, candidates: seq<ReferenceExample>)
    requires k <= |ids| && Select(ids[..k], candidates).Err?
    ensures Select(ids, candidates) == Select(ids[..k], candidates)
    decreases |ids| - k
  {
    if k < |ids| {
      assert ids[..k + 1][..k] == ids[..k];
      SelectErrorStops(ids, k + 1, candidates);
    } else {
      assert ids[..k] == ids;
    }
  }

  /** IDs that name no candidate change nothing: selecting an unknown ID adds nothing. */
  lemma {:induction false} SelectUnknown(ids: seq<Json>, id: string, candidates: seq<ReferenceExample>)
    requires forall i :: 0 <= i < |candidates| ==> candidates[i].id != id
    ensures Select(ids + [JString(id)], candidates) == Select(ids, candidates)
  {
    assert (ids + [JString(id)])[..|ids|] == ids;
  }

  /** `_parse_response` as a value. */
  function Parse(response: Decoded, candidates: seq<ReferenceExample>): Result<seq<ReferenceExample>> {
    match response
    case Malformed => Ok(candidates)
    case Parsed(data) =>
      if !data.JObject? then Err(Exception("AttributeError", "object has no attribute 'get'"))
      else
        match Iterate(IdList(data.fields))
        case Err(e) => Err(e)
        case Ok(ids) => Select(ids, candidates)
  }

  /**
   * `_parse_response`: an answer that is not JSON gives every candidate back;
   * otherwise the IDs are looked up one by one in the ID index.
   */
  method ParseResponse(response: Decoded, candidates: seq<ReferenceExample>) returns (r: Result<seq<ReferenceExample>>)
    ensures r == Parse(response, candidates)
    ensures response.Malformed? ==> r == Ok(candidates)
    ensures r.Ok? ==> forall e :: e in r.value ==> e in candidates
  {
    if response.Malformed? {
      return Ok(candidates);
    }
    var data := response.value;
    if !data.JObject? {
      return Err(Exception("AttributeError", "object has no attribute 'get'"));
    }
    var ids := Iterate(IdList(data.fields));
    if ids.Err? {
      return Err(ids.error);
    }
    var index := IndexById(candidates);
    var selected: seq<ReferenceExample> := [];
    var i := 0;
    while i < |ids.value|
      invariant 0 <= i <= |ids.value|
      invariant Select(ids.value[..i], candidates) == Ok(selected)
    {
      var id := ids.value[i];
      assert ids.value[..i + 1][..i] == ids.value[..i];
      if !Hashable(id) {
        SelectErrorStops(ids.value, i + 1, candidates);
        return Err(Exception("TypeError", "unhashable type"));
      }
      if id.JString? && id.s in index {
        selected := selected + [index[id.s]];
      }
      i := i + 1;
    }
    assert ids.value[..i] == ids.value;
    r := Ok(selected);
    SelectFromCandidates(ids.value, candidates);
  }

  /**
   * One candidate's entry in the prompt, numbered from 1. It ends with the
   * methodology line, which shows the first 300 characters of the context
   * (all of it when shorter) followed by "...".
   */
  function CandidateEntry(i: nat, c: ReferenceExample): (r: string)
    ensures StartsWith(r, "Candidate Paper " + IntToString(i + 1) + ":\n")
    ensures var tail := "- **Methodology section:** " + Take(c.sourceContext, 300) + "...\n";
      |tail| <= |r| && r[|r| - |tail|..] == tail
  {
    var head := "Candidate Paper " + IntToString(i + 1) + ":\n";
    var rest := "- **Paper ID:** " + c.id + "\n"
      + "- **Caption:** " + c.caption + "\n"
      + "- **Methodology section:** " + Take(c.sourceContext, 300) + "...\n";
    assert (head + rest)[..|head|] == head;
    head + rest
  }

  /** `_format_candidates`: the entries in list order, separated by newlines. */
  method FormatCandidates(candidates: seq<ReferenceExample>) returns (text: string)
    ensures |candidates| == 0 ==> text == ""
    ensures text == Join("\n", seq(|candidates|, i requires 0 <= i < |candidates| => CandidateEntry(i, candidates[i])))
    ensures forall i :: 0 <= i < |candidates| ==> Contains(text, CandidateEntry(i, candidates[i]))
  {
    var lines: seq<string> := [];
    var i := 0;
    while i < |candidates|
      invariant 0 <= i <= |candidates|
      invariant |lines| == i
      invariant forall k :: 0 <= k < i ==> lines[k] == CandidateEntry(k, candidates[k])
    {
      lines := lines + [CandidateEntry(i, candidates[i])];
      i := i + 1;
    }
    assert lines == seq(|candidates|, i requires 0 <= i < |candidates| => CandidateEntry(i, candidates[i]));
    text := Join("\n", lines);
    forall k | 0 <= k < |candidates|
      ensures Contains(text, CandidateEntry(k, candidates[k]))
    {
      JoinContainsPart("\n", lines, k);
    }
  }

  /** What the remote model was shown, when it was asked at all. */
  datatype Request = Request(promptType: string, candidatesText: string, numExamples: int)

  /**
   * `run`: no candidates gives none and few enough candidates are all handed
   * on, in both cases without asking the remote model; otherwise its answer
   * is parsed and cut to `num_examples` (Python's `[:n]`, so a negative `n`
   * drops from the end).
   */
  method Run(candidates: seq<ReferenceExample>, numExamples: int, diagramType: DiagramType, answer: Decoded)
    returns (r: Result<seq<ReferenceExample>>, request: Option<Request>)
    ensures candidates == [] ==> r == Ok([]) && request.None?
    ensures candidates != [] && |candidates| <= numExamples ==> r == Ok(candidates) && request.None?
    ensures candidates != [] && |candidates| > numExamples ==>
      && request.Some? && request.value.promptType == PromptType(diagramType)
      && request.value.candidatesText ==
           Join("\n", seq(|candidates|, i requires 0 <= i < |candidates| => CandidateEntry(i, candidates[i])))
      && request.value.numExamples == numExamples
      && r == (match Parse(answer, candidates) case Ok(sel) => Ok(Take(sel, numExamples)) case Err(e) => Err(e))
    ensures answer.Malformed? && |candidates| > numExamples ==> r == Ok(Take(candidates, numExamples))
    ensures r.Ok? ==> forall e :: e in r.value ==> e in candidates
    ensures r.Ok? && request.Some? && numExamples >= 0 ==> |r.value| <= numExamples
  {
    if candidates == [] {
      return Ok([]), None;
    }
    if |candidates| <= numExamples {
      return Ok(candidates), None;
    }
    var text := FormatCandidates(candidates);
    request := Some(Request(PromptType(diagramType), text, numExamples));
    var selected := ParseResponse(answer, candidates);
    if selected.Err? {
      return Err(selected.error), request;
    }
    var kept := Take(selected.value, numExamples);
    assert forall e :: e in kept ==> e in selected.value;
    SelectionBound(answer, candidates);
    r := Ok(kept);
  }

  /** A parsed selection is no longer than the candidate list when the answer is not JSON, and draws only on candidates. */
  lemma SelectionBound(answer: Decoded, candidates: seq<ReferenceExample>)
    requires Parse(answer, candidates).Ok?
    ensures forall e :: e in Parse(answer, candidates).value ==> e in candidates
  {
    if answer.Parsed? {
      SelectFromCandidates(Iterate(IdList(answer.value.fields)).value, candidates);
    }
  }
}
