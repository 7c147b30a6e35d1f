/**
 * The critic agent's reading of the remote model's answer and its choice of
 * prompt.
 */
module Critic {
  import opened Base
  import opened Json
  import opened Types

  /** The critique used when the answer is not valid JSON: no suggestion, no revision. */
  const Fallback := CritiqueResult([], None)

  /** pydantic's `list[str]`: a JSON array whose items are all strings. */
  function Strings(items: seq<Json>): (r: Option<seq<string>>)
    ensures r.Some? <==> forall i :: 0 <= i < |items| ==> items[i].JString?
    ensures r.Some? ==> |r.value| == |items| && forall i :: 0 <= i < |items| ==> items[i] == JString(r.value[i])
    decreases |items|
  {
    if |items| == 0 then Some([])
    else match (items[0], Strings(items[1..]))
      case (JString(s), Some(rest)) => Some([s] + rest)
      case _ => None
  }

  /**
   * `_parse_response`: only a JSON decoding error (or a `KeyError`, which
   * `get` never raises) is replaced by the fallback; a decoded value that is
   * not an object, or fields that pydantic rejects, make the call fail.
   */
  function ParseResponse(response: Decoded): (r: Result<CritiqueResult>)
    ensures response.Malformed? ==> r == Ok(Fallback) && !NeedsRevision(r.value)
    ensures response.Parsed? && !response.value.JObject? ==> r.Err? && r.error.kind == "AttributeError"
    ensures r.Err? && response.value.JObject? ==> r.error.kind == "ValidationError"
    ensures response.Parsed? && response.value.JObject? ==>
      var fields := response.value.fields;
      match (GetOr(fields, "critic_suggestions", JArray([])), GetOr(fields, "revised_description", JNull))
      case (JArray(items), JNull) =>
        r.Ok? <==> Strings(items).Some? && (r.Ok? ==> r.value == CritiqueResult(Strings(items).value, None))
      case (JArray(items), JString(d)) =>
        r.Ok? <==> Strings(items).Some? && (r.Ok? ==> r.value == CritiqueResult(Strings(items).value, Some(d)))
      case _ => r.Err?
  {
    match response
    case Malformed => Ok(Fallback)
    case Parsed(data) =>
      if !data.JObject? then Err(Exception("AttributeError", "object has no attribute 'get'"))
      else
        var suggestions := GetOr(data.fields, "critic_suggestions", JArray([]));
        var revised := GetOr(data.fields, "revised_description", JNull);
        if !suggestions.JArray? || Strings(suggestions.items).None? then
          Err(Exception("ValidationError", "critic_suggestions"))
        else if revised.JNull? then Ok(CritiqueResult(Strings(suggestions.items).value, None))
        else if revised.JString? then Ok(CritiqueResult(Strings(suggestions.items).value, Some(revised.s)))
        else Err(Exception("ValidationError", "revised_description"))
  }
}
