/**
 * Settings from a YAML file: the nested document is flattened to the
 * settings' own names through a fixed table of dotted paths, and explicit
 * overrides are applied on top. A YAML document is represented by the same
 * value type as a JSON document; its parsing is not modelled.
 */
module Config {
  import opened Base
  import opened Json

  /** The dotted paths the settings recognise, and the setting each one fills. */
  const KeyMap: map<string, string> := map[
    "vlm.provider" := "vlm_provider",
    "vlm.model" := "vlm_model",
    "image.provider" := "image_provider",
    "image.model" := "image_model",
    "pipeline.num_retrieval_examples" := "num_retrieval_examples",
    "pipeline.refinement_iterations" := "refinement_iterations",
    "pipeline.output_resolution" := "output_resolution",
    "reference.path" := "reference_set_path",
    "reference.guidelines_path" := "guidelines_path",
    "output.dir" := "output_dir",
    "output.save_iterations" := "save_iterations",
    "vlm.base_url" := "vlm_base_url"]

  /** No two paths fill the same setting. */
  lemma KeyMapInjective()
    ensures forall p, q :: p in KeyMap && q in KeyMap && p != q ==> KeyMap[p] != KeyMap[q]
  {
  }

  /** `d.items()`: each key once, in the order first given, with its last value. */
  function Items(fields: seq<(string, Json)>): (r: seq<(string, Json)>)
    ensures forall i :: 0 <= i < |r| ==> r[i].1 < JObject(fields)
    ensures forall i, j :: 0 <= i < j < |r| ==> r[i].0 != r[j].0
    ensures forall i :: 0 <= i < |r| ==> Get(fields, r[i].0) == Some(r[i].1)
  {
    var keys := Keys(fields);
    seq(|keys|, i requires 0 <= i < |keys| => (keys[i], Get(fields, keys[i]).value))
  }

  /** The path of key `k` under `prefix`. */
  function FullKey(prefix: string, k: string): string {
    if prefix != "" then prefix + "." + k else k
  }

  /**
   * The leaves of a dict in the order `_recurse` visits them, each with its
   * dotted path; a dict value is descended into and is not itself a leaf.
   */
  function Leaves(fields: seq<(string, Json)>, prefix: string): (r: seq<(string, Json)>)
    ensures forall i :: 0 <= i < |r| ==> !r[i].1.JObject?
    decreases JObject(fields), 1
  {
    LeavesOf(fields, Items(fields), prefix)
  }

  /** The leaves below the entries `items`, which belong to the dict `fields`. */
  function LeavesOf(fields: seq<(string, Json)>, items: seq<(string, Json)>, prefix: string): (r: seq<(string, Json)>)
    requires forall i :: 0 <= i < |items| ==> items[i].1 < JObject(fields)
    ensures forall i :: 0 <= i < |r| ==> !r[i].1.JObject?
    decreases JObject(fields), 0, |items|
  {
    if |items| == 0 then []
    else
      var (k, v) := items[0];
      var full := FullKey(prefix, k);
      (if v.JObject? then Leaves(v.fields, full) else [(full, v)]) + LeavesOf(fields, items[1..], prefix)
  }

  /** A leaf whose path is in the table fills setting `name`. */
  predicate Fills(leaf: (string, Json), name: string) {
    leaf.0 in KeyMap && KeyMap[leaf.0] == name
  }

  /** Storing the leaves one after another: a leaf at a known path sets its setting, any other is dropped. */
  function Store(flat: map<string, Json>, leaves: seq<(string, Json)>): map<string, Json>
    decreases |leaves|
  {
    if |leaves| == 0 then flat
    else
      var (path, v) := leaves[0];
      Store(if path in KeyMap then flat[KeyMap[path] := v] else flat, leaves[1..])
  }

  lemma {:induction false} StoreAppend(flat: map<string, Json>, a: seq<(string, Json)>, b: seq<(string, Json)>)
    ensures Store(flat, a + b) == Store(Store(flat, a), b)
    decreases |a|
  {
    if |a| == 0 {
      assert a + b == b;
    } else {
      assert (a + b)[1..] == a[1..] + b;
      var (path, v) := a[0];
      StoreAppend(if path in KeyMap then flat[KeyMap[path] := v] else flat, a[1..], b);
    }
  }

  /**
   * What storing leaves yields: a setting is present exactly when it was
   * present before or some leaf fills it; its value is that of the last leaf
   * filling it, or the old value when none does.
   */
  lemma {:induction false} StoreSpec(flat: map<string, Json>, leaves: seq<(string, Json)>, name: string)
    ensures name in Store(flat, leaves) <==> name in flat || exists i :: 0 <= i < |leaves| && Fills(leaves[i], name)
    ensures (forall i :: 0 <= i < |leaves| ==> !Fills(leaves[i], name)) && name in flat ==>
      Store(flat, leaves)[name] == flat[name]
    ensures forall i :: 0 <= i < |leaves| && Fills(leaves[i], name) && (forall j :: i < j < |leaves| ==> !Fills(leaves[j], name)) ==>
      Store(flat, leaves)[name] == leaves[i].1
    decreases |leaves|
  {
    if |leaves| > 0 {
      var (path, v) := leaves[0];
      var next := if path in KeyMap then flat[KeyMap[path] := v] else flat;
      StoreSpec(next, leaves[1..], name);
      assert forall i :: 1 <= i < |leaves| ==> leaves[i] == leaves[1..][i - 1];
      if exists i :: 0 <= i < |leaves| && Fills(leaves[i], name) {
        var i :| 0 <= i < |leaves| && Fills(leaves[i], name);
        if i > 0 {
          assert Fills(leaves[1..][i - 1], name);
        }
      }
      forall i | 0 <= i < |leaves| && Fills(leaves[i], name) && (forall j :: i < j < |leaves| ==> !Fills(leaves[j], name))
        ensures Store(flat, leaves)[name] == leaves[i].1
      {
        if i > 0 {
          assert Fills(leaves[1..][i - 1], name);
          assert forall j :: i - 1 < j < |leaves| - 1 ==> !Fills(leaves[1..][j], name);
        } else {
          assert forall j :: 0 <= j < |leaves| - 1 ==> !Fills(leaves[1..][j], name);
        }
      }
    }
  }

  /**
   * `_recurse`: every entry of the dict in turn; a dict value is recursed
   * into with the longer path, any other value is stored when its path is in
   * the table. The shared result dict is passed in and back out.
   */
  method Recurse(fields: seq<(string, Json)>, prefix: string, flat0: map<string, Json>) returns (flat: map<string, Json>)
    ensures flat == Store(flat0, Leaves(fields, prefix))
    decreases JObject(fields)
  {
    var items := Items(fields);
    flat := flat0;
    var i := 0;
    while i < |items|
      invariant 0 <= i <= |items|
      invariant Store(flat, LeavesOf(fields, items[i..], prefix)) == Store(flat0, Leaves(fields, prefix))
    {
      var (k, v) := items[i];
      var full := FullKey(prefix, k);
      assert items[i..][1..] == items[i + 1..];
      var rest := LeavesOf(fields, items[i + 1..], prefix);
      if v.JObject? {
        var before := flat;
        flat := Recurse(v.fields, full, flat);
        StoreAppend(before, Leaves(v.fields, full), rest);
      } else {
        if full in KeyMap {
          flat := flat[KeyMap[full] := v];
        }
      }
      i := i + 1;
    }
  }

  /** `_flatten_yaml`. */
  method FlattenYaml(fields: seq<(string, Json)>) returns (flat: map<string, Json>)
    ensures flat == Store(map[], Leaves(fields, ""))
    ensures forall name :: name in flat ==> name in KeyMap.Values && !flat[name].JObject?
  {
    flat := Recurse(fields, "", map[]);
    forall name | name in flat
      ensures name in KeyMap.Values && !flat[name].JObject?
    {
      var leaves := Leaves(fields, "");
      StoreSpec(map[], leaves, name);
      var i :| 0 <= i < |leaves| && Fills(leaves[i], name);
      var last := LastFilling(leaves, name, i);
    }
  }

  /** Some leaf is the last to fill a setting that one leaf fills. */
  lemma {:induction false} LastFilling(leaves: seq<(string, Json)>, name: string, i: nat) returns (last: nat)
    requires i < |leaves| && Fills(leaves[i], name)
    ensures i <= last < |leaves| && Fills(leaves[last], name)
    ensures forall j :: last < j < |leaves| ==> !Fills(leaves[j], name)
    decreases |leaves| - i
  {
    if exists j :: i < j < |leaves| && Fills(leaves[j], name) {
      var j :| i < j < |leaves| && Fills(leaves[j], name);
      last := LastFilling(leaves, name, j);
    } else {
      last := i;
    }
  }

  /**
   * `Settings.from_yaml` up to the construction of the settings: the values
   * of the file, flattened, then the overrides on top. `file` is the parsed
   * document, `None` when the file does not exist and `Malformed` when YAML
   * parsing raised; an empty or false document counts as `{}`.
   */
  method FromYaml(file: Option<Decoded>, overrides: map<string, Json>) returns (r: Result<map<string, Json>>)
    ensures file.None? ==> r == Ok(overrides)
    ensures file == Some(Malformed) ==> r.Err?
    ensures file.Some? && file.value.Parsed? && !Truthy(file.value.value) ==> r == Ok(overrides)
    ensures file.Some? && file.value.Parsed? && Truthy(file.value.value) && !file.value.value.JObject? ==>
      r.Err? && r.error.kind == "AttributeError"
    ensures file.Some? && file.value.Parsed? && file.value.value.JObject? ==>
      r == Ok(Store(map[], Leaves(file.value.value.fields, "")) + overrides)
    ensures r.Ok? ==> forall k :: k in overrides ==> k in r.value && r.value[k] == overrides[k]
    ensures r.Ok? ==> forall k :: k in r.value && k !in overrides ==> k in KeyMap.Values && !r.value[k].JObject?
  {
    var document: Json := JObject([]);
    if file.Some? {
      if file.value.Malformed? {
        return Err(Exception("YAMLError", "config"));
      }
      if Truthy(file.value.value) {
        document := file.value.value;
      }
    }
    if !document.JObject? {
      return Err(Exception("AttributeError", "object has no attribute 'items'"));
    }
    var flat := FlattenYaml(document.fields);
    r := Ok(flat + overrides);
    if document.fields == [] {
      assert Leaves(document.fields, "") == [];
      assert flat == map[];
      assert flat + overrides == overrides;
    }
  }
}
