/**
 * The reference catalog: a store directory whose `index.json` lists the
 * curated examples. The store reads the index lazily, on the first access,
 * and keeps the examples in memory afterwards.
 *
 * The file system is a parameter of each access: `index` is the content of
 * `index.json` at that moment, `None` when the file does not exist and
 * `Malformed` when it is not valid JSON.
 */
module Store {
  import opened Base
  import opened Strings
  import opened Json
  import opened Types

  /** `Path(p).is_absolute()` on a POSIX system. */
  predicate IsAbsolute(p: string) {
    |p| > 0 && p[0] == '/'
  }

  /** `str(Path(dir) / p)` for a relative `p`; normalisation of the path is left out. */
  function Under(dir: string, p: string): string {
    dir + "/" + p
  }

  /** A non-empty relative image path is taken relative to the store directory. */
  function ResolveImagePath(dir: string, p: string): (r: string)
    ensures p != "" && !IsAbsolute(p) ==> r == Under(dir, p)
    ensures p == "" || IsAbsolute(p) ==> r == p
  {
    if p != "" && !IsAbsolute(p) then Under(dir, p) else p
  }

  function KeyError(key: string): Exception { Exception("KeyError", key) }

  const ValidationError := Exception("ValidationError", "ReferenceExample")

  /** A required key: a missing one raises `KeyError`. */
  function Required(fields: seq<(string, Json)>, key: string): (r: Result<Json>)
    ensures r.Err? <==> Get(fields, key).None?
    ensures r.Ok? ==> r.value == Get(fields, key).value
    ensures r.Err? ==> r.error == KeyError(key)
  {
    match Get(fields, key)
    case None => Err(KeyError(key))
    case Some(v) => Ok(v)
  }

  /**
   * One index entry as an example: the image path resolved first (a truthy
   * path that is not a string cannot form a `Path`), then the three required
   * keys in order, then the field types are checked.
   */
  function ToExample(dir: string, item: Json): (r: Result<ReferenceExample>)
    ensures r.Ok? ==> item.JObject?
    ensures r.Ok? ==>
      && Get(item.fields, "id") == Some(JString(r.value.id))
      && Get(item.fields, "source_context") == Some(JString(r.value.sourceContext))
      && Get(item.fields, "caption") == Some(JString(r.value.caption))
    ensures r.Ok? ==>
      var given := GetOr(item.fields, "image_path", JString(""));
      given.JString? && r.value.imagePath == ResolveImagePath(dir, given.s)
    ensures r.Ok? ==>
      match Get(item.fields, "category")
      case None => r.value.category.None?
      case Some(c) => (c.JNull? && r.value.category.None?) || (c.JString? && r.value.category == Some(c.s))
  {
    if !item.JObject? then Err(Exception("AttributeError", "object has no attribute 'get'"))
    else
      var fields := item.fields;
      var given := GetOr(fields, "image_path", JString(""));
      if Truthy(given) && !given.JString? then Err(Exception("TypeError", "expected str, bytes or os.PathLike object"))
      else
        match Required(fields, "id")
        case Err(e) => Err(e)
        case Ok(id) =>
          match Required(fields, "source_context")
          case Err(e) => Err(e)
          case Ok(sourceContext) =>
            match Required(fields, "caption")
            case Err(e) => Err(e)
            case Ok(caption) =>
              var category := GetOr(fields, "category", JNull);
              if !id.JString? || !sourceContext.JString? || !caption.JString? || !given.JString? then Err(ValidationError)
              else if !category.JNull? && !category.JString? then Err(ValidationError)
              else
                assert Get(fields, "id") == Some(id) && Get(fields, "source_context") == Some(sourceContext);
                assert Get(fields, "caption") == Some(caption);
                Ok(ReferenceExample(
                  id.s, sourceContext.s, caption.s, ResolveImagePath(dir, given.s),
                  if category.JString? then Some(category.s) else None))
  }

  /** What reading an index yields: the examples built before the first failure, and that failure. */
  datatype IndexRead = IndexRead(examples: seq<ReferenceExample>, failure: Option<Exception>)

  /**
   * Building the examples of a list of entries in order; the first entry that
   * fails stops the reading, and the examples built before it remain.
   */
  function ReadItems(build: Json -> Result<ReferenceExample>, items: seq<Json>): (r: IndexRead)
    ensures |r.examples| <= |items|
    ensures forall k :: 0 <= k < |r.examples| ==> build(items[k]) == Ok(r.examples[k])
    ensures r.failure.None? ==> |r.examples| == |items|
    ensures r.failure.Some? ==> |r.examples| < |items| && build(items[|r.examples|]) == Err(r.failure.value)
    decreases |items|
  {
    if |items| == 0 then IndexRead([], None)
    else
      var front := ReadItems(build, items[..|items| - 1]);
      if front.failure.Some? then front
      else
        match build(items[|items| - 1])
        case Err(e) => IndexRead(front.examples, Some(e))
        case Ok(ex) => IndexRead(front.examples + [ex], None)
  }

  /** The conversion of the entries of an index in directory `dir`. */
  function Builder(dir: string): Json -> Result<ReferenceExample> {
    item => ToExample(dir, item)
  }

  /** Reading one more entry after a reading that has not failed. */
  lemma ReadItemsStep(build: Json -> Result<ReferenceExample>, items: seq<Json>, i: nat)
    requires i < |items| && ReadItems(build, items[..i]).failure.None?
    ensures var front, next := ReadItems(build, items[..i]), ReadItems(build, items[..i + 1]);
      match build(items[i])
      case Err(e) => next == IndexRead(front.examples, Some(e))
      case Ok(ex) => next == IndexRead(front.examples + [ex], None)
  {
    assert items[..i + 1][..i] == items[..i];
  }

  /** Once the reading has failed, further entries change nothing. */
  lemma {:induction false} ReadItemsStops(build: Json -> Result<ReferenceExample>, items: seq<Json>, j: nat)
    requires j <= |items| && ReadItems(build, items[..j]).failure.Some?
    ensures ReadItems(build, items) == ReadItems(build, items[..j])
    decreases |items| - j
  {
    if j < |items| {
      assert items[..j + 1][..j] == items[..j];
      ReadItemsStops(build, items, j + 1);
    } else {
      assert items[..j] == items;
    }
  }

  /** The content of `index.json`: its `examples` list, if any, read entry by entry. */
  function ReadIndex(dir: string, index: Option<Decoded>): (r: IndexRead)
    ensures index.None? ==> r == IndexRead([], None)
    ensures index == Some(Malformed) ==> r.examples == [] && r.failure.Some?
    ensures index.Some? && index.value.Parsed? && !index.value.value.JObject? ==> r.examples == [] && r.failure.Some?
  {
    match index
    case None => IndexRead([], None)
    case Some(Malformed) => IndexRead([], Some(Exception("JSONDecodeError", "index.json")))
    case Some(Parsed(data)) =>
      if !data.JObject? then IndexRead([], Some(Exception("AttributeError", "object has no attribute 'get'")))
      else
        match Iterate(GetOr(data.fields, "examples", JArray([])))
        case Err(e) => IndexRead([], Some(e))
        case Ok(items) => ReadItems(Builder(dir), items)
  }

  /** `e.model_dump()` as it is written to the index. */
  function Dump(e: ReferenceExample): Json {
    JObject([
      ("id", JString(e.id)),
      ("source_context", JString(e.sourceContext)),
      ("caption", JString(e.caption)),
      ("image_path", JString(e.imagePath)),
      ("category", if e.category.Some? then JString(e.category.value) else JNull)])
  }

  /** The document `create` writes: the metadata, or `{}` when it is absent or empty, and the dumped examples. */
  function IndexDocument(examples: seq<ReferenceExample>, metadata: Option<Json>): Json {
    JObject([
      ("metadata", if metadata.Some? && Truthy(metadata.value) then metadata.value else JObject([])),
      ("examples", JArray(seq(|examples|, i requires 0 <= i < |examples| => Dump(examples[i]))))])
  }

  /** An example with its image path resolved against the store directory. */
  function Resolved(dir: string, e: ReferenceExample): ReferenceExample {
    e.(imagePath := ResolveImagePath(dir, e.imagePath))
  }

  /**
   * Reading back a written index gives the examples again, in order, except
   * that a relative image path comes back prefixed with the directory.
   */
  lemma {:induction false} IndexRoundTrip(dir: string, examples: seq<ReferenceExample>, metadata: Option<Json>)
    ensures ReadIndex(dir, Some(Parsed(IndexDocument(examples, metadata)))) ==
      IndexRead(seq(|examples|, i requires 0 <= i < |examples| => Resolved(dir, examples[i])), None)
  {
    var doc := IndexDocument(examples, metadata);
    var items := seq(|examples|, i requires 0 <= i < |examples| => Dump(examples[i]));
    assert GetOr(doc.fields, "examples", JArray([])) == JArray(items);
    forall k | 0 <= k < |items|
      ensures Builder(dir)(items[k]) == Ok(Resolved(dir, examples[k]))
    {
      DumpRead(dir, examples[k]);
    }
    ReadAllItems(Builder(dir), items, seq(|examples|, i requires 0 <= i < |examples| => Resolved(dir, examples[i])));
  }

  lemma DumpRead(dir: string, e: ReferenceExample)
    ensures ToExample(dir, Dump(e)) == Ok(Resolved(dir, e))
  {
    DumpFields(e);
  }

  /** Each key of a dumped example holds the field it was written from. */
  lemma DumpFields(e: ReferenceExample)
    ensures var fields := Dump(e).fields;
      && Get(fields, "id") == Some(JString(e.id))
      && Get(fields, "source_context") == Some(JString(e.sourceContext))
      && Get(fields, "caption") == Some(JString(e.caption))
      && Get(fields, "image_path") == Some(JString(e.imagePath))
      && Get(fields, "category") == Some(if e.category.Some? then JString(e.category.value) else JNull)
  {
    var fields := Dump(e).fields;
    DumpKeysDistinct(e);
    GetAt(fields, 0);
    GetAt(fields, 1);
    GetAt(fields, 2);
    GetAt(fields, 3);
    GetAt(fields, 4);
  }

  /** The five keys of a dumped example differ from each other. */
  lemma DumpKeysDistinct(e: ReferenceExample)
    ensures var fields := Dump(e).fields;
      |fields| == 5 && forall i, j :: 0 <= i < j < 5 ==> fields[i].0 != fields[j].0
  {
    var keys := seq(5, i requires 0 <= i < 5 => Dump(e).fields[i].0);
    assert keys[0][1] == 'd' && keys[1][0] == 's' && keys[2][2] == 'p';
    assert keys[3][1] == 'm' && keys[4][2] == 't';
    assert keys[0][0] == 'i' && keys[3][0] == 'i' && keys[2][0] == 'c' && keys[4][0] == 'c';
  }

  /** When every entry builds, the reading yields all of them and no failure. */
  lemma {:induction false} ReadAllItems(build: Json -> Result<ReferenceExample>, items: seq<Json>, built: seq<ReferenceExample>)
    requires |built| == |items|
    requires forall k :: 0 <= k < |items| ==> build(items[k]) == Ok(built[k])
    ensures ReadItems(build, items) == IndexRead(built, None)
  {
    var r := ReadItems(build, items);
    if r.failure.Some? {
      assert false;
    }
    assert r.examples == built;
  }

  /** `[e for e in examples if e.category == category]`. */
  function WithCategory(examples: seq<ReferenceExample>, category: string): (r: seq<ReferenceExample>)
    ensures forall e :: e in r <==> e in examples && e.category == Some(category)
    ensures |r| <= |examples|
    decreases |examples|
  {
    if |examples| == 0 then []
    else
      var front := WithCategory(examples[..|examples| - 1], category);
      var e := examples[|examples| - 1];
      assert forall x :: x in examples <==> x in examples[..|examples| - 1] || x == e;
      if e.category == Some(category) then front + [e] else front
  }

  /** Filtering keeps the order: the filter of a concatenation is the concatenation of the filters. */
  lemma {:induction false} WithCategoryAppend(a: seq<ReferenceExample>, b: seq<ReferenceExample>, category: string)
    ensures WithCategory(a + b, category) == WithCategory(a, category) + WithCategory(b, category)
    decreases |b|
  {
    if |b| == 0 {
      assert a + b == a;
    } else {
      var b' := b[..|b| - 1];
      assert (a + b)[..|a + b| - 1] == a + b';
      WithCategoryAppend(a, b', category);
    }
  }

  /** The position of the first example with this ID, if any. */
  function FirstWithId(examples: seq<ReferenceExample>, id: string): (r: Option<nat>)
    ensures r.None? <==> forall i :: 0 <= i < |examples| ==> examples[i].id != id
    ensures r.Some? ==> r.value < |examples| && examples[r.value].id == id
    ensures r.Some? ==> forall i :: 0 <= i < r.value ==> examples[i].id != id
    decreases |examples|
  {
    if |examples| == 0 then None
    else if examples[0].id == id then Some(0)
    else
      match FirstWithId(examples[1..], id)
      case None => None
      case Some(i) => Some(i + 1)
  }

  /** The search loop of `get_by_id`: the first example with that ID, or nothing. */
  method FindById(examples: seq<ReferenceExample>, id: string) returns (r: Option<ReferenceExample>)
    ensures match FirstWithId(examples, id)
      case None => r.None?
      case Some(i) => r == Some(examples[i])
  {
    var i := 0;
    while i < |examples|
      invariant 0 <= i <= |examples|
      invariant forall k :: 0 <= k < i ==> examples[k].id != id
    {
      if examples[i].id == id {
        return Some(examples[i]);
      }
      i := i + 1;
    }
    return None;
  }

  class ReferenceStore {
    var path: string
    var examples: seq<ReferenceExample>
    var loaded: bool

    constructor (path: string)
      ensures this.path == path && examples == [] && !loaded
    {
      this.path := path;
      examples := [];
      loaded := false;
    }

    /**
     * `_load`: nothing once loaded. Otherwise the index is read and its
     * examples appended; a missing index gives no example. The store is
     * marked loaded only when the reading succeeds: after a failure the
     * examples built so far stay and the next access reads the index again.
     */
    method Load(index: Option<Decoded>) returns (failure: Option<Exception>)
      modifies this
      ensures path == old(path)
      ensures old(loaded) ==> examples == old(examples) && loaded && failure.None?
      ensures !old(loaded) ==>
        var read := ReadIndex(path, index);
        && examples == old(examples) + read.examples
        && failure == read.failure
        && (loaded <==> failure.None?)
    {
      if loaded {
        return None;
      }
      if index.None? {
        loaded := true;
        return None;
      }
      if index.value.Malformed? {
        return Some(Exception("JSONDecodeError", "index.json"));
      }
      var data := index.value.value;
      if !data.JObject? {
        return Some(Exception("AttributeError", "object has no attribute 'get'"));
      }
      var entries := Iterate(GetOr(data.fields, "examples", JArray([])));
      if entries.Err? {
        return Some(entries.error);
      }
      failure := AppendEntries(Builder(path), entries.value);
    }

    /** The loop of `_load`: each entry is built by `build` and appended in turn; the first failure stops it. */
    method AppendEntries(build: Json -> Result<ReferenceExample>, items: seq<Json>) returns (failure: Option<Exception>)
      requires !loaded
      modifies this
      ensures path == old(path)
      ensures examples == old(examples) + ReadItems(build, items).examples
      ensures failure == ReadItems(build, items).failure
      ensures loaded <==> failure.None?
    {
      var i := 0;
      ghost var added: seq<ReferenceExample> := [];
      while i < |items|
        invariant 0 <= i <= |items| && path == old(path) && !loaded
        invariant examples == old(examples) + added
        invariant ReadItems(build, items[..i]) == IndexRead(added, None)
      {
        var ex := build(items[i]);
        ReadItemsStep(build, items, i);
        if ex.Err? {
          ReadItemsStops(build, items, i + 1);
          return Some(ex.error);
        }
        examples := examples + [ex.value];
        added := added + [ex.value];
        i := i + 1;
      }
      assert items[..|items|] == items;
      loaded := true;
      failure := None;
    }

    /** `get_all`. */
    method GetAll(index: Option<Decoded>) returns (r: Result<seq<ReferenceExample>>)
      modifies this
      ensures path == old(path)
      ensures old(loaded) ==> r == Ok(old(examples)) && examples == old(examples) && loaded
      ensures !old(loaded) ==>
        var read := ReadIndex(path, index);
        && examples == old(examples) + read.examples
        && (read.failure.None? ==> loaded && r == Ok(examples))
        && (read.failure.Some? ==> !loaded && r == Err(read.failure.value))
    {
      var failure := Load(index);
      if failure.Some? {
        return Err(failure.value);
      }
      r := Ok(examples);
    }

    /** `get_by_category`: the loaded examples with that category, in order. */
    method GetByCategory(index: Option<Decoded>, category: string) returns (r: Result<seq<ReferenceExample>>)
      modifies this
      ensures path == old(path)
      ensures old(loaded) ==> examples == old(examples) && loaded
      ensures !old(loaded) ==> examples == old(examples) + ReadIndex(path, index).examples
      ensures !old(loaded) ==>
        && (ReadIndex(path, index).failure.Some? ==> !loaded && r == Err(ReadIndex(path, index).failure.value))
        && (ReadIndex(path, index).failure.None? ==> loaded)
      ensures r.Ok? <==> loaded
      ensures r.Ok? ==> r.value == WithCategory(examples, category)
      ensures r.Err? ==> !old(loaded) && ReadIndex(path, index).failure == Some(r.error)
    {
      var failure := Load(index);
      if failure.Some? {
        return Err(failure.value);
      }
      r := Ok(WithCategory(examples, category));
    }

    /** `get_by_id`: the first loaded example with that ID, or nothing. */
    method GetById(index: Option<Decoded>, id: string) returns (r: Result<Option<ReferenceExample>>)
      modifies this
      ensures path == old(path)
      ensures old(loaded) ==> examples == old(examples) && loaded
      ensures !old(loaded) ==> examples == old(examples) + ReadIndex(path, index).examples
      ensures !old(loaded) ==>
        && (ReadIndex(path, index).failure.Some? ==> !loaded && r == Err(ReadIndex(path, index).failure.value))
        && (ReadIndex(path, index).failure.None? ==> loaded)
      ensures r.Ok? <==> loaded
      ensures r.Err? ==> !old(loaded) && ReadIndex(path, index).failure == Some(r.error)
      ensures r.Ok? ==> match FirstWithId(examples, id)
        case None => r.value.None?
        case Some(i) => r.value == Some(examples[i])
    {
      var failure := Load(index);
      if failure.Some? {
        return Err(failure.value);
      }
      var found := FindById(examples, id);
      r := Ok(found);
    }

    /** `count`: the number of loaded examples, the length of what `get_all` returns. */
    method Count(index: Option<Decoded>) returns (r: Result<nat>)
      modifies this
      ensures path == old(path)
      ensures old(loaded) ==> examples == old(examples) && loaded
      ensures !old(loaded) ==> examples == old(examples) + ReadIndex(path, index).examples
      ensures !old(loaded) ==>
        && (ReadIndex(path, index).failure.Some? ==> !loaded && r == Err(ReadIndex(path, index).failure.value))
        && (ReadIndex(path, index).failure.None? ==> loaded)
      ensures r.Ok? <==> loaded
      ensures r.Ok? ==> r.value == |examples|
      ensures r.Err? ==> !old(loaded) && ReadIndex(path, index).failure == Some(r.error)
    {
      var failure := Load(index);
      if failure.Some? {
        return Err(failure.value);
      }
      r := Ok(|examples|);
    }
  }

  /**
   * `create`: the index document to write, and a store that already holds
   * the given examples and is marked loaded, so the written file is never
   * read back by it.
   */
  method Create(path: string, examples: seq<ReferenceExample>, metadata: Option<Json>)
    returns (store: ReferenceStore, written: Json)
    ensures fresh(store)
    ensures store.path == path && store.examples == examples && store.loaded
    ensures written == IndexDocument(examples, metadata)
  {
    written := IndexDocument(examples, metadata);
    store := new ReferenceStore(path);
    store.examples := examples;
    store.loaded := true;
  }
}
