/**
 * `read`: loads the annotations of a folder of JSON files or of one JSON file into
 * a list of batches, then orders the batches by the `video_name` of their first
 * record when the very first record has one.
 *
 * Parsing is done by the caller: a folder brings the parsed value of each of its
 * `*.json` files, in the order `glob` found them, and a file brings its parsed value.
 * The value `read` builds is itself kept as a JSON value, because for some document
 * shapes the code returns the parsed value unchanged.
 */
module Loader {
  import opened Common
  import opened Strings
  import opened Sorting

  /** A parsed JSON value. `JScalar` is a number, `true`, `false` or `null`, as written. */
  datatype Json =
    | JObject(fields: map<string, Json>)
    | JArray(items: seq<Json>)
    | JString(text: string)
    | JScalar(literal: string)

  /** What the path given to `read` is, as the filesystem reports it. */
  datatype Input =
    | JsonFolder(documents: seq<Json>)
    | RegularFile(path: string, document: Json)
    | Neither(path: string)

  const VideoName: string := "video_name"

  /** Python's `v[0]` on a parsed JSON value. */
  function Item0(v: Json): (r: Result<Json>)
  {
    match v
    case JArray(items) => if items == [] then Failure(IndexError) else Success(items[0])
    case JString(text) => if text == [] then Failure(IndexError) else Success(JString([text[0]]))
    case JObject(_) => Failure(KeyError)   // object keys are strings, never the integer 0
    case JScalar(_) => Failure(TypeError)
  }

  /** Python's `key in v` for a string `key`. */
  function Contains(v: Json, key: string): (r: Result<bool>)
  {
    match v
    case JObject(fields) => Success(key in fields)
    case JArray(items) => Success(JString(key) in items)
    case JString(text) => Success(Occurs(key, text))
    case JScalar(_) => Failure(TypeError)
  }

  /** Python's `v[key]` for a string `key`. */
  function Subscript(v: Json, key: string): (r: Result<Json>)
  {
    match v
    case JObject(fields) => if key in fields then Success(fields[key]) else Failure(KeyError)
    case _ => Failure(TypeError)
  }

  /** The sort key of one batch, `str(batch[0]["video_name"])`; `render` is Python's `str`. */
  function BatchKey(batch: Json, render: Json -> string): Result<string>
  {
    var first :- Item0(batch);
    var name :- Subscript(first, VideoName);
    Success(render(name))
  }

  /** The key `sorted` orders by, for batches whose key can be computed. */
  function SortKey(render: Json -> string): Json -> string
  {
    batch => var key := BatchKey(batch, render); if key.Success? then key.value else ""
  }

  /** `sorted` computes every key, in list order, before it compares any; the first failure is raised. */
  function AllKeys(batches: seq<Json>, render: Json -> string): Result<()>
  {
    if batches == [] then Success(())
    else
      var _ :- BatchKey(batches[0], render);
      AllKeys(batches[1..], render)
  }

  /** The single-file case: an object becomes `[[d]]`, a list led by an object `[list]`. */
  function Wrap(document: Json): Result<Json>
  {
    match document
    case JObject(_) => Success(JArray([JArray([document])]))
    case JArray(items) =>
      if items == [] then Failure(IndexError)
      else if items[0].JObject? then Success(JArray([document]))
      else Success(document)
    case _ => Success(document)
  }

  /** `outputs[0][0]`. */
  function FirstRecord(outputs: Json): Result<Json>
  {
    var first :- Item0(outputs);
    Item0(first)
  }

  /** The ordering pass: sort by `video_name` when `outputs[0][0]` has that key. */
  function Order(outputs: Json, render: Json -> string): Result<Json>
  {
    var record :- FirstRecord(outputs);
    var named :- Contains(record, VideoName);
    if !named then Success(outputs)
    else
      match outputs
      case JArray(batches) =>
        var _ :- AllKeys(batches, render);
        Success(JArray(SortBy(batches, SortKey(render))))
      // `sorted` over a string would fail on its first character; this case cannot
      // arise, as a one-character string never contains "video_name"
      case _ => Failure(TypeError)
  }

  /** `read(inputs)`, with Python's `str` on JSON values passed in as `render`. */
  function Read(inputs: Input, render: Json -> string): (r: Result<Json>)
    ensures inputs.Neither? ==> r == Failure(TypeError)
    ensures inputs.RegularFile? && !EndsWith(inputs.path, "json") ==> r == Failure(TypeError)
  {
    match inputs
    case JsonFolder(documents) => Order(JArray(documents), render)
    case RegularFile(path, document) =>
      if EndsWith(path, "json") then
        var outputs :- Wrap(document);
        Order(outputs, render)
      else Failure(TypeError)
    case Neither(_) => Failure(TypeError)
  }

  /** `batch[0]` is an object with a `video_name` field. */
  ghost predicate LedByNamedRecord(batch: Json)
  {
    batch.JArray? && batch.items != [] && batch.items[0].JObject? && VideoName in batch.items[0].fields
  }

  /** `outputs[0][0]` exists and `"video_name" in outputs[0][0]` is true. */
  ghost predicate FirstRecordNamed(batches: seq<Json>)
  {
    && FirstRecord(JArray(batches)).Success?
    && Contains(FirstRecord(JArray(batches)).value, VideoName) == Success(true)
  }

  /** A batch has a sort key exactly when its first record is an object with `video_name`. */
  lemma BatchKeyDefined(batch: Json, render: Json -> string)
    ensures BatchKey(batch, render).Success? <==> LedByNamedRecord(batch)
    ensures LedByNamedRecord(batch) ==>
      SortKey(render)(batch) == render(batch.items[0].fields[VideoName])
  {
  }

  /** Keys are computed front to back: success when every batch has one, else the first failure. */
  lemma {:induction false} AllKeysDefined(batches: seq<Json>, render: Json -> string)
    ensures AllKeys(batches, render).Success? <==> forall b :: b in batches ==> BatchKey(b, render).Success?
    ensures AllKeys(batches, render).Failure? ==>
      exists i :: 0 <= i < |batches| && BatchKey(batches[i], render).Failure?
        && AllKeys(batches, render).error == BatchKey(batches[i], render).error
        && forall j :: 0 <= j < i ==> BatchKey(batches[j], render).Success?
  {
    if batches != [] {
      AllKeysDefined(batches[1..], render);
      assert batches == [batches[0]] + batches[1..];
      if BatchKey(batches[0], render).Success? && AllKeys(batches[1..], render).Failure? {
        var i :| 0 <= i < |batches[1..]| && BatchKey(batches[1..][i], render).Failure?
          && AllKeys(batches[1..], render).error == BatchKey(batches[1..][i], render).error
          && forall j :: 0 <= j < i ==> BatchKey(batches[1..][j], render).Success?;
        assert forall j :: 1 <= j <= i ==> batches[j] == batches[1..][j - 1];
        assert BatchKey(batches[i + 1], render).Failure?;
      }
    }
  }

  /**
   * When `outputs[0][0]` has a `video_name`, reading a folder succeeds exactly when
   * every batch is led by a record with a `video_name`, and then gives the batches
   * stably sorted by `str` of that name.
   */
  lemma ReadOrdersByVideoName(batches: seq<Json>, render: Json -> string)
    requires FirstRecordNamed(batches)
    ensures Read(JsonFolder(batches), render).Success? <==> forall b :: b in batches ==> LedByNamedRecord(b)
    ensures Read(JsonFolder(batches), render).Success? ==>
      && Read(JsonFolder(batches), render).value.JArray?
      && StableSortOf(Read(JsonFolder(batches), render).value.items, batches, SortKey(render))
    ensures forall b :: b in batches && LedByNamedRecord(b) ==>
      SortKey(render)(b) == render(b.items[0].fields[VideoName])
  {
    AllKeysDefined(batches, render);
    forall b | b in batches
      ensures BatchKey(b, render).Success? <==> LedByNamedRecord(b)
      ensures LedByNamedRecord(b) ==> SortKey(render)(b) == render(b.items[0].fields[VideoName])
    {
      BatchKeyDefined(b, render);
    }
  }

  /** When `outputs[0][0]` exists and has no `video_name`, a folder's documents keep their order. */
  lemma ReadKeepsOrderWithoutVideoName(batches: seq<Json>, render: Json -> string)
    requires FirstRecord(JArray(batches)).Success?
    requires Contains(FirstRecord(JArray(batches)).value, VideoName) == Success(false)
    ensures Read(JsonFolder(batches), render) == Success(JArray(batches))
  {
  }

  /** An empty folder has no first record: `outputs[0]` raises IndexError. */
  lemma ReadEmptyFolder(render: Json -> string)
    ensures Read(JsonFolder([]), render) == Failure(IndexError)
  {
  }

  /** Folder documents are not wrapped: one led by an object fails at `outputs[0][0]`. */
  lemma ReadFolderOfObjects(batches: seq<Json>, render: Json -> string)
    requires batches != [] && batches[0].JObject?
    ensures Read(JsonFolder(batches), render) == Failure(KeyError)
  {
  }

  lemma SortSingle<T>(x: T, key: T -> string)
    ensures SortBy([x], key) == [x]
  {
    assert [x][1..] == [];
  }

  /** A single batch led by an object is left as it is, sorted or not. */
  lemma OrderSingleBatch(batch: Json, render: Json -> string)
    requires batch.JArray? && batch.items != [] && batch.items[0].JObject?
    ensures Order(JArray([batch]), render) == Success(JArray([batch]))
  {
    var record := batch.items[0];
    assert FirstRecord(JArray([batch])) == Success(record);
    if VideoName in record.fields {
      assert BatchKey(batch, render).Success?;
      assert [batch][1..] == [];
      assert AllKeys([batch], render) == Success(());
      SortSingle(batch, SortKey(render));
    }
  }

  /** A JSON file holding one object reads as one batch of that one record. */
  lemma ReadObjectFile(path: string, fields: map<string, Json>, render: Json -> string)
    requires EndsWith(path, "json")
    ensures Read(RegularFile(path, JObject(fields)), render) == Success(JArray([JArray([JObject(fields)])]))
  {
    OrderSingleBatch(JArray([JObject(fields)]), render);
  }

  /** A JSON file holding a list led by an object reads as that one batch. */
  lemma ReadListFile(path: string, items: seq<Json>, render: Json -> string)
    requires EndsWith(path, "json") && items != [] && items[0].JObject?
    ensures Read(RegularFile(path, JArray(items)), render) == Success(JArray([JArray(items)]))
  {
    OrderSingleBatch(JArray(items), render);
  }

  /** A JSON file holding an empty list fails at `outputs[0]` with IndexError. */
  lemma ReadEmptyListFile(path: string, render: Json -> string)
    requires EndsWith(path, "json")
    ensures Read(RegularFile(path, JArray([])), render) == Failure(IndexError)
  {
  }

  /** A list not led by an object is taken as a list of batches, as a folder's documents are. */
  lemma ReadNestedListFile(path: string, items: seq<Json>, render: Json -> string)
    requires EndsWith(path, "json") && items != [] && !items[0].JObject?
    ensures Read(RegularFile(path, JArray(items)), render) == Read(JsonFolder(items), render)
  {
  }

  /** A JSON file holding a non-empty string is returned as that string, not as a list of batches. */
  lemma ReadStringFile(path: string, text: string, render: Json -> string)
    requires EndsWith(path, "json") && text != []
    ensures Read(RegularFile(path, JString(text)), render) == Success(JString(text))
  {
    assert !Occurs(VideoName, [text[0]]);
  }
}
