/** JSON values and JSON Patch operations (src/schemas/json.ts). */
module Json {
  import opened Wrappers

  /** A JSON value: a literal, an array of values, or a string-keyed object of values.
      Numbers are finite (JSON has no NaN or infinity). */
  datatype JsonValue =
    | JString(str: string)
    | JNumber(num: real)
    | JBool(b: bool)
    | JNull
    | JArray(items: seq<JsonValue>)
    | JObject(fields: map<string, JsonValue>)

  /** JavaScript truthiness of a parsed JSON value: `""`, `0`, `false` and `null` are falsy,
      every array and object (even an empty one) is truthy */
  predicate Truthy(v: JsonValue) {
    match v
    case JString(s) => s != ""
    case JNumber(n) => n != 0.0
    case JBool(b) => b
    case JNull => false
    case JArray(_) => true
    case JObject(_) => true
  }

  /** The six operations of a JSON Patch document (section 4 of RFC 6902) */
  datatype PatchOp =
    | Add(path: string, value: JsonValue)
    | Remove(path: string)
    | Replace(path: string, value: JsonValue)
    | Copy(from: string, path: string)
    | Move(from: string, path: string)
    | Test(path: string, value: JsonValue)

  /** The `op` literal each operation carries */
  function OpName(op: PatchOp): string {
    match op
    case Add(_, _) => "add"
    case Remove(_) => "remove"
    case Replace(_, _) => "replace"
    case Copy(_, _) => "copy"
    case Move(_, _) => "move"
    case Test(_, _) => "test"
  }

  /** A JSON Patch evaluator: the patched document, or `None` when the batch fails */
  type Patcher = (JsonValue, seq<PatchOp>) -> Option<JsonValue>

  /** `JSON.stringify` and `JSON.parse`, taken as a pair of functions */
  datatype JsonCodec = JsonCodec(stringify: JsonValue -> string, parse: string -> Option<JsonValue>)

  /** The string stored under `key` of an object, if it is a string */
  function StringField(fields: map<string, JsonValue>, key: string): Option<string> {
    if key in fields && fields[key].JString? then Some(fields[key].str) else None
  }

  /** `JSONPatchSchema.safeParse(v)`: the union of six object shapes, each keyed by its `op`
      literal; keys a shape does not name are stripped, and `value` may be any JSON value
      but must be present */
  function ParsePatchOp(v: JsonValue): Option<PatchOp> {
    if !v.JObject? then None
    else
      var f := v.fields;
      match (StringField(f, "op"), StringField(f, "path"), StringField(f, "from"))
      case (Some(op), Some(path), from) =>
        if op == "add" && "value" in f then Some(Add(path, f["value"]))
        else if op == "remove" then Some(Remove(path))
        else if op == "replace" && "value" in f then Some(Replace(path, f["value"]))
        else if op == "copy" && from.Some? then Some(Copy(from.value, path))
        else if op == "move" && from.Some? then Some(Move(from.value, path))
        else if op == "test" && "value" in f then Some(Test(path, f["value"]))
        else None
      case _ => None
  }

  /** The object form of an operation, as a client sends it */
  function PatchOpJson(op: PatchOp): JsonValue {
    match op
    case Add(path, value) => JObject(map["op" := JString("add"), "path" := JString(path), "value" := value])
    case Remove(path) => JObject(map["op" := JString("remove"), "path" := JString(path)])
    case Replace(path, value) => JObject(map["op" := JString("replace"), "path" := JString(path), "value" := value])
    case Copy(from, path) => JObject(map["op" := JString("copy"), "from" := JString(from), "path" := JString(path)])
    case Move(from, path) => JObject(map["op" := JString("move"), "from" := JString(from), "path" := JString(path)])
    case Test(path, value) => JObject(map["op" := JString("test"), "path" := JString(path), "value" := value])
  }

  /** Every operation's object form is accepted by the schema as that same operation */
  lemma PatchOpRoundTrip(op: PatchOp)
    ensures ParsePatchOp(PatchOpJson(op)) == Some(op)
  {
  }

  /** Whatever the schema accepts is an object with a `path` string and with the `op` literal of
      exactly one of the six shapes; `add`, `replace` and `test` also carry the `value` they were
      given, `copy` and `move` the `from` string */
  lemma ParsedPatchOpShape(v: JsonValue, op: PatchOp)
    requires ParsePatchOp(v) == Some(op)
    ensures v.JObject? && StringField(v.fields, "op") == Some(OpName(op))
    ensures StringField(v.fields, "path") == Some(op.path)
    ensures (op.Add? || op.Replace? || op.Test?) ==> v.fields["value"] == op.value
    ensures (op.Copy? || op.Move?) ==> StringField(v.fields, "from") == Some(op.from)
  {
  }

  /** An object whose `op` is none of the six literals is refused */
  lemma UnknownOpRefused(v: JsonValue)
    requires v.JObject?
    requires StringField(v.fields, "op").Some?
    requires StringField(v.fields, "op").value !in {"add", "remove", "replace", "copy", "move", "test"}
    ensures ParsePatchOp(v) == None
  {
  }
}
