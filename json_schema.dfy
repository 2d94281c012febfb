/** The schema gate in front of every write (src/lib/json-schema.ts): records without a schema
    URL and records pointing at a JSON Schema meta-schema pass unchecked; for any other URL the
    schema is fetched, its draft is read from its own `$schema`, and a validator decides. The
    fetch and the validator are foreign and are given as parameters. */
module SchemaGate {
  import opened Wrappers
  import opened Strings
  import opened Json
  import opened Records

  /** The drafts the validator knows */
  datatype Draft = Draft4 | Draft7 | Draft2019_09 | Draft2020_12

  /** The name the validator is given for each draft */
  function DraftName(d: Draft): string {
    match d
    case Draft4 => "4"
    case Draft7 => "7"
    case Draft2019_09 => "2019-09"
    case Draft2020_12 => "2020-12"
  }

  /** What the draft lookup can hand to the validator: a draft, or whatever a plain object
      inherits under that name (an `Object.prototype` member) */
  datatype DraftArg = Named(draft: Draft) | ProtoMember(name: string)

  /** The names every plain object inherits from `Object.prototype` */
  const ObjectPrototypeMembers: set<string> := {
    "constructor", "hasOwnProperty", "isPrototypeOf", "propertyIsEnumerable", "toString",
    "toLocaleString", "valueOf", "__proto__", "__defineGetter__", "__defineSetter__",
    "__lookupGetter__", "__lookupSetter__"
  }

  const Draft04Uri: string := "http://json-schema.org/draft-04/schema"
  const Draft07Uri: string := "http://json-schema.org/draft-07/schema"
  const Draft2019Uri: string := "https://json-schema.org/draft-2019-09/schema"
  const Draft2020Uri: string := "https://json-schema.org/draft-2020-12/schema"

  /** `s.replace(/#$/, '')`: one `#` at the very end is removed */
  function StripTrailingHash(s: string): string {
    if s != [] && s[|s| - 1] == '#' then s[..|s| - 1] else s
  }

  /** `draftVersions[uri] || null`: the four table entries, the inherited members, else null */
  function LookupDraft(uri: string): Option<DraftArg> {
    if uri == Draft04Uri then Some(Named(Draft4))
    else if uri == Draft07Uri then Some(Named(Draft7))
    else if uri == Draft2019Uri then Some(Named(Draft2019_09))
    else if uri == Draft2020Uri then Some(Named(Draft2020_12))
    else if uri in ObjectPrototypeMembers then Some(ProtoMember(uri))
    else Option.None
  }

  /** The errors the gate lets escape: a fetch that fails, and reading `$schema` of `null` or
      calling `replace` on a `$schema` that is not a string */
  datatype GateError = FetchFailed | TypeError

  /** `getJsonSchemaDraftVersion(schema)`: null when `$schema` is missing or falsy, else the
      lookup of the URI without its trailing `#` */
  function GetDraftVersion(schema: JsonValue): Result<Option<DraftArg>, GateError> {
    match schema
    case JNull => Failure(TypeError)
    case JObject(fields) =>
      if "$schema" !in fields || !Truthy(fields["$schema"]) then Success(Option.None)
      else if fields["$schema"].JString? then Success(LookupDraft(StripTrailingHash(fields["$schema"].str)))
      else Failure(TypeError)
    case _ => Success(Option.None)
  }

  /** The foreign parts: the fetch of a schema by URL (`None` when it fails) and the validator,
      given the schema, the draft and the data */
  datatype SchemaEnv = SchemaEnv(fetch: string -> Option<JsonValue>, check: (JsonValue, DraftArg, JsonValue) -> bool)

  /** What `validateSchema` ends in: valid, invalid, or an error that escapes */
  datatype Verdict = Valid | Invalid | Failed(error: GateError)

  /** The URL prefix of the JSON Schema meta-schemas, which are not checked */
  const MetaSchemaPrefix: string := "https://json-schema.org/draft"

  /** `validateSchema(record)` on the record's data */
  function ValidateSchema(env: SchemaEnv, data: JsonValue): Verdict {
    var url := SchemaUrl(data);
    if url.None? || url.value == "" then Valid
    else if StartsWith(url.value, MetaSchemaPrefix) then Valid
    else
      match env.fetch(url.value)
      case None => Failed(FetchFailed)
      case Some(schema) =>
        match GetDraftVersion(schema)
        case Failure(e) => Failed(e)
        case Success(draft) =>
          if env.check(schema, draft.GetOr(Named(Draft2020_12)), data) then Valid else Invalid
  }

  /** Data without a schema URL is valid whatever the fetch and the validator would do: no
      fetch happens */
  lemma NoSchemaUrlIsValid(env: SchemaEnv, other: SchemaEnv, data: JsonValue)
    requires SchemaUrl(data).None?
    ensures ValidateSchema(env, data) == Valid
    ensures ValidateSchema(env, data) == ValidateSchema(other, data)
  {
  }

  /** A schema URL under `https://json-schema.org/draft` is valid without a fetch */
  lemma MetaSchemaUrlIsValid(env: SchemaEnv, other: SchemaEnv, data: JsonValue)
    requires SchemaUrl(data).Some? && StartsWith(SchemaUrl(data).value, MetaSchemaPrefix)
    ensures ValidateSchema(env, data) == Valid
    ensures ValidateSchema(env, data) == ValidateSchema(other, data)
  {
  }

  /** Every other schema URL is fetched: when the fetch fails the failure escapes; when the
      fetched schema's `$schema` makes `getJsonSchemaDraftVersion` throw, that error escapes;
      otherwise the validator's answer, under the declared draft or `2020-12`, is the verdict */
  lemma OtherUrlsAreFetched(env: SchemaEnv, data: JsonValue, schema: JsonValue)
    requires SchemaUrl(data).Some? && !StartsWith(SchemaUrl(data).value, MetaSchemaPrefix)
    ensures env.fetch(SchemaUrl(data).value).None? ==> ValidateSchema(env, data) == Failed(FetchFailed)
    ensures env.fetch(SchemaUrl(data).value) == Some(schema) && GetDraftVersion(schema).Failure? ==>
      ValidateSchema(env, data) == Failed(GetDraftVersion(schema).error)
    ensures env.fetch(SchemaUrl(data).value) == Some(schema) && GetDraftVersion(schema).Success? ==>
      ValidateSchema(env, data) ==
        if env.check(schema, GetDraftVersion(schema).value.GetOr(Named(Draft2020_12)), data) then Valid else Invalid
  {
    assert SchemaUrl(data).value != "" by {
      SplitNoSeparator("", ':');
    }
  }

  /** An `http://` URL with a host, such as `http://json-schema.org/draft-07/schema` of the
      draft 7 meta-schema, is not short-circuited: it is fetched */
  lemma HttpUrlsAreFetched(env: SchemaEnv, fields: map<string, JsonValue>, host: string)
    requires host != ""
    requires env.fetch("http://" + host).None?
    ensures ValidateSchema(env, JObject(fields["$schema" := JString("http://" + host)])) == Failed(FetchFailed)
  {
    var url := "http://" + host;
    var data := JObject(fields["$schema" := JString(url)]);
    assert url == "http" + [':'] + ("//" + host);
    SchemeThenColonIsUrl("http", "//" + host);
    assert SchemaUrl(data) == Some(url);
    assert url[4] == ':' && MetaSchemaPrefix[4] == 's';
    OtherUrlsAreFetched(env, data, JNull);
  }

  /** The table maps exactly four URIs to drafts; other names map to nothing unless a plain
      object inherits them */
  lemma LookupDraftTable(uri: string)
    ensures LookupDraft(Draft04Uri) == Some(Named(Draft4))
    ensures LookupDraft(Draft07Uri) == Some(Named(Draft7))
    ensures LookupDraft(Draft2019Uri) == Some(Named(Draft2019_09))
    ensures LookupDraft(Draft2020Uri) == Some(Named(Draft2020_12))
    ensures (LookupDraft(uri).Some? && LookupDraft(uri).value.Named?) <==>
      uri in {Draft04Uri, Draft07Uri, Draft2019Uri, Draft2020Uri}
    ensures uri !in {Draft04Uri, Draft07Uri, Draft2019Uri, Draft2020Uri} && uri !in ObjectPrototypeMembers ==>
      LookupDraft(uri) == Option.None
  {
    assert "constructor" != Draft04Uri;
  }

  /** Exactly one trailing `#` is stripped: `uri#` finds the draft of `uri`, `uri##` does not */
  lemma OneHashStripped(s: string)
    ensures StripTrailingHash(s + "#") == s
    ensures StripTrailingHash(s + "##") == s + "#"
    ensures (s == [] || s[|s| - 1] != '#') ==> StripTrailingHash(s) == s
  {
    assert (s + "##")[..|s| + 1] == s + "#";
  }

  /** A schema declaring one of the four draft URIs, with or without the `#`, yields that
      draft */
  lemma DeclaredDraftIsRead(fields: map<string, JsonValue>, u: string, hash: string)
    requires u in {Draft04Uri, Draft07Uri, Draft2019Uri, Draft2020Uri} && (hash == "" || hash == "#")
    ensures LookupDraft(u).Some? && LookupDraft(u).value.Named?
    ensures GetDraftVersion(JObject(fields["$schema" := JString(u + hash)])) == Success(LookupDraft(u))
  {
    OneHashStripped(u);
    LookupDraftTable(u);
  }

  /** A schema without `$schema`, or with an unknown one, is validated as draft 2020-12 */
  lemma DefaultsToDraft2020(env: SchemaEnv, data: JsonValue, schema: JsonValue)
    requires SchemaUrl(data).Some? && !StartsWith(SchemaUrl(data).value, MetaSchemaPrefix)
    requires env.fetch(SchemaUrl(data).value) == Some(schema)
    requires GetDraftVersion(schema) == Success(Option.None)
    ensures ValidateSchema(env, data) == if env.check(schema, Named(Draft2020_12), data) then Valid else Invalid
  {
    OtherUrlsAreFetched(env, data, schema);
  }

  /** The inherited names are short and none ends in `#` */
  lemma PrototypeNamesShape(name: string)
    requires name in ObjectPrototypeMembers
    ensures name != [] && name[|name| - 1] != '#' && |name| < 30
  {
  }

  /** `$schema` set to the name of any inherited member, with or without the `#`, leaks that
      member to the validator in place of a draft; a `$schema` that is truthy but not a
      string, and a `null` schema, make the gate throw */
  lemma PrototypeNamesLeak(fields: map<string, JsonValue>, name: string, hash: string, v: JsonValue)
    requires name in ObjectPrototypeMembers && (hash == "" || hash == "#")
    requires Truthy(v) && !v.JString?
    ensures GetDraftVersion(JObject(fields["$schema" := JString(name + hash)])) == Success(Some(ProtoMember(name)))
    ensures GetDraftVersion(JObject(fields["$schema" := v])) == Failure(TypeError)
    ensures GetDraftVersion(JNull) == Failure(TypeError)
  {
    PrototypeNamesShape(name);
    assert |Draft04Uri| >= 30 && |Draft07Uri| >= 30 && |Draft2019Uri| >= 30 && |Draft2020Uri| >= 30;
    assert LookupDraft(name) == Some(ProtoMember(name));
    OneHashStripped(name);
    assert StripTrailingHash(name + hash) == name by {
      if hash == "" {
        assert name + hash == name;
      }
    }
  }
}
