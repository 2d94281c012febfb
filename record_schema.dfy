/** The visibility enum and the metadata and record shapes (src/schemas/record.ts). */
module RecordSchema {
  import opened Wrappers
  import opened Json

  /** `PublicMode`: `None = 0` (private), `Read = 1` (publicly readable) */
  datatype PublicMode = None | Read

  function ModeCode(m: PublicMode): int {
    match m
    case None => 0
    case Read => 1
  }

  /** `z.nativeEnum(PublicMode)` on a number: only the two member values are accepted */
  function ModeOfCode(n: real): Option<PublicMode> {
    if n == 0.0 then Some(PublicMode.None)
    else if n == 1.0 then Some(Read)
    else Option.None
  }

  /** The enum has exactly two members, and their codes identify them */
  lemma ModeCodes(m: PublicMode, n: real)
    ensures ModeOfCode(ModeCode(m) as real) == Some(m)
    ensures ModeOfCode(n).Some? <==> n == 0.0 || n == 1.0
    ensures ModeOfCode(n).Some? ==> ModeCode(ModeOfCode(n).value) as real == n
  {
  }

  /** Record metadata as an object: the two timestamps (ISO-8601 strings, taken as opaque) and
      the mode, which metadata written before `mode` existed does not have */
  datatype MetadataObject = MetadataObject(createdAt: string, updatedAt: string, mode: Option<PublicMode>)

  /** `RecordMetaDataSchema.safeParse(v)`: `createdAt` and `updatedAt` must be strings and
      `mode` one of the enum's values */
  function ParseMetadata(v: JsonValue): Option<MetadataObject> {
    if !v.JObject? then Option.None
    else
      var f := v.fields;
      match (StringField(f, "createdAt"), StringField(f, "updatedAt"))
      case (Some(c), Some(u)) =>
        if "mode" in f && f["mode"].JNumber? && ModeOfCode(f["mode"].num).Some?
        then Some(MetadataObject(c, u, ModeOfCode(f["mode"].num)))
        else Option.None
      case _ => Option.None
  }

  /** The object form of metadata that has a mode */
  function MetadataJson(createdAt: string, updatedAt: string, mode: PublicMode): JsonValue {
    JObject(map["createdAt" := JString(createdAt), "updatedAt" := JString(updatedAt),
                "mode" := JNumber(ModeCode(mode) as real)])
  }

  /** Metadata parses back from its object form; and what parses always has all three fields,
      so metadata without a mode is refused by the schema */
  lemma MetadataRoundTrip(createdAt: string, updatedAt: string, mode: PublicMode, v: JsonValue)
    ensures ParseMetadata(MetadataJson(createdAt, updatedAt, mode)) == Some(MetadataObject(createdAt, updatedAt, Some(mode)))
    ensures ParseMetadata(v).Some? ==> ParseMetadata(v).value.mode.Some?
  {
    ModeCodes(mode, 0.0);
  }

  /** `RecordSchema.safeParse(v)`: an `id` string and a `data` JSON value */
  function ParseRecordShape(v: JsonValue): Option<(string, JsonValue)> {
    if v.JObject? && StringField(v.fields, "id").Some? && "data" in v.fields
    then Some((v.fields["id"].str, v.fields["data"]))
    else Option.None
  }

  /** A record shape parses back from its object form */
  lemma RecordShapeRoundTrip(id: string, data: JsonValue)
    ensures ParseRecordShape(JObject(map["id" := JString(id), "data" := data])) == Some((id, data))
  {
  }
}
