/** The record entity and its metadata (src/models/record.ts): a `Record` whose `data` is
    replaced or patched in place, and a `RecordMetadata` whose `updatedAt` is refreshed in
    place. The clock is a parameter: `now` is the ISO-8601 string of the current time, and
    timestamps are opaque strings. */
module Records {
  import opened Wrappers
  import opened Strings
  import opened Json
  import opened RecordSchema

  /** The characters a URL scheme may continue with */
  predicate IsSchemeChar(c: char) {
    IsAsciiAlphanumeric(c) || c == '+' || c == '-' || c == '.'
  }

  /** A URL scheme: an ASCII letter followed by letters, digits, `+`, `-` and `.` */
  predicate IsScheme(s: string) {
    s != [] && IsAsciiLetter(s[0]) && forall i :: 1 <= i < |s| ==> IsSchemeChar(s[i])
  }

  /** zod's `.url()`: a scheme followed by `:` */
  predicate IsUrl(s: string) {
    var parts := Split(s, ':');
    |parts| >= 2 && IsScheme(parts[0])
  }

  /** The `schemaUrl` getter: `data.$schema` when `data` is an object whose `$schema` is a URL
      string (other keys pass through); `null` for anything else */
  function SchemaUrl(data: JsonValue): Option<string> {
    if data.JObject? && "$schema" in data.fields && data.fields["$schema"].JString?
       && IsUrl(data.fields["$schema"].str)
    then Some(data.fields["$schema"].str)
    else Option.None
  }

  /** The argument of `setUpdatedAt`: nothing, a `Date` (given by its ISO string) or a string */
  datatype DateArg = Absent | At(iso: string) | Text(s: string)

  /** Metadata after `fromObject`: the mode is always present */
  datatype MetadataValue = MetadataValue(createdAt: string, updatedAt: string, mode: PublicMode)
  {
    /** The object form the store keeps beside the record */
    function ToObject(): MetadataObject {
      MetadataObject(createdAt, updatedAt, Some(mode))
    }
  }

  /** `fromObject` on a plain object: the timestamps are copied, a missing mode becomes `None` */
  function Normalise(obj: MetadataObject): MetadataValue {
    MetadataValue(obj.createdAt, obj.updatedAt, obj.mode.GetOr(PublicMode.None))
  }

  /** The stamp `setUpdatedAt(date)` stores: `date || new Date()`, then the ISO string of a
      `Date` or the string itself */
  function Stamp(date: DateArg, now: string): string {
    match date
    case Absent => now
    case At(iso) => iso
    case Text(s) => if s == "" then now else s
  }

  /** `setUpdatedAt(date)` on metadata values */
  function Touch(meta: MetadataValue, date: DateArg, now: string): MetadataValue {
    meta.(updatedAt := Stamp(date, now))
  }

  /** What a record holds: its id, its data and its metadata */
  datatype RecordView = RecordView(id: string, data: JsonValue, meta: MetadataValue)

  /** `setData(data)` on record values */
  function WithData(view: RecordView, data: JsonValue, now: string): RecordView {
    view.(data := data, meta := Touch(view.meta, Absent, now))
  }

  /** `applyPatch(ops)` on record values: what the patch library returned, and the record after
      it; a patch that fails leaves the record as it was */
  function PatchResult(view: RecordView, ops: seq<PatchOp>, patcher: Patcher, now: string): (Option<JsonValue>, RecordView) {
    var updated := patcher(view.data, ops);
    if updated.None? then (Option.None, view) else (updated, WithData(view, updated.value, now))
  }

  /** `fromKVResult` on values: nothing when the stored value is absent or falsy or the metadata
      is absent */
  function FromKv(id: string, value: Option<JsonValue>, metadata: Option<MetadataObject>): Option<RecordView> {
    if value.None? || !Truthy(value.value) || metadata.None? then Option.None
    else Some(RecordView(id, value.value, Normalise(metadata.value)))
  }

  /** Either an existing `RecordMetadata` instance or a plain metadata object */
  datatype MetadataSource = Instance(meta: RecordMetadata) | Plain(obj: MetadataObject)

  class RecordMetadata {
    var createdAt: string
    var updatedAt: string
    var mode: PublicMode

    constructor (createdAt: string, updatedAt: string, mode: PublicMode)
      ensures Value() == MetadataValue(createdAt, updatedAt, mode)
    {
      this.createdAt := createdAt;
      this.updatedAt := updatedAt;
      this.mode := mode;
    }

    function Value(): MetadataValue
      reads this
    {
      MetadataValue(createdAt, updatedAt, mode)
    }

    /** `setUpdatedAt(date)`: only `updatedAt` changes */
    method SetUpdatedAt(date: DateArg, now: string)
      modifies this
      ensures Value() == Touch(old(Value()), date, now)
    {
      var d := if date.Absent? || date == Text("") then At(now) else date;
      updatedAt := if d.At? then d.iso else d.s;
    }

    /** `RecordMetadata.fromObject(source)`: the very same instance when given one, else a new
        instance holding the normalised object */
    static method FromObject(source: MetadataSource) returns (m: RecordMetadata)
      ensures source.Instance? ==> m == source.meta
      ensures source.Plain? ==> fresh(m) && m.Value() == Normalise(source.obj)
    {
      if source.Instance? {
        return source.meta;
      }
      m := new RecordMetadata(source.obj.createdAt, source.obj.updatedAt, source.obj.mode.GetOr(PublicMode.None));
    }

    /** `RecordMetadata.create(at, mode)`: both timestamps are the ISO string of `at` (now when
        absent), and the mode defaults to `None` */
    static method Create(at: Option<string>, mode: Option<PublicMode>, now: string) returns (m: RecordMetadata)
      ensures fresh(m)
      ensures m.Value() == MetadataValue(at.GetOr(now), at.GetOr(now), mode.GetOr(PublicMode.None))
    {
      var createdAt := at.GetOr(now);
      m := FromObject(Plain(MetadataObject(createdAt, createdAt, Some(mode.GetOr(PublicMode.None)))));
    }
  }

  class Record {
    var id: string
    var data: JsonValue
    var metadata: RecordMetadata

    /** `new Record(id, data, metadata)`: the metadata goes through `fromObject`, so an instance
        is shared, not copied */
    constructor (id: string, data: JsonValue, source: MetadataSource)
      ensures this.id == id && this.data == data
      ensures source.Instance? ==> metadata == source.meta
      ensures source.Plain? ==> fresh(metadata) && metadata.Value() == Normalise(source.obj)
    {
      this.id := id;
      this.data := data;
      var m := RecordMetadata.FromObject(source);
      metadata := m;
    }

    function View(): RecordView
      reads this, metadata
    {
      RecordView(id, data, metadata.Value())
    }

    /** `setData(data)`: replaces the data and refreshes `updatedAt` of the same metadata object */
    method SetData(data: JsonValue, now: string)
      modifies this, metadata
      ensures metadata == old(metadata)
      ensures View() == WithData(old(View()), data, now)
    {
      this.data := data;
      metadata.SetUpdatedAt(Absent, now);
    }

    /** `applyPatch(ops)`: patches a copy of the data first and only then calls `setData`, so a
        patch that fails changes nothing */
    method ApplyPatch(ops: seq<PatchOp>, patcher: Patcher, now: string) returns (updated: Option<JsonValue>)
      modifies this, metadata
      ensures metadata == old(metadata)
      ensures (updated, View()) == PatchResult(old(View()), ops, patcher, now)
    {
      updated := patcher(data, ops);
      if updated.Some? {
        SetData(updated.value, now);
      }
    }

    /** `Record.fromData(data, mode)`, with the generated id and the clock as parameters */
    static method FromData(data: JsonValue, mode: PublicMode, id: string, now: string) returns (r: Record)
      ensures fresh(r) && fresh(r.metadata)
      ensures r.View() == RecordView(id, data, MetadataValue(now, now, mode))
    {
      var m := RecordMetadata.Create(Some(now), Some(mode), now);
      r := new Record(id, data, Instance(m));
    }

    /** `Record.fromKVResult(id, result)`: `null` when the stored value is missing or falsy or
        there is no metadata */
    static method FromKVResult(id: string, value: Option<JsonValue>, metadata: Option<MetadataObject>) returns (r: Record?)
      ensures r == null <==> FromKv(id, value, metadata).None?
      ensures r != null ==> fresh(r) && fresh(r.metadata) && r.View() == FromKv(id, value, metadata).value
    {
      if value.None? || !Truthy(value.value) || metadata.None? {
        return null;
      }
      r := new Record(id, value.value, Plain(metadata.value));
    }
  }

  /** `schemaUrl` is the `$schema` string exactly when it is a URL and `data` is an object */
  lemma SchemaUrlSpec(data: JsonValue, url: string)
    ensures SchemaUrl(data) == Some(url) <==>
      data.JObject? && "$schema" in data.fields && data.fields["$schema"] == JString(url) && IsUrl(url)
  {
  }

  /** Keys other than `$schema` pass through: they never change `schemaUrl` */
  lemma SchemaUrlIgnoresOtherKeys(fields: map<string, JsonValue>, key: string, value: JsonValue)
    requires key != "$schema"
    ensures SchemaUrl(JObject(fields[key := value])) == SchemaUrl(JObject(fields))
  {
    assert key != "$schema";
  }

  /** A scheme followed by `:` and anything at all is a URL */
  lemma SchemeThenColonIsUrl(scheme: string, rest: string)
    requires IsScheme(scheme)
    ensures IsUrl(scheme + [':'] + rest)
  {
    forall i | 0 <= i < |scheme|
      ensures scheme[i] != ':'
    {
    }
    SplitAtFirst(scheme, ':', rest);
  }

  /** An `https://` or `http://` address with a host is a URL; a string with no scheme, such
      as a bare path, is not, and neither is anything that is not an object */
  lemma SchemaUrlExamples(host: string, data: JsonValue)
    requires host != "" && !data.JObject?
    ensures IsUrl("https://" + host) && IsUrl("http://" + host)
    ensures !IsUrl("/schemas/a.json")
    ensures SchemaUrl(data) == Option.None
  {
    SchemeThenColonIsUrl("https", "//" + host);
    assert "https://" + host == "https" + [':'] + ("//" + host);
    SchemeThenColonIsUrl("http", "//" + host);
    assert "http://" + host == "http" + [':'] + ("//" + host);
    SplitNoSeparator("/schemas/a.json", ':');
  }

  /** `setUpdatedAt` stores a non-empty string verbatim and a `Date` as its ISO string; nothing,
      or the empty string, stamps the current time; `createdAt` and `mode` never change */
  lemma TouchSpec(meta: MetadataValue, date: DateArg, now: string)
    ensures Touch(meta, date, now).createdAt == meta.createdAt
    ensures Touch(meta, date, now).mode == meta.mode
    ensures date.Text? && date.s != "" ==> Touch(meta, date, now).updatedAt == date.s
    ensures date.At? ==> Touch(meta, date, now).updatedAt == date.iso
    ensures date.Absent? || date == Text("") ==> Touch(meta, date, now).updatedAt == now
  {
  }

  /** `setData` replaces the data, stamps `updatedAt` with now and keeps the id, `createdAt`
      and the mode */
  lemma WithDataSpec(view: RecordView, data: JsonValue, now: string)
    ensures WithData(view, data, now).data == data
    ensures WithData(view, data, now).id == view.id
    ensures WithData(view, data, now).meta == MetadataValue(view.meta.createdAt, now, view.meta.mode)
  {
  }

  /** `applyPatch`: a failed patch leaves the record untouched; a successful one returns the
      patched value and is exactly `setData` of it */
  lemma PatchResultSpec(view: RecordView, ops: seq<PatchOp>, patcher: Patcher, now: string)
    ensures patcher(view.data, ops).None? ==> PatchResult(view, ops, patcher, now) == (Option.None, view)
    ensures patcher(view.data, ops).Some? ==>
      var d := patcher(view.data, ops).value;
      PatchResult(view, ops, patcher, now) == (Some(d), WithData(view, d, now))
  {
  }

  /** `fromObject` copies the timestamps and defaults a missing mode to `None`; it inverts the
      object form the store keeps */
  lemma NormaliseSpec(obj: MetadataObject, meta: MetadataValue)
    ensures Normalise(obj).createdAt == obj.createdAt && Normalise(obj).updatedAt == obj.updatedAt
    ensures obj.mode.None? ==> Normalise(obj).mode == PublicMode.None
    ensures obj.mode.Some? ==> Normalise(obj).mode == obj.mode.value
    ensures Normalise(meta.ToObject()) == meta
  {
  }

  /** `fromKVResult` gives nothing exactly when the value is missing or falsy (`0`, `false`,
      `""`, `null`) or the metadata is missing; otherwise it keeps the id and the value */
  lemma FromKvSpec(id: string, value: Option<JsonValue>, metadata: Option<MetadataObject>)
    ensures FromKv(id, value, metadata).None? <==> value.None? || !Truthy(value.value) || metadata.None?
    ensures FromKv(id, value, metadata).Some? ==>
      FromKv(id, value, metadata).value == RecordView(id, value.value, Normalise(metadata.value))
  {
  }

  /** A record with truthy data comes back from what the store keeps for it; one with falsy
      data does not come back at all */
  lemma FromKvRoundTrip(view: RecordView)
    ensures Truthy(view.data) ==> FromKv(view.id, Some(view.data), Some(view.meta.ToObject())) == Some(view)
    ensures !Truthy(view.data) ==> FromKv(view.id, Some(view.data), Some(view.meta.ToObject())) == Option.None
  {
    NormaliseSpec(view.meta.ToObject(), view.meta);
  }
}
