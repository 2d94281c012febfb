/** The record service (src/service/record.service.ts): a class whose only state is the
    key-value store. A record lives under `record:<id>` as JSON text with its metadata object
    beside it, its access key under `record:<id>:accesskey`, and the number of records under
    `records:count`. Each method is specified by a function of the store before the call; the
    lemmas below are about those functions. */
module Service {
  import opened Wrappers
  import opened Strings
  import opened Json
  import opened RecordSchema
  import opened Records
  import opened SchemaGate
  import KeyBuilder

  /** What the store keeps under one key: the text and, optionally, a metadata object */
  datatype Entry = Entry(text: string, metadata: Option<MetadataObject>)

  type Store = map<string, Entry>

  const RecordCountKey: string := "records:count"

  /** `Number.MAX_SAFE_INTEGER`, the largest count zod's `.int()` accepts */
  const MaxSafeInteger: nat := 9007199254740991

  /** `refKey(id)`: the id is inserted as it is, without any check */
  function RefKey(id: string): string {
    "record:" + id
  }

  /** `refAccessKey(id)`, likewise unchecked */
  function RefAccessKey(id: string): string {
    "record:" + id + ":accesskey"
  }

  /** `kv.get(key)`: the text under `key`, or null */
  function TextAt(kv: Store, key: string): Option<string> {
    if key in kv then Some(kv[key].text) else Option.None
  }

  /** `Number(s)` for the texts the model reads: the value of a decimal digit string, blanks
      around it ignored; `None` for any other text */
  function NumberOf(s: string): Option<nat> {
    var t := Trim(s);
    if t != "" && AllDigits(t) then Some(DigitsValue(t)) else Option.None
  }

  /** `countSchema.catch(0).parse(text ?? undefined)`: a missing counter is 0, text that `Number`
      reads as a positive safe integer is that integer, anything else is 0 */
  function CountOf(text: Option<string>): (n: nat)
    ensures n <= MaxSafeInteger
  {
    if text.None? then 0
    else
      var n := NumberOf(text.value);
      if n.Some? && 0 < n.value <= MaxSafeInteger then n.value else 0
  }

  /** `getCount()` on a store */
  function StoredCount(kv: Store): nat {
    CountOf(TextAt(kv, RecordCountKey))
  }

  /** `incTotalCount()` on a store: `String(count + 1)`, stored without metadata */
  function IncCount(kv: Store): Store {
    kv[RecordCountKey := Entry(ShowNat(StoredCount(kv) + 1), Option.None)]
  }

  /** `decrTotalCount()` on a store: `String(Math.max(count - 1, 0))` */
  function DecCount(kv: Store): Store {
    var count := StoredCount(kv);
    kv[RecordCountKey := Entry(ShowNat(if count >= 1 then count - 1 else 0), Option.None)]
  }

  /** The errors the service lets escape: the 400 of `validateOrThrow`, a schema gate that
      throws, a patch that fails, and stored text `JSON.parse` refuses */
  datatype ServiceError = InvalidData | SchemaUnavailable(cause: GateError) | PatchFailed | Unparsable

  /** `validateOrThrow(record)` on the record's data */
  function ValidationOutcome(schemas: SchemaEnv, data: JsonValue): Outcome<ServiceError> {
    match ValidateSchema(schemas, data)
    case Valid => Pass
    case Invalid => Fail(InvalidData)
    case Failed(e) => Fail(SchemaUnavailable(e))
  }

  /** What `kv.put(refKey, JSON.stringify(record.data), { metadata })` stores for a record */
  function StoredEntry(json: JsonCodec, view: RecordView): Entry {
    Entry(json.stringify(view.data), Some(view.meta.ToObject()))
  }

  /** The writes of a `create` that passed validation: the access key, the record, the count */
  function CreateWrites(kv: Store, json: JsonCodec, view: RecordView, accessKey: string): Store {
    var withKey := kv[RefAccessKey(view.id) := Entry(accessKey, Option.None)];
    IncCount(withKey[RefKey(view.id) := StoredEntry(json, view)])
  }

  /** `get(id)` on a store: the key is read as JSON with its metadata and handed to
      `fromKVResult` */
  function ReadRecord(kv: Store, json: JsonCodec, id: string): Result<Option<RecordView>, ServiceError> {
    if RefKey(id) !in kv then Success(Option.None)
    else
      var entry := kv[RefKey(id)];
      match json.parse(entry.text)
      case None => Failure(Unparsable)
      case Some(value) => Success(FromKv(id, Some(value), entry.metadata))
  }

  /** `getMetadata(id)` on a store: the metadata through `fromObject`, whatever the value is */
  function ReadMetadata(kv: Store, id: string): Option<MetadataValue> {
    if RefKey(id) in kv && kv[RefKey(id)].metadata.Some? then Some(Normalise(kv[RefKey(id)].metadata.value))
    else Option.None
  }

  /** The two transformers `_updateRecord` is given: `update` replaces the data, `patch`
      applies a JSON Patch */
  datatype Transformer = NewData(data: JsonValue) | PatchOps(ops: seq<PatchOp>, patcher: Patcher)

  /** A transformer applied to a loaded record; `None` when the patch fails */
  function Transform(view: RecordView, t: Transformer, now: string): Option<RecordView> {
    match t
    case NewData(data) => Some(WithData(view, data, now))
    case PatchOps(ops, patcher) =>
      var (updated, after) := PatchResult(view, ops, patcher, now);
      if updated.None? then Option.None else Some(after)
  }

  /** `_updateRecord(id, transformer)`: the record after the update, null when there is no
      record, or the error that escapes */
  function UpdateOutcome(kv: Store, json: JsonCodec, schemas: SchemaEnv, id: string, t: Transformer, now: string): Result<Option<RecordView>, ServiceError> {
    match ReadRecord(kv, json, id)
    case Failure(e) => Failure(e)
    case Success(None) => Success(Option.None)
    case Success(Some(view)) =>
      match Transform(view, t, now)
      case None => Failure(PatchFailed)
      case Some(updated) =>
        match ValidationOutcome(schemas, updated.data)
        case Fail(e) => Failure(e)
        case Pass => Success(Some(updated))
  }

  /** The store after `_updateRecord`: one write of `record:<id>`, and only on success */
  function UpdateWrites(kv: Store, json: JsonCodec, id: string, out: Result<Option<RecordView>, ServiceError>): Store {
    if out.Success? && out.value.Some? then kv[RefKey(id) := StoredEntry(json, out.value.value)] else kv
  }

  /** `!exists` in `delete`: the text is missing or empty */
  predicate Exists(kv: Store, key: string) {
    key in kv && kv[key].text != ""
  }

  /** The store after `delete(id)` */
  function DeleteWrites(kv: Store, id: string): Store {
    if !Exists(kv, RefKey(id)) then kv
    else DecCount(kv - {RefKey(id)} - {RefAccessKey(id)})
  }

  class RecordService {
    var kv: Store
    /** `JSON.stringify` and `JSON.parse` */
    const json: JsonCodec

    constructor (kv: Store, json: JsonCodec)
      ensures this.kv == kv && this.json == json
    {
      this.kv := kv;
      this.json := json;
    }

    /** `validateOrThrow(record)` */
    method ValidateOrThrow(record: Record, schemas: SchemaEnv) returns (o: Outcome<ServiceError>)
      ensures o == ValidationOutcome(schemas, record.data)
    {
      var verdict := ValidateSchema(schemas, record.data);
      if verdict.Valid? {
        o := Pass;
      } else if verdict.Invalid? {
        o := Fail(InvalidData);
      } else {
        o := Fail(SchemaUnavailable(verdict.error));
      }
    }

    /** `getCount()` */
    method GetCount() returns (count: nat)
      ensures count == StoredCount(kv)
    {
      count := CountOf(TextAt(kv, RecordCountKey));
    }

    /** `incTotalCount()` */
    method IncTotalCount()
      modifies this
      ensures kv == IncCount(old(kv))
    {
      var count := GetCount();
      kv := kv[RecordCountKey := Entry(ShowNat(count + 1), Option.None)];
    }

    /** `decrTotalCount()` */
    method DecrTotalCount()
      modifies this
      ensures kv == DecCount(old(kv))
    {
      var count := GetCount();
      var next := if count >= 1 then count - 1 else 0;
      kv := kv[RecordCountKey := Entry(ShowNat(next), Option.None)];
    }

    /** `getAccessKey(id)` */
    method GetAccessKey(id: string) returns (key: Option<string>)
      ensures key == TextAt(kv, RefAccessKey(id))
    {
      key := TextAt(kv, RefAccessKey(id));
    }

    /** `setAccessKey(id, accessKey)` */
    method SetAccessKey(id: string, accessKey: string) returns (key: string)
      modifies this
      ensures key == accessKey
      ensures kv == old(kv)[RefAccessKey(id) := Entry(accessKey, Option.None)]
    {
      kv := kv[RefAccessKey(id) := Entry(accessKey, Option.None)];
      key := accessKey;
    }

    /** `deleteAccessKey(id)` */
    method DeleteAccessKey(id: string)
      modifies this
      ensures kv == old(kv) - {RefAccessKey(id)}
    {
      kv := kv - {RefAccessKey(id)};
    }

    /** `get(id)`: a new record object, null, or the parse error */
    method Get(id: string) returns (r: Result<Record?, ServiceError>)
      ensures r.Failure? <==> ReadRecord(kv, json, id).Failure?
      ensures r.Failure? ==> r.error == ReadRecord(kv, json, id).error
      ensures r.Success? ==> (r.value == null <==> ReadRecord(kv, json, id).value.None?)
      ensures r.Success? && r.value != null ==>
        fresh(r.value) && fresh(r.value.metadata) && r.value.View() == ReadRecord(kv, json, id).value.value
    {
      if RefKey(id) !in kv {
        return Success(null);
      }
      var entry := kv[RefKey(id)];
      var value := json.parse(entry.text);
      if value.None? {
        return Failure(Unparsable);
      }
      var record := Record.FromKVResult(id, value, entry.metadata);
      return Success(record);
    }

    /** `getMetadata(id)` */
    method GetMetadata(id: string) returns (m: RecordMetadata?)
      ensures m == null <==> ReadMetadata(kv, id).None?
      ensures m != null ==> fresh(m) && m.Value() == ReadMetadata(kv, id).value
    {
      if RefKey(id) !in kv || kv[RefKey(id)].metadata.None? {
        return null;
      }
      m := RecordMetadata.FromObject(Plain(kv[RefKey(id)].metadata.value));
    }

    /** `create(record, accessKey)`: validation first, then the access key, the record and the
        count; a record that fails validation leaves the store as it was */
    method Create(record: Record, accessKey: string, schemas: SchemaEnv) returns (r: Result<Record, ServiceError>)
      modifies this
      ensures ValidationOutcome(schemas, record.data).Fail? ==>
        r == Failure(ValidationOutcome(schemas, record.data).error) && kv == old(kv)
      ensures ValidationOutcome(schemas, record.data).Pass? ==>
        r == Success(record) && kv == CreateWrites(old(kv), json, record.View(), accessKey)
    {
      var o := ValidateOrThrow(record, schemas);
      if o.Fail? {
        return Failure(o.error);
      }
      var _ := SetAccessKey(record.id, accessKey);
      kv := kv[RefKey(record.id) := Entry(json.stringify(record.data), Some(record.metadata.Value().ToObject()))];
      IncTotalCount();
      return Success(record);
    }

    /** `_updateRecord(id, transformer)`: load, transform in place, validate, write back */
    method UpdateRecord(id: string, t: Transformer, schemas: SchemaEnv, now: string) returns (r: Result<Record?, ServiceError>)
      modifies this
      ensures var out := UpdateOutcome(old(kv), json, schemas, id, t, now);
        && kv == UpdateWrites(old(kv), json, id, out)
        && (r.Failure? <==> out.Failure?)
        && (r.Failure? ==> r.error == out.error)
        && (r.Success? ==> (r.value == null <==> out.value.None?))
        && (r.Success? && r.value != null ==> fresh(r.value) && r.value.View() == out.value.value)
    {
      var loaded := Get(id);
      if loaded.Failure? {
        return Failure(loaded.error);
      }
      var record := loaded.value;
      if record == null {
        return Success(null);
      }
      match t {
        case NewData(data) =>
          record.SetData(data, now);
        case PatchOps(ops, patcher) =>
          var updated := record.ApplyPatch(ops, patcher, now);
          if updated.None? {
            return Failure(PatchFailed);
          }
      }
      var o := ValidateOrThrow(record, schemas);
      if o.Fail? {
        return Failure(o.error);
      }
      kv := kv[RefKey(id) := Entry(json.stringify(record.data), Some(record.metadata.Value().ToObject()))];
      return Success(record);
    }

    /** `update(id, data)` */
    method Update(id: string, data: JsonValue, schemas: SchemaEnv, now: string) returns (r: Result<Record?, ServiceError>)
      modifies this
      ensures var out := UpdateOutcome(old(kv), json, schemas, id, NewData(data), now);
        && kv == UpdateWrites(old(kv), json, id, out)
        && (r.Failure? <==> out.Failure?)
        && (r.Failure? ==> r.error == out.error)
        && (r.Success? ==> (r.value == null <==> out.value.None?))
        && (r.Success? && r.value != null ==> fresh(r.value) && r.value.View() == out.value.value)
    {
      r := UpdateRecord(id, NewData(data), schemas, now);
    }

    /** `patch(id, ops)` */
    method Patch(id: string, ops: seq<PatchOp>, patcher: Patcher, schemas: SchemaEnv, now: string) returns (r: Result<Record?, ServiceError>)
      modifies this
      ensures var out := UpdateOutcome(old(kv), json, schemas, id, PatchOps(ops, patcher), now);
        && kv == UpdateWrites(old(kv), json, id, out)
        && (r.Failure? <==> out.Failure?)
        && (r.Failure? ==> r.error == out.error)
        && (r.Success? ==> (r.value == null <==> out.value.None?))
        && (r.Success? && r.value != null ==> fresh(r.value) && r.value.View() == out.value.value)
    {
      r := UpdateRecord(id, PatchOps(ops, patcher), schemas, now);
    }

    /** `delete(id)`: always answers true */
    method Delete(id: string) returns (deleted: bool)
      modifies this
      ensures deleted
      ensures kv == DeleteWrites(old(kv), id)
    {
      var stored := TextAt(kv, RefKey(id));
      if stored.None? || stored.value == "" {
        return true;
      }
      kv := kv - {RefKey(id)};
      DeleteAccessKey(id);
      DecrTotalCount();
      return true;
    }
  }

  /** Ids are inserted unchecked, so an id ending in `:accesskey` names another record's
      access-key entry, and that is the only way a data key and an access-key key meet */
  lemma RefKeyAliasing(a: string, b: string)
    ensures RefKey(b + ":accesskey") == RefAccessKey(b)
    ensures RefKey(a) == RefAccessKey(b) <==> a == b + ":accesskey"
  {
    if RefKey(a) == RefAccessKey(b) {
      assert a == RefKey(a)[7..] == RefAccessKey(b)[7..] == b + ":accesskey";
    }
  }

  /** The service's keys have the shapes `KeyBuilder` builds, and on safe ids they are exactly
      what `KeyBuilder` returns */
  lemma RefKeysAgreeWithKeyBuilder(id: string)
    ensures RefKey(id) == KeyBuilder.DataKey(id) && RefAccessKey(id) == KeyBuilder.AccessKeyKey(id)
    ensures KeyBuilder.SafeId(id) ==>
      KeyBuilder.ForRecord(id) == Success(RefKey(id)) && KeyBuilder.ForAccessKey(id) == Success(RefAccessKey(id))
  {
    KeyBuilder.KeyShapes(id);
    KeyBuilder.BuildersSpec(id);
  }

  /** Whatever the id, the counter key is neither its data key nor its access-key key, and
      those two differ */
  lemma ServiceKeysApart(id: string)
    ensures RefKey(id) != RecordCountKey && RefAccessKey(id) != RecordCountKey
    ensures RefKey(id) != RefAccessKey(id)
  {
    assert RefKey(id)[6] == ':' && RefAccessKey(id)[6] == ':' && RecordCountKey[6] == 's';
    assert |RefKey(id)| != |RefAccessKey(id)|;
  }

  /** Reading back what the counter methods write: `String(n)` is read as the number `n` */
  lemma {:induction false} NumberOfShowNat(n: nat)
    ensures NumberOf(ShowNat(n)) == Some(n)
  {
    DigitsAreTrimmed(ShowNat(n));
    ShowNatRoundTrip(n);
  }

  /** So the counter reads back as `n` for a positive safe integer, and as 0 otherwise */
  lemma CountReadsBack(n: nat)
    ensures CountOf(Some(ShowNat(n))) == if 0 < n <= MaxSafeInteger then n else 0
  {
    NumberOfShowNat(n);
  }

  /** A missing counter, the counter `0`, and text that is not a digit string once trimmed
      (such as `-3` or the empty text) all count as 0 */
  lemma CountDefaults(s: string)
    ensures CountOf(Option.None) == 0
    ensures ShowNat(0) == "0" && CountOf(Some("0")) == 0
    ensures Trim(s) == "" || !AllDigits(Trim(s)) ==> CountOf(Some(s)) == 0
  {
    CountReadsBack(0);
  }

  /** The counter steps: one up, or down to no lower than 0; the increment past the largest safe
      integer is read back as 0 */
  lemma CounterSteps(kv: Store)
    ensures StoredCount(kv) < MaxSafeInteger ==> StoredCount(IncCount(kv)) == StoredCount(kv) + 1
    ensures StoredCount(kv) == MaxSafeInteger ==> StoredCount(IncCount(kv)) == 0
    ensures StoredCount(DecCount(kv)) == if StoredCount(kv) >= 1 then StoredCount(kv) - 1 else 0
  {
    var count := StoredCount(kv);
    var down := if count >= 1 then count - 1 else 0;
    assert TextAt(IncCount(kv), RecordCountKey) == Some(ShowNat(count + 1));
    assert TextAt(DecCount(kv), RecordCountKey) == Some(ShowNat(down));
    CountReadsBack(count + 1);
    CountReadsBack(down);
  }

  /** The counter steps write the counter key and nothing else */
  lemma CounterWritesOneKey(kv: Store)
    ensures RecordCountKey in IncCount(kv) && IncCount(kv) == kv[RecordCountKey := IncCount(kv)[RecordCountKey]]
    ensures RecordCountKey in DecCount(kv) && DecCount(kv) == kv[RecordCountKey := DecCount(kv)[RecordCountKey]]
  {
  }

  /** Writing three keys changes nothing outside them */
  lemma WritesFrame(kv: Store, k1: string, e1: Entry, k2: string, e2: Entry, k3: string, e3: Entry)
    ensures kv[k1 := e1][k2 := e2][k3 := e3] - {k1, k2, k3} == kv - {k1, k2, k3}
  {
  }

  /** Removing two keys and writing a third changes nothing outside them */
  lemma RemovalsFrame(kv: Store, k1: string, k2: string, k3: string, e3: Entry)
    ensures (kv - {k1} - {k2})[k3 := e3] - {k1, k2, k3} == kv - {k1, k2, k3}
  {
  }

  /** Writes to a record's two keys leave the count as it was */
  lemma RecordWritesKeepCount(kv: Store, id: string, e1: Entry, e2: Entry)
    ensures StoredCount(kv[RefAccessKey(id) := e1][RefKey(id) := e2]) == StoredCount(kv)
    ensures StoredCount(kv - {RefKey(id)} - {RefAccessKey(id)}) == StoredCount(kv)
  {
    ServiceKeysApart(id);
    assert TextAt(kv[RefAccessKey(id) := e1][RefKey(id) := e2], RecordCountKey) == TextAt(kv, RecordCountKey);
    assert TextAt(kv - {RefKey(id)} - {RefAccessKey(id)}, RecordCountKey) == TextAt(kv, RecordCountKey);
  }

  /** The count after a `create` */
  lemma CreateCount(kv: Store, json: JsonCodec, view: RecordView, accessKey: string)
    ensures StoredCount(CreateWrites(kv, json, view, accessKey)) ==
      (if StoredCount(kv) < MaxSafeInteger then StoredCount(kv) + 1 else 0)
  {
    var id := view.id;
    var written := kv[RefAccessKey(id) := Entry(accessKey, Option.None)][RefKey(id) := StoredEntry(json, view)];
    RecordWritesKeepCount(kv, id, Entry(accessKey, Option.None), StoredEntry(json, view));
    CounterSteps(written);
  }

  /** The keys a `create` writes, and the frame around them */
  lemma CreateKeys(kv: Store, json: JsonCodec, view: RecordView, accessKey: string)
    ensures var after := CreateWrites(kv, json, view, accessKey);
      && RefAccessKey(view.id) in after && after[RefAccessKey(view.id)] == Entry(accessKey, Option.None)
      && RefKey(view.id) in after && after[RefKey(view.id)] == StoredEntry(json, view)
      && after - {RefKey(view.id), RefAccessKey(view.id), RecordCountKey} == kv - {RefKey(view.id), RefAccessKey(view.id), RecordCountKey}
  {
    var id := view.id;
    ServiceKeysApart(id);
    var e1, e2 := Entry(accessKey, Option.None), StoredEntry(json, view);
    var written := kv[RefAccessKey(id) := e1][RefKey(id) := e2];
    CounterWritesOneKey(written);
    var e3 := IncCount(written)[RecordCountKey];
    WritesFrame(kv, RefAccessKey(id), e1, RefKey(id), e2, RecordCountKey, e3);
    assert {RefAccessKey(id), RefKey(id), RecordCountKey} == {RefKey(id), RefAccessKey(id), RecordCountKey};
  }

  /** A successful `create` writes exactly three keys: the access key, the record with its
      metadata, and the count one up */
  lemma CreateEffect(kv: Store, json: JsonCodec, view: RecordView, accessKey: string)
    ensures var after := CreateWrites(kv, json, view, accessKey);
      && RefAccessKey(view.id) in after && after[RefAccessKey(view.id)] == Entry(accessKey, Option.None)
      && RefKey(view.id) in after && after[RefKey(view.id)] == StoredEntry(json, view)
      && StoredCount(after) == (if StoredCount(kv) < MaxSafeInteger then StoredCount(kv) + 1 else 0)
      && after - {RefKey(view.id), RefAccessKey(view.id), RecordCountKey} == kv - {RefKey(view.id), RefAccessKey(view.id), RecordCountKey}
  {
    CreateKeys(kv, json, view, accessKey);
    CreateCount(kv, json, view, accessKey);
  }

  /** After `create`, `get` returns the record when its data is truthy and null when it is
      falsy (`0`, `false`, `""`, `null`), and `getMetadata` returns its metadata either way;
      all this for data that `JSON.parse` reads back from its `JSON.stringify` text */
  lemma CreateThenRead(kv: Store, json: JsonCodec, view: RecordView, accessKey: string)
    requires json.parse(json.stringify(view.data)) == Some(view.data)
    ensures ReadRecord(CreateWrites(kv, json, view, accessKey), json, view.id)
            == Success(if Truthy(view.data) then Some(view) else Option.None)
    ensures ReadMetadata(CreateWrites(kv, json, view, accessKey), view.id) == Some(view.meta)
  {
    CreateEffect(kv, json, view, accessKey);
    FromKvRoundTrip(view);
    NormaliseSpec(view.meta.ToObject(), view.meta);
  }

  /** `update` and `patch` of a record that is not there return null and write nothing */
  lemma UpdateAbsent(kv: Store, json: JsonCodec, schemas: SchemaEnv, id: string, t: Transformer, now: string)
    requires RefKey(id) !in kv
    ensures UpdateOutcome(kv, json, schemas, id, t, now) == Success(Option.None)
    ensures UpdateWrites(kv, json, id, UpdateOutcome(kv, json, schemas, id, t, now)) == kv
  {
  }

  /** A patch that fails, and a transformed record that fails validation, end in an error and
      leave the store as it was */
  lemma UpdateRejected(kv: Store, json: JsonCodec, schemas: SchemaEnv, id: string, t: Transformer, now: string, view: RecordView)
    requires ReadRecord(kv, json, id) == Success(Some(view))
    ensures t.PatchOps? && t.patcher(view.data, t.ops).None? ==>
      UpdateOutcome(kv, json, schemas, id, t, now) == Failure(PatchFailed)
    ensures Transform(view, t, now).Some? && ValidationOutcome(schemas, Transform(view, t, now).value.data).Fail? ==>
      UpdateOutcome(kv, json, schemas, id, t, now) == Failure(ValidationOutcome(schemas, Transform(view, t, now).value.data).error)
    ensures UpdateOutcome(kv, json, schemas, id, t, now).Failure? ==>
      UpdateWrites(kv, json, id, UpdateOutcome(kv, json, schemas, id, t, now)) == kv
  {
  }

  /** A successful `update` or `patch` keeps the id, `createdAt` and the mode, stamps
      `updatedAt` with now, holds the new or patched data, and rewrites `record:<id>` alone:
      the access key and the count stay */
  lemma UpdateEffect(kv: Store, json: JsonCodec, schemas: SchemaEnv, id: string, t: Transformer, now: string, view: RecordView, updated: RecordView)
    requires ReadRecord(kv, json, id) == Success(Some(view))
    requires UpdateOutcome(kv, json, schemas, id, t, now) == Success(Some(updated))
    ensures updated.id == view.id == id
    ensures updated.meta == MetadataValue(view.meta.createdAt, now, view.meta.mode)
    ensures t.NewData? ==> updated.data == t.data
    ensures t.PatchOps? ==> t.patcher(view.data, t.ops) == Some(updated.data)
    ensures var after := UpdateWrites(kv, json, id, Success(Some(updated)));
      && after - {RefKey(id)} == kv - {RefKey(id)}
      && after[RefKey(id)] == StoredEntry(json, updated)
      && TextAt(after, RefAccessKey(id)) == TextAt(kv, RefAccessKey(id))
      && StoredCount(after) == StoredCount(kv)
  {
    ServiceKeysApart(id);
    var after := kv[RefKey(id) := StoredEntry(json, updated)];
    assert TextAt(after, RecordCountKey) == TextAt(kv, RecordCountKey);
  }

  /** After a successful update to truthy data that `JSON.parse` reads back from its text,
      `get` returns the updated record */
  lemma UpdateThenRead(kv: Store, json: JsonCodec, schemas: SchemaEnv, id: string, t: Transformer, now: string, updated: RecordView)
    requires json.parse(json.stringify(updated.data)) == Some(updated.data)
    requires UpdateOutcome(kv, json, schemas, id, t, now) == Success(Some(updated))
    requires Truthy(updated.data)
    ensures ReadRecord(UpdateWrites(kv, json, id, Success(Some(updated))), json, id) == Success(Some(updated))
  {
    var view := ReadRecord(kv, json, id).value.value;
    UpdateEffect(kv, json, schemas, id, t, now, view, updated);
    FromKvRoundTrip(updated);
  }

  /** `delete` of a record that is not there changes nothing, so an orphaned access key stays */
  lemma DeleteAbsent(kv: Store, id: string)
    requires !Exists(kv, RefKey(id))
    ensures DeleteWrites(kv, id) == kv
    ensures TextAt(DeleteWrites(kv, id), RefAccessKey(id)) == TextAt(kv, RefAccessKey(id))
  {
  }

  /** The count after deleting a present record */
  lemma DeleteCount(kv: Store, id: string)
    requires Exists(kv, RefKey(id))
    ensures StoredCount(DeleteWrites(kv, id)) == if StoredCount(kv) >= 1 then StoredCount(kv) - 1 else 0
  {
    RecordWritesKeepCount(kv, id, Entry("", Option.None), Entry("", Option.None));
    CounterSteps(kv - {RefKey(id)} - {RefAccessKey(id)});
  }

  /** The keys deleting a present record removes, and the frame around them */
  lemma DeleteKeys(kv: Store, id: string)
    requires Exists(kv, RefKey(id))
    ensures var after := DeleteWrites(kv, id);
      && RefKey(id) !in after && RefAccessKey(id) !in after
      && after - {RefKey(id), RefAccessKey(id), RecordCountKey} == kv - {RefKey(id), RefAccessKey(id), RecordCountKey}
  {
    ServiceKeysApart(id);
    var removed := kv - {RefKey(id)} - {RefAccessKey(id)};
    CounterWritesOneKey(removed);
    var e3 := DecCount(removed)[RecordCountKey];
    RemovalsFrame(kv, RefKey(id), RefAccessKey(id), RecordCountKey, e3);
  }

  /** `delete` of a record that is there removes its data and its access key, takes the count
      one down (not below 0) and touches nothing else */
  lemma DeleteEffect(kv: Store, id: string)
    requires Exists(kv, RefKey(id))
    ensures var after := DeleteWrites(kv, id);
      && RefKey(id) !in after && RefAccessKey(id) !in after
      && StoredCount(after) == (if StoredCount(kv) >= 1 then StoredCount(kv) - 1 else 0)
      && after - {RefKey(id), RefAccessKey(id), RecordCountKey} == kv - {RefKey(id), RefAccessKey(id), RecordCountKey}
  {
    DeleteKeys(kv, id);
    DeleteCount(kv, id);
  }

  /** Deleting twice is deleting once */
  lemma DeleteIdempotent(kv: Store, id: string)
    ensures DeleteWrites(DeleteWrites(kv, id), id) == DeleteWrites(kv, id)
  {
    if Exists(kv, RefKey(id)) {
      DeleteEffect(kv, id);
    }
  }

  /** Deleting a record just created, whose JSON text is not empty (as `JSON.stringify` never
      gives), removes both of its keys and brings the count back */
  lemma CreateThenDelete(kv: Store, json: JsonCodec, view: RecordView, accessKey: string)
    requires json.stringify(view.data) != ""
    requires StoredCount(kv) < MaxSafeInteger
    ensures var after := DeleteWrites(CreateWrites(kv, json, view, accessKey), view.id);
      && RefKey(view.id) !in after && RefAccessKey(view.id) !in after
      && StoredCount(after) == StoredCount(kv)
      && after - {RefKey(view.id), RefAccessKey(view.id), RecordCountKey} == kv - {RefKey(view.id), RefAccessKey(view.id), RecordCountKey}
  {
    var created := CreateWrites(kv, json, view, accessKey);
    CreateEffect(kv, json, view, accessKey);
    DeleteEffect(created, view.id);
  }
}
