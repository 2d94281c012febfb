/** The earlier record entity (src/model/record.ts): the same `Record` and `RecordMetadata`
    without a mode. The clock is a parameter, as in the current variant. */
module LegacyRecords {
  import opened Wrappers
  import opened Json
  import RecordSchema
  import Current = Records

  /** Metadata of this variant: the two timestamps */
  datatype StampsObject = StampsObject(createdAt: string, updatedAt: string)

  /** What a record of this variant holds */
  datatype LegacyView = LegacyView(id: string, data: JsonValue, stamps: StampsObject)

  /** `setData(data)` on record values: new data, `updatedAt` stamped with now */
  function WithData(view: LegacyView, data: JsonValue, now: string): LegacyView {
    view.(data := data, stamps := view.stamps.(updatedAt := Current.Stamp(Current.Absent, now)))
  }

  /** `fromKVResult` on values */
  function FromKv(id: string, value: Option<JsonValue>, stamps: Option<StampsObject>): Option<LegacyView> {
    if value.None? || !Truthy(value.value) || stamps.None? then Option.None
    else Some(LegacyView(id, value.value, stamps.value))
  }

  /** Either an existing `RecordMetadata` instance or a plain object */
  datatype MetadataSource = Instance(meta: RecordMetadata) | Plain(obj: StampsObject)

  class RecordMetadata {
    var createdAt: string
    var updatedAt: string

    constructor (createdAt: string, updatedAt: string)
      ensures Value() == StampsObject(createdAt, updatedAt)
    {
      this.createdAt := createdAt;
      this.updatedAt := updatedAt;
    }

    function Value(): StampsObject
      reads this
    {
      StampsObject(createdAt, updatedAt)
    }

    /** `fromObject(source)`: the same instance, or a new one copying both timestamps */
    static method FromObject(source: MetadataSource) returns (m: RecordMetadata)
      ensures source.Instance? ==> m == source.meta
      ensures source.Plain? ==> fresh(m) && m.Value() == source.obj
    {
      if source.Instance? {
        return source.meta;
      }
      m := new RecordMetadata(source.obj.createdAt, source.obj.updatedAt);
    }

    /** `setUpdatedAt(date)`: only `updatedAt` changes */
    method SetUpdatedAt(date: Current.DateArg, now: string)
      modifies this
      ensures Value() == old(Value()).(updatedAt := Current.Stamp(date, now))
    {
      var d := if date.Absent? || date == Current.Text("") then Current.At(now) else date;
      updatedAt := if d.At? then d.iso else d.s;
    }
  }

  class Record {
    var id: string
    var data: JsonValue
    var metadata: RecordMetadata

    /** `new Record(id, data, metadata)`, normalising the metadata through `fromObject` */
    constructor (id: string, data: JsonValue, source: MetadataSource)
      ensures this.id == id && this.data == data
      ensures source.Instance? ==> metadata == source.meta
      ensures source.Plain? ==> fresh(metadata) && metadata.Value() == source.obj
    {
      this.id := id;
      this.data := data;
      var m := RecordMetadata.FromObject(source);
      metadata := m;
    }

    function View(): LegacyView
      reads this, metadata
    {
      LegacyView(id, data, metadata.Value())
    }

    /** `setData(data)` */
    method SetData(data: JsonValue, now: string)
      modifies this, metadata
      ensures metadata == old(metadata)
      ensures View() == WithData(old(View()), data, now)
    {
      this.data := data;
      metadata.SetUpdatedAt(Current.Absent, now);
    }

    /** `Record.fromData(data)`, with the generated id and the clock as parameters */
    static method FromData(data: JsonValue, id: string, now: string) returns (r: Record)
      ensures fresh(r) && fresh(r.metadata)
      ensures r.View() == LegacyView(id, data, StampsObject(now, now))
    {
      var m := new RecordMetadata(now, now);
      r := new Record(id, data, Instance(m));
    }

    /** `Record.fromKVResult(id, result)` */
    static method FromKVResult(id: string, value: Option<JsonValue>, stamps: Option<StampsObject>) returns (r: Record?)
      ensures r == null <==> FromKv(id, value, stamps).None?
      ensures r != null ==> fresh(r) && fresh(r.metadata) && r.View() == FromKv(id, value, stamps).value
    {
      if value.None? || !Truthy(value.value) || stamps.None? {
        return null;
      }
      r := new Record(id, value.value, Plain(stamps.value));
    }
  }

  /** `setData` replaces the data and refreshes only `updatedAt`: the id and `createdAt` stay */
  lemma WithDataSpec(view: LegacyView, data: JsonValue, now: string)
    ensures WithData(view, data, now) == LegacyView(view.id, data, StampsObject(view.stamps.createdAt, now))
  {
  }

  /** `fromKVResult` gives nothing exactly when the value is missing or falsy or the metadata is
      missing, and otherwise keeps what it was given */
  lemma FromKvSpec(id: string, value: Option<JsonValue>, stamps: Option<StampsObject>)
    ensures FromKv(id, value, stamps).None? <==> value.None? || !Truthy(value.value) || stamps.None?
    ensures FromKv(id, value, stamps).Some? ==> FromKv(id, value, stamps).value == LegacyView(id, value.value, stamps.value)
  {
  }

  /** A record written by this variant, whose metadata has no mode, is read by the current
      variant with every field kept and the mode `None`: it is private */
  lemma LegacyRecordsReadAsPrivate(view: LegacyView)
    requires Truthy(view.data)
    ensures Current.FromKv(view.id, Some(view.data),
              Some(RecordSchema.MetadataObject(view.stamps.createdAt, view.stamps.updatedAt, Option.None)))
            == Some(Current.RecordView(view.id, view.data,
                 Current.MetadataValue(view.stamps.createdAt, view.stamps.updatedAt, RecordSchema.PublicMode.None)))
  {
  }
}
