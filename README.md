# jsonflare record store, modelled in Dafny

jsonflare keeps JSON records in a key-value store. Each record has an id, a JSON payload and a
metadata object holding `createdAt`, `updatedAt` and a public mode. Each record is guarded by
an access key. This project models the core of that store and proves properties of the model:

- `key_builder.dfy` (module `KeyBuilder`) models the key scheme: `record:<id>`,
  `record:<id>:accesskey` and `records:count`. It covers the id check, which rejects ids that
  could make two kinds of key meet, and the parser that reads an id back out of a key. The
  ids that the service generates with nanoid are shown to pass the check.
- `records.dfy` (module `Records`) models the current record entity. `Record` and
  `RecordMetadata` are classes whose `data` and `updatedAt` are changed in place. Each method
  is specified by a function on record values (`RecordView`, `MetadataValue`).
- `legacy_records.dfy` (module `LegacyRecords`) models the earlier entity, which has no mode.
  It also shows that records written by this variant read back as private records.
- `record_service.dfy` (module `Service`) models the record service. Its only state is the
  store, a `map` from key to entry (text plus optional metadata). Each method's new store is
  given by a function of the old one. The lemmas state which keys each operation changes:
  create, get, getMetadata, update, patch, delete and the record counter.
- `json_schema.dfy` (module `SchemaGate`) models the schema gate that runs before every write.
  It has two short-cuts to "valid" and a draft lookup with a `2020-12` default. The fetch and
  the validator are parameters.
- `access_key.dfy` (module `AccessKeyCheck`) models the access-key middleware. It is an
  ordered decision ending in 401, 400, 404, 401 or letting the request through.
- `json.dfy`, `record_schema.dfy`, `strings.dfy` and `wrappers.dfy` hold the supporting
  definitions:
  - the JSON value and the six JSON Patch operation shapes (section 4 of RFC 6902);
  - `PublicMode` and the metadata shape;
  - the JavaScript string built-ins the code relies on: `split`, `trim`, `startsWith` and
    `String(n)`;
  - `Option`, `Result` and `Outcome`.

Some behaviours of the code matter for what the model can promise:

- The schema gate restricts nothing about the URL it fetches
  (src/lib/json-schema.ts:13-21). There is no protocol check, no list of allowed hosts, no
  timeout and no cache. Any URL not under `https://json-schema.org/draft` is fetched, including
  `http:` URLs such as the draft-7 meta-schema's (`SchemaGate.HttpUrlsAreFetched`).
- The service builds its keys inline and does not call the id check of `KeyBuilder`
  (src/service/record.service.ts:64-72). An id ending in `:accesskey` therefore names another
  record's access-key entry (`Service.RefKeyAliasing`,
  `AccessKeyCheck.AliasedIdTakesOverAccessKey`).
- `create` returns the record only, not its access key (src/service/record.service.ts:108-119).
- `validateOrThrow` throws a 400 for data the validator rejects
  (src/service/record.service.ts:20-29). An error from the schema fetch escapes as it is. The
  model keeps the two apart as `InvalidData` and `SchemaUnavailable`.
- The draft table is a plain object (src/lib/json-schema.ts:40-48). A `$schema` that names an
  `Object.prototype` member, such as `constructor`, therefore yields that inherited member
  instead of `null` (`SchemaGate.PrototypeNamesLeak`).

## Model

| member | source | states |
|---|---|---|
| KeyBuilder.ValidateIdSpec | src/lib/key-builder.ts:16-33 | `validateId` passes exactly the ids that are non-empty, contain no `:`, have no whitespace at either end and are neither `accesskey` nor `count` |
| KeyBuilder.ValidateIdErrors | src/lib/key-builder.ts:16-33 | the error reported is the first rule broken, in the source's order: empty, then separator, then surrounding whitespace, then a reserved word, which is named in the error |
| KeyBuilder.KeyShapes | src/lib/key-builder.ts:7-10 | the data key is `record:` + id and the access-key key is `record:` + id + `:accesskey` |
| KeyBuilder.BuildersSpec | src/lib/key-builder.ts:38-49 | `forRecord` and `forAccessKey` succeed exactly on safe ids and then give the two key shapes; on any other id both fail with `validateId`'s error |
| KeyBuilder.KeysAreCollisionFree | src/lib/key-builder.ts:38-49 | on safe ids `forRecord` is injective, `forAccessKey` is injective, and no data key equals any access-key key |
| KeyBuilder.CountKeyIsApart | src/lib/key-builder.ts:54-56 | the count key is `records:count` and differs from every key either builder returns |
| KeyBuilder.ExtractFromDataKey | src/lib/key-builder.ts:62-80 | for any id without `:` (even an unsafe one), `extractRecordId("record:" + id)` gives back the id |
| KeyBuilder.ExtractFromAccessKeyKey | src/lib/key-builder.ts:62-80 | for any id without `:`, `extractRecordId("record:" + id + ":accesskey")` gives back the id |
| KeyBuilder.ExtractRoundTrip | src/lib/key-builder.ts:62-80 | `extractRecordId` inverts both builders on every safe id |
| KeyBuilder.ExtractOnlyFromKeyShapes | src/lib/key-builder.ts:65-79 | whenever `extractRecordId` finds an id, the key is exactly one of the two shapes around that id, and the id holds no `:`; every other key gives null |
| KeyBuilder.KeyKindsRecognised | src/lib/key-builder.ts:85-96 | a data key is a record key and not an access-key key, and an access-key key is the reverse |
| KeyBuilder.IsRecordKeySpec | src/lib/key-builder.ts:85-88 | `isRecordKey` answers true exactly for `record:` followed by a safe id |
| KeyBuilder.EmptyIdKeysMakePredicatesFail | src/lib/key-builder.ts:85-96 | on `record:` and `record::accesskey` the predicates throw the empty-id error instead of answering false |
| KeyBuilder.ReservedIdKeysMakePredicatesFail | src/lib/key-builder.ts:85-96 | on the two key shapes around `count` or `accesskey` (such as `record:count`) the predicates throw the reserved-word error instead of answering false |
| KeyBuilder.AlphabetIsAlphanumeric | src/lib/nanoid.ts:3 | every character of the no-lookalikes alphabet is an ASCII letter or digit |
| KeyBuilder.GeneratedIdsAreSafe | src/lib/nanoid.ts:3-5 | every 16-character id over that alphabet passes `validateId` |
| Strings.SplitJoin | src/lib/key-builder.ts:70 | `split` produces separator-free parts that join back to the original string |
| Strings.SplitAtFirst | src/lib/key-builder.ts:70 | splitting `a + sep + b` with no separator in `a` gives `a` followed by the parts of `b` |
| Strings.TrimIsIdentity | src/lib/key-builder.ts:25 | `trim` leaves a string unchanged exactly when it has no whitespace at either end |
| Strings.ShowNatRoundTrip | src/service/record.service.ts:39 | the decimal text `String(n)` writes for a count reads back as `n` |
| Json.PatchOpRoundTrip | src/schemas/json.ts:22-52 | every patch operation, written as a JSON object, parses back to itself |
| Json.ParsedPatchOpShape | src/schemas/json.ts:22-52 | a parsed operation has its `op` name and `path`; `add`, `replace` and `test` carry the object's `value`, and `copy` and `move` its `from` |
| Json.UnknownOpRefused | src/schemas/json.ts:22-52 | an object whose `op` is none of the six names is not a patch operation |
| RecordSchema.ModeCodes | src/schemas/record.ts:4-8 | `PublicMode` is exactly the codes 0 (`None`) and 1 (`Read`); code and mode convert both ways |
| RecordSchema.MetadataRoundTrip | src/schemas/record.ts:10-14 | the metadata object the store keeps parses back to the same timestamps and mode, and anything that parses has a mode |
| RecordSchema.RecordShapeRoundTrip | src/schemas/record.ts:16-19 | `{id, data}` parses back to the same id and JSON data |
| Records.SchemaUrlSpec | src/models/record.ts:24-31 | `schemaUrl` is a string exactly when the data is an object whose `$schema` is that string and a URL |
| Records.SchemaUrlIgnoresOtherKeys | src/models/record.ts:8-12 | with `.passthrough()`, keys other than `$schema` never change `schemaUrl` |
| Records.SchemeThenColonIsUrl | src/models/record.ts:8-12 | any scheme followed by `:` is accepted as a URL |
| Records.SchemaUrlExamples | src/models/record.ts:8-12 | `https://` and `http://` addresses with a host are URLs, a bare path is not, and data that is not an object has no schema URL |
| Records.RecordMetadata.constructor | src/models/record.ts:60-64 | the new metadata holds the given timestamps and mode |
| Records.RecordMetadata.SetUpdatedAt | src/models/record.ts:66-69 | only `updatedAt` changes, to the stamp of the argument |
| Records.TouchSpec | src/models/record.ts:66-69 | a non-empty string is stored verbatim and a date as its ISO string; no argument, or an empty string, stamps now; `createdAt` and the mode never change |
| Records.RecordMetadata.FromObject | src/models/record.ts:71-82 | an instance comes back as the very same object; a plain object gives a fresh instance holding its normalised form |
| Records.NormaliseSpec | src/models/record.ts:71-82 | the timestamps are copied, a missing mode becomes `None`, and normalising inverts the object form the store keeps |
| Records.RecordMetadata.Create | src/models/record.ts:84-91 | both timestamps are the given date (now when absent) and the mode defaults to `None` |
| Records.Record.constructor | src/models/record.ts:16-22 | the record holds the id and data; metadata goes through `fromObject`, so an instance is shared and not copied |
| Records.Record.SetData | src/models/record.ts:33-36 | the record becomes `WithData` of its old value, and the metadata object is the same one, updated in place |
| Records.WithDataSpec | src/models/record.ts:33-36 | `setData` replaces the data, stamps `updatedAt` with now and keeps the id, `createdAt` and the mode |
| Records.Record.ApplyPatch | src/models/record.ts:38-42 | the returned value and the new record are the ones `PatchResult` gives for the old record |
| Records.PatchResultSpec | src/models/record.ts:38-42 | a failed patch returns nothing and leaves the record untouched; a successful one returns the patched value and is exactly `setData` of it |
| Records.Record.FromData | src/models/record.ts:44-47 | a fresh record with the generated id, the data, `createdAt == updatedAt == now` and the given mode |
| Records.Record.FromKVResult | src/models/record.ts:49-56 | null exactly when `FromKv` gives nothing, else a fresh record holding what `FromKv` gives |
| Records.FromKvSpec | src/models/record.ts:49-56 | nothing exactly when the value is missing or falsy (`0`, `false`, `""`, `null`) or the metadata is missing; otherwise the id, value and normalised metadata unchanged |
| Records.FromKvRoundTrip | src/models/record.ts:49-56 | a record with truthy data is recovered from what the store keeps for it, and one with falsy data is not recovered |
| LegacyRecords.RecordMetadata.constructor | src/model/record.ts:49 | the new metadata holds the two given timestamps |
| LegacyRecords.RecordMetadata.FromObject | src/model/record.ts:51-58 | an instance comes back as the same object; a plain object gives a fresh instance with both timestamps copied |
| LegacyRecords.RecordMetadata.SetUpdatedAt | src/model/record.ts:60-63 | only `updatedAt` changes: a non-empty string verbatim, a date as its ISO string, otherwise now |
| LegacyRecords.Record.constructor | src/model/record.ts:19-26 | the record holds the id and data, and its metadata is normalised through `fromObject` |
| LegacyRecords.Record.SetData | src/model/record.ts:28-31 | the record becomes `WithData` of its old value through the same metadata object |
| LegacyRecords.WithDataSpec | src/model/record.ts:28-31 | `setData` replaces the data and refreshes only `updatedAt`; the id and `createdAt` stay |
| LegacyRecords.Record.FromData | src/model/record.ts:33-36 | a fresh record with the generated id and `createdAt == updatedAt == now` |
| LegacyRecords.Record.FromKVResult | src/model/record.ts:38-45 | null exactly when the legacy `FromKv` gives nothing, else a fresh record holding what it gives |
| LegacyRecords.FromKvSpec | src/model/record.ts:38-45 | nothing exactly when the value is missing or falsy or the metadata is missing; otherwise the given id, value and timestamps |
| LegacyRecords.LegacyRecordsReadAsPrivate | src/models/record.ts:71-82 | a record stored by the earlier variant, whose metadata has no mode, is read by the current one with every field kept and mode `None` |
| SchemaGate.NoSchemaUrlIsValid | src/lib/json-schema.ts:13-15 | data without a schema URL is valid, whatever the fetch and the validator would do |
| SchemaGate.MetaSchemaUrlIsValid | src/lib/json-schema.ts:16-19 | a schema URL starting with `https://json-schema.org/draft` is valid without a fetch |
| SchemaGate.OtherUrlsAreFetched | src/lib/json-schema.ts:21-27 | any other URL is fetched; a failing fetch escapes, a fetched schema whose `$schema` makes the draft lookup throw lets that error escape, and otherwise the validator's answer under the declared draft (or `2020-12`) is the verdict |
| SchemaGate.HttpUrlsAreFetched | src/lib/json-schema.ts:16-21 | an `http://` URL with a host, such as the draft-7 meta-schema's, is not short-circuited but fetched |
| SchemaGate.DefaultsToDraft2020 | src/lib/json-schema.ts:23-25 | when the schema declares no known draft, the validator is run with draft `2020-12` |
| SchemaGate.OneHashStripped | src/lib/json-schema.ts:37 | exactly one trailing `#` is removed before the lookup |
| SchemaGate.LookupDraftTable | src/lib/json-schema.ts:40-48 | the table maps exactly four URIs to drafts `4`, `7`, `2019-09` and `2020-12`; other names map to null unless a plain object inherits them |
| SchemaGate.DeclaredDraftIsRead | src/lib/json-schema.ts:30-48 | a schema declaring any of the four draft URIs, with or without a trailing `#`, yields that URI's draft |
| SchemaGate.PrototypeNamesLeak | src/lib/json-schema.ts:33-48 | a `$schema` naming any inherited member, with or without a trailing `#`, yields that member; any truthy non-string `$schema`, and a `null` schema, throw |
| Service.CountOf | src/service/record.service.ts:9 | the count read from the store is always a non-negative safe integer |
| Service.RecordService.constructor | src/service/record.service.ts:14 | the service holds the given store |
| Service.RecordService.ValidateOrThrow | src/service/record.service.ts:20-29 | passes on valid data; invalid data gives the 400 error, and a gate that throws passes its error on |
| Service.RecordService.GetCount | src/service/record.service.ts:31-34 | the stored count as `CountOf` reads it |
| Service.CountReadsBack | src/service/record.service.ts:31-39 | the text `String(n)` written for the count reads back as `n` when `n` is a positive safe integer, and as 0 otherwise |
| Service.CountDefaults | src/service/record.service.ts:9 | a missing counter, the counter `0` and text that is not a trimmed digit string all read as 0 |
| Service.RecordService.IncTotalCount | src/service/record.service.ts:36-48 | the store becomes `IncCount` of the old store: only the counter is rewritten |
| Service.RecordService.DecrTotalCount | src/service/record.service.ts:50-62 | the store becomes `DecCount` of the old store: only the counter is rewritten |
| Service.CounterSteps | src/service/record.service.ts:36-62 | the counter goes one up, or one down but not below 0; one step past the largest safe integer reads back as 0 |
| Service.RefKeyAliasing | src/service/record.service.ts:64-72 | a data key equals an access-key key exactly when the first id is the second id followed by `:accesskey` |
| Service.RefKeysAgreeWithKeyBuilder | src/service/record.service.ts:64-72 | the service's keys have the key builder's shapes, and on safe ids they are exactly what the builders return |
| Service.ServiceKeysApart | src/service/record.service.ts:64-72 | for every id, its data key, its access-key key and the counter key are three different keys |
| Service.RecordService.GetAccessKey | src/service/record.service.ts:74-76 | the text stored under the id's access-key key, or nothing |
| Service.RecordService.SetAccessKey | src/service/record.service.ts:78-84 | writes the key under the id's access-key key alone and returns it |
| Service.RecordService.DeleteAccessKey | src/service/record.service.ts:86-88 | removes the id's access-key key alone |
| Service.RecordService.Get | src/service/record.service.ts:90-96 | a fresh record, null or the parse error, as `ReadRecord` gives on the store |
| Service.RecordService.GetMetadata | src/service/record.service.ts:98-106 | null exactly when the entry or its metadata is missing; otherwise fresh metadata normalised from what is stored |
| Service.RecordService.Create | src/service/record.service.ts:108-119 | data that fails validation gives the error and leaves the store unchanged; otherwise the record comes back and the store gets `CreateWrites` |
| Service.CreateEffect | src/service/record.service.ts:108-119 | a create writes exactly three keys: the access key, the record with its metadata, and the counter one up |
| Service.CreateThenRead | src/service/record.service.ts:90-119 | for data that `JSON.parse` reads back from its `JSON.stringify` text: after create, `get` returns the record when its data is truthy and null when it is falsy; `getMetadata` returns its metadata either way |
| Service.RecordService.UpdateRecord | src/service/record.service.ts:121-138 | result and new store are the ones `UpdateOutcome` and `UpdateWrites` give for the old store |
| Service.UpdateAbsent | src/service/record.service.ts:125-128 | updating a record that is not there returns null and writes nothing |
| Service.UpdateRejected | src/service/record.service.ts:130-133 | a failed patch, and a transformed record that fails validation, end in an error with the store unchanged |
| Service.UpdateEffect | src/service/record.service.ts:121-138 | a successful update keeps the id, `createdAt` and mode, stamps `updatedAt`, holds the new or patched data, and rewrites `record:<id>` alone |
| Service.UpdateThenRead | src/service/record.service.ts:134-137 | after a successful update to truthy data that `JSON.parse` reads back from its text, `get` returns the updated record |
| Service.RecordService.Update | src/service/record.service.ts:140-147 | result and new store are those of `_updateRecord` with the transformer that replaces the data: the same error, null exactly when there is no record, and otherwise the updated record |
| Service.RecordService.Patch | src/service/record.service.ts:149-156 | result and new store are those of `_updateRecord` with the transformer that applies the patch: the same error, null exactly when there is no record, and otherwise the patched record |
| Service.RecordService.Delete | src/service/record.service.ts:158-171 | always answers true and leaves the store as `DeleteWrites` gives |
| Service.DeleteAbsent | src/service/record.service.ts:161-163 | deleting a record that is not there (missing or empty text) changes nothing, and an orphaned access key stays |
| Service.DeleteEffect | src/service/record.service.ts:165-168 | deleting a present record removes its data and access-key keys and takes the counter one down, not below 0; nothing else changes |
| Service.DeleteIdempotent | src/service/record.service.ts:158-171 | deleting twice has the effect of deleting once |
| Service.CreateThenDelete | src/service/record.service.ts:108-171 | deleting a record just created, whose JSON text is not empty, removes both of its keys, brings the counter back and leaves every other key as it was |
| AccessKeyCheck.ValidateAccessKey | src/routes/middlewares/validate-access-key.ts:5-28 | the decision is `CheckAccessKey` on the service's store, and the store is only read |
| AccessKeyCheck.PresentedKeySpec | src/routes/middlewares/validate-access-key.ts:6-7 | a non-empty `X-Access-Key` wins; otherwise the key is the word after the first space of `Authorization`, and there is none without a space |
| AccessKeyCheck.MissingKeyFirst | src/routes/middlewares/validate-access-key.ts:8-10 | without a presented key the answer is 401, whatever the id and the store |
| AccessKeyCheck.MissingIdSecond | src/routes/middlewares/validate-access-key.ts:14-17 | with a key but no id the answer is 400, whatever the store |
| AccessKeyCheck.ProceedIff | src/routes/middlewares/validate-access-key.ts:19-27 | the request goes through exactly when a non-empty key is presented, an id is given and the stored access key equals the presented key |
| AccessKeyCheck.CreatedKeyOpens | src/routes/middlewares/validate-access-key.ts:23-27 | after create, the record's access key opens it and any other key gets 401 |
| AccessKeyCheck.StoredKeyDecides | src/routes/middlewares/validate-access-key.ts:19-25 | with a key and an id, on any store: 404 exactly when no access key, or an empty one, is stored, and 401 exactly when a non-empty stored key differs from the presented one |
| AccessKeyCheck.DeletedRecordIsNotFound | src/routes/middlewares/validate-access-key.ts:19-22 | after deleting a present record, every presented key gets 404 |
| AccessKeyCheck.AliasedIdTakesOverAccessKey | src/service/record.service.ts:64-72 | creating a record with id `<b>:accesskey`, for a non-empty `b` and data whose JSON text is not empty, replaces record `b`'s access key with that text, and that text then opens `b` |

## Left out

- The HTTP layer is left out: the routes, the OpenAPI wiring, response helpers, error
  mapping and service injection. These only translate between requests and the service. The
  routes also call service methods that the service does not define.
- The public-read bypass for `mode = Read` is left out. None of the modelled code implements
  it; the mode is only stored and read back.
- JSON Patch evaluation is done by a library (RFC 6902, with paths written as in RFC 6901). It is the
  parameter `Patcher`, which either fails or returns a new value. A library exception is
  modelled as `None`.
- The schema fetch and the JSON Schema validator are foreign code. They are the parameters
  `SchemaEnv.fetch` and `SchemaEnv.check`. Only the validator's `valid` flag is kept: the
  error list it returns, carried as the cause of the 400, is not modelled.
- Randomness and the clock are parameters:
  - nanoid ids and access keys are taken as inputs;
  - `now` is the ISO string of the current time, and timestamps are opaque strings;
  - an invalid date, whose `toISOString` throws, is not modelled.
- Concurrency and store failures are left out. Store operations are total and sequential, so
  the errors `incTotalCount` and `decrTotalCount` swallow never arise. A read-then-write race
  on the counter is not modelled.
- `JSON.stringify` and `JSON.parse` are the pair `JsonCodec`, with no law assumed of them.
  The lemmas that read back what was written take, as a hypothesis, exactly the fact they
  need about the one value written: that `JSON.parse` gives it back from its text, or that the
  text is not empty. JSON numbers are reals, so floating-point rounding, `-0` and non-finite
  values are not modelled.
- The `string | Record` overloads of `refKey`, `refAccessKey`, `getAccessKey`, `update`,
  `patch` and `delete` take the id only, which is all they use of a record.
- `validate` (src/service/record.service.ts:16-18) only forwards to `validateSchema`. It is
  folded into `ValidateOrThrow`.
- The stored metadata is the plain object form. The `setUpdatedAt` arrow function that the
  instance carries is dropped when the store serialises it, and is not part of the model.
- The legacy `RecordSchema` and metadata zod shapes (src/model/record.ts:6-14) are the
  current shapes without the mode. They appear only as `LegacyRecords.StampsObject`.
- The duplicate JSON value definition in src/model/json.ts is not a separate definition.
- Service.CountOf: `Number` is modelled only for decimal digit strings, possibly surrounded
  by whitespace. Other texts that JavaScript reads as numbers (hexadecimal, exponents,
  fractions such as `5.0`, a leading `+`) count as 0 here. The service itself only ever
  writes digit strings.
- Records.IsUrl: only the scheme and the colon are checked. The WHATWG URL parser behind
  zod's `.url()` also strips surrounding blanks and requires a host for special schemes such
  as `http`.
- RecordSchema.ParseMetadata: the ISO-8601 datetime format of `createdAt` and `updatedAt`
  (`z.string().datetime()`) is not checked.
