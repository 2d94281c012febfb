/** The access-key check in front of the record routes
    (src/routes/middlewares/validate-access-key.ts): an ordered sequence of guards over the two
    headers, the route's id and the stored access key, ending in 401, 400, 404, 401 or letting
    the request through. Headers are given as options: `None` for a header that is not sent. */
module AccessKeyCheck {
  import opened Wrappers
  import opened Strings
  import opened Json
  import opened Records
  import opened Service

  /** Why a request is turned away */
  datatype Rejection = MissingKey | MissingId | RecordNotFound | WrongKey

  /** The HTTP status of each rejection */
  function Status(r: Rejection): int {
    match r
    case MissingKey => 401
    case MissingId => 400
    case RecordNotFound => 404
    case WrongKey => 401
  }

  datatype Decision = Proceed | Reject(reason: Rejection)

  /** `header('X-Access-Key') || header('Authorization')?.split(' ')[1]` */
  function PresentedKey(xAccessKey: Option<string>, authorization: Option<string>): Option<string> {
    if xAccessKey.Some? && xAccessKey.value != "" then xAccessKey
    else if authorization.None? then Option.None
    else
      var parts := Split(authorization.value, ' ');
      if |parts| >= 2 then Some(parts[1]) else Option.None
  }

  /** The guards in order: a key must be presented, an id given, a non-empty key stored for that
      id, and the two keys equal */
  function CheckAccessKey(kv: Store, xAccessKey: Option<string>, authorization: Option<string>, id: Option<string>): Decision {
    var presented := PresentedKey(xAccessKey, authorization);
    if presented.None? || presented.value == "" then Reject(MissingKey)
    else if id.None? || id.value == "" then Reject(MissingId)
    else
      var expected := TextAt(kv, RefAccessKey(id.value));
      if expected.None? || expected.value == "" then Reject(RecordNotFound)
      else if expected.value != presented.value then Reject(WrongKey)
      else Proceed
  }

  /** `validateAccessKey`: reads the stored key through the service and changes nothing */
  method ValidateAccessKey(service: RecordService, xAccessKey: Option<string>, authorization: Option<string>, id: Option<string>)
    returns (d: Decision)
    ensures d == CheckAccessKey(service.kv, xAccessKey, authorization, id)
  {
    var presented := PresentedKey(xAccessKey, authorization);
    if presented.None? || presented.value == "" {
      return Reject(MissingKey);
    }
    if id.None? || id.value == "" {
      return Reject(MissingId);
    }
    var expected := service.GetAccessKey(id.value);
    if expected.None? || expected.value == "" {
      return Reject(RecordNotFound);
    }
    if expected.value != presented.value {
      return Reject(WrongKey);
    }
    return Proceed;
  }

  /** A non-empty `X-Access-Key` wins; otherwise the key is the word after the first space of
      `Authorization`, as in `Bearer <key>`; an `Authorization` without a space gives no key */
  lemma PresentedKeySpec(xAccessKey: Option<string>, scheme: string, key: string, word: string)
    requires ' ' !in scheme && ' ' !in key && ' ' !in word
    ensures xAccessKey.Some? && xAccessKey.value != "" ==>
      PresentedKey(xAccessKey, Some(scheme + " " + key)) == xAccessKey
    ensures xAccessKey.None? || xAccessKey == Some("") ==>
      PresentedKey(xAccessKey, Some(scheme + " " + key)) == Some(key)
    ensures xAccessKey.None? || xAccessKey == Some("") ==>
      PresentedKey(xAccessKey, Some(word)) == Option.None
  {
    assert scheme + " " + key == scheme + [' '] + key;
    SplitAtFirst(scheme, ' ', key);
    SplitNoSeparator(key, ' ');
    SplitNoSeparator(word, ' ');
  }

  /** Without a presented key the answer is 401 whatever the id and whatever is stored: neither
      is consulted */
  lemma MissingKeyFirst(kv: Store, other: Store, xAccessKey: Option<string>, authorization: Option<string>, id: Option<string>, otherId: Option<string>)
    requires PresentedKey(xAccessKey, authorization).None? || PresentedKey(xAccessKey, authorization) == Some("")
    ensures CheckAccessKey(kv, xAccessKey, authorization, id) == Reject(MissingKey)
    ensures CheckAccessKey(kv, xAccessKey, authorization, id) == CheckAccessKey(other, xAccessKey, authorization, otherId)
    ensures Status(CheckAccessKey(kv, xAccessKey, authorization, id).reason) == 401
  {
  }

  /** With a key but without an id the answer is 400, whatever is stored */
  lemma MissingIdSecond(kv: Store, xAccessKey: Option<string>, authorization: Option<string>, id: Option<string>)
    requires PresentedKey(xAccessKey, authorization).Some? && PresentedKey(xAccessKey, authorization).value != ""
    requires id.None? || id == Some("")
    ensures CheckAccessKey(kv, xAccessKey, authorization, id) == Reject(MissingId)
  {
  }

  /** The request goes through exactly when a non-empty key is presented, an id is given, and
      the text stored under the id's access-key key is that key */
  lemma ProceedIff(kv: Store, xAccessKey: Option<string>, authorization: Option<string>, id: Option<string>)
    ensures CheckAccessKey(kv, xAccessKey, authorization, id) == Proceed <==>
      && PresentedKey(xAccessKey, authorization).Some? && PresentedKey(xAccessKey, authorization).value != ""
      && id.Some? && id.value != ""
      && TextAt(kv, RefAccessKey(id.value)) == PresentedKey(xAccessKey, authorization)
  {
  }

  /** With a key and an id, whatever the store holds: no stored access key, or an empty one,
      is 404, and a stored key other than the presented one is 401 */
  lemma StoredKeyDecides(kv: Store, xAccessKey: Option<string>, authorization: Option<string>, id: Option<string>)
    requires PresentedKey(xAccessKey, authorization).Some? && PresentedKey(xAccessKey, authorization).value != ""
    requires id.Some? && id.value != ""
    ensures var expected := TextAt(kv, RefAccessKey(id.value));
      CheckAccessKey(kv, xAccessKey, authorization, id) == Reject(RecordNotFound) <==>
        expected.None? || expected.value == ""
    ensures var expected := TextAt(kv, RefAccessKey(id.value));
      CheckAccessKey(kv, xAccessKey, authorization, id) == Reject(WrongKey) <==>
        expected.Some? && expected.value != "" && expected.value != PresentedKey(xAccessKey, authorization).value
    ensures Status(RecordNotFound) == 404 && Status(WrongKey) == 401
  {
  }

  /** After `create(record, accessKey)`, presenting that key opens the record and presenting any
      other key is refused with 401 */
  lemma CreatedKeyOpens(kv: Store, json: JsonCodec, view: RecordView, accessKey: string, other: string)
    requires accessKey != "" && other != "" && other != accessKey && view.id != ""
    ensures CheckAccessKey(CreateWrites(kv, json, view, accessKey), Some(accessKey), Option.None, Some(view.id)) == Proceed
    ensures CheckAccessKey(CreateWrites(kv, json, view, accessKey), Some(other), Option.None, Some(view.id)) == Reject(WrongKey)
  {
    CreateEffect(kv, json, view, accessKey);
  }

  /** After `delete(id)` of a record that was there, every key is refused with 404 */
  lemma DeletedRecordIsNotFound(kv: Store, id: string, xAccessKey: Option<string>, authorization: Option<string>)
    requires Exists(kv, RefKey(id)) && id != ""
    requires PresentedKey(xAccessKey, authorization).Some? && PresentedKey(xAccessKey, authorization).value != ""
    ensures CheckAccessKey(DeleteWrites(kv, id), xAccessKey, authorization, Some(id)) == Reject(RecordNotFound)
  {
    DeleteEffect(kv, id);
  }

  /** Because the service inserts ids unchecked, creating a record with the id `<b>:accesskey`
      replaces the access key of record `b` with the JSON text of the new record's data, and that
      text then opens record `b` */
  lemma AliasedIdTakesOverAccessKey(kv: Store, json: JsonCodec, b: string, data: JsonValue, meta: MetadataValue, accessKey: string)
    requires json.stringify(data) != "" && b != ""
    ensures var after := CreateWrites(kv, json, RecordView(b + ":accesskey", data, meta), accessKey);
      && TextAt(after, RefAccessKey(b)) == Some(json.stringify(data))
      && CheckAccessKey(after, Some(json.stringify(data)), Option.None, Some(b)) == Proceed
  {
    var view := RecordView(b + ":accesskey", data, meta);
    CreateEffect(kv, json, view, accessKey);
    RefKeyAliasing(view.id, b);
  }
}
