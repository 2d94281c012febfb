/** The storage key scheme of records (src/lib/key-builder.ts): `record:<id>`,
    `record:<id>:accesskey` and the singleton `records:count`, with the id check that keeps
    them apart and the parser that reads an id back out of a key. */
module KeyBuilder {
  import opened Wrappers
  import opened Strings

  const NamespaceSeparator: char := ':'
  const RecordPrefix: string := "record"
  const AccessKeySuffix: string := "accesskey"
  const CountKey: string := "records:count"

  /** `record:`, the prefix every record key starts with */
  const Prefix: string := RecordPrefix + [NamespaceSeparator]

  /** The data key shape `record:<id>` */
  function DataKey(id: string): string {
    Prefix + id
  }

  /** The access-key key shape `record:<id>:accesskey` */
  function AccessKeyKey(id: string): string {
    Prefix + id + [NamespaceSeparator] + AccessKeySuffix
  }

  /** The four errors `validateId` throws, in the order it checks for them */
  datatype IdError = Empty | ContainsSeparator | Untrimmed | ReservedWord(word: string)

  /** What makes an id safe, stated as plain conditions on its characters */
  ghost predicate SafeId(id: string) {
    && id != []
    && ':' !in id
    && !IsJsWhitespace(id[0]) && !IsJsWhitespace(id[|id| - 1])
    && id != "accesskey" && id != "count"
  }

  /** `validateId`: throws on the empty id, an id containing the separator, an id that `trim`
      changes, and the reserved words; passes every other id */
  function ValidateId(id: string): Outcome<IdError> {
    if id == "" then Fail(Empty)
    else if NamespaceSeparator in id then Fail(ContainsSeparator)
    else if Trim(id) != id then Fail(Untrimmed)
    else if id == AccessKeySuffix || id == "count" then Fail(ReservedWord(id))
    else Pass
  }

  /** `validateId` passes exactly the safe ids */
  lemma ValidateIdSpec(id: string)
    ensures ValidateId(id).Pass? <==> SafeId(id)
  {
    if ValidateId(id).Pass? {
      assert SafeId(id) by { TrimIsIdentity(id); }
    }
    if SafeId(id) {
      assert ValidateId(id).Pass? by { TrimIsIdentity(id); }
    }
  }

  /** `validateId` reports the first rule an id breaks: emptiness, then the separator, then
      surrounding whitespace, then the reserved words */
  lemma ValidateIdErrors(id: string)
    ensures id == "" ==> ValidateId(id) == Fail(Empty)
    ensures id != "" && ':' in id ==> ValidateId(id) == Fail(ContainsSeparator)
    ensures ValidateId(id) == Fail(Untrimmed) <==>
              (id != "" && ':' !in id && (IsJsWhitespace(id[0]) || IsJsWhitespace(id[|id| - 1])))
    ensures ValidateId(id).Fail? && ValidateId(id).error.ReservedWord? ==>
              ValidateId(id).error.word == id && id in {"accesskey", "count"}
  {
    if id != "" && ':' !in id {
      var edge := IsJsWhitespace(id[0]) || IsJsWhitespace(id[|id| - 1]);
      assert Trim(id) == id <==> !edge by { TrimIsIdentity(id); }
      if edge {
        assert ValidateId(id) == Fail(Untrimmed);
      } else {
        assert ValidateId(id) != Fail(Untrimmed);
      }
    }
  }

  /** `forRecord(id)`: `record:<id>`, or the `validateId` error */
  function ForRecord(id: string): Result<string, IdError> {
    match ValidateId(id)
    case Fail(e) => Failure(e)
    case Pass => Success(DataKey(id))
  }

  /** `forAccessKey(id)`: `record:<id>:accesskey`, or the `validateId` error */
  function ForAccessKey(id: string): Result<string, IdError> {
    match ValidateId(id)
    case Fail(e) => Failure(e)
    case Pass => Success(AccessKeyKey(id))
  }

  /** `forRecordCount()` */
  function ForRecordCount(): string {
    CountKey
  }

  /** `extractRecordId(key)`: the id of a data key `record:<id>` or of an access-key key
      `record:<id>:accesskey`; `None` for a key without the prefix, for a remainder with two or
      more separators, and for one separator not followed by `accesskey` */
  function ExtractRecordId(key: string): Option<string> {
    if !StartsWith(key, Prefix) then None
    else
      var parts := Split(key[|Prefix|..], NamespaceSeparator);
      if |parts| == 1 then Some(parts[0])
      else if |parts| == 2 && parts[1] == AccessKeySuffix then Some(parts[0])
      else None
  }

  /** `isRecordKey(key)`; like the source it calls `forRecord` on the extracted id, so a key whose
      id is not safe makes it fail instead of answering `false` */
  function IsRecordKey(key: string): Result<bool, IdError> {
    match ExtractRecordId(key)
    case None => Success(false)
    case Some(id) =>
      match ForRecord(id)
      case Failure(e) => Failure(e)
      case Success(k) => Success(key == k)
  }

  /** `isAccessKeyKey(key)`, failing in the same way */
  function IsAccessKeyKey(key: string): Result<bool, IdError> {
    match ExtractRecordId(key)
    case None => Success(false)
    case Some(id) =>
      match ForAccessKey(id)
      case Failure(e) => Failure(e)
      case Success(k) => Success(key == k)
  }

  /** The two key shapes, spelled out */
  lemma KeyShapes(id: string)
    ensures DataKey(id) == "record:" + id
    ensures AccessKeyKey(id) == "record:" + id + ":accesskey"
  {
  }

  /** Both builders succeed exactly on safe ids, with the two key shapes */
  lemma BuildersSpec(id: string)
    ensures ForRecord(id).Success? <==> SafeId(id)
    ensures ForAccessKey(id).Success? <==> SafeId(id)
    ensures SafeId(id) ==> ForRecord(id).value == DataKey(id)
    ensures SafeId(id) ==> ForAccessKey(id).value == AccessKeyKey(id)
    ensures !SafeId(id) ==> ForRecord(id) == ForAccessKey(id) == Failure(ValidateId(id).error)
  {
    ValidateIdSpec(id);
  }

  /** Data keys of different ids differ */
  lemma DataKeyInjective(a: string, b: string)
    ensures DataKey(a) == DataKey(b) ==> a == b
  {
    if DataKey(a) == DataKey(b) {
      assert a == DataKey(a)[7..] == DataKey(b)[7..] == b;
    }
  }

  /** Access-key keys of different ids differ */
  lemma AccessKeyKeyInjective(a: string, b: string)
    ensures AccessKeyKey(a) == AccessKeyKey(b) ==> a == b
  {
    if AccessKeyKey(a) == AccessKeyKey(b) {
      assert |a| == |b|;
      assert a == AccessKeyKey(a)[7..7 + |a|] == AccessKeyKey(b)[7..7 + |b|] == b;
    }
  }

  /** A data key whose id has no separator is no access-key key */
  lemma DataKeyIsNoAccessKeyKey(a: string, b: string)
    requires ':' !in a
    ensures DataKey(a) != AccessKeyKey(b)
  {
    if |a| == |b| + 10 {
      assert DataKey(a)[7 + |b|] == a[|b|] != ':';
      assert AccessKeyKey(b)[7 + |b|] == ':';
    }
  }

  /** Different safe ids give different data keys and different access-key keys, and no data key
      is an access-key key */
  lemma KeysAreCollisionFree(a: string, b: string)
    requires SafeId(a) && SafeId(b)
    ensures ForRecord(a) == ForRecord(b) ==> a == b
    ensures ForAccessKey(a) == ForAccessKey(b) ==> a == b
    ensures ForRecord(a).value != ForAccessKey(b).value
  {
    BuildersSpec(a);
    BuildersSpec(b);
    DataKeyInjective(a, b);
    AccessKeyKeyInjective(a, b);
    DataKeyIsNoAccessKeyKey(a, b);
  }

  /** The counter key `records:count` is neither a data key nor an access-key key */
  lemma CountKeyIsApart(id: string)
    ensures ForRecordCount() == "records:count"
    ensures ForRecord(id).Success? ==> ForRecord(id).value != ForRecordCount()
    ensures ForAccessKey(id).Success? ==> ForAccessKey(id).value != ForRecordCount()
  {
    BuildersSpec(id);
    assert DataKey(id)[6] == ':' != ForRecordCount()[6];
    assert AccessKeyKey(id)[6] == ':' != ForRecordCount()[6];
  }

  /** `extractRecordId` reads the id back out of a data key, for any separator-free id */
  lemma ExtractFromDataKey(id: string)
    requires ':' !in id
    ensures ExtractRecordId(DataKey(id)) == Some(id)
  {
    assert DataKey(id)[|Prefix|..] == id;
    SplitNoSeparator(id, ':');
  }

  /** `extractRecordId` reads the id back out of an access-key key, for any separator-free id */
  lemma ExtractFromAccessKeyKey(id: string)
    requires ':' !in id
    ensures ExtractRecordId(AccessKeyKey(id)) == Some(id)
  {
    var key := AccessKeyKey(id);
    assert StartsWith(key, Prefix);
    assert key[|Prefix|..] == id + [':'] + AccessKeySuffix;
    assert Split(key[|Prefix|..], ':') == [id, AccessKeySuffix] by {
      SplitAtFirst(id, ':', AccessKeySuffix);
      SplitNoSeparator(AccessKeySuffix, ':');
    }
  }

  /** Round trip: `extractRecordId` inverts both builders on every safe id */
  lemma ExtractRoundTrip(id: string)
    requires SafeId(id)
    ensures ExtractRecordId(ForRecord(id).value) == Some(id)
    ensures ExtractRecordId(ForAccessKey(id).value) == Some(id)
  {
    BuildersSpec(id);
    ExtractFromDataKey(id);
    ExtractFromAccessKeyKey(id);
  }

  /** Conversely, whatever `extractRecordId` returns is a separator-free id and the key is one
      of the two shapes built around it */
  lemma ExtractOnlyFromKeyShapes(key: string)
    requires ExtractRecordId(key).Some?
    ensures var id := ExtractRecordId(key).value;
      ':' !in id && (key == DataKey(id) || key == AccessKeyKey(id))
  {
    var rest := key[|Prefix|..];
    assert key == Prefix + rest;
    var id := Split(rest, ':')[0];
    RemainderShape(rest);
    if rest != id {
      assert key == Prefix + (id + [':'] + AccessKeySuffix) == AccessKeyKey(id);
    }
  }

  /** What is left after the prefix, when it splits into one part or into a part and
      `accesskey`: the first part, alone or followed by `:accesskey` */
  lemma RemainderShape(rest: string)
    requires var parts := Split(rest, ':');
      |parts| == 1 || (|parts| == 2 && parts[1] == AccessKeySuffix)
    ensures var id := Split(rest, ':')[0];
      ':' !in id && (rest == id || rest == id + [':'] + AccessKeySuffix)
  {
    var parts := Split(rest, ':');
    SplitJoin(rest, ':');
    assert ':' !in parts[0];
    if |parts| == 2 {
      assert Join(parts[1..], ':') == parts[1];
    }
  }

  /** Each predicate recognises its own key shape and rejects the other one */
  lemma KeyKindsRecognised(id: string)
    requires SafeId(id)
    ensures IsRecordKey(ForRecord(id).value) == Success(true)
    ensures IsAccessKeyKey(ForAccessKey(id).value) == Success(true)
    ensures IsRecordKey(ForAccessKey(id).value) == Success(false)
    ensures IsAccessKeyKey(ForRecord(id).value) == Success(false)
  {
    ExtractRoundTrip(id);
    KeysAreCollisionFree(id, id);
  }

  /** `isRecordKey` answers `true` exactly for `record:` followed by a safe id */
  lemma IsRecordKeySpec(key: string)
    ensures IsRecordKey(key) == Success(true) <==> StartsWith(key, Prefix) && SafeId(key[|Prefix|..])
  {
    if StartsWith(key, Prefix) && SafeId(key[|Prefix|..]) {
      var id := key[|Prefix|..];
      assert key == DataKey(id);
      ExtractRoundTrip(id);
      BuildersSpec(id);
    }
    if IsRecordKey(key) == Success(true) {
      var id := ExtractRecordId(key).value;
      BuildersSpec(id);
      assert key == DataKey(id);
      assert key[|Prefix|..] == id;
    }
  }

  /** Keys of the right shape around the empty id make both predicates fail rather than
      answer `false` */
  lemma EmptyIdKeysMakePredicatesFail()
    ensures IsRecordKey("record:") == Failure(Empty)
    ensures IsAccessKeyKey("record::accesskey") == Failure(Empty)
  {
    assert "record:" == DataKey("");
    assert "record::accesskey" == AccessKeyKey("");
    ExtractFromDataKey("");
    ExtractFromAccessKeyKey("");
  }

  /** A word of ASCII letters has no separator and nothing for `trim` to remove */
  lemma LettersAreTrimmed(s: string)
    requires s != [] && forall i :: 0 <= i < |s| ==> IsAsciiLetter(s[i])
    ensures ':' !in s && Trim(s) == s
  {
    assert !IsJsWhitespace(s[0]) && !IsJsWhitespace(s[|s| - 1]);
    TrimIsIdentity(s);
  }

  /** Both reserved words are made of letters */
  lemma ReservedWordsAreLetters()
    ensures forall i :: 0 <= i < |"count"| ==> IsAsciiLetter("count"[i])
    ensures forall i :: 0 <= i < |AccessKeySuffix| ==> IsAsciiLetter(AccessKeySuffix[i])
  {
  }

  /** The reserved words are rejected as reserved words, not by an earlier rule */
  lemma ReservedWordsRejected(w: string)
    requires w == AccessKeySuffix || w == "count"
    ensures ':' !in w && ValidateId(w) == Fail(ReservedWord(w))
  {
    ReservedWordsAreLetters();
    LettersAreTrimmed(w);
  }

  /** So do the keys around a reserved word: `isRecordKey("record:count")` throws */
  lemma ReservedIdKeysMakePredicatesFail(w: string)
    requires w == AccessKeySuffix || w == "count"
    ensures IsRecordKey(DataKey(w)) == Failure(ReservedWord(w))
    ensures IsAccessKeyKey(AccessKeyKey(w)) == Failure(ReservedWord(w))
  {
    ReservedWordsRejected(w);
    ExtractFromDataKey(w);
    ExtractFromAccessKeyKey(w);
  }

  /** The alphabet the record ids are drawn from (src/lib/nanoid.ts), without look-alike
      characters */
  const NoLookalikes: string := AlphabetDigits + AlphabetUpper + AlphabetLower

  const AlphabetDigits: string := "346789"
  const AlphabetUpper: string := "ABCDEFGHJKLMNPQRTUVWXY"
  const AlphabetLower: string := "abcdefghijkmnpqrtwxyz"

  /** The length of a record id */
  const NanoidLength: nat := 16

  /** Every character of the alphabet is a letter or a digit */
  lemma AlphabetIsAlphanumeric(c: char)
    requires c in NoLookalikes
    ensures IsAsciiAlphanumeric(c)
  {
    if c in AlphabetDigits {
      assert '3' <= c <= '9';
    } else if c in AlphabetUpper {
      assert 'A' <= c <= 'Y';
    } else {
      assert c in AlphabetLower;
      assert 'a' <= c <= 'z';
    }
  }

  /** Every id the generator can produce, 16 characters of the alphabet, passes `validateId`,
      so the keys of a freshly created record are always well formed */
  lemma GeneratedIdsAreSafe(id: string)
    requires |id| == NanoidLength
    requires forall i :: 0 <= i < |id| ==> id[i] in NoLookalikes
    ensures SafeId(id)
    ensures ValidateId(id) == Pass
  {
    forall i | 0 <= i < |id|
      ensures IsAsciiAlphanumeric(id[i])
    {
      AlphabetIsAlphanumeric(id[i]);
    }
    assert ':' !in id;
    assert !IsJsWhitespace(id[0]) && !IsJsWhitespace(id[|id| - 1]) by {
      assert IsAsciiAlphanumeric(id[0]) && IsAsciiAlphanumeric(id[|id| - 1]);
    }
    ValidateIdSpec(id);
  }
}
