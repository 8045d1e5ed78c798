/**
 * The values the access layer passes to the store: bson ObjectIds (12 bytes,
 * written as 24 hex digits), UUIDs, the Python values that can stand in a
 * query, and the JSON-like documents that filters and pipeline stages are.
 */
module Bson {
  import opened Results

  type Byte = b: int | 0 <= b < 256

  predicate IsHexDigit(c: char) {
    '0' <= c <= '9' || 'a' <= c <= 'f' || 'A' <= c <= 'F'
  }

  predicate AllHex(s: string) {
    forall i :: 0 <= i < |s| ==> IsHexDigit(s[i])
  }

  function HexValue(c: char): (v: nat)
    requires IsHexDigit(c)
    ensures v < 16
  {
    if '0' <= c <= '9' then c as int - '0' as int
    else if 'a' <= c <= 'f' then c as int - 'a' as int + 10
    else c as int - 'A' as int + 10
  }

  /** The lower-case digit for a nibble, as `str(ObjectId)` and `str(UUID)` print it. */
  function HexChar(v: nat): (c: char)
    requires v < 16
    ensures IsHexDigit(c) && HexValue(c) == v
  {
    if v < 10 then ('0' as int + v) as char else ('a' as int + v - 10) as char
  }

  /** A hex string with every digit in lower case. */
  function CanonicalHex(s: string): (r: string)
    requires AllHex(s)
    ensures |r| == |s|
  {
    seq(|s|, i requires 0 <= i < |s| => HexChar(HexValue(s[i])))
  }

  function EncodeHex(bs: seq<Byte>): (s: string)
    ensures |s| == 2 * |bs| && AllHex(s)
  {
    if bs == [] then ""
    else [HexChar(bs[0] / 16), HexChar(bs[0] % 16)] + EncodeHex(bs[1..])
  }

  /** A byte is its high nibble times sixteen plus its low nibble. */
  lemma ByteNibbles(hi: nat, lo: nat)
    requires hi < 16 && lo < 16
    ensures (hi * 16 + lo) / 16 == hi && (hi * 16 + lo) % 16 == lo
  {
  }

  function DecodeHex(s: string): (bs: seq<Byte>)
    requires |s| % 2 == 0 && AllHex(s)
    ensures |bs| == |s| / 2
  {
    if s == [] then []
    else [HexValue(s[0]) * 16 + HexValue(s[1])] + DecodeHex(s[2..])
  }

  /** Decoding undoes encoding: no byte is lost in the hex text. */
  lemma {:induction false} DecodeEncode(bs: seq<Byte>)
    ensures DecodeHex(EncodeHex(bs)) == bs
  {
    if bs != [] {
      var s := EncodeHex(bs);
      assert s[2..] == EncodeHex(bs[1..]);
      assert HexValue(s[0]) * 16 + HexValue(s[1]) == bs[0];
      DecodeEncode(bs[1..]);
    }
  }

  /** Encoding the decoded bytes gives the text back, in lower case. */
  lemma {:induction false} EncodeDecode(s: string)
    requires |s| % 2 == 0 && AllHex(s)
    ensures EncodeHex(DecodeHex(s)) == CanonicalHex(s)
  {
    if s != [] {
      EncodeDecode(s[2..]);
      var b := HexValue(s[0]) * 16 + HexValue(s[1]);
      ByteNibbles(HexValue(s[0]), HexValue(s[1]));
      assert DecodeHex(s) == [b] + DecodeHex(s[2..]);
      assert CanonicalHex(s) == [HexChar(b / 16), HexChar(b % 16)] + CanonicalHex(s[2..]);
    }
  }

  type ObjectIdBytes = bs: seq<Byte> | |bs| == 12 witness [0, 0, 0, 0, 0, 0, 0, 0, 0, 0, 0, 0]

  /** bson's ObjectId: twelve bytes, compared by value. */
  datatype ObjectId = ObjectId(bytes: ObjectIdBytes)

  /** `str(oid)`: 24 lower-case hex digits. */
  function ObjectIdText(o: ObjectId): (s: string)
    ensures |s| == 24 && AllHex(s)
  {
    EncodeHex(o.bytes)
  }

  /**
   * `ObjectId(s)` for a string `s`: accepted exactly when `s` is 24 hex
   * digits (either case); `None` is bson's InvalidId.
   */
  function ParseObjectId(s: string): (r: Option<ObjectId>)
    ensures r.Some? <==> |s| == 24 && AllHex(s)
    ensures r.Some? ==> ObjectIdText(r.value) == CanonicalHex(s)
  {
    if |s| == 24 && AllHex(s) then
      EncodeDecode(s);
      Some(ObjectId(DecodeHex(s)))
    else None
  }

  /** The text of an ObjectId parses back to the same ObjectId. */
  lemma ParseObjectIdText(o: ObjectId)
    ensures ParseObjectId(ObjectIdText(o)) == Some(o)
  {
    DecodeEncode(o.bytes);
  }

  type UuidBytes = bs: seq<Byte> | |bs| == 16 witness [0, 0, 0, 0, 0, 0, 0, 0, 0, 0, 0, 0, 0, 0, 0, 0]

  datatype Uuid = Uuid(bytes: UuidBytes)

  /** `str(uuid)`: 32 hex digits in groups 8-4-4-4-12 joined by hyphens. */
  function UuidText(u: Uuid): (s: string)
    ensures |s| == 36
    ensures s[8] == '-' && s[13] == '-' && s[18] == '-' && s[23] == '-'
  {
    var h := EncodeHex(u.bytes);
    h[..8] + "-" + h[8..12] + "-" + h[12..16] + "-" + h[16..20] + "-" + h[20..]
  }

  /** `ObjectId(str(uuid))` never succeeds: the text of a UUID is not 24 hex digits. */
  lemma UuidTextIsNoObjectId(u: Uuid)
    ensures ParseObjectId(UuidText(u)) == None
  {
  }

  /** The Python values a query operand or a document id can be. */
  datatype PyValue =
    | PyNone
    | PyBool(b: bool)
    | PyInt(i: int)
    | PyStr(s: string)
    | PyUuid(u: Uuid)
    | PyObjectId(oid: ObjectId)
    | PyList(items: seq<PyValue>)
    | PyTuple(items: seq<PyValue>)
    | PySet(items: seq<PyValue>)
    | PyOther(typeName: string)

  /** `isinstance(v, (list, tuple, set))`. */
  predicate IsCollection(v: PyValue) {
    v.PyList? || v.PyTuple? || v.PySet?
  }

  /** A filter, a projection, a pipeline stage: a dict (with its key order), a list, or a leaf value. */
  datatype Doc =
    | Map(entries: seq<(string, Doc)>)
    | List(elems: seq<Doc>)
    | Val(v: PyValue)

  /** `{key: value}`: a dict with one entry. */
  function Single(key: string, value: Doc): Doc {
    Map([(key, value)])
  }
}
