/**
 * Identifiers of stored documents: 12-byte object ids and their textual form.
 *
 * The services parse a path segment with bson's `ObjectId::parse_str`, which
 * hex-decodes the text and then demands exactly 12 bytes.  The bson crate is
 * not part of this model; this module states that behaviour as an assumption:
 * the text must be 24 hexadecimal digits, in either case.
 */
module ObjectIds {
  import opened Wrappers
  import opened Bytes

  /** An object id is exactly 12 bytes. */
  type ObjectId = b: seq<byte> | |b| == 12 witness [0, 0, 0, 0, 0, 0, 0, 0, 0, 0, 0, 0]

  predicate IsHexDigit(c: char) {
    ('0' <= c <= '9') || ('a' <= c <= 'f') || ('A' <= c <= 'F')
  }

  predicate IsLowerHexDigit(c: char) {
    ('0' <= c <= '9') || ('a' <= c <= 'f')
  }

  function HexValue(c: char): (v: nat)
    requires IsHexDigit(c)
    ensures v < 16
  {
    if '0' <= c <= '9' then (c - '0') as nat
    else if 'a' <= c <= 'f' then (c - 'a') as nat + 10
    else (c - 'A') as nat + 10
  }

  /** The lower-case digit for a nibble, as `ObjectId::to_hex` writes it. */
  function HexChar(n: nat): (c: char)
    requires n < 16
    ensures IsLowerHexDigit(c) && IsHexDigit(c) && HexValue(c) == n
  {
    if n < 10 then ('0' as int + n) as char else ('a' as int + n - 10) as char
  }

  predicate AllHex(s: string) {
    forall i :: 0 <= i < |s| ==> IsHexDigit(s[i])
  }

  /** hex::decode: two digits per byte; odd length or a non-digit is an error. */
  function DecodeHex(s: string): (r: Option<seq<byte>>)
    ensures r.Some? <==> |s| % 2 == 0 && AllHex(s)
    ensures r.Some? ==> |r.value| == |s| / 2
    decreases |s|
  {
    if |s| == 0 then Some([])
    else if |s| == 1 || !IsHexDigit(s[0]) || !IsHexDigit(s[1]) then None
    else
      match DecodeHex(s[2..])
      case None => None
      case Some(rest) => Some([(HexValue(s[0]) * 16 + HexValue(s[1])) as byte] + rest)
  }

  /** ObjectId::parse_str: decode, then insist on exactly 12 bytes. */
  function ParseObjectId(s: string): (r: Option<ObjectId>)
    ensures r.Some? <==> |s| == 24 && AllHex(s)
  {
    match DecodeHex(s)
    case None => None
    case Some(bytes) => if |bytes| == 12 then Some(bytes) else None
  }

  function EncodeHex(b: seq<byte>): (s: string)
    ensures |s| == 2 * |b|
    ensures forall i :: 0 <= i < |s| ==> IsLowerHexDigit(s[i])
  {
    if b == [] then []
    else [HexChar(b[0] as nat / 16), HexChar(b[0] as nat % 16)] + EncodeHex(b[1..])
  }

  /** ObjectId::to_hex: 24 lower-case hexadecimal digits. */
  function ToHex(id: ObjectId): (s: string)
    ensures |s| == 24 && AllHex(s)
  {
    EncodeHex(id)
  }

  lemma {:induction false} DecodeEncode(b: seq<byte>)
    ensures DecodeHex(EncodeHex(b)) == Some(b)
  {
    if b != [] {
      var s := EncodeHex(b);
      assert s[2..] == EncodeHex(b[1..]);
      DecodeEncode(b[1..]);
      assert HexValue(s[0]) * 16 + HexValue(s[1]) == b[0] as int;
      assert [b[0]] + b[1..] == b;
    }
  }

  /** The textual form of every object id parses back to that id. */
  lemma ParseToHex(id: ObjectId)
    ensures ParseObjectId(ToHex(id)) == Some(id)
  {
    DecodeEncode(id);
  }

  lemma {:induction false} EncodeDecode(s: string)
    requires |s| % 2 == 0
    requires forall i :: 0 <= i < |s| ==> IsLowerHexDigit(s[i])
    ensures DecodeHex(s).Some? && EncodeHex(DecodeHex(s).value) == s
  {
    if s != [] {
      EncodeDecode(s[2..]);
      var rest := DecodeHex(s[2..]).value;
      var v := HexValue(s[0]) * 16 + HexValue(s[1]);
      assert v / 16 == HexValue(s[0]) && v % 16 == HexValue(s[1]);
      assert ([v as byte] + rest)[1..] == rest;
      assert s == [s[0], s[1]] + s[2..];
    }
  }

  /** A lower-case id text is exactly the textual form of the id it parses to. */
  lemma ToHexParse(s: string)
    requires |s| == 24
    requires forall i :: 0 <= i < |s| ==> IsLowerHexDigit(s[i])
    ensures ParseObjectId(s).Some? && ToHex(ParseObjectId(s).value) == s
  {
    EncodeDecode(s);
  }
}
