/**
 * MongoDB object identifiers: twelve bytes, written as 24 lower-case hex
 * digits by `Hex()` and read back by `ObjectIDFromHex`, which accepts
 * either case and refuses any other length or character.
 */
module ObjectIds {
  import opened Wrappers

  newtype byte = x: int | 0 <= x < 256

  type ObjectId = b: seq<byte> | |b| == 12 witness [0, 0, 0, 0, 0, 0, 0, 0, 0, 0, 0, 0]

  /** primitive.NilObjectID, the zero value of an id field. */
  const NilObjectId: ObjectId := [0, 0, 0, 0, 0, 0, 0, 0, 0, 0, 0, 0]

  predicate IsHexChar(c: char) {
    ('0' <= c <= '9') || ('a' <= c <= 'f') || ('A' <= c <= 'F')
  }

  function NibbleValue(c: char): (v: nat)
    requires IsHexChar(c)
    ensures v < 16
  {
    if '0' <= c <= '9' then c as int - '0' as int
    else if 'a' <= c <= 'f' then c as int - 'a' as int + 10
    else c as int - 'A' as int + 10
  }

  /** The lower-case hex digit for a nibble, as hex.Encode writes it. */
  function HexChar(v: nat): (c: char)
    requires v < 16
    ensures IsHexChar(c) && NibbleValue(c) == v
  {
    if v < 10 then ('0' as int + v) as char else ('a' as int + v - 10) as char
  }

  /** hex.EncodeToString: two lower-case digits per byte, high nibble first. */
  function HexEncode(bs: seq<byte>): (s: string)
    ensures |s| == 2 * |bs|
    ensures forall i :: 0 <= i < |s| ==> IsHexChar(s[i])
  {
    if |bs| == 0 then ""
    else [HexChar((bs[0] / 16) as nat), HexChar((bs[0] % 16) as nat)] + HexEncode(bs[1..])
  }

  /** hex.Decode of an even-length string: None on the first character that
      is not a hex digit. */
  function HexDecode(s: string): (r: Option<seq<byte>>)
    requires |s| % 2 == 0
    ensures r.Some? ==> 2 * |r.value| == |s|
    ensures r.Some? <==> forall i :: 0 <= i < |s| ==> IsHexChar(s[i])
  {
    if |s| == 0 then Some([])
    else if !IsHexChar(s[0]) || !IsHexChar(s[1]) then None
    else
      match HexDecode(s[2..])
      case None => None
      case Some(rest) =>
        Some([(NibbleValue(s[0]) * 16 + NibbleValue(s[1])) as byte] + rest)
  }

  /** ObjectID.Hex(). */
  function Hex(id: ObjectId): (s: string)
    ensures |s| == 24
  {
    HexEncode(id)
  }

  /** primitive.ObjectIDFromHex: fails unless `s` is 24 hex digits. */
  function FromHex(s: string): (r: Option<ObjectId>)
    ensures r.Some? <==> |s| == 24 && forall i :: 0 <= i < |s| ==> IsHexChar(s[i])
  {
    if |s| != 24 then None
    else
      match HexDecode(s)
      case None => None
      case Some(bs) => Some(bs)
  }

  lemma {:induction false} HexDecodeEncode(bs: seq<byte>)
    ensures HexDecode(HexEncode(bs)) == Some(bs)
  {
    if |bs| > 0 {
      var s := HexEncode(bs);
      assert s[2..] == HexEncode(bs[1..]);
      HexDecodeEncode(bs[1..]);
      assert (NibbleValue(s[0]) * 16 + NibbleValue(s[1])) as byte == bs[0];
      assert [bs[0]] + bs[1..] == bs;
    }
  }

  /** Every id round-trips through its hex form. */
  lemma FromHexOfHex(id: ObjectId)
    ensures FromHex(Hex(id)) == Some(id)
  {
    HexDecodeEncode(id);
  }

  /** Distinct ids have distinct hex forms. */
  lemma HexInjective(a: ObjectId, b: ObjectId)
    requires Hex(a) == Hex(b)
    ensures a == b
  {
    FromHexOfHex(a);
    FromHexOfHex(b);
  }
}
