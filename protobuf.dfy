/**
 * The minimal Protocol Buffers writer of the client: length-delimited
 * records (wire type 2) only, and the reload request built from them.
 */
module Protobuf {
  import opened Wrappers
  import opened Bytes
  import opened Varint
  import Errors

  type Field = (int, seq<byte>)

  predicate AllNonNegative(fields: seq<Field>) {
    forall i :: 0 <= i < |fields| ==> fields[i].0 >= 0
  }

  /** One record: varint `(num << 3) | 2`, varint length, then the bytes. */
  function FieldBytes(num: nat, value: seq<byte>): seq<byte> {
    VarintBytes(num * 8 + 2) + VarintBytes(|value|) + value
  }

  /** The records of `fields`, in input order. */
  function FieldsBytes(fields: seq<Field>): seq<byte>
    requires AllNonNegative(fields)
  {
    if fields == [] then [] else FieldBytes(fields[0].0, fields[0].1) + FieldsBytes(fields[1..])
  }

  lemma {:induction false} FieldsBytesAppend(fields: seq<Field>, f: Field)
    requires AllNonNegative(fields) && f.0 >= 0
    ensures AllNonNegative(fields + [f])
    ensures FieldsBytes(fields + [f]) == FieldsBytes(fields) + FieldBytes(f.0, f.1)
  {
    assert AllNonNegative(fields + [f]);
    if fields != [] {
      assert (fields + [f])[1..] == fields[1..] + [f];
      FieldsBytesAppend(fields[1..], f);
    } else {
      assert [f][1..] == [];
    }
  }

  /**
   * `protobuf_encode(fields)`: the concatenated records, or the ValueError
   * `varint_encode` raises when a field number is negative (for those,
   * `(num << 3) | 2` is negative).
   */
  method ProtobufEncode(fields: seq<Field>) returns (r: Result<seq<byte>, Errors.Error>)
    ensures AllNonNegative(fields) ==> r == Success(FieldsBytes(fields))
    ensures !AllNonNegative(fields) ==> r == Failure(Errors.NegativeVarint)
  {
    var result := new ByteArray();
    for i := 0 to |fields|
      invariant AllNonNegative(fields[..i])
      invariant result.bytes == FieldsBytes(fields[..i])
    {
      var num, value := fields[i].0, fields[i].1;
      ghost var before := result.bytes;
      var ok := VarintEncode(VarintTag(num), result);
      if ok.Failure? {
        assert fields[i].0 < 0;
        return Failure(Errors.NegativeVarint);
      }
      ok := VarintEncode(|value|, result);
      result.Extend(value);
      assert result.bytes == before + FieldBytes(num, value);
      FieldsBytesAppend(fields[..i], fields[i]);
      assert fields[..i + 1] == fields[..i] + [fields[i]];
    }
    assert fields[..|fields|] == fields;
    return Success(result.bytes);
  }

  /** `(num << 3) | 2`: negative exactly when `num` is. */
  function VarintTag(num: int): (t: int)
    ensures t < 0 <==> num < 0
    ensures num >= 0 ==> t == num * 8 + 2
  {
    num * 8 + 2
  }

  /** Reads one length-delimited record: its field number, its bytes and how many bytes it took. */
  function ParseOne(s: seq<byte>): (r: Option<(nat, seq<byte>, nat)>)
    ensures r.Some? ==> 0 < r.value.2 <= |s|
  {
    match ParseVarint(s)
    case None => None
    case Some((tag, k)) =>
      if tag % 8 != 2 then None
      else match ParseVarint(s[k..])
        case None => None
        case Some((len, k2)) =>
          if k + k2 + len > |s| then None
          else Some((tag / 8, s[k + k2..k + k2 + len], k + k2 + len))
  }

  /** Reads length-delimited records back; None for anything else. */
  function ParseFields(s: seq<byte>): Option<seq<(nat, seq<byte>)>>
    decreases |s|
  {
    if s == [] then Some([])
    else match ParseOne(s)
      case None => None
      case Some((num, value, used)) =>
        match ParseFields(s[used..])
        case None => None
        case Some(rest) => Some([(num, value)] + rest)
  }

  lemma TagArith(num: nat)
    ensures (num * 8 + 2) % 8 == 2 && (num * 8 + 2) / 8 == num
  {
  }

  predicate SameFields(a: seq<(nat, seq<byte>)>, b: seq<Field>) {
    |a| == |b| && forall i :: 0 <= i < |a| ==> a[i].0 == b[i].0 && a[i].1 == b[i].1
  }

  /** Decoding the encoder's output gives back the fields, in order. */
  lemma {:induction false} ParseFieldsBytes(fields: seq<Field>)
    requires AllNonNegative(fields)
    ensures ParseFields(FieldsBytes(fields)).Some?
    ensures SameFields(ParseFields(FieldsBytes(fields)).value, fields)
  {
    if fields != [] {
      var rest := FieldsBytes(fields[1..]);
      ParseFieldsBytes(fields[1..]);
      ParseField(fields[0].0, fields[0].1, rest);
      var tailFields := ParseFields(rest).value;
      var all := ParseFields(FieldsBytes(fields)).value;
      assert all == [(fields[0].0 as nat, fields[0].1)] + tailFields;
      forall i | 0 <= i < |all|
        ensures all[i].0 == fields[i].0 && all[i].1 == fields[i].1
      {
        if i > 0 {
          assert all[i] == tailFields[i - 1] && fields[i] == fields[1..][i - 1];
        }
      }
    }
  }

  /** One record in front of decodable bytes is read off first. */
  lemma ParseField(num: nat, value: seq<byte>, rest: seq<byte>)
    requires ParseFields(rest).Some?
    ensures ParseFields(FieldBytes(num, value) + rest) == Some([(num, value)] + ParseFields(rest).value)
  {
    var s := FieldBytes(num, value) + rest;
    ParseOneField(num, value, rest);
    assert s[|FieldBytes(num, value)|..] == rest;
  }

  /** The record in front is read with its number, its bytes and its full length. */
  lemma ParseOneField(num: nat, value: seq<byte>, rest: seq<byte>)
    ensures ParseOne(FieldBytes(num, value) + rest) == Some((num, value, |FieldBytes(num, value)|))
  {
    var s := FieldBytes(num, value) + rest;
    var tag := num * 8 + 2;
    var tagBytes := VarintBytes(tag);
    var lenBytes := VarintBytes(|value|);
    var k, k2 := |tagBytes|, |lenBytes|;
    assert s == tagBytes + (lenBytes + (value + rest));
    assert ParseVarint(s) == Some((tag, k)) by {
      ParseVarintBytes(tag, lenBytes + (value + rest));
    }
    assert ParseVarint(s[k..]) == Some((|value|, k2)) by {
      assert s[k..] == lenBytes + (value + rest);
      ParseVarintBytes(|value|, value + rest);
    }
    assert s[k + k2..k + k2 + |value|] == value;
    TagArith(num);
  }

  /** The reload request body: fields 1, 2, 6 and 14 (version, token, reason, key). */
  function ReloadFrame(rcVersion: string, token: string, reason: string, apiKey: string): seq<Field> {
    [(1, Utf8(rcVersion)), (2, Utf8(token)), (6, Utf8(reason)), (14, Utf8(apiKey))]
  }

  /**
   * `format_reload_protobuf(...)`: each value follows its one-byte tag
   * 0x0A, 0x12, 0x32 or 0x72 and its varint length.
   */
  method FormatReloadProtobuf(rcVersion: string, token: string, reason: string, apiKey: string)
    returns (r: seq<byte>)
    ensures AllNonNegative(ReloadFrame(rcVersion, token, reason, apiKey))
    ensures r == FieldsBytes(ReloadFrame(rcVersion, token, reason, apiKey))
    ensures r == Record(0x0A, Utf8(rcVersion)) + Record(0x12, Utf8(token))
               + Record(0x32, Utf8(reason)) + Record(0x72, Utf8(apiKey))
  {
    var frame := ReloadFrame(rcVersion, token, reason, apiKey);
    var encoded := ProtobufEncode(frame);
    r := encoded.value;
    ReloadFrameBytes(Utf8(rcVersion), Utf8(token), Utf8(reason), Utf8(apiKey));
  }

  lemma FourFields(f: seq<Field>)
    requires |f| == 4 && AllNonNegative(f)
    ensures FieldsBytes(f) == FieldBytes(f[0].0, f[0].1) + FieldBytes(f[1].0, f[1].1)
                              + FieldBytes(f[2].0, f[2].1) + FieldBytes(f[3].0, f[3].1)
  {
    var f1 := f[1..];
    var f2 := f1[1..];
    var f3 := f2[1..];
    var f4 := f3[1..];
    assert f4 == [];
    assert f1[0] == f[1] && f2[0] == f[2] && f3[0] == f[3];
    assert FieldsBytes(f3) == FieldBytes(f[3].0, f[3].1);
    assert FieldsBytes(f2) == FieldBytes(f[2].0, f[2].1) + FieldsBytes(f3);
    assert FieldsBytes(f1) == FieldBytes(f[1].0, f[1].1) + FieldsBytes(f2);
  }

  /** A record whose tag is the single byte `tag`. */
  function Record(tag: byte, payload: seq<byte>): seq<byte> {
    [tag] + VarintBytes(|payload|) + payload
  }

  lemma ReloadFrameBytes(v: seq<byte>, t: seq<byte>, m: seq<byte>, k: seq<byte>)
    ensures AllNonNegative([(1, v), (2, t), (6, m), (14, k)])
    ensures FieldsBytes([(1, v), (2, t), (6, m), (14, k)])
         == Record(0x0A, v) + Record(0x12, t) + Record(0x32, m) + Record(0x72, k)
  {
    FourFields([(1, v), (2, t), (6, m), (14, k)]);
    VarintSingleByte(10);
    VarintSingleByte(18);
    VarintSingleByte(50);
    VarintSingleByte(114);
  }

  /** The field encoder on `(1, "v1")` gives 0x0A 0x02 'v' '1'. */
  lemma EncodeExample()
    ensures AllNonNegative([(1, Utf8("v1"))])
    ensures FieldsBytes([(1, Utf8("v1"))]) == [0x0A, 0x02, 0x76, 0x31]
  {
    assert Utf8("v1") == [0x76, 0x31];
    assert [(1, Utf8("v1"))][1..] == [];
  }
}
