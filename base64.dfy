/**
 * `rc_base64`: base64 (section 4 of RFC 4648) with the URL-safe alphabet of
 * section 5 ('-' and '_' for '+' and '/'), and every padding '=' replaced by
 * '.'.  A decoder for the standard alphabet is the partner the encoder is
 * proved against.
 */
module Base64 {
  import opened Wrappers
  import opened Bytes

  /** The character for a 6-bit value in the URL-safe alphabet. */
  function RcChar(v: nat): char
    requires v < 64
  {
    if v < 26 then ('A' as int + v) as char
    else if v < 52 then ('a' as int + (v - 26)) as char
    else if v < 62 then ('0' as int + (v - 52)) as char
    else if v == 62 then '-'
    else '_'
  }

  /** The characters `rc_base64` output may contain. */
  predicate IsRcChar(c: char) {
    ('A' <= c <= 'Z') || ('a' <= c <= 'z') || ('0' <= c <= '9') || c == '-' || c == '_' || c == '.'
  }

  /** The four characters for one group of three bytes. */
  function Group3(b0: byte, b1: byte, b2: byte): (r: string)
    ensures |r| == 4 && forall i :: 0 <= i < 4 ==> IsRcChar(r[i])
  {
    [RcChar(b0 / 4), RcChar((b0 % 4) * 16 + b1 / 16), RcChar((b1 % 16) * 4 + b2 / 64), RcChar(b2 % 64)]
  }

  /** The last group when two bytes are left: one padding character. */
  function Group2(b0: byte, b1: byte): (r: string)
    ensures |r| == 4 && forall i :: 0 <= i < 4 ==> IsRcChar(r[i])
  {
    [RcChar(b0 / 4), RcChar((b0 % 4) * 16 + b1 / 16), RcChar((b1 % 16) * 4), '.']
  }

  /** The last group when one byte is left: two padding characters. */
  function Group1(b0: byte): (r: string)
    ensures |r| == 4 && forall i :: 0 <= i < 4 ==> IsRcChar(r[i])
  {
    [RcChar(b0 / 4), RcChar((b0 % 4) * 16), '.', '.']
  }

  /** `rc_base64` of raw bytes. */
  function RcBase64(data: seq<byte>): string
    decreases |data|
  {
    if |data| == 0 then ""
    else if |data| == 1 then Group1(data[0])
    else if |data| == 2 then Group2(data[0], data[1])
    else Group3(data[0], data[1], data[2]) + RcBase64(data[3..])
  }

  /** `rc_base64(string)` for a `str`: its UTF-8 encoding, base64-encoded. */
  function RcBase64Str(s: string): string {
    RcBase64(Utf8(s))
  }

  /** Four characters per started group of three bytes. */
  lemma {:induction false} RcBase64Length(data: seq<byte>)
    ensures |RcBase64(data)| == 4 * ((|data| + 2) / 3)
    ensures |RcBase64(data)| % 4 == 0
    decreases |data|
  {
    if |data| > 2 {
      RcBase64Length(data[3..]);
      var n := |data|;
      assert |RcBase64(data)| == 4 + |RcBase64(data[3..])|;
      assert (n + 2) / 3 == (n - 3 + 2) / 3 + 1;
    }
    TimesFour((|data| + 2) / 3);
  }

  lemma TimesFour(k: nat)
    ensures (4 * k) % 4 == 0
  {
  }

  /** Only `A-Z a-z 0-9 - _ .` appear in the output. */
  lemma {:induction false} RcBase64Alphabet(data: seq<byte>)
    ensures forall i :: 0 <= i < |RcBase64(data)| ==> IsRcChar(RcBase64(data)[i])
    decreases |data|
  {
    if |data| > 2 {
      RcBase64Alphabet(data[3..]);
    }
  }

  function ToStdChar(c: char): char {
    if c == '-' then '+' else if c == '_' then '/' else if c == '.' then '=' else c
  }

  /** Back to standard base64: '-' to '+', '_' to '/', '.' to '='. */
  function ToStandard(s: string): (r: string)
    ensures |r| == |s|
    ensures forall i :: 0 <= i < |s| ==> r[i] == ToStdChar(s[i])
  {
    seq(|s|, i requires 0 <= i < |s| => ToStdChar(s[i]))
  }

  /** The 6-bit value of a standard base64 character. */
  function StdValue(c: char): Option<nat> {
    if 'A' <= c <= 'Z' then Some(c as int - 'A' as int)
    else if 'a' <= c <= 'z' then Some(c as int - 'a' as int + 26)
    else if '0' <= c <= '9' then Some(c as int - '0' as int + 52)
    else if c == '+' then Some(62)
    else if c == '/' then Some(63)
    else None
  }

  lemma StdValueOfRcChar(v: nat)
    requires v < 64
    ensures StdValue(ToStdChar(RcChar(v))) == Some(v)
  {
  }

  /** The three bytes a group of four 6-bit values stands for. */
  function Byte0(v0: nat, v1: nat): byte { (v0 * 4 + v1 / 16) % 256 }
  function Byte1(v1: nat, v2: nat): byte { ((v1 % 16) * 16 + v2 / 4) % 256 }
  function Byte2(v2: nat, v3: nat): byte { ((v2 % 4) * 64 + v3) % 256 }

  /** A standard base64 decoder (padding with '=' at the end only). */
  function StdDecode(s: string): Option<seq<byte>>
    decreases |s|
  {
    if s == [] then Some([])
    else if |s| < 4 then None
    else
      var v0, v1, v2, v3 := StdValue(s[0]), StdValue(s[1]), StdValue(s[2]), StdValue(s[3]);
      if v0.None? || v1.None? then None
      else if s[2] == '=' && s[3] == '=' then
        if |s| == 4 then Some([Byte0(v0.value, v1.value)]) else None
      else if v2.None? then None
      else if s[3] == '=' then
        if |s| == 4 then Some([Byte0(v0.value, v1.value), Byte1(v1.value, v2.value)]) else None
      else if v3.None? then None
      else
        match StdDecode(s[4..])
        case None => None
        case Some(rest) =>
          Some([Byte0(v0.value, v1.value), Byte1(v1.value, v2.value), Byte2(v2.value, v3.value)] + rest)
  }

  /** Splitting three bytes into four 6-bit groups loses nothing. */
  lemma GroupArith(b0: byte, b1: byte, b2: byte)
    ensures (b0 / 4) * 4 + ((b0 % 4) * 16 + b1 / 16) / 16 == b0
    ensures (((b0 % 4) * 16 + b1 / 16) % 16) * 16 + ((b1 % 16) * 4 + b2 / 64) / 4 == b1
    ensures (((b1 % 16) * 4 + b2 / 64) % 4) * 64 + b2 % 64 == b2
  {
    assert b1 / 16 < 16;
    assert ((b0 % 4) * 16 + b1 / 16) / 16 == b0 % 4;
    assert ((b0 % 4) * 16 + b1 / 16) % 16 == b1 / 16;
    assert b2 / 64 < 4;
    assert ((b1 % 16) * 4 + b2 / 64) / 4 == b1 % 16;
    assert ((b1 % 16) * 4 + b2 / 64) % 4 == b2 / 64;
  }

  /** Undoing the alphabet change and decoding gives back the input bytes. */
  lemma {:induction false} RcBase64Decodes(data: seq<byte>)
    ensures StdDecode(ToStandard(RcBase64(data))) == Some(data)
    decreases |data|
  {
    if |data| == 1 {
      DecodesOne(data[0]);
      assert data == [data[0]];
    } else if |data| == 2 {
      DecodesTwo(data[0], data[1]);
      assert data == [data[0], data[1]];
    } else if |data| > 2 {
      RcBase64Decodes(data[3..]);
      DecodesGroup(data[0], data[1], data[2], data[3..]);
      SplitThree(data);
    }
  }

  lemma DecodesOne(b0: byte)
    ensures StdDecode(ToStandard(RcBase64([b0]))) == Some([b0])
  {
    var v0, v1 := b0 / 4, (b0 % 4) * 16;
    GroupArith(b0, 0, 0);
    assert Byte0(v0, v1) == b0;
    StdValueOfRcChar(v0);
    StdValueOfRcChar(v1);
    var q := ToStandard(Group1(b0));
    assert q[0] == ToStdChar(RcChar(v0)) && q[1] == ToStdChar(RcChar(v1));
    DecodeLast1(q, v0, v1);
  }

  /** A final group with two padding characters. */
  lemma DecodeLast1(q: string, v0: nat, v1: nat)
    requires |q| == 4 && q[2] == '=' && q[3] == '='
    requires StdValue(q[0]) == Some(v0) && StdValue(q[1]) == Some(v1)
    ensures StdDecode(q) == Some([Byte0(v0, v1)])
  {
  }

  lemma DecodesTwo(b0: byte, b1: byte)
    ensures StdDecode(ToStandard(RcBase64([b0, b1]))) == Some([b0, b1])
  {
    var v0, v1, v2 := b0 / 4, (b0 % 4) * 16 + b1 / 16, (b1 % 16) * 4;
    TwoValues(b0, b1);
    TwoChars(b0, b1);
    assert RcBase64([b0, b1]) == Group2(b0, b1);
    DecodeLast2(ToStandard(Group2(b0, b1)), v0, v1, v2);
  }

  lemma TwoValues(b0: byte, b1: byte)
    ensures Byte0(b0 / 4, (b0 % 4) * 16 + b1 / 16) == b0
    ensures Byte1((b0 % 4) * 16 + b1 / 16, (b1 % 16) * 4) == b1
  {
    GroupArith(b0, b1, 0);
  }

  lemma TwoChars(b0: byte, b1: byte)
    ensures |ToStandard(Group2(b0, b1))| == 4 && ToStandard(Group2(b0, b1))[3] == '='
    ensures StdValue(ToStandard(Group2(b0, b1))[0]) == Some(b0 / 4)
    ensures StdValue(ToStandard(Group2(b0, b1))[1]) == Some((b0 % 4) * 16 + b1 / 16)
    ensures StdValue(ToStandard(Group2(b0, b1))[2]) == Some((b1 % 16) * 4)
  {
    var v0, v1, v2 := b0 / 4, (b0 % 4) * 16 + b1 / 16, (b1 % 16) * 4;
    StdValueOfRcChar(v0);
    StdValueOfRcChar(v1);
    StdValueOfRcChar(v2);
  }

  /** A final group with one padding character. */
  lemma DecodeLast2(q: string, v0: nat, v1: nat, v2: nat)
    requires |q| == 4 && q[3] == '='
    requires StdValue(q[0]) == Some(v0) && StdValue(q[1]) == Some(v1) && StdValue(q[2]) == Some(v2)
    ensures StdDecode(q) == Some([Byte0(v0, v1), Byte1(v1, v2)])
  {
  }

  lemma DecodesGroup(b0: byte, b1: byte, b2: byte, more: seq<byte>)
    requires StdDecode(ToStandard(RcBase64(more))) == Some(more)
    ensures StdDecode(ToStandard(RcBase64([b0, b1, b2] + more))) == Some([b0, b1, b2] + more)
  {
    RcBase64Cons(b0, b1, b2, more);
    var q := ToStandard(Group3(b0, b1, b2));
    var rest := ToStandard(RcBase64(more));
    ToStandardConcat(Group3(b0, b1, b2), RcBase64(more));
    var v0, v1, v2, v3 := Group3Values(b0, b1, b2);
    DecodeQuad(q, rest, v0, v1, v2, v3, [b0, b1, b2]);
  }

  lemma SplitThree(data: seq<byte>)
    requires |data| > 2
    ensures data == [data[0], data[1], data[2]] + data[3..]
  {
  }

  lemma RcBase64Cons(b0: byte, b1: byte, b2: byte, more: seq<byte>)
    ensures RcBase64([b0, b1, b2] + more) == Group3(b0, b1, b2) + RcBase64(more)
  {
    var data := [b0, b1, b2] + more;
    assert data[3..] == more;
  }

  lemma ToStandardConcat(a: string, b: string)
    ensures ToStandard(a + b) == ToStandard(a) + ToStandard(b)
  {
  }

  /** The standard-alphabet values of one full group. */
  lemma Group3Values(b0: byte, b1: byte, b2: byte) returns (v0: nat, v1: nat, v2: nat, v3: nat)
    ensures var q := ToStandard(Group3(b0, b1, b2));
      StdValue(q[0]) == Some(v0) && StdValue(q[1]) == Some(v1) &&
      StdValue(q[2]) == Some(v2) && StdValue(q[3]) == Some(v3)
    ensures [b0, b1, b2] == [Byte0(v0, v1), Byte1(v1, v2), Byte2(v2, v3)]
  {
    v0, v1, v2, v3 := b0 / 4, (b0 % 4) * 16 + b1 / 16, (b1 % 16) * 4 + b2 / 64, b2 % 64;
    GroupArith(b0, b1, b2);
    assert Byte0(v0, v1) == b0 && Byte1(v1, v2) == b1 && Byte2(v2, v3) == b2;
    StdValueOfRcChar(v0);
    StdValueOfRcChar(v1);
    StdValueOfRcChar(v2);
    StdValueOfRcChar(v3);
    var q := ToStandard(Group3(b0, b1, b2));
    assert q[0] == ToStdChar(RcChar(v0)) && q[1] == ToStdChar(RcChar(v1));
    assert q[2] == ToStdChar(RcChar(v2)) && q[3] == ToStdChar(RcChar(v3));
  }

  /** One full group of four characters followed by the rest. */
  lemma DecodeQuad(q: string, rest: string, v0: nat, v1: nat, v2: nat, v3: nat, group: seq<byte>)
    requires |q| == 4 && |group| == 3
    // the padding character has no value, so q[2] and q[3] are not padding
    requires StdValue(q[0]) == Some(v0) && StdValue(q[1]) == Some(v1)
    requires StdValue(q[2]) == Some(v2) && StdValue(q[3]) == Some(v3)
    requires group == [Byte0(v0, v1), Byte1(v1, v2), Byte2(v2, v3)]
    requires StdDecode(rest).Some?
    ensures StdDecode(q + rest) == Some(group + StdDecode(rest).value)
  {
    var s := q + rest;
    assert s[0] == q[0] && s[1] == q[1] && s[2] == q[2] && s[3] == q[3];
    assert s[4..] == rest;
  }

  /** Bytes FB EF FF use both replaced characters and no padding. */
  lemma Example()
    ensures RcBase64([0xFB, 0xEF, 0xFF]) == "--__"
    ensures RcBase64([0x66]) == "Zg.."
  {
  }
}
