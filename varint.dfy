/**
 * Protocol Buffers "Base 128 Varints" as written by `varint_encode`: seven
 * bits per byte, least significant group first, bit 7 set on every byte but
 * the last.
 */
module Varint {
  import opened Wrappers
  import opened Bytes
  import Errors

  /** The bytes `varint_encode(n, out)` appends for a non-negative `n`. */
  function VarintBytes(n: nat): seq<byte>
    decreases n
  {
    if n < 128 then [n] else [n % 128 + 128] + VarintBytes(n / 128)
  }

  /** The number a varint denotes: its 7-bit groups read little-endian. */
  function VarintValue(s: seq<byte>): nat {
    if s == [] then 0 else s[0] % 128 + 128 * VarintValue(s[1..])
  }

  /** Every byte but the last has bit 7 set; the last has it clear. */
  lemma {:induction false} VarintShape(n: nat)
    ensures |VarintBytes(n)| >= 1
    ensures forall k :: 0 <= k < |VarintBytes(n)| - 1 ==> VarintBytes(n)[k] >= 128
    ensures VarintBytes(n)[|VarintBytes(n)| - 1] < 128
    decreases n
  {
    if n >= 128 {
      VarintShape(n / 128);
    }
  }

  /** Reading the groups back yields the encoded number. */
  lemma {:induction false} VarintRoundTrip(n: nat)
    ensures VarintValue(VarintBytes(n)) == n
    decreases n
  {
    if n >= 128 {
      VarintRoundTrip(n / 128);
      assert VarintBytes(n)[1..] == VarintBytes(n / 128);
    }
  }

  /** Exactly the numbers below 128 take a single byte. */
  lemma {:induction false} VarintSingleByte(n: nat)
    ensures |VarintBytes(n)| == 1 <==> n < 128
    ensures n < 128 ==> VarintBytes(n) == [n]
  {
    if n >= 128 {
      VarintShape(n / 128);
    }
  }

  /**
   * Reads one varint from the front of `s`: its value and the number of
   * bytes it occupies, or None when `s` ends inside it.
   */
  function ParseVarint(s: seq<byte>): (r: Option<(nat, nat)>)
    ensures r.Some? ==> 1 <= r.value.1 <= |s|
  {
    if s == [] then None
    else if s[0] < 128 then Some((s[0], 1))
    else
      match ParseVarint(s[1..])
      case None => None
      case Some((v, k)) => Some((s[0] - 128 + 128 * v, k + 1))
  }

  /** A varint followed by anything parses back to its number and length. */
  lemma {:induction false} ParseVarintBytes(n: nat, rest: seq<byte>)
    ensures ParseVarint(VarintBytes(n) + rest) == Some((n, |VarintBytes(n)|))
    decreases n
  {
    var s := VarintBytes(n) + rest;
    if n >= 128 {
      ParseVarintBytes(n / 128, rest);
      assert s[1..] == VarintBytes(n / 128) + rest;
    }
  }

  /**
   * `varint_encode(n, out)`: raises ValueError for a negative `n`, otherwise
   * appends the varint of `n` to `out`.
   */
  method VarintEncode(n: int, out: ByteArray) returns (r: Result<(), Errors.Error>)
    modifies out
    ensures n < 0 ==> r == Failure(Errors.NegativeVarint) && out.bytes == old(out.bytes)
    ensures n >= 0 ==> r == Success(()) && out.bytes == old(out.bytes) + VarintBytes(n)
  {
    if n < 0 {
      return Failure(Errors.NegativeVarint);
    }
    var m: nat := n;
    while true
      invariant out.bytes + VarintBytes(m) == old(out.bytes) + VarintBytes(n)
      decreases m
    {
      // `n & 127` and `n >>= 7` on a non-negative n
      var b := m % 128;
      var next := m / 128;
      if next > 0 {
        out.Append(b + 128);  // b | 128, as b < 128
        m := next;
      } else {
        out.Append(b);
        break;
      }
    }
    return Success(());
  }
}
