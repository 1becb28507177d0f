/** Little-endian integers in account data. */
module Bytes {
  import opened Numbers

  function Pow256(n: nat): nat
    ensures Pow256(n) > 0
  {
    if n == 0 then 1 else 256 * Pow256(n - 1)
  }

  /** The `n` low bytes of `v`, least significant first. */
  function LeBytes(v: nat, n: nat): (bytes: seq<u8>)
    ensures |bytes| == n
  {
    if n == 0 then [] else [v % 256] + LeBytes(v / 256, n - 1)
  }

  /** The integer whose little-endian bytes these are. */
  function FromLe(bytes: seq<u8>): nat {
    if bytes == [] then 0 else bytes[0] + 256 * FromLe(bytes[1..])
  }

  /** Little-endian: a later byte weighs 256 times the one before it. */
  lemma {:induction false} FromLeConcat(a: seq<u8>, b: seq<u8>)
    ensures FromLe(a + b) == FromLe(a) + Pow256(|a|) * FromLe(b)
    ensures |a| == 1 ==> FromLe(a) == a[0]
  {
    if a == [] {
      assert a + b == b;
    } else {
      assert (a + b)[1..] == a[1..] + b;
      FromLeConcat(a[1..], b);
      Weigh(a[0], FromLe(a[1..]), Pow256(|a| - 1), FromLe(b));
    }
  }

  lemma Weigh(first: nat, rest: nat, weight: nat, more: nat)
    ensures first + 256 * (rest + weight * more) == (first + 256 * rest) + (256 * weight) * more
  {
    assert 256 * (weight * more) == (256 * weight) * more;
  }

  lemma {:induction false} LeRoundTrip(v: nat, n: nat)
    requires v < Pow256(n)
    ensures FromLe(LeBytes(v, n)) == v
  {
    if n > 0 {
      LeRoundTrip(v / 256, n - 1);
      assert LeBytes(v, n)[1..] == LeBytes(v / 256, n - 1);
    }
  }

  lemma LowByte(b: u8, rest: nat)
    ensures (b + 256 * rest) % 256 == b
    ensures (b + 256 * rest) / 256 == rest
  {
  }

  /** Writing inverts reading, too: distinct byte strings are distinct integers. */
  lemma {:induction false} BytesRoundTrip(bytes: seq<u8>)
    ensures LeBytes(FromLe(bytes), |bytes|) == bytes
  {
    if bytes != [] {
      var first, rest := bytes[0], bytes[1..];
      BytesRoundTrip(rest);
      LowByte(first, FromLe(rest));
      assert LeBytes(FromLe(bytes), |bytes|) == [first] + LeBytes(FromLe(rest), |rest|);
      assert bytes == [first] + rest;
    }
  }

  lemma {:induction false} FromLeBound(bytes: seq<u8>)
    ensures FromLe(bytes) < Pow256(|bytes|)
  {
    if bytes != [] {
      FromLeBound(bytes[1..]);
    }
  }

  lemma Widths()
    ensures Pow256(4) == U32_MAX + 1
    ensures Pow256(8) == TWO_64
  {
    assert Pow256(2) == 65536;
    assert Pow256(4) == 65536 * 65536;
    assert Pow256(6) == 65536 * Pow256(4);
  }

  function U64Le(bytes: seq<u8>): u64
    requires |bytes| == 8
  {
    FromLeBound(bytes);
    Widths();
    FromLe(bytes)
  }

  function U32Le(bytes: seq<u8>): u32
    requires |bytes| == 4
  {
    FromLeBound(bytes);
    Widths();
    FromLe(bytes)
  }

  /** Two's complement. */
  function I64Le(bytes: seq<u8>): i64
    requires |bytes| == 8
  {
    var v := U64Le(bytes);
    if v <= I64_MAX then v else v - TWO_64
  }

  function U64Bytes(v: u64): (bytes: seq<u8>)
    ensures |bytes| == 8
    ensures U64Le(bytes) == v
  {
    Widths();
    LeRoundTrip(v, 8);
    LeBytes(v, 8)
  }

  /** Eight bytes are the bytes of the integer read from them. */
  lemma U64Rewritten(bytes: seq<u8>)
    requires |bytes| == 8
    ensures U64Bytes(U64Le(bytes)) == bytes
  {
    BytesRoundTrip(bytes);
  }

  function U32Bytes(v: u32): (bytes: seq<u8>)
    ensures |bytes| == 4
    ensures U32Le(bytes) == v
  {
    Widths();
    LeRoundTrip(v, 4);
    LeBytes(v, 4)
  }

  function I64Bytes(v: i64): (bytes: seq<u8>)
    ensures |bytes| == 8
    ensures I64Le(bytes) == v
  {
    U64Bytes(if v >= 0 then v else v + TWO_64)
  }

  lemma SubSlice<T>(s: seq<T>, a: nat, b: nat, c: nat, d: nat)
    requires a <= b <= |s|
    requires c <= d <= b - a
    ensures s[a..b][c..d] == s[a + c..a + d]
  {
    var inner, outer := s[a..b][c..d], s[a + c..a + d];
    assert |inner| == |outer|;
    forall k | 0 <= k < |inner|
      ensures inner[k] == outer[k]
    {
      assert inner[k] == s[a..b][c + k] == s[a + (c + k)];
    }
  }
}
