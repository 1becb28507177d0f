/** Reading the reserves out of a bonding curve account (pump.rs). */
module CurveReserves {
  import opened Bytes
  import opened Numbers
  import opened Wrappers

  import Errors

  datatype Reserves = Reserves(virtualToken: u64, virtualQuote: u64, realToken: u64, realQuote: u64)

  const NO_RESERVES := Reserves(0, 0, 0, 0)

  function DecodeReserves(data: seq<u8>): Result<Reserves, Errors.Error> {
    if |data| < 8 + 32 then Err(Errors.CreateNotLanded) else
    var d := data[8..];
    Ok(Reserves(U64Le(d[0..8]), U64Le(d[8..16]), U64Le(d[16..24]), U64Le(d[24..32])))
  }

  function EncodeReserves(r: Reserves): (bytes: seq<u8>)
    ensures |bytes| == 32
  {
    U64Bytes(r.virtualToken) + U64Bytes(r.virtualQuote) + U64Bytes(r.realToken) + U64Bytes(r.realQuote)
  }

  lemma FourSlices(a: seq<u8>, b: seq<u8>, c: seq<u8>, d: seq<u8>, rest: seq<u8>)
    requires |a| == |b| == |c| == |d| == 8
    ensures var s := a + b + c + d + rest;
            s[0..8] == a && s[8..16] == b && s[16..24] == c && s[24..32] == d
  {
    var s := a + b + c + d + rest;
    assert s == a + (b + c + d + rest);
    assert s == (a + b) + (c + d + rest);
    assert s == (a + b + c) + (d + rest);
  }

  /** Decoding inverts the four-field layout behind any discriminator and before any further fields. */
  lemma ReservesRoundTrip(discriminator: seq<u8>, r: Reserves, rest: seq<u8>)
    requires |discriminator| == 8
    ensures DecodeReserves(discriminator + EncodeReserves(r) + rest) == Ok(r)
  {
    var data, words := discriminator + EncodeReserves(r) + rest, EncodeReserves(r);
    assert data[8..] == words + rest;
    FourSlices(U64Bytes(r.virtualToken), U64Bytes(r.virtualQuote), U64Bytes(r.realToken), U64Bytes(r.realQuote), rest);
  }

  lemma FourWords(a: seq<u8>, b: seq<u8>, c: seq<u8>, d: seq<u8>)
    requires |a| == |b| == |c| == |d| == 8
    ensures EncodeReserves(Reserves(U64Le(a), U64Le(b), U64Le(c), U64Le(d))) == a + b + c + d
  {
    U64Rewritten(a);
    U64Rewritten(b);
    U64Rewritten(c);
    U64Rewritten(d);
  }

  /** Encoding inverts decoding, which fails only below 40 bytes: what is read determines the bytes it was read from. */
  lemma BytesDetermined(data: seq<u8>)
    ensures match DecodeReserves(data)
            case Ok(r) => |data| >= 40 && EncodeReserves(r) == data[8..40]
            case Err(e) => |data| < 40 && e == Errors.CreateNotLanded
  {
    if |data| >= 40 {
      var d := data[8..];
      FourWords(d[0..8], d[8..16], d[16..24], d[24..32]);
      assert d[..16] == d[0..8] + d[8..16];
      assert d[..24] == d[..16] + d[16..24];
      assert d[..32] == d[..24] + d[24..32];
      SubSlice(data, 8, |data|, 0, 32);
    }
  }

  /** Bytes 8 to 24 hold the two virtual reserves and nothing else. */
  lemma TwoWords(data: seq<u8>)
    requires |data| >= 40
    ensures var r := DecodeReserves(data).value;
            && data[8..24] == U64Bytes(r.virtualToken) + U64Bytes(r.virtualQuote)
            && r.virtualToken == U64Le(data[8..24][..8]) && r.virtualQuote == U64Le(data[8..24][8..])
  {
    var d := data[8..];
    assert d[0..8] == data[8..24][..8] && d[8..16] == data[8..24][8..];
    U64Rewritten(d[0..8]);
    U64Rewritten(d[8..16]);
    assert data[8..24] == d[0..8] + d[8..16];
  }

  /** The two virtual reserves are equal exactly when bytes 8 to 24 are. */
  lemma SamePrice(data: seq<u8>, other: seq<u8>)
    requires |data| >= 40 && |other| >= 40
    ensures var r, s := DecodeReserves(data).value, DecodeReserves(other).value;
            r.virtualToken == s.virtualToken && r.virtualQuote == s.virtualQuote <==> data[8..24] == other[8..24]
  {
    TwoWords(data);
    TwoWords(other);
  }
}
