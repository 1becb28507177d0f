/** The Pool account's bytes: Borsh order as declared in state.rs, read back by the cursor of pool-decode.ts. */
module PoolLayout {
  import opened Bytes
  import opened Numbers
  import opened State
  import opened Wrappers

  // ------------------------------------------------------------------- encoding

  const POOL_LEN := 8 + 1 + 1 + 1 + 32 + 8 + 32 + 8 + 8 + 8 + 8 + 8 + 8 + 4 + 8 + 8 + 8 + 8 + 8 + 8 + 8

  function StatusCode(s: PoolStatus): u8 {
    match s
    case Open => 0
    case Launching => 1
    case Bought => 2
    case Finalized => 3
    case Refundable => 4
    case Closed => 5
  }

  predicate KeysWellFormed(p: Pool) {
    |p.creator.bytes| == 32 && |p.mint.bytes| == 32
  }

  /** Up to and including the mint. */
  function IdentityBytes(p: Pool): (bytes: seq<u8>)
    requires KeysWellFormed(p)
    ensures |bytes| == 75
  {
    [p.bump, p.buyerBump, StatusCode(p.status)] + p.creator.bytes + U64Bytes(p.seed) + p.mint.bytes
  }

  /** Deadlines and bounds. */
  function TermsBytes(p: Pool): (bytes: seq<u8>)
    ensures |bytes| == 40
  {
    I64Bytes(p.launchAt) + I64Bytes(p.graceEndsAt) + U64Bytes(p.minRaise) + U64Bytes(p.maxPool)
    + U64Bytes(p.minContribution)
  }

  function CounterBytes(p: Pool): (bytes: seq<u8>)
    ensures |bytes| == 36
  {
    U64Bytes(p.totalContributed) + U32Bytes(p.contributorCount) + U64Bytes(p.tokensBought)
    + U64Bytes(p.distributable) + U64Bytes(p.burned)
  }

  function AuditBytes(p: Pool): (bytes: seq<u8>)
    ensures |bytes| == 32
  {
    U64Bytes(p.postVirtualToken) + U64Bytes(p.postVirtualQuote) + U64Bytes(p.totalClaimed) + U64Bytes(p.totalRefunded)
  }

  /** An account's data: the discriminator, then the fields in declaration order. */
  function EncodePool(discriminator: seq<u8>, p: Pool): (bytes: seq<u8>)
    requires |discriminator| == 8
    requires KeysWellFormed(p)
    ensures |bytes| == POOL_LEN
  {
    discriminator + IdentityBytes(p) + TermsBytes(p) + CounterBytes(p) + AuditBytes(p)
  }

  // ------------------------------------------------------------------- decoding

  datatype RangeError = RangeError

  datatype DecodedPool = DecodedPool(
    status: u8,
    statusName: Option<string>, // None: `unknown(status)`
    creator: Pubkey,
    seed: u64,
    mint: Pubkey,
    launchAt: i64,
    graceEndsAt: i64,
    minRaise: u64,
    maxPool: u64,
    minContribution: u64,
    totalContributed: u64,
    contributorCount: u32,
    tokensBought: u64,
    distributable: u64,
    burned: u64)

  const STATUS_NAMES := ["Open", "Launching", "Bought", "Finalized", "Refundable", "Closed"]

  function NameOfStatus(status: u8): Option<string> {
    if status < |STATUS_NAMES| then Some(STATUS_NAMES[status]) else None
  }

  /** The last byte the decoder reads, plus one. */
  const READ_LEN := 159

  /** The fields at their fixed offsets. */
  function DecodedAt(data: seq<u8>): DecodedPool
    requires |data| >= READ_LEN
  {
    DecodedPool(data[10], NameOfStatus(data[10]), Pubkey(data[11..43]), U64Le(data[43..51]), Pubkey(data[51..83]),
                I64Le(data[83..91]), I64Le(data[91..99]), U64Le(data[99..107]), U64Le(data[107..115]),
                U64Le(data[115..123]), U64Le(data[123..131]), U32Le(data[131..135]), U64Le(data[135..143]),
                U64Le(data[143..151]), U64Le(data[151..159]))
  }

  /** A buffer and the cursor the reading closures share. */
  class Cursor {
    const data: seq<u8>
    var o: nat

    constructor (data: seq<u8>, start: nat)
      ensures this.data == data && o == start
    {
      this.data := data;
      o := start;
    }

    /** Reading past the end yields `undefined`, which nobody gets to see: a later read throws. */
    method NextU8() returns (v: u8)
      modifies this
      ensures o == old(o) + 1
      ensures old(o) < |data| ==> v == data[old(o)]
    {
      v := if o < |data| then data[o] else 0;
      o := o + 1;
    }

    /** `subarray` clamps to the end of the buffer. */
    method NextPubkey() returns (k: Pubkey)
      modifies this
      ensures o == old(o) + 32
      ensures old(o) + 32 <= |data| ==> k == Pubkey(data[old(o)..old(o) + 32])
    {
      var from := if o <= |data| then o else |data|;
      var to := if o + 32 <= |data| then o + 32 else |data|;
      k := Pubkey(data[from..to]);
      o := o + 32;
    }

    method NextU64() returns (r: Result<u64, RangeError>)
      modifies this
      ensures if old(o) + 8 <= |data| then r == Ok(U64Le(data[old(o)..old(o) + 8])) && o == old(o) + 8
              else r == Err(RangeError)
    {
      if o + 8 > |data| {
        return Err(RangeError);
      }
      r := Ok(U64Le(data[o..o + 8]));
      o := o + 8;
    }

    method NextI64() returns (r: Result<i64, RangeError>)
      modifies this
      ensures if old(o) + 8 <= |data| then r == Ok(I64Le(data[old(o)..old(o) + 8])) && o == old(o) + 8
              else r == Err(RangeError)
    {
      if o + 8 > |data| {
        return Err(RangeError);
      }
      r := Ok(I64Le(data[o..o + 8]));
      o := o + 8;
    }

    method NextU32() returns (r: Result<u32, RangeError>)
      modifies this
      ensures if old(o) + 4 <= |data| then r == Ok(U32Le(data[old(o)..old(o) + 4])) && o == old(o) + 4
              else r == Err(RangeError)
    {
      if o + 4 > |data| {
        return Err(RangeError);
      }
      r := Ok(U32Le(data[o..o + 4]));
      o := o + 4;
    }
  }

  datatype Identity = Identity(status: u8, creator: Pubkey, seed: u64, mint: Pubkey)
  datatype Terms = Terms(launchAt: i64, graceEndsAt: i64, minRaise: u64, maxPool: u64, minContribution: u64)
  datatype Counters = Counters(totalContributed: u64, contributorCount: u32, tokensBought: u64, distributable: u64,
                               burned: u64)

  method ReadIdentity(c: Cursor) returns (r: Result<Identity, RangeError>)
    requires c.o == 8
    modifies c
    ensures r.Ok? <==> |c.data| >= 51
    ensures r.Ok? ==> c.o == 83
    ensures |c.data| >= 83 ==>
              r == Ok(Identity(c.data[10], Pubkey(c.data[11..43]), U64Le(c.data[43..51]), Pubkey(c.data[51..83])))
  {
    var _ := c.NextU8(); // bump
    var _ := c.NextU8(); // buyer_bump
    var status := c.NextU8();
    var creator := c.NextPubkey();
    var seed :- c.NextU64();
    var mint := c.NextPubkey();
    r := Ok(Identity(status, creator, seed, mint));
  }

  method ReadTerms(c: Cursor) returns (r: Result<Terms, RangeError>)
    requires c.o == 83
    modifies c
    ensures r.Ok? <==> |c.data| >= 123
    ensures r.Ok? ==> c.o == 123
    ensures r.Ok? ==> r.value == Terms(I64Le(c.data[83..91]), I64Le(c.data[91..99]), U64Le(c.data[99..107]),
                                       U64Le(c.data[107..115]), U64Le(c.data[115..123]))
  {
    var launchAt :- c.NextI64();
    var graceEndsAt :- c.NextI64();
    var minRaise :- c.NextU64();
    var maxPool :- c.NextU64();
    var minContribution :- c.NextU64();
    r := Ok(Terms(launchAt, graceEndsAt, minRaise, maxPool, minContribution));
  }

  method ReadCounters(c: Cursor) returns (r: Result<Counters, RangeError>)
    requires c.o == 123
    modifies c
    ensures r.Ok? <==> |c.data| >= READ_LEN
    ensures r.Ok? ==> r.value == Counters(U64Le(c.data[123..131]), U32Le(c.data[131..135]), U64Le(c.data[135..143]),
                                          U64Le(c.data[143..151]), U64Le(c.data[151..159]))
  {
    var totalContributed :- c.NextU64();
    var contributorCount :- c.NextU32();
    var tokensBought :- c.NextU64();
    var distributable :- c.NextU64();
    var burned :- c.NextU64();
    r := Ok(Counters(totalContributed, contributorCount, tokensBought, distributable, burned));
  }

  /** Fails exactly on buffers shorter than the fields it reads, and otherwise reads each field where it is. */
  method DecodePool(data: seq<u8>) returns (r: Result<DecodedPool, RangeError>)
    ensures |data| < READ_LEN ==> r.Err?
    ensures |data| >= READ_LEN ==> r == Ok(DecodedAt(data))
  {
    var c := new Cursor(data, 8);
    var a :- ReadIdentity(c);
    var b :- ReadTerms(c);
    var d :- ReadCounters(c);
    r := Ok(DecodedPool(a.status, NameOfStatus(a.status), a.creator, a.seed, a.mint, b.launchAt, b.graceEndsAt,
                        b.minRaise, b.maxPool, b.minContribution, d.totalContributed, d.contributorCount,
                        d.tokensBought, d.distributable, d.burned));
  }

  // ------------------------------------------------------------------ round trip

  lemma Blocks(discriminator: seq<u8>, p: Pool, rest: seq<u8>)
    requires |discriminator| == 8
    requires KeysWellFormed(p)
    ensures var data := EncodePool(discriminator, p) + rest;
            && data[8..83] == IdentityBytes(p)
            && data[83..123] == TermsBytes(p)
            && data[123..159] == CounterBytes(p)
  {
  }

  lemma IdentityFields(p: Pool)
    requires KeysWellFormed(p)
    ensures var b := IdentityBytes(p);
            && b[2] == StatusCode(p.status)
            && b[3..35] == p.creator.bytes
            && b[35..43] == U64Bytes(p.seed)
            && b[43..75] == p.mint.bytes
  {
  }

  lemma TermsFields(p: Pool)
    ensures var b := TermsBytes(p);
            && b[0..8] == I64Bytes(p.launchAt)
            && b[8..16] == I64Bytes(p.graceEndsAt)
            && b[16..24] == U64Bytes(p.minRaise)
            && b[24..32] == U64Bytes(p.maxPool)
            && b[32..40] == U64Bytes(p.minContribution)
  {
  }

  lemma CounterFields(p: Pool)
    ensures var b := CounterBytes(p);
            && b[0..8] == U64Bytes(p.totalContributed)
            && b[8..12] == U32Bytes(p.contributorCount)
            && b[12..20] == U64Bytes(p.tokensBought)
            && b[20..28] == U64Bytes(p.distributable)
            && b[28..36] == U64Bytes(p.burned)
  {
  }

  /** Decoding the encoded account gives back every field it names, for any discriminator and trailing bytes. */
  lemma PoolRoundTrip(discriminator: seq<u8>, p: Pool, rest: seq<u8>)
    requires |discriminator| == 8
    requires KeysWellFormed(p)
    ensures var data := EncodePool(discriminator, p) + rest;
            && |data| >= READ_LEN
            && DecodedAt(data)
               == DecodedPool(StatusCode(p.status), Some(StatusName(p.status)), p.creator, p.seed, p.mint, p.launchAt,
                              p.graceEndsAt, p.minRaise, p.maxPool, p.minContribution, p.totalContributed,
                              p.contributorCount, p.tokensBought, p.distributable, p.burned)
  {
    var data := EncodePool(discriminator, p) + rest;
    Blocks(discriminator, p, rest);
    IdentityFields(p);
    TermsFields(p);
    CounterFields(p);
    assert data[10] == data[8..83][2];
    SubSlice(data, 8, 83, 3, 35);
    SubSlice(data, 8, 83, 35, 43);
    SubSlice(data, 8, 83, 43, 75);
    SubSlice(data, 83, 123, 0, 8);
    SubSlice(data, 83, 123, 8, 16);
    SubSlice(data, 83, 123, 16, 24);
    SubSlice(data, 83, 123, 24, 32);
    SubSlice(data, 83, 123, 32, 40);
    SubSlice(data, 123, 159, 0, 8);
    SubSlice(data, 123, 159, 8, 12);
    SubSlice(data, 123, 159, 12, 20);
    SubSlice(data, 123, 159, 20, 28);
    SubSlice(data, 123, 159, 28, 36);
  }

  lemma AuditFields(p: Pool)
    ensures var b := AuditBytes(p);
            && b[0..8] == U64Bytes(p.postVirtualToken)
            && b[8..16] == U64Bytes(p.postVirtualQuote)
            && b[16..24] == U64Bytes(p.totalClaimed)
            && b[24..32] == U64Bytes(p.totalRefunded)
  {
  }

  /** The fields the decoder passes over are where state.rs declares them: the bumps first, the audit trail last. */
  lemma UnreadFields(discriminator: seq<u8>, p: Pool, rest: seq<u8>)
    requires |discriminator| == 8
    requires KeysWellFormed(p)
    ensures var data := EncodePool(discriminator, p) + rest;
            && data[..8] == discriminator
            && data[8] == p.bump
            && data[9] == p.buyerBump
            && U64Le(data[159..167]) == p.postVirtualToken
            && U64Le(data[167..175]) == p.postVirtualQuote
            && U64Le(data[175..183]) == p.totalClaimed
            && U64Le(data[183..191]) == p.totalRefunded
            && data[191..] == rest
  {
    var data := EncodePool(discriminator, p) + rest;
    assert data[8..83] == IdentityBytes(p);
    assert data[8] == data[8..83][0] && data[9] == data[8..83][1];
    assert data[159..191] == AuditBytes(p);
    AuditFields(p);
    SubSlice(data, 159, 191, 0, 8);
    SubSlice(data, 159, 191, 8, 16);
    SubSlice(data, 159, 191, 16, 24);
    SubSlice(data, 159, 191, 24, 32);
  }
}
