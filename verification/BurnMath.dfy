/**
 The burn and split arithmetic of the program (math.rs, 64-bit with 128-bit
 intermediates) and of its TypeScript mirror (burn.ts, unbounded).
 */
module BurnMath {
  import opened Errors
  import opened Numbers
  import opened Sums
  import opened Wrappers

  /** What is claimable and what is burned of the tokens bought. */
  datatype Split = Split(distributable: u64, burned: u64)

  // ------------------------------------------------------------------ math.rs

  function ComputeDistributable(total: u64, bought: u64, vtok: u64, vquote: u64): Result<Split, Error> {
    if bought == 0 then Err(ZeroTokensBought) else
    if vquote == 0 then Err(MathOverflow) else
    if total == 0 then Err(ZeroAmount) else
    var num := total * vtok;
    ProductFits(total, vtok);
    if num >= TWO_128 then Err(MathOverflow)
    else
      var quotient := AsU64(num / vquote);
      var distributable := if quotient > bought then bought else quotient;
      if distributable > bought then Err(MathOverflow)
      else Ok(Split(distributable, bought - distributable))
  }

  function Allocation(distributable: u64, contribution: u64, total: u64): Result<u64, Error> {
    if total == 0 then Err(ZeroAmount)
    else if contribution == 0 || distributable == 0 then Ok(0)
    else
      ProductFits(distributable, contribution);
      var n := distributable * contribution;
      if n >= TWO_128 then Err(MathOverflow) else Ok(AsU64(n / total))
  }

  /** A product of two u64 values needs no more than 128 bits. */
  lemma ProductFits(a: u64, b: u64)
    ensures 0 <= a * b < TWO_128
  {
    MulMonotone(a, U64_MAX, b);
    MulMonotone(b, U64_MAX, U64_MAX);
  }

  // ------------------------------------------------------------------ burn.ts

  datatype Breakdown = Breakdown(distributable: int, burned: int, totalContributed: int, tokensBought: int,
                                 postVirtualTokenReserves: int, postVirtualQuoteReserves: int)

  function ComputeDistributableTs(total: int, bought: int, vtok: int, vquote: int): Result<Breakdown, string> {
    if bought <= 0 then Err("zero tokens bought") else
    if vquote <= 0 then Err("zero quote reserves") else
    if total <= 0 then Err("zero contribution") else
    var quotient := TruncDiv(total * vtok, vquote);
    var distributable := if quotient > bought then bought else quotient;
    Ok(Breakdown(distributable, bought - distributable, total, bought, vtok, vquote))
  }

  function AllocationTs(distributable: int, contribution: int, total: int): Result<int, string> {
    if total <= 0 then Err("zero total")
    else if contribution <= 0 || distributable <= 0 then Ok(0)
    else Ok(TruncDiv(distributable * contribution, total))
  }

  // ------------------------------------------------- what the split guarantees

  /** The quotient before truncation to 64 bits and before the cap. */
  function Quotient(total: u64, vtok: u64, vquote: u64): nat
    requires vquote > 0
  {
    ProductFits(total, vtok);
    FloorIsLargest(total * vtok, vquote, 0);
    total * vtok / vquote
  }

  /** Failure depends on three zero tests only, and every token bought is either claimable or burned. */
  lemma SplitIsExhaustive(total: u64, bought: u64, vtok: u64, vquote: u64)
    ensures ComputeDistributable(total, bought, vtok, vquote).Ok? <==> bought > 0 && vquote > 0 && total > 0
    ensures var r := ComputeDistributable(total, bought, vtok, vquote);
            r.Ok? ==> r.value.distributable + r.value.burned == bought && r.value.distributable <= bought
  {
    ProductFits(total, vtok);
  }

  /** A mirror's failure is the program's failure when they test the same thing. */
  function TsMessage(e: Error): string {
    match e
    case ZeroTokensBought => "zero tokens bought"
    case MathOverflow => "zero quote reserves"
    case ZeroAmount => "zero contribution"
    case _ => ""
  }

  /** The same split, the mirror echoing its inputs beside it, or the same failure. */
  predicate SameSplit(r: Result<Split, Error>, ts: Result<Breakdown, string>, total: u64, bought: u64, vtok: u64,
                      vquote: u64)
  {
    match r
    case Ok(s) => ts == Ok(Breakdown(s.distributable, s.burned, total, bought, vtok, vquote))
    case Err(e) => ts == Err(TsMessage(e))
  }

  /**
   The program and the mirror agree, failures included, exactly when the truncation to
   64 bits is harmless: the quotient fits, or what is left of it still reaches the cap.
   */
  lemma SplitMirrorIff(total: u64, bought: u64, vtok: u64, vquote: u64)
    ensures SameSplit(ComputeDistributable(total, bought, vtok, vquote),
                      ComputeDistributableTs(total, bought, vtok, vquote), total, bought, vtok, vquote)
       <==> (bought == 0 || vquote == 0 || total == 0
             || Quotient(total, vtok, vquote) < TWO_64
             || Quotient(total, vtok, vquote) % TWO_64 >= bought)
  {
    ProductFits(total, vtok);
  }

  /** A pool no larger than the curve's quote reserves never truncates. */
  lemma QuoteCoversTotal(total: u64, vtok: u64, vquote: u64)
    requires 0 < vquote
    requires total <= vquote
    ensures Quotient(total, vtok, vquote) <= vtok < TWO_64
  {
    MulMonotone(total, vquote, vtok);
    DivMonotone(total * vtok, vtok * vquote, vquote);
    FloorIsLargest(vtok * vquote, vquote, vtok + 1);
    assert (vtok + 1) * vquote == vtok * vquote + vquote;
  }

  /** Without that bound the two differ: here the program burns everything and the mirror nothing. */
  lemma SplitMirrorFails()
    ensures var total, bought, vtok, vquote := 0x1_0000_0000, 7, 0x1_0000_0000, 1;
            && ComputeDistributable(total, bought, vtok, vquote) == Ok(Split(0, 7))
            && ComputeDistributableTs(total, bought, vtok, vquote) == Ok(Breakdown(7, 0, total, bought, vtok, vquote))
  {
  }

  /** Uncapped and untruncated, `distributable` is the largest amount the pool's SOL pays for at the final price. */
  lemma LargestAffordable(total: u64, bought: u64, vtok: u64, vquote: u64, d: nat)
    requires ComputeDistributable(total, bought, vtok, vquote).Ok?
    requires Quotient(total, vtok, vquote) <= bought
    ensures var split := ComputeDistributable(total, bought, vtok, vquote).value;
            d <= split.distributable <==> d * vquote <= total * vtok
  {
    ProductFits(total, vtok);
    FloorIsLargest(total * vtok, vquote, d);
  }

  /** At the final price the claimable tokens are never worth more than was paid in, cap and truncation included. */
  lemma ValueNeverExceedsTotal(total: u64, bought: u64, vtok: u64, vquote: u64)
    requires vtok > 0
    requires ComputeDistributable(total, bought, vtok, vquote).Ok?
    ensures ComputeDistributable(total, bought, vtok, vquote).value.distributable * vquote / vtok <= total
  {
    ProductFits(total, vtok);
    var q := Quotient(total, vtok, vquote);
    var d := ComputeDistributable(total, bought, vtok, vquote).value.distributable;
    assert d <= AsU64(q) <= q;
    FloorIsLargest(total * vtok, vquote, d);
    FloorIsLargest(d * vquote, vtok, total + 1);
    assert (total + 1) * vtok == total * vtok + vtok;
  }

  /** Uncapped and untruncated, the shortfall is at most the quote value of one token, rounded. */
  lemma CostBasisTight(total: u64, bought: u64, vtok: u64, vquote: u64)
    requires vtok > 0
    requires ComputeDistributable(total, bought, vtok, vquote).Ok?
    requires Quotient(total, vtok, vquote) <= bought
    ensures var d := ComputeDistributable(total, bought, vtok, vquote).value.distributable;
            0 <= total - d * vquote / vtok <= vquote / vtok + 1
  {
    ValueNeverExceedsTotal(total, bought, vtok, vquote);
    ProductFits(total, vtok);
    var d := Quotient(total, vtok, vquote);
    var value := d * vquote / vtok;
    var unit := vquote / vtok;
    FloorBounds(total * vtok, vquote);
    FloorBounds(d * vquote, vtok);
    FloorBounds(vquote, vtok);
    assert (total - value - unit - 2) * vtok == total * vtok - value * vtok - unit * vtok - 2 * vtok;
    if total - value >= unit + 2 {
      MulMonotone(0, total - value - unit - 2, vtok);
    }
  }

  lemma Distribute(k: int, x: int, y: int)
    ensures k * (x + y) == (x + y) * k == k * x + k * y == x * k + y * k
  {
  }

  lemma FloorBetween(x: int, paid: nat, n: nat, total: nat)
    requires 0 < total
    requires 0 < n
    requires 0 <= x - paid * total <= n * (total - 1)
    ensures paid <= x / total <= paid + n - 1
  {
    Distribute(n, total, -1);
    Distribute(total, paid, n);
    FloorIsLargest(x, total, paid);
    FloorIsLargest(x, total, paid + n);
  }

  /** Virtual token and quote reserves at which a pool's total pays for exactly `d` tokens. */
  function PriceFor(total: u64, d: u64): (u64, u64) {
    if d > 0 then (d, total)
    else if total < U64_MAX then (1, U64_MAX)
    else (0x8000_0000_0000_0001, 0x8000_0000_0000_0000)
  }

  /** Every split of the tokens bought comes out at some price; nothing at all even for the largest total. */
  lemma EverySplitHasAPrice(total: u64, bought: u64, d: u64)
    requires 0 < total
    requires 0 < bought
    requires d <= bought
    ensures var (vtok, vquote) := PriceFor(total, d);
            && vtok > 0 && vquote > 0
            && ComputeDistributable(total, bought, vtok, vquote) == Ok(Split(d, bought - d))
  {
    var (vtok, vquote) := PriceFor(total, d);
    ProductFits(total, vtok);
    if d > 0 {
      FloorIsLargest(total * d, total, d);
      FloorIsLargest(total * d, total, d + 1);
      assert (d + 1) * total == total * d + total;
    }
  }

  // --------------------------------------------------------- pro-rata shares

  /** A share, for a pool whose total is positive and a contribution within it. */
  function Share(distributable: nat, contribution: nat, total: nat): nat
    requires total > 0
  {
    distributable * contribution / total
  }

  predicate SameShare(r: Result<u64, Error>, ts: Result<int, string>) {
    match r
    case Ok(n) => ts == Ok(n)
    case Err(e) => e == ZeroAmount && ts == Err("zero total")
  }

  /** `allocation` agrees with its mirror exactly when the share fits 64 bits. */
  lemma AllocationMirrorIff(distributable: u64, contribution: u64, total: u64)
    ensures SameShare(Allocation(distributable, contribution, total), AllocationTs(distributable, contribution, total))
       <==> total == 0 || Share(distributable, contribution, total) < TWO_64
  {
    ProductFits(distributable, contribution);
    if total > 0 {
      if contribution == 0 || distributable == 0 {
        assert distributable * contribution == 0;
      } else {
        FloorIsLargest(distributable * contribution, total, 0);
      }
    }
  }

  /** A share of a contribution within the total never exceeds what is distributed, so nothing is truncated. */
  lemma AllocationIsShare(distributable: u64, contribution: u64, total: u64)
    requires 0 < total
    requires contribution <= total
    ensures Allocation(distributable, contribution, total) == Ok(Share(distributable, contribution, total))
    ensures 0 <= Share(distributable, contribution, total) <= distributable
  {
    if contribution == 0 || distributable == 0 {
      assert distributable * contribution == 0;
    } else {
      ProductFits(distributable, contribution);
      MulMonotone(contribution, total, distributable);
      Distribute(total, distributable, 1);
      FloorIsLargest(distributable * contribution, total, distributable + 1);
      FloorIsLargest(distributable * contribution, total, 0);
    }
  }

  /** Outside that range it is truncated: a share of 2^64 comes out as nothing. */
  lemma AllocationMirrorFails()
    ensures Allocation(0x1_0000_0000, 0x1_0000_0000, 1) == Ok(0)
    ensures AllocationTs(0x1_0000_0000, 0x1_0000_0000, 1) == Ok(TWO_64)
  {
  }

  /** A larger contribution never gets less. */
  lemma ShareMonotone(distributable: nat, c: nat, c': nat, total: nat)
    requires 0 < total
    requires c <= c'
    ensures Share(distributable, c, total) <= Share(distributable, c', total)
  {
    MulMonotone(c, c', distributable);
    DivMonotone(distributable * c, distributable * c', total);
  }

  /** Splitting a stake in two never gains and loses at most one token. */
  lemma SplittingNeverPays(distributable: nat, c: nat, c': nat, total: nat)
    requires 0 < total
    ensures var whole := Share(distributable, c + c', total);
            var parts := Share(distributable, c, total) + Share(distributable, c', total);
            parts <= whole <= parts + 1
  {
    var x, y := distributable * c, distributable * c';
    FloorBounds(x, total);
    FloorBounds(y, total);
    Distribute(total, x / total, y / total);
    Distribute(distributable, c, c');
    FloorBetween(x + y, x / total + y / total, 2, total);
  }

  /** Cross-multiplied, two shares deviate from strict proportion by less than the opposite stakes. */
  lemma ShareFairness(distributable: nat, c: nat, c': nat, total: nat)
    requires 0 < total
    requires 0 < c
    requires 0 < c'
    ensures Share(distributable, c, total) * c' < (Share(distributable, c', total) + 1) * c
    ensures Share(distributable, c', total) * c < (Share(distributable, c, total) + 1) * c'
  {
    var a, a' := Share(distributable, c, total), Share(distributable, c', total);
    FloorBounds(distributable * c, total);
    FloorBounds(distributable * c', total);
    assert (a + 1) * total == a * total + total;
    assert (a' + 1) * total == a' * total + total;
    CrossMultiply(a, a' + 1, c, c', distributable, total);
    CrossMultiply(a', a + 1, c', c, distributable, total);
  }

  lemma CrossMultiply(a: nat, b: nat, c: nat, c': nat, d: nat, total: nat)
    requires 0 < total
    requires 0 < c
    requires a * total <= d * c
    requires d * c' < b * total
    ensures a * c' < b * c
  {
    MulMonotone(a * total, d * c, c');
    MulMonotone(d * c' + 1, b * total, c);
    assert a * total * c' == (a * c') * total;
    assert d * c * c' == d * c' * c;
    assert b * total * c == (b * c) * total;
    assert (d * c' + 1) * c == d * c' * c + c;
    if a * c' >= b * c {
      MulMonotone(b * c, a * c', total);
    }
  }

  // ----------------------------------------------------- dust over n accounts

  /** Everybody's share. */
  function Shares<K>(amounts: map<K, nat>, distributable: nat, total: nat): map<K, nat>
    requires total > 0
  {
    map k | k in amounts :: Share(distributable, amounts[k], total)
  }

  /** What rounding down leaves behind of `n` shares, scaled by the total. */
  predicate WithinRounding(d: nat, amount: nat, paid: nat, n: nat, total: nat) {
    0 <= d * amount - paid * total <= n * (total - 1)
  }

  /** Rounding losses add up: `n` floors fall short of the exact product by less than `total` each. */
  lemma {:induction false} RoundingAddsUp<K(!new)>(amounts: map<K, nat>, shares: map<K, nat>, d: nat, total: nat)
    requires total > 0
    requires amounts.Keys == shares.Keys
    requires forall k :: k in amounts ==> WithinRounding(d, amounts[k], shares[k], 1, total)
    ensures WithinRounding(d, Sum(amounts), Sum(shares), |amounts|, total)
    decreases |amounts|
  {
    if amounts == map[] {
      assert shares == map[];
    } else {
      var k :| k in amounts;
      var restA, restS := amounts - {k}, shares - {k};
      assert |restA| == |amounts| - 1;
      RoundingAddsUp(restA, restS, d, total);
      SumRemove(amounts, k);
      SumRemove(shares, k);
      RoundingStep(d, amounts[k], shares[k], Sum(restA), Sum(restS), |restA|, total);
    }
  }

  lemma RoundingStep(d: nat, amount: nat, share: nat, others: nat, paid: nat, n: nat, total: nat)
    requires total > 0
    requires WithinRounding(d, amount, share, 1, total)
    requires WithinRounding(d, others, paid, n, total)
    ensures WithinRounding(d, amount + others, share + paid, n + 1, total)
  {
    Distribute(d, amount, others);
    Distribute(total, share, paid);
    Distribute(total - 1, n, 1);
  }

  /** Everybody's shares together, against the exact product. */
  lemma SharesRound<K(!new)>(amounts: map<K, nat>, d: nat, total: nat)
    requires total > 0
    ensures WithinRounding(d, Sum(amounts), Sum(Shares(amounts, d, total)), |amounts|, total)
  {
    forall k | k in amounts
      ensures WithinRounding(d, amounts[k], Share(d, amounts[k], total), 1, total)
    {
      FloorBounds(d * amounts[k], total);
    }
    RoundingAddsUp(amounts, Shares(amounts, d, total), d, total);
  }

  /** The floors never exceed what is distributed, and fall short of it by less than the number of contributors. */
  lemma DustBound<K(!new)>(amounts: map<K, nat>, d: nat)
    requires Sum(amounts) > 0
    ensures 0 <= d - Sum(Shares(amounts, d, Sum(amounts))) < |amounts|
  {
    var total := Sum(amounts);
    SharesRound(amounts, d, total);
    NotEmpty(amounts);
    DustStep(d, Sum(Shares(amounts, d, total)), |amounts|, total);
  }

  /** Splitting a stake any number of ways never gains and loses less than one token for each part. */
  lemma SplittingManyWays<K(!new)>(parts: map<K, nat>, d: nat, total: nat)
    requires 0 < total
    requires parts != map[]
    ensures var split := Sum(Shares(parts, d, total));
            split <= Share(d, Sum(parts), total) <= split + |parts| - 1
  {
    SharesRound(parts, d, total);
    assert |parts| > 0 by {
      assert parts.Keys != {};
    }
    FloorBetween(d * Sum(parts), Sum(Shares(parts, d, total)), |parts|, total);
  }

  lemma NotEmpty<K(!new)>(amounts: map<K, nat>)
    requires Sum(amounts) > 0
    ensures |amounts| > 0
  {
    var k :| k in amounts;
    assert amounts.Keys != {};
  }

  lemma DustStep(d: nat, paid: nat, n: nat, total: nat)
    requires total > 0
    requires n > 0
    requires WithinRounding(d, total, paid, n, total)
    ensures 0 <= d - paid < n
  {
    Distribute(total, d - paid, paid);
    Distribute(n, total, -1);
    if d - paid < 0 {
      MulMonotone(d - paid, -1, total);
    } else if d - paid >= n {
      MulMonotone(n, d - paid, total);
    }
  }
}
