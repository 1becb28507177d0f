/**
 When each instruction succeeds, in states a pool can really be in. The program's remaining
 checks (counter overflows, lamport underflows, `MintAlreadySet`, the errors of the split
 arithmetic and so on) do not appear in these conditions: they never decide anything.
 */
module Guards {
  import opened Instructions
  import opened Invariants
  import opened Numbers
  import opened State

  import BurnMath
  import Bytes
  import CurveReserves
  import Sums
  import Wrappers

  lemma ContributeIff(c: Chain, u: Wallet, now: i64, amount: u64, recordBump: u8, recordRent: nat)
    requires Reachable(c)
    requires u != DEFAULT_PUBKEY
    ensures ContributeTx(c, u, now, amount, recordBump, recordRent).Committed?
       <==> && c.lifetime.Live?
            && c.pool.status.Open?
            && now < c.pool.launchAt
            && c.pool.minContribution <= amount
            && c.pool.totalContributed + amount <= c.pool.maxPool
            && (if u in c.contributions then 0 else recordRent) + amount <= Sums.Balance(c.wallets, u)
            && (u in c.contributions || c.pool.contributorCount < U32_MAX)
  {
    ReachableKeeps(c);
    if c.lifetime.Live? && u in c.contributions {
      assert RecordOk(c, u, c.contributions[u]);
      AmountBelowTotal(c, u);
    }
  }

  /** The status and time a transaction needs to succeed. */
  predicate Timely(c: Chain, tx: Tx) {
    var p, now := c.pool, tx.now;
    match tx.instruction
    case CreatePool(_, _, _, _, _, _, _, _) => c.lifetime.Absent?
    case Contribute(_, _, _) => c.lifetime.Live? && p.status.Open? && now < p.launchAt
    case BeginLaunch(_) => c.lifetime.Live? && p.status.Open? && p.launchAt <= now < p.graceEndsAt
    case CompleteBuy(_, _, _, _) => c.lifetime.Live? && (p.status.Bought? || MayBuy(p, now))
    case Finalize(_) => c.lifetime.Live? && p.status.Bought?
    case Claim => c.lifetime.Live? && p.status.Finalized?
    case Refund => c.lifetime.Live? && RefundAllowed(p, now)
    case MarkRefundable => c.lifetime.Live? && (p.status.Open? || p.status.Launching?) && p.graceEndsAt <= now
    case ClosePool => c.lifetime.Live? && p.totalContributed == 0
    case _ => true
  }

  /** Where a transaction that succeeds leaves status and lifetime. */
  function StatusAfter(s: PoolStatus, i: Instruction): PoolStatus {
    match i
    case CreatePool(_, _, _, _, _, _, _, _) => Open
    case BeginLaunch(_) => Launching
    case CompleteBuy(_, _, _, _) => Bought
    case Finalize(_) => PoolStatus.Finalized
    case Refund => Refundable
    case MarkRefundable => Refundable
    case _ => s
  }

  function LifetimeAfter(l: Lifetime, i: Instruction): Lifetime {
    if i.CreatePool? then Live else if i.ClosePool? then Gone else l
  }

  lemma DepositMoves(c: Chain, u: Wallet, now: i64, amount: u64, recordBump: u8, recordRent: nat)
    requires ContributeTx(c, u, now, amount, recordBump, recordRent).Committed?
    ensures var c' := ContributeTx(c, u, now, amount, recordBump, recordRent).after;
            c'.pool.status == c.pool.status && c'.lifetime == c.lifetime
  {
  }

  lemma CommittedMoves(c: Chain, tx: Tx)
    requires Step(c, tx).Committed?
    ensures Step(c, tx).after.pool.status == StatusAfter(c.pool.status, tx.instruction)
    ensures Step(c, tx).after.lifetime == LifetimeAfter(c.lifetime, tx.instruction)
  {
    match tx.instruction
    case Contribute(amount, bump, rent) => DepositMoves(c, tx.signer, tx.now, amount, bump, rent);
    case _ =>
  }

  lemma CommittedTimely(c: Chain, tx: Tx)
    requires Step(c, tx).Committed?
    ensures Timely(c, tx)
  {
  }

  lemma BeginLaunchIff(c: Chain, now: i64, mint: Pubkey)
    requires Reachable(c)
    ensures BeginLaunchTx(c, now, mint).Committed?
       <==> && c.lifetime.Live?
            && c.pool.status.Open?
            && mint != DEFAULT_PUBKEY
            && c.pool.launchAt <= now < c.pool.graceEndsAt
            && c.pool.minRaise <= c.pool.totalContributed
  {
    ReachableKeeps(c);
  }

  /** The status and time guards of the buying path of `complete_buy`. */
  predicate MayBuy(p: Pool, now: i64) {
    p.status.Launching? && now < p.graceEndsAt
  }

  /** The pump accepts the pool's whole escrow and delivers. */
  predicate PumpAccepts(c: Chain, i: Instruction)
    requires i.CompleteBuy?
  {
    && i.pump.PumpFills?
    && i.pump.spent <= c.pool.totalContributed
    && i.pump.vaultAfter > c.vault
    && i.pump.vaultAfter >= c.vault + i.minTokensOut
  }

  predicate CurveLanded(curve: CurveAccount) {
    |curve.data| > 0 && curve.ownedByPump
  }

  predicate BuyGoesThrough(c: Chain, now: i64, i: Instruction)
    requires i.CompleteBuy?
  {
    MayBuy(c.pool, now) && i.buyMint == c.pool.mint && CurveLanded(i.curve) && PumpAccepts(c, i)
  }

  /** From Bought on the call changes nothing; before, it is the buy. */
  lemma BuyIff(c: Chain, now: i64, i: Instruction)
    requires i.CompleteBuy?
    requires Reachable(c)
    ensures CompleteBuyTx(c, now, i).Committed?
       <==> && c.lifetime.Live?
            && (c.pool.status.Bought? || BuyGoesThrough(c, now, i))
  {
    ReachableKeeps(c);
  }

  /**
   Virtual token and quote reserves as the curve's bytes hold them, little-endian at 8 and at 16; an
   account too short for its reserves leaves the price of the buy.
   */
  function PriceIn(p: Pool, data: seq<u8>): (u64, u64) {
    if |data| >= 40 then (Bytes.U64Le(data[8..16]), Bytes.U64Le(data[16..24]))
    else (p.postVirtualToken, p.postVirtualQuote)
  }

  lemma PriceRead(p: Pool, data: seq<u8>)
    ensures ReservesFor(p, data) == PriceIn(p, data)
  {
    if |data| >= 40 {
      var d := data[8..];
      assert d[0..8] == data[8..16] && d[8..16] == data[16..24];
    }
  }

  lemma FinalizeIff(c: Chain, curveData: seq<u8>)
    requires Reachable(c)
    ensures FinalizeTx(c, curveData).Committed?
       <==> && c.lifetime.Live?
            && c.pool.status.Bought?
            && PriceIn(c.pool, curveData).0 > 0
            && PriceIn(c.pool, curveData).1 > 0
  {
    ReachableKeeps(c);
    FinalizePasses(c, curveData);
  }

  lemma FinalizePasses(c: Chain, curveData: seq<u8>)
    requires Inv(c)
    ensures FinalizeTx(c, curveData).Committed?
       <==> && c.lifetime.Live?
            && c.pool.status.Bought?
            && PriceIn(c.pool, curveData).0 > 0
            && PriceIn(c.pool, curveData).1 > 0
  {
    PriceRead(c.pool, curveData);
    if c.lifetime.Live? && c.pool.status.Bought? {
      var (vtok, vquote) := PriceIn(c.pool, curveData);
      BurnMath.SplitIsExhaustive(c.pool.totalContributed, c.pool.tokensBought, vtok, vquote);
    }
  }

  /** Whatever bytes surround them, the reserves in the account handed in are stored and set the price. */
  lemma FinalizeAtPrice(c: Chain, discriminator: seq<u8>, r: CurveReserves.Reserves, rest: seq<u8>)
    requires |discriminator| == 8
    requires FinalizeTx(c, discriminator + CurveReserves.EncodeReserves(r) + rest).Committed?
    ensures var p := FinalizeTx(c, discriminator + CurveReserves.EncodeReserves(r) + rest).after.pool;
            && p.postVirtualToken == r.virtualToken
            && p.postVirtualQuote == r.virtualQuote
            && BurnMath.ComputeDistributable(c.pool.totalContributed, c.pool.tokensBought, r.virtualToken,
                                             r.virtualQuote)
               == Wrappers.Ok(BurnMath.Split(p.distributable, p.burned))
  {
    CurveReserves.ReservesRoundTrip(discriminator, r, rest);
  }

  /** The buy records what the vault gained and the reserves then in the curve account. */
  lemma BuySnapshots(c: Chain, now: i64, i: Instruction, discriminator: seq<u8>, r: CurveReserves.Reserves,
                     rest: seq<u8>)
    requires i.CompleteBuy?
    requires !c.pool.status.Bought?
    requires CompleteBuyTx(c, now, i).Committed?
    requires |discriminator| == 8
    requires i.pump.PumpFills? && i.pump.curveAfter == discriminator + CurveReserves.EncodeReserves(r) + rest
    ensures var c' := CompleteBuyTx(c, now, i).after;
            && c'.vault == c.vault + c'.pool.tokensBought
            && c'.pool.tokensBought > 0
            && c'.pool.postVirtualToken == r.virtualToken
            && c'.pool.postVirtualQuote == r.virtualQuote
            && c'.poolLamports + c'.buyerLamports + c'.outside == c.poolLamports + c.buyerLamports + c.outside
            && c'.buyerLamports >= c.buyerLamports
  {
    CurveReserves.ReservesRoundTrip(discriminator, r, rest);
  }

  lemma RefundIff(c: Chain, u: Wallet, now: i64)
    requires Reachable(c)
    ensures RefundTx(c, u, now).Committed?
       <==> && c.lifetime.Live?
            && RefundAllowed(c.pool, now)
            && u in c.contributions
            && !c.contributions[u].refunded
  {
    ReachableKeeps(c);
    RefundPasses(c, u, now);
  }

  lemma RefundPasses(c: Chain, u: Wallet, now: i64)
    requires Inv(c)
    ensures RefundTx(c, u, now).Committed?
       <==> && c.lifetime.Live?
            && RefundAllowed(c.pool, now)
            && u in c.contributions
            && !c.contributions[u].refunded
  {
    if c.lifetime.Live? && u in c.contributions {
      assert RecordOk(c, u, c.contributions[u]);
      AmountBelowTotal(c, u);
      Sums.SumBounds(c.wallets, u);
    }
  }

  /** Some share is due, or the whole pool distributes nothing. */
  predicate Payable(c: Chain, u: Wallet) {
    && c.lifetime.Live?
    && c.pool.status.Finalized?
    && c.pool.totalContributed > 0
    && u in c.contributions
    && !c.contributions[u].claimed
    && (ShareOf(c, u) > 0 || c.pool.distributable == 0)
  }

  lemma ClaimIff(c: Chain, u: Wallet)
    requires Reachable(c)
    ensures ClaimTx(c, u).Committed? <==> Payable(c, u)
  {
    ReachableKeeps(c);
    ClaimPasses(c, u);
  }

  /** What is still due, together with what was paid, stays within what is distributed. */
  lemma ClaimsCovered(c: Chain)
    requires TotalsOk(c) && FinalOk(c)
    requires c.pool.status.Finalized?
    ensures var d, total := c.pool.distributable, c.pool.totalContributed;
            var all := Sums.Sum(BurnMath.Shares(Amounts(c.contributions), d, total));
            c.pool.totalClaimed <= all <= c.pool.distributable < all + |c.contributions|
  {
    var d, total := c.pool.distributable, c.pool.totalContributed;
    var amounts := Amounts(c.contributions);
    BurnMath.DustBound(amounts, d);
    assert |amounts| == |c.contributions| by {
      assert amounts.Keys == c.contributions.Keys;
    }
    Sums.SumMonotone(Paid(c.contributions, d, total), BurnMath.Shares(amounts, d, total));
  }

  /** One more claim still fits. */
  lemma UnclaimedShareFits(c: Chain, u: Wallet)
    requires TotalsOk(c) && FinalOk(c)
    requires c.pool.status.Finalized?
    requires u in c.contributions && !c.contributions[u].claimed
    ensures c.pool.totalClaimed + ShareOf(c, u) <= c.pool.distributable
  {
    var d, total := c.pool.distributable, c.pool.totalContributed;
    var amounts := Amounts(c.contributions);
    var paid := Paid(c.contributions, d, total);
    Sums.SumUpdate(paid, u, ShareOf(c, u));
    Sums.SumMonotone(paid[u := ShareOf(c, u)], BurnMath.Shares(amounts, d, total));
    ClaimsCovered(c);
  }

  lemma ClaimPasses(c: Chain, u: Wallet)
    requires Inv(c)
    ensures ClaimTx(c, u).Committed? <==> Payable(c, u)
  {
    if c.lifetime.Live? && c.pool.status.Finalized? && u in c.contributions {
      assert RecordOk(c, u, c.contributions[u]);
      AmountBelowTotal(c, u);
      BurnMath.AllocationIsShare(c.pool.distributable, c.contributions[u].amount, c.pool.totalContributed);
      if !c.contributions[u].claimed {
        UnclaimedShareFits(c, u);
      }
    }
  }

  /** A close needs the creator, a pool that failed to launch, and every deposit given back. */
  lemma CloseIff(c: Chain, u: Wallet)
    requires Reachable(c)
    ensures ClosePoolTx(c, u).Committed?
       <==> && c.lifetime.Live?
            && u == c.pool.creator
            && c.pool.status.Refundable?
            && (forall v :: v in c.contributions ==> c.contributions[v].refunded)
  {
    ReachableKeeps(c);
    ClosePasses(c, u);
  }

  lemma ClosePasses(c: Chain, u: Wallet)
    requires Inv(c)
    ensures ClosePoolTx(c, u).Committed?
       <==> && c.lifetime.Live?
            && u == c.pool.creator
            && c.pool.status.Refundable?
            && (forall v :: v in c.contributions ==> c.contributions[v].refunded)
  {
    if c.lifetime.Live? {
      Sums.SumBounds(c.wallets, u);
      EmptyIffRefunded(c);
    }
  }

  lemma EmptyIffRefunded(c: Chain)
    requires LiveOk(c)
    ensures c.pool.totalContributed == 0 <==> forall v :: v in c.contributions ==> c.contributions[v].refunded
  {
    var amounts := Amounts(c.contributions);
    Sums.SumZero(amounts);
    forall v | v in c.contributions
      ensures amounts[v] == 0 <==> c.contributions[v].refunded
    {
      assert RecordOk(c, v, c.contributions[v]);
    }
  }
}
