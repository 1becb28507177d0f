/**
 What the first caller decides: the mint a pool buys, and the price at which it is finalized.
 The program reads that price from whatever account the caller passes as the bonding curve,
 so the promise that nobody can change what there is to distribute holds only for callers who
 pass the mint's own curve.
 */
module FinalPrice {
  import opened Instructions
  import opened Invariants
  import opened Numbers
  import opened State

  import BurnMath
  import CurveReserves
  import Guards
  import Wrappers

  /**
   The finalized pool's split is the one at the price in `curve`, and it says so; a curve
   too short to hold its reserves leaves the price of the buy.
   */
  predicate PricedAt(before: Pool, after: Pool, curve: seq<u8>) {
    var (vtok, vquote) := Guards.PriceIn(before, curve);
    && after.postVirtualToken == vtok
    && after.postVirtualQuote == vquote
    && BurnMath.ComputeDistributable(after.totalContributed, after.tokensBought, vtok, vquote)
       == Wrappers.Ok(BurnMath.Split(after.distributable, after.burned))
  }

  /** What a caller can check beforehand: the virtual reserves in the account handed in are the curve's. */
  predicate SameVirtualReserves(p: Pool, data: seq<u8>, curve: seq<u8>) {
    if |data| >= 40 && |curve| >= 40 then data[8..24] == curve[8..24]
    else Guards.PriceIn(p, data) == Guards.PriceIn(p, curve)
  }

  /** The split is at the curve's price exactly when the account handed in carries the curve's virtual reserves. */
  lemma PricedAtCurveIff(c: Chain, data: seq<u8>, curve: seq<u8>)
    requires FinalizeTx(c, data).Committed?
    ensures PricedAt(c.pool, FinalizeTx(c, data).after.pool, curve) <==> SameVirtualReserves(c.pool, data, curve)
  {
    Guards.PriceRead(c.pool, data);
    Guards.PriceRead(c.pool, curve);
    if |data| >= 40 && |curve| >= 40 {
      CurveReserves.SamePrice(data, curve);
    }
  }

  /**
   Which mint the pool buys, and the least it accepts for its whole escrow, are up to whoever comes
   first: from every reachable open pool that has met its raise, in the launch window, any two
   signers commit it to any mint and buy that one on any terms the pump accepts.
   */
  lemma MintIsCallersChoice(c: Chain, launcher: Wallet, buyer: Wallet, now: i64, later: i64, i: Instruction)
    requires Reachable(c)
    requires c.lifetime.Live? && c.pool.status.Open?
    requires c.pool.minRaise <= c.pool.totalContributed
    requires c.pool.launchAt <= now <= later < c.pool.graceEndsAt
    requires launcher != DEFAULT_PUBKEY && buyer != DEFAULT_PUBKEY
    requires i.CompleteBuy? && i.buyMint != DEFAULT_PUBKEY
    requires Guards.CurveLanded(i.curve) && Guards.PumpAccepts(c, i)
    ensures var txs := [Tx(launcher, now, BeginLaunch(i.buyMint)), Tx(buyer, later, i)];
            && AllCommit(c, txs)
            && Run(c, txs).pool.status.Bought?
            && Run(c, txs).pool.mint == i.buyMint
            && Run(c, txs).pool.tokensBought == i.pump.vaultAfter - c.vault
            && Run(c, txs).poolLamports + c.pool.totalContributed == c.poolLamports
  {
    var begin, buy := Tx(launcher, now, BeginLaunch(i.buyMint)), Tx(buyer, later, i);
    Guards.BeginLaunchIff(c, now, i.buyMint);
    var launched := Next(c, begin);
    ReachableNext(c, begin);
    Guards.BuyIff(launched, later, i);
    assert [begin, buy][1..] == [buy];
    assert Run(c, [begin, buy]) == Run(launched, [buy]) == Next(launched, buy);
  }

  /** Handed these bytes, `finalize` goes through and leaves `d` tokens to be claimed. */
  predicate SplitsAt(c: Chain, data: seq<u8>, d: int) {
    && FinalizeTx(c, data).Committed?
    && FinalizeTx(c, data).after.pool.distributable == d
    && FinalizeTx(c, data).after.pool.burned == c.pool.tokensBought - d
  }

  /** Account data that reads as the price at which a pool's total pays for `d` tokens. */
  function DataFor(total: u64, d: u64): seq<u8> {
    var (vtok, vquote) := BurnMath.PriceFor(total, d);
    seq(8, _ => 0) + CurveReserves.EncodeReserves(CurveReserves.Reserves(vtok, vquote, 0, 0))
  }

  lemma DataReads(p: Pool, total: u64, d: u64)
    ensures ReservesFor(p, DataFor(total, d)) == BurnMath.PriceFor(total, d) == Guards.PriceIn(p, DataFor(total, d))
  {
    var (vtok, vquote) := BurnMath.PriceFor(total, d);
    CurveReserves.ReservesRoundTrip(seq(8, _ => 0), CurveReserves.Reserves(vtok, vquote, 0, 0), []);
    assert DataFor(total, d) == DataFor(total, d) + [];
    Guards.PriceRead(p, DataFor(total, d));
  }

  lemma BoughtHolds(c: Chain)
    requires Reachable(c)
    requires c.lifetime.Live? && c.pool.status.Bought?
    ensures c.pool.totalContributed > 0 && c.pool.tokensBought > 0
  {
    ReachableKeeps(c);
  }

  lemma DataSplits(c: Chain, d: u64)
    requires Reachable(c)
    requires c.lifetime.Live? && c.pool.status.Bought?
    requires d <= c.pool.tokensBought
    ensures SplitsAt(c, DataFor(c.pool.totalContributed, d), d)
  {
    var total, bought := c.pool.totalContributed, c.pool.tokensBought;
    BoughtHolds(c);
    BurnMath.EverySplitHasAPrice(total, bought, d);
    DataReads(c.pool, total, d);
    Guards.FinalizeIff(c, DataFor(total, d));
  }

  /**
   That the price is the curve's is up to the caller: in every reachable bought pool, bytes exist
   for every split of the tokens bought, from burning nothing to burning everything, and for no other.
   */
  lemma SplitIsCallersChoice(c: Chain, d: int)
    requires Reachable(c)
    requires c.lifetime.Live? && c.pool.status.Bought?
    ensures (exists data: seq<u8> :: SplitsAt(c, data, d)) <==> 0 <= d <= c.pool.tokensBought
  {
    ReachableKeeps(c);
    if 0 <= d <= c.pool.tokensBought {
      DataSplits(c, d);
      assert SplitsAt(c, DataFor(c.pool.totalContributed, d), d);
    }
    forall data: seq<u8> | SplitsAt(c, data, d)
      ensures 0 <= d <= c.pool.tokensBought
    {
      FinalizeEffect(c, data);
    }
  }

  lemma {:induction false} BuyIsLogged(log: seq<Event>)
    ensures Buys(log) > 0 <==> exists e :: e in log && e.BuyCompleted?
  {
    if log != [] {
      var rest, last := log[..|log| - 1], log[|log| - 1];
      BuyIsLogged(rest);
      assert log == rest + [last];
      assert last in log;
    }
  }

  /**
   Without a readable account, at any time after the buy, the split is the one at the
   reserves told by the one buy event, and it fails only if that event carries a zero.
   */
  lemma FinalizeAtBuyPrice(c: Chain, unreadable: seq<u8>)
    requires Reachable(c)
    requires c.lifetime.Live? && c.pool.status.Bought?
    requires |unreadable| < 40
    ensures exists e :: e in c.log && e.BuyCompleted?
    ensures forall e :: e in c.log && e.BuyCompleted? ==>
              && (FinalizeTx(c, unreadable).Committed? <==> e.postVirtualToken > 0 && e.postVirtualQuote > 0)
              && (FinalizeTx(c, unreadable).Committed? ==>
                    var p := FinalizeTx(c, unreadable).after.pool;
                    BurnMath.ComputeDistributable(e.spendable, e.tokensBought, e.postVirtualToken, e.postVirtualQuote)
                    == Wrappers.Ok(BurnMath.Split(p.distributable, p.burned)))
  {
    ReachableKeeps(c);
    BuyIsLogged(c.log);
    Guards.FinalizeIff(c, unreadable);
  }
}
