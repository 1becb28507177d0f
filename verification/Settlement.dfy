/** Every pool with contributors can be settled by its contributors alone, whatever has happened to it. */
module Settlement {
  import opened Instructions
  import opened Invariants
  import opened Numbers
  import opened State

  import Claims
  import FinalPrice
  import Guards
  import Refunds

  /** Everybody has back what they deposited, and nobody has tokens. */
  ghost predicate AllRepaid(c: Chain, c': Chain) {
    forall u :: HistoryOf(c'.log, u) == History(Refunds.DepositedBy(c, u), Refunds.DepositedBy(c, u), 0)
  }

  /** Everybody has the share their deposits entitle them to, and nobody has SOL back. */
  ghost predicate AllPaid(c: Chain, c': Chain) {
    && c'.pool.status.Finalized?
    && c'.pool.totalContributed > 0
    && (forall u :: u in c'.contributions ==>
          HistoryOf(c'.log, u) == History(Refunds.DepositedBy(c, u), 0, ShareOf(c', u)))
    && (forall u :: u !in c'.contributions ==> HistoryOf(c'.log, u) == History(0, 0, 0))
  }

  lemma Enumerate(s: set<Wallet>) returns (order: seq<Wallet>)
    ensures Distinct(order)
    ensures forall u :: u in order <==> u in s
    decreases |s|
  {
    if s == {} {
      order := [];
    } else {
      var u :| u in s;
      var rest := Enumerate(s - {u});
      order := [u] + rest;
    }
  }

  lemma {:induction false} RefundTxsOf(order: seq<Wallet>, times: seq<i64>)
    requires |order| == |times|
    ensures forall tx :: tx in Refunds.RefundTxs(order, times) ==> tx.instruction.Refund? && tx.signer in order
  {
    if order != [] {
      RefundTxsOf(order[1..], times[1..]);
    }
  }

  lemma {:induction false} ClaimTxsOf(order: seq<Wallet>, now: i64)
    ensures forall tx :: tx in Claims.ClaimTxs(order, now) ==> tx.instruction.Claim? && tx.signer in order
  {
    if order != [] {
      ClaimTxsOf(order[1..], now);
    }
  }

  /** Before the buy: once the grace period is over, the contributors take their SOL back. */
  lemma RepaySettles(c: Chain) returns (txs: seq<Tx>)
    requires Inv(c)
    requires c.lifetime.Live? && Escrowed(c.pool.status)
    ensures AllCommit(c, txs)
    ensures forall tx :: tx in txs ==> tx.instruction.Refund? && tx.signer in c.contributions
    ensures AllRepaid(c, Run(c, txs))
  {
    var order := Enumerate(Refunds.Owed(c));
    var times := seq(|order|, _ => I64_MAX);
    txs := Refunds.RefundTxs(order, times);
    RefundTxsOf(order, times);
    Refunds.RefundInOrder(c, order, times);
    NobodyOwed(c, Run(c, txs), order);
  }

  lemma NobodyOwed(c: Chain, c': Chain, order: seq<Wallet>)
    requires Inv(c')
    requires Escrowed(c.pool.status)
    requires forall u :: u in order <==> u in Refunds.Owed(c)
    requires Refunds.GivenBack(c, order, c')
    ensures AllRepaid(c, c')
  {
    forall u
      ensures HistoryOf(c'.log, u) == History(Refunds.DepositedBy(c, u), Refunds.DepositedBy(c, u), 0)
    {
      assert Refunds.DepositedBy(c', u) == Refunds.DepositedBy(c, u);
      Refunds.OwedIsDeposit(c', u);
      if u in c'.contributions {
        assert RecordOk(c', u, c'.contributions[u]);
      }
    }
  }

  /** After finalization the contributors take their shares. */
  lemma PayoutSettles(c: Chain) returns (txs: seq<Tx>)
    requires Inv(c)
    requires c.lifetime.Live? && c.pool.status.Finalized?
    ensures AllCommit(c, txs)
    ensures forall tx :: tx in txs ==> tx.instruction.Claim? && tx.signer in c.contributions
    ensures AllPaid(c, Run(c, txs))
  {
    var order := Enumerate(set u | u in c.contributions && Guards.Payable(c, u));
    txs := Claims.ClaimTxs(order, 0);
    ClaimTxsOf(order, 0);
    Claims.ClaimsCommit(c, order, 0);
    Claims.ClaimsPay(c, order, 0);
    NothingDue(c, Run(c, txs), order);
  }

  lemma NothingDue(c: Chain, c': Chain, order: seq<Wallet>)
    requires Inv(c) && Inv(c')
    requires c.lifetime.Live? && c.pool.status.Finalized?
    requires forall u :: u in order <==> u in c.contributions && Guards.Payable(c, u)
    requires Claims.PaidOut(c, order, c')
    ensures AllPaid(c, c')
  {
    forall u | u in c'.contributions
      ensures HistoryOf(c'.log, u) == History(Refunds.DepositedBy(c, u), 0, ShareOf(c', u))
    {
      assert RecordOk(c, u, c.contributions[u]) && RecordOk(c', u, c'.contributions[u]);
      if u !in order {
        assert !Guards.Payable(c, u);
      }
    }
  }

  lemma SplitKeepsDeposits(c: Chain, c': Chain)
    requires SplitDone(c, c')
    ensures forall u :: Refunds.DepositedBy(c', u) == Refunds.DepositedBy(c, u)
    ensures c'.contributions == c.contributions
  {
    LogGrows(c.log, c'.log[|c.log|]);
    assert c'.log == c.log + [c'.log[|c.log|]];
  }

  lemma FinalizeHead(c: Chain, c1: Chain, caller: Wallet, curveData: seq<u8>, rest: seq<Tx>)
    requires caller != DEFAULT_PUBKEY
    requires FinalizeTx(c, curveData) == Committed(c1)
    requires AllCommit(c1, rest)
    ensures var txs := [Tx(caller, 0, Finalize(curveData))] + rest;
            AllCommit(c, txs) && Run(c, txs) == Run(c1, rest)
  {
    assert ([Tx(caller, 0, Finalize(curveData))] + rest)[1..] == rest;
  }

  /** Bought but not finalized: anybody with a price finalizes, then the contributors take their shares. */
  lemma FinalizeSettles(c: Chain, caller: Wallet, curveData: seq<u8>) returns (txs: seq<Tx>)
    requires Inv(c)
    requires caller != DEFAULT_PUBKEY
    requires FinalizeTx(c, curveData).Committed?
    ensures AllCommit(c, txs)
    ensures forall tx :: tx in txs ==>
              tx == Tx(caller, 0, Finalize(curveData)) || (tx.instruction.Claim? && tx.signer in c.contributions)
    ensures AllPaid(c, Run(c, txs))
  {
    var c1 := FinalizeTx(c, curveData).after;
    FinalizeEffect(c, curveData);
    FinalizeKeeps(c, curveData);
    var rest := PayoutSettles(c1);
    txs := [Tx(caller, 0, Finalize(curveData))] + rest;
    FinalizeHead(c, c1, caller, curveData, rest);
    SplitKeepsDeposits(c, c1);
  }

  /**
   From every state a live pool can be in, transactions that its contributors (and, to finalize,
   anybody) can send all succeed and settle it: everybody has exactly their deposits back, or
   everybody has exactly their share. Finalizing needs a price: a positive one in the account
   handed in, or in the snapshot taken by the buy.
   */
  lemma CanBeSettled(c: Chain, caller: Wallet, curveData: seq<u8>) returns (txs: seq<Tx>)
    requires Reachable(c)
    requires c.lifetime.Live?
    requires caller != DEFAULT_PUBKEY
    requires c.pool.status.Bought? ==>
               Guards.PriceIn(c.pool, curveData).0 > 0 && Guards.PriceIn(c.pool, curveData).1 > 0
    ensures AllCommit(c, txs)
    ensures forall tx :: tx in txs ==>
              || tx == Tx(caller, 0, Finalize(curveData))
              || (tx.signer in c.contributions && (tx.instruction.Refund? || tx.instruction.Claim?))
    ensures if HasTokens(c.pool.status) then AllPaid(c, Run(c, txs)) else AllRepaid(c, Run(c, txs))
  {
    ReachableKeeps(c);
    if Escrowed(c.pool.status) {
      txs := RepaySettles(c);
    } else if c.pool.status.Finalized? {
      txs := PayoutSettles(c);
    } else {
      Guards.FinalizeIff(c, curveData);
      txs := FinalizeSettles(c, caller, curveData);
    }
  }

  /**
   A price is always to be had - one at which nothing is burned, for instance - so every live pool,
   whatever has happened to it, can be settled without anybody in particular.
   */
  lemma CanAlwaysBeSettled(c: Chain, caller: Wallet) returns (curveData: seq<u8>, txs: seq<Tx>)
    requires Reachable(c)
    requires c.lifetime.Live?
    requires caller != DEFAULT_PUBKEY
    ensures AllCommit(c, txs)
    ensures forall tx :: tx in txs ==>
              || tx == Tx(caller, 0, Finalize(curveData))
              || (tx.signer in c.contributions && (tx.instruction.Refund? || tx.instruction.Claim?))
    ensures if HasTokens(c.pool.status) then AllPaid(c, Run(c, txs)) else AllRepaid(c, Run(c, txs))
  {
    curveData := [];
    if c.pool.status.Bought? {
      ReachableKeeps(c);
      curveData := FinalPrice.DataFor(c.pool.totalContributed, c.pool.tokensBought);
      FinalPrice.DataSplits(c, c.pool.tokensBought);
      Guards.FinalizeIff(c, curveData);
    }
    txs := CanBeSettled(c, caller, curveData);
  }
}
