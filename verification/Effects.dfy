/**
 What the instructions leave behind, field by field: which terms a pool is created with, what
 a launch, a buy, a refund and a close change and that they touch nothing else.
 */
module Effects {
  import opened Instructions
  import opened Invariants
  import opened Numbers
  import opened State

  import Guards
  import Lifecycle
  import Refunds
  import Sums

  // -------------------------------------------------------------- create_pool

  /** The pool somebody asked for. */
  predicate AsAsked(p: Pool, u: Wallet, i: Instruction)
    requires i.CreatePool?
  {
    && p.creator == u
    && p.seed == i.seed && p.bump == i.bump && p.buyerBump == i.buyerBump
    && p.launchAt == i.launchAt
    && p.graceEndsAt - p.launchAt == i.graceSecs
    && p.minRaise == i.minRaise && p.maxPool == i.maxPool && p.minContribution == i.minContribution
  }

  /** The new account is rent exempt, at its creator's cost; nothing else changes hands and every counter is zero. */
  lemma CreateEffect(c: Chain, c': Chain, u: Wallet, now: i64, i: Instruction)
    requires i.CreatePool?
    requires CreatePoolTx(c, u, now, i) == Committed(c')
    ensures c.lifetime.Absent? && c'.lifetime.Live?
    ensures AsAsked(c'.pool, u, i)
    ensures c'.pool.(creator := DEFAULT_PUBKEY, seed := 0, bump := 0, buyerBump := 0, launchAt := 0, graceEndsAt := 0,
                     minRaise := 0, maxPool := 0, minContribution := 0) == BLANK_POOL
    ensures c'.poolLamports >= c.rent && c'.poolLamports >= c.poolLamports
    ensures c'.poolLamports == c.rent || c'.poolLamports == c.poolLamports
    ensures c'.wallets == c.wallets[u := Sums.Balance(c.wallets, u) - (c'.poolLamports - c.poolLamports)]
    ensures c'.(lifetime := c.lifetime, pool := c.pool, poolLamports := c.poolLamports, wallets := c.wallets,
                log := c.log) == c
  {
  }

  lemma {:induction false} TermsStay(c: Chain, txs: seq<Tx>)
    requires !c.lifetime.Absent?
    ensures Lifecycle.SameTerms(c.pool, Run(c, txs).pool)
    ensures !Run(c, txs).lifetime.Absent?
    decreases |txs|
  {
    if txs != [] {
      Lifecycle.TermsFixed(c, txs[0]);
      if Step(c, txs[0]).Committed? {
        Guards.CommittedMoves(c, txs[0]);
      }
      TermsStay(Next(c, txs[0]), txs[1..]);
    }
  }

  /** A pool keeps, over any further run, the terms it was asked for with; everybody can rely on them. */
  lemma CreatedAsAsked(c: Chain, u: Wallet, now: i64, i: Instruction, txs: seq<Tx>)
    requires i.CreatePool?
    requires CreatePoolTx(c, u, now, i).Committed?
    ensures AsAsked(Run(CreatePoolTx(c, u, now, i).after, txs).pool, u, i)
  {
    CreateEffect(c, CreatePoolTx(c, u, now, i).after, u, now, i);
    TermsStay(CreatePoolTx(c, u, now, i).after, txs);
  }

  // --------------------------------------------- begin_launch, mark_refundable

  /** Only these two fields of the pool. */
  predicate OnlyMintAndStatus(c: Chain, c': Chain) {
    && c'.(pool := c.pool, log := c.log) == c
    && c'.pool.(mint := c.pool.mint, status := c.pool.status) == c.pool
  }

  lemma LaunchEffect(c: Chain, c': Chain, now: i64, mint: Pubkey)
    requires BeginLaunchTx(c, now, mint) == Committed(c')
    ensures c'.pool.mint == mint && c'.pool.status.Launching?
    ensures OnlyMintAndStatus(c, c')
    ensures c'.log == c.log + [LaunchBegun(mint, c.pool.totalContributed)]
  {
  }

  lemma MarkEffect(c: Chain, c': Chain, now: i64)
    requires MarkRefundableTx(c, now) == Committed(c')
    ensures c'.pool.mint == c.pool.mint && c'.pool.status.Refundable?
    ensures OnlyMintAndStatus(c, c')
    ensures c'.log == c.log + [Event.MarkedRefundable]
  {
  }

  // ------------------------------------------------------------- complete_buy

  /**
   Where everything goes in a buy: the escrow out of the pool, what the pump took to the pump, the change
   to the buyer address, the vault's gain into `tokensBought`, and no record or other balance is touched.
   */
  lemma BuyEffect(c: Chain, c': Chain, now: i64, i: Instruction)
    requires i.CompleteBuy?
    requires !c.pool.status.Bought?
    requires CompleteBuyTx(c, now, i) == Committed(c')
    ensures i.pump.PumpFills?
    ensures c'.poolLamports + c.pool.totalContributed == c.poolLamports
    ensures c'.outside == c.outside + i.pump.spent
    ensures c'.buyerLamports + i.pump.spent == c.buyerLamports + c.pool.totalContributed
    ensures c'.vault == i.pump.vaultAfter == c.vault + c'.pool.tokensBought
    ensures |i.pump.curveAfter| < 40 ==> c'.pool.postVirtualToken == 0 && c'.pool.postVirtualQuote == 0
    ensures |i.pump.curveAfter| >= 40 ==>
              (c'.pool.postVirtualToken, c'.pool.postVirtualQuote) == Guards.PriceIn(c.pool, i.pump.curveAfter)
    ensures c'.(poolLamports := c.poolLamports, outside := c.outside, buyerLamports := c.buyerLamports,
                vault := c.vault, pool := c.pool, log := c.log) == c
    ensures c'.pool.(status := c.pool.status, tokensBought := c.pool.tokensBought,
                     postVirtualToken := c.pool.postVirtualToken, postVirtualQuote := c.pool.postVirtualQuote)
            == c.pool
  {
    Guards.PriceRead(c.pool, i.pump.curveAfter);
  }

  // ------------------------------------------------------------------- refund

  /** A refund touches the contributor's record and wallet, the pool's two totals and its status, and nothing else. */
  lemma RefundFrame(c: Chain, c': Chain, u: Wallet, now: i64)
    requires RefundTx(c, u, now) == Committed(c')
    ensures u in c.contributions && u in c'.contributions
    ensures c'.contributions[u].refunded && c'.contributions[u].amount == 0
    ensures c'.contributions[u].(refunded := c.contributions[u].refunded, amount := c.contributions[u].amount)
            == c.contributions[u]
    ensures c'.contributions - {u} == c.contributions - {u}
    ensures c'.pool.totalContributed + c'.pool.totalRefunded == c.pool.totalContributed + c.pool.totalRefunded
    ensures c'.pool.(status := c.pool.status, totalContributed := c.pool.totalContributed,
                     totalRefunded := c.pool.totalRefunded) == c.pool
    ensures c'.(poolLamports := c.poolLamports, wallets := c.wallets, contributions := c.contributions, pool := c.pool,
                log := c.log) == c
  {
  }

  // --------------------------------------------------------------- close_pool

  /** The close empties the account to the last lamport, into the creator's wallet, and touches nothing else. */
  lemma CloseSweeps(c: Chain, c': Chain, u: Wallet)
    requires ClosePoolTx(c, u) == Committed(c')
    ensures u == c.pool.creator
    ensures c'.lifetime.Gone? && c'.poolLamports == 0
    ensures c'.wallets == c.wallets[u := Sums.Balance(c.wallets, u) + c.poolLamports]
    ensures c'.(lifetime := c.lifetime, poolLamports := c.poolLamports, wallets := c.wallets) == c
  {
  }

  /** Refunds take out of the account exactly what they take off the total. */
  lemma {:induction false} RefundsTakeTheirSum(c: Chain, order: seq<Wallet>, times: seq<i64>)
    requires |order| == |times|
    ensures var c' := Run(c, Refunds.RefundTxs(order, times));
            c'.poolLamports - c'.pool.totalContributed == c.poolLamports - c.pool.totalContributed
    decreases |order|
  {
    if order != [] {
      var tx, rest := Tx(order[0], times[0], Refund), Refunds.RefundTxs(order[1..], times[1..]);
      assert Refunds.RefundTxs(order, times)[0] == tx && Refunds.RefundTxs(order, times)[1..] == rest;
      RefundsTakeTheirSum(Next(c, tx), order[1..], times[1..]);
    }
  }

  /**
   The end of a pool that never bought: once everybody is refunded, in any order, the close succeeds and
   returns to the creator the rent and whatever was donated, all that is in the account.
   */
  lemma RefundAndCloseEmptiesAccount(c: Chain, order: seq<Wallet>, times: seq<i64>)
    requires Reachable(c)
    requires c.lifetime.Live? && Escrowed(c.pool.status)
    requires |order| == |times| > 0
    requires Distinct(order)
    requires forall u :: u in order <==> u in Refunds.Owed(c)
    requires forall t :: t in times ==> RefundAllowed(c.pool, t)
    ensures var repaid := Run(c, Refunds.RefundTxs(order, times));
            && ClosePoolTx(repaid, c.pool.creator).Committed?
            && ClosePoolTx(repaid, c.pool.creator).after.poolLamports == 0
            && Sums.Balance(ClosePoolTx(repaid, c.pool.creator).after.wallets, c.pool.creator)
               == Sums.Balance(repaid.wallets, c.pool.creator) + repaid.poolLamports
            && repaid.poolLamports + c.pool.totalContributed == c.poolLamports
  {
    Refunds.EverybodyRefunded(c, order, times);
    var repaid := Run(c, Refunds.RefundTxs(order, times));
    CloseSweeps(repaid, ClosePoolTx(repaid, c.pool.creator).after, c.pool.creator);
    RefundsTakeTheirSum(c, order, times);
  }
}
