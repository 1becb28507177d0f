/** Permissionless refunds: nobody can stop one, and everybody gets everything back in any order. */
module Refunds {
  import opened Instructions
  import opened Invariants
  import opened Numbers
  import opened State
  import opened Sums

  import Errors
  import Guards

  /** Who still has SOL in the pool. */
  function Owed(c: Chain): set<Wallet> {
    set u | u in c.contributions && c.contributions[u].amount > 0
  }

  function RefundTxs(order: seq<Wallet>, times: seq<i64>): seq<Tx>
    requires |order| == |times|
  {
    if order == [] then [] else [Tx(order[0], times[0], Refund)] + RefundTxs(order[1..], times[1..])
  }

  function DepositedBy(c: Chain, u: Wallet): nat {
    HistoryOf(c.log, u).deposited
  }

  // ------------------------------------------------------------- any order works

  lemma OwedIsDeposit(c: Chain, u: Wallet)
    requires RecordsOk(c)
    requires TermsOk(c.pool)
    ensures u in Owed(c) <==> u in c.contributions && !c.contributions[u].refunded
    ensures u in Owed(c) ==> c.contributions[u].amount == DepositedBy(c, u) && u != DEFAULT_PUBKEY
  {
    if u in c.contributions {
      assert RecordOk(c, u, c.contributions[u]);
    }
  }

  lemma RefundStep(c: Chain, u: Wallet, now: i64)
    requires u != DEFAULT_PUBKEY
    ensures Step(c, Tx(u, now, Refund)) == RefundTx(c, u, now)
  {
  }

  lemma RefundSettles(c: Chain, c': Chain, u: Wallet, now: i64)
    requires RecordsOk(c) && TermsOk(c.pool)
    requires MoneyBack(c, c', u, now)
    ensures Owed(c') == Owed(c) - {u}
    ensures forall v :: DepositedBy(c', v) == DepositedBy(c, v)
    ensures Deposits(c'.log) == Deposits(c.log)
    ensures Balance(c'.wallets, u) == Balance(c.wallets, u) + DepositedBy(c, u)
  {
    OwedIsDeposit(c, u);
    LogGrows(c.log, Refunded(u, c.contributions[u].amount));
  }

  lemma RefundOne(c: Chain, u: Wallet, now: i64)
    requires Inv(c)
    requires c.lifetime.Live?
    requires RefundAllowed(c.pool, now)
    requires u in Owed(c)
    ensures RefundTx(c, u, now).Committed?
    ensures Inv(RefundTx(c, u, now).after)
  {
    OwedIsDeposit(c, u);
    Guards.RefundPasses(c, u, now);
    RefundKeeps(c, u, now);
  }

  /** The state after the contributors in `order` have been refunded. */
  ghost predicate GivenBack(c: Chain, order: seq<Wallet>, c': Chain) {
    && c'.lifetime.Live?
    && c'.pool.creator == c.pool.creator
    && (c'.pool.status == if order == [] then c.pool.status else Refundable)
    && Deposits(c'.log) == Deposits(c.log)
    && (forall u :: u in Owed(c') <==> u in Owed(c) && u !in order)
    && (forall u :: DepositedBy(c', u) == DepositedBy(c, u))
    && (forall u :: Balance(c'.wallets, u) == Balance(c.wallets, u) + if u in order then DepositedBy(c, u) else 0)
  }

  lemma GivenBackJoin(c: Chain, c1: Chain, order: seq<Wallet>, c': Chain, now: i64)
    requires order != []
    requires Distinct(order)
    requires RecordsOk(c) && TermsOk(c.pool)
    requires MoneyBack(c, c1, order[0], now)
    requires GivenBack(c1, order[1..], c')
    ensures GivenBack(c, order, c')
  {
    RefundSettles(c, c1, order[0], now);
    assert forall v :: v in order <==> v == order[0] || v in order[1..];
    assert order[0] !in order[1..];
  }

  lemma StillOwed(c: Chain, c1: Chain, order: seq<Wallet>, times: seq<i64>)
    requires |order| == |times| > 0
    requires Distinct(order)
    requires forall u :: u in order ==> u in Owed(c)
    requires RecordsOk(c) && TermsOk(c.pool)
    requires MoneyBack(c, c1, order[0], times[0])
    ensures c1.lifetime.Live?
    ensures forall u :: u in order[1..] ==> u in Owed(c1)
    ensures forall t :: t in times[1..] ==> RefundAllowed(c1.pool, t)
  {
    RefundSettles(c, c1, order[0], times[0]);
    assert order[0] !in order[1..];
  }

  lemma RefundTxsHead(c: Chain, c1: Chain, order: seq<Wallet>, times: seq<i64>)
    requires |order| == |times| > 0
    requires order[0] != DEFAULT_PUBKEY
    requires MoneyBack(c, c1, order[0], times[0])
    ensures var txs := RefundTxs(order, times);
            txs != [] && Step(c, txs[0]) == Committed(c1) && txs[1..] == RefundTxs(order[1..], times[1..])
  {
    RefundStep(c, order[0], times[0]);
  }

  /** The first refund goes through and leaves the others due. */
  lemma RefundFirst(c: Chain, order: seq<Wallet>, times: seq<i64>) returns (c1: Chain)
    requires |order| == |times| > 0
    requires Inv(c)
    requires c.lifetime.Live?
    requires Distinct(order)
    requires forall u :: u in order ==> u in Owed(c)
    requires forall t :: t in times ==> RefundAllowed(c.pool, t)
    ensures order[0] != DEFAULT_PUBKEY
    ensures MoneyBack(c, c1, order[0], times[0])
    ensures Inv(c1) && c1.lifetime.Live?
    ensures Distinct(order[1..])
    ensures forall u :: u in order[1..] ==> u in Owed(c1)
    ensures forall t :: t in times[1..] ==> RefundAllowed(c1.pool, t)
  {
    assert order[0] in order && times[0] in times;
    OwedIsDeposit(c, order[0]);
    RefundOne(c, order[0], times[0]);
    c1 := RefundTx(c, order[0], times[0]).after;
    StillOwed(c, c1, order, times);
  }

  lemma {:induction false} RefundInOrder(c: Chain, order: seq<Wallet>, times: seq<i64>)
    requires |order| == |times|
    requires Inv(c)
    requires c.lifetime.Live?
    requires Distinct(order)
    requires forall u :: u in order ==> u in Owed(c)
    requires forall t :: t in times ==> RefundAllowed(c.pool, t)
    ensures AllCommit(c, RefundTxs(order, times))
    ensures Inv(Run(c, RefundTxs(order, times)))
    ensures GivenBack(c, order, Run(c, RefundTxs(order, times)))
    decreases |order|
  {
    if order != [] {
      var c1 := RefundFirst(c, order, times);
      RefundTxsHead(c, c1, order, times);
      RefundInOrder(c1, order[1..], times[1..]);
      GivenBackJoin(c, c1, order, Run(c1, RefundTxs(order[1..], times[1..])), times[0]);
    }
  }

  /**
   Once refunds are allowed, everybody who is owed something is refunded, in any order and
   with any clocks at which refunds are allowed: each transaction succeeds, each contributor
   gets exactly what they ever deposited, nothing is left owed, and the creator can then
   close the pool - unless there was nobody to refund and nobody marked the pool refundable.
   */
  lemma EverybodyRefunded(c: Chain, order: seq<Wallet>, times: seq<i64>)
    requires Reachable(c)
    requires c.lifetime.Live?
    requires |order| == |times|
    requires Distinct(order)
    requires forall u :: u in order <==> u in Owed(c)
    requires forall t :: t in times ==> RefundAllowed(c.pool, t)
    requires Escrowed(c.pool.status)
    ensures var txs := RefundTxs(order, times);
            var c' := Run(c, txs);
            && AllCommit(c, txs)
            && c'.pool.totalContributed == 0
            && c'.pool.totalRefunded == Deposits(c.log)
            && (forall u :: Balance(c'.wallets, u)
                            == Balance(c.wallets, u) + if u in Owed(c) then DepositedBy(c, u) else 0)
            && (ClosePoolTx(c', c.pool.creator).Committed? <==> order != [] || c.pool.status.Refundable?)
  {
    ReachableKeeps(c);
    RefundInOrder(c, order, times);
    var c' := Run(c, RefundTxs(order, times));
    forall v | v in c'.contributions
      ensures c'.contributions[v].refunded
    {
      OwedIsDeposit(c', v);
    }
    Guards.EmptyIffRefunded(c');
    Guards.ClosePasses(c', c.pool.creator);
  }

  /** The exception is real: an empty pool that nobody marked cannot be closed. */
  lemma EmptyPoolMustBeMarked(c: Chain)
    requires Reachable(c)
    requires c.lifetime.Live? && c.pool.status.Open? && c.contributions == map[]
    ensures ClosePoolTx(c, c.pool.creator) == Reverted(Errors.BadStatus)
    ensures forall now: i64 :: now >= c.pool.graceEndsAt ==>
              && MarkRefundableTx(c, now).Committed?
              && ClosePoolTx(MarkRefundableTx(c, now).after, c.pool.creator).Committed?
  {
    ReachableKeeps(c);
    Guards.EmptyIffRefunded(c);
    SumBounds(c.wallets, c.pool.creator);
  }

  // ----------------------------------------------------------- nobody can stop it

  /** A contributor with SOL in a pool whose buy has not happened. */
  predicate Entitled(c: Chain, u: Wallet) {
    && c.lifetime.Live?
    && Escrowed(c.pool.status)
    && u in c.contributions
    && !c.contributions[u].refunded
  }

  /** Not the contributor's own refund. */
  predicate NotRefundBy(tx: Tx, u: Wallet) {
    tx.signer == u ==> !tx.instruction.Refund?
  }

  /** With refunds allowed and SOL still owed, refunding and marking is all the program does. */
  lemma OnlyRefundsLeft(c: Chain, u: Wallet, tx: Tx)
    requires Inv(c)
    requires Entitled(c, u)
    requires RefundAllowed(c.pool, tx.now)
    requires Step(c, tx).Committed?
    ensures var i := tx.instruction;
            i.Refund? || i.MarkRefundable? || i.Donate? || i.Elsewhere?
  {
    Guards.CommittedTimely(c, tx);
    assert RecordOk(c, u, c.contributions[u]);
    AmountBelowTotal(c, u);
  }

  lemma OtherRefund(c: Chain, c': Chain, u: Wallet, v: Wallet, now: i64)
    requires Entitled(c, u)
    requires MoneyBack(c, c', v, now)
    requires v != u
    ensures Entitled(c', u)
    ensures c'.contributions[u] == c.contributions[u]
    ensures c'.pool.status.Refundable?
  {
  }

  lemma EntitlementKept(c: Chain, u: Wallet, tx: Tx)
    requires Inv(c)
    requires Entitled(c, u)
    requires RefundAllowed(c.pool, tx.now)
    requires NotRefundBy(tx, u)
    ensures Entitled(Next(c, tx), u)
    ensures Next(c, tx).contributions[u] == c.contributions[u]
    ensures Next(c, tx).pool == c.pool || Next(c, tx).pool.status.Refundable?
  {
    if Step(c, tx).Committed? {
      OnlyRefundsLeft(c, u, tx);
      if tx.instruction.Refund? {
        OtherRefund(c, Next(c, tx), u, tx.signer, tx.now);
      } else if !tx.instruction.MarkRefundable? {
        OthersLeavePool(c, tx);
      }
    }
  }

  lemma {:induction false} EntitlementKeptByRun(c: Chain, u: Wallet, txs: seq<Tx>)
    requires Inv(c)
    requires Entitled(c, u)
    requires forall tx :: tx in txs ==> RefundAllowed(c.pool, tx.now) && NotRefundBy(tx, u)
    ensures Entitled(Run(c, txs), u)
    ensures Run(c, txs).contributions[u] == c.contributions[u]
    ensures forall t: i64 :: RefundAllowed(c.pool, t) ==> RefundAllowed(Run(c, txs).pool, t)
    decreases |txs|
  {
    if txs != [] {
      assert txs[0] in txs;
      EntitlementKept(c, u, txs[0]);
      StepKeeps(c, txs[0]);
      EntitlementKeptByRun(Next(c, txs[0]), u, txs[1..]);
    }
  }

  lemma RefundDue(c: Chain, u: Wallet, now: i64)
    requires Inv(c)
    requires Entitled(c, u)
    requires RefundAllowed(c.pool, now)
    ensures RefundTx(c, u, now).Committed?
    ensures Balance(RefundTx(c, u, now).after.wallets, u) == Balance(c.wallets, u) + c.contributions[u].amount
  {
    Guards.RefundPasses(c, u, now);
  }

  /**
   Whatever anybody else does once refunds are allowed - the orchestrator, the creator, other
   contributors, anyone, any number of transactions - a contributor's refund then still
   succeeds and pays exactly what they deposited.
   */
  lemma RefundCannotBeBlocked(c: Chain, u: Wallet, txs: seq<Tx>, now: i64)
    requires Reachable(c)
    requires Entitled(c, u)
    requires forall tx :: tx in txs ==> RefundAllowed(c.pool, tx.now) && NotRefundBy(tx, u)
    requires RefundAllowed(c.pool, now)
    ensures var later := Run(c, txs);
            && RefundTx(later, u, now).Committed?
            && DepositedBy(c, u) > 0
            && Balance(RefundTx(later, u, now).after.wallets, u) == Balance(later.wallets, u) + DepositedBy(c, u)
  {
    ReachableKeeps(c);
    EntitlementKeptByRun(c, u, txs);
    RunKeeps(c, txs);
    OwedIsDeposit(c, u);
    RefundDue(Run(c, txs), u, now);
  }

  /** The pool's total after a refund is what the others are still owed, and their records are untouched. */
  lemma OthersStillOwed(c: Chain, c': Chain, u: Wallet, now: i64)
    requires TotalsOk(c)
    requires MoneyBack(c, c', u, now)
    ensures c'.contributions - {u} == c.contributions - {u}
    ensures c'.pool.totalContributed == Sum(Amounts(c.contributions - {u}))
  {
    var amounts := Amounts(c.contributions);
    SumRemove(amounts, u);
    assert amounts - {u} == Amounts(c.contributions - {u});
  }

  lemma NoSecondRefund(c: Chain, c': Chain, u: Wallet, now: i64, t: i64)
    requires RecordsOk(c)
    requires MoneyBack(c, c', u, now)
    ensures RefundTx(c', u, t) == Reverted(Errors.NothingToRefund)
  {
    assert RecordOk(c, u, c.contributions[u]);
  }

  /** What a refund pays is the sum of the contributor's deposits. */
  lemma DepositsReturned(c: Chain, c': Chain, u: Wallet, now: i64)
    requires RecordsOk(c) && TermsOk(c.pool)
    requires MoneyBack(c, c', u, now)
    ensures DepositedBy(c, u) > 0
    ensures c'.wallets == c.wallets[u := Balance(c.wallets, u) + DepositedBy(c, u)]
    ensures c'.poolLamports + DepositedBy(c, u) == c.poolLamports
    ensures HistoryOf(c'.log, u) == History(DepositedBy(c, u), DepositedBy(c, u), 0)
  {
    assert RecordOk(c, u, c.contributions[u]);
    LogGrows(c.log, Refunded(u, c.contributions[u].amount));
  }

  /**
   A refund pays the sum of the contributor's deposits, once: the pool's total is then what the others
   are still owed, their records are untouched, and no second refund succeeds.
   */
  lemma RefundPaysDeposits(c: Chain, c': Chain, u: Wallet, now: i64, later: i64)
    requires Reachable(c)
    requires RefundTx(c, u, now) == Committed(c')
    ensures DepositedBy(c, u) > 0
    ensures c'.wallets == c.wallets[u := Balance(c.wallets, u) + DepositedBy(c, u)]
    ensures c'.poolLamports + DepositedBy(c, u) == c.poolLamports
    ensures HistoryOf(c'.log, u) == History(DepositedBy(c, u), DepositedBy(c, u), 0)
    ensures c'.contributions - {u} == c.contributions - {u}
    ensures c'.pool.totalContributed == Sum(Amounts(c.contributions - {u}))
    ensures RefundTx(c', u, later) == Reverted(Errors.NothingToRefund)
  {
    ReachableKeeps(c);
    DepositsReturned(c, c', u, now);
    OthersStillOwed(c, c', u, now);
    NoSecondRefund(c, c', u, now, later);
  }

  /** Over the whole life of a pool, a contributor is given back nothing or exactly what they put in. */
  lemma PaidBackOnce(c: Chain, u: Wallet)
    requires Reachable(c)
    ensures var h := HistoryOf(c.log, u);
            h.refunded == if u in c.contributions && c.contributions[u].refunded then h.deposited else 0
  {
    ReachableKeeps(c);
    if u in c.contributions {
      assert RecordOk(c, u, c.contributions[u]);
    }
  }
}
