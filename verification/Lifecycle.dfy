/** Conservation of SOL, the single buy, and the order in which a pool lives. */
module Lifecycle {
  import opened Instructions
  import opened Invariants
  import opened Numbers
  import opened State

  import Errors
  import Guards
  import Sums

  // --------------------------------------------------------------- conservation

  /** The pool's counters are exactly what its records, its log and its balance say. */
  lemma EscrowConserved(c: Chain)
    requires Reachable(c)
    requires !c.lifetime.Absent?
    ensures c.pool.totalContributed == Sums.Sum(Amounts(c.contributions))
    ensures c.pool.contributorCount == |c.contributions|
    ensures Deposits(c.log) == c.pool.totalContributed + c.pool.totalRefunded <= c.pool.maxPool
    ensures c.pool.contributorCount * c.pool.minContribution <= Deposits(c.log)
    ensures c.lifetime.Live? && Escrowed(c.pool.status) ==> c.rent + c.pool.totalContributed <= c.poolLamports
    ensures c.lifetime.Live? ==> c.rent <= c.poolLamports
  {
    ReachableKeeps(c);
  }

  /** One wallet written, everything else booked against it. */
  lemma Balanced(c: Chain, c': Chain, u: Wallet, v: nat)
    requires c'.wallets == c.wallets[u := v]
    requires c'.poolLamports + c'.buyerLamports + c'.outside + v
             == c.poolLamports + c.buyerLamports + c.outside + Sums.Balance(c.wallets, u)
    ensures Supply(c') == Supply(c)
  {
    WalletMove(c, u, v);
  }

  lemma DepositBalanced(c: Chain, u: Wallet, now: i64, amount: u64, recordBump: u8, recordRent: nat)
    requires ContributeTx(c, u, now, amount, recordBump, recordRent).Committed?
    ensures Supply(ContributeTx(c, u, now, amount, recordBump, recordRent).after) == Supply(c)
  {
    var c1 := InitRecordTx(c, u, recordRent).after;
    if c1 != c {
      Balanced(c, c1, u, c1.wallets[u]);
    }
    var c2 := DepositTx(c1, u, now, amount, recordBump).after;
    Balanced(c1, c2, u, c2.wallets[u]);
  }

  lemma CreationBalanced(c: Chain, u: Wallet, now: i64, i: Instruction)
    requires i.CreatePool?
    requires CreatePoolTx(c, u, now, i).Committed?
    ensures Supply(CreatePoolTx(c, u, now, i).after) == Supply(c)
  {
    var c' := CreatePoolTx(c, u, now, i).after;
    Balanced(c, c', u, c'.wallets[u]);
  }

  lemma RefundBalanced(c: Chain, u: Wallet, now: i64)
    requires RefundTx(c, u, now).Committed?
    ensures Supply(RefundTx(c, u, now).after) == Supply(c)
  {
    var c' := RefundTx(c, u, now).after;
    Balanced(c, c', u, c'.wallets[u]);
  }

  lemma CloseBalanced(c: Chain, u: Wallet)
    requires ClosePoolTx(c, u).Committed?
    ensures Supply(ClosePoolTx(c, u).after) == Supply(c)
  {
    var c' := ClosePoolTx(c, u).after;
    Balanced(c, c', u, c'.wallets[u]);
  }

  lemma OutsideBalanced(c: Chain, u: Wallet, i: Instruction)
    requires i.Donate? || i.Elsewhere?
    requires Step(c, Tx(u, 0, i)).Committed?
    ensures Supply(Step(c, Tx(u, 0, i)).after) == Supply(c)
  {
    var c' := Step(c, Tx(u, 0, i)).after;
    Balanced(c, c', u, c'.wallets[u]);
  }

  /** No transaction creates or destroys a lamport. */
  lemma SupplyConserved(c: Chain, tx: Tx)
    ensures Supply(Next(c, tx)) == Supply(c)
  {
    if Step(c, tx).Committed? {
      match tx.instruction
      case CreatePool(_, _, _, _, _, _, _, _) => CreationBalanced(c, tx.signer, tx.now, tx.instruction);
      case Contribute(amount, bump, rent) => DepositBalanced(c, tx.signer, tx.now, amount, bump, rent);
      case Refund => RefundBalanced(c, tx.signer, tx.now);
      case ClosePool => CloseBalanced(c, tx.signer);
      case Donate(_, _, _) => OutsideBalanced(c, tx.signer, tx.instruction);
      case Elsewhere(_, _) => OutsideBalanced(c, tx.signer, tx.instruction);
      case _ =>
    }
  }

  /** `out` lamports go back to a contributor, who gives up exactly their own deposit. */
  ghost predicate OutToContributor(c: Chain, tx: Tx, c': Chain, out: nat) {
    && tx.instruction.Refund?
    && out == HistoryOf(c.log, tx.signer).deposited == HistoryOf(c'.log, tx.signer).refunded
    && HistoryOf(c.log, tx.signer).refunded == 0
    && c'.wallets == c.wallets[tx.signer := Sums.Balance(c.wallets, tx.signer) + out]
  }

  /** `out` lamports are the whole escrow, going through the buyer address into the one buy. */
  ghost predicate OutToBuyer(c: Chain, tx: Tx, c': Chain, out: nat) {
    && tx.instruction.CompleteBuy?
    && Buys(c.log) == 0 && Buys(c'.log) == 1
    && out == c.pool.totalContributed
    && c'.buyerLamports + c'.outside == c.buyerLamports + c.outside + out
    && c'.buyerLamports >= c.buyerLamports
    && c'.wallets == c.wallets
  }

  /** `out` lamports are left over when nothing is owed, and go to the creator. */
  ghost predicate OutToCreator(c: Chain, tx: Tx, c': Chain, out: nat) {
    && tx.instruction.ClosePool?
    && tx.signer == c.pool.creator
    && (forall v :: v in c.contributions ==> c.contributions[v].refunded)
    && c'.lifetime.Gone?
    && out == c.poolLamports
    && c'.wallets == c.wallets[tx.signer := Sums.Balance(c.wallets, tx.signer) + out]
  }

  /** Where lamports that leave the pool account go. */
  ghost predicate Outflow(c: Chain, tx: Tx, c': Chain) {
    c'.poolLamports < c.poolLamports ==>
      var out := c.poolLamports - c'.poolLamports;
      OutToContributor(c, tx, c', out) || OutToBuyer(c, tx, c', out) || OutToCreator(c, tx, c', out)
  }

  lemma ContributeOnlyCounts(c: Chain, u: Wallet, now: i64, amount: u64, recordBump: u8, recordRent: nat)
    requires ContributeTx(c, u, now, amount, recordBump, recordRent).Committed?
    ensures var c' := ContributeTx(c, u, now, amount, recordBump, recordRent).after;
            && c'.lifetime == c.lifetime
            && c'.poolLamports == c.poolLamports + amount
            && c'.pool == c.pool.(totalContributed := c'.pool.totalContributed,
                                  contributorCount := c'.pool.contributorCount)
  {
  }

  lemma OnlyThreeTakeOut(c: Chain, tx: Tx)
    requires Next(c, tx).poolLamports < c.poolLamports
    ensures Step(c, tx).Committed?
    ensures tx.instruction.Refund? || tx.instruction.CompleteBuy? || tx.instruction.ClosePool?
  {
    if Step(c, tx).Committed? {
      match tx.instruction
      case Contribute(amount, bump, rent) =>
        ContributeOnlyCounts(c, tx.signer, tx.now, amount, bump, rent);
      case _ =>
    }
  }

  lemma RefundOutflow(c: Chain, c': Chain, u: Wallet, now: i64)
    requires RecordsOk(c)
    requires MoneyBack(c, c', u, now)
    ensures OutToContributor(c, Tx(u, now, Refund), c', c.poolLamports - c'.poolLamports)
  {
    assert RecordOk(c, u, c.contributions[u]);
    LogGrows(c.log, Refunded(u, c.contributions[u].amount));
  }

  lemma BuyOutflow(c: Chain, c': Chain, u: Wallet, now: i64, i: Instruction)
    requires i.CompleteBuy?
    requires c.lifetime.Live? ==> LogOk(c)
    requires CompleteBuyTx(c, now, i) == Committed(c') && c' != c
    ensures OutToBuyer(c, Tx(u, now, i), c', c.poolLamports - c'.poolLamports)
  {
    assert c'.log == c.log + [c'.log[|c.log|]];
    LogGrows(c.log, c'.log[|c.log|]);
  }

  lemma CloseOutflow(c: Chain, c': Chain, u: Wallet, now: i64)
    requires Inv(c)
    requires ClosePoolTx(c, u) == Committed(c')
    ensures OutToCreator(c, Tx(u, now, ClosePool), c', c.poolLamports - c'.poolLamports)
  {
    Guards.ClosePasses(c, u);
  }

  /** No human custody: lamports leave the pool account in three ways only. */
  lemma PoolOutflow(c: Chain, tx: Tx)
    requires Reachable(c)
    ensures Outflow(c, tx, Next(c, tx))
  {
    if Next(c, tx).poolLamports < c.poolLamports {
      ReachableKeeps(c);
      OnlyThreeTakeOut(c, tx);
      TakenOut(c, Next(c, tx), tx);
    }
  }

  lemma TakenOut(c: Chain, c': Chain, tx: Tx)
    requires Inv(c)
    requires Step(c, tx) == Committed(c')
    requires tx.instruction.Refund? || tx.instruction.CompleteBuy? || tx.instruction.ClosePool?
    ensures Outflow(c, tx, c')
  {
    match tx.instruction
    case Refund => RefundOutflow(c, c', tx.signer, tx.now);
    case CompleteBuy(_, _, _, _) =>
      if c' != c {
        BuyOutflow(c, c', tx.signer, tx.now, tx.instruction);
      }
    case ClosePool => CloseOutflow(c, c', tx.signer, tx.now);
  }

  // -------------------------------------------------------------------- one buy

  /** At most one buy ever happens, for the total frozen at launch, within the pool's bounds. */
  lemma ExactlyOneBuy(c: Chain)
    requires Reachable(c)
    ensures Buys(c.log) == if !c.lifetime.Absent? && HasTokens(c.pool.status) then 1 else 0
    ensures forall e :: e in c.log && e.BuyCompleted? ==>
              && e.spendable == c.pool.totalContributed
              && e.mint == c.pool.mint
              && c.pool.minRaise <= e.spendable <= c.pool.maxPool
              && LaunchBegun(e.mint, e.spendable) in c.log
    ensures forall e, f :: e in c.log && f in c.log && e.LaunchBegun? && f.BuyCompleted? ==>
              e == LaunchBegun(f.mint, f.spendable)
  {
    ReachableKeeps(c);
    if !c.lifetime.Absent? {
      forall e, f | e in c.log && f in c.log && e.LaunchBegun? && f.BuyCompleted?
        ensures e == LaunchBegun(f.mint, f.spendable)
      {
        assert EventOk(c.pool, e) && EventOk(c.pool, f);
      }
    }
  }

  /** What nobody can take back from a pool that has bought. */
  predicate KeepsPurchase(c: Chain, c': Chain) {
    && c'.lifetime.Live? && HasTokens(c'.pool.status)
    && c'.pool.mint == c.pool.mint
    && c'.pool.totalContributed == c.pool.totalContributed
    && c'.pool.tokensBought == c.pool.tokensBought
    && c'.pool.graceEndsAt == c.pool.graceEndsAt
    && Amounts(c'.contributions) == Amounts(c.contributions)
    && c'.poolLamports >= c.poolLamports
    && c'.buyerLamports >= c.buyerLamports
    && (c.pool.status.Finalized? ==>
          && c'.pool.status.Finalized?
          && c'.pool.distributable == c.pool.distributable
          && c'.pool.burned == c.pool.burned)
  }

  lemma PayoutKeepsPurchase(c: Chain, c': Chain, u: Wallet)
    requires SharePaid(c, c', u)
    ensures KeepsPurchase(c, c')
  {
    assert Amounts(c'.contributions) == Amounts(c.contributions);
  }

  lemma SplitKeepsPurchase(c: Chain, c': Chain)
    requires SplitDone(c, c')
    ensures KeepsPurchase(c, c')
  {
  }

  lemma OthersKeepPurchase(c: Chain, tx: Tx)
    requires c.lifetime.Live? && HasTokens(c.pool.status)
    requires tx.instruction.Donate? || tx.instruction.Elsewhere?
    ensures KeepsPurchase(c, Next(c, tx))
  {
  }

  /** Only these succeed once the pool has bought. */
  lemma LeftAfterBuy(c: Chain, tx: Tx)
    requires c.lifetime.Live? && HasTokens(c.pool.status) && c.pool.totalContributed > 0
    requires Step(c, tx).Committed?
    ensures var i := tx.instruction; i.CompleteBuy? || i.Finalize? || i.Claim? || i.Donate? || i.Elsewhere?
  {
    Guards.CommittedTimely(c, tx);
  }

  lemma PurchaseKept(c: Chain, tx: Tx)
    requires Inv(c)
    requires c.lifetime.Live? && HasTokens(c.pool.status)
    ensures KeepsPurchase(c, Next(c, tx))
  {
    if Step(c, tx).Committed? {
      LeftAfterBuy(c, tx);
      match tx.instruction
      case Claim =>
        ClaimEffect(c, tx.signer);
        PayoutKeepsPurchase(c, Next(c, tx), tx.signer);
      case Finalize(curveData) =>
        FinalizeEffect(c, curveData);
        SplitKeepsPurchase(c, Next(c, tx));
      case CompleteBuy(_, _, _, _) =>
      case _ =>
        OthersKeepPurchase(c, tx);
    }
  }

  lemma {:induction false} PurchaseKeptByRun(c: Chain, txs: seq<Tx>)
    requires Inv(c)
    requires c.lifetime.Live? && HasTokens(c.pool.status)
    ensures KeepsPurchase(c, Run(c, txs))
    decreases |txs|
  {
    if txs != [] {
      PurchaseKept(c, txs[0]);
      StepKeeps(c, txs[0]);
      PurchaseKeptByRun(Next(c, txs[0]), txs[1..]);
    }
  }

  /**
   After the buy, whatever anybody does, repeated buys included: what was bought, with what, and
   everybody's part in it stay as they are, no more lamports leave, and after finalization
   neither does the amount to distribute change.
   */
  lemma BoughtForGood(c: Chain, txs: seq<Tx>)
    requires Reachable(c)
    requires c.lifetime.Live? && HasTokens(c.pool.status)
    ensures KeepsPurchase(c, Run(c, txs))
  {
    ReachableKeeps(c);
    PurchaseKeptByRun(c, txs);
  }

  // ------------------------------------------------------------------ exclusivity

  /** No run both buys and refunds, and no contributor is both paid tokens and refunded. */
  lemma OutcomesExclusive(c: Chain, u: Wallet)
    requires Reachable(c)
    ensures (exists e :: e in c.log && e.BuyCompleted?) ==>
              !exists e :: e in c.log && (e.Refunded? || e.MarkedRefundable?)
    ensures HistoryOf(c.log, u).refunded == 0 || HistoryOf(c.log, u).claimed == 0
    ensures u in c.contributions ==> !(c.contributions[u].claimed && c.contributions[u].refunded)
    ensures !c.pool.status.Closed?
  {
    ReachableKeeps(c);
    if u in c.contributions {
      assert RecordOk(c, u, c.contributions[u]);
    }
  }

  /** How far a pool has come; every change of status or lifetime goes up. */
  function Stage(c: Chain): nat {
    match c.lifetime
    case Absent => 0
    case Gone => 4
    case Live =>
      match c.pool.status
      case Open => 1
      case Launching => 2
      case Bought => 3
      case Refundable => 3
      case Finalized => 4
      case Closed => 4
  }

  predicate SamePhase(c: Chain, c': Chain) {
    c'.lifetime == c.lifetime && c'.pool.status == c.pool.status
  }

  /** The edges of the life cycle. */
  predicate Edge(c: Chain, c': Chain) {
    || (c.lifetime.Absent? && c'.lifetime.Live? && c'.pool.status.Open?)
    || (c.lifetime.Live? && c'.lifetime.Gone? && c.pool.status.Refundable? && c'.pool.status.Refundable?)
    || (c.lifetime.Live? && c'.lifetime.Live?
        && match c.pool.status
           case Open => c'.pool.status.Launching? || c'.pool.status.Refundable?
           case Launching => c'.pool.status.Bought? || c'.pool.status.Refundable?
           case Bought => c'.pool.status.Finalized?
           case _ => false)
  }

  /** All the edges need of the invariant: a pool starts open, and one that holds nothing has not bought. */
  predicate Rooted(c: Chain) {
    && (c.lifetime.Absent? ==> c.pool.status.Open?)
    && (c.pool.totalContributed == 0 ==> Escrowed(c.pool.status))
  }

  lemma InvRooted(c: Chain)
    requires Inv(c)
    ensures Rooted(c)
  {
  }

  lemma EdgesFromRooted(c: Chain, tx: Tx)
    requires Rooted(c)
    ensures SamePhase(c, Next(c, tx)) || Edge(c, Next(c, tx))
  {
    if Step(c, tx).Committed? {
      Guards.CommittedTimely(c, tx);
      Guards.CommittedMoves(c, tx);
    }
  }

  lemma OnlyEdges(c: Chain, tx: Tx)
    requires Inv(c)
    ensures SamePhase(c, Next(c, tx)) || Edge(c, Next(c, tx))
  {
    InvRooted(c);
    EdgesFromRooted(c, tx);
  }

  /** Changes of status or lifetime along a run. */
  function Changes(c: Chain, txs: seq<Tx>): nat
    decreases |txs|
  {
    if txs == [] then 0
    else (if SamePhase(c, Next(c, txs[0])) then 0 else 1) + Changes(Next(c, txs[0]), txs[1..])
  }

  /** Every run moves along the life cycle only forward, so it changes a pool at most three times after creation. */
  lemma {:induction false} FewChanges(c: Chain, txs: seq<Tx>)
    requires Inv(c)
    ensures Stage(c) + Changes(c, txs) <= Stage(Run(c, txs)) <= 4
    decreases |txs|
  {
    if txs != [] {
      StepKeeps(c, txs[0]);
      OnlyEdges(c, txs[0]);
      FewChanges(Next(c, txs[0]), txs[1..]);
    }
  }

  lemma AtMostThreeChanges(c: Chain, txs: seq<Tx>)
    requires Reachable(c)
    requires c.lifetime.Live?
    ensures Changes(c, txs) <= 3
  {
    ReachableKeeps(c);
    FewChanges(c, txs);
  }

  // ------------------------------------------------------------------- time windows

  predicate MonotoneClock(txs: seq<Tx>) {
    forall i, j :: 0 <= i < j < |txs| ==> txs[i].now <= txs[j].now
  }

  /** A successful transaction, where it acts on the pool, acts in its window. */
  predicate InWindow(c: Chain, tx: Tx) {
    Step(c, tx).Committed? ==>
      var p := c.pool;
      match tx.instruction
      case Contribute(_, _, _) => tx.now < p.launchAt < p.graceEndsAt
      case BeginLaunch(_) => p.launchAt <= tx.now < p.graceEndsAt
      case CompleteBuy(_, _, _, _) => p.status.Launching? ==> p.launchAt <= tx.now < p.graceEndsAt
      case Refund => p.launchAt < p.graceEndsAt <= tx.now
      case MarkRefundable => p.launchAt < p.graceEndsAt <= tx.now
      case _ => true
  }

  /** Every step of the run is in its window. */
  ghost predicate RunInWindows(c: Chain, txs: seq<Tx>)
    decreases |txs|
  {
    txs == [] || (InWindow(c, txs[0]) && RunInWindows(Next(c, txs[0]), txs[1..]))
  }

  /** What a status says about the time it was reached. */
  predicate ClockOk(c: Chain, t: i64) {
    c.lifetime.Live? ==>
      && (Launched(c.pool.status) ==> c.pool.launchAt <= t)
      && (c.pool.status.Refundable? ==> c.pool.graceEndsAt <= t)
  }

  lemma StepInWindow(c: Chain, tx: Tx, t: i64)
    requires Inv(c)
    requires ClockOk(c, t)
    requires t <= tx.now
    ensures InWindow(c, tx)
  {
    if Step(c, tx).Committed? {
      Guards.CommittedTimely(c, tx);
    }
  }

  predicate SameTerms(p: Pool, p': Pool) {
    && p'.creator == p.creator && p'.seed == p.seed && p'.bump == p.bump && p'.buyerBump == p.buyerBump
    && p'.launchAt == p.launchAt && p'.graceEndsAt == p.graceEndsAt
    && p'.minRaise == p.minRaise && p'.maxPool == p.maxPool && p'.minContribution == p.minContribution
  }

  /** Nobody can move a pool's deadlines or bounds once it exists. */
  lemma TermsFixed(c: Chain, tx: Tx)
    requires !c.lifetime.Absent?
    ensures SameTerms(c.pool, Next(c, tx).pool)
  {
    if Step(c, tx).Committed? {
      match tx.instruction
      case Contribute(amount, bump, rent) =>
        ContributeOnlyCounts(c, tx.signer, tx.now, amount, bump, rent);
      case Finalize(_) =>
      case CompleteBuy(_, _, _, _) =>
      case Refund =>
      case _ =>
    }
  }

  /** Which instruction takes which edge. */
  lemma EdgeTaken(c: Chain, tx: Tx)
    requires !SamePhase(c, Next(c, tx))
    ensures Next(c, tx).lifetime.Live? && Launched(Next(c, tx).pool.status) ==>
              || tx.instruction.BeginLaunch?
              || Launched(c.pool.status)
    ensures Next(c, tx).lifetime.Live? && Next(c, tx).pool.status.Refundable? ==>
              || tx.instruction.Refund?
              || tx.instruction.MarkRefundable?
  {
    Guards.CommittedMoves(c, tx);
  }

  lemma ClockKept(c: Chain, tx: Tx, t: i64)
    requires Inv(c)
    requires ClockOk(c, t)
    requires t <= tx.now
    ensures ClockOk(Next(c, tx), tx.now)
  {
    StepInWindow(c, tx, t);
    if SamePhase(c, Next(c, tx)) {
      TermsKeptWhileSame(c, tx);
    } else if !c.lifetime.Absent? {
      TermsFixed(c, tx);
      EdgeTaken(c, tx);
      OnlyEdges(c, tx);
    }
  }

  lemma TermsKeptWhileSame(c: Chain, tx: Tx)
    requires SamePhase(c, Next(c, tx))
    ensures c.lifetime.Live? ==> SameTerms(c.pool, Next(c, tx).pool)
  {
    if c.lifetime.Live? {
      TermsFixed(c, tx);
    }
  }

  lemma {:induction false} WindowsFrom(c: Chain, txs: seq<Tx>, t: i64)
    requires Inv(c)
    requires ClockOk(c, t)
    requires MonotoneClock(txs)
    requires txs != [] ==> t <= txs[0].now
    ensures RunInWindows(c, txs)
    decreases |txs|
  {
    if txs != [] {
      var tx, rest := txs[0], txs[1..];
      StepInWindow(c, tx, t);
      ClockKept(c, tx, t);
      StepKeeps(c, tx);
      assert rest != [] ==> tx.now <= rest[0].now;
      WindowsFrom(Next(c, tx), rest, tx.now);
    }
  }

  /** With a clock that never goes back, contributions, launch and buy, and refunds happen in disjoint windows. */
  lemma PhasesSeparate(start: Chain, txs: seq<Tx>)
    requires Genesis(start)
    requires MonotoneClock(txs)
    ensures RunInWindows(start, txs)
  {
    if txs != [] {
      WindowsFrom(start, txs, txs[0].now);
    }
  }

  lemma {:induction false} WindowsOfPrefix(c: Chain, txs: seq<Tx>, tx: Tx)
    requires RunInWindows(c, txs + [tx])
    ensures InWindow(Run(c, txs), tx)
    decreases |txs|
  {
    if txs == [] {
      assert txs + [tx] == [tx];
    } else {
      assert (txs + [tx])[1..] == txs[1..] + [tx];
      WindowsOfPrefix(Next(c, txs[0]), txs[1..], tx);
    }
  }

  /** Wherever somebody is still owed a refund in a refundable pool, a clock set back leaves the windows. */
  lemma ClockSetBack(start: Chain, txs: seq<Tx>, u: Wallet, now: i64)
    requires Genesis(start)
    requires var c := Run(start, txs);
             c.lifetime.Live? && c.pool.status.Refundable? && u in c.contributions && !c.contributions[u].refunded
    requires now < Run(start, txs).pool.graceEndsAt
    ensures !RunInWindows(start, txs + [Tx(u, now, Refund)])
  {
    var c, tx := Run(start, txs), Tx(u, now, Refund);
    RunKeeps(start, txs);
    assert RecordOk(c, u, c.contributions[u]);
    Guards.RefundPasses(c, u, now);
    if RunInWindows(start, txs + [tx]) {
      WindowsOfPrefix(start, txs, tx);
    }
  }

  /** One deposit, then the mark at the deadline. */
  lemma DepositThenMark(c: Chain, u: Wallet)
    requires u != DEFAULT_PUBKEY
    requires c.lifetime.Live? && c.pool == BLANK_POOL.(launchAt := 1, graceEndsAt := 2, minRaise := 5, maxPool := 5,
                                                       minContribution := 5, creator := u)
    requires c.contributions == map[] && Sums.Balance(c.wallets, u) >= 5
    ensures var c' := Run(c, [Tx(u, 0, Contribute(5, 0, 0)), Tx(u, 2, MarkRefundable)]);
            && c'.lifetime.Live? && c'.pool.status.Refundable? && c'.pool.graceEndsAt == 2
            && u in c'.contributions && !c'.contributions[u].refunded
  {
    var deposit, mark := Tx(u, 0, Contribute(5, 0, 0)), Tx(u, 2, MarkRefundable);
    assert Step(c, deposit).Committed?;
    assert [deposit, mark][1..] == [mark];
    assert Run(c, [deposit, mark]) == Run(Next(c, deposit), [mark]) == Next(Next(c, deposit), mark);
  }

  /** The assumption on the clock is needed: a run of four transactions, the last one timed before the third. */
  lemma ClockMustNotGoBack()
    ensures exists start: Chain, txs: seq<Tx> :: Genesis(start) && !RunInWindows(start, txs)
  {
    var u := Pubkey([1]);
    var start := Chain(Pubkey([2]), 0, Absent, BLANK_POOL, map[], 0, 0, 0, map[u := 10], map[], 0, []);
    var create := Tx(u, 0, CreatePool(0, 0, 0, 1, 1, 5, 5, 5));
    var rest := [Tx(u, 0, Contribute(5, 0, 0)), Tx(u, 2, MarkRefundable)];
    Sums.SumUpdate(map[], u, 10);
    assert Sums.Sum(start.wallets) == 10;
    DepositThenMark(Next(start, create), u);
    assert ([create] + rest)[1..] == rest;
    ClockSetBack(start, [create] + rest, u, 0);
  }

  // ----------------------------------------------------------------------- closing

  /** A closed pool owes nothing: each contributor has been given back all they put in, and no tokens are due. */
  lemma ClosedOwesNothing(c: Chain, u: Wallet)
    requires Reachable(c)
    requires c.lifetime.Gone?
    ensures HistoryOf(c.log, u).refunded == HistoryOf(c.log, u).deposited
    ensures HistoryOf(c.log, u).claimed == 0
    ensures Buys(c.log) == 0
    ensures c.pool.totalRefunded == Deposits(c.log)
  {
    ReachableKeeps(c);
    Guards.EmptyIffRefunded(c);
    if u in c.contributions {
      assert RecordOk(c, u, c.contributions[u]);
    }
  }

  /** A pool that bought cannot be closed, so no claim can be stranded. */
  lemma BoughtNeverCloses(c: Chain, u: Wallet)
    requires Reachable(c)
    requires c.lifetime.Live? && HasTokens(c.pool.status)
    ensures 0 < c.pool.minRaise <= c.pool.totalContributed
    ensures u == c.pool.creator ==> ClosePoolTx(c, u) == Reverted(Errors.PoolNotEmpty)
    ensures u != c.pool.creator ==> ClosePoolTx(c, u) == Reverted(Errors.ConstraintViolated)
  {
    ReachableKeeps(c);
  }
}
