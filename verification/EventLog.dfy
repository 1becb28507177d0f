/**
 The emitted events are a complete account: an indexer that only ever sees them knows the
 pool and every contribution record.
 */
module EventLog {
  import opened Instructions
  import opened Invariants
  import opened Numbers
  import opened State

  import Guards

  datatype RecordView = RecordView(amount: int, claimed: bool, refunded: bool)

  /** What an indexer keeps. */
  datatype View = View(
    created: bool,
    status: PoolStatus,
    creator: Pubkey,
    seed: int,
    mint: Pubkey,
    launchAt: int,
    graceEndsAt: int,
    minRaise: int,
    maxPool: int,
    minContribution: int,
    totalContributed: int,
    contributorCount: int,
    tokensBought: int,
    distributable: int,
    burned: int,
    postVirtualToken: int,
    postVirtualQuote: int,
    totalClaimed: int,
    totalRefunded: int,
    records: map<Wallet, RecordView>)

  const NOTHING_SEEN :=
    View(false, Open, DEFAULT_PUBKEY, 0, DEFAULT_PUBKEY, 0, 0, 0, 0, 0, 0, 0, 0, 0, 0, 0, 0, 0, 0, map[])

  function Apply(v: View, e: Event): View {
    match e
    case PoolCreated(creator, seed, launchAt, graceEndsAt, minRaise, maxPool, minContribution) =>
      NOTHING_SEEN.(created := true, creator := creator, seed := seed, launchAt := launchAt,
                    graceEndsAt := graceEndsAt, minRaise := minRaise, maxPool := maxPool,
                    minContribution := minContribution)
    case Contributed(u, amount, total) =>
      var before := if u in v.records then v.records[u].amount else 0;
      v.(totalContributed := total,
         contributorCount := v.contributorCount + (if u in v.records then 0 else 1),
         records := v.records[u := RecordView(before + amount, false, false)])
    case LaunchBegun(mint, _) =>
      v.(status := Launching, mint := mint)
    case BuyCompleted(_, _, bought, vtok, vquote) =>
      v.(status := Bought, tokensBought := bought, postVirtualToken := vtok, postVirtualQuote := vquote)
    case Finalized(_, _, _, distributable, burned, vtok, vquote) =>
      v.(status := PoolStatus.Finalized, distributable := distributable, burned := burned, postVirtualToken := vtok,
         postVirtualQuote := vquote)
    case Claimed(u, amount, tokens) =>
      v.(totalClaimed := v.totalClaimed + tokens, records := v.records[u := RecordView(amount, true, false)])
    case Refunded(u, amount) =>
      v.(status := Refundable, totalContributed := v.totalContributed - amount,
         totalRefunded := v.totalRefunded + amount, records := v.records[u := RecordView(0, false, true)])
    case MarkedRefundable =>
      v.(status := Refundable)
  }

  function Replay(log: seq<Event>): View {
    if log == [] then NOTHING_SEEN else Apply(Replay(log[..|log| - 1]), log[|log| - 1])
  }

  function ViewRecords(records: map<Wallet, Contribution>): map<Wallet, RecordView> {
    map u | u in records :: RecordView(records[u].amount, records[u].claimed, records[u].refunded)
  }

  /** The accounts as an indexer would read them; the two bumps are in no event. */
  function ViewOf(c: Chain): View {
    var p := c.pool;
    View(!c.lifetime.Absent?, p.status, p.creator, p.seed, p.mint, p.launchAt, p.graceEndsAt, p.minRaise, p.maxPool,
         p.minContribution, p.totalContributed, p.contributorCount, p.tokensBought, p.distributable, p.burned,
         p.postVirtualToken, p.postVirtualQuote, p.totalClaimed, p.totalRefunded, ViewRecords(c.contributions))
  }

  /** One event more is one application more. */
  lemma ReplayGrows(log: seq<Event>, e: Event)
    ensures Replay(log + [e]) == Apply(Replay(log), e)
  {
    assert (log + [e])[..|log + [e]| - 1] == log;
  }

  lemma ViewOneRecord(records: map<Wallet, Contribution>, u: Wallet, r: Contribution)
    ensures ViewRecords(records[u := r]) == ViewRecords(records)[u := RecordView(r.amount, r.claimed, r.refunded)]
  {
  }

  /** A transaction either emits one event, which is exactly its change, or none and changes nothing an indexer sees. */
  ghost predicate Told(c: Chain, c': Chain) {
    || (c'.log == c.log && ViewOf(c') == ViewOf(c))
    || (|c'.log| == |c.log| + 1 && c'.log[..|c.log|] == c.log && ViewOf(c') == Apply(ViewOf(c), c'.log[|c.log|]))
  }

  lemma DepositTold(c: Chain, c': Chain, u: Wallet, amount: u64, rentDue: nat)
    requires DepositMade(c, c', u, amount, rentDue)
    ensures Told(c, c')
  {
    ViewOneRecord(c.contributions, u, c'.contributions[u]);
  }

  lemma ClaimTold(c: Chain, c': Chain, u: Wallet)
    requires SharePaid(c, c', u)
    ensures Told(c, c')
  {
    ViewOneRecord(c.contributions, u, c'.contributions[u]);
  }

  lemma RefundTold(c: Chain, c': Chain, u: Wallet, now: i64)
    requires MoneyBack(c, c', u, now)
    ensures Told(c, c')
  {
    ViewOneRecord(c.contributions, u, c'.contributions[u]);
  }

  lemma CreationTold(c: Chain, u: Wallet, now: i64, i: Instruction)
    requires i.CreatePool?
    requires Inv(c)
    requires CreatePoolTx(c, u, now, i).Committed?
    ensures Told(c, CreatePoolTx(c, u, now, i).after)
  {
  }

  lemma LaunchTold(c: Chain, tx: Tx)
    requires Step(c, tx).Committed?
    requires tx.instruction.BeginLaunch? || tx.instruction.MarkRefundable?
    ensures Told(c, Next(c, tx))
  {
  }

  lemma BuyTold(c: Chain, tx: Tx)
    requires Step(c, tx).Committed?
    requires tx.instruction.CompleteBuy? || tx.instruction.Finalize?
    ensures Told(c, Next(c, tx))
  {
  }

  lemma OutsideTold(c: Chain, tx: Tx)
    requires Step(c, tx).Committed?
    requires tx.instruction.Donate? || tx.instruction.Elsewhere?
    ensures Told(c, Next(c, tx))
  {
  }

  lemma CloseTold(c: Chain, u: Wallet)
    requires ClosePoolTx(c, u).Committed?
    ensures Told(c, ClosePoolTx(c, u).after)
  {
  }

  /** The transactions that emit nothing: failed ones, repeated buys, the close, and those outside the program. */
  predicate Silent(c: Chain, tx: Tx) {
    || Step(c, tx).Reverted?
    || (tx.instruction.CompleteBuy? && c.pool.status.Bought?)
    || tx.instruction.ClosePool?
    || tx.instruction.Donate?
    || tx.instruction.Elsewhere?
  }

  predicate Emits(c: Chain, c': Chain) {
    |c'.log| == |c.log| + 1
  }

  lemma DepositEmits(c: Chain, c': Chain, u: Wallet, now: i64, amount: u64, recordBump: u8, recordRent: nat)
    requires ContributeTx(c, u, now, amount, recordBump, recordRent) == Committed(c')
    ensures Emits(c, c')
  {
    var c1 := InitRecordTx(c, u, recordRent).after;
    assert DepositTx(c1, u, now, amount, recordBump) == Committed(c');
  }

  lemma BuyEmits(c: Chain, c': Chain, now: i64, i: Instruction)
    requires i.CompleteBuy?
    requires CompleteBuyTx(c, now, i) == Committed(c')
    ensures if c.pool.status.Bought? then c' == c else Emits(c, c')
  {
  }

  lemma FinalizeEmits(c: Chain, c': Chain, curveData: seq<u8>)
    requires FinalizeTx(c, curveData) == Committed(c')
    ensures Emits(c, c')
  {
  }

  lemma PaymentEmits(c: Chain, c': Chain, u: Wallet, now: i64)
    requires ClaimTx(c, u) == Committed(c') || RefundTx(c, u, now) == Committed(c')
    ensures Emits(c, c')
  {
  }

  /** A transaction that is not silent emits one event; a silent one leaves the log alone. */
  lemma EmitsUnlessSilent(c: Chain, tx: Tx)
    ensures if Silent(c, tx) then Next(c, tx).log == c.log else Emits(c, Next(c, tx))
  {
    if Step(c, tx).Committed? {
      var c', u, now := Next(c, tx), tx.signer, tx.now;
      match tx.instruction
      case Contribute(amount, bump, rent) => DepositEmits(c, c', u, now, amount, bump, rent);
      case CompleteBuy(_, _, _, _) => BuyEmits(c, c', now, tx.instruction);
      case Finalize(curveData) => FinalizeEmits(c, c', curveData);
      case Claim => PaymentEmits(c, c', u, now);
      case Refund => PaymentEmits(c, c', u, now);
      case _ =>
    }
  }

  /** Every change is told by its event, and exactly the silent transactions emit none. */
  lemma StepTold(c: Chain, tx: Tx)
    requires Inv(c)
    ensures Told(c, Next(c, tx))
    ensures Next(c, tx).log == c.log <==> Silent(c, tx)
  {
    EmitsUnlessSilent(c, tx);
    ChangeTold(c, tx);
  }

  lemma ChangeTold(c: Chain, tx: Tx)
    requires Inv(c)
    ensures Told(c, Next(c, tx))
  {
    if Step(c, tx).Committed? {
      var u, now := tx.signer, tx.now;
      match tx.instruction
      case CreatePool(_, _, _, _, _, _, _, _) =>
        CreationTold(c, u, now, tx.instruction);
      case Contribute(amount, bump, rent) =>
        ContributeEffect(c, u, now, amount, bump, rent);
        DepositTold(c, Next(c, tx), u, amount, if u in c.contributions then 0 else rent);
      case Claim =>
        ClaimEffect(c, u);
        ClaimTold(c, Next(c, tx), u);
      case Refund =>
        RefundTold(c, Next(c, tx), u, now);
      case ClosePool =>
        CloseTold(c, u);
      case BeginLaunch(_) =>
        LaunchTold(c, tx);
      case MarkRefundable =>
        LaunchTold(c, tx);
      case CompleteBuy(_, _, _, _) =>
        BuyTold(c, tx);
      case Finalize(_) =>
        BuyTold(c, tx);
      case _ =>
        OutsideTold(c, tx);
    }
  }

  lemma ToldReplays(c: Chain, c': Chain)
    requires Told(c, c')
    requires Replay(c.log) == ViewOf(c)
    ensures Replay(c'.log) == ViewOf(c')
  {
    if c'.log != c.log {
      assert c'.log == c.log + [c'.log[|c.log|]];
      ReplayGrows(c.log, c'.log[|c.log|]);
    }
  }

  lemma {:induction false} RunReplays(c: Chain, txs: seq<Tx>)
    requires Inv(c)
    requires Replay(c.log) == ViewOf(c)
    ensures Replay(Run(c, txs).log) == ViewOf(Run(c, txs))
    ensures c.log <= Run(c, txs).log
    ensures |Run(c, txs).log| <= |c.log| + |txs|
    decreases |txs|
  {
    if txs != [] {
      var c1 := Next(c, txs[0]);
      StepTold(c, txs[0]);
      ToldReplays(c, c1);
      StepKeeps(c, txs[0]);
      assert c.log <= c1.log;
      RunReplays(c1, txs[1..]);
    }
  }

  /** The events of any run, folded, are the accounts. */
  lemma LogIsComplete(c: Chain)
    requires Reachable(c)
    ensures Replay(c.log) == ViewOf(c)
  {
    var start: Chain, txs: seq<Tx> :| Genesis(start) && c == Run(start, txs);
    assert ViewRecords(start.contributions) == map[];
    RunReplays(start, txs);
  }

  /**
   Two pools with the same history are in the same state, the two bumps aside - except that the
   history does not tell whether a refundable pool with nothing left in it has been closed.
   */
  lemma LogTellsAllButClose(c: Chain, d: Chain)
    requires Reachable(c) && Reachable(d)
    requires c.log == d.log
    ensures ViewOf(c) == ViewOf(d)
    ensures c.lifetime == d.lifetime
            || ((c.lifetime.Gone? || d.lifetime.Gone?) && c.pool.status.Refundable? && c.pool.totalContributed == 0)
  {
    LogIsComplete(c);
    LogIsComplete(d);
    ReachableKeeps(c);
    ReachableKeeps(d);
  }

  /** The exception occurs exactly there. */
  lemma CloseUntold(c: Chain)
    requires Reachable(c)
    requires c.lifetime.Live?
    ensures (exists d :: Reachable(d) && d.log == c.log && d.lifetime.Gone?)
       <==> c.pool.status.Refundable? && c.pool.totalContributed == 0
  {
    ReachableKeeps(c);
    if c.pool.status.Refundable? && c.pool.totalContributed == 0 {
      var close := Tx(c.pool.creator, 0, ClosePool);
      Guards.EmptyIffRefunded(c);
      Guards.ClosePasses(c, c.pool.creator);
      ReachableNext(c, close);
      assert Next(c, close).lifetime.Gone?;
    }
    forall d | Reachable(d) && d.log == c.log && d.lifetime.Gone?
      ensures c.pool.status.Refundable? && c.pool.totalContributed == 0
    {
      LogTellsAllButClose(c, d);
    }
  }
}
