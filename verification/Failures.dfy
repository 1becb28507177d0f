/**
 Why a transaction fails. `Cause` is a short account of each instruction in its callers' terms: the first
 condition that is not met, with the error it is reported as. In states a pool can really be in it
 decides alone: a transaction fails if and only if it names an error, and then with that error. The checks
 the program makes besides (counters and balances that could overflow or underflow, `MintAlreadySet`,
 `MintNotSet`, the errors of the split) do not occur in it.
 */
module Failures {
  import opened Errors
  import opened Instructions
  import opened Invariants
  import opened Numbers
  import opened State
  import opened Wrappers

  import BurnMath
  import Guards
  import Sums

  function CreateCause(c: Chain, u: Wallet, now: i64, i: Instruction): Option<Error>
    requires i.CreatePool?
  {
    if !c.lifetime.Absent? then Some(AccountAlreadyInUse)
    else if c.poolLamports + Sums.Balance(c.wallets, u) < c.rent then Some(InsufficientFunds)
    else if !(0 < i.graceSecs && 0 < i.minContribution <= i.minRaise <= i.maxPool && now < i.launchAt)
    then Some(InvalidParams)
    else if i.launchAt + i.graceSecs > I64_MAX then Some(MathOverflow)
    else None
  }

  function ContributeCause(c: Chain, u: Wallet, now: i64, amount: u64, recordRent: nat): Option<Error> {
    var p, rentDue := c.pool, if u in c.contributions then 0 else recordRent;
    if !c.lifetime.Live? then Some(AccountNotInitialized)
    else if Sums.Balance(c.wallets, u) < rentDue then Some(InsufficientFunds)
    else if amount == 0 then Some(ZeroAmount)
    else if !p.status.Open? then Some(BadStatus)
    else if now >= p.launchAt then Some(ContributionClosed)
    else if amount < p.minContribution then Some(ContributionTooSmall)
    else if p.totalContributed + amount > U64_MAX then Some(MathOverflow)
    else if p.totalContributed + amount > p.maxPool then Some(MaxPoolExceeded)
    else if Sums.Balance(c.wallets, u) < rentDue + amount then Some(InsufficientFunds)
    else if u !in c.contributions && |c.contributions| == U32_MAX then Some(MathOverflow)
    else None
  }

  function LaunchCause(c: Chain, now: i64, mint: Pubkey): Option<Error> {
    var p := c.pool;
    if !c.lifetime.Live? then Some(AccountNotInitialized)
    else if !p.status.Open? then Some(BadStatus)
    else if mint == DEFAULT_PUBKEY then Some(InvalidParams)
    else if now < p.launchAt then Some(LaunchTooEarly)
    else if now >= p.graceEndsAt then Some(LaunchGraceExpired)
    else if p.totalContributed < p.minRaise then Some(MinRaiseNotMet)
    else None
  }

  function BuyCause(c: Chain, now: i64, i: Instruction): Option<Error>
    requires i.CompleteBuy?
  {
    var p := c.pool;
    if !c.lifetime.Live? then Some(AccountNotInitialized)
    else if p.status.Bought? then None
    else if !p.status.Launching? then Some(BadStatus)
    else if now >= p.graceEndsAt then Some(LaunchGraceExpired)
    else if i.buyMint != p.mint then Some(MintMismatch)
    else if i.curve.data == [] || !i.curve.ownedByPump then Some(CreateNotLanded)
    else if i.pump.PumpRejects? || i.pump.spent > p.totalContributed then Some(BuyFailed)
    else if i.minTokensOut > 0 && i.pump.vaultAfter < c.vault + i.minTokensOut then Some(BuyFailed)
    else if i.pump.vaultAfter <= c.vault then Some(ZeroTokensBought)
    else None
  }

  function FinalizeCause(c: Chain, curveData: seq<u8>): Option<Error> {
    var (vtok, vquote) := Guards.PriceIn(c.pool, curveData);
    if !c.lifetime.Live? then Some(AccountNotInitialized)
    else if !c.pool.status.Bought? then Some(BadStatus)
    else if vtok == 0 || vquote == 0 then Some(MathOverflow)
    else None
  }

  /** A share that rounds to nothing is reported as nothing to claim. */
  function ClaimCause(c: Chain, u: Wallet): Option<Error> {
    if !c.lifetime.Live? || u !in c.contributions then Some(AccountNotInitialized)
    else if !c.pool.status.Finalized? then Some(ClaimNotAllowed)
    else if c.contributions[u].claimed then Some(NothingToClaim)
    else if 0 < c.pool.distributable && c.pool.distributable * c.contributions[u].amount < c.pool.totalContributed
    then Some(NothingToClaim)
    else None
  }

  function RefundCause(c: Chain, u: Wallet, now: i64): Option<Error> {
    var p := c.pool;
    if !c.lifetime.Live? || u !in c.contributions then Some(AccountNotInitialized)
    else if !p.status.Refundable? && !((p.status.Open? || p.status.Launching?) && now >= p.graceEndsAt)
    then Some(RefundNotAllowed)
    else if c.contributions[u].refunded then Some(NothingToRefund)
    else None
  }

  function MarkCause(c: Chain, now: i64): Option<Error> {
    if !c.lifetime.Live? then Some(AccountNotInitialized)
    else if now < c.pool.graceEndsAt then Some(LaunchTooEarly)
    else if !c.pool.status.Open? && !c.pool.status.Launching? then Some(BadStatus)
    else None
  }

  function CloseCause(c: Chain, u: Wallet): Option<Error> {
    if !c.lifetime.Live? then Some(AccountNotInitialized)
    else if u != c.pool.creator then Some(ConstraintViolated)
    else if c.pool.totalContributed > 0 then Some(PoolNotEmpty)
    else if !c.pool.status.Refundable? then Some(BadStatus)
    else None
  }

  function Cause(c: Chain, tx: Tx): Option<Error> {
    var u, now := tx.signer, tx.now;
    if u == DEFAULT_PUBKEY then Some(MissingSignature) else
    match tx.instruction
    case CreatePool(_, _, _, _, _, _, _, _) => CreateCause(c, u, now, tx.instruction)
    case Contribute(amount, _, recordRent) => ContributeCause(c, u, now, amount, recordRent)
    case BeginLaunch(mint) => LaunchCause(c, now, mint)
    case CompleteBuy(_, _, _, _) => BuyCause(c, now, tx.instruction)
    case Finalize(curveData) => FinalizeCause(c, curveData)
    case Claim => ClaimCause(c, u)
    case Refund => RefundCause(c, u, now)
    case MarkRefundable => MarkCause(c, now)
    case ClosePool => CloseCause(c, u)
    case Donate(toPool, toBuyer, toVault) =>
      if toPool + toBuyer > Sums.Balance(c.wallets, u) || toVault > Sums.Balance(c.tokens, u)
      then Some(InsufficientFunds) else None
    case Elsewhere(lamports, tokenDelta) =>
      if Sums.Balance(c.wallets, u) + lamports < 0 || lamports > c.outside || Sums.Balance(c.tokens, u) + tokenDelta < 0
      then Some(InsufficientFunds) else None
  }

  /** Fails with the named error, or commits if there is none. */
  predicate Explained(o: Outcome, cause: Option<Error>) {
    match cause
    case Some(e) => o == Reverted(e)
    case None => o.Committed?
  }

  // ----------------------------------------------------------------- each in turn

  lemma CreateExplained(c: Chain, u: Wallet, now: i64, i: Instruction)
    requires i.CreatePool?
    ensures Explained(CreatePoolTx(c, u, now, i), CreateCause(c, u, now, i))
  {
  }

  /** What a depositor finds in an open pool: their own live record, or none. */
  predicate DepositorReady(c: Chain, u: Wallet) {
    c.lifetime.Live? && c.pool.status.Open? ==>
      && c.key != DEFAULT_PUBKEY
      && c.pool.contributorCount == |c.contributions|
      && (u in c.contributions ==>
            var r := c.contributions[u];
            r.contributor == u && r.pool == c.key && !r.refunded && !r.claimed && r.amount <= c.pool.totalContributed)
  }

  lemma DepositorIsReady(c: Chain, u: Wallet)
    requires Reachable(c)
    ensures DepositorReady(c, u)
  {
    ReachableKeeps(c);
    if c.lifetime.Live? && u in c.contributions {
      assert RecordOk(c, u, c.contributions[u]);
      AmountBelowTotal(c, u);
    }
  }

  lemma DepositExplained(c: Chain, u: Wallet, now: i64, amount: u64, recordBump: u8, recordRent: nat)
    requires DepositorReady(c, u)
    requires u != DEFAULT_PUBKEY
    ensures Explained(ContributeTx(c, u, now, amount, recordBump, recordRent),
                      ContributeCause(c, u, now, amount, recordRent))
  {
  }

  lemma LaunchExplained(c: Chain, now: i64, mint: Pubkey)
    requires Reachable(c)
    ensures Explained(BeginLaunchTx(c, now, mint), LaunchCause(c, now, mint))
  {
    ReachableKeeps(c);
  }

  lemma BuyExplained(c: Chain, now: i64, i: Instruction)
    requires i.CompleteBuy?
    requires Reachable(c)
    ensures Explained(CompleteBuyTx(c, now, i), BuyCause(c, now, i))
  {
    ReachableKeeps(c);
  }

  lemma FinalizeExplained(c: Chain, curveData: seq<u8>)
    requires Reachable(c)
    ensures Explained(FinalizeTx(c, curveData), FinalizeCause(c, curveData))
  {
    ReachableKeeps(c);
    Guards.FinalizePasses(c, curveData);
    Guards.PriceRead(c.pool, curveData);
  }

  lemma ClaimExplained(c: Chain, u: Wallet)
    requires Reachable(c)
    ensures Explained(ClaimTx(c, u), ClaimCause(c, u))
  {
    ReachableKeeps(c);
    Guards.ClaimPasses(c, u);
    if c.lifetime.Live? && c.pool.status.Finalized? && u in c.contributions {
      assert RecordOk(c, u, c.contributions[u]);
      AmountBelowTotal(c, u);
      BurnMath.AllocationIsShare(c.pool.distributable, c.contributions[u].amount, c.pool.totalContributed);
      FloorIsLargest(c.pool.distributable * c.contributions[u].amount, c.pool.totalContributed, 1);
    }
  }

  lemma RefundExplained(c: Chain, u: Wallet, now: i64)
    requires Reachable(c)
    ensures Explained(RefundTx(c, u, now), RefundCause(c, u, now))
  {
    ReachableKeeps(c);
    Guards.RefundPasses(c, u, now);
    if c.lifetime.Live? && u in c.contributions {
      assert RecordOk(c, u, c.contributions[u]);
    }
  }

  lemma MarkExplained(c: Chain, now: i64)
    ensures Explained(MarkRefundableTx(c, now), MarkCause(c, now))
  {
  }

  lemma CloseExplained(c: Chain, u: Wallet)
    requires Reachable(c)
    ensures Explained(ClosePoolTx(c, u), CloseCause(c, u))
  {
    ReachableKeeps(c);
    Sums.SumBounds(c.wallets, u);
  }

  /** In every state callers can bring a pool into, each transaction's success or error is the one its cause says. */
  lemma FailureExplained(c: Chain, tx: Tx)
    requires Reachable(c)
    ensures Explained(Step(c, tx), Cause(c, tx))
  {
    var u, now := tx.signer, tx.now;
    if u != DEFAULT_PUBKEY {
      match tx.instruction
      case CreatePool(_, _, _, _, _, _, _, _) => CreateExplained(c, u, now, tx.instruction);
      case Contribute(amount, bump, rent) =>
        DepositorIsReady(c, u);
        DepositExplained(c, u, now, amount, bump, rent);
      case BeginLaunch(mint) => LaunchExplained(c, now, mint);
      case CompleteBuy(_, _, _, _) => BuyExplained(c, now, tx.instruction);
      case Finalize(curveData) => FinalizeExplained(c, curveData);
      case Claim => ClaimExplained(c, u);
      case Refund => RefundExplained(c, u, now);
      case MarkRefundable => MarkExplained(c, now);
      case ClosePool => CloseExplained(c, u);
      case _ =>
    }
  }
}
