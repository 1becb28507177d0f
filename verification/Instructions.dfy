/**
 The nine instructions as functions from a state to the committed state or the error
 that reverts the transaction, and runs of transactions. The class in EscrowProgram.dfy
 performs the same instructions step by step.
 */
module Instructions {
  import opened Errors
  import opened Numbers
  import opened State
  import opened Sums
  import opened Wrappers

  import BurnMath
  import CurveReserves

  /** A transaction commits a new state or is reverted with an error. */
  datatype Outcome = Committed(after: Chain) | Reverted(error: Error)

  /** The bonding curve account handed to `complete_buy`. */
  datatype CurveAccount = CurveAccount(data: seq<u8>, ownedByPump: bool)

  /** What the pump program does when called: refuse, or take `spent` and leave the vault and the curve changed. */
  datatype PumpOutcome = PumpRejects | PumpFills(spent: nat, vaultAfter: u64, curveAfter: seq<u8>)

  datatype Instruction =
    | CreatePool(bump: u8, buyerBump: u8, seed: u64, launchAt: i64, graceSecs: i64,
                 minRaise: u64, maxPool: u64, minContribution: u64)
    | Contribute(amount: u64, recordBump: u8, recordRent: nat)
    | BeginLaunch(mint: Pubkey)
    | CompleteBuy(buyMint: Pubkey, minTokensOut: u64, curve: CurveAccount, pump: PumpOutcome)
    | Finalize(curveData: seq<u8>)
    | Claim
    | Refund
    | MarkRefundable
    | ClosePool
    // third parties, outside the program
    | Donate(toPool: nat, toBuyer: nat, toVault: nat)
    | Elsewhere(lamports: int, tokenDelta: int)

  datatype Tx = Tx(signer: Wallet, now: i64, instruction: Instruction)

  // -------------------------------------------------------------- create_pool

  /** What an account still lacks of the rent minimum. */
  function TopUp(lamports: nat, rent: nat): nat {
    if lamports < rent then rent - lamports else 0
  }

  function TermsCheck(now: i64, i: Instruction): Check
    requires i.CreatePool?
  {
    if i.graceSecs <= 0 then Fail(InvalidParams) else
    if i.minContribution == 0 then Fail(InvalidParams) else
    if i.minRaise < i.minContribution then Fail(InvalidParams) else
    if i.maxPool < i.minRaise then Fail(InvalidParams) else
    if i.launchAt <= now then Fail(InvalidParams) else
    if i.launchAt + i.graceSecs > I64_MAX then Fail(MathOverflow) else
    Pass
  }

  function NewPool(u: Wallet, i: Instruction): Pool
    requires i.CreatePool? && i.launchAt + i.graceSecs <= I64_MAX && i.graceSecs > 0
  {
    BLANK_POOL.(bump := i.bump, buyerBump := i.buyerBump, creator := u, seed := i.seed, launchAt := i.launchAt,
                graceEndsAt := i.launchAt + i.graceSecs, minRaise := i.minRaise, maxPool := i.maxPool,
                minContribution := i.minContribution)
  }

  function CreatePoolTx(c: Chain, u: Wallet, now: i64, i: Instruction): Outcome
    requires i.CreatePool?
  {
    if !c.lifetime.Absent? then Reverted(AccountAlreadyInUse) else
    var topUp := TopUp(c.poolLamports, c.rent);
    if topUp > Balance(c.wallets, u) then Reverted(InsufficientFunds) else
    var check := TermsCheck(now, i);
    if check.Fail? then Reverted(check.error) else
    var p := NewPool(u, i);
    Committed(c.(lifetime := Live,
                 wallets := c.wallets[u := Balance(c.wallets, u) - topUp],
                 poolLamports := c.poolLamports + topUp,
                 pool := p,
                 log := c.log + [PoolCreated(u, p.seed, p.launchAt, p.graceEndsAt, p.minRaise, p.maxPool,
                                             p.minContribution)]))
  }

  // --------------------------------------------------------------- contribute

  datatype Crediting = CreditedAs(record: Contribution, count: u32) | NotCredited(error: Error)

  /** The contributor's record and the pool's count of records after adding `amount`. */
  function Credited(found: Contribution, count: u32, pool: Pubkey, u: Wallet, amount: u64, bump: u8)
    : Crediting
  {
    var isNew := || found.contributor == DEFAULT_PUBKEY
                 || (found.amount == 0 && !found.refunded && found.pool == DEFAULT_PUBKEY);
    if isNew && count == U32_MAX then NotCredited(MathOverflow) else
    var record := if isNew then Contribution(bump, pool, u, found.amount, false, false) else found;
    if record.contributor != u then NotCredited(NotContributor) else
    if record.pool != pool then NotCredited(NotContributor) else
    if record.refunded then NotCredited(NothingToRefund) else
    if record.claimed then NotCredited(NothingToClaim) else
    if record.amount + amount > U64_MAX then NotCredited(MathOverflow) else
    CreditedAs(record.(amount := record.amount + amount), if isNew then count + 1 else count)
  }

  function DepositCheck(p: Pool, now: i64, amount: u64): Check {
    if amount == 0 then Fail(ZeroAmount) else
    if !p.status.Open? then Fail(BadStatus) else
    if now >= p.launchAt then Fail(ContributionClosed) else
    if amount < p.minContribution then Fail(ContributionTooSmall) else
    if p.totalContributed + amount > U64_MAX then Fail(MathOverflow) else
    if p.totalContributed + amount > p.maxPool then Fail(MaxPoolExceeded) else
    Pass
  }

  /** `init_if_needed`: a first-time contributor pays for a blank record. */
  function InitRecordTx(c: Chain, u: Wallet, recordRent: nat): Outcome {
    if u in c.contributions then Committed(c) else
    if recordRent > Balance(c.wallets, u) then Reverted(InsufficientFunds) else
    Committed(c.(wallets := c.wallets[u := Balance(c.wallets, u) - recordRent],
                 outside := c.outside + recordRent,
                 contributions := c.contributions[u := BLANK_CONTRIBUTION]))
  }

  function DepositTx(c: Chain, u: Wallet, now: i64, amount: u64, recordBump: u8): Outcome
    requires u in c.contributions
  {
    var p := c.pool;
    var check := DepositCheck(p, now, amount);
    if check.Fail? then Reverted(check.error) else
    if amount > Balance(c.wallets, u) then Reverted(InsufficientFunds) else
    match Credited(c.contributions[u], p.contributorCount, c.key, u, amount, recordBump)
    case NotCredited(error) => Reverted(error)
    case CreditedAs(record, count) =>
      Committed(c.(wallets := c.wallets[u := Balance(c.wallets, u) - amount],
                   poolLamports := c.poolLamports + amount,
                   contributions := c.contributions[u := record],
                   pool := p.(totalContributed := p.totalContributed + amount, contributorCount := count),
                   log := c.log + [Contributed(u, amount, p.totalContributed + amount)]))
  }

  function ContributeTx(c: Chain, u: Wallet, now: i64, amount: u64, recordBump: u8, recordRent: nat): Outcome {
    if !c.lifetime.Live? then Reverted(AccountNotInitialized) else
    match InitRecordTx(c, u, recordRent)
    case Reverted(error) => Reverted(error)
    case Committed(c') => DepositTx(c', u, now, amount, recordBump)
  }

  // ------------------------------------------------------------- begin_launch

  function BeginLaunchTx(c: Chain, now: i64, mint: Pubkey): Outcome {
    if !c.lifetime.Live? then Reverted(AccountNotInitialized) else
    var p := c.pool;
    if !p.status.Open? then Reverted(BadStatus) else
    if mint == DEFAULT_PUBKEY then Reverted(InvalidParams) else
    if now < p.launchAt then Reverted(LaunchTooEarly) else
    if now >= p.graceEndsAt then Reverted(LaunchGraceExpired) else
    if p.totalContributed < p.minRaise then Reverted(MinRaiseNotMet) else
    if p.mint != DEFAULT_PUBKEY then Reverted(MintAlreadySet) else
    Committed(c.(pool := p.(mint := mint, status := Launching),
                 log := c.log + [LaunchBegun(mint, p.totalContributed)]))
  }

  // ------------------------------------------------------------- complete_buy

  /** `saturating_sub`: how many tokens the call added to the vault. */
  function Gained(before: nat, after: u64): u64 {
    if after > before then after - before else 0
  }

  /** The reserves snapshot taken right after the buy; unreadable data leaves zeros. */
  function SnapshotReserves(data: seq<u8>): CurveReserves.Reserves {
    match CurveReserves.DecodeReserves(data)
    case Ok(r) => r
    case Err(_) => CurveReserves.NO_RESERVES
  }

  function CompleteBuyTx(c: Chain, now: i64, i: Instruction): Outcome
    requires i.CompleteBuy?
  {
    if !c.lifetime.Live? then Reverted(AccountNotInitialized) else
    var p := c.pool;
    if p.status.Bought? then Committed(c)
    else
      if !p.status.Launching? then Reverted(BadStatus) else
      if now >= p.graceEndsAt then Reverted(LaunchGraceExpired) else
      if p.mint == DEFAULT_PUBKEY then Reverted(MintNotSet) else
      if i.buyMint != p.mint then Reverted(MintMismatch) else
      if |i.curve.data| == 0 || !i.curve.ownedByPump then Reverted(CreateNotLanded) else
      var spendable := p.totalContributed;
      if spendable == 0 then Reverted(ZeroAmount) else
      if spendable > c.poolLamports then Reverted(MathOverflow) else
      if c.buyerLamports + spendable > U64_MAX then Reverted(MathOverflow) else
      PumpBuy(c, i, spendable)
  }

  /** The pump call itself: it takes no more than offered and gives no less than asked, or it fails. */
  function PumpBuy(c: Chain, i: Instruction, spendable: u64): Outcome
    requires i.CompleteBuy?
    requires spendable <= c.poolLamports
  {
    match i.pump
    case PumpRejects => Reverted(BuyFailed)
    case PumpFills(spent, vaultAfter, curveAfter) =>
      var bought := Gained(c.vault, vaultAfter);
      if spent > spendable || bought < i.minTokensOut then Reverted(BuyFailed) else
      if bought == 0 then Reverted(ZeroTokensBought) else
      var r := SnapshotReserves(curveAfter);
      Committed(c.(poolLamports := c.poolLamports - spendable,
                   buyerLamports := c.buyerLamports + spendable - spent,
                   outside := c.outside + spent,
                   vault := vaultAfter,
                   pool := c.pool.(tokensBought := bought, postVirtualToken := r.virtualToken,
                                   postVirtualQuote := r.virtualQuote, status := Bought),
                   log := c.log + [BuyCompleted(c.pool.mint, spendable, bought, r.virtualToken, r.virtualQuote)]))
  }

  // ----------------------------------------------------------------- finalize

  /** Virtual token and quote reserves: live ones when the account is long enough, else the snapshot of the buy. */
  function ReservesFor(p: Pool, curveData: seq<u8>): (u64, u64) {
    match CurveReserves.DecodeReserves(curveData)
    case Ok(r) => (r.virtualToken, r.virtualQuote)
    case Err(_) => (p.postVirtualToken, p.postVirtualQuote)
  }

  function FinalizeTx(c: Chain, curveData: seq<u8>): Outcome {
    if !c.lifetime.Live? then Reverted(AccountNotInitialized) else
    var p := c.pool;
    if !p.status.Bought? then Reverted(BadStatus) else
    if p.tokensBought == 0 then Reverted(ZeroTokensBought) else
    var (vtok, vquote) := ReservesFor(p, curveData);
    if vquote == 0 || vtok == 0 then Reverted(MathOverflow) else
    match BurnMath.ComputeDistributable(p.totalContributed, p.tokensBought, vtok, vquote)
    case Err(error) => Reverted(error)
    case Ok(split) =>
    if split.burned > c.vault then Reverted(InsufficientFunds) else
    Committed(c.(vault := c.vault - split.burned,
                 pool := p.(distributable := split.distributable, burned := split.burned, postVirtualToken := vtok,
                            postVirtualQuote := vquote, status := PoolStatus.Finalized),
                 log := c.log + [Event.Finalized(p.mint, p.totalContributed, p.tokensBought, split.distributable,
                                                 split.burned, vtok, vquote)]))
  }

  // -------------------------------------------------------------------- claim

  function ClaimTx(c: Chain, u: Wallet): Outcome {
    if !c.lifetime.Live? then Reverted(AccountNotInitialized) else
    if u !in c.contributions then Reverted(AccountNotInitialized) else
    var p, record := c.pool, c.contributions[u];
    if record.pool != c.key then Reverted(ConstraintViolated) else
    if !p.status.Finalized? then Reverted(ClaimNotAllowed) else
    if record.contributor != u then Reverted(NotContributor) else
    if record.claimed then Reverted(NothingToClaim) else
    if record.refunded then Reverted(NothingToClaim) else
    if record.amount == 0 then Reverted(NothingToClaim) else
    match BurnMath.Allocation(p.distributable, record.amount, p.totalContributed)
    case Err(error) => Reverted(error)
    case Ok(share) =>
    if share == 0 && p.distributable > 0 then Reverted(NothingToClaim) else
    if share > c.vault then Reverted(InsufficientFunds) else
    if p.totalClaimed + share > U64_MAX then Reverted(MathOverflow) else
    Committed(c.(vault := c.vault - share,
                 tokens := c.tokens[u := Balance(c.tokens, u) + share],
                 contributions := c.contributions[u := record.(claimed := true)],
                 pool := p.(totalClaimed := p.totalClaimed + share),
                 log := c.log + [Claimed(u, record.amount, share)]))
  }

  // ------------------------------------------------------------------- refund

  predicate RefundAllowed(p: Pool, now: i64) {
    match p.status
    case Refundable => true
    case Launching => now >= p.graceEndsAt
    case Open => now >= p.graceEndsAt
    case _ => false
  }

  function RefundableCheck(record: Contribution, u: Wallet): Check {
    if record.contributor != u then Fail(NotContributor) else
    if record.refunded then Fail(NothingToRefund) else
    if record.claimed then Fail(NothingToRefund) else
    if record.amount == 0 then Fail(NothingToRefund) else
    Pass
  }

  function RefundTx(c: Chain, u: Wallet, now: i64): Outcome {
    if !c.lifetime.Live? then Reverted(AccountNotInitialized) else
    if u !in c.contributions then Reverted(AccountNotInitialized) else
    var p, record := c.pool, c.contributions[u];
    if record.pool != c.key then Reverted(ConstraintViolated) else
    if !RefundAllowed(p, now) then Reverted(RefundNotAllowed) else
    var check := RefundableCheck(record, u);
    if check.Fail? then Reverted(check.error) else
    var amount := record.amount;
    if amount > p.totalContributed then Reverted(MathOverflow) else
    if p.totalRefunded + amount > U64_MAX then Reverted(MathOverflow) else
    if amount > c.poolLamports then Reverted(MathOverflow) else
    if Balance(c.wallets, u) + amount > U64_MAX then Reverted(MathOverflow) else
    Committed(c.(poolLamports := c.poolLamports - amount,
                 wallets := c.wallets[u := Balance(c.wallets, u) + amount],
                 contributions := c.contributions[u := record.(refunded := true, amount := 0)],
                 pool := p.(status := Refundable, totalContributed := p.totalContributed - amount,
                            totalRefunded := p.totalRefunded + amount),
                 log := c.log + [Refunded(u, amount)]))
  }

  // ---------------------------------------------------------- mark_refundable

  function MarkRefundableTx(c: Chain, now: i64): Outcome {
    if !c.lifetime.Live? then Reverted(AccountNotInitialized) else
    var p := c.pool;
    if now < p.graceEndsAt then Reverted(LaunchTooEarly) else
    if !p.status.Launching? && !p.status.Open? then Reverted(BadStatus) else
    Committed(c.(pool := p.(status := Refundable), log := c.log + [Event.MarkedRefundable]))
  }

  // --------------------------------------------------------------- close_pool

  function ClosePoolTx(c: Chain, u: Wallet): Outcome {
    if !c.lifetime.Live? then Reverted(AccountNotInitialized) else
    var p := c.pool;
    if p.creator != u then Reverted(ConstraintViolated) else
    if p.totalContributed != 0 then Reverted(PoolNotEmpty) else
    if !p.status.Refundable? && !p.status.Finalized? && !p.status.Closed? then Reverted(BadStatus) else
    if Balance(c.wallets, u) + c.poolLamports > U64_MAX then Reverted(MathOverflow) else
    Committed(c.(lifetime := Gone,
                 wallets := c.wallets[u := Balance(c.wallets, u) + c.poolLamports],
                 poolLamports := 0))
  }

  // ------------------------------------------------------------ third parties

  /** Anybody can add lamports to the two addresses and tokens to the vault. */
  function DonateTx(c: Chain, u: Wallet, toPool: nat, toBuyer: nat, toVault: nat): Outcome {
    if toPool + toBuyer > Balance(c.wallets, u) then Reverted(InsufficientFunds) else
    if toVault > Balance(c.tokens, u) then Reverted(InsufficientFunds) else
    Committed(c.(wallets := c.wallets[u := Balance(c.wallets, u) - toPool - toBuyer],
                 tokens := c.tokens[u := Balance(c.tokens, u) - toVault],
                 poolLamports := c.poolLamports + toPool,
                 buyerLamports := c.buyerLamports + toBuyer,
                 vault := c.vault + toVault))
  }

  /** Anybody earns and spends lamports and tokens in ways that do not involve the pool. */
  function ElsewhereTx(c: Chain, u: Wallet, lamports: int, tokenDelta: int): Outcome {
    if 0 > Balance(c.wallets, u) + lamports then Reverted(InsufficientFunds) else
    if lamports > c.outside then Reverted(InsufficientFunds) else
    if 0 > Balance(c.tokens, u) + tokenDelta then Reverted(InsufficientFunds) else
    Committed(c.(wallets := c.wallets[u := Balance(c.wallets, u) + lamports],
                 outside := c.outside - lamports,
                 tokens := c.tokens[u := Balance(c.tokens, u) + tokenDelta]))
  }

  // --------------------------------------------------------------------- runs

  /** No key pair has the default public key, so nothing is ever signed by it. */
  function Step(c: Chain, tx: Tx): Outcome {
    var u, now := tx.signer, tx.now;
    if u == DEFAULT_PUBKEY then Reverted(MissingSignature) else
    match tx.instruction
    case CreatePool(_, _, _, _, _, _, _, _) => CreatePoolTx(c, u, now, tx.instruction)
    case Contribute(amount, bump, rent) => ContributeTx(c, u, now, amount, bump, rent)
    case BeginLaunch(mint) => BeginLaunchTx(c, now, mint)
    case CompleteBuy(_, _, _, _) => CompleteBuyTx(c, now, tx.instruction)
    case Finalize(curveData) => FinalizeTx(c, curveData)
    case Claim => ClaimTx(c, u)
    case Refund => RefundTx(c, u, now)
    case MarkRefundable => MarkRefundableTx(c, now)
    case ClosePool => ClosePoolTx(c, u)
    case Donate(toPool, toBuyer, toVault) => DonateTx(c, u, toPool, toBuyer, toVault)
    case Elsewhere(lamports, tokenDelta) => ElsewhereTx(c, u, lamports, tokenDelta)
  }

  /** A failed transaction leaves no trace. */
  function Next(c: Chain, tx: Tx): Chain {
    match Step(c, tx)
    case Committed(c') => c'
    case Reverted(_) => c
  }

  function Run(c: Chain, txs: seq<Tx>): Chain
    decreases |txs|
  {
    if txs == [] then c else Run(Next(c, txs[0]), txs[1..])
  }

  /** Every transaction of the sequence succeeds. */
  ghost predicate AllCommit(c: Chain, txs: seq<Tx>)
    decreases |txs|
  {
    txs == [] || (Step(c, txs[0]).Committed? && AllCommit(Next(c, txs[0]), txs[1..]))
  }

  ghost predicate Distinct(order: seq<Wallet>) {
    forall i, j :: 0 <= i < j < |order| ==> order[i] != order[j]
  }

  /** Whatever any callers can make of any pool. */
  ghost predicate Reachable(c: Chain) {
    exists start: Chain, txs: seq<Tx> :: Genesis(start) && c == Run(start, txs)
  }
}
