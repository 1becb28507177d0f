/**
 The program as it runs: one object that holds the pool account, the contribution records
 and the balances, and handlers that check and write in the order of the Rust source. The
 pool account is a deserialised record, as in Anchor, so `pool.status = s` is written
 `pool := pool.(status := s)`. A handler that fails may already have written; `Execute` then
 restores the accounts, as the runtime does for a failed transaction.
 */
module EscrowProgram {
  import opened Errors
  import opened Instructions
  import opened Numbers
  import opened State
  import opened Sums

  import BurnMath
  import CurveReserves

  /** A handler meets its specification: same success, same state, same error. */
  predicate Meets(spec: Outcome, r: Check, after: Chain) {
    match spec
    case Committed(c) => r == Pass && after == c
    case Reverted(e) => r == Fail(e)
  }

  class Escrow {
    const key: Wallet
    const rent: nat
    var lifetime: Lifetime
    var pool: Pool
    // Contribution accounts
    var contributions: map<Wallet, Contribution>
    // Balances
    var poolLamports: nat
    var buyerLamports: nat
    var vault: nat
    var wallets: map<Wallet, nat>
    var tokens: map<Wallet, nat>
    var outside: nat
    // Emitted events
    var log: seq<Event>

    function Snapshot(): Chain
      reads this
    {
      Chain(key, rent, lifetime, pool, contributions, poolLamports, buyerLamports, vault, wallets, tokens,
            outside, log)
    }

    constructor (c: Chain)
      ensures Snapshot() == c
    {
      key, rent, lifetime := c.key, c.rent, c.lifetime;
      pool := c.pool;
      contributions, log := c.contributions, c.log;
      poolLamports, buyerLamports, vault := c.poolLamports, c.buyerLamports, c.vault;
      wallets, tokens, outside := c.wallets, c.tokens, c.outside;
    }

    /** Put every account back as it was. */
    method Revert(c: Chain)
      requires c.key == key && c.rent == rent
      modifies this
      ensures Snapshot() == c
    {
      lifetime := c.lifetime;
      pool := c.pool;
      contributions, log := c.contributions, c.log;
      poolLamports, buyerLamports, vault := c.poolLamports, c.buyerLamports, c.vault;
      wallets, tokens, outside := c.wallets, c.tokens, c.outside;
    }

    /** `init`: the creator tops the new account up to the rent minimum. */
    method InitPool(u: Wallet) returns (r: Check)
      modifies this`wallets, this`poolLamports, this`lifetime
      ensures r.Pass? <==> old(lifetime).Absent? && TopUp(old(poolLamports), rent) <= Balance(old(wallets), u)
      ensures r.Fail? ==> r.error == if old(lifetime).Absent? then InsufficientFunds else AccountAlreadyInUse
      ensures r.Pass? ==>
                && lifetime == Live
                && wallets == old(wallets)[u := Balance(old(wallets), u) - TopUp(old(poolLamports), rent)]
                && poolLamports == old(poolLamports) + TopUp(old(poolLamports), rent)
    {
      r := Pass;
      :- Require(lifetime.Absent?, AccountAlreadyInUse);
      var topUp := TopUp(poolLamports, rent);
      :- Require(topUp <= Balance(wallets, u), InsufficientFunds);
      wallets := wallets[u := Balance(wallets, u) - topUp];
      poolLamports := poolLamports + topUp;
      lifetime := Live;
    }

    method CreatePoolHandler(u: Wallet, now: i64, i: Instruction) returns (r: Check)
      requires i.CreatePool?
      modifies this
      ensures Meets(CreatePoolTx(old(Snapshot()), u, now, i), r, Snapshot())
    {
      r := Pass;
      :- InitPool(u);
      :- CheckTerms(now, i);

      SetPoolData(u, i);
      log := log + [PoolCreated(pool.creator, pool.seed, pool.launchAt, pool.graceEndsAt, pool.minRaise, pool.maxPool,
                                pool.minContribution)];
    }

    /** Every field of the new account is assigned. */
    method SetPoolData(u: Wallet, i: Instruction)
      requires i.CreatePool? && i.launchAt + i.graceSecs <= I64_MAX && i.graceSecs > 0
      modifies this`pool
      ensures pool == NewPool(u, i)
    {
      pool := pool.(bump := i.bump, buyerBump := i.buyerBump, status := Open, creator := u, seed := i.seed);
      pool := pool.(mint := DEFAULT_PUBKEY, launchAt := i.launchAt, graceEndsAt := i.launchAt + i.graceSecs);
      pool := pool.(minRaise := i.minRaise, maxPool := i.maxPool, minContribution := i.minContribution);
      pool := pool.(totalContributed := 0, contributorCount := 0, tokensBought := 0, distributable := 0);
      pool := pool.(burned := 0, postVirtualToken := 0, postVirtualQuote := 0, totalClaimed := 0, totalRefunded := 0);
    }

    method CheckTerms(now: i64, i: Instruction) returns (r: Check)
      requires i.CreatePool?
      ensures r == TermsCheck(now, i)
    {
      r := Pass;
      :- Require(i.graceSecs > 0, InvalidParams);
      :- Require(i.minContribution > 0, InvalidParams);
      :- Require(i.minRaise >= i.minContribution, InvalidParams);
      :- Require(i.maxPool >= i.minRaise, InvalidParams);
      :- Require(i.launchAt > now, InvalidParams);
      :- Require(i.launchAt + i.graceSecs <= I64_MAX, MathOverflow);
    }

    method ContributeHandler(u: Wallet, now: i64, amount: u64, recordBump: u8, recordRent: nat) returns (r: Check)
      modifies this
      ensures Meets(ContributeTx(old(Snapshot()), u, now, amount, recordBump, recordRent), r, Snapshot())
    {
      r := Pass;
      :- Require(lifetime.Live?, AccountNotInitialized);
      :- InitRecordIfNeeded(u, recordRent);
      r := Deposit(u, now, amount, recordBump);
    }

    /** `init_if_needed`. */
    method InitRecordIfNeeded(u: Wallet, recordRent: nat) returns (r: Check)
      modifies this`wallets, this`outside, this`contributions
      ensures Meets(InitRecordTx(old(Snapshot()), u, recordRent), r, Snapshot())
    {
      if u !in contributions {
        if recordRent > Balance(wallets, u) {
          return Fail(InsufficientFunds);
        }
        wallets := wallets[u := Balance(wallets, u) - recordRent];
        outside := outside + recordRent;
        contributions := contributions[u := BLANK_CONTRIBUTION];
      }
      r := Pass;
    }

    method Deposit(u: Wallet, now: i64, amount: u64, recordBump: u8) returns (r: Check)
      requires u in contributions
      modifies this
      ensures Meets(DepositTx(old(Snapshot()), u, now, amount, recordBump), r, Snapshot())
    {
      r := Pass;
      :- CheckDeposit(now, amount);
      var newTotal := pool.totalContributed + amount;
      :- TransferToPool(u, amount);
      :- CreditRecord(u, amount, recordBump);
      pool := pool.(totalContributed := newTotal);
      log := log + [Contributed(contributions[u].contributor, amount, pool.totalContributed)];
    }

    /** The checks between account validation and the transfer. */
    method CheckDeposit(now: i64, amount: u64) returns (r: Check)
      ensures r == DepositCheck(pool, now, amount)
    {
      r := Pass;
      :- Require(amount > 0, ZeroAmount);
      :- Require(pool.status.Open?, BadStatus);
      :- Require(now < pool.launchAt, ContributionClosed);
      :- Require(amount >= pool.minContribution, ContributionTooSmall);
      var newTotal := pool.totalContributed + amount;
      :- Require(newTotal <= U64_MAX, MathOverflow);
      :- Require(newTotal <= pool.maxPool, MaxPoolExceeded);
    }

    /** The system program's transfer from a contributor to the pool account. */
    method TransferToPool(u: Wallet, amount: u64) returns (r: Check)
      modifies this`wallets, this`poolLamports
      ensures r == Require(amount <= Balance(old(wallets), u), InsufficientFunds)
      ensures r.Pass? ==>
                && wallets == old(wallets)[u := Balance(old(wallets), u) - amount]
                && poolLamports == old(poolLamports) + amount
    {
      r := Pass;
      :- Require(amount <= Balance(wallets, u), InsufficientFunds);
      wallets := wallets[u := Balance(wallets, u) - amount];
      poolLamports := poolLamports + amount;
    }

    /** Fill in a record seen for the first time, check it, and add the amount. */
    method CreditRecord(u: Wallet, amount: u64, recordBump: u8) returns (r: Check)
      requires u in contributions
      modifies this`contributions, this`pool
      ensures var spec := Credited(old(contributions)[u], old(pool.contributorCount), key, u, amount, recordBump);
              match spec
              case CreditedAs(record, count) => && r.Pass?
                                                && pool == old(pool).(contributorCount := count)
                                                && contributions == old(contributions)[u := record]
              case NotCredited(e) => r == Fail(e)
    {
      var record := contributions[u];
      var isNew := || record.contributor == DEFAULT_PUBKEY
                   || (record.amount == 0 && !record.refunded && record.pool == DEFAULT_PUBKEY);
      if isNew || record.contributor == DEFAULT_PUBKEY {
        record := record.(bump := recordBump, pool := key, contributor := u, claimed := false, refunded := false);
        if isNew {
          if pool.contributorCount == U32_MAX {
            return Fail(MathOverflow);
          }
          pool := pool.(contributorCount := pool.contributorCount + 1);
        }
      }
      :- Require(record.contributor == u, NotContributor);
      :- Require(record.pool == key, NotContributor);
      :- Require(!record.refunded, NothingToRefund);
      :- Require(!record.claimed, NothingToClaim);
      :- Require(record.amount + amount <= U64_MAX, MathOverflow);
      record := record.(amount := record.amount + amount);
      contributions := contributions[u := record];
      r := Pass;
    }

    method BeginLaunchHandler(now: i64, newMint: Pubkey) returns (r: Check)
      modifies this
      ensures Meets(BeginLaunchTx(old(Snapshot()), now, newMint), r, Snapshot())
    {
      r := Pass;
      :- Require(lifetime.Live?, AccountNotInitialized);
      :- Require(pool.status.Open?, BadStatus);
      :- Require(newMint != DEFAULT_PUBKEY, InvalidParams);
      :- Require(now >= pool.launchAt, LaunchTooEarly);
      :- Require(now < pool.graceEndsAt, LaunchGraceExpired);
      :- Require(pool.totalContributed >= pool.minRaise, MinRaiseNotMet);
      :- Require(pool.mint == DEFAULT_PUBKEY, MintAlreadySet);
      pool := pool.(mint := newMint);
      pool := pool.(status := Launching);
      log := log + [LaunchBegun(pool.mint, pool.totalContributed)];
    }

    method CompleteBuyHandler(now: i64, i: Instruction) returns (r: Check)
      requires i.CompleteBuy?
      modifies this
      ensures Meets(CompleteBuyTx(old(Snapshot()), now, i), r, Snapshot())
    {
      r := Pass;
      :- Require(lifetime.Live?, AccountNotInitialized);
      if pool.status.Bought? {
        return Pass;
      }
      :- Require(pool.status.Launching?, BadStatus);
      :- Require(now < pool.graceEndsAt, LaunchGraceExpired);
      :- Require(pool.mint != DEFAULT_PUBKEY, MintNotSet);
      :- Require(i.buyMint == pool.mint, MintMismatch);
      :- Require(|i.curve.data| > 0 && i.curve.ownedByPump, CreateNotLanded);

      var spendable := pool.totalContributed;
      :- Require(spendable > 0, ZeroAmount);
      :- Require(spendable <= poolLamports, MathOverflow);
      poolLamports := poolLamports - spendable;
      :- Require(buyerLamports + spendable <= U64_MAX, MathOverflow);
      buyerLamports := buyerLamports + spendable;

      var tokenBefore := vault;
      :- PumpCall(i, spendable);
      var bought := Gained(tokenBefore, vault);
      :- Require(bought > 0, ZeroTokensBought);

      var reserves := SnapshotReserves(i.pump.curveAfter);
      pool := pool.(tokensBought := bought);
      pool := pool.(postVirtualToken := reserves.virtualToken);
      pool := pool.(postVirtualQuote := reserves.virtualQuote);
      pool := pool.(status := Bought);
      log := log + [BuyCompleted(pool.mint, spendable, pool.tokensBought, pool.postVirtualToken,
                                 pool.postVirtualQuote)];
    }

    /** The pump program, acting on the buyer's lamports and the vault. */
    method PumpCall(i: Instruction, spendable: u64) returns (r: Check)
      requires i.CompleteBuy?
      requires spendable <= buyerLamports
      modifies this`buyerLamports, this`outside, this`vault
      ensures r.Fail? ==> r == Fail(BuyFailed)
      ensures r.Pass? <==>
                && i.pump.PumpFills?
                && i.pump.spent <= spendable
                && i.minTokensOut <= Gained(old(vault), i.pump.vaultAfter)
      ensures r.Pass? ==>
                && buyerLamports == old(buyerLamports) - i.pump.spent
                && outside == old(outside) + i.pump.spent
                && vault == i.pump.vaultAfter
    {
      match i.pump {
        case PumpRejects =>
          return Fail(BuyFailed);
        case PumpFills(spent, vaultAfter, _) =>
          :- Require(spent <= spendable && i.minTokensOut <= Gained(vault, vaultAfter), BuyFailed);
          buyerLamports := buyerLamports - spent;
          outside := outside + spent;
          vault := vaultAfter;
          r := Pass;
      }
    }

    method FinalizeHandler(curveData: seq<u8>) returns (r: Check)
      modifies this
      ensures Meets(FinalizeTx(old(Snapshot()), curveData), r, Snapshot())
    {
      r := Pass;
      :- Require(lifetime.Live?, AccountNotInitialized);
      :- Require(pool.status.Bought?, BadStatus);
      :- Require(pool.tokensBought > 0, ZeroTokensBought);
      var vtok, vquote := pool.postVirtualToken, pool.postVirtualQuote;
      if |curveData| >= 40 {
        var live := CurveReserves.DecodeReserves(curveData).value;
        vtok, vquote := live.virtualToken, live.virtualQuote;
      }
      :- Require(vquote > 0 && vtok > 0, MathOverflow);
      var computed := BurnMath.ComputeDistributable(pool.totalContributed, pool.tokensBought, vtok, vquote);
      if computed.Err? {
        return Fail(computed.error);
      }
      var split := computed.value;

      if split.burned > 0 {
        if split.burned > vault {
          return Fail(InsufficientFunds);
        }
        vault := vault - split.burned;
      }

      pool := pool.(distributable := split.distributable);
      pool := pool.(burned := split.burned);
      pool := pool.(postVirtualToken := vtok);
      pool := pool.(postVirtualQuote := vquote);
      pool := pool.(status := PoolStatus.Finalized);
      log := log + [Event.Finalized(pool.mint, pool.totalContributed, pool.tokensBought, pool.distributable,
                                    pool.burned, vtok, vquote)];
    }

    method ClaimHandler(u: Wallet) returns (r: Check)
      modifies this
      ensures Meets(ClaimTx(old(Snapshot()), u), r, Snapshot())
    {
      r := Pass;
      :- Require(lifetime.Live?, AccountNotInitialized);
      :- Require(u in contributions, AccountNotInitialized);
      var record := contributions[u];
      :- Require(record.pool == key, ConstraintViolated);
      :- Require(pool.status.Finalized?, ClaimNotAllowed);
      :- Require(record.contributor == u, NotContributor);
      :- Require(!record.claimed, NothingToClaim);
      :- Require(!record.refunded, NothingToClaim);
      :- Require(record.amount > 0, NothingToClaim);
      var computed := BurnMath.Allocation(pool.distributable, record.amount, pool.totalContributed);
      if computed.Err? {
        return Fail(computed.error);
      }
      var share := computed.value;
      :- Require(share > 0 || pool.distributable == 0, NothingToClaim);
      if share > 0 {
        if share > vault {
          return Fail(InsufficientFunds);
        }
        vault := vault - share;
      }
      tokens := tokens[u := Balance(tokens, u) + share];
      record := record.(claimed := true);
      contributions := contributions[u := record];
      :- Require(pool.totalClaimed + share <= U64_MAX, MathOverflow);
      pool := pool.(totalClaimed := pool.totalClaimed + share);
      log := log + [Claimed(record.contributor, record.amount, share)];
    }

    method CheckRefundable(record: Contribution, u: Wallet) returns (r: Check)
      ensures r == RefundableCheck(record, u)
    {
      r := Pass;
      :- Require(record.contributor == u, NotContributor);
      :- Require(!record.refunded, NothingToRefund);
      :- Require(!record.claimed, NothingToRefund);
      :- Require(record.amount > 0, NothingToRefund);
    }

    method MoveToRefunded(amount: u64) returns (r: Check)
      modifies this`pool
      ensures r == Require(amount <= old(pool).totalContributed && old(pool).totalRefunded + amount <= U64_MAX,
                           MathOverflow)
      ensures r.Pass? ==>
                && pool == old(pool).(totalContributed := old(pool).totalContributed - amount,
                                      totalRefunded := old(pool).totalRefunded + amount)
    {
      r := Pass;
      :- Require(amount <= pool.totalContributed, MathOverflow);
      pool := pool.(totalContributed := pool.totalContributed - amount);
      :- Require(pool.totalRefunded + amount <= U64_MAX, MathOverflow);
      pool := pool.(totalRefunded := pool.totalRefunded + amount);
    }

    /** Lamports moved from the pool account to a contributor, both sides checked. */
    method PayFromPool(u: Wallet, amount: u64) returns (r: Check)
      modifies this`wallets, this`poolLamports
      ensures r == Require(amount <= old(poolLamports) && Balance(old(wallets), u) + amount <= U64_MAX, MathOverflow)
      ensures r.Pass? ==>
                && wallets == old(wallets)[u := Balance(old(wallets), u) + amount]
                && poolLamports == old(poolLamports) - amount
    {
      r := Pass;
      :- Require(amount <= poolLamports, MathOverflow);
      poolLamports := poolLamports - amount;
      :- Require(Balance(wallets, u) + amount <= U64_MAX, MathOverflow);
      wallets := wallets[u := Balance(wallets, u) + amount];
    }

    method RefundHandler(u: Wallet, now: i64) returns (r: Check)
      modifies this
      ensures Meets(RefundTx(old(Snapshot()), u, now), r, Snapshot())
    {
      r := Pass;
      :- Require(lifetime.Live?, AccountNotInitialized);
      :- Require(u in contributions, AccountNotInitialized);
      var record := contributions[u];
      :- Require(record.pool == key, ConstraintViolated);
      :- Require(RefundAllowed(pool, now), RefundNotAllowed);
      if pool.status.Launching? || pool.status.Open? {
        if now >= pool.graceEndsAt && !pool.status.Bought? {
          pool := pool.(status := Refundable);
        }
      }
      :- CheckRefundable(record, u);

      var amount := record.amount;
      record := record.(refunded := true, amount := 0);
      contributions := contributions[u := record];
      :- MoveToRefunded(amount);
      :- PayFromPool(u, amount);
      log := log + [Refunded(record.contributor, amount)];
    }

    method MarkRefundableHandler(now: i64) returns (r: Check)
      modifies this
      ensures Meets(MarkRefundableTx(old(Snapshot()), now), r, Snapshot())
    {
      r := Pass;
      :- Require(lifetime.Live?, AccountNotInitialized);
      :- Require(now >= pool.graceEndsAt, LaunchTooEarly);
      :- Require(pool.status.Launching? || pool.status.Open?, BadStatus);
      pool := pool.(status := Refundable);
      log := log + [Event.MarkedRefundable];
    }

    method ClosePoolHandler(u: Wallet) returns (r: Check)
      modifies this
      ensures Meets(ClosePoolTx(old(Snapshot()), u), r, Snapshot())
    {
      r := Pass;
      :- Require(lifetime.Live?, AccountNotInitialized);
      :- Require(pool.creator == u, ConstraintViolated);
      :- Require(pool.totalContributed == 0, PoolNotEmpty);
      :- Require(pool.status.Refundable? || pool.status.Finalized? || pool.status.Closed?, BadStatus);
      :- Require(Balance(wallets, u) + poolLamports <= U64_MAX, MathOverflow);
      wallets := wallets[u := Balance(wallets, u) + poolLamports];
      poolLamports := 0;
      lifetime := Gone;
    }

    method DonateHandler(u: Wallet, toPool: nat, toBuyer: nat, toVault: nat) returns (r: Check)
      modifies this
      ensures Meets(DonateTx(old(Snapshot()), u, toPool, toBuyer, toVault), r, Snapshot())
    {
      r := Pass;
      :- Require(toPool + toBuyer <= Balance(wallets, u), InsufficientFunds);
      wallets := wallets[u := Balance(wallets, u) - toPool - toBuyer];
      poolLamports, buyerLamports := poolLamports + toPool, buyerLamports + toBuyer;
      :- Require(toVault <= Balance(tokens, u), InsufficientFunds);
      tokens := tokens[u := Balance(tokens, u) - toVault];
      vault := vault + toVault;
    }

    method ElsewhereHandler(u: Wallet, lamports: int, tokenDelta: int) returns (r: Check)
      modifies this
      ensures Meets(ElsewhereTx(old(Snapshot()), u, lamports, tokenDelta), r, Snapshot())
    {
      r := Pass;
      :- Require(0 <= Balance(wallets, u) + lamports, InsufficientFunds);
      :- Require(lamports <= outside, InsufficientFunds);
      wallets := wallets[u := Balance(wallets, u) + lamports];
      outside := outside - lamports;
      :- Require(0 <= Balance(tokens, u) + tokenDelta, InsufficientFunds);
      tokens := tokens[u := Balance(tokens, u) + tokenDelta];
    }

    method Dispatch(tx: Tx) returns (r: Check)
      modifies this
      ensures Meets(Step(old(Snapshot()), tx), r, Snapshot())
    {
      var u, now := tx.signer, tx.now;
      :- Require(u != DEFAULT_PUBKEY, MissingSignature);
      match tx.instruction {
        case CreatePool(_, _, _, _, _, _, _, _) => r := CreatePoolHandler(u, now, tx.instruction);
        case Contribute(amount, recordBump, rentDue) => r := ContributeHandler(u, now, amount, recordBump, rentDue);
        case BeginLaunch(newMint) => r := BeginLaunchHandler(now, newMint);
        case CompleteBuy(_, _, _, _) => r := CompleteBuyHandler(now, tx.instruction);
        case Finalize(curveData) => r := FinalizeHandler(curveData);
        case Claim => r := ClaimHandler(u);
        case Refund => r := RefundHandler(u, now);
        case MarkRefundable => r := MarkRefundableHandler(now);
        case ClosePool => r := ClosePoolHandler(u);
        case Donate(toPool, toBuyer, toVault) => r := DonateHandler(u, toPool, toBuyer, toVault);
        case Elsewhere(lamports, tokenDelta) => r := ElsewhereHandler(u, lamports, tokenDelta);
      }
    }

    /** One transaction: all of a handler's writes, or none of them. */
    method Execute(tx: Tx) returns (r: Check)
      modifies this
      ensures Snapshot() == Next(old(Snapshot()), tx)
      ensures r.Pass? <==> Step(old(Snapshot()), tx).Committed?
      ensures r.Fail? ==> r.error == Step(old(Snapshot()), tx).error && Snapshot() == old(Snapshot())
    {
      var before := Snapshot();
      r := Dispatch(tx);
      if r.Fail? {
        Revert(before);
      }
    }

    /** Transactions in order, failed ones included. */
    method ExecuteAll(txs: seq<Tx>)
      modifies this
      ensures Snapshot() == Run(old(Snapshot()), txs)
    {
      var i := 0;
      while i < |txs|
        invariant 0 <= i <= |txs|
        invariant Run(Snapshot(), txs[i..]) == Run(old(Snapshot()), txs)
      {
        var _ := Execute(txs[i]);
        assert txs[i..][1..] == txs[i + 1..];
        i := i + 1;
      }
    }
  }
}
