/** What every instruction keeps, whoever calls it and whatever the clock says. */
module Invariants {
  import opened BurnMath
  import opened Instructions
  import opened Numbers
  import opened State
  import opened Sums

  import Wrappers

  // ------------------------------------------------------ reading the event log

  function DepositIn(e: Event): nat {
    if e.Contributed? then e.amount else 0
  }

  function BuyIn(e: Event): nat {
    if e.BuyCompleted? then 1 else 0
  }

  /** Lamports ever deposited. */
  function Deposits(log: seq<Event>): nat {
    if log == [] then 0 else Deposits(log[..|log| - 1]) + DepositIn(log[|log| - 1])
  }

  /** How often the buy happened. */
  function Buys(log: seq<Event>): nat {
    if log == [] then 0 else Buys(log[..|log| - 1]) + BuyIn(log[|log| - 1])
  }

  /** One contributor's history: lamports put in, lamports given back, tokens paid out. */
  datatype History = History(deposited: nat, refunded: nat, claimed: nat)

  function HistoryOf(log: seq<Event>, u: Wallet): History {
    if log == [] then History(0, 0, 0)
    else AddTo(HistoryOf(log[..|log| - 1], u), log[|log| - 1], u)
  }

  function AddTo(h: History, e: Event, u: Wallet): History {
    match e
    case Contributed(v, amount, _) => if v == u then h.(deposited := h.deposited + amount) else h
    case Refunded(v, amount) => if v == u then h.(refunded := h.refunded + amount) else h
    case Claimed(v, _, tokens) => if v == u then h.(claimed := h.claimed + tokens) else h
    case _ => h
  }

  lemma LogGrows(log: seq<Event>, e: Event)
    ensures Deposits(log + [e]) == Deposits(log) + DepositIn(e)
    ensures Buys(log + [e]) == Buys(log) + BuyIn(e)
    ensures forall u :: HistoryOf(log + [e], u) == AddTo(HistoryOf(log, u), e, u)
  {
    assert (log + [e])[..|log + [e]| - 1] == log;
  }

  // ----------------------------------------------------------------- the parts

  function Amounts(records: map<Wallet, Contribution>): map<Wallet, nat> {
    map u | u in records :: records[u].amount
  }

  /** What has been paid out to each contributor so far. */
  function Paid(records: map<Wallet, Contribution>, d: nat, total: nat): map<Wallet, nat>
    requires total > 0
  {
    map u | u in records :: if records[u].claimed then Share(d, records[u].amount, total) else 0
  }

  predicate TermsOk(p: Pool) {
    && 0 < p.minContribution <= p.minRaise <= p.maxPool
    && p.launchAt < p.graceEndsAt
    && p.creator != DEFAULT_PUBKEY
  }

  predicate Launched(s: PoolStatus) {
    s.Launching? || s.Bought? || s.Finalized?
  }

  predicate HasTokens(s: PoolStatus) {
    s.Bought? || s.Finalized?
  }

  /** Before the buy the SOL is still in the pool account. */
  predicate Escrowed(s: PoolStatus) {
    s.Open? || s.Launching? || s.Refundable?
  }

  /** One record: whose it is, and how it follows from that contributor's history. */
  ghost predicate RecordOk(c: Chain, u: Wallet, r: Contribution) {
    var h := HistoryOf(c.log, u);
    && u != DEFAULT_PUBKEY
    && r.contributor == u
    && r.pool == c.key
    && (r.refunded ==> c.pool.status.Refundable?)
    && (r.claimed ==> c.pool.status.Finalized?)
    && h.deposited >= c.pool.minContribution
    && r.amount == (if r.refunded then 0 else h.deposited)
    && h.refunded == (if r.refunded then h.deposited else 0)
    && (!r.claimed ==> h.claimed == 0)
    && (r.claimed ==> c.pool.totalContributed > 0
                      && h.claimed == Share(c.pool.distributable, r.amount, c.pool.totalContributed))
  }

  ghost predicate RecordsOk(c: Chain) {
    && (forall u :: u in c.contributions ==> RecordOk(c, u, c.contributions[u]))
    && (forall u :: u !in c.contributions ==> HistoryOf(c.log, u) == History(0, 0, 0))
  }

  ghost predicate TotalsOk(c: Chain) {
    && c.pool.totalContributed == Sum(Amounts(c.contributions))
    && c.pool.contributorCount == |c.contributions|
    && c.pool.totalContributed + c.pool.totalRefunded == Deposits(c.log) <= c.pool.maxPool
    && |c.contributions| * c.pool.minContribution <= Deposits(c.log)
  }

  ghost predicate StatusOk(p: Pool) {
    && !p.status.Closed?
    && (p.mint == DEFAULT_PUBKEY <== p.status.Open?)
    && (Launched(p.status) ==> p.mint != DEFAULT_PUBKEY && p.totalContributed >= p.minRaise)
    && (!p.status.Refundable? ==> p.totalRefunded == 0)
    && (p.tokensBought > 0 <==> HasTokens(p.status))
    && (!p.status.Finalized? ==> p.distributable == 0 && p.burned == 0 && p.totalClaimed == 0)
  }

  ghost predicate FinalOk(c: Chain) {
    c.pool.status.Finalized? ==>
      var p := c.pool;
      && p.totalContributed > 0
      && p.postVirtualToken > 0
      && ComputeDistributable(p.totalContributed, p.tokensBought, p.postVirtualToken, p.postVirtualQuote)
         == Wrappers.Ok(Split(p.distributable, p.burned))
      && p.totalClaimed == Sum(Paid(c.contributions, p.distributable, p.totalContributed))
  }

  ghost predicate CustodyOk(c: Chain) {
    && c.poolLamports >= c.rent + (if Escrowed(c.pool.status) then c.pool.totalContributed else 0)
    && (c.pool.status.Bought? ==> c.vault >= c.pool.tokensBought)
    && (c.pool.status.Finalized? ==> c.vault + c.pool.totalClaimed >= c.pool.distributable)
  }

  /** What an event in the log says about the state it led to. */
  ghost predicate EventOk(p: Pool, e: Event) {
    match e
    case LaunchBegun(mint, total) =>
      !p.status.Open? && (Launched(p.status) ==> mint == p.mint && total == p.totalContributed)
    case BuyCompleted(mint, spendable, bought, vtok, vquote) =>
      && HasTokens(p.status)
      && mint == p.mint && spendable == p.totalContributed && bought == p.tokensBought
      && (p.status.Bought? ==> vtok == p.postVirtualToken && vquote == p.postVirtualQuote)
    case Finalized(mint, total, bought, distributable, burned, vtok, vquote) =>
      && p.status.Finalized?
      && mint == p.mint && total == p.totalContributed && bought == p.tokensBought
      && distributable == p.distributable && burned == p.burned
      && vtok == p.postVirtualToken && vquote == p.postVirtualQuote
    case Claimed(_, _, _) => p.status.Finalized?
    case Refunded(_, _) => p.status.Refundable?
    case MarkedRefundable => p.status.Refundable?
    case _ => true
  }

  ghost predicate LogOk(c: Chain) {
    && (forall e :: e in c.log ==> EventOk(c.pool, e))
    && (Launched(c.pool.status) ==> LaunchBegun(c.pool.mint, c.pool.totalContributed) in c.log)
    && Buys(c.log) == if HasTokens(c.pool.status) then 1 else 0
  }

  /** Between creation and close. */
  ghost predicate LiveOk(c: Chain) {
    && TermsOk(c.pool)
    && RecordsOk(c)
    && TotalsOk(c)
    && StatusOk(c.pool)
    && FinalOk(c)
    && LogOk(c)
  }

  ghost predicate Inv(c: Chain) {
    && c.key != DEFAULT_PUBKEY
    && Supply(c) <= U64_MAX
    && (c.lifetime.Absent? ==> c.pool == BLANK_POOL && c.contributions == map[] && c.log == [])
    && (!c.lifetime.Absent? ==> LiveOk(c))
    && (c.lifetime.Live? ==> CustodyOk(c))
    && (c.lifetime.Gone? ==> c.pool.status.Refundable? && c.pool.totalContributed == 0)
  }

  // ------------------------------------------------------------------- helpers

  /** Lamports moved between one wallet and the rest. */
  lemma WalletMove(c: Chain, u: Wallet, v: nat)
    ensures Sum(c.wallets[u := v]) + Balance(c.wallets, u) == Sum(c.wallets) + v
    ensures Balance(c.wallets, u) <= Sum(c.wallets)
  {
    SumUpdate(c.wallets, u, v);
    SumBounds(c.wallets, u);
  }

  function AmountOf(records: map<Wallet, Contribution>, u: Wallet): nat {
    if u in records then records[u].amount else 0
  }

  lemma RecordWritten(records: map<Wallet, Contribution>, u: Wallet, r: Contribution)
    ensures Sum(Amounts(records[u := r])) + AmountOf(records, u) == Sum(Amounts(records)) + r.amount
    ensures |records[u := r]| == |records| + if u in records then 0 else 1
  {
    assert Amounts(records[u := r]) == Amounts(records)[u := r.amount];
    SumUpdate(Amounts(records), u, r.amount);
    assert records[u := r].Keys == records.Keys + {u};
  }

  lemma AmountBelowTotal(c: Chain, u: Wallet)
    requires TotalsOk(c)
    requires u in c.contributions
    ensures c.contributions[u].amount <= c.pool.totalContributed
  {
    SumBounds(Amounts(c.contributions), u);
  }

  /** What a pool must not take back from the records of those an instruction is not about. */
  predicate KeepsPhase(p: Pool, p': Pool) {
    && p'.minContribution == p.minContribution
    && (p.status.Refundable? ==> p'.status.Refundable?)
    && (p.status.Finalized? ==> p'.status.Finalized? && p'.distributable == p.distributable
                                && p'.totalContributed == p.totalContributed)
  }

  predicate AboutNobody(e: Event) {
    !e.Contributed? && !e.Claimed? && !e.Refunded?
  }

  predicate About(e: Event, u: Wallet) {
    (e.Contributed? || e.Claimed? || e.Refunded?) && e.contributor == u
  }

  lemma RecordsUntouched(c: Chain, c': Chain, e: Event)
    requires RecordsOk(c)
    requires KeepsPhase(c.pool, c'.pool)
    requires AboutNobody(e)
    requires c'.key == c.key && c'.contributions == c.contributions && c'.log == c.log + [e]
    ensures RecordsOk(c')
  {
    LogGrows(c.log, e);
    forall u | u in c'.contributions
      ensures RecordOk(c', u, c'.contributions[u])
    {
      assert RecordOk(c, u, c.contributions[u]);
    }
  }

  lemma OneRecordTouched(c: Chain, c': Chain, e: Event, u: Wallet, r: Contribution)
    requires RecordsOk(c)
    requires KeepsPhase(c.pool, c'.pool)
    requires About(e, u)
    requires c'.key == c.key && c'.contributions == c.contributions[u := r] && c'.log == c.log + [e]
    requires RecordOk(c', u, r)
    ensures RecordsOk(c')
  {
    LogGrows(c.log, e);
    forall v | v in c'.contributions
      ensures RecordOk(c', v, c'.contributions[v])
    {
      if v != u {
        assert RecordOk(c, v, c.contributions[v]);
      }
    }
  }

  lemma LogKept(c: Chain, c': Chain, e: Event)
    requires LogOk(c)
    requires c'.log == c.log + [e]
    requires EventOk(c'.pool, e)
    requires (if HasTokens(c.pool.status) then 1 else 0) + BuyIn(e) == if HasTokens(c'.pool.status) then 1 else 0
    requires Launched(c'.pool.status) ==>
               || e == LaunchBegun(c'.pool.mint, c'.pool.totalContributed)
               || (Launched(c.pool.status) && c'.pool.mint == c.pool.mint
                   && c'.pool.totalContributed == c.pool.totalContributed)
    requires forall f :: f in c.log && EventOk(c.pool, f) ==> EventOk(c'.pool, f)
    ensures LogOk(c')
  {
    LogGrows(c.log, e);
  }

  // -------------------------------------------------- each instruction keeps it

  lemma CreatePoolKeeps(c: Chain, u: Wallet, now: i64, i: Instruction)
    requires i.CreatePool?
    requires u != DEFAULT_PUBKEY
    requires Inv(c)
    requires CreatePoolTx(c, u, now, i).Committed?
    ensures Inv(CreatePoolTx(c, u, now, i).after)
  {
    var c' := CreatePoolTx(c, u, now, i).after;
    WalletMove(c, u, c'.wallets[u]);
    NewPoolOk(c', c'.log[0]);
  }

  /** A pool that has only just been created. */
  lemma NewPoolOk(c: Chain, e: Event)
    requires TermsOk(c.pool)
    requires c.contributions == map[]
    requires c.log == [e] && e.PoolCreated?
    requires c.pool == BLANK_POOL.(bump := c.pool.bump, buyerBump := c.pool.buyerBump, creator := c.pool.creator,
                                   seed := c.pool.seed, launchAt := c.pool.launchAt,
                                   graceEndsAt := c.pool.graceEndsAt, minRaise := c.pool.minRaise,
                                   maxPool := c.pool.maxPool, minContribution := c.pool.minContribution)
    ensures LiveOk(c)
  {
    assert c.log == [] + [e];
    LogGrows([], e);
    assert Amounts(c.contributions) == map[];
  }

  /** The record after a deposit, for a contributor old or new. */
  lemma CreditedRecord(c: Chain, found: Contribution, u: Wallet, amount: u64, bump: u8)
    requires u != DEFAULT_PUBKEY
    requires c.key != DEFAULT_PUBKEY
    requires RecordsOk(c)
    requires found == if u in c.contributions then c.contributions[u] else BLANK_CONTRIBUTION
    requires Credited(found, c.pool.contributorCount, c.key, u, amount, bump).CreditedAs?
    ensures var after := Credited(found, c.pool.contributorCount, c.key, u, amount, bump);
            && after.count == c.pool.contributorCount + (if u in c.contributions then 0 else 1)
            && after.record.contributor == u && after.record.pool == c.key
            && after.record.amount == AmountOf(c.contributions, u) + amount
            && !after.record.refunded && !after.record.claimed
            && after.record.bump == (if u in c.contributions then found.bump else bump)
  {
    if u in c.contributions {
      assert RecordOk(c, u, c.contributions[u]);
    }
  }

  /** All that a successful `contribute` changes. */
  ghost predicate DepositMade(c: Chain, c': Chain, u: Wallet, amount: u64, rentDue: nat) {
    && c.lifetime.Live? && c.pool.status.Open?
    && 0 < amount && c.pool.minContribution <= amount
    && c.pool.totalContributed + amount <= U64_MAX
    && c.pool.totalContributed + amount <= c.pool.maxPool
    && rentDue + amount <= Balance(c.wallets, u)
    && (u in c.contributions ==> !c.contributions[u].refunded && !c.contributions[u].claimed)
    && u in c'.contributions
    && (var r := c'.contributions[u];
        && r.contributor == u && r.pool == c.key && !r.refunded && !r.claimed
        && r.amount == AmountOf(c.contributions, u) + amount)
    && c'.pool.contributorCount == c.pool.contributorCount + (if u in c.contributions then 0 else 1)
    && c' == c.(wallets := c.wallets[u := Balance(c.wallets, u) - rentDue - amount],
                outside := c.outside + rentDue,
                poolLamports := c.poolLamports + amount,
                contributions := c.contributions[u := c'.contributions[u]],
                pool := c.pool.(totalContributed := c.pool.totalContributed + amount,
                                contributorCount := c'.pool.contributorCount),
                log := c.log + [Contributed(u, amount, c.pool.totalContributed + amount)])
  }

  lemma ContributeEffect(c: Chain, u: Wallet, now: i64, amount: u64, recordBump: u8, recordRent: nat)
    requires u != DEFAULT_PUBKEY
    requires c.key != DEFAULT_PUBKEY
    requires !c.lifetime.Absent? ==> RecordsOk(c)
    requires ContributeTx(c, u, now, amount, recordBump, recordRent).Committed?
    ensures now < c.pool.launchAt
    ensures DepositMade(c, ContributeTx(c, u, now, amount, recordBump, recordRent).after, u, amount,
                        if u in c.contributions then 0 else recordRent)
    ensures ContributeTx(c, u, now, amount, recordBump, recordRent).after.contributions[u].bump
            == if u in c.contributions then c.contributions[u].bump else recordBump
  {
    var c1 := InitRecordTx(c, u, recordRent).after;
    var c' := DepositTx(c1, u, now, amount, recordBump).after;
    if u in c.contributions {
      assert RecordOk(c, u, c.contributions[u]);
    }
    CreditedRecord(c, c1.contributions[u], u, amount, recordBump);
    assert c'.contributions == c.contributions[u := c'.contributions[u]];
    assert c'.wallets == c.wallets[u := c'.wallets[u]];
  }

  lemma DepositRecords(c: Chain, c': Chain, u: Wallet, amount: u64, rentDue: nat)
    requires u != DEFAULT_PUBKEY
    requires RecordsOk(c)
    requires DepositMade(c, c', u, amount, rentDue)
    ensures RecordsOk(c')
  {
    var e := Contributed(u, amount, c.pool.totalContributed + amount);
    LogGrows(c.log, e);
    assert u in c.contributions ==> RecordOk(c, u, c.contributions[u]);
    OneRecordTouched(c, c', e, u, c'.contributions[u]);
  }

  lemma DepositTotals(c: Chain, c': Chain, u: Wallet, amount: u64, rentDue: nat)
    requires TotalsOk(c)
    requires c.pool.totalRefunded == 0
    requires DepositMade(c, c', u, amount, rentDue)
    ensures TotalsOk(c')
  {
    LogGrows(c.log, Contributed(u, amount, c.pool.totalContributed + amount));
    RecordWritten(c.contributions, u, c'.contributions[u]);
    Distribute(c.pool.minContribution, |c.contributions|, 1);
  }

  lemma DepositKeeps(c: Chain, c': Chain, u: Wallet, amount: u64, rentDue: nat)
    requires u != DEFAULT_PUBKEY
    requires Inv(c)
    requires DepositMade(c, c', u, amount, rentDue)
    ensures Inv(c')
  {
    DepositRecords(c, c', u, amount, rentDue);
    DepositTotals(c, c', u, amount, rentDue);
    WalletMove(c, u, c'.wallets[u]);
    LogKept(c, c', Contributed(u, amount, c.pool.totalContributed + amount));
  }

  lemma ContributeKeeps(c: Chain, u: Wallet, now: i64, amount: u64, recordBump: u8, recordRent: nat)
    requires u != DEFAULT_PUBKEY
    requires Inv(c)
    requires ContributeTx(c, u, now, amount, recordBump, recordRent).Committed?
    ensures Inv(ContributeTx(c, u, now, amount, recordBump, recordRent).after)
  {
    ContributeEffect(c, u, now, amount, recordBump, recordRent);
    DepositKeeps(c, ContributeTx(c, u, now, amount, recordBump, recordRent).after, u, amount,
                 if u in c.contributions then 0 else recordRent);
  }

  lemma BeginLaunchKeeps(c: Chain, now: i64, mint: Pubkey)
    requires Inv(c)
    requires BeginLaunchTx(c, now, mint).Committed?
    ensures Inv(BeginLaunchTx(c, now, mint).after)
  {
    var c' := BeginLaunchTx(c, now, mint).after;
    var e := LaunchBegun(mint, c.pool.totalContributed);
    LogGrows(c.log, e);
    RecordsUntouched(c, c', e);
    LogKept(c, c', e);
  }

  lemma BuyRecords(c: Chain, c': Chain, now: i64, i: Instruction)
    requires i.CompleteBuy?
    requires RecordsOk(c) && LogOk(c)
    requires CompleteBuyTx(c, now, i) == Committed(c') && c' != c
    ensures RecordsOk(c') && LogOk(c')
    ensures Deposits(c'.log) == Deposits(c.log)
  {
    var e := c'.log[|c.log|];
    assert c'.log == c.log + [e];
    LogGrows(c.log, e);
    RecordsUntouched(c, c', e);
    LogKept(c, c', e);
  }

  lemma CompleteBuyKeeps(c: Chain, now: i64, i: Instruction)
    requires i.CompleteBuy?
    requires Inv(c)
    requires CompleteBuyTx(c, now, i).Committed?
    ensures Inv(CompleteBuyTx(c, now, i).after)
  {
    var c' := CompleteBuyTx(c, now, i).after;
    if c' != c {
      BuyRecords(c, c', now, i);
    }
  }

  /** All that a successful `finalize` changes. */
  ghost predicate SplitDone(c: Chain, c': Chain) {
    var p, p' := c.pool, c'.pool;
    && c.lifetime.Live? && p.status.Bought?
    && p'.postVirtualToken > 0
    && ComputeDistributable(p.totalContributed, p.tokensBought, p'.postVirtualToken, p'.postVirtualQuote)
       == Wrappers.Ok(Split(p'.distributable, p'.burned))
    && p'.distributable + p'.burned == p.tokensBought
    && p'.burned <= c.vault
    && c' == c.(vault := c.vault - p'.burned,
                pool := p.(distributable := p'.distributable, burned := p'.burned,
                           postVirtualToken := p'.postVirtualToken, postVirtualQuote := p'.postVirtualQuote,
                           status := PoolStatus.Finalized),
                log := c.log + [Event.Finalized(p.mint, p.totalContributed, p.tokensBought, p'.distributable,
                                                p'.burned, p'.postVirtualToken, p'.postVirtualQuote)])
  }

  lemma FinalizeEffect(c: Chain, curveData: seq<u8>)
    requires FinalizeTx(c, curveData).Committed?
    ensures SplitDone(c, FinalizeTx(c, curveData).after)
  {
    var (vtok, vquote) := ReservesFor(c.pool, curveData);
    SplitIsExhaustive(c.pool.totalContributed, c.pool.tokensBought, vtok, vquote);
  }

  lemma SplitRecords(c: Chain, c': Chain)
    requires RecordsOk(c) && LogOk(c) && StatusOk(c.pool)
    requires SplitDone(c, c')
    ensures RecordsOk(c') && LogOk(c')
    ensures Deposits(c'.log) == Deposits(c.log)
  {
    var e := c'.log[|c.log|];
    assert c'.log == c.log + [e];
    LogGrows(c.log, e);
    RecordsUntouched(c, c', e);
    LogKept(c, c', e);
  }

  lemma SplitFinal(c: Chain, c': Chain)
    requires RecordsOk(c) && StatusOk(c.pool) && TermsOk(c.pool)
    requires SplitDone(c, c')
    ensures FinalOk(c')
  {
    forall u | u in c'.contributions
      ensures !c'.contributions[u].claimed
    {
      assert RecordOk(c, u, c.contributions[u]);
    }
    NothingPaidYet(c');
  }

  lemma SplitKeeps(c: Chain, c': Chain)
    requires Inv(c)
    requires SplitDone(c, c')
    ensures Inv(c')
  {
    SplitRecords(c, c');
    SplitFinal(c, c');
  }

  lemma FinalizeKeeps(c: Chain, curveData: seq<u8>)
    requires Inv(c)
    requires FinalizeTx(c, curveData).Committed?
    ensures Inv(FinalizeTx(c, curveData).after)
  {
    FinalizeEffect(c, curveData);
    SplitKeeps(c, FinalizeTx(c, curveData).after);
  }

  lemma NothingPaidYet(c: Chain)
    requires c.pool.totalContributed > 0
    requires forall u :: u in c.contributions ==> !c.contributions[u].claimed
    ensures Sum(Paid(c.contributions, c.pool.distributable, c.pool.totalContributed)) == 0
  {
    SumZero(Paid(c.contributions, c.pool.distributable, c.pool.totalContributed));
  }

  /** The tokens a contributor is due once the pool is finalized. */
  function ShareOf(c: Chain, u: Wallet): nat
    requires u in c.contributions && c.pool.totalContributed > 0
  {
    Share(c.pool.distributable, c.contributions[u].amount, c.pool.totalContributed)
  }

  /** All that a successful `claim` changes. */
  ghost predicate SharePaid(c: Chain, c': Chain, u: Wallet) {
    && c.lifetime.Live? && c.pool.status.Finalized?
    && u in c.contributions && c.pool.totalContributed > 0
    && !c.contributions[u].claimed && !c.contributions[u].refunded
    && ShareOf(c, u) <= c.vault
    && c.pool.totalClaimed + ShareOf(c, u) <= U64_MAX
    && c' == c.(vault := c.vault - ShareOf(c, u),
                tokens := c.tokens[u := Balance(c.tokens, u) + ShareOf(c, u)],
                contributions := c.contributions[u := c.contributions[u].(claimed := true)],
                pool := c.pool.(totalClaimed := c.pool.totalClaimed + ShareOf(c, u)),
                log := c.log + [Claimed(u, c.contributions[u].amount, ShareOf(c, u))])
  }

  lemma ClaimEffect(c: Chain, u: Wallet)
    requires TotalsOk(c)
    requires ClaimTx(c, u).Committed?
    ensures SharePaid(c, ClaimTx(c, u).after, u)
  {
    AmountBelowTotal(c, u);
    AllocationIsShare(c.pool.distributable, c.contributions[u].amount, c.pool.totalContributed);
  }

  lemma PaidRecord(c: Chain, c': Chain, u: Wallet)
    requires RecordsOk(c)
    requires SharePaid(c, c', u)
    ensures RecordOk(c', u, c'.contributions[u])
  {
    LogGrows(c.log, Claimed(u, c.contributions[u].amount, ShareOf(c, u)));
    assert RecordOk(c, u, c.contributions[u]);
  }

  lemma PayoutRecords(c: Chain, c': Chain, u: Wallet)
    requires RecordsOk(c)
    requires SharePaid(c, c', u)
    ensures RecordsOk(c')
  {
    PaidRecord(c, c', u);
    OneRecordTouched(c, c', Claimed(u, c.contributions[u].amount, ShareOf(c, u)), u, c'.contributions[u]);
  }

  lemma PayoutTotals(c: Chain, c': Chain, u: Wallet)
    requires TotalsOk(c)
    requires SharePaid(c, c', u)
    ensures TotalsOk(c')
  {
    LogGrows(c.log, Claimed(u, c.contributions[u].amount, ShareOf(c, u)));
    RecordWritten(c.contributions, u, c'.contributions[u]);
  }

  lemma PayoutFinal(c: Chain, c': Chain, u: Wallet)
    requires FinalOk(c)
    requires SharePaid(c, c', u)
    ensures FinalOk(c')
  {
    var d, total, share := c.pool.distributable, c.pool.totalContributed, ShareOf(c, u);
    assert Paid(c'.contributions, d, total) == Paid(c.contributions, d, total)[u := share];
    SumUpdate(Paid(c.contributions, d, total), u, share);
  }

  lemma PayoutLog(c: Chain, c': Chain, u: Wallet)
    requires LogOk(c)
    requires SharePaid(c, c', u)
    ensures LogOk(c')
  {
    LogKept(c, c', Claimed(u, c.contributions[u].amount, ShareOf(c, u)));
  }

  lemma ClaimKeeps(c: Chain, u: Wallet)
    requires Inv(c)
    requires ClaimTx(c, u).Committed?
    ensures Inv(ClaimTx(c, u).after)
  {
    var c' := ClaimTx(c, u).after;
    ClaimEffect(c, u);
    PayoutKeeps(c, c', u);
  }

  lemma PayoutKeeps(c: Chain, c': Chain, u: Wallet)
    requires Inv(c)
    requires SharePaid(c, c', u)
    ensures Inv(c')
  {
    PayoutRecords(c, c', u);
    PayoutTotals(c, c', u);
    PayoutFinal(c, c', u);
    PayoutLog(c, c', u);
  }

  /** The contributor's refund goes through and leads to `c'`. */
  ghost predicate MoneyBack(c: Chain, c': Chain, u: Wallet, now: i64) {
    RefundTx(c, u, now) == Committed(c')
  }

  lemma RefundRecords(c: Chain, c': Chain, u: Wallet, now: i64)
    requires RecordsOk(c)
    requires MoneyBack(c, c', u, now)
    ensures RecordsOk(c')
  {
    var e := Refunded(u, c.contributions[u].amount);
    LogGrows(c.log, e);
    assert RecordOk(c, u, c.contributions[u]);
    OneRecordTouched(c, c', e, u, c'.contributions[u]);
  }

  lemma RefundTotals(c: Chain, c': Chain, u: Wallet, now: i64)
    requires TotalsOk(c)
    requires MoneyBack(c, c', u, now)
    ensures TotalsOk(c')
  {
    LogGrows(c.log, Refunded(u, c.contributions[u].amount));
    RecordWritten(c.contributions, u, c'.contributions[u]);
  }

  lemma RefundLog(c: Chain, c': Chain, u: Wallet, now: i64)
    requires LogOk(c) && StatusOk(c.pool)
    requires MoneyBack(c, c', u, now)
    ensures LogOk(c')
  {
    LogKept(c, c', Refunded(u, c.contributions[u].amount));
  }

  lemma RefundKeeps(c: Chain, u: Wallet, now: i64)
    requires Inv(c)
    requires RefundTx(c, u, now).Committed?
    ensures Inv(RefundTx(c, u, now).after)
  {
    var c' := RefundTx(c, u, now).after;
    RefundRecords(c, c', u, now);
    RefundTotals(c, c', u, now);
    RefundLog(c, c', u, now);
    WalletMove(c, u, c'.wallets[u]);
  }

  lemma MarkRefundableKeeps(c: Chain, now: i64)
    requires Inv(c)
    requires MarkRefundableTx(c, now).Committed?
    ensures Inv(MarkRefundableTx(c, now).after)
  {
    var c' := MarkRefundableTx(c, now).after;
    LogGrows(c.log, Event.MarkedRefundable);
    RecordsUntouched(c, c', Event.MarkedRefundable);
    LogKept(c, c', Event.MarkedRefundable);
  }

  lemma ClosePoolKeeps(c: Chain, u: Wallet)
    requires Inv(c)
    requires ClosePoolTx(c, u).Committed?
    ensures Inv(ClosePoolTx(c, u).after)
  {
    var c' := ClosePoolTx(c, u).after;
    WalletMove(c, u, c'.wallets[u]);
    assert RecordsOk(c');
  }

  /** Moving other balances about, without taking anything from the pool or the vault. */
  lemma OthersKeep(c: Chain, c': Chain)
    requires Inv(c)
    requires c' == c.(wallets := c'.wallets, tokens := c'.tokens, outside := c'.outside, vault := c'.vault,
                      poolLamports := c'.poolLamports, buyerLamports := c'.buyerLamports)
    requires Supply(c') == Supply(c)
    requires c'.poolLamports >= c.poolLamports && c'.vault >= c.vault
    ensures Inv(c')
  {
    if !c.lifetime.Absent? {
      assert RecordsOk(c') by {
        forall u | u in c'.contributions
          ensures RecordOk(c', u, c'.contributions[u])
        {
          assert RecordOk(c, u, c.contributions[u]);
        }
      }
    }
  }

  lemma DonateKeeps(c: Chain, u: Wallet, toPool: nat, toBuyer: nat, toVault: nat)
    requires Inv(c)
    requires DonateTx(c, u, toPool, toBuyer, toVault).Committed?
    ensures Inv(DonateTx(c, u, toPool, toBuyer, toVault).after)
  {
    var c' := DonateTx(c, u, toPool, toBuyer, toVault).after;
    WalletMove(c, u, c'.wallets[u]);
    OthersKeep(c, c');
  }

  lemma ElsewhereKeeps(c: Chain, u: Wallet, lamports: int, tokenDelta: int)
    requires Inv(c)
    requires ElsewhereTx(c, u, lamports, tokenDelta).Committed?
    ensures Inv(ElsewhereTx(c, u, lamports, tokenDelta).after)
  {
    var c' := ElsewhereTx(c, u, lamports, tokenDelta).after;
    WalletMove(c, u, c'.wallets[u]);
    OthersKeep(c, c');
  }

  lemma OthersLeavePool(c: Chain, tx: Tx)
    requires tx.instruction.Donate? || tx.instruction.Elsewhere?
    ensures var c' := Next(c, tx);
            c'.lifetime == c.lifetime && c'.pool == c.pool && c'.contributions == c.contributions && c'.log == c.log
  {
  }

  /** The invariant is inductive: every transaction keeps it, failed ones trivially. */
  lemma StepKeeps(c: Chain, tx: Tx)
    requires Inv(c)
    ensures Inv(Next(c, tx))
  {
    if Step(c, tx).Committed? {
      var u, now := tx.signer, tx.now;
      match tx.instruction
      case CreatePool(_, _, _, _, _, _, _, _) => CreatePoolKeeps(c, u, now, tx.instruction);
      case Contribute(amount, bump, rent) => ContributeKeeps(c, u, now, amount, bump, rent);
      case BeginLaunch(mint) => BeginLaunchKeeps(c, now, mint);
      case CompleteBuy(_, _, _, _) => CompleteBuyKeeps(c, now, tx.instruction);
      case Finalize(curveData) => FinalizeKeeps(c, curveData);
      case Claim => ClaimKeeps(c, u);
      case Refund => RefundKeeps(c, u, now);
      case MarkRefundable => MarkRefundableKeeps(c, now);
      case ClosePool => ClosePoolKeeps(c, u);
      case Donate(toPool, toBuyer, toVault) => DonateKeeps(c, u, toPool, toBuyer, toVault);
      case Elsewhere(lamports, tokenDelta) => ElsewhereKeeps(c, u, lamports, tokenDelta);
    }
  }

  lemma {:induction false} RunKeeps(c: Chain, txs: seq<Tx>)
    requires Inv(c)
    ensures Inv(Run(c, txs))
    decreases |txs|
  {
    if txs != [] {
      StepKeeps(c, txs[0]);
      RunKeeps(Next(c, txs[0]), txs[1..]);
    }
  }

  /** The invariant holds in every state any callers can bring any pool into. */
  lemma ReachableKeeps(c: Chain)
    requires Reachable(c)
    ensures Inv(c)
  {
    var start: Chain, txs: seq<Tx> :| Genesis(start) && c == Run(start, txs);
    RunKeeps(start, txs);
  }

  lemma {:induction false} RunAppend(c: Chain, txs: seq<Tx>, more: seq<Tx>)
    ensures Run(c, txs + more) == Run(Run(c, txs), more)
    decreases |txs|
  {
    if txs == [] {
      assert txs + more == more;
    } else {
      assert (txs + more)[1..] == txs[1..] + more;
      RunAppend(Next(c, txs[0]), txs[1..], more);
    }
  }

  lemma ReachableNext(c: Chain, tx: Tx)
    requires Reachable(c)
    ensures Reachable(Next(c, tx))
  {
    var start: Chain, txs: seq<Tx> :| Genesis(start) && c == Run(start, txs);
    RunAppend(start, txs, [tx]);
    assert Next(c, tx) == Run(start, txs + [tx]);
  }
}
