/** Simultaneous unlock: every due share can be claimed in any order, in full, by everybody. */
module Claims {
  import opened BurnMath
  import opened Guards
  import opened Instructions
  import opened Invariants
  import opened Numbers
  import opened State
  import opened Sums

  import Wrappers

  function ClaimTxs(order: seq<Wallet>, now: i64): seq<Tx> {
    if order == [] then [] else [Tx(order[0], now, Claim)] + ClaimTxs(order[1..], now)
  }

  /** Paid and unpaid shares fit what is distributed; what is never claimable is less than one token per contributor. */
  lemma SharesCoverDistributable(c: Chain)
    requires Reachable(c)
    requires c.pool.status.Finalized?
    ensures c.pool.totalContributed > 0
    ensures var d, total := c.pool.distributable, c.pool.totalContributed;
            var all := Sum(Shares(Amounts(c.contributions), d, total));
            && c.pool.totalClaimed == Sum(Paid(c.contributions, d, total))
            && c.pool.totalClaimed <= all <= d < all + c.pool.contributorCount
            && d + c.pool.burned == c.pool.tokensBought
            && c.lifetime.Live?
            && d <= c.vault + c.pool.totalClaimed
  {
    ReachableKeeps(c);
    ClaimsCovered(c);
    SplitIsExhaustive(c.pool.totalContributed, c.pool.tokensBought, c.pool.postVirtualToken, c.pool.postVirtualQuote);
  }

  lemma ClaimStep(c: Chain, u: Wallet, now: i64)
    requires u != DEFAULT_PUBKEY
    ensures Step(c, Tx(u, now, Claim)) == ClaimTx(c, u)
  {
  }

  lemma ContributorSigns(c: Chain, u: Wallet)
    requires RecordsOk(c)
    requires u in c.contributions
    ensures u != DEFAULT_PUBKEY
  {
    assert RecordOk(c, u, c.contributions[u]);
  }

  lemma ClaimOne(c: Chain, u: Wallet)
    requires Inv(c)
    requires Payable(c, u)
    ensures ClaimTx(c, u).Committed?
    ensures SharePaid(c, ClaimTx(c, u).after, u)
    ensures Inv(ClaimTx(c, u).after)
  {
    ClaimPasses(c, u);
    ClaimEffect(c, u);
    ClaimKeeps(c, u);
  }

  /** Somebody else's claim leaves a share and its payability alone. */
  lemma OtherClaim(c: Chain, c': Chain, u: Wallet, v: Wallet)
    requires SharePaid(c, c', u)
    requires v != u
    requires Payable(c, v)
    ensures Payable(c', v) && ShareOf(c', v) == ShareOf(c, v)
  {
  }

  /** The state after the contributors in `order` have been paid, up to the log. */
  ghost predicate PaidOut(c: Chain, order: seq<Wallet>, c': Chain) {
    && (forall u :: u in order ==> Payable(c, u))
    && c'.contributions.Keys == c.contributions.Keys
    && (forall u :: u in c.contributions ==>
          c'.contributions[u] == if u in order then c.contributions[u].(claimed := true) else c.contributions[u])
    && (forall u :: u in c'.tokens <==> u in c.tokens || u in order)
    && (forall u :: u in order ==> Balance(c'.tokens, u) == Balance(c.tokens, u) + ShareOf(c, u))
    && (forall u :: u !in order ==> Balance(c'.tokens, u) == Balance(c.tokens, u))
    && c'.vault + c'.pool.totalClaimed == c.vault + c.pool.totalClaimed
    && (order == [] ==> c'.pool.totalClaimed == c.pool.totalClaimed)
    && c' == c.(contributions := c'.contributions, tokens := c'.tokens, vault := c'.vault,
                pool := c.pool.(totalClaimed := c'.pool.totalClaimed), log := c'.log)
  }

  lemma NobodyPaid(c: Chain)
    ensures PaidOut(c, [], c)
  {
  }

  lemma StillPayable(c: Chain, c1: Chain, order: seq<Wallet>)
    requires order != []
    requires Distinct(order)
    requires forall u :: u in order ==> Payable(c, u)
    requires SharePaid(c, c1, order[0])
    ensures Distinct(order[1..])
    ensures forall v :: v in order[1..] ==> Payable(c1, v) && ShareOf(c1, v) == ShareOf(c, v)
  {
    forall v | v in order[1..]
      ensures Payable(c1, v) && ShareOf(c1, v) == ShareOf(c, v)
    {
      assert v in order;
      OtherClaim(c, c1, order[0], v);
    }
  }

  lemma ClaimTxsHead(c: Chain, c1: Chain, order: seq<Wallet>, now: i64)
    requires order != [] && order[0] != DEFAULT_PUBKEY
    requires ClaimTx(c, order[0]) == Committed(c1)
    ensures var txs := ClaimTxs(order, now);
            txs != [] && Step(c, txs[0]) == Committed(c1) && txs[1..] == ClaimTxs(order[1..], now)
  {
    ClaimStep(c, order[0], now);
  }

  /** The first claim goes through and the others stay due. */
  lemma ClaimFirst(c: Chain, order: seq<Wallet>) returns (c1: Chain)
    requires Inv(c)
    requires order != []
    requires Distinct(order)
    requires forall u :: u in order ==> Payable(c, u)
    ensures order[0] != DEFAULT_PUBKEY
    ensures ClaimTx(c, order[0]) == Committed(c1)
    ensures SharePaid(c, c1, order[0])
    ensures Inv(c1)
    ensures Distinct(order[1..])
    ensures forall v :: v in order[1..] ==> Payable(c1, v) && ShareOf(c1, v) == ShareOf(c, v)
  {
    assert order[0] in order;
    ContributorSigns(c, order[0]);
    ClaimOne(c, order[0]);
    c1 := ClaimTx(c, order[0]).after;
    StillPayable(c, c1, order);
  }

  lemma {:induction false} ClaimsCommit(c: Chain, order: seq<Wallet>, now: i64)
    requires Inv(c)
    requires Distinct(order)
    requires forall u :: u in order ==> Payable(c, u)
    ensures AllCommit(c, ClaimTxs(order, now))
    ensures Inv(Run(c, ClaimTxs(order, now)))
    decreases |order|
  {
    if order != [] {
      var c1 := ClaimFirst(c, order);
      ClaimTxsHead(c, c1, order, now);
      ClaimsCommit(c1, order[1..], now);
    }
  }

  lemma {:induction false} ClaimsPay(c: Chain, order: seq<Wallet>, now: i64)
    requires Inv(c)
    requires Distinct(order)
    requires forall u :: u in order ==> Payable(c, u)
    ensures PaidOut(c, order, Run(c, ClaimTxs(order, now)))
    decreases |order|
  {
    if order == [] {
      NobodyPaid(c);
    } else {
      var c1 := ClaimFirst(c, order);
      ClaimTxsHead(c, c1, order, now);
      ClaimsPay(c1, order[1..], now);
      PaidOutJoin(c, c1, order, Run(c1, ClaimTxs(order[1..], now)));
    }
  }

  lemma PaidOutJoin(c: Chain, c1: Chain, order: seq<Wallet>, c': Chain)
    requires order != []
    requires Distinct(order)
    requires forall u :: u in order ==> Payable(c, u)
    requires SharePaid(c, c1, order[0])
    requires forall v :: v in order[1..] ==> Payable(c1, v) && ShareOf(c1, v) == ShareOf(c, v)
    requires PaidOut(c1, order[1..], c')
    ensures PaidOut(c, order, c')
  {
    var first, rest := order[0], order[1..];
    assert forall v :: v in order <==> v == first || v in rest;
    assert first !in rest;
    forall v
      ensures v in order ==> Balance(c'.tokens, v) == Balance(c.tokens, v) + ShareOf(c, v)
      ensures v !in order ==> Balance(c'.tokens, v) == Balance(c.tokens, v)
    {
      if v in rest {
        assert Balance(c1.tokens, v) == Balance(c.tokens, v);
      }
    }
  }

  /** Any selection of due claims, in any order: all succeed, each pays exactly its share, nobody else is affected. */
  lemma ClaimsInAnyOrder(c: Chain, order: seq<Wallet>, now: i64)
    requires Reachable(c)
    requires Distinct(order)
    requires forall u :: u in order ==> Payable(c, u)
    ensures AllCommit(c, ClaimTxs(order, now))
    ensures PaidOut(c, order, Run(c, ClaimTxs(order, now)))
  {
    ReachableKeeps(c);
    ClaimsCommit(c, order, now);
    ClaimsPay(c, order, now);
  }

  /** Order leaves no trace except in the order of the log. */
  lemma OrderIrrelevant(c: Chain, order: seq<Wallet>, order': seq<Wallet>, now: i64)
    requires Reachable(c)
    requires Distinct(order) && Distinct(order')
    requires multiset(order) == multiset(order')
    requires forall u :: u in order ==> Payable(c, u)
    ensures var one, two := Run(c, ClaimTxs(order, now)), Run(c, ClaimTxs(order', now));
            one == two.(log := one.log)
  {
    ReachableKeeps(c);
    SameElements(order, order');
    ClaimsCommit(c, order, now);
    ClaimsCommit(c, order', now);
    ClaimsPay(c, order, now);
    ClaimsPay(c, order', now);
    var one, two := Run(c, ClaimTxs(order, now)), Run(c, ClaimTxs(order', now));
    SamePayout(c, order, order', one, two);
  }

  lemma SameElements(order: seq<Wallet>, order': seq<Wallet>)
    requires multiset(order) == multiset(order')
    ensures |order| == |order'|
    ensures forall u :: u in order <==> u in order'
  {
    assert |order| == |multiset(order)| == |multiset(order')| == |order'|;
    forall u
      ensures u in order <==> u in order'
    {
      assert u in order <==> u in multiset(order);
      assert u in order' <==> u in multiset(order');
    }
  }

  /** The invariant leaves no freedom: who has been paid determines everything but the log. */
  lemma SamePayout(c: Chain, order: seq<Wallet>, order': seq<Wallet>, one: Chain, two: Chain)
    requires |order| == |order'|
    requires forall u :: u in order <==> u in order'
    requires PaidOut(c, order, one) && PaidOut(c, order', two)
    requires FinalOk(c) && FinalOk(one) && FinalOk(two)
    ensures one == two.(log := one.log)
  {
    assert one.contributions == two.contributions;
    SameBalances(one.tokens, two.tokens);
    if order == [] {
      assert order' == [];
    } else {
      assert order[0] in order;
      assert Payable(c, order[0]);
    }
  }

  lemma SameBalances(m: map<Wallet, nat>, n: map<Wallet, nat>)
    requires forall u :: u in m <==> u in n
    requires forall u :: Balance(m, u) == Balance(n, u)
    ensures m == n
  {
    forall u | u in m
      ensures m[u] == n[u]
    {
      assert Balance(m, u) == Balance(n, u);
    }
  }

  /** Not the contributor's own claim. */
  predicate NotClaimBy(tx: Tx, u: Wallet) {
    tx.signer == u ==> !tx.instruction.Claim?
  }

  /** Once finalized, claiming is all the program does. */
  lemma OnlyClaimsLeft(c: Chain, tx: Tx)
    requires Inv(c)
    requires c.lifetime.Live? && c.pool.status.Finalized?
    requires Step(c, tx).Committed?
    ensures tx.instruction.Claim? || tx.instruction.Donate? || tx.instruction.Elsewhere?
  {
    Guards.CommittedTimely(c, tx);
  }

  lemma PayableKept(c: Chain, u: Wallet, tx: Tx)
    requires Inv(c)
    requires Payable(c, u)
    requires NotClaimBy(tx, u)
    ensures Payable(Next(c, tx), u) && ShareOf(Next(c, tx), u) == ShareOf(c, u)
  {
    if Step(c, tx).Committed? {
      OnlyClaimsLeft(c, tx);
      if tx.instruction.Claim? {
        ClaimEffect(c, tx.signer);
        OtherClaim(c, Next(c, tx), tx.signer, u);
      } else {
        OthersLeavePool(c, tx);
      }
    }
  }

  lemma {:induction false} PayableKeptByRun(c: Chain, u: Wallet, txs: seq<Tx>)
    requires Inv(c)
    requires Payable(c, u)
    requires forall tx :: tx in txs ==> NotClaimBy(tx, u)
    ensures Payable(Run(c, txs), u) && ShareOf(Run(c, txs), u) == ShareOf(c, u)
    decreases |txs|
  {
    if txs != [] {
      assert txs[0] in txs;
      PayableKept(c, u, txs[0]);
      StepKeeps(c, txs[0]);
      PayableKeptByRun(Next(c, txs[0]), u, txs[1..]);
    }
  }

  /** Whatever anybody else does and however late it is, a due claim still succeeds and pays the same share. */
  lemma ClaimCannotBeBlocked(c: Chain, u: Wallet, txs: seq<Tx>)
    requires Reachable(c)
    requires Payable(c, u)
    requires forall tx :: tx in txs ==> NotClaimBy(tx, u)
    ensures var later := Run(c, txs);
            && ClaimTx(later, u).Committed?
            && Balance(ClaimTx(later, u).after.tokens, u) == Balance(later.tokens, u) + ShareOf(c, u)
  {
    ReachableKeeps(c);
    PayableKeptByRun(c, u, txs);
    RunKeeps(c, txs);
    ClaimOne(Run(c, txs), u);
  }

  /** Over the whole life of a pool, a contributor is paid nothing or exactly their share. */
  lemma PaidOutOnce(c: Chain, u: Wallet)
    requires Reachable(c)
    ensures HistoryOf(c.log, u).claimed ==
            if u in c.contributions && c.contributions[u].claimed && c.pool.totalContributed > 0
            then ShareOf(c, u) else 0
  {
    ReachableKeeps(c);
    if u in c.contributions {
      assert RecordOk(c, u, c.contributions[u]);
    }
  }

  /** The stored split can be recomputed from the stored pool at any time, by anybody. */
  lemma FinalizationAudits(c: Chain)
    requires Reachable(c)
    requires c.pool.status.Finalized?
    ensures ComputeDistributable(c.pool.totalContributed, c.pool.tokensBought, c.pool.postVirtualToken,
                                 c.pool.postVirtualQuote)
            == Wrappers.Ok(Split(c.pool.distributable, c.pool.burned))
    ensures c.pool.postVirtualToken > 0
    ensures c.pool.distributable * c.pool.postVirtualQuote / c.pool.postVirtualToken <= c.pool.totalContributed
  {
    ReachableKeeps(c);
    ValueNeverExceedsTotal(c.pool.totalContributed, c.pool.tokensBought, c.pool.postVirtualToken,
                           c.pool.postVirtualQuote);
  }

  /** The event of the finalization carries all it takes to recompute the split, and says what the pool says. */
  lemma FinalizationEventAudits(c: Chain, e: Event)
    requires Reachable(c)
    requires e in c.log && e.Finalized?
    ensures c.pool.status.Finalized?
    ensures e.distributable == c.pool.distributable && e.burned == c.pool.burned
    ensures e.mint == c.pool.mint && e.totalContributed == c.pool.totalContributed
    ensures ComputeDistributable(e.totalContributed, e.tokensBought, e.postVirtualToken, e.postVirtualQuote)
            == Wrappers.Ok(Split(e.distributable, e.burned))
  {
    ReachableKeeps(c);
    assert EventOk(c.pool, e);
  }

  /** In a pool that can be claimed from, the 64-bit share is the mirror's share and the exact floor. */
  lemma ClaimArithmeticExact(c: Chain, u: Wallet)
    requires Reachable(c)
    requires c.pool.status.Finalized? && u in c.contributions
    ensures c.pool.totalContributed > 0
    ensures var d, amount, total := c.pool.distributable, c.contributions[u].amount, c.pool.totalContributed;
            && Allocation(d, amount, total) == Wrappers.Ok(ShareOf(c, u))
            && AllocationTs(d, amount, total) == Wrappers.Ok(ShareOf(c, u))
  {
    ReachableKeeps(c);
    var d, amount, total := c.pool.distributable, c.contributions[u].amount, c.pool.totalContributed;
    AmountBelowTotal(c, u);
    AllocationIsShare(d, amount, total);
    AllocationMirrorIff(d, amount, total);
  }
}
