/**
 The orchestrator's decisions (state-machine.ts) against the program's guards, and the joint
 system of pool, bonding curves and orchestrator: dropped bundles, creates that land alone,
 crashes, and anybody else's transactions.
 */
module Recovery {
  import opened Guards
  import opened Instructions
  import opened Invariants
  import opened Numbers
  import opened State

  import Errors
  import FinalPrice
  import Lifecycle

  // ---------------------------------------------------------- the two decisions

  datatype LaunchStage =
    | Idle
    | WaitingLaunchAt
    | BeginLaunchSent
    | BuildingBundle
    | BundleSubmitted
    | Confirming
    | BoughtStage
    | FinalizedStage
    | Failed
    | RefundWindow

  datatype BundleKind = CreateAndBuy | BuyOnly | NoBundle

  function NextStageFromChain(poolStatus: string, curveExists: bool, now: int, graceEndsAt: int): LaunchStage {
    if poolStatus == "Finalized" then FinalizedStage
    else if poolStatus == "Bought" then BoughtStage
    else if poolStatus == "Refundable" then RefundWindow
    else if poolStatus == "Launching" then
      if now >= graceEndsAt then RefundWindow
      else if curveExists then BuildingBundle else BuildingBundle
    else if poolStatus == "Open" then
      if now >= graceEndsAt then RefundWindow else WaitingLaunchAt
    else Idle
  }

  function BundleFor(poolStatus: string, curveExists: bool): BundleKind {
    if poolStatus != "Launching" then NoBundle
    else if curveExists then BuyOnly else CreateAndBuy
  }

  /** The first characters tell the names apart. */
  lemma NamesDiffer(s: PoolStatus, t: PoolStatus)
    ensures StatusName(s) == StatusName(t) <==> s == t
  {
    assert "Open"[0] == 'O' && "Launching"[0] == 'L' && "Bought"[0] == 'B';
    assert "Finalized"[0] == 'F' && "Refundable"[0] == 'R' && "Closed"[0] == 'C';
  }

  /** The orchestrator stops for refunds exactly when the program allows them, and buys exactly when it may. */
  lemma StageMatchesGuards(p: Pool, curveExists: bool, now: i64)
    ensures var stage := NextStageFromChain(StatusName(p.status), curveExists, now, p.graceEndsAt);
            && (stage == RefundWindow <==> RefundAllowed(p, now))
            && (stage == BuildingBundle <==> MayBuy(p, now))
            && (stage == BoughtStage <==> p.status.Bought?)
            && (stage == FinalizedStage <==> p.status.Finalized?)
            && (stage == WaitingLaunchAt <==> p.status.Open? && now < p.graceEndsAt)
            && (stage == Idle <==> p.status.Closed?)
  {
    NamesDiffer(p.status, PoolStatus.Finalized);
    NamesDiffer(p.status, Bought);
    NamesDiffer(p.status, Refundable);
    NamesDiffer(p.status, Launching);
    NamesDiffer(p.status, Open);
  }

  /** A bundle goes with every status, and only with those, in which some clock makes the orchestrator build one. */
  lemma BundleIffBuilding(s: PoolStatus, curveExists: bool)
    ensures BundleFor(StatusName(s), curveExists) != NoBundle
       <==> exists now: i64, graceEndsAt: i64 ::
              NextStageFromChain(StatusName(s), curveExists, now, graceEndsAt) == BuildingBundle
    ensures BundleFor(StatusName(s), curveExists).CreateAndBuy? ==> !curveExists
    ensures BundleFor(StatusName(s), curveExists).BuyOnly? ==> curveExists
  {
    var early: i64, late: i64 := 0, 1;
    if s.Launching? {
      assert NextStageFromChain(StatusName(s), curveExists, early, late) == BuildingBundle;
    } else {
      NamesDiffer(s, Launching);
    }
  }

  /** What is not the name of a status calls for nothing. */
  lemma UnknownStatusIdles(name: string, curveExists: bool, now: int, graceEndsAt: int)
    requires forall s: PoolStatus :: name != StatusName(s)
    ensures NextStageFromChain(name, curveExists, now, graceEndsAt) == Idle
    ensures BundleFor(name, curveExists) == NoBundle
  {
    assert StatusName(Open) == "Open" && StatusName(Launching) == "Launching" && StatusName(Bought) == "Bought";
    assert StatusName(PoolStatus.Finalized) == "Finalized" && StatusName(Refundable) == "Refundable";
  }

  // ------------------------------------------------------------- the joint system

  /** `curves` holds the data of every bonding curve the pump program has created, by mint. */
  datatype Joint = Joint(chain: Chain, curves: map<Pubkey, seq<u8>>, saved: LaunchStage)

  /** What happened to a bundle: nothing landed, only its create, or all of it. */
  datatype Delivery =
    | Dropped
    | CreateOnly(created: seq<u8>)
    | Full(createdFirst: seq<u8>, minTokensOut: u64, pump: PumpOutcome)

  datatype Happening =
    | Round(caller: Wallet, now: i64, delivery: Delivery)  // the orchestrator resumes and submits
    | Crash(left: LaunchStage)                             // it dies, leaving any stage on disk
    | CreateLands(mint: Pubkey, data: seq<u8>)             // anybody's create
    | Trade(tradedMint: Pubkey, after: seq<u8>)            // anybody's trade on a curve
    | Other(tx: Tx)                                        // anybody's transaction

  function CurveOf(j: Joint, mint: Pubkey): CurveAccount {
    if mint in j.curves then CurveAccount(j.curves[mint], true) else CurveAccount([], false)
  }

  predicate CurveExists(j: Joint) {
    j.chain.pool.mint in j.curves
  }

  /** The pump program creates a curve for a mint once, with data in it. */
  function Create(j: Joint, mint: Pubkey, data: seq<u8>): Joint {
    if mint in j.curves || data == [] then j else j.(curves := j.curves[mint := data])
  }

  /** The pump program refuses any account but the mint's own curve, and never empties that one. */
  function PumpAnswer(j: Joint, i: Instruction): PumpOutcome
    requires i.CompleteBuy?
  {
    if i.curve != CurveOf(j, i.buyMint) || (i.pump.PumpFills? && i.pump.curveAfter == []) then PumpRejects
    else i.pump
  }

  function Answered(j: Joint, tx: Tx): Tx {
    if tx.instruction.CompleteBuy?
    then tx.(instruction := tx.instruction.(pump := PumpAnswer(j, tx.instruction)))
    else tx
  }

  predicate BuyHappens(c: Chain, tx: Tx) {
    tx.instruction.CompleteBuy? && Step(c, tx).Committed? && !c.pool.status.Bought?
  }

  /** A transaction reaches the chain; a buy leaves its mark on the curve. */
  function Land(j: Joint, tx: Tx): Joint {
    var sent := Answered(j, tx);
    var after := j.(chain := Next(j.chain, sent));
    if BuyHappens(j.chain, sent)
    then after.(curves := j.curves[sent.instruction.buyMint := sent.instruction.pump.curveAfter])
    else after
  }

  function BuyTx(j: Joint, caller: Wallet, now: i64, minTokensOut: u64, pump: PumpOutcome): Tx {
    var mint := j.chain.pool.mint;
    Tx(caller, now, CompleteBuy(mint, minTokensOut, CurveOf(j, mint), pump))
  }

  function StageOf(j: Joint, now: i64): LaunchStage {
    NextStageFromChain(StatusName(j.chain.pool.status), CurveExists(j), now, j.chain.pool.graceEndsAt)
  }

  function KindOf(j: Joint): BundleKind {
    BundleFor(StatusName(j.chain.pool.status), CurveExists(j))
  }

  /** Resume: read the chain, decide, submit what is due. Without a pool account there is nothing to decide. */
  function RoundStep(j: Joint, caller: Wallet, now: i64, delivery: Delivery): Joint {
    if !j.chain.lifetime.Live? then j
    else if StageOf(j, now) != BuildingBundle then j.(saved := StageOf(j, now))
    else Deliver(j.(saved := BundleSubmitted), caller, now, delivery)
  }

  /** The create in the bundle, when there is one and it lands. */
  function Created(j: Joint, delivery: Delivery): Joint {
    match delivery
    case Dropped => j
    case CreateOnly(data) => if KindOf(j) == CreateAndBuy then Create(j, j.chain.pool.mint, data) else j
    case Full(data, _, _) => if KindOf(j) == CreateAndBuy then Create(j, j.chain.pool.mint, data) else j
  }

  /** What becomes of the bundle chosen by `BundleFor`. */
  function Deliver(j: Joint, caller: Wallet, now: i64, delivery: Delivery): Joint {
    var created := Created(j, delivery);
    if KindOf(j) != NoBundle && delivery.Full?
    then Land(created, BuyTx(created, caller, now, delivery.minTokensOut, delivery.pump))
    else created
  }

  function JointStep(j: Joint, h: Happening): Joint {
    match h
    case Round(caller, now, delivery) => RoundStep(j, caller, now, delivery)
    case Crash(left) => j.(saved := left)
    case CreateLands(mint, data) => Create(j, mint, data)
    case Trade(mint, after) => if mint in j.curves && after != [] then j.(curves := j.curves[mint := after]) else j
    case Other(tx) => Land(j, tx)
  }

  function JointRun(j: Joint, hs: seq<Happening>): Joint
    decreases |hs|
  {
    if hs == [] then j else JointRun(JointStep(j, hs[0]), hs[1..])
  }

  ghost predicate CurvesFilled(j: Joint) {
    forall m :: m in j.curves ==> j.curves[m] != []
  }

  /** A pool with tokens has its curve. */
  predicate CurveThere(j: Joint) {
    !j.chain.lifetime.Absent? && HasTokens(j.chain.pool.status) ==> CurveExists(j)
  }

  ghost predicate Start(j: Joint) {
    Genesis(j.chain) && CurvesFilled(j)
  }

  ghost predicate JointReachable(j: Joint) {
    exists start: Joint, hs: seq<Happening> :: Start(start) && j == JointRun(start, hs)
  }

  // ---------------------------------------------------------------- what it keeps

  ghost predicate JointInv(j: Joint) {
    && Inv(j.chain)
    && CurvesFilled(j)
    && CurveThere(j)
  }

  /** The mint is committed before the buy and stays. */
  lemma MintStays(c: Chain, tx: Tx)
    requires Inv(c)
    requires !c.lifetime.Absent? && HasTokens(c.pool.status)
    ensures Next(c, tx).pool.mint == c.pool.mint
  {
    if c.lifetime.Live? {
      Lifecycle.PurchaseKept(c, tx);
    } else if Step(c, tx).Committed? {
      OnlyOutsideWhenGone(c, tx);
    }
  }

  lemma OnlyOutsideWhenGone(c: Chain, tx: Tx)
    requires c.lifetime.Gone?
    ensures Next(c, tx).pool == c.pool && Next(c, tx).lifetime.Gone?
  {
  }

  /** Tokens come with a buy. */
  lemma TokensFromBuy(c: Chain, tx: Tx)
    requires !HasTokens(c.pool.status)
    requires HasTokens(Next(c, tx).pool.status)
    ensures BuyHappens(c, tx)
    ensures tx.instruction.buyMint == c.pool.mint == Next(c, tx).pool.mint
    ensures tx.instruction.pump.PumpFills?
  {
    CommittedMoves(c, tx);
    CommittedTimely(c, tx);
  }

  /** The guard and the pump see to it. */
  lemma LandNeedsCurve(j: Joint, tx: Tx)
    requires JointInv(j)
    ensures CurveThere(Land(j, tx))
  {
    var after := Land(j, tx);
    if !after.chain.lifetime.Absent? && HasTokens(after.chain.pool.status) {
      if HasTokens(j.chain.pool.status) {
        MintStays(j.chain, Answered(j, tx));
      } else {
        TokensFromBuy(j.chain, Answered(j, tx));
      }
    }
  }

  lemma LandFillsCurves(j: Joint, tx: Tx)
    requires CurvesFilled(j)
    ensures CurvesFilled(Land(j, tx))
  {
  }

  lemma LandKeeps(j: Joint, tx: Tx)
    requires JointInv(j)
    ensures JointInv(Land(j, tx))
  {
    StepKeeps(j.chain, Answered(j, tx));
    LandFillsCurves(j, tx);
    LandNeedsCurve(j, tx);
  }

  lemma CreateKeeps(j: Joint, mint: Pubkey, data: seq<u8>)
    requires JointInv(j)
    ensures JointInv(Create(j, mint, data))
  {
  }

  lemma DeliverKeeps(j: Joint, caller: Wallet, now: i64, delivery: Delivery)
    requires JointInv(j)
    ensures JointInv(Deliver(j, caller, now, delivery))
  {
    var created := Created(j, delivery);
    assert JointInv(created);
    if delivery.Full? {
      LandKeeps(created, BuyTx(created, caller, now, delivery.minTokensOut, delivery.pump));
    }
  }

  lemma RoundKeeps(j: Joint, caller: Wallet, now: i64, delivery: Delivery)
    requires JointInv(j)
    ensures JointInv(RoundStep(j, caller, now, delivery))
  {
    DeliverKeeps(j.(saved := BundleSubmitted), caller, now, delivery);
  }

  lemma JointStepKeeps(j: Joint, h: Happening)
    requires JointInv(j)
    ensures JointInv(JointStep(j, h))
  {
    match h
    case Round(caller, now, delivery) => RoundKeeps(j, caller, now, delivery);
    case Crash(_) =>
    case CreateLands(mint, data) => CreateKeeps(j, mint, data);
    case Trade(_, _) =>
    case Other(tx) => LandKeeps(j, tx);
  }

  lemma {:induction false} JointRunKeeps(j: Joint, hs: seq<Happening>)
    requires JointInv(j)
    ensures JointInv(JointRun(j, hs))
    decreases |hs|
  {
    if hs != [] {
      JointStepKeeps(j, hs[0]);
      JointRunKeeps(JointStep(j, hs[0]), hs[1..]);
    }
  }

  lemma JointReachableKeeps(j: Joint)
    requires JointReachable(j)
    ensures JointInv(j)
  {
    var start: Joint, hs: seq<Happening> :| Start(start) && j == JointRun(start, hs);
    JointRunKeeps(start, hs);
  }

  // ------------------------------------------------------- no buy without a create

  /** Buy without create cannot happen, whatever lands in whatever order. */
  lemma NoBuyWithoutCreate(j: Joint)
    requires JointReachable(j)
    requires !j.chain.lifetime.Absent? && HasTokens(j.chain.pool.status)
    ensures CurveExists(j)
  {
    JointReachableKeeps(j);
  }

  /**
   It takes both the program's guard and the pump's refusal. The guard alone lets a buy
   through on any account the pump program owns that has data in it, curve or no curve; the
   pump then refuses every such account but the mint's own curve.
   */
  lemma GuardAloneIsNotEnough(j: Joint, caller: Wallet, now: i64, i: Instruction)
    requires JointReachable(j)
    requires caller != DEFAULT_PUBKEY
    requires j.chain.lifetime.Live? && MayBuy(j.chain.pool, now)
    requires i.CompleteBuy? && i.buyMint == j.chain.pool.mint
    requires PumpAccepts(j.chain, i)
    ensures Step(j.chain, Tx(caller, now, i)).Committed? <==> CurveLanded(i.curve)
    ensures Land(j, Tx(caller, now, i)) != j <==> CurveExists(j) && i.curve == CurveOf(j, i.buyMint)
                                                  && i.pump.curveAfter != []
  {
    JointReachableKeeps(j);
  }

  // ------------------------------------------------------------- the right bundle

  /** The pump's answer to the buy the orchestrator submits. */
  predicate Accepted(j: Joint, delivery: Delivery)
    requires delivery.Full?
  {
    && (CurveExists(j) || delivery.createdFirst != [])
    && PumpAccepts(j.chain, CompleteBuy(j.chain.pool.mint, delivery.minTokensOut, CurveAccount([], false),
                                        delivery.pump))
    && delivery.pump.curveAfter != []
  }

  lemma BuyCommits(c: Chain, now: i64, i: Instruction)
    requires Inv(c)
    requires c.lifetime.Live?
    requires i.CompleteBuy?
    requires MayBuy(c.pool, now) && i.buyMint == c.pool.mint
    ensures CompleteBuyTx(c, now, i).Committed? <==> CurveLanded(i.curve) && PumpAccepts(c, i)
    ensures !CurveLanded(i.curve) ==> CompleteBuyTx(c, now, i) == Reverted(Errors.CreateNotLanded)
    ensures CompleteBuyTx(c, now, i).Committed? ==>
              CompleteBuyTx(c, now, i).after.pool == c.pool.(
                status := Bought, tokensBought := CompleteBuyTx(c, now, i).after.pool.tokensBought,
                postVirtualToken := CompleteBuyTx(c, now, i).after.pool.postVirtualToken,
                postVirtualQuote := CompleteBuyTx(c, now, i).after.pool.postVirtualQuote)
  {
  }

  /**
   The bundle holds no more than it must: the create is in it exactly when the buy alone
   would come back with `CreateNotLanded`, and then nothing the pump answers could help.
   */
  lemma SmallestBundle(j: Joint, caller: Wallet, now: i64, minTokensOut: u64, pump: PumpOutcome)
    requires JointReachable(j)
    requires caller != DEFAULT_PUBKEY
    requires j.chain.lifetime.Live? && MayBuy(j.chain.pool, now)
    ensures var alone := Step(j.chain, Answered(j, BuyTx(j, caller, now, minTokensOut, pump)));
            && (KindOf(j) == CreateAndBuy <==> alone == Reverted(Errors.CreateNotLanded))
            && (KindOf(j) == BuyOnly ==> (alone.Committed? <==> Accepted(j, Full([], minTokensOut, pump))))
  {
    JointReachableKeeps(j);
    NamesDiffer(j.chain.pool.status, Launching);
    var i := Answered(j, BuyTx(j, caller, now, minTokensOut, pump)).instruction;
    BuyCommits(j.chain, now, i);
  }

  /** No bundle is due exactly when no transaction by anybody, at any time, could be the pool's buy. */
  lemma BundleWhileBuyable(j: Joint)
    requires JointReachable(j)
    requires j.chain.lifetime.Live?
    ensures KindOf(j) == NoBundle <==> forall now: i64 :: !MayBuy(j.chain.pool, now)
    ensures KindOf(j) == NoBundle ==> forall tx: Tx :: !BuyHappens(j.chain, tx)
  {
    JointReachableKeeps(j);
    NamesDiffer(j.chain.pool.status, Launching);
    if j.chain.pool.status.Launching? {
      assert MayBuy(j.chain.pool, j.chain.pool.launchAt);
    } else {
      forall tx: Tx
        ensures !BuyHappens(j.chain, tx)
      {
        if BuyHappens(j.chain, tx) {
          CommittedTimely(j.chain, tx);
        }
      }
    }
  }

  // ------------------------------------------------------------------- recovery

  /** The buy of a whole bundle, once its create (if any) is in. */
  lemma AcceptedBuyLands(j: Joint, caller: Wallet, now: i64, minTokensOut: u64, pump: PumpOutcome)
    requires JointInv(j)
    requires caller != DEFAULT_PUBKEY
    requires j.chain.lifetime.Live? && MayBuy(j.chain.pool, now)
    requires CurveExists(j)
    requires Accepted(j, Full([], minTokensOut, pump))
    ensures var j' := Land(j, BuyTx(j, caller, now, minTokensOut, pump));
            && j'.chain.lifetime.Live? && j'.chain.pool.status.Bought?
            && j'.chain.pool.mint == j.chain.pool.mint
            && j'.chain.pool.totalContributed == j.chain.pool.totalContributed
            && j'.curves == j.curves[j.chain.pool.mint := pump.curveAfter]
  {
    var tx := BuyTx(j, caller, now, minTokensOut, pump);
    assert Answered(j, tx) == tx;
    BuyCommits(j.chain, now, tx.instruction);
  }

  /**
   In any state of the joint system where buying is still possible, one bundle that lands
   whole takes the pool to Bought: the right bundle is chosen whether or not the create has
   landed before, and whatever the crash left on disk.
   */
  lemma OneFullRoundBuys(j: Joint, caller: Wallet, now: i64, delivery: Delivery)
    requires JointInv(j)
    requires caller != DEFAULT_PUBKEY
    requires j.chain.lifetime.Live? && MayBuy(j.chain.pool, now)
    requires delivery.Full? && Accepted(j, delivery)
    ensures StageOf(j, now) == BuildingBundle
    ensures KindOf(j) == if CurveExists(j) then BuyOnly else CreateAndBuy
    ensures var j' := RoundStep(j, caller, now, delivery);
            && j'.chain.lifetime.Live? && j'.chain.pool.status.Bought?
            && j'.chain.pool.mint == j.chain.pool.mint
            && j'.chain.pool.totalContributed == j.chain.pool.totalContributed
            && CurveOf(j', j.chain.pool.mint) == CurveAccount(delivery.pump.curveAfter, true)
  {
    StageMatchesGuards(j.chain.pool, CurveExists(j), now);
    NamesDiffer(j.chain.pool.status, Launching);
    var created := Created(j.(saved := BundleSubmitted), delivery);
    AcceptedBuyLands(created, caller, now, delivery.minTokensOut, delivery.pump);
  }

  /** Only while the program still lets it buy does the orchestrator touch the chain or create a curve. */
  lemma NothingSubmitted(j: Joint, caller: Wallet, now: i64, delivery: Delivery)
    requires !(j.chain.lifetime.Live? && MayBuy(j.chain.pool, now))
    ensures RoundStep(j, caller, now, delivery).chain == j.chain
    ensures RoundStep(j, caller, now, delivery).curves == j.curves
  {
    StageMatchesGuards(j.chain.pool, CurveExists(j), now);
  }

  /** A launch that was begun is not undone: same mint, same total, same parts in it, same deadline. */
  predicate StillLaunched(c: Chain, c': Chain) {
    && c'.lifetime.Live? && Launched(c'.pool.status)
    && c'.pool.mint == c.pool.mint
    && c'.pool.totalContributed == c.pool.totalContributed
    && Amounts(c'.contributions) == Amounts(c.contributions)
    && c'.pool.graceEndsAt == c.pool.graceEndsAt
  }

  /** Before the deadline these are the only ways on from Launching. */
  lemma LeftWhileLaunching(c: Chain, tx: Tx)
    requires Inv(c)
    requires c.lifetime.Live? && c.pool.status.Launching?
    requires tx.now < c.pool.graceEndsAt
    requires Step(c, tx).Committed?
    ensures tx.instruction.CompleteBuy? || tx.instruction.Donate? || tx.instruction.Elsewhere?
  {
    CommittedTimely(c, tx);
  }

  lemma BuyStands(c: Chain, c': Chain, now: i64, i: Instruction)
    requires i.CompleteBuy?
    requires c.lifetime.Live? && c.pool.status.Launching?
    requires CompleteBuyTx(c, now, i) == Committed(c')
    ensures StillLaunched(c, c')
  {
  }

  lemma LaunchStands(c: Chain, tx: Tx)
    requires Inv(c)
    requires c.lifetime.Live? && c.pool.status.Launching?
    requires tx.now < c.pool.graceEndsAt
    requires Step(c, tx).Committed?
    ensures StillLaunched(c, Next(c, tx))
  {
    LeftWhileLaunching(c, tx);
    if tx.instruction.CompleteBuy? {
      BuyStands(c, Next(c, tx), tx.now, tx.instruction);
    } else {
      OthersLeavePool(c, tx);
    }
  }

  lemma StepStaysLaunched(c: Chain, tx: Tx)
    requires Inv(c)
    requires c.lifetime.Live? && Launched(c.pool.status)
    requires tx.now < c.pool.graceEndsAt
    ensures StillLaunched(c, Next(c, tx))
  {
    if HasTokens(c.pool.status) {
      Lifecycle.PurchaseKept(c, tx);
    } else if Step(c, tx).Committed? {
      LaunchStands(c, tx);
    }
  }

  /** A happening before the deadline; crashes, creates and trades have no clock that matters. */
  predicate Before(h: Happening, deadline: i64) {
    match h
    case Round(_, now, _) => now < deadline
    case Other(tx) => tx.now < deadline
    case _ => true
  }

  /** A happening is at most one transaction on the chain, timed as the happening is. */
  lemma HappeningIsStep(j: Joint, h: Happening) returns (tx: Tx)
    ensures JointStep(j, h).chain == j.chain
            || (JointStep(j, h).chain == Next(j.chain, tx)
                && forall deadline: i64 :: Before(h, deadline) ==> tx.now < deadline)
  {
    tx := Tx(DEFAULT_PUBKEY, 0, Claim);
    match h
    case Round(caller, now, Full(data, minTokensOut, pump)) =>
      var created := Created(j.(saved := BundleSubmitted), h.delivery);
      tx := Answered(created, BuyTx(created, caller, now, minTokensOut, pump));
    case Other(sent) =>
      tx := Answered(j, sent);
    case _ =>
  }

  lemma {:induction false} RunReachable(j: Joint, hs: seq<Happening>)
    requires Reachable(j.chain)
    ensures Reachable(JointRun(j, hs).chain)
    decreases |hs|
  {
    if hs != [] {
      var tx := HappeningIsStep(j, hs[0]);
      ReachableNext(j.chain, tx);
      RunReachable(JointStep(j, hs[0]), hs[1..]);
    }
  }

  /** The joint system runs the pool as any callers could: what holds of every reachable pool holds of its pool. */
  lemma JointIsPoolRun(j: Joint)
    requires JointReachable(j)
    ensures Reachable(j.chain)
  {
    var start: Joint, hs: seq<Happening> :| Start(start) && j == JointRun(start, hs);
    assert start.chain == Run(start.chain, []);
    RunReachable(start, hs);
  }

  lemma HappeningStaysLaunched(j: Joint, h: Happening)
    requires Inv(j.chain)
    requires j.chain.lifetime.Live? && Launched(j.chain.pool.status)
    requires Before(h, j.chain.pool.graceEndsAt)
    ensures StillLaunched(j.chain, JointStep(j, h).chain)
  {
    var tx := HappeningIsStep(j, h);
    if JointStep(j, h).chain != j.chain {
      StepStaysLaunched(j.chain, tx);
    }
  }

  lemma {:induction false} RunStaysLaunched(j: Joint, hs: seq<Happening>)
    requires JointInv(j)
    requires j.chain.lifetime.Live? && Launched(j.chain.pool.status)
    requires forall h :: h in hs ==> Before(h, j.chain.pool.graceEndsAt)
    ensures JointInv(JointRun(j, hs))
    ensures StillLaunched(j.chain, JointRun(j, hs).chain)
    decreases |hs|
  {
    if hs != [] {
      assert hs[0] in hs;
      HappeningStaysLaunched(j, hs[0]);
      JointStepKeeps(j, hs[0]);
      RunStaysLaunched(JointStep(j, hs[0]), hs[1..]);
    }
  }

  /**
   Partial landing is recoverable. From any reachable state in which the pool is launching, let
   anything happen before the deadline: lost bundles, creates that land alone, bundles whose buy
   the pump rejects, crashes, trades, anybody's transactions. The launch stands, and the next
   bundle that lands whole before the deadline and that the pump accepts leaves exactly one buy,
   of the committed mint for the frozen total - be it this one or one that happened meanwhile.
   */
  lemma PartialLandingRecovers(j: Joint, hs: seq<Happening>, caller: Wallet, now: i64, delivery: Delivery)
    requires JointReachable(j)
    requires j.chain.lifetime.Live? && j.chain.pool.status.Launching?
    requires forall h :: h in hs ==> Before(h, j.chain.pool.graceEndsAt)
    requires caller != DEFAULT_PUBKEY
    requires now < j.chain.pool.graceEndsAt
    requires delivery.Full? && Accepted(JointRun(j, hs), delivery)
    ensures var later := JointRun(j, hs);
            var done := RoundStep(later, caller, now, delivery).chain;
            && StillLaunched(j.chain, later.chain)
            && StillLaunched(j.chain, done)
            && HasTokens(done.pool.status)
            && Buys(done.log) == 1
  {
    JointReachableKeeps(j);
    RunStaysLaunched(j, hs);
    var later := JointRun(j, hs);
    if MayBuy(later.chain.pool, now) {
      OneFullRoundBuys(later, caller, now, delivery);
      HappeningStaysLaunched(later, Round(caller, now, delivery));
    } else {
      NothingSubmitted(later, caller, now, delivery);
    }
    RoundKeeps(later, caller, now, delivery);
  }

  /**
   From the deadline on, after anything that may have happened before it, the orchestrator submits
   nothing, whatever would become of a bundle; and unless the buy has happened meanwhile, it
   waits for refunds and everybody's refund goes through.
   */
  lemma DeadlineEndsLaunch(j: Joint, hs: seq<Happening>, caller: Wallet, now: i64, delivery: Delivery)
    requires JointReachable(j)
    requires j.chain.lifetime.Live? && j.chain.pool.status.Launching?
    requires forall h :: h in hs ==> Before(h, j.chain.pool.graceEndsAt)
    requires now >= j.chain.pool.graceEndsAt
    ensures var later := JointRun(j, hs);
            && RoundStep(later, caller, now, delivery) == later.(saved := StageOf(later, now))
            && (if HasTokens(later.chain.pool.status) then Buys(later.chain.log) == 1 else
                  && Buys(later.chain.log) == 0
                  && StageOf(later, now) == RefundWindow
                  && forall u :: u in later.chain.contributions ==> RefundTx(later.chain, u, now).Committed?)
  {
    JointReachableKeeps(j);
    RunStaysLaunched(j, hs);
    var later := JointRun(j, hs);
    StageMatchesGuards(later.chain.pool, CurveExists(later), now);
    if !HasTokens(later.chain.pool.status) {
      forall u | u in later.chain.contributions
        ensures RefundTx(later.chain, u, now).Committed?
      {
        assert RecordOk(later.chain, u, later.chain.contributions[u]);
        RefundPasses(later.chain, u, now);
      }
    }
  }

  // -------------------------------------------------------------------- crashes

  function WithoutCrashes(hs: seq<Happening>): seq<Happening> {
    if hs == [] then []
    else if hs[0].Crash? then WithoutCrashes(hs[1..])
    else [hs[0]] + WithoutCrashes(hs[1..])
  }

  predicate SameButSaved(j: Joint, k: Joint) {
    j.chain == k.chain && j.curves == k.curves
  }

  lemma StepIgnoresSaved(j: Joint, k: Joint, h: Happening)
    requires SameButSaved(j, k)
    ensures SameButSaved(JointStep(j, h), JointStep(k, h))
  {
    match h
    case Round(caller, now, Full(data, minTokensOut, pump)) =>
      var j', k' := j.(saved := BundleSubmitted), k.(saved := BundleSubmitted);
      assert j' == k';
    case _ =>
  }

  /**
   The saved stage is written and never read, so crashes leave no trace: take all of them out of a run,
   and the chain and the curves come out the same.
   */
  lemma {:induction false} CrashesInvisible(j: Joint, k: Joint, hs: seq<Happening>)
    requires SameButSaved(j, k)
    ensures SameButSaved(JointRun(j, hs), JointRun(k, WithoutCrashes(hs)))
    decreases |hs|
  {
    if hs != [] {
      var kept := WithoutCrashes(hs);
      if hs[0].Crash? {
        CrashesInvisible(JointStep(j, hs[0]), k, hs[1..]);
      } else {
        assert kept[0] == hs[0] && kept[1..] == WithoutCrashes(hs[1..]);
        StepIgnoresSaved(j, k, hs[0]);
        CrashesInvisible(JointStep(j, hs[0]), JointStep(k, hs[0]), hs[1..]);
      }
    }
  }

  // -------------------------------------------------------------- the final price

  /**
   Handed the mint's own curve, `finalize` splits at the curve's price, and succeeds exactly
   when that price is positive; handed another account, it splits at the curve's price
   exactly when that account carries the same virtual reserves.
   */
  lemma FinalizeOnCurve(j: Joint, data: seq<u8>)
    requires JointReachable(j)
    requires j.chain.lifetime.Live? && j.chain.pool.status.Bought?
    ensures CurveExists(j)
    ensures var c, curve := j.chain, j.curves[j.chain.pool.mint];
            var (vtok, vquote) := PriceIn(c.pool, curve);
            && (FinalizeTx(c, curve).Committed? <==> vtok > 0 && vquote > 0)
            && (FinalizeTx(c, curve).Committed? ==>
                  FinalPrice.PricedAt(c.pool, FinalizeTx(c, curve).after.pool, curve))
            && (FinalizeTx(c, data).Committed? ==>
                  (FinalPrice.PricedAt(c.pool, FinalizeTx(c, data).after.pool, curve)
                   <==> FinalPrice.SameVirtualReserves(c.pool, data, curve)))
  {
    NoBuyWithoutCreate(j);
    JointReachableKeeps(j);
    var curve := j.curves[j.chain.pool.mint];
    FinalizePasses(j.chain, curve);
    if FinalizeTx(j.chain, curve).Committed? {
      FinalPrice.PricedAtCurveIff(j.chain, curve, curve);
    }
    if FinalizeTx(j.chain, data).Committed? {
      FinalPrice.PricedAtCurveIff(j.chain, data, curve);
    }
  }
}
