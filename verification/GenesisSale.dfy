/** The genesis sale: what a purchase comes to, told from the number of units sold so far, up to the sale of the last
    one. */
module GenesisSale {
  import opened Words
  import opened Totals
  import opened HashContract
  import opened ContractRuns
  import opened GenesisPrice
  import opened Supply

  /** The units bought by the purchases of a run that went through. */
  function UnitsSold(d: Deployment, txs: seq<Tx>): nat {
    if txs == [] then 0
    else
      var init, tx := txs[..|txs| - 1], txs[|txs| - 1];
      UnitsSold(d, init)
        + if tx.call.Buy? && Execute(d, After(d, init).store, tx.env, tx.call).Committed? then tx.call.units else 0
  }

  /** The storage tells of so many units: a thousand tokens and 10^16 wei each, 1050 at most. */
  ghost predicate Tells(s: Storage, sold: nat) {
    && s.genesisMinted == sold * 1_000_000_000_000_000_000_000 && s.genesisEthRaised == sold * 10_000_000_000_000_000
    && sold <= 1_050
  }

  /** The outcome of buying `units` for `value` wei when `sold` units are gone. */
  ghost predicate PurchaseRule(over: bool, sold: nat, units: nat, value: nat, refundAccepted: bool, r: Outcome) {
    var price := units * 10_000_000_000_000_000;
    if over then r == Reverted(GenesisAlreadyComplete)
    else if units !in {1, 2, 3, 4, 5} then r == Reverted(TxCapExceeded)
    else if value < price then r == Reverted(InsufficientPayment)
    else if sold + units > 1_050 then r == Reverted(GenesisSoldOut)
    else if value > price && !refundAccepted then r == Reverted(EthTransferFailed)
    else r.Committed?
  }

  lemma FewUnits(units: nat)
    ensures units in {1, 2, 3, 4, 5} <==> 1 <= units <= 5
  {
  }

  lemma PurchaseByRule(s: Storage, sold: nat, env: Env, units: nat, refundAccepted: bool)
    requires Tells(s, sold)
    ensures PurchaseRule(s.genesisComplete, sold, units, env.value, refundAccepted,
                         MintGenesis(s, env, units, refundAccepted))
  {
    FewUnits(units);
  }

  lemma ExecuteBuy(d: Deployment, s: Storage, env: Env, units: nat, refundAccepted: bool)
    ensures Execute(d, s, env, Buy(units, refundAccepted)) == MintGenesis(s, env, units, refundAccepted)
  {
    hide MintGenesis;
  }

  lemma SaleTells(s: Storage, sold: nat, env: Env, units: nat, refundAccepted: bool)
    requires Tells(s, sold) && MintGenesis(s, env, units, refundAccepted).Committed?
    ensures Tells(MintGenesis(s, env, units, refundAccepted).store, sold + units)
    ensures !s.genesisComplete && !MintGenesis(s, env, units, refundAccepted).store.genesisComplete
  {
  }

  lemma OtherCallsSellNothing(d: Deployment, h: History, tx: Tx)
    requires !(tx.call.Buy? && Execute(d, h.store, tx.env, tx.call).Committed?)
    ensures var s, s' := h.store, Step(d, h, tx).store;
      s'.genesisMinted == s.genesisMinted && s'.genesisEthRaised == s.genesisEthRaised
  {
    hide Execute, Step, Moved;
    match ChangeOf(d, h, tx)
    case Nothing => NothingChanges(d, h, tx);
    case Bought =>
    case Seeded => SeededStep(d, h, tx);
    case Mining => MiningStep(d, h, tx); hide Mine, RetargetFacts, PaymentFacts, ProofKey;
    case Sent => SentStep(d, h, tx);
  }

  /** In every run the storage tells of the units sold. */
  lemma {:induction false} SoldInEveryRun(d: Deployment, txs: seq<Tx>)
    ensures Tells(After(d, txs).store, UnitsSold(d, txs))
  {
    hide Execute, Tells;
    if txs == [] {
      NothingSold();
    } else {
      var init, tx := txs[..|txs| - 1], txs[|txs| - 1];
      SoldInEveryRun(d, init);
      var h, sold := After(d, init), UnitsSold(d, init);
      if tx.call.Buy? && Execute(d, h.store, tx.env, tx.call).Committed? {
        ExecuteBuy(d, h.store, tx.env, tx.call.units, tx.call.refundAccepted);
        SaleTells(h.store, sold, tx.env, tx.call.units, tx.call.refundAccepted);
      } else {
        OtherCallsSellNothing(d, h, tx);
        hide Step;
        SameTelling(h.store, Step(d, h, tx).store, sold);
      }
    }
  }

  lemma NothingSold()
    ensures Tells(InitialStorage(), 0)
  {
  }

  lemma SameTelling(s: Storage, s': Storage, sold: nat)
    requires Tells(s, sold) && s'.genesisMinted == s.genesisMinted && s'.genesisEthRaised == s.genesisEthRaised
    ensures Tells(s', sold)
  {
  }

  /** In every run a purchase ends by the rule. */
  lemma PurchaseInEveryRun(d: Deployment, txs: seq<Tx>, env: Env, units: nat, refundAccepted: bool)
    ensures var s := After(d, txs).store;
      PurchaseRule(s.genesisComplete, UnitsSold(d, txs), units, env.value, refundAccepted,
                   Execute(d, s, env, Buy(units, refundAccepted)))
  {
    hide After, UnitsSold, Execute, Tells, PurchaseRule;
    SoldInEveryRun(d, txs);
    ExecuteBuy(d, After(d, txs).store, env, units, refundAccepted);
    PurchaseByRule(After(d, txs).store, UnitsSold(d, txs), env, units, refundAccepted);
  }

  // ---------- selling everything

  function OneUnit(buyer: address): Tx {
    Tx(Env(buyer, 10_000_000_000_000_000, 0, 0), Buy(1, true))
  }

  /** n purchases of one unit, exactly paid. */
  function SaleRun(buyer: address, n: nat): seq<Tx> {
    if n == 0 then [] else SaleRun(buyer, n - 1) + [OneUnit(buyer)]
  }

  /** As long as the sale is open and not all is sold, one more unit can be. */
  lemma OneMoreSells(d: Deployment, txs: seq<Tx>, buyer: address)
    requires !After(d, txs).store.genesisComplete && UnitsSold(d, txs) < 1_050
    ensures UnitsSold(d, txs + [OneUnit(buyer)]) == UnitsSold(d, txs) + 1
    ensures !After(d, txs + [OneUnit(buyer)]).store.genesisComplete
  {
    var tx, more := OneUnit(buyer), txs + [OneUnit(buyer)];
    assert more[..|more| - 1] == txs;
    PurchaseInEveryRun(d, txs, tx.env, 1, true);
    SoldInEveryRun(d, txs);
    ExecuteBuy(d, After(d, txs).store, tx.env, 1, true);
    hide MintGenesis, Execute;
    SaleTells(After(d, txs).store, UnitsSold(d, txs), tx.env, 1, true);
  }

  lemma {:induction false} SaleRunSells(d: Deployment, buyer: address, n: nat)
    requires buyer != d.self && n <= 1_050
    ensures var txs := SaleRun(buyer, n);
      && Admitted(d, txs) && UnitsSold(d, txs) == n
      && !After(d, txs).store.genesisComplete && After(d, txs).number == 0
  {
    hide After, UnitsSold, Step, Execute;
    if n == 0 {
      StartOfSale(d);
    } else {
      SaleRunSells(d, buyer, n - 1);
      OneMoreSells(d, SaleRun(buyer, n - 1), buyer);
      RunExtended(d, SaleRun(buyer, n - 1), OneUnit(buyer));
      NumberAfter(d, After(d, SaleRun(buyer, n - 1)), OneUnit(buyer));
    }
  }

  lemma StartOfSale(d: Deployment)
    ensures UnitsSold(d, []) == 0 && !After(d, []).store.genesisComplete && After(d, []).number == 0
  {
  }

  lemma NumberAfter(d: Deployment, h: History, tx: Tx)
    ensures Step(d, h, tx).number == tx.env.number
  {
    hide Execute;
  }

  /** Units can be sold one by one until all 1050 are; the next purchase finds the sale sold out, and seedPool, which
      needs just that, goes through. */
  lemma SaleCanComplete(d: Deployment, buyer: address, env: Env, pool: PoolResult)
    requires buyer != d.self && env.value == 10_000_000_000_000_000
    ensures var txs := SaleRun(buyer, 1_050); var s := After(d, txs).store;
      && Admitted(d, txs) && s.genesisMinted == 1_050_000 * UNIT18
      && Execute(d, s, env, Buy(1, true)) == Reverted(GenesisSoldOut)
      && (SeedPool(d, s, env, pool).Committed? <==> Deposits(s, pool))
  {
    hide After, UnitsSold, Execute, Admitted, SaleRun, SeedPool, PartialSeed;
    var txs := SaleRun(buyer, 1_050);
    SaleRunSells(d, buyer, 1_050);
    SoldInEveryRun(d, txs);
    PurchaseInEveryRun(d, txs, env, 1, true);
    SeedingInEveryRun(d, txs, env, pool);
  }

  // ---------- seeding

  /** The outcome of seedPool, given the units sold and whether the deposit goes through. */
  ghost predicate SeedRule(over: bool, sold: nat, deposits: bool, r: Outcome) {
    if over then r == Reverted(GenesisAlreadyComplete)
    else if sold != 1_050 then r == Reverted(GenesisNotSoldOut)
    else if !deposits then r == Reverted(PoolFailed)
    else r.Committed?
  }

  /** The outcome of partialSeed; `waited` are the seconds since deployment. */
  ghost predicate PartialSeedRule(controller: bool, over: bool, waited: int, sold: nat, deposits: bool, r: Outcome) {
    if !controller then r == Reverted(NotController)
    else if over then r == Reverted(GenesisAlreadyComplete)
    else if waited < 1_800 then r == Reverted(TooSoon)
    else if sold == 0 then r == Reverted(NothingToSeed)
    else if !deposits then r == Reverted(PoolFailed)
    else r.Committed?
  }

  lemma SeedByRule(d: Deployment, s: Storage, sold: nat, env: Env, pool: PoolResult)
    requires Tells(s, sold) && SoldAtPrice(s)
    ensures SeedRule(s.genesisComplete, sold, Deposits(s, pool), SeedPool(d, s, env, pool))
    ensures PartialSeedRule(env.sender == d.controller, s.genesisComplete, env.timestamp - d.deployedAt, sold,
                            Deposits(s, pool), PartialSeed(d, s, env, pool))
  {
    hide SeedBody;
    if sold > 0 { SeedBodyOutcome(d, s, env, pool); }
  }

  /** In every run either route of seeding ends by its rule. */
  lemma SeedsByRuleInEveryRun(d: Deployment, txs: seq<Tx>, env: Env, pool: PoolResult)
    ensures var s, sold := After(d, txs).store, UnitsSold(d, txs);
      && SeedRule(s.genesisComplete, sold, Deposits(s, pool), SeedPool(d, s, env, pool))
      && PartialSeedRule(env.sender == d.controller, s.genesisComplete, env.timestamp - d.deployedAt, sold,
                         Deposits(s, pool), PartialSeed(d, s, env, pool))
  {
    hide After, UnitsSold, Tells, SoldAtPrice, SeededAtPrice, SeedPool, PartialSeed;
    SoldInEveryRun(d, txs);
    SeedPriceOfEveryRun(d, txs);
    SeedByRule(d, After(d, txs).store, UnitsSold(d, txs), env, pool);
  }

  /** Seeding opens mining at a difficulty of 2^224 - 1, with the count and the window at their start, and issues what
      was sold once more and the mining supply; if all was sold that makes the whole supply of 21 million. */
  lemma SeedingOpens(d: Deployment, txs: seq<Tx>, tx: Tx)
    requires Admitted(d, txs) && ChangeOf(d, After(d, txs), tx).Seeded?
    ensures var s, sold := Step(d, After(d, txs), tx).store, UnitsSold(d, txs);
      && s.genesisComplete && s.currentDifficulty + 1 == TWO192 * TWO32
      && s.lastAdjustmentMint == 0 && s.lastAdjustmentBlock == tx.env.number
      && s.totalSupply == (2_000 * sold + 18_900_000) * 1_000_000_000_000_000_000
      && (sold == 1_050 ==> s.totalSupply == TOTAL_SUPPLY == 21_000_000 * 1_000_000_000_000_000_000)
  {
    hide After, UnitsSold, Execute, Step, ChangeOf, Moved, SqrtPriceX96, Total, RewardsCovered, Admitted;
    SoldInEveryRun(d, txs);
    SupplyOfEveryRun(d, txs);
    SeededStep(d, After(d, txs), tx);
  }

  /** Everything but a purchase refuses to be paid, and does what its function does when it is not. */
  lemma OnlySalesArePayable(d: Deployment, s: Storage, env: Env, pool: PoolResult, nonce: uint256, to: address,
                            amount: nat)
    ensures forall call: Call | !call.Buy? && env.value > 0 :: Execute(d, s, env, call) == Reverted(NotPayable)
    ensures env.value == 0 ==>
      && Execute(d, s, env, Seed(pool)) == SeedPool(d, s, env, pool)
      && Execute(d, s, env, SeedPartly(pool)) == PartialSeed(d, s, env, pool)
      && Execute(d, s, env, MineCall(nonce)) == Mine(d, s, env, nonce)
      && Execute(d, s, env, Send(to, amount)) == Transfer(s, env, to, amount)
  {
    hide SeedPool, PartialSeed, Mine, Transfer, MintGenesis;
  }
}
