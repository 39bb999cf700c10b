/** Runs of the contract: any transactions from any senders, in blocks whose numbers never go back. */
module ContractRuns {
  import opened Words
  import opened HashContract
  import opened Totals

  datatype Tx = Tx(env: Env, call: Call)

  /** A successful mine, with its block and epoch and the reward it was paid. */
  datatype Mint = Mint(miner: address, nonce: uint256, epoch: nat, number: uint256, reward: nat)

  /** The storage, the last block seen, and what has happened so far. */
  datatype History = History(store: Storage, number: nat, mints: seq<Mint>, events: seq<Event>)

  /** Only the contract's own code sends from the contract's address, and it calls none of its entry points. */
  predicate Admissible(d: Deployment, h: History, tx: Tx) {
    tx.env.sender != d.self && h.number <= tx.env.number
  }

  function MintsOf(s: Storage, s': Storage, tx: Tx): seq<Mint> {
    if tx.call.MineCall? && s.totalMiningMinted <= s'.totalMiningMinted then
      [Mint(tx.env.sender, tx.call.nonce, Epoch(tx.env.number), tx.env.number,
            s'.totalMiningMinted - s.totalMiningMinted)]
    else []
  }

  function Step(d: Deployment, h: History, tx: Tx): History {
    match Execute(d, h.store, tx.env, tx.call)
    case Reverted(_) => h.(number := tx.env.number)
    case Committed(s', events) => History(s', tx.env.number, h.mints + MintsOf(h.store, s', tx), h.events + events)
  }

  function After(d: Deployment, txs: seq<Tx>): History {
    if txs == [] then History(InitialStorage(), 0, [], [])
    else Step(d, After(d, txs[..|txs| - 1]), txs[|txs| - 1])
  }

  predicate Admitted(d: Deployment, txs: seq<Tx>) {
    txs != [] ==>
      Admitted(d, txs[..|txs| - 1]) && Admissible(d, After(d, txs[..|txs| - 1]), txs[|txs| - 1])
  }

  lemma RunExtended(d: Deployment, txs: seq<Tx>, tx: Tx)
    requires Admitted(d, txs) && Admissible(d, After(d, txs), tx)
    ensures Admitted(d, txs + [tx]) && After(d, txs + [tx]) == Step(d, After(d, txs), tx)
  {
    hide Step, Admissible;
    assert (txs + [tx])[..|txs + [tx]| - 1] == txs;
  }

  // ---------- what a committed transaction has done, field by field

  lemma BuyEffect(s: Storage, env: Env, units: nat, refundAccepted: bool)
    requires MintGenesis(s, env, units, refundAccepted).Committed?
    ensures !s.genesisComplete && 0 < units <= MAX_UNITS_PER_TX
    ensures s.genesisMinted + units * GENESIS_UNIT <= GENESIS_CAP
    ensures MintGenesis(s, env, units, refundAccepted).store == s.(
      genesisMinted := s.genesisMinted + units * GENESIS_UNIT,
      genesisEthRaised := s.genesisEthRaised + units * GENESIS_PRICE,
      balances := s.balances[env.sender := Get(s.balances, env.sender) + units * GENESIS_UNIT],
      totalSupply := s.totalSupply + units * GENESIS_UNIT)
    ensures MintGenesis(s, env, units, refundAccepted).events
            == [GenesisMint(env.sender, units * GENESIS_PRICE, units * GENESIS_UNIT)]
  {
    hide GENESIS_UNIT, GENESIS_PRICE, GENESIS_CAP;
  }

  /** Both seeding routes end here. */
  lemma SeedEffect(d: Deployment, s: Storage, env: Env, pool: PoolResult)
    requires SeedBody(d, s, env, pool).Committed?
    ensures pool.PoolTakes? && pool.amount <= s.genesisMinted
            && SqrtPriceX96(s.genesisEthRaised, s.genesisMinted).Price?
    ensures var issued := s.genesisMinted + MINING_SUPPLY;
      var held := s.balances[d.self := Get(s.balances, d.self) + issued];
      SeedBody(d, s, env, pool).store == s.(genesisComplete := true,
        currentDifficulty := INITIAL_DIFFICULTY, lastAdjustmentBlock := env.number, lastAdjustmentMint := 0,
        balances := Moved(held, d.self, d.pool, pool.amount), totalSupply := s.totalSupply + issued)
    ensures SeedBody(d, s, env, pool).events ==
            [PoolSeeded(s.genesisEthRaised, s.genesisMinted,
                        SqrtPriceX96(s.genesisEthRaised, s.genesisMinted).sqrtPriceX96)]
  {
    hide SqrtPriceX96, MINING_SUPPLY, INITIAL_DIFFICULTY;
  }

  /** What a mine counts, and what had to hold for it. */
  ghost predicate CountFacts(d: Deployment, s: Storage, env: Env, nonce: uint256, s': Storage) {
    && s.genesisComplete && s.totalMiningMinted < MINING_SUPPLY
    && Get(s.mintsInBlock, env.number) < MAX_MINTS_PER_BLOCK
    && ProofKey(d, env.sender, nonce, Epoch(env.number)) !in s.usedProofs
    && s'.usedProofs == s.usedProofs + {ProofKey(d, env.sender, nonce, Epoch(env.number))}
    && s'.mintsInBlock == s.mintsInBlock[env.number := Get(s.mintsInBlock, env.number) + 1]
    && s'.totalMints == s.totalMints + 1
    && s'.genesisComplete == s.genesisComplete && s'.genesisMinted == s.genesisMinted
    && s'.genesisEthRaised == s.genesisEthRaised && s'.totalSupply == s.totalSupply
  }

  ghost predicate RetargetFacts(s: Storage, env: Env, s': Storage) {
    if s.totalMints + 1 - s.lastAdjustmentMint < ADJUSTMENT_INTERVAL then
      && s'.currentDifficulty == s.currentDifficulty
      && s'.lastAdjustmentMint == s.lastAdjustmentMint && s'.lastAdjustmentBlock == s.lastAdjustmentBlock
    else
      && s.lastAdjustmentBlock <= env.number
      && NextDifficulty(s.currentDifficulty, env.number - s.lastAdjustmentBlock) == Retargeted(s'.currentDifficulty)
      && s'.lastAdjustmentMint == s.totalMints + 1 && s'.lastAdjustmentBlock == env.number
  }

  ghost predicate PaymentFacts(d: Deployment, s: Storage, env: Env, s': Storage) {
    && s.totalMiningMinted < s'.totalMiningMinted && s.totalMiningMinted < MINING_SUPPLY
    && s'.totalMiningMinted - s.totalMiningMinted
       == Min(RewardForEra((s.totalMints + 1) / ERA_MINTS), MINING_SUPPLY - s.totalMiningMinted)
    && s'.totalMiningMinted - s.totalMiningMinted <= Get(s.balances, d.self)
    && s'.balances == Moved(s.balances, d.self, env.sender, s'.totalMiningMinted - s.totalMiningMinted)
  }

  lemma AdjustedFacts(s: Storage, s0: Storage, env: Env)
    requires s.totalMints == s0.totalMints + 1 && s.currentDifficulty == s0.currentDifficulty
    requires s.lastAdjustmentMint == s0.lastAdjustmentMint && s.lastAdjustmentBlock == s0.lastAdjustmentBlock
    requires Adjusted(s, env).Committed?
    ensures var s' := Adjusted(s, env).store;
      RetargetFacts(s0, env, s') && s' == s.(currentDifficulty := s'.currentDifficulty,
        lastAdjustmentMint := s'.lastAdjustmentMint, lastAdjustmentBlock := s'.lastAdjustmentBlock)
  {
    hide NextDifficulty, ADJUSTMENT_INTERVAL;
  }

  lemma PaidFacts(d: Deployment, s: Storage, env: Env, nonce: uint256)
    requires s.totalMiningMinted < MINING_SUPPLY && Paid(d, s, env, nonce).Committed?
    ensures var s' := Paid(d, s, env, nonce).store;
      && s' == s.(totalMiningMinted := s'.totalMiningMinted, balances := s'.balances)
      && s.totalMiningMinted < s'.totalMiningMinted
      && s'.totalMiningMinted - s.totalMiningMinted
         == Min(RewardForEra(s.totalMints / ERA_MINTS), MINING_SUPPLY - s.totalMiningMinted)
      && s'.totalMiningMinted - s.totalMiningMinted <= Get(s.balances, d.self)
      && s'.balances == Moved(s.balances, d.self, env.sender, s'.totalMiningMinted - s.totalMiningMinted)
  {
    hide RewardForEra, MINING_SUPPLY, ERA_MINTS, Moved;
  }

  lemma MineEffect(d: Deployment, s: Storage, env: Env, nonce: uint256)
    requires Mine(d, s, env, nonce).Committed?
    ensures var s' := Mine(d, s, env, nonce).store;
      CountFacts(d, s, env, nonce, s') && RetargetFacts(s, env, s') && PaymentFacts(d, s, env, s')
  {
    hide RewardForEra, MINING_SUPPLY, ERA_MINTS, Moved, Paid, Adjusted, NextDifficulty, Work, Challenge, ProofKey,
      Epoch;
    var s1 := Counted(d, s, env, nonce);
    AdjustedFacts(s1, s, env);
    PaidFacts(d, Adjusted(s1, env).store, env, nonce);
  }

  /** The events of the n-th mint: of a retarget, if it makes one, and of a halving, if it opens an era. */
  function RetargetEvents(s: Storage, env: Env, next: nat): seq<Event> {
    if s.totalMints + 1 - s.lastAdjustmentMint < ADJUSTMENT_INTERVAL || env.number < s.lastAdjustmentBlock then []
    else [DifficultyAdjusted(s.currentDifficulty, next, env.number - s.lastAdjustmentBlock)]
  }

  function HalvingEvents(n: nat, reward: nat): seq<Event> {
    if n / ERA_MINTS > 0 && n % ERA_MINTS == 0 then [Halving(n / ERA_MINTS, reward)] else []
  }

  lemma MineEvents(d: Deployment, s: Storage, env: Env, nonce: uint256)
    requires Mine(d, s, env, nonce).Committed?
    ensures var s' := Mine(d, s, env, nonce).store;
      s.totalMiningMinted <= s'.totalMiningMinted
      && var n, reward := s.totalMints + 1, s'.totalMiningMinted - s.totalMiningMinted;
      Mine(d, s, env, nonce).events ==
        RetargetEvents(s, env, s'.currentDifficulty)
        + (HalvingEvents(n, reward) + [Mined(env.sender, nonce, reward, n / ERA_MINTS)])
  {
    hide RewardForEra, MINING_SUPPLY, ERA_MINTS, Moved, NextDifficulty, Work, Challenge, ProofKey, Epoch;
  }

  // ---------- the cases of a step

  /** Which kind of transaction has committed. */
  datatype Change = Nothing | Bought | Seeded | Mining | Sent

  function ChangeOf(d: Deployment, h: History, tx: Tx): Change {
    if Execute(d, h.store, tx.env, tx.call).Reverted? then Nothing
    else if tx.call.Buy? then Bought
    else if tx.call.MineCall? then Mining
    else if tx.call.Send? then Sent
    else Seeded
  }

  lemma NothingChanges(d: Deployment, h: History, tx: Tx)
    requires ChangeOf(d, h, tx).Nothing?
    ensures Step(d, h, tx) == h.(number := tx.env.number)
  {
    hide Execute;
  }

  lemma SentStep(d: Deployment, h: History, tx: Tx)
    requires ChangeOf(d, h, tx).Sent?
    ensures tx.call.Send?
    ensures var s := h.store;
      && tx.call.amount <= Get(s.balances, tx.env.sender)
      && Step(d, h, tx) == h.(number := tx.env.number,
           store := s.(balances := Moved(s.balances, tx.env.sender, tx.call.to, tx.call.amount)))
  {
    hide Moved, MintGenesis, SeedPool, PartialSeed, Mine;
  }

  lemma BoughtStep(d: Deployment, h: History, tx: Tx)
    requires ChangeOf(d, h, tx).Bought?
    ensures tx.call.Buy?
    ensures var s, units := h.store, tx.call.units;
      && !s.genesisComplete && 0 < units <= MAX_UNITS_PER_TX
      && s.genesisMinted + units * GENESIS_UNIT <= GENESIS_CAP
      && Step(d, h, tx) == h.(number := tx.env.number, store := s.(
           genesisMinted := s.genesisMinted + units * GENESIS_UNIT,
           genesisEthRaised := s.genesisEthRaised + units * GENESIS_PRICE,
           balances := s.balances[tx.env.sender := Get(s.balances, tx.env.sender) + units * GENESIS_UNIT],
           totalSupply := s.totalSupply + units * GENESIS_UNIT),
           events := h.events + [GenesisMint(tx.env.sender, units * GENESIS_PRICE, units * GENESIS_UNIT)])
  {
    BuyEffect(h.store, tx.env, tx.call.units, tx.call.refundAccepted);
    hide Moved, MintGenesis, SeedPool, PartialSeed, Mine, Transfer, GENESIS_UNIT, GENESIS_PRICE, GENESIS_CAP;
  }

  lemma SeededStep(d: Deployment, h: History, tx: Tx)
    requires ChangeOf(d, h, tx).Seeded?
    ensures (tx.call.Seed? || tx.call.SeedPartly?) && tx.call.pool.PoolTakes?
    ensures var s, amount, issued := h.store, tx.call.pool.amount, h.store.genesisMinted + MINING_SUPPLY;
      && !s.genesisComplete && 0 < s.genesisMinted && amount <= s.genesisMinted
      && SqrtPriceX96(s.genesisEthRaised, s.genesisMinted).Price?
      && var held := s.balances[d.self := Get(s.balances, d.self) + issued];
      Step(d, h, tx) == h.(number := tx.env.number, store := s.(genesisComplete := true,
        currentDifficulty := INITIAL_DIFFICULTY, lastAdjustmentBlock := tx.env.number, lastAdjustmentMint := 0,
        balances := Moved(held, d.self, d.pool, amount), totalSupply := s.totalSupply + issued),
        events := h.events +
          [PoolSeeded(s.genesisEthRaised, s.genesisMinted,
                      SqrtPriceX96(s.genesisEthRaised, s.genesisMinted).sqrtPriceX96)])
  {
    SeedEffect(d, h.store, tx.env, tx.call.pool);
    hide Moved, MintGenesis, SeedBody, Mine, Transfer, SqrtPriceX96, MINING_SUPPLY, INITIAL_DIFFICULTY;
  }

  lemma MiningStep(d: Deployment, h: History, tx: Tx)
    requires ChangeOf(d, h, tx).Mining?
    ensures tx.call.MineCall? && Mine(d, h.store, tx.env, tx.call.nonce).Committed?
    ensures var s, s' := h.store, Step(d, h, tx).store;
      && CountFacts(d, s, tx.env, tx.call.nonce, s') && RetargetFacts(s, tx.env, s') && PaymentFacts(d, s, tx.env, s')
      && Step(d, h, tx).number == tx.env.number
      && Step(d, h, tx).events == h.events + Mine(d, h.store, tx.env, tx.call.nonce).events
      && Step(d, h, tx).mints == h.mints + [Mint(tx.env.sender, tx.call.nonce, Epoch(tx.env.number), tx.env.number,
                                            s'.totalMiningMinted - s.totalMiningMinted)]
  {
    MineEffect(d, h.store, tx.env, tx.call.nonce);
    hide Mine, MintGenesis, SeedPool, PartialSeed, Transfer, CountFacts, RetargetFacts, RewardForEra, Epoch, Moved;
  }
}
