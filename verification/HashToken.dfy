/** The contract as an object whose functions update its storage in place; a failing call restores what it found. */
module HashToken {
  import opened Words
  import opened SquareRoot
  import opened Totals
  import opened HashContract

  datatype Result = Failed(error: Error) | Done

  /** What a call has to do: fail with the error and no effect, or reach the storage and log the events. */
  ghost predicate Performs(o: Outcome, store: Storage, log: seq<Event>, store': Storage, log': seq<Event>,
                           result: Result)
  {
    match o
    case Reverted(error) => result == Failed(error) && store' == store && log' == log
    case Committed(s, events) => result == Done && store' == s && log' == log + events
  }

  class Hash {
    const d: Deployment
    var genesisEthRaised: nat
    var genesisMinted: nat
    var genesisComplete: bool
    var totalMints: nat
    var totalMiningMinted: nat
    var currentDifficulty: nat
    var lastAdjustmentMint: nat
    var lastAdjustmentBlock: nat
    var mintsInBlock: map<nat, nat>
    var usedProofs: set<bytes32>
    var balances: map<address, nat>
    var totalSupply: nat
    var log: seq<Event>

    function Store(): Storage
      reads this
    {
      Storage(genesisEthRaised, genesisMinted, genesisComplete, totalMints, totalMiningMinted, currentDifficulty,
              lastAdjustmentMint, lastAdjustmentBlock, mintsInBlock, usedProofs, balances, totalSupply)
    }

    constructor (d: Deployment)
      ensures this.d == d && Store() == InitialStorage() && log == []
    {
      this.d := d;
      genesisEthRaised, genesisMinted, genesisComplete := 0, 0, false;
      totalMints, totalMiningMinted, currentDifficulty := 0, 0, 0;
      lastAdjustmentMint, lastAdjustmentBlock := 0, 0;
      mintsInBlock, usedProofs := map[], {};
      balances, totalSupply := map[], 0;
      log := [];
    }

    /** The effect of a revert. */
    method Restore(s: Storage, events: seq<Event>)
      modifies this
      ensures Store() == s && log == events
    {
      RestoreGenesis(s);
      RestoreMining(s);
      RestoreToken(s);
      log := events;
    }

    method RestoreGenesis(s: Storage)
      modifies `genesisEthRaised, `genesisMinted, `genesisComplete
      ensures genesisEthRaised == s.genesisEthRaised && genesisMinted == s.genesisMinted
      ensures genesisComplete == s.genesisComplete
    {
      genesisEthRaised, genesisMinted, genesisComplete := s.genesisEthRaised, s.genesisMinted, s.genesisComplete;
    }

    method RestoreMining(s: Storage)
      modifies `totalMints, `totalMiningMinted, `currentDifficulty, `lastAdjustmentMint, `lastAdjustmentBlock
      ensures totalMints == s.totalMints && totalMiningMinted == s.totalMiningMinted
      ensures currentDifficulty == s.currentDifficulty
      ensures lastAdjustmentMint == s.lastAdjustmentMint && lastAdjustmentBlock == s.lastAdjustmentBlock
    {
      totalMints, totalMiningMinted, currentDifficulty := s.totalMints, s.totalMiningMinted, s.currentDifficulty;
      lastAdjustmentMint, lastAdjustmentBlock := s.lastAdjustmentMint, s.lastAdjustmentBlock;
    }

    method RestoreToken(s: Storage)
      modifies `mintsInBlock, `usedProofs, `balances, `totalSupply
      ensures mintsInBlock == s.mintsInBlock && usedProofs == s.usedProofs
      ensures balances == s.balances && totalSupply == s.totalSupply
    {
      mintsInBlock, usedProofs, balances, totalSupply := s.mintsInBlock, s.usedProofs, s.balances, s.totalSupply;
    }

    method Issue(to: address, amount: nat)
      modifies `balances, `totalSupply
      ensures Store() == Minted(old(Store()), to, amount)
    {
      balances := balances[to := Get(balances, to) + amount];
      totalSupply := totalSupply + amount;
    }

    method Move(from: address, to: address, amount: nat) returns (ok: bool)
      modifies `balances
      ensures ok <==> amount <= Get(old(balances), from)
      ensures balances == if ok then Moved(old(balances), from, to, amount) else old(balances)
    {
      ok := amount <= Get(balances, from);
      if ok {
        balances := balances[from := Get(balances, from) - amount];
        balances := balances[to := Get(balances, to) + amount];
      }
    }

    // ---------- genesis

    method MintGenesis(env: Env, units: nat, refundAccepted: bool) returns (result: Result)
      modifies this
      ensures Performs(HashContract.MintGenesis(old(Store()), env, units, refundAccepted),
                       old(Store()), old(log), Store(), log, result)
    {
      var saved, events := Store(), log;
      result := MintGenesisBody(env, units, refundAccepted);
      if result.Failed? { Restore(saved, events); }
    }

    method MintGenesisBody(env: Env, units: nat, refundAccepted: bool) returns (result: Result)
      modifies this
      ensures var o := HashContract.MintGenesis(old(Store()), env, units, refundAccepted);
        if result.Failed? then o == Reverted(result.error)
        else Performs(o, old(Store()), old(log), Store(), log, result)
    {
      hide GENESIS_UNIT, GENESIS_PRICE, GENESIS_CAP;
      if genesisComplete { return Failed(GenesisAlreadyComplete); }
      if units == 0 || units > MAX_UNITS_PER_TX { return Failed(TxCapExceeded); }
      var hashAmount := units * GENESIS_UNIT;
      var cost := units * GENESIS_PRICE;
      if env.value < cost { return Failed(InsufficientPayment); }
      if genesisMinted + hashAmount > GENESIS_CAP { return Failed(GenesisSoldOut); }
      genesisMinted := genesisMinted + hashAmount;
      genesisEthRaised := genesisEthRaised + cost;
      var excess := env.value - cost;
      if excess > 0 && !refundAccepted { return Failed(EthTransferFailed); }
      Issue(env.sender, hashAmount);
      log := log + [GenesisMint(env.sender, cost, hashAmount)];
      return Done;
    }

    method SqrtPriceX96FromAmounts(amount0: nat, amount1: nat) returns (price: Price)
      ensures price == SqrtPriceX96(amount0, amount1)
    {
      hide FloorRoot, TWO256, TWO96, TWO160;
      if amount0 == 0 { return NoPrice; }
      PositivePower();
      var priceX96 := (amount1 * TWO96 % TWO256) / amount0;
      var ratioX192 := priceX96 * TWO96 % TWO256;
      var overflow, root := Sqrt(ratioX192);
      if overflow || root >= TWO160 { return NoPrice; }
      return Price(root);
    }

    method SeedBody(env: Env, pool: PoolResult) returns (result: Result)
      modifies this
      ensures var o := HashContract.SeedBody(d, old(Store()), env, pool);
        if result.Failed? then o == Reverted(result.error)
        else Performs(o, old(Store()), old(log), Store(), log, result)
    {
      hide SqrtPriceX96, MINING_SUPPLY, INITIAL_DIFFICULTY, Moved, Get;
      genesisComplete := true;
      var eth, hashLP := genesisEthRaised, genesisMinted;
      Issue(d.self, hashLP + MINING_SUPPLY);
      var price := SqrtPriceX96FromAmounts(eth, hashLP);
      if price.NoPrice? { return Failed(Panic); }
      IssuedIsHeld(old(balances), d.self, hashLP + MINING_SUPPLY);
      var placed := OpenPool(env, pool, hashLP);
      if !placed { return Failed(PoolFailed); }
      log := log + [PoolSeeded(eth, hashLP, price.sqrtPriceX96)];
      return Done;
    }

    /** The opening values of the difficulty, and the deposit made by the position manager. */
    method OpenPool(env: Env, pool: PoolResult, hashLP: nat) returns (placed: bool)
      requires hashLP <= Get(balances, d.self)
      modifies `currentDifficulty, `lastAdjustmentBlock, `lastAdjustmentMint, `balances
      ensures placed <==> pool.PoolTakes? && pool.amount <= hashLP
      ensures placed ==>
        && currentDifficulty == INITIAL_DIFFICULTY && lastAdjustmentBlock == env.number && lastAdjustmentMint == 0
        && balances == Moved(old(balances), d.self, d.pool, pool.amount)
    {
      hide INITIAL_DIFFICULTY, Moved, Get;
      if pool.PoolReverts? { return false; }
      currentDifficulty := INITIAL_DIFFICULTY;
      lastAdjustmentBlock := env.number;
      lastAdjustmentMint := 0;
      if pool.amount > hashLP { return false; }
      placed := Move(d.self, d.pool, pool.amount);
    }

    method SeedPool(env: Env, pool: PoolResult) returns (result: Result)
      modifies this
      ensures Performs(HashContract.SeedPool(d, old(Store()), env, pool), old(Store()), old(log), Store(), log, result)
    {
      var saved, events := Store(), log;
      hide HashContract.SeedBody, GENESIS_CAP;
      if genesisComplete { return Failed(GenesisAlreadyComplete); }
      if genesisMinted < GENESIS_CAP { return Failed(GenesisNotSoldOut); }
      result := SeedBody(env, pool);
      if result.Failed? { Restore(saved, events); }
    }

    method PartialSeed(env: Env, pool: PoolResult) returns (result: Result)
      modifies this
      ensures Performs(HashContract.PartialSeed(d, old(Store()), env, pool),
                       old(Store()), old(log), Store(), log, result)
    {
      var saved, events := Store(), log;
      hide HashContract.SeedBody;
      if env.sender != d.controller { return Failed(NotController); }
      if genesisComplete { return Failed(GenesisAlreadyComplete); }
      if env.timestamp < d.deployedAt + PARTIAL_SEED_DELAY { return Failed(TooSoon); }
      if genesisMinted == 0 { return Failed(NothingToSeed); }
      result := SeedBody(env, pool);
      if result.Failed? { Restore(saved, events); }
    }

    // ---------- mining

    method AdjustDifficulty(env: Env) returns (result: Result)
      requires totalMints - lastAdjustmentMint >= ADJUSTMENT_INTERVAL
      modifies this
      ensures var o := Adjusted(old(Store()), env);
        if result.Failed? then o == Reverted(result.error)
        else Performs(o, old(Store()), old(log), Store(), log, result)
    {
      hide ADJUSTMENT_INTERVAL, TARGET_WINDOW, TWO256;
      if env.number < lastAdjustmentBlock { return Failed(Panic); }
      var taken := env.number - lastAdjustmentBlock;
      var current := currentDifficulty;
      NonZeroWindow();
      var next := if taken == 0 then current / 4 else current * taken / TARGET_WINDOW;
      if next >= TWO256 || current * 4 >= TWO256 { return Failed(Panic); }
      if next < current / 4 { next := current / 4; }
      if next > current * 4 { next := current * 4; }
      if next == 0 { next := 1; }
      currentDifficulty := next;
      lastAdjustmentMint := totalMints;
      lastAdjustmentBlock := env.number;
      log := log + [DifficultyAdjusted(current, next, taken)];
      return Done;
    }

    method Mine(env: Env, nonce: uint256) returns (result: Result)
      modifies this
      ensures Performs(HashContract.Mine(d, old(Store()), env, nonce), old(Store()), old(log), Store(), log, result)
    {
      var saved, events := Store(), log;
      hide HashContract.Mine;
      result := MineBody(env, nonce);
      if result.Failed? { Restore(saved, events); }
    }

    method MineBody(env: Env, nonce: uint256) returns (result: Result)
      modifies this
      ensures var o := HashContract.Mine(d, old(Store()), env, nonce);
        if result.Failed? then o == Reverted(result.error)
        else Performs(o, old(Store()), old(log), Store(), log, result)
    {
      hide Adjusted, Paid, MINING_SUPPLY, ProofKey, Work, Challenge, Epoch;
      if !genesisComplete { return Failed(GenesisNotComplete); }
      if totalMiningMinted >= MINING_SUPPLY { return Failed(SupplyExhausted); }
      if Get(mintsInBlock, env.number) >= MAX_MINTS_PER_BLOCK { return Failed(BlockCapReached); }
      var work := Work(d, Challenge(d, env.sender, Epoch(env.number)), nonce);
      if work >= currentDifficulty { return Failed(InsufficientWork); }
      var key := ProofKey(d, env.sender, nonce, Epoch(env.number));
      if key in usedProofs { return Failed(ProofAlreadyUsed); }
      usedProofs := usedProofs + {key};
      mintsInBlock := mintsInBlock[env.number := Get(mintsInBlock, env.number) + 1];
      totalMints := totalMints + 1;
      assert Store() == Counted(d, old(Store()), env, nonce);
      AdjustedKeepsPaid(Store(), env);
      result := Retarget(env);
      if result.Failed? { return; }
      result := Pay(env, nonce);
    }

    /** The retarget of a mine, if one is due. */
    method Retarget(env: Env) returns (result: Result)
      modifies this
      ensures var o := Adjusted(old(Store()), env);
        if result.Failed? then o == Reverted(result.error)
        else Performs(o, old(Store()), old(log), Store(), log, result)
    {
      hide NextDifficulty, ADJUSTMENT_INTERVAL;
      if totalMints < lastAdjustmentMint { return Failed(Panic); }
      if totalMints - lastAdjustmentMint >= ADJUSTMENT_INTERVAL {
        hide Adjusted;
        result := AdjustDifficulty(env);
      } else {
        result := Done;
      }
    }

    /** The payment of a mine, from the contract's own balance. */
    method Pay(env: Env, nonce: uint256) returns (result: Result)
      requires totalMiningMinted < MINING_SUPPLY
      modifies this
      ensures var o := Paid(d, old(Store()), env, nonce);
        if result.Failed? then o == Reverted(result.error)
        else Performs(o, old(Store()), old(log), Store(), log, result)
    {
      hide RewardForEra, MINING_SUPPLY, Moved;
      var era := totalMints / ERA_MINTS;
      var reward := RewardForEra(era);
      var left := MINING_SUPPLY - totalMiningMinted;
      if reward > left { reward := left; }
      if reward == 0 { return Failed(SupplyExhausted); }
      totalMiningMinted := totalMiningMinted + reward;
      var moved := Move(d.self, env.sender, reward);
      if !moved { return Failed(InsufficientBalance); }
      if era > 0 && totalMints % ERA_MINTS == 0 { log := log + [Halving(era, reward)]; }
      log := log + [Mined(env.sender, nonce, reward, era)];
      return Done;
    }

    // ---------- the token

    method Transfer(env: Env, to: address, amount: nat) returns (result: Result)
      modifies this
      ensures Performs(HashContract.Transfer(old(Store()), env, to, amount),
                       old(Store()), old(log), Store(), log, result)
    {
      hide Moved;
      if to == 0 { return Failed(InvalidReceiver); }
      var moved := Move(env.sender, to, amount);
      return if moved then Done else Failed(InsufficientBalance);
    }
  }

  lemma PositivePower()
    ensures TWO256 > 0 && TWO160 > 0
  {
  }

  lemma AdjustedKeepsPaid(s: Storage, env: Env)
    ensures Adjusted(s, env).Committed? ==> Adjusted(s, env).store.totalMiningMinted == s.totalMiningMinted
  {
    hide NextDifficulty, ADJUSTMENT_INTERVAL;
  }

  lemma IssuedIsHeld(balances: map<address, nat>, a: address, amount: nat)
    ensures Get(balances[a := Get(balances, a) + amount], a) >= amount
  {
  }

  lemma NonZeroWindow()
    ensures TARGET_WINDOW > 0
  {
  }
}
