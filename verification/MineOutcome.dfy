/** What a call of `mine` does in a reachable state, told from the record alone: no other failure is possible. */
module MineOutcome {
  import opened Words
  import opened Totals
  import opened HashContract
  import opened ContractRuns
  import opened Emission
  import opened Supply
  import opened Retargeting
  import opened Ledger

  ghost predicate Reachable(d: Deployment, h: History) {
    exists txs :: Admitted(d, txs) && After(d, txs) == h
  }

  /** What the invariants say of a state. */
  ghost predicate Sound(d: Deployment, h: History) {
    && OnSchedule(h.store) && RewardsCovered(d, h.store) && Windowed(h) && OnInterval(h.store) && CountsRecorded(h)
  }

  lemma ReachableSound(d: Deployment, h: History)
    requires Reachable(d, h)
    ensures Sound(d, h)
  {
    var txs :| Admitted(d, txs) && After(d, txs) == h;
    EmissionOfEveryRun(d, txs);
    SupplyOfEveryRun(d, txs);
    RetargetsOfEveryRun(d, txs);
    RecordOfEveryRun(d, txs);
    hide Admitted, After, OnSchedule, RewardsCovered, Windowed, OnInterval, CountsRecorded;
  }

  /** Every reachable state steps to a reachable state. */
  lemma ReachableStep(d: Deployment, h: History, tx: Tx)
    requires Reachable(d, h) && Admissible(d, h, tx)
    ensures Reachable(d, Step(d, h, tx))
  {
    hide Step;
    var txs :| Admitted(d, txs) && After(d, txs) == h;
    RunExtended(d, txs, tx);
  }

  /** The outcome `r` of a call, as the record `h.mints`, the difficulty and the used proofs determine it. */
  ghost predicate OutcomeRule(d: Deployment, h: History, env: Env, nonce: uint256, r: Outcome) {
    if !h.store.genesisComplete then r == Reverted(GenesisNotComplete)
    else if |h.mints| == LAST_MINT then r == Reverted(SupplyExhausted)
    else if CountBlock(h.mints, env.number) == 10 then r == Reverted(BlockCapReached)
    else if Work(d, Challenge(d, env.sender, Epoch(env.number)), nonce) >= h.store.currentDifficulty then
      r == Reverted(InsufficientWork)
    else if ProofKey(d, env.sender, nonce, Epoch(env.number)) in h.store.usedProofs then r == Reverted(ProofAlreadyUsed)
    else if HaltedAt(h.store, env.number) then r == Reverted(Panic)
    else r.Committed?
  }

  lemma PaymentSucceeds(d: Deployment, s: Storage, env: Env, nonce: uint256)
    requires s.totalMiningMinted < MINING_SUPPLY
    requires 0 < RewardForEra(s.totalMints / ERA_MINTS) <= MINING_SUPPLY - s.totalMiningMinted
    requires Get(s.balances, d.self) + s.totalMiningMinted >= MINING_SUPPLY
    ensures Paid(d, s, env, nonce).Committed?
  {
    hide RewardForEra, MINING_SUPPLY, ERA_MINTS, Moved, Get;
  }

  /** The retarget is due at the last mint of each interval. */
  lemma IntervalEnds(n: nat, m: nat)
    requires m <= n < m + ADJUSTMENT_INTERVAL && m % ADJUSTMENT_INTERVAL == 0
    ensures n + 1 - m >= ADJUSTMENT_INTERVAL <==> (n + 1) % ADJUSTMENT_INTERVAL == 0
  {
    var r := n - m;
    assert n == ADJUSTMENT_INTERVAL * (m / ADJUSTMENT_INTERVAL) + r;
  }

  /** The retarget reverts exactly by the rule, and otherwise leaves what the payment needs. */
  lemma AdjustmentOutcome(d: Deployment, h: History, env: Env, s1: Storage)
    requires h.store.genesisComplete && OnInterval(h.store) && h.store.totalMints == |h.mints|
    requires h.store.lastAdjustmentBlock <= env.number
    requires s1 == h.store.(usedProofs := s1.usedProofs, mintsInBlock := s1.mintsInBlock, totalMints := |h.mints| + 1)
    ensures Adjusted(s1, env).Reverted? <==> HaltedAt(h.store, env.number)
    ensures Adjusted(s1, env).Reverted? ==> Adjusted(s1, env).error == Panic
    ensures Adjusted(s1, env).Committed? ==>
      var s2 := Adjusted(s1, env).store;
      && s2.totalMints == s1.totalMints && s2.totalMiningMinted == s1.totalMiningMinted && s2.balances == s1.balances
  {
    RetargetDefined(h.store.currentDifficulty, env.number - h.store.lastAdjustmentBlock);
    hide NextDifficulty, TWO256, TARGET_WINDOW, ADJUSTMENT_INTERVAL;
  }

  lemma MineByRule(d: Deployment, h: History, env: Env, nonce: uint256)
    requires Sound(d, h) && Admissible(d, h, Tx(env, MineCall(nonce)))
    ensures OutcomeRule(d, h, env, nonce, Mine(d, h.store, env, nonce))
  {
    hide Adjusted, Paid, MineChecks, HaltedAt, OnSchedule, RewardsCovered, Windowed, OnInterval, CountsRecorded,
      MinedAfter, ProofKey, Work, Challenge, Epoch, CountBlock, MINING_SUPPLY, LAST_MINT, RewardForEra;
    var s := h.store;
    if s.genesisComplete {
      ChecksByRecord(d, h, env, nonce);
      if MineChecks(d, s, env, nonce).0 {
        PaymentDue(d, h, env, nonce);
        AdjustmentOutcome(d, h, env, Counted(d, s, env, nonce));
        if Adjusted(Counted(d, s, env, nonce), env).Committed? {
          PaymentSucceeds(d, Adjusted(Counted(d, s, env, nonce), env).store, env, nonce);
        }
      }
    } else {
      ClosedBeforeGenesis(d, s, env, nonce);
    }
  }

  lemma ClosedBeforeGenesis(d: Deployment, s: Storage, env: Env, nonce: uint256)
    requires !s.genesisComplete
    ensures MineChecks(d, s, env, nonce) == (false, GenesisNotComplete)
  {
  }

  /** Past the checks, a whole reward is due and covered, and the retarget's block is not in the future. */
  lemma PaymentDue(d: Deployment, h: History, env: Env, nonce: uint256)
    requires Sound(d, h) && h.number <= env.number && h.store.genesisComplete && MineChecks(d, h.store, env, nonce).0
    ensures h.store.totalMiningMinted < MINING_SUPPLY && h.store.totalMints == |h.mints|
    ensures 0 < RewardForEra((h.store.totalMints + 1) / ERA_MINTS) <= MINING_SUPPLY - h.store.totalMiningMinted
    ensures Get(h.store.balances, d.self) + h.store.totalMiningMinted >= MINING_SUPPLY
    ensures h.store.lastAdjustmentBlock <= env.number && OnInterval(h.store)
  {
    hide MINING_SUPPLY, LAST_MINT, RewardForEra, MinedAfter, BlocksCapped, Work, Challenge, ProofKey, Epoch,
      CountBlock, OnInterval;
    SupplyEndsAtLastMint(h.store.totalMints);
  }

  lemma ChecksByRecord(d: Deployment, h: History, env: Env, nonce: uint256)
    requires Sound(d, h) && h.store.genesisComplete
    ensures MineChecks(d, h.store, env, nonce) ==
      if |h.mints| == LAST_MINT then (false, SupplyExhausted)
      else if CountBlock(h.mints, env.number) == MAX_MINTS_PER_BLOCK then (false, BlockCapReached)
      else if Work(d, Challenge(d, env.sender, Epoch(env.number)), nonce) >= h.store.currentDifficulty then
        (false, InsufficientWork)
      else if ProofKey(d, env.sender, nonce, Epoch(env.number)) in h.store.usedProofs then (false, ProofAlreadyUsed)
      else (true, Panic)
  {
    SupplyEndsAtLastMint(h.store.totalMints);
    assert Get(h.store.mintsInBlock, env.number) == CountBlock(h.mints, env.number) <= MAX_MINTS_PER_BLOCK;
    hide Windowed, RewardsCovered, OnInterval, MinedAfter, RewardOfMint, ProofKey, Work, Challenge, Epoch,
      CountBlock, Total, Get, MINING_SUPPLY, LAST_MINT;
  }

  /** In every reachable state a call of mine ends by the rule; when it commits, exactly one mint is recorded
      and it is paid the reward of its place in the schedule. */
  lemma MineInEveryRun(d: Deployment, h: History, env: Env, nonce: uint256)
    requires Reachable(d, h) && Admissible(d, h, Tx(env, MineCall(nonce))) && env.value == 0
    ensures OutcomeRule(d, h, env, nonce, Execute(d, h.store, env, MineCall(nonce)))
    ensures Execute(d, h.store, env, MineCall(nonce)).Committed? ==>
      Step(d, h, Tx(env, MineCall(nonce))).mints
      == h.mints + [Mint(env.sender, nonce, Epoch(env.number), env.number, RewardOfMint(|h.mints| + 1))]
  {
    hide *;
    ReachableSound(d, h);
    MineByRule(d, h, env, nonce);
    ExecuteMine(d, h.store, env, nonce);
    if Execute(d, h.store, env, MineCall(nonce)).Committed? {
      CommittedMint(d, h, Tx(env, MineCall(nonce)));
    }
  }

  lemma ExecuteMine(d: Deployment, s: Storage, env: Env, nonce: uint256)
    requires env.value == 0
    ensures Execute(d, s, env, MineCall(nonce)) == Mine(d, s, env, nonce)
  {
    hide Mine, MintGenesis, SeedPool, PartialSeed, Transfer;
  }

  lemma CommittedMint(d: Deployment, h: History, tx: Tx)
    requires Sound(d, h) && tx.call.MineCall? && Execute(d, h.store, tx.env, tx.call).Committed?
    ensures Step(d, h, tx).mints
      == h.mints + [Mint(tx.env.sender, tx.call.nonce, Epoch(tx.env.number), tx.env.number,
                          RewardOfMint(|h.mints| + 1))]
  {
    hide Step, Execute, Mine, Windowed, RewardsCovered, OnInterval, RewardOfMint, OnSchedule, Epoch, RetargetFacts,
      PaymentFacts, CountBlock, Total;
    MiningStep(d, h, tx);
    MinePaysSchedule(d, h, tx);
  }

  /** Where nothing else stands in the way, a call mints exactly unless mining has stopped for good by its block. */
  lemma MinesUnlessHalted(d: Deployment, h: History, env: Env, nonce: uint256)
    requires Reachable(d, h) && Admissible(d, h, Tx(env, MineCall(nonce))) && env.value == 0
    requires h.store.genesisComplete && |h.mints| < LAST_MINT && CountBlock(h.mints, env.number) < MAX_MINTS_PER_BLOCK
    requires Work(d, Challenge(d, env.sender, Epoch(env.number)), nonce) < h.store.currentDifficulty
    requires ProofKey(d, env.sender, nonce, Epoch(env.number)) !in h.store.usedProofs
    ensures Execute(d, h.store, env, MineCall(nonce)).Committed? <==> !HaltedAt(h.store, env.number)
  {
    hide Reachable, Admissible, CountBlock, Work, Challenge, Epoch, ProofKey, HaltedAt, Execute, Step, RewardOfMint;
    MineInEveryRun(d, h, env, nonce);
  }
}
