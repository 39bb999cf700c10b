/** Runs at a steady pace: one mint every few blocks, by a miner with enough nonces.  They show what runs are possible,
    for every deployment and hash under which the nonces are there. */
module Pacing {
  import opened Words
  import opened Totals
  import opened HashContract
  import opened ContractRuns
  import opened GenesisPrice
  import opened Emission
  import opened Supply
  import opened Retargeting
  import opened Ledger
  import opened MineOutcome

  /** Blocks to a mint: from the target of 5 up to four times that. */
  type pace = p: nat | 5 <= p <= 20 witness 5

  /** The n-th mint, n counted from 1, comes in block pace * n with the n-th nonce. */
  datatype Plan = Plan(miner: address, pace: pace, nonces: nat -> uint256)

  lemma BlockBound(p: pace, n: nat)
    requires n <= LAST_MINT
    ensures p * n <= 20 * LAST_MINT < TWO256
  {
    ProductMonotone(n, p, 20);
  }

  function BlockOf(plan: Plan, n: nat): uint256
    requires n <= LAST_MINT
  {
    BlockBound(plan.pace, n);
    plan.pace * n
  }

  function MintEnv(plan: Plan, n: nat): Env
    requires n <= LAST_MINT
  {
    Env(plan.miner, 0, BlockOf(plan, n), 0)
  }

  function MintTx(plan: Plan, n: nat): Tx
    requires n <= LAST_MINT
  {
    Tx(MintEnv(plan, n), MineCall(plan.nonces(n)))
  }

  function WorkAt(d: Deployment, plan: Plan, n: nat): nat
    requires n <= LAST_MINT
  {
    Work(d, Challenge(d, plan.miner, Epoch(BlockOf(plan, n))), plan.nonces(n))
  }

  function KeyAt(d: Deployment, plan: Plan, n: nat): bytes32
    requires n <= LAST_MINT
  {
    ProofKey(d, plan.miner, plan.nonces(n), Epoch(BlockOf(plan, n)))
  }

  /** The first n nonces are enough work at the opening difficulty and have proofs of their own. */
  ghost predicate Supplied(d: Deployment, plan: Plan, n: nat)
    requires n <= LAST_MINT
  {
    && plan.miner != d.self && d.controller != d.self
    && (forall i | 1 <= i <= n :: WorkAt(d, plan, i) < INITIAL_DIFFICULTY)
    && (forall i, j | 1 <= i < j <= n :: KeyAt(d, plan, i) != KeyAt(d, plan, j))
  }

  function BuyTx(plan: Plan): Tx {
    Tx(Env(plan.miner, GENESIS_PRICE, 0, 0), Buy(1, true))
  }

  function SeedTx(d: Deployment): Tx {
    Tx(Env(d.controller, 0, 0, d.deployedAt + PARTIAL_SEED_DELAY), SeedPartly(PoolTakes(0)))
  }

  /** One unit is sold, the pool is seeded early, and then come n mints. */
  function PacedRun(d: Deployment, plan: Plan, n: nat): seq<Tx>
    requires n <= LAST_MINT
  {
    if n == 0 then [BuyTx(plan), SeedTx(d)] else PacedRun(d, plan, n - 1) + [MintTx(plan, n)]
  }

  /** The difficulty after k retargets, each after 2016 * pace blocks. */
  function DifficultyAt(p: pace, k: nat): Retarget {
    if k == 0 then Retargeted(INITIAL_DIFFICULTY)
    else
      match DifficultyAt(p, k - 1)
      case Overflow => Overflow
      case Retargeted(current) => NextDifficulty(current, ADJUSTMENT_INTERVAL * p)
  }

  /** The state after n paced mints. */
  ghost predicate OnPace(d: Deployment, plan: Plan, n: nat, h: History)
    requires n <= LAST_MINT
  {
    && h.store.genesisComplete && h.number == BlockOf(plan, n) && |h.mints| == n && h.store.totalMints == n
    && (forall i | 0 <= i < n :: Key(d, h.mints[i]) == KeyAt(d, plan, i + 1))
    && h.store.lastAdjustmentMint == ADJUSTMENT_INTERVAL * (n / ADJUSTMENT_INTERVAL)
    && h.store.lastAdjustmentBlock == plan.pace * h.store.lastAdjustmentMint
    && DifficultyAt(plan.pace, n / ADJUSTMENT_INTERVAL) == Retargeted(h.store.currentDifficulty)
    && h.store.currentDifficulty >= INITIAL_DIFFICULTY
  }

  // ---------- the start

  lemma BuyCommits(d: Deployment, plan: Plan)
    ensures var o := Execute(d, InitialStorage(), BuyTx(plan).env, BuyTx(plan).call);
      o.Committed? && o.store.genesisMinted == GENESIS_UNIT && o.store.genesisEthRaised == GENESIS_PRICE
      && !o.store.genesisComplete && o.store.totalMints == 0
  {
  }

  lemma UnitIsSoldAtPrice(s: Storage)
    requires s.genesisMinted == GENESIS_UNIT && s.genesisEthRaised == GENESIS_PRICE
    ensures SoldAtPrice(s)
  {
  }

  lemma SeedCommits(d: Deployment, s: Storage)
    requires !s.genesisComplete && s.totalMints == 0
    requires s.genesisMinted == GENESIS_UNIT && s.genesisEthRaised == GENESIS_PRICE
    ensures var o := Execute(d, s, SeedTx(d).env, SeedTx(d).call);
      && o.Committed? && o.store.genesisComplete && o.store.totalMints == 0
      && o.store.lastAdjustmentMint == 0 && o.store.lastAdjustmentBlock == 0
      && o.store.currentDifficulty == INITIAL_DIFFICULTY
  {
    hide SqrtPriceX96, INITIAL_DIFFICULTY, MINING_SUPPLY, SoldAtPrice, Moved;
    UnitIsSoldAtPrice(s);
    SeedBodyOutcome(d, s, SeedTx(d).env, PoolTakes(0));
  }

  lemma PacedStart(d: Deployment, plan: Plan)
    requires Supplied(d, plan, 0)
    ensures Admitted(d, PacedRun(d, plan, 0)) && OnPace(d, plan, 0, After(d, PacedRun(d, plan, 0)))
  {
    hide Execute, InitialStorage, INITIAL_DIFFICULTY, GENESIS_UNIT, GENESIS_PRICE;
    var t0, t1 := [], [BuyTx(plan)];
    assert PacedRun(d, plan, 0) == t1 + [SeedTx(d)] && t1 == t0 + [BuyTx(plan)];
    BuyCommits(d, plan);
    RunExtended(d, t0, BuyTx(plan));
    SeedCommits(d, After(d, t1).store);
    RunExtended(d, t1, SeedTx(d));
  }

  // ---------- one more mint

  lemma FreshKey(d: Deployment, plan: Plan, n: nat, h: History)
    requires n < LAST_MINT && OnPace(d, plan, n, h) && KeysRecorded(d, h) && Supplied(d, plan, n + 1)
    ensures KeyAt(d, plan, n + 1) !in h.store.usedProofs
  {
    hide Key, KeyAt, WorkAt, DifficultyAt, BlockOf;
  }

  lemma EmptyBlock(d: Deployment, h: History, number: nat)
    requires Reachable(d, h) && h.number < number
    ensures CountBlock(h.mints, number) == 0
  {
    hide Reachable, OnSchedule, RewardsCovered, WindowFits, OnInterval, CountBlock, Total;
    ReachableSound(d, h);
    assert Get(h.store.mintsInBlock, number) == CountBlock(h.mints, number);
  }

  lemma LaterBlockOf(plan: Plan, n: nat)
    requires n < LAST_MINT
    ensures BlockOf(plan, n + 1) == BlockOf(plan, n) + plan.pace
  {
    assert plan.pace * (n + 1) == plan.pace * n + plan.pace;
  }

  /** A retarget comes when n + 1 is a multiple of 2016, after 2016 * pace blocks. */
  lemma WindowOf(plan: Plan, n: nat)
    requires n < LAST_MINT
    ensures var k := n / ADJUSTMENT_INTERVAL;
      if (n + 1) % ADJUSTMENT_INTERVAL == 0 then
        && (n + 1) / ADJUSTMENT_INTERVAL == k + 1 && n + 1 == ADJUSTMENT_INTERVAL * k + ADJUSTMENT_INTERVAL
        && BlockOf(plan, n + 1) - plan.pace * (ADJUSTMENT_INTERVAL * k) == ADJUSTMENT_INTERVAL * plan.pace
      else (n + 1) / ADJUSTMENT_INTERVAL == k && n + 1 < ADJUSTMENT_INTERVAL * k + ADJUSTMENT_INTERVAL
  {
    var m := ADJUSTMENT_INTERVAL * (n / ADJUSTMENT_INTERVAL);
    if (n + 1) % ADJUSTMENT_INTERVAL == 0 {
      assert plan.pace * (n + 1) == plan.pace * m + plan.pace * ADJUSTMENT_INTERVAL;
    }
  }

  lemma NotHalted(d: Deployment, plan: Plan, n: nat, h: History)
    requires n < LAST_MINT && OnPace(d, plan, n, h)
    requires DifficultyAt(plan.pace, (n + 1) / ADJUSTMENT_INTERVAL).Retargeted?
    ensures !HaltedAt(h.store, BlockOf(plan, n + 1))
  {
    WindowOf(plan, n);
    if (n + 1) % ADJUSTMENT_INTERVAL == 0 {
      RetargetDefined(h.store.currentDifficulty, ADJUSTMENT_INTERVAL * plan.pace);
      hide NextDifficulty, TARGET_WINDOW, TWO256, INITIAL_DIFFICULTY, KeyAt, Key, BlockOf;
    }
  }

  lemma PacedCommits(d: Deployment, plan: Plan, n: nat, h: History)
    requires n < LAST_MINT && Reachable(d, h) && OnPace(d, plan, n, h) && KeysRecorded(d, h)
    requires Supplied(d, plan, n + 1) && DifficultyAt(plan.pace, (n + 1) / ADJUSTMENT_INTERVAL).Retargeted?
    ensures var tx := MintTx(plan, n + 1);
      && Admissible(d, h, tx) && Execute(d, h.store, tx.env, tx.call).Committed?
      && |Step(d, h, tx).mints| == n + 1 && Step(d, h, tx).mints[..n] == h.mints
      && Key(d, Step(d, h, tx).mints[n]) == KeyAt(d, plan, n + 1)
  {
    hide Reachable, KeysRecorded, Execute, Step, ProofKey, Work, Challenge, Epoch, HaltedAt, CountBlock,
      RewardOfMint, DifficultyAt, INITIAL_DIFFICULTY, BlockOf;
    LaterBlockOf(plan, n);
    FreshKey(d, plan, n, h);
    EmptyBlock(d, h, BlockOf(plan, n + 1));
    NotHalted(d, plan, n, h);
    assert WorkAt(d, plan, n + 1) < INITIAL_DIFFICULTY;
    MineInEveryRun(d, h, MintEnv(plan, n + 1), plan.nonces(n + 1));
  }

  /** A window of at least the target length never lowers the difficulty. */
  lemma NeverLower(p: pace, current: nat)
    requires current > 0 && NextDifficulty(current, ADJUSTMENT_INTERVAL * p).Retargeted?
    ensures NextDifficulty(current, ADJUSTMENT_INTERVAL * p).next >= current
  {
    ProductMonotone(ADJUSTMENT_INTERVAL, 5, p);
    RetargetDirection(current, ADJUSTMENT_INTERVAL * p);
    hide NextDifficulty;
  }

  lemma PositiveStart()
    ensures INITIAL_DIFFICULTY > 0
  {
  }

  /** What the retarget of a paced mint leaves. */
  lemma PacedRetarget(d: Deployment, plan: Plan, n: nat, h: History, s': Storage)
    requires n < LAST_MINT && OnPace(d, plan, n, h) && RetargetFacts(h.store, MintEnv(plan, n + 1), s')
    requires DifficultyAt(plan.pace, (n + 1) / ADJUSTMENT_INTERVAL).Retargeted?
    ensures s'.lastAdjustmentMint == ADJUSTMENT_INTERVAL * ((n + 1) / ADJUSTMENT_INTERVAL)
    ensures s'.lastAdjustmentBlock == plan.pace * s'.lastAdjustmentMint
    ensures DifficultyAt(plan.pace, (n + 1) / ADJUSTMENT_INTERVAL) == Retargeted(s'.currentDifficulty)
    ensures s'.currentDifficulty >= INITIAL_DIFFICULTY
  {
    hide NextDifficulty, INITIAL_DIFFICULTY, KeyAt, Key;
    WindowOf(plan, n);
    if (n + 1) % ADJUSTMENT_INTERVAL == 0 {
      PositiveStart();
      NeverLower(plan.pace, h.store.currentDifficulty);
    }
  }

  lemma PacedStep(d: Deployment, plan: Plan, n: nat, h: History)
    requires n < LAST_MINT && Reachable(d, h) && OnPace(d, plan, n, h) && KeysRecorded(d, h)
    requires Supplied(d, plan, n + 1) && DifficultyAt(plan.pace, (n + 1) / ADJUSTMENT_INTERVAL).Retargeted?
    ensures Admissible(d, h, MintTx(plan, n + 1)) && OnPace(d, plan, n + 1, Step(d, h, MintTx(plan, n + 1)))
  {
    hide Reachable, KeysRecorded, Execute, Step, RetargetFacts, DifficultyAt, INITIAL_DIFFICULTY, Mine,
      PaymentFacts, ProofKey, Key, KeyAt, Epoch, Supplied, BlockOf, Admissible, ADJUSTMENT_INTERVAL;
    PacedCommits(d, plan, n, h);
    MiningStep(d, h, MintTx(plan, n + 1));
    var h' := Step(d, h, MintTx(plan, n + 1));
    PacedRetarget(d, plan, n, h, h'.store);
    forall i | 0 <= i < n + 1 ensures Key(d, h'.mints[i]) == KeyAt(d, plan, i + 1) {
      if i < n { assert h'.mints[i] == h'.mints[..n][i]; }
    }
  }

  lemma FewerSupplied(d: Deployment, plan: Plan, n: nat)
    requires 0 < n <= LAST_MINT && Supplied(d, plan, n)
    ensures Supplied(d, plan, n - 1)
  {
    hide KeyAt, WorkAt, INITIAL_DIFFICULTY;
  }

  lemma EarlierDefined(p: pace, n: nat)
    requires n > 0 && DifficultyAt(p, n / ADJUSTMENT_INTERVAL).Retargeted?
    ensures DifficultyAt(p, (n - 1) / ADJUSTMENT_INTERVAL).Retargeted?
  {
    hide NextDifficulty, INITIAL_DIFFICULTY;
    var k := n / ADJUSTMENT_INTERVAL;
    assert (n - 1) / ADJUSTMENT_INTERVAL == k || (n - 1) / ADJUSTMENT_INTERVAL == k - 1;
  }

  lemma RunUnfolds(d: Deployment, plan: Plan, n: nat)
    requires 0 < n <= LAST_MINT
    ensures PacedRun(d, plan, n) == PacedRun(d, plan, n - 1) + [MintTx(plan, n)]
  {
  }

  lemma ReachedByRun(d: Deployment, txs: seq<Tx>)
    requires Admitted(d, txs)
    ensures Reachable(d, After(d, txs))
  {
  }

  /** With the nonces there and every retarget defined, each of n paced mints succeeds. */
  lemma {:induction false} PacedAfter(d: Deployment, plan: Plan, n: nat)
    requires n <= LAST_MINT && Supplied(d, plan, n) && DifficultyAt(plan.pace, n / ADJUSTMENT_INTERVAL).Retargeted?
    ensures Admitted(d, PacedRun(d, plan, n)) && OnPace(d, plan, n, After(d, PacedRun(d, plan, n)))
  {
    hide *;
    if n == 0 {
      PacedStart(d, plan);
    } else {
      FewerSupplied(d, plan, n);
      EarlierDefined(plan.pace, n);
      PacedAfter(d, plan, n - 1);
      var txs := PacedRun(d, plan, n - 1);
      RecordOfEveryRun(d, txs);
      ReachedByRun(d, txs);
      PacedStep(d, plan, n - 1, After(d, txs));
      RunExtended(d, txs, MintTx(plan, n));
      RunUnfolds(d, plan, n);
    }
  }

  // ---------- a run that completes the emission

  lemma TargetKeeps()
    ensures NextDifficulty(INITIAL_DIFFICULTY, TARGET_WINDOW) == Retargeted(INITIAL_DIFFICULTY)
  {
    PositiveStart();
    ScaleAtTarget(INITIAL_DIFFICULTY);
    RetargetDefined(INITIAL_DIFFICULTY, TARGET_WINDOW);
    RetargetDirection(INITIAL_DIFFICULTY, TARGET_WINDOW);
    hide NextDifficulty, TARGET_WINDOW;
  }

  /** At five blocks to a mint the difficulty stays where it is. */
  lemma {:induction false} TargetPace(k: nat)
    ensures DifficultyAt(5, k) == Retargeted(INITIAL_DIFFICULTY)
  {
    hide NextDifficulty, INITIAL_DIFFICULTY;
    if k > 0 {
      TargetPace(k - 1);
      TargetKeeps();
    }
  }

  /** With 424015 nonces at hand the emission can be completed: a run of one mint every five blocks mines all of it and
      passes the four halvings. */
  lemma EmissionCanComplete(d: Deployment, plan: Plan)
    requires plan.pace == 5 && Supplied(d, plan, LAST_MINT)
    ensures var txs := PacedRun(d, plan, LAST_MINT);
      && Admitted(d, txs) && |After(d, txs).mints| == LAST_MINT
      && After(d, txs).store.totalMiningMinted == MINING_SUPPLY
      && Halvings(After(d, txs).events) == [Halving(1, 50 * UNIT18), Halving(2, 25 * UNIT18),
                                            Halving(3, 12_500_000_000_000_000_000),
                                            Halving(4, 6_250_000_000_000_000_000)]
  {
    hide Supplied, DifficultyAt, PacedRun, Admitted, After, Halvings, KeyAt, Key, BlockOf, INITIAL_DIFFICULTY,
      MINING_SUPPLY, UNIT18, LAST_MINT;
    TargetPace(LAST_MINT / ADJUSTMENT_INTERVAL);
    PacedAfter(d, plan, LAST_MINT);
    CompletedRun(d, PacedRun(d, plan, LAST_MINT));
  }

  // ---------- a chain where the nonces are there

  /** A hash under which every nonce is enough work and proofs are told apart by their nonce. */
  function EasyHash(p: seq<byte>): bytes32 {
    if |p| == 96 then p[32..64] else ToBigEndian(0, 32)
  }

  function EasyChain(): Deployment {
    Deployment(1, 1, 2, 3, 0, EasyHash)
  }

  function NonceOfMint(n: nat): uint256 {
    n % TWO256
  }

  function EasyPlan(p: pace): Plan {
    Plan(4, p, NonceOfMint)
  }

  lemma EasyWork(challenge: bytes32, nonce: uint256)
    ensures Work(EasyChain(), challenge, nonce) == 0
  {
    Pow256Values();
    BigEndianRoundTrip(0, 32);
    hide ToBigEndian, BigEndian, Pow256;
  }

  lemma EasyKey(miner: address, nonce: uint256, epoch: nat)
    ensures ProofKey(EasyChain(), miner, nonce, epoch) == ToBigEndian(nonce, 32)
  {
    hide ToBigEndian;
    assert ProofPreimage(miner, nonce, epoch)[32..64] == ToBigEndian(nonce, 32);
  }

  lemma EasyNonces(p: pace, i: nat, j: nat)
    requires i < j <= LAST_MINT
    ensures WorkAt(EasyChain(), EasyPlan(p), i) < INITIAL_DIFFICULTY
    ensures WorkAt(EasyChain(), EasyPlan(p), j) < INITIAL_DIFFICULTY
    ensures KeyAt(EasyChain(), EasyPlan(p), i) != KeyAt(EasyChain(), EasyPlan(p), j)
  {
    hide Work, Challenge, ProofKey, EasyChain, ToBigEndian, BlockOf, Epoch;
    var d, plan := EasyChain(), EasyPlan(p);
    EasyWork(Challenge(d, plan.miner, Epoch(BlockOf(plan, i))), NonceOfMint(i));
    EasyWork(Challenge(d, plan.miner, Epoch(BlockOf(plan, j))), NonceOfMint(j));
    EasyKey(plan.miner, NonceOfMint(i), Epoch(BlockOf(plan, i)));
    EasyKey(plan.miner, NonceOfMint(j), Epoch(BlockOf(plan, j)));
    if KeyAt(d, plan, i) == KeyAt(d, plan, j) { BigEndianInjective(NonceOfMint(i), NonceOfMint(j)); }
  }

  /** Such a supply is possible. */
  lemma EasyChainSupplies(p: pace, n: nat)
    requires n <= LAST_MINT
    ensures Supplied(EasyChain(), EasyPlan(p), n)
  {
    hide WorkAt, KeyAt, INITIAL_DIFFICULTY;
    var d, plan := EasyChain(), EasyPlan(p);
    forall i | 1 <= i <= n ensures WorkAt(d, plan, i) < INITIAL_DIFFICULTY {
      EasyNonces(p, i - 1, i);
    }
    forall i, j | 1 <= i < j <= n ensures KeyAt(d, plan, i) != KeyAt(d, plan, j) {
      EasyNonces(p, i, j);
    }
  }
}
