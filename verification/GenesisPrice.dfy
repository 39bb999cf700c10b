/** The price of the seeded pool: whatever was sold, and by either route, it is one and the same constant. */
module GenesisPrice {
  import opened Words
  import opened SquareRoot
  import opened HashContract
  import opened ContractRuns

  /** The root of 100000 * 2^192, rounded down. */
  const SEED_PRICE: nat := 25_054_144_837_504_793_118_641_380_156_960

  /** Each sale brings in one wei for 100000 units of the token. */
  ghost predicate SoldAtPrice(s: Storage) {
    s.genesisMinted == 100_000 * s.genesisEthRaised && s.genesisMinted <= GENESIS_CAP
  }

  /** The pool is seeded at most once, with what was sold, at the constant price. */
  ghost predicate SeededAtPrice(h: History) {
    && (forall e | e in h.events && e.PoolSeeded? ::
          h.store.genesisComplete && e == PoolSeeded(h.store.genesisEthRaised, h.store.genesisMinted, SEED_PRICE))
    && (forall i, j | 0 <= i < j < |h.events| && h.events[i].PoolSeeded? :: !h.events[j].PoolSeeded?)
  }

  lemma SoldAtPriceKept(d: Deployment, h: History, tx: Tx)
    requires SoldAtPrice(h.store)
    ensures SoldAtPrice(Step(d, h, tx).store)
  {
    match ChangeOf(d, h, tx)
    case Nothing => NothingChanges(d, h, tx);
    case Bought => BoughtStep(d, h, tx); hide Execute, ChangeOf, Step, Moved;
    case Seeded => SeededStep(d, h, tx); hide Execute, ChangeOf, Step, Moved;
    case Mining => MiningStep(d, h, tx); hide Execute, ChangeOf, Step, Moved, RetargetFacts, PaymentFacts;
    case Sent => SentStep(d, h, tx); hide Execute, ChangeOf, Step, Moved;
  }

  /** The shifts of the price computation drop nothing for amounts in the sale's proportion. */
  lemma ShiftsAreExact(eth: nat)
    requires 0 < eth && 100_000 * eth <= GENESIS_CAP
    ensures 100_000 * eth * TWO96 < TWO256
    ensures 100_000 * eth * TWO96 / eth == 100_000 * TWO96
    ensures 100_000 * TWO96 * TWO96 < TWO256 - 1
  {
    QuotientOfProduct(100_000 * TWO96, eth);
    assert 100_000 * eth * TWO96 == (100_000 * TWO96) * eth;
  }

  lemma QuotientOfProduct(a: nat, b: nat)
    requires b > 0
    ensures a * b / b == a
  {
    var p := a * b;
    QuotientBound(p, b, p / b);
    ProductOrder(a, p / b, b);
  }

  /** A quotient is determined by the interval it puts its dividend in. */
  lemma ProductOrder(a: nat, q: nat, b: nat)
    requires b > 0 && q * b <= a * b < (q + 1) * b
    ensures a == q
  {
    if q < a {
      assert a * b == (q + 1) * b + (a - q - 1) * b;
      NonNegative(a - q - 1, b);
    } else if a < q {
      assert q * b == (a + 1) * b + (q - a - 1) * b;
      NonNegative(q - a - 1, b);
    }
  }

  lemma NonNegative(a: nat, b: nat)
    ensures a * b >= 0
  {
  }

  lemma SeedPriceIsRoot()
    ensures IsFloorRoot(100_000 * TWO96 * TWO96, SEED_PRICE) && SEED_PRICE < TWO160
  {
  }

  /** The price of every amount raised in the sale's proportion. */
  lemma PriceIsConstant(eth: nat)
    requires 0 < eth && 100_000 * eth <= GENESIS_CAP
    ensures SqrtPriceX96(eth, 100_000 * eth) == Price(SEED_PRICE)
  {
    hide FloorRoot, IsFloorRoot, GENESIS_CAP, TWO96, TWO256, TWO160, SEED_PRICE;
    ShiftsAreExact(eth);
    SeedPriceIsRoot();
    PriceOfQuotient(100_000 * eth * TWO96, eth, 100_000 * TWO96, SEED_PRICE);
  }

  lemma PriceOfQuotient(shifted: nat, amount0: nat, price: nat, root: nat)
    requires amount0 > 0 && shifted < TWO256 && shifted / amount0 == price
    requires price * TWO96 < TWO256 - 1 && root < TWO160 && IsFloorRoot(price * TWO96, root)
    ensures forall amount1: nat | amount1 * TWO96 == shifted :: SqrtPriceX96(amount0, amount1) == Price(root)
  {
    hide FloorRoot, IsFloorRoot, TWO96, TWO160;
    FloorRootUnique(price * TWO96, root, FloorRoot(price * TWO96));
    SmallRemainder(shifted, TWO256);
    SmallRemainder(price * TWO96, TWO256);
    hide TWO256;
  }

  lemma SmallRemainder(a: nat, m: nat)
    requires a < m
    ensures a % m == a
  {
  }

  /** A shift by 96 keeps the low 160 bits. */
  lemma ShiftKeepsLow(x: nat)
    ensures x * TWO96 % TWO256 == (x % TWO160) * TWO96
  {
    assert x == TWO160 * (x / TWO160) + x % TWO160;
    assert TWO160 * TWO96 == TWO256;
    assert x * TWO96 == TWO256 * (x / TWO160) + (x % TWO160) * TWO96;
  }

  lemma SmallRoot(x: nat, r: nat)
    requires x < TWO256 && IsFloorRoot(x, r)
    ensures r < TWO128
  {
    if r >= TWO128 { SquareMonotone(TWO128, r); }
  }

  /** The whole of the price computation: only an amount of zero has no price.  With p the quotient of the low 160 bits
      of amount1, shifted by 96, and r the root of the low 160 bits of p, shifted by 96, it is r, which is always less
      than 2^128: neither the root nor the final check ever fails. */
  lemma PriceExactly(amount0: nat, amount1: nat, p: nat, r: nat)
    requires amount0 > 0 && p * amount0 <= (amount1 % TWO160) * TWO96 < (p + 1) * amount0
    requires r * r <= (p % TWO160) * TWO96 < (r + 1) * (r + 1)
    ensures SqrtPriceX96(amount0, amount1) == Price(r) && r < TWO128
    ensures SqrtPriceX96(0, amount1) == NoPrice
  {
    hide FloorRoot;
    ShiftKeepsLow(amount1);
    ShiftKeepsLow(p);
    var shifted := amount1 * TWO96 % TWO256;
    QuotientBound(shifted, amount0, shifted / amount0);
    OneFloor(shifted, amount0, shifted / amount0, p);
    FloorRootUnique(p * TWO96 % TWO256, r, FloorRoot(p * TWO96 % TWO256));
    SmallRoot(p * TWO96 % TWO256, r);
    hide TWO96;
  }

  lemma OneFloor(x: nat, b: nat, q: nat, p: nat)
    requires b > 0 && q * b <= x < (q + 1) * b && p * b <= x < (p + 1) * b
    ensures q == p
  {
    if q < p {
      assert p * b == (q + 1) * b + (p - q - 1) * b;
      NonNegative(p - q - 1, b);
    } else if p < q {
      assert q * b == (p + 1) * b + (q - p - 1) * b;
      NonNegative(q - p - 1, b);
    }
  }

  /** Other events leave the one seeding as it is. */
  lemma OtherEventsKept(h: History, h': History, more: seq<Event>)
    requires SeededAtPrice(h) && h'.events == h.events + more
    requires forall e | e in more :: !e.PoolSeeded?
    requires h.store.genesisComplete ==> h'.store.genesisComplete
    requires h.store.genesisComplete ==> h'.store.genesisMinted == h.store.genesisMinted
                                         && h'.store.genesisEthRaised == h.store.genesisEthRaised
    ensures SeededAtPrice(h')
  {
  }

  lemma MineSeedsNothing(d: Deployment, s: Storage, env: Env, nonce: uint256)
    requires Mine(d, s, env, nonce).Committed?
    ensures forall e | e in Mine(d, s, env, nonce).events :: !e.PoolSeeded?
  {
    MineEvents(d, s, env, nonce);
    hide Mine;
  }

  lemma SeededAtPriceKept(d: Deployment, h: History, tx: Tx)
    requires SoldAtPrice(h.store) && SeededAtPrice(h)
    ensures SeededAtPrice(Step(d, h, tx))
  {
    match ChangeOf(d, h, tx)
    case Nothing => NothingChanges(d, h, tx); hide Execute, ChangeOf, Step;
    case Bought =>
      BoughtStep(d, h, tx);
      hide Execute, ChangeOf, Step, Moved, SeededAtPrice;
      OtherEventsKept(h, Step(d, h, tx), Step(d, h, tx).events[|h.events|..]);
    case Seeded =>
      SeededStep(d, h, tx);
      PriceIsConstant(h.store.genesisEthRaised);
      hide Execute, ChangeOf, Step, Moved, SqrtPriceX96;
    case Mining =>
      MiningStep(d, h, tx);
      MineSeedsNothing(d, h.store, tx.env, tx.call.nonce);
      hide Execute, ChangeOf, Step, Moved, RetargetFacts, PaymentFacts, Mine, SeededAtPrice;
      OtherEventsKept(h, Step(d, h, tx), Mine(d, h.store, tx.env, tx.call.nonce).events);
    case Sent => SentStep(d, h, tx); hide Execute, ChangeOf, Step, Moved;
  }

  /** Over every history: the sale's proportion, and the one price. */
  lemma {:induction false} SeedPriceOfEveryRun(d: Deployment, txs: seq<Tx>)
    ensures SoldAtPrice(After(d, txs).store) && SeededAtPrice(After(d, txs))
  {
    hide Step;
    if txs != [] {
      var last := |txs| - 1;
      SeedPriceOfEveryRun(d, txs[..last]);
      SoldAtPriceKept(d, After(d, txs[..last]), txs[last]);
      SeededAtPriceKept(d, After(d, txs[..last]), txs[last]);
    }
  }

  /** The deposit goes through: the pool answers and asks for no more than it was offered. */
  predicate Deposits(s: Storage, pool: PoolResult) {
    pool.PoolTakes? && pool.amount <= s.genesisMinted
  }

  lemma SeedBodyOutcome(d: Deployment, s: Storage, env: Env, pool: PoolResult)
    requires SoldAtPrice(s) && s.genesisMinted > 0
    ensures SeedBody(d, s, env, pool).Committed? <==> Deposits(s, pool)
    ensures SeedBody(d, s, env, pool).Reverted? ==> SeedBody(d, s, env, pool).error == PoolFailed
  {
    hide SqrtPriceX96, Moved, MINING_SUPPLY, INITIAL_DIFFICULTY, SEED_PRICE, GENESIS_CAP;
    PriceIsConstant(s.genesisEthRaised);
  }

  /** In every run, seedPool succeeds exactly once all is sold and partialSeed exactly for the controller after the
      delay with something sold, if the deposit goes through; the price is never the reason of a failure. */
  lemma {:induction false} SeedingInEveryRun(d: Deployment, txs: seq<Tx>, env: Env, pool: PoolResult)
    ensures var s := After(d, txs).store;
      && (SeedPool(d, s, env, pool).Committed?
          <==> !s.genesisComplete && s.genesisMinted == GENESIS_CAP && Deposits(s, pool))
      && (PartialSeed(d, s, env, pool).Committed?
          <==> env.sender == d.controller && !s.genesisComplete && env.timestamp >= d.deployedAt + PARTIAL_SEED_DELAY
               && s.genesisMinted > 0 && Deposits(s, pool))
      && SeedPool(d, s, env, pool) != Reverted(Panic) && PartialSeed(d, s, env, pool) != Reverted(Panic)
  {
    hide After, SeedBody, SeededAtPrice;
    SeedPriceOfEveryRun(d, txs);
    var s := After(d, txs).store;
    if s.genesisMinted > 0 { SeedBodyOutcome(d, s, env, pool); }
  }
}
