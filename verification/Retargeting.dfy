/** The difficulty retarget: when it happens, how long its window lasted, and how far it moves. */
module Retargeting {
  import opened Words
  import SquareRoot
  import opened Totals
  import opened HashContract
  import opened ContractRuns

  // ---------- the block cap and the length of a window

  /** No block holds more than ten mints, and blocks that have not come yet hold none. */
  ghost predicate BlocksCapped(m: map<nat, nat>, number: nat) {
    && (forall b: nat :: Get(m, b) <= MAX_MINTS_PER_BLOCK)
    && (forall b: nat | b > number :: Get(m, b) == 0)
  }

  /** The mints of the current window fit into its blocks, ten to a block, the last one as far as it is filled. */
  ghost predicate WindowFits(h: History) {
    var s := h.store;
    if s.genesisComplete then
      && s.lastAdjustmentBlock <= h.number && s.lastAdjustmentMint <= s.totalMints
      && s.totalMints - s.lastAdjustmentMint
         <= MAX_MINTS_PER_BLOCK * (h.number - s.lastAdjustmentBlock) + Get(s.mintsInBlock, h.number)
    else s.totalMints == 0 && s.lastAdjustmentMint == 0
  }

  ghost predicate Windowed(h: History) {
    BlocksCapped(h.store.mintsInBlock, h.number) && WindowFits(h)
  }

  /** Time passing keeps the bound: what the old block held is at most one more block's worth. */
  lemma LaterBlock(h: History, number: nat)
    requires Windowed(h) && h.number <= number
    ensures Windowed(h.(number := number))
  {
    assert Get(h.store.mintsInBlock, h.number) <= MAX_MINTS_PER_BLOCK;
  }

  lemma CountedBlocks(m: map<nat, nat>, number: nat)
    requires BlocksCapped(m, number) && Get(m, number) < MAX_MINTS_PER_BLOCK
    ensures BlocksCapped(m[number := Get(m, number) + 1], number)
  {
    var m' := m[number := Get(m, number) + 1];
    forall b: nat ensures Get(m', b) == if b == number then Get(m, b) + 1 else Get(m, b) {}
    hide Get;
  }

  lemma MiningWindowed(d: Deployment, h: History, tx: Tx)
    requires Admissible(d, h, tx) && Windowed(h) && ChangeOf(d, h, tx).Mining?
    ensures Windowed(Step(d, h, tx))
  {
    LaterBlock(h, tx.env.number);
    MiningStep(d, h, tx);
    CountedBlocks(h.store.mintsInBlock, tx.env.number);
    hide Execute, ChangeOf, Step, PaymentFacts, Mine, BlocksCapped, NextDifficulty;
  }

  lemma WindowedKept(d: Deployment, h: History, tx: Tx)
    requires Admissible(d, h, tx) && Windowed(h)
    ensures Windowed(Step(d, h, tx))
  {
    LaterBlock(h, tx.env.number);
    hide BlocksCapped, Execute, ChangeOf, Step, Moved;
    match ChangeOf(d, h, tx)
    case Nothing => NothingChanges(d, h, tx);
    case Bought => BoughtStep(d, h, tx);
    case Seeded => SeededStep(d, h, tx);
    case Mining => MiningWindowed(d, h, tx);
    case Sent => SentStep(d, h, tx);
  }

  /** A retarget comes at least 201 blocks after the last one, or after the seeding. */
  lemma WindowLength(d: Deployment, h: History, tx: Tx)
    requires Admissible(d, h, tx) && Windowed(h) && ChangeOf(d, h, tx).Mining?
    requires h.store.totalMints + 1 - h.store.lastAdjustmentMint >= ADJUSTMENT_INTERVAL
    ensures tx.env.number - h.store.lastAdjustmentBlock >= 201
  {
    LaterBlock(h, tx.env.number);
    MiningStep(d, h, tx);
    hide Execute, ChangeOf, Step, PaymentFacts, Mine, NextDifficulty;
  }

  // ---------- when a retarget happens

  /** Retargets are at the multiples of 2016 mints. */
  ghost predicate OnInterval(s: Storage) {
    && s.lastAdjustmentMint <= s.totalMints < s.lastAdjustmentMint + ADJUSTMENT_INTERVAL
    && s.lastAdjustmentMint % ADJUSTMENT_INTERVAL == 0
    && (!s.genesisComplete ==> s.totalMints == 0)
  }

  lemma NextMultiple(n: nat)
    requires n % ADJUSTMENT_INTERVAL == 0
    ensures (n + ADJUSTMENT_INTERVAL) % ADJUSTMENT_INTERVAL == 0
  {
  }

  lemma OnIntervalKept(d: Deployment, h: History, tx: Tx)
    requires OnInterval(h.store)
    ensures OnInterval(Step(d, h, tx).store)
  {
    hide Execute, ChangeOf, Step, Moved;
    match ChangeOf(d, h, tx)
    case Nothing => NothingChanges(d, h, tx);
    case Bought => BoughtStep(d, h, tx);
    case Seeded => SeededStep(d, h, tx);
    case Mining =>
      MiningStep(d, h, tx);
      hide PaymentFacts, Mine, NextDifficulty;
      NextMultiple(h.store.lastAdjustmentMint);
    case Sent => SentStep(d, h, tx);
  }

  lemma MultipleBelow(n: nat, m: nat)
    requires m <= n < m + ADJUSTMENT_INTERVAL && m % ADJUSTMENT_INTERVAL == 0
    ensures m == ADJUSTMENT_INTERVAL * (n / ADJUSTMENT_INTERVAL)
  {
  }

  // ---------- how far a retarget moves

  /** The exact condition for a retarget not to revert. */
  lemma RetargetDefined(current: nat, taken: nat)
    ensures NextDifficulty(current, taken).Retargeted?
            <==> current < TWO256 / 4 && current * taken / TARGET_WINDOW < TWO256
  {
    Quarter(current);
    if taken == 0 { assert current * taken == 0; }
  }

  lemma Quarter(current: nat)
    ensures current * 4 >= TWO256 <==> current >= TWO256 / 4
    ensures current < TWO256 / 4 ==> current / 4 < TWO256
  {
  }

  /** What a retarget makes of the difficulty `from` after a window of `taken` blocks: a quarter of it, rounded down,
      for a quarter of the 10080 blocks or less; four times it for four times as many or more; and in between what
      stands to `from` as `taken` to 10080, rounded down.  Never less than 1. */
  predicate RetargetRule(from: nat, taken: nat, to: nat) {
    if taken <= 2_520 then (from < 4 && to == 1) || (to > 0 && 4 * to <= from < 4 * to + 4)
    else if taken >= 40_320 then to == 4 * from
    else (from * taken < 10_080 && to == 1) || (to > 0 && 10_080 * to <= from * taken < 10_080 * to + 10_080)
  }

  lemma QuotientByTarget(x: nat)
    ensures var q := x / TARGET_WINDOW; 10_080 * q <= x < 10_080 * q + 10_080
  {
  }

  /** Where the quotient lies among the two clamps. */
  lemma QuotientBetween(from: nat, taken: nat, q: nat)
    requires 10_080 * q <= from * taken < 10_080 * q + 10_080
    ensures taken <= 2_520 ==> q <= from / 4
    ensures taken >= 40_320 ==> q >= 4 * from
    ensures 2_520 <= taken <= 40_320 ==> from / 4 <= q <= 4 * from
  {
    if taken <= 2_520 { ProductMonotone(from, taken, 2_520); }
    if taken >= 2_520 { ProductMonotone(from, 2_520, taken); }
    if taken <= 40_320 { ProductMonotone(from, taken, 40_320); }
    if taken >= 40_320 { ProductMonotone(from, 40_320, taken); }
  }

  lemma OneQuotient(x: nat, q: nat, to: nat)
    requires 10_080 * q <= x < 10_080 * q + 10_080 && 10_080 * to <= x < 10_080 * to + 10_080
    ensures q == to
  {
  }

  /** The retarget computes that, exactly when neither product leaves 256 bits. */
  lemma RetargetExactly(from: nat, taken: nat, to: nat)
    requires from > 0
    ensures NextDifficulty(from, taken) == Retargeted(to)
            <==> RetargetRule(from, taken, to) && 4 * from < TWO256 && from * taken < 10_080 * TWO256
  {
    var q := from * taken / TARGET_WINDOW;
    QuotientByTarget(from * taken);
    QuotientBetween(from, taken, q);
    QuotientReaches(from * taken, TWO256);
    if taken == 0 { assert from * taken == 0; }
    TargetIs();
    hide TARGET_WINDOW, TWO256;
    if 10_080 * to <= from * taken < 10_080 * to + 10_080 { OneQuotient(from * taken, q, to); }
  }

  lemma TargetIs()
    ensures TARGET_WINDOW == 10_080 && ADJUSTMENT_INTERVAL == 2_016
  {
  }

  /** Within a factor of four either way, and never zero. */
  lemma RetargetBounded(current: nat, taken: nat)
    requires current > 0 && NextDifficulty(current, taken).Retargeted?
    ensures var next := NextDifficulty(current, taken).next;
      0 < next && current / 4 <= next <= current * 4
  {
    hide TARGET_WINDOW, TWO256;
  }

  lemma ScaleMonotone(a: nat, t1: nat, t2: nat)
    requires t1 <= t2
    ensures a * t1 / TARGET_WINDOW <= a * t2 / TARGET_WINDOW
  {
    ProductMonotone(a, t1, t2);
    QuotientMonotone(a * t1, a * t2);
  }

  lemma ProductMonotone(a: nat, t1: nat, t2: nat)
    requires t1 <= t2
    ensures a * t1 <= a * t2
  {
  }

  lemma QuotientMonotone(x: nat, y: nat)
    requires x <= y
    ensures x / TARGET_WINDOW <= y / TARGET_WINDOW
  {
  }

  /** A longer window never gives a smaller difficulty. */
  lemma RetargetMonotone(current: nat, t1: nat, t2: nat)
    requires t1 <= t2
    requires NextDifficulty(current, t1).Retargeted? && NextDifficulty(current, t2).Retargeted?
    ensures NextDifficulty(current, t1).next <= NextDifficulty(current, t2).next
  {
    ScaleMonotone(current, t1, t2);
    hide TARGET_WINDOW, TWO256;
  }

  lemma ScaleAtTarget(current: nat)
    ensures current * TARGET_WINDOW / TARGET_WINDOW == current
  {
  }

  /** A window of exactly 10080 blocks keeps the difficulty; a shorter one never raises it and a longer one never
      lowers it, and a shorter one lowers it whenever it can. */
  lemma RetargetDirection(current: nat, taken: nat)
    requires current > 0 && NextDifficulty(current, taken).Retargeted?
    ensures var next := NextDifficulty(current, taken).next;
      && (taken == TARGET_WINDOW ==> next == current)
      && (taken < TARGET_WINDOW ==> next <= current)
      && (taken > TARGET_WINDOW ==> next >= current)
      && (taken < TARGET_WINDOW && current > 1 ==> next < current)
  {
    ScaleAtTarget(current);
    if taken <= TARGET_WINDOW {
      ScaleMonotone(current, taken, TARGET_WINDOW);
      if taken < TARGET_WINDOW { ScaledDown(current, taken); }
    } else {
      ScaleMonotone(current, TARGET_WINDOW, taken);
    }
    hide TARGET_WINDOW, TWO256;
  }

  lemma ScaledDown(current: nat, taken: nat)
    requires taken < TARGET_WINDOW && current > 0
    ensures current * taken / TARGET_WINDOW < current
  {
    ProductMonotone(current, taken, TARGET_WINDOW - 1);
    assert current * (TARGET_WINDOW - 1) == current * TARGET_WINDOW - current;
  }

  // ---------- over every run

  function Pow4(k: nat): (p: nat)
    ensures p > 0
  {
    if k == 0 then 1 else 4 * Pow4(k - 1)
  }

  /** Between the starting difficulty divided and multiplied by four at each of the k retargets so far; that k counts
      them is `RetargetsCounted`. */
  ghost predicate DifficultyBounded(s: Storage) {
    s.genesisComplete ==>
      var k := s.lastAdjustmentMint / ADJUSTMENT_INTERVAL;
      0 < s.currentDifficulty && INITIAL_DIFFICULTY / Pow4(k) <= s.currentDifficulty <= INITIAL_DIFFICULTY * Pow4(k)
  }

  lemma QuotientOfQuotient(a: nat, p: nat)
    requires p > 0
    ensures a / (4 * p) == a / p / 4
  {
    var q := a / p / 4;
    var r := a / p;
    assert a == r * p + a % p;
    assert r == 4 * q + r % 4;
    assert a == q * (4 * p) + (r % 4) * p + a % p by {
      assert r * p == (4 * q + r % 4) * p == q * (4 * p) + (r % 4) * p;
    }
    RemainderBelow(r % 4, p, a % p);
    QuotientIs(a, 4 * p, q, (r % 4) * p + a % p);
  }

  lemma RemainderBelow(c: nat, p: nat, r: nat)
    requires c < 4 && r < p
    ensures 0 <= c * p + r < 4 * p
  {
  }

  lemma QuotientIs(a: nat, m: nat, q: nat, r: nat)
    requires a == q * m + r && r < m
    ensures a / m == q
  {
    var q' := a / m;
    assert a == q' * m + a % m;
    assert (q - q') * m == a % m - r;
    if q > q' {
      OneMore(q - q', m);
    } else if q < q' {
      assert (q' - q) * m == r - a % m;
      OneMore(q' - q, m);
    }
  }

  lemma OneMore(a: nat, m: nat)
    requires a > 0
    ensures a * m >= m
  {
  }

  lemma BoundsMove(current: nat, taken: nat, k: nat)
    requires 0 < current && INITIAL_DIFFICULTY / Pow4(k) <= current <= INITIAL_DIFFICULTY * Pow4(k)
    requires NextDifficulty(current, taken).Retargeted?
    ensures var next := NextDifficulty(current, taken).next;
      0 < next && INITIAL_DIFFICULTY / Pow4(k + 1) <= next <= INITIAL_DIFFICULTY * Pow4(k + 1)
  {
    RetargetBounded(current, taken);
    QuotientOfQuotient(INITIAL_DIFFICULTY, Pow4(k));
    hide INITIAL_DIFFICULTY, NextDifficulty;
    assert Pow4(k + 1) == 4 * Pow4(k);
    assert INITIAL_DIFFICULTY * Pow4(k + 1) == 4 * (INITIAL_DIFFICULTY * Pow4(k));
  }

  lemma NextWindow(n: nat)
    ensures (n + ADJUSTMENT_INTERVAL) / ADJUSTMENT_INTERVAL == n / ADJUSTMENT_INTERVAL + 1
  {
  }

  lemma MiningBounded(d: Deployment, h: History, tx: Tx)
    requires OnInterval(h.store) && DifficultyBounded(h.store) && ChangeOf(d, h, tx).Mining?
    ensures DifficultyBounded(Step(d, h, tx).store)
  {
    MiningStep(d, h, tx);
    hide Execute, ChangeOf, Step, PaymentFacts, Mine, RetargetFacts, DifficultyBounded, OnInterval;
    RetargetStaysBounded(h.store, tx.env, Step(d, h, tx).store);
  }

  lemma RetargetStaysBounded(s: Storage, env: Env, s': Storage)
    requires s.genesisComplete && OnInterval(s) && DifficultyBounded(s) && RetargetFacts(s, env, s')
    ensures DifficultyBounded(s')
  {
    hide NextDifficulty, Pow4, INITIAL_DIFFICULTY;
    if s.totalMints + 1 - s.lastAdjustmentMint >= ADJUSTMENT_INTERVAL {
      BoundsMove(s.currentDifficulty, env.number - s.lastAdjustmentBlock, s.lastAdjustmentMint / ADJUSTMENT_INTERVAL);
      NextWindow(s.lastAdjustmentMint);
    }
  }

  lemma DifficultyBoundedKept(d: Deployment, h: History, tx: Tx)
    requires OnInterval(h.store) && DifficultyBounded(h.store)
    ensures DifficultyBounded(Step(d, h, tx).store)
  {
    hide Execute, ChangeOf, Step, Moved;
    match ChangeOf(d, h, tx)
    case Nothing => NothingChanges(d, h, tx);
    case Bought => BoughtStep(d, h, tx);
    case Seeded => SeededStep(d, h, tx);
    case Mining => MiningBounded(d, h, tx);
    case Sent => SentStep(d, h, tx);
  }

  /** Every retarget in the events: after at least 201 blocks, and so never through the branch for zero blocks, and by
      the rule. */
  ghost predicate RetargetsOnRecord(events: seq<Event>) {
    forall e | e in events && e.DifficultyAdjusted? ::
      e.from > 0 && e.blocksTaken >= 201 && RetargetRule(e.from, e.blocksTaken, e.to)
  }

  lemma RetargetsOnRecordKept(d: Deployment, h: History, tx: Tx)
    requires Admissible(d, h, tx) && Windowed(h) && DifficultyBounded(h.store) && RetargetsOnRecord(h.events)
    ensures RetargetsOnRecord(Step(d, h, tx).events)
  {
    hide Execute, ChangeOf, Step, Moved, Windowed, Admissible, NextDifficulty, Pow4, RetargetRule;
    match ChangeOf(d, h, tx)
    case Nothing => NothingChanges(d, h, tx);
    case Bought => BoughtStep(d, h, tx);
    case Seeded => SeededStep(d, h, tx);
    case Mining =>
      MiningStep(d, h, tx);
      MineEvents(d, h.store, tx.env, tx.call.nonce);
      hide Mine, PaymentFacts, CountFacts;
      if h.store.totalMints + 1 - h.store.lastAdjustmentMint >= ADJUSTMENT_INTERVAL {
        WindowLength(d, h, tx);
        RetargetExactly(h.store.currentDifficulty, tx.env.number - h.store.lastAdjustmentBlock,
                        Step(d, h, tx).store.currentDifficulty);
      }
    case Sent => SentStep(d, h, tx);
  }

  // ---------- the number of retargets

  function Retargets(events: seq<Event>): nat {
    if events == [] then 0
    else
      var last := |events| - 1;
      Retargets(events[..last]) + if events[last].DifficultyAdjusted? then 1 else 0
  }

  /** The events tell of as many retargets as there are whole intervals. */
  ghost predicate RetargetsCounted(h: History) {
    Retargets(h.events) == h.store.lastAdjustmentMint / ADJUSTMENT_INTERVAL
  }

  lemma {:induction false} RetargetsOfConcat(a: seq<Event>, b: seq<Event>)
    ensures Retargets(a + b) == Retargets(a) + Retargets(b)
  {
    if b == [] {
      assert a + b == a;
    } else {
      var last := |b| - 1;
      RetargetsOfConcat(a, b[..last]);
      assert (a + b)[..|a + b| - 1] == a + b[..last];
    }
  }

  lemma RetargetsOfOne(e: Event)
    ensures Retargets([e]) == if e.DifficultyAdjusted? then 1 else 0
  {
  }

  lemma RetargetsOfParts(a: seq<Event>, b: seq<Event>, c: Event)
    requires !c.DifficultyAdjusted?
    ensures Retargets(a + (b + [c])) == Retargets(a) + Retargets(b)
  {
    hide Retargets;
    RetargetsOfConcat(a, b + [c]);
    RetargetsOfConcat(b, [c]);
    RetargetsOfOne(c);
  }

  lemma RetargetsOfSteps(s: Storage, env: Env, next: nat, n: nat, reward: nat)
    requires s.lastAdjustmentBlock <= env.number
    ensures Retargets(RetargetEvents(s, env, next))
            == if s.totalMints + 1 - s.lastAdjustmentMint < ADJUSTMENT_INTERVAL then 0 else 1
    ensures Retargets(HalvingEvents(n, reward)) == 0
  {
  }

  lemma MiningCounted(d: Deployment, h: History, tx: Tx)
    requires OnInterval(h.store) && RetargetsCounted(h) && ChangeOf(d, h, tx).Mining?
    requires h.store.lastAdjustmentBlock <= tx.env.number
    ensures RetargetsCounted(Step(d, h, tx))
  {
    hide Execute, ChangeOf, Step, PaymentFacts, CountFacts, Mine, NextDifficulty, Retargets, RetargetEvents,
      HalvingEvents;
    MiningStep(d, h, tx);
    MineEvents(d, h.store, tx.env, tx.call.nonce);
    var s, s' := h.store, Mine(d, h.store, tx.env, tx.call.nonce).store;
    var n, reward := s.totalMints + 1, s'.totalMiningMinted - s.totalMiningMinted;
    RetargetsOfConcat(h.events, Mine(d, s, tx.env, tx.call.nonce).events);
    RetargetsOfParts(RetargetEvents(s, tx.env, s'.currentDifficulty), HalvingEvents(n, reward),
                     Mined(tx.env.sender, tx.call.nonce, reward, n / ERA_MINTS));
    RetargetsOfSteps(s, tx.env, s'.currentDifficulty, n, reward);
    NextWindow(s.lastAdjustmentMint);
  }

  lemma RetargetsCountedKept(d: Deployment, h: History, tx: Tx)
    requires Admissible(d, h, tx) && Windowed(h) && OnInterval(h.store) && RetargetsCounted(h)
    ensures RetargetsCounted(Step(d, h, tx))
  {
    hide Execute, ChangeOf, Step, Moved, Retargets, BlocksCapped;
    match ChangeOf(d, h, tx)
    case Nothing => NothingChanges(d, h, tx);
    case Bought =>
      BoughtStep(d, h, tx);
      var e := Step(d, h, tx).events[|h.events|];
      RetargetsOfConcat(h.events, [e]);
      RetargetsOfOne(e);
    case Seeded =>
      SeededStep(d, h, tx);
      var e := Step(d, h, tx).events[|h.events|];
      RetargetsOfConcat(h.events, [e]);
      RetargetsOfOne(e);
    case Mining =>
      MiningStep(d, h, tx);
      hide Mine, PaymentFacts, RetargetFacts;
      MiningCounted(d, h, tx);
    case Sent => SentStep(d, h, tx);
  }

  /** Every run with block numbers that never go back. */
  lemma {:induction false} RetargetsOfEveryRun(d: Deployment, txs: seq<Tx>)
    requires Admitted(d, txs)
    ensures var h := After(d, txs);
      && Windowed(h) && OnInterval(h.store) && DifficultyBounded(h.store)
      && RetargetsOnRecord(h.events) && RetargetsCounted(h)
      && h.store.lastAdjustmentMint == ADJUSTMENT_INTERVAL * (h.store.totalMints / ADJUSTMENT_INTERVAL)
  {
    hide Step, Pow4, NextDifficulty;
    if txs != [] {
      var last := |txs| - 1;
      RetargetsOfEveryRun(d, txs[..last]);
      var h, tx := After(d, txs[..last]), txs[last];
      WindowedKept(d, h, tx);
      OnIntervalKept(d, h, tx);
      DifficultyBoundedKept(d, h, tx);
      RetargetsOnRecordKept(d, h, tx);
      RetargetsCountedKept(d, h, tx);
      hide Windowed, DifficultyBounded, RetargetsOnRecord, RetargetsCounted;
      MultipleBelow(Step(d, h, tx).store.totalMints, Step(d, h, tx).store.lastAdjustmentMint);
    }
  }

  // ---------- when mining stops for good

  /** At block `number` the next mint needs a retarget, and one of the retarget's two products leaves 256 bits. */
  ghost predicate HaltedAt(s: Storage, number: nat) {
    && s.genesisComplete && s.totalMints + 1 - s.lastAdjustmentMint >= ADJUSTMENT_INTERVAL
    && s.lastAdjustmentBlock <= number
    && (s.currentDifficulty >= TWO256 / 4
        || s.currentDifficulty * (number - s.lastAdjustmentBlock) / TARGET_WINDOW >= TWO256)
  }

  ghost predicate Halted(h: History) {
    HaltedAt(h.store, h.number)
  }

  /** Waiting does not help: the window only gets longer. */
  lemma HaltLasts(s: Storage, number: nat, later: nat)
    requires HaltedAt(s, number) && number <= later
    ensures HaltedAt(s, later)
  {
    ScaleMonotone(s.currentDifficulty, number - s.lastAdjustmentBlock, later - s.lastAdjustmentBlock);
    hide TARGET_WINDOW, TWO256;
  }

  lemma HaltedKept(d: Deployment, h: History, tx: Tx)
    requires HaltedAt(h.store, tx.env.number)
    ensures Halted(Step(d, h, tx)) && Step(d, h, tx).mints == h.mints
  {
    hide Execute, ChangeOf, Step, Moved, TARGET_WINDOW, TWO256;
    match ChangeOf(d, h, tx)
    case Nothing => NothingChanges(d, h, tx);
    case Bought => BoughtStep(d, h, tx);
    case Seeded => SeededStep(d, h, tx);
    case Mining =>
      MiningStep(d, h, tx);
      hide Mine, PaymentFacts, NextDifficulty;
      RetargetDefined(h.store.currentDifficulty, tx.env.number - h.store.lastAdjustmentBlock);
    case Sent => SentStep(d, h, tx);
  }

  function Continue(d: Deployment, h: History, txs: seq<Tx>): History
    decreases |txs|
  {
    if txs == [] then h else Continue(d, Step(d, h, txs[0]), txs[1..])
  }

  predicate AdmittedFrom(d: Deployment, h: History, txs: seq<Tx>)
    decreases |txs|
  {
    txs != [] ==> Admissible(d, h, txs[0]) && AdmittedFrom(d, Step(d, h, txs[0]), txs[1..])
  }

  /** Once halted, no transaction ever mints again. */
  lemma {:induction false} HaltedForever(d: Deployment, h: History, txs: seq<Tx>)
    requires Halted(h) && AdmittedFrom(d, h, txs)
    ensures Halted(Continue(d, h, txs)) && Continue(d, h, txs).mints == h.mints
    decreases |txs|
  {
    hide Step, HaltedAt;
    if txs != [] {
      HaltLasts(h.store, h.number, txs[0].env.number);
      HaltedKept(d, h, txs[0]);
      HaltedForever(d, Step(d, h, txs[0]), txs[1..]);
    }
  }

  /** The window at which the scaled difficulty leaves 256 bits. */
  function Patience(current: nat): nat
    requires current > 0
  {
    (TWO256 * TARGET_WINDOW + current - 1) / current
  }

  lemma ProductReaches(a: nat, t: nat, bound: nat)
    requires a > 0
    ensures a * t >= bound <==> t >= (bound + a - 1) / a
  {
    var q := (bound + a - 1) / a;
    SquareRoot.QuotientBound(bound + a - 1, a, q);
    assert (q + 1) * a == q * a + a;
    assert a * t == t * a && a * q == q * a;
    if t >= q {
      ProductMonotone(a, q, t);
    } else {
      ProductMonotone(a, t, q - 1);
      assert a * (q - 1) == a * q - a;
    }
  }

  lemma QuotientReaches(x: nat, bound: nat)
    ensures x / TARGET_WINDOW >= bound <==> x >= bound * TARGET_WINDOW
  {
  }

  /** Below 2^254, mining stops exactly when a window that is due has lasted too long.  That is always longer than the
      40320 blocks beyond which the clamp would have held the next difficulty at four times the old one. */
  lemma HaltsByPatience(s: Storage, number: nat)
    requires s.genesisComplete && s.totalMints + 1 - s.lastAdjustmentMint >= ADJUSTMENT_INTERVAL
    requires 0 < s.currentDifficulty < TWO256 / 4 && s.lastAdjustmentBlock <= number
    ensures HaltedAt(s, number) <==> number - s.lastAdjustmentBlock >= Patience(s.currentDifficulty)
    ensures Patience(s.currentDifficulty) > 4 * TARGET_WINDOW
  {
    var current, taken := s.currentDifficulty, number - s.lastAdjustmentBlock;
    QuotientReaches(current * taken, TWO256);
    ProductReaches(current, taken, TWO256 * TARGET_WINDOW);
    ProductReaches(current, 4 * TARGET_WINDOW, TWO256 * TARGET_WINDOW);
    FourfoldIsBelow(current);
    hide Patience, TARGET_WINDOW, TWO256;
    PatienceIs(current);
  }

  lemma PatienceIs(current: nat)
    requires current > 0
    ensures Patience(current) == (TWO256 * TARGET_WINDOW + current - 1) / current
  {
  }

  lemma FourfoldIsBelow(current: nat)
    requires current < TWO256 / 4
    ensures current * (4 * TARGET_WINDOW) < TWO256 * TARGET_WINDOW
  {
  }

  /** A run can only be halted when 2015 mints of a window are made, the first time with 2015 mints. */
  lemma HaltIsDue(d: Deployment, txs: seq<Tx>)
    requires Admitted(d, txs) && Halted(After(d, txs))
    ensures After(d, txs).store.totalMints % ADJUSTMENT_INTERVAL == ADJUSTMENT_INTERVAL - 1
  {
    RetargetsOfEveryRun(d, txs);
    hide Admitted, After, Pow4, Windowed, DifficultyBounded, RetargetsOnRecord, TWO256, TARGET_WINDOW;
  }

  lemma {:induction false} Pow4Monotone(a: nat, b: nat)
    requires a <= b
    ensures Pow4(a) <= Pow4(b)
  {
    if a < b { Pow4Monotone(a, b - 1); }
  }

  lemma FifteenQuadruplings()
    ensures INITIAL_DIFFICULTY * Pow4(15) < TWO256 / 4
  {
    assert Pow4(5) == 1024;
    assert Pow4(10) == 1_048_576;
    assert Pow4(15) == 1_073_741_824;
  }

  /** A difficulty of 2^254 or more, which halts the next window however short, takes sixteen retargets. */
  lemma HighDifficultyIsLate(d: Deployment, txs: seq<Tx>)
    requires Admitted(d, txs) && After(d, txs).store.genesisComplete
    requires After(d, txs).store.currentDifficulty >= TWO256 / 4
    ensures After(d, txs).store.totalMints >= 16 * ADJUSTMENT_INTERVAL
    ensures Halted(After(d, txs)) ==> After(d, txs).store.totalMints >= 34_271
  {
    RetargetsOfEveryRun(d, txs);
    var s := After(d, txs).store;
    var k := s.lastAdjustmentMint / ADJUSTMENT_INTERVAL;
    FifteenQuadruplings();
    hide Admitted, After, Pow4, INITIAL_DIFFICULTY;
    if k < 16 {
      Pow4Monotone(k, 15);
      ProductMonotone(INITIAL_DIFFICULTY, Pow4(k), Pow4(15));
      assert false;
    }
  }
}
