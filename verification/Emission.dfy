/** The emission: what has been mined is a function of the number of mints alone, and the supply ends
    exactly at mint 424015. */
module Emission {
  import opened Words
  import opened HashContract
  import opened ContractRuns

  const LAST_MINT: nat := 424_015

  /** The reward of the k-th mint, k counted from 1. */
  function RewardOfMint(k: nat): nat {
    RewardForEra(k / ERA_MINTS)
  }

  /** The sum of the rewards of the first n mints. */
  function MinedAfter(n: nat): nat {
    if n == 0 then 0 else MinedAfter(n - 1) + RewardOfMint(n)
  }

  // ---------- the reward of an era

  function Pow2(k: nat): (p: nat)
    ensures p > 0
  {
    if k == 0 then 1 else 2 * Pow2(k - 1)
  }

  lemma {:induction false} ShiftedRight(x: nat, n: nat)
    ensures var r := ShiftRight(x, n); r * Pow2(n) <= x < (r + 1) * Pow2(n)
  {
    if n > 0 {
      ShiftedRight(x / 2, n - 1);
      Doubled(x, ShiftRight(x / 2, n - 1), Pow2(n - 1));
    }
  }

  lemma Doubled(x: nat, r: nat, p: nat)
    requires r * p <= x / 2 < (r + 1) * p
    ensures r * (2 * p) <= x < (r + 1) * (2 * p)
  {
    var low, high := r * p, (r + 1) * p;
    TwiceScaled(r, p);
    TwiceScaled(r + 1, p);
  }

  lemma TwiceScaled(r: nat, p: nat)
    ensures r * (2 * p) == 2 * (r * p)
  {
  }

  /** Up to era 63 the reward is the hundred tokens divided by 2^era, rounded down, and nothing from era 64 on. */
  lemma RewardOfEra(era: nat)
    ensures var r := RewardForEra(era);
      if era < 64 then r * Pow2(era) <= 100_000_000_000_000_000_000 < (r + 1) * Pow2(era) else r == 0
  {
    if era < 64 { ShiftedRight(BASE_REWARD, era); }
    hide Pow2, ShiftRight;
  }

  // ---------- the sum in closed form

  lemma EraRewards()
    ensures RewardForEra(0) == 100 * UNIT18 && RewardForEra(1) == 50 * UNIT18 && RewardForEra(2) == 25 * UNIT18
    ensures RewardForEra(3) == 12_500_000_000_000_000_000 && RewardForEra(4) == 6_250_000_000_000_000_000
  {
  }

  /** Within an era the sum grows by the same reward at every mint. */
  lemma {:induction false} MinedWithinEra(era: nat, start: nat, n: nat)
    requires start <= n && era * ERA_MINTS <= start + 1 && n < (era + 1) * ERA_MINTS
    ensures MinedAfter(n) == MinedAfter(start) + (n - start) * RewardForEra(era)
    decreases n
  {
    hide RewardForEra;
    if n > start {
      MinedWithinEra(era, start, n - 1);
      EraOf(n, era);
      Distribute(n - 1 - start, RewardForEra(era));
    }
  }

  lemma EraOf(n: nat, era: nat)
    requires era * ERA_MINTS <= n < (era + 1) * ERA_MINTS
    ensures n / ERA_MINTS == era
  {
  }

  lemma Distribute(a: nat, b: nat)
    ensures (a + 1) * b == a * b + b
  {
  }

  /** What has been mined when each of the first four eras ends. */
  lemma MinedAtEraEnds()
    ensures MinedAfter(99_999) == 9_999_900 * UNIT18
    ensures MinedAfter(199_999) == 14_999_900 * UNIT18
    ensures MinedAfter(299_999) == 17_499_900 * UNIT18
    ensures MinedAfter(399_999) == 18_749_900 * UNIT18
  {
    hide RewardForEra, MinedAfter;
    EraRewards();
    MinedAtStart();
    MinedWithinEra(0, 0, 99_999);
    MinedWithinEra(1, 99_999, 199_999);
    MinedWithinEra(2, 199_999, 299_999);
    MinedWithinEra(3, 299_999, 399_999);
  }

  lemma MinedAtStart()
    ensures MinedAfter(0) == 0
  {
  }

  /** The sum after any number of mints up to the end of era 4. */
  lemma MinedInClosedForm(n: nat)
    requires n < 500_000
    ensures MinedAfter(n) ==
      if n < 100_000 then n * 100 * UNIT18
      else if n < 200_000 then 9_999_900 * UNIT18 + (n - 99_999) * 50 * UNIT18
      else if n < 300_000 then 14_999_900 * UNIT18 + (n - 199_999) * 25 * UNIT18
      else if n < 400_000 then 17_499_900 * UNIT18 + (n - 299_999) * 12_500_000_000_000_000_000
      else 18_749_900 * UNIT18 + (n - 399_999) * 6_250_000_000_000_000_000
  {
    EraRewards();
    MinedAtStart();
    MinedAtEraEnds();
    hide RewardForEra, MinedAfter;
    if n < 100_000 { MinedWithinEra(0, 0, n); }
    else if n < 200_000 { MinedWithinEra(1, 99_999, n); }
    else if n < 300_000 { MinedWithinEra(2, 199_999, n); }
    else if n < 400_000 { MinedWithinEra(3, 299_999, n); }
    else { MinedWithinEra(4, 399_999, n); }
  }

  /** What currentReward quotes before a mint is what that mint is paid, except for the mint that opens an era. */
  lemma QuotedReward(n: nat)
    requires n < LAST_MINT
    ensures RewardForEra(n / ERA_MINTS) == RewardOfMint(n + 1) <==> (n + 1) % ERA_MINTS != 0
  {
    hide RewardForEra;
    EraRewards();
    NextEra(n);
    assert 0 <= n / ERA_MINTS <= 4;
    assert (n + 1) % ERA_MINTS == 0 ==> n / ERA_MINTS <= 3 by { LastEra(n); }
    hide ERA_MINTS, UNIT18;
    PositiveUnit();
  }

  lemma LastEra(n: nat)
    requires n < LAST_MINT
    ensures (n + 1) % ERA_MINTS == 0 ==> n / ERA_MINTS <= 3
  {
  }

  lemma PositiveUnit()
    ensures UNIT18 == 1_000_000_000_000_000_000
  {
  }

  /** The supply is used up exactly at the last mint and not before; the last reward is a whole one. */
  lemma SupplyEndsAtLastMint(n: nat)
    ensures MinedAfter(LAST_MINT) == MINING_SUPPLY
    ensures n < LAST_MINT ==> MinedAfter(n) < MINING_SUPPLY
    ensures n < LAST_MINT ==> 0 < RewardOfMint(n + 1) <= MINING_SUPPLY - MinedAfter(n)
  {
    MinedInClosedForm(LAST_MINT);
    if n < LAST_MINT {
      MinedInClosedForm(n);
      MinedInClosedForm(n + 1);
      MinedGrows(n);
      hide RewardOfMint, MinedAfter;
    } else {
      hide RewardOfMint, MinedAfter;
    }
  }

  lemma MinedGrows(n: nat)
    ensures MinedAfter(n + 1) == MinedAfter(n) + RewardOfMint(n + 1)
  {
    hide RewardOfMint;
  }

  // ---------- over every run

  ghost predicate OnSchedule(s: Storage) {
    && s.totalMints <= LAST_MINT && s.totalMiningMinted == MinedAfter(s.totalMints)
    && (!s.genesisComplete ==> s.totalMints == 0)
  }

  /** A mint pays the reward of its place in the schedule: neither the clamp to what is left nor the
      zero-reward revert is ever taken. */
  lemma MinePaysSchedule(d: Deployment, h: History, tx: Tx)
    requires OnSchedule(h.store) && ChangeOf(d, h, tx).Mining?
    ensures var s, s' := h.store, Step(d, h, tx).store;
      && s.totalMints < LAST_MINT && s'.totalMints == s.totalMints + 1
      && s'.totalMiningMinted == s.totalMiningMinted + RewardOfMint(s'.totalMints)
      && CurrentReward(s') == s'.totalMiningMinted - s.totalMiningMinted
      && OnSchedule(s')
  {
    hide *;
    MiningFigures(d, h, tx);
    ScheduledPayment(h.store, Step(d, h, tx).store);
  }

  lemma MiningFigures(d: Deployment, h: History, tx: Tx)
    requires ChangeOf(d, h, tx).Mining?
    ensures PaidAndCounted(h.store, Step(d, h, tx).store)
  {
    MiningStep(d, h, tx);
    hide Execute, ChangeOf, Step, RewardForEra, RetargetFacts, Moved, MINING_SUPPLY, Mine, Min;
  }

  ghost predicate PaidAndCounted(s: Storage, s': Storage) {
    && s.totalMiningMinted < MINING_SUPPLY && s.totalMiningMinted < s'.totalMiningMinted
    && s'.totalMints == s.totalMints + 1 && s'.genesisComplete
    && s'.totalMiningMinted - s.totalMiningMinted
       == Min(RewardForEra((s.totalMints + 1) / ERA_MINTS), MINING_SUPPLY - s.totalMiningMinted)
  }

  lemma ScheduledPayment(s: Storage, s': Storage)
    requires OnSchedule(s) && PaidAndCounted(s, s')
    ensures s.totalMints < LAST_MINT && s'.totalMints == s.totalMints + 1
    ensures s'.totalMiningMinted == s.totalMiningMinted + RewardOfMint(s'.totalMints)
    ensures CurrentReward(s') == s'.totalMiningMinted - s.totalMiningMinted
    ensures OnSchedule(s')
  {
    SupplyEndsAtLastMint(s.totalMints);
    MinedGrows(s.totalMints);
    hide MinedAfter, RewardForEra, MINING_SUPPLY, LAST_MINT, ERA_MINTS;
  }

  lemma OnScheduleKept(d: Deployment, h: History, tx: Tx)
    requires OnSchedule(h.store)
    ensures OnSchedule(Step(d, h, tx).store)
  {
    hide MinedAfter;
    match ChangeOf(d, h, tx)
    case Nothing => NothingChanges(d, h, tx); hide Execute, ChangeOf, Step;
    case Bought => BoughtStep(d, h, tx); hide Execute, ChangeOf, Step, Moved;
    case Seeded => SeededStep(d, h, tx); hide Execute, ChangeOf, Step, Moved;
    case Mining => MinePaysSchedule(d, h, tx);
    case Sent => SentStep(d, h, tx); hide Execute, ChangeOf, Step, Moved;
  }

  // ---------- halvings

  function Halvings(events: seq<Event>): seq<Event> {
    if events == [] then []
    else
      var last := |events| - 1;
      Halvings(events[..last]) + if events[last].Halving? then [events[last]] else []
  }

  /** The halvings up to an era, each with the reward of the era it opens. */
  function HalvingSchedule(eras: nat): seq<Event> {
    if eras == 0 then [] else HalvingSchedule(eras - 1) + [Halving(eras, RewardForEra(eras))]
  }

  ghost predicate HalvingsOnSchedule(h: History) {
    Halvings(h.events) == HalvingSchedule(h.store.totalMints / ERA_MINTS)
  }

  lemma {:induction false} HalvingsOfConcat(a: seq<Event>, b: seq<Event>)
    ensures Halvings(a + b) == Halvings(a) + Halvings(b)
  {
    if b == [] {
      assert a + b == a;
    } else {
      var last := |b| - 1;
      HalvingsOfConcat(a, b[..last]);
      assert (a + b)[..|a + b| - 1] == a + b[..last];
    }
  }

  lemma HalvingsOfOne(e: Event)
    ensures Halvings([e]) == if e.Halving? then [e] else []
  {
  }

  lemma HalvingsOfMine(d: Deployment, s: Storage, env: Env, nonce: uint256)
    requires Mine(d, s, env, nonce).Committed? && s.totalMiningMinted <= Mine(d, s, env, nonce).store.totalMiningMinted
    ensures Halvings(Mine(d, s, env, nonce).events)
            == HalvingEvents(s.totalMints + 1, Mine(d, s, env, nonce).store.totalMiningMinted - s.totalMiningMinted)
  {
    hide Mine, Halvings, RetargetEvents, HalvingEvents;
    MineEvents(d, s, env, nonce);
    var s' := Mine(d, s, env, nonce).store;
    var n, reward := s.totalMints + 1, s'.totalMiningMinted - s.totalMiningMinted;
    HalvingsOfRetarget(s, env, s'.currentDifficulty);
    HalvingsOfHalving(n, reward);
    HalvingsOfParts(RetargetEvents(s, env, s'.currentDifficulty), HalvingEvents(n, reward),
                    Mined(env.sender, nonce, reward, n / ERA_MINTS));
  }

  lemma HalvingsOfParts(a: seq<Event>, b: seq<Event>, c: Event)
    requires Halvings(a) == [] && Halvings(b) == b && !c.Halving?
    ensures Halvings(a + (b + [c])) == b
  {
    hide Halvings;
    HalvingsOfConcat(a, b + [c]);
    HalvingsOfConcat(b, [c]);
    HalvingsOfOne(c);
  }

  lemma HalvingsOfRetarget(s: Storage, env: Env, next: nat)
    ensures Halvings(RetargetEvents(s, env, next)) == []
  {
  }

  lemma HalvingsOfHalving(n: nat, reward: nat)
    ensures Halvings(HalvingEvents(n, reward)) == HalvingEvents(n, reward)
  {
    hide ERA_MINTS;
  }

  lemma NextEra(n: nat)
    ensures (n + 1) / ERA_MINTS == n / ERA_MINTS + if (n + 1) % ERA_MINTS == 0 then 1 else 0
  {
  }

  lemma NextHalving(n: nat)
    ensures HalvingSchedule((n + 1) / ERA_MINTS)
            == HalvingSchedule(n / ERA_MINTS) + HalvingEvents(n + 1, RewardOfMint(n + 1))
  {
    hide RewardForEra;
    NextEra(n);
    var era := n / ERA_MINTS;
    hide ERA_MINTS;
    if (n + 1) % ERA_MINTS == 0 {
      assert HalvingSchedule(era + 1) == HalvingSchedule(era) + [Halving(era + 1, RewardForEra(era + 1))];
    } else {
      assert HalvingSchedule(era) + [] == HalvingSchedule(era);
    }
  }

  lemma HalvingsMineKept(d: Deployment, h: History, tx: Tx)
    requires OnSchedule(h.store) && HalvingsOnSchedule(h) && ChangeOf(d, h, tx).Mining?
    ensures HalvingsOnSchedule(Step(d, h, tx))
  {
    MiningStep(d, h, tx);
    MinePaysSchedule(d, h, tx);
    var s, s' := h.store, Step(d, h, tx).store;
    assert Mine(d, s, tx.env, tx.call.nonce).store == s' by {
      hide Mine, MintGenesis, SeedPool, PartialSeed, Transfer;
    }
    hide Step, Execute, Mine, Halvings, HalvingSchedule, RewardForEra, OnSchedule, CountFacts, RetargetFacts,
      PaymentFacts;
    HalvingsStepKept(d, h, tx, s, s');
  }

  lemma HalvingsStepKept(d: Deployment, h: History, tx: Tx, s: Storage, s': Storage)
    requires HalvingsOnSchedule(h) && tx.call.MineCall?
    requires s == h.store && s' == Step(d, h, tx).store
    requires Mine(d, s, tx.env, tx.call.nonce).Committed? && Mine(d, s, tx.env, tx.call.nonce).store == s'
    requires Step(d, h, tx).events == h.events + Mine(d, s, tx.env, tx.call.nonce).events
    requires s'.totalMints == s.totalMints + 1
    requires s'.totalMiningMinted == s.totalMiningMinted + RewardOfMint(s'.totalMints)
    ensures HalvingsOnSchedule(Step(d, h, tx))
  {
    hide Step, Mine, Halvings, HalvingSchedule, HalvingEvents, RewardOfMint;
    HalvingsOfMine(d, s, tx.env, tx.call.nonce);
    HalvingsOfConcat(h.events, Mine(d, s, tx.env, tx.call.nonce).events);
    NextHalving(s.totalMints);
  }

  lemma HalvingsKept(d: Deployment, h: History, tx: Tx)
    requires OnSchedule(h.store) && HalvingsOnSchedule(h)
    ensures HalvingsOnSchedule(Step(d, h, tx))
  {
    hide MinedAfter;
    match ChangeOf(d, h, tx)
    case Nothing => NothingChanges(d, h, tx); hide Execute, ChangeOf, Step;
    case Bought =>
      BoughtStep(d, h, tx);
      var e := Step(d, h, tx).events[|h.events|];
      HalvingsOfConcat(h.events, [e]);
      HalvingsOfOne(e);
      hide Execute, ChangeOf, Step, Moved, Halvings;
    case Seeded =>
      SeededStep(d, h, tx);
      var e := Step(d, h, tx).events[|h.events|];
      HalvingsOfConcat(h.events, [e]);
      HalvingsOfOne(e);
      hide Execute, ChangeOf, Step, Moved, Halvings;
    case Mining => HalvingsMineKept(d, h, tx);
    case Sent => SentStep(d, h, tx); hide Execute, ChangeOf, Step, Moved;
  }

  /** Every history: the schedule, the ending, the halvings. */
  lemma {:induction false} EmissionOfEveryRun(d: Deployment, txs: seq<Tx>)
    ensures OnSchedule(After(d, txs).store) && HalvingsOnSchedule(After(d, txs))
  {
    hide Step, MinedAfter;
    if txs == [] {
      MinedAtStart();
    } else {
      var last := |txs| - 1;
      EmissionOfEveryRun(d, txs[..last]);
      OnScheduleKept(d, After(d, txs[..last]), txs[last]);
      HalvingsKept(d, After(d, txs[..last]), txs[last]);
    }
  }

  lemma FourHalvings()
    ensures HalvingSchedule(LAST_MINT / ERA_MINTS) == [Halving(1, 50 * UNIT18), Halving(2, 25 * UNIT18),
              Halving(3, 12_500_000_000_000_000_000), Halving(4, 6_250_000_000_000_000_000)]
  {
    EraRewards();
    hide RewardForEra, UNIT18;
    assert HalvingSchedule(0) == [];
    assert HalvingSchedule(1) == [Halving(1, RewardForEra(1))];
    assert HalvingSchedule(2) == HalvingSchedule(1) + [Halving(2, RewardForEra(2))];
    assert HalvingSchedule(3) == HalvingSchedule(2) + [Halving(3, RewardForEra(3))];
    assert HalvingSchedule(4) == HalvingSchedule(3) + [Halving(4, RewardForEra(4))];
  }

  /** The supply is exhausted exactly when 424015 mints have been made, and then there have been four halvings. */
  lemma CompletedRun(d: Deployment, txs: seq<Tx>)
    ensures var h := After(d, txs);
      && (h.store.totalMiningMinted >= MINING_SUPPLY <==> h.store.totalMints == LAST_MINT)
      && h.store.totalMiningMinted <= MINING_SUPPLY
      && (h.store.totalMints == LAST_MINT ==>
            Halvings(h.events) == [Halving(1, 50 * UNIT18), Halving(2, 25 * UNIT18),
                                   Halving(3, 12_500_000_000_000_000_000), Halving(4, 6_250_000_000_000_000_000)])
  {
    EmissionOfEveryRun(d, txs);
    hide After, Halvings, OnSchedule, HalvingsOnSchedule;
    ScheduleEnds(After(d, txs));
  }

  lemma ScheduleEnds(h: History)
    requires OnSchedule(h.store) && HalvingsOnSchedule(h)
    ensures h.store.totalMiningMinted >= MINING_SUPPLY <==> h.store.totalMints == LAST_MINT
    ensures h.store.totalMiningMinted <= MINING_SUPPLY
    ensures h.store.totalMints == LAST_MINT ==>
      Halvings(h.events) == [Halving(1, 50 * UNIT18), Halving(2, 25 * UNIT18),
                             Halving(3, 12_500_000_000_000_000_000), Halving(4, 6_250_000_000_000_000_000)]
  {
    SupplyEndsAtLastMint(h.store.totalMints);
    FourHalvings();
    hide MinedAfter, Halvings, HalvingSchedule, RewardOfMint, MINING_SUPPLY, UNIT18;
  }
}
