/** Mining can stop for good before the supply is out: because the difficulty has reached 2^254, or because a window
    has lasted too long.  Runs that get there, for every deployment under which the nonces are there. */
module Halt {
  import opened Words
  import opened HashContract
  import opened ContractRuns
  import opened Emission
  import opened Retargeting
  import opened Pacing

  // ---------- by the difficulty

  const LAST_SLOW: nat := 34_271

  lemma QuadrupleScale(current: nat)
    ensures current * (ADJUSTMENT_INTERVAL * 20) / TARGET_WINDOW == 4 * current
  {
  }

  /** A window of 40320 blocks quadruples the difficulty, where that fits. */
  lemma Quadruples(current: nat)
    requires 0 < current < TWO256 / 4
    ensures NextDifficulty(current, ADJUSTMENT_INTERVAL * 20) == Retargeted(4 * current)
  {
    QuadrupleScale(current);
    Quarter(current);
    hide TARGET_WINDOW;
  }

  lemma BelowHalt(k: nat)
    requires k <= 15
    ensures 0 < INITIAL_DIFFICULTY * Pow4(k) < TWO256 / 4
  {
    hide Pow4;
    FifteenQuadruplings();
    Pow4Monotone(k, 15);
    ProductMonotone(INITIAL_DIFFICULTY, Pow4(k), Pow4(15));
    ProductMonotone(INITIAL_DIFFICULTY, 1, Pow4(k));
  }

  /** At twenty blocks to a mint each of the first sixteen retargets quadruples the difficulty. */
  lemma {:induction false} SlowPace(k: nat)
    requires k <= 16
    ensures DifficultyAt(20, k) == Retargeted(INITIAL_DIFFICULTY * Pow4(k))
  {
    hide NextDifficulty, INITIAL_DIFFICULTY, Pow4, TWO256;
    if k == 0 {
      Pow4AtZero();
    } else {
      SlowPace(k - 1);
      BelowHalt(k - 1);
      Quadruples(INITIAL_DIFFICULTY * Pow4(k - 1));
      FourTimes(INITIAL_DIFFICULTY, k);
    }
  }

  lemma Pow4AtZero()
    ensures INITIAL_DIFFICULTY * Pow4(0) == INITIAL_DIFFICULTY
  {
  }

  lemma FourTimes(a: nat, k: nat)
    requires k > 0
    ensures a * Pow4(k) == 4 * (a * Pow4(k - 1))
  {
    var p := Pow4(k - 1);
    assert Pow4(k) == 4 * p;
    hide Pow4;
    assert a * (4 * p) == 4 * (a * p);
  }

  lemma HaltDifficulty()
    ensures INITIAL_DIFFICULTY * Pow4(16) >= TWO256 / 4
  {
    assert Pow4(16) == 4 * Pow4(15);
    assert Pow4(5) == 1024;
    assert Pow4(10) == 1_048_576;
    assert Pow4(15) == 1_073_741_824;
  }

  lemma LastSlow()
    ensures LAST_SLOW / ADJUSTMENT_INTERVAL == 16 && LAST_SLOW + 1 == ADJUSTMENT_INTERVAL * 17 && LAST_SLOW < LAST_MINT
  {
  }

  /** At twenty blocks to a mint the difficulty itself halts mining after 34271 mints, which is the earliest it can. */
  lemma HaltByDifficulty(d: Deployment, plan: Plan, later: seq<Tx>)
    requires plan.pace == 20 && Supplied(d, plan, LAST_SLOW)
    requires AdmittedFrom(d, After(d, PacedRun(d, plan, LAST_SLOW)), later)
    ensures var txs := PacedRun(d, plan, LAST_SLOW);
      && Admitted(d, txs) && |After(d, txs).mints| == LAST_SLOW && After(d, txs).store.currentDifficulty >= TWO256 / 4
      && Halted(After(d, txs)) && Continue(d, After(d, txs), later).mints == After(d, txs).mints
  {
    hide Supplied, DifficultyAt, PacedRun, Admitted, After, Pow4, INITIAL_DIFFICULTY, Continue, AdmittedFrom, KeyAt,
      TWO256, TARGET_WINDOW;
    LastSlow();
    SlowPace(16);
    HaltDifficulty();
    PacedAfter(d, plan, LAST_SLOW);
    SlowIsHalted(d, plan, After(d, PacedRun(d, plan, LAST_SLOW)));
    HaltedForever(d, After(d, PacedRun(d, plan, LAST_SLOW)), later);
  }

  lemma SlowIsHalted(d: Deployment, plan: Plan, h: History)
    requires plan.pace == 20 && OnPace(d, plan, LAST_SLOW, h)
    requires h.store.currentDifficulty >= TWO256 / 4
    ensures Halted(h)
  {
    hide DifficultyAt, INITIAL_DIFFICULTY, KeyAt, TWO256, TARGET_WINDOW;
    LastSlow();
  }

  // ---------- by a long window

  /** Any run in which the next mint is due a retarget, followed by any one transaction after the patience of its
      difficulty is over: whatever comes later, nothing is mined. */
  lemma HaltByDelay(d: Deployment, txs: seq<Tx>, late: Tx, later: seq<Tx>)
    requires Admitted(d, txs) && Admissible(d, After(d, txs), late)
    requires var s := After(d, txs).store;
      && s.genesisComplete && s.totalMints % ADJUSTMENT_INTERVAL == ADJUSTMENT_INTERVAL - 1
      && 0 < s.currentDifficulty < TWO256 / 4
      && late.env.number - s.lastAdjustmentBlock >= Patience(s.currentDifficulty)
    requires AdmittedFrom(d, After(d, txs + [late]), later)
    ensures Admitted(d, txs + [late]) && Halted(After(d, txs + [late]))
    ensures Continue(d, After(d, txs + [late]), later).mints == After(d, txs).mints
  {
    hide Admitted, After, Admissible, Step, AdmittedFrom, Continue, HaltedAt, Patience, TWO256, Pow4, Windowed,
      DifficultyBounded, RetargetsOnRecord;
    RetargetsOfEveryRun(d, txs);
    RunExtended(d, txs, late);
    var s := After(d, txs).store;
    DueAtLast(s);
    HaltsByPatience(s, late.env.number);
    HaltedKept(d, After(d, txs), late);
    HaltedForever(d, After(d, txs + [late]), later);
  }

  lemma DueAtLast(s: Storage)
    requires OnInterval(s) && s.totalMints % ADJUSTMENT_INTERVAL == ADJUSTMENT_INTERVAL - 1
    ensures s.totalMints + 1 - s.lastAdjustmentMint >= ADJUSTMENT_INTERVAL
  {
  }

  const FIRST_DUE: nat := 2_015

  lemma FirstDue()
    ensures FIRST_DUE / ADJUSTMENT_INTERVAL == 0 && FIRST_DUE % ADJUSTMENT_INTERVAL == ADJUSTMENT_INTERVAL - 1
    ensures FIRST_DUE < LAST_MINT && 0 < INITIAL_DIFFICULTY < TWO256 / 4
  {
  }

  /** The first window already: after 2015 paced mints, one late transaction of any kind finds mining halted. */
  lemma FirstWindowCanHalt(d: Deployment, plan: Plan, late: Tx)
    requires Supplied(d, plan, FIRST_DUE)
    requires late.env.sender != d.self && late.env.number >= Patience(INITIAL_DIFFICULTY)
    requires late.env.number >= BlockOf(plan, FIRST_DUE)
    ensures var txs := PacedRun(d, plan, FIRST_DUE) + [late];
      Admitted(d, txs) && Halted(After(d, txs)) && |After(d, txs).mints| == FIRST_DUE
  {
    hide Supplied, PacedRun, Admitted, After, AdmittedFrom, HaltedAt, Patience, INITIAL_DIFFICULTY, TWO256, KeyAt,
      BlockOf;
    FirstDue();
    PacedAfter(d, plan, FIRST_DUE);
    var txs := PacedRun(d, plan, FIRST_DUE);
    FirstWindowState(d, plan, After(d, txs), late);
    NothingLater(d, After(d, txs + [late]));
    HaltByDelay(d, txs, late, []);
  }

  lemma FirstWindowState(d: Deployment, plan: Plan, h: History, late: Tx)
    requires OnPace(d, plan, FIRST_DUE, h)
    requires late.env.sender != d.self && late.env.number >= BlockOf(plan, FIRST_DUE)
    ensures Admissible(d, h, late)
    ensures h.store.lastAdjustmentBlock == 0 && h.store.currentDifficulty == INITIAL_DIFFICULTY
  {
    hide INITIAL_DIFFICULTY, KeyAt, BlockOf;
    FirstDue();
  }

  lemma NothingLater(d: Deployment, h: History)
    ensures AdmittedFrom(d, h, []) && Continue(d, h, []) == h
  {
  }
}
