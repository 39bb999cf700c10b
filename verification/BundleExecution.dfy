/** What the contract does with a bundle: verified solutions fill the block up to its cap, repeated nonces revert. */
module BundleExecution {
  import opened Words
  import opened Totals
  import opened ProofOfWork
  import opened HashContract
  import opened ContractRuns
  import opened Emission
  import opened Supply
  import opened Retargeting
  import opened Ledger
  import opened MineOutcome

  /** Checked off the chain for this miner in the epoch of block `number`: the digest is that of the miner's challenge
      and the nonce, and below the difficulty it was checked against. */
  ghost predicate VerifiedFor(d: Deployment, miner: address, number: uint256, sol: Solution) {
    && sol.epoch == Epoch(number) && sol.challenge == Challenge(d, miner, sol.epoch)
    && sol.digest == d.keccak(WorkPreimage(sol.challenge, sol.nonce))
    && BigEndian(sol.digest) < sol.difficulty
  }

  lemma VerifiedWorks(d: Deployment, env: Env, sol: Solution, difficulty: nat)
    requires VerifiedFor(d, env.sender, env.number, sol) && sol.difficulty <= difficulty
    ensures Work(d, Challenge(d, env.sender, Epoch(env.number)), sol.nonce) < difficulty
  {
    hide Challenge, WorkPreimage, BigEndian, Epoch;
  }

  // ---------- the run of a bundle

  function MineTx(env: Env, sol: Solution): Tx {
    Tx(env, MineCall(sol.nonce))
  }

  /** The history after the first n transactions of the bundle. */
  function Executed(d: Deployment, h: History, env: Env, sols: seq<Solution>, n: nat): History
    requires n <= |sols|
  {
    if n == 0 then h else Step(d, Executed(d, h, env, sols, n - 1), MineTx(env, sols[n - 1]))
  }

  function OutcomeOf(d: Deployment, h: History, env: Env, sols: seq<Solution>, i: nat): Outcome
    requires i < |sols|
  {
    Execute(d, Executed(d, h, env, sols, i).store, env, MineCall(sols[i].nonce))
  }

  function KeyOf(d: Deployment, env: Env, sol: Solution): bytes32 {
    ProofKey(d, env.sender, sol.nonce, Epoch(env.number))
  }

  /** The hash does not collide on the proof encodings of these two. */
  ghost predicate TellsApart(d: Deployment, env: Env, a: Solution, b: Solution) {
    var p := ProofPreimage(env.sender, a.nonce, Epoch(env.number));
    var q := ProofPreimage(env.sender, b.nonce, Epoch(env.number));
    d.keccak(p) == d.keccak(q) ==> p == q
  }

  lemma KeysDiffer(d: Deployment, env: Env, a: Solution, b: Solution)
    requires a.nonce != b.nonce && TellsApart(d, env, a, b)
    ensures KeyOf(d, env, a) != KeyOf(d, env, b)
  {
    hide ProofPreimage;
    if KeyOf(d, env, a) == KeyOf(d, env, b) {
      EpochInRange(env.number);
      ProofPreimageInjective(env.sender, a.nonce, Epoch(env.number), env.sender, b.nonce, Epoch(env.number));
    }
  }

  /** What is asked of the chain before solutions with different nonces go into block `env.number`. */
  ghost predicate ReadyFor(d: Deployment, h: History, env: Env, sols: seq<Solution>) {
    && Reachable(d, h) && env.sender != d.self && h.number <= env.number && env.value == 0
    && h.store.genesisComplete && |h.mints| + |sols| <= LAST_MINT
    && (forall i | 0 <= i < |sols| ::
          sols[i].difficulty <= h.store.currentDifficulty && KeyOf(d, env, sols[i]) !in h.store.usedProofs)
    && (forall i, j | 0 <= i < j < |sols| :: sols[i].nonce != sols[j].nonce && TellsApart(d, env, sols[i], sols[j]))
    && |h.mints| % ADJUSTMENT_INTERVAL + Min(|sols|, Room(h, env)) < ADJUSTMENT_INTERVAL
  }

  ghost predicate Ready(d: Deployment, h: History, env: Env, sols: seq<Solution>) {
    ReadyFor(d, h, env, sols) && forall i | 0 <= i < |sols| :: VerifiedFor(d, env.sender, env.number, sols[i])
  }

  /** How many more mints the block takes. */
  function Room(h: History, env: Env): nat {
    var used := CountBlock(h.mints, env.number);
    if used <= MAX_MINTS_PER_BLOCK then MAX_MINTS_PER_BLOCK - used else 0
  }

  function PaidMints(h: History, env: Env, sols: seq<Solution>, k: nat): seq<Mint>
    requires k <= |sols|
  {
    if k == 0 then []
    else PaidMints(h, env, sols, k - 1)
         + [Mint(env.sender, sols[k - 1].nonce, Epoch(env.number), env.number, RewardOfMint(|h.mints| + k))]
  }

  function Keys(d: Deployment, env: Env, sols: seq<Solution>, k: nat): set<bytes32>
    requires k <= |sols|
  {
    set i | 0 <= i < k :: KeyOf(d, env, sols[i])
  }

  /** The history once the first k solutions are paid and nothing else has happened. */
  ghost predicate Progressed(d: Deployment, h: History, env: Env, sols: seq<Solution>, k: nat, h': History)
    requires k <= |sols|
  {
    && Reachable(d, h') && h'.number <= env.number && h'.store.genesisComplete
    && h'.mints == h.mints + PaidMints(h, env, sols, k)
    && h'.store.usedProofs == h.store.usedProofs + Keys(d, env, sols, k)
    && h'.store.currentDifficulty == h.store.currentDifficulty
    && h'.store.lastAdjustmentMint == h.store.lastAdjustmentMint
    && h'.store.lastAdjustmentBlock == h.store.lastAdjustmentBlock
  }

  lemma {:induction false} PaidCounted(h: History, env: Env, sols: seq<Solution>, k: nat)
    requires k <= |sols|
    ensures |PaidMints(h, env, sols, k)| == k
    ensures CountBlock(h.mints + PaidMints(h, env, sols, k), env.number) == CountBlock(h.mints, env.number) + k
  {
    if k == 0 {
      assert h.mints + PaidMints(h, env, sols, 0) == h.mints;
    } else {
      PaidCounted(h, env, sols, k - 1);
      var m := Mint(env.sender, sols[k - 1].nonce, Epoch(env.number), env.number, RewardOfMint(|h.mints| + k));
      assert h.mints + PaidMints(h, env, sols, k) == h.mints + PaidMints(h, env, sols, k - 1) + [m];
      BlockAppended(h.mints + PaidMints(h, env, sols, k - 1), m, env.number);
    }
  }

  lemma NoBoundary(n: nat, k: nat)
    requires n % ADJUSTMENT_INTERVAL + k + 1 < ADJUSTMENT_INTERVAL
    ensures (n + k + 1) % ADJUSTMENT_INTERVAL != 0
  {
    var q, r := n / ADJUSTMENT_INTERVAL, n % ADJUSTMENT_INTERVAL;
    assert n + k + 1 == ADJUSTMENT_INTERVAL * q + (r + k + 1);
  }

  lemma NextKey(d: Deployment, env: Env, sols: seq<Solution>, k: nat)
    requires k < |sols|
    ensures Keys(d, env, sols, k + 1) == Keys(d, env, sols, k) + {KeyOf(d, env, sols[k])}
  {
  }

  /** The k-th solution is not blocked by the ones before it. */
  lemma UnusedYet(d: Deployment, h: History, env: Env, sols: seq<Solution>, k: nat)
    requires Ready(d, h, env, sols) && k < |sols|
    ensures KeyOf(d, env, sols[k]) !in h.store.usedProofs + Keys(d, env, sols, k)
  {
    hide Reachable, VerifiedFor, KeyOf, TellsApart;
    forall i | 0 <= i < k ensures KeyOf(d, env, sols[i]) != KeyOf(d, env, sols[k]) {
      KeysDiffer(d, env, sols[i], sols[k]);
    }
  }

  /** The state is one in which the rule lets this call commit. */
  ghost predicate Open(d: Deployment, h: History, env: Env, nonce: uint256) {
    && h.store.genesisComplete && |h.mints| != LAST_MINT && CountBlock(h.mints, env.number) != MAX_MINTS_PER_BLOCK
    && Work(d, Challenge(d, env.sender, Epoch(env.number)), nonce) < h.store.currentDifficulty
    && ProofKey(d, env.sender, nonce, Epoch(env.number)) !in h.store.usedProofs
    && (|h.mints| + 1) % ADJUSTMENT_INTERVAL != 0
  }

  lemma OpenMines(d: Deployment, h: History, env: Env, nonce: uint256)
    requires Reachable(d, h) && env.sender != d.self && h.number <= env.number && env.value == 0
    requires Open(d, h, env, nonce)
    ensures Execute(d, h.store, env, MineCall(nonce)).Committed?
    ensures Step(d, h, Tx(env, MineCall(nonce))).mints
      == h.mints + [Mint(env.sender, nonce, Epoch(env.number), env.number, RewardOfMint(|h.mints| + 1))]
  {
    hide Reachable, CountBlock, Work, Challenge, Epoch, ProofKey, Execute, Step, RewardOfMint, LAST_MINT, TWO256,
      TARGET_WINDOW;
    NoRetarget(d, h);
    MineInEveryRun(d, h, env, nonce);
  }

  /** What an open call leaves of the difficulty, and which proof it uses. */
  lemma OpenEffect(d: Deployment, h: History, env: Env, nonce: uint256)
    requires Reachable(d, h) && env.sender != d.self && h.number <= env.number && env.value == 0
    requires Open(d, h, env, nonce)
    ensures var h' := Step(d, h, Tx(env, MineCall(nonce)));
      && Reachable(d, h') && h'.number == env.number && h'.store.genesisComplete
      && h'.store.usedProofs == h.store.usedProofs + {ProofKey(d, env.sender, nonce, Epoch(env.number))}
      && h'.store.currentDifficulty == h.store.currentDifficulty
      && h'.store.lastAdjustmentMint == h.store.lastAdjustmentMint
      && h'.store.lastAdjustmentBlock == h.store.lastAdjustmentBlock
  {
    hide Open, Reachable, CountBlock, Work, Challenge, Epoch, ProofKey, Execute, Step, RewardOfMint, Mine,
      PaymentFacts, NextDifficulty, ADJUSTMENT_INTERVAL;
    var tx := Tx(env, MineCall(nonce));
    OpenMines(d, h, env, nonce);
    ReachableStep(d, h, tx);
    MiningStep(d, h, tx);
    OpenKeepsDifficulty(d, h, env, nonce);
  }

  lemma OpenKeepsDifficulty(d: Deployment, h: History, env: Env, nonce: uint256)
    requires Reachable(d, h) && Open(d, h, env, nonce)
    ensures h.store.totalMints + 1 - h.store.lastAdjustmentMint < ADJUSTMENT_INTERVAL && h.store.genesisComplete
  {
    hide Reachable, CountBlock, Work, Challenge, Epoch, ProofKey;
    NoRetarget(d, h);
  }

  lemma NoRetarget(d: Deployment, h: History)
    requires Reachable(d, h)
    ensures h.store.totalMints + 1 - h.store.lastAdjustmentMint >= ADJUSTMENT_INTERVAL
            <==> (|h.mints| + 1) % ADJUSTMENT_INTERVAL == 0
  {
    ReachableSound(d, h);
    IntervalEnds(h.store.totalMints, h.store.lastAdjustmentMint);
    hide Reachable, OnSchedule, RewardsCovered, Windowed, CountBlock, Total;
  }

  lemma ReadyAt(d: Deployment, h: History, env: Env, sols: seq<Solution>, k: nat)
    requires Ready(d, h, env, sols) && k < |sols|
    ensures env.sender != d.self && env.value == 0 && |h.mints| + |sols| <= LAST_MINT
    ensures VerifiedFor(d, env.sender, env.number, sols[k]) && sols[k].difficulty <= h.store.currentDifficulty
    ensures |h.mints| % ADJUSTMENT_INTERVAL + Min(|sols|, Room(h, env)) < ADJUSTMENT_INTERVAL
  {
    hide Reachable, VerifiedFor, TellsApart, KeyOf;
  }

  lemma NextOpen(d: Deployment, h: History, env: Env, sols: seq<Solution>, k: nat, h': History)
    requires Ready(d, h, env, sols) && k < Min(|sols|, Room(h, env))
    requires Progressed(d, h, env, sols, k, h')
    ensures Open(d, h', env, sols[k].nonce)
  {
    hide Ready, VerifiedFor, Reachable, PaidMints, Keys, CountBlock, Work, Challenge, Epoch, ProofKey;
    ReadyAt(d, h, env, sols, k);
    PaidCounted(h, env, sols, k);
    UnusedYet(d, h, env, sols, k);
    VerifiedWorks(d, env, sols[k], h.store.currentDifficulty);
    NoBoundary(|h.mints|, k);
    hide ADJUSTMENT_INTERVAL, LAST_MINT;
  }

  lemma {:induction false} PaidNext(h: History, env: Env, sols: seq<Solution>, k: nat)
    requires k < |sols|
    ensures |PaidMints(h, env, sols, k)| == k
    ensures var mints := h.mints + PaidMints(h, env, sols, k);
      mints + [Mint(env.sender, sols[k].nonce, Epoch(env.number), env.number, RewardOfMint(|mints| + 1))]
      == h.mints + PaidMints(h, env, sols, k + 1)
  {
    PaidCounted(h, env, sols, k);
    hide Epoch, RewardOfMint, CountBlock;
  }

  lemma NextMint(d: Deployment, h: History, env: Env, sols: seq<Solution>, k: nat, h': History)
    requires Ready(d, h, env, sols) && k < Min(|sols|, Room(h, env))
    requires Progressed(d, h, env, sols, k, h')
    ensures Execute(d, h'.store, env, MineCall(sols[k].nonce)).Committed?
    ensures Step(d, h', MineTx(env, sols[k])).mints == h.mints + PaidMints(h, env, sols, k + 1)
  {
    hide *;
    MinBelow(|sols|, Room(h, env), k);
    ReadyAt(d, h, env, sols, k);
    ProgressedMeans(d, h, env, sols, k, h');
    NextOpen(d, h, env, sols, k, h');
    PaidNext(h, env, sols, k);
    OpenMines(d, h', env, sols[k].nonce);
    MineTxIs(env, sols[k]);
  }

  lemma MinBelow(a: nat, b: nat, k: nat)
    ensures k < Min(a, b) <==> k < a && k < b
  {
  }

  lemma MineTxIs(env: Env, sol: Solution)
    ensures MineTx(env, sol) == Tx(env, MineCall(sol.nonce))
  {
  }

  lemma ProgressedMeans(d: Deployment, h: History, env: Env, sols: seq<Solution>, k: nat, h': History)
    requires k <= |sols|
    ensures Progressed(d, h, env, sols, k, h') <==>
      && Reachable(d, h') && h'.number <= env.number && h'.store.genesisComplete
      && h'.mints == h.mints + PaidMints(h, env, sols, k)
      && h'.store.usedProofs == h.store.usedProofs + Keys(d, env, sols, k)
      && h'.store.currentDifficulty == h.store.currentDifficulty
      && h'.store.lastAdjustmentMint == h.store.lastAdjustmentMint
      && h'.store.lastAdjustmentBlock == h.store.lastAdjustmentBlock
  {
    hide Reachable, PaidMints, Keys;
  }

  lemma NextProgressed(d: Deployment, h: History, env: Env, sols: seq<Solution>, k: nat, h': History)
    requires Ready(d, h, env, sols) && k < Min(|sols|, Room(h, env))
    requires Progressed(d, h, env, sols, k, h')
    ensures Progressed(d, h, env, sols, k + 1, Step(d, h', MineTx(env, sols[k])))
  {
    hide *;
    MinBelow(|sols|, Room(h, env), k);
    ReadyAt(d, h, env, sols, k);
    ProgressedMeans(d, h, env, sols, k, h');
    NextOpen(d, h, env, sols, k, h');
    NextKey(d, env, sols, k);
    KeyIs(d, env, sols[k]);
    NextMint(d, h, env, sols, k, h');
    OpenEffect(d, h', env, sols[k].nonce);
    MineTxIs(env, sols[k]);
    var h'' := Step(d, h', MineTx(env, sols[k]));
    assert h''.store.usedProofs == h.store.usedProofs + Keys(d, env, sols, k + 1);
    ProgressedMeans(d, h, env, sols, k + 1, h'');
  }

  lemma KeyIs(d: Deployment, env: Env, sol: Solution)
    ensures KeyOf(d, env, sol) == ProofKey(d, env.sender, sol.nonce, Epoch(env.number))
  {
  }

  lemma CapReached(d: Deployment, h: History, env: Env, sols: seq<Solution>, nonce: uint256, h': History)
    requires Ready(d, h, env, sols) && Room(h, env) <= |sols| && |h.mints| + Room(h, env) < LAST_MINT
    requires Progressed(d, h, env, sols, Room(h, env), h')
    ensures Execute(d, h'.store, env, MineCall(nonce)) == Reverted(BlockCapReached)
  {
    hide VerifiedFor, Reachable, PaidMints, Keys, CountBlock, Execute, Work, Challenge, Epoch, ProofKey, Step,
      TellsApart, ADJUSTMENT_INTERVAL, LAST_MINT, HaltedAt, KeyOf;
    PaidCounted(h, env, sols, Room(h, env));
    MineInEveryRun(d, h', env, nonce);
    BlockCapHolds(d, h, env);
  }

  /** A nonce that was paid earlier in the bundle, while the block still has room. */
  lemma RepeatReverts(d: Deployment, h: History, env: Env, sols: seq<Solution>, k: nat, j: nat, h': History)
    requires Ready(d, h, env, sols) && j < k <= |sols| && k < Room(h, env) && |h.mints| + k < LAST_MINT
    requires Progressed(d, h, env, sols, k, h')
    ensures Execute(d, h'.store, env, MineCall(sols[j].nonce)) == Reverted(ProofAlreadyUsed)
  {
    hide *;
    ReadyAt(d, h, env, sols, j);
    ReadyState(d, h, env, sols);
    ProgressedMeans(d, h, env, sols, k, h');
    PaidCounted(h, env, sols, k);
    KeyAmong(d, env, sols, k, j);
    KeyIs(d, env, sols[j]);
    VerifiedWorks(d, env, sols[j], h.store.currentDifficulty);
    RoomIs(d, h, env);
    AdmissibleMine(d, h', env, sols[j].nonce);
    MineInEveryRun(d, h', env, sols[j].nonce);
    RuleForUsed(d, h', env, sols[j].nonce, Execute(d, h'.store, env, MineCall(sols[j].nonce)));
  }

  lemma ReadyState(d: Deployment, h: History, env: Env, sols: seq<Solution>)
    requires Ready(d, h, env, sols)
    ensures Reachable(d, h) && h.store.genesisComplete && h.number <= env.number
            && env.sender != d.self && env.value == 0
  {
    hide Reachable, VerifiedFor, TellsApart, KeyOf;
  }

  lemma KeyAmong(d: Deployment, env: Env, sols: seq<Solution>, k: nat, j: nat)
    requires j < k <= |sols|
    ensures KeyOf(d, env, sols[j]) in Keys(d, env, sols, k)
  {
  }

  lemma RoomIs(d: Deployment, h: History, env: Env)
    requires Reachable(d, h)
    ensures CountBlock(h.mints, env.number) + Room(h, env) == MAX_MINTS_PER_BLOCK
  {
    hide Reachable, CountBlock;
    BlockCapHolds(d, h, env);
  }

  lemma AdmissibleMine(d: Deployment, h: History, env: Env, nonce: uint256)
    requires env.sender != d.self && h.number <= env.number
    ensures Admissible(d, h, Tx(env, MineCall(nonce)))
  {
  }

  lemma RuleForUsed(d: Deployment, h: History, env: Env, nonce: uint256, r: Outcome)
    requires OutcomeRule(d, h, env, nonce, r) && h.store.genesisComplete
    requires |h.mints| < LAST_MINT && CountBlock(h.mints, env.number) < MAX_MINTS_PER_BLOCK
    requires Work(d, Challenge(d, env.sender, Epoch(env.number)), nonce) < h.store.currentDifficulty
    requires ProofKey(d, env.sender, nonce, Epoch(env.number)) in h.store.usedProofs
    ensures r == Reverted(ProofAlreadyUsed)
  {
    hide CountBlock, ProofKey, Epoch, HaltedAt, Work, Challenge;
  }

  lemma BlockCapHolds(d: Deployment, h: History, env: Env)
    requires Reachable(d, h)
    ensures CountBlock(h.mints, env.number) <= MAX_MINTS_PER_BLOCK
  {
    ReachableSound(d, h);
    assert Get(h.store.mintsInBlock, env.number) == CountBlock(h.mints, env.number);
    hide CountBlock, OnSchedule, RewardsCovered, OnInterval, WindowFits, Get;
  }

  lemma RevertedStep(d: Deployment, h: History, env: Env, sols: seq<Solution>, k: nat, h': History, tx: Tx)
    requires k <= |sols| && Progressed(d, h, env, sols, k, h') && env.sender != d.self && tx.env == env
    requires Execute(d, h'.store, tx.env, tx.call).Reverted?
    ensures Progressed(d, h, env, sols, k, Step(d, h', tx))
  {
    hide Reachable, PaidMints, Keys, Execute;
    ReachableStep(d, h', tx);
  }

  lemma NothingExecuted(d: Deployment, h: History, env: Env, sols: seq<Solution>)
    requires Ready(d, h, env, sols)
    ensures Progressed(d, h, env, sols, 0, h)
  {
    hide Reachable, VerifiedFor, TellsApart;
    assert h.mints + PaidMints(h, env, sols, 0) == h.mints;
    assert h.store.usedProofs + Keys(d, env, sols, 0) == h.store.usedProofs;
  }

  // ---------- first occurrences

  /** No earlier solution of the bundle has this nonce. */
  predicate IsFirst(sols: seq<Solution>, i: nat)
    requires i < |sols|
  {
    forall j | 0 <= j < i :: sols[j].nonce != sols[i].nonce
  }

  /** The first occurrences among the first n solutions, in order. */
  function Firsts(sols: seq<Solution>, n: nat): (u: seq<Solution>)
    requires n <= |sols|
    ensures |u| <= n
  {
    if n == 0 then []
    else Firsts(sols, n - 1) + if IsFirst(sols, n - 1) then [sols[n - 1]] else []
  }

  lemma {:induction false} FirstsGrow(sols: seq<Solution>, n: nat, m: nat)
    requires n <= m <= |sols|
    ensures Firsts(sols, n) <= Firsts(sols, m)
  {
    hide IsFirst;
    if n < m { FirstsGrow(sols, n, m - 1); }
  }

  lemma {:induction false} FirstsAreAmong(sols: seq<Solution>, n: nat, p: nat) returns (i: nat)
    requires n <= |sols| && p < |Firsts(sols, n)|
    ensures i < n && IsFirst(sols, i) && Firsts(sols, n)[p] == sols[i] && |Firsts(sols, i)| == p
  {
    hide IsFirst;
    if p < |Firsts(sols, n - 1)| {
      i := FirstsAreAmong(sols, n - 1, p);
    } else {
      i := n - 1;
    }
  }

  lemma {:induction false} EveryNonceAmong(sols: seq<Solution>, n: nat, i: nat) returns (p: nat)
    requires i < n <= |sols|
    ensures p < |Firsts(sols, n)| && Firsts(sols, n)[p].nonce == sols[i].nonce
  {
    if i < n - 1 {
      p := EveryNonceAmong(sols, n - 1, i);
    } else if IsFirst(sols, i) {
      p := |Firsts(sols, n - 1)|;
    } else {
      var j :| 0 <= j < i && sols[j].nonce == sols[i].nonce;
      p := EveryNonceAmong(sols, n - 1, j);
    }
  }

  lemma FirstsDiffer(sols: seq<Solution>, n: nat, p: nat, q: nat)
    requires n <= |sols| && p < q < |Firsts(sols, n)|
    ensures Firsts(sols, n)[p].nonce != Firsts(sols, n)[q].nonce
  {
    var i := FirstsAreAmong(sols, n, p);
    var j := FirstsAreAmong(sols, n, q);
    hide Firsts;
    if j <= i { FirstsGrow(sols, j, i); }
  }

  lemma {:induction false} AllFirst(sols: seq<Solution>, n: nat)
    requires n <= |sols| && forall i, j | 0 <= i < j < |sols| :: sols[i].nonce != sols[j].nonce
    ensures Firsts(sols, n) == sols[..n]
  {
    if n > 0 { AllFirst(sols, n - 1); }
  }

  // ---------- any bundle

  /** What is asked of the chain before a bundle goes into block `env.number`: genesis over, supply for all of it, an
      on-chain difficulty no harder than verified, proofs unused and told apart, and no retarget among the paid ones. */
  ghost predicate ChainReady(d: Deployment, h: History, env: Env, sols: seq<Solution>) {
    && Reachable(d, h) && env.sender != d.self && h.number <= env.number && env.value == 0
    && h.store.genesisComplete && |h.mints| + |sols| <= LAST_MINT
    && (forall i | 0 <= i < |sols| ::
          sols[i].difficulty <= h.store.currentDifficulty && KeyOf(d, env, sols[i]) !in h.store.usedProofs)
    && (forall i, j | 0 <= i < j < |sols| :: TellsApart(d, env, sols[i], sols[j]))
    && |h.mints| % ADJUSTMENT_INTERVAL + Min(|Firsts(sols, |sols|)|, Room(h, env)) < ADJUSTMENT_INTERVAL
  }

  ghost predicate AllVerified(d: Deployment, env: Env, sols: seq<Solution>) {
    forall i | 0 <= i < |sols| :: VerifiedFor(d, env.sender, env.number, sols[i])
  }

  lemma FirstsReady(d: Deployment, h: History, env: Env, sols: seq<Solution>)
    requires ChainReady(d, h, env, sols) && AllVerified(d, env, sols)
    ensures Ready(d, h, env, Firsts(sols, |sols|))
  {
    hide Reachable, VerifiedFor, TellsApart, KeyOf, Firsts, IsFirst, Room, Min, ADJUSTMENT_INTERVAL, LAST_MINT;
    var u := Firsts(sols, |sols|);
    forall p | 0 <= p < |u|
      ensures u[p].difficulty <= h.store.currentDifficulty && KeyOf(d, env, u[p]) !in h.store.usedProofs
              && VerifiedFor(d, env.sender, env.number, u[p])
    {
      var i := FirstsAreAmong(sols, |sols|, p);
    }
    forall p, q | 0 <= p < q < |u| ensures u[p].nonce != u[q].nonce && TellsApart(d, env, u[p], u[q]) {
      FirstsApart(d, h, env, sols, p, q);
    }
  }

  lemma FirstsApart(d: Deployment, h: History, env: Env, sols: seq<Solution>, p: nat, q: nat)
    requires ChainReady(d, h, env, sols) && p < q < |Firsts(sols, |sols|)|
    ensures Firsts(sols, |sols|)[p].nonce != Firsts(sols, |sols|)[q].nonce
    ensures TellsApart(d, env, Firsts(sols, |sols|)[p], Firsts(sols, |sols|)[q])
  {
    hide Reachable, TellsApart, KeyOf, Firsts, IsFirst, Room, Min, ADJUSTMENT_INTERVAL, LAST_MINT;
    FirstsDiffer(sols, |sols|, p, q);
    var i := FirstsAreAmong(sols, |sols|, p);
    var j := FirstsAreAmong(sols, |sols|, q);
    ApartEitherWay(d, env, sols, i, j);
  }

  lemma ApartEitherWay(d: Deployment, env: Env, sols: seq<Solution>, i: nat, j: nat)
    requires i < |sols| && j < |sols| && forall i, j | 0 <= i < j < |sols| :: TellsApart(d, env, sols[i], sols[j])
    ensures TellsApart(d, env, sols[i], sols[j])
  {
    if j < i { assert TellsApart(d, env, sols[j], sols[i]); }
  }

  /** How many of the first n transactions are paid. */
  function PaidOf(h: History, env: Env, sols: seq<Solution>, n: nat): nat
    requires n <= |sols|
  {
    Min(|Firsts(sols, n)|, Room(h, env))
  }

  /** What the i-th transaction of a bundle comes to: while the block has room, a nonce is paid the first time and used
      afterwards; once the block is full, every call reverts for that reason. */
  ghost predicate BundleRule(d: Deployment, h: History, env: Env, sols: seq<Solution>, i: nat, r: Outcome)
    requires i < |sols|
  {
    if |Firsts(sols, i)| >= Room(h, env) then r == Reverted(BlockCapReached)
    else if IsFirst(sols, i) then r.Committed?
    else r == Reverted(ProofAlreadyUsed)
  }

  /** One more transaction of the bundle, from a state in which the rule has held so far. */
  lemma NextOfBundle(d: Deployment, h: History, env: Env, sols: seq<Solution>, i: nat, h': History)
    requires i < |sols| && |h.mints| + |sols| <= LAST_MINT && Ready(d, h, env, Firsts(sols, |sols|))
    requires Firsts(sols, i) <= Firsts(sols, |sols|) && Firsts(sols, i + 1) <= Firsts(sols, |sols|)
    requires Progressed(d, h, env, Firsts(sols, |sols|), PaidOf(h, env, sols, i), h')
    ensures BundleRule(d, h, env, sols, i, Execute(d, h'.store, env, MineCall(sols[i].nonce)))
    ensures Progressed(d, h, env, Firsts(sols, |sols|), PaidOf(h, env, sols, i + 1), Step(d, h', MineTx(env, sols[i])))
  {
    hide Ready, Progressed, Execute, Step, Room, LAST_MINT, IsFirst;
    var u, k := Firsts(sols, |sols|), |Firsts(sols, i)|;
    ReadyState(d, h, env, u);
    if k >= Room(h, env) {
      CapReached(d, h, env, u, sols[i].nonce, h');
      RevertedStep(d, h, env, u, Room(h, env), h', MineTx(env, sols[i]));
    } else if IsFirst(sols, i) {
      assert u[k] == sols[i] by { assert Firsts(sols, i + 1)[k] == sols[i]; }
      NextMint(d, h, env, u, k, h');
      NextProgressed(d, h, env, u, k, h');
    } else {
      var p := NotFirst(sols, i);
      assert u[p] == Firsts(sols, i)[p];
      RepeatReverts(d, h, env, u, k, p, h');
      RevertedStep(d, h, env, u, k, h', MineTx(env, sols[i]));
    }
  }

  lemma NotFirst(sols: seq<Solution>, i: nat) returns (p: nat)
    requires i < |sols| && !IsFirst(sols, i)
    ensures p < |Firsts(sols, i)| && Firsts(sols, i)[p].nonce == sols[i].nonce
  {
    hide Firsts;
    var j :| 0 <= j < i && sols[j].nonce == sols[i].nonce;
    p := EveryNonceAmong(sols, i, j);
  }

  lemma {:induction false} PrefixExecuted(d: Deployment, h: History, env: Env, sols: seq<Solution>, n: nat)
    requires n <= |sols| && |h.mints| + |sols| <= LAST_MINT && Ready(d, h, env, Firsts(sols, |sols|))
    ensures |Firsts(sols, n)| <= |Firsts(sols, |sols|)|
    ensures Progressed(d, h, env, Firsts(sols, |sols|), PaidOf(h, env, sols, n), Executed(d, h, env, sols, n))
  {
    hide Step, Execute, Progressed, Ready, LAST_MINT;
    FirstsGrow(sols, n, |sols|);
    if n == 0 {
      NothingExecuted(d, h, env, Firsts(sols, |sols|));
    } else {
      PrefixExecuted(d, h, env, sols, n - 1);
      FirstsGrow(sols, n - 1, |sols|);
      NextOfBundle(d, h, env, sols, n - 1, Executed(d, h, env, sols, n - 1));
    }
  }

  /** Every transaction of the bundle ends by the rule, and what is recorded is the first occurrences, as many as the
      block has room for, each paid its reward of the schedule. */
  ghost predicate FillsBlock(d: Deployment, h: History, env: Env, sols: seq<Solution>) {
    && (forall i | 0 <= i < |sols| :: BundleRule(d, h, env, sols, i, OutcomeOf(d, h, env, sols, i)))
    && Executed(d, h, env, sols, |sols|).mints
       == h.mints + PaidMints(h, env, Firsts(sols, |sols|), PaidOf(h, env, sols, |sols|))
  }

  lemma OutcomeAt(d: Deployment, h: History, env: Env, sols: seq<Solution>, i: nat)
    requires i < |sols| && |h.mints| + |sols| <= LAST_MINT && Ready(d, h, env, Firsts(sols, |sols|))
    ensures BundleRule(d, h, env, sols, i, OutcomeOf(d, h, env, sols, i))
  {
    hide Ready, Progressed, Executed, Execute, BundleRule, Firsts, LAST_MINT;
    PrefixExecuted(d, h, env, sols, i);
    FirstsGrow(sols, i, |sols|);
    FirstsGrow(sols, i + 1, |sols|);
    NextOfBundle(d, h, env, sols, i, Executed(d, h, env, sols, i));
  }

  lemma SupplyForAll(d: Deployment, h: History, env: Env, sols: seq<Solution>)
    requires ChainReady(d, h, env, sols)
    ensures |h.mints| + |sols| <= LAST_MINT
  {
    hide Reachable, TellsApart, KeyOf, LAST_MINT;
  }

  /** A bundle of verified solutions, repeated nonces or not, executed in one block that is ready for it. */
  lemma BundleFillsBlock(d: Deployment, h: History, env: Env, sols: seq<Solution>)
    requires ChainReady(d, h, env, sols) && AllVerified(d, env, sols)
    ensures FillsBlock(d, h, env, sols)
  {
    hide ChainReady, Ready, OutcomeOf, Executed, Firsts, AllVerified, BundleRule, PaidOf, PaidMints;
    SupplyForAll(d, h, env, sols);
    FirstsReady(d, h, env, sols);
    forall i | 0 <= i < |sols| ensures BundleRule(d, h, env, sols, i, OutcomeOf(d, h, env, sols, i)) {
      OutcomeAt(d, h, env, sols, i);
    }
    AllExecuted(d, h, env, sols);
  }

  lemma AllExecuted(d: Deployment, h: History, env: Env, sols: seq<Solution>)
    requires |h.mints| + |sols| <= LAST_MINT && Ready(d, h, env, Firsts(sols, |sols|))
    ensures Executed(d, h, env, sols, |sols|).mints
            == h.mints + PaidMints(h, env, Firsts(sols, |sols|), PaidOf(h, env, sols, |sols|))
  {
    hide Ready, Executed, PaidMints, Keys, Reachable, Firsts, LAST_MINT;
    PrefixExecuted(d, h, env, sols, |sols|);
  }

  /** With different nonces: exactly as many transactions as the block has room for succeed, from the front, and every
      later one reverts with BlockCapReached. */
  lemma DistinctFillsBlock(d: Deployment, h: History, env: Env, sols: seq<Solution>)
    requires ChainReady(d, h, env, sols) && AllVerified(d, env, sols)
    requires forall i, j | 0 <= i < j < |sols| :: sols[i].nonce != sols[j].nonce
    ensures forall i | 0 <= i < |sols| ::
      if i < Min(|sols|, Room(h, env)) then OutcomeOf(d, h, env, sols, i).Committed?
      else OutcomeOf(d, h, env, sols, i) == Reverted(BlockCapReached)
    ensures Executed(d, h, env, sols, |sols|).mints == h.mints + PaidMints(h, env, sols, Min(|sols|, Room(h, env)))
  {
    hide ChainReady, OutcomeOf, Executed, Firsts, AllVerified, PaidMints, Room;
    BundleFillsBlock(d, h, env, sols);
    AllFirst(sols, |sols|);
    assert sols[..|sols|] == sols;
    forall i | 0 <= i < |sols|
      ensures if i < Min(|sols|, Room(h, env)) then OutcomeOf(d, h, env, sols, i).Committed?
              else OutcomeOf(d, h, env, sols, i) == Reverted(BlockCapReached)
    {
      AllFirst(sols, i);
      assert BundleRule(d, h, env, sols, i, OutcomeOf(d, h, env, sols, i));
    }
  }

  lemma UsedStays(d: Deployment, h: History, tx: Tx, key: bytes32)
    requires key in h.store.usedProofs
    ensures key in Step(d, h, tx).store.usedProofs
  {
    hide Execute, ChangeOf, Step, Moved;
    match ChangeOf(d, h, tx)
    case Nothing => NothingChanges(d, h, tx);
    case Bought => BoughtStep(d, h, tx);
    case Seeded => SeededStep(d, h, tx);
    case Mining =>
      MiningStep(d, h, tx);
      hide Mine, PaymentFacts, RetargetFacts, ProofKey, Epoch;
    case Sent => SentStep(d, h, tx);
  }

  lemma {:induction false} UsedForever(d: Deployment, h: History, txs: seq<Tx>, key: bytes32)
    requires key in h.store.usedProofs
    ensures key in Continue(d, h, txs).store.usedProofs
    decreases |txs|
  {
    hide Step;
    if txs != [] {
      UsedStays(d, h, txs[0], key);
      UsedForever(d, Step(d, h, txs[0]), txs[1..], key);
    }
  }

  /** A nonce that was paid is never paid again to the same miner in the same epoch: whatever comes in between. */
  lemma DuplicateNeverPaid(d: Deployment, h: History, env: Env, txs: seq<Tx>, later: Env, nonce: uint256)
    requires Execute(d, h.store, env, MineCall(nonce)).Committed?
    requires later.sender == env.sender && Epoch(later.number) == Epoch(env.number)
    ensures var h' := Continue(d, Step(d, h, Tx(env, MineCall(nonce))), txs);
      Execute(d, h'.store, later, MineCall(nonce)).Reverted?
  {
    hide Execute, Step, Mine, RetargetFacts, PaymentFacts, ProofKey, Epoch, Continue;
    MiningStep(d, h, Tx(env, MineCall(nonce)));
    var paid := Step(d, h, Tx(env, MineCall(nonce)));
    UsedForever(d, paid, txs, ProofKey(d, env.sender, nonce, Epoch(env.number)));
    var h' := Continue(d, paid, txs);
    if Execute(d, h'.store, later, MineCall(nonce)).Committed? {
      MiningStep(d, h', Tx(later, MineCall(nonce)));
      assert false;
    }
  }
}
