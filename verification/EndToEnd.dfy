/** From the GPU to the chain: a nonce the kernel finds is a proof `mine` accepts, and what the pipeline flushes is
    what the contract pays. */
module EndToEnd {
  import opened Words
  import Keccak
  import opened ProofOfWork
  import opened SearchKernel
  import opened HashContract
  import opened Encodings
  import opened ContractRuns
  import opened Emission
  import opened Retargeting
  import opened Ledger
  import opened MineOutcome
  import opened BundleExecution
  import Pipeline
  import PipelineRuns

  /** The chain's hash function is Keccak-256. */
  ghost predicate OnKeccak(d: Deployment) {
    forall p: seq<byte> :: d.keccak(p) == Keccak.Keccak256(p)
  }

  /** compute_challenge of the client. */
  function ComputeChallenge(chainId: uint256, contract: address, miner: address, epoch: nat): bytes32 {
    Keccak.Keccak256(AbiEncode([chainId, contract, miner, epoch]))
  }

  lemma ClientChallenge(d: Deployment, miner: address, epoch: nat)
    requires OnKeccak(d)
    ensures ComputeChallenge(d.chainId, d.self, miner, epoch) == Challenge(d, miner, epoch)
  {
    hide Keccak.Keccak256, ChallengePreimage, AbiEncode;
    ContractEncodings(d.chainId, d.self, miner, 0, epoch);
  }

  /** proof_key of the client. */
  function ClientProofKey(miner: address, nonce: uint256, epoch: nat): bytes32 {
    Keccak.Keccak256(AbiEncode([miner, nonce, epoch]))
  }

  lemma ClientKey(d: Deployment, miner: address, nonce: uint256, epoch: nat)
    requires OnKeccak(d)
    ensures ClientProofKey(miner, nonce, epoch) == ProofKey(d, miner, nonce, epoch)
  {
    hide Keccak.Keccak256, ProofPreimage, AbiEncode;
    ContractEncodings(0, 0, miner, nonce, epoch);
  }

  /** The client's test of a nonce is the contract's. */
  lemma ClientTest(d: Deployment, challenge: bytes32, nonce: uint256, difficulty: nat)
    requires OnKeccak(d)
    ensures Work(d, challenge, nonce) == BigEndian(PowDigest(challenge, nonce))
    ensures Work(d, challenge, nonce) < difficulty <==> IsValidNonce(challenge, nonce, difficulty)
  {
    hide Keccak.Keccak256, ToBigEndian, BigEndian;
  }

  /** The client's test decides the contract's: where nothing else stands in the way, the nonce of a work item is paid
      exactly when it is valid for the miner's challenge and the current difficulty. */
  lemma HitIsPaid(d: Deployment, h: History, env: Env, base: int, gid: nat)
    requires OnKeccak(d) && Reachable(d, h) && env.sender != d.self && h.number <= env.number && env.value == 0
    requires h.store.genesisComplete && |h.mints| < LAST_MINT && CountBlock(h.mints, env.number) < MAX_MINTS_PER_BLOCK
    requires ProofKey(d, env.sender, ItemNonce(base, gid), Epoch(env.number)) !in h.store.usedProofs
    requires !HaltedAt(h.store, env.number)
    ensures Execute(d, h.store, env, MineCall(ItemNonce(base, gid))).Committed?
            <==> IsValidNonce(ComputeChallenge(d.chainId, d.self, env.sender, Epoch(env.number)), ItemNonce(base, gid),
                              h.store.currentDifficulty)
  {
    hide *;
    var nonce := ItemNonce(base, gid);
    AdmissibleMine(d, h, env, nonce);
    MineInEveryRun(d, h, env, nonce);
    RuleDecides(d, h, env, nonce, Execute(d, h.store, env, MineCall(nonce)));
    ClientChallenge(d, env.sender, Epoch(env.number));
    ClientTest(d, Challenge(d, env.sender, Epoch(env.number)), nonce, h.store.currentDifficulty);
  }

  lemma RuleDecides(d: Deployment, h: History, env: Env, nonce: uint256, r: Outcome)
    requires OutcomeRule(d, h, env, nonce, r)
    requires h.store.genesisComplete && |h.mints| < LAST_MINT && CountBlock(h.mints, env.number) < MAX_MINTS_PER_BLOCK
    requires ProofKey(d, env.sender, nonce, Epoch(env.number)) !in h.store.usedProofs && !HaltedAt(h.store, env.number)
    ensures r.Committed? <==> Work(d, Challenge(d, env.sender, Epoch(env.number)), nonce) < h.store.currentDifficulty
  {
    hide CountBlock, ProofKey, Epoch, HaltedAt, Work, Challenge;
  }

  lemma NextFits(current: nat, taken: nat)
    requires NextDifficulty(current, taken).Retargeted?
    ensures NextDifficulty(current, taken).next < TWO256
  {
  }

  lemma DifficultyFitsKept(d: Deployment, h: History, tx: Tx)
    requires h.store.currentDifficulty < TWO256
    ensures Step(d, h, tx).store.currentDifficulty < TWO256
  {
    hide Execute, ChangeOf, Step, Moved, NextDifficulty, TWO256;
    match ChangeOf(d, h, tx)
    case Nothing => NothingChanges(d, h, tx);
    case Bought => BoughtStep(d, h, tx);
    case Seeded =>
      SeededStep(d, h, tx);
      OpeningFits();
    case Mining =>
      MiningStep(d, h, tx);
      hide Mine, PaymentFacts, CountFacts;
      if h.store.lastAdjustmentBlock <= tx.env.number
         && NextDifficulty(h.store.currentDifficulty, tx.env.number - h.store.lastAdjustmentBlock).Retargeted? {
        NextFits(h.store.currentDifficulty, tx.env.number - h.store.lastAdjustmentBlock);
      }
    case Sent => SentStep(d, h, tx);
  }

  lemma OpeningFits()
    ensures 0 < INITIAL_DIFFICULTY < TWO256
  {
  }

  /** In every run the difficulty is a 256-bit target. */
  lemma {:induction false} DifficultyFits(d: Deployment, txs: seq<Tx>)
    ensures After(d, txs).store.currentDifficulty < TWO256
  {
    hide Step, TWO256;
    if txs == [] {
      OpeningFits();
    } else {
      DifficultyFits(d, txs[..|txs| - 1]);
      DifficultyFitsKept(d, After(d, txs[..|txs| - 1]), txs[|txs| - 1]);
    }
  }

  lemma ReachableFits(d: Deployment, h: History)
    requires Reachable(d, h)
    ensures h.store.currentDifficulty < TWO256
  {
    hide After, Admitted, TWO256;
    var txs :| Admitted(d, txs) && After(d, txs) == h;
    DifficultyFits(d, txs);
  }

  /** The work item itself, searching under the miner's challenge with the current difficulty as its target: where
      nothing else stands in the way, it reports a hit exactly when `mine` would commit with its nonce. */
  method SearchForMine(d: Deployment, h: History, env: Env, base: int, nTotal: nat, gid: nat)
    returns (hit: bool, nonce: uint256)
    requires gid < TWO32 && gid < nTotal
    requires OnKeccak(d) && Reachable(d, h) && env.sender != d.self && h.number <= env.number && env.value == 0
    requires h.store.genesisComplete && |h.mints| < LAST_MINT && CountBlock(h.mints, env.number) < MAX_MINTS_PER_BLOCK
    requires ProofKey(d, env.sender, ItemNonce(base, gid), Epoch(env.number)) !in h.store.usedProofs
    requires !HaltedAt(h.store, env.number)
    ensures hit <==> Execute(d, h.store, env, MineCall(ItemNonce(base, gid))).Committed?
    ensures hit ==> nonce == ItemNonce(base, gid)
  {
    hide *;
    ReachableFits(d, h);
    hit, nonce := SearchItem(Challenge(d, env.sender, Epoch(env.number)), h.store.currentDifficulty, base, nTotal, gid);
    HitIsPaid(d, h, env, base, gid);
    ClientChallenge(d, env.sender, Epoch(env.number));
  }

  // ---------- what the pipeline flushes

  /** The miner derives each job's challenge as compute_challenge does. */
  ghost predicate OwnChallenges(d: Deployment, miner: address, actions: seq<PipelineRuns.Action>) {
    forall i | 0 <= i < |actions| && actions[i].SeeState? ::
      actions[i].challenge == ComputeChallenge(d.chainId, d.self, miner, actions[i].epoch)
  }

  ghost predicate OwnJobs(d: Deployment, miner: address, jobs: seq<Pipeline.Job>) {
    forall i | 0 <= i < |jobs| :: jobs[i].challenge == ComputeChallenge(d.chainId, d.self, miner, jobs[i].epoch)
  }

  lemma JobsOfStep(s: PipelineRuns.State, a: PipelineRuns.Action)
    ensures var s' := PipelineRuns.Step(s, a);
      s'.jobs == s.jobs || (a.SeeState? && s'.jobs == s.jobs + [Pipeline.Job(a.challenge, a.difficulty, a.epoch)])
  {
    hide Pipeline.Drain, Pipeline.Bundle, Pipeline.Remaining, Pipeline.Fresh;
  }

  lemma {:induction false} JobsAreOwn(d: Deployment, miner: address, workers: nat, actions: seq<PipelineRuns.Action>)
    requires OwnChallenges(d, miner, actions)
    ensures OwnJobs(d, miner, PipelineRuns.After(workers, actions).jobs)
  {
    hide PipelineRuns.Step, ComputeChallenge;
    if actions != [] {
      var last := |actions| - 1;
      JobsAreOwn(d, miner, workers, actions[..last]);
      JobsOfStep(PipelineRuns.After(workers, actions[..last]), actions[last]);
    }
  }

  /** A digest of the client is the chain's. */
  lemma SameDigest(d: Deployment, challenge: bytes32, nonce: uint256)
    requires OnKeccak(d)
    ensures PowDigest(challenge, nonce) == d.keccak(WorkPreimage(challenge, nonce))
  {
    hide Keccak.Keccak256, ToBigEndian;
  }

  /** Whatever the devices report and however the threads interleave, a flushed solution is verified for the miner in
      every block of its epoch. */
  lemma FlushedIsVerifiedFor(d: Deployment, miner: address, number: uint256, workers: nat,
                             actions: seq<PipelineRuns.Action>, sol: Solution)
    requires OnKeccak(d) && OwnChallenges(d, miner, actions) && sol in PipelineRuns.After(workers, actions).flushed
    requires Epoch(number) == sol.epoch
    ensures VerifiedFor(d, miner, number, sol)
  {
    hide OnKeccak, PipelineRuns.After, OwnChallenges, ComputeChallenge, Challenge, WorkPreimage, PowDigest,
      BigEndian, Epoch, Pipeline.Subsequence;
    JobsAreOwn(d, miner, workers, actions);
    PipelineRuns.FlushedWasVerified(workers, actions, sol);
    ClientChallenge(d, miner, sol.epoch);
    SameDigest(d, sol.challenge, sol.nonce);
  }

  /** Solutions the pipeline has flushed, of the epoch of this block. */
  ghost predicate AllFlushed(workers: nat, actions: seq<PipelineRuns.Action>, number: uint256, sols: seq<Solution>) {
    forall k | 0 <= k < |sols| ::
      sols[k] in PipelineRuns.After(workers, actions).flushed && sols[k].epoch == Epoch(number)
  }

  /** Solutions the pipeline has flushed, executed as a bundle in a block of their epoch that is ready for them: the
      first occurrence of each nonce is paid while the block has room, and everything else reverts as it should. */
  lemma FlushedBundleFillsBlock(d: Deployment, h: History, env: Env, workers: nat, actions: seq<PipelineRuns.Action>,
                                sols: seq<Solution>)
    requires OnKeccak(d) && OwnChallenges(d, env.sender, actions)
    requires ChainReady(d, h, env, sols) && AllFlushed(workers, actions, env.number, sols)
    ensures FillsBlock(d, h, env, sols)
  {
    hide OnKeccak, OwnChallenges, ChainReady, FillsBlock, PipelineRuns.After, VerifiedFor, Epoch;
    forall k | 0 <= k < |sols| ensures VerifiedFor(d, env.sender, env.number, sols[k]) {
      FlushedIsVerifiedFor(d, env.sender, env.number, workers, actions, sols[k]);
    }
    BundleFillsBlock(d, h, env, sols);
  }
}
