/** Runs in which a device reports the same valid nonce again and again, and what the bundle buffer makes of it. */
module RepeatedFinds {
  import opened Words
  import opened ProofOfWork
  import opened Submission
  import opened Pipeline
  import opened PipelineRuns

  /** The solution of a nonce that is valid for the job. */
  function Solved(job: Job, nonce: uint256): Solution {
    Solution(job.challenge, nonce, job.epoch, PowDigest(job.challenge, nonce), job.difficulty)
  }

  function Copies(sol: Solution, k: nat): seq<Solution> {
    seq(k, i => sol)
  }

  /** A batch in which the nonce is found, and its way through the queue and the drain. */
  function Find(before: seq<Action>, nonce: uint256): seq<Action> {
    before + [Fetch(0)] + [FinishBatch(0, [nonce])] + [Put(0)] + [Put(0)] + [Take] + [ReadJob] + [Decide]
  }

  /** The miner and its farm get the job, and k batches find the nonce. */
  function FindRun(job: Job, nonce: uint256, k: nat): seq<Action> {
    if k == 0 then [SeeState(job.challenge, job.difficulty, job.epoch)] + [PointFarm]
    else Find(FindRun(job, nonce, k - 1), nonce)
  }

  /** On the job, nothing under way. */
  ghost predicate AtWork(s: State, job: Job, buffer: seq<Solution>) {
    && s.job == Some(job) && s.farmJob == Some(job) && |s.workers| >= 1 && s.workers[0].Fetching?
    && s.results == [] && s.drain.Waiting? && s.buffer == buffer
  }

  lemma Begun(workers: nat, job: Job)
    requires workers >= 1
    ensures AtWork(Step(Step(Start(workers), SeeState(job.challenge, job.difficulty, job.epoch)), PointFarm), job, [])
  {
    hide Flushed, Decided;
  }

  /** The nonce is in the queue and the worker is free again. */
  ghost predicate Queued(s: State, job: Job, nonce: uint256, buffer: seq<Solution>) {
    && s.job == Some(job) && s.farmJob == Some(job) && |s.workers| >= 1 && s.workers[0].Fetching?
    && s.results == [Found(nonce, job.epoch)] && s.drain.Waiting? && s.buffer == buffer
  }

  lemma BatchQueued(s: State, job: Job, nonce: uint256, buffer: seq<Solution>)
    requires AtWork(s, job, buffer)
    ensures var s' := Step(Step(s, Fetch(0)), FinishBatch(0, [nonce]));
      Queued(Step(Step(s', Put(0)), Put(0)), job, nonce, buffer)
  {
    hide Flushed, Decided;
  }

  lemma QueuedDrained(s: State, job: Job, nonce: uint256, buffer: seq<Solution>)
    requires Queued(s, job, nonce, buffer) && IsValidNonce(job.challenge, nonce, job.difficulty)
    ensures AtWork(Step(Step(Step(s, Take), ReadJob), Decide), job, buffer + [Solved(job, nonce)])
  {
    hide Flushed, Verify, IsValidNonce, PowDigest;
    VerifiedExactly(job.challenge, nonce, job.difficulty, job.epoch);
  }

  lemma FindSteps(workers: nat, before: seq<Action>, nonce: uint256)
    ensures var s := Step(Step(After(workers, before), Fetch(0)), FinishBatch(0, [nonce]));
      After(workers, Find(before, nonce)) == Step(Step(Step(Step(Step(s, Put(0)), Put(0)), Take), ReadJob), Decide)
  {
    hide After, Step;
    var a1 := before + [Fetch(0)];
    var a2 := a1 + [FinishBatch(0, [nonce])];
    AfterAppend(workers, before, Fetch(0));
    AfterAppend(workers, a1, FinishBatch(0, [nonce]));
    AfterAppend(workers, a2, Put(0));
    AfterAppend(workers, a2 + [Put(0)], Put(0));
    AfterAppend(workers, a2 + [Put(0)] + [Put(0)], Take);
    AfterAppend(workers, a2 + [Put(0)] + [Put(0)] + [Take], ReadJob);
    AfterAppend(workers, a2 + [Put(0)] + [Put(0)] + [Take] + [ReadJob], Decide);
  }

  lemma BeginSteps(workers: nat, first: Action, second: Action)
    ensures After(workers, [first] + [second]) == Step(Step(Start(workers), first), second)
  {
    hide Step;
    assert [] + [first] == [first] && After(workers, []) == Start(workers);
    AfterAppend(workers, [], first);
    AfterAppend(workers, [first], second);
  }

  lemma {:induction false} FoundAgain(workers: nat, job: Job, nonce: uint256, k: nat)
    requires workers >= 1 && IsValidNonce(job.challenge, nonce, job.difficulty)
    ensures AtWork(After(workers, FindRun(job, nonce, k)), job, Copies(Solved(job, nonce), k))
  {
    hide After, Step, Find, AtWork, Queued, Solved, IsValidNonce;
    if k == 0 {
      BeginSteps(workers, SeeState(job.challenge, job.difficulty, job.epoch), PointFarm);
      Begun(workers, job);
      assert Copies(Solved(job, nonce), 0) == [];
    } else {
      FoundAgain(workers, job, nonce, k - 1);
      var copies := Copies(Solved(job, nonce), k - 1);
      FindSteps(workers, FindRun(job, nonce, k - 1), nonce);
      var s := After(workers, FindRun(job, nonce, k - 1));
      BatchQueued(s, job, nonce, copies);
      QueuedDrained(Step(Step(Step(Step(s, Fetch(0)), FinishBatch(0, [nonce])), Put(0)), Put(0)), job, nonce, copies);
      assert copies + [Solved(job, nonce)] == Copies(Solved(job, nonce), k);
    }
  }

  lemma {:induction false} FreshCopies(sol: Solution, k: nat, used: set<uint256>)
    ensures Fresh(Copies(sol, k), sol.epoch, used) == if sol.nonce in used then [] else Copies(sol, k)
  {
    if k > 0 {
      FreshCopies(sol, k - 1, used);
      assert Copies(sol, k)[..k - 1] == Copies(sol, k - 1);
      assert Copies(sol, k - 1) + [sol] == Copies(sol, k);
    }
  }

  lemma CopiesRepeat(sol: Solution, k: nat, used: set<uint256>, size: nat)
    ensures Repeats(Bundle(Copies(sol, k), sol.epoch, used, size)) <==> sol.nonce !in used && k >= 2 && size >= 2
  {
    FreshCopies(sol, k, used);
    hide Fresh;
    var bundle := Bundle(Copies(sol, k), sol.epoch, used, size);
    if sol.nonce !in used && k >= 2 && size >= 2 {
      assert bundle[0] == sol && bundle[1] == sol;
    }
  }

  /** For any job and any nonce valid for it: when k batches have found the nonce, the buffer holds its solution k
      times, and the next bundle repeats it exactly when there is more than one, the bundle takes more than one, and
      none has been submitted. */
  lemma FoundAgainIsBundledAgain(workers: nat, job: Job, nonce: uint256, k: nat, used: set<uint256>, size: nat)
    requires workers >= 1 && IsValidNonce(job.challenge, nonce, job.difficulty)
    ensures var s := After(workers, FindRun(job, nonce, k));
      && s.buffer == Copies(Solved(job, nonce), k)
      && (Repeats(Bundle(s.buffer, job.epoch, used, size)) <==> nonce !in used && k >= 2 && size >= 2)
  {
    hide After, FindRun, Repeats, Bundle, IsValidNonce, Copies, PowDigest;
    FoundAgain(workers, job, nonce, k);
    CopiesRepeat(Solved(job, nonce), k, used, size);
  }
}
