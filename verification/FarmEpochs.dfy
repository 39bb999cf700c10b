/** Are results only ever put under the farm's current epoch?  Exactly when no worker puts on after a switch to another
    epoch: the generation is compared once for a batch, not again at each put. */
module FarmEpochs {
  import opened Words
  import opened ProofOfWork
  import opened Submission
  import opened Pipeline
  import opened PipelineRuns

  predicate HasEpoch(job: Option<Job>, epoch: nat) {
    job.Some? && job.value.epoch == epoch
  }

  /** Worker w has results it has not put yet. */
  predicate Unput(s: State, w: nat) {
    w < |s.workers| && s.workers[w].Putting? && s.workers[w].found != []
  }

  /** Everything this step puts into the queue is tagged with the epoch of the farm's job. */
  ghost predicate PutsCurrent(s: State, a: Action) {
    forall k | |s.emitted| <= k < |Step(s, a).emitted| :: HasEpoch(s.farmJob, Step(s, a).emitted[k].0.epoch)
  }

  /** All results of the run were put under the epoch that was the farm's at that moment. */
  ghost predicate AllPutsCurrent(workers: nat, actions: seq<Action>) {
    forall i | 0 <= i < |actions| :: PutsCurrent(After(workers, actions[..i]), actions[i])
  }

  /** A new job for the farm, or none. */
  predicate IsSwitch(s: State, a: Action) {
    a.ClearFarm? || (a.PointFarm? && s.pointing.Some?)
  }

  /** The switch meets worker w with unput results of another epoch. */
  predicate Strands(s: State, a: Action, w: nat) {
    && IsSwitch(s, a) && Unput(s, w)
    && !HasEpoch(if a.PointFarm? then s.pointing else None, s.workers[w].job.epoch)
  }

  /** The switch at j strands a worker which puts at i, before the next switch. */
  ghost predicate LatePut(workers: nat, actions: seq<Action>, j: nat, i: nat)
    requires j < i < |actions|
  {
    && actions[i].Put? && Strands(After(workers, actions[..j]), actions[j], actions[i].w)
    && forall k | j < k < i :: !IsSwitch(After(workers, actions[..k]), actions[k])
  }

  // ---------- one step

  /** Worker w has results left that the farm's epoch does not match. */
  predicate Stranded(s: State, w: nat) {
    Unput(s, w) && !HasEpoch(s.farmJob, s.workers[w].job.epoch)
  }

  /** The only step that is not current is a put by a stranded worker. */
  lemma StalePutExactly(s: State, a: Action)
    ensures PutsCurrent(s, a) <==> !(a.Put? && Stranded(s, a.w))
  {
    hide Flushed, Decided;
    if a.Flush? || a.Decide? { SameFarm(s, a); }
    if a.Put? && Stranded(s, a.w) {
      assert Step(s, a).emitted[|s.emitted|].0.epoch == s.workers[a.w].job.epoch;
    }
  }

  /** Only a switch strands a worker; a batch that passes the check was searched under the farm's job. */
  lemma StrandedBefore(s: State, a: Action, w: nat)
    requires FarmSound(s) && Stranded(Step(s, a), w)
    ensures if IsSwitch(s, a) then Strands(s, a, w) else Stranded(s, w)
  {
    hide Flushed, Decided;
    if a.Flush? || a.Decide? { SameFarm(s, a); }
  }

  /** A switch that meets no such worker strands none, and the others do. */
  lemma SwitchStrands(s: State, a: Action, w: nat)
    requires IsSwitch(s, a)
    ensures Stranded(Step(s, a), w) <==> Strands(s, a, w)
  {
  }

  /** A stranded worker stays so until it puts or the farm's job is switched. */
  lemma StrandedStays(s: State, a: Action, w: nat)
    requires Stranded(s, w) && !IsSwitch(s, a) && !(a.Put? && a.w == w)
    ensures Stranded(Step(s, a), w)
  {
    hide Flushed, Decided;
    if a.Flush? || a.Decide? { SameFarm(s, a); }
  }

  // ---------- whole runs

  lemma NextState(workers: nat, actions: seq<Action>, i: nat)
    requires i < |actions|
    ensures After(workers, actions[..i + 1]) == Step(After(workers, actions[..i]), actions[i])
  {
    hide Step;
    assert actions[..i + 1][..i] == actions[..i];
  }

  lemma StartStrandsNone(workers: nat, w: nat)
    ensures !Stranded(Start(workers), w)
  {
  }

  lemma StrandedBack(workers: nat, actions: seq<Action>, i: nat, w: nat)
    requires i < |actions| && Stranded(After(workers, actions[..i + 1]), w)
    ensures var s := After(workers, actions[..i]);
      if IsSwitch(s, actions[i]) then Strands(s, actions[i], w) else Stranded(s, w)
  {
    hide Step, After, FarmSound, QueueSound, DrainSound, BufferSound, Stranded, Strands, IsSwitch;
    NextState(workers, actions, i);
    SoundInEveryRun(workers, actions[..i]);
    StrandedBefore(After(workers, actions[..i]), actions[i], w);
  }

  /** Whoever is stranded was stranded by the last switch. */
  lemma {:induction false} StrandedBySwitch(workers: nat, actions: seq<Action>, i: nat, w: nat) returns (j: nat)
    requires i <= |actions| && Stranded(After(workers, actions[..i]), w)
    ensures j < i && Strands(After(workers, actions[..j]), actions[j], w)
    ensures forall k | j < k < i :: !IsSwitch(After(workers, actions[..k]), actions[k])
  {
    hide Step, Stranded, Strands, IsSwitch;
    if i == 0 {
      StartStrandsNone(workers, w);
    } else {
      hide After;
      StrandedBack(workers, actions, i - 1, w);
      if IsSwitch(After(workers, actions[..i - 1]), actions[i - 1]) {
        j := i - 1;
      } else {
        j := StrandedBySwitch(workers, actions, i - 1, w);
      }
    }
  }

  /** After a late put, some put of that worker was the first: it is stale. */
  lemma {:induction false} FirstLatePut(workers: nat, actions: seq<Action>, j: nat, m: nat, i: nat) returns (p: nat)
    requires j < m <= i < |actions| && LatePut(workers, actions, j, i)
    requires Stranded(After(workers, actions[..m]), actions[i].w)
    ensures p < |actions| && actions[p].Put? && Stranded(After(workers, actions[..p]), actions[p].w)
    decreases i - m
  {
    if actions[m].Put? && actions[m].w == actions[i].w {
      p := m;
    } else {
      NextState(workers, actions, m);
      hide Step, After, Stranded, Strands, IsSwitch;
      StrandedStays(After(workers, actions[..m]), actions[m], actions[i].w);
      p := FirstLatePut(workers, actions, j, m + 1, i);
    }
  }

  /** In every run: all results are put under the farm's current epoch exactly when no switch meets a worker with unput
      results of another epoch which then puts before the next switch. */
  lemma AllPutsCurrentExactly(workers: nat, actions: seq<Action>)
    ensures AllPutsCurrent(workers, actions)
            <==> !exists j, i :: 0 <= j < i < |actions| && LatePut(workers, actions, j, i)
  {
    hide Step, After, Stranded, Strands, IsSwitch, PutsCurrent;
    if i :| 0 <= i < |actions| && !PutsCurrent(After(workers, actions[..i]), actions[i]) {
      StalePutExactly(After(workers, actions[..i]), actions[i]);
      var j := StrandedBySwitch(workers, actions, i, actions[i].w);
      assert LatePut(workers, actions, j, i);
    }
    if j, i :| 0 <= j < i < |actions| && LatePut(workers, actions, j, i) {
      NextState(workers, actions, j);
      SwitchedTo(After(workers, actions[..j]), actions[j], actions[i].w);
      var p := FirstLatePut(workers, actions, j, j + 1, i);
      StalePutExactly(After(workers, actions[..p]), actions[p]);
    }
  }

  lemma SwitchedTo(s: State, a: Action, w: nat)
    requires Strands(s, a, w)
    ensures Stranded(Step(s, a), w)
  {
    SwitchStrands(s, a, w);
  }

  // ---------- a run that fails it

  /** Worker 0 finishes a batch under one job, the farm is pointed at the next, and the worker puts its result. */
  function StaleRun(first: Job, second: Job, nonce: int): seq<Action> {
    [SeeState(first.challenge, first.difficulty, first.epoch), PointFarm, Fetch(0), FinishBatch(0, [nonce]),
     SeeState(second.challenge, second.difficulty, second.epoch), PointFarm, Put(0)]
  }

  ghost predicate ReadyToStale(s: State, first: Job, second: Job, nonce: int) {
    && s.pointing == Some(second) && s.results == []
    && |s.workers| >= 1 && s.workers[0] == Putting(first, [nonce])
  }

  lemma FiveSteps(workers: nat, first: Job, second: Job, nonce: int)
    requires workers >= 1 && first != second
    ensures var a := StaleRun(first, second, nonce);
      var s := Step(Step(Step(Start(workers), a[0]), a[1]), a[2]);
      ReadyToStale(Step(Step(s, a[3]), a[4]), first, second, nonce)
  {
    hide Flushed, Decided;
  }

  lemma FirstFive(workers: nat, first: Job, second: Job, nonce: int)
    requires workers >= 1 && first != second
    ensures ReadyToStale(After(workers, StaleRun(first, second, nonce)[..5]), first, second, nonce)
  {
    hide Step;
    var a := StaleRun(first, second, nonce);
    assert After(workers, a[..0]) == Start(workers);
    hide After, ReadyToStale;
    NextState(workers, a, 0);
    NextState(workers, a, 1);
    NextState(workers, a, 2);
    NextState(workers, a, 3);
    NextState(workers, a, 4);
    FiveSteps(workers, first, second, nonce);
  }

  lemma LastTwo(s: State, first: Job, second: Job, nonce: int)
    requires ReadyToStale(s, first, second, nonce) && first.epoch != second.epoch
    ensures Strands(s, PointFarm, 0)
    ensures var s' := Step(Step(s, PointFarm), Put(0));
      s'.farmJob == Some(second) && s'.results == [Found(nonce, first.epoch)]
  {
    hide Flushed, Decided;
  }

  /** A run for any two jobs of different epochs and whatever the device reports: at its end the farm has the second job
      and the queue holds the nonce with the epoch of the first. */
  lemma StaleRunIsLate(workers: nat, first: Job, second: Job, nonce: int)
    requires workers >= 1 && first.epoch != second.epoch
    ensures var run := StaleRun(first, second, nonce); var s := After(workers, run);
      && s.farmJob == Some(second) && s.results == [Found(nonce, first.epoch)]
      && LatePut(workers, run, 5, 6) && !AllPutsCurrent(workers, run)
  {
    var run := StaleRun(first, second, nonce);
    FirstFive(workers, first, second, nonce);
    LastTwo(After(workers, run[..5]), first, second, nonce);
    NextState(workers, run, 5);
    NextState(workers, run, 6);
    assert run[..7] == run;
    hide After, Step, Strands, AllPutsCurrent;
    assert LatePut(workers, run, 5, 6);
    AllPutsCurrentExactly(workers, run);
  }
}
