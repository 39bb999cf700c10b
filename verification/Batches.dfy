/** Where batches and the nonces they find go, over every interleaving of the GPU workers with the rest. */
module Batches {
  import opened Words
  import opened ProofOfWork
  import opened Submission
  import opened Pipeline
  import opened PipelineRuns

  /** Batches that are searched at the moment. */
  function Running(workers: seq<Worker>): nat {
    if workers == [] then 0
    else Running(workers[..|workers| - 1]) + RunningIn(workers[|workers| - 1])
  }

  function RunningIn(w: Worker): nat {
    if w.Searching? then 1 else 0
  }

  /** Nonces found that are still to be put into the queue. */
  function Held(workers: seq<Worker>): nat {
    if workers == [] then 0
    else Held(workers[..|workers| - 1]) + HeldIn(workers[|workers| - 1])
  }

  function HeldIn(w: Worker): nat {
    if w.Putting? then |w.found| else 0
  }

  lemma {:induction false} WorkerUpdate(workers: seq<Worker>, i: nat, w: Worker)
    requires i < |workers|
    ensures Running(workers[i := w]) == Running(workers) - RunningIn(workers[i]) + RunningIn(w)
    ensures Held(workers[i := w]) == Held(workers) - HeldIn(workers[i]) + HeldIn(w)
  {
    var last := |workers| - 1;
    if i == last {
      assert workers[i := w][..last] == workers[..last];
    } else {
      WorkerUpdate(workers[..last], i, w);
      assert workers[i := w][..last] == workers[..last][i := w];
    }
  }

  lemma {:induction false} NoneWorking(workers: seq<Worker>)
    requires forall i | 0 <= i < |workers| :: workers[i].Fetching?
    ensures Running(workers) == 0 && Held(workers) == 0
  {
    if workers != [] { NoneWorking(workers[..|workers| - 1]); }
  }

  /** A batch begins. */
  function Begins(s: State, a: Action): nat {
    if a.Fetch? && Enabled(s, a) then 1 else 0
  }

  /** A batch returns or fails. */
  function Returns(s: State, a: Action): nat {
    if (a.FinishBatch? || a.FailBatch?) && Enabled(s, a) then 1 else 0
  }

  /** The nonces of a batch that returns while the farm's generation is the one it was started under. */
  function Passes(s: State, a: Action): nat {
    if a.FinishBatch? && Enabled(s, a) && s.workers[a.w].gen == s.gen then |a.found| else 0
  }

  /** A total over all steps of a run. */
  function Sum(workers: nat, actions: seq<Action>, f: (State, Action) -> nat): nat {
    if actions == [] then 0
    else
      var last := |actions| - 1;
      Sum(workers, actions[..last], f) + f(After(workers, actions[..last]), actions[last])
  }

  function WorkerOf(a: Action): Option<nat> {
    match a
    case Fetch(w) => Some(w)
    case FinishBatch(w, _) => Some(w)
    case FailBatch(w) => Some(w)
    case Put(w) => Some(w)
    case _ => None
  }

  lemma WorkerStep(s: State, a: Action)
    ensures var s' := Step(s, a);
      && |s.emitted| <= |s'.emitted|
      && if Enabled(s, a) && WorkerOf(a).Some? then
           var i := WorkerOf(a).value;
           && i < |s.workers| && s'.workers == s.workers[i := s'.workers[i]]
           && RunningIn(s.workers[i]) + Begins(s, a) == RunningIn(s'.workers[i]) + Returns(s, a)
           && HeldIn(s.workers[i]) + Passes(s, a) == HeldIn(s'.workers[i]) + |s'.emitted| - |s.emitted|
         else
           && s'.workers == s.workers && |s'.emitted| == |s.emitted|
           && Begins(s, a) == Returns(s, a) == Passes(s, a) == 0
  {
    hide Flushed, Decided;
    if a.Flush? || a.Decide? { SameFarm(s, a); }
  }

  lemma WorkStep(s: State, a: Action)
    ensures var s' := Step(s, a);
      && Running(s.workers) + Begins(s, a) == Running(s'.workers) + Returns(s, a)
      && Held(s.workers) + |s.emitted| + Passes(s, a) == Held(s'.workers) + |s'.emitted|
  {
    hide Step, Begins, Returns, Passes, Running, Held, RunningIn, HeldIn;
    WorkerStep(s, a);
    if Enabled(s, a) && WorkerOf(a).Some? {
      WorkerUpdate(s.workers, WorkerOf(a).value, Step(s, a).workers[WorkerOf(a).value]);
    }
  }

  lemma NothingEmitted(workers: nat)
    ensures Start(workers).emitted == []
  {
  }

  /** In every run each batch begun has returned, has failed or is being searched, and each nonce of a batch that passed
      the check is in the queue's history or waits to be put. */
  lemma {:induction false} BatchesOfEveryRun(workers: nat, actions: seq<Action>)
    ensures var s := After(workers, actions);
      && Sum(workers, actions, Begins) == Sum(workers, actions, Returns) + Running(s.workers)
      && Sum(workers, actions, Passes) == |s.emitted| + Held(s.workers)
  {
    hide Step, Begins, Returns, Passes, Running, Held;
    if actions == [] {
      NoneWorking(Start(workers).workers);
      NothingEmitted(workers);
    } else {
      var last := |actions| - 1;
      BatchesOfEveryRun(workers, actions[..last]);
      WorkStep(After(workers, actions[..last]), actions[last]);
    }
  }
}
