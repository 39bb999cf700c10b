/** What the submitter's counters count, and where the solutions given to submit end, over every interleaving. */
module Counters {
  import opened Words
  import opened ProofOfWork
  import opened Submission
  import opened Interleaving

  /** Kinds of steps: those with a counter, and those at which a submit thread takes on a solution or is done with
      it. */
  datatype Kind = Sends | Confirmations | Reverts | Skips | Errors | Starts | Ends

  /** Whether this step is one of the kind. */
  predicate Is(cfg: Config, w: World, a: Action, kind: Kind) {
    Enabled(w, a) &&
    match kind
    case Sends => a.Succeed? || a.RecordOne?
    case Confirmations => a.SweepOne? && a.receipt.Success?
    case Reverts => a.SweepOne? && a.receipt.Failure?
    case Skips => a.GiveUp? || (a.Begin? && !cfg.hasAddress)
    case Errors => a.Fail? && !a.hiccup
    case Starts => a.Begin? && Admit(cfg, w.book, a.sol).1.Proceed?
    case Ends =>
      a.GiveUp? || a.Succeed? || a.Fail? || (a.Crash? && !w.threads[a.t].Idle?)
      || (a.Claim? && (cfg.dryRun || !Assign(cfg, w.book, w.threads[a.t].sol, a.rpc).1.Assigned?))
  }

  /** How many steps of a run are of the kind. */
  function Number(cfg: Config, workers: nat, actions: seq<Action>, kind: Kind): nat {
    if actions == [] then 0
    else
      var last := |actions| - 1;
      Number(cfg, workers, actions[..last], kind)
        + if Is(cfg, After(cfg, workers, actions[..last]), actions[last], kind) then 1 else 0
  }

  function Counter(b: Book, kind: Kind): nat
    requires !kind.Starts? && !kind.Ends?
  {
    match kind
    case Sends => b.sent
    case Confirmations => b.confirmed
    case Reverts => b.reverted
    case Skips => b.skipped
    case Errors => b.errors
  }

  lemma CounterStep(cfg: Config, w: World, a: Action, kind: Kind)
    requires !kind.Starts? && !kind.Ends?
    ensures Counter(Step(cfg, w, a).book, kind) == Counter(w.book, kind) + if Is(cfg, w, a, kind) then 1 else 0
  {
    hide Marked, UsedIn;
  }

  lemma NothingCounted(workers: nat, kind: Kind)
    requires !kind.Starts? && !kind.Ends?
    ensures Counter(Start(workers).book, kind) == 0
  {
  }

  /** In every run each counter is the number of steps of its kind: transactions sent, receipts of success and of
      failure, solutions given up or found without an address, and sends that failed for good. */
  lemma {:induction false} CountersOfEveryRun(cfg: Config, workers: nat, actions: seq<Action>, kind: Kind)
    requires !kind.Starts? && !kind.Ends?
    ensures Counter(After(cfg, workers, actions).book, kind) == Number(cfg, workers, actions, kind)
  {
    hide Step, Is, Counter;
    if actions == [] {
      NothingCounted(workers, kind);
    } else {
      var last := |actions| - 1;
      CountersOfEveryRun(cfg, workers, actions[..last], kind);
      CounterStep(cfg, After(cfg, workers, actions[..last]), actions[last], kind);
    }
  }

  // ---------- solutions taken on

  /** Threads that are at work on a solution. */
  function Busy(threads: seq<Thread>): nat {
    if threads == [] then 0
    else Busy(threads[..|threads| - 1]) + if threads[|threads| - 1].Idle? then 0 else 1
  }

  function One(b: bool): nat {
    if b then 1 else 0
  }

  lemma {:induction false} BusyUpdate(threads: seq<Thread>, t: nat, thread: Thread)
    requires t < |threads|
    ensures Busy(threads[t := thread]) == Busy(threads) - One(!threads[t].Idle?) + One(!thread.Idle?)
  {
    var last := |threads| - 1;
    if t == last {
      assert threads[t := thread][..last] == threads[..last];
    } else {
      BusyUpdate(threads[..last], t, thread);
      assert threads[t := thread][..last] == threads[..last][t := thread];
    }
  }

  lemma {:induction false} NoneBusy(threads: seq<Thread>)
    requires forall t | 0 <= t < |threads| :: threads[t].Idle?
    ensures Busy(threads) == 0
  {
    if threads != [] { NoneBusy(threads[..|threads| - 1]); }
  }

  /** Which thread a step is one of. */
  function ThreadOf(a: Action): Option<nat> {
    match a
    case Begin(t, _) => Some(t)
    case GiveUp(t) => Some(t)
    case Crash(t) => Some(t)
    case Claim(t, _) => Some(t)
    case Succeed(t, _) => Some(t)
    case Fail(t, _, _) => Some(t)
    case _ => None
  }

  /** A step changes no thread but its own, and is a start or an end just as that thread gets to work or is done. */
  lemma ThreadStep(cfg: Config, w: World, a: Action)
    ensures var w' := Step(cfg, w, a);
      if Enabled(w, a) && ThreadOf(a).Some? then
        var t := ThreadOf(a).value;
        && t < |w.threads| && w'.threads == w.threads[t := w'.threads[t]]
        && One(!w.threads[t].Idle?) + One(Is(cfg, w, a, Starts)) == One(!w'.threads[t].Idle?) + One(Is(cfg, w, a, Ends))
      else w'.threads == w.threads && !Is(cfg, w, a, Starts) && !Is(cfg, w, a, Ends)
  {
    hide Marked, UsedIn, SendFailed, Tallied;
  }

  lemma BusyStep(cfg: Config, w: World, a: Action)
    ensures Busy(w.threads) + One(Is(cfg, w, a, Starts)) == Busy(Step(cfg, w, a).threads) + One(Is(cfg, w, a, Ends))
  {
    hide Step, Is, Busy;
    ThreadStep(cfg, w, a);
    if Enabled(w, a) && ThreadOf(a).Some? {
      BusyUpdate(w.threads, ThreadOf(a).value, Step(cfg, w, a).threads[ThreadOf(a).value]);
    }
  }

  /** In every run each solution a submit thread takes on is given up, lost to an exception, refused in the second
      critical section, sent, failed, or still being worked on: in exactly one of these ways. */
  lemma {:induction false} SolutionsOfEveryRun(cfg: Config, workers: nat, actions: seq<Action>)
    ensures Number(cfg, workers, actions, Starts)
            == Number(cfg, workers, actions, Ends) + Busy(After(cfg, workers, actions).threads)
  {
    hide Step, Is, Busy;
    if actions == [] {
      NoneBusy(Start(workers).threads);
    } else {
      var last := |actions| - 1;
      SolutionsOfEveryRun(cfg, workers, actions[..last]);
      BusyStep(cfg, After(cfg, workers, actions[..last]), actions[last]);
    }
  }
}
