/** The submit threads, the block loop and the receipt sweep of one submitter, interleaved at will: one action
    for each critical section and for each step of the sweep, which takes no lock. */
module Interleaving {
  import opened Words
  import opened ProofOfWork
  import opened Submission

  /** A submit thread: idle, past the eligibility check, or past the assignment of its transaction nonce. */
  datatype Thread = Idle | Working(sol: Solution) | Sending(sol: Solution, txNonce: nat)

  /** The receipt sweep: at rest, at index `next` of the live list, or done with the list and about to replace it. */
  datatype Sweep = Resting | Looping(next: nat, still: seq<Pending>) | Leaving(seen: nat, still: seq<Pending>)

  /** An entry into the used-set, by the second critical section of submit or by a bundle. */
  datatype Mark = Mark(epoch: nat, nonce: uint256, bySubmit: bool)

  /** Transaction nonces start .. start + count handed out at once. */
  datatype Grant = Grant(start: nat, count: nat)

  /** The shared books, the threads and the sweep, with histories: the marks in order, the grants since the last sync
      and all grants ever, the stretches of nonces between earlier syncs, the transactions given up by age, the
      rewards seen, the pending transactions a sweep has overwritten, those appended just before it did, and the
      receipts the current sweep has been given. */
  datatype World = World(book: Book, threads: seq<Thread>, sweep: Sweep, marks: seq<Mark>,
                         base: nat, grants: seq<Grant>, given: seq<Grant>, stretches: seq<Grant>,
                         expired: nat, rewards: seq<nat>, lost: nat, late: nat,
                         answers: seq<Receipt>)

  datatype Action =
    | Begin(t: nat, sol: Solution)
    | GiveUp(t: nat)
    | Crash(t: nat)
    | Claim(t: nat, rpc: Option<nat>)
    | Succeed(t: nat, txHash: bytes32)
    | Fail(t: nat, hiccup: bool, rpc: Option<nat>)
    | ReserveMany(n: nat, rpc: Option<nat>)
    | RecordOne(txHash: bytes32, nonce: uint256, epoch: nat)
    | StartSweep
    | SweepOne(receipt: Receipt)
    | StopSweep
    | Replace

  function Start(workers: nat): World {
    World(Book(None, map[], [], 0, 0, 0, 0, 0, 0), seq(workers, t => Idle), Resting, [], 0, [], [], [], 0, [], 0, 0, [])
  }

  predicate Enabled(w: World, a: Action) {
    match a
    case Begin(t, _) => t < |w.threads| && w.threads[t].Idle?
    case GiveUp(t) => t < |w.threads| && w.threads[t].Working?
    case Crash(t) => t < |w.threads|
    case Claim(t, _) => t < |w.threads| && w.threads[t].Working?
    case Succeed(t, _) => t < |w.threads| && w.threads[t].Sending?
    case Fail(t, _, _) => t < |w.threads| && w.threads[t].Sending?
    case ReserveMany(_, _) => true
    case RecordOne(_, _, _) => true
    case StartSweep => w.sweep.Resting? && w.book.pending != []
    case SweepOne(_) => w.sweep.Looping? && w.sweep.next < |w.book.pending|
    case StopSweep => w.sweep.Looping? && w.sweep.next >= |w.book.pending|
    case Replace => w.sweep.Leaving?
  }

  /** The history of grants after `count` nonces are handed out, the counter being read from the node first if unset. */
  function Granted(w: World, b: Book, start: nat, count: nat): World {
    w.(book := b, base := if w.book.txNonce.None? then start else w.base,
       grants := (if w.book.txNonce.None? then [] else w.grants) + [Grant(start, count)],
       given := w.given + [Grant(start, count)])
  }

  /** From the value of the last sync to the counter. */
  function Stretch(w: World): seq<Grant> {
    if w.book.txNonce.Some? && w.base <= w.book.txNonce.value then [Grant(w.base, w.book.txNonce.value - w.base)]
    else []
  }

  function Resynced(w: World, n: nat): World {
    w.(book := Synced(w.book, n), base := n, grants := [], stretches := w.stretches + Stretch(w))
  }

  /** An append between the end of the sweep's loop and the assignment of the rebuilt list comes too late. */
  function Late(w: World): nat {
    if w.sweep.Leaving? then w.late + 1 else w.late
  }

  function Claimed(cfg: Config, w: World, t: nat, rpc: Option<nat>): World
    requires Enabled(w, Claim(t, rpc))
  {
    var sol := w.threads[t].sol;
    var (b, verdict) := Assign(cfg, w.book, sol, rpc);
    if verdict.Assigned? then
      var w1 := if cfg.dryRun then w.(book := b) else Granted(w, b, verdict.txNonce, 1);
      w1.(threads := w.threads[t := if cfg.dryRun then Idle else Sending(sol, verdict.txNonce)],
          marks := w.marks + [Mark(sol.epoch, sol.nonce, true)])
    else w.(book := b, threads := w.threads[t := Idle])
  }

  function Polled(w: World, r: Receipt): World
    requires Enabled(w, SweepOne(r))
  {
    var p := w.book.pending[w.sweep.next];
    w.(book := Tallied(w.book, r),
       sweep := Looping(w.sweep.next + 1, if StaysPending(r) then w.sweep.still + [p] else w.sweep.still),
       expired := if r == Raised(true) then w.expired + 1 else w.expired,
       rewards := if r.Success? then w.rewards + [r.reward] else w.rewards,
       answers := w.answers + [r])
  }

  /** The assignment of the rebuilt list: whatever was appended after the loop had ended is gone. */
  function Replaced(w: World): World
    requires w.sweep.Leaving?
  {
    w.(book := w.book.(pending := w.sweep.still), sweep := Resting,
       lost := w.lost + if |w.book.pending| >= w.sweep.seen then |w.book.pending| - w.sweep.seen else 0)
  }

  function Step(cfg: Config, w: World, a: Action): World {
    if !Enabled(w, a) then w
    else
      match a
      case Begin(t, sol) =>
        var (b, verdict) := Admit(cfg, w.book, sol);
        w.(book := b, threads := w.threads[t := if verdict.Proceed? then Working(sol) else Idle])
      case GiveUp(t) => w.(book := SkipCounted(w.book), threads := w.threads[t := Idle])
      case Crash(t) => w.(threads := w.threads[t := Idle])
      case Claim(t, rpc) => Claimed(cfg, w, t, rpc)
      case Succeed(t, txHash) =>
        w.(book := SendRecorded(w.book, w.threads[t].sol, txHash), threads := w.threads[t := Idle], late := Late(w))
      case Fail(t, hiccup, rpc) =>
        var w1 := if hiccup && rpc.Some? then Resynced(w, rpc.value) else w;
        w1.(book := SendFailed(w.book, hiccup, rpc), threads := w.threads[t := Idle])
      case ReserveMany(n, rpc) =>
        var (b, verdict) := Reserve(w.book, n, rpc);
        if verdict.Assigned? then Granted(w, b, verdict.txNonce, n) else w
      case RecordOne(txHash, nonce, epoch) =>
        w.(book := PendingRecorded(w.book, txHash, nonce, epoch), marks := w.marks + [Mark(epoch, nonce, false)],
           late := Late(w))
      case StartSweep => w.(sweep := Looping(0, []), answers := [])
      case SweepOne(r) => Polled(w, r)
      case StopSweep => w.(sweep := Leaving(|w.book.pending|, w.sweep.still))
      case Replace => Replaced(w)
  }

  function After(cfg: Config, workers: nat, actions: seq<Action>): World {
    if actions == [] then Start(workers)
    else Step(cfg, After(cfg, workers, actions[..|actions| - 1]), actions[|actions| - 1])
  }

  // ---------- how full an epoch gets

  /** Threads between the two critical sections with a solution of this epoch. */
  function InFlight(threads: seq<Thread>, epoch: nat): nat {
    if threads == [] then 0
    else
      var last := |threads| - 1;
      InFlight(threads[..last], epoch) + if threads[last].Working? && threads[last].sol.epoch == epoch then 1 else 0
  }

  function Counts(t: Thread, epoch: nat): nat {
    if t.Working? && t.sol.epoch == epoch then 1 else 0
  }

  lemma {:induction false} InFlightUpdate(threads: seq<Thread>, t: nat, thread: Thread, epoch: nat)
    requires t < |threads|
    ensures InFlight(threads[t := thread], epoch)
            == InFlight(threads, epoch) - Counts(threads[t], epoch) + Counts(thread, epoch)
  {
    var last := |threads| - 1;
    if t == last {
      assert threads[t := thread][..last] == threads[..last];
    } else {
      InFlightUpdate(threads[..last], t, thread, epoch);
      assert threads[t := thread][..last] == threads[..last][t := thread];
    }
  }

  lemma {:induction false} InFlightBound(threads: seq<Thread>, epoch: nat)
    ensures InFlight(threads, epoch) <= |threads|
  {
    if threads != [] { InFlightBound(threads[..|threads| - 1], epoch); }
  }

  lemma {:induction false} InFlightNone(threads: seq<Thread>, epoch: nat)
    requires forall t | 0 <= t < |threads| :: threads[t].Idle?
    ensures InFlight(threads, epoch) == 0
  {
    if threads != [] { InFlightNone(threads[..|threads| - 1], epoch); }
  }

  /** What is used and what may still be added stays within the limit and one less than the number of threads. */
  ghost predicate WithinCap(cfg: Config, w: World, epoch: nat) {
    var n := |UsedIn(w.book.used, epoch)| + InFlight(w.threads, epoch);
    n == 0 || (cfg.maxPendingPerEpoch >= 1 && n <= cfg.maxPendingPerEpoch + |w.threads| - 1)
  }

  lemma MarkGrowth(used: map<nat, set<uint256>>, epoch: nat, nonce: uint256, e: nat)
    ensures |UsedIn(Marked(used, epoch, nonce), e)| <= |UsedIn(used, e)| + if e == epoch then 1 else 0
  {
    MarkEffect(used, epoch, nonce, e);
    hide Marked;
  }

  lemma BeginWithinCap(cfg: Config, w: World, t: nat, sol: Solution, e: nat)
    requires WithinCap(cfg, w, e) && Enabled(w, Begin(t, sol))
    ensures WithinCap(cfg, Step(cfg, w, Begin(t, sol)), e)
  {
    hide InFlight, UsedIn;
    var w' := Step(cfg, w, Begin(t, sol));
    InFlightUpdate(w.threads, t, w'.threads[t], e);
    InFlightBound(w'.threads, e);
  }

  lemma ClaimWithinCap(cfg: Config, w: World, t: nat, rpc: Option<nat>, e: nat)
    requires WithinCap(cfg, w, e) && Enabled(w, Claim(t, rpc))
    ensures WithinCap(cfg, Step(cfg, w, Claim(t, rpc)), e)
  {
    hide InFlight, UsedIn, Marked;
    var w' := Step(cfg, w, Claim(t, rpc));
    InFlightUpdate(w.threads, t, w'.threads[t], e);
    MarkGrowth(w.book.used, w.threads[t].sol.epoch, w.threads[t].sol.nonce, e);
  }

  lemma WithinCapKept(cfg: Config, w: World, a: Action, e: nat)
    requires WithinCap(cfg, w, e) && !a.RecordOne?
    ensures WithinCap(cfg, Step(cfg, w, a), e)
  {
    hide InFlight, UsedIn, Marked;
    if Enabled(w, a) {
      match a
      case Begin(t, sol) => BeginWithinCap(cfg, w, t, sol, e);
      case Claim(t, rpc) => ClaimWithinCap(cfg, w, t, rpc, e);
      case GiveUp(t) => InFlightUpdate(w.threads, t, Idle, e);
      case Crash(t) => InFlightUpdate(w.threads, t, Idle, e);
      case Succeed(t, _) => InFlightUpdate(w.threads, t, Idle, e);
      case Fail(t, _, _) => InFlightUpdate(w.threads, t, Idle, e);
      case _ =>
    }
  }

  /** Single transactions only: in every interleaving no epoch's used-set exceeds the limit by more than one less
      than the number of submit threads. */
  lemma {:induction false} EpochCapOfEveryRun(cfg: Config, workers: nat, actions: seq<Action>, epoch: nat)
    requires forall i | 0 <= i < |actions| :: !actions[i].RecordOne?
    ensures |After(cfg, workers, actions).threads| == workers
    ensures WithinCap(cfg, After(cfg, workers, actions), epoch)
    ensures var n := |UsedIn(After(cfg, workers, actions).book.used, epoch)|;
      n == 0 || (cfg.maxPendingPerEpoch >= 1 && n <= cfg.maxPendingPerEpoch + workers - 1)
  {
    hide Step, InFlight, UsedIn;
    if actions == [] {
      InFlightNone(Start(workers).threads, epoch);
      NothingUsed(workers, epoch);
    } else {
      var last := |actions| - 1;
      EpochCapOfEveryRun(cfg, workers, actions[..last], epoch);
      WithinCapKept(cfg, After(cfg, workers, actions[..last]), actions[last], epoch);
      StepThreads(cfg, After(cfg, workers, actions[..last]), actions[last]);
    }
  }

  lemma NothingUsed(workers: nat, epoch: nat)
    ensures UsedIn(Start(workers).book.used, epoch) == {}
  {
  }

  lemma StepThreads(cfg: Config, w: World, a: Action)
    ensures |Step(cfg, w, a).threads| == |w.threads|
  {
    hide Marked, Tallied;
  }

  // ---------- no solution is assigned twice

  /** A mark that drops epoch e from the used-set comes after position i. */
  ghost predicate PrunedAfter(marks: seq<Mark>, i: nat, e: nat) {
    exists k :: i < k < |marks| && marks[k].epoch >= e + 2
  }

  ghost predicate MarksRemembered(w: World) {
    forall i | 0 <= i < |w.marks| ::
      w.marks[i].nonce in UsedIn(w.book.used, w.marks[i].epoch) || PrunedAfter(w.marks, i, w.marks[i].epoch)
  }

  ghost predicate NoSecondAssignment(marks: seq<Mark>) {
    forall i, j | 0 <= i < j < |marks| && marks[j].bySubmit
                  && marks[i].epoch == marks[j].epoch && marks[i].nonce == marks[j].nonce ::
      exists k :: i < k < j && marks[k].epoch >= marks[i].epoch + 2
  }

  lemma MarkAppended(w: World, w': World, m: Mark)
    requires MarksRemembered(w) && w'.marks == w.marks + [m]
    requires w'.book.used == Marked(w.book.used, m.epoch, m.nonce)
    ensures MarksRemembered(w')
  {
    hide Marked, UsedIn;
    forall i | 0 <= i < |w'.marks|
      ensures w'.marks[i].nonce in UsedIn(w'.book.used, w'.marks[i].epoch)
              || PrunedAfter(w'.marks, i, w'.marks[i].epoch)
    {
      var e := w'.marks[i].epoch;
      MarkEffect(w.book.used, m.epoch, m.nonce, e);
      if i < |w.marks| {
        assert w.marks[i] == w'.marks[i];
        if e + 1 < m.epoch {
          assert w'.marks[|w.marks|].epoch >= e + 2;
        } else if PrunedAfter(w.marks, i, e) {
          var k :| i < k < |w.marks| && w.marks[k].epoch >= e + 2;
          assert w'.marks[k].epoch >= e + 2;
        }
      }
    }
  }

  lemma FreshAssignment(w: World, m: Mark)
    requires MarksRemembered(w) && NoSecondAssignment(w.marks)
    requires m.bySubmit ==> m.nonce !in UsedIn(w.book.used, m.epoch)
    ensures NoSecondAssignment(w.marks + [m])
  {
    hide UsedIn;
    var marks := w.marks + [m];
    forall i, j | 0 <= i < j < |marks| && marks[j].bySubmit
                  && marks[i].epoch == marks[j].epoch && marks[i].nonce == marks[j].nonce
      ensures exists k :: i < k < j && marks[k].epoch >= marks[i].epoch + 2
    {
      assert w.marks[i] == marks[i];
      if j < |w.marks| {
        assert w.marks[j] == marks[j];
        var k :| i < k < j && w.marks[k].epoch >= w.marks[i].epoch + 2;
        assert marks[k].epoch >= marks[i].epoch + 2;
      } else {
        assert PrunedAfter(w.marks, i, w.marks[i].epoch);
        var k :| i < k < |w.marks| && w.marks[k].epoch >= w.marks[i].epoch + 2;
        assert marks[k].epoch >= marks[i].epoch + 2;
      }
    }
  }

  lemma MarksKept(cfg: Config, w: World, a: Action)
    requires MarksRemembered(w) && NoSecondAssignment(w.marks)
    ensures MarksRemembered(Step(cfg, w, a)) && NoSecondAssignment(Step(cfg, w, a).marks)
  {
    hide Marked, UsedIn, NoSecondAssignment, MarksRemembered;
    var w' := Step(cfg, w, a);
    if a.Claim? && Enabled(w, a) && w'.marks != w.marks {
      var m := Mark(w.threads[a.t].sol.epoch, w.threads[a.t].sol.nonce, true);
      MarkAppended(w, w', m);
      FreshAssignment(w, m);
    } else if a.RecordOne? {
      MarkAppended(w, w', Mark(a.epoch, a.nonce, false));
      FreshAssignment(w, Mark(a.epoch, a.nonce, false));
    } else {
      SameMarks(w, w');
    }
  }

  lemma SameMarks(w: World, w': World)
    requires MarksRemembered(w) && w'.marks == w.marks && w'.book.used == w.book.used
    ensures MarksRemembered(w')
  {
  }

  /** submit assigns a transaction nonce to an (epoch, nonce) that was marked before only if a mark two or more epochs
      later has come in between. */
  lemma {:induction false} AssignedOnce(cfg: Config, workers: nat, actions: seq<Action>)
    ensures MarksRemembered(After(cfg, workers, actions)) && NoSecondAssignment(After(cfg, workers, actions).marks)
  {
    hide Step, MarksRemembered;
    if actions == [] {
      NoMarks(workers);
    } else {
      var last := |actions| - 1;
      AssignedOnce(cfg, workers, actions[..last]);
      MarksKept(cfg, After(cfg, workers, actions[..last]), actions[last]);
    }
  }

  lemma NoMarks(workers: nat)
    ensures MarksRemembered(Start(workers))
  {
  }

  /** The (epoch, nonce) was marked, and nothing since then has dropped the epoch. */
  ghost predicate Standing(marks: seq<Mark>, epoch: nat, nonce: uint256) {
    exists i :: 0 <= i < |marks| && marks[i].epoch == epoch && marks[i].nonce == nonce && !PrunedAfter(marks, i, epoch)
  }

  ghost predicate UsedByMarks(w: World) {
    forall epoch: nat, nonce: uint256 :: nonce in UsedIn(w.book.used, epoch) <==> Standing(w.marks, epoch, nonce)
  }

  lemma PrunedLonger(marks: seq<Mark>, m: Mark, i: nat, epoch: nat)
    requires i < |marks|
    ensures PrunedAfter(marks + [m], i, epoch) <==> PrunedAfter(marks, i, epoch) || m.epoch >= epoch + 2
  {
    var longer := marks + [m];
    if m.epoch >= epoch + 2 { assert longer[|marks|].epoch >= epoch + 2; }
    if k :| i < k < |marks| && marks[k].epoch >= epoch + 2 { assert longer[k].epoch >= epoch + 2; }
    if k :| i < k < |longer| && longer[k].epoch >= epoch + 2 {
      if k < |marks| { assert marks[k].epoch >= epoch + 2; }
    }
  }

  lemma StandingLonger(marks: seq<Mark>, m: Mark, epoch: nat, nonce: uint256)
    ensures Standing(marks + [m], epoch, nonce)
            <==> (m.epoch == epoch && m.nonce == nonce) || (Standing(marks, epoch, nonce) && m.epoch < epoch + 2)
  {
    var longer := marks + [m];
    if m.epoch == epoch && m.nonce == nonce {
      assert longer[|marks|] == m && !PrunedAfter(longer, |marks|, epoch);
    }
    hide PrunedAfter;
    if Standing(marks, epoch, nonce) && m.epoch < epoch + 2 {
      var i :| 0 <= i < |marks| && marks[i].epoch == epoch && marks[i].nonce == nonce && !PrunedAfter(marks, i, epoch);
      PrunedLonger(marks, m, i, epoch);
      assert longer[i] == marks[i];
    }
    if Standing(longer, epoch, nonce) && !(m.epoch == epoch && m.nonce == nonce) {
      var i :| 0 <= i < |longer| && longer[i].epoch == epoch && longer[i].nonce == nonce
               && !PrunedAfter(longer, i, epoch);
      PrunedLonger(marks, m, i, epoch);
      assert longer[i] == marks[i];
    }
  }

  lemma MarkedByMarks(w: World, w': World, m: Mark)
    requires UsedByMarks(w) && w'.marks == w.marks + [m]
    requires w'.book.used == Marked(w.book.used, m.epoch, m.nonce)
    ensures UsedByMarks(w')
  {
    hide Marked, UsedIn, Standing;
    forall epoch: nat, nonce: uint256
      ensures nonce in UsedIn(w'.book.used, epoch) <==> Standing(w'.marks, epoch, nonce)
    {
      MarkEffect(w.book.used, m.epoch, m.nonce, epoch);
      StandingLonger(w.marks, m, epoch, nonce);
    }
  }

  lemma UsedByMarksKept(cfg: Config, w: World, a: Action)
    requires UsedByMarks(w)
    ensures UsedByMarks(Step(cfg, w, a))
  {
    hide Marked, UsedIn, UsedByMarks;
    var w' := Step(cfg, w, a);
    if a.Claim? && Enabled(w, a) && w'.marks != w.marks {
      MarkedByMarks(w, w', Mark(w.threads[a.t].sol.epoch, w.threads[a.t].sol.nonce, true));
    } else if a.RecordOne? {
      MarkedByMarks(w, w', Mark(a.epoch, a.nonce, false));
    } else {
      SameUsed(w, w');
    }
  }

  lemma SameUsed(w: World, w': World)
    requires UsedByMarks(w) && w'.marks == w.marks && w'.book.used == w.book.used
    ensures UsedByMarks(w')
  {
  }

  lemma NothingStands(workers: nat)
    ensures UsedByMarks(Start(workers))
  {
  }

  lemma {:induction false} UsedByMarksInEveryRun(cfg: Config, workers: nat, actions: seq<Action>)
    ensures UsedByMarks(After(cfg, workers, actions))
  {
    hide Step, UsedByMarks;
    if actions == [] {
      NothingStands(workers);
    } else {
      var last := |actions| - 1;
      UsedByMarksInEveryRun(cfg, workers, actions[..last]);
      UsedByMarksKept(cfg, After(cfg, workers, actions[..last]), actions[last]);
    }
  }

  /** The (epoch, nonce) pairs of one epoch that stand. */
  ghost predicate AreStanding(marks: seq<Mark>, epoch: nat, nonces: set<uint256>) {
    forall nonce: uint256 :: nonce in nonces <==> Standing(marks, epoch, nonce)
  }

  /** How the two critical sections of submit decide, in every run and from the marks alone: a solution is a duplicate
      exactly when its nonce was marked in its epoch and no mark two or more epochs later has come since, and the cap is
      on the number of such nonces. */
  lemma RefusedExactly(cfg: Config, workers: nat, actions: seq<Action>, sol: Solution, rpc: Option<nat>,
                       nonces: set<uint256>)
    requires AreStanding(After(cfg, workers, actions).marks, sol.epoch, nonces)
    ensures var w := After(cfg, workers, actions);
      && Admit(cfg, w.book, sol).1 == (
           if !cfg.hasAddress then Skipped
           else if Standing(w.marks, sol.epoch, sol.nonce) then Duplicate
           else if |nonces| >= cfg.maxPendingPerEpoch then EpochCap
           else Proceed)
      && Assign(cfg, w.book, sol, rpc).1 == (
           if Standing(w.marks, sol.epoch, sol.nonce) then Duplicate
           else if w.book.txNonce.Some? then Assigned(w.book.txNonce.value)
           else if cfg.dryRun then Assigned(0)
           else if rpc.Some? then Assigned(rpc.value)
           else RpcError)
  {
    hide After, UsedIn, Standing, Marked;
    UsedByMarksInEveryRun(cfg, workers, actions);
    assert nonces == UsedIn(After(cfg, workers, actions).book.used, sol.epoch);
  }

  lemma AfterAppend(cfg: Config, workers: nat, actions: seq<Action>, a: Action)
    ensures After(cfg, workers, actions + [a]) == Step(cfg, After(cfg, workers, actions), a)
  {
    hide Step;
    assert (actions + [a])[..|actions|] == actions;
  }
}
