/** The accounts of sent transactions: where each one ends, and what the earnings are. */
module Receipts {
  import opened Words
  import opened ProofOfWork
  import opened Submission
  import opened Interleaving

  // ---------- sweeps among other threads

  function Sum(s: seq<nat>): nat {
    if s == [] then 0 else Sum(s[..|s| - 1]) + s[|s| - 1]
  }

  /** Sent transactions the sweep has not settled: on the list, or already carried over to the rebuilt one. */
  function Unsettled(w: World): int {
    match w.sweep
    case Resting => |w.book.pending|
    case Looping(next, still) => |still| + |w.book.pending| - next
    case Leaving(seen, still) => |still| + |w.book.pending| - seen
  }

  /** Appends that the running sweep is about to overwrite. */
  function Doomed(w: World): int {
    if w.sweep.Leaving? then |w.book.pending| - w.sweep.seen else 0
  }

  ghost predicate Balanced(w: World) {
    && w.book.sent == w.book.confirmed + w.book.reverted + w.expired + w.lost + Unsettled(w)
    && w.late == w.lost + Doomed(w)
    && (w.sweep.Looping? ==> w.sweep.next <= |w.book.pending|)
    && (w.sweep.Leaving? ==> w.sweep.seen <= |w.book.pending|)
    && w.book.hashEarned == Sum(w.rewards) && w.book.confirmed == |w.rewards|
  }

  lemma SumAppend(s: seq<nat>, x: nat)
    ensures Sum(s + [x]) == Sum(s) + x
  {
    assert (s + [x])[..|s|] == s;
  }

  lemma ClaimBalanced(cfg: Config, w: World, t: nat, rpc: Option<nat>)
    requires Balanced(w)
    ensures Balanced(Step(cfg, w, Claim(t, rpc)))
  {
    hide Marked, Sum, UsedIn;
  }

  lemma BalancedKept(cfg: Config, w: World, a: Action)
    requires Balanced(w)
    ensures Balanced(Step(cfg, w, a))
  {
    hide Marked, Sum, UsedIn;
    if a.Claim? {
      ClaimBalanced(cfg, w, a.t, a.rpc);
      hide Step, Balanced;
    } else if a.SweepOne? && Enabled(w, a) && a.receipt.Success? {
      SumAppend(w.rewards, a.receipt.reward);
    }
  }

  lemma {:induction false} BalancedInEveryRun(cfg: Config, workers: nat, actions: seq<Action>)
    ensures Balanced(After(cfg, workers, actions))
  {
    hide Step, Balanced;
    if actions == [] {
      BalancedAtStart(workers);
    } else {
      var last := |actions| - 1;
      BalancedInEveryRun(cfg, workers, actions[..last]);
      BalancedKept(cfg, After(cfg, workers, actions[..last]), actions[last]);
    }
  }

  lemma BalancedAtStart(workers: nat)
    ensures Balanced(Start(workers))
  {
  }

  /** In every interleaving, between sweeps: the accounts add up to what was sent exactly when no transaction was ever
      appended between the end of a sweep's loop and its assignment of the rebuilt list. */
  lemma ConservedExactlyWhenNoneLate(cfg: Config, workers: nat, actions: seq<Action>)
    ensures var w := After(cfg, workers, actions);
      && w.book.hashEarned == Sum(w.rewards) && w.book.confirmed == |w.rewards|
      && (w.sweep.Resting? ==>
            (w.book.sent == w.book.confirmed + w.book.reverted + |w.book.pending| + w.expired <==> w.late == 0))
  {
    BalancedInEveryRun(cfg, workers, actions);
    hide After, Sum;
  }

  // ---------- which transactions a sweep keeps

  /** What the sweep has kept so far is what its receipts keep of the list's front, and the list only grows behind. */
  ghost predicate SweepSound(w: World) {
    match w.sweep
    case Resting => true
    case Looping(next, still) =>
      next == |w.answers| <= |w.book.pending| && KeptInOrder(w.book.pending[..next], w.answers, still)
    case Leaving(seen, still) =>
      seen == |w.answers| <= |w.book.pending| && KeptInOrder(w.book.pending[..seen], w.answers, still)
  }

  lemma SweepOneSound(cfg: Config, w: World, r: Receipt)
    requires SweepSound(w) && Enabled(w, SweepOne(r))
    ensures SweepSound(Step(cfg, w, SweepOne(r)))
  {
    hide KeptInOrder, Tallied;
    var next, still := w.sweep.next, w.sweep.still;
    KeptInOrderGrows(w.book.pending[..next], w.answers, still, w.book.pending[next], r);
    assert w.book.pending[..next + 1] == w.book.pending[..next] + [w.book.pending[next]];
    TalliedPending(w.book, r);
  }

  lemma TalliedPending(b: Book, r: Receipt)
    ensures Tallied(b, r).pending == b.pending
  {
  }

  lemma FrontStays(w: World, w': World)
    requires SweepSound(w) && w'.sweep == w.sweep && w'.answers == w.answers && w.book.pending <= w'.book.pending
    ensures SweepSound(w')
  {
    hide KeptInOrder;
    if w.sweep.Looping? { assert w'.book.pending[..w.sweep.next] == w.book.pending[..w.sweep.next]; }
    if w.sweep.Leaving? { assert w'.book.pending[..w.sweep.seen] == w.book.pending[..w.sweep.seen]; }
  }

  lemma OtherSteps(cfg: Config, w: World, a: Action)
    requires !a.StartSweep? && !a.SweepOne? && !a.StopSweep? && !a.Replace?
    ensures var w' := Step(cfg, w, a);
      w'.sweep == w.sweep && w'.answers == w.answers && w.book.pending <= w'.book.pending
  {
    hide Marked, UsedIn;
  }

  lemma SweepSoundKept(cfg: Config, w: World, a: Action)
    requires SweepSound(w)
    ensures SweepSound(Step(cfg, w, a))
  {
    hide KeptInOrder, Marked, UsedIn;
    match a
    case StartSweep =>
      NothingKept();
      assert w.book.pending[..0] == [];
    case SweepOne(r) => if Enabled(w, a) { SweepOneSound(cfg, w, r); }
    case StopSweep =>
    case Replace =>
    case _ =>
      OtherSteps(cfg, w, a);
      hide Step;
      FrontStays(w, Step(cfg, w, a));
  }

  lemma StartSweepSound(workers: nat)
    ensures SweepSound(Start(workers))
  {
  }

  lemma {:induction false} SweepSoundInEveryRun(cfg: Config, workers: nat, actions: seq<Action>)
    ensures SweepSound(After(cfg, workers, actions))
  {
    hide Step, SweepSound;
    if actions == [] {
      StartSweepSound(workers);
    } else {
      var last := |actions| - 1;
      SweepSoundInEveryRun(cfg, workers, actions[..last]);
      SweepSoundKept(cfg, After(cfg, workers, actions[..last]), actions[last]);
    }
  }

  /** In every interleaving the list a sweep assigns holds exactly the transactions its receipts keep of those that were
      pending when its loop ended, in their order. */
  lemma ReplacedInOrder(cfg: Config, workers: nat, actions: seq<Action>)
    requires After(cfg, workers, actions).sweep.Leaving?
    ensures var w := After(cfg, workers, actions);
      && |w.answers| == w.sweep.seen <= |w.book.pending|
      && KeptInOrder(w.book.pending[..w.sweep.seen], w.answers, Step(cfg, w, Replace).book.pending)
  {
    hide After, KeptInOrder;
    SweepSoundInEveryRun(cfg, workers, actions);
  }

  /** Bundle mode: no single submissions, and bundles are recorded by the thread that also sweeps. */
  ghost predicate BundleMode(cfg: Config, workers: nat, actions: seq<Action>) {
    actions != [] ==>
      && BundleMode(cfg, workers, actions[..|actions| - 1])
      && !actions[|actions| - 1].Begin?
      && (actions[|actions| - 1].RecordOne? ==> After(cfg, workers, actions[..|actions| - 1]).sweep.Resting?)
  }

  ghost predicate NoneLate(w: World) {
    w.late == 0 && forall t | 0 <= t < |w.threads| :: w.threads[t].Idle?
  }

  lemma NoneLateKept(cfg: Config, w: World, a: Action)
    requires NoneLate(w) && !a.Begin? && (a.RecordOne? ==> w.sweep.Resting?)
    ensures NoneLate(Step(cfg, w, a))
  {
    hide Marked;
  }

  lemma {:induction false} BundleModeNeverLate(cfg: Config, workers: nat, actions: seq<Action>)
    requires BundleMode(cfg, workers, actions)
    ensures NoneLate(After(cfg, workers, actions))
  {
    hide Step;
    if actions != [] {
      var last := |actions| - 1;
      BundleModeNeverLate(cfg, workers, actions[..last]);
      hide NoneLate;
      NoneLateKept(cfg, After(cfg, workers, actions[..last]), actions[last]);
    }
  }

  /** Bundle mode conserves: sent = confirmed + reverted + pending + expired between sweeps, in every run. */
  lemma BundleModeConserves(cfg: Config, workers: nat, actions: seq<Action>)
    requires BundleMode(cfg, workers, actions)
    ensures var w := After(cfg, workers, actions);
      && w.book.hashEarned == Sum(w.rewards) && w.book.confirmed == |w.rewards|
      && (w.sweep.Resting? ==> w.book.sent == w.book.confirmed + w.book.reverted + |w.book.pending| + w.expired)
  {
    BundleModeNeverLate(cfg, workers, actions);
    ConservedExactlyWhenNoneLate(cfg, workers, actions);
    hide After, Sum, BundleMode;
  }

  // ---------- an append in the window

  predicate Appends(w: World, a: Action) {
    (a.Succeed? && Enabled(w, a)) || a.RecordOne?
  }

  function Appended(w: World, a: Action): Pending
    requires Appends(w, a)
  {
    match a
    case Succeed(t, txHash) => Pending(txHash, w.threads[t].sol.nonce, w.threads[t].sol.epoch)
    case RecordOne(txHash, nonce, epoch) => Pending(txHash, nonce, epoch)
  }

  lemma AppendIs(cfg: Config, w: World, a: Action)
    requires Appends(w, a)
    ensures Step(cfg, w, a).book.pending == w.book.pending + [Appended(w, a)]
    ensures Step(cfg, w, a).book.sent == w.book.sent + 1 && Step(cfg, w, a).sweep == w.sweep
    ensures Step(cfg, w, a).lost == w.lost
  {
    hide Marked;
  }

  /** Between the sweep's loop and its assignment the list only grows. */
  lemma WindowStep(cfg: Config, w: World, a: Action)
    requires w.sweep.Leaving? && !a.Replace?
    ensures var w' := Step(cfg, w, a); w'.sweep == w.sweep && w'.lost == w.lost && w.book.pending <= w'.book.pending
  {
    hide Marked, UsedIn;
  }

  lemma {:induction false} WindowRun(cfg: Config, workers: nat, actions: seq<Action>, more: seq<Action>)
    requires After(cfg, workers, actions).sweep.Leaving? && forall i | 0 <= i < |more| :: !more[i].Replace?
    ensures var w, w' := After(cfg, workers, actions), After(cfg, workers, actions + more);
      w'.sweep == w.sweep && w'.lost == w.lost && w.book.pending <= w'.book.pending
  {
    hide Step, After;
    if more == [] {
      assert actions + more == actions;
    } else {
      var init, a := more[..|more| - 1], more[|more| - 1];
      WindowRun(cfg, workers, actions, init);
      assert actions + more == actions + init + [a];
      AfterAppend(cfg, workers, actions + init, a);
      WindowStep(cfg, After(cfg, workers, actions + init), a);
    }
  }

  /** Any transaction recorded in that window is forgotten, whatever else is recorded there: it joins the list, the
      assignment puts back what the loop had kept, and it counts as sent without being in any account. */
  lemma LateAppendIsLost(cfg: Config, workers: nat, actions: seq<Action>, a: Action, more: seq<Action>)
    requires var w := After(cfg, workers, actions); w.sweep.Leaving? && Appends(w, a)
    requires forall i | 0 <= i < |more| :: !more[i].Replace?
    ensures var w, w1 := After(cfg, workers, actions), After(cfg, workers, actions + [a] + more);
      var w2 := After(cfg, workers, actions + [a] + more + [Replace]);
      && w.sweep.seen <= |w.book.pending| < |w1.book.pending|
      && w1.book.pending[|w.book.pending|] == Appended(w, a)
      && w2.book.pending == w.sweep.still && w2.lost == w.lost + |w1.book.pending| - w.sweep.seen
  {
    hide After, Step, Appends, Appended;
    var w := After(cfg, workers, actions);
    BalancedInEveryRun(cfg, workers, actions);
    AppendIs(cfg, w, a);
    AfterAppend(cfg, workers, actions, a);
    WindowRun(cfg, workers, actions + [a], more);
    AfterAppend(cfg, workers, actions + [a] + more, Replace);
    ReplaceIs(cfg, After(cfg, workers, actions + [a] + more));
  }

  lemma ReplaceIs(cfg: Config, w: World)
    requires w.sweep.Leaving? && w.sweep.seen <= |w.book.pending|
    ensures var w' := Step(cfg, w, Replace);
      w'.book.pending == w.sweep.still && w'.lost == w.lost + |w.book.pending| - w.sweep.seen
  {
  }

  // ---------- a run that loses one

  /** A thread sends one solution and, while the sweep finds no receipt for it, a second one, recorded in the window. */
  function LateRun(a: Solution, b: Solution, n: nat, first: bytes32, second: bytes32): seq<Action> {
    [Begin(0, a), Claim(0, Some(n)), Succeed(0, first), Begin(0, b), Claim(0, None), StartSweep, SweepOne(NotYet),
     StopSweep, Succeed(0, second), Replace]
  }

  ghost predicate SecondUnderWay(w: World, a: Solution, b: Solution, n: nat, first: bytes32) {
    && |w.threads| >= 1 && w.threads[0] == Sending(b, n + 1) && w.sweep.Resting?
    && w.book.pending == [Pending(first, a.nonce, a.epoch)] && w.book.sent == 1
    && w.book.confirmed == w.book.reverted == w.expired == 0
  }

  lemma FirstFive(cfg: Config, workers: nat, a: Solution, b: Solution, n: nat, first: bytes32, second: bytes32)
    requires workers >= 1 && cfg.hasAddress && !cfg.dryRun && cfg.maxPendingPerEpoch >= 2
    requires a.epoch == b.epoch && a.nonce != b.nonce
    ensures var r := LateRun(a, b, n, first, second);
      var w := Step(cfg, Step(cfg, Step(cfg, Start(workers), r[0]), r[1]), r[2]);
      SecondUnderWay(Step(cfg, Step(cfg, w, r[3]), r[4]), a, b, n, first)
  {
    hide Marked;
    MarkEffect(map[], a.epoch, a.nonce, a.epoch);
    assert UsedIn(map[], a.epoch) == {};
    hide UsedIn;
  }

  lemma LastFive(cfg: Config, w: World, a: Solution, b: Solution, n: nat, first: bytes32, second: bytes32)
    requires SecondUnderWay(w, a, b, n, first)
    ensures var r := LateRun(a, b, n, first, second);
      var w' := Step(cfg, Step(cfg, Step(cfg, w, r[5]), r[6]), r[7]);
      var w'' := Step(cfg, Step(cfg, w', r[8]), r[9]);
      && w''.sweep.Resting? && w''.book.sent == 2 && w''.book.pending == [Pending(first, a.nonce, a.epoch)]
      && w''.book.confirmed == w''.book.reverted == w''.expired == 0
  {
  }

  lemma NextWorld(cfg: Config, workers: nat, actions: seq<Action>, i: nat)
    requires i < |actions|
    ensures After(cfg, workers, actions[..i + 1]) == Step(cfg, After(cfg, workers, actions[..i]), actions[i])
  {
    hide Step;
    assert actions[..i + 1][..i] == actions[..i];
  }

  /** Two transactions are sent and in the end one is in the accounts: for any two solutions of an epoch. */
  lemma LateRunLosesOne(cfg: Config, workers: nat, a: Solution, b: Solution, n: nat, first: bytes32, second: bytes32)
    requires workers >= 1 && cfg.hasAddress && !cfg.dryRun && cfg.maxPendingPerEpoch >= 2
    requires a.epoch == b.epoch && a.nonce != b.nonce
    ensures var w := After(cfg, workers, LateRun(a, b, n, first, second));
      && w.sweep.Resting? && w.book.sent == 2 && w.book.pending == [Pending(first, a.nonce, a.epoch)]
      && w.book.confirmed == w.book.reverted == w.expired == 0
  {
    hide Step;
    var r := LateRun(a, b, n, first, second);
    assert After(cfg, workers, r[..0]) == Start(workers);
    hide After, SecondUnderWay;
    NextWorld(cfg, workers, r, 0);
    NextWorld(cfg, workers, r, 1);
    NextWorld(cfg, workers, r, 2);
    NextWorld(cfg, workers, r, 3);
    NextWorld(cfg, workers, r, 4);
    FirstFive(cfg, workers, a, b, n, first, second);
    var w := After(cfg, workers, r[..5]);
    NextWorld(cfg, workers, r, 5);
    NextWorld(cfg, workers, r, 6);
    NextWorld(cfg, workers, r, 7);
    NextWorld(cfg, workers, r, 8);
    NextWorld(cfg, workers, r, 9);
    LastFive(cfg, w, a, b, n, first, second);
    assert r[..10] == r;
  }
}
