/** How full an epoch can get: the bound of `EpochCapOfEveryRun` is reached for every limit and number of threads. */
module Overtaking {
  import opened Words
  import opened ProofOfWork
  import opened Submission
  import opened Interleaving

  /** Solutions of one epoch with pairwise different nonces. */
  ghost predicate Distinct(sols: seq<Solution>, epoch: nat) {
    && (forall i | 0 <= i < |sols| :: sols[i].epoch == epoch)
    && (forall i, j | 0 <= i < j < |sols| :: sols[i].nonce != sols[j].nonce)
  }

  function NonceSet(sols: seq<Solution>): (s: set<uint256>)
    ensures forall x :: x in s <==> exists i :: 0 <= i < |sols| && sols[i].nonce == x
  {
    set i | 0 <= i < |sols| :: sols[i].nonce
  }

  lemma {:induction false} NonceCount(sols: seq<Solution>, epoch: nat)
    requires Distinct(sols, epoch)
    ensures |NonceSet(sols)| == |sols|
  {
    hide NonceSet;
    if sols == [] {
      assert NonceSet(sols) == {};
    } else {
      var init, sol := sols[..|sols| - 1], sols[|sols| - 1];
      NonceCount(init, epoch);
      NonceAppended(init, sol);
      assert sols == init + [sol];
      assert sol.nonce !in NonceSet(init);
    }
  }

  lemma NonceAppended(sols: seq<Solution>, sol: Solution)
    ensures NonceSet(sols + [sol]) == NonceSet(sols) + {sol.nonce}
  {
    forall x ensures x in NonceSet(sols + [sol]) <==> x in NonceSet(sols) + {sol.nonce} {
      if x in NonceSet(sols) {
        var i :| 0 <= i < |sols| && sols[i].nonce == x;
        assert (sols + [sol])[i].nonce == x;
      }
      if x == sol.nonce { assert (sols + [sol])[|sols|].nonce == x; }
    }
  }

  ghost predicate NoRecords(actions: seq<Action>) {
    forall i | 0 <= i < |actions| :: !actions[i].RecordOne?
  }

  // ---------- up to one below the limit, one at a time

  /** One solution taken through both critical sections by thread 0. */
  function FillActions(sols: seq<Solution>): seq<Action> {
    if sols == [] then []
    else FillActions(sols[..|sols| - 1]) + [Begin(0, sols[|sols| - 1])] + [Claim(0, Some(0))] + [Crash(0)]
  }

  ghost predicate AtRest(w: World, workers: nat, epoch: nat, sols: seq<Solution>) {
    && |w.threads| == workers && (forall t | 0 <= t < workers :: w.threads[t].Idle?)
    && UsedIn(w.book.used, epoch) == NonceSet(sols)
  }

  /** What a claim does to the used-set and the threads. */
  lemma ClaimEffect(cfg: Config, w: World, t: nat)
    requires t < |w.threads| && w.threads[t].Working?
    requires w.threads[t].sol.nonce !in UsedIn(w.book.used, w.threads[t].sol.epoch)
    ensures var w', sol := Step(cfg, w, Claim(t, Some(0))), w.threads[t].sol;
      && w'.book.used == Marked(w.book.used, sol.epoch, sol.nonce)
      && |w'.threads| == |w.threads| && !w'.threads[t].Working?
      && (forall k | 0 <= k < |w.threads| && k != t :: w'.threads[k] == w.threads[k])
  {
    hide Marked, UsedIn;
  }

  lemma BeginEffect(cfg: Config, w: World, t: nat, sol: Solution)
    requires cfg.hasAddress && t < |w.threads| && w.threads[t].Idle?
    requires sol.nonce !in UsedIn(w.book.used, sol.epoch)
    requires |UsedIn(w.book.used, sol.epoch)| < cfg.maxPendingPerEpoch
    ensures var w' := Step(cfg, w, Begin(t, sol));
      w'.book.used == w.book.used && w'.threads == w.threads[t := Working(sol)]
  {
    hide UsedIn;
  }

  lemma CrashEffect(cfg: Config, w: World, t: nat)
    requires t < |w.threads|
    ensures var w' := Step(cfg, w, Crash(t)); w'.book == w.book && w'.threads == w.threads[t := Idle]
  {
  }

  lemma OneMore(cfg: Config, w: World, workers: nat, epoch: nat, sols: seq<Solution>, sol: Solution)
    requires cfg.hasAddress && workers >= 1 && AtRest(w, workers, epoch, sols)
    requires Distinct(sols + [sol], epoch) && |sols| < cfg.maxPendingPerEpoch
    ensures var w' := Step(cfg, Step(cfg, Step(cfg, w, Begin(0, sol)), Claim(0, Some(0))), Crash(0));
      AtRest(w', workers, epoch, sols + [sol])
  {
    hide Step, UsedIn, Marked, NonceSet;
    NotAmong(sols, sol, epoch);
    NonceAppended(sols, sol);
    BeginEffect(cfg, w, 0, sol);
    var w1 := Step(cfg, w, Begin(0, sol));
    ClaimEffect(cfg, w1, 0);
    CrashEffect(cfg, Step(cfg, w1, Claim(0, Some(0))), 0);
    MarkEffect(w.book.used, epoch, sol.nonce, epoch);
  }

  lemma NotAmong(sols: seq<Solution>, sol: Solution, epoch: nat)
    requires Distinct(sols + [sol], epoch)
    ensures Distinct(sols, epoch) && sol.epoch == epoch && sol.nonce !in NonceSet(sols) && |NonceSet(sols)| == |sols|
  {
    var all := sols + [sol];
    assert all[|sols|] == sol;
    assert forall i | 0 <= i < |sols| :: all[i] == sols[i];
    NonceCount(sols, epoch);
  }

  lemma {:induction false} NoRecordsFilling(sols: seq<Solution>)
    ensures NoRecords(FillActions(sols))
  {
    if sols != [] { NoRecordsFilling(sols[..|sols| - 1]); }
  }

  lemma FillUnfolds(sols: seq<Solution>, sol: Solution)
    ensures FillActions(sols + [sol]) == FillActions(sols) + [Begin(0, sol)] + [Claim(0, Some(0))] + [Crash(0)]
  {
    assert (sols + [sol])[..|sols|] == sols;
  }

  lemma {:induction false} FilledUp(cfg: Config, workers: nat, epoch: nat, sols: seq<Solution>)
    requires cfg.hasAddress && workers >= 1 && Distinct(sols, epoch) && |sols| <= cfg.maxPendingPerEpoch
    ensures AtRest(After(cfg, workers, FillActions(sols)), workers, epoch, sols)
  {
    hide Step, UsedIn, After, AtRest, FillActions, NonceSet;
    if sols == [] {
      NothingFilled(cfg, workers, epoch);
    } else {
      var init, sol := sols[..|sols| - 1], sols[|sols| - 1];
      assert sols == init + [sol];
      FilledUp(cfg, workers, epoch, init);
      OneMore(cfg, After(cfg, workers, FillActions(init)), workers, epoch, init, sol);
      ThreeMore(cfg, workers, FillActions(init), sol);
      FillUnfolds(init, sol);
    }
  }

  lemma ThreeMore(cfg: Config, workers: nat, a: seq<Action>, sol: Solution)
    ensures After(cfg, workers, a + [Begin(0, sol)] + [Claim(0, Some(0))] + [Crash(0)])
            == Step(cfg, Step(cfg, Step(cfg, After(cfg, workers, a), Begin(0, sol)), Claim(0, Some(0))), Crash(0))
  {
    hide Step, After;
    AfterAppend(cfg, workers, a, Begin(0, sol));
    AfterAppend(cfg, workers, a + [Begin(0, sol)], Claim(0, Some(0)));
    AfterAppend(cfg, workers, a + [Begin(0, sol)] + [Claim(0, Some(0))], Crash(0));
  }

  lemma NothingFilled(cfg: Config, workers: nat, epoch: nat)
    ensures AtRest(After(cfg, workers, FillActions([])), workers, epoch, [])
  {
    assert NonceSet([]) == {};
  }

  // ---------- then all threads at once

  function Begins(crew: seq<Solution>, t: nat): seq<Action>
    requires t <= |crew|
  {
    if t == 0 then [] else Begins(crew, t - 1) + [Begin(t - 1, crew[t - 1])]
  }

  function Claims(t: nat): seq<Action> {
    if t == 0 then [] else Claims(t - 1) + [Claim(t - 1, Some(0))]
  }

  /** The first t threads have passed the check. */
  ghost predicate Passed(w: World, workers: nat, epoch: nat, first: seq<Solution>, crew: seq<Solution>, t: nat)
    requires t <= |crew|
  {
    && |w.threads| == workers && |crew| <= workers && UsedIn(w.book.used, epoch) == NonceSet(first)
    && (forall k | 0 <= k < t :: w.threads[k] == Working(crew[k]))
    && (forall k | t <= k < workers :: w.threads[k].Idle?)
  }

  /** The first t threads have marked theirs. */
  ghost predicate MarkedTo(w: World, workers: nat, epoch: nat, first: seq<Solution>, crew: seq<Solution>, t: nat)
    requires t <= |crew|
  {
    && |w.threads| == workers && |crew| <= workers && UsedIn(w.book.used, epoch) == NonceSet(first + crew[..t])
    && (forall k | t <= k < |crew| :: w.threads[k] == Working(crew[k]))
  }

  lemma Separate(first: seq<Solution>, crew: seq<Solution>, epoch: nat, t: nat)
    requires Distinct(first + crew, epoch) && t < |crew|
    ensures Distinct(first, epoch) && Distinct(first + [crew[t]], epoch)
            && Distinct(first + crew[..t] + [crew[t]], epoch)
  {
    var all := first + crew;
    assert forall i | 0 <= i < |first| :: all[i] == first[i];
    assert forall i | 0 <= i < |crew| :: all[|first| + i] == crew[i];
  }

  lemma {:induction false} AllPass(cfg: Config, workers: nat, epoch: nat, before: seq<Action>, first: seq<Solution>,
                                   crew: seq<Solution>, t: nat)
    requires cfg.hasAddress && |first| < cfg.maxPendingPerEpoch && |crew| <= workers && t <= |crew|
    requires Distinct(first + crew, epoch) && AtRest(After(cfg, workers, before), workers, epoch, first)
    ensures Passed(After(cfg, workers, before + Begins(crew, t)), workers, epoch, first, crew, t)
  {
    hide Step, UsedIn, NonceSet, After;
    if t == 0 {
      assert before + Begins(crew, 0) == before;
    } else {
      AllPass(cfg, workers, epoch, before, first, crew, t - 1);
      Separate(first, crew, epoch, t - 1);
      NotAmong(first, crew[t - 1], epoch);
      BeginEffect(cfg, After(cfg, workers, before + Begins(crew, t - 1)), t - 1, crew[t - 1]);
      AfterAppend(cfg, workers, before + Begins(crew, t - 1), Begin(t - 1, crew[t - 1]));
      assert before + Begins(crew, t) == before + Begins(crew, t - 1) + [Begin(t - 1, crew[t - 1])];
    }
  }

  lemma MarkOne(cfg: Config, w: World, workers: nat, epoch: nat, first: seq<Solution>, crew: seq<Solution>, t: nat)
    requires Distinct(first + crew, epoch) && t < |crew| && MarkedTo(w, workers, epoch, first, crew, t)
    ensures MarkedTo(Step(cfg, w, Claim(t, Some(0))), workers, epoch, first, crew, t + 1)
  {
    hide Step, UsedIn, NonceSet, Marked, Distinct;
    Separate(first, crew, epoch, t);
    NotAmong(first + crew[..t], crew[t], epoch);
    NonceAppended(first + crew[..t], crew[t]);
    assert first + crew[..t + 1] == first + crew[..t] + [crew[t]];
    ClaimEffect(cfg, w, t);
    MarkEffect(w.book.used, epoch, crew[t].nonce, epoch);
  }

  lemma NoneMarked(w: World, workers: nat, epoch: nat, first: seq<Solution>, crew: seq<Solution>)
    requires Passed(w, workers, epoch, first, crew, |crew|)
    ensures MarkedTo(w, workers, epoch, first, crew, 0)
  {
    assert first + crew[..0] == first;
  }

  lemma {:induction false} AllMark(cfg: Config, workers: nat, epoch: nat, before: seq<Action>, first: seq<Solution>,
                                   crew: seq<Solution>, t: nat)
    requires Distinct(first + crew, epoch) && t <= |crew|
    requires Passed(After(cfg, workers, before), workers, epoch, first, crew, |crew|)
    ensures MarkedTo(After(cfg, workers, before + Claims(t)), workers, epoch, first, crew, t)
  {
    hide Step, After, MarkedTo, Passed, Distinct;
    if t == 0 {
      assert before + Claims(0) == before;
      NoneMarked(After(cfg, workers, before), workers, epoch, first, crew);
    } else {
      AllMark(cfg, workers, epoch, before, first, crew, t - 1);
      MarkOne(cfg, After(cfg, workers, before + Claims(t - 1)), workers, epoch, first, crew, t - 1);
      AfterAppend(cfg, workers, before + Claims(t - 1), Claim(t - 1, Some(0)));
      assert before + Claims(t) == before + Claims(t - 1) + [Claim(t - 1, Some(0))];
    }
  }

  lemma {:induction false} NoRecordsHere(crew: seq<Solution>, t: nat)
    requires t <= |crew|
    ensures NoRecords(Begins(crew, t)) && NoRecords(Claims(t))
  {
    if t > 0 { NoRecordsHere(crew, t - 1); }
  }

  /** Fill to one below the limit, then let a whole crew pass the check before any of them marks. */
  function Overtake(first: seq<Solution>, crew: seq<Solution>): seq<Action> {
    FillActions(first) + Begins(crew, |crew|) + Claims(|crew|)
  }

  /** For every limit of at least one and any crew of threads, the epoch ends one below the limit plus the crew. */
  lemma CapIsReached(cfg: Config, workers: nat, epoch: nat, first: seq<Solution>, crew: seq<Solution>)
    requires cfg.hasAddress && 1 <= |crew| <= workers && |first| == cfg.maxPendingPerEpoch - 1
    requires Distinct(first + crew, epoch)
    ensures NoRecords(Overtake(first, crew))
    ensures UsedIn(After(cfg, workers, Overtake(first, crew)).book.used, epoch) == NonceSet(first + crew)
    ensures |UsedIn(After(cfg, workers, Overtake(first, crew)).book.used, epoch)| == cfg.maxPendingPerEpoch - 1 + |crew|
  {
    hide Step, UsedIn, NonceSet, After;
    Separate(first, crew, epoch, 0);
    FilledUp(cfg, workers, epoch, first);
    AllPass(cfg, workers, epoch, FillActions(first), first, crew, |crew|);
    AllMark(cfg, workers, epoch, FillActions(first) + Begins(crew, |crew|), first, crew, |crew|);
    assert crew[..|crew|] == crew;
    NonceCount(first + crew, epoch);
    NoRecordsFilling(first);
    NoRecordsHere(crew, |crew|);
  }

  // ---------- when the limit can be exceeded

  function Zero32(): bytes32 {
    ToBigEndian(0, 32)
  }

  function Sample(n: nat): (sols: seq<Solution>)
    requires n <= TWO256
    ensures |sols| == n && Distinct(sols, 0)
  {
    seq(n, i requires 0 <= i < n => Solution(Zero32(), i, 0, Zero32(), 0))
  }

  ghost predicate Exceeds(cfg: Config, workers: nat, actions: seq<Action>, epoch: nat) {
    NoRecords(actions) && |UsedIn(After(cfg, workers, actions).book.used, epoch)| > cfg.maxPendingPerEpoch
  }

  /** Some interleaving takes an epoch over its limit exactly when there are two or more threads and the limit lets
      anything through at all. */
  lemma LimitExceededExactly(cfg: Config, workers: nat)
    requires cfg.hasAddress && 0 <= cfg.maxPendingPerEpoch < TWO256
    ensures (exists actions, epoch :: Exceeds(cfg, workers, actions, epoch))
            <==> workers >= 2 && cfg.maxPendingPerEpoch >= 1
  {
    hide After, UsedIn, NonceSet, Overtake, TWO256;
    if actions, epoch :| Exceeds(cfg, workers, actions, epoch) {
      EpochCapOfEveryRun(cfg, workers, actions, epoch);
    }
    if workers >= 2 && cfg.maxPendingPerEpoch >= 1 {
      var n := cfg.maxPendingPerEpoch;
      var sols := Sample(n + 1);
      assert sols[..n - 1] + sols[n - 1..] == sols;
      CapIsReached(cfg, workers, 0, sols[..n - 1], sols[n - 1..]);
      assert Exceeds(cfg, workers, Overtake(sols[..n - 1], sols[n - 1..]), 0);
    }
  }
}
