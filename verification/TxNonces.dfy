/** The transaction nonces handed out to single transactions and to bundles. */
module TxNonces {
  import opened Words
  import opened ProofOfWork
  import opened Submission
  import opened Interleaving

  /** The grants follow one another without gap or overlap from `start` to `end`. */
  ghost predicate Chain(start: nat, grants: seq<Grant>, end: nat) {
    if grants == [] then start == end
    else
      var g := grants[|grants| - 1];
      g.start + g.count == end && Chain(start, grants[..|grants| - 1], g.start)
  }

  ghost predicate Filled(w: World) {
    if w.book.txNonce.Some? then Chain(w.base, w.grants, w.book.txNonce.value) else w.grants == []
  }

  lemma GrantExtends(start: nat, grants: seq<Grant>, end: nat, count: nat)
    requires Chain(start, grants, end)
    ensures Chain(start, grants + [Grant(end, count)], end + count)
  {
    assert (grants + [Grant(end, count)])[..|grants|] == grants;
  }

  lemma GrantedFilled(w: World, b: Book, start: nat, count: nat)
    requires Filled(w) && b.txNonce == Some(start + count)
    requires w.book.txNonce.Some? ==> start == w.book.txNonce.value
    ensures Filled(Granted(w, b, start, count))
  {
    hide Chain;
    ChainOfNone(start);
    GrantExtends(if w.book.txNonce.None? then start else w.base,
                 if w.book.txNonce.None? then [] else w.grants, start, count);
  }

  lemma ClaimFilled(cfg: Config, w: World, t: nat, rpc: Option<nat>)
    requires Filled(w) && Enabled(w, Claim(t, rpc))
    ensures Filled(Claimed(cfg, w, t, rpc))
  {
    hide Chain, Marked, UsedIn;
    var (b, verdict) := Assign(cfg, w.book, w.threads[t].sol, rpc);
    if verdict.Assigned? && !cfg.dryRun { GrantedFilled(w, b, verdict.txNonce, 1); }
  }

  lemma ReserveFilled(w: World, n: nat, rpc: Option<nat>)
    requires Filled(w) && Reserve(w.book, n, rpc).1.Assigned?
    ensures Filled(Granted(w, Reserve(w.book, n, rpc).0, Reserve(w.book, n, rpc).1.txNonce, n))
  {
    hide Chain, Granted;
    GrantedFilled(w, Reserve(w.book, n, rpc).0, Reserve(w.book, n, rpc).1.txNonce, n);
  }

  lemma FilledKept(cfg: Config, w: World, a: Action)
    requires Filled(w)
    ensures Filled(Step(cfg, w, a))
  {
    hide Marked, Chain, Claimed, Granted, UsedIn;
    if a.Claim? {
      if Enabled(w, a) { ClaimFilled(cfg, w, a.t, a.rpc); }
    } else if a.ReserveMany? {
      if Reserve(w.book, a.n, a.rpc).1.Assigned? { ReserveFilled(w, a.n, a.rpc); }
    } else if a.Fail? && a.hiccup && a.rpc.Some? {
      ChainOfNone(a.rpc.value);
    }
  }

  lemma ChainOfNone(n: nat)
    ensures Chain(n, [], n)
  {
  }

  lemma {:induction false} ChainOrdered(start: nat, grants: seq<Grant>, end: nat, i: nat)
    requires Chain(start, grants, end) && i < |grants|
    ensures start <= grants[i].start && grants[i].start + grants[i].count <= end
    ensures i + 1 < |grants| ==> grants[i].start + grants[i].count == grants[i + 1].start
  {
    var last := |grants| - 1;
    if i < last {
      ChainOrdered(start, grants[..last], grants[last].start, i);
    } else if i > 0 {
      ChainOrdered(start, grants[..last], grants[last].start, i - 1);
    }
    if i + 1 == last { ChainEnd(start, grants[..last], grants[last].start); }
    if i == 0 && i == last { assert grants[..last] == []; }
  }

  lemma ChainEnd(start: nat, grants: seq<Grant>, end: nat)
    requires Chain(start, grants, end) && grants != []
    ensures var g := grants[|grants| - 1]; g.start + g.count == end
  {
  }

  lemma {:induction false} ChainDisjoint(start: nat, grants: seq<Grant>, end: nat, i: nat, j: nat)
    requires Chain(start, grants, end) && i < j < |grants|
    ensures grants[i].start + grants[i].count <= grants[j].start
    decreases j
  {
    ChainOrdered(start, grants, end, j - 1);
    if i < j - 1 { ChainDisjoint(start, grants, end, i, j - 1); }
  }

  predicate Within(g: Grant, n: nat) {
    g.start <= n < g.start + g.count
  }

  lemma {:induction false} ChainCovers(start: nat, grants: seq<Grant>, end: nat, n: nat)
    requires Chain(start, grants, end) && start <= n < end
    ensures exists i :: 0 <= i < |grants| && Within(grants[i], n)
  {
    var last := |grants| - 1;
    if n >= grants[last].start {
      assert Within(grants[last], n);
    } else {
      ChainCovers(start, grants[..last], grants[last].start, n);
      var i :| 0 <= i < last && Within(grants[..last][i], n);
      assert Within(grants[i], n);
    }
  }

  lemma {:induction false} FilledInEveryRun(cfg: Config, workers: nat, actions: seq<Action>)
    ensures Filled(After(cfg, workers, actions))
  {
    hide Step, Chain;
    if actions != [] {
      var last := |actions| - 1;
      FilledInEveryRun(cfg, workers, actions[..last]);
      hide Filled;
      FilledKept(cfg, After(cfg, workers, actions[..last]), actions[last]);
    }
  }

  /** In every interleaving the nonces handed out since the last sync are exactly those from the synced value up to
      the counter, each of them once. */
  lemma TxNoncesFillInterval(cfg: Config, workers: nat, actions: seq<Action>, n: nat, i: nat, j: nat)
    ensures var w := After(cfg, workers, actions);
      && (w.book.txNonce.Some? ==>
            (w.base <= n < w.book.txNonce.value <==> exists k :: 0 <= k < |w.grants| && Within(w.grants[k], n)))
      && (i < j < |w.grants| && Within(w.grants[i], n) ==> !Within(w.grants[j], n))
  {
    FilledInEveryRun(cfg, workers, actions);
    var w := After(cfg, workers, actions);
    hide After, Chain;
    if w.book.txNonce.Some? {
      var end := w.book.txNonce.value;
      if w.base <= n < end { ChainCovers(w.base, w.grants, end, n); }
      if k :| 0 <= k < |w.grants| && Within(w.grants[k], n) { ChainOrdered(w.base, w.grants, end, k); }
      if i < j < |w.grants| { ChainDisjoint(w.base, w.grants, end, i, j); }
    }
  }

  // ---------- across resyncs

  /** Every resync answers with at least the current counter. */
  ghost predicate ResyncsForward(cfg: Config, workers: nat, actions: seq<Action>) {
    actions != [] ==>
      var before, a := After(cfg, workers, actions[..|actions| - 1]), actions[|actions| - 1];
      && ResyncsForward(cfg, workers, actions[..|actions| - 1])
      && (Enabled(before, a) && a.Fail? && a.hiccup && a.rpc.Some? && before.book.txNonce.Some?
          ==> before.book.txNonce.value <= a.rpc.value)
  }

  /** All grants ever made are in order, below the counter. */
  ghost predicate InOrder(w: World) {
    && (w.book.txNonce.None? ==> w.given == [])
    && (w.book.txNonce.Some? ==>
          forall i | 0 <= i < |w.given| :: w.given[i].start + w.given[i].count <= w.book.txNonce.value)
    && (forall i, j | 0 <= i < j < |w.given| :: w.given[i].start + w.given[i].count <= w.given[j].start)
  }

  lemma InOrderKept(cfg: Config, w: World, a: Action)
    requires InOrder(w)
    requires Enabled(w, a) && a.Fail? && a.hiccup && a.rpc.Some? && w.book.txNonce.Some?
             ==> w.book.txNonce.value <= a.rpc.value
    ensures InOrder(Step(cfg, w, a))
  {
    hide Marked;
  }

  /** If no resync ever answers below the counter, no transaction nonce is ever handed out twice. */
  lemma {:induction false} NeverRepeatedIfForward(cfg: Config, workers: nat, actions: seq<Action>)
    requires ResyncsForward(cfg, workers, actions)
    ensures InOrder(After(cfg, workers, actions))
  {
    hide Step, InOrder;
    if actions == [] {
      NothingGiven(workers);
    } else {
      var last := |actions| - 1;
      NeverRepeatedIfForward(cfg, workers, actions[..last]);
      InOrderKept(cfg, After(cfg, workers, actions[..last]), actions[last]);
    }
  }

  lemma NothingGiven(workers: nat)
    ensures InOrder(Start(workers))
  {
  }

  // ---------- exactly how often

  /** How many of the grants hold transaction nonce n. */
  function Times(grants: seq<Grant>, n: nat): nat {
    if grants == [] then 0
    else Times(grants[..|grants| - 1], n) + if Within(grants[|grants| - 1], n) then 1 else 0
  }

  lemma TimesAppend(grants: seq<Grant>, g: Grant, n: nat)
    ensures Times(grants + [g], n) == Times(grants, n) + if Within(g, n) then 1 else 0
  {
    assert (grants + [g])[..|grants|] == grants;
  }

  lemma {:induction false} TimesPositive(grants: seq<Grant>, n: nat)
    ensures Times(grants, n) > 0 <==> exists i :: 0 <= i < |grants| && Within(grants[i], n)
  {
    if grants != [] {
      var last := |grants| - 1;
      TimesPositive(grants[..last], n);
      if Within(grants[last], n) {
      } else if i :| 0 <= i < |grants| && Within(grants[i], n) {
        assert grants[..last][i] == grants[i];
      }
      if Times(grants[..last], n) > 0 {
        var i :| 0 <= i < last && Within(grants[..last][i], n);
        assert Within(grants[i], n);
      }
    }
  }

  lemma {:induction false} TimesTwo(grants: seq<Grant>, n: nat)
    ensures Times(grants, n) > 1
            <==> exists i, j :: 0 <= i < j < |grants| && Within(grants[i], n) && Within(grants[j], n)
  {
    hide Within;
    if grants != [] {
      var last := |grants| - 1;
      var init := grants[..last];
      TimesTwo(init, n);
      TimesPositive(init, n);
      if i, j :| 0 <= i < j < |grants| && Within(grants[i], n) && Within(grants[j], n) {
        assert init[i] == grants[i];
        if j < last { assert init[j] == grants[j]; }
      }
      if Times(init, n) > 1 {
        var i, j :| 0 <= i < j < last && Within(init[i], n) && Within(init[j], n);
        assert Within(grants[i], n) && Within(grants[j], n);
      } else if Times(init, n) > 0 && Within(grants[last], n) {
        var i :| 0 <= i < last && Within(init[i], n);
        assert Within(grants[i], n);
      }
    }
  }

  lemma {:induction false} TimesInChain(start: nat, grants: seq<Grant>, end: nat, n: nat)
    requires Chain(start, grants, end)
    ensures start <= end && Times(grants, n) == if start <= n < end then 1 else 0
  {
    if grants != [] {
      var last := |grants| - 1;
      TimesInChain(start, grants[..last], grants[last].start, n);
    }
  }

  /** The stretches of nonces between syncs, the current one included. */
  function AllStretches(w: World): seq<Grant> {
    w.stretches + Stretch(w)
  }

  /** The grants since the last sync are the end of all grants, and the earlier ones fill the earlier stretches. */
  ghost predicate Accounted(w: World) {
    && |w.grants| <= |w.given| && w.given[|w.given| - |w.grants|..] == w.grants
    && (forall n: nat :: Times(w.given, n) == Times(w.stretches, n) + Times(w.grants, n))
  }

  lemma CurrentStretch(w: World, n: nat)
    requires Filled(w)
    ensures Times(Stretch(w), n) == Times(w.grants, n)
    ensures Times(AllStretches(w), n) == Times(w.stretches, n) + Times(w.grants, n)
  {
    hide Chain;
    if w.book.txNonce.Some? {
      TimesInChain(w.base, w.grants, w.book.txNonce.value, n);
      TimesAppend(w.stretches, Stretch(w)[0], n);
    } else {
      assert AllStretches(w) == w.stretches;
    }
  }

  lemma GrantedAccounted(w: World, b: Book, start: nat, count: nat)
    requires Filled(w) && Accounted(w)
    ensures Accounted(Granted(w, b, start, count))
  {
    hide Times, Chain;
    var w' := Granted(w, b, start, count);
    forall n: nat ensures Times(w'.given, n) == Times(w'.stretches, n) + Times(w'.grants, n) {
      TimesAppend(w.given, Grant(start, count), n);
      TimesAppend(w.grants, Grant(start, count), n);
    }
  }

  lemma ResyncedAccounted(w: World, n: nat)
    requires Filled(w) && Accounted(w)
    ensures Accounted(Resynced(w, n))
  {
    hide Times, Chain, Filled, Stretch;
    forall m: nat ensures Times(w.given, m) == Times(Resynced(w, n).stretches, m) + Times([], m) {
      CurrentStretch(w, m);
      NoTimes(m);
    }
  }

  lemma NoTimes(n: nat)
    ensures Times([], n) == 0
  {
  }

  lemma SameAccounted(w: World, w': World)
    requires Accounted(w) && w'.given == w.given && w'.grants == w.grants && w'.stretches == w.stretches
    ensures Accounted(w')
  {
  }

  lemma AccountedKept(cfg: Config, w: World, a: Action)
    requires Filled(w) && Accounted(w)
    ensures Accounted(Step(cfg, w, a))
  {
    hide Marked, Granted, UsedIn, Accounted, Filled, Resynced;
    var w' := Step(cfg, w, a);
    if !Enabled(w, a) {
    } else if a.Claim? {
      var (b, verdict) := Assign(cfg, w.book, w.threads[a.t].sol, a.rpc);
      if verdict.Assigned? && !cfg.dryRun {
        GrantedAccounted(w, b, verdict.txNonce, 1);
        SameAccounted(Granted(w, b, verdict.txNonce, 1), w');
      } else {
        SameAccounted(w, w');
      }
    } else if a.ReserveMany? {
      var (b, verdict) := Reserve(w.book, a.n, a.rpc);
      if verdict.Assigned? { GrantedAccounted(w, b, verdict.txNonce, a.n); }
    } else if a.Fail? && a.hiccup && a.rpc.Some? {
      ResyncedAccounted(w, a.rpc.value);
      SameAccounted(Resynced(w, a.rpc.value), w');
    } else {
      SameAccounted(w, w');
    }
  }

  lemma StartAccounted(workers: nat)
    ensures Accounted(Start(workers))
  {
  }

  lemma {:induction false} AccountedInEveryRun(cfg: Config, workers: nat, actions: seq<Action>)
    ensures Accounted(After(cfg, workers, actions))
  {
    hide Step, Accounted;
    if actions == [] {
      StartAccounted(workers);
    } else {
      var last := |actions| - 1;
      AccountedInEveryRun(cfg, workers, actions[..last]);
      FilledInEveryRun(cfg, workers, actions[..last]);
      AccountedKept(cfg, After(cfg, workers, actions[..last]), actions[last]);
    }
  }

  /** In every run a transaction nonce is handed out exactly as often as there are stretches between syncs that hold it,
      and the grants since the last sync are the latest of all. */
  lemma HandedOutPerStretch(cfg: Config, workers: nat, actions: seq<Action>, n: nat)
    ensures var w := After(cfg, workers, actions);
      && Times(w.given, n) == Times(AllStretches(w), n)
      && |w.grants| <= |w.given| && w.given[|w.given| - |w.grants|..] == w.grants
  {
    AccountedInEveryRun(cfg, workers, actions);
    FilledInEveryRun(cfg, workers, actions);
    CurrentStretch(After(cfg, workers, actions), n);
    hide After, Times, Stretch, Filled;
  }

  predicate Overlap(a: Grant, b: Grant) {
    var start := if a.start <= b.start then b.start else a.start;
    start < a.start + a.count && start < b.start + b.count
  }

  lemma OverlapShares(a: Grant, b: Grant)
    ensures Overlap(a, b) <==> exists n :: Within(a, n) && Within(b, n)
  {
    var start := if a.start <= b.start then b.start else a.start;
    if Overlap(a, b) { assert Within(a, start) && Within(b, start); }
  }

  /** Exactly when a whole run hands out some transaction nonce twice: when two of its stretches overlap. */
  lemma RepeatsExactly(cfg: Config, workers: nat, actions: seq<Action>)
    ensures var w := After(cfg, workers, actions);
      (exists n: nat :: Times(w.given, n) > 1)
      <==> exists i, j :: 0 <= i < j < |AllStretches(w)| && Overlap(AllStretches(w)[i], AllStretches(w)[j])
  {
    hide After, Times, AllStretches, Overlap, Within;
    var w := After(cfg, workers, actions);
    var s := AllStretches(w);
    if n: nat :| Times(w.given, n) > 1 {
      HandedOutPerStretch(cfg, workers, actions, n);
      TimesTwo(s, n);
      var i, j :| 0 <= i < j < |s| && Within(s[i], n) && Within(s[j], n);
      OverlapShares(s[i], s[j]);
    }
    if i, j :| 0 <= i < j < |s| && Overlap(s[i], s[j]) {
      OverlapShares(s[i], s[j]);
      var n :| Within(s[i], n) && Within(s[j], n);
      HandedOutPerStretch(cfg, workers, actions, n);
      TimesTwo(s, n);
    }
  }

  /** Exactly when the grant after a resync repeats a transaction nonce handed out before: when it reaches into a
      stretch between earlier syncs, the last one included. */
  lemma ResyncRepeatsExactly(cfg: Config, workers: nat, actions: seq<Action>, t: nat, n: nat, count: nat)
    requires Enabled(After(cfg, workers, actions), Fail(t, true, Some(n)))
    ensures var w := After(cfg, workers, actions);
      var w' := Step(cfg, Step(cfg, w, Fail(t, true, Some(n))), ReserveMany(count, None));
      && w'.given == w.given + [Grant(n, count)]
      && ((exists m: nat :: Within(Grant(n, count), m) && Times(w.given, m) > 0)
          <==> exists i :: 0 <= i < |AllStretches(w)| && Overlap(AllStretches(w)[i], Grant(n, count)))
  {
    hide After, Times, AllStretches, Overlap, Within;
    var w := After(cfg, workers, actions);
    var s, g := AllStretches(w), Grant(n, count);
    if m: nat :| Within(g, m) && Times(w.given, m) > 0 {
      HandedOutPerStretch(cfg, workers, actions, m);
      TimesPositive(s, m);
      var i :| 0 <= i < |s| && Within(s[i], m);
      OverlapShares(s[i], g);
    }
    if i :| 0 <= i < |s| && Overlap(s[i], g) {
      OverlapShares(s[i], g);
      var m :| Within(s[i], m) && Within(g, m);
      HandedOutPerStretch(cfg, workers, actions, m);
      TimesPositive(s, m);
    }
  }

  /** An answer between the last synced value and the counter always makes the next grant a repeat. */
  lemma ResyncInsideRepeats(cfg: Config, workers: nat, actions: seq<Action>, t: nat, n: nat, count: nat)
    requires var w := After(cfg, workers, actions);
      Enabled(w, Fail(t, true, Some(n))) && w.book.txNonce.Some? && w.base <= n < w.book.txNonce.value
    requires count >= 1
    ensures var w := After(cfg, workers, actions);
      var w' := Step(cfg, Step(cfg, w, Fail(t, true, Some(n))), ReserveMany(count, None));
      Times(w.given, n) >= 1 && Times(w'.given, n) >= 2
  {
    hide After, Step, Times, AllStretches;
    var w := After(cfg, workers, actions);
    CurrentIsLast(w);
    assert Overlap(Stretch(w)[0], Grant(n, count));
    HandedOutPerStretch(cfg, workers, actions, n);
    TimesPositive(AllStretches(w), n);
    assert Within(AllStretches(w)[|w.stretches|], n);
    ResyncRepeatsExactly(cfg, workers, actions, t, n, count);
    TimesAppend(w.given, Grant(n, count), n);
  }

  lemma CurrentIsLast(w: World)
    requires w.book.txNonce.Some? && w.base <= w.book.txNonce.value
    ensures |AllStretches(w)| == |w.stretches| + 1
    ensures AllStretches(w)[|w.stretches|] == Stretch(w)[0] == Grant(w.base, w.book.txNonce.value - w.base)
  {
  }

  /** A claim that goes through hands out what a reservation of one would. */
  lemma ClaimGrantsOne(cfg: Config, w: World, t: nat, rpc: Option<nat>)
    requires Enabled(w, Claim(t, rpc)) && Assign(cfg, w.book, w.threads[t].sol, rpc).1.Assigned? && !cfg.dryRun
    ensures Step(cfg, w, Claim(t, rpc)).given == Step(cfg, w, ReserveMany(1, rpc)).given
    ensures Step(cfg, w, Claim(t, rpc)).grants == Step(cfg, w, ReserveMany(1, rpc)).grants
  {
    hide Marked, UsedIn;
  }

  /** A submit thread takes one solution to its send, the send meets a nonce hiccup, and it goes on to the next: the
      node counts `first` at the start and `second` at the hiccup. */
  function HiccupRun(a: Solution, b: Solution, first: nat, second: nat): seq<Action> {
    [Begin(0, a)] + [Claim(0, Some(first))] + [Fail(0, true, Some(second))] + [Begin(0, b)] + [Claim(0, None)]
  }

  /** The shortest run with a resync hands out a transaction nonce twice exactly when the node counts the same as
      before, as it does if it has not seen the failed send. */
  lemma HiccupRunRepeats(cfg: Config, workers: nat, a: Solution, b: Solution, first: nat, second: nat)
    requires workers >= 1 && cfg.hasAddress && !cfg.dryRun && cfg.maxPendingPerEpoch >= 2
    requires a.epoch == b.epoch && a.nonce != b.nonce
    ensures var w := After(cfg, workers, HiccupRun(a, b, first, second));
      && w.given == [Grant(first, 1), Grant(second, 1)]
      && ((exists n: nat :: Times(w.given, n) > 1) <==> first == second)
  {
    hide Step, Times;
    var begin, claim, fail := Begin(0, a), Claim(0, Some(first)), Fail(0, true, Some(second));
    AfterAppend(cfg, workers, [], begin);
    assert [] + [begin] == [begin] && After(cfg, workers, []) == Start(workers);
    hide After;
    AfterAppend(cfg, workers, [begin], claim);
    AfterAppend(cfg, workers, [begin] + [claim], fail);
    AfterAppend(cfg, workers, [begin] + [claim] + [fail], Begin(0, b));
    AfterAppend(cfg, workers, [begin] + [claim] + [fail] + [Begin(0, b)], Claim(0, None));
    HiccupSteps(cfg, workers, a, b, first, second);
    var given := [Grant(first, 1), Grant(second, 1)];
    if n: nat :| Times(given, n) > 1 { TimesOfTwo(given[0], given[1], n); }
    TimesOfTwo(given[0], given[1], first);
  }

  lemma TimesOfTwo(a: Grant, b: Grant, n: nat)
    ensures Times([a, b], n) == (if Within(a, n) then 1 else 0) + if Within(b, n) then 1 else 0
  {
    TimesAppend([], a, n);
    TimesAppend([a], b, n);
    assert [] + [a] == [a] && [a] + [b] == [a, b];
  }

  lemma HiccupSteps(cfg: Config, workers: nat, a: Solution, b: Solution, first: nat, second: nat)
    requires workers >= 1 && cfg.hasAddress && !cfg.dryRun && cfg.maxPendingPerEpoch >= 2
    requires a.epoch == b.epoch && a.nonce != b.nonce
    ensures var w1 := Step(cfg, Start(workers), Begin(0, a));
      var w2 := Step(cfg, w1, Claim(0, Some(first)));
      var w3 := Step(cfg, w2, Fail(0, true, Some(second)));
      Step(cfg, Step(cfg, w3, Begin(0, b)), Claim(0, None)).given == [Grant(first, 1), Grant(second, 1)]
  {
    hide Marked;
    MarkEffect(map[], a.epoch, a.nonce, a.epoch);
    assert UsedIn(map[], a.epoch) == {};
    hide UsedIn;
  }
}
