/** The GPU farm (`gpu.py`) and the miner (`miner.py`): jobs, found nonces, the drain and the bundle buffer, one
    operation per critical section.  What a device reports is arbitrary. */
module Pipeline {
  import opened Words
  import opened ProofOfWork
  import opened Submission

  datatype Job = Job(challenge: bytes32, difficulty: nat, epoch: nat)

  datatype Found = Found(nonce: int, epoch: nat)

  /** What the drain does with a found nonce. */
  datatype Drained = Dropped | Handed(sol: Solution)

  function Drain(job: Option<Job>, found: Found): Drained {
    if job.None? || found.epoch != job.value.epoch then Dropped
    else
      match Verify(job.value.challenge, found.nonce, job.value.difficulty, job.value.epoch)
      case Verified(sol) => Handed(sol)
      case _ => Dropped
  }

  predicate IsFresh(sol: Solution, epoch: nat, used: set<uint256>) {
    sol.epoch == epoch && sol.nonce !in used
  }

  /** The solutions of the epoch that have not been submitted, in order. */
  function Fresh(buffer: seq<Solution>, epoch: nat, used: set<uint256>): seq<Solution> {
    if buffer == [] then []
    else
      var sol := buffer[|buffer| - 1];
      Fresh(buffer[..|buffer| - 1], epoch, used)
        + if IsFresh(sol, epoch, used) then [sol] else []
  }

  /** The length of a slice s[:n]; a negative n counts from the end. */
  function SliceLength(len: nat, n: int): nat {
    if n >= len then len else if n >= 0 then n else if len + n >= 0 then len + n else 0
  }

  function Taken(buffer: seq<Solution>, epoch: nat, used: set<uint256>, size: int): (n: nat)
    ensures n <= |Fresh(buffer, epoch, used)|
  {
    var m := |Fresh(buffer, epoch, used)|;
    SliceLength(m, if size < m then size else m)
  }

  function Bundle(buffer: seq<Solution>, epoch: nat, used: set<uint256>, size: int): seq<Solution> {
    Fresh(buffer, epoch, used)[..Taken(buffer, epoch, used, size)]
  }

  function Remaining(buffer: seq<Solution>, epoch: nat, used: set<uint256>, size: int): seq<Solution> {
    Fresh(buffer, epoch, used)[Taken(buffer, epoch, used, size)..]
  }

  class GpuFarm {
    var job: Option<Job>
    var jobGen: nat
    var results: seq<Found>

    constructor ()
      ensures job == None && jobGen == 0 && results == []
    {
      job, jobGen, results := None, 0, [];
    }

    method SetJob(challenge: bytes32, target: nat, epoch: nat)
      modifies `job, `jobGen
      ensures job == Some(Job(challenge, target, epoch)) && jobGen == old(jobGen) + 1
    {
      job := Some(Job(challenge, target, epoch));
      jobGen := jobGen + 1;
    }

    method ClearJob()
      modifies `job, `jobGen
      ensures job == None && jobGen == old(jobGen) + 1
    {
      job := None;
      jobGen := jobGen + 1;
    }

    /** The end of a batch: the nonces go to the queue if the job is still the one the batch was started with. */
    method Emit(found: seq<int>, epoch: nat, gen: nat)
      modifies `results
      ensures results == old(results) + if jobGen == gen then Tagged(found, epoch) else []
      ensures jobGen == gen ==> |results| == |old(results)| + |found|
      ensures jobGen == gen ==>
        forall i | 0 <= i < |found| :: results[|old(results)| + i] == Found(found[i], epoch)
    {
      TaggedInOrder(found, epoch);
      if found != [] && jobGen == gen {
        var i := 0;
        while i < |found|
          invariant 0 <= i <= |found|
          invariant results == old(results) + Tagged(found[..i], epoch)
        {
          assert found[..i + 1][..i] == found[..i];
          results := results + [Found(found[i], epoch)];
          i := i + 1;
        }
        assert found[..i] == found;
      }
    }
  }

  function Tagged(found: seq<int>, epoch: nat): seq<Found> {
    if found == [] then []
    else Tagged(found[..|found| - 1], epoch) + [Found(found[|found| - 1], epoch)]
  }

  lemma {:induction false} TaggedInOrder(found: seq<int>, epoch: nat)
    ensures |Tagged(found, epoch)| == |found|
    ensures forall i | 0 <= i < |found| :: Tagged(found, epoch)[i] == Found(found[i], epoch)
  {
    if found != [] { TaggedInOrder(found[..|found| - 1], epoch); }
  }

  class Miner {
    var job: Option<Job>
    var bundleBuffer: seq<Solution>
    var foundTotal: nat
    var droppedStale: nat

    constructor ()
      ensures job == None && bundleBuffer == [] && foundTotal == 0 && droppedStale == 0
    {
      job, bundleBuffer, foundTotal, droppedStale := None, [], 0, 0;
    }

    /** The locked part of _set_job_from_state. */
    method SetJob(challenge: bytes32, difficulty: nat, epoch: nat) returns (changed: bool)
      modifies `job
      ensures job == Some(Job(challenge, difficulty, epoch))
      ensures changed <==> old(job) != job
    {
      changed := job.None? || job.value.epoch != epoch || job.value.difficulty != difficulty
                 || job.value.challenge != challenge;
      if changed { job := Some(Job(challenge, difficulty, epoch)); }
    }

    /** One turn of the drain loop in bundle mode. */
    method DrainOne(found: Found) returns (handed: bool)
      modifies `bundleBuffer, `foundTotal, `droppedStale
      ensures foundTotal == old(foundTotal) + 1
      ensures handed <==> Drain(job, found).Handed?
      ensures handed ==> bundleBuffer == old(bundleBuffer) + [Drain(job, found).sol]
      ensures handed ==> droppedStale == old(droppedStale)
      ensures !handed ==> bundleBuffer == old(bundleBuffer) && droppedStale == old(droppedStale) + 1
    {
      hide Verify;
      foundTotal := foundTotal + 1;
      if job.None? || found.epoch != job.value.epoch {
        droppedStale := droppedStale + 1;
        return false;
      }
      var verification := Verify(job.value.challenge, found.nonce, job.value.difficulty, job.value.epoch);
      if !verification.Verified? {
        droppedStale := droppedStale + 1;
        return false;
      }
      bundleBuffer := bundleBuffer + [verification.solution];
      return true;
    }

    /** The locked part of _maybe_flush_bundle: filter the buffer and take the next bundle off its front. */
    method TakeBundle(epoch: nat, used: set<uint256>, size: int) returns (sols: seq<Solution>)
      modifies `bundleBuffer
      ensures sols == Bundle(old(bundleBuffer), epoch, used, size)
      ensures bundleBuffer == Remaining(old(bundleBuffer), epoch, used, size)
    {
      var kept: seq<Solution> := [];
      var i := 0;
      while i < |bundleBuffer|
        invariant 0 <= i <= |bundleBuffer| && bundleBuffer == old(bundleBuffer)
        invariant kept == Fresh(bundleBuffer[..i], epoch, used)
      {
        assert bundleBuffer[..i + 1][..i] == bundleBuffer[..i];
        if bundleBuffer[i].epoch == epoch && bundleBuffer[i].nonce !in used {
          kept := kept + [bundleBuffer[i]];
        }
        i := i + 1;
      }
      assert bundleBuffer[..i] == bundleBuffer;
      bundleBuffer := kept;
      if bundleBuffer == [] { return []; }
      var n := if size < |bundleBuffer| then size else |bundleBuffer|;
      var k := SliceLength(|bundleBuffer|, n);
      sols := bundleBuffer[..k];
      bundleBuffer := bundleBuffer[k..];
    }
  }

  // ---------- what a flush takes

  /** `s` in order, with gaps, within `t`. */
  ghost predicate Subsequence<T>(s: seq<T>, t: seq<T>)
    decreases |t|
  {
    if s == [] then true
    else if t == [] then false
    else if s[|s| - 1] == t[|t| - 1] && Subsequence(s[..|s| - 1], t[..|t| - 1]) then true
    else Subsequence(s, t[..|t| - 1])
  }

  lemma {:induction false} FreshIsSubsequence(buffer: seq<Solution>, epoch: nat, used: set<uint256>)
    ensures Subsequence(Fresh(buffer, epoch, used), buffer)
  {
    if buffer != [] {
      var init := buffer[..|buffer| - 1];
      FreshIsSubsequence(init, epoch, used);
      var sol := buffer[|buffer| - 1];
      if sol.epoch == epoch && sol.nonce !in used {
        var f := Fresh(buffer, epoch, used);
        assert f[..|f| - 1] == Fresh(init, epoch, used);
      } else {
        assert Fresh(buffer, epoch, used) == Fresh(init, epoch, used);
      }
    }
  }

  lemma {:induction false} FreshElements(buffer: seq<Solution>, epoch: nat, used: set<uint256>)
    ensures forall sol ::
      sol in Fresh(buffer, epoch, used) <==> (sol in buffer && sol.epoch == epoch && sol.nonce !in used)
  {
    if buffer != [] {
      var init, sol := buffer[..|buffer| - 1], buffer[|buffer| - 1];
      FreshElements(init, epoch, used);
      assert buffer == init + [sol];
    }
  }

  /** A flush takes a prefix of the filtered buffer: solutions of the epoch only, none submitted before, and the taken,
      the filtered out and the remaining ones are together what was buffered.  A size of one or more takes that many, a
      size of zero none, and a negative one leaves that many. */
  lemma BundleIsFreshPrefix(buffer: seq<Solution>, epoch: nat, used: set<uint256>, size: int)
    ensures var bundle, rest := Bundle(buffer, epoch, used, size), Remaining(buffer, epoch, used, size);
      var kept := Fresh(buffer, epoch, used);
      && bundle + rest == kept && |kept| <= |buffer|
      && (forall sol | sol in bundle :: sol in buffer && sol.epoch == epoch && sol.nonce !in used)
      && |bundle| == if size > |kept| then |kept| else if size >= 0 then size
                     else if |kept| + size > 0 then |kept| + size else 0
  {
    FreshElements(buffer, epoch, used);
    FreshLength(buffer, epoch, used);
    hide Fresh;
  }

  lemma {:induction false} FreshLength(buffer: seq<Solution>, epoch: nat, used: set<uint256>)
    ensures |Fresh(buffer, epoch, used)| <= |buffer|
  {
    if buffer != [] { FreshLength(buffer[..|buffer| - 1], epoch, used); }
  }

  // ---------- repeated nonces

  ghost predicate Repeats(sols: seq<Solution>) {
    exists i, j :: 0 <= i < j < |sols| && sols[i].nonce == sols[j].nonce
  }

  lemma {:induction false} FreshOfConcat(a: seq<Solution>, b: seq<Solution>, epoch: nat, used: set<uint256>)
    ensures Fresh(a + b, epoch, used) == Fresh(a, epoch, used) + Fresh(b, epoch, used)
  {
    hide IsFresh;
    if b == [] {
      assert a + b == a;
    } else {
      FreshOfConcat(a, b[..|b| - 1], epoch, used);
      assert (a + b)[..|a + b| - 1] == a + b[..|b| - 1];
    }
  }

  /** Entry j of the buffer, if fresh, comes in the filtered buffer after as many as are fresh before it. */
  lemma FreshAt(buffer: seq<Solution>, epoch: nat, used: set<uint256>, j: nat)
    requires j < |buffer| && IsFresh(buffer[j], epoch, used)
    ensures |Fresh(buffer[..j], epoch, used)| < |Fresh(buffer, epoch, used)|
    ensures Fresh(buffer, epoch, used)[|Fresh(buffer[..j], epoch, used)|] == buffer[j]
  {
    FreshOfConcat(buffer[..j], buffer[j..], epoch, used);
    assert buffer == buffer[..j] + buffer[j..];
    FreshOfConcat([buffer[j]], buffer[j + 1..], epoch, used);
    assert buffer[j..] == [buffer[j]] + buffer[j + 1..];
    FreshOfOne(buffer[j], epoch, used);
    hide Fresh;
  }

  lemma FreshOfOne(sol: Solution, epoch: nat, used: set<uint256>)
    ensures Fresh([sol], epoch, used) == if IsFresh(sol, epoch, used) then [sol] else []
  {
  }

  /** Later fresh entries come later in the filtered buffer. */
  lemma FreshOrder(buffer: seq<Solution>, epoch: nat, used: set<uint256>, i: nat, j: nat)
    requires i < j <= |buffer| && IsFresh(buffer[i], epoch, used)
    ensures |Fresh(buffer[..i], epoch, used)| < |Fresh(buffer[..j], epoch, used)|
  {
    FreshAt(buffer[..j], epoch, used, i);
    assert buffer[..j][..i] == buffer[..i];
  }

  /** Every place of the filtered buffer comes from an entry of the buffer. */
  lemma {:induction false} FreshFrom(buffer: seq<Solution>, epoch: nat, used: set<uint256>, p: nat) returns (j: nat)
    requires p < |Fresh(buffer, epoch, used)|
    ensures j < |buffer| && IsFresh(buffer[j], epoch, used) && |Fresh(buffer[..j], epoch, used)| == p
    ensures Fresh(buffer, epoch, used)[p] == buffer[j]
  {
    var init := buffer[..|buffer| - 1];
    if p < |Fresh(init, epoch, used)| {
      j := FreshFrom(init, epoch, used, p);
      assert init[..j] == buffer[..j];
    } else {
      j := |buffer| - 1;
    }
  }

  /** Entries i and j of the buffer are fresh, have one nonce, and the later one is within the next bundle. */
  ghost predicate RepeatAt(buffer: seq<Solution>, epoch: nat, used: set<uint256>, size: int, i: nat, j: nat)
    requires i < j < |buffer|
  {
    && IsFresh(buffer[i], epoch, used) && IsFresh(buffer[j], epoch, used) && buffer[i].nonce == buffer[j].nonce
    && |Fresh(buffer[..j], epoch, used)| < Taken(buffer, epoch, used, size)
  }

  /** Exactly when a bundle repeats a nonce: when the buffer holds it twice, unsubmitted and of the epoch, and fewer
      fresh entries than the bundle takes come before the second one.  The filter compares with what was submitted
      only. */
  lemma BundleRepeatsExactly(buffer: seq<Solution>, epoch: nat, used: set<uint256>, size: int)
    ensures Repeats(Bundle(buffer, epoch, used, size))
            <==> exists i, j :: 0 <= i < j < |buffer| && RepeatAt(buffer, epoch, used, size, i, j)
  {
    var bundle, kept := Bundle(buffer, epoch, used, size), Fresh(buffer, epoch, used);
    hide Fresh, IsFresh, Taken;
    if Repeats(bundle) {
      var p, q :| 0 <= p < q < |bundle| && bundle[p].nonce == bundle[q].nonce;
      assert bundle[p] == kept[p] && bundle[q] == kept[q];
      var i := FreshFrom(buffer, epoch, used, p);
      var j := FreshFrom(buffer, epoch, used, q);
      if j < i { FreshOrder(buffer, epoch, used, j, i); }
      assert RepeatAt(buffer, epoch, used, size, i, j);
    }
    if i, j :| 0 <= i < j < |buffer| && RepeatAt(buffer, epoch, used, size, i, j) {
      FreshAt(buffer, epoch, used, i);
      FreshAt(buffer, epoch, used, j);
      FreshOrder(buffer, epoch, used, i, j);
      var p, q := |Fresh(buffer[..i], epoch, used)|, |Fresh(buffer[..j], epoch, used)|;
      assert bundle[p] == kept[p] && bundle[q] == kept[q];
    }
  }
}
