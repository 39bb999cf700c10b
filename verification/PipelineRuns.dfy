/** The GPU workers, the block loop and the drain thread, interleaved at will around the farm's job, the result queue,
    the miner's job and the bundle buffer. */
module PipelineRuns {
  import opened Words
  import opened ProofOfWork
  import opened Submission
  import opened Pipeline

  /** A GPU worker: between batches, running one, or putting its results one by one. */
  datatype Worker = Fetching | Searching(job: Job, gen: nat) | Putting(job: Job, found: seq<int>)

  /** The drain thread: waiting, holding a result, or holding it together with the job it has just read. */
  datatype DrainPhase = Waiting | Holding(found: Found) | Deciding(found: Found, job: Option<Job>, at: nat)

  /** A solution handed on, with the result it came from and the job it was checked against: `jobs[at]`. */
  datatype Handover = Handover(sol: Solution, found: Found, job: Job, at: nat)

  /** Shared state and threads; `jobs` are the miner's jobs in order, `farmJobs[g]` is the farm's job of generation g,
      `emitted` are the results put, each with the job its batch was searched and checked under; `rest` is what the last
      flush left in the buffer, when `since` solutions had been handed on. */
  datatype State = State(farmJob: Option<Job>, gen: nat, results: seq<Found>, job: Option<Job>, pointing: Option<Job>,
                         workers: seq<Worker>, drain: DrainPhase, buffer: seq<Solution>,
                         foundTotal: nat, dropped: nat,
                         jobs: seq<Job>, farmJobs: seq<Option<Job>>, emitted: seq<(Found, Job)>, taken: nat,
                         handed: seq<Handover>, flushed: seq<Solution>, filteredOut: nat,
                         rest: seq<Solution>, since: nat)

  datatype Action =
    | SeeState(challenge: bytes32, difficulty: nat, epoch: nat)
    | PointFarm
    | ClearFarm
    | Fetch(w: nat)
    | FinishBatch(w: nat, found: seq<int>)
    | FailBatch(w: nat)
    | Put(w: nat)
    | Take
    | ReadJob
    | Decide
    | Flush(epoch: nat, used: set<uint256>, size: int)

  function Start(workers: nat): State {
    State(None, 0, [], None, None, seq(workers, w => Fetching), Waiting, [], 0, 0, [], [None], [], 0, [], [], 0, [], 0)
  }

  predicate Enabled(s: State, a: Action) {
    match a
    case SeeState(_, _, _) => s.pointing.None?
    case PointFarm => s.pointing.Some?
    case ClearFarm => true
    case Fetch(w) => w < |s.workers| && s.workers[w].Fetching? && s.farmJob.Some?
    case FinishBatch(w, _) => w < |s.workers| && s.workers[w].Searching?
    case FailBatch(w) => w < |s.workers| && s.workers[w].Searching?
    case Put(w) => w < |s.workers| && s.workers[w].Putting?
    case Take => s.drain.Waiting? && s.results != []
    case ReadJob => s.drain.Holding?
    case Decide => s.drain.Deciding?
    case Flush(_, _, _) => true
  }

  function PutOne(s: State, w: nat): State
    requires Enabled(s, Put(w))
  {
    var Putting(job, found) := s.workers[w];
    if found == [] then s.(workers := s.workers[w := Fetching])
    else
      s.(results := s.results + [Found(found[0], job.epoch)],
         emitted := s.emitted + [(Found(found[0], job.epoch), job)],
         workers := s.workers[w := Putting(job, found[1..])])
  }

  function Decided(s: State): State
    requires s.drain.Deciding?
  {
    match Drain(s.drain.job, s.drain.found)
    case Dropped => s.(dropped := s.dropped + 1, drain := Waiting)
    case Handed(sol) =>
      s.(buffer := s.buffer + [sol], drain := Waiting,
         handed := s.handed + [Handover(sol, s.drain.found, s.drain.job.value, s.drain.at)])
  }

  function Flushed(s: State, epoch: nat, used: set<uint256>, size: int): State {
    var kept := |Fresh(s.buffer, epoch, used)|;
    s.(buffer := Remaining(s.buffer, epoch, used, size), flushed := s.flushed + Bundle(s.buffer, epoch, used, size),
       filteredOut := s.filteredOut + (if |s.buffer| >= kept then |s.buffer| - kept else 0),
       rest := Remaining(s.buffer, epoch, used, size), since := |s.handed|)
  }

  function Step(s: State, a: Action): State {
    if !Enabled(s, a) then s
    else
      match a
      case SeeState(challenge, difficulty, epoch) =>
        var job := Job(challenge, difficulty, epoch);
        if s.job == Some(job) then s else s.(job := Some(job), pointing := Some(job), jobs := s.jobs + [job])
      case PointFarm =>
        s.(farmJob := s.pointing, gen := s.gen + 1, farmJobs := s.farmJobs + [s.pointing], pointing := None)
      case ClearFarm => s.(farmJob := None, gen := s.gen + 1, farmJobs := s.farmJobs + [None])
      case Fetch(w) => s.(workers := s.workers[w := Searching(s.farmJob.value, s.gen)])
      case FinishBatch(w, found) =>
        var Searching(job, gen) := s.workers[w];
        s.(workers := s.workers[w := if found != [] && s.gen == gen then Putting(job, found) else Fetching])
      case FailBatch(w) => s.(workers := s.workers[w := Fetching])
      case Put(w) => PutOne(s, w)
      case Take =>
        s.(drain := Holding(s.results[0]), results := s.results[1..],
           foundTotal := s.foundTotal + 1, taken := s.taken + 1)
      case ReadJob => s.(drain := Deciding(s.drain.found, s.job, |s.jobs|))
      case Decide => Decided(s)
      case Flush(epoch, used, size) => Flushed(s, epoch, used, size)
  }

  function After(workers: nat, actions: seq<Action>): State {
    if actions == [] then Start(workers) else Step(After(workers, actions[..|actions| - 1]), actions[|actions| - 1])
  }

  lemma AfterAppend(workers: nat, actions: seq<Action>, a: Action)
    ensures After(workers, actions + [a]) == Step(After(workers, actions), a)
  {
    hide Step;
    assert (actions + [a])[..|actions|] == actions;
  }

  // ---------- the farm

  /** The generation identifies the job, and nothing is put that was not searched under a job of the farm. */
  ghost predicate FarmSound(s: State) {
    && |s.farmJobs| == s.gen + 1 && s.farmJobs[s.gen] == s.farmJob
    && (forall w | 0 <= w < |s.workers| && s.workers[w].Searching? ::
          s.workers[w].gen <= s.gen && s.farmJobs[s.workers[w].gen] == Some(s.workers[w].job))
    && (forall w | 0 <= w < |s.workers| && s.workers[w].Putting? :: Some(s.workers[w].job) in s.farmJobs)
    && (forall e | e in s.emitted :: e.0.epoch == e.1.epoch && Some(e.1) in s.farmJobs)
  }

  /** The queue is what has been put and not yet taken, in order. */
  ghost predicate QueueSound(s: State) {
    && s.taken <= |s.emitted| && |s.results| == |s.emitted| - s.taken
    && (forall i | 0 <= i < |s.results| :: s.results[i] == s.emitted[s.taken + i].0)
    && (s.drain.Holding? || s.drain.Deciding? ==> s.taken > 0 && s.drain.found == s.emitted[s.taken - 1].0)
  }

  lemma FarmSoundKept(s: State, a: Action)
    requires FarmSound(s)
    ensures FarmSound(Step(s, a))
  {
    hide Flushed, Decided, Drain;
    if a.Flush? || a.Decide? { SameFarm(s, a); }
  }

  lemma SameFarm(s: State, a: Action)
    requires a.Flush? || a.Decide?
    ensures var s' := Step(s, a);
      && s'.gen == s.gen && s'.farmJob == s.farmJob && s'.farmJobs == s.farmJobs && s'.workers == s.workers
      && s'.emitted == s.emitted && s'.results == s.results && s'.taken == s.taken
  {
    hide Drain, Bundle, Remaining, Fresh;
  }

  lemma QueueSoundKept(s: State, a: Action)
    requires QueueSound(s)
    ensures QueueSound(Step(s, a))
  {
    hide Flushed, Drain;
    if a.Flush? || a.Decide? { SameFarm(s, a); DrainIdles(s, a); }
  }

  lemma DrainIdles(s: State, a: Action)
    requires a.Flush? || a.Decide?
    ensures Step(s, a).drain == s.drain || Step(s, a).drain.Waiting?
  {
    hide Drain, Bundle, Remaining, Fresh;
  }

  /** A batch's results are put only if the farm's job, at the check, is still the one the batch was searched under. */
  lemma EmittedUnderCurrentJob(s: State, w: nat, found: seq<int>)
    requires FarmSound(s) && Enabled(s, FinishBatch(w, found)) && Step(s, FinishBatch(w, found)).workers[w].Putting?
    ensures s.farmJob == Some(s.workers[w].job)
  {
  }

  // ---------- the miner's job and the farm's

  /** After the block loop has seen a state, the miner's job is what it saw, and the farm is to be pointed at it exactly
      if it differs from before. */
  lemma SeenIsHeld(s: State, challenge: bytes32, difficulty: nat, epoch: nat)
    requires s.pointing.None?
    ensures var seen := Job(challenge, difficulty, epoch); var s' := Step(s, SeeState(challenge, difficulty, epoch));
      && s'.job == Some(seen) && (s'.pointing == Some(seen) <==> s.job != Some(seen))
      && s'.jobs == if s.job == Some(seen) then s.jobs else s.jobs + [seen]
  {
  }

  /** Consecutive jobs of the miner differ, and unless it is about to be pointed at a new one, the farm has the miner's
      job or none. */
  ghost predicate FarmFollows(s: State) {
    && (forall i | 0 <= i < |s.jobs| - 1 :: s.jobs[i] != s.jobs[i + 1])
    && s.job == (if s.jobs == [] then None else Some(s.jobs[|s.jobs| - 1]))
    && (s.pointing.Some? ==> s.pointing == s.job)
    && (s.pointing.None? && s.farmJob.Some? ==> s.farmJob == s.job)
  }

  lemma FarmFollowsKept(s: State, a: Action)
    requires FarmFollows(s)
    ensures FarmFollows(Step(s, a))
  {
    hide Flushed, Decided;
    if a.Flush? || a.Decide? { SameFarm(s, a); SameJobs(s, a); }
  }

  lemma SameJobs(s: State, a: Action)
    requires a.Flush? || a.Decide?
    ensures var s' := Step(s, a); s'.job == s.job && s'.jobs == s.jobs && s'.pointing == s.pointing
  {
    hide Drain, Bundle, Remaining, Fresh;
  }

  lemma {:induction false} FarmFollowsInEveryRun(workers: nat, actions: seq<Action>)
    ensures FarmFollows(After(workers, actions))
  {
    hide Step;
    if actions != [] {
      FarmFollowsInEveryRun(workers, actions[..|actions| - 1]);
      hide FarmFollows;
      FarmFollowsKept(After(workers, actions[..|actions| - 1]), actions[|actions| - 1]);
    }
  }

  // ---------- the drain

  /** Every solution handed on was checked against a job the miner held when the drain read it. */
  ghost predicate HandoverSound(s: State, h: Handover) {
    && 0 < h.at <= |s.jobs| && s.jobs[h.at - 1] == h.job
    && h.found.epoch == h.job.epoch && h.sol.epoch == h.job.epoch
    && h.sol.challenge == h.job.challenge && h.sol.difficulty == h.job.difficulty && h.sol.nonce == h.found.nonce
    && h.sol.digest == PowDigest(h.sol.challenge, h.sol.nonce)
    && BigEndian(h.sol.digest) < h.job.difficulty
    && exists e :: e in s.emitted && e.0 == h.found
  }

  ghost predicate DrainSound(s: State) {
    && s.job == (if s.jobs == [] then None else Some(s.jobs[|s.jobs| - 1]))
    && (s.drain.Deciding? ==>
          && s.drain.at <= |s.jobs|
          && s.drain.job == (if s.drain.at == 0 then None else Some(s.jobs[s.drain.at - 1])))
    && (forall i | 0 <= i < |s.handed| :: HandoverSound(s, s.handed[i]))
    && s.foundTotal == s.dropped + |s.handed| + (if s.drain.Waiting? then 0 else 1)
  }

  /** The solutions of the handovers, in order. */
  function Solutions(handed: seq<Handover>): seq<Solution> {
    if handed == [] then [] else Solutions(handed[..|handed| - 1]) + [handed[|handed| - 1].sol]
  }

  /** What was buffered is flushed, filtered out or still there; and flushing keeps the order. */
  ghost predicate BufferSound(s: State) {
    && |s.handed| == |s.flushed| + s.filteredOut + |s.buffer|
    && Subsequence(s.flushed + s.buffer, Solutions(s.handed))
  }

  lemma HandoverStays(s: State, s': State, h: Handover)
    requires HandoverSound(s, h) && s.jobs <= s'.jobs && s.emitted <= s'.emitted
    ensures HandoverSound(s', h)
  {
    hide PowDigest, BigEndian;
    var e :| e in s.emitted && e.0 == h.found;
    var i :| 0 <= i < |s.emitted| && s.emitted[i] == e;
    assert s'.emitted[i] == e;
  }

  lemma DecisionSound(s: State)
    requires QueueSound(s) && DrainSound(s) && s.drain.Deciding?
    ensures DrainSound(Decided(s))
  {
    hide PowDigest, BigEndian;
    var s' := Decided(s);
    forall i | 0 <= i < |s'.handed| ensures HandoverSound(s', s'.handed[i]) {
      if i < |s.handed| {
        HandoverStays(s, s', s.handed[i]);
      } else {
        assert s.emitted[s.taken - 1] in s.emitted;
      }
    }
  }

  lemma DrainSoundKept(s: State, a: Action)
    requires QueueSound(s) && DrainSound(s)
    ensures DrainSound(Step(s, a))
  {
    hide HandoverSound, Drain, Bundle, Remaining, Fresh;
    if a.Decide? {
      if Enabled(s, a) { DecisionSound(s); }
    } else {
      HistoriesGrow(s, a);
      forall i | 0 <= i < |s.handed| ensures HandoverSound(Step(s, a), s.handed[i]) {
        HandoverStays(s, Step(s, a), s.handed[i]);
      }
    }
  }

  lemma HistoriesGrow(s: State, a: Action)
    ensures s.jobs <= Step(s, a).jobs && s.emitted <= Step(s, a).emitted
  {
    hide Drain, Bundle, Remaining, Fresh;
  }

  // ---------- the buffer

  lemma {:induction false} SubsequenceAppend<T>(s: seq<T>, t: seq<T>, x: T)
    requires Subsequence(s, t)
    ensures Subsequence(s + [x], t + [x])
  {
    assert (s + [x])[..|s|] == s && (t + [x])[..|t|] == t;
  }

  lemma {:induction false} SubsequenceReflexive<T>(s: seq<T>)
    ensures Subsequence(s, s)
  {
    if s != [] { SubsequenceReflexive(s[..|s| - 1]); }
  }

  lemma {:induction false} SubsequenceBehind<T>(front: seq<T>, s: seq<T>, t: seq<T>)
    requires Subsequence(s, t)
    ensures Subsequence(front + s, front + t)
    decreases |t|
  {
    if t == [] {
      SubsequenceReflexive(front + s);
    } else {
      var init := t[..|t| - 1];
      assert (front + t)[..|front + t| - 1] == front + init;
      if s == [] {
        SubsequenceBehind(front, s, init);
      } else if s[|s| - 1] == t[|t| - 1] && Subsequence(s[..|s| - 1], init) {
        assert (front + s)[..|front + s| - 1] == front + s[..|s| - 1];
        SubsequenceBehind(front, s[..|s| - 1], init);
      } else {
        SubsequenceBehind(front, s, init);
      }
    }
  }

  lemma {:induction false} SubsequenceTransitive<T>(a: seq<T>, b: seq<T>, c: seq<T>)
    requires Subsequence(a, b) && Subsequence(b, c)
    ensures Subsequence(a, c)
    decreases |c|
  {
    if a != [] {
      var init := c[..|c| - 1];
      if b[|b| - 1] == c[|c| - 1] && Subsequence(b[..|b| - 1], init) {
        if a[|a| - 1] == b[|b| - 1] && Subsequence(a[..|a| - 1], b[..|b| - 1]) {
          SubsequenceTransitive(a[..|a| - 1], b[..|b| - 1], init);
        } else {
          SubsequenceTransitive(a, b[..|b| - 1], init);
        }
      } else {
        SubsequenceTransitive(a, b, init);
      }
    }
  }

  lemma HandoverKeepsBuffer(s: State, s': State, h: Handover)
    requires BufferSound(s) && s'.handed == s.handed + [h] && s'.buffer == s.buffer + [h.sol]
    requires s'.flushed == s.flushed && s'.filteredOut == s.filteredOut
    ensures BufferSound(s')
  {
    assert s'.handed[..|s.handed|] == s.handed;
    SubsequenceAppend(s.flushed + s.buffer, Solutions(s.handed), h.sol);
    assert Solutions(s'.handed) == Solutions(s.handed) + [h.sol];
    hide Subsequence, Solutions;
    assert s'.flushed + s'.buffer == s.flushed + s.buffer + [h.sol];
  }

  lemma DecisionKeepsBuffer(s: State)
    requires BufferSound(s) && s.drain.Deciding?
    ensures BufferSound(Decided(s))
  {
    hide Drain, Subsequence, Solutions;
    match Drain(s.drain.job, s.drain.found)
    case Dropped =>
    case Handed(sol) =>
      hide BufferSound;
      HandoverKeepsBuffer(s, Decided(s), Decided(s).handed[|s.handed|]);
  }

  lemma FlushKeepsBuffer(s: State, epoch: nat, used: set<uint256>, size: int)
    requires BufferSound(s)
    ensures BufferSound(Flushed(s, epoch, used, size))
  {
    var s' := Flushed(s, epoch, used, size);
    var kept := Fresh(s.buffer, epoch, used);
    BundleIsFreshPrefix(s.buffer, epoch, used, size);
    FreshIsSubsequence(s.buffer, epoch, used);
    hide Bundle, Remaining, Fresh, Subsequence, Solutions;
    SubsequenceBehind(s.flushed, kept, s.buffer);
    SubsequenceTransitive(s.flushed + kept, s.flushed + s.buffer, Solutions(s.handed));
    assert s'.flushed + s'.buffer
           == s.flushed + (Bundle(s.buffer, epoch, used, size) + Remaining(s.buffer, epoch, used, size));
  }

  lemma BufferSoundKept(s: State, a: Action)
    requires BufferSound(s)
    ensures BufferSound(Step(s, a))
  {
    hide BufferSound;
    if a.Decide? {
      if Enabled(s, a) { DecisionKeepsBuffer(s); }
    } else if a.Flush? {
      FlushKeepsBuffer(s, a.epoch, a.used, a.size);
    } else {
      SameBuffer(s, a);
    }
  }

  lemma SameBuffer(s: State, a: Action)
    requires BufferSound(s) && !a.Decide? && !a.Flush?
    ensures BufferSound(Step(s, a))
  {
    hide Subsequence, Solutions;
  }

  // ---------- repeated nonces

  /** The buffer is what the last flush left and what has been handed on since, in order. */
  ghost predicate RestSound(s: State) {
    s.since <= |s.handed| && s.buffer == s.rest + Solutions(s.handed[s.since..])
  }

  lemma HandoverKeepsRest(s: State, s': State, h: Handover)
    requires RestSound(s) && s'.handed == s.handed + [h] && s'.buffer == s.buffer + [h.sol]
    requires s'.rest == s.rest && s'.since == s.since
    ensures RestSound(s')
  {
    assert s'.handed[s.since..] == s.handed[s.since..] + [h];
    assert (s.handed[s.since..] + [h])[..|s.handed| - s.since] == s.handed[s.since..];
  }

  lemma DecisionKeepsRest(s: State)
    requires RestSound(s) && s.drain.Deciding?
    ensures RestSound(Decided(s))
  {
    hide Drain, Solutions;
    match Drain(s.drain.job, s.drain.found)
    case Dropped =>
    case Handed(sol) =>
      hide RestSound;
      HandoverKeepsRest(s, Decided(s), Decided(s).handed[|s.handed|]);
  }

  lemma RestSoundKept(s: State, a: Action)
    requires RestSound(s)
    ensures RestSound(Step(s, a))
  {
    hide Bundle, Remaining, Fresh, Decided;
    if a.Decide? {
      if Enabled(s, a) { DecisionKeepsRest(s); }
    } else if a.Flush? {
      assert s.handed[|s.handed|..] == [];
    }
  }

  lemma {:induction false} RestInEveryRun(workers: nat, actions: seq<Action>)
    ensures RestSound(After(workers, actions))
  {
    hide Step, RestSound;
    if actions == [] {
      StartRest(workers);
    } else {
      RestInEveryRun(workers, actions[..|actions| - 1]);
      RestSoundKept(After(workers, actions[..|actions| - 1]), actions[|actions| - 1]);
    }
  }

  lemma StartRest(workers: nat)
    ensures RestSound(Start(workers))
  {
  }

  /** What the next flush chooses from. */
  function Choices(s: State): seq<Solution>
    requires s.since <= |s.handed|
  {
    s.rest + Solutions(s.handed[s.since..])
  }

  /** In every run, exactly when the next bundle repeats a nonce: when what the last flush left and what has been
      handed on since hold it twice within the bundle's reach.  If the last flush left no fresh nonce twice, the
      second one has been handed on since. */
  lemma FlushRepeatsExactly(workers: nat, actions: seq<Action>, epoch: nat, used: set<uint256>, size: int)
    ensures var s := After(workers, actions);
      && s.since <= |s.handed|
      && (Repeats(Bundle(s.buffer, epoch, used, size))
          <==> exists i, j :: 0 <= i < j < |Choices(s)| && RepeatAt(Choices(s), epoch, used, size, i, j))
      && (!Repeats(Fresh(s.rest, epoch, used)) ==>
            forall i, j | 0 <= i < j < |Choices(s)| && RepeatAt(Choices(s), epoch, used, size, i, j) :: j >= |s.rest|)
  {
    hide After, Bundle, Solutions, Fresh, RepeatAt, Repeats;
    RestInEveryRun(workers, actions);
    var s := After(workers, actions);
    assert s.buffer == Choices(s);
    BundleRepeatsExactly(s.buffer, epoch, used, size);
    forall i, j | !Repeats(Fresh(s.rest, epoch, used)) && 0 <= i < j < |Choices(s)|
                  && RepeatAt(Choices(s), epoch, used, size, i, j)
      ensures j >= |s.rest|
    {
      if j < |s.rest| { EarlyRepeat(s.rest, Solutions(s.handed[s.since..]), epoch, used, size, i, j); }
    }
  }

  lemma EarlyRepeat(rest: seq<Solution>, more: seq<Solution>, epoch: nat, used: set<uint256>, size: int, i: nat, j: nat)
    requires i < j < |rest| && RepeatAt(rest + more, epoch, used, size, i, j)
    ensures Repeats(Fresh(rest, epoch, used))
  {
    hide Fresh, Taken, IsFresh, Repeats;
    FreshRepeat(rest, epoch, used, i, j);
  }

  lemma FreshRepeat(buffer: seq<Solution>, epoch: nat, used: set<uint256>, i: nat, j: nat)
    requires i < j < |buffer| && IsFresh(buffer[i], epoch, used) && IsFresh(buffer[j], epoch, used)
    requires buffer[i].nonce == buffer[j].nonce
    ensures Repeats(Fresh(buffer, epoch, used))
  {
    hide Fresh, IsFresh;
    FreshAt(buffer, epoch, used, i);
    FreshAt(buffer, epoch, used, j);
    FreshOrder(buffer, epoch, used, i, j);
    var kept, p, q := Fresh(buffer, epoch, used), |Fresh(buffer[..i], epoch, used)|, |Fresh(buffer[..j], epoch, used)|;
    assert kept[p].nonce == kept[q].nonce;
  }

  // ---------- every interleaving

  lemma StartSound(workers: nat)
    ensures var s := Start(workers); FarmSound(s) && QueueSound(s) && DrainSound(s) && BufferSound(s)
  {
  }

  /** Any number of workers, any jobs, any results reported by the devices, any flushes. */
  lemma {:induction false} SoundInEveryRun(workers: nat, actions: seq<Action>)
    ensures var s := After(workers, actions); FarmSound(s) && QueueSound(s) && DrainSound(s) && BufferSound(s)
  {
    hide Step, FarmSound, QueueSound, DrainSound, BufferSound;
    if actions == [] {
      StartSound(workers);
    } else {
      var last := |actions| - 1;
      SoundInEveryRun(workers, actions[..last]);
      var s, a := After(workers, actions[..last]), actions[last];
      FarmSoundKept(s, a);
      QueueSoundKept(s, a);
      DrainSoundKept(s, a);
      BufferSoundKept(s, a);
    }
  }

  lemma {:induction false} SubsequenceElement<T>(s: seq<T>, t: seq<T>, x: T)
    requires Subsequence(s, t) && x in s
    ensures x in t
    decreases |t|
  {
    if s[|s| - 1] == t[|t| - 1] && Subsequence(s[..|s| - 1], t[..|t| - 1]) {
      if x != s[|s| - 1] { SubsequenceElement(s[..|s| - 1], t[..|t| - 1], x); }
    } else {
      SubsequenceElement(s, t[..|t| - 1], x);
    }
  }

  lemma {:induction false} SolutionElement(handed: seq<Handover>, sol: Solution) returns (i: nat)
    requires sol in Solutions(handed)
    ensures i < |handed| && handed[i].sol == sol
  {
    if handed[|handed| - 1].sol == sol {
      i := |handed| - 1;
    } else {
      i := SolutionElement(handed[..|handed| - 1], sol);
    }
  }

  /** Whatever the devices report and however the threads interleave: everything flushed into a bundle was checked
      against a job the miner held, with that job's challenge, epoch and difficulty, and was flushed in the order
      found. */
  lemma FlushedWasVerified(workers: nat, actions: seq<Action>, sol: Solution)
    requires sol in After(workers, actions).flushed
    ensures var s := After(workers, actions);
      Subsequence(s.flushed + s.buffer, Solutions(s.handed))
      && exists job :: job in s.jobs && sol.challenge == job.challenge && sol.epoch == job.epoch
           && sol.digest == PowDigest(job.challenge, sol.nonce)
           && BigEndian(sol.digest) < job.difficulty == sol.difficulty
  {
    SoundInEveryRun(workers, actions);
    var s := After(workers, actions);
    hide After, FarmSound, QueueSound, Subsequence, PowDigest, BigEndian;
    assert sol in s.flushed + s.buffer;
    SubsequenceElement(s.flushed + s.buffer, Solutions(s.handed), sol);
    var i := SolutionElement(s.handed, sol);
    assert HandoverSound(s, s.handed[i]);
    assert s.handed[i].job in s.jobs;
  }
}
