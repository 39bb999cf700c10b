/** One launch of the search kernel: work items race on the atomic hit counter and write their nonces,
    one limb at a time, in any interleaving; the host then reads the counter and decodes the buffer
    (the tail of `keccak_pow_search` and `GpuWorker.search_batch`). */
module Launch {
  import opened Words
  import opened ProofOfWork
  import opened SearchKernel

  /** What a launch searches: which work items have a hit, and the nonce of each. */
  datatype Job = Job(hit: nat -> bool, nonce: nat -> uint256, size: nat, maxResults: nat)

  /** A work item: not yet run, about to write limb `limb` of slot `slot`, or finished. */
  datatype Phase = Ready | Writing(slot: nat, limb: nat) | Done

  /** Word `limb` of result slot `slot`; its address in the buffer is 4 slot + limb. */
  datatype Cell = Cell(slot: nat, limb: nat)

  /** The shared memory and the work items, with two histories: the work items in the order of their
      increments, and the cells in the order they were written. */
  datatype State = State(count: nat, out: map<Cell, ulong>, items: seq<Phase>, claims: seq<nat>, writes: seq<Cell>)

  function ItemLimb(j: Job, w: nat, k: nat): ulong
    requires k < 4
  {
    NonceLimb(j.nonce(w), k)
  }

  function Initial(j: Job): State {
    State(0, map[], seq(j.size, w => Ready), [], [])
  }

  /** Work item `w` takes its next atomic step; a finished item has none. */
  function Next(j: Job, s: State, w: nat): State
    requires w < |s.items|
  {
    match s.items[w]
    case Ready =>
      if j.hit(w) then
        s.(count := s.count + 1, claims := s.claims + [w],
           items := s.items[w := if s.count < j.maxResults then Writing(s.count, 0) else Done])
      else s.(items := s.items[w := Done])
    case Writing(slot, limb) =>
      if limb < 4 then
        s.(out := s.out[Cell(slot, limb) := ItemLimb(j, w, limb)], writes := s.writes + [Cell(slot, limb)],
           items := s.items[w := if limb == 3 then Done else Writing(slot, limb + 1)])
      else s
    case Done => s
  }

  /** The state after the work items have taken steps in the order of `schedule`. */
  function Run(j: Job, schedule: seq<nat>): (s: State)
    requires forall i | 0 <= i < |schedule| :: schedule[i] < j.size
    ensures |s.items| == j.size
  {
    if schedule == [] then Initial(j)
    else Next(j, Run(j, schedule[..|schedule| - 1]), schedule[|schedule| - 1])
  }

  // ---------- what every step keeps

  /** How many limbs of its slot the owner of slot `i` has written. */
  function Progress(s: State, i: nat): nat
    requires i < |s.claims| && s.claims[i] < |s.items|
  {
    match s.items[s.claims[i]]
    case Ready => 0
    case Writing(slot, limb) => limb
    case Done => 4
  }

  ghost predicate ClaimsValid(j: Job, s: State) {
    && |s.items| == j.size && s.count == |s.claims|
    && (forall i | 0 <= i < |s.claims| :: s.claims[i] < j.size && j.hit(s.claims[i]) && !s.items[s.claims[i]].Ready?)
    && (forall i, k | 0 <= i < k < |s.claims| :: s.claims[i] != s.claims[k])
    && (forall w | 0 <= w < j.size && j.hit(w) && !s.items[w].Ready? :: w in s.claims)
  }

  ghost predicate ItemsValid(j: Job, s: State)
    requires |s.items| == j.size
  {
    forall w | 0 <= w < j.size && s.items[w].Writing? ::
      var i := s.items[w].slot;
      i < |s.claims| && i < j.maxResults && s.claims[i] == w && s.items[w].limb < 4
  }

  /** Every cell written belongs to a claimed slot within the buffer and holds the claimant's limb. */
  ghost predicate CellsSound(j: Job, s: State)
    requires ClaimsValid(j, s)
  {
    forall c | c in s.out ::
      c.slot < |s.claims| && c.slot < j.maxResults && c.limb < 4 && c.limb < Progress(s, c.slot)
      && s.out[c] == ItemLimb(j, s.claims[c.slot], c.limb)
  }

  ghost predicate CellsComplete(j: Job, s: State)
    requires ClaimsValid(j, s)
  {
    forall i, k | 0 <= i < |s.claims| && i < j.maxResults && 0 <= k < 4 && k < Progress(s, i) :: Cell(i, k) in s.out
  }

  ghost predicate WrittenOnce(s: State) {
    && (forall c :: c in s.writes <==> c in s.out)
    && (forall a, b | 0 <= a < b < |s.writes| :: s.writes[a] != s.writes[b])
  }

  ghost predicate Valid(j: Job, s: State) {
    ClaimsValid(j, s) && ItemsValid(j, s) && CellsSound(j, s) && CellsComplete(j, s) && WrittenOnce(s)
  }

  lemma InitialValid(j: Job)
    ensures Valid(j, Initial(j))
  {
  }

  lemma StartKeepsClaims(j: Job, s: State, w: nat)
    requires ClaimsValid(j, s) && ItemsValid(j, s) && w < j.size && s.items[w].Ready?
    ensures ClaimsValid(j, Next(j, s, w)) && ItemsValid(j, Next(j, s, w))
  {
    hide ItemLimb;
  }

  lemma WriteKeepsClaims(j: Job, s: State, w: nat)
    requires ClaimsValid(j, s) && ItemsValid(j, s) && w < j.size && s.items[w].Writing?
    ensures ClaimsValid(j, Next(j, s, w)) && ItemsValid(j, Next(j, s, w))
  {
    hide ItemLimb;
  }

  lemma StartAdvances(j: Job, s: State, w: nat)
    requires ClaimsValid(j, s) && w < j.size && s.items[w].Ready?
    ensures var s' := Next(j, s, w);
      && s'.out == s.out && s'.writes == s.writes && |s'.items| == |s.items|
      && (s'.claims == s.claims || s'.claims == s.claims + [w])
      && (forall i | 0 <= i < |s.claims| :: s.claims[i] != w && Progress(s', i) == Progress(s, i))
      && (|s'.claims| > |s.claims| ==> Progress(s', |s.claims|) == if |s.claims| < j.maxResults then 0 else 4)
  {
    hide ItemLimb;
  }

  /** A step of a work item that has not run yet: its slot, if it gets one, is still empty. */
  lemma StartKeepsCells(j: Job, s: State, w: nat)
    requires Valid(j, s) && w < j.size && s.items[w].Ready?
    ensures Valid(j, Next(j, s, w))
  {
    hide Next, ItemLimb, Progress, ItemsValid;
    StartKeepsClaims(j, s, w);
    StartAdvances(j, s, w);
  }

  lemma WriteAdvances(j: Job, s: State, w: nat)
    requires ClaimsValid(j, s) && ItemsValid(j, s) && w < j.size && s.items[w].Writing?
    ensures var s', slot, limb := Next(j, s, w), s.items[w].slot, s.items[w].limb;
      && limb < 4 && slot < |s.claims| && slot < j.maxResults && Progress(s, slot) == limb
      && s'.claims == s.claims && |s'.items| == |s.items|
      && s'.out == s.out[Cell(slot, limb) := ItemLimb(j, w, limb)] && s'.writes == s.writes + [Cell(slot, limb)]
      && (forall i | 0 <= i < |s.claims| :: Progress(s', i) == if i == slot then limb + 1 else Progress(s, i))
  {
    hide ItemLimb;
  }

  /** Writing a limb: the cell is new, and belongs to the slot this work item owns. */
  lemma WriteKeepsCells(j: Job, s: State, w: nat)
    requires Valid(j, s) && w < j.size && s.items[w].Writing?
    ensures Valid(j, Next(j, s, w))
  {
    hide Next, ItemLimb, Progress;
    WriteKeepsClaims(j, s, w);
    WriteAdvances(j, s, w);
    var s', c := Next(j, s, w), Cell(s.items[w].slot, s.items[w].limb);
    assert s.claims[c.slot] == w;
    assert c !in s.out;
    assert WrittenOnce(s') by {
      assert forall b :: b in s'.writes <==> b in s.writes || b == c;
    }
  }

  lemma NextKeepsValid(j: Job, s: State, w: nat)
    requires Valid(j, s) && w < j.size
    ensures Valid(j, Next(j, s, w))
  {
    if s.items[w].Ready? {
      StartKeepsCells(j, s, w);
    } else if s.items[w].Writing? {
      WriteKeepsCells(j, s, w);
    }
  }

  lemma {:induction false} RunValid(j: Job, schedule: seq<nat>)
    requires forall i | 0 <= i < |schedule| :: schedule[i] < j.size
    ensures Valid(j, Run(j, schedule))
  {
    hide Valid, Next;
    if schedule == [] {
      InitialValid(j);
    } else {
      var before := schedule[..|schedule| - 1];
      RunValid(j, before);
      NextKeepsValid(j, Run(j, before), schedule[|schedule| - 1]);
    }
  }

  // ---------- completed launches

  predicate Complete(s: State) {
    forall w | 0 <= w < |s.items| :: s.items[w].Done?
  }

  function Hits(j: Job): set<nat> {
    set w | 0 <= w < j.size && j.hit(w)
  }

  /** The loop of search_batch over the copied part of the buffer, four words per result. */
  method Decode(buffer: seq<ulong>, got: nat) returns (found: seq<uint256>)
    requires |buffer| == 4 * got
    ensures |found| == got
    ensures forall i | 0 <= i < got ::
      found[i] == NonceOf(buffer[4 * i], buffer[4 * i + 1], buffer[4 * i + 2], buffer[4 * i + 3])
  {
    found := [];
    for i := 0 to got
      invariant |found| == i
      invariant forall k | 0 <= k < i ::
        found[k] == NonceOf(buffer[4 * k], buffer[4 * k + 1], buffer[4 * k + 2], buffer[4 * k + 3])
    {
      var limbs := buffer[4 * i..4 * i + 4];
      found := found + [NonceOf(limbs[0], limbs[1], limbs[2], limbs[3])];
    }
  }

  function Members(claims: seq<nat>): set<nat> {
    set w | w in claims
  }

  lemma {:induction false} DistinctCount(claims: seq<nat>)
    requires forall i, k | 0 <= i < k < |claims| :: claims[i] != claims[k]
    ensures |Members(claims)| == |claims|
  {
    if claims == [] {
      assert Members(claims) == {};
    } else {
      var init, last := claims[..|claims| - 1], claims[|claims| - 1];
      DistinctCount(init);
      assert claims == init + [last];
      assert Members(claims) == Members(init) + {last};
    }
  }

  /** After every completed launch the counter is the number of hits, and the claims are the hits, once each. */
  lemma CounterIsHitCount(j: Job, schedule: seq<nat>)
    requires forall i | 0 <= i < |schedule| :: schedule[i] < j.size
    requires Complete(Run(j, schedule))
    ensures var s := Run(j, schedule);
      s.count == |s.claims| == |Hits(j)| && (forall w :: w in s.claims <==> w in Hits(j))
  {
    hide Run, Next;
    var s := Run(j, schedule);
    RunValid(j, schedule);
    hide CellsSound, CellsComplete, WrittenOnce, ItemsValid;
    assert Members(s.claims) == Hits(j);
    DistinctCount(s.claims);
  }

  /** In every completed launch exactly the cells of the first min(count, maxResults) slots are written,
      each of them once, and slot i holds the nonce of the i-th claimant. */
  lemma SlotsWrittenOnce(j: Job, schedule: seq<nat>)
    requires forall i | 0 <= i < |schedule| :: schedule[i] < j.size
    requires Complete(Run(j, schedule))
    ensures var s := Run(j, schedule);
      && s.count == |s.claims|
      && (forall c :: c in s.out <==> c.slot < Min(s.count, j.maxResults) && c.limb < 4)
      && (forall c :: multiset(s.writes)[c] == if c in s.out then 1 else 0)
      && (forall i, k | 0 <= i < Min(s.count, j.maxResults) && 0 <= k < 4 ::
            s.out[Cell(i, k)] == ItemLimb(j, s.claims[i], k))
  {
    hide Run, Next;
    var s := Run(j, schedule);
    RunValid(j, schedule);
    forall i | 0 <= i < |s.claims| ensures Progress(s, i) == 4 { }
    forall c ensures c in s.out <==> c.slot < Min(s.count, j.maxResults) && c.limb < 4 {
      assert c == Cell(c.slot, c.limb);
    }
    MultiplicityOne(s.writes);
    hide ItemLimb;
  }

  lemma {:induction false} MultiplicityOne(writes: seq<Cell>)
    requires forall a, b | 0 <= a < b < |writes| :: writes[a] != writes[b]
    ensures forall c :: multiset(writes)[c] == if c in writes then 1 else 0
  {
    if writes != [] {
      var init, last := writes[..|writes| - 1], writes[|writes| - 1];
      MultiplicityOne(init);
      assert writes == init + [last];
    }
  }

  // ---------- a batch as the host runs it

  /** search_batch rounds the number of work items up to a multiple of the work-group size. */
  function RoundUp(n: nat, localSize: nat): nat
    requires localSize > 0
  {
    (n + localSize - 1) / localSize * localSize
  }

  lemma RoundUpBounds(n: nat, localSize: nat)
    requires localSize > 0
    ensures n <= RoundUp(n, localSize) < n + localSize && RoundUp(n, localSize) % localSize == 0
  {
    var m := n + localSize - 1;
    assert m == m / localSize * localSize + m % localSize;
    MultipleRemainder(m / localSize, localSize);
  }

  lemma MultipleRemainder(a: nat, b: nat)
    requires b > 0
    ensures a * b % b == 0
  {
    var x := a * b;
    WholeAndRest(x, b, x / b, x % b, a);
  }

  /** A multiple of b leaves no rest. */
  lemma WholeAndRest(x: nat, b: nat, q: nat, r: nat, a: nat)
    requires x == b * q + r && r < b && x == a * b
    ensures r == 0
  {
    if a > q {
      assert a * b == q * b + (a - q) * b;
      AtLeastOnce(a - q, b);
    } else {
      assert q * b == a * b + (q - a) * b;
    }
  }

  lemma AtLeastOnce(n: nat, b: nat)
    requires n > 0
    ensures n * b >= b
  {
  }

  /** (uint)get_global_id(0) */
  function Gid(w: nat): (g: nat)
    ensures g < TWO32
  {
    w % TWO32
  }

  /** The launch of search_batch: work item w searches nonce base + Gid(w) and bails out beyond n. */
  function Batch(challenge: bytes32, target: uint256, base: int, n: nat, localSize: nat, maxResults: nat): Job
    requires localSize > 0
  {
    Job((w: nat) => Gid(w) < n && IsValidNonce(challenge, ItemNonce(base, Gid(w)), target),
        (w: nat) => ItemNonce(base, Gid(w)), RoundUp(n, localSize), maxResults)
  }

  /** The ids below n whose nonce solves the puzzle. */
  function Solutions(challenge: bytes32, target: uint256, base: int, n: nat): set<nat> {
    set g: nat | g < n && IsValidNonce(challenge, ItemNonce(base, g), target)
  }

  /** What the host reads back: the nonces of the first claimants. */
  function Found(j: Job, s: State): seq<uint256>
    requires |s.claims| == s.count
  {
    seq(Min(s.count, j.maxResults), i requires 0 <= i < Min(s.count, j.maxResults) => j.nonce(s.claims[i]))
  }

  /** The filled part of the result buffer as the host copies it: word a is limb a % 4 of slot a / 4. */
  function Copied(s: State, got: nat): (buffer: seq<ulong>)
    requires forall c: Cell | c.slot < got && c.limb < 4 :: c in s.out
    ensures |buffer| == 4 * got
  {
    seq(4 * got, a requires 0 <= a < 4 * got => s.out[Cell(a / 4, a % 4)])
  }

  lemma CopiedAt(s: State, got: nat, i: nat, k: nat)
    requires forall c: Cell | c.slot < got && c.limb < 4 :: c in s.out
    requires i < got && k < 4
    ensures Copied(s, got)[4 * i + k] == s.out[Cell(i, k)]
  {
  }

  /** Reading the counter, copying the filled part of the buffer and decoding it. */
  method ReadBack(j: Job, s: State, ghost schedule: seq<nat>) returns (found: seq<uint256>)
    requires forall i | 0 <= i < |schedule| :: schedule[i] < j.size
    requires s == Run(j, schedule) && Complete(s)
    ensures |s.claims| == s.count && found == Found(j, s)
  {
    hide Run, Next, Copied, NonceOf, NonceLimb;
    SlotsWrittenOnce(j, schedule);
    found := [];
    if s.count != 0 {
      var got := Min(s.count, j.maxResults);
      found := Decode(Copied(s, got), got);
      forall i | 0 <= i < got ensures found[i] == j.nonce(s.claims[i]) {
        CopiedAt(s, got, i, 0); CopiedAt(s, got, i, 1); CopiedAt(s, got, i, 2); CopiedAt(s, got, i, 3);
        LimbsOf(j.nonce(s.claims[i]));
      }
    }
  }

  lemma LimbsOf(nonce: uint256)
    ensures NonceOf(NonceLimb(nonce, 0), NonceLimb(nonce, 1), NonceLimb(nonce, 2), NonceLimb(nonce, 3)) == nonce
  {
    NonceRoundTrip(nonce);
  }

  /** The ids of a launch are pairwise distinct exactly when the launch has at most 2^32 work items. */
  lemma GidsDistinct(size: nat)
    ensures (forall v, w | 0 <= v < w < size :: Gid(v) != Gid(w)) <==> size <= TWO32
  {
    if size > TWO32 {
      assert Gid(0) == Gid(TWO32);
    }
  }

  lemma ItemNoncesDistinct(base: int, g: nat, h: nat)
    requires g < h < TWO32
    ensures ItemNonce(base, g) != ItemNonce(base, h)
  {
  }

  lemma BatchHits(challenge: bytes32, target: uint256, base: int, n: nat, localSize: nat, maxResults: nat)
    requires localSize > 0 && RoundUp(n, localSize) <= TWO32
    ensures Hits(Batch(challenge, target, base, n, localSize, maxResults)) == Solutions(challenge, target, base, n)
  {
    hide IsValidNonce, ItemNonce;
    RoundUpBounds(n, localSize);
    hide RoundUp;
  }

  /** What a completed batch hands back, whatever the interleaving.  With H solutions among the ids below n:
      the counter is H, the list holds min(H, maxResults) distinct nonces of solutions, and all of them
      when they fit. */
  lemma BatchResults(challenge: bytes32, target: uint256, base: int, n: nat, localSize: nat, maxResults: nat,
                     schedule: seq<nat>)
    requires localSize > 0 && RoundUp(n, localSize) <= TWO32
    requires var j := Batch(challenge, target, base, n, localSize, maxResults);
      (forall i | 0 <= i < |schedule| :: schedule[i] < j.size) && Complete(Run(j, schedule))
    ensures var size := Batch(challenge, target, base, n, localSize, maxResults).size;
      size % localSize == 0 && n <= size < n + localSize
    ensures var j := Batch(challenge, target, base, n, localSize, maxResults);
      var s, solutions := Run(j, schedule), Solutions(challenge, target, base, n);
      && s.count == |s.claims| == |solutions|
      && var found := Found(j, s);
      && |found| == Min(|solutions|, maxResults)
      && (forall i, k | 0 <= i < k < |found| :: found[i] != found[k])
      && (forall i | 0 <= i < |found| :: exists g :: g in solutions && found[i] == ItemNonce(base, g))
      && (|solutions| <= maxResults ==> forall g | g in solutions :: ItemNonce(base, g) in found)
  {
    hide *;
    var j := Batch(challenge, target, base, n, localSize, maxResults);
    var s, solutions := Run(j, schedule), Solutions(challenge, target, base, n);
    BatchSize(challenge, target, base, n, localSize, maxResults);
    BatchHits(challenge, target, base, n, localSize, maxResults);
    CounterIsHitCount(j, schedule);
    RunValid(j, schedule);
    ClaimsDistinct(j, s);
    BatchNonces(challenge, target, base, n, localSize, maxResults);
    ClaimedNonces(j, s, base, n, solutions);
  }

  /** The launch is the fewest whole work-groups that hold n work items. */
  lemma BatchSize(challenge: bytes32, target: uint256, base: int, n: nat, localSize: nat, maxResults: nat)
    requires localSize > 0
    ensures var size := Batch(challenge, target, base, n, localSize, maxResults).size;
      size % localSize == 0 && n <= size < n + localSize
  {
    hide IsValidNonce, ItemNonce, RoundUp;
    RoundUpBounds(n, localSize);
  }

  lemma BatchNonces(challenge: bytes32, target: uint256, base: int, n: nat, localSize: nat, maxResults: nat)
    requires localSize > 0 && RoundUp(n, localSize) <= TWO32
    ensures var j := Batch(challenge, target, base, n, localSize, maxResults);
      && j.maxResults == maxResults
      && forall g | g in Solutions(challenge, target, base, n) :: g < TWO32 && j.nonce(g) == ItemNonce(base, g)
  {
    hide IsValidNonce, ItemNonce;
    RoundUpBounds(n, localSize);
    hide RoundUp;
  }

  lemma ClaimsDistinct(j: Job, s: State)
    requires Valid(j, s)
    ensures forall i, k | 0 <= i < k < |s.claims| :: s.claims[i] != s.claims[k]
  {
  }

  lemma ClaimedNonces(j: Job, s: State, base: int, n: nat, solutions: set<nat>)
    requires s.count == |s.claims| == |solutions|
    requires forall w :: w in s.claims <==> w in solutions
    requires forall i, k | 0 <= i < k < |s.claims| :: s.claims[i] != s.claims[k]
    requires forall g | g in solutions :: g < TWO32 && j.nonce(g) == ItemNonce(base, g)
    ensures var found := Found(j, s);
      && |found| == Min(|solutions|, j.maxResults)
      && (forall i, k | 0 <= i < k < |found| :: found[i] != found[k])
      && (forall i | 0 <= i < |found| :: exists g :: g in solutions && found[i] == ItemNonce(base, g))
      && (|solutions| <= j.maxResults ==> forall g | g in solutions :: ItemNonce(base, g) in found)
  {
    hide ItemNonce;
    var found := Found(j, s);
    forall i, k | 0 <= i < k < |found| ensures found[i] != found[k] {
      var g, h := s.claims[i], s.claims[k];
      assert g in solutions && h in solutions;
      if g < h { ItemNoncesDistinct(base, g, h); } else { ItemNoncesDistinct(base, h, g); }
    }
    forall i | 0 <= i < |found| ensures exists g :: g in solutions && found[i] == ItemNonce(base, g) {
      assert s.claims[i] in solutions;
    }
    if |solutions| <= j.maxResults {
      forall g | g in solutions ensures ItemNonce(base, g) in found {
        var i :| 0 <= i < |s.claims| && s.claims[i] == g;
        assert found[i] == ItemNonce(base, g);
      }
    }
  }

  function Below(n: nat): (s: set<nat>)
    ensures |s| == n && forall g: nat :: g in s <==> g < n
  {
    if n == 0 then {} else Below(n - 1) + {n - 1}
  }

  lemma SubsetCount<T>(a: set<T>, b: set<T>)
    requires a <= b
    ensures |a| <= |b|
  {
    assert b == a + (b - a);
  }

  /** At every moment of a batch the counter is at most n, so a 32-bit counter never wraps. */
  lemma CounterNeverWraps(challenge: bytes32, target: uint256, base: int, n: nat, localSize: nat, maxResults: nat,
                          schedule: seq<nat>)
    requires localSize > 0
    requires forall i | 0 <= i < |schedule| :: schedule[i] < RoundUp(n, localSize)
    requires RoundUp(n, localSize) <= TWO32
    ensures Run(Batch(challenge, target, base, n, localSize, maxResults), schedule).count <= n
  {
    hide Run, Next, IsValidNonce, ItemNonce, RoundUp, CellsSound, CellsComplete, WrittenOnce, ItemsValid;
    var j := Batch(challenge, target, base, n, localSize, maxResults);
    RunValid(j, schedule);
    var claims := Run(j, schedule).claims;
    DistinctCount(claims);
    assert Members(claims) <= Below(n);
    SubsetCount(Members(claims), Below(n));
  }

  // ---------- disjointness of launches

  /** The base _random_base draws: a per-device salt above 192 random bits. */
  function SaltedBase(salt: ulong, low: nat): nat {
    salt * TWO192 + low
  }

  /** A launch stays within the nonces of its salt exactly when its random bits leave room for it. */
  lemma SaltKept(salt: ulong, low: nat, n: nat)
    requires low < TWO192 && 0 < n <= TWO32
    ensures (forall g | 0 <= g < n :: ItemNonce(SaltedBase(salt, low), g) / TWO192 == salt) <==> low + n <= TWO192
  {
    if low + n <= TWO192 {
      forall g | 0 <= g < n ensures ItemNonce(SaltedBase(salt, low), g) / TWO192 == salt {
        assert SaltedBase(salt, low) + g < TWO256;
      }
    } else {
      var g := TWO192 - low;
      assert 0 <= g < n;
      assert SaltedBase(salt, low) + g == (salt + 1) * TWO192;
      if salt + 1 == TWO64 {
        assert ItemNonce(SaltedBase(salt, low), g) == 0;
      } else {
        assert ItemNonce(SaltedBase(salt, low), g) == (salt + 1) * TWO192;
      }
    }
  }

  lemma SaltsDisjoint(salt1: ulong, low1: nat, n1: nat, salt2: ulong, low2: nat, n2: nat, g: nat, h: nat)
    requires salt1 != salt2 && low1 < TWO192 && low2 < TWO192 && n1 <= TWO32 && n2 <= TWO32
    requires low1 + n1 <= TWO192 && low2 + n2 <= TWO192 && g < n1 && h < n2
    ensures ItemNonce(SaltedBase(salt1, low1), g) != ItemNonce(SaltedBase(salt2, low2), h)
  {
    hide ItemNonce, SaltedBase;
    SaltKept(salt1, low1, n1);
    SaltKept(salt2, low2, n2);
  }
}
