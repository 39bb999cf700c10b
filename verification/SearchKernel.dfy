/** One work item of the search kernel (`keccak_pow_search`) and the host's encoding of its arguments
    (`gpu.py`).  The scalar `ulong` arguments are naturals below 2^64, with wrap-around written out. */
module SearchKernel {
  import opened Words
  import opened Keccak
  import opened ProofOfWork
  import KeccakKernel

  type ulong = n: nat | n < TWO64

  // ---------- host encoding

  /** challenge_lanes: four 64-bit words, little-endian. */
  function ChallengeLane(challenge: bytes32, i: nat): nat
    requires i < 4
  {
    LittleEndian(challenge[8 * i..8 * i + 8])
  }

  /** target_limbs: limb 0 is the most significant one. */
  function TargetLimb(target: uint256, i: nat): ulong
    requires i < 4
  {
    (if i == 0 then target / TWO192 else if i == 1 then target / TWO128 else if i == 2 then target / TWO64 else target)
    % TWO64
  }

  /** _nonce_limbs_le: limb 0 is the least significant one; a negative or over-long base is reduced mod 2^256. */
  function NonceLimb(base: int, i: nat): ulong
    requires i < 4
  {
    (if i == 0 then base else if i == 1 then base / TWO64 else if i == 2 then base / TWO128 else base / TWO192)
    % TWO64
  }

  /** The integer search_batch puts together from four result limbs. */
  function NonceOf(n0: ulong, n1: ulong, n2: ulong, n3: ulong): uint256 {
    n0 + TWO64 * n1 + TWO128 * n2 + TWO192 * n3
  }

  function TargetOf(t0: ulong, t1: ulong, t2: ulong, t3: ulong): uint256 {
    NonceOf(t3, t2, t1, t0)
  }

  /** The 32 bytes whose little-endian words are ch0..ch3. */
  function ChallengeOf(ch0: ulong, ch1: ulong, ch2: ulong, ch3: ulong): bytes32 {
    Reverse(ToBigEndian(ch0, 8)) + Reverse(ToBigEndian(ch1, 8)) +
    Reverse(ToBigEndian(ch2, 8)) + Reverse(ToBigEndian(ch3, 8))
  }

  lemma ChallengeLaneBound(challenge: bytes32, i: nat)
    requires i < 4
    ensures ChallengeLane(challenge, i) < TWO64
  {
    var s := challenge[8 * i..8 * i + 8];
    ReverseTwice(s);
    LittleEndianReverse(Reverse(s));
    BigEndianBound(Reverse(s));
    Pow256Values();
  }

  lemma LaneRoundTrip(s: seq<byte>)
    requires |s| == 8
    ensures Reverse(ToBigEndian(LittleEndian(s), 8)) == s
  {
    ReverseTwice(s);
    LittleEndianReverse(Reverse(s));
    ToBigEndianRoundTrip(Reverse(s));
  }

  /** The kernel's reading of the encoded challenge is the challenge. */
  lemma ChallengeRoundTrip(challenge: bytes32)
    ensures forall i | 0 <= i < 4 :: ChallengeLane(challenge, i) < TWO64
    ensures ChallengeOf(ChallengeLane(challenge, 0), ChallengeLane(challenge, 1),
                        ChallengeLane(challenge, 2), ChallengeLane(challenge, 3)) == challenge
  {
    forall i | 0 <= i < 4 { ChallengeLaneBound(challenge, i); }
    LaneRoundTrip(challenge[0..8]);
    LaneRoundTrip(challenge[8..16]);
    LaneRoundTrip(challenge[16..24]);
    LaneRoundTrip(challenge[24..32]);
    assert challenge == challenge[0..8] + challenge[8..16] + challenge[16..24] + challenge[24..32];
  }

  lemma TargetRoundTrip(target: uint256)
    ensures TargetOf(TargetLimb(target, 0), TargetLimb(target, 1), TargetLimb(target, 2), TargetLimb(target, 3))
            == target
  {
    assert target / TWO128 == target / TWO64 / TWO64;
    assert target / TWO192 == target / TWO64 / TWO64 / TWO64;
  }

  lemma NonceRoundTrip(base: int)
    ensures NonceOf(NonceLimb(base, 0), NonceLimb(base, 1), NonceLimb(base, 2), NonceLimb(base, 3)) == base % TWO256
  {
    assert base / TWO128 == base / TWO64 / TWO64;
    assert base / TWO192 == base / TWO64 / TWO64 / TWO64;
    assert base / TWO256 == base / TWO64 / TWO64 / TWO64 / TWO64;
  }

  // ---------- the padded block

  const PAD_FIRST: bv64 := 0x0000000000000001
  const PAD_LAST: bv64 := 0x8000000000000000
  const PAD_ZERO: bv64 := 0

  /** Lanes 8 to 24: the padding of the block, then the capacity. */
  function PaddingLanes(): (s: seq<bv64>)
    ensures |s| == 17
  {
    [PAD_FIRST, PAD_ZERO, PAD_ZERO, PAD_ZERO, PAD_ZERO, PAD_ZERO, PAD_ZERO, PAD_ZERO, PAD_LAST,
     PAD_ZERO, PAD_ZERO, PAD_ZERO, PAD_ZERO, PAD_ZERO, PAD_ZERO, PAD_ZERO, PAD_ZERO]
  }

  function MessageLanes(ch0: ulong, ch1: ulong, ch2: ulong, ch3: ulong,
                        n0: ulong, n1: ulong, n2: ulong, n3: ulong): (s: seq<bv64>)
    ensures |s| == 8
  {
    [Word(ch0), Word(ch1), Word(ch2), Word(ch3),
     Bswap(Word(n3)), Bswap(Word(n2)), Bswap(Word(n1)), Bswap(Word(n0))]
  }

  /** The kernel's state before the permutation. */
  function PreparedState(ch0: ulong, ch1: ulong, ch2: ulong, ch3: ulong,
                         n0: ulong, n1: ulong, n2: ulong, n3: ulong): State
  {
    MessageLanes(ch0, ch1, ch2, ch3, n0, n1, n2, n3) + PaddingLanes()
  }

  lemma NonceBytes(n0: ulong, n1: ulong, n2: ulong, n3: ulong)
    ensures ToBigEndian(NonceOf(n0, n1, n2, n3), 32)
         == ToBigEndian(n3, 8) + ToBigEndian(n2, 8) + ToBigEndian(n1, 8) + ToBigEndian(n0, 8)
  {
    Pow256Values();
    hide ToBigEndian, Pow256;
    var high := n3 * TWO64 + n2;
    var upper := high * TWO64 + n1;
    assert NonceOf(n0, n1, n2, n3) == upper * TWO64 + n0;
    ToBigEndianSplit(upper, n0, 24, 8);
    ToBigEndianSplit(high, n1, 16, 8);
    ToBigEndianSplit(n3, n2, 8, 8);
  }

  /** The single padded block of the 64-byte preimage. */
  function Block(ch0: ulong, ch1: ulong, ch2: ulong, ch3: ulong,
                 n0: ulong, n1: ulong, n2: ulong, n3: ulong): (b: seq<byte>)
    ensures |b| == RATE
  {
    PowPreimage(ChallengeOf(ch0, ch1, ch2, ch3), NonceOf(n0, n1, n2, n3)) + Padding(64)
  }

  /** The block cut into words of eight bytes. */
  function Words64(ch0: ulong, ch1: ulong, ch2: ulong, ch3: ulong,
                   n0: ulong, n1: ulong, n2: ulong, n3: ulong): (w: seq<seq<byte>>)
    ensures |w| == 17 && forall i | 0 <= i < 17 :: |w[i]| == 8
  {
    [Reverse(ToBigEndian(ch0, 8)), Reverse(ToBigEndian(ch1, 8)),
     Reverse(ToBigEndian(ch2, 8)), Reverse(ToBigEndian(ch3, 8)),
     ToBigEndian(n3, 8), ToBigEndian(n2, 8), ToBigEndian(n1, 8), ToBigEndian(n0, 8)] + PaddingWords()
  }

  function PaddingWords(): (w: seq<seq<byte>>)
    ensures |w| == 9 && forall i | 0 <= i < 9 :: |w[i]| == 8
  {
    [[0x01, 0, 0, 0, 0, 0, 0, 0]] + ZeroWords(7) + [[0, 0, 0, 0, 0, 0, 0, 0x80]]
  }

  function ZeroWords(n: nat): (w: seq<seq<byte>>)
    ensures |w| == n && forall i | 0 <= i < n :: w[i] == Zeros(8)
  {
    seq(n, i => Zeros(8))
  }

  function Flatten(w: seq<seq<byte>>): seq<byte> {
    if w == [] then [] else Flatten(w[..|w| - 1]) + w[|w| - 1]
  }

  lemma {:induction false} FlattenSlice(w: seq<seq<byte>>, k: nat)
    requires forall i | 0 <= i < |w| :: |w[i]| == 8
    ensures |Flatten(w)| == 8 * |w|
    ensures k < |w| ==> Flatten(w)[8 * k..8 * k + 8] == w[k]
  {
    if w != [] {
      FlattenSlice(w[..|w| - 1], k);
    }
  }

  lemma {:induction false} FlattenAppend(v: seq<seq<byte>>, w: seq<seq<byte>>)
    ensures Flatten(v + w) == Flatten(v) + Flatten(w)
  {
    if w == [] {
      assert v + w == v;
    } else {
      assert (v + w)[..|v + w| - 1] == v + w[..|w| - 1];
      FlattenAppend(v, w[..|w| - 1]);
    }
  }

  lemma FlattenEight(a: seq<byte>, b: seq<byte>, c: seq<byte>, d: seq<byte>,
                     e: seq<byte>, f: seq<byte>, g: seq<byte>, h: seq<byte>)
    ensures Flatten([a, b, c, d, e, f, g, h]) == (a + b + c + d) + (e + f + g + h)
  {
    assert [a, b, c, d, e, f, g, h] == [a, b, c, d] + [e, f, g, h];
    FlattenAppend([a, b, c, d], [e, f, g, h]);
    FlattenFour(a, b, c, d);
    FlattenFour(e, f, g, h);
  }

  lemma FlattenFour(a: seq<byte>, b: seq<byte>, c: seq<byte>, d: seq<byte>)
    ensures Flatten([a, b, c, d]) == a + b + c + d
  {
    assert [a, b, c, d][..3] == [a, b, c];
    assert [a, b, c][..2] == [a, b];
    assert [a, b][..1] == [a];
    assert Flatten([a]) == a;
    assert Flatten([a, b]) == a + b;
    assert Flatten([a, b, c]) == a + b + c;
  }

  lemma {:induction false} FlattenZeros(n: nat)
    ensures Flatten(ZeroWords(n)) == Zeros(8 * n)
  {
    if n > 0 {
      FlattenZeros(n - 1);
      assert ZeroWords(n)[..n - 1] == ZeroWords(n - 1);
      assert Zeros(8 * n) == Zeros(8 * (n - 1)) + Zeros(8);
    }
  }

  lemma PaddingInWords()
    ensures Padding(64) == Flatten(PaddingWords())
  {
    hide Flatten, Zeros, ZeroWords;
    var first, last: seq<seq<byte>> := [[0x01, 0, 0, 0, 0, 0, 0, 0]], [[0, 0, 0, 0, 0, 0, 0, 0x80]];
    FlattenZeros(7);
    FlattenAppend(first, ZeroWords(7));
    FlattenAppend(first + ZeroWords(7), last);
    FlattenOne(first[0]);
    FlattenOne(last[0]);
  }

  lemma FlattenOne(a: seq<byte>)
    ensures Flatten([a]) == a
  {
  }

  lemma BlockInWords(ch0: ulong, ch1: ulong, ch2: ulong, ch3: ulong, n0: ulong, n1: ulong, n2: ulong, n3: ulong)
    ensures Block(ch0, ch1, ch2, ch3, n0, n1, n2, n3) == Flatten(Words64(ch0, ch1, ch2, ch3, n0, n1, n2, n3))
  {
    hide Padding, PaddingWords, Flatten, ToBigEndian, Reverse;
    PaddingInWords();
    NonceBytes(n0, n1, n2, n3);
    var c0, c1 := Reverse(ToBigEndian(ch0, 8)), Reverse(ToBigEndian(ch1, 8));
    var c2, c3 := Reverse(ToBigEndian(ch2, 8)), Reverse(ToBigEndian(ch3, 8));
    var b3, b2, b1, b0 := ToBigEndian(n3, 8), ToBigEndian(n2, 8), ToBigEndian(n1, 8), ToBigEndian(n0, 8);
    FlattenEight(c0, c1, c2, c3, b3, b2, b1, b0);
    FlattenAppend([c0, c1, c2, c3, b3, b2, b1, b0], PaddingWords());
  }

  lemma MarkerLanes()
    ensures BytesLane([0x01, 0, 0, 0, 0, 0, 0, 0]) == PAD_FIRST
    ensures BytesLane(Zeros(8)) == PAD_ZERO
    ensures BytesLane([0, 0, 0, 0, 0, 0, 0, 0x80]) == PAD_LAST
  {
    assert Zeros(8) == [0, 0, 0, 0, 0, 0, 0, 0];
  }

  lemma XorZero(v: bv64)
    ensures Xor(0, v) == v
  {
  }

  lemma MessageWord(ch0: ulong, ch1: ulong, ch2: ulong, ch3: ulong, n0: ulong, n1: ulong, n2: ulong, n3: ulong, k: nat)
    requires k < 8
    ensures MessageLanes(ch0, ch1, ch2, ch3, n0, n1, n2, n3)[k]
         == BytesLane(Words64(ch0, ch1, ch2, ch3, n0, n1, n2, n3)[k])
  {
    hide Bswap, BytesLane, ToBigEndian, Reverse, PaddingWords;
    SwappedWord(n0); SwappedWord(n1); SwappedWord(n2); SwappedWord(n3);
  }

  lemma PaddingWord(k: nat)
    requires k < 9
    ensures PaddingLanes()[k] == BytesLane(PaddingWords()[k])
  {
    hide BytesLane, PAD_FIRST, PAD_LAST, PAD_ZERO, ZeroWords, Zeros;
    MarkerLanes();
  }

  lemma PreparedWord(ch0: ulong, ch1: ulong, ch2: ulong, ch3: ulong, n0: ulong, n1: ulong, n2: ulong, n3: ulong, k: nat)
    requires k < 17
    ensures PreparedState(ch0, ch1, ch2, ch3, n0, n1, n2, n3)[k]
         == BytesLane(Words64(ch0, ch1, ch2, ch3, n0, n1, n2, n3)[k])
  {
    hide BytesLane, MessageLanes, PaddingLanes, PaddingWords, ToBigEndian, Reverse;
    if k < 8 {
      MessageWord(ch0, ch1, ch2, ch3, n0, n1, n2, n3, k);
    } else {
      PaddingWord(k - 8);
    }
  }

  lemma CapacityLanes(ch0: ulong, ch1: ulong, ch2: ulong, ch3: ulong,
                        n0: ulong, n1: ulong, n2: ulong, n3: ulong, k: nat)
    requires 17 <= k < 25
    ensures PreparedState(ch0, ch1, ch2, ch3, n0, n1, n2, n3)[k] == 0
  {
    hide MessageLanes;
  }

  /** The state the kernel prepares is the zero state with the padded block absorbed. */
  lemma PreparedIsAbsorbed(ch0: ulong, ch1: ulong, ch2: ulong, ch3: ulong, n0: ulong, n1: ulong, n2: ulong, n3: ulong)
    ensures PreparedState(ch0, ch1, ch2, ch3, n0, n1, n2, n3)
         == AbsorbBlock(ZERO, Block(ch0, ch1, ch2, ch3, n0, n1, n2, n3))
  {
    var w, b := Words64(ch0, ch1, ch2, ch3, n0, n1, n2, n3), Block(ch0, ch1, ch2, ch3, n0, n1, n2, n3);
    BlockInWords(ch0, ch1, ch2, ch3, n0, n1, n2, n3);
    hide Block, Words64, BytesLane, Flatten, Xor, PreparedState;
    forall k | 0 <= k < 25
      ensures PreparedState(ch0, ch1, ch2, ch3, n0, n1, n2, n3)[k] == AbsorbBlock(ZERO, b)[k]
    {
      XorZero(BlockLane(b, k));
      if k < 17 {
        FlattenSlice(w, k);
        PreparedWord(ch0, ch1, ch2, ch3, n0, n1, n2, n3, k);
      } else {
        CapacityLanes(ch0, ch1, ch2, ch3, n0, n1, n2, n3, k);
      }
    }
  }

  // ---------- the work item

  lemma OneBlock(padded: seq<byte>)
    requires |padded| == RATE
    ensures Absorb(padded, 1) == KeccakF(AbsorbBlock(ZERO, padded))
  {
    hide KeccakF, AbsorbBlock;
    assert padded[RATE * 0..RATE * 1] == padded;
    assert Absorb(padded, 0) == ZERO;
  }

  /** The 64-byte preimage is hashed by a single permutation of the prepared state. */
  lemma PreparedDigest(ch0: ulong, ch1: ulong, ch2: ulong, ch3: ulong, n0: ulong, n1: ulong, n2: ulong, n3: ulong)
    ensures PowDigest(ChallengeOf(ch0, ch1, ch2, ch3), NonceOf(n0, n1, n2, n3))
         == Digest(KeccakF(PreparedState(ch0, ch1, ch2, ch3, n0, n1, n2, n3)))
  {
    hide KeccakF, AbsorbBlock, Digest, Padding, PowPreimage, ChallengeOf, PreparedState, Absorb;
    OneBlock(Block(ch0, ch1, ch2, ch3, n0, n1, n2, n3));
    PreparedIsAbsorbed(ch0, ch1, ch2, ch3, n0, n1, n2, n3);
  }

  lemma DigestValue(a: State)
    ensures BigEndian(Digest(a))
         == TargetOf(SwappedValue(a[0]), SwappedValue(a[1]), SwappedValue(a[2]), SwappedValue(a[3]))
  {
    hide BigEndian, LaneBytes, Value, Bswap, Pow256;
    var b0, b1, b2, b3 := LaneBytes(a[0]), LaneBytes(a[1]), LaneBytes(a[2]), LaneBytes(a[3]);
    Pow256Values();
    ValueOfSwapped(a[0]); ValueOfSwapped(a[1]); ValueOfSwapped(a[2]); ValueOfSwapped(a[3]);
    BigEndianAppend(b0 + b1 + b2, b3);
    BigEndianAppend(b0 + b1, b2);
    BigEndianAppend(b0, b1);
  }

  lemma CarryChain(nb0: ulong, nb1: ulong, nb2: ulong, nb3: ulong, gid: nat, n0: ulong, n1: ulong, n2: ulong, n3: ulong,
                   c0: nat, c1: nat, c2: nat)
    requires gid < TWO32
    requires n0 == (nb0 + gid) % TWO64 && c0 == (if n0 < nb0 then 1 else 0)
    requires n1 == (nb1 + c0) % TWO64 && c1 == (if n1 < nb1 then 1 else 0)
    requires n2 == (nb2 + c1) % TWO64 && c2 == (if n2 < nb2 then 1 else 0)
    requires n3 == (nb3 + c2) % TWO64
    ensures NonceOf(n0, n1, n2, n3) == (NonceOf(nb0, nb1, nb2, nb3) + gid) % TWO256
  {
    assert nb0 + gid == n0 + TWO64 * c0;
    assert nb1 + c0 == n1 + TWO64 * c1;
    assert nb2 + c1 == n2 + TWO64 * c2;
    var c3 := if nb3 + c2 >= TWO64 then 1 else 0;
    assert nb3 + c2 == n3 + TWO64 * c3;
    assert NonceOf(nb0, nb1, nb2, nb3) + gid == NonceOf(n0, n1, n2, n3) + TWO256 * c3;
  }

  lemma Lexicographic(d0: ulong, d1: ulong, d2: ulong, d3: ulong, t0: ulong, t1: ulong, t2: ulong, t3: ulong)
    ensures TargetOf(d0, d1, d2, d3) < TargetOf(t0, t1, t2, t3) <==>
            d0 < t0 || (d0 == t0 && (d1 < t1 || (d1 == t1 && (d2 < t2 || (d2 == t2 && d3 < t3)))))
  {
  }

  /** The padding of the absorbed block and the capacity lanes. */
  method PadState(st: array<bv64>)
    requires st.Length == 25
    modifies st
    ensures st[..8] == old(st[..8]) && st[8..] == PaddingLanes()
  {
    hide *;
    st[8] := PAD_FIRST;
    st[9], st[10], st[11], st[12] := PAD_ZERO, PAD_ZERO, PAD_ZERO, PAD_ZERO;
    st[13], st[14], st[15] := PAD_ZERO, PAD_ZERO, PAD_ZERO;
    st[16] := PAD_LAST;
    st[17], st[18], st[19], st[20] := PAD_ZERO, PAD_ZERO, PAD_ZERO, PAD_ZERO;
    st[21], st[22], st[23], st[24] := PAD_ZERO, PAD_ZERO, PAD_ZERO, PAD_ZERO;
    PaddingLanesAre(st[8..]);
  }

  lemma PaddingLanesAre(s: seq<bv64>)
    requires |s| == 17 && s[0] == PAD_FIRST && s[8] == PAD_LAST
    requires forall k | 1 <= k < 17 && k != 8 :: s[k] == PAD_ZERO
    ensures s == PaddingLanes()
  {
    hide PAD_FIRST, PAD_LAST, PAD_ZERO;
  }

  /** The absorb step: the padded block is written into a fresh state. */
  method PrepareState(ch0: ulong, ch1: ulong, ch2: ulong, ch3: ulong, n0: ulong, n1: ulong, n2: ulong, n3: ulong)
    returns (st: array<bv64>)
    ensures fresh(st) && st.Length == 25
    ensures st[..] == PreparedState(ch0, ch1, ch2, ch3, n0, n1, n2, n3)
  {
    hide *;
    st := new bv64[25];
    st[0], st[1], st[2], st[3] := Word(ch0), Word(ch1), Word(ch2), Word(ch3);
    st[4], st[5], st[6], st[7] := Bswap(Word(n3)), Bswap(Word(n2)), Bswap(Word(n1)), Bswap(Word(n0));
    PadState(st);
    PreparedIs(ch0, ch1, ch2, ch3, n0, n1, n2, n3, st[..]);
  }

  lemma PreparedIs(ch0: ulong, ch1: ulong, ch2: ulong, ch3: ulong,
                     n0: ulong, n1: ulong, n2: ulong, n3: ulong, st: seq<bv64>)
    requires |st| == 25
    requires st[0] == Word(ch0) && st[1] == Word(ch1) && st[2] == Word(ch2) && st[3] == Word(ch3)
    requires st[4] == Bswap(Word(n3)) && st[5] == Bswap(Word(n2))
             && st[6] == Bswap(Word(n1)) && st[7] == Bswap(Word(n0))
    requires st[8..] == PaddingLanes()
    ensures st == PreparedState(ch0, ch1, ch2, ch3, n0, n1, n2, n3)
  {
    hide Word, Bswap, PaddingLanes;
    assert st[..8] == MessageLanes(ch0, ch1, ch2, ch3, n0, n1, n2, n3);
    assert st == st[..8] + st[8..];
  }

  /** The comparison of the digest with the target, most significant limb first, with its early exits. */
  method BelowTarget(st: array<bv64>, t0: ulong, t1: ulong, t2: ulong, t3: ulong) returns (below: bool)
    requires st.Length == 25
    ensures below <==> BigEndian(Digest(st[..])) < TargetOf(t0, t1, t2, t3)
  {
    hide *;
    DigestValue(st[..]);
    Lexicographic(SwappedValue(st[0]), SwappedValue(st[1]), SwappedValue(st[2]), SwappedValue(st[3]), t0, t1, t2, t3);
    var d0 := SwappedValue(st[0]);
    if d0 > t0 { return false; }
    if d0 == t0 {
      var d1 := SwappedValue(st[1]);
      if d1 > t1 { return false; }
      if d1 == t1 {
        var d2 := SwappedValue(st[2]);
        if d2 > t2 { return false; }
        if d2 == t2 {
          var d3 := SwappedValue(st[3]);
          if d3 >= t3 { return false; }
        }
      }
    }
    return true;
  }

  lemma ValidIs(challenge: bytes32, nonce: uint256, difficulty: nat)
    ensures IsValidNonce(challenge, nonce, difficulty) <==> BigEndian(PowDigest(challenge, nonce)) < difficulty
  {
    hide PowDigest;
  }

  /** keccak_pow_search up to the atomic counter: whether the work item has a hit, and its nonce. */
  method KeccakPowSearch(ch0: ulong, ch1: ulong, ch2: ulong, ch3: ulong, t0: ulong, t1: ulong, t2: ulong, t3: ulong,
                         nb0: ulong, nb1: ulong, nb2: ulong, nb3: ulong, nTotal: nat, gid: nat)
    returns (hit: bool, n0: ulong, n1: ulong, n2: ulong, n3: ulong)
    requires gid < TWO32
    ensures hit <==>
      gid < nTotal &&
      IsValidNonce(ChallengeOf(ch0, ch1, ch2, ch3),
                   (NonceOf(nb0, nb1, nb2, nb3) + gid) % TWO256, TargetOf(t0, t1, t2, t3))
    ensures hit ==> NonceOf(n0, n1, n2, n3) == (NonceOf(nb0, nb1, nb2, nb3) + gid) % TWO256
  {
    hide *;
    n0, n1, n2, n3 := 0, 0, 0, 0;
    if gid >= nTotal { return false, n0, n1, n2, n3; }

    n0 := (nb0 + gid) % TWO64;
    var c0 := if n0 < nb0 then 1 else 0;
    n1 := (nb1 + c0) % TWO64;
    var c1 := if n1 < nb1 then 1 else 0;
    n2 := (nb2 + c1) % TWO64;
    var c2 := if n2 < nb2 then 1 else 0;
    n3 := (nb3 + c2) % TWO64;
    CarryChain(nb0, nb1, nb2, nb3, gid, n0, n1, n2, n3, c0, c1, c2);

    var st := PrepareState(ch0, ch1, ch2, ch3, n0, n1, n2, n3);
    KeccakKernel.KeccakF1600(st);
    PreparedDigest(ch0, ch1, ch2, ch3, n0, n1, n2, n3);
    ValidIs(ChallengeOf(ch0, ch1, ch2, ch3), NonceOf(n0, n1, n2, n3), TargetOf(t0, t1, t2, t3));
    hit := BelowTarget(st, t0, t1, t2, t3);
  }

  /** The nonce of work item `gid` of a launch from `base`. */
  function ItemNonce(base: int, gid: nat): uint256 {
    (base + gid) % TWO256
  }

  /** A work item between the host's encoding and the host's decoding. */
  method SearchItem(challenge: bytes32, target: uint256, base: int, nTotal: nat, gid: nat)
    returns (hit: bool, nonce: uint256)
    requires gid < TWO32
    ensures hit <==> gid < nTotal && IsValidNonce(challenge, ItemNonce(base, gid), target)
    ensures hit ==> nonce == ItemNonce(base, gid)
  {
    hide IsValidNonce, ChallengeLane, TargetLimb, NonceLimb, ChallengeOf, NonceOf;
    ChallengeRoundTrip(challenge);
    TargetRoundTrip(target);
    NonceRoundTrip(base);
    AddToReduced(base, gid);
    var n0, n1, n2, n3;
    hit, n0, n1, n2, n3 := KeccakPowSearch(
      ChallengeLane(challenge, 0), ChallengeLane(challenge, 1),
      ChallengeLane(challenge, 2), ChallengeLane(challenge, 3),
      TargetLimb(target, 0), TargetLimb(target, 1), TargetLimb(target, 2), TargetLimb(target, 3),
      NonceLimb(base, 0), NonceLimb(base, 1), NonceLimb(base, 2), NonceLimb(base, 3), nTotal, gid);
    nonce := NonceOf(n0, n1, n2, n3);
  }

  lemma AddToReduced(base: int, gid: nat)
    ensures (base % TWO256 + gid) % TWO256 == (base + gid) % TWO256
  {
  }
}
