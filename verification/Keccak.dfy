/** Keccak as FIPS 202 defines it: the step mappings of section 3.2, the permutation of section 3.3 and
    the sponge of section 4.  The hash is the original Keccak-256 of Ethereum: rate 136 bytes, 32 bytes
    of output, pad10*1 (section 5.1) straight after the message, without the suffix of section 6.1. */
module Keccak {
  import opened Words

  type State = s: seq<bv64> | |s| == 25 
    witness [0, 0, 0, 0, 0, 0, 0, 0, 0, 0, 0, 0, 0, 0, 0, 0, 0, 0, 0, 0, 0, 0, 0, 0, 0]

  type coordinate = c: nat | c < 5

  /** Lane (x, y) of the state is kept at index 5y + x (section 3.1.2). */
  function Index(x: coordinate, y: coordinate): (k: nat)
    ensures k < 25
  {
    5 * y + x
  }

  function Column(k: nat): coordinate { k % 5 }

  function Row(k: nat): coordinate
    requires k < 25
  {
    k / 5
  }

  function Lane(a: State, x: coordinate, y: coordinate): bv64 {
    a[Index(x, y)]
  }

  // ---------- bitwise operations on lanes

  function Xor(v: bv64, w: bv64): bv64 { v ^ w }

  function AndNot(v: bv64, w: bv64): bv64 { !v & w }

  type amount = n: nat | n < 64

  /** A rotation amount as a word, the cast `(ulong)n` of the kernel. */
  function Amount(n: amount): bv64 {
    (n as bv6) as bv64
  }

  /** Left rotation, the `ROTL64` macro of the kernel. */
  function RotateWord(v: bv64, n: bv64): bv64
    requires n <= 64
  {
    (v << n) | (v >> (64 - n))
  }

  function Rotate(v: bv64, n: amount): bv64 {
    RotateWord(v, Amount(n))
  }

  // ---------- step mappings, section 3.2

  function Parity(a: State, x: coordinate): bv64 {
    Xor(Xor(Xor(Xor(Lane(a, x, 0), Lane(a, x, 1)), Lane(a, x, 2)), Lane(a, x, 3)), Lane(a, x, 4))
  }

  function ThetaEffect(a: State, x: coordinate): bv64 {
    Xor(Parity(a, (x + 4) % 5), Rotate(Parity(a, (x + 1) % 5), 1))
  }

  function ThetaLane(a: State, k: nat): bv64
    requires k < 25
  {
    Xor(a[k], ThetaEffect(a, Column(k)))
  }

  function Theta(a: State): State {
    seq(25, k requires 0 <= k < 25 => ThetaLane(a, k))
  }

  function RhoNext(x: coordinate, y: coordinate): (coordinate, coordinate) {
    (y, (2 * x + 3 * y) % 5)
  }

  /** The coordinates Algorithm 2 visits at step t. */
  function RhoPosition(t: nat): (coordinate, coordinate) {
    if t == 0 then (1, 0) else var (x, y) := RhoPosition(t - 1); RhoNext(x, y)
  }

  function Triangle(t: nat): nat {
    (t + 1) * (t + 2) / 2
  }

  function RhoOffset(t: nat): amount {
    Triangle(t) % 64
  }

  /** The lanes of the result after the first `t` steps of Algorithm 2. */
  function RhoSteps<T>(a: seq<T>, rotate: (T, amount) -> T, t: nat): (r: seq<T>)
    requires |a| == 25
    ensures |r| == 25
  {
    if t == 0 then a
    else
      var (x, y) := RhoPosition(t - 1);
      var k := Index(x, y);
      RhoSteps(a, rotate, t - 1)[k := rotate(a[k], RhoOffset(t - 1))]
  }

  function Rho<T>(a: seq<T>, rotate: (T, amount) -> T): (r: seq<T>)
    requires |a| == 25
    ensures |r| == 25
  {
    RhoSteps(a, rotate, 24)
  }

  function PiSource(x: coordinate, y: coordinate): (k: nat)
    ensures k < 25
  {
    Index((x + 3 * y) % 5, x)
  }

  function Pi<T>(a: seq<T>): (r: seq<T>)
    requires |a| == 25
    ensures |r| == 25
  {
    seq(25, k requires 0 <= k < 25 => a[PiSource(Column(k), Row(k))])
  }

  function ChiLane(a: State, x: coordinate, y: coordinate): bv64 {
    Xor(Lane(a, x, y), AndNot(Lane(a, (x + 1) % 5, y), Lane(a, (x + 2) % 5, y)))
  }

  function Chi(a: State): State {
    seq(25, k requires 0 <= k < 25 => ChiLane(a, Column(k), Row(k)))
  }

  /** The feedback register R[0..7] of Algorithm 5. */
  datatype Register = Register(r0: bool, r1: bool, r2: bool, r3: bool, r4: bool, r5: bool, r6: bool, r7: bool) {
    /** One step: a 0 bit enters in front, and the bit R[8] that leaves is added to R[0], R[4], R[5] and R[6]. */
    function Shift(): Register {
      Register(r7, r0, r1, r2, r3 != r7, r4 != r7, r5 != r7, r6)
    }
  }

  function RegisterAfter(t: nat): Register {
    if t == 0 then Register(true, false, false, false, false, false, false, false)
    else RegisterAfter(t - 1).Shift()
  }

  /** rc(t), the register having period 255. */
  predicate RoundBit(t: nat)
    requires t < 255
  {
    RegisterAfter(t).r0
  }

  /** The lane whose bits 2^j - 1, for j = 0..6, are given and whose other bits are 0. */
  function SparseLane(b0: bool, b1: bool, b2: bool, b3: bool, b4: bool, b5: bool, b6: bool): bv64 {
    (if b0 then 0x1 else 0) | (if b1 then 0x2 else 0) | (if b2 then 0x8 else 0) | (if b3 then 0x80 else 0) |
    (if b4 then 0x8000 else 0) | (if b5 then 0x8000_0000 else 0) | (if b6 then 0x8000_0000_0000_0000 else 0)
  }

  /** Algorithm 6. */
  function RoundConstant(round: nat): bv64
    requires round < 24
  {
    var t := 7 * round;
    SparseLane(RoundBit(t), RoundBit(t + 1), RoundBit(t + 2), RoundBit(t + 3),
               RoundBit(t + 4), RoundBit(t + 5), RoundBit(t + 6))
  }

  function Iota(a: State, round: nat): State
    requires round < 24
  {
    a[0 := Xor(a[0], RoundConstant(round))]
  }

  function Round(a: State, round: nat): State
    requires round < 24
  {
    Iota(Chi(Pi(Rho(Theta(a), Rotate))), round)
  }

  /** The given rounds, in order. */
  function Rounds(a: State, rounds: seq<nat>): State
    requires forall i | 0 <= i < |rounds| :: rounds[i] < 24
    decreases |rounds|
  {
    if rounds == [] then a
    else
      var last := |rounds| - 1;
      Round(Rounds(a, rounds[..last]), rounds[last])
  }

  /** Keccak-f[1600]: the rounds 0 to 23. */
  function KeccakF(a: State): State {
    Rounds(a, seq(24, i => i))
  }

  // ---------- the sponge, section 4, with pad10*1, section 5.1

  const RATE: nat := 136

  function Zeros(n: nat): (z: seq<byte>)
    ensures |z| == n && forall k | 0 <= k < n :: z[k] == 0
  {
    seq(n, k => 0)
  }

  /** pad10*1 on whole bytes: a 1 bit, zero bits, and a closing 1 bit that fills the last block. */
  function Padding(length: nat): (p: seq<byte>)
    ensures |p| > 0 && (length + |p|) % RATE == 0
  {
    var n := RATE - length % RATE;
    if n == 1 then [0x81] else [0x01] + Zeros(n - 2) + [0x80]
  }

  function BlockLane(block: seq<byte>, k: nat): bv64
    requires |block| == RATE
  {
    if 8 * k + 8 <= RATE then BytesLane(block[8 * k..8 * k + 8]) else 0
  }

  function AbsorbBlock(a: State, block: seq<byte>): State
    requires |block| == RATE
  {
    seq(25, k requires 0 <= k < 25 => Xor(a[k], BlockLane(block, k)))
  }

  function AbsorbPermute(a: State, block: seq<byte>): State
    requires |block| == RATE
  {
    KeccakF(AbsorbBlock(a, block))
  }

  /** The state after the first `n` blocks of the padded message. */
  function Absorb(padded: seq<byte>, n: nat): State
    requires RATE * n <= |padded|
  {
    if n == 0 then ZERO else AbsorbPermute(Absorb(padded, n - 1), padded[RATE * (n - 1)..RATE * n])
  }

  function Digest(a: State): (d: seq<byte>)
    ensures |d| == 32
  {
    LaneBytes(a[0]) + LaneBytes(a[1]) + LaneBytes(a[2]) + LaneBytes(a[3])
  }

  const ZERO: State := [0, 0, 0, 0, 0, 0, 0, 0, 0, 0, 0, 0, 0, 0, 0, 0, 0, 0, 0, 0, 0, 0, 0, 0, 0]

  function Keccak256(message: seq<byte>): (d: seq<byte>)
    ensures |d| == 32
  {
    var padded := message + Padding(|message|);
    Digest(Absorb(padded, |padded| / RATE))
  }
}
