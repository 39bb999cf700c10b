/** The in-place Keccak-f[1600] of the search kernel (`keccak256.cl`), proved equal to FIPS 202.

    The three loops of a round are three methods; each is proved against the step mapping it computes. */
module KeccakKernel {
  import opened Words
  import opened Keccak

  const RC: seq<bv64> := [
    0x0000000000000001, 0x0000000000008082, 0x800000000000808a, 0x8000000080008000,
    0x000000000000808b, 0x0000000080000001, 0x8000000080008081, 0x8000000000008009,
    0x000000000000008a, 0x0000000000000088, 0x0000000080008009, 0x000000008000000a,
    0x000000008000808b, 0x800000000000008b, 0x8000000000008089, 0x8000000000008003,
    0x8000000000008002, 0x8000000000000080, 0x000000000000800a, 0x800000008000000a,
    0x8000000080008081, 0x8000000000008080, 0x0000000080000001, 0x8000000080008008]

  const ROTC: seq<amount> := [
    1, 3, 6, 10, 15, 21, 28, 36, 45, 55, 2, 14, 27, 41, 56, 8, 25, 43, 62, 18, 39, 61, 20, 44]

  const PILN: seq<nat> := [
    10, 7, 11, 17, 18, 3, 5, 16, 8, 21, 24, 4, 15, 23, 19, 13, 12, 2, 20, 14, 22, 9, 6, 1]

  // ---------- the constant tables are those of FIPS 202

  predicate Odd(a: bool, b: bool, c: bool) {
    (a != b) != c
  }

  /** The register seven steps after `r`. */
  function SevenOn(r: Register): Register {
    Register(Odd(r.r1, r.r3, r.r4), Odd(r.r2, r.r4, r.r5), Odd(r.r3, r.r5, r.r6), Odd(r.r4, r.r6, r.r7),
             Odd(r.r1, r.r3, r.r4) != (r.r5 != r.r7), Odd(r.r1, r.r2, r.r3) != (r.r5 != r.r6),
             Odd(r.r1, r.r2, r.r6) != r.r7, Odd(r.r0, r.r2, r.r3) != r.r7)
  }

  /** The round constant the register yields from `r` on. */
  function RowConstant(r: Register): bv64 {
    SparseLane(r.r0, r.r7, r.r6, r.r5 != r.r7, Odd(r.r4, r.r6, r.r7), Odd(r.r3, r.r5, r.r6), Odd(r.r2, r.r4, r.r5))
  }

  lemma RegisterStep(t: nat)
    ensures RegisterAfter(t + 1) == RegisterAfter(t).Shift()
  {
  }

  lemma RegisterThree(t: nat, r: Register)
    requires RegisterAfter(t) == r
    ensures RegisterAfter(t + 1).r0 == r.r7 && RegisterAfter(t + 2).r0 == r.r6
    ensures RegisterAfter(t + 3) == Register(r.r5 != r.r7, r.r6, r.r7, r.r0, Odd(r.r1, r.r5, r.r7),
                                             Odd(r.r2, r.r5, r.r6) != r.r7, Odd(r.r3, r.r5, r.r6),
                                             Odd(r.r4, r.r6, r.r7))
  {
    RegisterStep(t); RegisterStep(t + 1); RegisterStep(t + 2);
  }

  lemma RegisterSeven(t: nat, r: Register)
    requires t + 7 < 255 && RegisterAfter(t) == r
    ensures RegisterAfter(t + 7) == SevenOn(r)
    ensures RoundBit(t) == r.r0 && RoundBit(t + 1) == r.r7 && RoundBit(t + 2) == r.r6
    ensures RoundBit(t + 3) == (r.r5 != r.r7) && RoundBit(t + 4) == Odd(r.r4, r.r6, r.r7)
    ensures RoundBit(t + 5) == Odd(r.r3, r.r5, r.r6) && RoundBit(t + 6) == Odd(r.r2, r.r4, r.r5)
  {
    RegisterThree(t, r);
    RegisterThree(t + 3, RegisterAfter(t + 3));
    RegisterStep(t + 6);
  }

  lemma RegisterRow(round: nat, r: Register)
    requires round < 24 && RegisterAfter(7 * round) == r
    ensures RegisterAfter(7 * (round + 1)) == SevenOn(r)
    ensures RoundConstant(round) == RowConstant(r)
  {
    RegisterSeven(7 * round, r);
  }

  /** The register before each round. */
  const REGISTERS: seq<Register> := [
    Register(true, false, false, false, false, false, false, false),
    Register(false, false, false, false, false, false, false, true),
    Register(false, false, false, true, true, false, true, true),
    Register(false, true, false, true, true, false, false, false),
    Register(true, true, true, true, true, false, true, true),
    Register(true, false, false, true, false, false, false, false),
    Register(true, false, true, false, true, true, false, false),
    Register(true, true, true, true, false, false, true, false),
    Register(false, true, false, true, false, false, true, true),
    Register(false, false, false, false, true, true, true, false),
    Register(true, false, false, false, false, false, true, false),
    Register(false, false, true, true, false, true, true, true),
    Register(true, false, true, false, true, false, true, true),
    Register(true, false, true, true, false, false, true, true),
    Register(true, true, false, false, false, true, true, false),
    Register(true, true, false, true, false, true, false, true),
    Register(false, true, false, true, false, true, false, true),
    Register(false, true, false, true, false, true, false, false),
    Register(false, true, false, false, true, true, true, true),
    Register(false, false, false, true, false, true, true, true),
    Register(true, true, true, false, true, true, false, false),
    Register(false, true, true, true, true, true, false, false),
    Register(true, true, false, true, false, false, false, false),
    Register(false, false, true, false, false, false, true, false),
    Register(false, true, true, true, false, false, false, true)]

  lemma TabulatedStep(round: nat)
    requires round < 24
    ensures SevenOn(REGISTERS[round]) == REGISTERS[round + 1]
  {
    if round < 2 { } else if round < 4 { } else if round < 6 { } else if round < 8 { } else if round < 10 { }
    else if round < 12 { } else if round < 14 { } else if round < 16 { } else if round < 18 { }
    else if round < 20 { } else if round < 22 { } else { }
  }

  lemma TabulatedConstant(round: nat)
    requires round < 24
    ensures RowConstant(REGISTERS[round]) == RC[round]
  {
    if round < 2 { } else if round < 4 { } else if round < 6 { } else if round < 8 { } else if round < 10 { }
    else if round < 12 { } else if round < 14 { } else if round < 16 { } else if round < 18 { }
    else if round < 20 { } else if round < 22 { } else { }
  }

  lemma FirstRegister()
    ensures RegisterAfter(0) == REGISTERS[0]
  {
  }

  lemma NextRegister(round: nat)
    requires round < 24 && RegisterAfter(7 * round) == REGISTERS[round]
    ensures RegisterAfter(7 * (round + 1)) == REGISTERS[round + 1]
  {
    hide SevenOn, RowConstant;
    RegisterRow(round, REGISTERS[round]);
    TabulatedStep(round);
  }

  lemma {:induction false} TabulatedRegister(round: nat)
    requires round < 25
    ensures RegisterAfter(7 * round) == REGISTERS[round]
  {
    hide *;
    if round == 0 {
      FirstRegister();
    } else {
      TabulatedRegister(round - 1);
      NextRegister(round - 1);
    }
  }

  /** The table RC of the kernel is what the feedback register of section 3.2.5 generates. */
  lemma RoundConstantTable(round: nat)
    requires round < 24
    ensures RC[round] == RoundConstant(round)
  {
    TabulatedRegister(round);
    RegisterRow(round, REGISTERS[round]);
    TabulatedConstant(round);
  }

  lemma TriangleStep(t: nat)
    ensures Triangle(t + 1) == Triangle(t) + t + 2
  {
    assert (t + 2) * (t + 3) == (t + 1) * (t + 2) + 2 * (t + 2);
  }

  lemma ModuloAdd(a: nat, b: nat)
    ensures (a + b) % 64 == (a % 64 + b) % 64
  {
  }

  lemma OffsetStep(t: nat)
    ensures RhoOffset(t + 1) == (RhoOffset(t) + t + 2) % 64
  {
    hide Triangle;
    TriangleStep(t);
    ModuloAdd(Triangle(t), t + 2);
  }

  lemma TableStep(t: nat)
    requires t < 23
    ensures ROTC[t + 1] == (ROTC[t] + t + 2) % 64
  {
  }

  lemma FirstOffset()
    ensures ROTC[0] == RhoOffset(0) && |ROTC| == 24
  {
    assert Triangle(0) == 1;
  }

  /** The table ROTC holds the offsets of Algorithm 2. */
  lemma {:induction false} RotationTable(t: nat)
    requires t < 24
    ensures ROTC[t] == RhoOffset(t)
  {
    hide *;
    FirstOffset();
    if t > 0 {
      RotationTable(t - 1);
      OffsetStep(t - 1);
      TableStep(t - 1);
    }
  }

  // ---------- the chase of Rho + Pi

  /** The state `st` and the temporary `t` after the first `i` steps of the Rho + Pi loop. */
  function Chase<T>(s: seq<T>, rotate: (T, amount) -> T, i: nat): (r: (seq<T>, T))
    requires |s| == 25 && i <= 24
    ensures |r.0| == 25
  {
    if i == 0 then (s, s[1])
    else
      var (st, t) := Chase(s, rotate, i - 1);
      (st[PILN[i - 1] := rotate(t, ROTC[i - 1])], st[PILN[i - 1]])
  }

  /** The step that writes lane p; lane 0 is never written. */
  function WrittenAt(p: nat): nat
    requires p < 25
  {
    [24, 23, 17, 5, 11, 6, 22, 1, 8, 21, 0, 2, 16, 15, 19, 12, 7, 3, 4, 14, 18, 9, 20, 13, 10][p]
  }

  /** The lane whose old value step i rotates. */
  function Source(i: nat): nat
    requires i <= 24
  {
    if i == 0 then 1 else PILN[i - 1]
  }

  lemma WrittenBy(p: nat)
    requires p < 25 && WrittenAt(p) < 24
    ensures PILN[WrittenAt(p)] == p
  {
  }

  lemma WritingStep(i: nat)
    requires i < 24
    ensures WrittenAt(PILN[i]) == i
  {
  }

  lemma WrittenOnce(p: nat, i: nat)
    requires p < 25 && i < 24
    ensures WrittenAt(p) == i <==> PILN[i] == p
  {
    hide WrittenAt;
    if WrittenAt(p) == i { WrittenBy(p); }
    if PILN[i] == p { WritingStep(i); }
  }

  /** Lane p after i steps: rotated from its source once it has been written, untouched before. */
  lemma {:induction false} ChaseLane<T>(s: seq<T>, rotate: (T, amount) -> T, i: nat, p: nat)
    requires |s| == 25 && i <= 24 && p < 25
    ensures var w := WrittenAt(p);
      Chase(s, rotate, i).0[p] == if w < i then rotate(s[Source(w)], RhoOffset(w)) else s[p]
    decreases i, 0
  {
    if i > 0 {
      ChaseLane(s, rotate, i - 1, p);
      ChaseTemporary(s, rotate, i - 1);
      WrittenOnce(p, i - 1);
      RotationTable(i - 1);
      hide WrittenAt, RhoOffset, ROTC, PILN;
    }
  }

  /** The temporary holds the old value of the next lane to rotate. */
  lemma {:induction false} ChaseTemporary<T>(s: seq<T>, rotate: (T, amount) -> T, i: nat)
    requires |s| == 25 && i <= 24
    ensures Chase(s, rotate, i).1 == s[Source(i)]
    decreases i, 1
  {
    if i > 0 {
      ChaseLane(s, rotate, i - 1, PILN[i - 1]);
      WrittenOnce(PILN[i - 1], i - 1);
    }
  }

  // ---------- Algorithm 2 visits the same lanes

  const POSITIONS: seq<(coordinate, coordinate)> := [
    (1, 0), (0, 2), (2, 1), (1, 2), (2, 3), (3, 3), (3, 0), (0, 1), (1, 3), (3, 1), (1, 4), (4, 4), (4, 0), (0, 3),
    (3, 4), (4, 3), (3, 2), (2, 2), (2, 0), (0, 4), (4, 2), (2, 4), (4, 1), (1, 1), (1, 0)]

  lemma TabulatedPosition(i: nat)
    requires i < 24
    ensures POSITIONS[i + 1] == RhoNext(POSITIONS[i].0, POSITIONS[i].1)
  {
  }

  lemma TabulatedSource(i: nat)
    requires i < 25
    ensures var (x, y) := POSITIONS[i]; Source(i) == Index(x, y)
  {
  }

  lemma {:induction false} PositionTable(i: nat)
    requires i < 25
    ensures RhoPosition(i) == POSITIONS[i]
  {
    if i > 0 {
      PositionTable(i - 1);
      TabulatedPosition(i - 1);
      hide POSITIONS;
    }
  }

  lemma PositionIndex(i: nat)
    requires i < 25
    ensures var (x, y) := RhoPosition(i); Index(x, y) == Source(i)
  {
    hide RhoPosition;
    PositionTable(i);
    TabulatedSource(i);
  }

  /** The step of Algorithm 2 that rotates lane p; lane 0 is never rotated. */
  function VisitedAt(p: nat): nat
    requires p < 25
  {
    [24, 0, 18, 6, 12, 7, 23, 2, 9, 22, 1, 3, 17, 16, 20, 13, 8, 4, 5, 15, 19, 10, 21, 14, 11][p]
  }

  lemma VisitedBy(p: nat)
    requires p < 25 && VisitedAt(p) < 24
    ensures Source(VisitedAt(p)) == p
  {
  }

  lemma VisitingStep(i: nat)
    requires i < 24
    ensures VisitedAt(Source(i)) == i
  {
  }

  lemma VisitedOnce(p: nat, i: nat)
    requires p < 25 && i < 24
    ensures VisitedAt(p) == i <==> Source(i) == p
  {
    hide VisitedAt, Source, PILN;
    if VisitedAt(p) == i { VisitedBy(p); }
    if Source(i) == p { VisitingStep(i); }
  }

  /** Rho rotates lane p at the step whose source it is. */
  lemma {:induction false} RhoLane<T>(s: seq<T>, rotate: (T, amount) -> T, i: nat, p: nat)
    requires |s| == 25 && i <= 24 && p < 25
    ensures var v := VisitedAt(p);
      RhoSteps(s, rotate, i)[p] == if v < i then rotate(s[p], RhoOffset(v)) else s[p]
  {
    if i > 0 {
      RhoLane(s, rotate, i - 1, p);
      PositionIndex(i - 1);
      VisitedOnce(p, i - 1);
      hide VisitedAt, RhoOffset, RhoPosition;
    }
  }

  lemma CoordinatesOf(x: coordinate, y: coordinate)
    ensures Column(Index(x, y)) == x && Row(Index(x, y)) == y
  {
  }

  lemma PiAt<T>(a: seq<T>, x: coordinate, y: coordinate)
    requires |a| == 25
    ensures Pi(a)[Index(x, y)] == a[Index((x + 3 * y) % 5, x)]
  {
    CoordinatesOf(x, y);
  }

  lemma PiArithmetic(x: coordinate, y: coordinate)
    ensures (y + 3 * ((2 * x + 3 * y) % 5)) % 5 == x
  {
  }

  /** Pi undoes a step of the trajectory. */
  lemma PiFollowsTrajectory<T>(a: seq<T>, i: nat)
    requires |a| == 25 && i < 24
    ensures PILN[i] < 25 && Pi(a)[PILN[i]] == a[Source(i)]
  {
    hide Pi, PILN;
    var (x, y) := RhoPosition(i);
    PositionIndex(i);
    PositionIndex(i + 1);
    PiArithmetic(x, y);
    PiAt(a, y, (2 * x + 3 * y) % 5);
  }

  lemma EveryOtherLaneWritten(p: nat)
    requires 0 < p < 25
    ensures WrittenAt(p) < 24
  {
  }

  lemma Bookkeeping(p: nat, i: nat)
    requires 0 < p < 25 && i == WrittenAt(p)
    ensures i < 24 && PILN[i] == p && Source(i) < 25 && VisitedAt(Source(i)) == i
  {
    EveryOtherLaneWritten(p);
    WrittenOnce(p, i);
    PositionIndex(i);
    VisitedOnce(Source(i), i);
  }

  /** The heart of the permutation: one pass with one temporary over PILN and ROTC is Rho followed by Pi. */
  lemma ChaseIsRhoPi<T>(s: seq<T>, rotate: (T, amount) -> T)
    requires |s| == 25
    ensures Chase(s, rotate, 24).0 == Pi(Rho(s, rotate))
  {
    var st, r := Chase(s, rotate, 24).0, Rho(s, rotate);
    forall p | 0 <= p < 25
      ensures st[p] == Pi(r)[p]
    {
      ChaseAt(s, rotate, p);
    }
  }

  lemma ChaseAt<T>(s: seq<T>, rotate: (T, amount) -> T, p: nat)
    requires |s| == 25 && p < 25
    ensures Chase(s, rotate, 24).0[p] == Pi(Rho(s, rotate))[p]
  {
    if p == 0 {
      FirstLaneStays(s, rotate);
    } else {
      WrittenLane(s, rotate, p, WrittenAt(p));
    }
  }

  lemma FirstLaneStays<T>(s: seq<T>, rotate: (T, amount) -> T)
    requires |s| == 25
    ensures Chase(s, rotate, 24).0[0] == s[0] == Pi(Rho(s, rotate))[0]
  {
    ChaseLane(s, rotate, 24, 0);
    RhoLane(s, rotate, 24, 0);
    hide Chase, RhoSteps, Pi, Source;
    PiAt(Rho(s, rotate), 0, 0);
  }

  lemma WrittenLane<T>(s: seq<T>, rotate: (T, amount) -> T, p: nat, i: nat)
    requires |s| == 25 && 0 < p < 25 && i == WrittenAt(p)
    ensures Chase(s, rotate, 24).0[p] == Pi(Rho(s, rotate))[p]
  {
    hide *;
    Bookkeeping(p, i);
    ChaseLane(s, rotate, 24, p);
    RhoLane(s, rotate, 24, Source(i));
    PiFollowsTrajectory(Rho(s, rotate), i);
    RhoIsAllSteps(s, rotate);
  }

  lemma RhoIsAllSteps<T>(s: seq<T>, rotate: (T, amount) -> T)
    requires |s| == 25
    ensures Rho(s, rotate) == RhoSteps(s, rotate, 24)
  {
  }

  // ---------- the loops of the kernel

  lemma InColumn(i: nat, j: nat, k: nat)
    requires i < 5 && j % 5 == 0
    ensures Column(j + i) == i
    ensures Column(k) == i && j <= k < j + 5 ==> k == j + i
  {
  }

  /** The inner Theta loop: `t` is added to every lane of column i. */
  method AddToColumn(st: array<bv64>, i: nat, t: bv64)
    requires st.Length == 25 && i < 5
    modifies st
    ensures forall k | 0 <= k < 25 :: st[k] == if Column(k) == i then Xor(old(st[k]), t) else old(st[k])
  {
    var j := 0;
    while j < 25
      invariant j % 5 == 0 && 0 <= j <= 25
      invariant forall k | 0 <= k < 25 :: st[k] == if Column(k) == i && k < j then Xor(old(st[k]), t) else old(st[k])
    {
      forall k { InColumn(i, j, k); }
      hide Column, Xor;
      st[j + i] := Xor(st[j + i], t);
      j := j + 5;
    }
  }

  /** The first Theta loop: the parity of each column. */
  method ColumnParities(st: array<bv64>, bc: array<bv64>)
    requires st.Length == 25 && bc.Length == 5 && st != bc
    modifies bc
    ensures forall x | 0 <= x < 5 :: bc[x] == Parity(st[..], x)
  {
    hide Xor;
    for i := 0 to 5
      invariant forall x | 0 <= x < i :: bc[x] == Parity(st[..], x)
    {
      hide Xor;
      bc[i] := Xor(Xor(Xor(Xor(st[i], st[i + 5]), st[i + 10]), st[i + 15]), st[i + 20]);
    }
  }

  lemma ThetaAt(a: State)
    ensures forall k | 0 <= k < 25 :: Theta(a)[k] == ThetaLane(a, k)
  {
    hide ThetaLane;
  }

  /** Both Theta loops. */
  method ThetaLoops(st: array<bv64>, bc: array<bv64>)
    requires st.Length == 25 && bc.Length == 5 && st != bc
    modifies st, bc
    ensures st[..] == Theta(old(st[..]))
  {
    hide Xor, Rotate, Parity, Theta, Column;
    ghost var s: State := st[..];
    ColumnParities(st, bc);
    ThetaAt(s);
    for i := 0 to 5
      invariant forall x | 0 <= x < 5 :: bc[x] == Parity(s, x)
      invariant forall k | 0 <= k < 25 :: st[k] == if Column(k) < i then Theta(s)[k] else s[k]
    {
      hide Xor, Rotate, Parity, Theta, Column;
      var t := Xor(bc[(i + 4) % 5], Rotate(bc[(i + 1) % 5], 1));
      AddToColumn(st, i, t);
    }
  }

  lemma TableShapes()
    ensures |ROTC| == 24 && |PILN| == 24 && |RC| == 24
    ensures forall i | 0 <= i < 24 :: PILN[i] < 25
  {
  }

  /** The Rho + Pi loop, with its one temporary. */
  method RhoPiLoop(st: array<bv64>)
    requires st.Length == 25
    modifies st
    ensures st[..] == Pi(Rho(old(st[..]), Rotate))
  {
    hide Rotate, ROTC, PILN, Pi, RC;
    ghost var s := st[..];
    TableShapes();
    var t := st[1];
    for i := 0 to 24
      invariant (st[..], t) == Chase(s, Rotate, i)
    {
      hide Rotate, ROTC, PILN, Pi, RC;
      var j := PILN[i];
      var tmp := st[j];
      st[j] := Rotate(t, ROTC[i]);
      t := tmp;
    }
    ChaseIsRhoPi(s, Rotate);
  }

  lemma ChiAt(a: State)
    ensures forall x: coordinate, y: coordinate :: Chi(a)[Index(x, y)] == ChiLane(a, x, y)
  {
    hide ChiLane;
    forall x: coordinate, y: coordinate { CoordinatesOf(x, y); }
  }

  /** The first inner Chi loop: a row is copied to `bc`. */
  method CopyRow(st: array<bv64>, bc: array<bv64>, j: nat, ghost s: State, ghost y: coordinate)
    requires st.Length == 25 && bc.Length == 5 && st != bc && j == 5 * y
    requires forall k | j <= k < j + 5 :: st[k] == s[k]
    modifies bc
    ensures forall x: coordinate :: bc[x] == Lane(s, x, y)
  {
    for i := 0 to 5
      invariant forall x: coordinate | x < i :: bc[x] == Lane(s, x, y)
    {
      assert j + i == Index(i, y);
      bc[i] := st[j + i];
    }
  }

  /** The inner Chi loops: one row is copied to `bc` and rewritten from the copy. */
  method ChiRow(st: array<bv64>, bc: array<bv64>, j: nat, ghost s: State, ghost y: coordinate)
    requires st.Length == 25 && bc.Length == 5 && st != bc && j == 5 * y
    requires forall k | j <= k < j + 5 :: st[k] == s[k]
    modifies st, bc
    ensures forall k | 0 <= k < 25 && !(j <= k < j + 5) :: st[k] == old(st[k])
    ensures forall x: coordinate :: st[Index(x, y)] == ChiLane(s, x, y)
  {
    hide Xor, AndNot, ChiLane;
    CopyRow(st, bc, j, s, y);
    for i := 0 to 5
      invariant forall k | 0 <= k < 25 && !(j <= k < j + i) :: st[k] == old(st[k])
      invariant forall x: coordinate | x < i :: st[Index(x, y)] == ChiLane(s, x, y)
      invariant forall x: coordinate :: bc[x] == Lane(s, x, y)
    {
      hide Xor, AndNot, ChiLane;
      ChiLaneOf(s, i, y);
      assert j + i == Index(i, y);
      st[j + i] := Xor(st[j + i], AndNot(bc[(i + 1) % 5], bc[(i + 2) % 5]));
    }
  }

  lemma ChiLaneOf(a: State, x: coordinate, y: coordinate)
    ensures ChiLane(a, x, y) == Xor(Lane(a, x, y), AndNot(Lane(a, (x + 1) % 5, y), Lane(a, (x + 2) % 5, y)))
  {
    hide Xor, AndNot;
  }

  lemma ChiIsRows(a: State, st: seq<bv64>)
    requires |st| == 25
    requires forall x: coordinate, y: coordinate :: st[Index(x, y)] == ChiLane(a, x, y)
    ensures st == Chi(a)
  {
    hide ChiLane;
    ChiAt(a);
    forall k | 0 <= k < 25 ensures st[k] == Chi(a)[k] {
      assert k == Index(Column(k), Row(k));
    }
  }

  method ChiLoops(st: array<bv64>, bc: array<bv64>)
    requires st.Length == 25 && bc.Length == 5 && st != bc
    modifies st, bc
    ensures st[..] == Chi(old(st[..]))
  {
    hide ChiLane, Chi;
    ghost var s: State := st[..];
    ghost var y: nat := 0;
    var j := 0;
    while j < 25
      invariant y <= 5 && j == 5 * y
      invariant forall k | j <= k < 25 :: st[k] == s[k]
      invariant forall x: coordinate, z: coordinate | z < y :: st[Index(x, z)] == ChiLane(s, x, z)
    {
      hide ChiLane, Chi;
      ChiRow(st, bc, j, s, y);
      j, y := j + 5, y + 1;
    }
    ChiIsRows(s, st[..]);
  }

  method KeccakF1600(st: array<bv64>)
    requires st.Length == 25
    modifies st
    ensures st[..] == KeccakF(old(st[..]))
  {
    hide *;
    ghost var s: State := st[..];
    var bc := new bv64[5];
    TableShapes();
    NoRounds(s);
    for r := 0 to 24
      invariant st[..] == Rounds(s, Indices(r))
    {
      hide *;
      ghost var before: State := st[..];
      ThetaLoops(st, bc);
      RhoPiLoop(st);
      ChiLoops(st, bc);
      st[0] := Xor(st[0], RC[r]);
      RoundConstantTable(r);
      RoundIs(before, r);
      NextRound(s, r);
    }
    AllRounds(s);
  }

  /** The rounds 0 to n - 1. */
  function Indices(n: nat): (rounds: seq<nat>)
    requires n <= 24
    ensures |rounds| == n && forall i | 0 <= i < n :: rounds[i] == i
  {
    seq(n, i => i)
  }

  lemma NoRounds(a: State)
    ensures Rounds(a, Indices(0)) == a
  {
  }

  lemma NextRound(a: State, r: nat)
    requires r < 24
    ensures Rounds(a, Indices(r + 1)) == Round(Rounds(a, Indices(r)), r)
  {
    hide Round;
    assert Indices(r + 1)[..r] == Indices(r);
  }

  lemma RoundIs(a: State, r: nat)
    requires r < 24
    ensures var chi := Chi(Pi(Rho(Theta(a), Rotate))); Round(a, r) == chi[0 := Xor(chi[0], RoundConstant(r))]
  {
    hide Theta, Rho, Pi, Chi, Xor, RoundConstant;
  }

  lemma AllRounds(a: State)
    ensures KeccakF(a) == Rounds(a, Indices(24))
  {
    hide Rounds;
  }
}
