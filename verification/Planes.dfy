/** The round of the specification written out lane by lane, without sequences. */
module Planes {
  import opened Words
  import opened Keccak
  import opened KeccakKernel

  /** The five lanes of a row, x = 0 to 4. */
  datatype Plane = Plane(x0: bv64, x1: bv64, x2: bv64, x3: bv64, x4: bv64)

  /** The five rows of a state, y = 0 to 4. */
  datatype Cube = Cube(y0: Plane, y1: Plane, y2: Plane, y3: Plane, y4: Plane)

  function Row5(p: Plane): (s: seq<bv64>)
    ensures |s| == 5
  {
    [p.x0, p.x1, p.x2, p.x3, p.x4]
  }

  function Lanes(c: Cube): State {
    Row5(c.y0) + Row5(c.y1) + Row5(c.y2) + Row5(c.y3) + Row5(c.y4)
  }

  function RowOf(c: Cube, y: coordinate): Plane {
    match y
    case 0 => c.y0
    case 1 => c.y1
    case 2 => c.y2
    case 3 => c.y3
    case 4 => c.y4
  }

  function In(p: Plane, x: coordinate): bv64 {
    match x
    case 0 => p.x0
    case 1 => p.x1
    case 2 => p.x2
    case 3 => p.x3
    case 4 => p.x4
  }

  // ---------- a round, lane by lane

  function Added(p: Plane, q: Plane): Plane {
    Plane(Xor(p.x0, q.x0), Xor(p.x1, q.x1), Xor(p.x2, q.x2), Xor(p.x3, q.x3), Xor(p.x4, q.x4))
  }

  function Parities(c: Cube): Plane {
    Added(Added(Added(Added(c.y0, c.y1), c.y2), c.y3), c.y4)
  }

  function Effects(p: Plane): Plane {
    Plane(Xor(p.x4, Rotate(p.x1, 1)), Xor(p.x0, Rotate(p.x2, 1)), Xor(p.x1, Rotate(p.x3, 1)),
          Xor(p.x2, Rotate(p.x4, 1)), Xor(p.x3, Rotate(p.x0, 1)))
  }

  function ThetaCube(c: Cube): Cube {
    var e := Effects(Parities(c));
    Cube(Added(c.y0, e), Added(c.y1, e), Added(c.y2, e), Added(c.y3, e), Added(c.y4, e))
  }

  /** Rho and pi. */
  function MovedCube(c: Cube): Cube {
    Cube(
      Plane(c.y0.x0, Rotate(c.y1.x1, 44), Rotate(c.y2.x2, 43), Rotate(c.y3.x3, 21), Rotate(c.y4.x4, 14)),
      Plane(Rotate(c.y0.x3, 28), Rotate(c.y1.x4, 20), Rotate(c.y2.x0, 3), Rotate(c.y3.x1, 45), Rotate(c.y4.x2, 61)),
      Plane(Rotate(c.y0.x1, 1), Rotate(c.y1.x2, 6), Rotate(c.y2.x3, 25), Rotate(c.y3.x4, 8), Rotate(c.y4.x0, 18)),
      Plane(Rotate(c.y0.x4, 27), Rotate(c.y1.x0, 36), Rotate(c.y2.x1, 10), Rotate(c.y3.x2, 15), Rotate(c.y4.x3, 56)),
      Plane(Rotate(c.y0.x2, 62), Rotate(c.y1.x3, 55), Rotate(c.y2.x4, 39), Rotate(c.y3.x0, 41), Rotate(c.y4.x1, 2)))
  }

  function ChiPlane(p: Plane): Plane {
    Plane(Xor(p.x0, AndNot(p.x1, p.x2)), Xor(p.x1, AndNot(p.x2, p.x3)), Xor(p.x2, AndNot(p.x3, p.x4)),
          Xor(p.x3, AndNot(p.x4, p.x0)), Xor(p.x4, AndNot(p.x0, p.x1)))
  }

  function ChiCube(c: Cube): Cube {
    Cube(ChiPlane(c.y0), ChiPlane(c.y1), ChiPlane(c.y2), ChiPlane(c.y3), ChiPlane(c.y4))
  }

  function RoundCube(c: Cube, constant: bv64): Cube {
    var d := ChiCube(MovedCube(ThetaCube(c)));
    d.(y0 := d.y0.(x0 := Xor(d.y0.x0, constant)))
  }

  // ---------- it is the round of the specification

  lemma LaneOfRow(a: seq<bv64>, p: Plane, b: seq<bv64>, x: coordinate)
    ensures (a + Row5(p) + b)[|a| + x] == In(p, x)
  {
    hide Row5, In;
    RowLane(p, x);
    assert (a + Row5(p) + b)[|a| + x] == Row5(p)[x];
  }

  lemma RowLane(p: Plane, x: coordinate)
    ensures Row5(p)[x] == In(p, x)
  {
    if x == 0 { } else if x == 1 { } else if x == 2 { } else if x == 3 { } else { }
  }

  lemma LaneAt(c: Cube, x: coordinate, y: coordinate)
    ensures Lane(Lanes(c), x, y) == In(RowOf(c, y), x)
  {
    var s := Lanes(c);
    var a, b, d, e, f := Row5(c.y0), Row5(c.y1), Row5(c.y2), Row5(c.y3), Row5(c.y4);
    hide Row5, In;
    if y == 0 {
      LaneOfRow([], c.y0, b + d + e + f, x);
      assert s == [] + a + (b + d + e + f);
    } else if y == 1 {
      LaneOfRow(a, c.y1, d + e + f, x);
      assert s == a + b + (d + e + f);
    } else if y == 2 {
      LaneOfRow(a + b, c.y2, e + f, x);
      assert s == a + b + d + (e + f);
    } else if y == 3 {
      LaneOfRow(a + b + d, c.y3, f, x);
    } else {
      LaneOfRow(a + b + d + e, c.y4, [], x);
      assert s == a + b + d + e + f + [];
    }
  }

  lemma AddedIn(p: Plane, q: Plane, x: coordinate)
    ensures In(Added(p, q), x) == Xor(In(p, x), In(q, x))
  {
    hide Xor;
  }

  /** The columns before and after. */
  lemma Neighbours(x: coordinate)
    ensures (x + 4) % 5 == (if x == 0 then 4 else x - 1) && (x + 1) % 5 == (if x == 4 then 0 else x + 1)
    ensures (x + 2) % 5 == (if x >= 3 then x - 3 else x + 2) && (x + 3) % 5 == (if x >= 2 then x - 2 else x + 3)
  {
  }

  lemma EffectsIn(p: Plane, x: coordinate, l: coordinate, r: coordinate)
    requires l == (if x == 0 then 4 else x - 1) && r == (if x == 4 then 0 else x + 1)
    ensures In(Effects(p), x) == Xor(In(p, l), Rotate(In(p, r), 1))
  {
    hide Xor, Rotate;
    if x == 0 { } else if x == 1 { } else if x == 2 { } else if x == 3 { } else { }
  }

  lemma ChiPlaneIn(p: Plane, x: coordinate, q: coordinate, r: coordinate)
    requires q == (if x == 4 then 0 else x + 1) && r == (if x >= 3 then x - 3 else x + 2)
    ensures In(ChiPlane(p), x) == Xor(In(p, x), AndNot(In(p, q), In(p, r)))
  {
    hide Xor, AndNot;
    if x == 0 { } else if x == 1 { } else if x == 2 { } else if x == 3 { } else { }
  }

  lemma ThetaRow(c: Cube, y: coordinate)
    ensures RowOf(ThetaCube(c), y) == Added(RowOf(c, y), Effects(Parities(c)))
  {
    hide Added, Effects, Parities;
  }

  lemma ChiRowOf(c: Cube, y: coordinate)
    ensures RowOf(ChiCube(c), y) == ChiPlane(RowOf(c, y))
  {
    hide ChiPlane;
  }

  lemma LanesAre(a: State, c: Cube)
    requires forall x: coordinate, y: coordinate :: Lane(a, x, y) == In(RowOf(c, y), x)
    ensures a == Lanes(c)
  {
    forall k | 0 <= k < 25 ensures a[k] == Lanes(c)[k] {
      assert k == Index(Column(k), Row(k));
      LaneAt(c, Column(k), Row(k));
      assert Lane(a, Column(k), Row(k)) == In(RowOf(c, Row(k)), Column(k));
    }
  }

  lemma ParityIn(c: Cube, x: coordinate)
    ensures Parity(Lanes(c), x) == In(Parities(c), x)
  {
    hide Lanes, Lane, Xor, Added, In;
    LaneAt(c, x, 0);
    LaneAt(c, x, 1);
    LaneAt(c, x, 2);
    LaneAt(c, x, 3);
    LaneAt(c, x, 4);
    var p := Added(c.y0, c.y1);
    var q := Added(p, c.y2);
    var r := Added(q, c.y3);
    AddedIn(c.y0, c.y1, x);
    AddedIn(p, c.y2, x);
    AddedIn(q, c.y3, x);
    AddedIn(r, c.y4, x);
  }

  lemma EffectIn(c: Cube, x: coordinate)
    ensures ThetaEffect(Lanes(c), x) == In(Effects(Parities(c)), x)
  {
    hide Lanes, Parity, Parities, Xor, Rotate, Effects, In;
    ParityIn(c, (x + 4) % 5);
    ParityIn(c, (x + 1) % 5);
    Neighbours(x);
    EffectsIn(Parities(c), x, (x + 4) % 5, (x + 1) % 5);
  }

  lemma ThetaIn(c: Cube, x: coordinate, y: coordinate)
    ensures Lane(Theta(Lanes(c)), x, y) == In(RowOf(ThetaCube(c), y), x)
  {
    hide Lanes, ThetaEffect, Effects, Parities, Xor, In, RowOf, ThetaCube, Added, Column, Row;
    LaneAt(c, x, y);
    EffectIn(c, x);
    CoordinatesOf(x, y);
    ThetaRow(c, y);
    AddedIn(RowOf(c, y), Effects(Parities(c)), x);
  }

  lemma ThetaOf(c: Cube)
    ensures Theta(Lanes(c)) == Lanes(ThetaCube(c))
  {
    hide Theta, ThetaCube, Lanes, Lane, RowOf, In;
    forall x: coordinate, y: coordinate
      ensures Lane(Theta(Lanes(c)), x, y) == In(RowOf(ThetaCube(c), y), x) {
      ThetaIn(c, x, y);
    }
    LanesAre(Theta(Lanes(c)), ThetaCube(c));
  }

  function Pick(n0: amount, n1: amount, n2: amount, n3: amount, n4: amount, x: coordinate): amount {
    if x == 0 then n0 else if x == 1 then n1 else if x == 2 then n2 else if x == 3 then n3 else n4
  }

  /** The rotation of lane (x, y). */
  function OffsetOf(x: coordinate, y: coordinate): amount {
    match y
    case 0 => Pick(0, 1, 62, 28, 27, x)
    case 1 => Pick(36, 44, 6, 55, 20, x)
    case 2 => Pick(3, 10, 43, 25, 39, x)
    case 3 => Pick(41, 45, 15, 21, 8, x)
    case 4 => Pick(18, 2, 61, 56, 14, x)
  }

  lemma OffsetTable(p: nat)
    requires p < 25
    ensures VisitedAt(p) < 24 ==> ROTC[VisitedAt(p)] == OffsetOf(Column(p), Row(p))
    ensures VisitedAt(p) >= 24 ==> p == 0
  {
  }

  lemma RotateByNone(v: bv64)
    ensures Rotate(v, 0) == v
  {
  }

  lemma RhoIn(a: State, x: coordinate, y: coordinate)
    ensures Lane(Rho(a, Rotate), x, y) == Rotate(Lane(a, x, y), OffsetOf(x, y))
  {
    hide RhoOffset, VisitedAt, ROTC, RhoSteps, OffsetOf, Rotate, Column, Row;
    var p := Index(x, y);
    CoordinatesOf(x, y);
    RhoLane(a, Rotate, 24, p);
    OffsetTable(p);
    RotateByNone(a[p]);
    TableShapes();
    if VisitedAt(p) < 24 {
      RotationTable(VisitedAt(p));
    } else {
      NoOffset();
      FirstPlace(x, y);
    }
  }

  lemma FirstPlace(x: coordinate, y: coordinate)
    ensures Index(x, y) == 0 <==> x == 0 && y == 0
  {
  }

  lemma NoOffset()
    ensures OffsetOf(0, 0) == 0
  {
  }

  lemma SourceColumn(x: coordinate, y: coordinate)
    ensures (x + 3 * y) % 5 == if y == 0 then x else if y == 1 then (x + 3) % 5 else if y == 2 then (x + 1) % 5
                               else if y == 3 then (x + 4) % 5 else (x + 2) % 5
  {
  }

  /** Which lane comes to (x, y), and by how much it is rotated. */
  lemma MovedTable(c: Cube, x: coordinate, y: coordinate)
    ensures var s: coordinate := (x + 3 * y) % 5;
      In(RowOf(MovedCube(c), y), x) == Rotate(In(RowOf(c, x), s), OffsetOf(s, x))
  {
    hide Rotate, OffsetOf, MovedCube, RowOf, In;
    var s: coordinate := (x + 3 * y) % 5;
    SourceColumn(x, y);
    Neighbours(x);
    if y == 0 { MovedRow0(c, x, s); } else if y == 1 { MovedRow1(c, x, s); } else if y == 2 { MovedRow2(c, x, s); }
    else if y == 3 { MovedRow3(c, x, s); } else { MovedRow4(c, x, s); }
  }

  lemma MovedRow0(c: Cube, x: coordinate, s: coordinate)
    requires s == x
    ensures In(RowOf(MovedCube(c), 0), x) == Rotate(In(RowOf(c, x), s), OffsetOf(s, x))
  {
    RotateByNone(c.y0.x0);
    hide Rotate;
    if x == 0 { } else if x == 1 { } else if x == 2 { } else if x == 3 { } else { }
  }

  lemma MovedRow1(c: Cube, x: coordinate, s: coordinate)
    requires s == (if x >= 2 then x - 2 else x + 3)
    ensures In(RowOf(MovedCube(c), 1), x) == Rotate(In(RowOf(c, x), s), OffsetOf(s, x))
  {
    hide Rotate;
    if x == 0 { } else if x == 1 { } else if x == 2 { } else if x == 3 { } else { }
  }

  lemma MovedRow2(c: Cube, x: coordinate, s: coordinate)
    requires s == (if x == 4 then 0 else x + 1)
    ensures In(RowOf(MovedCube(c), 2), x) == Rotate(In(RowOf(c, x), s), OffsetOf(s, x))
  {
    hide Rotate;
    if x == 0 { } else if x == 1 { } else if x == 2 { } else if x == 3 { } else { }
  }

  lemma MovedRow3(c: Cube, x: coordinate, s: coordinate)
    requires s == (if x == 0 then 4 else x - 1)
    ensures In(RowOf(MovedCube(c), 3), x) == Rotate(In(RowOf(c, x), s), OffsetOf(s, x))
  {
    hide Rotate;
    if x == 0 { } else if x == 1 { } else if x == 2 { } else if x == 3 { } else { }
  }

  lemma MovedRow4(c: Cube, x: coordinate, s: coordinate)
    requires s == (if x >= 3 then x - 3 else x + 2)
    ensures In(RowOf(MovedCube(c), 4), x) == Rotate(In(RowOf(c, x), s), OffsetOf(s, x))
  {
    hide Rotate;
    if x == 0 { } else if x == 1 { } else if x == 2 { } else if x == 3 { } else { }
  }

  lemma MovedIn(c: Cube, x: coordinate, y: coordinate)
    ensures Lane(Pi(Rho(Lanes(c), Rotate)), x, y) == In(RowOf(MovedCube(c), y), x)
  {
    hide Lanes, Rho, Pi, Rotate, In, RowOf, MovedCube, OffsetOf, Lane;
    var s: coordinate := (x + 3 * y) % 5;
    PiAt(Rho(Lanes(c), Rotate), x, y);
    RhoIn(Lanes(c), s, x);
    LaneAt(c, s, x);
    MovedTable(c, x, y);
    LaneIs(Pi(Rho(Lanes(c), Rotate)), x, y);
    LaneIs(Rho(Lanes(c), Rotate), s, x);
  }

  lemma MovedOf(c: Cube)
    ensures Pi(Rho(Lanes(c), Rotate)) == Lanes(MovedCube(c))
  {
    hide Pi, Rho, MovedCube, Lanes, Lane, RowOf, In;
    forall x: coordinate, y: coordinate
      ensures Lane(Pi(Rho(Lanes(c), Rotate)), x, y) == In(RowOf(MovedCube(c), y), x) {
      MovedIn(c, x, y);
    }
    LanesAre(Pi(Rho(Lanes(c), Rotate)), MovedCube(c));
  }

  lemma LaneIs(a: State, x: coordinate, y: coordinate)
    ensures Lane(a, x, y) == a[Index(x, y)]
  {
  }

  lemma ChiIn(c: Cube, x: coordinate, y: coordinate)
    ensures Lane(Chi(Lanes(c)), x, y) == In(RowOf(ChiCube(c), y), x)
  {
    hide Lanes, Xor, AndNot, In, RowOf, ChiCube, ChiPlane, Lane, Column, Row;
    LaneAt(c, x, y);
    LaneAt(c, (x + 1) % 5, y);
    LaneAt(c, (x + 2) % 5, y);
    CoordinatesOf(x, y);
    ChiRowOf(c, y);
    Neighbours(x);
    ChiPlaneIn(RowOf(c, y), x, (x + 1) % 5, (x + 2) % 5);
    LaneIs(Chi(Lanes(c)), x, y);
  }

  lemma ChiOf(c: Cube)
    ensures Chi(Lanes(c)) == Lanes(ChiCube(c))
  {
    hide Chi, ChiCube, Lanes, Lane, RowOf, In;
    forall x: coordinate, y: coordinate ensures Lane(Chi(Lanes(c)), x, y) == In(RowOf(ChiCube(c), y), x) {
      ChiIn(c, x, y);
    }
    LanesAre(Chi(Lanes(c)), ChiCube(c));
  }

  lemma FirstLaneSet(c: Cube, v: bv64)
    ensures Lanes(c)[0 := v] == Lanes(c.(y0 := c.y0.(x0 := v)))
  {
    var rest := Row5(c.y1) + Row5(c.y2) + Row5(c.y3) + Row5(c.y4);
    FirstOfRow(c.y0, v);
    hide Row5;
    assert Lanes(c) == Row5(c.y0) + rest;
    assert Lanes(c.(y0 := c.y0.(x0 := v))) == Row5(c.y0.(x0 := v)) + rest;
  }

  lemma FirstOfRow(p: Plane, v: bv64)
    ensures Row5(p)[0 := v] == Row5(p.(x0 := v))
  {
  }

  lemma RoundOf(c: Cube, round: nat)
    requires round < 24
    ensures Round(Lanes(c), round) == Lanes(RoundCube(c, RC[round]))
  {
    hide Theta, ThetaCube, Pi, Rho, MovedCube, Chi, ChiCube, RoundConstant, Xor, Lanes;
    ThetaOf(c);
    MovedOf(ThetaCube(c));
    ChiOf(MovedCube(ThetaCube(c)));
    RoundConstantTable(round);
    var d := ChiCube(MovedCube(ThetaCube(c)));
    FirstLaneSet(d, Xor(d.y0.x0, RC[round]));
    FirstOf(d);
  }

  lemma FirstOf(c: Cube)
    ensures Lanes(c)[0] == c.y0.x0
  {
  }
}
