/**
 * `CreateSurfaceData`: the grid walk over the parameter domain that emits two
 * triangles per cell into three parallel flat lists (positions, normals and
 * texture coordinates), and the vertex count `Model.BufferData` derives from them.
 */
module Tessellation {
  import opened JsMath
  import opened Geometry
  import opened Surface

  /** The grid step `step` in both r and θ. */
  const STEP: real := 0.01

  /** The finite-difference offset `delta` handed to `CalculateNormal`. */
  const DELTA: real := 0.001

  /** How many angles j·STEP lie below 2π: the inner loop's trip count. */
  const ANGLE_STEPS: nat := 629

  /** A point (r, θ) of the parameter domain. */
  datatype Param = Param(r: real, theta: real)

  /** The value of `r` on the i-th trip of the outer loop. */
  function RingRadius(i: nat): real
  {
    R_MIN + i as real * STEP
  }

  /** The value of `theta` on the j-th trip of the inner loop. */
  function Angle(j: nat): real
  {
    j as real * STEP
  }

  /** How many radii R_MIN + i·STEP do not exceed `maxR`: the outer loop's trip count. */
  function RingCount(maxR: real): nat
  {
    if maxR < R_MIN then 0 else ((maxR - R_MIN) / STEP).Floor + 1
  }

  lemma RingCountExact(maxR: real, i: nat)
    ensures RingRadius(i) <= maxR <==> i < RingCount(maxR)
  {
    if R_MIN <= maxR {
      var x := (maxR - R_MIN) / STEP;
      assert RingRadius(i) <= maxR <==> i as real <= x;
    }
  }

  lemma AngleStepsExact(j: nat)
    ensures Angle(j) < 2.0 * PI <==> j < ANGLE_STEPS
  {
  }

  /** The number of grid cells the two loops visit. */
  function Cells(maxR: real): nat
  {
    RingCount(maxR) * ANGLE_STEPS
  }

  /** Every cell the loops visit has its base corner in r ∈ [0.25, maxR], θ ∈ [0, 2π). */
  lemma CellBaseInDomain(maxR: real, i: nat, j: nat)
    requires i < RingCount(maxR) && j < ANGLE_STEPS
    ensures R_MIN <= RingRadius(i) <= maxR
    ensures 0.0 <= Angle(j) < 2.0 * PI
  {
    RingCountExact(maxR, i);
    AngleStepsExact(j);
  }

  /**
   * The six vertices a cell emits: triangles (v1, v2, v3) and (v2, v4, v3) of
   * the corners v1 = (r, θ), v2 = (r, θ + step), v3 = (r + step, θ),
   * v4 = (r + step, θ + step).
   */
  function Corners(b: Param): (cs: seq<Param>)
    ensures |cs| == 6
  {
    var v1 := b;
    var v2 := Param(b.r, b.theta + STEP);
    var v3 := Param(b.r + STEP, b.theta);
    var v4 := Param(b.r + STEP, b.theta + STEP);
    [v1, v2, v3, v2, v4, v3]
  }

  /** The vertices the first j cells of the ring at radius r emit, in order. */
  function RingParams(r: real, j: nat): (ps: seq<Param>)
    ensures |ps| == 6 * j
  {
    if j == 0 then [] else RingParams(r, j - 1) + Corners(Param(r, Angle(j - 1)))
  }

  /** The vertices the first i rings emit, in order. */
  function GridParams(i: nat): (ps: seq<Param>)
    ensures |ps| == 6 * ANGLE_STEPS * i
  {
    if i == 0 then [] else GridParams(i - 1) + RingParams(RingRadius(i - 1), ANGLE_STEPS)
  }

  lemma {:induction false} RingParamsInDomain(r: real, j: nat)
    ensures forall p :: p in RingParams(r, j) ==> r <= p.r <= r + STEP && 0.0 <= p.theta <= Angle(j)
  {
    if j > 0 {
      RingParamsInDomain(r, j - 1);
    }
  }

  lemma {:induction false} GridParamsInDomain(i: nat)
    ensures forall p :: p in GridParams(i) ==> R_MIN <= p.r <= RingRadius(i) && 0.0 <= p.theta <= Angle(ANGLE_STEPS)
  {
    if i > 0 {
      GridParamsInDomain(i - 1);
      RingParamsInDomain(RingRadius(i - 1), ANGLE_STEPS);
    }
  }

  /** Every vertex of the mesh for outer radius `maxR`, in the order the loops emit them. */
  function MeshParams(maxR: real): (ps: seq<Param>)
    ensures |ps| == 6 * Cells(maxR)
  {
    GridParams(RingCount(maxR))
  }

  /** Every emitted vertex comes from r ∈ [0.25, maxR + step], θ ∈ [0, 2π + step). */
  lemma MeshParamsInDomain(maxR: real)
    ensures forall p :: p in MeshParams(maxR) ==> R_MIN <= p.r <= maxR + STEP && 0.0 <= p.theta < 2.0 * PI + STEP
  {
    GridParamsInDomain(RingCount(maxR));
    if RingCount(maxR) > 0 {
      RingCountExact(maxR, RingCount(maxR) - 1);
    }
  }

  /** Cell j of ring i emits, as its t-th vertex, the t-th of its corners. */
  lemma {:induction false} RingParamsAt(r: real, n: nat, j: nat, t: nat)
    requires j < n && t < 6
    ensures RingParams(r, n)[6 * j + t] == Corners(Param(r, Angle(j)))[t]
  {
    if j < n - 1 {
      RingParamsAt(r, n - 1, j, t);
    }
  }

  /**
   * Vertex 6·(ANGLE_STEPS·i + j) + t of the first n rings is corner t of the cell
   * the loops visit with r = RingRadius(i) and θ = Angle(j).
   */
  lemma {:induction false} GridParamsAt(n: nat, i: nat, j: nat, t: nat)
    requires i < n && j < ANGLE_STEPS && t < 6
    ensures GridParams(n)[6 * ANGLE_STEPS * i + (6 * j + t)] == Corners(Param(RingRadius(i), Angle(j)))[t]
  {
    if i < n - 1 {
      GridParamsAt(n - 1, i, j, t);
    } else {
      RingParamsAt(RingRadius(i), ANGLE_STEPS, j, t);
    }
  }

  /**
   * What one vertex with parameters `p` pushes onto one of the three lists.
   * Where the source would divide by zero it pushes non-finite values (NaN for 0/0, ±Infinity otherwise); the
   * model has no such values and pushes zeros of the same width there, and
   * the preconditions of `CreateSurfaceData` keep every vertex it visits
   * away from those points.
   */
  type Emitter = Param -> seq<real>

  /** `vertexList.push(v.x, v.y, v.z)` with `v = equations(r, theta)`. */
  function PositionOf(m: Math): Emitter
  {
    (p: Param) => if p.r != 0.0 then Coords(Equations(m, p.r, p.theta)) else Coords(Zero)
  }

  /** `normalList.push(n.x, n.y, n.z)` with `n = CalculateNormal(r, theta, delta)`. */
  function NormalOf(m: Math): Emitter
  {
    (p: Param) => if NormalDefined(m, p.r, p.theta, DELTA) then Coords(NormalAt(m, p.r, p.theta, DELTA)) else Coords(Zero)
  }

  /** `textCoordList.push(t.r, t.theta)` with `t = CalculateTextCoord(r, theta)`. */
  function TextCoordOf(maxR: real): Emitter
  {
    (p: Param) =>
      if maxR != R_MIN then
        var t := CalculateTextCoord(maxR, p.r, p.theta);
        [t.u, t.v]
      else [0.0, 0.0]
  }

  /** `emit` pushes `width` numbers for every vertex. */
  ghost predicate HasWidth(emit: Emitter, width: nat)
  {
    forall p :: |emit(p)| == width
  }

  /** Positions are triples. */
  lemma PositionWidth(m: Math)
    ensures HasWidth(PositionOf(m), 3)
  {
  }

  /** Normals are triples. */
  lemma NormalWidth(m: Math)
    ensures HasWidth(NormalOf(m), 3)
  {
  }

  /** Texture coordinates are pairs. */
  lemma TextCoordWidth(maxR: real)
    ensures HasWidth(TextCoordOf(maxR), 2)
  {
  }

  /** The list after pushing what `emit` gives for each vertex of `ps`, in order, onto an empty list. */
  function Pushed(emit: Emitter, ps: seq<Param>): seq<real>
  {
    if ps == [] then [] else Pushed(emit, ps[..|ps| - 1]) + emit(ps[|ps| - 1])
  }

  /** Pushing the vertices of `a` and then those of `b` pushes those of `a + b`. */
  lemma {:induction false} PushedAppend(emit: Emitter, a: seq<Param>, b: seq<Param>)
    ensures Pushed(emit, a + b) == Pushed(emit, a) + Pushed(emit, b)
    decreases |b|
  {
    if b == [] {
      assert a + b == a;
    } else {
      assert (a + b)[..|a + b| - 1] == a + b[..|b| - 1];
      PushedAppend(emit, a, b[..|b| - 1]);
    }
  }

  lemma MulMonotone(w: nat, a: nat, b: nat)
    requires a <= b
    ensures w * a <= w * b
  {
  }

  lemma MulSucc(w: nat, k: nat)
    ensures w * (k + 1) == w * k + w
  {
  }

  /** Each vertex pushes exactly `width` numbers. */
  lemma {:induction false} PushedLength(emit: Emitter, width: nat, ps: seq<Param>)
    requires HasWidth(emit, width)
    ensures |Pushed(emit, ps)| == width * |ps|
  {
    if ps != [] {
      var front := ps[..|ps| - 1];
      PushedLength(emit, width, front);
      MulSucc(width, |front|);
    }
  }

  /** The k-th vertex's numbers occupy positions width·k .. width·k + width of the list. */
  lemma {:induction false} PushedAt(emit: Emitter, width: nat, ps: seq<Param>, k: nat)
    requires HasWidth(emit, width)
    requires k < |ps|
    ensures width * k + width <= |Pushed(emit, ps)|
    ensures Pushed(emit, ps)[width * k .. width * k + width] == emit(ps[k])
  {
    var front := ps[..|ps| - 1];
    var s, f := Pushed(emit, ps), Pushed(emit, front);
    assert s == f + emit(ps[|ps| - 1]);
    PushedLength(emit, width, front);
    MulMonotone(width, k + 1, |ps|);
    MulSucc(width, k);
    MulSucc(width, |front|);
    if k < |front| {
      assert ps[k] == front[k];
      PushedAt(emit, width, front, k);
      assert s[width * k .. width * k + width] == f[width * k .. width * k + width];
    } else {
      assert width * k == |f|;
    }
  }

  /** What a cell pushes: the rows of its six vertices v1, v2, v3, v2, v4, v3, one after the other. */
  lemma PushedCorners(emit: Emitter, b: Param)
    ensures Pushed(emit, Corners(b))
         == emit(b) + emit(Param(b.r, b.theta + STEP)) + emit(Param(b.r + STEP, b.theta))
          + emit(Param(b.r, b.theta + STEP)) + emit(Param(b.r + STEP, b.theta + STEP)) + emit(Param(b.r + STEP, b.theta))
  {
    var cs := Corners(b);
    assert cs[..1][..0] == [];
    assert cs[..2][..1] == cs[..1];
    assert cs[..3][..2] == cs[..2];
    assert cs[..4][..3] == cs[..3];
    assert cs[..5][..4] == cs[..4];
    assert cs[..6][..5] == cs[..5];
    assert cs[..6] == cs;
    assert Pushed(emit, cs[..1]) == emit(cs[0]);
    assert Pushed(emit, cs[..2]) == Pushed(emit, cs[..1]) + emit(cs[1]);
    assert Pushed(emit, cs[..3]) == Pushed(emit, cs[..2]) + emit(cs[2]);
    assert Pushed(emit, cs[..4]) == Pushed(emit, cs[..3]) + emit(cs[3]);
    assert Pushed(emit, cs[..5]) == Pushed(emit, cs[..4]) + emit(cs[4]);
  }

  /** The normal estimator is defined at the four corners of the cell with base (r, θ). */
  ghost predicate CellNormalsDefined(m: Math, r: real, theta: real)
  {
    && NormalDefined(m, r, theta, DELTA) && NormalDefined(m, r, theta + STEP, DELTA)
    && NormalDefined(m, r + STEP, theta, DELTA) && NormalDefined(m, r + STEP, theta + STEP, DELTA)
  }

  /** ... at every cell of the ring at radius r. */
  ghost predicate RingNormalsDefined(m: Math, r: real)
  {
    forall j: nat {:trigger CellNormalsDefined(m, r, Angle(j))} :: j < ANGLE_STEPS ==> CellNormalsDefined(m, r, Angle(j))
  }

  /** ... at every cell the loops of `CreateSurfaceData` visit for outer radius `maxR`. */
  ghost predicate MeshNormalsDefined(m: Math, maxR: real)
  {
    forall i: nat :: i < RingCount(maxR) ==> RingNormalsDefined(m, RingRadius(i))
  }

  /**
   * The three lists `CreateSurfaceData` returns hold 18, 18 and 12 numbers per
   * cell; below the inner radius (maxR < 0.25) all three are empty.
   */
  lemma SurfaceDataSizes(m: Math, maxR: real)
    ensures |Pushed(PositionOf(m), MeshParams(maxR))| == 18 * Cells(maxR)
    ensures |Pushed(NormalOf(m), MeshParams(maxR))| == 18 * Cells(maxR)
    ensures |Pushed(TextCoordOf(maxR), MeshParams(maxR))| == 12 * Cells(maxR)
    ensures maxR < R_MIN ==> Pushed(PositionOf(m), MeshParams(maxR)) == []
    ensures maxR < R_MIN ==> Pushed(NormalOf(m), MeshParams(maxR)) == []
    ensures maxR < R_MIN ==> Pushed(TextCoordOf(maxR), MeshParams(maxR)) == []
  {
    PositionWidth(m);
    NormalWidth(m);
    TextCoordWidth(maxR);
    PushedLength(PositionOf(m), 3, MeshParams(maxR));
    PushedLength(NormalOf(m), 3, MeshParams(maxR));
    PushedLength(TextCoordOf(maxR), 2, MeshParams(maxR));
  }

  /** Position of corner t of the cell at (RingRadius(i), Angle(j)) in the vertex sequence. */
  function VertexIndex(i: nat, j: nat, t: nat): nat
  {
    6 * ANGLE_STEPS * i + (6 * j + t)
  }

  /** Corner t of the cell at (RingRadius(i), Angle(j)), in the order v1, v2, v3, v2, v4, v3. */
  function CellCorner(i: nat, j: nat, t: nat): Param
    requires t < 6
  {
    Corners(Param(RingRadius(i), Angle(j)))[t]
  }

  /** Vertex number VertexIndex(i, j, t) of the mesh is corner t of the cell at (RingRadius(i), Angle(j)). */
  lemma MeshVertexAt(maxR: real, i: nat, j: nat, t: nat)
    requires i < RingCount(maxR) && j < ANGLE_STEPS && t < 6
    ensures VertexIndex(i, j, t) < |MeshParams(maxR)|
    ensures MeshParams(maxR)[VertexIndex(i, j, t)] == CellCorner(i, j, t)
  {
    GridParamsAt(RingCount(maxR), i, j, t);
  }

  /** Vertex number VertexIndex(i, j, t) of the mesh pushes its row at positions width·VertexIndex(i, j, t) onwards. */
  lemma PushedAtCorner(emit: Emitter, width: nat, maxR: real, i: nat, j: nat, t: nat)
    requires HasWidth(emit, width)
    requires i < RingCount(maxR) && j < ANGLE_STEPS && t < 6
    ensures width * VertexIndex(i, j, t) + width <= |Pushed(emit, MeshParams(maxR))|
    ensures Pushed(emit, MeshParams(maxR))[width * VertexIndex(i, j, t) .. width * VertexIndex(i, j, t) + width]
         == emit(CellCorner(i, j, t))
  {
    MeshVertexAt(maxR, i, j, t);
    PushedAt(emit, width, MeshParams(maxR), VertexIndex(i, j, t));
  }

  /** Where the preconditions of `CreateSurfaceData` hold, the normal estimator is defined at every corner. */
  lemma CornerNormalDefined(m: Math, maxR: real, i: nat, j: nat, t: nat)
    requires MeshNormalsDefined(m, maxR)
    requires i < RingCount(maxR) && j < ANGLE_STEPS && t < 6
    ensures NormalDefined(m, CellCorner(i, j, t).r, CellCorner(i, j, t).theta, DELTA)
  {
    assert RingNormalsDefined(m, RingRadius(i));
    assert CellNormalsDefined(m, RingRadius(i), Angle(j));
  }

  /**
   * The three lists stay aligned: for corner t of the cell the loops visit
   * at (RingRadius(i), Angle(j)), vertex number VertexIndex(i, j, t) has its
   * position, its normal and its texture coordinate all computed at that
   * same corner. Positions first:
   */
  lemma PositionAt(m: Math, maxR: real, i: nat, j: nat, t: nat)
    requires i < RingCount(maxR) && j < ANGLE_STEPS && t < 6
    ensures 3 * VertexIndex(i, j, t) + 3 <= |Pushed(PositionOf(m), MeshParams(maxR))|
    ensures CellCorner(i, j, t).r != 0.0
    ensures Pushed(PositionOf(m), MeshParams(maxR))[3 * VertexIndex(i, j, t) .. 3 * VertexIndex(i, j, t) + 3]
         == Coords(Equations(m, CellCorner(i, j, t).r, CellCorner(i, j, t).theta))
  {
    PositionWidth(m);
    PushedAtCorner(PositionOf(m), 3, maxR, i, j, t);
  }

  /** … the normal at the same vertex number is the estimator's value at the same corner … */
  lemma NormalAtVertex(m: Math, maxR: real, i: nat, j: nat, t: nat)
    requires MeshNormalsDefined(m, maxR)
    requires i < RingCount(maxR) && j < ANGLE_STEPS && t < 6
    ensures 3 * VertexIndex(i, j, t) + 3 <= |Pushed(NormalOf(m), MeshParams(maxR))|
    ensures NormalDefined(m, CellCorner(i, j, t).r, CellCorner(i, j, t).theta, DELTA)
    ensures Pushed(NormalOf(m), MeshParams(maxR))[3 * VertexIndex(i, j, t) .. 3 * VertexIndex(i, j, t) + 3]
         == Coords(NormalAt(m, CellCorner(i, j, t).r, CellCorner(i, j, t).theta, DELTA))
  {
    CornerNormalDefined(m, maxR, i, j, t);
    NormalOfDefined(m, CellCorner(i, j, t));
    NormalWidth(m);
    PushedAtCorner(NormalOf(m), 3, maxR, i, j, t);
  }

  /** … and so is its texture coordinate. */
  lemma TextCoordAtVertex(maxR: real, i: nat, j: nat, t: nat)
    requires maxR != R_MIN
    requires i < RingCount(maxR) && j < ANGLE_STEPS && t < 6
    ensures 2 * VertexIndex(i, j, t) + 2 <= |Pushed(TextCoordOf(maxR), MeshParams(maxR))|
    ensures Pushed(TextCoordOf(maxR), MeshParams(maxR))[2 * VertexIndex(i, j, t) .. 2 * VertexIndex(i, j, t) + 2]
         == [CalculateTextCoord(maxR, CellCorner(i, j, t).r, CellCorner(i, j, t).theta).u,
             CalculateTextCoord(maxR, CellCorner(i, j, t).r, CellCorner(i, j, t).theta).v]
  {
    TextCoordWidth(maxR);
    PushedAtCorner(TextCoordOf(maxR), 2, maxR, i, j, t);
  }

  /** With a true square root, every normal `CreateSurfaceData` pushes has unit length. */
  lemma SurfaceNormalsAreUnit(m: Math, maxR: real, i: nat, j: nat, t: nat)
    requires SquareRoot(m.sqrt)
    requires MeshNormalsDefined(m, maxR)
    requires i < RingCount(maxR) && j < ANGLE_STEPS && t < 6
    ensures 3 * VertexIndex(i, j, t) + 3 <= |Pushed(NormalOf(m), MeshParams(maxR))|
    ensures UnitTriple(Pushed(NormalOf(m), MeshParams(maxR))[3 * VertexIndex(i, j, t) .. 3 * VertexIndex(i, j, t) + 3])
  {
    NormalAtVertex(m, maxR, i, j, t);
    var c := CellCorner(i, j, t);
    NormalAtIsUnit(m, c.r, c.theta, DELTA);
    CoordsOfUnit(NormalAt(m, c.r, c.theta, DELTA),
                 Pushed(NormalOf(m), MeshParams(maxR))[3 * VertexIndex(i, j, t) .. 3 * VertexIndex(i, j, t) + 3]);
  }

  /** At a corner where the estimator is defined, the normal emitter gives its value. */
  lemma NormalOfDefined(m: Math, p: Param)
    requires NormalDefined(m, p.r, p.theta, DELTA)
    ensures NormalOf(m)(p) == Coords(NormalAt(m, p.r, p.theta, DELTA))
  {
  }

  /** What a cell pushes onto the normal list, corner by corner. */
  lemma CellNormals(m: Math, r: real, theta: real)
    requires CellNormalsDefined(m, r, theta)
    ensures Pushed(NormalOf(m), Corners(Param(r, theta)))
         == Coords(NormalAt(m, r, theta, DELTA)) + Coords(NormalAt(m, r, theta + STEP, DELTA))
          + Coords(NormalAt(m, r + STEP, theta, DELTA)) + Coords(NormalAt(m, r, theta + STEP, DELTA))
          + Coords(NormalAt(m, r + STEP, theta + STEP, DELTA)) + Coords(NormalAt(m, r + STEP, theta, DELTA))
  {
    PushedCorners(NormalOf(m), Param(r, theta));
  }

  /** The first block of the loop body: the cell's four corner points, pushed as two triangles. */
  method PushCellVertices(m: Math, r: real, theta: real, vertexList: seq<real>) returns (list: seq<real>)
    requires r != 0.0 && r + STEP != 0.0
    ensures list == vertexList + Pushed(PositionOf(m), Corners(Param(r, theta)))
  {
    var step := STEP;
    var v1 := Equations(m, r, theta);
    var v2 := Equations(m, r, theta + step);
    var v3 := Equations(m, r + step, theta);
    var v4 := Equations(m, r + step, theta + step);

    list := vertexList + [v1.x, v1.y, v1.z] + [v2.x, v2.y, v2.z] + [v3.x, v3.y, v3.z]
                       + [v2.x, v2.y, v2.z] + [v4.x, v4.y, v4.z] + [v3.x, v3.y, v3.z];
    PushedCorners(PositionOf(m), Param(r, theta));
  }

  /** The second block: the unit normals at the four corners, pushed in the same order. */
  method PushCellNormals(m: Math, r: real, theta: real, normalList: seq<real>) returns (list: seq<real>)
    requires CellNormalsDefined(m, r, theta)
    ensures list == normalList + Pushed(NormalOf(m), Corners(Param(r, theta)))
  {
    var step := STEP;
    var delta := DELTA;
    var n1 := CalculateNormal(m, r, theta, delta);
    var n2 := CalculateNormal(m, r, theta + step, delta);
    var n3 := CalculateNormal(m, r + step, theta, delta);
    var n4 := CalculateNormal(m, r + step, theta + step, delta);

    list := normalList + [n1.x, n1.y, n1.z] + [n2.x, n2.y, n2.z] + [n3.x, n3.y, n3.z]
                       + [n2.x, n2.y, n2.z] + [n4.x, n4.y, n4.z] + [n3.x, n3.y, n3.z];
    CellNormals(m, r, theta);
  }

  /** The third block: the texture coordinates of the four corners, pushed in the same order. */
  method PushCellTextCoords(maxR: real, r: real, theta: real, textCoordList: seq<real>) returns (list: seq<real>)
    requires maxR != R_MIN
    ensures list == textCoordList + Pushed(TextCoordOf(maxR), Corners(Param(r, theta)))
  {
    var step := STEP;
    var t1 := CalculateTextCoord(maxR, r, theta);
    var t2 := CalculateTextCoord(maxR, r, theta + step);
    var t3 := CalculateTextCoord(maxR, r + step, theta);
    var t4 := CalculateTextCoord(maxR, r + step, theta + step);

    list := textCoordList + [t1.u, t1.v] + [t2.u, t2.v] + [t3.u, t3.v]
                          + [t2.u, t2.v] + [t4.u, t4.v] + [t3.u, t3.v];
    PushedCorners(TextCoordOf(maxR), Param(r, theta));
  }

  /** One more cell of a ring appends that cell's six rows to the list. */
  lemma RingStep(emit: Emitter, list: seq<real>, r: real, j: nat)
    ensures list + Pushed(emit, RingParams(r, j + 1))
         == list + Pushed(emit, RingParams(r, j)) + Pushed(emit, Corners(Param(r, Angle(j))))
  {
    var done, cell := RingParams(r, j), Corners(Param(r, Angle(j)));
    assert RingParams(r, j + 1) == done + cell;
    PushedAppend(emit, done, cell);
  }

  /**
   * The inner loop of `CreateSurfaceData` for the ring at radius r: for
   * θ = 0, 0.01, … while θ < 2π, push the two triangles of the cell at (r, θ).
   */
  method PushRing(m: Math, maxR: real, r: real, vertexList: seq<real>, normalList: seq<real>, textCoordList: seq<real>)
    returns (vertices: seq<real>, normals: seq<real>, textCoords: seq<real>)
    requires maxR != R_MIN
    requires r != 0.0 && r + STEP != 0.0
    requires RingNormalsDefined(m, r)
    ensures vertices == vertexList + Pushed(PositionOf(m), RingParams(r, ANGLE_STEPS))
    ensures normals == normalList + Pushed(NormalOf(m), RingParams(r, ANGLE_STEPS))
    ensures textCoords == textCoordList + Pushed(TextCoordOf(maxR), RingParams(r, ANGLE_STEPS))
  {
    vertices, normals, textCoords := vertexList, normalList, textCoordList;
    var step := STEP;
    var theta := 0.0;
    ghost var j: nat := 0;
    while theta < 2.0 * PI
      invariant j <= ANGLE_STEPS && theta == Angle(j)
      invariant vertices == vertexList + Pushed(PositionOf(m), RingParams(r, j))
      invariant normals == normalList + Pushed(NormalOf(m), RingParams(r, j))
      invariant textCoords == textCoordList + Pushed(TextCoordOf(maxR), RingParams(r, j))
      decreases ANGLE_STEPS - j
    {
      AngleStepsExact(j);
      RingStep(PositionOf(m), vertexList, r, j);
      RingStep(NormalOf(m), normalList, r, j);
      RingStep(TextCoordOf(maxR), textCoordList, r, j);

      vertices := PushCellVertices(m, r, theta, vertices);
      normals := PushCellNormals(m, r, theta, normals);
      textCoords := PushCellTextCoords(maxR, r, theta, textCoords);
      j := j + 1;
      theta := theta + step;
    }
    AngleStepsExact(j);
  }

  /**
   * `CreateSurfaceData()` for outer radius `maxR`: for r = 0.25, 0.26, … while
   * r <= maxR, and θ = 0, 0.01, … while θ < 2π, push the two triangles of the
   * cell at (r, θ) onto the position, normal and texture-coordinate lists.
   */
  method CreateSurfaceData(m: Math, maxR: real) returns (vertices: seq<real>, normals: seq<real>, textCoords: seq<real>)
    requires maxR != R_MIN
    requires MeshNormalsDefined(m, maxR)
    ensures vertices == Pushed(PositionOf(m), MeshParams(maxR))
    ensures normals == Pushed(NormalOf(m), MeshParams(maxR))
    ensures textCoords == Pushed(TextCoordOf(maxR), MeshParams(maxR))
  {
    vertices, normals, textCoords := [], [], [];
    var step := STEP;

    var r := R_MIN;
    ghost var i: nat := 0;
    while r <= maxR
      invariant i <= RingCount(maxR) && r == RingRadius(i)
      invariant vertices == Pushed(PositionOf(m), GridParams(i))
      invariant normals == Pushed(NormalOf(m), GridParams(i))
      invariant textCoords == Pushed(TextCoordOf(maxR), GridParams(i))
      decreases RingCount(maxR) - i
    {
      RingCountExact(maxR, i);
      ghost var done, ring := GridParams(i), RingParams(r, ANGLE_STEPS);
      assert GridParams(i + 1) == done + ring;
      PushedAppend(PositionOf(m), done, ring);
      PushedAppend(NormalOf(m), done, ring);
      PushedAppend(TextCoordOf(maxR), done, ring);

      vertices, normals, textCoords := PushRing(m, maxR, r, vertices, normals, textCoords);
      i := i + 1;
      r := r + step;
    }
    RingCountExact(maxR, i);
  }
}
