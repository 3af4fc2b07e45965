/**
 * Amanatides & Woo grid traversal: the DDA state, its setup, the stepping
 * rule, the nearest-hit walk in its two modes and the occlusion walk.
 *
 * Float geometry is not modelled: the slab test is an input (`Slab`), the
 * ray's reciprocal direction is a given field, and the per-axis crossing
 * parameters `tmax` are arbitrary reals. Nothing below depends on their
 * values being geometrically right; termination follows from the integer
 * cell coordinates alone.
 */
module Traversal {
  import opened Vectors
  import opened Grid
  import opened Results

  datatype Axis = AxisX | AxisY | AxisZ

  /** `uint` arithmetic wraps modulo 2^32. */
  const UINT_RANGE: nat := 0x1_0000_0000
  type Uint = u: int | 0 <= u < UINT_RANGE

  /** A sign bit of the ray direction: 1 for a negative component. */
  type Bit = b: int | 0 <= b <= 1
  /** A per-axis stepping direction. */
  type Step = s: int | s == 1 || s == -1 witness 1

  datatype Signs = Signs(x: Bit, y: Bit, z: Bit)
  datatype Steps = Steps(x: Step, y: Step, z: Step)

  function Component(v: Vec3, a: Axis): real {
    match a
    case AxisX => v.x
    case AxisY => v.y
    case AxisZ => v.z
  }

  function WithComponent(v: Vec3, a: Axis, r: real): Vec3 {
    match a
    case AxisX => v.(x := r)
    case AxisY => v.(y := r)
    case AxisZ => v.(z := r)
  }

  function StepAlong(st: Steps, a: Axis): Step {
    match a
    case AxisX => st.x
    case AxisY => st.y
    case AxisZ => st.z
  }

  /** `Scene::DDAState`: unsigned cell coordinates plus per-axis parameters. */
  datatype DDAState = DDAState(step: Steps, X: Uint, Y: Uint, Z: Uint, t: real, tdelta: Vec3, tmax: Vec3)

  function Coord(s: DDAState, a: Axis): Uint {
    match a
    case AxisX => s.X
    case AxisY => s.Y
    case AxisZ => s.Z
  }

  function WithCoord(s: DDAState, a: Axis, c: Uint): DDAState {
    match a
    case AxisX => s.(X := c)
    case AxisY => s.(Y := c)
    case AxisZ => s.(Z := c)
  }

  predicate InGrid(s: DDAState) {
    s.X < N && s.Y < N && s.Z < N
  }

  function CellOf(s: DDAState): Cell
    requires InGrid(s)
  {
    Cell(s.X, s.Y, s.Z)
  }

  /** The key of the cell the state is in. */
  function Occupant(grid: seq<Key>, s: DDAState): Key
    requires ValidGrid(grid) && InGrid(s)
  {
    KeyAt(grid, CellOf(s))
  }

  /** Unsigned addition: `X += step` on a `uint`. */
  function UintAdd(u: Uint, d: int): Uint {
    (u + d) % UINT_RANGE
  }

  /** Stepping down from cell 0 wraps to a value the `>= GRIDSIZE` test catches. */
  lemma StepBelowZeroLeavesGrid()
    ensures UintAdd(0, -1) == UINT_RANGE - 1
    ensures UintAdd(0, -1) >= N
  {}

  /** Moves left along one axis before the coordinate leaves `[0, N)`. */
  function Room(c: Uint, st: Step): nat
    requires c < N
  {
    if st == 1 then N - c else c + 1
  }

  /** Termination measure: moves left before leaving, summed over the axes. */
  function Budget(s: DDAState): nat
    requires InGrid(s)
  {
    Room(s.X, s.step.x) + Room(s.Y, s.step.y) + Room(s.Z, s.step.z)
  }

  /** A unit step from an in-grid coordinate stays in the grid exactly when room is left, and then uses one move up. */
  lemma UintStepUsesRoom(c: Uint, st: Step)
    requires c < N
    ensures UintAdd(c, st) < N <==> Room(c, st) > 1
    ensures UintAdd(c, st) < N ==> Room(UintAdd(c, st), st) == Room(c, st) - 1
  {
    if st == -1 && c == 0 {
      StepBelowZeroLeavesGrid();
    }
  }

  lemma BudgetBounds(s: DDAState)
    requires InGrid(s)
    ensures 3 <= Budget(s) <= 3 * N
  {}

  /**
   * The axis the stepping rule advances: X only when its `tmax` is strictly
   * below both others, Y when it is not beaten by X and strictly below Z,
   * Z otherwise.
   */
  function SelectAxis(tmax: Vec3): (a: Axis)
    ensures a == AxisX <==> tmax.x < tmax.y && tmax.x < tmax.z
    ensures a == AxisY <==> !(tmax.x < tmax.y) && tmax.y < tmax.z
    ensures a == AxisZ <==> !(tmax.x < tmax.y && tmax.x < tmax.z) && !(!(tmax.x < tmax.y) && tmax.y < tmax.z)
  {
    if tmax.x < tmax.y then
      (if tmax.x < tmax.z then AxisX else AxisZ)
    else
      (if tmax.y < tmax.z then AxisY else AxisZ)
  }

  /**
   * The selected axis has the smallest pending crossing; among tied minima Z
   * wins over X and Y, and Y wins over X.
   */
  lemma SelectAxisIsArgmin(tmax: Vec3)
    ensures forall b :: Component(tmax, SelectAxis(tmax)) <= Component(tmax, b)
    ensures tmax.z <= tmax.x && tmax.z <= tmax.y ==> SelectAxis(tmax) == AxisZ
    ensures tmax.y <= tmax.x && tmax.y < tmax.z ==> SelectAxis(tmax) == AxisY
    ensures SelectAxis(tmax) == AxisX ==> tmax.x < tmax.y && tmax.x < tmax.z
  {
    forall b ensures Component(tmax, SelectAxis(tmax)) <= Component(tmax, b) {
      match b
      case AxisX =>
      case AxisY =>
      case AxisZ =>
    }
  }

  /** One step of a walk: the new state, the axis crossed, and whether it left the grid. */
  datatype Stepped = Stepped(state: DDAState, axis: Axis, exited: bool)

  /**
   * One iteration's move: take `t` from the selected axis's `tmax`, move that
   * coordinate by its step, and unless the coordinate left the grid advance
   * that axis's `tmax` by its `tdelta`.
   */
  function Advance(s: DDAState): (r: Stepped)
    requires InGrid(s)
    ensures r.axis == SelectAxis(s.tmax)
    ensures r.state.t == Component(s.tmax, r.axis)
    ensures Coord(r.state, r.axis) == UintAdd(Coord(s, r.axis), StepAlong(s.step, r.axis))
    ensures forall b :: b != r.axis ==> Coord(r.state, b) == Coord(s, b)
    ensures r.state.step == s.step && r.state.tdelta == s.tdelta
    ensures r.exited <==> Room(Coord(s, r.axis), StepAlong(s.step, r.axis)) == 1
    ensures r.exited <==> !InGrid(r.state)
    ensures !r.exited ==> Budget(r.state) == Budget(s) - 1
    ensures !r.exited ==> r.state.tmax == WithComponent(s.tmax, r.axis, Component(s.tmax, r.axis) + Component(s.tdelta, r.axis))
  {
    var a := SelectAxis(s.tmax);
    var c := UintAdd(Coord(s, a), StepAlong(s.step, a));
    UintStepUsesRoom(Coord(s, a), StepAlong(s.step, a));
    var moved := WithCoord(s, a, c).(t := Component(s.tmax, a));
    if c >= N then
      Stepped(moved, a, true)
    else
      Stepped(moved.(tmax := WithComponent(s.tmax, a, Component(s.tmax, a) + Component(s.tdelta, a))), a, false)
  }

  /**
   * The states a walk passes through, stepping until the grid is left,
   * regardless of what the cells hold.
   */
  function Path(s: DDAState): (p: seq<DDAState>)
    requires InGrid(s)
    ensures 1 <= |p| <= Budget(s) - 2
    ensures p[0] == s
    ensures forall i :: 0 <= i < |p| ==> InGrid(p[i])
    ensures forall i :: 0 <= i < |p| - 1 ==> !Advance(p[i]).exited && Advance(p[i]).state == p[i + 1]
    ensures Advance(p[|p| - 1]).exited
    decreases Budget(s)
  {
    var n := Advance(s);
    if n.exited then [s] else [s] + Path(n.state)
  }

  /** What a nearest-hit walk reports, and how many loop iterations it took. */
  datatype Walk = Walk(key: Key, t: real, axis: Axis, iterations: nat)

  /**
   * Outside mode of `FindNearest`: step until the current cell is occupied,
   * reporting its key, or until the grid is left, reporting the empty key.
   */
  function WalkOutside(grid: seq<Key>, s: DDAState, axis: Axis): (w: Walk)
    requires ValidGrid(grid) && InGrid(s)
    ensures 1 <= w.iterations <= Budget(s) - 2
    ensures w.key == NOMATERIALKEY || exists c :: InBounds(c) && KeyAt(grid, c) == w.key
    decreases Budget(s)
  {
    var cell := Occupant(grid, s);
    if cell != NOMATERIALKEY then Walk(cell, s.t, axis, 1)
    else
      var n := Advance(s);
      if n.exited then Walk(cell, n.state.t, n.axis, 1)
      else
        var w := WalkOutside(grid, n.state, n.axis);
        w.(iterations := w.iterations + 1)
  }

  /**
   * Inside mode of `FindNearest`: step while the current cell is occupied,
   * remembering it in `last`, and report `last` when an empty cell or the
   * grid boundary is reached.
   */
  function WalkInside(grid: seq<Key>, s: DDAState, axis: Axis, last: Key): (w: Walk)
    requires ValidGrid(grid) && InGrid(s)
    ensures 1 <= w.iterations <= Budget(s) - 2
    ensures w.key == NOMATERIALKEY <==> last == NOMATERIALKEY && Occupant(grid, s) == NOMATERIALKEY
    decreases Budget(s)
  {
    var cell := Occupant(grid, s);
    if cell == NOMATERIALKEY then Walk(last, s.t, axis, 1)
    else
      var n := Advance(s);
      if n.exited then Walk(cell, n.state.t, n.axis, 1)
      else
        var w := WalkInside(grid, n.state, n.axis, cell);
        w.(iterations := w.iterations + 1)
  }

  /** What the occlusion walk answers, and how many loop iterations it took. */
  datatype Verdict = Verdict(occluded: bool, iterations: nat)

  /**
   * The loop of `IsOccluded`: while `t` is below the bound, an occupied cell
   * answers true and leaving the grid answers false.
   */
  function WalkOccluded(grid: seq<Key>, s: DDAState, bound: real): (v: Verdict)
    requires ValidGrid(grid) && InGrid(s)
    ensures v.iterations <= Budget(s) - 2
    ensures v.occluded ==> s.t < bound
    decreases Budget(s)
  {
    if !(s.t < bound) then Verdict(false, 0)
    else
      var cell := Occupant(grid, s);
      if cell != NOMATERIALKEY then Verdict(s.t < bound, 1)
      else
        var n := Advance(s);
        if n.exited then Verdict(false, 1)
        else
          var v := WalkOccluded(grid, n.state, bound);
          v.(iterations := v.iterations + 1)
  }

  /**
   * Reference reading of occlusion along a path: some cell is occupied and
   * every cell up to and including it is entered before `bound`.
   */
  predicate Blocked(grid: seq<Key>, p: seq<DDAState>, bound: real)
    requires ValidGrid(grid)
    requires forall i :: 0 <= i < |p| ==> InGrid(p[i])
  {
    |p| > 0 && p[0].t < bound && (Occupant(grid, p[0]) != NOMATERIALKEY || Blocked(grid, p[1..], bound))
  }

  /** Each walk runs fewer than `3 * N` iterations from any in-grid state. */
  lemma WalksEndWithinThreeN(grid: seq<Key>, s: DDAState, axis: Axis, last: Key, bound: real)
    requires ValidGrid(grid) && InGrid(s)
    ensures WalkOutside(grid, s, axis).iterations < 3 * N
    ensures WalkInside(grid, s, axis, last).iterations < 3 * N
    ensures WalkOccluded(grid, s, bound).iterations < 3 * N
    ensures |Path(s)| < 3 * N
  {
    BudgetBounds(s);
  }

  /**
   * Outside-mode report read against a path `p`: the walk stopped at index
   * `iterations - 1` after only empty cells, and either that cell is occupied
   * and reported with the `t` and axis of the step that entered it, or it is
   * the path's last cell, still empty, and the empty key is reported with the
   * `t` and axis of the step that left the grid.
   */
  predicate OutsideReport(grid: seq<Key>, p: seq<DDAState>, axis: Axis, w: Walk)
    requires ValidGrid(grid)
    requires forall i :: 0 <= i < |p| ==> InGrid(p[i])
  {
    var i := w.iterations - 1;
    && 0 <= i < |p|
    && (forall j :: 0 <= j < i ==> Occupant(grid, p[j]) == NOMATERIALKEY)
    && if Occupant(grid, p[i]) != NOMATERIALKEY then
         && w.key == Occupant(grid, p[i])
         && w.t == p[i].t
         && w.axis == (if i == 0 then axis else Advance(p[i - 1]).axis)
       else
         && i == |p| - 1
         && w.key == NOMATERIALKEY
         && w.t == Advance(p[i]).state.t
         && w.axis == Advance(p[i]).axis
  }

  /**
   * Inside-mode report read against a path `p`: the walk stopped at index
   * `iterations - 1` after only occupied cells, and either that cell is empty
   * and the cell before it (or `last`, at the start) is reported with the `t`
   * and axis of the step into the empty cell, or it is the path's last cell,
   * occupied, and reported with the `t` and axis of the step that left the
   * grid.
   */
  predicate InsideReport(grid: seq<Key>, p: seq<DDAState>, axis: Axis, last: Key, w: Walk)
    requires ValidGrid(grid)
    requires forall i :: 0 <= i < |p| ==> InGrid(p[i])
  {
    var i := w.iterations - 1;
    && 0 <= i < |p|
    && (forall j :: 0 <= j < i ==> Occupant(grid, p[j]) != NOMATERIALKEY)
    && if Occupant(grid, p[i]) == NOMATERIALKEY then
         && w.key == (if i == 0 then last else Occupant(grid, p[i - 1]))
         && w.t == p[i].t
         && w.axis == (if i == 0 then axis else Advance(p[i - 1]).axis)
       else
         && i == |p| - 1
         && w.key == Occupant(grid, p[i])
         && w.t == Advance(p[i]).state.t
         && w.axis == Advance(p[i]).axis
  }

  /** A report on the rest of a path carries over to the path one cell longer. */
  lemma OutsideReportExtend(grid: seq<Key>, s: DDAState, q: seq<DDAState>, axis: Axis, w: Walk)
    requires ValidGrid(grid) && InGrid(s)
    requires forall i :: 0 <= i < |q| ==> InGrid(q[i])
    requires |q| > 0 && !Advance(s).exited && Advance(s).state == q[0]
    requires Occupant(grid, s) == NOMATERIALKEY
    requires OutsideReport(grid, q, Advance(s).axis, w)
    ensures OutsideReport(grid, [s] + q, axis, w.(iterations := w.iterations + 1))
  {
    var p := [s] + q;
    assert forall j :: 1 <= j < |p| ==> p[j] == q[j - 1];
  }

  lemma InsideReportExtend(grid: seq<Key>, s: DDAState, q: seq<DDAState>, axis: Axis, last: Key, w: Walk)
    requires ValidGrid(grid) && InGrid(s)
    requires forall i :: 0 <= i < |q| ==> InGrid(q[i])
    requires |q| > 0 && !Advance(s).exited && Advance(s).state == q[0]
    requires Occupant(grid, s) != NOMATERIALKEY
    requires InsideReport(grid, q, Advance(s).axis, Occupant(grid, s), w)
    ensures InsideReport(grid, [s] + q, axis, last, w.(iterations := w.iterations + 1))
  {
    var p := [s] + q;
    assert forall j :: 1 <= j < |p| ==> p[j] == q[j - 1];
  }

  /**
   * Outside mode reports the first occupied cell on the path, or the empty
   * key when the path leaves the grid without meeting one.
   */
  lemma {:induction false} WalkOutsideFindsFirstOccupied(grid: seq<Key>, s: DDAState, axis: Axis)
    requires ValidGrid(grid) && InGrid(s)
    ensures OutsideReport(grid, Path(s), axis, WalkOutside(grid, s, axis))
    decreases Budget(s)
  {
    var n := Advance(s);
    if Occupant(grid, s) != NOMATERIALKEY || n.exited {
    } else {
      WalkOutsideFindsFirstOccupied(grid, n.state, n.axis);
      OutsideReportExtend(grid, s, Path(n.state), axis, WalkOutside(grid, n.state, n.axis));
    }
  }

  /**
   * Inside mode walks through the run of occupied cells that starts the path
   * and reports the last of them.
   */
  lemma {:induction false} WalkInsideReportsLastOccupied(grid: seq<Key>, s: DDAState, axis: Axis, last: Key)
    requires ValidGrid(grid) && InGrid(s)
    ensures InsideReport(grid, Path(s), axis, last, WalkInside(grid, s, axis, last))
    decreases Budget(s)
  {
    var n := Advance(s);
    if Occupant(grid, s) == NOMATERIALKEY || n.exited {
    } else {
      WalkInsideReportsLastOccupied(grid, n.state, n.axis, Occupant(grid, s));
      InsideReportExtend(grid, s, Path(n.state), axis, last, WalkInside(grid, n.state, n.axis, Occupant(grid, s)));
    }
  }

  /** The occlusion walk answers exactly the reference reading along the path. */
  lemma {:induction false} WalkOccludedIsBlocked(grid: seq<Key>, s: DDAState, bound: real)
    requires ValidGrid(grid) && InGrid(s)
    ensures WalkOccluded(grid, s, bound).occluded == Blocked(grid, Path(s), bound)
    decreases Budget(s)
  {
    var p := Path(s);
    var n := Advance(s);
    if !(s.t < bound) || Occupant(grid, s) != NOMATERIALKEY {
    } else if n.exited {
      assert p == [s];
      assert !Blocked(grid, p[1..], bound);
    } else {
      assert p[1..] == Path(n.state);
      WalkOccludedIsBlocked(grid, n.state, bound);
    }
  }

  /** The ray fields the traversal reads and writes. */
  datatype Ray = Ray(O: Vec3, D: Vec3, rD: Vec3, Dsign: Signs, t: real, axis: Axis, inside: bool, voxelKey: Key)

  /**
   * The outcome of `intersect_cube` for a ray: whether the cube is entered
   * (false stands for the 1e34 sentinel), the entry parameter, and the axis
   * it writes into the ray (none when the entry plane is an X plane, which
   * leaves the ray's axis as it was).
   */
  datatype Slab = Slab(entered: bool, tEntry: real, entryAxis: Option<Axis>)

  /** `point_in_cube`: inclusive bounds on all three coordinates. */
  predicate PointInCube(p: Vec3) {
    0.0 <= p.x && 0.0 <= p.y && 0.0 <= p.z && p.x <= 1.0 && p.y <= 1.0 && p.z <= 1.0
  }

  /**
   * The closed unit cube: every corner and face belongs to it, and a point
   * is in it exactly when each coordinate lies in `[0, 1]`.
   */
  lemma PointInCubeIsClosedUnitCube(p: Vec3)
    ensures PointInCube(p) <==> forall a :: 0.0 <= Component(p, a) <= 1.0
    ensures PointInCube(Vec3(0.0, 0.0, 0.0)) && PointInCube(Vec3(1.0, 1.0, 1.0))
    ensures p.x == 1.0 && 0.0 <= p.y <= 1.0 && 0.0 <= p.z <= 1.0 ==> PointInCube(p)
  {
    if forall a :: 0.0 <= Component(p, a) <= 1.0 {
      assert 0.0 <= Component(p, AxisX) <= 1.0;
      assert 0.0 <= Component(p, AxisY) <= 1.0;
      assert 0.0 <= Component(p, AxisZ) <= 1.0;
    }
  }

  /**
   * The side effect of `intersect_cube` on the ray: only the axis may
   * change; a Y or Z entry plane writes its axis, an X entry plane leaves
   * the axis as it was.
   */
  function IntersectCube(ray: Ray, slab: Slab): (r: Ray)
    ensures r == ray.(axis := r.axis)
    ensures slab.entryAxis.Some? ==> r.axis == slab.entryAxis.value
    ensures slab.entryAxis.None? ==> r.axis == ray.axis
  {
    match slab.entryAxis
    case Some(a) => ray.(axis := a)
    case None => ray
  }

  const CELL_SIZE: real := 1.0 / 128.0
  /** The extra parameter added when mapping the entry point into grid space. */
  const GRID_NUDGE: real := 0.00005

  /** Conversion of a float to an integer, rounding toward zero. */
  function Truncate(r: real): int {
    if r >= 0.0 then r.Floor else -((-r).Floor)
  }

  function Ceil(r: real): int {
    -((-r).Floor)
  }

  /** `clamp(v, 0, GRIDSIZE - 1)`. */
  function Clamp(v: int): (c: nat)
    ensures c < N
    ensures 0 <= v < N ==> c == v
    ensures v < 0 ==> c == 0
    ensures v >= N ==> c == N - 1
  {
    if v < 0 then 0 else if v > N - 1 then N - 1 else v
  }

  function StepFromSign(b: Bit): Step {
    1 - b * 2
  }

  datatype Setup = Missed(ray: Ray) | Ready(ray: Ray, state: DDAState)

  /**
   * `Scene::Setup3DDDA`. A ray starting outside the cube takes its start
   * parameter from the slab test and fails when the cube is missed. The start
   * cell is the clamped grid position of the entry point, the steps follow
   * the direction's sign bits, and `inside` holds when the start cell is
   * occupied and the origin was in the cube.
   */
  function Setup3DDDA(grid: seq<Key>, ray: Ray, slab: Slab): (r: Setup)
    requires ValidGrid(grid)
    ensures r.Missed? <==> !PointInCube(ray.O) && !slab.entered
    ensures r.Missed? ==> r.ray == IntersectCube(ray, slab)
    ensures r.Ready? ==> InGrid(r.state)
    ensures r.Ready? ==> r.state.step == Steps(1 - 2 * ray.Dsign.x, 1 - 2 * ray.Dsign.y, 1 - 2 * ray.Dsign.z)
    ensures r.Ready? ==> r.state.t == (if PointInCube(ray.O) then 0.0 else slab.tEntry)
    ensures r.Ready? ==> (r.ray.inside <==> Occupant(grid, r.state) != NOMATERIALKEY && PointInCube(ray.O))
    ensures r.Ready? ==> r.ray == (if PointInCube(ray.O) then ray else IntersectCube(ray, slab)).(inside := r.ray.inside)
  {
    var inCube := PointInCube(ray.O);
    var ray1 := if inCube then ray else IntersectCube(ray, slab);
    var t := if inCube then 0.0 else slab.tEntry;
    if !inCube && !slab.entered then Missed(ray1)
    else
      var step := Steps(StepFromSign(ray.Dsign.x), StepFromSign(ray.Dsign.y), StepFromSign(ray.Dsign.z));
      var posInGrid := ray.O.Add(ray.D.Scale(t + GRID_NUDGE)).Scale(N as real);
      var gridPlanes := Vec3((Ceil(posInGrid.x) as real - ray.Dsign.x as real) * CELL_SIZE,
                             (Ceil(posInGrid.y) as real - ray.Dsign.y as real) * CELL_SIZE,
                             (Ceil(posInGrid.z) as real - ray.Dsign.z as real) * CELL_SIZE);
      var tdelta := Vec3(CELL_SIZE * step.x as real * ray.rD.x,
                         CELL_SIZE * step.y as real * ray.rD.y,
                         CELL_SIZE * step.z as real * ray.rD.z);
      var s := DDAState(step, Clamp(Truncate(posInGrid.x)), Clamp(Truncate(posInGrid.y)), Clamp(Truncate(posInGrid.z)),
                        t, tdelta, gridPlanes.Sub(ray.O).Mul(ray.rD));
      var cell := Occupant(grid, s);
      Ready(ray1.(inside := cell != NOMATERIALKEY && inCube), s)
  }

  /** Moves the origin forward by `EPSILON` along the direction. */
  function Nudge(ray: Ray): Ray {
    ray.(O := ray.O.Add(ray.D.Scale(EPSILON)))
  }

  /**
   * `Scene::FindNearest`: nudge, set up, and walk in inside or outside mode;
   * `slab` is the slab outcome for the nudged ray. A missed cube leaves the
   * reported key and `t` as they were.
   */
  function FindNearest(grid: seq<Key>, ray: Ray, slab: Slab): (r: Ray)
    requires ValidGrid(grid)
    ensures r.O == ray.O.Add(ray.D.Scale(EPSILON))
    ensures r.D == ray.D && r.rD == ray.rD && r.Dsign == ray.Dsign
    ensures Setup3DDDA(grid, Nudge(ray), slab).Missed? ==> r.voxelKey == ray.voxelKey && r.t == ray.t
    ensures Setup3DDDA(grid, Nudge(ray), slab).Ready? && r.inside ==> r.voxelKey != NOMATERIALKEY
  {
    match Setup3DDDA(grid, Nudge(ray), slab)
    case Missed(m) => m
    case Ready(m, s) =>
      if m.inside then
        var w := WalkInside(grid, s, m.axis, NOMATERIALKEY);
        m.(voxelKey := w.key, t := w.t, axis := w.axis)
      else
        var w := WalkOutside(grid, s, m.axis);
        m.(voxelKey := w.key, t := w.t, axis := w.axis)
  }

  /**
   * `Scene::IsOccluded`: nudge the origin, shorten the segment by twice
   * `EPSILON`, and answer whether the path is blocked before the shortened
   * length; a missed cube is never occluded. `slab` is the slab outcome for
   * the nudged ray.
   */
  function IsOccluded(grid: seq<Key>, ray: Ray, slab: Slab): (occluded: bool)
    requires ValidGrid(grid)
    ensures var shadow := Nudge(ray).(t := ray.t - 2.0 * EPSILON);
            match Setup3DDDA(grid, shadow, slab)
            case Missed(_) => !occluded
            case Ready(_, s) => occluded == Blocked(grid, Path(s), shadow.t)
  {
    var shadow := Nudge(ray).(t := ray.t - 2.0 * EPSILON);
    match Setup3DDDA(grid, shadow, slab)
    case Missed(_) => false
    case Ready(_, s) =>
      WalkOccludedIsBlocked(grid, s, shadow.t);
      WalkOccluded(grid, s, shadow.t).occluded
  }
  /** No cell on the path is occupied. */
  predicate AllEmpty(grid: seq<Key>, p: seq<DDAState>)
    requires ValidGrid(grid)
    requires forall i :: 0 <= i < |p| ==> InGrid(p[i])
  {
    forall j :: 0 <= j < |p| ==> Occupant(grid, p[j]) == NOMATERIALKEY
  }

  /** Cell `i` is the first occupied cell on the path. */
  predicate FirstOccupiedAt(grid: seq<Key>, p: seq<DDAState>, i: int)
    requires ValidGrid(grid)
    requires forall i :: 0 <= i < |p| ==> InGrid(p[i])
  {
    && 0 <= i < |p|
    && Occupant(grid, p[i]) != NOMATERIALKEY
    && forall j :: 0 <= j < i ==> Occupant(grid, p[j]) == NOMATERIALKEY
  }

  /** Cell `i` ends the run of occupied cells that starts the path. */
  predicate EndsOccupiedRun(grid: seq<Key>, p: seq<DDAState>, i: int)
    requires ValidGrid(grid)
    requires forall i :: 0 <= i < |p| ==> InGrid(p[i])
  {
    && 0 <= i < |p|
    && (forall j :: 0 <= j <= i ==> Occupant(grid, p[j]) != NOMATERIALKEY)
    && (i + 1 == |p| || Occupant(grid, p[i + 1]) == NOMATERIALKEY)
  }

  /** The start state of a traversal whose setup succeeded. */
  function StartState(grid: seq<Key>, ray: Ray, slab: Slab): DDAState
    requires ValidGrid(grid) && Setup3DDDA(grid, Nudge(ray), slab).Ready?
  {
    Setup3DDDA(grid, Nudge(ray), slab).state
  }

  /**
   * Outside mode of `FindNearest`: the reported key is empty exactly when
   * every cell on the path is empty; otherwise it is the key of the first
   * occupied cell, reported with the `t` at which that cell was entered.
   */
  lemma FindNearestOutsideMode(grid: seq<Key>, ray: Ray, slab: Slab)
    requires ValidGrid(grid)
    requires Setup3DDDA(grid, Nudge(ray), slab).Ready?
    requires !Setup3DDDA(grid, Nudge(ray), slab).ray.inside
    ensures FindNearest(grid, ray, slab).voxelKey == NOMATERIALKEY <==> AllEmpty(grid, Path(StartState(grid, ray, slab)))
    ensures FindNearest(grid, ray, slab).voxelKey != NOMATERIALKEY ==>
              exists i :: FirstOccupiedAt(grid, Path(StartState(grid, ray, slab)), i)
                          && Occupant(grid, Path(StartState(grid, ray, slab))[i]) == FindNearest(grid, ray, slab).voxelKey
                          && Path(StartState(grid, ray, slab))[i].t == FindNearest(grid, ray, slab).t
  {
    var setup := Setup3DDDA(grid, Nudge(ray), slab);
    var s := setup.state;
    var w := WalkOutside(grid, s, setup.ray.axis);
    WalkOutsideFindsFirstOccupied(grid, s, setup.ray.axis);
    var p := Path(s);
    var i := w.iterations - 1;
    if Occupant(grid, p[i]) != NOMATERIALKEY {
      assert FirstOccupiedAt(grid, p, i);
      assert !AllEmpty(grid, p);
    }
  }

  /** From an occupied start cell, inside mode reports the end of the occupied run. */
  lemma WalkInsideEndsOccupiedRun(grid: seq<Key>, s: DDAState, axis: Axis)
    requires ValidGrid(grid) && InGrid(s)
    requires Occupant(grid, s) != NOMATERIALKEY
    ensures WalkInside(grid, s, axis, NOMATERIALKEY).key != NOMATERIALKEY
    ensures exists i :: EndsOccupiedRun(grid, Path(s), i) && Occupant(grid, Path(s)[i]) == WalkInside(grid, s, axis, NOMATERIALKEY).key
  {
    var w := WalkInside(grid, s, axis, NOMATERIALKEY);
    WalkInsideReportsLastOccupied(grid, s, axis, NOMATERIALKEY);
    var p := Path(s);
    var i := w.iterations - 1;
    if Occupant(grid, p[i]) == NOMATERIALKEY {
      assert i > 0 && w.key == Occupant(grid, p[i - 1]);
      assert EndsOccupiedRun(grid, p, i - 1);
    } else {
      assert EndsOccupiedRun(grid, p, i);
    }
  }

  /**
   * Inside mode of `FindNearest`: the reported key is never empty; it is the
   * key of the last cell in the run of occupied cells that starts the path.
   */
  lemma FindNearestInsideMode(grid: seq<Key>, ray: Ray, slab: Slab)
    requires ValidGrid(grid)
    requires Setup3DDDA(grid, Nudge(ray), slab).Ready?
    requires Setup3DDDA(grid, Nudge(ray), slab).ray.inside
    ensures FindNearest(grid, ray, slab).voxelKey != NOMATERIALKEY
    ensures exists i :: EndsOccupiedRun(grid, Path(StartState(grid, ray, slab)), i)
                        && Occupant(grid, Path(StartState(grid, ray, slab))[i]) == FindNearest(grid, ray, slab).voxelKey
  {
    var setup := Setup3DDDA(grid, Nudge(ray), slab);
    assert FindNearest(grid, ray, slab).voxelKey == WalkInside(grid, setup.state, setup.ray.axis, NOMATERIALKEY).key;
    assert StartState(grid, ray, slab) == setup.state;
    WalkInsideEndsOccupiedRun(grid, setup.state, setup.ray.axis);
  }
}
