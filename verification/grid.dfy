/**
 * The dense voxel grid: its size constants and the flat `x + y*N + z*N*N`
 * addressing through which every cell is read and written.
 */
module Grid {

  /** WORLDSIZE, and GRIDSIZE which equals it: the side of the cubic grid. */
  const N: nat := 128
  const N2: nat := N * N
  const N3: nat := N * N * N

  /** Number of light slots in a scene snapshot. */
  const MAXLIGHTS: nat := 32

  /** Origin nudge; twice this is taken off a shadow ray's length. */
  const EPSILON: real := 0.00001

  /** Voxel payloads are `unsigned short` material keys. */
  const KEY_BOUND: nat := 0x1_0000
  type Key = k: int | 0 <= k < KEY_BOUND

  /** The reserved key of an empty cell. */
  const NOMATERIALKEY: Key := 0

  /** A cell coordinate triple. */
  datatype Cell = Cell(x: nat, y: nat, z: nat)

  predicate InBounds(c: Cell) {
    c.x < N && c.y < N && c.z < N
  }

  predicate ValidGrid(grid: seq<Key>) {
    |grid| == N3
  }

  /** The grid side is a power of two and the derived sizes are its square and cube. */
  lemma SizesArePowersOfTwo()
    ensures N == 0x80 && N2 == N * N == 0x4000 && N3 == N2 * N == 0x20_0000
  {}

  /** Flat address of a cell. */
  function Index(c: Cell): (i: nat)
    requires InBounds(c)
    ensures i < N3
  {
    c.x + c.y * N + c.z * N2
  }

  /** The cell stored at flat address `i`. */
  function CellAt(i: nat): (c: Cell)
    requires i < N3
    ensures InBounds(c)
    ensures Index(c) == i
  {
    var q := i / N;
    assert i == i % N + N * q;
    assert q == q % N + N * (q / N);
    assert q < N2;
    Cell(i % N, q % N, q / N)
  }

  /** Addressing is one-to-one: the cell is recovered from its address. */
  lemma CellAtIndex(c: Cell)
    requires InBounds(c)
    ensures CellAt(Index(c)) == c
  {
    var i := Index(c);
    assert i == c.x + N * (c.y + N * c.z);
    assert i % N == c.x;
    assert i / N == c.y + N * c.z;
    assert (i / N) / N == c.z;
  }

  lemma IndexInjective(a: Cell, b: Cell)
    requires InBounds(a) && InBounds(b)
    ensures Index(a) == Index(b) ==> a == b
  {
    CellAtIndex(a);
    CellAtIndex(b);
  }

  /** Reads the key of an in-bounds cell. */
  function KeyAt(grid: seq<Key>, c: Cell): Key
    requires ValidGrid(grid) && InBounds(c)
  {
    grid[Index(c)]
  }

  /**
   * `Scene::SetMaterial`: stores `key` in cell `c` and leaves every other cell
   * as it was.
   */
  function SetMaterial(grid: seq<Key>, c: Cell, key: Key): (r: seq<Key>)
    requires ValidGrid(grid) && InBounds(c)
    ensures ValidGrid(r)
    ensures KeyAt(r, c) == key
    ensures forall d :: InBounds(d) && d != c ==> KeyAt(r, d) == KeyAt(grid, d)
  {
    SetMaterialFrame(grid, c, key);
    grid[Index(c) := key]
  }

  lemma SetMaterialFrame(grid: seq<Key>, c: Cell, key: Key)
    requires ValidGrid(grid) && InBounds(c)
    ensures forall d :: InBounds(d) && d != c ==> grid[Index(c) := key][Index(d)] == grid[Index(d)]
  {
    forall d | InBounds(d) && d != c
      ensures grid[Index(c) := key][Index(d)] == grid[Index(d)]
    {
      IndexInjective(c, d);
    }
  }

  /** The grid whose cells are given cell by cell by `f`. */
  function GridOf(f: Cell -> Key): (r: seq<Key>)
    ensures ValidGrid(r)
    ensures forall c :: InBounds(c) ==> KeyAt(r, c) == f(c)
  {
    var r := seq<Key>(N3, i requires 0 <= i < N3 => f(CellAt(i)));
    assert forall c :: InBounds(c) ==> r[Index(c)] == f(c) by {
      forall c | InBounds(c) ensures r[Index(c)] == f(c) {
        CellAtIndex(c);
      }
    }
    r
  }

  /** A grid with every cell empty. */
  function EmptyGrid(): (r: seq<Key>)
    ensures ValidGrid(r)
    ensures forall i :: 0 <= i < |r| ==> r[i] == NOMATERIALKEY
  {
    seq(N3, _ => NOMATERIALKEY)
  }
}
