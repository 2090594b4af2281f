// Routers of a two-dimensional topology, numbered row by row.

module Coordinates {

  const DIR_WEST := 0
  const DIR_EAST := 1
  const DIR_NORTH := 2
  const DIR_SOUTH := 3
  const INVALID_ROUTER := -1
  const DIR_INVALID := -1

  // A mesh or torus with cols routers in each of its rows.
  datatype Grid = Grid(cols: nat, rows: nat) {
    predicate Valid() { cols >= 1 && rows >= 1 }

    predicate Router(id: int) { 0 <= id < cols * rows }

    function X(id: int): int
      requires Valid()
    {
      id % cols
    }

    function Y(id: int): int
      requires Valid()
    {
      id / cols
    }
  }

  predicate Internal(pc: int) { DIR_WEST <= pc <= DIR_SOUTH }

  function Abs(x: int): nat { if x < 0 then -x else x }
  function Min(x: int, y: int): int { if y < x then y else x }

  lemma {:induction false} Multiple(k: int, n: int)
    requires n > 0 && k >= 1
    ensures k * n >= n
    decreases k
  {
    if k > 1 {
      Multiple(k - 1, n);
      assert k * n == (k - 1) * n + n;
    }
  }

  lemma Monotone(a: int, b: int, n: int)
    requires a <= b && n >= 0
    ensures a * n <= b * n
  {}

  lemma Rows(y: int, cols: int)
    ensures (y + 1) * cols == y * cols + cols && (y - 1) * cols == y * cols - cols
  {}

  lemma DivMod(x: int, y: int, cols: int)
    requires 0 <= x < cols
    ensures (y * cols + x) / cols == y && (y * cols + x) % cols == x
  {
    var n := y * cols + x;
    var q, m := n / cols, n % cols;
    assert n == q * cols + m && 0 <= m < cols;
    assert (q - y) * cols == q * cols - y * cols;
    assert (y - q) * cols == y * cols - q * cols;
    if q > y { Multiple(q - y, cols); }
    if q < y { Multiple(y - q, cols); }
  }

  lemma CoordsOf(id: int, cols: int, rows: int)
    requires cols >= 1 && rows >= 1 && 0 <= id < cols * rows
    ensures 0 <= id % cols < cols && 0 <= id / cols < rows && id == id / cols * cols + id % cols
  {
    if id / cols >= rows { Monotone(rows, id / cols, cols); }
  }

  lemma IdOf(x: int, y: int, cols: int, rows: int)
    requires 0 <= x < cols && 0 <= y < rows
    ensures 0 <= y * cols + x < cols * rows && (y * cols + x) % cols == x && (y * cols + x) / cols == y
  {
    DivMod(x, y, cols);
    assert y * cols <= (rows - 1) * cols;
    assert 0 <= y * cols;
  }

  lemma Coords(t: Grid, id: int)
    requires t.Valid() && t.Router(id)
    ensures 0 <= t.X(id) < t.cols && 0 <= t.Y(id) < t.rows && id == t.Y(id) * t.cols + t.X(id)
  {
    CoordsOf(id, t.cols, t.rows);
  }

  lemma InRange(t: Grid, id: int)
    requires t.Valid() && t.Router(id)
    ensures 0 <= t.X(id) < t.cols && 0 <= t.Y(id) < t.rows
  {
    Coords(t, id);
  }

  lemma SameCoords(t: Grid, a: int, b: int)
    requires t.Valid() && t.Router(a) && t.Router(b)
    ensures a == b <==> t.X(a) == t.X(b) && t.Y(a) == t.Y(b)
  {
    Coords(t, a);
    Coords(t, b);
  }
}
