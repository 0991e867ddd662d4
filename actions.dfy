/**
 * The translation between flat action indices and engine coordinates.
 * On a board of size n the actions are 0 .. n*n + 1: the cells in row-major
 * order (row i, column j is i*n + j), then pass (n*n), then resign (n*n + 1).
 */
module GoActions {
  import opened Pachi

  /** The action index of a pass. */
  function PassAction(n: nat): (a: nat)
    ensures !InCellRange(n, a)
  {
    n * n
  }

  /** The action index of a resignation, the one after pass. */
  function ResignAction(n: nat): (a: nat)
    ensures !InCellRange(n, a)
    ensures a == PassAction(n) + 1
  {
    n * n + 1
  }

  /** The actions that address board cells. */
  predicate InCellRange(n: nat, a: int)
  {
    0 <= a < n * n
  }

  /** The whole action space: the cells, pass and resign. */
  predicate InActionRange(n: nat, a: int)
  {
    0 <= a < n * n + 2
  }

  /** The reserved indices are the two values right after the cells, and distinct. */
  lemma ReservedActions(n: nat)
    ensures PassAction(n) == n * n && ResignAction(n) == n * n + 1
    ensures PassAction(n) != ResignAction(n)
    ensures InActionRange(n, PassAction(n)) && InActionRange(n, ResignAction(n))
    ensures forall a :: InActionRange(n, a) ==>
              InCellRange(n, a) || a == PassAction(n) || a == ResignAction(n)
  {
  }

  /** Row-major numbering keeps every cell of an n-by-n board below n*n. */
  lemma CellIndexBound(n: nat, i: int, j: int)
    ensures 0 <= i < n && 0 <= j < n ==> InCellRange(n, i * n + j)
  {
    if 0 <= i < n && 0 <= j < n {
      assert i * n <= (n - 1) * n;
    }
  }

  /** Division by n recovers row and column from a row-major index. */
  lemma RowMajorDecompose(n: nat, i: int, j: int)
    requires 0 <= i < n && 0 <= j < n
    ensures (i * n + j) / n == i && (i * n + j) % n == j
  {
    var a := i * n + j;
    var q, r := a / n, a % n;
    assert q * n + r == i * n + j;
    assert (q - i) * n == j - r;
    if q > i {
      MultipleAtLeast(n, q - i);
    } else if q < i {
      MultipleAtLeast(n, i - q);
    }
  }

  lemma MultipleAtLeast(n: int, k: int)
    requires n > 0 && k >= 1
    ensures k * n >= n
  {
  }

  /** The row and column of a cell action are on the board and rebuild the action. */
  lemma CellActionSplit(n: nat, a: int)
    requires n > 0
    ensures InCellRange(n, a) ==> 0 <= a / n < n && 0 <= a % n < n
    ensures (a / n) * n + a % n == a
  {
    var i, j := a / n, a % n;
    assert a == n * i + j;
    if InCellRange(n, a) {
      assert n * i < n * n;
      assert i < n;
    }
  }

  /** `_coord_to_action`: the action index of an engine coordinate on board `b`. */
  function CoordToAction<B>(e: Engine<B>, b: B, c: Coord): (a: int)
    ensures c == e.passCoord ==> a == PassAction(e.size(b))
    ensures c != e.passCoord && c == e.resignCoord ==> a == ResignAction(e.size(b))
    ensures IsCellCoord(e, b, c) ==> InCellRange(e.size(b), a)
  {
    var n := e.size(b);
    if c == e.passCoord then PassAction(n)
    else if c == e.resignCoord then ResignAction(n)
    else
      var (i, j) := e.coordToIJ(b, c);
      CellIndexBound(n, i, j);
      i * n + j
  }

  /**
   * `_action_to_coord`: the engine coordinate of an action on board `b`.
   * Outside the action space the row and column are still computed and handed
   * to the engine unchecked; the engine is the one that rejects them.
   */
  function ActionToCoord<B>(e: Engine<B>, b: B, a: int): (c: Coord)
    requires e.size(b) > 0
    ensures a == PassAction(e.size(b)) ==> c == e.passCoord
    ensures a == ResignAction(e.size(b)) ==> c == e.resignCoord
    ensures InCellRange(e.size(b), a) ==>
              0 <= a / e.size(b) < e.size(b) && 0 <= a % e.size(b) < e.size(b) &&
              c == e.ijToCoord(b, a / e.size(b), a % e.size(b))
  {
    var n := e.size(b);
    if a == PassAction(n) then e.passCoord
    else if a == ResignAction(n) then e.resignCoord
    else
      CellActionSplit(n, a);
      e.ijToCoord(b, a / n, a % n)
  }

  /** Every action of the action space survives the trip to a coordinate and back. */
  lemma ActionRoundTrip<B>(e: Engine<B>, b: B, a: int)
    requires e.size(b) > 0 && CoordsInverse(e, b)
    requires InActionRange(e.size(b), a)
    ensures CoordToAction(e, b, ActionToCoord(e, b, a)) == a
  {
    var n := e.size(b);
    if InCellRange(n, a) {
      CellActionSplit(n, a);
      var c := e.ijToCoord(b, a / n, a % n);
      assert IsCellCoord(e, b, c) && e.coordToIJ(b, c) == (a / n, a % n);
    }
  }

  /** Every cell coordinate and both sentinels survive the trip to an action and back. */
  lemma CoordRoundTrip<B>(e: Engine<B>, b: B, c: Coord)
    requires e.size(b) > 0
    requires c == e.passCoord || c == e.resignCoord || IsCellCoord(e, b, c)
    ensures InActionRange(e.size(b), CoordToAction(e, b, c))
    ensures ActionToCoord(e, b, CoordToAction(e, b, c)) == c
  {
    var n := e.size(b);
    if c != e.passCoord && c != e.resignCoord {
      var (i, j) := e.coordToIJ(b, c);
      RowMajorDecompose(n, i, j);
      CellIndexBound(n, i, j);
    }
  }

  /** No two actions of the action space reach the same coordinate. */
  lemma ActionToCoordInjective<B>(e: Engine<B>, b: B, a1: int, a2: int)
    requires e.size(b) > 0 && CoordsInverse(e, b)
    requires InActionRange(e.size(b), a1) && InActionRange(e.size(b), a2)
    requires ActionToCoord(e, b, a1) == ActionToCoord(e, b, a2)
    ensures a1 == a2
  {
    ActionRoundTrip(e, b, a1);
    ActionRoundTrip(e, b, a2);
  }
}
