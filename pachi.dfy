/**
 * The part of the Pachi Go engine that the environment relies on, as an
 * injected interface. Every engine operation is a field of `Engine<B>`, where
 * `B` is the engine's own board type: the model never looks inside a board,
 * it only calls these operations and states what it assumes of them.
 */
module Pachi {

  /** Stone colours. The engine numbers them BLACK = 1 and WHITE = 2. */
  datatype Color = Black | White

  /** The engine's integer code for a colour. */
  function StoneValue(c: Color): (v: int)
    ensures 1 <= v <= 2
    ensures v == 1 <==> c == Black
  {
    match c
    case Black => 1
    case White => 2
  }

  /** `player_color - 1`: the slot of a colour in the history and in an encoding. */
  function ColorIndex(c: Color): (k: nat)
    ensures k < 2
    ensures k == 0 <==> c == Black
  {
    StoneValue(c) - 1
  }

  /** The engine's `stone_other`, restricted to the two stone colours. */
  function StoneOther(c: Color): (o: Color)
    ensures o != c
    ensures ColorIndex(o) == 1 - ColorIndex(c)
  {
    match c
    case Black => White
    case White => Black
  }

  /** An engine coordinate: a board cell, or one of the PASS and RESIGN sentinels. */
  type Coord = int

  /** One colour's occupancy grid, row by row. */
  type Plane = seq<seq<int>>

  /** What `play` gives back: a new board, or the engine's IllegalMove error. */
  datatype Outcome<T> = Ok(value: T) | IllegalMove

  datatype Option<T> = None | Some(value: T)

  /** The engine operations used by the environment. */
  datatype Engine<!B> = Engine(
    passCoord: Coord,                           // pachi_py.PASS_COORD
    resignCoord: Coord,                         // pachi_py.RESIGN_COORD
    create: nat -> B,                           // pachi_py.CreateBoard(size)
    size: B -> nat,                             // board.size
    play: (B, Coord, Color) -> Outcome<B>,      // board.play(coord, color)
    encode: B -> seq<Plane>,                    // board.encode(), one plane per colour slot
    isTerminal: B -> bool,                      // board.is_terminal
    officialScore: B -> real,                   // board.official_score, positive favours WHITE
    legalCoords: (B, Color) -> seq<Coord>,      // board.get_legal_coords(color)
    coordToIJ: (B, Coord) -> (int, int),        // board.coord_to_ij(coord)
    ijToCoord: (B, int, int) -> Coord           // board.ij_to_coord(i, j)
  )

  /** `p` is an n-by-n grid. */
  predicate IsPlane(p: Plane, n: nat)
  {
    |p| == n && forall i :: 0 <= i < n ==> |p[i]| == n
  }

  /**
   * What the environment takes for granted of the engine: every board has a
   * positive size (the action mapper divides by it) and its encoding has an
   * n-by-n plane for each of the two colour slots; a board created for a
   * positive size has that size; and a legal move keeps the board's size.
   */
  ghost predicate EngineSound<B(!new)>(e: Engine<B>)
  {
    && (forall b: B :: && e.size(b) > 0
                       && 2 <= |e.encode(b)|
                       && IsPlane(e.encode(b)[0], e.size(b))
                       && IsPlane(e.encode(b)[1], e.size(b)))
    && (forall n: nat :: n > 0 ==> e.size(e.create(n)) == n)
    && (forall b: B, c: Coord, color: Color :: e.play(b, c, color).Ok? ==>
          e.size(e.play(b, c, color).value) == e.size(b))
  }

  /** `c` names a board cell: not a sentinel, and `coord_to_ij` / `ij_to_coord` round-trip on it. */
  ghost predicate IsCellCoord<B>(e: Engine<B>, b: B, c: Coord)
  {
    var (i, j) := e.coordToIJ(b, c);
    && c != e.passCoord
    && c != e.resignCoord
    && 0 <= i < e.size(b)
    && 0 <= j < e.size(b)
    && e.ijToCoord(b, i, j) == c
  }

  /**
   * The engine's coordinate helpers are mutual inverses on the cells of `b`,
   * and the two sentinels are distinct.
   */
  ghost predicate CoordsInverse<B>(e: Engine<B>, b: B)
  {
    && e.passCoord != e.resignCoord
    && forall i: int, j: int :: 0 <= i < e.size(b) && 0 <= j < e.size(b) ==>
         IsCellCoord(e, b, e.ijToCoord(b, i, j)) && e.coordToIJ(b, e.ijToCoord(b, i, j)) == (i, j)
  }
}
