/**
 * `GoEnv`: the reset/step environment over one engine board. It owns the
 * board, the two colour histories, the colour to play and the terminal flag.
 */
module GoEnvironment {
  import opened Pachi
  import opened GoActions
  import opened GoObservation

  /** What `step` hands back when the move is accepted. */
  datatype StepResult = StepResult(observation: seq<Plane>, reward: int, done: bool)

  /** The outcome of a finished game, read off the sign of the engine's score. */
  datatype GameResult = Win(winner: Color) | Draw

  /** A positive official score favours WHITE, a negative one BLACK, zero is a draw. */
  function Winner(score: real): GameResult
  {
    if score > 0.0 then Win(White)
    else if score < 0.0 then Win(Black)
    else Draw
  }

  /** The terminal reward for `player`: +1 if it won, -1 if the other colour won, 0 on a draw. */
  function Reward(score: real, player: Color): (r: int)
    ensures r == 1 <==> Winner(score) == Win(player)
    ensures r == -1 <==> Winner(score) == Win(StoneOther(player))
    ensures r == 0 <==> Winner(score) == Draw
  {
    var whiteWins := score > 0.0;
    var blackWins := score < 0.0;
    var playerWins := (whiteWins && player == White) || (blackWins && player == Black);
    if playerWins then 1 else if whiteWins || blackWins then -1 else 0
  }

  /** The two colours' rewards for the same final score cancel out. */
  lemma RewardZeroSum(score: real, player: Color)
    ensures Reward(score, StoneOther(player)) == -Reward(score, player)
  {
  }

  /**
   * When the engine reports only cells and the two sentinels as legal, the
   * actions `GetLegalMoves` derives from them lie in the action space and
   * lead back to exactly those coordinates.
   */
  lemma {:induction false} LegalMovesRoundTrip<B>(e: Engine<B>, b: B, coords: seq<Coord>, moves: seq<int>)
    requires e.size(b) > 0
    requires |moves| == |coords|
    requires forall k :: 0 <= k < |coords| ==> moves[k] == CoordToAction(e, b, coords[k])
    requires forall k :: 0 <= k < |coords| ==>
               coords[k] == e.passCoord || coords[k] == e.resignCoord || IsCellCoord(e, b, coords[k])
    ensures forall k :: 0 <= k < |moves| ==>
              InActionRange(e.size(b), moves[k]) && ActionToCoord(e, b, moves[k]) == coords[k]
  {
    forall k | 0 <= k < |moves|
      ensures InActionRange(e.size(b), moves[k]) && ActionToCoord(e, b, moves[k]) == coords[k]
    {
      CoordRoundTrip(e, b, coords[k]);
    }
  }

  class GoEnv<B(!new)> {
    const engine: Engine<B>
    const boardSize: nat
    /** The history depth, HISTORY: each colour keeps `depth + 1` planes. */
    const depth: nat

    /** The engine board; absent until the first `Reset`. */
    var board: Option<B>
    /** One history per colour, at `ColorIndex`, newest plane first. */
    var history: seq<seq<Plane>>
    /** The colour that plays next (the source also calls it the agent's colour). */
    var playerColor: Color
    /** The observation computed at construction. */
    var state: seq<Plane>
    var done: bool

    ghost predicate Valid()
      reads this
    {
      && EngineSound(engine)
      && |history| == 2
      && |history[0]| == depth + 1
      && |history[1]| == depth + 1
      && (forall c, k :: 0 <= c < 2 && 0 <= k <= depth ==> IsPlane(history[c][k], boardSize))
      && boardSize > 0
      && (board.Some? ==> engine.size(board.value) == boardSize)
      && (!done ==> board.Some?)
    }

    /** The observation for the current history and colour to play. */
    function Observation(): (obs: seq<Plane>)
      reads this
      requires Valid()
      ensures |obs| == 2 * (depth + 1) + 1
      ensures forall k :: 0 <= k < |obs| ==> IsPlane(obs[k], boardSize)
    {
      ObservationLayout(history, playerColor, boardSize, depth);
      FormatState(history, playerColor, boardSize)
    }

    /** `__init__`: zero histories, no board yet, and already done until `Reset`. */
    constructor (playerColor: Color, boardSize: nat, depth: nat, engine: Engine<B>)
      requires EngineSound(engine)
      requires boardSize > 0
      ensures Valid()
      ensures this.engine == engine && this.boardSize == boardSize && this.depth == depth
      ensures this.playerColor == playerColor
      ensures board == None && done
      ensures history == [ZeroHistory(depth + 1, boardSize), ZeroHistory(depth + 1, boardSize)]
      ensures state == Observation()
    {
      this.engine := engine;
      this.boardSize := boardSize;
      this.depth := depth;
      this.history := [ZeroHistory(depth + 1, boardSize), ZeroHistory(depth + 1, boardSize)];
      this.playerColor := playerColor;
      this.board := None;
      this.state := FormatState([ZeroHistory(depth + 1, boardSize), ZeroHistory(depth + 1, boardSize)], playerColor, boardSize);
      this.done := true;
    }

    /** `get_legal_moves`: the engine's legal coordinates for the colour to play, as actions, in order. */
    method GetLegalMoves() returns (moves: seq<int>)
      requires Valid() && board.Some?
      ensures |moves| == |engine.legalCoords(board.value, playerColor)|
      ensures forall k :: 0 <= k < |moves| ==>
                moves[k] == CoordToAction(engine, board.value, engine.legalCoords(board.value, playerColor)[k])
    {
      var b := board.value;
      var legal := engine.legalCoords(b, playerColor);
      moves := [];
      var k := 0;
      while k < |legal|
        invariant 0 <= k <= |legal|
        invariant |moves| == k
        invariant forall m :: 0 <= m < k ==> moves[m] == CoordToAction(engine, b, legal[m])
      {
        moves := moves + [CoordToAction(engine, b, legal[k])];
        k := k + 1;
      }
    }

    /**
     * `_act`: play `action` for the colour to play. If the engine rejects the
     * move nothing changes; otherwise the board is replaced, the mover's
     * history records the mover's plane of the new encoding, and the other
     * colour is to play.
     */
    method Act(action: int) returns (legal: bool)
      requires Valid() && board.Some?
      modifies this`board, this`history, this`playerColor
      ensures Valid()
      ensures var b := old(board.value);
              var played := engine.play(b, ActionToCoord(engine, b, action), old(playerColor));
              && legal == played.Ok?
              && (legal ==>
                    && board == Some(played.value)
                    && history == RecordFor(old(history), old(playerColor), engine.encode(played.value)[ColorIndex(old(playerColor))])
                    && playerColor == StoneOther(old(playerColor)))
              && (!legal ==>
                    board == old(board) && history == old(history) && playerColor == old(playerColor))
    {
      var b := board.value;
      var played := engine.play(b, ActionToCoord(engine, b, action), playerColor);
      if played.IllegalMove? {
        return false;
      }
      board := Some(played.value);
      var encoded := engine.encode(played.value);
      var color := ColorIndex(playerColor);
      RecordKeepsShape(history[color], encoded[color], boardSize);
      history := history[color := Record(history[color], encoded[color])];
      playerColor := StoneOther(playerColor);
      legal := true;
    }

    /**
     * `reset`: a fresh engine board of the configured size; done only if that
     * board is already terminal. The histories and the colour to play are kept.
     */
    method Reset() returns (obs: seq<Plane>)
      requires Valid()
      modifies this`board, this`done
      ensures Valid()
      ensures board == Some(engine.create(boardSize))
      ensures done == engine.isTerminal(engine.create(boardSize))
      ensures obs == Observation()
    {
      board := Some(engine.create(boardSize));
      done := engine.isTerminal(board.value);
      obs := FormatState(history, playerColor, boardSize);
    }

    /**
     * `step`: a no-op with reward 0 once done; otherwise play the action
     * (an illegal move is handed back and changes nothing), then report the
     * observation, the reward and whether the game is over. The terminal
     * reward is computed for the colour to play AFTER the move, that is, the
     * opponent of the mover.
     */
    method Step(action: int) returns (r: Outcome<StepResult>)
      requires Valid()
      modifies this`board, this`history, this`playerColor, this`done
      ensures Valid()
      ensures old(done) ==>
                && r == Ok(StepResult(old(Observation()), 0, true))
                && board == old(board) && history == old(history)
                && playerColor == old(playerColor) && done
      ensures !old(done) ==>
                var b := old(board.value);
                var mover := old(playerColor);
                match engine.play(b, ActionToCoord(engine, b, action), mover)
                case IllegalMove =>
                  && r == IllegalMove
                  && board == old(board) && history == old(history)
                  && playerColor == mover && !done
                case Ok(next) =>
                  && board == Some(next)
                  && history == RecordFor(old(history), mover, engine.encode(next)[ColorIndex(mover)])
                  && playerColor == StoneOther(mover)
                  && done == engine.isTerminal(next)
                  && r == Ok(StepResult(Observation(),
                                        if done then Reward(engine.officialScore(next), StoneOther(mover)) else 0,
                                        done))
    {
      if done {
        return Ok(StepResult(FormatState(history, playerColor, boardSize), 0, true));
      }
      var legal := Act(action);
      if !legal {
        return IllegalMove;
      }
      var b := board.value;
      if !engine.isTerminal(b) {
        done := false;
        return Ok(StepResult(FormatState(history, playerColor, boardSize), 0, false));
      }
      done := true;
      r := Ok(StepResult(FormatState(history, playerColor, boardSize), Reward(engine.officialScore(b), playerColor), true));
    }
  }
}
