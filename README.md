# SuperGo Go environment, modelled in Dafny

This project models `lib/go.py` of SuperGo: a reinforcement-learning
environment over the Pachi Go engine. The model has four parts.

- `pachi.dfy` (module `Pachi`): the engine as an injected interface. `Engine<B>`
  is a record of the engine operations the environment calls (`CreateBoard`,
  `play`, `encode`, `is_terminal`, `official_score`, `get_legal_coords`,
  `coord_to_ij`, `ij_to_coord`, the PASS and RESIGN sentinels). `B` is the
  engine's board type and is never inspected. The module also defines the
  colours, with BLACK = 1 and WHITE = 2, and `StoneOther`. Two predicates
  state what the model assumes of the engine. `EngineSound` says four things:
  every board has a positive size; its encoding has a size×size plane for
  each colour; `CreateBoard(n)` gives a board of size n for n > 0; and a legal
  move keeps the board's size. `CoordsInverse` says three things: the PASS
  and RESIGN sentinels are distinct; no cell's coordinate equals either
  sentinel; and `coord_to_ij` and `ij_to_coord` are inverse on the board's
  cells.
- `actions.dfy` (module `GoActions`): the action/coordinate mapping. Cells are
  numbered row-major, pass is `size*size` and resign is `size*size + 1`. It
  has round-trip lemmas in both directions and injectivity over the action
  space.
- `observation.dfy` (module `GoObservation`): the per-colour history update.
  This is `np.roll` followed by overwriting slot 0, and is proved equal to
  "prepend the newest plane, drop the oldest". The module also has the
  observation formatter `_format_state`: BLACK history, then WHITE history,
  then a constant plane holding `player_color - 1`.
- `env.dfy` (module `GoEnvironment`): the class `GoEnv`. Its fields are
  `board`, `history`, `playerColor`, `state` and `done`. Its methods are the
  constructor, `GetLegalMoves`, `Act`, `Reset` and `Step`. The module also
  holds the terminal reward, which is worked out from the sign of the
  official score.

Design points where the model follows the code literally:

- The terminal reward is computed for `player_color` after `_act` has flipped
  it (lib/go.py:84, 157). That colour is the side now to play, which is the
  opponent of the last mover. It is not a fixed "agent colour" chosen at
  construction, so `Step` states the reward as
  `Reward(score, StoneOther(mover))`.
- `reset` does not clear the histories (lib/go.py:117-123). `Reset` keeps
  them and the colour to play unchanged.
- `_action_to_coord` does not validate its input. An action outside
  `[0, size*size + 1]` is split into a row and column and handed to the
  engine, and the engine decides whether that is an illegal move.
- The history depth `HISTORY` comes from `const.py`, which is not part of this
  model. It is the constructor parameter `depth`, so each colour keeps
  `depth + 1` planes.

## Model

| member | source | states |
|---|---|---|
| `Pachi.StoneValue` | lib/go.py:32-33 | BLACK is 1 and WHITE is 2 |
| `Pachi.ColorIndex` | lib/go.py:81 | `player_color - 1` is 0 exactly for BLACK and is below 2 |
| `Pachi.StoneOther` | lib/go.py:84 | the other colour differs from the mover and takes the other history slot |
| `GoActions.PassAction` | lib/go.py:8-9 | the pass index lies outside the cell range |
| `GoActions.ResignAction` | lib/go.py:11-12 | the resign index lies outside the cell range, one past pass |
| `GoActions.ReservedActions` | lib/go.py:8-12 | pass is size², resign is size²+1, they are distinct, and the action space is the cells plus these two |
| `GoActions.CoordToAction` | lib/go.py:14-19 | PASS maps to size², RESIGN to size²+1, and a board cell to an index in `[0, size²)` |
| `GoActions.ActionToCoord` | lib/go.py:21-25 | size² gives PASS, size²+1 gives RESIGN, and a cell index gives the coordinate of row `a // size`, column `a % size`, both on the board |
| `GoActions.ActionRoundTrip` | lib/go.py:14-25 | for every action in `[0, size²+1]`, `_coord_to_action(_action_to_coord(a)) == a` |
| `GoActions.CoordRoundTrip` | lib/go.py:14-25 | for PASS, RESIGN and every board cell, `_action_to_coord(_coord_to_action(c)) == c`, and the action is in range |
| `GoActions.ActionToCoordInjective` | lib/go.py:21-25 | distinct actions of the action space reach distinct coordinates |
| `GoObservation.ConstantPlane` | lib/go.py:37 | the to-play plane is size×size and holds the constant everywhere |
| `GoObservation.ZeroHistory` | lib/go.py:51-52 | the initial history has `HISTORY+1` all-zero planes |
| `GoObservation.Roll` | lib/go.py:82 | `np.roll(h, 1)` puts the last plane first and moves every other plane one slot back |
| `GoObservation.Record` | lib/go.py:82-83 | roll then overwrite slot 0 equals prepending the new plane and dropping the oldest |
| `GoObservation.RecordFor` | lib/go.py:81-83 | the mover's history keeps its length, holds the new plane in slot 0 and the old slot k-1 in slot k; the other colour's history is unchanged |
| `GoObservation.RecordKeepsShape` | lib/go.py:82-83 | recording a size×size plane keeps every history plane size×size |
| `GoObservation.FormatState` | lib/go.py:28-39 | the observation is the BLACK planes in order, then the WHITE planes in order, then the `player_color - 1` plane |
| `GoObservation.ObservationLayout` | lib/go.py:36-38 | with `HISTORY+1` planes per colour the observation has `2*(HISTORY+1)+1` planes at the stated positions; the last holds 0 for BLACK and 1 for WHITE; all planes are size×size when the history planes are |
| `GoEnvironment.Reward` | lib/go.py:155-158 | reward is +1 exactly when the score's sign favours the given colour, -1 exactly when it favours the other, 0 exactly on a zero score |
| `GoEnvironment.RewardZeroSum` | lib/go.py:155-158 | the two colours' rewards for one score are opposite |
| `GoEnvironment.LegalMovesRoundTrip` | lib/go.py:66-71 | when the engine's legal coordinates are cells or sentinels, the derived actions are in range and map back to those coordinates |
| `GoEnvironment.GoEnv.Observation` | lib/go.py:36-38 | the current observation has `2*(HISTORY+1)+1` planes, each boardSize×boardSize |
| `GoEnvironment.GoEnv.constructor` | lib/go.py:45-63 | starts done, with no board, two all-zero histories of `HISTORY+1` planes, the given colour and the formatted initial state |
| `GoEnvironment.GoEnv.GetLegalMoves` | lib/go.py:66-71 | one action per legal engine coordinate for the colour to play, same order, each through `_coord_to_action` |
| `GoEnvironment.GoEnv.Act` | lib/go.py:74-84 | on IllegalMove nothing changes; otherwise the board is the played board, the mover's history records its plane of the new encoding, and the other colour is to play |
| `GoEnvironment.GoEnv.Reset` | lib/go.py:117-123 | a fresh board of the configured size, done iff it is terminal, history and colour unchanged, and the observation returned |
| `GoEnvironment.GoEnv.Step` | lib/go.py:134-159 | when done: reward 0, done, and no change; an illegal move is returned with nothing changed; otherwise Act's effect, done iff the new board is terminal, and reward 0 unless terminal, in which case it is `Reward` for the colour now to play |

## Left out

- Pachi engine internals (`CreateBoard`, `play`, capture and ko legality, `encode`, `is_terminal`, `official_score`, `get_legal_coords`, the coordinate helpers): foreign native code, modelled only as the fields of `Engine<B>`.
- `fast_score` and `clone`: used only by `test_move`.
- `test_move` (lib/go.py:87-114): a debug heuristic that prints and renders; it is not part of the environment's contract.
- `render` (lib/go.py:126-131): text output only.
- The `colormap` lookup and its KeyError on an unknown colour string (lib/go.py:54-58): the colour is taken as a `Color` value.
- `six.reraise`: the IllegalMove exception is the `IllegalMove` result of `Step`.
- numpy arrays and float rewards: planes are `seq<seq<int>>` and rewards are the integers -1, 0 and 1, the only values the source produces.
- `_act`'s `history` argument: the source only ever passes `self.history`, so `Act` works on the field directly.
- `GoActions.ActionToCoord`: requires a positive board size, because with size 0 the source divides by zero on any action other than 0 and 1.
- `GoEnvironment.GoEnv.constructor`: requires `EngineSound`, because the source relies without checking on the engine facts it lists (board sizes, and the shape of `encode`'s planes). It also requires a positive board size; the source does not check this, and what Pachi does with a board of size 0 is not part of this model.
- `GoEnvironment.GoEnv.GetLegalMoves`: requires a board, because before the first `reset` the source has no `board` attribute and the call fails.
