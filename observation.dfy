/**
 * The per-colour history of board planes and the observation built from it.
 * A history is a sequence of planes, newest first; the environment keeps one
 * per colour, in the slot `ColorIndex(c)` of a two-element sequence.
 */
module GoObservation {
  import opened Pachi

  /** An n-by-n plane holding `v` everywhere (`np.full` / `np.zeros`). */
  function ConstantPlane(n: nat, v: int): (p: Plane)
    ensures IsPlane(p, n)
    ensures forall i, j :: 0 <= i < n && 0 <= j < n ==> p[i][j] == v
  {
    seq(n, _ => seq(n, _ => v))
  }

  /** A history of `count` all-zero n-by-n planes. */
  function ZeroHistory(count: nat, n: nat): (h: seq<Plane>)
    ensures |h| == count
    ensures forall k :: 0 <= k < count ==> h[k] == ConstantPlane(n, 0)
  {
    seq(count, _ => ConstantPlane(n, 0))
  }

  /** `np.roll(h, 1, axis=0)`: the last plane moves to the front, the others one place back. */
  function Roll(h: seq<Plane>): (r: seq<Plane>)
    ensures |r| == |h|
    ensures |h| > 0 ==> r[0] == h[|h| - 1]
    ensures forall k :: 1 <= k < |h| ==> r[k] == h[k - 1]
  {
    if |h| == 0 then h else [h[|h| - 1]] + h[..|h| - 1]
  }

  /**
   * Recording a new plane into one colour's history: roll, then overwrite slot 0.
   * The net effect is that the newest plane is prepended and the oldest dropped.
   */
  function Record(h: seq<Plane>, p: Plane): (r: seq<Plane>)
    requires |h| > 0
    ensures r == [p] + h[..|h| - 1]
  {
    var r := Roll(h)[0 := p];
    assert forall k :: 1 <= k < |h| ==> r[k] == h[k - 1];
    r
  }

  /** Recording `p` for colour `c` advances that colour's history and leaves the other one alone. */
  function RecordFor(history: seq<seq<Plane>>, c: Color, p: Plane): (r: seq<seq<Plane>>)
    requires |history| == 2 && |history[ColorIndex(c)]| > 0
    ensures |r| == 2
    ensures |r[ColorIndex(c)]| == |history[ColorIndex(c)]|
    ensures r[ColorIndex(c)][0] == p
    ensures forall k :: 1 <= k < |history[ColorIndex(c)]| ==>
              r[ColorIndex(c)][k] == history[ColorIndex(c)][k - 1]
    ensures r[ColorIndex(StoneOther(c))] == history[ColorIndex(StoneOther(c))]
  {
    history[ColorIndex(c) := Record(history[ColorIndex(c)], p)]
  }

  /** Recording keeps every plane of the history n-by-n when the new plane is. */
  lemma RecordKeepsShape(h: seq<Plane>, p: Plane, n: nat)
    requires |h| > 0 && IsPlane(p, n)
    requires forall k :: 0 <= k < |h| ==> IsPlane(h[k], n)
    ensures forall k :: 0 <= k < |h| ==> IsPlane(Record(h, p)[k], n)
  {
    var r := Record(h, p);
    forall k | 0 <= k < |h|
      ensures IsPlane(r[k], n)
    {
      if k > 0 {
        assert r[k] == h[k - 1];
      }
    }
  }

  /**
   * `_format_state`: the BLACK history, then the WHITE history, then one
   * plane filled with `player_color - 1` (0 for BLACK, 1 for WHITE).
   */
  function FormatState(history: seq<seq<Plane>>, toPlay: Color, n: nat): (obs: seq<Plane>)
    requires |history| >= 2
    ensures |obs| == |history[0]| + |history[1]| + 1
    ensures forall k :: 0 <= k < |history[0]| ==> obs[k] == history[0][k]
    ensures forall k :: 0 <= k < |history[1]| ==> obs[|history[0]| + k] == history[1][k]
    ensures obs[|obs| - 1] == ConstantPlane(n, ColorIndex(toPlay))
  {
    history[ColorIndex(Black)] + history[ColorIndex(White)] + [ConstantPlane(n, ColorIndex(toPlay))]
  }

  /**
   * With `depth + 1` planes per colour the observation has 2*(depth+1)+1
   * planes: BLACK newest to oldest, WHITE newest to oldest, then the to-play
   * plane; and if the history planes are n-by-n, so is every observation plane.
   */
  lemma {:induction false} ObservationLayout(history: seq<seq<Plane>>, toPlay: Color, n: nat, depth: nat)
    requires |history| == 2 && |history[0]| == depth + 1 && |history[1]| == depth + 1
    ensures |FormatState(history, toPlay, n)| == 2 * (depth + 1) + 1
    ensures forall k :: 0 <= k <= depth ==>
              FormatState(history, toPlay, n)[k] == history[ColorIndex(Black)][k] &&
              FormatState(history, toPlay, n)[depth + 1 + k] == history[ColorIndex(White)][k]
    ensures FormatState(history, toPlay, n)[2 * (depth + 1)] == ConstantPlane(n, if toPlay == Black then 0 else 1)
    ensures (forall c, k :: 0 <= c < 2 && 0 <= k <= depth ==> IsPlane(history[c][k], n)) ==>
              forall k :: 0 <= k < 2 * (depth + 1) + 1 ==> IsPlane(FormatState(history, toPlay, n)[k], n)
  {
    var obs := FormatState(history, toPlay, n);
    if forall c, k :: 0 <= c < 2 && 0 <= k <= depth ==> IsPlane(history[c][k], n) {
      forall k | 0 <= k < 2 * (depth + 1) + 1
        ensures IsPlane(obs[k], n)
      {
        if k <= depth {
          assert obs[k] == history[0][k];
        } else if k < 2 * (depth + 1) {
          assert obs[depth + 1 + (k - depth - 1)] == history[1][k - depth - 1];
        }
      }
    }
  }
}
