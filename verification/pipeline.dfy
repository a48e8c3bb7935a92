/**
  The quick solver: a short search makes the bottom face one colour, the
  last layer is oriented and permuted from stored cases, the top face is
  turned until the cube is solved, and the move list is simplified.
 */
module QuickSolver {
  import opened Faces
  import opened Moves
  import opened Cubes
  import opened TurnAlgebra
  import opened Search
  import opened LastLayer
  import opened Simplify
  import opened Wrappers

  /**
    The top colour the solver assumes from the bottom colour: side colours
    two apart, 4 and 5 swapped, by the source's subtract-and-wrap arithmetic.
   */
  function OppositeColor(colorBottom: int): int
  {
    var colorTop := if colorBottom < 4 then colorBottom - 2 else if colorBottom < 5 then 5 else 4;
    if colorTop < 0 then 4 + colorTop else colorTop
  }

  /** In the fresh cube, the face opposite face i: side faces two apart, top and bottom. */
  function OppositeFace(i: int): int
    requires 0 <= i < 6
  {
    if i < 4 then (i + 2) % 4 else 9 - i
  }

  /**
    On every colour the assumed top colour is the colour of the opposite face
    of the fresh cube; the map is an involution without fixed points.
   */
  lemma OppositeColorIsOppositeFace(x: int)
    requires 0 <= x < 6
    ensures OppositeColor(x) == OppositeFace(x)
    ensures OppositeColor(OppositeColor(x)) == x && OppositeColor(x) != x
    ensures 0 <= OppositeColor(x) < 6
  {
  }

  /** k clockwise top turns, as the move list records them. */
  function TopTurns(k: nat): (s: seq<Move>)
    ensures |s| == k && forall i :: 0 <= i < k ==> s[i] == U
  {
    seq(k, _ => U)
  }

  lemma {:induction false} TopTurnsArePower(c: Cube, k: nat)
    ensures ApplyMoves(c, TopTurns(k)) == Power(c, 1, k)
    decreases k
  {
    if k > 0 {
      assert TopTurns(k)[1..] == TopTurns(k - 1);
      TopTurnsArePower(RotateUClock(c), k - 1);
    }
  }

  /** One more top turn on top of k of them. */
  lemma TopTurnStep(c: Cube, k: nat)
    ensures Power(c, 1, k + 1) == RotateUClock(Power(c, 1, k))
  {
    PowerAdd(c, 1, k, 1);
  }

  /** A cube that none of the four top-face orientations solves is solved by no number of top turns. */
  lemma NeverSolvedByTopTurns(c: Cube)
    requires forall j :: 0 <= j < 4 ==> !IsSolved(Power(c, 1, j))
    ensures forall n: nat :: !IsSolved(Power(c, 1, n))
  {
    forall n: nat
      ensures !IsSolved(Power(c, 1, n))
    {
      PowerMod(c, 1, n);
    }
  }

  /** A stage that appends what it applies keeps cube and move list in step. */
  lemma StageInStep(cube: Cube, moves: seq<Move>, r: Stage)
    requires |moves| <= |r.moves| && r.moves[..|moves|] == moves
    requires r.cube == ApplyMoves(ApplyMoves(cube, moves), r.moves[|moves|..])
    ensures r.cube == ApplyMoves(cube, r.moves)
  {
    assert r.moves == moves + r.moves[|moves|..];
    ApplyMovesAppend(cube, moves, r.moves[|moves|..]);
  }

  /**
    The closing loop: turn the top face clockwise until the cube is solved.
    Either some number of turns below four solves it, or none ever does and
    the loop never ends, since four turns bring the cube back.
   */
  method TurnTopUntilSolved(c: Cube) returns (solved: bool, turns: nat)
    ensures solved ==> turns < 4 && IsSolved(Power(c, 1, turns))
    ensures solved ==> forall j :: 0 <= j < turns ==> !IsSolved(Power(c, 1, j))
    ensures !solved ==> forall n: nat :: !IsSolved(Power(c, 1, n))
  {
    var current := c;
    turns := 0;
    while turns < 4 && !IsSolved(current)
      invariant 0 <= turns <= 4
      invariant current == Power(c, 1, turns)
      invariant forall j :: 0 <= j < turns ==> !IsSolved(Power(c, 1, j))
    {
      TopTurnStep(c, turns);
      current := RotateUClock(current);
      turns := turns + 1;
    }
    solved := turns < 4;
    if !solved {
      NeverSolvedByTopTurns(c);
    }
  }

  /**
    The orientation stage, run on the cube the recorded moves produce, with
    the top colour assumed from the bottom face's first tile.
   */
  method OllStage(cube: Cube, moves: seq<Move>) returns (r: Stage)
    ensures |moves| <= |r.moves| && r.moves[..|moves|] == moves
    ensures r.cube == ApplyMoves(cube, r.moves)
  {
    var test := ApplyMoves(cube, moves);
    var colorTop := OppositeColor(test.f5.t0);
    r := DoOLL(test, moves, colorTop);
    StageInStep(cube, moves, r);
  }

  /** The two last-layer stages, run on the cube the bottom-face moves produce. */
  method LastLayerStages(cube: Cube, moves: seq<Move>) returns (r: Stage)
    ensures |moves| <= |r.moves| && r.moves[..|moves|] == moves
    ensures r.cube == ApplyMoves(cube, r.moves)
  {
    var oll := OllStage(cube, moves);
    r := DoPLL(oll.cube, oll.moves);
    PllInStep(cube, oll);
    assert r.moves[..|moves|] == r.moves[..|oll.moves|][..|moves|];
  }

  /** The permutation step keeps a stage in step with the moves recorded from the start. */
  lemma PllInStep(cube: Cube, s: Stage)
    requires s.cube == ApplyMoves(cube, s.moves)
    ensures var r := DoPLL(s.cube, s.moves);
      |s.moves| <= |r.moves| && r.moves[..|s.moves|] == s.moves && r.cube == ApplyMoves(cube, r.moves)
  {
    var r := DoPLL(s.cube, s.moves);
    StageInStep(cube, s.moves, r);
  }

  /**
    The outcome of the quick solver. The source throws when the bottom-face
    search finds nothing, and never returns when no top turn solves the cube
    after the last-layer stages; both are results here.
   */
  datatype Outcome =
    | Solved(moves: seq<Move>, unsimplified: seq<Move>)
    | BottomSearchFailed
    | NeverSolved(stuck: Cube, unsimplified: seq<Move>)

  method QuickSolve(cube: Cube) returns (r: Outcome)
    ensures r.Solved? ==> IsSolved(ApplyMoves(cube, r.unsimplified))
    ensures r.Solved? ==> r.moves == FixSymmetry(r.unsimplified) && |r.moves| <= |r.unsimplified|
    ensures r.Solved? ==> IsSolved(ApplyMoves(cube, FixSymmetryCorrected(r.unsimplified)))
    ensures r.NeverSolved? ==>
      r.stuck == ApplyMoves(cube, r.unsimplified) && forall n: nat :: !IsSolved(Power(r.stuck, 1, n))
    ensures !r.BottomSearchFailed? ==>
      exists k :: 0 <= k <= MaxDepthIndex + 1 && k <= |r.unsimplified| &&
        IsOneColor(ApplyMoves(cube, r.unsimplified[..k]).f5) != -1
  {
    var bottom := OptimalSolve(cube, true);
    if bottom.None? {
      return BottomSearchFailed;
    }
    var moves := bottom.value;
    var stage := LastLayerStages(cube, moves);
    var solved, turns := TurnTopUntilSolved(stage.cube);
    if !solved {
      r := NeverSolved(stage.cube, stage.moves);
      assert r.unsimplified[..|moves|] == moves;
      return;
    }
    var unsimplified := stage.moves + TopTurns(turns);
    ApplyMovesAppend(cube, stage.moves, TopTurns(turns));
    TopTurnsArePower(stage.cube, turns);
    assert unsimplified[..|moves|] == moves;
    FixSymmetryShape(unsimplified);
    FixSymmetryCorrectedKeepsCube(cube, unsimplified);
    r := Solved(FixSymmetry(unsimplified), unsimplified);
  }
}
