/**
  The last-layer stages of the quick solver. After the bottom face is one
  colour, orientation (OLL) recognises the top layer against seven stored
  sticker patterns, turning the top face until one fits, and applies that
  pattern's algorithm; permutation (PLL) classifies which side faces have a
  one-colour top or bottom row, lines them up in front with U or D turns and
  applies one of eight stored algorithms.
 */
module LastLayer {
  import opened Wrappers
  import opened Faces
  import opened Moves
  import opened Cubes
  import opened TurnAlgebra

  /** A cube together with the move list that has been built so far. */
  datatype Stage = Stage(cube: Cube, moves: seq<Move>)

  // ---------------------------------------------------------------------------
  // Pattern recognition
  // ---------------------------------------------------------------------------

  /**
    The twelve stickers a pattern talks about, in pattern order: the four
    tiles of the top face, then the top row of faces 0, 1, 2 and 3.
   */
  function PatternStickers(c: Cube): (s: seq<int>)
    ensures |s| == 12
  {
    Tiles(c.f4) + [c.f0.t0, c.f0.t1, c.f1.t0, c.f1.t1, c.f2.t0, c.f2.t1, c.f3.t0, c.f3.t1]
  }

  /** Entry k of the pattern says whether sticker k has the given colour. */
  predicate MatchesPattern(pattern: seq<bool>, color: int, c: Cube)
    requires |pattern| == 12
  {
    forall k :: 0 <= k < 12 ==> pattern[k] == (PatternStickers(c)[k] == color)
  }

  /**
    The first number of clockwise top turns, from s on, after which the cube
    matches the pattern; 4 when none of the four orientations does.
   */
  function Orientation(pattern: seq<bool>, color: int, c: Cube, s: nat): (o: nat)
    requires |pattern| == 12 && s <= 4
    ensures s <= o <= 4
    ensures o < 4 ==> MatchesPattern(pattern, color, Power(c, 1, o))
    ensures forall k :: s <= k < o ==> !MatchesPattern(pattern, color, Power(c, 1, k))
    decreases 4 - s
  {
    if s == 4 then 4
    else if MatchesPattern(pattern, color, Power(c, 1, s)) then s
    else Orientation(pattern, color, c, s + 1)
  }

  /** The move recorded for t clockwise top turns: none, U, U2 or U'. */
  function OrientPrefix(t: int): seq<Move>
  {
    if t <= 0 then [] else if t == 1 then [U] else if t == 2 then [U2] else [UP]
  }

  /** The recorded move does what the t top turns did. */
  lemma OrientPrefixIsTurns(c: Cube, t: int)
    requires 0 <= t < 4
    ensures ApplyMoves(c, OrientPrefix(t)) == Power(c, 1, t)
  {
    if t > 0 {
      var m := OrientPrefix(t)[0];
      MoveIsPower(c, m);
      assert ApplyMoves(c, OrientPrefix(t)) == ApplyMoves(ApplyMove(c, m), []);
    }
  }

  datatype PatternError = PatternOfWrongLength

  /** The outcome of a pattern probe: whether it matched, the cube after it and the move list. */
  datatype Probe = Probe(found: bool, cube: Cube, moves: seq<Move>)

  /**
    Tries the four orientations of the top face, turning it clockwise after
    each miss. On a match the cube is left turned and the equivalent move is
    recorded; after four misses the cube is back where it started. A pattern
    of any length other than 12 is an error.
   */
  method CheckForPatternAndOrientUpFace(pattern: seq<bool>, color: int, cube: Cube, moves: seq<Move>)
    returns (r: Result<Probe, PatternError>)
    ensures r.Err? <==> |pattern| != 12
    ensures r.Ok? ==> var o := Orientation(pattern, color, cube, 0);
      && (r.value.found <==> o < 4)
      && (o < 4 ==> r.value.cube == Power(cube, 1, o) && r.value.moves == moves + OrientPrefix(o))
      && (o == 4 ==> r.value.cube == cube && r.value.moves == moves)
  {
    if |pattern| != 12 {
      return Err(PatternOfWrongLength);
    }
    var current := cube;
    var i := 0;
    while i < 4
      invariant 0 <= i <= 4
      invariant current == Power(cube, 1, i)
      invariant Orientation(pattern, color, cube, 0) == Orientation(pattern, color, cube, i)
    {
      if MatchesPattern(pattern, color, current) {
        return Ok(Probe(true, current, moves + OrientPrefix(i)));
      }
      PowerAdd(cube, 1, i, 1);
      current := RotateUClock(current);
      i := i + 1;
    }
    PowerFour(cube, 1);
    return Ok(Probe(false, current, moves));
  }

  // ---------------------------------------------------------------------------
  // Orientation of the last layer
  // ---------------------------------------------------------------------------

  /** A stored orientation case: the sticker pattern and the algorithm that solves it. */
  datatype OllCase = OllCase(pattern: seq<bool>, algorithm: seq<Move>)

  /** The seven cases, in the order they are tried. */
  const OllCases: seq<OllCase> := [
    OllCase([false, false, true, false, false, false, false, true, false, true, false, true],
            [R, U, RP, U, R, U2, RP]),
    OllCase([false, true, false, false, true, false, true, false, true, false, false, false],
            [R, U2, RP, UP, R, UP, RP]),
    OllCase([false, false, false, false, false, false, true, true, false, false, true, true],
            [R2, U2, R, U2, R2]),
    OllCase([false, true, false, true, true, true, false, false, false, false, false, false],
            [F, R, U, RP, UP, FP]),
    OllCase([false, false, false, false, true, true, false, true, false, false, true, false],
            [F, R, U, RP, UP, R, U, RP, UP, FP]),
    OllCase([true, false, false, true, false, false, true, false, false, true, false, false],
            [F, RP, FP, R, U, R, UP, RP]),
    OllCase([false, true, false, true, false, false, true, false, false, false, false, true],
            [R, U, RP, UP, RP, F, R, FP])
  ]

  /** Every stored pattern has the twelve entries a probe demands. */
  lemma OllPatternsWellFormed()
    ensures |OllCases| == 7
    ensures forall k :: 0 <= k < |OllCases| ==> |OllCases[k].pattern| == 12
  {
  }

  /** For each stored case, the top turns after which it fits; 4 when it never does. */
  function OllOrientations(colorTop: int, cube: Cube): (os: seq<nat>)
    ensures |os| == 7
  {
    OllPatternsWellFormed();
    seq(7, k requires 0 <= k < 7 => Orientation(OllCases[k].pattern, colorTop, cube, 0))
  }

  /** The first case from k on whose orientation is below 4, or |os| when none is. */
  function OllChoice(os: seq<nat>, k: nat): (j: nat)
    requires k <= |os|
    ensures k <= j <= |os|
    decreases |os| - k
  {
    if k == |os| then k
    else if os[k] < 4 then k
    else OllChoice(os, k + 1)
  }

  /** The chosen case fits, and no case tried before it does. */
  lemma {:induction false} OllChoiceIsFirstFit(os: seq<nat>, k: nat)
    requires k <= |os|
    ensures var j := OllChoice(os, k);
      && (j < |os| ==> os[j] < 4)
      && (forall i :: k <= i < j ==> os[i] >= 4)
    decreases |os| - k
  {
    if k < |os| && os[k] >= 4 {
      OllChoiceIsFirstFit(os, k + 1);
    }
  }

  /**
    Orients the last layer: probes the stored cases in order and applies the
    first that fits, after the top turns that made it fit. The moves added
    to the list are exactly the moves applied to the cube.
   */
  method DoOLL(cube: Cube, moves: seq<Move>, colorTop: int) returns (r: Stage)
    ensures |moves| <= |r.moves| && r.moves[..|moves|] == moves
    ensures r.cube == ApplyMoves(cube, r.moves[|moves|..])
    ensures var os := OllOrientations(colorTop, cube);
      var k := OllChoice(os, 0);
      && (k == 7 ==> r == Stage(cube, moves))
      && (k < 7 ==>
            var added := OrientPrefix(os[k]) + OllCases[k].algorithm;
            r == Stage(ApplyMoves(cube, added), moves + added))
  {
    OllPatternsWellFormed();
    var os := OllOrientations(colorTop, cube);
    var k := 0;
    while k < 7
      invariant 0 <= k <= 7
      invariant OllChoice(os, 0) == OllChoice(os, k)
    {
      var pattern, algorithm := OllCases[k].pattern, OllCases[k].algorithm;
      var probe := CheckForPatternAndOrientUpFace(pattern, colorTop, cube, moves);
      assert probe.Ok?;
      if probe.value.found {
        var o := Orientation(pattern, colorTop, cube, 0);
        AppendAfterOrientation(cube, moves, o, algorithm);
        assert (moves + (OrientPrefix(o) + algorithm))[|moves|..] == OrientPrefix(o) + algorithm;
        return Stage(ApplyMoves(probe.value.cube, algorithm), probe.value.moves + algorithm);
      }
      k := k + 1;
    }
    return Stage(cube, moves);
  }

  /** Applying an algorithm after the orientation turns is applying both from the start. */
  lemma AppendAfterOrientation(cube: Cube, moves: seq<Move>, o: int, algorithm: seq<Move>)
    requires 0 <= o < 4
    ensures ApplyMoves(Power(cube, 1, o), algorithm) == ApplyMoves(cube, OrientPrefix(o) + algorithm)
    ensures moves + OrientPrefix(o) + algorithm == moves + (OrientPrefix(o) + algorithm)
  {
    OrientPrefixIsTurns(cube, o);
    ApplyMovesAppend(cube, OrientPrefix(o), algorithm);
  }

  // ---------------------------------------------------------------------------
  // Permutation of the last layer
  // ---------------------------------------------------------------------------

  /** Whether the top row (tiles 0, 1) or the bottom row (tiles 2, 3) of a face is one colour. */
  predicate RowIsPair(f: Face, top: bool)
  {
    if top then f.t0 == f.t1 else f.t2 == f.t3
  }

  /**
    The classification scan over side faces 0 .. n - 1: -1 when no face has
    a one-colour row, the face when exactly one has, -2 when several have.
   */
  function PairedRowFace(c: Cube, top: bool, n: nat): (r: int)
    requires n <= 4
    ensures -2 <= r < n
    ensures r == -1 <==> forall k :: 0 <= k < n ==> !RowIsPair(FaceAt(c, k), top)
    ensures r >= 0 ==>
      && RowIsPair(FaceAt(c, r), top)
      && forall k :: 0 <= k < n && k != r ==> !RowIsPair(FaceAt(c, k), top)
    ensures r == -2 <==> exists k, l :: 0 <= k < l < n && RowIsPair(FaceAt(c, k), top) && RowIsPair(FaceAt(c, l), top)
  {
    if n == 0 then -1
    else
      var previous := PairedRowFace(c, top, n - 1);
      if RowIsPair(FaceAt(c, n - 1), top) then (if previous == -1 then n - 1 else -2)
      else previous
  }

  /**
    An alignment turn is added only for a single paired row on face 0, 2 or 3:
    U' (D), U (D') or U2 (D2) respectively.
   */
  lemma AlignOnlyOffFront(t: int)
    requires -2 <= t < 4
    ensures |AlignTop(t)| <= 1 && |AlignBottom(t)| <= 1
    ensures AlignTop(t) != [] <==> t == 0 || t == 2 || t == 3
    ensures AlignBottom(t) != [] <==> t == 0 || t == 2 || t == 3
    ensures t == 0 ==> AlignTop(t) == [UP] && AlignBottom(t) == [D]
    ensures t == 2 ==> AlignTop(t) == [U] && AlignBottom(t) == [DP]
    ensures t == 3 ==> AlignTop(t) == [U2] && AlignBottom(t) == [D2]
  {
  }

  /** The top turn that brings the one paired top row to face 1. */
  function AlignTop(top: int): seq<Move>
  {
    if -1 < top && 1 != top then [if top == 0 then UP else if top == 2 then U else U2] else []
  }

  /** The bottom turn that brings the one paired bottom row to face 1. */
  function AlignBottom(bottom: int): seq<Move>
  {
    if -1 < bottom && 1 != bottom then [if bottom == 0 then D else if bottom == 2 then DP else D2] else []
  }

  /** The stored permutation algorithms, added by eight independent tests. */
  function CannedPll(top: int, bottom: int): seq<Move>
  {
    (if -1 < top && -1 < bottom then [R2, UP, B2, U2, R2, UP, R2] else [])
    + (if -1 < top && -1 == bottom then [R, UP, R, F2, RP, U, RP] else [])
    + (if -1 < top && -2 == bottom then [RP, U, RP, F2, R, FP, RP, F2, R2] else [])
    + (if -1 == top && -1 < bottom then [L, DP, L, F2, LP, D, LP] else [])
    + (if -1 == top && -1 == bottom then [R2, F2, R2] else [])
    + (if -1 == top && -2 == bottom then [R, UP, RP, UP, F2, UP, R, U, RP, D, R2] else [])
    + (if -2 == top && -1 < bottom then [LP, D, LP, F2, L, FP, LP, F2, L2] else [])
    + (if -2 == top && -1 == bottom then [L, DP, LP, DP, F2, DP, L, D, LP, U, L2] else [])
  }

  /** How many side faces have a one-colour row, as far as the permutation step cares. */
  datatype RowClass = NoPair | OnePair | SeveralPairs

  function ClassOf(r: int): RowClass
  {
    if r == -1 then NoPair else if r == -2 then SeveralPairs else OnePair
  }

  /** The permutation algorithm for each pair of classes, as a table. */
  function PllAlgorithm(top: RowClass, bottom: RowClass): seq<Move>
  {
    match (top, bottom)
    case (OnePair, OnePair) => [R2, UP, B2, U2, R2, UP, R2]
    case (OnePair, NoPair) => [R, UP, R, F2, RP, U, RP]
    case (OnePair, SeveralPairs) => [RP, U, RP, F2, R, FP, RP, F2, R2]
    case (NoPair, OnePair) => [L, DP, L, F2, LP, D, LP]
    case (NoPair, NoPair) => [R2, F2, R2]
    case (NoPair, SeveralPairs) => [R, UP, RP, UP, F2, UP, R, U, RP, D, R2]
    case (SeveralPairs, OnePair) => [LP, D, LP, F2, L, FP, LP, F2, L2]
    case (SeveralPairs, NoPair) => [L, DP, LP, DP, F2, DP, L, D, LP, U, L2]
    case (SeveralPairs, SeveralPairs) => []
  }

  /**
    The eight tests are mutually exclusive: for every classification at
    most one fires, so the stored algorithms behave as a table, and nothing
    is added exactly when both layers have several paired rows.
   */
  lemma CannedPllIsTable(top: int, bottom: int)
    requires -2 <= top && -2 <= bottom
    ensures CannedPll(top, bottom) == PllAlgorithm(ClassOf(top), ClassOf(bottom))
    ensures CannedPll(top, bottom) == [] <==> top == -2 && bottom == -2
  {
  }

  /** The moves of the permutation step for a cube. */
  function PllMoves(c: Cube): seq<Move>
  {
    var top, bottom := PairedRowFace(c, true, 4), PairedRowFace(c, false, 4);
    AlignTop(top) + AlignBottom(bottom) + CannedPll(top, bottom)
  }

  /**
    Permutes the last layer. The moves added are the moves applied; the
    step adds at most thirteen moves, and adds none exactly when at least two
    side faces have a paired top row and at least two a paired bottom row.
   */
  function DoPLL(cube: Cube, moves: seq<Move>): (r: Stage)
    ensures |moves| <= |r.moves| <= |moves| + 13
    ensures r.moves[..|moves|] == moves && r.cube == ApplyMoves(cube, r.moves[|moves|..])
    ensures r.moves == moves <==>
      PairedRowFace(cube, true, 4) == -2 && PairedRowFace(cube, false, 4) == -2
    ensures var top, bottom := PairedRowFace(cube, true, 4), PairedRowFace(cube, false, 4);
      r.moves[|moves|..] == AlignTop(top) + AlignBottom(bottom) + PllAlgorithm(ClassOf(top), ClassOf(bottom))
  {
    var top, bottom := PairedRowFace(cube, true, 4), PairedRowFace(cube, false, 4);
    CannedPllIsTable(top, bottom);
    var pll := PllMoves(cube);
    assert (moves + pll)[|moves|..] == pll;
    Stage(ApplyMoves(cube, pll), moves + pll)
  }

  /** Top turns carry top rows from face to face and leave every bottom row of face 1 alone. */
  lemma TopTurnsMoveTopRows(c: Cube)
    ensures RowIsPair(RotateUClock(c).f1, true) == RowIsPair(c.f2, true)
    ensures RowIsPair(RotateUCounterClock(c).f1, true) == RowIsPair(c.f0, true)
    ensures RowIsPair(RotateUHalf(c).f1, true) == RowIsPair(c.f3, true)
    ensures RowIsPair(RotateUClock(c).f1, false) == RowIsPair(c.f1, false)
    ensures RowIsPair(RotateUCounterClock(c).f1, false) == RowIsPair(c.f1, false)
    ensures RowIsPair(RotateUHalf(c).f1, false) == RowIsPair(c.f1, false)
  {
  }

  /** Bottom turns carry bottom rows from face to face and leave the top row of face 1 alone. */
  lemma BottomTurnsMoveBottomRows(c: Cube)
    ensures RowIsPair(RotateDClock(c).f1, false) == RowIsPair(c.f0, false)
    ensures RowIsPair(RotateDCounterClock(c).f1, false) == RowIsPair(c.f2, false)
    ensures RowIsPair(RotateDHalf(c).f1, false) == RowIsPair(c.f3, false)
    ensures RowIsPair(RotateDClock(c).f1, true) == RowIsPair(c.f1, true)
    ensures RowIsPair(RotateDCounterClock(c).f1, true) == RowIsPair(c.f1, true)
    ensures RowIsPair(RotateDHalf(c).f1, true) == RowIsPair(c.f1, true)
  {
  }

  /**
    The top alignment brings the one paired top row to face 1 and leaves the
    bottom rows, and so the bottom classification, as they were.
   */
  lemma AlignTopWorks(c: Cube)
    ensures var top := PairedRowFace(c, true, 4);
      var mid := ApplyMoves(c, AlignTop(top));
      && (top >= 0 ==> RowIsPair(mid.f1, true))
      && PairedRowFace(mid, false, 4) == PairedRowFace(c, false, 4)
  {
    var top := PairedRowFace(c, true, 4);
    var a := AlignTop(top);
    var mid := ApplyMoves(c, a);
    TopTurnsMoveTopRows(c);
    if |a| == 1 {
      assert mid == ApplyMoves(ApplyMove(c, a[0]), a[1..]);
      assert a[1..] == [];
    }
    assert forall k :: 0 <= k < 4 ==> RowIsPair(FaceAt(mid, k), false) == RowIsPair(FaceAt(c, k), false);
  }

  /** The bottom alignment brings the one paired bottom row to face 1 and keeps its top row's state. */
  lemma AlignBottomWorks(c: Cube)
    ensures var bottom := PairedRowFace(c, false, 4);
      var aligned := ApplyMoves(c, AlignBottom(bottom));
      && (bottom >= 0 ==> RowIsPair(aligned.f1, false))
      && RowIsPair(aligned.f1, true) == RowIsPair(c.f1, true)
  {
    var b := AlignBottom(PairedRowFace(c, false, 4));
    BottomTurnsMoveBottomRows(c);
    if |b| == 1 {
      assert ApplyMoves(c, b) == ApplyMoves(ApplyMove(c, b[0]), []);
    }
  }

  /**
    The alignment turns do their job: when exactly one side face has a paired
    top row, after them face 1 has it; likewise for the bottom row; so each
    stored algorithm meets its pairs at the front.
   */
  lemma AlignmentBringsPairsToFront(c: Cube)
    ensures var top, bottom := PairedRowFace(c, true, 4), PairedRowFace(c, false, 4);
      var aligned := ApplyMoves(c, AlignTop(top) + AlignBottom(bottom));
      (top >= 0 ==> RowIsPair(aligned.f1, true)) && (bottom >= 0 ==> RowIsPair(aligned.f1, false))
  {
    var top, bottom := PairedRowFace(c, true, 4), PairedRowFace(c, false, 4);
    var a, b := AlignTop(top), AlignBottom(bottom);
    ApplyMovesAppend(c, a, b);
    AlignTopWorks(c);
    AlignBottomWorks(ApplyMoves(c, a));
  }
}
