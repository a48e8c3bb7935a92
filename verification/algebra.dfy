/**
  Facts about the turn engine: each turn only permutes stickers, the two
  quarter turns of a face undo each other, a half turn is two clockwise
  quarter turns, and so every move is a power of its face's clockwise turn.
 */
module TurnAlgebra {
  import opened Faces
  import opened Moves
  import opened Cubes

  /** How many of the cube's 24 stickers have colour x. */
  function ColorCount(c: Cube, x: int): nat
  {
    FaceCount(c.f0, x) + FaceCount(c.f1, x) + FaceCount(c.f2, x)
      + FaceCount(c.f3, x) + FaceCount(c.f4, x) + FaceCount(c.f5, x)
  }

  /** The count is the multiplicity of x in the sticker sequence. */
  lemma ColorCountIsMultiplicity(c: Cube, x: int)
    ensures multiset(Stickers(c))[x] == ColorCount(c, x)
  {
    var s0, s1, s2, s3, s4, s5 := Tiles(c.f0), Tiles(c.f1), Tiles(c.f2), Tiles(c.f3), Tiles(c.f4), Tiles(c.f5);
    assert multiset(Stickers(c))
      == multiset(s0) + multiset(s1) + multiset(s2) + multiset(s3) + multiset(s4) + multiset(s5);
    FaceCountIsMultiplicity(c.f0, x);
    FaceCountIsMultiplicity(c.f1, x);
    FaceCountIsMultiplicity(c.f2, x);
    FaceCountIsMultiplicity(c.f3, x);
    FaceCountIsMultiplicity(c.f4, x);
    FaceCountIsMultiplicity(c.f5, x);
  }

  /** A clockwise quarter turn of any face keeps the count of every colour. */
  lemma QuarterKeepsCounts(c: Cube, g: int, x: int)
    requires 0 <= g < 6
    ensures ColorCount(Quarter(c, g), x) == ColorCount(c, x)
  {
    if g < 3 {
      assert Quarter(c, g) == if g == 0 then RotateRClock(c) else if g == 1 then RotateUClock(c) else RotateFClock(c);
    } else {
      assert Quarter(c, g) == if g == 3 then RotateLClock(c) else if g == 4 then RotateDClock(c) else RotateBClock(c);
    }
  }

  /** So does any number of them. */
  lemma {:induction false} PowerKeepsCounts(c: Cube, g: int, k: nat, x: int)
    requires 0 <= g < 6
    ensures ColorCount(Power(c, g, k), x) == ColorCount(c, x)
    decreases k
  {
    if k > 0 {
      QuarterKeepsCounts(c, g, x);
      PowerKeepsCounts(Quarter(c, g), g, k - 1, x);
    }
  }

  /** Every one of the 18 turns keeps the count of every colour. */
  lemma ApplyMoveKeepsCounts(c: Cube, m: Move, x: int)
    ensures ColorCount(ApplyMove(c, m), x) == ColorCount(c, x)
  {
    MoveIsPower(c, m);
    PowerKeepsCounts(c, Group(m), QuarterCount(m), x);
  }

  /** Every move permutes the 24 stickers: the bag of colours is unchanged. */
  lemma ApplyMovePermutes(c: Cube, m: Move)
    ensures multiset(Stickers(ApplyMove(c, m))) == multiset(Stickers(c))
  {
    var after := ApplyMove(c, m);
    forall x
      ensures multiset(Stickers(after))[x] == multiset(Stickers(c))[x]
    {
      ApplyMoveKeepsCounts(c, m, x);
      ColorCountIsMultiplicity(after, x);
      ColorCountIsMultiplicity(c, x);
    }
    MultisetExtensionality(multiset(Stickers(after)), multiset(Stickers(c)));
  }

  /**
    Turns of the back face (face 3): the two quarter turns undo each other in either
    order, the half turn equals two clockwise quarter turns, and two half
    turns restore the cube.
   */
  lemma BackTurnIdentities(c: Cube)
    ensures RotateBCounterClock(RotateBClock(c)) == c
    ensures RotateBClock(RotateBCounterClock(c)) == c
    ensures RotateBHalf(c) == RotateBClock(RotateBClock(c))
    ensures RotateBHalf(RotateBHalf(c)) == c
  {
  }

  /**
    Turns of the front face (face 1): the two quarter turns undo each other in either
    order, the half turn equals two clockwise quarter turns, and two half
    turns restore the cube.
   */
  lemma FrontTurnIdentities(c: Cube)
    ensures RotateFCounterClock(RotateFClock(c)) == c
    ensures RotateFClock(RotateFCounterClock(c)) == c
    ensures RotateFHalf(c) == RotateFClock(RotateFClock(c))
    ensures RotateFHalf(RotateFHalf(c)) == c
  {
  }

  /**
    Turns of the left face (face 0): the two quarter turns undo each other in either
    order, the half turn equals two clockwise quarter turns, and two half
    turns restore the cube.
   */
  lemma LeftTurnIdentities(c: Cube)
    ensures RotateLCounterClock(RotateLClock(c)) == c
    ensures RotateLClock(RotateLCounterClock(c)) == c
    ensures RotateLHalf(c) == RotateLClock(RotateLClock(c))
    ensures RotateLHalf(RotateLHalf(c)) == c
  {
  }

  /**
    Turns of the right face (face 2): the two quarter turns undo each other in either
    order, the half turn equals two clockwise quarter turns, and two half
    turns restore the cube.
   */
  lemma RightTurnIdentities(c: Cube)
    ensures RotateRCounterClock(RotateRClock(c)) == c
    ensures RotateRClock(RotateRCounterClock(c)) == c
    ensures RotateRHalf(c) == RotateRClock(RotateRClock(c))
    ensures RotateRHalf(RotateRHalf(c)) == c
  {
  }

  /**
    Turns of the bottom face (face 5): the two quarter turns undo each other in either
    order, the half turn equals two clockwise quarter turns, and two half
    turns restore the cube.
   */
  lemma DownTurnIdentities(c: Cube)
    ensures RotateDCounterClock(RotateDClock(c)) == c
    ensures RotateDClock(RotateDCounterClock(c)) == c
    ensures RotateDHalf(c) == RotateDClock(RotateDClock(c))
    ensures RotateDHalf(RotateDHalf(c)) == c
  {
  }

  /**
    Turns of the top face (face 4): the two quarter turns undo each other in either
    order, the half turn equals two clockwise quarter turns, and two half
    turns restore the cube.
   */
  lemma UpTurnIdentities(c: Cube)
    ensures RotateUCounterClock(RotateUClock(c)) == c
    ensures RotateUClock(RotateUCounterClock(c)) == c
    ensures RotateUHalf(c) == RotateUClock(RotateUClock(c))
    ensures RotateUHalf(RotateUHalf(c)) == c
  {
  }

  /** Sticker counts are kept by any sequence of moves. */
  lemma {:induction false} ApplyMovesKeepsCounts(c: Cube, moves: seq<Move>, x: int)
    ensures ColorCount(ApplyMoves(c, moves), x) == ColorCount(c, x)
    decreases |moves|
  {
    if |moves| > 0 {
      ApplyMoveKeepsCounts(c, moves[0], x);
      ApplyMovesKeepsCounts(ApplyMove(c, moves[0]), moves[1..], x);
    }
  }

  /** Any sequence of moves permutes the 24 stickers. */
  lemma ApplyMovesPermutes(c: Cube, moves: seq<Move>)
    ensures multiset(Stickers(ApplyMoves(c, moves))) == multiset(Stickers(c))
  {
    var after := ApplyMoves(c, moves);
    forall x
      ensures multiset(Stickers(after))[x] == multiset(Stickers(c))[x]
    {
      ApplyMovesKeepsCounts(c, moves, x);
      ColorCountIsMultiplicity(after, x);
      ColorCountIsMultiplicity(c, x);
    }
    MultisetExtensionality(multiset(Stickers(after)), multiset(Stickers(c)));
  }

  /** A cube reached from the fresh cube holds exactly four stickers of each colour 0..5. */
  lemma ReachableHasFourOfEachColor(moves: seq<Move>, x: int)
    ensures ColorCount(ApplyMoves(NewCube(), moves), x) == if 0 <= x < 6 then 4 else 0
  {
    ApplyMovesKeepsCounts(NewCube(), moves, x);
    NewCubeCounts(x);
  }

  /** The fresh cube holds four stickers of each colour 0..5 and none of any other. */
  lemma NewCubeCounts(x: int)
    ensures ColorCount(NewCube(), x) == if 0 <= x < 6 then 4 else 0
  {
    var c := NewCube();
    assert c.f0 == Uniform(0) && c.f1 == Uniform(1) && c.f2 == Uniform(2);
    assert c.f3 == Uniform(3) && c.f4 == Uniform(4) && c.f5 == Uniform(5);
  }

  /** Applying a concatenation applies its parts in order. */
  lemma {:induction false} ApplyMovesAppend(c: Cube, a: seq<Move>, b: seq<Move>)
    ensures ApplyMoves(c, a + b) == ApplyMoves(ApplyMoves(c, a), b)
    decreases |a|
  {
    if |a| > 0 {
      assert (a + b)[1..] == a[1..] + b;
      ApplyMovesAppend(ApplyMove(c, a[0]), a[1..], b);
    } else {
      assert a + b == b;
    }
  }

  /** One more move at the end of the list is one more turn at the end. */
  lemma ApplyMovesSnoc(c: Cube, a: seq<Move>, m: Move)
    ensures ApplyMoves(c, a + [m]) == ApplyMove(ApplyMoves(c, a), m)
  {
    ApplyMovesAppend(c, a, [m]);
  }

  /** The clockwise quarter turn of face group g (0 R, 1 U, 2 F, 3 L, 4 D, 5 B). */
  function Quarter(c: Cube, g: int): (r: Cube)
    requires 0 <= g < 6
    ensures r == ApplyMove(c, FromIndex(3 * g))
  {
    match g
    case 0 => RotateRClock(c)
    case 1 => RotateUClock(c)
    case 2 => RotateFClock(c)
    case 3 => RotateLClock(c)
    case 4 => RotateDClock(c)
    case 5 => RotateBClock(c)
  }

  /** k clockwise quarter turns of face group g. */
  function Power(c: Cube, g: int, k: nat): Cube
    requires 0 <= g < 6
    decreases k
  {
    if k == 0 then c else Power(Quarter(c, g), g, k - 1)
  }

  /** Quarter turns of one face add up. */
  lemma {:induction false} PowerAdd(c: Cube, g: int, a: nat, b: nat)
    requires 0 <= g < 6
    ensures Power(Power(c, g, a), g, b) == Power(c, g, a + b)
    decreases a
  {
    if a > 0 {
      PowerAdd(Quarter(c, g), g, a - 1, b);
    }
  }

  /** The right face's turns as powers of its clockwise quarter turn. */
  lemma RightPowers(c: Cube)
    ensures RotateRCounterClock(c) == Power(c, 0, 3)
    ensures RotateRHalf(c) == Power(c, 0, 2)
    ensures Power(c, 0, 4) == c
  {
    var d := RotateRCounterClock(c);
    RightTurnIdentities(c);
    RightTurnIdentities(d);
    RightTurnIdentities(RotateRHalf(c));
    assert Power(c, 0, 2) == RotateRClock(RotateRClock(c));
    assert Power(c, 0, 3) == RotateRClock(RotateRClock(RotateRClock(c)));
    assert Power(c, 0, 4) == RotateRHalf(RotateRHalf(c));
    assert RotateRClock(d) == c;
    assert Power(c, 0, 3) == Power(d, 0, 4);
    RightTurnIdentities(RotateRHalf(d));
    assert Power(d, 0, 4) == RotateRHalf(RotateRHalf(d));
  }

  /** The up face's turns as powers of its clockwise quarter turn. */
  lemma UpPowers(c: Cube)
    ensures RotateUCounterClock(c) == Power(c, 1, 3)
    ensures RotateUHalf(c) == Power(c, 1, 2)
    ensures Power(c, 1, 4) == c
  {
    var d := RotateUCounterClock(c);
    UpTurnIdentities(c);
    UpTurnIdentities(d);
    UpTurnIdentities(RotateUHalf(c));
    assert Power(c, 1, 2) == RotateUClock(RotateUClock(c));
    assert Power(c, 1, 3) == RotateUClock(RotateUClock(RotateUClock(c)));
    assert Power(c, 1, 4) == RotateUHalf(RotateUHalf(c));
    assert RotateUClock(d) == c;
    assert Power(c, 1, 3) == Power(d, 1, 4);
    UpTurnIdentities(RotateUHalf(d));
    assert Power(d, 1, 4) == RotateUHalf(RotateUHalf(d));
  }

  /** The front face's turns as powers of its clockwise quarter turn. */
  lemma FrontPowers(c: Cube)
    ensures RotateFCounterClock(c) == Power(c, 2, 3)
    ensures RotateFHalf(c) == Power(c, 2, 2)
    ensures Power(c, 2, 4) == c
  {
    var d := RotateFCounterClock(c);
    FrontTurnIdentities(c);
    FrontTurnIdentities(d);
    FrontTurnIdentities(RotateFHalf(c));
    assert Power(c, 2, 2) == RotateFClock(RotateFClock(c));
    assert Power(c, 2, 3) == RotateFClock(RotateFClock(RotateFClock(c)));
    assert Power(c, 2, 4) == RotateFHalf(RotateFHalf(c));
    assert RotateFClock(d) == c;
    assert Power(c, 2, 3) == Power(d, 2, 4);
    FrontTurnIdentities(RotateFHalf(d));
    assert Power(d, 2, 4) == RotateFHalf(RotateFHalf(d));
  }

  /** The left face's turns as powers of its clockwise quarter turn. */
  lemma LeftPowers(c: Cube)
    ensures RotateLCounterClock(c) == Power(c, 3, 3)
    ensures RotateLHalf(c) == Power(c, 3, 2)
    ensures Power(c, 3, 4) == c
  {
    var d := RotateLCounterClock(c);
    LeftTurnIdentities(c);
    LeftTurnIdentities(d);
    LeftTurnIdentities(RotateLHalf(c));
    assert Power(c, 3, 2) == RotateLClock(RotateLClock(c));
    assert Power(c, 3, 3) == RotateLClock(RotateLClock(RotateLClock(c)));
    assert Power(c, 3, 4) == RotateLHalf(RotateLHalf(c));
    assert RotateLClock(d) == c;
    assert Power(c, 3, 3) == Power(d, 3, 4);
    LeftTurnIdentities(RotateLHalf(d));
    assert Power(d, 3, 4) == RotateLHalf(RotateLHalf(d));
  }

  /** The down face's turns as powers of its clockwise quarter turn. */
  lemma DownPowers(c: Cube)
    ensures RotateDCounterClock(c) == Power(c, 4, 3)
    ensures RotateDHalf(c) == Power(c, 4, 2)
    ensures Power(c, 4, 4) == c
  {
    var d := RotateDCounterClock(c);
    DownTurnIdentities(c);
    DownTurnIdentities(d);
    DownTurnIdentities(RotateDHalf(c));
    assert Power(c, 4, 2) == RotateDClock(RotateDClock(c));
    assert Power(c, 4, 3) == RotateDClock(RotateDClock(RotateDClock(c)));
    assert Power(c, 4, 4) == RotateDHalf(RotateDHalf(c));
    assert RotateDClock(d) == c;
    assert Power(c, 4, 3) == Power(d, 4, 4);
    DownTurnIdentities(RotateDHalf(d));
    assert Power(d, 4, 4) == RotateDHalf(RotateDHalf(d));
  }

  /** The back face's turns as powers of its clockwise quarter turn. */
  lemma BackPowers(c: Cube)
    ensures RotateBCounterClock(c) == Power(c, 5, 3)
    ensures RotateBHalf(c) == Power(c, 5, 2)
    ensures Power(c, 5, 4) == c
  {
    var d := RotateBCounterClock(c);
    BackTurnIdentities(c);
    BackTurnIdentities(d);
    BackTurnIdentities(RotateBHalf(c));
    assert Power(c, 5, 2) == RotateBClock(RotateBClock(c));
    assert Power(c, 5, 3) == RotateBClock(RotateBClock(RotateBClock(c)));
    assert Power(c, 5, 4) == RotateBHalf(RotateBHalf(c));
    assert RotateBClock(d) == c;
    assert Power(c, 5, 3) == Power(d, 5, 4);
    BackTurnIdentities(RotateBHalf(d));
    assert Power(d, 5, 4) == RotateBHalf(RotateBHalf(d));
  }

  /**
    Every move is a power of its face's clockwise quarter turn: one for
    clockwise, three for counter-clockwise, two for a half turn; and four
    quarter turns restore the cube.
   */
  lemma MoveIsPower(c: Cube, m: Move)
    ensures ApplyMove(c, m) == Power(c, Group(m), QuarterCount(m))
    ensures Power(c, Group(m), 4) == c
  {
    var g := Group(m);
    if g == 0 { RightPowers(c); }
    else if g == 1 { UpPowers(c); }
    else if g == 2 { FrontPowers(c); }
    else if g == 3 { LeftPowers(c); }
    else if g == 4 { DownPowers(c); }
    else { BackPowers(c); }
  }

  /** Quarter turns clockwise that a move amounts to: 1, 3 or 2. */
  function QuarterCount(m: Move): (q: nat)
    ensures 1 <= q <= 3
  {
    if Magnitude(m) == 0 then 1 else if Magnitude(m) == 1 then 3 else 2
  }

  /** Four clockwise quarter turns of any face restore the cube. */
  lemma PowerFour(c: Cube, g: int)
    requires 0 <= g < 6
    ensures Power(c, g, 4) == c
  {
    if g == 0 { RightPowers(c); }
    else if g == 1 { UpPowers(c); }
    else if g == 2 { FrontPowers(c); }
    else if g == 3 { LeftPowers(c); }
    else if g == 4 { DownPowers(c); }
    else { BackPowers(c); }
  }

  /** k quarter turns are k mod 4 quarter turns. */
  lemma {:induction false} PowerMod(c: Cube, g: int, k: nat)
    requires 0 <= g < 6
    ensures Power(c, g, k) == Power(c, g, k % 4)
    decreases k
  {
    if k >= 4 {
      PowerFour(c, g);
      PowerAdd(c, g, 4, k - 4);
      PowerMod(c, g, k - 4);
      assert (k - 4) % 4 == k % 4;
    }
  }
}
