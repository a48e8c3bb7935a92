/**
  The cube: six faces, 0..3 the ring (left, front, right, back, each
  adjacent to the next), 4 the top and 5 the bottom. Every turn is a fixed
  chain of edge exchanges that carries a two-sticker buffer from face to face
  and closes on the face it started from, plus a rotation of the turning
  face itself. The first exchange of a chain is fed the placeholder pair
  (-1, -1), which the closing exchange overwrites.
 */
module Cubes {
  import opened Faces
  import opened Moves

  datatype Cube = Cube(f0: Face, f1: Face, f2: Face, f3: Face, f4: Face, f5: Face)

  /** The placeholder buffer that opens every chain. */
  const Empty: Pair := Pair(-1, -1)

  /** Face number i. */
  function FaceAt(c: Cube, i: int): Face
    requires 0 <= i < 6
  {
    match i
    case 0 => c.f0
    case 1 => c.f1
    case 2 => c.f2
    case 3 => c.f3
    case 4 => c.f4
    case _ => c.f5
  }

  /** All 24 stickers, face by face. */
  function Stickers(c: Cube): (s: seq<int>)
    ensures |s| == 24
  {
    Tiles(c.f0) + Tiles(c.f1) + Tiles(c.f2) + Tiles(c.f3) + Tiles(c.f4) + Tiles(c.f5)
  }

  /** The fresh cube of the `Cube()` constructor: face i has colour i. */
  function NewCube(): Cube
  {
    Cube(Uniform(0), Uniform(1), Uniform(2), Uniform(3), Uniform(4), Uniform(5))
  }

  /** The colour of face i if it is monochrome, else -1. */
  function Mono(c: Cube, i: int): int
    requires 0 <= i < 6
  {
    IsOneColor(FaceAt(c, i))
  }

  /**
    The solver's scan: walk the faces in order, keeping the colours seen;
    fail on the first face that is not one colour or repeats a colour.
   */
  function SolvedFrom(c: Cube, i: int, prevColors: seq<int>): bool
    requires 0 <= i <= 6 && |prevColors| == i
    decreases 6 - i
  {
    if i == 6 then true
    else
      var res := Mono(c, i);
      if res == -1 || res in prevColors then false
      else SolvedFrom(c, i + 1, prevColors + [res])
  }

  /**
    Given that the colours seen so far are those of faces 0 .. i - 1, all
    distinct and none -1, the scan succeeds exactly when the remaining faces
    are one colour and no remaining face repeats an earlier colour.
   */
  lemma {:induction false} SolvedFromMeans(c: Cube, i: int, prevColors: seq<int>)
    requires 0 <= i <= 6 && |prevColors| == i
    requires forall k :: 0 <= k < i ==> prevColors[k] == Mono(c, k)
    requires forall k :: 0 <= k < i ==> Mono(c, k) != -1
    requires forall k, l :: 0 <= k < l < i ==> Mono(c, k) != Mono(c, l)
    ensures SolvedFrom(c, i, prevColors) <==>
      && (forall k :: i <= k < 6 ==> Mono(c, k) != -1)
      && (forall k, l :: 0 <= k < l < 6 && i <= l ==> Mono(c, k) != Mono(c, l))
    decreases 6 - i
  {
    if i < 6 {
      var res := Mono(c, i);
      if res != -1 && res !in prevColors {
        SolvedFromMeans(c, i + 1, prevColors + [res]);
      } else if res in prevColors {
        var k :| 0 <= k < i && prevColors[k] == res;
        assert Mono(c, k) == Mono(c, i);
      }
    }
  }

  /** Goal test: the solver's scan over the six faces with no colours seen yet. */
  function IsSolved(c: Cube): bool
  {
    SolvedFrom(c, 0, [])
  }

  /** The goal test holds exactly when every face is one colour and no two faces share a colour. */
  lemma IsSolvedMeans(c: Cube)
    ensures IsSolved(c) <==>
      && (forall i :: 0 <= i < 6 ==> Mono(c, i) != -1)
      && (forall i, j :: 0 <= i < j < 6 ==> Mono(c, i) != Mono(c, j))
  {
    SolvedFromMeans(c, 0, []);
  }

  /** The fresh cube has colour i on face i, and is solved. */
  lemma NewCubeIsSolved()
    ensures forall i :: 0 <= i < 6 ==> Mono(NewCube(), i) == i
    ensures IsSolved(NewCube())
  {
    var c := NewCube();
    UniformIsOneColor(0);
    UniformIsOneColor(1);
    UniformIsOneColor(2);
    UniformIsOneColor(3);
    UniformIsOneColor(4);
    UniformIsOneColor(5);
    assert forall i :: 0 <= i < 6 ==> Mono(c, i) == i;
    IsSolvedMeans(c);
  }

  /** A clockwise quarter turn of the back face (face 3). */
  function RotateBClock(c: Cube): Cube
  {
    var s1 := ShiftX(c.f0, true, Empty, false);
    var s2 := ShiftY(c.f5, false, s1.out, true);
    var s3 := ShiftX(c.f2, false, s2.out, false);
    var s4 := ShiftY(c.f4, true, s3.out, true);
    var s5 := ShiftX(s1.face, true, s4.out, false);
    c.(f0 := s5.face, f2 := s3.face, f3 := Rotate(c.f3, true), f4 := s4.face, f5 := s2.face)
  }

  /** A counter-clockwise quarter turn of the back face (face 3). */
  function RotateBCounterClock(c: Cube): Cube
  {
    var s1 := ShiftX(c.f0, true, Empty, true);
    var s2 := ShiftY(c.f4, true, s1.out, false);
    var s3 := ShiftX(c.f2, false, s2.out, true);
    var s4 := ShiftY(c.f5, false, s3.out, false);
    var s5 := ShiftX(s1.face, true, s4.out, false);
    c.(f0 := s5.face, f2 := s3.face, f3 := Rotate(c.f3, false), f4 := s2.face, f5 := s4.face)
  }

  /** A half turn of the back face (face 3). */
  function RotateBHalf(c: Cube): Cube
  {
    var s1 := ShiftX(c.f0, true, Empty, true);
    var s2 := ShiftX(c.f2, false, s1.out, true);
    var s3 := ShiftX(s1.face, true, s2.out, false);
    var s4 := ShiftY(c.f4, true, Empty, true);
    var s5 := ShiftY(c.f5, false, s4.out, true);
    var s6 := ShiftY(s4.face, true, s5.out, false);
    c.(f0 := s3.face, f2 := s2.face, f3 := Rotate(Rotate(c.f3, true), true), f4 := s6.face, f5 := s5.face)
  }

  /** A clockwise quarter turn of the front face (face 1). */
  function RotateFClock(c: Cube): Cube
  {
    var s1 := ShiftX(c.f0, false, Empty, true);
    var s2 := ShiftY(c.f4, false, s1.out, false);
    var s3 := ShiftX(c.f2, true, s2.out, true);
    var s4 := ShiftY(c.f5, true, s3.out, false);
    var s5 := ShiftX(s1.face, false, s4.out, false);
    c.(f0 := s5.face, f1 := Rotate(c.f1, true), f2 := s3.face, f4 := s2.face, f5 := s4.face)
  }

  /** A counter-clockwise quarter turn of the front face (face 1). */
  function RotateFCounterClock(c: Cube): Cube
  {
    var s1 := ShiftX(c.f0, false, Empty, false);
    var s2 := ShiftY(c.f5, true, s1.out, true);
    var s3 := ShiftX(c.f2, true, s2.out, false);
    var s4 := ShiftY(c.f4, false, s3.out, true);
    var s5 := ShiftX(s1.face, false, s4.out, false);
    c.(f0 := s5.face, f1 := Rotate(c.f1, false), f2 := s3.face, f4 := s4.face, f5 := s2.face)
  }

  /** A half turn of the front face (face 1). */
  function RotateFHalf(c: Cube): Cube
  {
    var s1 := ShiftX(c.f0, false, Empty, true);
    var s2 := ShiftX(c.f2, true, s1.out, true);
    var s3 := ShiftX(s1.face, false, s2.out, false);
    var s4 := ShiftY(c.f4, false, Empty, true);
    var s5 := ShiftY(c.f5, true, s4.out, true);
    var s6 := ShiftY(s4.face, false, s5.out, false);
    c.(f0 := s3.face, f1 := Rotate(Rotate(c.f1, true), true), f2 := s2.face, f4 := s6.face, f5 := s5.face)
  }

  /** A clockwise quarter turn of the left face (face 0). */
  function RotateLClock(c: Cube): Cube
  {
    var s1 := ShiftX(c.f1, true, Empty, false);
    var s2 := ShiftX(c.f5, true, s1.out, true);
    var s3 := ShiftX(c.f3, false, s2.out, true);
    var s4 := ShiftX(c.f4, true, s3.out, false);
    var s5 := ShiftX(s1.face, true, s4.out, false);
    c.(f0 := Rotate(c.f0, true), f1 := s5.face, f3 := s3.face, f4 := s4.face, f5 := s2.face)
  }

  /** A counter-clockwise quarter turn of the left face (face 0). */
  function RotateLCounterClock(c: Cube): Cube
  {
    var s1 := ShiftX(c.f1, true, Empty, false);
    var s2 := ShiftX(c.f4, true, s1.out, true);
    var s3 := ShiftX(c.f3, false, s2.out, true);
    var s4 := ShiftX(c.f5, true, s3.out, false);
    var s5 := ShiftX(s1.face, true, s4.out, false);
    c.(f0 := Rotate(c.f0, false), f1 := s5.face, f3 := s3.face, f4 := s2.face, f5 := s4.face)
  }

  /** A half turn of the left face (face 0). */
  function RotateLHalf(c: Cube): Cube
  {
    var s1 := ShiftX(c.f1, true, Empty, true);
    var s2 := ShiftX(c.f3, false, s1.out, true);
    var s3 := ShiftX(s1.face, true, s2.out, false);
    var s4 := ShiftX(c.f4, true, Empty, false);
    var s5 := ShiftX(c.f5, true, s4.out, false);
    var s6 := ShiftX(s4.face, true, s5.out, false);
    c.(f0 := Rotate(Rotate(c.f0, true), true), f1 := s3.face, f3 := s2.face, f4 := s6.face, f5 := s5.face)
  }

  /** A clockwise quarter turn of the right face (face 2). */
  function RotateRClock(c: Cube): Cube
  {
    var s1 := ShiftX(c.f1, false, Empty, false);
    var s2 := ShiftX(c.f4, false, s1.out, true);
    var s3 := ShiftX(c.f3, true, s2.out, true);
    var s4 := ShiftX(c.f5, false, s3.out, false);
    var s5 := ShiftX(s1.face, false, s4.out, false);
    c.(f1 := s5.face, f2 := Rotate(c.f2, true), f3 := s3.face, f4 := s2.face, f5 := s4.face)
  }

  /** A counter-clockwise quarter turn of the right face (face 2). */
  function RotateRCounterClock(c: Cube): Cube
  {
    var s1 := ShiftX(c.f1, false, Empty, false);
    var s2 := ShiftX(c.f5, false, s1.out, true);
    var s3 := ShiftX(c.f3, true, s2.out, true);
    var s4 := ShiftX(c.f4, false, s3.out, false);
    var s5 := ShiftX(s1.face, false, s4.out, false);
    c.(f1 := s5.face, f2 := Rotate(c.f2, false), f3 := s3.face, f4 := s4.face, f5 := s2.face)
  }

  /** A half turn of the right face (face 2). */
  function RotateRHalf(c: Cube): Cube
  {
    var s1 := ShiftX(c.f1, false, Empty, true);
    var s2 := ShiftX(c.f3, true, s1.out, true);
    var s3 := ShiftX(s1.face, false, s2.out, false);
    var s4 := ShiftX(c.f4, false, Empty, false);
    var s5 := ShiftX(c.f5, false, s4.out, false);
    var s6 := ShiftX(s4.face, false, s5.out, false);
    c.(f1 := s3.face, f2 := Rotate(Rotate(c.f2, true), true), f3 := s2.face, f4 := s6.face, f5 := s5.face)
  }

  /** A clockwise quarter turn of the bottom face (face 5). */
  function RotateDClock(c: Cube): Cube
  {
    var s1 := ShiftY(c.f0, false, Empty, false);
    var s2 := ShiftY(c.f1, false, s1.out, false);
    var s3 := ShiftY(c.f2, false, s2.out, false);
    var s4 := ShiftY(c.f3, false, s3.out, false);
    var s5 := ShiftY(s1.face, false, s4.out, false);
    c.(f0 := s5.face, f1 := s2.face, f2 := s3.face, f3 := s4.face, f5 := Rotate(c.f5, true))
  }

  /** A counter-clockwise quarter turn of the bottom face (face 5). */
  function RotateDCounterClock(c: Cube): Cube
  {
    var s1 := ShiftY(c.f0, false, Empty, false);
    var s2 := ShiftY(c.f3, false, s1.out, false);
    var s3 := ShiftY(c.f2, false, s2.out, false);
    var s4 := ShiftY(c.f1, false, s3.out, false);
    var s5 := ShiftY(s1.face, false, s4.out, false);
    c.(f0 := s5.face, f1 := s4.face, f2 := s3.face, f3 := s2.face, f5 := Rotate(c.f5, false))
  }

  /** A half turn of the bottom face (face 5). */
  function RotateDHalf(c: Cube): Cube
  {
    var s1 := ShiftY(c.f0, false, Empty, false);
    var s2 := ShiftY(c.f2, false, s1.out, false);
    var s3 := ShiftY(s1.face, false, s2.out, false);
    var s4 := ShiftY(c.f1, false, Empty, false);
    var s5 := ShiftY(c.f3, false, s4.out, false);
    var s6 := ShiftY(s4.face, false, s5.out, false);
    c.(f0 := s3.face, f1 := s6.face, f2 := s2.face, f3 := s5.face, f5 := Rotate(Rotate(c.f5, true), true))
  }

  /** A clockwise quarter turn of the top face (face 4). */
  function RotateUClock(c: Cube): Cube
  {
    var s1 := ShiftY(c.f0, true, Empty, false);
    var s2 := ShiftY(c.f3, true, s1.out, false);
    var s3 := ShiftY(c.f2, true, s2.out, false);
    var s4 := ShiftY(c.f1, true, s3.out, false);
    var s5 := ShiftY(s1.face, true, s4.out, false);
    c.(f0 := s5.face, f1 := s4.face, f2 := s3.face, f3 := s2.face, f4 := Rotate(c.f4, true))
  }

  /** A counter-clockwise quarter turn of the top face (face 4). */
  function RotateUCounterClock(c: Cube): Cube
  {
    var s1 := ShiftY(c.f0, true, Empty, false);
    var s2 := ShiftY(c.f1, true, s1.out, false);
    var s3 := ShiftY(c.f2, true, s2.out, false);
    var s4 := ShiftY(c.f3, true, s3.out, false);
    var s5 := ShiftY(s1.face, true, s4.out, false);
    c.(f0 := s5.face, f1 := s2.face, f2 := s3.face, f3 := s4.face, f4 := Rotate(c.f4, false))
  }

  /** A half turn of the top face (face 4). */
  function RotateUHalf(c: Cube): Cube
  {
    var s1 := ShiftY(c.f0, true, Empty, false);
    var s2 := ShiftY(c.f2, true, s1.out, false);
    var s3 := ShiftY(s1.face, true, s2.out, false);
    var s4 := ShiftY(c.f1, true, Empty, false);
    var s5 := ShiftY(c.f3, true, s4.out, false);
    var s6 := ShiftY(s4.face, true, s5.out, false);
    c.(f0 := s3.face, f1 := s6.face, f2 := s2.face, f3 := s5.face, f4 := Rotate(Rotate(c.f4, true), true))
  }

  /** Dispatch from a move to its turn. */
  function ApplyMove(c: Cube, m: Move): Cube
  {
    if m == B then RotateBClock(c)
    else if m == BP then RotateBCounterClock(c)
    else if m == B2 then RotateBHalf(c)
    else if m == L then RotateLClock(c)
    else if m == LP then RotateLCounterClock(c)
    else if m == L2 then RotateLHalf(c)
    else if m == D then RotateDClock(c)
    else if m == DP then RotateDCounterClock(c)
    else if m == D2 then RotateDHalf(c)
    else if m == F then RotateFClock(c)
    else if m == FP then RotateFCounterClock(c)
    else if m == F2 then RotateFHalf(c)
    else if m == R then RotateRClock(c)
    else if m == RP then RotateRCounterClock(c)
    else if m == R2 then RotateRHalf(c)
    else if m == U then RotateUClock(c)
    else if m == UP then RotateUCounterClock(c)
    else RotateUHalf(c)
  }

  /** Applies the moves in order, first to last. */
  function ApplyMoves(c: Cube, moves: seq<Move>): Cube
    decreases |moves|
  {
    if |moves| == 0 then c else ApplyMoves(ApplyMove(c, moves[0]), moves[1..])
  }
}
