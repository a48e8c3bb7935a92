/**
  One 2x2 face of the cube: four sticker colours in row-major order.

      +---+---+
      | 0 | 1 |   <- ShiftY, inner row
      +---+---+
      | 2 | 3 |   <- ShiftY, outer row
      +---+---+
        ^   ^
        |   ShiftX, outer column
        ShiftX, inner column

  Colours are plain integers, as in the solver; -1 is the "not one colour"
  answer of IsOneColor and the filler of the turn engine's empty buffer.
 */
module Faces {

  datatype Face = Face(t0: int, t1: int, t2: int, t3: int)

  /** Two stickers carried from one face edge to the next. */
  datatype Pair = Pair(first: int, second: int)

  /** The face after an edge exchange, and the stickers that were pushed out. */
  datatype Shifted = Shifted(face: Face, out: Pair)

  /** The four tiles in row-major order. */
  function Tiles(f: Face): (s: seq<int>)
    ensures |s| == 4
  {
    [f.t0, f.t1, f.t2, f.t3]
  }

  /** The tile in grid position (row, col). */
  function At(f: Face, row: int, col: int): int
    requires 0 <= row < 2 && 0 <= col < 2
  {
    if row == 0 then (if col == 0 then f.t0 else f.t1)
    else (if col == 0 then f.t2 else f.t3)
  }

  /** A face filled with one colour (the `Face(int)` constructor). */
  function Uniform(color: int): (f: Face)
    ensures forall row, col :: 0 <= row < 2 && 0 <= col < 2 ==> At(f, row, col) == color
  {
    Face(color, color, color, color)
  }

  /** Quarter turn of the face in its own plane. */
  function Rotate(f: Face, clockWise: bool): Face
  {
    if clockWise then
      Face(f.t2, f.t0, f.t3, f.t1)
    else
      Face(f.t1, f.t3, f.t0, f.t2)
  }

  /**
    Where rotation takes each tile: clockwise, the tile in (row, col) travels
    to (col, 1 - row); counter-clockwise to (1 - col, row).
   */
  lemma RotateMovesTiles(f: Face, clockWise: bool)
    ensures clockWise ==>
      forall row, col :: 0 <= row < 2 && 0 <= col < 2 ==> At(Rotate(f, clockWise), col, 1 - row) == At(f, row, col)
    ensures !clockWise ==>
      forall row, col :: 0 <= row < 2 && 0 <= col < 2 ==> At(Rotate(f, clockWise), 1 - col, row) == At(f, row, col)
  {
  }

  /** 1 when the tile has colour x. */
  function Hit(tile: int, x: int): nat
  {
    if tile == x then 1 else 0
  }

  /** How many of the face's tiles have colour x. */
  function FaceCount(f: Face, x: int): nat
  {
    Hit(f.t0, x) + Hit(f.t1, x) + Hit(f.t2, x) + Hit(f.t3, x)
  }

  lemma SingletonCount(a: int, x: int)
    ensures multiset([a])[x] == Hit(a, x)
  {
  }

  /** On one face, the count is the multiplicity of x among its tiles. */
  lemma FaceCountIsMultiplicity(f: Face, x: int)
    ensures multiset(Tiles(f))[x] == FaceCount(f, x)
  {
    calc {
      multiset(Tiles(f));
      { assert Tiles(f) == [f.t0] + [f.t1] + [f.t2] + [f.t3]; }
      multiset([f.t0]) + multiset([f.t1]) + multiset([f.t2]) + multiset([f.t3]);
    }
    SingletonCount(f.t0, x);
    SingletonCount(f.t1, x);
    SingletonCount(f.t2, x);
    SingletonCount(f.t3, x);
  }

  /**
    Multisets agreeing on every multiplicity are equal. The body only
    triggers Dafny's multiset extensionality; the permutation lemmas use it.
   */
  lemma MultisetExtensionality(ma: multiset<int>, mb: multiset<int>)
    requires forall x :: ma[x] == mb[x]
    ensures ma == mb
  {
    assert forall x :: ma[x] == mb[x];
  }

  /** Rotation only moves tiles around: the bag of colours is unchanged. */
  lemma RotatePreservesColors(f: Face, clockWise: bool)
    ensures multiset(Tiles(Rotate(f, clockWise))) == multiset(Tiles(f))
  {
    var r := Rotate(f, clockWise);
    forall x
      ensures multiset(Tiles(r))[x] == multiset(Tiles(f))[x]
    {
      FaceCountIsMultiplicity(r, x);
      FaceCountIsMultiplicity(f, x);
    }
    MultisetExtensionality(multiset(Tiles(r)), multiset(Tiles(f)));
  }

  /** Column 0 for the inner edge, column 1 for the outer one. */
  function ColumnOf(isInner: bool): int
  {
    if isInner then 0 else 1
  }

  /** Exchanges one column of the face for `tilesIn` (see ShiftXExchangesColumn). */
  function ShiftX(f: Face, isInner: bool, tilesIn: Pair, flipOutput: bool): Shifted
  {
    var out := if isInner then Pair(f.t0, f.t2) else Pair(f.t1, f.t3);
    var face := if isInner then f.(t0 := tilesIn.first, t2 := tilesIn.second)
                else f.(t1 := tilesIn.first, t3 := tilesIn.second);
    Shifted(face, if flipOutput then Pair(out.second, out.first) else out)
  }

  /** Exchanges one row of the face for `tilesIn` (see ShiftYExchangesRow). */
  function ShiftY(f: Face, isInner: bool, tilesIn: Pair, flipOutput: bool): Shifted
  {
    var out := if isInner then Pair(f.t0, f.t1) else Pair(f.t2, f.t3);
    var face := if isInner then f.(t0 := tilesIn.first, t1 := tilesIn.second)
                else f.(t2 := tilesIn.first, t3 := tilesIn.second);
    Shifted(face, if flipOutput then Pair(out.second, out.first) else out)
  }

  /**
    ShiftX writes `tilesIn` into one column (top to bottom), keeps the other
    column, and hands back the column's previous contents, top to bottom, or
    bottom to top when `flipOutput` holds.
   */
  lemma ShiftXExchangesColumn(f: Face, isInner: bool, tilesIn: Pair, flipOutput: bool)
    ensures var col, s := ColumnOf(isInner), ShiftX(f, isInner, tilesIn, flipOutput);
      && At(s.face, 0, col) == tilesIn.first
      && At(s.face, 1, col) == tilesIn.second
      && At(s.face, 0, 1 - col) == At(f, 0, 1 - col)
      && At(s.face, 1, 1 - col) == At(f, 1, 1 - col)
      && s.out == (if flipOutput then Pair(At(f, 1, col), At(f, 0, col))
                  else Pair(At(f, 0, col), At(f, 1, col)))
  {
  }

  /** ShiftY does the same for one row, left to right. */
  lemma ShiftYExchangesRow(f: Face, isInner: bool, tilesIn: Pair, flipOutput: bool)
    ensures var row, s := ColumnOf(isInner), ShiftY(f, isInner, tilesIn, flipOutput);
      && At(s.face, row, 0) == tilesIn.first
      && At(s.face, row, 1) == tilesIn.second
      && At(s.face, 1 - row, 0) == At(f, 1 - row, 0)
      && At(s.face, 1 - row, 1) == At(f, 1 - row, 1)
      && s.out == (if flipOutput then Pair(At(f, row, 1), At(f, row, 0))
                  else Pair(At(f, row, 0), At(f, row, 1)))
  {
  }

  /** The common colour of the face, or -1 when two tiles differ. */
  function IsOneColor(f: Face): (r: int)
    ensures (forall k :: 0 <= k < 4 ==> Tiles(f)[k] == Tiles(f)[0]) ==> r == f.t0
    ensures (exists k :: 0 <= k < 4 && Tiles(f)[k] != Tiles(f)[0]) ==> r == -1
  {
    assert Tiles(f)[1] == f.t1 && Tiles(f)[2] == f.t2 && Tiles(f)[3] == f.t3;
    if f.t1 == f.t0 && f.t2 == f.t0 && f.t3 == f.t0 then f.t0 else -1
  }

  /** A clockwise and a counter-clockwise rotation undo each other, in either order. */
  lemma RotateInverse(f: Face)
    ensures Rotate(Rotate(f, true), false) == f
    ensures Rotate(Rotate(f, false), true) == f
  {
  }

  /** Four clockwise rotations restore the face. */
  lemma RotateFourTimes(f: Face)
    ensures Rotate(Rotate(Rotate(Rotate(f, true), true), true), true) == f
  {
  }

  /**
    Feeding the pair pushed out by an unflipped ShiftX back into the same edge
    restores the face and hands back the pair that was written.
   */
  lemma ShiftXRoundTrip(f: Face, isInner: bool, tilesIn: Pair)
    ensures var s := ShiftX(f, isInner, tilesIn, false);
      ShiftX(s.face, isInner, s.out, false) == Shifted(f, tilesIn)
  {
  }

  /** The same round trip for ShiftY. */
  lemma ShiftYRoundTrip(f: Face, isInner: bool, tilesIn: Pair)
    ensures var s := ShiftY(f, isInner, tilesIn, false);
      ShiftY(s.face, isInner, s.out, false) == Shifted(f, tilesIn)
  {
  }

  /** A face built from one colour reports that colour. */
  lemma UniformIsOneColor(color: int)
    ensures IsOneColor(Uniform(color)) == color
  {
  }
}
