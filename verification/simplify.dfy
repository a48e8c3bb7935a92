/**
  The move-list simplifier ("fix symmetry"): scanning from the end, each
  adjacent pair of moves on the same face is replaced by what the source
  computes for it from the moves' enumeration values. The scan index then
  moves on by one, or by two when the pair vanished, so a pair that only
  becomes adjacent through a removal is not looked at again.

  The `corrected` flag selects the collapse of a counter-clockwise quarter
  turn with a half turn: the source writes a counter-clockwise quarter turn,
  while the two moves together make a clockwise one.
 */
module Simplify {
  import opened Moves
  import opened Cubes
  import opened TurnAlgebra

  /** Membership in the source's list of half turns B2, D2, L2, F2, U2, R2. */
  predicate IsListedHalfTurn(m: Move)
  {
    m == B2 || m == D2 || m == L2 || m == F2 || m == U2 || m == R2
  }

  /**
    What replaces the same-face pair (a, b). `test` is the difference of the
    enumeration values: 0 for equal moves, 1 for a quarter turn next to the
    other quarter turn or to a half turn, 2 for clockwise next to half.
   */
  function CollapsePair(a: Move, b: Move, corrected: bool): (r: seq<Move>)
    requires Index(a) / 3 == Index(b) / 3
    ensures |r| <= 1
    ensures |r| == 1 ==> Group(r[0]) == Group(a)
  {
    var ia, ib := Index(a), Index(b);
    var test := ia - ib;
    if test == 0 then
      if IsListedHalfTurn(a) then [] else [FromIndex(ia + (3 - (ia + 1) % 3))]
    else if test == 1 || test == -1 then
      if (ib + 1) % 3 == 0 || (ia + 1) % 3 == 0 then
        if corrected then [FromIndex(if ia < ib then ia - 1 else ib - 1)]
        else [FromIndex(if ia < ib then ib - 1 else ia - 1)]
      else []
    else
      [FromIndex(if ia < ib then ib - 1 else ia - 1)]
  }

  /**
    The scan from index i down to 1. `i` is the source's loop variable: the
    pair looked at is (s[i - 1], s[i]).
   */
  function FixFrom(s: seq<Move>, i: int, corrected: bool): (r: seq<Move>)
    requires -1 <= i < |s|
    decreases i + 1
  {
    if i <= 0 then s
    else if IsDecentNextMove(s[i - 1], s[i]) then FixFrom(s, i - 1, corrected)
    else
      var pair := CollapsePair(s[i - 1], s[i], corrected);
      var next := if |pair| == 0 then i - 2 else i - 1;
      FixFrom(s[..i - 1] + pair + s[i + 1..], next, corrected)
  }

  /** The simplifier as the source writes it. */
  function FixSymmetry(s: seq<Move>): seq<Move>
  {
    FixFrom(s, |s| - 1, false)
  }

  /** The simplifier with the counter-clockwise plus half turn case corrected. */
  function FixSymmetryCorrected(s: seq<Move>): seq<Move>
  {
    FixFrom(s, |s| - 1, true)
  }

  /** No two adjacent moves up to index i turn the same face. */
  predicate NoSameFacePairsUpTo(s: seq<Move>, i: int)
    requires i < |s|
  {
    forall k :: 0 < k <= i ==> IsDecentNextMove(s[k - 1], s[k])
  }

  /** The scan never lengthens the list, and leaves a list without same-face pairs alone. */
  lemma {:induction false} FixFromShape(s: seq<Move>, i: int, corrected: bool)
    requires -1 <= i < |s|
    ensures |FixFrom(s, i, corrected)| <= |s|
    ensures NoSameFacePairsUpTo(s, i) ==> FixFrom(s, i, corrected) == s
    decreases i + 1
  {
    if i <= 0 {
    } else if IsDecentNextMove(s[i - 1], s[i]) {
      FixFromShape(s, i - 1, corrected);
    } else {
      var pair := CollapsePair(s[i - 1], s[i], corrected);
      var next := if |pair| == 0 then i - 2 else i - 1;
      FixFromShape(s[..i - 1] + pair + s[i + 1..], next, corrected);
    }
  }

  /**
    The simplifier never makes the list longer, and returns a list whose
    adjacent moves all turn different faces unchanged.
   */
  lemma FixSymmetryShape(s: seq<Move>)
    ensures |FixSymmetry(s)| <= |s|
    ensures |FixSymmetryCorrected(s)| <= |s|
    ensures NoSameFacePairsUpTo(s, |s| - 1) ==> FixSymmetry(s) == s && FixSymmetryCorrected(s) == s
  {
    FixFromShape(s, |s| - 1, false);
    FixFromShape(s, |s| - 1, true);
  }

  /** The half turns are exactly the moves of magnitude 2. */
  lemma HalfTurnsAreMagnitudeTwo(m: Move)
    ensures IsListedHalfTurn(m) <==> Magnitude(m) == 2
  {
  }

  /** A move's value is its group and magnitude, written out linearly. */
  lemma IndexSplits(m: Move)
    ensures Index(m) == 3 * Group(m) + Magnitude(m) && Magnitude(m) < 3
  {
  }

  /** Residues of values shifted by whole face groups. */
  lemma ModThree(g: int, k: int)
    requires 0 <= k <= 3
    ensures (3 * g + k) % 3 == k % 3 && (3 * g + k) / 3 == g + k / 3
  {
  }

  /** The move of face group g with magnitude k (0 clockwise, 1 counter-clockwise, 2 half). */
  function Of(g: int, k: int): (m: Move)
    requires 0 <= g < 6 && 0 <= k < 3
    ensures Group(m) == g && Magnitude(m) == k
  {
    FromIndex(3 * g + k)
  }

  /**
    What two moves of one face make together, written as at most one move:
    their quarter turns added up modulo four.
   */
  function Composed(a: Move, b: Move): seq<Move>
    requires Group(a) == Group(b)
  {
    var g, q := Group(a), (QuarterCount(a) + QuarterCount(b)) % 4;
    if q == 0 then [] else if q == 1 then [Of(g, 0)] else if q == 2 then [Of(g, 2)] else [Of(g, 1)]
  }

  /** Two moves of the same face amount to the sum of their quarter turns. */
  lemma PairIsPower(c: Cube, a: Move, b: Move)
    requires Group(a) == Group(b)
    ensures ApplyMoves(c, [a, b]) == Power(c, Group(a), (QuarterCount(a) + QuarterCount(b)) % 4)
  {
    var g, qa, qb := Group(a), QuarterCount(a), QuarterCount(b);
    var ca := ApplyMove(c, a);
    MoveIsPower(c, a);
    MoveIsPower(ca, b);
    assert ApplyMove(ca, b) == Power(Power(c, g, qa), g, qb);
    PowerAdd(c, g, qa, qb);
    PowerMod(c, g, qa + qb);
    assert [a, b][1..] == [b];
    assert ApplyMoves(c, [a, b]) == ApplyMoves(ca, [b]);
    assert ApplyMoves(ca, [b]) == ApplyMoves(ApplyMove(ca, b), []);
  }

  /** The composition has the effect of the pair. */
  lemma ComposedIsPair(c: Cube, a: Move, b: Move)
    requires Group(a) == Group(b)
    ensures ApplyMoves(c, Composed(a, b)) == ApplyMoves(c, [a, b])
  {
    var g, q := Group(a), (QuarterCount(a) + QuarterCount(b)) % 4;
    PairIsPower(c, a, b);
    if q != 0 {
      var m := if q == 1 then Of(g, 0) else if q == 2 then Of(g, 2) else Of(g, 1);
      assert Composed(a, b) == [m];
      assert QuarterCount(m) == q;
      SingleMoveIsPower(c, m);
    }
  }

  /** A one-move list is the move's power of its face's quarter turn. */
  lemma SingleMoveIsPower(c: Cube, m: Move)
    ensures ApplyMoves(c, [m]) == Power(c, Group(m), QuarterCount(m))
  {
    MoveIsPower(c, m);
    assert ApplyMoves(c, [m]) == ApplyMoves(ApplyMove(c, m), []);
  }

  /** The source's first branch: a move followed by itself. */
  lemma SameMoveCollapse(a: Move, corrected: bool)
    ensures CollapsePair(a, a, corrected) == Composed(a, a)
  {
    var g, m := Group(a), Magnitude(a);
    IndexSplits(a);
    HalfTurnsAreMagnitudeTwo(a);
    ModThree(g, m + 1);
  }

  /** The source's second branch: enumeration values one apart. */
  lemma NeighbourCollapse(a: Move, b: Move)
    requires Group(a) == Group(b) && (Index(a) - Index(b) == 1 || Index(b) - Index(a) == 1)
    ensures CollapsePair(a, b, true) == Composed(a, b)
    ensures Magnitude(a) + Magnitude(b) != 3 ==> CollapsePair(a, b, false) == Composed(a, b)
    ensures Magnitude(a) + Magnitude(b) == 3 ==>
      CollapsePair(a, b, false) == [Of(Group(a), 1)] && Composed(a, b) == [Of(Group(a), 0)]
  {
    IndexSplits(a);
    IndexSplits(b);
    if Magnitude(a) + Magnitude(b) == 1 {
      QuarterNeighbourCollapse(a, b);
    } else {
      HalfNeighbourCollapse(a, b);
    }
  }

  /** X X' and X' X cancel, in the source and in the composition. */
  lemma QuarterNeighbourCollapse(a: Move, b: Move)
    requires Group(a) == Group(b) && Magnitude(a) + Magnitude(b) == 1
    ensures CollapsePair(a, b, true) == [] && CollapsePair(a, b, false) == [] && Composed(a, b) == []
  {
    IndexSplits(a);
    IndexSplits(b);
    ModThree(Group(a), 1);
    ModThree(Group(a), 2);
    assert (Index(a) + 1) % 3 != 0 && (Index(b) + 1) % 3 != 0;
  }

  /** X' X2 and X2 X': the corrected collapse makes X, the source's makes X'. */
  lemma HalfNeighbourCollapse(a: Move, b: Move)
    requires Group(a) == Group(b) && Magnitude(a) + Magnitude(b) == 3
    ensures CollapsePair(a, b, true) == [Of(Group(a), 0)] && Composed(a, b) == [Of(Group(a), 0)]
    ensures CollapsePair(a, b, false) == [Of(Group(a), 1)]
  {
    IndexSplits(a);
    IndexSplits(b);
    ModThree(Group(a), Magnitude(a) + 1);
    ModThree(Group(a), Magnitude(b) + 1);
  }

  /** The source's last branch: a clockwise quarter turn next to the half turn. */
  lemma ClockHalfCollapse(a: Move, b: Move, corrected: bool)
    requires Group(a) == Group(b) && (Index(a) - Index(b) == 2 || Index(b) - Index(a) == 2)
    ensures CollapsePair(a, b, corrected) == Composed(a, b)
  {
    IndexSplits(a);
    IndexSplits(b);
  }

  /**
    The collapse table: the corrected collapse is the composition on every
    pair; the as-written one is too, except that it turns X' X2 and X2 X'
    into X' where the composition is X.
   */
  lemma CollapseTable(a: Move, b: Move)
    requires Group(a) == Group(b)
    ensures CollapsePair(a, b, true) == Composed(a, b)
    ensures Magnitude(a) + Magnitude(b) != 3 ==> CollapsePair(a, b, false) == Composed(a, b)
    ensures Magnitude(a) + Magnitude(b) == 3 ==>
      CollapsePair(a, b, false) == [Of(Group(a), 1)] && Composed(a, b) == [Of(Group(a), 0)]
  {
    IndexSplits(a);
    IndexSplits(b);
    var d: int := Index(a) - Index(b);
    if d == 0 {
      SameMoveCollapse(a, true);
      SameMoveCollapse(a, false);
    } else if d == 1 || d == -1 {
      NeighbourCollapse(a, b);
    } else {
      ClockHalfCollapse(a, b, true);
      ClockHalfCollapse(a, b, false);
    }
  }

  /** A move followed by itself: X X and X' X' make X2, X2 X2 vanishes. */
  lemma SameMoveRules(g: int)
    requires 0 <= g < 6
    ensures CollapsePair(Of(g, 0), Of(g, 0), false) == [Of(g, 2)]
    ensures CollapsePair(Of(g, 1), Of(g, 1), false) == [Of(g, 2)]
    ensures CollapsePair(Of(g, 2), Of(g, 2), false) == []
  {
    SameMoveCollapse(Of(g, 0), false);
    SameMoveCollapse(Of(g, 1), false);
    SameMoveCollapse(Of(g, 2), false);
  }

  /** The two quarter turns of one face cancel, in either order. */
  lemma QuarterPairRules(g: int)
    requires 0 <= g < 6
    ensures CollapsePair(Of(g, 0), Of(g, 1), false) == []
    ensures CollapsePair(Of(g, 1), Of(g, 0), false) == []
  {
    CollapseTable(Of(g, 0), Of(g, 1));
    CollapseTable(Of(g, 1), Of(g, 0));
  }

  /**
    A quarter turn next to the half turn: X X2 and X2 X make X'; X' X2 and
    X2 X' make X' as written, X when corrected.
   */
  lemma HalfTurnRules(g: int)
    requires 0 <= g < 6
    ensures CollapsePair(Of(g, 0), Of(g, 2), false) == [Of(g, 1)]
    ensures CollapsePair(Of(g, 2), Of(g, 0), false) == [Of(g, 1)]
    ensures CollapsePair(Of(g, 1), Of(g, 2), false) == [Of(g, 1)]
    ensures CollapsePair(Of(g, 2), Of(g, 1), false) == [Of(g, 1)]
    ensures CollapsePair(Of(g, 1), Of(g, 2), true) == [Of(g, 0)]
    ensures CollapsePair(Of(g, 2), Of(g, 1), true) == [Of(g, 0)]
  {
    CollapseTable(Of(g, 0), Of(g, 2));
    CollapseTable(Of(g, 2), Of(g, 0));
    CollapseTable(Of(g, 1), Of(g, 2));
    CollapseTable(Of(g, 2), Of(g, 1));
  }

  /**
    The corrected collapse, and the as-written one on every pair but
    X' X2 and X2 X', replaces a pair by moves with the same effect.
   */
  lemma CollapseKeepsCube(c: Cube, a: Move, b: Move, corrected: bool)
    requires Group(a) == Group(b)
    requires corrected || Magnitude(a) + Magnitude(b) != 3
    ensures ApplyMoves(c, CollapsePair(a, b, corrected)) == ApplyMoves(c, [a, b])
  {
    CollapseTable(a, b);
    ComposedIsPair(c, a, b);
  }

  /** Replacing a same-face pair inside a list by its collapse keeps the list's effect. */
  lemma SpliceKeepsCube(c: Cube, s: seq<Move>, i: int)
    requires 0 < i < |s| && Group(s[i - 1]) == Group(s[i])
    ensures ApplyMoves(c, s[..i - 1] + CollapsePair(s[i - 1], s[i], true) + s[i + 1..]) == ApplyMoves(c, s)
  {
    var pre, post := s[..i - 1], s[i + 1..];
    var pair := CollapsePair(s[i - 1], s[i], true);
    assert s == pre + [s[i - 1], s[i]] + post;
    ApplyMovesAppend(c, pre + pair, post);
    ApplyMovesAppend(c, pre, pair);
    ApplyMovesAppend(c, pre + [s[i - 1], s[i]], post);
    ApplyMovesAppend(c, pre, [s[i - 1], s[i]]);
    CollapseKeepsCube(ApplyMoves(c, pre), s[i - 1], s[i], true);
  }

  /** The corrected scan keeps the effect of the list on every cube. */
  lemma {:induction false} FixFromCorrectedKeepsCube(c: Cube, s: seq<Move>, i: int)
    requires -1 <= i < |s|
    ensures ApplyMoves(c, FixFrom(s, i, true)) == ApplyMoves(c, s)
    decreases i + 1
  {
    if i <= 0 {
    } else if IsDecentNextMove(s[i - 1], s[i]) {
      FixFromCorrectedKeepsCube(c, s, i - 1);
    } else {
      var pair := CollapsePair(s[i - 1], s[i], true);
      var next := if |pair| == 0 then i - 2 else i - 1;
      var s' := s[..i - 1] + pair + s[i + 1..];
      assert FixFrom(s, i, true) == FixFrom(s', next, true);
      FixFromCorrectedKeepsCube(c, s', next);
      SpliceKeepsCube(c, s, i);
    }
  }

  /** The corrected simplifier returns a list with the same effect as its input. */
  lemma FixSymmetryCorrectedKeepsCube(c: Cube, s: seq<Move>)
    ensures ApplyMoves(c, FixSymmetryCorrected(s)) == ApplyMoves(c, s)
  {
    FixFromCorrectedKeepsCube(c, s, |s| - 1);
  }

  /** R' then R2 is a single clockwise R, on every cube. */
  lemma CounterClockThenHalfIsClock(c: Cube)
    ensures ApplyMoves(c, [RP, R2]) == RotateRClock(c)
  {
    PairIsPower(c, RP, R2);
    MoveIsPower(c, R);
  }

  /**
    As written, X' followed by X2 collapses to X', yet the two moves make X:
    on the fresh cube R' R2 and R' leave different front faces.
   */
  lemma CollapseCounterClockHalfAsWrittenDiffers()
    ensures CollapsePair(RP, R2, false) == [RP]
    ensures ApplyMoves(NewCube(), [RP, R2]) != ApplyMoves(NewCube(), [RP])
  {
    var c := NewCube();
    CounterClockThenHalfIsClock(c);
    assert ApplyMoves(c, [RP]) == ApplyMoves(RotateRCounterClock(c), []);
    assert RotateRClock(c).f1.t1 != RotateRCounterClock(c).f1.t1;
  }

  /** The corrected collapse of R' R2 is R, and keeps the cube. */
  lemma CollapseCounterClockHalfCorrected(c: Cube)
    ensures CollapsePair(RP, R2, true) == [R]
    ensures ApplyMoves(c, CollapsePair(RP, R2, true)) == ApplyMoves(c, [RP, R2])
  {
    CollapseKeepsCube(c, RP, R2, true);
  }

  /**
    As written, removing a pair does not re-examine the moves that become
    neighbours: R U U' R' simplifies to R R', not to the empty list.
   */
  lemma FixSymmetryLeavesNewNeighbours()
    ensures FixSymmetry([R, U, UP, RP]) == [R, RP]
  {
    var s := [R, U, UP, RP];
    assert IsDecentNextMove(UP, RP);
    assert FixFrom(s, 3, false) == FixFrom(s, 2, false);
    assert !IsDecentNextMove(U, UP);
    assert CollapsePair(U, UP, false) == [];
    assert s[..1] + [] + s[3..] == [R, RP];
    assert FixFrom(s, 2, false) == FixFrom([R, RP], 0, false);
  }
}
