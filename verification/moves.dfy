/**
  The eighteen turns, in the order of the solver's enumeration. The order is
  meaningful: a move's integer value (Index) is 3 * face group + magnitude,
  with groups R, U, F, L, D, B and magnitudes clockwise, counter-clockwise
  (the "P" for prime) and half turn.
 */
module Moves {

  /** A move is its enumeration value, as in the solver, where moves are an integer enumeration. */
  newtype Move = k: int | 0 <= k < 18

  const R: Move := 0
  const RP: Move := 1
  const R2: Move := 2
  const U: Move := 3
  const UP: Move := 4
  const U2: Move := 5
  const F: Move := 6
  const FP: Move := 7
  const F2: Move := 8
  const L: Move := 9
  const LP: Move := 10
  const L2: Move := 11
  const D: Move := 12
  const DP: Move := 13
  const D2: Move := 14
  const B: Move := 15
  const BP: Move := 16
  const B2: Move := 17

  /** The restricted alphabet of the full-solve search ends here (enumeration `MoveOptimalSolve`). */
  const LastOptimalSolveIndex: int := 8

  /** The enumeration value of a move (the cast `(int)move`). */
  function Index(m: Move): nat
  {
    m as int
  }

  /** The move with a given enumeration value (the cast `(Move)k`). */
  function FromIndex(k: int): Move
    requires 0 <= k < 18
  {
    k as Move
  }

  /** Which face a move turns: 0 R, 1 U, 2 F, 3 L, 4 D, 5 B. */
  function Group(m: Move): nat
  {
    Index(m) / 3
  }

  /** How far a move turns: 0 clockwise, 1 counter-clockwise, 2 half turn. */
  function Magnitude(m: Move): nat
  {
    Index(m) % 3
  }

  /** The nine R, U and F moves of the restricted alphabet are exactly those with value at most F2. */
  predicate InOptimalSolveAlphabet(m: Move)
  {
    Index(m) <= LastOptimalSolveIndex
  }

  /**
    Pruning rule: a move may follow another only when it turns a different
    face. The solver tests membership in six three-move groups.
   */
  function IsDecentNextMove(lastMove: Move, newMove: Move): (r: bool)
    ensures !r <==> Index(lastMove) / 3 == Index(newMove) / 3
  {
    if lastMove in [F, FP, F2] && newMove in [F, FP, F2] then false
    else if lastMove in [R, RP, R2] && newMove in [R, RP, R2] then false
    else if lastMove in [U, UP, U2] && newMove in [U, UP, U2] then false
    else if lastMove in [B, BP, B2] && newMove in [B, BP, B2] then false
    else if lastMove in [L, LP, L2] && newMove in [L, LP, L2] then false
    else if lastMove in [D, DP, D2] && newMove in [D, DP, D2] then false
    else true
  }

  /** The pruning rule does not depend on the order of the two moves. */
  lemma DecentIsSymmetric(a: Move, b: Move)
    ensures IsDecentNextMove(a, b) == IsDecentNextMove(b, a)
  {
  }
}
