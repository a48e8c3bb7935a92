/**
  The exhaustive search: for depth 1..12 it walks an odometer of move
  values, applying each candidate to a copy of the cube and stopping at the
  first one that reaches the goal. Digit 0 (the first move applied) turns
  fastest. A digit is advanced past values that the pruning rule rejects
  against the next digit; a digit that passes the last allowed move value
  carries into the next digit, and the digits below it are reset to R without
  being checked. So the all-R candidate that opens every depth from 2 on, and for
  example R R' at depth 2, are tried although the pruning rule rejects them.
 */
module Search {
  import opened Wrappers
  import opened Faces
  import opened Moves
  import opened Cubes

  /** Deepest depth index searched: candidates have at most 12 moves. */
  const MaxDepthIndex: int := 11

  /** The search goal: the whole cube solved, or only the bottom face one colour. */
  predicate Goal(c: Cube, onlyBottomFace: bool)
  {
    (!onlyBottomFace && IsSolved(c)) || (onlyBottomFace && IsOneColor(c.f5) != -1)
  }

  /** The largest digit value the odometer may test. */
  function MaxMoveIndex(onlyBottomFace: bool): int
  {
    if onlyBottomFace then Index(B2) else LastOptimalSolveIndex
  }

  /**
    The pruning rule on raw enumeration values. A value outside the named
    moves belongs to none of the six face groups, so it is always accepted.
   */
  function DecentIndex(last: int, next: int): bool
  {
    if 0 <= last < 18 && 0 <= next < 18 then IsDecentNextMove(FromIndex(last), FromIndex(next))
    else true
  }

  /** The moves named by a digit string. */
  function ToMoves(digits: seq<int>): (ms: seq<Move>)
    requires forall k :: 0 <= k < |digits| ==> 0 <= digits[k] < 18
    ensures |ms| == |digits|
    ensures forall k :: 0 <= k < |digits| ==> Index(ms[k]) == digits[k]
  {
    seq(|digits|, k requires 0 <= k < |digits| => FromIndex(digits[k]))
  }

  function Pow(base: nat, k: nat): nat
  {
    if k == 0 then 1 else base * Pow(base, k - 1)
  }

  /** The digit string read as a number, digit 0 least significant. */
  function Value(digits: seq<int>, base: nat): int
  {
    if |digits| == 0 then 0 else digits[0] + base * Value(digits[1..], base)
  }

  lemma MulDistributes(base: int, rest: int, delta: int, w: int)
    ensures base * (rest + delta * w) == base * rest + delta * (base * w)
  {
  }

  lemma MulStrict(a: int, b: int, w: int)
    requires a < b && 1 <= w
    ensures a * w < b * w
  {
  }

  lemma {:induction false} PowPositive(base: nat, k: nat)
    requires 1 <= base
    ensures 1 <= Pow(base, k)
    decreases k
  {
    if k > 0 {
      PowPositive(base, k - 1);
      MulMonotone(base, 1, Pow(base, k - 1));
    }
  }

  lemma MulMonotone(base: int, a: int, b: int)
    requires 0 <= base && 0 <= a <= b
    ensures 0 <= base * a <= base * b
    ensures base * (a + 1) == base * a + base
  {
  }

  /** Changing one digit changes the value by the difference times that digit's weight. */
  lemma {:induction false} ValueUpdate(digits: seq<int>, k: nat, v: int, base: nat)
    requires k < |digits|
    ensures Value(digits[k := v], base) == Value(digits, base) + (v - digits[k]) * Pow(base, k)
    decreases k
  {
    var e := digits[k := v];
    if k == 0 {
      assert e[1..] == digits[1..];
      assert Value(e, base) == v + base * Value(digits[1..], base);
    } else {
      assert e[1..] == digits[1..][k - 1 := v];
      ValueUpdate(digits[1..], k - 1, v, base);
      var rest := Value(digits[1..], base);
      var w := Pow(base, k - 1);
      var delta := v - digits[k];
      assert Value(e[1..], base) == rest + delta * w;
      assert Value(e, base) == digits[0] + base * (rest + delta * w);
      MulDistributes(base, rest, delta, w);
      assert Pow(base, k) == base * w;
    }
  }

  /** A string of digits below the base has a value below base to the length. */
  lemma {:induction false} ValueBound(digits: seq<int>, base: nat)
    requires forall k :: 0 <= k < |digits| ==> 0 <= digits[k] < base
    ensures 0 <= Value(digits, base) < Pow(base, |digits|)
    decreases |digits|
  {
    if |digits| > 0 {
      var rest := digits[1..];
      ValueBound(rest, base);
      var vr := Value(rest, base);
      var p := Pow(base, |rest|);
      MulMonotone(base, vr, vr);
      MulMonotone(base, vr + 1, p);
      assert Value(digits, base) == digits[0] + base * vr;
      assert Pow(base, |digits|) == base * p;
    }
  }

  /** The first value past the last allowed move is accepted against any allowed move. */
  lemma CarryIsDecent(maxIndex: int, next: int)
    requires maxIndex == 8 || maxIndex == 17
    requires 0 <= next <= maxIndex
    ensures DecentIndex(maxIndex + 1, next)
  {
  }

  /** Raising digit j raises the value past what a carry into j had lowered it by. */
  lemma BumpRaisesValue(d: seq<int>, j: nat, x: int, base: nat, start: int)
    requires j < |d| && 1 <= base && d[j] < x
    requires j == 0 ==> Value(d, base) >= start
    requires j > 0 ==> Value(d, base) + (base - 1) * Pow(base, j - 1) > start
    ensures Value(d[j := x], base) > start
  {
    ValueUpdate(d, j, x, base);
    PowPositive(base, j);
    MulMonotone(Pow(base, j), 1, x - d[j]);
    assert (x - d[j]) * Pow(base, j) >= Pow(base, j);
    if j > 0 {
      var w := Pow(base, j - 1);
      PowPositive(base, j - 1);
      assert Pow(base, j) == base * w;
      MulStrict(base - 1, base, w);
    }
  }

  /**
    One pass of the odometer at digit j: advance the digit by one, then keep
    advancing it while the pruning rule rejects it against digit j + 1 and
    it is below the last allowed value; if it is still rejected there, push
    it one past (a carry). The top digit is advanced once, unchecked.
   */
  method BumpDigit(d: seq<int>, j: nat, i: nat, maxIndex: int) returns (e: seq<int>)
    requires maxIndex == 8 || maxIndex == 17
    requires |d| == i + 1 && j <= i
    requires forall k :: j <= k <= i ==> 0 <= d[k] <= maxIndex
    ensures |e| == i + 1 && e == d[j := e[j]]
    ensures d[j] < e[j] <= maxIndex + 1
    ensures j == i ==> e[j] == d[j] + 1
    ensures j < i && e[j] <= maxIndex ==> DecentIndex(e[j], e[j + 1])
    ensures j < i ==> forall v {:trigger DecentIndex(v, e[j + 1])} :: d[j] < v < e[j] ==> !DecentIndex(v, e[j + 1])
  {
    var isDecentMove := true;
    e := d[j := d[j] + 1];
    if j < i {
      isDecentMove := DecentIndex(e[j], e[j + 1]);
    }
    while j < i && e[j] < maxIndex && !isDecentMove
      invariant |e| == i + 1 && e == d[j := e[j]]
      invariant d[j] < e[j] <= maxIndex + 1
      invariant isDecentMove <==> (j >= i || DecentIndex(e[j], e[j + 1]))
      invariant j < i ==> forall v {:trigger DecentIndex(v, e[j + 1])} :: d[j] < v < e[j] ==> !DecentIndex(v, e[j + 1])
      invariant j == i ==> e[j] == d[j] + 1
      decreases maxIndex - e[j]
    {
      e := e[j := e[j] + 1];
      isDecentMove := DecentIndex(e[j], e[j + 1]);
    }
    if j < i && e[j] == maxIndex + 1 {
      CarryIsDecent(maxIndex, e[j + 1]);
    }
    if !isDecentMove {
      e := e[j := e[j] + 1];
    }
  }

  /**
    One step of the odometer. Digits below the returned position j are
    reset, the digit at j is advanced past the values that the pruning rule
    rejects against digit j + 1, and the digits above j are untouched; only
    the top digit may be left one past the last allowed value (the carry out
    that ends the depth). The digit string grows as a number.
   */
  method Advance(digits: seq<int>, i: nat, maxIndex: int) returns (d: seq<int>, j: nat)
    requires maxIndex == 8 || maxIndex == 17
    requires |digits| == i + 1
    requires forall k :: 0 <= k <= i ==> 0 <= digits[k] <= maxIndex
    ensures |d| == i + 1 && j <= i
    ensures forall k :: 0 <= k < j ==> d[k] == 0
    ensures forall k :: j < k <= i ==> d[k] == digits[k]
    ensures digits[j] < d[j] <= maxIndex + 1
    ensures d[j] == maxIndex + 1 ==> j == i
    ensures j < i ==> DecentIndex(d[j], d[j + 1])
    ensures j < i ==> forall v {:trigger DecentIndex(v, d[j + 1])} :: digits[j] < v < d[j] ==> !DecentIndex(v, d[j + 1])
    ensures Value(d, maxIndex + 2) > Value(digits, maxIndex + 2)
  {
    ghost var base: nat := maxIndex + 2;
    ghost var start := Value(digits, base);
    d := digits;
    j := 0;
    while true
      invariant j <= i && |d| == i + 1
      invariant forall k :: 0 <= k < j ==> d[k] == 0
      invariant forall k :: j <= k <= i ==> d[k] == digits[k]
      invariant j == 0 ==> Value(d, base) >= start
      invariant j > 0 ==> Value(d, base) + (base - 1) * Pow(base, j - 1) > start
      decreases i - j
    {
      var before := d;
      d := BumpDigit(before, j, i, maxIndex);
      BumpRaisesValue(before, j, d[j], base, start);
      if !(j < i && maxIndex < d[j]) {
        break;
      }
      // The source clears the carried digit at the top of its next pass.
      ValueUpdate(d, j, 0, base);
      d := d[j := 0];
      j := j + 1;
    }
  }

  /**
    Brute-force search for a move sequence of at most 12 moves that reaches
    the goal: the whole cube solved over the nine R, U, F moves, or (only
    bottom face) a one-colour bottom face over all eighteen. `None` is the
    source's `null`: nothing up to the depth bound reached the goal. The cube
    is a value, so the search cannot disturb the caller's cube.
   */
  method OptimalSolve(cube: Cube, onlyBottomFace: bool) returns (r: Option<seq<Move>>)
    ensures Goal(cube, onlyBottomFace) ==> r == Some([])
    ensures r.Some? ==> |r.value| <= MaxDepthIndex + 1
    ensures r.Some? ==> Goal(ApplyMoves(cube, r.value), onlyBottomFace)
    ensures r.Some? && !onlyBottomFace ==>
      forall k :: 0 <= k < |r.value| ==> InOptimalSolveAlphabet(r.value[k])
  {
    var maxIndex := MaxMoveIndex(onlyBottomFace);
    if Goal(cube, onlyBottomFace) {
      return Some([]);
    }
    ghost var base: nat := maxIndex + 2;
    var digits: seq<int> := [];
    var i := 0;
    while i <= MaxDepthIndex
      invariant 0 <= i <= MaxDepthIndex + 1
      invariant |digits| == i
      invariant forall k :: 0 <= k < i ==> digits[k] == 0
    {
      digits := digits + [0];
      while true
        invariant |digits| == i + 1
        invariant forall k :: 0 <= k <= i ==> 0 <= digits[k] <= maxIndex
        decreases Pow(base, i + 1) - Value(digits, base)
      {
        ValueBound(digits, base);
        var candidate := ToMoves(digits);
        if Goal(ApplyMoves(cube, candidate), onlyBottomFace) {
          return Some(candidate);
        }
        var j;
        digits, j := Advance(digits, i, maxIndex);
        if maxIndex < digits[j] {
          digits := digits[j := 0];
          break;
        }
        ValueBound(digits, base);
      }
      i := i + 1;
    }
    return None;
  }
}
