# Pocket cube solver, modelled in Dafny

This project models the core of a solver for the 2×2 "pocket cube" and
proves properties of that model. The core is the face and cube state, the
eighteen turns, and the two solvers:

- an exhaustive search over move sequences of up to twelve moves;
- a quick solver that works in stages:
  - a short search makes the bottom face one colour;
  - stored orientation (OLL) and permutation (PLL) cases finish the last layer;
  - top turns align the cube;
  - a "fix symmetry" pass collapses adjacent moves that turn the same face.

The model uses values throughout. A `Face` is four integer colours in
row-major order. A `Cube` is six faces:

- faces 0 to 3 form the side ring: left, front, right, back;
- face 4 is the top and face 5 is the bottom.

Each turn is a pure function that builds a new cube. The source's copy
constructors exist to keep a trial cube apart from the cube being solved.
Under value semantics they are the identity, so no search can disturb its
caller's cube.

A move is its enumeration value, 0 to 17, in the source's order R, R', R2,
U, …, B2. The enumeration's arithmetic carries meaning: a move's value is
three times its face group plus its magnitude. The search odometer and the
simplifier both compute on these values.

Each source operation has a Dafny counterpart, module by module:

- `Faces` (face.dfy) models `Face`:
  - `Rotate`, `ShiftX`, `ShiftY` and `IsOneColor`;
  - `ShiftX` and `ShiftY` return the new face together with the pair they push out.
- `Moves` (moves.dfy) models:
  - the two move enumerations;
  - the pruning rule `IsDecentNextMove`.
- `Cubes` (cube.dfy) models:
  - the fresh cube, `IsSolved` and the eighteen `Rotate…` turns, each as its chain of edge exchanges;
  - `ApplyMove` and `ApplyMoves`.
- `TurnAlgebra` (algebra.dfy) holds the facts about the turn engine:
  - every turn permutes the 24 stickers;
  - the quarter turns of a face are inverses;
  - a half turn is two quarter turns;
  - every move is a power of its face's clockwise quarter turn.
- `Search` (search.dfy) models `OptimalSolve`. Its odometer is a digit string of enumeration values.
- `LastLayer` (lastlayer.dfy) models:
  - `CheckForPatternAndOrientUpFace` and `DoOLL`;
  - `DoPLL`.
- `Simplify` (simplify.dfy) models `FixSymmetry`:
  - once as written;
  - once with the counter-clockwise-plus-half-turn collapse corrected (see Findings).
- `QuickSolver` (pipeline.dfy) models `QuickSolve`.

Behaviour worth knowing:

- **Turn count.** There are eighteen turn operations: each of six faces has clockwise, counter-clockwise and half turns.
- **Half turns.** A half turn is two independent edge swaps, and `TurnAlgebra` proves it equals two clockwise quarter turns.
- **Odometer digit order.** Digit 0, the first move applied, turns fastest.
- **Odometer pruning.** A digit is checked by the pruning rule against the digit after it, and only when it is the digit being advanced. After a carry, the digits below the carried one are reset to R and are not checked. So every candidate whose lower digits were just reset to R is tried without the check: the all-R candidate that opens each depth from 2 on, and for example [R, R'] at depth 2.
- **Search exhaustion.** When the search finds nothing it returns `null`. The quick solver passes that straight to `AddRange`, which throws. The model reports this as the `BottomSearchFailed` outcome.
- **Orientation probing.** The probe in `CheckForPatternAndOrientUpFace` turns the real cube while it tries orientations. After four misses the cube is back where it started, so the effect equals a probe on a copy.
- **Closing top-turn loop.** The loop that turns the top face until the cube is solved has no bound. It either stops within three turns or never stops. The model reports the second case as `NeverSolved`.
- **Permutation cases.** The permutation step has eight stored algorithms. The ninth class pair, several paired rows on both layers, adds nothing.
- **No re-scan after removal.** The simplifier does not look again at the moves that become neighbours after a pair is removed. So a same-face pair can survive, as `Simplify.FixSymmetryLeavesNewNeighbours` shows.
- **Unknown move values.** A move value outside the enumeration falls through `ApplyMove` without effect; no error is raised. No modelled path can pass such a value: the odometer's transient value one past the last move is never applied. So `Move` has exactly eighteen values.

## Model

| member | source | states |
|---|---|---|
| Faces.Uniform | RubiksSolver/Face.cs:26-29 | every tile of a face built from one colour has that colour |
| Faces.Rotate | RubiksSolver/Face.cs:42-59 | computes the quarter rotation of a face in its own plane: clockwise the new tiles are (t2, t0, t3, t1), counter-clockwise (t1, t3, t0, t2) |
| Faces.RotateMovesTiles | RubiksSolver/Face.cs:42-59 | a clockwise rotation carries the tile in (row, col) to (col, 1 - row); a counter-clockwise one carries it to (1 - col, row) |
| Faces.RotatePreservesColors | RubiksSolver/Face.cs:42-59 | rotation keeps the multiset of the face's colours |
| Faces.RotateInverse | RubiksSolver/Face.cs:42-59 | the clockwise and counter-clockwise rotations undo each other, in either order |
| Faces.RotateFourTimes | RubiksSolver/Face.cs:42-50 | four clockwise rotations give back the face |
| Faces.ShiftX | RubiksSolver/Face.cs:61-87 | computes the column exchange: writes the incoming pair into column 0 (inner) or 1 (outer) and returns the face with the old column, swapped when flipOutput holds |
| Faces.ShiftXExchangesColumn | RubiksSolver/Face.cs:61-87 | ShiftX writes the incoming pair into the inner or outer column, keeps the other column, and returns the old column top to bottom, or reversed when flipOutput holds |
| Faces.ShiftXRoundTrip | RubiksSolver/Face.cs:61-87 | feeding the pushed-out pair back into the same column restores the face and returns the pair that was written |
| Faces.ShiftY | RubiksSolver/Face.cs:89-116 | computes the row exchange: writes the incoming pair into row 0 (inner) or 1 (outer) and returns the face with the old row, swapped when flipOutput holds |
| Faces.ShiftYExchangesRow | RubiksSolver/Face.cs:89-116 | ShiftY writes the incoming pair into the inner or outer row, keeps the other row, and returns the old row left to right, or reversed when flipOutput holds |
| Faces.ShiftYRoundTrip | RubiksSolver/Face.cs:89-116 | the same round trip for rows |
| Faces.IsOneColor | RubiksSolver/Face.cs:118-135 | the result is the common colour when all four tiles agree, and -1 when any tile differs from the first |
| Faces.UniformIsOneColor | RubiksSolver/Face.cs:118-135 | a face built from one colour reports that colour |
| Moves.IsDecentNextMove | RubiksSolver/Cube.cs:435-470 | a move is rejected after another exactly when both turn the same face (same enumeration value divided by three) |
| Moves.DecentIsSymmetric | RubiksSolver/Cube.cs:435-470 | the pruning rule gives the same answer with the two moves swapped |
| Cubes.NewCube | RubiksSolver/Cube.cs:555-563 | computes the fresh cube: face i filled with colour i |
| Cubes.SolvedFrom | RubiksSolver/Cube.cs:586-598 | computes the goal scan from face i on: fails at the first face that is not one colour or repeats a colour already seen, else records the colour and moves on |
| Cubes.IsSolved | RubiksSolver/Cube.cs:579-603 | computes the goal test as the scan from face 0 with no colours seen |
| Cubes.RotateBClock | RubiksSolver/Cube.cs:605-616 | computes the back clockwise turn: the edge chain 0 inner column → 5 outer row (flipped) → 2 outer column → 4 inner row (flipped) → 0, then face 3 rotated clockwise |
| Cubes.RotateBCounterClock | RubiksSolver/Cube.cs:618-629 | computes the back counter-clockwise turn: the chain 0 inner column (flipped) → 4 inner row → 2 outer column (flipped) → 5 outer row → 0, then face 3 rotated counter-clockwise |
| Cubes.RotateBHalf | RubiksSolver/Cube.cs:631-645 | computes the back half turn: column 0 inner and column 2 outer swapped (both flipped), row 4 inner and row 5 outer swapped (flipped), then face 3 rotated clockwise twice |
| Cubes.RotateFClock | RubiksSolver/Cube.cs:647-658 | computes the front clockwise turn: the chain 0 outer column (flipped) → 4 outer row → 2 inner column (flipped) → 5 inner row → 0, then face 1 rotated clockwise |
| Cubes.RotateFCounterClock | RubiksSolver/Cube.cs:660-671 | computes the front counter-clockwise turn: the chain 0 outer column → 5 inner row (flipped) → 2 inner column → 4 outer row (flipped) → 0, then face 1 rotated counter-clockwise |
| Cubes.RotateFHalf | RubiksSolver/Cube.cs:673-687 | computes the front half turn: column 0 outer and column 2 inner swapped (both flipped), row 4 outer and row 5 inner swapped (flipped), then face 1 rotated clockwise twice |
| Cubes.RotateLClock | RubiksSolver/Cube.cs:689-700 | computes the left clockwise turn: the chain 1 inner column → 5 inner column (flipped) → 3 outer column (flipped) → 4 inner column → 1, then face 0 rotated clockwise |
| Cubes.RotateLCounterClock | RubiksSolver/Cube.cs:702-713 | computes the left counter-clockwise turn: the chain 1 inner column → 4 inner column (flipped) → 3 outer column (flipped) → 5 inner column → 1, then face 0 rotated counter-clockwise |
| Cubes.RotateLHalf | RubiksSolver/Cube.cs:715-729 | computes the left half turn: column 1 inner and column 3 outer swapped (both flipped), the inner columns of 4 and 5 swapped, then face 0 rotated clockwise twice |
| Cubes.RotateRClock | RubiksSolver/Cube.cs:731-742 | computes the right clockwise turn: the chain 1 outer column → 4 outer column (flipped) → 3 inner column (flipped) → 5 outer column → 1, then face 2 rotated clockwise |
| Cubes.RotateRCounterClock | RubiksSolver/Cube.cs:744-755 | computes the right counter-clockwise turn: the chain 1 outer column → 5 outer column (flipped) → 3 inner column (flipped) → 4 outer column → 1, then face 2 rotated counter-clockwise |
| Cubes.RotateRHalf | RubiksSolver/Cube.cs:757-771 | computes the right half turn: column 1 outer and column 3 inner swapped (both flipped), the outer columns of 4 and 5 swapped, then face 2 rotated clockwise twice |
| Cubes.RotateDClock | RubiksSolver/Cube.cs:773-784 | computes the bottom clockwise turn: the bottom rows carried 0 → 1 → 2 → 3 → 0, then face 5 rotated clockwise |
| Cubes.RotateDCounterClock | RubiksSolver/Cube.cs:786-797 | computes the bottom counter-clockwise turn: the bottom rows carried 0 → 3 → 2 → 1 → 0, then face 5 rotated counter-clockwise |
| Cubes.RotateDHalf | RubiksSolver/Cube.cs:799-813 | computes the bottom half turn: bottom rows of 0 and 2, and of 1 and 3, swapped, then face 5 rotated clockwise twice |
| Cubes.RotateUClock | RubiksSolver/Cube.cs:815-826 | computes the top clockwise turn: the top rows carried 0 → 3 → 2 → 1 → 0, then face 4 rotated clockwise |
| Cubes.RotateUCounterClock | RubiksSolver/Cube.cs:828-839 | computes the top counter-clockwise turn: the top rows carried 0 → 1 → 2 → 3 → 0, then face 4 rotated counter-clockwise |
| Cubes.RotateUHalf | RubiksSolver/Cube.cs:841-855 | computes the top half turn: top rows of 0 and 2, and of 1 and 3, swapped, then face 4 rotated clockwise twice |
| Cubes.ApplyMove | RubiksSolver/Cube.cs:487-551 | computes the dispatch from each of the eighteen moves to its turn |
| Cubes.ApplyMoves | RubiksSolver/Cube.cs:477-485 | computes the left fold of ApplyMove over the list, first move first |
| Cubes.SolvedFromMeans | RubiksSolver/Cube.cs:586-598 | from any point of the scan with distinct valid colours seen so far, the scan succeeds exactly when every remaining face is one colour and repeats no colour of an earlier face |
| Cubes.IsSolvedMeans | RubiksSolver/Cube.cs:579-603 | a cube is solved exactly when all six faces are one colour and no two faces share a colour |
| Cubes.NewCubeIsSolved | RubiksSolver/Cube.cs:555-563 | the fresh cube has colour i on face i and is solved |
| TurnAlgebra.QuarterKeepsCounts | RubiksSolver/Cube.cs:605-855 | every clockwise quarter turn keeps the number of stickers of each colour |
| TurnAlgebra.ApplyMoveKeepsCounts | RubiksSolver/Cube.cs:487-551 | every move keeps the number of stickers of each colour |
| TurnAlgebra.ApplyMovePermutes | RubiksSolver/Cube.cs:487-551 | every move keeps the multiset of the 24 stickers |
| TurnAlgebra.BackTurnIdentities | RubiksSolver/Cube.cs:605-645 | the back face's quarter turns undo each other, its half turn is two clockwise quarter turns, and two half turns restore the cube |
| TurnAlgebra.FrontTurnIdentities | RubiksSolver/Cube.cs:647-687 | the same identities for the front face |
| TurnAlgebra.LeftTurnIdentities | RubiksSolver/Cube.cs:689-729 | the same identities for the left face |
| TurnAlgebra.RightTurnIdentities | RubiksSolver/Cube.cs:731-771 | the same identities for the right face |
| TurnAlgebra.DownTurnIdentities | RubiksSolver/Cube.cs:773-813 | the same identities for the bottom face |
| TurnAlgebra.UpTurnIdentities | RubiksSolver/Cube.cs:815-855 | the same identities for the top face |
| TurnAlgebra.ApplyMovesKeepsCounts | RubiksSolver/Cube.cs:477-485 | any move sequence keeps the number of stickers of each colour |
| TurnAlgebra.ApplyMovesPermutes | RubiksSolver/Cube.cs:477-485 | any move sequence keeps the multiset of the 24 stickers |
| TurnAlgebra.NewCubeCounts | RubiksSolver/Cube.cs:555-563 | the fresh cube holds four stickers of each colour 0 to 5 and none of any other |
| TurnAlgebra.ReachableHasFourOfEachColor | RubiksSolver/Cube.cs:477-485 | every cube reached from the fresh cube by moves holds four stickers of each colour 0 to 5 and none of any other |
| TurnAlgebra.ApplyMovesAppend | RubiksSolver/Cube.cs:477-485 | applying a concatenation applies the first part, then the second |
| TurnAlgebra.ApplyMovesSnoc | RubiksSolver/Cube.cs:477-485 | applying a list with one more move at its end is one more turn after the list |
| TurnAlgebra.Quarter | RubiksSolver/Cube.cs:487-551 | the clockwise quarter turn of face group g is the move with enumeration value 3g |
| TurnAlgebra.PowerAdd | RubiksSolver/Cube.cs:815-826 | a quarter turns of one face followed by b more are a + b quarter turns |
| TurnAlgebra.RightPowers | RubiksSolver/Cube.cs:731-771 | the right face's counter-clockwise turn is three clockwise quarter turns, its half turn two, and four restore the cube |
| TurnAlgebra.UpPowers | RubiksSolver/Cube.cs:815-855 | the same for the top face |
| TurnAlgebra.FrontPowers | RubiksSolver/Cube.cs:647-687 | the same for the front face |
| TurnAlgebra.LeftPowers | RubiksSolver/Cube.cs:689-729 | the same for the left face |
| TurnAlgebra.DownPowers | RubiksSolver/Cube.cs:773-813 | the same for the bottom face |
| TurnAlgebra.BackPowers | RubiksSolver/Cube.cs:605-645 | the same for the back face |
| TurnAlgebra.MoveIsPower | RubiksSolver/Cube.cs:487-551 | every move is one, three or two clockwise quarter turns of its own face (clockwise, counter-clockwise, half), and four quarter turns restore the cube |
| TurnAlgebra.PowerFour | RubiksSolver/Cube.cs:429-432 | four clockwise quarter turns of any face restore the cube, so a probe that misses in all four orientations leaves the cube as it was |
| TurnAlgebra.PowerMod | RubiksSolver/Cube.cs:219-223 | k quarter turns of a face equal k mod 4 of them |
| Search.Goal | RubiksSolver/Cube.cs:135 | computes the search goal: the whole cube solved, or in bottom-face mode face 5 one colour |
| Search.MaxMoveIndex | RubiksSolver/Cube.cs:101-109 | computes the last digit value: B2 (17) in bottom-face mode, F2 (8) otherwise |
| Search.DecentIndex | RubiksSolver/Cube.cs:160-168 | computes the pruning rule on raw digit values; a value outside the enumeration belongs to no face group and is accepted |
| Search.CarryIsDecent | RubiksSolver/Cube.cs:160-175 | the value one past the last allowed move passes the pruning rule against any allowed move |
| Search.BumpDigit | RubiksSolver/Cube.cs:150-175 | one pass raises the digit; a top digit rises by exactly one; any other digit either lands on a value accepted against the next digit, or rises past the last allowed value; every value it skipped is rejected against the next digit; no other digit changes |
| Search.Advance | RubiksSolver/Cube.cs:146-178 | one odometer step: digits below the stopping position are reset to 0 and digits above it are kept; the stopping digit is raised to a value accepted against the next digit and every value it skipped is rejected; only the top digit may pass the last allowed value; the digit string grows as a number |
| Search.OptimalSolve | RubiksSolver/Cube.cs:99-191 | an already-solved cube gives the empty list; a returned list has at most twelve moves and reaches the goal (whole cube solved, or bottom face one colour); for the full solve it uses only the nine R, U, F moves |
| LastLayer.PatternStickers | RubiksSolver/Cube.cs:408-419 | computes the twelve stickers a pattern talks about: the four top tiles, then tiles 0 and 1 of faces 0, 1, 2 and 3 |
| LastLayer.MatchesPattern | RubiksSolver/Cube.cs:408-419 | computes the match test: each pattern entry equals whether its sticker has the given colour |
| LastLayer.OrientPrefix | RubiksSolver/Cube.cs:421-424 | computes the recorded move for i top turns: none, U, U2 or U' |
| LastLayer.Orientation | RubiksSolver/Cube.cs:406-432 | the orientation found matches the pattern after that many clockwise top turns, and no earlier orientation does |
| LastLayer.OrientPrefixIsTurns | RubiksSolver/Cube.cs:421-424 | the recorded move (none, U, U2, U') has the effect of the top turns the probe made |
| LastLayer.CheckForPatternAndOrientUpFace | RubiksSolver/Cube.cs:401-433 | a pattern of any length other than 12 is an error; otherwise the probe reports a match exactly when some orientation matches; on a match the cube is turned to the first matching orientation and the equivalent move is recorded; after four misses the cube and list are unchanged |
| LastLayer.OllPatternsWellFormed | RubiksSolver/Cube.cs:361-388 | there are seven stored orientation cases, each with a twelve-entry pattern |
| LastLayer.OllOrientations | RubiksSolver/Cube.cs:361-388 | computes, for each of the seven stored cases in order, the orientation the probe finds |
| LastLayer.OllChoice | RubiksSolver/Cube.cs:361-388 | computes the else-if chain: the first case from k on whose probe matched, or past the end when none did |
| LastLayer.OllChoiceIsFirstFit | RubiksSolver/Cube.cs:361-388 | the chosen case fits in some orientation, and no case tried before it fits |
| LastLayer.DoOLL | RubiksSolver/Cube.cs:357-392 | when no case fits, cube and list are unchanged; otherwise the orientation move and the first fitting case's algorithm are appended, and the cube is exactly the old cube with the appended moves applied |
| LastLayer.PairedRowFace | RubiksSolver/Cube.cs:280-295 | the scan gives -1 exactly when no side face has a one-colour row, the face itself when it is the only one, and -2 exactly when two or more have |
| LastLayer.AlignTop | RubiksSolver/Cube.cs:297-300 | computes the top alignment: U', U or U2 for a single paired top row on face 0, 2 or 3, else nothing |
| LastLayer.AlignBottom | RubiksSolver/Cube.cs:302-305 | computes the bottom alignment: D, D' or D2 for a single paired bottom row on face 0, 2 or 3, else nothing |
| LastLayer.AlignOnlyOffFront | RubiksSolver/Cube.cs:297-305 | an alignment turn is added exactly when the single paired row is on face 0, 2 or 3: U' / D, U / D', U2 / D2 respectively |
| LastLayer.CannedPll | RubiksSolver/Cube.cs:309-347 | computes the concatenation of the eight independent stored-algorithm tests on the two classifications |
| LastLayer.CannedPllIsTable | RubiksSolver/Cube.cs:309-347 | at most one of the eight stored tests fires for any classification, so they form a table on the three-by-three classes, and nothing is added exactly when both layers have several paired rows |
| LastLayer.PllMoves | RubiksSolver/Cube.cs:297-347 | computes the permutation moves: top alignment, bottom alignment, then the stored algorithms |
| LastLayer.DoPLL | RubiksSolver/Cube.cs:276-355 | the step appends the alignment turns then the algorithm for the class pair, at most thirteen moves, and applies exactly what it appends; it appends nothing exactly when both layers have several paired rows |
| LastLayer.TopTurnsMoveTopRows | RubiksSolver/Cube.cs:815-855 | after U, U' or U2 the front top row has the state of the right, left or back top row, and the front bottom row keeps its state |
| LastLayer.BottomTurnsMoveBottomRows | RubiksSolver/Cube.cs:773-813 | after D, D' or D2 the front bottom row has the state of the left, right or back bottom row, and the front top row keeps its state |
| LastLayer.AlignTopWorks | RubiksSolver/Cube.cs:297-300 | the top alignment brings the single paired top row to the front and leaves the bottom-row classification unchanged |
| LastLayer.AlignBottomWorks | RubiksSolver/Cube.cs:302-305 | the bottom alignment brings the single paired bottom row to the front and keeps the front top row's state |
| LastLayer.AlignmentBringsPairsToFront | RubiksSolver/Cube.cs:297-305 | after both alignment turns, a single paired top row and a single paired bottom row are both on the front face |
| Simplify.FixFrom | RubiksSolver/Cube.cs:233-273 | computes the backward scan from index i: a same-face pair (s[i-1], s[i]) is replaced by its collapse and the index steps back by one, or by two when the pair vanished |
| Simplify.FixSymmetry | RubiksSolver/Cube.cs:231-274 | computes the simplifier as written: the scan from the last index |
| Simplify.CollapsePair | RubiksSolver/Cube.cs:240-271 | a same-face pair is replaced by at most one move, of the same face |
| Simplify.FixFromShape | RubiksSolver/Cube.cs:231-274 | the scan never lengthens the list and leaves a list without same-face neighbours unchanged |
| Simplify.FixSymmetryShape | RubiksSolver/Cube.cs:231-274 | both simplifiers never lengthen the list and return a list without same-face neighbours unchanged |
| Simplify.HalfTurnsAreMagnitudeTwo | RubiksSolver/Cube.cs:244 | the listed half turns are exactly the moves whose enumeration value is 2 mod 3 |
| Simplify.PairIsPower | RubiksSolver/Cube.cs:477-551 | two moves of one face amount to the sum of their quarter turns, mod 4 |
| Simplify.SingleMoveIsPower | RubiksSolver/Cube.cs:477-551 | a one-move list is that move's number of quarter turns of its face |
| Simplify.ComposedIsPair | RubiksSolver/Cube.cs:477-551 | the reference composition of a same-face pair (at most one move) has the pair's effect on every cube |
| Simplify.SameMoveCollapse | RubiksSolver/Cube.cs:241-253 | a move followed by itself collapses to the composition: X X and X' X' to X2, X2 X2 to nothing |
| Simplify.SameMoveRules | RubiksSolver/Cube.cs:241-253 | for every face, X X and X' X' become X2 and X2 X2 vanishes |
| Simplify.NeighbourCollapse | RubiksSolver/Cube.cs:254-266 | for values one apart the corrected collapse is the composition; the as-written one is too except on X' X2 and X2 X', which it turns into X' where the composition is X |
| Simplify.QuarterNeighbourCollapse | RubiksSolver/Cube.cs:260-265 | X X' and X' X vanish, as written, corrected and composed |
| Simplify.HalfNeighbourCollapse | RubiksSolver/Cube.cs:256-259 | X' X2 and X2 X' collapse to X when corrected, as the composition does, and to X' as written |
| Simplify.QuarterPairRules | RubiksSolver/Cube.cs:254-266 | for every face, X X' and X' X vanish |
| Simplify.ClockHalfCollapse | RubiksSolver/Cube.cs:267-271 | X X2 and X2 X collapse to the composition X' |
| Simplify.HalfTurnRules | RubiksSolver/Cube.cs:254-271 | for every face, X X2 and X2 X become X'; X' X2 and X2 X' become X' as written and X when corrected |
| Simplify.CollapseTable | RubiksSolver/Cube.cs:240-271 | over all same-face pairs the corrected collapse equals the composition; the as-written one differs exactly on X' X2 and X2 X' |
| Simplify.CollapseKeepsCube | RubiksSolver/Cube.cs:240-271 | the corrected collapse, and the as-written one away from X' X2 and X2 X', has the pair's effect on every cube |
| Simplify.SpliceKeepsCube | RubiksSolver/Cube.cs:240-271 | replacing a same-face pair inside a list by its corrected collapse keeps the list's effect on every cube |
| Simplify.FixFromCorrectedKeepsCube | RubiksSolver/Cube.cs:233-273 | the corrected scan from any position keeps the list's effect on every cube |
| Simplify.FixSymmetryCorrectedKeepsCube | RubiksSolver/Cube.cs:231-274 | the corrected simplifier returns a list with the same effect as its input on every cube |
| Simplify.CounterClockThenHalfIsClock | RubiksSolver/Cube.cs:744-771 | R' followed by R2 is a single clockwise R on every cube |
| Simplify.CollapseCounterClockHalfAsWrittenDiffers | RubiksSolver/Cube.cs:256-259 | as written, R' R2 collapses to R', and on the fresh cube R' R2 and R' give different cubes |
| Simplify.CollapseCounterClockHalfCorrected | RubiksSolver/Cube.cs:256-259 | the corrected collapse of R' R2 is R, with the pair's effect on every cube |
| Simplify.FixSymmetryLeavesNewNeighbours | RubiksSolver/Cube.cs:260-265 | after U U' is removed from R U U' R', the newly adjacent R R' is not looked at: the result is R R' |
| QuickSolver.OppositeColor | RubiksSolver/Cube.cs:205-207 | computes the assumed top colour from the bottom colour by the source's subtract-two-and-wrap arithmetic, 4 and 5 swapped |
| QuickSolver.OppositeColorIsOppositeFace | RubiksSolver/Cube.cs:205-207 | the assumed top colour is the colour of the opposite face of the fresh cube; the map is an involution on 0 to 5 with no fixed point |
| QuickSolver.TopTurnsArePower | RubiksSolver/Cube.cs:219-223 | k recorded U moves have the effect of k clockwise top turns |
| QuickSolver.NeverSolvedByTopTurns | RubiksSolver/Cube.cs:219-223 | a cube that none of the four top orientations solves is solved by no number of top turns |
| QuickSolver.TurnTopUntilSolved | RubiksSolver/Cube.cs:219-223 | either fewer than four top turns solve the cube and no smaller number does, or no number of top turns ever solves it (the source loop never ends) |
| QuickSolver.OllStage | RubiksSolver/Cube.cs:203-216 | after the orientation stage the list extends the old one and the cube is the input with the whole list applied |
| QuickSolver.PllInStep | RubiksSolver/Cube.cs:217 | the permutation step keeps the list extended and the cube equal to the input with the whole list applied |
| QuickSolver.LastLayerStages | RubiksSolver/Cube.cs:203-217 | after both last-layer stages the list extends the bottom-face moves and the cube is the input with the whole list applied |
| QuickSolver.QuickSolve | RubiksSolver/Cube.cs:193-229 | unless the bottom search fails, some prefix of at most twelve moves makes the bottom face one colour; a solved outcome's unsimplified list solves the cube, the returned list is the as-written simplification and is no longer, and the corrected simplification also solves the cube; a stuck outcome's cube is solved by no number of top turns |

## Left out

- Program.cs, the interactive console loop, is not part of this model.
- `Scramble` is left out because it depends on a random source. Its pruning rule is `Moves.IsDecentNextMove`.
- The console output and `feedBack` flags are left out. So are the `amountChecked` counter and the unused `movesChecked` list. None of them affects a result.
- `ToString` and both `ToFriendlyString` overloads are left out because they only format text.
- `Contains` is folded into `Moves.IsDecentNextMove`.
- The copy constructors `Face(Face)` and `Cube(Cube)` are the identity on values.
- The aliasing constructors `Face(int[])` and `Cube(Face[])` share the caller's arrays, and values cannot share state. Only a face of exactly four tiles is representable, so nothing models a tile array of another length.
- `ApplyMove`'s silent `default` branch is left out because `Move` has no value outside the enumeration.
- Search.OptimalSolve: does not state that the search is complete up to twelve moves, nor that the returned list is the first in the odometer's order and so of minimal length among the lists the odometer visits. It only states that a returned list is short, reaches the goal and, for the full solve, stays in the nine-move alphabet.
- Search.OptimalSolve: does not state that a returned list obeys the pruning rule between neighbours. The source does not guarantee this either: digits reset to R after a carry are never checked, so candidates such as [R, R'] at depth 2 are tried.
- QuickSolver.QuickSolve: does not state that the as-written simplified list solves the cube. The Findings row shows a collapse that changes the cube, so it need not. The property is proved for the corrected simplification instead.
- Exceptions and non-termination become results: `Err(PatternOfWrongLength)` for the pattern check, `None` for the search, and `BottomSearchFailed` and `NeverSolved` for the quick solver.

## Findings

| source | as written | input that shows it | evidently intended | confidence | as-written member | corrected member |
|---|---|---|---|---|---|---|
| RubiksSolver/Cube.cs:256-258 | a counter-clockwise quarter turn next to the half turn of the same face (X' X2 or X2 X') is replaced by the larger value minus one, X' | R' R2 on the fresh cube: collapsed to R', while R' R2 is R | the pair's composition, X (the smaller value minus one) | not executed | Simplify.CollapseCounterClockHalfAsWrittenDiffers | Simplify.FixSymmetryCorrectedKeepsCube |
