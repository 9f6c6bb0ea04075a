# Material-configuration evaluator (Stockfish `Material::probe`)

A Dafny model of the material evaluator of a chess engine (a multi-variant
Stockfish): given how many pieces of each type each side has, it fills an
entry of a per-worker, direct-mapped material hash table with

- an optional specialised evaluation routine, which replaces generic evaluation;
- an optional scaling routine per side;
- a numeric scale factor per side, for drawish material;
- the polynomial material-imbalance score, White minus Black, divided by 16;
- the game phase.

Modules:

- `Types` (`types.dfy`): colours and per-colour pairs (`ByColor`), the
  position as the evaluator sees it (per-side piece counts and non-pawn
  material, the material key, the variant code and the game phase), and the
  engine constants. It also spells out the C++ conversions explicitly:
  `Uint8` (`uint8_t(x)`), `Int16` (`int16_t(x)`, two's-complement wrap) and
  `TruncDiv` (C++ `/`, truncating toward zero; Dafny's `/` is Euclidean).
- `Classifiers` (`classifiers.dfy`): the pattern predicates `is_KXK`,
  `is_KBPsKs` and `is_KQKRPs`.
- `Imbalance` (`imbalance.dfy`): the four coefficient tables as they stand,
  each row zero-filled to eight columns (the model takes `PIECE_TYPE_NB` to
  be 8; the partial initialisers leave the missing entries zero). Also the count vector whose
  slot 0 is the bishop-pair indicator, the closed form `Bonus`, and
  `ComputeImbalance`, the nested accumulation loops of `imbalance<Us>`,
  proved equal to the closed form.
- `Material` (`material.dfy`): the entry, the routine tags and the registry.
  `Compute` gives the contents of a freshly filled slot as the priority chain
  of rules. `Probe` works on an `array<Entry>` slot in place, step by step,
  as the source does, and is proved to leave exactly `Compute`'s result in
  the slot on a miss and to change nothing on a hit.

The piece values (`BishopValueMg`, `RookValueMg`, `QueenValueMg`), the scale
factors (`ScaleFactorDraw`, `ScaleFactorOnePawn`, `ScaleFactorNormal`) and the
antichess variant code are defined in headers that are not part of this
model. They are declared as constants without a value. A lemma that needs an
ordering among them, such as `RookValueMg > 0`, states it as a precondition.
The literal factors 4 and 14 are kept as written.

The specialised routines are opaque tags (`EvalFn`, `ScaleFn`). The
registry the engine consults is an input: two maps from the key
(`material_key ^ variant`) to a registered evaluator and to a registered
scaler with its strong side.

Consequences of the code's control flow that the model makes explicit:

- A registered scaling routine makes `probe` return at once
  (src/material.cpp:186-190). The numeric factor rules therefore do not run
  in that case, and both factors stay normal (`RegisteredScalerStrongSideOnly`).
- Both sides can match the KBPsKs pattern at once, one bishop and pawns
  each, and then both get a KBPsK scaler (`KBPsKsBothSides`).
- The one-pawn factor assignments come after the no-pawn ones
  (src/material.cpp:233-245), but the two conditions (no pawn, exactly one
  pawn) exclude each other, so no assignment is ever overwritten.
  `FactorRules` states the resulting cases.
- The KXK loop tries White first (src/material.cpp:175). When both sides
  match, which needs a side without a king (possible in antichess), White
  gets the evaluator in both colour orders, so `probe` is not
  colour-symmetric there (`KXKPriorityNotSymmetric`). When exactly one
  colour matches, the mirrored material gives the evaluator to the other
  colour (`KXKSwap`), and away from the early returns the filled entry
  mirrors (`ComputeSwap`). A registry hit is keyed by material and variant,
  which the colour exchange here leaves alone, so nothing is said about
  mirroring there.

## Model

| member | source | states |
|---|---|---|
| `Types.Uint8` | src/material.cpp:166 | the `uint8_t` conversion lands in 0..255, is congruent to its argument modulo 256 and leaves values already in range alone |
| `Types.Int16` | src/material.cpp:256 | the `int16_t` narrowing lands in -32768..32767, is congruent modulo 65536 and leaves in-range values alone |
| `Types.TruncDiv` | src/material.cpp:256 | C++ division: the remainder has the sign of the dividend and is smaller than the divisor, i.e. the quotient truncates toward zero |
| `Types.TruncDivOdd` | src/material.cpp:256 | truncating division commutes with negation |
| `Types.Int16Odd` | src/material.cpp:256 | the 16-bit narrowing commutes with negation except at -32768 |
| `Classifiers.IsKXK` | src/material.cpp:91-94 | when the opponent has one king, a KXK match means that king is all the opponent has |
| `Classifiers.IsKBPsKs` | src/material.cpp:96-100 | a side matching KBPsKs (a bishop and pawns) is never the bare side of a KXK match for its opponent |
| `Classifiers.IsKQKRPs` | src/material.cpp:102-108 | a side matching KQKRPs never matches KBPsKs (it has no pawn) |
| `Classifiers.KXKIsLoneKing` | src/material.cpp:91-94 | with one opposing king, `is_KXK` holds iff the opponent has no pawn or piece besides the king and own non-pawn material is at least a rook |
| `Classifiers.KQKRPsOneSideOnly` | src/material.cpp:102-108 | `is_KQKRPs` never holds for both colours |
| `Classifiers.KBPsKsBothSides` | src/material.cpp:96-100 | `is_KBPsKs` can hold for both colours at once (bishop and pawns each) |
| `Classifiers.ClassifiersSwap` | src/material.cpp:91-108 | each pattern test gives the same answer with colours exchanged |
| `Imbalance.TablesFor` | src/material.cpp:34-79 | the selected table pair is well formed and has one row per scored piece type: six normally, seven (king included) in antichess |
| `Imbalance.CountsOf` | src/material.cpp:250-254 | the count vector has eight slots; slot 0 is 1 exactly when the side has more than one bishop and 0 otherwise; the king slot is 0 |
| `Imbalance.ComputeImbalance` | src/material.cpp:112-145 | the nested loops, skipping absent piece types and choosing the antichess tables and king bound when asked, return the closed form Σ_{pt1} c[Us][pt1]·Σ_{pt2≤pt1}(Ours[pt1][pt2]·c[Us][pt2] + Theirs[pt1][pt2]·c[Them][pt2]) |
| `Imbalance.TablesAreTriangular` | src/material.cpp:34-79 | in all four coefficient tables every entry above the diagonal is zero |
| `Imbalance.PieceCounts` | src/material.cpp:250-254 | both count vectors have eight slots; slot 0 is 1 exactly when that side has more than one bishop; the pawn slot is the pawn count; the king slot is 0 |
| `Imbalance.Value` | src/material.cpp:256 | the stored value fits in 16 bits and is 0 when both sides hold the same material |
| `Imbalance.RowSumPairStep` | src/material.cpp:131-139 | in any row, setting the bishop-pair slot from 0 to 1 raises the inner sum by that row's pair coefficient |
| `Imbalance.BishopPairStep` | src/material.cpp:126-141 | gaining the bishop pair with every other count unchanged changes a side's imbalance by exactly the pair coefficient, the pair-against-pair term and the pair-column term of every other piece type held |
| `Imbalance.RowSumTheirPairStep` | src/material.cpp:131-139 | in any row of the opponent's sum, the gaining side's pair slot going from 0 to 1 raises the inner sum by that row's "their pieces" pair coefficient |
| `Imbalance.OpponentPairStep` | src/material.cpp:126-141 | when a side gains the bishop pair, every other count unchanged, the opponent's imbalance changes by Σ_{pt1} c[Them][pt1]·Theirs[pt1][0] |
| `Imbalance.PairDifferenceStep` | src/material.cpp:256 | the difference of the two imbalances, before the division by 16, moves by the gaining side's pair terms minus the opponent's pair column |
| `Imbalance.EmptySideScoresZero` | src/material.cpp:126-141 | a side whose counts are all zero scores 0 whatever the opponent holds |
| `Imbalance.RowSumReadsLowerTriangle` | src/material.cpp:131-139 | the inner sum for row pt1 reads only coefficients with pt2 <= pt1 |
| `Imbalance.BonusReadsLowerTriangle` | src/material.cpp:131-141 | two table pairs that agree on the lower triangle give the same imbalance |
| `Imbalance.AntiKingRowNeverScores` | src/material.cpp:121-127 | in antichess the king row adds nothing, because the count vector holds no king count |
| `Imbalance.ValueSwap` | src/material.cpp:250-256 | exchanging the colours' counts negates the stored value (except for the one 16-bit value with no negation) |
| `Imbalance.LonePawnImbalance` | src/material.cpp:34-54 | a lone pawn against a bare king gives its side an imbalance of 2 (the pawn-with-pawn coefficient) and the other side 0 |
| `Imbalance.EuclideanDivisionBreaksSymmetry` | src/material.cpp:256 | for that difference of 2, Euclidean division gives 0 and -1 for the two colour orders, while truncation gives 0 both ways |
| `Imbalance.TwoBishopsAgainstKnight` | src/material.cpp:34-54 | two bishops against a knight gives White 1751, Black 6 and a stored value of 109, as recomputed from the tables |
| `Material.KeyOf` | src/material.cpp:158 | the cache key xor the variant code gives back the material key |
| `Material.PatternScaler` | src/material.cpp:195-202 | a side gets no pattern routine exactly when it matches neither KBPsKs nor KQKRPs, and otherwise a routine tagged with its own colour |
| `Material.PawnsOnlyScalers` | src/material.cpp:204-228 | away from pawns-only material the routines are untouched; a side's routine changes only to KPsK when it has pawns and the other side none, or to KPKP when each side has exactly one pawn |
| `Material.GenericScalers` | src/material.cpp:195-228 | the generic rules never store a registered routine, and every routine they store is tagged with the side it is stored for |
| `Material.Factor` | src/material.cpp:233-245 | each factor is one of NORMAL, DRAW, 4, 14 or ONEPAWN; a side with two or more pawns, or with a non-pawn lead above a bishop, keeps NORMAL |
| `Material.Compute` | src/material.cpp:164-256 | the filled entry carries the key and the game phase; when an evaluation routine or a registered scaler is stored, the factors stay normal and the value stays 0 |
| `Material.Reset` | src/material.cpp:164-167 | a missed slot gets the new key, the game phase, normal factors on both sides, no routine and value 0 before any rule runs |
| `Material.Probe` | src/material.cpp:156-258 | the slot is `key % N`; on a hit the table is unchanged; on a miss only that slot changes, and it holds the filled entry, overwriting any previous occupant; afterwards the slot holds the key, so an immediate second probe hits |
| `Material.ResetSlot` | src/material.cpp:164-167 | clearing and stamping changes only the probed slot, which then holds the reset entry |
| `Material.SetPatternScalers` | src/material.cpp:195-202 | per colour: KBPsK if that side matches it, else KQKRPs if it matches that, else nothing; only the scaling routines of the slot change |
| `Material.SetPawnsOnlyScalers` | src/material.cpp:204-228 | the pawns-only rules change only the scaling routines of the slot |
| `Material.SetFactors` | src/material.cpp:233-245 | the four factor assignments leave each side's factor as the no-pawn rule followed by the one-pawn rule; nothing else changes |
| `Material.RegisteredEvaluatorIsAuthoritative` | src/material.cpp:172-173 | a registered evaluator is stored alone: no scaling routine, normal factors, value 0 |
| `Material.KXKIsAuthoritative` | src/material.cpp:175-180 | otherwise the first colour (White first) matching KXK gets its KXK evaluator, and nothing else is filled in |
| `Material.EvaluationFunctionSetExactly` | src/material.cpp:172-180 | an evaluation routine is set iff a registered evaluator or a KXK pattern applies |
| `Material.RegisteredScalerStrongSideOnly` | src/material.cpp:184-190 | a registered scaler is stored only for its strong side; the other side's routine, both factors and the value keep their reset contents |
| `Material.KXKBeatsRegisteredScaler` | src/material.cpp:172-190 | a KXK pattern wins over a registered scaler: no scaling routine is stored |
| `Material.PatternScalersPerSide` | src/material.cpp:195-228 | without an early return, each side independently gets KBPsK if it matches, else KQKRPs if it matches, and the pawns-only rules cannot overwrite these; a side matching neither gets no routine unless the material is pawns only |
| `Material.GenericScalersSwap` | src/material.cpp:195-228 | exchanging the colours exchanges the generic scaling routines between the sides and retags them for the other colour |
| `Material.ComputeSwap` | src/material.cpp:164-256 | without an early return in either colour order, the mirrored material gets mirrored routines, exchanged factors and the negated value |
| `Material.KXKSwap` | src/material.cpp:175-180 | when exactly one colour matches KXK and no evaluator is registered, that colour gets the KXK evaluator, and with the colours exchanged the other colour does |
| `Material.KXKPriorityNotSymmetric` | src/material.cpp:175-180 | with one rook each and no king both sides match KXK, and White gets the evaluator in both colour orders |
| `Material.PawnsOnlyRules` | src/material.cpp:204-228 | with only kings and pawns: KPsK for the side with pawns when the other has none, KPKP for both when each has one pawn, nothing otherwise |
| `Material.FactorRules` | src/material.cpp:233-245 | a side whose non-pawn lead is at most a bishop gets DRAW, 4 or 14 with no pawn and ONEPAWN with one pawn; every other side keeps NORMAL |
| `Material.FactorSwap` | src/material.cpp:233-245 | the factor rules mirror under exchanging the colours |
| `Material.BareKings` | src/material.cpp:233-256 | bare kings: DRAW on both sides, value 0, no routine |
| `Material.LoneRook` | src/material.cpp:175-180 | king and rook against a lone king: White's KXK evaluator |
| `Material.OnePawnEach` | src/material.cpp:207-245 | one pawn each and no pieces: KPKP on both sides and the one-pawn factor on both sides |

## Left out

- The endgame routines themselves (KXK, KBPsK, KQKRPs, KPsK, KPKP and the registered ones) are not part of this model. Their code is not part of it, so they are opaque tags.
- The registry's construction and lookup internals are not modelled. The registry is an input of two maps keyed like the cache.
- `Position`, bitboards and `more_than_one` are replaced by per-side piece counts. The non-pawn material and the game phase are inputs. Nothing ties the non-pawn material to the counts, as the position maintains it incrementally.
- The thread-local table and the hash table's slot computation are not modelled. The model uses a single owned `array<Entry>` indexed by `key % N`.
- The raw `memset` is modelled as assigning an all-zero entry.
- The debug assertions at src/material.cpp:211 and :217 are left out. They depend on which signatures the registry holds.
- The numeric values of the piece values, the scale-factor constants and the antichess variant code are left symbolic. They are defined in headers that are not part of this model.
- The model is of a build with antichess support compiled in. Without it, the antichess branch of `imbalance` does not exist.
- `ComputeImbalance`: the 32-bit `int` accumulators are unbounded here. For realistic piece counts they cannot overflow.
- `ValueSwap`: stated for every value except -32768, the one 16-bit value whose negation does not fit.
- The accessors of the entry declared in the header (which read `factor` or call the routines) are not part of this model.
- `IsAnti` is modelled as `variant == AntiVariant`. `Position::is_anti()` is defined in a header that is not part of this model.
- `PIECE_TYPE_NB` is taken to be 8 (`PieceTypeNb`). Its definition is in a header that is not part of this model.
- `BishopPairStep`: going from one bishop to two also raises the bishop slot itself, so that step adds the second bishop's own row and column terms on top of the bishop-pair change the lemma states. The lemma isolates the pair slot. The opponent's imbalance moves too (`OpponentPairStep`), and `PairDifferenceStep` gives the exact change of the difference. The stored value is that difference truncated by 16, so its change is exact only up to that truncation.
