/** The material hash table: its entries, the registry of specialised
    routines it consults, the value a missed slot is filled with, and
    `probe`, which looks a position up and fills its slot on a miss. */
module Material {
  import opened Types
  import opened Classifiers
  import opened Imbalance

  /** A full-evaluation routine, as an opaque tag. */
  datatype EvalFn = NoEvaluation | RegisteredEval(id: nat) | EvaluateKXK(strong: Color)

  /** A scaling routine, as an opaque tag naming the side it is for. */
  datatype ScaleFn =
    | NoScaling
    | RegisteredScale(id: nat, strongSide: Color)
    | ScaleKBPsK(c: Color)
    | ScaleKQKRPs(c: Color)
    | ScaleKPsK(c: Color)
    | ScaleKPKP(c: Color)

  datatype Entry = Entry(key: Key, evaluationFunction: EvalFn,
                         scalingFunction: ByColor<ScaleFn>, factor: ByColor<int>,
                         value: int, gamePhase: int)

  /** A registered scaling routine and the side it favours. */
  datatype Scaler = Scaler(id: nat, strongSide: Color)

  /** The engine's signature-keyed registry of specialised routines. */
  datatype Registry = Registry(evaluators: map<Key, nat>, scalers: map<Key, Scaler>)

  /** An all-zero entry, as left by clearing its memory. */
  const ZeroEntry := Entry(0, NoEvaluation, ByColor(NoScaling, NoScaling), ByColor(0, 0), 0, 0)

  /** The cache key: the material key combined with the variant code. */
  function KeyOf(pos: Position): (k: Key)
    ensures k ^ pos.variant == pos.materialKey
  {
    pos.materialKey ^ pos.variant
  }

  /** The slot after it has been cleared and stamped, before any rule runs. */
  function Reset(pos: Position): (e: Entry)
    ensures e.key == KeyOf(pos) && e.gamePhase == pos.gamePhase
    ensures e.evaluationFunction == NoEvaluation && e.value == 0
    ensures e.scalingFunction == ByColor(NoScaling, NoScaling)
    ensures e.factor == ByColor(Uint8(ScaleFactorNormal), Uint8(ScaleFactorNormal))
  {
    ZeroEntry.(key := KeyOf(pos),
               factor := ByColor(Uint8(ScaleFactorNormal), Uint8(ScaleFactorNormal)),
               gamePhase := pos.gamePhase)
  }

  /** True when one of the rules that end the computation early applies. */
  predicate EndsEarly(pos: Position, reg: Registry) {
    KeyOf(pos) in reg.evaluators || IsKXK(pos, White) || IsKXK(pos, Black)
    || KeyOf(pos) in reg.scalers
  }

  /** The generic pattern scaler of one side. */
  function PatternScaler(pos: Position, c: Color): (s: ScaleFn)
    ensures s == NoScaling <==> !IsKBPsKs(pos, c) && !IsKQKRPs(pos, c)
    ensures s == NoScaling || s == ScaleKBPsK(c) || s == ScaleKQKRPs(c)
  {
    if IsKBPsKs(pos, c) then ScaleKBPsK(c)
    else if IsKQKRPs(pos, c) then ScaleKQKRPs(c)
    else NoScaling
  }

  /** True when neither side has non-pawn material and some pawn is on the board. */
  predicate OnlyPawns(pos: Position) {
    pos.army.white.npm + pos.army.black.npm == 0
    && pos.army.white.pawns + pos.army.black.pawns > 0
  }

  /** The scaling routines after the pawns-only rules have run on `sf`. */
  function PawnsOnlyScalers(pos: Position, sf: ByColor<ScaleFn>): (r: ByColor<ScaleFn>)
    ensures !OnlyPawns(pos) ==> r == sf
    ensures forall c: Color :: r.Get(c) != sf.Get(c) ==>
              (r.Get(c) == ScaleKPsK(c) && pos.army.Get(c).pawns > 0 && pos.army.Get(c.Opp()).pawns == 0)
              || (r.Get(c) == ScaleKPKP(c) && pos.army.white.pawns == pos.army.black.pawns == 1)
  {
    var w, b := pos.army.white.pawns, pos.army.black.pawns;
    if !OnlyPawns(pos) then sf
    else if b == 0 then sf.Set(White, ScaleKPsK(White))
    else if w == 0 then sf.Set(Black, ScaleKPsK(Black))
    else if w == 1 && b == 1 then ByColor(ScaleKPKP(White), ScaleKPKP(Black))
    else sf
  }

  /** The scaling routines once every non-authoritative rule has run. */
  function GenericScalers(pos: Position): (r: ByColor<ScaleFn>)
    ensures forall c: Color :: r.Get(c) == NoScaling || (!r.Get(c).RegisteredScale? && r.Get(c).c == c)
  {
    PawnsOnlyScalers(pos, ByColor(PatternScaler(pos, White), PatternScaler(pos, Black)))
  }

  /** The scale factor of side `c`: the no-pawn rule, then the one-pawn rule
      written over it. */
  function Factor(pos: Position, c: Color): (f: int)
    ensures f in {Uint8(ScaleFactorNormal), Uint8(ScaleFactorDraw), 4, 14, Uint8(ScaleFactorOnePawn)}
    ensures pos.army.Get(c).pawns >= 2 ==> f == Uint8(ScaleFactorNormal)
    ensures pos.army.Get(c).npm - pos.army.Get(c.Opp()).npm > BishopValueMg ==> f == Uint8(ScaleFactorNormal)
  {
    var us, them := pos.army.Get(c), pos.army.Get(c.Opp());
    var f0 := Uint8(ScaleFactorNormal);
    var f1 := if us.pawns == 0 && us.npm - them.npm <= BishopValueMg
              then Uint8(if us.npm < RookValueMg then ScaleFactorDraw
                         else if them.npm <= BishopValueMg then 4 else 14)
              else f0;
    if us.pawns == 1 && us.npm - them.npm <= BishopValueMg then Uint8(ScaleFactorOnePawn) else f1
  }

  /** The content of a slot filled for `pos`: the priority chain of rules. */
  function Compute(pos: Position, reg: Registry): (e: Entry)
    ensures e.key == KeyOf(pos) && e.gamePhase == pos.gamePhase
    ensures e.evaluationFunction != NoEvaluation ==>
      e.scalingFunction == ByColor(NoScaling, NoScaling) && e.value == 0
      && e.factor == ByColor(Uint8(ScaleFactorNormal), Uint8(ScaleFactorNormal))
    ensures e.scalingFunction.white.RegisteredScale? || e.scalingFunction.black.RegisteredScale? ==>
      e.evaluationFunction == NoEvaluation && e.value == 0
      && e.factor == ByColor(Uint8(ScaleFactorNormal), Uint8(ScaleFactorNormal))
  {
    var key := KeyOf(pos);
    var e := Reset(pos);
    if key in reg.evaluators then e.(evaluationFunction := RegisteredEval(reg.evaluators[key]))
    else if IsKXK(pos, White) then e.(evaluationFunction := EvaluateKXK(White))
    else if IsKXK(pos, Black) then e.(evaluationFunction := EvaluateKXK(Black))
    else if key in reg.scalers then
      var sf := reg.scalers[key];
      e.(scalingFunction := e.scalingFunction.Set(sf.strongSide, RegisteredScale(sf.id, sf.strongSide)))
    else
      e.(scalingFunction := GenericScalers(pos),
         factor := ByColor(Factor(pos, White), Factor(pos, Black)),
         value := Value(pos))
  }

  /** `Material::probe`: on a hit the slot is returned untouched; on a miss it
      is cleared, stamped with the key and filled rule by rule. A miss
      overwrites whatever the slot held before. */
  method Probe(table: array<Entry>, pos: Position, reg: Registry) returns (i: nat)
    requires table.Length > 0
    modifies table
    ensures i == (KeyOf(pos) as int) % table.Length
    ensures old(table[i]).key == KeyOf(pos) ==> table[..] == old(table[..])
    ensures old(table[i]).key != KeyOf(pos) ==> table[..] == old(table[..])[i := Compute(pos, reg)]
    ensures table[i].key == KeyOf(pos)
  {
    var key := KeyOf(pos);
    i := (key as int) % table.Length;
    if table[i].key == key {
      return;
    }

    ResetSlot(table, i, pos);

    if key in reg.evaluators {
      table[i] := table[i].(evaluationFunction := RegisteredEval(reg.evaluators[key]));
      return;
    }

    var colors := [White, Black];
    for k := 0 to 2
      invariant table[..] == old(table[..])[i := Reset(pos)]
      invariant forall m :: 0 <= m < k ==> !IsKXK(pos, colors[m])
    {
      var c := colors[k];
      if IsKXK(pos, c) {
        table[i] := table[i].(evaluationFunction := EvaluateKXK(c));
        assert k == 1 ==> !IsKXK(pos, colors[0]);
        return;
      }
    }

    assert !IsKXK(pos, colors[0]) && !IsKXK(pos, colors[1]);

    if key in reg.scalers {
      var sf := reg.scalers[key];
      table[i] := table[i].(scalingFunction :=
        table[i].scalingFunction.Set(sf.strongSide, RegisteredScale(sf.id, sf.strongSide)));
      return;
    }

    SetPatternScalers(table, i, pos);
    SetPawnsOnlyScalers(table, i, pos);
    SetFactors(table, i, pos);

    var pieceCount := PieceCounts(pos);
    var bonusW := ComputeImbalance(White, pieceCount, IsAnti(pos));
    var bonusB := ComputeImbalance(Black, pieceCount, IsAnti(pos));
    assert bonusW == SideBonus(pieceCount, White, IsAnti(pos));
    assert bonusB == SideBonus(pieceCount, Black, IsAnti(pos));
    assert table[i] == Compute(pos, reg).(value := table[i].value);
    table[i] := table[i].(value := Int16(TruncDiv(bonusW - bonusB, 16)));
  }

  /** Clears slot i and stamps it with the key, the normal factors and the game phase. */
  method ResetSlot(table: array<Entry>, i: nat, pos: Position)
    requires i < table.Length
    modifies table
    ensures table[..] == old(table[..])[i := Reset(pos)]
  {
    table[i] := ZeroEntry;
    table[i] := table[i].(key := KeyOf(pos));
    table[i] := table[i].(factor := ByColor(Uint8(ScaleFactorNormal), Uint8(ScaleFactorNormal)));
    table[i] := table[i].(gamePhase := pos.gamePhase);
    assert table[i] == Reset(pos);
  }

  /** The KBPsK / KQKRPs rules, checked for each colour in turn. */
  method SetPatternScalers(table: array<Entry>, i: nat, pos: Position)
    requires i < table.Length
    requires table[i].scalingFunction == ByColor(NoScaling, NoScaling)
    modifies table
    ensures table[..] == old(table[..])[i := old(table[i]).(scalingFunction :=
      ByColor(PatternScaler(pos, White), PatternScaler(pos, Black)))]
  {
    var colors := [White, Black];
    for k := 0 to 2
      invariant table[..] == old(table[..])[i := old(table[i]).(scalingFunction := table[i].scalingFunction)]
      invariant forall m :: 0 <= m < k ==>
        table[i].scalingFunction.Get(colors[m]) == PatternScaler(pos, colors[m])
      invariant forall m :: k <= m < 2 ==> table[i].scalingFunction.Get(colors[m]) == NoScaling
    {
      var c := colors[k];
      if IsKBPsKs(pos, c) {
        table[i] := table[i].(scalingFunction := table[i].scalingFunction.Set(c, ScaleKBPsK(c)));
      } else if IsKQKRPs(pos, c) {
        table[i] := table[i].(scalingFunction := table[i].scalingFunction.Set(c, ScaleKQKRPs(c)));
      }
    }
    assert table[i].scalingFunction.Get(colors[0]) == PatternScaler(pos, colors[0]);
    assert table[i].scalingFunction.Get(colors[1]) == PatternScaler(pos, colors[1]);
  }

  /** The rules for a board holding only kings and pawns. */
  method SetPawnsOnlyScalers(table: array<Entry>, i: nat, pos: Position)
    requires i < table.Length
    modifies table
    ensures table[..] == old(table[..])[i := old(table[i]).(scalingFunction :=
      PawnsOnlyScalers(pos, old(table[i].scalingFunction)))]
  {
    var npmW, npmB := pos.army.white.npm, pos.army.black.npm;
    var pawnsW, pawnsB := pos.army.white.pawns, pos.army.black.pawns;
    if npmW + npmB == 0 && pawnsW + pawnsB > 0 {
      if pawnsB == 0 {
        table[i] := table[i].(scalingFunction := table[i].scalingFunction.Set(White, ScaleKPsK(White)));
      } else if pawnsW == 0 {
        table[i] := table[i].(scalingFunction := table[i].scalingFunction.Set(Black, ScaleKPsK(Black)));
      } else if pawnsW == 1 && pawnsB == 1 {
        table[i] := table[i].(scalingFunction := table[i].scalingFunction.Set(White, ScaleKPKP(White)));
        table[i] := table[i].(scalingFunction := table[i].scalingFunction.Set(Black, ScaleKPKP(Black)));
      }
    }
  }

  /** The no-pawn rules for both colours, then the one-pawn rules. */
  method SetFactors(table: array<Entry>, i: nat, pos: Position)
    requires i < table.Length
    requires table[i].factor == ByColor(Uint8(ScaleFactorNormal), Uint8(ScaleFactorNormal))
    modifies table
    ensures table[..] == old(table[..])[i := old(table[i]).(factor :=
      ByColor(Factor(pos, White), Factor(pos, Black)))]
  {
    var npmW, npmB := pos.army.white.npm, pos.army.black.npm;
    var pawnsW, pawnsB := pos.army.white.pawns, pos.army.black.pawns;
    if pawnsW == 0 && npmW - npmB <= BishopValueMg {
      table[i] := table[i].(factor := table[i].factor.Set(White,
        Uint8(if npmW < RookValueMg then ScaleFactorDraw else if npmB <= BishopValueMg then 4 else 14)));
    }
    if pawnsB == 0 && npmB - npmW <= BishopValueMg {
      table[i] := table[i].(factor := table[i].factor.Set(Black,
        Uint8(if npmB < RookValueMg then ScaleFactorDraw else if npmW <= BishopValueMg then 4 else 14)));
    }
    if pawnsW == 1 && npmW - npmB <= BishopValueMg {
      table[i] := table[i].(factor := table[i].factor.Set(White, Uint8(ScaleFactorOnePawn)));
    }
    if pawnsB == 1 && npmB - npmW <= BishopValueMg {
      table[i] := table[i].(factor := table[i].factor.Set(Black, Uint8(ScaleFactorOnePawn)));
    }
  }

  // Properties of the filled slot.

  /** A registered evaluation routine is taken alone: the scaling routines,
      factors and value keep their reset contents. */
  lemma RegisteredEvaluatorIsAuthoritative(pos: Position, reg: Registry)
    requires KeyOf(pos) in reg.evaluators
    ensures var e := Compute(pos, reg);
            e.evaluationFunction == RegisteredEval(reg.evaluators[KeyOf(pos)])
            && e.scalingFunction == ByColor(NoScaling, NoScaling)
            && e.factor == ByColor(Uint8(ScaleFactorNormal), Uint8(ScaleFactorNormal))
            && e.value == 0 && e.key == KeyOf(pos) && e.gamePhase == pos.gamePhase
  {
  }

  /** Without a registered evaluation routine, the first colour (White before
      Black) matching the KXK pattern gets its KXK evaluator, and nothing else
      is filled in. */
  lemma KXKIsAuthoritative(pos: Position, reg: Registry, c: Color)
    requires KeyOf(pos) !in reg.evaluators
    requires IsKXK(pos, c) && (c == Black ==> !IsKXK(pos, White))
    ensures var e := Compute(pos, reg);
            e.evaluationFunction == EvaluateKXK(c)
            && e.scalingFunction == ByColor(NoScaling, NoScaling)
            && e.factor == ByColor(Uint8(ScaleFactorNormal), Uint8(ScaleFactorNormal))
            && e.value == 0
  {
  }

  /** An evaluation routine is set exactly when a registered evaluator or a
      KXK pattern applies. */
  lemma EvaluationFunctionSetExactly(pos: Position, reg: Registry)
    ensures Compute(pos, reg).evaluationFunction != NoEvaluation <==>
            KeyOf(pos) in reg.evaluators || IsKXK(pos, White) || IsKXK(pos, Black)
  {
  }

  /** A registered scaling routine goes to its strong side only; the other
      side's routine, both factors and the value keep their reset contents. */
  lemma RegisteredScalerStrongSideOnly(pos: Position, reg: Registry)
    requires KeyOf(pos) !in reg.evaluators && !IsKXK(pos, White) && !IsKXK(pos, Black)
    requires KeyOf(pos) in reg.scalers
    ensures var sf := reg.scalers[KeyOf(pos)];
            var e := Compute(pos, reg);
            e.evaluationFunction == NoEvaluation
            && e.scalingFunction.Get(sf.strongSide) == RegisteredScale(sf.id, sf.strongSide)
            && e.scalingFunction.Get(sf.strongSide.Opp()) == NoScaling
            && e.factor == ByColor(Uint8(ScaleFactorNormal), Uint8(ScaleFactorNormal))
            && e.value == 0
  {
  }

  /** The KXK pattern wins over a registered scaling routine: no scaling
      routine is set at all. */
  lemma KXKBeatsRegisteredScaler(pos: Position, reg: Registry, c: Color)
    requires KeyOf(pos) !in reg.evaluators && KeyOf(pos) in reg.scalers && IsKXK(pos, c)
    ensures Compute(pos, reg).evaluationFunction.EvaluateKXK?
    ensures Compute(pos, reg).scalingFunction == ByColor(NoScaling, NoScaling)
  {
  }

  /** When no rule ended the computation early, each side independently gets
      the KBPsK scaler if it matches that pattern, else the KQKRPs scaler if it
      matches that one; the pawns-only rules cannot overwrite them. */
  lemma PatternScalersPerSide(pos: Position, reg: Registry, c: Color)
    requires !EndsEarly(pos, reg)
    requires BishopValueMg > 0 && QueenValueMg > 0
    ensures IsKBPsKs(pos, c) ==> Compute(pos, reg).scalingFunction.Get(c) == ScaleKBPsK(c)
    ensures !IsKBPsKs(pos, c) && IsKQKRPs(pos, c) ==>
            Compute(pos, reg).scalingFunction.Get(c) == ScaleKQKRPs(c)
    ensures !IsKBPsKs(pos, c) && !IsKQKRPs(pos, c) && !OnlyPawns(pos) ==>
            Compute(pos, reg).scalingFunction.Get(c) == NoScaling
  {
  }

  /** Kings and pawns only: the side with pawns gets KPsK when the other has
      none; with exactly one pawn each, both sides get KPKP. */
  lemma PawnsOnlyRules(pos: Position, reg: Registry)
    requires !EndsEarly(pos, reg) && OnlyPawns(pos)
    requires BishopValueMg > 0 && QueenValueMg > 0
    ensures var w, b := pos.army.white.pawns, pos.army.black.pawns;
            var sf := Compute(pos, reg).scalingFunction;
            (b == 0 ==> sf == ByColor(ScaleKPsK(White), NoScaling))
            && (w == 0 ==> sf == ByColor(NoScaling, ScaleKPsK(Black)))
            && (w == 1 && b == 1 ==> sf == ByColor(ScaleKPKP(White), ScaleKPKP(Black)))
            && (w > 0 && b > 0 && !(w == 1 && b == 1) ==> sf == ByColor(NoScaling, NoScaling))
  {
    assert PatternScaler(pos, White) == NoScaling && PatternScaler(pos, Black) == NoScaling;
  }

  /** The scale factor of a side whose non-pawn material lead is at most a
      bishop: DRAW, 4 or 14 without pawns, ONEPAWN with exactly one pawn;
      every other side keeps the normal factor. */
  lemma FactorRules(pos: Position, reg: Registry, c: Color)
    requires !EndsEarly(pos, reg)
    ensures var us, them := pos.army.Get(c), pos.army.Get(c.Opp());
            var f := Compute(pos, reg).factor.Get(c);
            var close := us.npm - them.npm <= BishopValueMg;
            (us.pawns == 0 && close && us.npm < RookValueMg ==> f == Uint8(ScaleFactorDraw))
            && (us.pawns == 0 && close && us.npm >= RookValueMg && them.npm <= BishopValueMg ==> f == 4)
            && (us.pawns == 0 && close && us.npm >= RookValueMg && them.npm > BishopValueMg ==> f == 14)
            && (us.pawns == 1 && close ==> f == Uint8(ScaleFactorOnePawn))
            && (us.pawns >= 2 || !close ==> f == Uint8(ScaleFactorNormal))
  {
  }

  /** The factors mirror when the colours are exchanged. */
  lemma FactorSwap(pos: Position, c: Color)
    ensures Factor(pos.Swap(), c.Opp()) == Factor(pos, c)
  {
    assert pos.Swap().army.Get(c.Opp()) == pos.army.Get(c);
    assert pos.Swap().army.Get(c) == pos.army.Get(c.Opp());
  }

  /** Bare kings: both factors are DRAW, the value is 0 and no routine is set. */
  lemma BareKings(pos: Position, reg: Registry)
    requires KeyOf(pos) !in reg.evaluators && KeyOf(pos) !in reg.scalers
    requires BishopValueMg >= 0 && RookValueMg > 0
    requires pos.army.white == pos.army.black == Army(0, 0, 0, 0, 0, 1, 0)
    ensures var e := Compute(pos, reg);
            e.evaluationFunction == NoEvaluation
            && e.scalingFunction == ByColor(NoScaling, NoScaling)
            && e.factor == ByColor(Uint8(ScaleFactorDraw), Uint8(ScaleFactorDraw))
            && e.value == 0
  {
    assert !IsKXK(pos, White) && !IsKXK(pos, Black);
    assert !OnlyPawns(pos);
    assert PatternScaler(pos, White) == PatternScaler(pos, Black) == NoScaling;
    assert Factor(pos, White) == Uint8(ScaleFactorDraw);
    assert Factor(pos, Black) == Uint8(ScaleFactorDraw);
    assert Value(pos) == 0;
  }

  /** King and rook against a lone king: the KXK evaluator of the rook's side. */
  lemma LoneRook(pos: Position, reg: Registry)
    requires KeyOf(pos) !in reg.evaluators
    requires var w := pos.army.white;
             w.pawns == 0 && w.knights == 0 && w.bishops == 0 && w.rooks == 1 && w.queens == 0
             && w.kings == 1 && w.npm == RookValueMg
    requires pos.army.black == Army(0, 0, 0, 0, 0, 1, 0)
    ensures Compute(pos, reg).evaluationFunction == EvaluateKXK(White)
  {
  }

  /** King and pawn against king and pawn: KPKP for both sides and the
      one-pawn factor for both. */
  lemma OnePawnEach(pos: Position, reg: Registry)
    requires KeyOf(pos) !in reg.evaluators && KeyOf(pos) !in reg.scalers
    requires BishopValueMg > 0 && QueenValueMg > 0 && RookValueMg > 0
    requires pos.army.white == pos.army.black == Army(1, 0, 0, 0, 0, 1, 0)
    ensures var e := Compute(pos, reg);
            e.scalingFunction == ByColor(ScaleKPKP(White), ScaleKPKP(Black))
            && e.factor == ByColor(Uint8(ScaleFactorOnePawn), Uint8(ScaleFactorOnePawn))
  {
    PawnsOnlyRules(pos, reg);
  }

  // Exchanging the colours.

  /** The same routine, tagged for the other colour. */
  function MirrorTag(s: ScaleFn): (m: ScaleFn)
    ensures m.NoScaling? == s.NoScaling?
  {
    match s
    case NoScaling => NoScaling
    case RegisteredScale(id, side) => RegisteredScale(id, side.Opp())
    case ScaleKBPsK(c) => ScaleKBPsK(c.Opp())
    case ScaleKQKRPs(c) => ScaleKQKRPs(c.Opp())
    case ScaleKPsK(c) => ScaleKPsK(c.Opp())
    case ScaleKPKP(c) => ScaleKPKP(c.Opp())
  }

  /** Routines exchanged between the sides and retagged. */
  function MirrorScalers(sf: ByColor<ScaleFn>): ByColor<ScaleFn> {
    ByColor(MirrorTag(sf.black), MirrorTag(sf.white))
  }

  /** The generic and pawns-only scalers mirror under exchanging the colours. */
  lemma GenericScalersSwap(pos: Position)
    ensures GenericScalers(pos.Swap()) == MirrorScalers(GenericScalers(pos))
  {
    ClassifiersSwap(pos, White);
    ClassifiersSwap(pos, Black);
  }

  /** When no rule ends the computation early for either colour order, the
      filled entry of the mirrored material has its routines mirrored, its
      factors exchanged and its value negated. */
  lemma ComputeSwap(pos: Position, reg: Registry)
    requires !EndsEarly(pos, reg) && !EndsEarly(pos.Swap(), reg)
    requires Value(pos) != -32768
    ensures var e, s := Compute(pos, reg), Compute(pos.Swap(), reg);
            s.evaluationFunction == e.evaluationFunction == NoEvaluation
            && s.scalingFunction == MirrorScalers(e.scalingFunction)
            && s.factor == e.factor.Swap()
            && s.value == -e.value
  {
    GenericScalersSwap(pos);
    FactorSwap(pos, White);
    FactorSwap(pos, Black);
    ValueSwap(pos);
  }

  /** When exactly one colour matches KXK and no evaluator is registered,
      the mirrored material gives the KXK evaluator to the other colour. */
  lemma KXKSwap(pos: Position, reg: Registry, c: Color)
    requires KeyOf(pos) !in reg.evaluators
    requires IsKXK(pos, c) && !IsKXK(pos, c.Opp())
    ensures Compute(pos, reg).evaluationFunction == EvaluateKXK(c)
    ensures Compute(pos.Swap(), reg).evaluationFunction == EvaluateKXK(c.Opp())
  {
    ClassifiersSwap(pos, c);
    ClassifiersSwap(pos, c.Opp());
  }

  /** The KXK rule checks White first, so it is not colour-symmetric: with
      one rook each and no king (possible in antichess) both sides match,
      and White gets the evaluator in both colour orders. */
  lemma KXKPriorityNotSymmetric(reg: Registry, key: Key, variant: Key)
    requires key ^ variant !in reg.evaluators && RookValueMg >= 0
    ensures var rook := Army(0, 0, 0, 1, 0, 0, RookValueMg);
            var pos := Position(key, variant, ByColor(rook, rook), 0);
            IsKXK(pos, White) && IsKXK(pos, Black)
            && Compute(pos, reg).evaluationFunction == EvaluateKXK(White)
            && Compute(pos.Swap(), reg).evaluationFunction == EvaluateKXK(White)
  {
  }
}
