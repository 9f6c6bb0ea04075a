/** The second-degree polynomial material imbalance: fixed triangular
    coefficient tables, the per-side piece-count vector it is applied to,
    its closed form, and the accumulating loops that compute it. */
module Imbalance {
  import opened Types

  // Piece-type indices; slot NoPieceType holds the bishop-pair indicator.
  const NoPieceType := 0
  const Pawn := 1
  const Knight := 2
  const Bishop := 3
  const Rook := 4
  const Queen := 5
  const King := 6
  const PieceTypeNb := 8

  /** A pair of coefficient tables `[own type][other type]`, rows padded with
      zeros to PieceTypeNb columns as C++ pads a partial initialiser. */
  datatype Tables = Tables(ours: seq<seq<int>>, theirs: seq<seq<int>>)

  ghost predicate WellFormed(t: Tables) {
    |t.ours| == |t.theirs| <= PieceTypeNb
    && (forall k :: 0 <= k < |t.ours| ==> |t.ours[k]| == PieceTypeNb)
    && (forall k :: 0 <= k < |t.theirs| ==> |t.theirs[k]| == PieceTypeNb)
  }

  const QuadraticOurs: seq<seq<int>> := [
    //  pair pawn knight bishop rook queen
    [ 1667,    0,   0,    0,    0,  0, 0, 0], // Bishop pair
    [   40,    2,   0,    0,    0,  0, 0, 0], // Pawn
    [   32,  255,  -3,    0,    0,  0, 0, 0], // Knight
    [    0,  104,   4,    0,    0,  0, 0, 0], // Bishop
    [  -26,   -2,  47,  105, -149,  0, 0, 0], // Rook
    [ -185,   24, 122,  137, -134,  0, 0, 0]  // Queen
  ]

  const QuadraticTheirs: seq<seq<int>> := [
    //  pair pawn knight bishop rook queen
    [    0,    0,   0,    0,    0,  0, 0, 0], // Bishop pair
    [   36,    0,   0,    0,    0,  0, 0, 0], // Pawn
    [    9,   63,   0,    0,    0,  0, 0, 0], // Knight
    [   59,   65,  42,    0,    0,  0, 0, 0], // Bishop
    [   46,   39,  24,  -24,    0,  0, 0, 0], // Rook
    [  101,  100, -37,  141,  268,  0, 0, 0]  // Queen
  ]

  const QuadraticOursAnti: seq<seq<int>> := [
    //  pair pawn knight bishop rook queen king
    [  -62,    0,    0,    0,    0,   0,    0, 0], // Bishop pair
    [ -179,   59,    0,    0,    0,   0,    0, 0], // Pawn
    [  -50,  178,  -47,    0,    0,   0,    0, 0], // Knight
    [    0, -130, -187,    0,    0,   0,    0, 0], // Bishop
    [ -155, -317,   60, -218, -288,   0,    0, 0], // Rook
    [   89, -259,  -60, -179,  -32, -76,    0, 0], // Queen
    [ -217,  -79,   40,  -23,    9, -63, -197, 0]  // King
  ]

  const QuadraticTheirsAnti: seq<seq<int>> := [
    //  pair pawn knight bishop rook queen king
    [    0,    0,    0,    0,    0,   0,    0, 0], // Bishop pair
    [  110,    0,    0,    0,    0,   0,    0, 0], // Pawn
    [    9,   60,    0,    0,    0,   0,    0, 0], // Knight
    [  -53, -143,   33,    0,    0,   0,    0, 0], // Bishop
    [   73, -298,    3,   41,    0,   0,    0, 0], // Rook
    [ -141, -370,   56,   45,  -79,   0,    0, 0], // Queen
    [  246,  -40, -194,  178,  -39,  74,    0, 0]  // King
  ]

  /** The table pair and the last piece type scored for a variant. */
  function TablesFor(anti: bool): (t: Tables)
    ensures WellFormed(t)
    ensures |t.ours| == LastType(anti) + 1
  {
    if anti then Tables(QuadraticOursAnti, QuadraticTheirsAnti)
    else Tables(QuadraticOurs, QuadraticTheirs)
  }

  function LastType(anti: bool): nat {
    if anti then King else Queen
  }

  /** The count vector of one side: the bishop-pair indicator, then pawn,
      knight, bishop, rook and queen counts; the remaining slots (king
      included) are zero. */
  function CountsOf(a: Army): (c: seq<int>)
    ensures |c| == PieceTypeNb
    ensures c[NoPieceType] == 1 <==> a.bishops > 1
    ensures c[NoPieceType] == 0 <==> a.bishops <= 1
    ensures c[King] == 0
  {
    [if a.bishops > 1 then 1 else 0, a.pawns, a.knights, a.bishops, a.rooks, a.queens, 0, 0]
  }

  function PieceCounts(pos: Position): (pc: ByColor<seq<int>>)
    ensures |pc.white| == |pc.black| == PieceTypeNb
    ensures forall c: Color :: (pc.Get(c)[NoPieceType] == 1 <==> pos.army.Get(c).bishops > 1)
    ensures forall c: Color :: pc.Get(c)[Pawn] == pos.army.Get(c).pawns && pc.Get(c)[King] == 0
  {
    ByColor(CountsOf(pos.army.white), CountsOf(pos.army.black))
  }

  /** Σ_{pt2 < n} ours[pt1][pt2]·cu[pt2] + theirs[pt1][pt2]·ct[pt2] */
  function RowSum(t: Tables, cu: seq<int>, ct: seq<int>, pt1: nat, n: nat): int
    requires WellFormed(t) && pt1 < |t.ours|
    requires |cu| == |ct| == PieceTypeNb && n <= PieceTypeNb
  {
    if n == 0 then 0
    else RowSum(t, cu, ct, pt1, n - 1)
         + t.ours[pt1][n - 1] * cu[n - 1] + t.theirs[pt1][n - 1] * ct[n - 1]
  }

  /** The closed form of the imbalance over the first n piece types:
      Σ_{pt1 < n} cu[pt1] · RowSum(pt1, pt1 + 1). */
  function Bonus(t: Tables, cu: seq<int>, ct: seq<int>, n: nat): int
    requires WellFormed(t) && n <= |t.ours|
    requires |cu| == |ct| == PieceTypeNb
  {
    if n == 0 then 0
    else Bonus(t, cu, ct, n - 1) + cu[n - 1] * RowSum(t, cu, ct, n - 1, n)
  }

  /** The imbalance of side `us` for the counts of both sides. */
  function SideBonus(pc: ByColor<seq<int>>, us: Color, anti: bool): int
    requires |pc.white| == |pc.black| == PieceTypeNb
  {
    var t := TablesFor(anti);
    Bonus(t, pc.Get(us), pc.Get(us.Opp()), LastType(anti) + 1)
  }

  /** The stored score: White's imbalance minus Black's, divided by 16 with
      truncation and narrowed to 16 bits. */
  function Value(pos: Position): (v: int)
    ensures -32768 <= v < 32768
    ensures pos.army.white == pos.army.black ==> v == 0
  {
    var pc := PieceCounts(pos);
    Int16(TruncDiv(SideBonus(pc, White, IsAnti(pos)) - SideBonus(pc, Black, IsAnti(pos)), 16))
  }

  /** `imbalance<Us>`: nested accumulation loops, skipping piece types the
      side does not hold; equal to the closed form over every type up to
      queen (king in antichess). */
  method ComputeImbalance(us: Color, pieceCount: ByColor<seq<int>>, anti: bool) returns (bonus: int)
    requires |pieceCount.white| == |pieceCount.black| == PieceTypeNb
    ensures bonus == Bonus(TablesFor(anti), pieceCount.Get(us), pieceCount.Get(us.Opp()),
                           LastType(anti) + 1)
  {
    var them := us.Opp();
    var cu, ct := pieceCount.Get(us), pieceCount.Get(them);
    ghost var t := TablesFor(anti);
    bonus := 0;
    var last := if anti then King else Queen;
    for pt1 := NoPieceType to last + 1
      invariant bonus == Bonus(t, cu, ct, pt1)
    {
      if cu[pt1] == 0 {
        continue;
      }
      var v := 0;
      for pt2 := NoPieceType to pt1 + 1
        invariant v == RowSum(t, cu, ct, pt1, pt2)
      {
        if anti {
          v := v + QuadraticOursAnti[pt1][pt2] * cu[pt2]
                 + QuadraticTheirsAnti[pt1][pt2] * ct[pt2];
        } else {
          v := v + QuadraticOurs[pt1][pt2] * cu[pt2]
                 + QuadraticTheirs[pt1][pt2] * ct[pt2];
        }
      }
      bonus := bonus + cu[pt1] * v;
    }
  }

  /** Every coefficient above the diagonal is zero, as the partial
      initialisers of the four tables leave it. */
  lemma TablesAreTriangular(anti: bool)
    ensures var t := TablesFor(anti);
            forall pt1, pt2 :: 0 <= pt1 < |t.ours| && pt1 < pt2 < PieceTypeNb ==>
              t.ours[pt1][pt2] == 0 && t.theirs[pt1][pt2] == 0
  {
  }

  /** Σ_{1 <= pt1 < n} ours[pt1][0]·cu[pt1]: what the bishop-pair column
      adds to the rows of the other piece types. */
  function PairColumn(t: Tables, cu: seq<int>, n: nat): int
    requires WellFormed(t) && n <= |t.ours| && |cu| == PieceTypeNb
  {
    if n <= 1 then 0 else PairColumn(t, cu, n - 1) + t.ours[n - 1][NoPieceType] * cu[n - 1]
  }

  /** Setting the bishop-pair slot from 0 to 1 raises one row's inner sum by
      that row's pair coefficient. */
  lemma {:induction false} RowSumPairStep(t: Tables, cu: seq<int>, ct: seq<int>, pt1: nat, m: nat)
    requires WellFormed(t) && pt1 < |t.ours| && |cu| == |ct| == PieceTypeNb
    requires 1 <= m <= PieceTypeNb
    ensures RowSum(t, cu[NoPieceType := 1], ct, pt1, m) - RowSum(t, cu[NoPieceType := 0], ct, pt1, m)
            == t.ours[pt1][NoPieceType]
  {
    if m > 1 {
      RowSumPairStep(t, cu, ct, pt1, m - 1);
    }
  }

  /** Gaining the bishop pair (slot 0 going from 0 to 1, every other count
      unchanged) changes a side's imbalance by the pair coefficient, the
      pair-against-pair term and the pair column of each other type held. */
  lemma {:induction false} BishopPairStep(t: Tables, cu: seq<int>, ct: seq<int>, n: nat)
    requires WellFormed(t) && 1 <= n <= |t.ours| && |cu| == |ct| == PieceTypeNb
    ensures Bonus(t, cu[NoPieceType := 1], ct, n) - Bonus(t, cu[NoPieceType := 0], ct, n)
            == t.ours[0][0] + t.theirs[0][0] * ct[0] + PairColumn(t, cu, n)
  {
    var c1, c0 := cu[NoPieceType := 1], cu[NoPieceType := 0];
    if n == 1 {
      assert RowSum(t, c1, ct, 0, 1) == t.ours[0][0] + t.theirs[0][0] * ct[0];
      assert RowSum(t, c0, ct, 0, 1) == t.theirs[0][0] * ct[0];
    } else {
      BishopPairStep(t, cu, ct, n - 1);
      RowSumPairStep(t, cu, ct, n - 1, n);
      var r1, r0 := RowSum(t, c1, ct, n - 1, n), RowSum(t, c0, ct, n - 1, n);
      assert c1[n - 1] == c0[n - 1] == cu[n - 1];
      assert cu[n - 1] * r1 - cu[n - 1] * r0 == cu[n - 1] * (r1 - r0);
    }
  }

  /** Σ_{pt1 < n} ct[pt1]·theirs[pt1][0]: what the opponent's pair slot adds
      to a side's imbalance through the "their pieces" table. */
  function TheirPairColumn(t: Tables, ct: seq<int>, n: nat): int
    requires WellFormed(t) && n <= |t.ours| && |ct| == PieceTypeNb
  {
    if n == 0 then 0 else TheirPairColumn(t, ct, n - 1) + ct[n - 1] * t.theirs[n - 1][NoPieceType]
  }

  /** Setting the opponent's bishop-pair slot from 0 to 1 raises one row's
      inner sum by that row's pair coefficient in the "their pieces" table. */
  lemma {:induction false} RowSumTheirPairStep(t: Tables, cu: seq<int>, ct: seq<int>, pt1: nat, m: nat)
    requires WellFormed(t) && pt1 < |t.ours| && |cu| == |ct| == PieceTypeNb
    requires 1 <= m <= PieceTypeNb
    ensures RowSum(t, ct, cu[NoPieceType := 1], pt1, m) - RowSum(t, ct, cu[NoPieceType := 0], pt1, m)
            == t.theirs[pt1][NoPieceType]
  {
    if m > 1 {
      RowSumTheirPairStep(t, cu, ct, pt1, m - 1);
    }
  }

  /** When a side gains the bishop pair, every other count unchanged, the
      opponent's imbalance changes by the pair column of its "their pieces"
      table weighted by its own counts. */
  lemma {:induction false} OpponentPairStep(t: Tables, cu: seq<int>, ct: seq<int>, n: nat)
    requires WellFormed(t) && n <= |t.ours| && |cu| == |ct| == PieceTypeNb
    ensures Bonus(t, ct, cu[NoPieceType := 1], n) - Bonus(t, ct, cu[NoPieceType := 0], n)
            == TheirPairColumn(t, ct, n)
  {
    if n > 0 {
      OpponentPairStep(t, cu, ct, n - 1);
      RowSumTheirPairStep(t, cu, ct, n - 1, n);
      var c1, c0 := cu[NoPieceType := 1], cu[NoPieceType := 0];
      var r1, r0 := RowSum(t, ct, c1, n - 1, n), RowSum(t, ct, c0, n - 1, n);
      assert ct[n - 1] * r1 - ct[n - 1] * r0 == ct[n - 1] * (r1 - r0);
    }
  }

  /** Gaining the bishop pair moves the difference of the two imbalances
      (the numerator of the stored value) by the gaining side's terms minus
      the opponent's pair column. */
  lemma PairDifferenceStep(t: Tables, cu: seq<int>, ct: seq<int>, n: nat)
    requires WellFormed(t) && 1 <= n <= |t.ours| && |cu| == |ct| == PieceTypeNb
    ensures var c1, c0 := cu[NoPieceType := 1], cu[NoPieceType := 0];
            (Bonus(t, c1, ct, n) - Bonus(t, ct, c1, n)) - (Bonus(t, c0, ct, n) - Bonus(t, ct, c0, n))
            == t.ours[0][0] + t.theirs[0][0] * ct[0] + PairColumn(t, cu, n) - TheirPairColumn(t, ct, n)
  {
    BishopPairStep(t, cu, ct, n);
    OpponentPairStep(t, cu, ct, n);
  }

  /** A side holding nothing scores zero, whatever the opponent holds. */
  lemma {:induction false} EmptySideScoresZero(t: Tables, cu: seq<int>, ct: seq<int>, n: nat)
    requires WellFormed(t) && n <= |t.ours|
    requires |cu| == |ct| == PieceTypeNb
    requires forall k :: 0 <= k < PieceTypeNb ==> cu[k] == 0
    ensures Bonus(t, cu, ct, n) == 0
  {
    if n > 0 {
      EmptySideScoresZero(t, cu, ct, n - 1);
    }
  }

  ghost predicate SameLowerTriangle(t1: Tables, t2: Tables, n: nat)
    requires WellFormed(t1) && WellFormed(t2) && n <= |t1.ours| && n <= |t2.ours|
  {
    forall pt1, pt2 :: 0 <= pt2 <= pt1 < n ==>
      t1.ours[pt1][pt2] == t2.ours[pt1][pt2] && t1.theirs[pt1][pt2] == t2.theirs[pt1][pt2]
  }

  lemma {:induction false} RowSumReadsLowerTriangle(t1: Tables, t2: Tables, cu: seq<int>, ct: seq<int>,
                                                    pt1: nat, m: nat)
    requires WellFormed(t1) && WellFormed(t2) && pt1 < |t1.ours| && pt1 < |t2.ours|
    requires |cu| == |ct| == PieceTypeNb && m <= pt1 + 1
    requires forall pt2 :: 0 <= pt2 < m ==>
      t1.ours[pt1][pt2] == t2.ours[pt1][pt2] && t1.theirs[pt1][pt2] == t2.theirs[pt1][pt2]
    ensures RowSum(t1, cu, ct, pt1, m) == RowSum(t2, cu, ct, pt1, m)
  {
    if m > 0 {
      RowSumReadsLowerTriangle(t1, t2, cu, ct, pt1, m - 1);
    }
  }

  /** Only coefficients `[pt1][pt2]` with pt2 <= pt1 are ever read. */
  lemma {:induction false} BonusReadsLowerTriangle(t1: Tables, t2: Tables, cu: seq<int>, ct: seq<int>, n: nat)
    requires WellFormed(t1) && WellFormed(t2) && n <= |t1.ours| && n <= |t2.ours|
    requires |cu| == |ct| == PieceTypeNb
    requires SameLowerTriangle(t1, t2, n)
    ensures Bonus(t1, cu, ct, n) == Bonus(t2, cu, ct, n)
  {
    if n > 0 {
      assert SameLowerTriangle(t1, t2, n - 1);
      BonusReadsLowerTriangle(t1, t2, cu, ct, n - 1);
      RowSumReadsLowerTriangle(t1, t2, cu, ct, n - 1, n);
    }
  }

  /** The king row of the antichess tables never scores, because the count
      vector holds no king; the result is the sum over the six first types. */
  lemma AntiKingRowNeverScores(a: Army, b: Army)
    ensures var t := TablesFor(true);
            Bonus(t, CountsOf(a), CountsOf(b), King + 1) == Bonus(t, CountsOf(a), CountsOf(b), King)
  {
  }

  /** Exchanging the colours negates the stored score (barring the one 16-bit
      value whose negation does not fit). */
  lemma ValueSwap(pos: Position)
    requires Value(pos) != -32768
    ensures Value(pos.Swap()) == -Value(pos)
  {
    var pc := PieceCounts(pos);
    var anti := IsAnti(pos);
    var d := SideBonus(pc, White, anti) - SideBonus(pc, Black, anti);
    assert PieceCounts(pos.Swap()) == pc.Swap();
    assert SideBonus(pc.Swap(), White, anti) - SideBonus(pc.Swap(), Black, anti) == -d;
    TruncDivOdd(d, 16);
    Int16Odd(TruncDiv(d, 16));
  }

  /** A lone white pawn against a bare king: White's imbalance is 2 (the
      pawn with itself), Black's is 0. */
  lemma LonePawnImbalance()
    ensures var pc := ByColor(CountsOf(Army(1, 0, 0, 0, 0, 1, 0)), CountsOf(Army(0, 0, 0, 0, 0, 1, 0)));
            SideBonus(pc, White, false) == 2 && SideBonus(pc, Black, false) == 0
  {
    var t := TablesFor(false);
    var cw, cb := CountsOf(Army(1, 0, 0, 0, 0, 1, 0)), CountsOf(Army(0, 0, 0, 0, 0, 1, 0));
    assert cw == [0, 1, 0, 0, 0, 0, 0, 0] && cb == [0, 0, 0, 0, 0, 0, 0, 0];
    assert t.ours[Pawn] == [40, 2, 0, 0, 0, 0, 0, 0];
    EmptySideScoresZero(t, cb, cw, Queen + 1);
    assert RowSum(t, cw, cb, Pawn, 1) == 0;
    assert RowSum(t, cw, cb, Pawn, 2) == 2;
    assert Bonus(t, cw, cb, 1) == 0;
    assert Bonus(t, cw, cb, 2) == 2;
    assert Bonus(t, cw, cb, 3) == 2;
    assert Bonus(t, cw, cb, 4) == 2;
    assert Bonus(t, cw, cb, 5) == 2;
  }

  /** With Euclidean division in place of truncation the score would not be
      antisymmetric: for the lone pawn the difference is 2, and 2 / 16 is 0
      while -2 / 16 is -1; truncation gives 0 both ways. */
  lemma EuclideanDivisionBreaksSymmetry()
    ensures var pc := ByColor(CountsOf(Army(1, 0, 0, 0, 0, 1, 0)), CountsOf(Army(0, 0, 0, 0, 0, 1, 0)));
            var d := SideBonus(pc, White, false) - SideBonus(pc, Black, false);
            d / 16 == 0 && (-d) / 16 == -1 && TruncDiv(-d, 16) == -TruncDiv(d, 16)
  {
    LonePawnImbalance();
  }

  /** Two bishops against one knight, kings and nothing else: White's
      imbalance is 1667 (pair) + 2 · 42 (bishops against the knight) and
      Black's is 1 · (-3 + 9) (knight with itself and against the pair);
      (1751 - 6) / 16 truncates to 109. */
  lemma TwoBishopsAgainstKnight(variant: Key, npmW: nat, npmB: nat)
    requires variant != AntiVariant
    ensures var w := Army(0, 0, 2, 0, 0, 1, npmW);
            var b := Army(0, 1, 0, 0, 0, 1, npmB);
            Value(Position(0, variant, ByColor(w, b), 0)) == 109
  {
    var t := TablesFor(false);
    var cw := CountsOf(Army(0, 0, 2, 0, 0, 1, npmW));
    var cb := CountsOf(Army(0, 1, 0, 0, 0, 1, npmB));
    assert cw == [1, 0, 0, 2, 0, 0, 0, 0] && cb == [0, 0, 1, 0, 0, 0, 0, 0];
    assert RowSum(t, cw, cb, NoPieceType, 1) == 1667;
    assert t.ours[Bishop] == [0, 104, 4, 0, 0, 0, 0, 0];
    assert t.theirs[Bishop] == [59, 65, 42, 0, 0, 0, 0, 0];
    assert RowSum(t, cw, cb, Bishop, 1) == 0;
    assert RowSum(t, cw, cb, Bishop, 2) == 0;
    assert RowSum(t, cw, cb, Bishop, 3) == 42;
    assert RowSum(t, cw, cb, Bishop, 4) == 42;
    assert t.ours[Knight] == [32, 255, -3, 0, 0, 0, 0, 0];
    assert t.theirs[Knight] == [9, 63, 0, 0, 0, 0, 0, 0];
    assert Bonus(t, cw, cb, 1) == 1667;
    assert Bonus(t, cw, cb, 2) == 1667;
    assert Bonus(t, cw, cb, 3) == 1667;
    assert Bonus(t, cw, cb, 4) == 1751;
    assert Bonus(t, cw, cb, 5) == 1751;
    assert RowSum(t, cb, cw, Knight, 1) == 9;
    assert RowSum(t, cb, cw, Knight, 2) == 9;
    assert RowSum(t, cb, cw, Knight, 3) == 6;
    assert Bonus(t, cb, cw, 1) == 0;
    assert Bonus(t, cb, cw, 2) == 0;
    assert Bonus(t, cb, cw, 3) == 6;
    assert Bonus(t, cb, cw, 4) == 6;
    assert Bonus(t, cb, cw, 5) == 6;
    assert TruncDiv(1745, 16) == 109;
  }
}
