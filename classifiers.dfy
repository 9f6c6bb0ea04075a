/** Predicates recognising the material distributions that select a
    specialised evaluation or scaling routine. */
module Classifiers {
  import opened Types

  /** `us` has at least a rook's worth of non-pawn material and the
      opponent has at most one piece on the board (its king). */
  predicate IsKXK(pos: Position, us: Color)
    ensures IsKXK(pos, us) && pos.army.Get(us.Opp()).kings == 1 ==>
      pos.army.Get(us.Opp()).Pieces() == 1 && pos.army.Get(us.Opp()).pawns == 0
  {
    pos.army.Get(us.Opp()).Pieces() <= 1
    && pos.army.Get(us).npm >= RookValueMg
  }

  /** `us` has exactly a bishop's worth of non-pawn material, one bishop
      and at least one pawn. Such a side is never the bare side of KXK. */
  predicate IsKBPsKs(pos: Position, us: Color)
    ensures IsKBPsKs(pos, us) ==> !IsKXK(pos, us.Opp())
  {
    pos.army.Get(us).npm == BishopValueMg
    && pos.army.Get(us).bishops == 1
    && pos.army.Get(us).pawns >= 1
  }

  /** `us` has no pawn and exactly a queen's worth of non-pawn material with
      one queen; the opponent has exactly one rook and at least one pawn. */
  predicate IsKQKRPs(pos: Position, us: Color)
    ensures IsKQKRPs(pos, us) ==> !IsKBPsKs(pos, us)
  {
    pos.army.Get(us).pawns == 0
    && pos.army.Get(us).npm == QueenValueMg
    && pos.army.Get(us).queens == 1
    && pos.army.Get(us.Opp()).rooks == 1
    && pos.army.Get(us.Opp()).pawns >= 1
  }

  /** When the opponent has exactly one king (orthodox chess), the KXK
      pattern means that the opponent has nothing besides that king. */
  lemma KXKIsLoneKing(pos: Position, us: Color)
    requires pos.army.Get(us.Opp()).kings == 1
    ensures IsKXK(pos, us) <==>
      (var them := pos.army.Get(us.Opp());
       them.pawns == 0 && them.knights == 0 && them.bishops == 0
       && them.rooks == 0 && them.queens == 0
       && pos.army.Get(us).npm >= RookValueMg)
  {
  }

  /** The KQKRPs pattern can hold for at most one side: it asks for no own
      pawn and at least one opposing pawn. */
  lemma KQKRPsOneSideOnly(pos: Position)
    ensures !(IsKQKRPs(pos, White) && IsKQKRPs(pos, Black))
  {
  }

  /** The KBPsKs pattern can hold for both sides at once: one bishop and
      pawns each. */
  lemma KBPsKsBothSides(pawns: nat)
    requires pawns >= 1 && BishopValueMg >= 0
    ensures var a := Army(pawns, 0, 1, 0, 0, 1, BishopValueMg);
            var pos := Position(0, 0, ByColor(a, a), 0);
            IsKBPsKs(pos, White) && IsKBPsKs(pos, Black)
  {
  }

  /** Pattern tests commute with exchanging the colours. */
  lemma ClassifiersSwap(pos: Position, us: Color)
    ensures IsKXK(pos.Swap(), us.Opp()) == IsKXK(pos, us)
    ensures IsKBPsKs(pos.Swap(), us.Opp()) == IsKBPsKs(pos, us)
    ensures IsKQKRPs(pos.Swap(), us.Opp()) == IsKQKRPs(pos, us)
  {
  }
}
