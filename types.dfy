/** Colours, per-colour pairs, the position as seen by the material evaluator,
    the symbolic engine constants, and the integer conversions of the C++ code. */
module Types {

  datatype Color = White | Black {
    function Opp(): Color {
      if this == White then Black else White
    }
  }

  /** A pair indexed by colour, as the C++ arrays `x[COLOR_NB]`. */
  datatype ByColor<T> = ByColor(white: T, black: T) {
    function Get(c: Color): T {
      if c == White then white else black
    }

    function Set(c: Color, v: T): (r: ByColor<T>)
      ensures r.Get(c) == v && r.Get(c.Opp()) == Get(c.Opp())
    {
      if c == White then this.(white := v) else this.(black := v)
    }

    function Swap(): (r: ByColor<T>)
      ensures r.Get(White) == Get(Black) && r.Get(Black) == Get(White)
    {
      ByColor(black, white)
    }
  }

  /** A 64-bit material signature. */
  type Key = bv64

  /** What the evaluator reads of one side: piece counts and the
      non-pawn material total the position keeps incrementally. */
  datatype Army = Army(pawns: nat, knights: nat, bishops: nat, rooks: nat,
                       queens: nat, kings: nat, npm: nat)
  {
    /** Number of pieces of this side, the king(s) included. */
    function Pieces(): nat {
      pawns + knights + bishops + rooks + queens + kings
    }
  }

  datatype Position = Position(materialKey: Key, variant: Key,
                               army: ByColor<Army>, gamePhase: int)
  {
    /** The same material with the colours exchanged. */
    function Swap(): Position {
      this.(army := army.Swap())
    }
  }

  // Values defined in headers that are not part of this model: they are left
  // symbolic, and lemmas that need an ordering among them assume it.
  const BishopValueMg: int
  const RookValueMg: int
  const QueenValueMg: int
  const ScaleFactorDraw: int
  const ScaleFactorOnePawn: int
  const ScaleFactorNormal: int
  /** Numeric code of the antichess variant (compared by `is_anti()`). */
  const AntiVariant: Key

  predicate IsAnti(pos: Position) {
    pos.variant == AntiVariant
  }

  /** The conversion `uint8_t(x)`: reduction modulo 2^8. */
  function Uint8(x: int): (r: int)
    ensures 0 <= r < 256
    ensures (x - r) % 256 == 0
    ensures 0 <= x < 256 ==> r == x
  {
    x % 256
  }

  /** The conversion `int16_t(x)`: two's-complement wrap-around into 16 bits. */
  function Int16(x: int): (r: int)
    ensures -32768 <= r < 32768
    ensures (x - r) % 65536 == 0
    ensures -32768 <= x < 32768 ==> r == x
  {
    (x + 32768) % 65536 - 32768
  }

  /** C++ integer division, which truncates toward zero. */
  function TruncDiv(a: int, d: int): (q: int)
    requires d > 0
    ensures a >= 0 ==> 0 <= a - q * d < d
    ensures a < 0 ==> -d < a - q * d <= 0
  {
    if a >= 0 then a / d else -((-a) / d)
  }

  /** Truncating division commutes with negation. */
  lemma TruncDivOdd(a: int, d: int)
    requires d > 0
    ensures TruncDiv(-a, d) == -TruncDiv(a, d)
  {
  }

  /** The 16-bit wrap commutes with negation except at -2^15, whose negation
      does not fit. */
  lemma Int16Odd(x: int)
    requires Int16(x) != -32768
    ensures Int16(-x) == -Int16(x)
  {
    var r := Int16(x);
    var k := (x - r) / 65536;
    assert x == r + 65536 * k;
    assert -x == -r + 65536 * (-k);
    Int16Of(-x, -r, -k);
  }

  lemma Int16Of(x: int, r: int, k: int)
    requires -32768 <= r < 32768 && x == r + 65536 * k
    ensures Int16(x) == r
  {
    assert x + 32768 == (r + 32768) + 65536 * k;
  }
}
