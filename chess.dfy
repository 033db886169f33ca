/** The feature encoding of `src/chess.rs`: a 64-bit bitboard becomes 64
    indicator values, and a position becomes a side-to-move flag followed by
    seventeen such blocks, the input the network heads read. */
module Chess {
  import opened Common
  import Ai

  /** A bitboard: the unsigned 64-bit integer of `BitBoard`. */
  type Bitboard = x: nat | x < 0x1_0000_0000_0000_0000

  function Pow2(n: nat): (p: nat)
    ensures p > 0
  {
    if n == 0 then 1 else 2 * Pow2(n - 1)
  }

  lemma {:induction false} Pow2Add(m: nat, n: nat)
    ensures Pow2(m + n) == Pow2(m) * Pow2(n)
  {
    if n > 0 {
      Pow2Add(m, n - 1);
    }
  }

  lemma Pow2Of64()
    ensures Pow2(64) == 0x1_0000_0000_0000_0000
  {
    assert Pow2(4) == 0x10;
    Pow2Add(4, 4);
    Pow2Add(8, 8);
    assert Pow2(16) == 0x1_0000;
    Pow2Add(16, 16);
    assert Pow2(32) == 0x1_0000_0000;
    Pow2Add(32, 32);
  }

  /** Bit `i` of a bitboard, tested as the source does: shift right by `i`
      (divide by 2^i) and keep the lowest bit. */
  predicate Bit(board: Bitboard, i: nat)
    requires i < 64
  {
    BitOf(board, i) == 1
  }

  /** Bit `i` of any natural number. */
  function BitOf(a: nat, i: nat): (b: nat)
    ensures b < 2
  {
    (a / Pow2(i)) % 2
  }

  /** The value an indicator entry takes for bit `i`. */
  function Indicator(board: Bitboard, i: nat): (x: real)
    requires i < 64
    ensures x == 1.0 <==> Bit(board, i)
    ensures x == 0.0 <==> !Bit(board, i)
  {
    if Bit(board, i) then 1.0 else 0.0
  }

  /** The 64 indicators of a bitboard, least significant bit first. */
  function Indicators(board: Bitboard): seq<real>
  {
    seq(64, i requires 0 <= i < 64 => Indicator(board, i))
  }

  /** `bitboard_to_array`: an array of zeros in which entry `i` is set to
      one when bit `i` of the bitboard is set. */
  method BitboardToArray(board: Bitboard) returns (a: seq<real>)
    ensures a == Indicators(board)
  {
    var state := new real[64](_ => 0.0);
    for i := 0 to 64
      invariant forall j :: 0 <= j < i ==> state[j] == Indicator(board, j)
      invariant forall j :: i <= j < 64 ==> state[j] == 0.0
    {
      if BitOf(board, i) == 1 {
        state[i] := 1.0;
      }
    }
    a := state[..];
  }

  /** Every indicator array has 64 entries, each zero or one, and entry `i`
      is one exactly when bit `i` is set. */
  lemma IndicatorsAreBits(board: Bitboard)
    ensures |Indicators(board)| == 64
    ensures forall i :: 0 <= i < 64 ==>
      (Indicators(board)[i] == 0.0 || Indicators(board)[i] == 1.0) &&
      (Indicators(board)[i] == 1.0 <==> Bit(board, i))
  {
  }

  /** Division is determined by any quotient and remainder that fit. */
  lemma DivUnique(a: nat, m: nat, q: nat, r: nat)
    requires m > 0 && a == q * m + r && r < m
    ensures a / m == q
  {
    var q', r' := a / m, a % m;
    assert q' * m + r' == q * m + r;
    if q' < q {
      assert (q - q') * m == q * m - q' * m;
      MulAtLeast(q - q', m);
    } else if q < q' {
      assert (q' - q) * m == q' * m - q * m;
      MulAtLeast(q' - q, m);
    }
  }

  lemma MulAtLeast(x: nat, m: nat)
    requires x >= 1
    ensures x * m >= m
  {
    assert x * m == (x - 1) * m + m;
  }

  /** Halving and then dividing by `m` is dividing by `2m`. */
  lemma DivDiv(a: nat, m: nat)
    requires m > 0
    ensures (a / 2) / m == a / (2 * m)
  {
    var h := a / 2;
    var q, r := h / m, h % m;
    assert h == q * m + r;
    assert a == 2 * h + a % 2;
    assert 2 * h == q * (2 * m) + 2 * r;
    DivUnique(a, 2 * m, q, 2 * r + a % 2);
  }

  /** Halving shifts every bit down by one place. */
  lemma HalfShiftsBits(a: nat, i: nat)
    ensures BitOf(a / 2, i) == BitOf(a, i + 1)
  {
    DivDiv(a, Pow2(i));
  }

  /** Two numbers below 2^n whose first `n` bits agree are equal. */
  lemma {:induction false} BitsDetermine(a: nat, b: nat, n: nat)
    requires n <= 64 && a < Pow2(n) && b < Pow2(n)
    requires forall i :: 0 <= i < n ==> BitOf(a, i) == BitOf(b, i)
    ensures a == b
  {
    if n > 0 {
      assert a % 2 == b % 2 by {
        assert BitOf(a, 0) == BitOf(b, 0);
      }
      forall i | 0 <= i < n - 1
        ensures BitOf(a / 2, i) == BitOf(b / 2, i)
      {
        HalfShiftsBits(a, i);
        HalfShiftsBits(b, i);
        assert BitOf(a, i + 1) == BitOf(b, i + 1);
      }
      BitsDetermine(a / 2, b / 2, n - 1);
    }
  }

  /** The indicator array loses nothing: two bitboards with the same
      indicators are the same bitboard. */
  lemma IndicatorsInjective(a: Bitboard, b: Bitboard)
    requires Indicators(a) == Indicators(b)
    ensures a == b
  {
    forall i | 0 <= i < 64
      ensures BitOf(a, i) == BitOf(b, i)
    {
      assert Indicators(a)[i] == Indicators(b)[i];
    }
    Pow2Of64();
    BitsDetermine(a, b, 64);
  }

  /** What `state` reads from a board: the side to move, the checkers,
      occupied and pinned sets, each colour's squares and each coloured
      piece kind's squares. The move generator and the rest of the board
      are not part of this model. */
  datatype Board = Board(
    side: Color,
    checkers: Bitboard,
    occupied: Bitboard,
    pinned: Bitboard,
    colors: Color -> Bitboard,
    pieces: (Color, Piece) -> Bitboard)

  /** Number of indicator blocks after the side flag. */
  const Blocks: nat := 17

  /** The order in which each colour's piece kinds are encoded. */
  const PieceOrder: seq<Piece> := [King, Queen, Rook, Bishop, Knight, Pawn]

  /** The bitboard of block `k`: checkers, occupied, pinned, then White's
      squares and White's kings, queens, rooks, bishops, knights and pawns,
      then the same seven for Black. */
  function Block(b: Board, k: nat): Bitboard
    requires k < Blocks
  {
    if k == 0 then b.checkers
    else if k == 1 then b.occupied
    else if k == 2 then b.pinned
    else if k == 3 then b.colors(White)
    else if k < 10 then b.pieces(White, PieceOrder[k - 4])
    else if k == 10 then b.colors(Black)
    else b.pieces(Black, PieceOrder[k - 11])
  }

  /** The leading entry: 0 when White is to move, 1 when Black is. */
  function SideFlag(c: Color): (x: real)
    ensures x == 0.0 <==> c == White
    ensures x == 1.0 <==> c == Black
  {
    match c
    case White => 0.0
    case Black => 1.0
  }

  /** The side flag followed by the first `n` blocks. */
  function Prefix(b: Board, n: nat): seq<real>
    requires n <= Blocks
  {
    if n == 0 then [SideFlag(b.side)]
    else Prefix(b, n - 1) + Indicators(Block(b, n - 1))
  }

  /** The whole feature vector of a board. */
  function Features(b: Board): seq<real>
  {
    Prefix(b, Blocks)
  }

  /** `ChessState::state`: start from the side flag and append the
      indicator array of each of the seventeen bitboards in turn. */
  method State(b: Board) returns (s: seq<real>)
    ensures s == Features(b)
  {
    s := [SideFlag(b.side)];
    var block := BitboardToArray(b.checkers);
    s := s + block;
    assert s == Prefix(b, 1);
    block := BitboardToArray(b.occupied);
    s := s + block;
    assert s == Prefix(b, 2);
    block := BitboardToArray(b.pinned);
    s := s + block;
    assert s == Prefix(b, 3);

    block := BitboardToArray(b.colors(White));
    s := s + block;
    assert s == Prefix(b, 4);

    block := BitboardToArray(b.pieces(White, King));
    s := s + block;
    assert s == Prefix(b, 5);
    block := BitboardToArray(b.pieces(White, Queen));
    s := s + block;
    assert s == Prefix(b, 6);
    block := BitboardToArray(b.pieces(White, Rook));
    s := s + block;
    assert s == Prefix(b, 7);
    block := BitboardToArray(b.pieces(White, Bishop));
    s := s + block;
    assert s == Prefix(b, 8);
    block := BitboardToArray(b.pieces(White, Knight));
    s := s + block;
    assert s == Prefix(b, 9);
    block := BitboardToArray(b.pieces(White, Pawn));
    s := s + block;
    assert s == Prefix(b, 10);

    block := BitboardToArray(b.colors(Black));
    s := s + block;
    assert s == Prefix(b, 11);

    block := BitboardToArray(b.pieces(Black, King));
    s := s + block;
    assert s == Prefix(b, 12);
    block := BitboardToArray(b.pieces(Black, Queen));
    s := s + block;
    assert s == Prefix(b, 13);
    block := BitboardToArray(b.pieces(Black, Rook));
    s := s + block;
    assert s == Prefix(b, 14);
    block := BitboardToArray(b.pieces(Black, Bishop));
    s := s + block;
    assert s == Prefix(b, 15);
    block := BitboardToArray(b.pieces(Black, Knight));
    s := s + block;
    assert s == Prefix(b, 16);
    block := BitboardToArray(b.pieces(Black, Pawn));
    s := s + block;
  }

  /** The side flag stays at index 0 and block `k` occupies the 64 entries
      from `1 + 64k` on, entry `i` of it being bit `i` of block `k`'s
      bitboard. */
  lemma {:induction false} PrefixLayout(b: Board, n: nat)
    requires n <= Blocks
    ensures |Prefix(b, n)| == 1 + 64 * n
    ensures Prefix(b, n)[0] == SideFlag(b.side)
    ensures forall k, i :: 0 <= k < n && 0 <= i < 64 ==>
      Prefix(b, n)[1 + 64 * k + i] == Indicator(Block(b, k), i)
  {
    if n > 0 {
      PrefixLayout(b, n - 1);
      var p := Prefix(b, n - 1);
      assert Prefix(b, n) == p + Indicators(Block(b, n - 1));
      forall k, i | 0 <= k < n && 0 <= i < 64
        ensures Prefix(b, n)[1 + 64 * k + i] == Indicator(Block(b, k), i)
      {
        if k < n - 1 {
          assert 1 + 64 * k + i < |p|;
        } else {
          assert 1 + 64 * k + i == |p| + i;
        }
      }
    }
  }

  /** The feature vector has `1 + 17 * 64` entries, as many as the network
      heads take as input; entry 0 says who is to move and block `k`
      carries the bits of block `k`'s bitboard. */
  lemma FeatureLayout(b: Board)
    ensures |Features(b)| == 1 + 64 * Blocks == Ai.InputWidth
    ensures Features(b)[0] == 1.0 <==> b.side == Black
    ensures forall k, i :: 0 <= k < Blocks && 0 <= i < 64 ==>
      (Features(b)[1 + 64 * k + i] == 1.0 <==> Bit(Block(b, k), i)) &&
      (Features(b)[1 + 64 * k + i] == 0.0 <==> !Bit(Block(b, k), i))
  {
    PrefixLayout(b, Blocks);
    forall k, i | 0 <= k < Blocks && 0 <= i < 64
      ensures (Features(b)[1 + 64 * k + i] == 1.0 <==> Bit(Block(b, k), i)) &&
        (Features(b)[1 + 64 * k + i] == 0.0 <==> !Bit(Block(b, k), i))
    {
      assert Features(b)[1 + 64 * k + i] == Indicator(Block(b, k), i);
    }
  }

  /** Two boards with the same features have the same side to move and
      the same seventeen bitboards: the encoding loses none of what it
      reads. */
  lemma FeaturesDetermineBoard(a: Board, b: Board)
    requires Features(a) == Features(b)
    ensures a.side == b.side
    ensures forall k :: 0 <= k < Blocks ==> Block(a, k) == Block(b, k)
  {
    PrefixLayout(a, Blocks);
    PrefixLayout(b, Blocks);
    forall k | 0 <= k < Blocks
      ensures Block(a, k) == Block(b, k)
    {
      forall i | 0 <= i < 64
        ensures Indicators(Block(a, k))[i] == Indicators(Block(b, k))[i]
      {
        assert Features(a)[1 + 64 * k + i] == Features(b)[1 + 64 * k + i];
      }
      IndicatorsInjective(Block(a, k), Block(b, k));
    }
  }
}
