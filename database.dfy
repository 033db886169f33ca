/** The training-position decoder of `src/database.rs`: a buffer of bytes,
    read from its last byte backwards, fills the squares of an empty board
    builder one per byte, and a win/loss count becomes a pair of rates. */
module Database {
  import opened Common

  type Byte = bv8

  /** An unsigned 64-bit count. */
  type U64 = x: nat | x < 0x1_0000_0000_0000_0000

  datatype ColoredPiece = ColoredPiece(piece: Piece, color: Color)

  /** The castling rooks' files a side may still castle with. */
  datatype CastleRights = CastleRights(short: Option<nat>, long: Option<nat>)

  /** `CastleRights::EMPTY`: no castling either way. */
  const NoCastling: CastleRights := CastleRights(None, None)

  /** What the decoder sets in the board builder: the 64 squares (index
      `8 * rank + file`), the side to move and both sides' castle rights. */
  datatype Position = Position(
    squares: seq<Option<ColoredPiece>>,
    sideToMove: Color,
    whiteCastling: CastleRights,
    blackCastling: CastleRights)

  /** A training position with its recorded wins and losses. */
  datatype Instance = Instance(board: Position, wins: U64, losses: U64)

  /** The square written for the `idx`-th byte from the end: same rank,
      file mirrored. */
  function Mirror(idx: nat): (sq: nat)
    requires idx < 64
    ensures sq < 64
    ensures sq / 8 == idx / 8 && sq % 8 == 7 - idx % 8
  {
    7 - idx % 8 + 8 * (idx / 8)
  }

  /** Mirroring twice gives the index back, so the byte-to-square map is a
      bijection of the 64 squares onto themselves. */
  lemma MirrorInvolution(idx: nat)
    requires idx < 64
    ensures Mirror(Mirror(idx)) == idx
  {
    var sq := Mirror(idx);
    assert idx == 8 * (idx / 8) + idx % 8;
    assert sq == 8 * (sq / 8) + sq % 8;
  }

  /** The piece kinds in the order the low nibble numbers them, from 1. */
  const Kinds: seq<Piece> := [Pawn, Rook, Knight, Bishop, Queen, King]

  /** The contents one byte gives its square: the low nibble picks the
      kind, bit 7 clear means Black and set means White, and any other
      nibble leaves the square empty. */
  function DecodeSquare(c: Byte): (r: Option<ColoredPiece>)
    ensures r.None? <==> c & 0x0F == 0 || c & 0x0F > 6
    ensures r.Some? ==> r.value.piece == Kinds[(c & 0x0F) as int - 1]
    ensures r.Some? ==> (r.value.color == Black <==> c & 0x80 == 0)
  {
    var black := c & 0x80 == 0;
    var color := if black then Black else White;
    match c & 0x0F
    case 1 => Some(ColoredPiece(Pawn, color))
    case 2 => Some(ColoredPiece(Rook, color))
    case 3 => Some(ColoredPiece(Knight, color))
    case 4 => Some(ColoredPiece(Bishop, color))
    case 5 => Some(ColoredPiece(Queen, color))
    case 6 => Some(ColoredPiece(King, color))
    case _ => None
  }

  /** A byte that makes Black the side to move: a nonzero low nibble with
      bits 7 and 6 both clear. */
  predicate MarksBlack(c: Byte)
  {
    c & 0x0F != 0 && c & 0x80 == 0 && c & 0x40 == 0
  }

  /** Some byte of `buf` from index `from` on marks Black to move. */
  predicate MarksBlackFrom(buf: seq<Byte>, from: nat)
  {
    exists j :: from <= j < |buf| && MarksBlack(buf[j])
  }

  /** The contents of square `sq` after decoding `buf`: the byte whose
      reversed index mirrors to `sq`, or empty when the buffer is too short
      to reach it. */
  function SquareAt(buf: seq<Byte>, sq: nat): Option<ColoredPiece>
    requires sq < 64
  {
    var idx := Mirror(sq);
    if idx < |buf| then DecodeSquare(buf[|buf| - 1 - idx]) else None
  }

  /** The board a buffer of at most 64 bytes describes. */
  function Decoded(buf: seq<Byte>): Position
  {
    Position(
      seq(64, sq requires 0 <= sq < 64 => SquareAt(buf, sq)),
      if MarksBlackFrom(buf, 0) then Black else White,
      NoCastling,
      NoCastling)
  }

  /** `Instance::from_bytes`: walk the buffer from its last byte, writing
      each byte's square and switching the side to move to Black when the
      byte marks it; a buffer of more than 64 bytes runs off the square
      table and panics. The finished builder is then built, and `unwrap`
      panics when the board is not one the rules accept (`buildable`, the
      validity check of `BoardBuilder::build`). */
  method FromBytes(buf: seq<Byte>, wins: U64, losses: U64, buildable: Position -> bool)
    returns (r: Outcome<Instance>)
    ensures r.Ok? <==> |buf| <= 64 && buildable(Decoded(buf))
    ensures r.Ok? ==> r.value == Instance(Decoded(buf), wins, losses)
  {
    var player := White;
    var squares := new Option<ColoredPiece>[64](_ => None);
    var idx := 0;
    while idx < |buf|
      invariant idx <= |buf| && idx <= 64
      invariant forall sq :: 0 <= sq < 64 ==>
        squares[sq] == (if Mirror(sq) < idx then DecodeSquare(buf[|buf| - 1 - Mirror(sq)]) else None)
      invariant player == (if MarksBlackFrom(buf, |buf| - idx) then Black else White)
    {
      var c := buf[|buf| - 1 - idx];
      var c1 := c & 0x0F;
      var sq := 7 - idx % 8 + 8 * (idx / 8);
      if sq >= 64 {
        // `Square::ALL` has 64 entries
        return Panic;
      }
      if c1 != 0 {
        if c & 0x80 == 0 && c & 0x40 == 0 {
          player := Black;
        }
      }
      MirrorInvolution(idx);
      forall s | 0 <= s < 64 && s != sq
        ensures Mirror(s) != idx
      {
        MirrorInvolution(s);
      }
      squares[sq] := DecodeSquare(c);
      idx := idx + 1;
    }
    var board := Position(squares[..], player, NoCastling, NoCastling);
    assert board == Decoded(buf);
    if !buildable(board) {
      return Panic;
    }
    return Ok(Instance(board, wins, losses));
  }

  /** The `idx`-th byte from the end lands on `Mirror(idx)`, every square
      no byte reaches is empty, and castling is off for both sides. */
  lemma DecodedPlacement(buf: seq<Byte>)
    requires |buf| <= 64
    ensures |Decoded(buf).squares| == 64
    ensures forall idx :: 0 <= idx < |buf| ==>
      Decoded(buf).squares[Mirror(idx)] == DecodeSquare(buf[|buf| - 1 - idx])
    ensures forall sq :: |buf| <= sq < 64 ==> Decoded(buf).squares[Mirror(sq)] == None
    ensures Decoded(buf).whiteCastling == NoCastling == Decoded(buf).blackCastling
  {
    forall idx | 0 <= idx < 64
      ensures Decoded(buf).squares[Mirror(idx)] == SquareAt(buf, Mirror(idx))
      ensures Mirror(Mirror(idx)) == idx
    {
      MirrorInvolution(idx);
    }
  }

  /** Black is to move exactly when some byte has a nonzero low nibble and
      bits 7 and 6 clear; a White piece's byte (bit 7 set) never makes it
      so. */
  lemma SideToMoveMeaning(buf: seq<Byte>)
    ensures Decoded(buf).sideToMove == Black <==>
      exists j :: 0 <= j < |buf| && buf[j] & 0x0F != 0 && buf[j] & 0xC0 == 0
    ensures (forall j :: 0 <= j < |buf| ==> buf[j] & 0x80 != 0) ==>
      Decoded(buf).sideToMove == White
  {
    forall j | 0 <= j < |buf|
      ensures MarksBlack(buf[j]) <==> buf[j] & 0x0F != 0 && buf[j] & 0xC0 == 0
    {
    }
  }

  /** A byte whose nibble names no piece still hands the move to Black. In
      the buffer `[0x86, 0x46, 0x07]` (a White king, a Black king, then a
      byte with nibble 7) the last byte leaves its square empty, so the
      board is the one `[0x86, 0x46, 0x00]` gives, yet Black is to move
      instead of White. */
  lemma EmptyByteCanSetSide()
    ensures var with, without := Decoded([0x86, 0x46, 0x07]), Decoded([0x86, 0x46, 0x00]);
      && with.squares[Mirror(2)] == Some(ColoredPiece(King, White))
      && with.squares[Mirror(1)] == Some(ColoredPiece(King, Black))
      && with.squares[Mirror(0)] == None
      && with.squares == without.squares
      && with.sideToMove == Black && without.sideToMove == White
  {
    var with: seq<Byte> := [0x86, 0x46, 0x07];
    var without: seq<Byte> := [0x86, 0x46, 0x00];
    assert MarksBlack(with[2]);
    assert !MarksBlack(without[0]) && !MarksBlack(without[1]) && !MarksBlack(without[2]);
    assert forall sq :: 0 <= sq < 64 ==> SquareAt(with, sq) == SquareAt(without, sq);
  }

  /** `Instance::winrate`: wins over wins plus losses, and its complement.
      The sum overflows a `u64` (a panic in a debug build) at 2^64 or more,
      and with no game at all the rates are 0/0, which is not a number. */
  function WinRate(wins: U64, losses: U64): (r: Outcome<Option<(real, real)>>)
    ensures r.Panic? <==> wins + losses >= 0x1_0000_0000_0000_0000
    ensures r.Ok? ==> (r.value.None? <==> wins + losses == 0)
    ensures r.Ok? && r.value.Some? ==>
      var (w, l) := r.value.value;
      0.0 <= w <= 1.0 && w + l == 1.0 &&
      w * (wins + losses) as real == wins as real &&
      w * losses as real == l * wins as real
  {
    if wins + losses >= 0x1_0000_0000_0000_0000 then Panic
    else
      var t := (wins + losses) as real;
      if t == 0.0 then Ok(None)
      else
        var w := wins as real / t;
        RateFacts(wins as real, losses as real);
        Ok(Some((w, 1.0 - w)))
  }

  lemma RateFacts(a: real, b: real)
    requires a >= 0.0 && b >= 0.0 && a + b > 0.0
    ensures var w := a / (a + b);
      0.0 <= w <= 1.0 && w * (a + b) == a && w * b == (1.0 - w) * a
  {
    var w := a / (a + b);
    assert w * (a + b) == a;
    assert w * b == w * (a + b) - w * a;
  }
}
