/** Types shared by the search, the network and the decoders: the side to
    move, chess piece kinds, an optional value, and the outcome of an
    operation that may panic. */
module Common {

  datatype Option<+T> = None | Some(value: T)

  /** Side of a chess game. */
  datatype Color = White | Black

  /** Piece kinds, in the order the position decoder numbers them (1..6). */
  datatype Piece = Pawn | Rook | Knight | Bishop | Queen | King

  /** Result of an operation whose source aborts the program (`panic!`,
      `unwrap` of `None`, an out-of-bounds index) on some inputs. */
  datatype Outcome<+T> = Ok(value: T) | Panic
}
