/** The enumerations of chaionline/enumerations.py that the core uses. */
module Enumerations {

  datatype Color = WHITE | BLACK

  datatype GameResult = WIN | LOSS | DRAW

  /** The other side of the board. */
  function Opposite(c: Color): (o: Color)
    ensures o != c
  {
    if c == WHITE then BLACK else WHITE
  }
}
