/** The decoded operand pieces that the type structs consume, and the
    errors their decoding can raise. */
module Expression {
  import opened Wrappers

  /** One decoded operand: an integer expression, a string constant, or a
      "special" piece carrying an overload tag and its own operand list. */
  datatype ExpressionPiece =
    | Int(value: int)
    | Str(text: string)
    | Special(tag: int, children: seq<ExpressionPiece>)

  /** The exceptions raised while decoding operands. */
  datatype DecodeError =
    | IllegalOverload(tag: int)        // a special piece's tag has no alternative
    | PositionOutOfRange(position: nat) // a bounds-checked access past the end
    | Malformed(reason: string)         // an inner type struct or the token parser refused its input

  /** A type struct's getData: decode the value at a position of a piece list. */
  type Decoder<T> = (seq<ExpressionPiece>, nat) -> Result<T, DecodeError>

  /** A type struct's parseParameters: the pieces it appends to the output
      list when asked to parse the raw operand at a position. */
  type Parser = (nat, seq<string>) -> Result<seq<ExpressionPiece>, DecodeError>

  /** The output piece list that parseParameters appends to in place. */
  class PieceList {
    var pieces: seq<ExpressionPiece>

    constructor (initial: seq<ExpressionPiece>)
      ensures pieces == initial
    {
      pieces := initial;
    }
  }
}
