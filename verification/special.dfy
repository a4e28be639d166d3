/** The "special" type struct, Special_T<A, B, C, D, E>: one operand slot
    that accepts one of up to five shapes, selected by the overload tag of a
    special expression piece. */
module SpecialT {
  import opened Wrappers
  import opened Expression
  import ArgcT

  /** The getData of each of the five alternative type structs A..E. */
  datatype Alternatives<A, B, C, D, E> = Alternatives(
    first: Decoder<A>, second: Decoder<B>, third: Decoder<C>,
    fourth: Decoder<D>, fifth: Decoder<E>)

  /** Special_T::Parameter: the overload tag and one slot per alternative;
      a slot that getData does not assign is None. */
  datatype Parameter<A, B, C, D, E> = Parameter(
    tag: int,
    first: Option<A>, second: Option<B>, third: Option<C>,
    fourth: Option<D>, fifth: Option<E>)

  /** The indices (0 for `first` .. 4 for `fifth`) of the assigned slots. */
  function AssignedSlots<A, B, C, D, E>(par: Parameter<A, B, C, D, E>): (slots: set<int>)
  {
    (if par.first.Some? then {0} else {}) +
    (if par.second.Some? then {1} else {}) +
    (if par.third.Some? then {2} else {}) +
    (if par.fourth.Some? then {3} else {}) +
    (if par.fifth.Some? then {4} else {})
  }

  /** Whether the alternative selected by `tag` decodes `children` from 0. */
  predicate AlternativeSucceeds<A, B, C, D, E>(alts: Alternatives<A, B, C, D, E>, tag: int, children: seq<ExpressionPiece>)
  {
    match tag
    case 0 => alts.first(children, 0).Success?
    case 1 => alts.second(children, 0).Success?
    case 2 => alts.third(children, 0).Success?
    case 3 => alts.fourth(children, 0).Success?
    case 4 => alts.fifth(children, 0).Success?
    case _ => false
  }

  /** Special_T::getData: reads the overload tag of the special piece at
      `position`, decodes that piece's own operand list from index 0 with the
      alternative the tag selects, and throws on any tag outside 0..4. The
      piece is read with an unchecked index and a static_cast, so the caller
      must supply a special piece at a valid position. */
  function GetData<A, B, C, D, E>(alts: Alternatives<A, B, C, D, E>, p: seq<ExpressionPiece>, position: nat)
    : (r: Result<Parameter<A, B, C, D, E>, DecodeError>)
    requires position < |p| && p[position].Special?
    ensures !(0 <= p[position].tag <= 4) ==> r == Failure(IllegalOverload(p[position].tag))
    ensures r.Success? <==> AlternativeSucceeds(alts, p[position].tag, p[position].children)
    ensures r.Success? ==> r.value.tag == p[position].tag && AssignedSlots(r.value) == {r.value.tag}
    ensures r.Success? && r.value.tag == 0 ==> alts.first(p[position].children, 0) == Success(r.value.first.value)
    ensures r.Success? && r.value.tag == 1 ==> alts.second(p[position].children, 0) == Success(r.value.second.value)
    ensures r.Success? && r.value.tag == 2 ==> alts.third(p[position].children, 0) == Success(r.value.third.value)
    ensures r.Success? && r.value.tag == 3 ==> alts.fourth(p[position].children, 0) == Success(r.value.fourth.value)
    ensures r.Success? && r.value.tag == 4 ==> alts.fifth(p[position].children, 0) == Success(r.value.fifth.value)
    ensures r.Failure? && 0 <= p[position].tag <= 4 ==> r.error == AlternativeError(alts, p[position].tag, p[position].children)
  {
    var sp := p[position];
    var empty := Parameter(sp.tag, None, None, None, None, None);
    match sp.tag
    case 0 => Fill(alts.first(sp.children, 0), v => empty.(first := Some(v)))
    case 1 => Fill(alts.second(sp.children, 0), v => empty.(second := Some(v)))
    case 2 => Fill(alts.third(sp.children, 0), v => empty.(third := Some(v)))
    case 3 => Fill(alts.fourth(sp.children, 0), v => empty.(fourth := Some(v)))
    case 4 => Fill(alts.fifth(sp.children, 0), v => empty.(fifth := Some(v)))
    case _ => Failure(IllegalOverload(sp.tag))
  }

  /** The error of the failing alternative selected by `tag`. */
  function AlternativeError<A, B, C, D, E>(alts: Alternatives<A, B, C, D, E>, tag: int, children: seq<ExpressionPiece>): (e: DecodeError)
    requires 0 <= tag <= 4 && !AlternativeSucceeds(alts, tag, children)
  {
    match tag
    case 0 => alts.first(children, 0).error
    case 1 => alts.second(children, 0).error
    case 2 => alts.third(children, 0).error
    case 3 => alts.fourth(children, 0).error
    case _ => alts.fifth(children, 0).error
  }

  /** Stores a decoded alternative in its slot, or passes its exception on. */
  function Fill<T, P>(v: Result<T, DecodeError>, store: T -> P): (filled: Result<P, DecodeError>)
  {
    match v
    case Success(x) => Success(store(x))
    case Failure(e) => Failure(e)
  }

  /** The decode depends only on the special piece itself: the outer position
      and the other pieces of the outer list play no part, because the
      alternative always starts at index 0 of the piece's own list. */
  lemma IgnoresOuterList<A, B, C, D, E>(alts: Alternatives<A, B, C, D, E>,
                                        p: seq<ExpressionPiece>, i: nat, q: seq<ExpressionPiece>, j: nat)
    requires i < |p| && j < |q| && p[i].Special? && p[i] == q[j]
    ensures GetData(alts, p, i) == GetData(alts, q, j)
  {
  }

  /** The piece list Special_T::parseParameters appends: the one piece the
      token parser builds from the raw operand at `position`. `input.at` is
      bounds-checked, so a position past the end raises an exception. */
  function ParseOne(tokenParser: string -> Result<ExpressionPiece, DecodeError>, position: nat, input: seq<string>)
    : (r: Result<seq<ExpressionPiece>, DecodeError>)
    ensures position >= |input| ==> r == Failure(PositionOutOfRange(position))
    ensures r.Success? <==> position < |input| && tokenParser(input[position]).Success?
    ensures r.Success? ==> r.value == [tokenParser(input[position]).value]
    ensures position < |input| && tokenParser(input[position]).Failure? ==> r == Failure(tokenParser(input[position]).error)
  {
    if position < |input| then
      match tokenParser(input[position])
      case Success(piece) => Success([piece])
      case Failure(e) => Failure(e)
    else Failure(PositionOutOfRange(position))
  }

  /** Special_T::parseParameters: appends the parsed piece to `output`; on an
      exception the output is left as it was. */
  method ParseParameters(tokenParser: string -> Result<ExpressionPiece, DecodeError>, position: nat,
                         input: seq<string>, output: PieceList)
    returns (error: Option<DecodeError>)
    modifies output
    ensures error.None? <==> ParseOne(tokenParser, position, input).Success?
    ensures error.None? ==> output.pieces == old(output.pieces) + [tokenParser(input[position]).value]
    ensures error.Some? ==> error.value == ParseOne(tokenParser, position, input).error && output.pieces == old(output.pieces)
  {
    if position >= |input| {
      return Some(PositionOutOfRange(position));
    }
    var ep := tokenParser(input[position]);
    if ep.Failure? {
      return Some(ep.error);
    }
    output.pieces := output.pieces + [ep.value];
    error := None;
  }

  /** Argc_T<Special_T<...>>::parseParameters, as the composition of the two
      type structs: with a token parser that accepts every operand, the output
      receives exactly one piece per operand from `position` on, in order, and
      no error. */
  lemma ArgcOfSpecialAppendsOnePerOperand(tokenParser: string -> Result<ExpressionPiece, DecodeError>,
                                          position: nat, input: seq<string>)
    requires forall s :: s in input ==> tokenParser(s).Success?
    ensures var out := ArgcT.ParseFrom((i: nat, inp: seq<string>) => ParseOne(tokenParser, i, inp), input, position);
            out.error == None &&
            |out.appended| == (if position <= |input| then |input| - position else 0) &&
            forall k :: 0 <= k < |out.appended| ==> out.appended[k] == tokenParser(input[position + k]).value
  {
    var con: Parser := (i: nat, inp: seq<string>) => ParseOne(tokenParser, i, inp);
    forall j | position <= j < |input|
      ensures con(j, input).Success? && |con(j, input).value| == 1
    {
      assert input[j] in input;
    }
    ArgcT.ParseFromOnePieceEach(con, input, position);
  }
}
