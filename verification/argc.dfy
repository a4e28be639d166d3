/** The "argc" type struct, Argc_T<CON>: a variable-length trailing operand
    list whose every element is decoded by the inner type struct CON. */
module ArgcT {
  import opened Wrappers
  import opened Expression

  /** Reference definition of Argc_T<CON>::getData: decode, with `con`, every
      piece from index `i` to the end of `p`, in order, stopping at the first
      failure. */
  function Collect<T>(con: Decoder<T>, p: seq<ExpressionPiece>, i: nat): (r: Result<seq<T>, DecodeError>)
    ensures r.Success? <==> forall j :: i <= j < |p| ==> con(p, j).Success?
    ensures r.Success? ==> |r.value| == (if i <= |p| then |p| - i else 0)
    ensures r.Success? ==> forall k :: 0 <= k < |r.value| ==> con(p, i + k) == Success(r.value[k])
    decreases |p| - i
  {
    if i >= |p| then Success([])
    else
      match con(p, i)
      case Failure(e) => Failure(e)
      case Success(v) =>
        match Collect(con, p, i + 1)
        case Failure(e) => Failure(e)
        case Success(vs) => Success([v] + vs)
  }

  /** Puts already-decoded values in front of a decoding result. */
  function Prepend<T>(done: seq<T>, r: Result<seq<T>, DecodeError>): (joined: Result<seq<T>, DecodeError>)
  {
    match r
    case Success(vs) => Success(done + vs)
    case Failure(e) => Failure(e)
  }

  /** When some piece fails to decode, Argc fails with the error of the first
      failing piece: the loop stops at the first exception. */
  lemma {:induction false} CollectFirstFailure<T>(con: Decoder<T>, p: seq<ExpressionPiece>, i: nat, j: nat)
    requires i <= j < |p|
    requires forall m :: i <= m < j ==> con(p, m).Success?
    requires con(p, j).Failure?
    ensures Collect(con, p, i) == Failure(con(p, j).error)
    decreases j - i
  {
    if i < j {
      CollectFirstFailure(con, p, i + 1, j);
    }
  }

  /** Argc_T<CON>::getData: a loop that pushes CON::getData(p, i) for every i
      from `position` to the end of `p`. */
  method GetData<T>(con: Decoder<T>, p: seq<ExpressionPiece>, position: nat) returns (r: Result<seq<T>, DecodeError>)
    ensures r == Collect(con, p, position)
  {
    var returnVector: seq<T> := [];
    var i := position;
    assert Collect(con, p, i).Success? ==> [] + Collect(con, p, i).value == Collect(con, p, i).value;
    while i < |p|
      invariant Collect(con, p, position) == Prepend(returnVector, Collect(con, p, i))
    {
      var v := con(p, i);
      if v.Failure? {
        return Failure(v.error);
      }
      assert Collect(con, p, i) == Prepend([v.value], Collect(con, p, i + 1));
      assert Collect(con, p, i + 1).Success? ==>
        returnVector + ([v.value] + Collect(con, p, i + 1).value) == (returnVector + [v.value]) + Collect(con, p, i + 1).value;
      returnVector := returnVector + [v.value];
      i := i + 1;
    }
    assert returnVector + [] == returnVector;
    r := Success(returnVector);
  }

  /** The pieces appended and the error raised (if any) when CON::parseParameters
      is called for every index from `i` to the end of `input`, in ascending
      order. The pieces appended before a failure stay in the output. */
  datatype ParseOutcome = ParseOutcome(appended: seq<ExpressionPiece>, error: Option<DecodeError>)

  function ParseFrom(con: Parser, input: seq<string>, i: nat): (out: ParseOutcome)
    decreases |input| - i
  {
    if i >= |input| then ParseOutcome([], None)
    else
      match con(i, input)
      case Failure(e) => ParseOutcome([], Some(e))
      case Success(ps) =>
        var rest := ParseFrom(con, input, i + 1);
        ParseOutcome(ps + rest.appended, rest.error)
  }

  /** When every inner call succeeds and appends exactly one piece, the output
      grows by one piece per remaining operand, the k-th piece appended being
      the one parsed from operand position + k: each index is parsed once, in
      ascending order. */
  lemma {:induction false} ParseFromOnePieceEach(con: Parser, input: seq<string>, i: nat)
    requires forall j :: i <= j < |input| ==> con(j, input).Success? && |con(j, input).value| == 1
    ensures ParseFrom(con, input, i).error == None
    ensures |ParseFrom(con, input, i).appended| == (if i <= |input| then |input| - i else 0)
    ensures forall k :: 0 <= k < |ParseFrom(con, input, i).appended| ==>
              ParseFrom(con, input, i).appended[k] == con(i + k, input).value[0]
    decreases |input| - i
  {
    if i < |input| {
      ParseFromOnePieceEach(con, input, i + 1);
      var rest := ParseFrom(con, input, i + 1).appended;
      var ps := con(i, input).value;
      assert ParseFrom(con, input, i).appended == ps + rest;
      forall k | 1 <= k < 1 + |rest|
        ensures (ps + rest)[k] == con(i + k, input).value[0]
      {
        assert (ps + rest)[k] == rest[k - 1];
        assert i + 1 + (k - 1) == i + k;
      }
    }
  }

  /** An inner failure at operand j, after every earlier operand parsed, is
      the error reported; the pieces of the earlier operands remain appended. */
  lemma {:induction false} ParseFromFirstFailure(con: Parser, input: seq<string>, i: nat, j: nat)
    requires i <= j < |input|
    requires forall m :: i <= m < j ==> con(m, input).Success?
    requires con(j, input).Failure?
    ensures ParseFrom(con, input, i).error == Some(con(j, input).error)
    decreases j - i
  {
    if i < j {
      ParseFromFirstFailure(con, input, i + 1, j);
    }
  }

  /** Argc_T<CON>::parseParameters: calls CON::parseParameters(i, input, output)
      for every i from `position` to the end of `input`. Returns the exception
      that stopped the loop, if any. */
  method ParseParameters(con: Parser, position: nat, input: seq<string>, output: PieceList)
    returns (error: Option<DecodeError>)
    modifies output
    ensures output.pieces == old(output.pieces) + ParseFrom(con, input, position).appended
    ensures error == ParseFrom(con, input, position).error
  {
    ghost var done: seq<ExpressionPiece> := [];
    var i := position;
    while i < |input|
      invariant output.pieces == old(output.pieces) + done
      invariant ParseFrom(con, input, position).appended == done + ParseFrom(con, input, i).appended
      invariant ParseFrom(con, input, position).error == ParseFrom(con, input, i).error
    {
      var ps := con(i, input);
      if ps.Failure? {
        return Some(ps.error);
      }
      output.pieces := output.pieces + ps.value;
      done := done + ps.value;
      i := i + 1;
    }
    error := None;
  }
}
