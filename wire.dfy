/**
 * The object stream that physical nodes write their own fields to and read them back from.
 * The framework's `ObjectDataOutput` / `ObjectDataInput` and `SerializationUtil.writeList` /
 * `readList` are modelled at the level of tokens: one token per primitive written, one per
 * object, one per list. Objects carry their type, as the framework's polymorphic object
 * serialization does.
 */
module Wire {
  import opened Wrappers
  import opened JavaLang
  import opened Expressions

  /** An object as `writeObject` writes it: `null` or a value tagged with its class. */
  datatype Item =
    | NullItem
    | IntegerItem(i: int32)
    | ExpressionItem(e: Expression)
    | AggregateItem(a: AggregateExpression)

  datatype Token =
    | IntToken(i: int32)
    | BooleanToken(b: bool)
    | ObjectToken(item: Item)
    | ListToken(items: seq<Item>)

  /** Why a read failed: the stream ended, the next token is of another kind, or an object is of another class. */
  datatype DecodeError = EndOfStream(pos: nat) | WrongToken(pos: nat) | ClassCast(pos: nat)

  // Boxing a value into an object, and the checked cast back.

  function BoxInteger(x: int32): Item { IntegerItem(x) }
  function CastInteger(it: Item): Option<int32> { if it.IntegerItem? then Some(it.i) else None }

  function BoxExpression(e: Expression): Item { ExpressionItem(e) }
  function CastExpression(it: Item): Option<Expression> { if it.ExpressionItem? then Some(it.e) else None }

  function BoxAggregate(a: AggregateExpression): Item { AggregateItem(a) }
  function CastAggregate(it: Item): Option<AggregateExpression> { if it.AggregateItem? then Some(it.a) else None }

  /** A nullable `Expression` reference as an object. */
  function BoxNullableExpression(e: Option<Expression>): Item
  {
    if e.None? then NullItem else ExpressionItem(e.value)
  }

  /** The cast of an object to a nullable `Expression` reference: `null` passes, other classes do not. */
  function CastNullableExpression(it: Item): Option<Option<Expression>>
  {
    match it
    case NullItem => Some(None)
    case ExpressionItem(e) => Some(Some(e))
    case _ => None
  }

  /** The elements of a list as the objects `writeList` writes. */
  function Box<T>(xs: seq<T>, box: T -> Item): (items: seq<Item>)
    ensures |items| == |xs|
    ensures forall i :: 0 <= i < |xs| ==> items[i] == box(xs[i])
  {
    seq(|xs|, i requires 0 <= i < |xs| => box(xs[i]))
  }

  /** Casts every object of a list read back, failing if any one is of another class. */
  function Unbox<T>(items: seq<Item>, cast: Item -> Option<T>): (r: Option<seq<T>>)
    ensures r.Some? <==> forall i :: 0 <= i < |items| ==> cast(items[i]).Some?
    ensures r.Some? ==> |r.value| == |items| && forall i :: 0 <= i < |items| ==> cast(items[i]) == Some(r.value[i])
  {
    if items == [] then Some([])
    else
      match cast(items[0])
      case None => None
      case Some(x) =>
        match Unbox(items[1..], cast)
        case None => None
        case Some(rest) => Some([x] + rest)
  }

  /** When every boxed value casts back to itself, a boxed list unboxes to the original list. */
  lemma UnboxBox<T>(xs: seq<T>, box: T -> Item, cast: Item -> Option<T>)
    requires forall x :: cast(box(x)) == Some(x)
    ensures Unbox(Box(xs, box), cast) == Some(xs)
  {
    var r := Unbox(Box(xs, box), cast);
    assert forall i :: 0 <= i < |xs| ==> cast(Box(xs, box)[i]) == Some(xs[i]);
    assert r.value == xs;
  }

  // What each read returns, as a function of the tokens and the position of the read.

  function ReadIntAt(ts: seq<Token>, pos: nat): Result<int32, DecodeError>
  {
    if pos >= |ts| then Failure(EndOfStream(pos))
    else if ts[pos].IntToken? then Success(ts[pos].i)
    else Failure(WrongToken(pos))
  }

  function ReadBooleanAt(ts: seq<Token>, pos: nat): Result<bool, DecodeError>
  {
    if pos >= |ts| then Failure(EndOfStream(pos))
    else if ts[pos].BooleanToken? then Success(ts[pos].b)
    else Failure(WrongToken(pos))
  }

  function ReadObjectAt<T>(ts: seq<Token>, pos: nat, cast: Item -> Option<T>): Result<T, DecodeError>
  {
    if pos >= |ts| then Failure(EndOfStream(pos))
    else if !ts[pos].ObjectToken? then Failure(WrongToken(pos))
    else match cast(ts[pos].item)
      case None => Failure(ClassCast(pos))
      case Some(x) => Success(x)
  }

  function ReadListAt<T>(ts: seq<Token>, pos: nat, cast: Item -> Option<T>): Result<seq<T>, DecodeError>
  {
    if pos >= |ts| then Failure(EndOfStream(pos))
    else if !ts[pos].ListToken? then Failure(WrongToken(pos))
    else match Unbox(ts[pos].items, cast)
      case None => Failure(ClassCast(pos))
      case Some(xs) => Success(xs)
  }

  /** `ObjectDataOutput`: everything written so far, in order. */
  class ObjectDataOutput {
    var tokens: seq<Token>

    constructor ()
      ensures tokens == []
    {
      tokens := [];
    }

    method WriteInt(v: int32)
      modifies this
      ensures tokens == old(tokens) + [IntToken(v)]
    {
      tokens := tokens + [IntToken(v)];
    }

    method WriteBoolean(v: bool)
      modifies this
      ensures tokens == old(tokens) + [BooleanToken(v)]
    {
      tokens := tokens + [BooleanToken(v)];
    }

    method WriteObject(item: Item)
      modifies this
      ensures tokens == old(tokens) + [ObjectToken(item)]
    {
      tokens := tokens + [ObjectToken(item)];
    }

    /** `SerializationUtil.writeList`. */
    method WriteList<T>(xs: seq<T>, box: T -> Item)
      modifies this
      ensures tokens == old(tokens) + [ListToken(Box(xs, box))]
    {
      tokens := tokens + [ListToken(Box(xs, box))];
    }
  }

  /** `ObjectDataInput`: the tokens of the stream and the position of the next read. */
  class ObjectDataInput {
    const tokens: seq<Token>
    var pos: nat

    constructor (ts: seq<Token>)
      ensures tokens == ts && pos == 0
    {
      tokens := ts;
      pos := 0;
    }

    method ReadInt() returns (r: Result<int32, DecodeError>)
      modifies this
      ensures r == ReadIntAt(tokens, old(pos))
      ensures pos == if r.Success? then old(pos) + 1 else old(pos)
    {
      r := ReadIntAt(tokens, pos);
      if r.Success? {
        pos := pos + 1;
      }
    }

    method ReadBoolean() returns (r: Result<bool, DecodeError>)
      modifies this
      ensures r == ReadBooleanAt(tokens, old(pos))
      ensures pos == if r.Success? then old(pos) + 1 else old(pos)
    {
      r := ReadBooleanAt(tokens, pos);
      if r.Success? {
        pos := pos + 1;
      }
    }

    method ReadObject<T>(cast: Item -> Option<T>) returns (r: Result<T, DecodeError>)
      modifies this
      ensures r == ReadObjectAt(tokens, old(pos), cast)
      ensures pos == if r.Success? then old(pos) + 1 else old(pos)
    {
      r := ReadObjectAt(tokens, pos, cast);
      if r.Success? {
        pos := pos + 1;
      }
    }

    /** `SerializationUtil.readList`. */
    method ReadList<T>(cast: Item -> Option<T>) returns (r: Result<seq<T>, DecodeError>)
      modifies this
      ensures r == ReadListAt(tokens, old(pos), cast)
      ensures pos == if r.Success? then old(pos) + 1 else old(pos)
    {
      r := ReadListAt(tokens, pos, cast);
      if r.Success? {
        pos := pos + 1;
      }
    }
  }
}
