/**
 * `AbstractJoinPhysicalNode`: the base of the join nodes. It holds the join condition, the
 * `outer` and `semi` flags and the width of the right row; `left` and `right` belong to the
 * binary base class, which is not part of this model.
 *
 * Its `writeData0` / `readData0` carry `condition`, `outer` and `rightRowColumnCount` but not
 * `semi`, so a join node rebuilt from the stream by the no-arg constructor and `readData0`
 * always has `semi == false`. `WriteData0` / `ReadData0` model the code as written;
 * `WriteData0WithSemi` / `ReadData0WithSemi` are the corrected codec, which also carries `semi`.
 */
module JoinNode {
  import opened Wrappers
  import opened JavaLang
  import opened Expressions
  import opened Wire
  import opened PhysicalNodes

  /** The join's own fields; `condition == None` is a `null` condition. */
  datatype JoinFields = JoinFields(
    condition: Option<Expression>,
    outer: bool,
    semi: bool,
    rightRowColumnCount: int32)

  /** The own fields of a join node made by the no-arg constructor. */
  const NO_ARG_FIELDS: JoinFields := JoinFields(None, false, false, 0)

  // ---------------------------------------------------------------------------------------
  // The codec as written

  /** What `writeData0` appends: the condition object, the `outer` boolean, the int; `semi` is not written. */
  function JoinTokens(f: JoinFields): seq<Token>
  {
    [ObjectToken(BoxNullableExpression(f.condition)),
     BooleanToken(f.outer),
     IntToken(f.rightRowColumnCount)]
  }

  /**
   * What `readData0` makes of a node whose own fields were `target`, reading from `pos`:
   * condition, outer and rightRowColumnCount are replaced, `semi` is kept.
   */
  function DecodeJoin(ts: seq<Token>, pos: nat, target: JoinFields): Result<(JoinFields, nat), DecodeError>
  {
    var condition :- ReadObjectAt(ts, pos, CastNullableExpression);
    var outer :- ReadBooleanAt(ts, pos + 1);
    var rightRowColumnCount :- ReadIntAt(ts, pos + 2);
    Success((target.(condition := condition, outer := outer, rightRowColumnCount := rightRowColumnCount), pos + 3))
  }

  /**
   * Round trip of the written fields: reading back what `writeData0` wrote restores
   * `condition`, `outer` and `rightRowColumnCount`, consumes exactly the written tokens, and
   * leaves the reader's own `semi` as it was.
   */
  lemma JoinRoundTripWrittenFields(f: JoinFields, target: JoinFields, before: seq<Token>, after: seq<Token>)
    ensures DecodeJoin(before + JoinTokens(f) + after, |before|, target)
         == Success((f.(semi := target.semi), |before| + |JoinTokens(f)|))
  {
  }

  /**
   * The finding: a join node decoded into a no-arg node equals the original exactly when the
   * original's `semi` was false; a semi join comes back as a non-semi join.
   */
  lemma JoinRoundTripLosesSemi(f: JoinFields)
    ensures DecodeJoin(JoinTokens(f), 0, NO_ARG_FIELDS).Success?
    ensures !DecodeJoin(JoinTokens(f), 0, NO_ARG_FIELDS).value.0.semi
    ensures DecodeJoin(JoinTokens(f), 0, NO_ARG_FIELDS).value.0 == f <==> !f.semi
  {
  }

  // ---------------------------------------------------------------------------------------
  // The corrected codec

  /** The corrected `writeData0`: also writes `semi`, after `outer`. */
  function JoinTokensWithSemi(f: JoinFields): seq<Token>
  {
    [ObjectToken(BoxNullableExpression(f.condition)),
     BooleanToken(f.outer),
     BooleanToken(f.semi),
     IntToken(f.rightRowColumnCount)]
  }

  /** The corrected `readData0`: reads all four own fields in the order they are written. */
  function DecodeJoinWithSemi(ts: seq<Token>, pos: nat): Result<(JoinFields, nat), DecodeError>
  {
    var condition :- ReadObjectAt(ts, pos, CastNullableExpression);
    var outer :- ReadBooleanAt(ts, pos + 1);
    var semi :- ReadBooleanAt(ts, pos + 2);
    var rightRowColumnCount :- ReadIntAt(ts, pos + 3);
    Success((JoinFields(condition, outer, semi, rightRowColumnCount), pos + 4))
  }

  /** Round trip of the corrected codec: every own field, `semi` included, is restored. */
  lemma JoinRoundTripWithSemi(f: JoinFields, before: seq<Token>, after: seq<Token>)
    ensures DecodeJoinWithSemi(before + JoinTokensWithSemi(f) + after, |before|)
         == Success((f, |before| + |JoinTokensWithSemi(f)|))
  {
  }

  // ---------------------------------------------------------------------------------------
  // The node object

  class AbstractJoinPhysicalNode {
    /** Held by the binary base class; `None` is the `null` the no-arg constructor leaves. */
    var left: Option<Node>
    var right: Option<Node>
    var condition: Option<Expression>
    var outer: bool
    var semi: bool
    var rightRowColumnCount: int32

    /** The no-arg constructor used before `readData0`. */
    constructor Empty()
      ensures left == None && right == None && Fields() == NO_ARG_FIELDS
    {
      left, right := None, None;
      condition, outer, semi, rightRowColumnCount := None, false, false, 0;
    }

    /** Passes `left` and `right` to the base class and stores the rest unchanged; the getters return them. */
    constructor (left: Node, right: Node, condition: Option<Expression>, outer: bool, semi: bool, rightRowColumnCount: int32)
      ensures this.left == Some(left) && this.right == Some(right)
      ensures GetCondition() == condition && IsOuter() == outer && IsSemi() == semi
      ensures GetRightRowColumnCount() == rightRowColumnCount
    {
      this.left, this.right := Some(left), Some(right);
      this.condition, this.outer, this.semi, this.rightRowColumnCount := condition, outer, semi, rightRowColumnCount;
    }

    function GetCondition(): Option<Expression> reads this { condition }
    function IsOuter(): bool reads this { outer }
    function IsSemi(): bool reads this { semi }
    function GetRightRowColumnCount(): int32 reads this { rightRowColumnCount }

    function Fields(): JoinFields
      reads this
    {
      JoinFields(condition, outer, semi, rightRowColumnCount)
    }

    /** `writeData0` as written: condition, outer, rightRowColumnCount. */
    method WriteData0(out: ObjectDataOutput)
      modifies out
      ensures out.tokens == old(out.tokens) + JoinTokens(Fields())
    {
      out.WriteObject(BoxNullableExpression(condition));
      out.WriteBoolean(outer);
      out.WriteInt(rightRowColumnCount);
    }

    /**
     * `readData0` as written: three reads in the order of `writeData0`, each assigned as soon
     * as it succeeds. `left`, `right` and `semi` are never touched.
     */
    method ReadData0(input: ObjectDataInput) returns (r: Outcome<DecodeError>)
      modifies this, input
      ensures left == old(left) && right == old(right) && semi == old(semi)
      ensures var d := DecodeJoin(input.tokens, old(input.pos), old(Fields()));
        && (r.Pass? <==> d.Success?)
        && (d.Success? ==> Fields() == d.value.0 && input.pos == d.value.1)
      ensures var c := ReadObjectAt(input.tokens, old(input.pos), CastNullableExpression);
        var o := ReadBooleanAt(input.tokens, old(input.pos) + 1);
        var n := ReadIntAt(input.tokens, old(input.pos) + 2);
        && condition == (if c.Success? then c.value else old(condition))
        && outer == (if c.Success? && o.Success? then o.value else old(outer))
        && rightRowColumnCount == (if c.Success? && o.Success? && n.Success? then n.value else old(rightRowColumnCount))
        && r == (if c.Failure? then Fail(c.error)
                 else if o.Failure? then Fail(o.error)
                 else if n.Failure? then Fail(n.error)
                 else Pass)
        && input.pos == old(input.pos) + (if c.Failure? then 0 else if o.Failure? then 1 else if n.Failure? then 2 else 3)
    {
      var c := input.ReadObject(CastNullableExpression);
      if c.Failure? {
        return Fail(c.error);
      }
      condition := c.value;
      var o := input.ReadBoolean();
      if o.Failure? {
        return Fail(o.error);
      }
      outer := o.value;
      var n := input.ReadInt();
      if n.Failure? {
        return Fail(n.error);
      }
      rightRowColumnCount := n.value;
      r := Pass;
    }

    /** Corrected `writeData0`: also writes `semi`. */
    method WriteData0WithSemi(out: ObjectDataOutput)
      modifies out
      ensures out.tokens == old(out.tokens) + JoinTokensWithSemi(Fields())
    {
      out.WriteObject(BoxNullableExpression(condition));
      out.WriteBoolean(outer);
      out.WriteBoolean(semi);
      out.WriteInt(rightRowColumnCount);
    }

    /**
     * Corrected `readData0`: also reads `semi`, after `outer`. On success all four own fields are
     * the decoded ones; a failing read ends the method, leaving the fields read before it assigned.
     */
    method ReadData0WithSemi(input: ObjectDataInput) returns (r: Outcome<DecodeError>)
      modifies this, input
      ensures left == old(left) && right == old(right)
      ensures var d := DecodeJoinWithSemi(input.tokens, old(input.pos));
        && (r.Pass? <==> d.Success?)
        && (d.Success? ==> Fields() == d.value.0 && input.pos == d.value.1)
      ensures var c := ReadObjectAt(input.tokens, old(input.pos), CastNullableExpression);
        var o := ReadBooleanAt(input.tokens, old(input.pos) + 1);
        var s := ReadBooleanAt(input.tokens, old(input.pos) + 2);
        var n := ReadIntAt(input.tokens, old(input.pos) + 3);
        && condition == (if c.Success? then c.value else old(condition))
        && outer == (if c.Success? && o.Success? then o.value else old(outer))
        && semi == (if c.Success? && o.Success? && s.Success? then s.value else old(semi))
        && rightRowColumnCount == (if c.Success? && o.Success? && s.Success? && n.Success? then n.value
                                   else old(rightRowColumnCount))
        && r == (if c.Failure? then Fail(c.error)
                 else if o.Failure? then Fail(o.error)
                 else if s.Failure? then Fail(s.error)
                 else if n.Failure? then Fail(n.error)
                 else Pass)
        && input.pos == old(input.pos) + (if c.Failure? then 0 else if o.Failure? then 1
                                          else if s.Failure? then 2 else if n.Failure? then 3 else 4)
    {
      var c := input.ReadObject(CastNullableExpression);
      if c.Failure? {
        return Fail(c.error);
      }
      condition := c.value;
      var o := input.ReadBoolean();
      if o.Failure? {
        return Fail(o.error);
      }
      outer := o.value;
      var s := input.ReadBoolean();
      if s.Failure? {
        return Fail(s.error);
      }
      semi := s.value;
      var n := input.ReadInt();
      if n.Failure? {
        return Fail(n.error);
      }
      rightRowColumnCount := n.value;
      r := Pass;
    }
  }

  /**
   * The framework's deserialization with the codec as written: the copy agrees with the
   * source on condition, outer and rightRowColumnCount, but its `semi` is false whatever the
   * source held. The read succeeds.
   */
  method CopyThroughStream(source: AbstractJoinPhysicalNode) returns (copy: AbstractJoinPhysicalNode, r: Outcome<DecodeError>)
    ensures r == Pass
    ensures copy.condition == source.condition && copy.outer == source.outer
    ensures copy.rightRowColumnCount == source.rightRowColumnCount
    ensures !copy.semi && (copy.Fields() == source.Fields() <==> !source.semi)
  {
    var out := new ObjectDataOutput();
    source.WriteData0(out);
    var input := new ObjectDataInput(out.tokens);
    copy := new AbstractJoinPhysicalNode.Empty();
    JoinRoundTripLosesSemi(source.Fields());
    r := copy.ReadData0(input);
  }

  /** The same with the corrected codec: the read succeeds and the copy has all of the source's own fields. */
  method CopyThroughStreamWithSemi(source: AbstractJoinPhysicalNode) returns (copy: AbstractJoinPhysicalNode, r: Outcome<DecodeError>)
    ensures r == Pass
    ensures copy.Fields() == source.Fields()
  {
    var out := new ObjectDataOutput();
    source.WriteData0WithSemi(out);
    var input := new ObjectDataInput(out.tokens);
    copy := new AbstractJoinPhysicalNode.Empty();
    JoinRoundTripWithSemi(source.Fields(), [], []);
    assert out.tokens == [] + JoinTokensWithSemi(source.Fields()) + [];
    r := copy.ReadData0WithSemi(input);
  }
}
