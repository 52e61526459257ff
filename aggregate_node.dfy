/**
 * `AggregatePhysicalNode`: collocated aggregation over one upstream. The object is built either
 * by the full constructor or by the no-arg constructor followed by `readData0`, which fills in
 * the node's own fields from the stream (the upstream is read by the unary base class, which is
 * not part of this model).
 */
module AggregateNode {
  import opened Wrappers
  import opened JavaLang
  import opened Expressions
  import opened Wire
  import opened PhysicalNodes

  /** The fields `writeData0` writes and `readData0` reads. */
  datatype AggregateFields = AggregateFields(
    groupKey: seq<int32>,
    expressions: seq<AggregateExpression>,
    sortedGroupKeySize: int32)

  /** What `writeData0` appends: the group key list, the accumulator list, then the int. */
  function AggregateTokens(f: AggregateFields): seq<Token>
  {
    [ListToken(Box(f.groupKey, BoxInteger)),
     ListToken(Box(f.expressions, BoxAggregate)),
     IntToken(f.sortedGroupKeySize)]
  }

  /** What `readData0` reads starting at `pos`, with the position after the last read. */
  function DecodeAggregate(ts: seq<Token>, pos: nat): Result<(AggregateFields, nat), DecodeError>
  {
    var groupKey :- ReadListAt(ts, pos, CastInteger);
    var expressions :- ReadListAt(ts, pos + 1, CastAggregate);
    var sortedGroupKeySize :- ReadIntAt(ts, pos + 2);
    Success((AggregateFields(groupKey, expressions, sortedGroupKeySize), pos + 3))
  }

  /**
   * Round trip: reading back what `writeData0` wrote, wherever it sits in the stream, restores
   * all three fields and consumes exactly the written tokens.
   */
  lemma AggregateRoundTrip(f: AggregateFields, before: seq<Token>, after: seq<Token>)
    ensures DecodeAggregate(before + AggregateTokens(f) + after, |before|)
         == Success((f, |before| + |AggregateTokens(f)|))
  {
    var ts := before + AggregateTokens(f) + after;
    var p := |before|;
    assert ts[p] == ListToken(Box(f.groupKey, BoxInteger));
    assert ts[p + 1] == ListToken(Box(f.expressions, BoxAggregate));
    assert ts[p + 2] == IntToken(f.sortedGroupKeySize);
    UnboxBox(f.groupKey, BoxInteger, CastInteger);
    UnboxBox(f.expressions, BoxAggregate, CastAggregate);
  }

  /** A stream that ends before the three fields are complete is rejected. */
  lemma AggregateTruncatedRejected(ts: seq<Token>, pos: nat)
    requires |ts| < pos + 3
    ensures DecodeAggregate(ts, pos).Failure?
  {
  }

  class AggregatePhysicalNode {
    /** Held by the unary base class; `None` is the `null` the no-arg constructor leaves. */
    var upstream: Option<Node>
    var groupKey: Option<seq<int32>>
    var expressions: Option<seq<AggregateExpression>>
    var sortedGroupKeySize: int32

    /** The no-arg constructor used before `readData0`: references are `null`, the int is 0. */
    constructor Empty()
      ensures upstream == None && groupKey == None && expressions == None && sortedGroupKeySize == 0
    {
      upstream := None;
      groupKey := None;
      expressions := None;
      sortedGroupKeySize := 0;
    }

    /** Stores every argument unchanged; the getters return them. No bound on `sortedGroupKeySize` is checked. */
    constructor (upstream: Node, groupKey: seq<int32>, expressions: seq<AggregateExpression>, sortedGroupKeySize: int32)
      ensures GetUpstream() == Some(upstream) && GetGroupKey() == Some(groupKey)
      ensures GetExpressions() == Some(expressions) && GetSortedGroupKeySize() == sortedGroupKeySize
      ensures Built() && Value() == Aggregate(upstream, groupKey, expressions, sortedGroupKeySize)
    {
      this.upstream := Some(upstream);
      this.groupKey := Some(groupKey);
      this.expressions := Some(expressions);
      this.sortedGroupKeySize := sortedGroupKeySize;
    }

    function GetUpstream(): Option<Node> reads this { upstream }
    function GetGroupKey(): Option<seq<int32>> reads this { groupKey }
    function GetExpressions(): Option<seq<AggregateExpression>> reads this { expressions }
    function GetSortedGroupKeySize(): int32 reads this { sortedGroupKeySize }

    /** No field is `null` any more. */
    predicate Built()
      reads this
    {
      upstream.Some? && groupKey.Some? && expressions.Some?
    }

    /** The node as a plan-tree value, on which `visit`, `equals` and `hashCode` are defined. */
    function Value(): Node
      reads this
      requires Built()
    {
      Aggregate(upstream.value, groupKey.value, expressions.value, sortedGroupKeySize)
    }

    /** `writeData0`: appends the node's own fields and nothing else. */
    method WriteData0(out: ObjectDataOutput)
      requires groupKey.Some? && expressions.Some?
      modifies out
      ensures out.tokens == old(out.tokens)
        + AggregateTokens(AggregateFields(groupKey.value, expressions.value, sortedGroupKeySize))
    {
      out.WriteList(groupKey.value, BoxInteger);
      out.WriteList(expressions.value, BoxAggregate);
      out.WriteInt(sortedGroupKeySize);
    }

    /**
     * `readData0`: three reads in the order of `writeData0`, each assigned as soon as it
     * succeeds; a failing read ends the method, leaving the fields read before it assigned.
     * The upstream is never touched.
     */
    method ReadData0(input: ObjectDataInput) returns (r: Outcome<DecodeError>)
      modifies this, input
      ensures upstream == old(upstream)
      ensures var d := DecodeAggregate(input.tokens, old(input.pos));
        && (r.Pass? <==> d.Success?)
        && (d.Success? ==>
              && groupKey == Some(d.value.0.groupKey)
              && expressions == Some(d.value.0.expressions)
              && sortedGroupKeySize == d.value.0.sortedGroupKeySize
              && input.pos == d.value.1)
      ensures var g := ReadListAt(input.tokens, old(input.pos), CastInteger);
        var e := ReadListAt(input.tokens, old(input.pos) + 1, CastAggregate);
        var s := ReadIntAt(input.tokens, old(input.pos) + 2);
        && groupKey == (if g.Success? then Some(g.value) else old(groupKey))
        && expressions == (if g.Success? && e.Success? then Some(e.value) else old(expressions))
        && sortedGroupKeySize == (if g.Success? && e.Success? && s.Success? then s.value else old(sortedGroupKeySize))
        && r == (if g.Failure? then Fail(g.error)
                 else if e.Failure? then Fail(e.error)
                 else if s.Failure? then Fail(s.error)
                 else Pass)
        && input.pos == old(input.pos) + (if g.Failure? then 0 else if e.Failure? then 1 else if s.Failure? then 2 else 3)
    {
      var g := input.ReadList(CastInteger);
      if g.Failure? {
        return Fail(g.error);
      }
      groupKey := Some(g.value);
      var e := input.ReadList(CastAggregate);
      if e.Failure? {
        return Fail(e.error);
      }
      expressions := Some(e.value);
      var s := input.ReadInt();
      if s.Failure? {
        return Fail(s.error);
      }
      sortedGroupKeySize := s.value;
      r := Pass;
    }
  }

  /**
   * The framework's deserialization of a node: write `source`'s own fields, then read them into
   * a node made by the no-arg constructor. The copy has the same own fields; its upstream is
   * still `null`, as only the base class reads it. The read succeeds.
   */
  method CopyThroughStream(source: AggregatePhysicalNode) returns (copy: AggregatePhysicalNode, r: Outcome<DecodeError>)
    ensures r == Pass
    requires source.groupKey.Some? && source.expressions.Some?
    ensures copy.groupKey == source.groupKey && copy.expressions == source.expressions
    ensures copy.sortedGroupKeySize == source.sortedGroupKeySize && copy.upstream == None
  {
    var out := new ObjectDataOutput();
    source.WriteData0(out);
    var input := new ObjectDataInput(out.tokens);
    copy := new AggregatePhysicalNode.Empty();
    AggregateRoundTrip(AggregateFields(source.groupKey.value, source.expressions.value, source.sortedGroupKeySize), [], []);
    assert out.tokens == [] + AggregateTokens(AggregateFields(source.groupKey.value, source.expressions.value, source.sortedGroupKeySize)) + [];
    r := copy.ReadData0(input);
  }
}
