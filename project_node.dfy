/**
 * `ProjectPhysicalNode`: projection over one upstream. Its only own field is the list of
 * projection expressions; the upstream belongs to the unary base class, which is not part of
 * this model.
 */
module ProjectNode {
  import opened Wrappers
  import opened Expressions
  import opened Wire
  import opened PhysicalNodes

  /** What `writeData0` appends: the projection list, and nothing else. */
  function ProjectTokens(projects: seq<Expression>): seq<Token>
  {
    [ListToken(Box(projects, BoxExpression))]
  }

  /** What `readData0` reads starting at `pos`, with the position after the read. */
  function DecodeProject(ts: seq<Token>, pos: nat): Result<(seq<Expression>, nat), DecodeError>
  {
    var projects :- ReadListAt(ts, pos, CastExpression);
    Success((projects, pos + 1))
  }

  /** Round trip: reading back what `writeData0` wrote restores the projections and consumes exactly that token. */
  lemma ProjectRoundTrip(projects: seq<Expression>, before: seq<Token>, after: seq<Token>)
    ensures DecodeProject(before + ProjectTokens(projects) + after, |before|)
         == Success((projects, |before| + |ProjectTokens(projects)|))
  {
    var ts := before + ProjectTokens(projects) + after;
    assert ts[|before|] == ListToken(Box(projects, BoxExpression));
    UnboxBox(projects, BoxExpression, CastExpression);
  }

  /**
   * A list holding anything but expressions is rejected by this model's typed list read. Java's
   * unchecked `readList` stores such a list.
   */
  lemma ProjectRejectsForeignItems(items: seq<Item>, i: nat)
    requires i < |items| && !items[i].ExpressionItem?
    ensures DecodeProject([ListToken(items)], 0) == Failure(ClassCast(0))
  {
  }

  class ProjectPhysicalNode {
    /** Held by the unary base class; `None` is the `null` the no-arg constructor leaves. */
    var upstream: Option<Node>
    var projects: Option<seq<Expression>>

    /** The no-arg constructor used before `readData0`. */
    constructor Empty()
      ensures upstream == None && projects == None
    {
      upstream := None;
      projects := None;
    }

    /** Stores both arguments unchanged; `getProjects` returns the list. */
    constructor (upstream: Node, projects: seq<Expression>)
      ensures this.upstream == Some(upstream) && GetProjects() == Some(projects)
      ensures Built() && Value() == Project(upstream, projects)
    {
      this.upstream := Some(upstream);
      this.projects := Some(projects);
    }

    function GetProjects(): Option<seq<Expression>> reads this { projects }

    predicate Built()
      reads this
    {
      upstream.Some? && projects.Some?
    }

    /** The node as a plan-tree value, on which `visit`, `equals` and `hashCode` are defined. */
    function Value(): Node
      reads this
      requires Built()
    {
      Project(upstream.value, projects.value)
    }

    /** `writeData0`: appends the projection list. */
    method WriteData0(out: ObjectDataOutput)
      requires projects.Some?
      modifies out
      ensures out.tokens == old(out.tokens) + ProjectTokens(projects.value)
    {
      out.WriteList(projects.value, BoxExpression);
    }

    /** `readData0`: reads the projection list; the upstream is never touched. */
    method ReadData0(input: ObjectDataInput) returns (r: Outcome<DecodeError>)
      modifies this, input
      ensures upstream == old(upstream)
      ensures var d := DecodeProject(input.tokens, old(input.pos));
        && (r.Pass? <==> d.Success?)
        && (d.Success? ==> projects == Some(d.value.0) && input.pos == d.value.1)
        && (d.Failure? ==> projects == old(projects) && input.pos == old(input.pos) && r == Fail(d.error))
    {
      var p := input.ReadList(CastExpression);
      if p.Failure? {
        return Fail(p.error);
      }
      projects := Some(p.value);
      r := Pass;
    }
  }

  /**
   * The framework's deserialization of a node: write `source`'s projections, then read them
   * into a node made by the no-arg constructor. The read succeeds, and the copy's upstream is
   * still `null`.
   */
  method CopyThroughStream(source: ProjectPhysicalNode) returns (copy: ProjectPhysicalNode, r: Outcome<DecodeError>)
    ensures r == Pass
    requires source.projects.Some?
    ensures copy.projects == source.projects && copy.upstream == None
  {
    var out := new ObjectDataOutput();
    source.WriteData0(out);
    var input := new ObjectDataInput(out.tokens);
    copy := new ProjectPhysicalNode.Empty();
    ProjectRoundTrip(source.projects.value, [], []);
    assert out.tokens == [] + ProjectTokens(source.projects.value) + [];
    r := copy.ReadData0(input);
  }
}
