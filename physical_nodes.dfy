/**
 * Physical plan nodes as values: the tree the planner builds, with the per-class behaviour that
 * does not change state. `visit`, `equals` and `hashCode` of the project and aggregate nodes are
 * modelled here, one function per Java method, dispatching on the node's class as Java's
 * virtual calls do. Every other node class (scans, filters, joins, ...) is an `Other` node whose
 * behaviour is supplied from outside.
 */
module PhysicalNodes {
  import opened Wrappers
  import opened JavaLang
  import opened Expressions

  /** A node of a class this model does not cover, told apart by an identity. */
  datatype OtherNode = OtherNode(id: nat)

  datatype Node =
    | Other(other: OtherNode)
    | Project(upstream: Node, projects: seq<Expression>)
    | Aggregate(upstream: Node, groupKey: seq<int32>, expressions: seq<AggregateExpression>, sortedGroupKeySize: int32)

  /** One visitor callback. The callbacks of other node classes are opaque events. */
  datatype Callback =
    | OnProjectNode(node: Node)
    | OnAggregateNode(node: Node)
    | OnOtherEvent(event: nat)

  /** How other node classes hash, and how the opaque expressions hash. */
  datatype Hashers = Hashers(
    other: OtherNode -> int32,
    expression: Expression -> int32,
    aggregate: AggregateExpression -> int32)

  function Size(n: Node): nat
  {
    match n
    case Other(_) => 1
    case Project(u, _) => 1 + Size(u)
    case Aggregate(u, _, _, _) => 1 + Size(u)
  }

  // ---------------------------------------------------------------------------------------
  // visit

  /**
   * The callbacks the visitor receives when `n.visit(visitor)` runs; `visitOther` gives the
   * events a node of another class produces.
   */
  function Visit(n: Node, visitOther: OtherNode -> seq<nat>): seq<Callback>
    decreases n, 1
  {
    match n
    case Other(o) => OtherEvents(visitOther(o))
    case Project(_, _) => ProjectVisit(n, visitOther)
    case Aggregate(_, _, _, _) => AggregateVisit(n, visitOther)
  }

  function OtherEvents(es: seq<nat>): (cs: seq<Callback>)
    ensures |cs| == |es| && forall i :: 0 <= i < |cs| ==> cs[i] == OnOtherEvent(es[i])
  {
    seq(|es|, i requires 0 <= i < |es| => OnOtherEvent(es[i]))
  }

  /** `ProjectPhysicalNode.visit`: the upstream first, then `onProjectNode(this)`. */
  function ProjectVisit(n: Node, visitOther: OtherNode -> seq<nat>): (r: seq<Callback>)
    requires n.Project?
    ensures |r| > 0 && r[|r| - 1] == OnProjectNode(n)
    decreases n, 0
  {
    Visit(n.upstream, visitOther) + [OnProjectNode(n)]
  }

  /** `AggregatePhysicalNode.visit`: the upstream first, then `onAggregateNode(this)`. */
  function AggregateVisit(n: Node, visitOther: OtherNode -> seq<nat>): (r: seq<Callback>)
    requires n.Aggregate?
    ensures |r| > 0 && r[|r| - 1] == OnAggregateNode(n)
    decreases n, 0
  {
    Visit(n.upstream, visitOther) + [OnAggregateNode(n)]
  }

  /** The callback a project or aggregate node receives for itself. */
  function OwnCallback(n: Node): Callback
    requires !n.Other?
  {
    if n.Project? then OnProjectNode(n) else OnAggregateNode(n)
  }

  /** A callback about a project or aggregate node names a node of that class within `bound`. */
  ghost predicate CallbackWithin(c: Callback, bound: nat)
  {
    match c
    case OnProjectNode(m) => m.Project? && Size(m) <= bound
    case OnAggregateNode(m) => m.Aggregate? && Size(m) <= bound
    case OnOtherEvent(_) => true
  }

  /** Every callback of a traversal is about a node of the traversed tree, of the matching class. */
  lemma {:induction false} VisitStaysWithinTree(n: Node, visitOther: OtherNode -> seq<nat>)
    ensures forall c :: c in Visit(n, visitOther) ==> CallbackWithin(c, Size(n))
  {
    match n
    case Other(_) =>
    case Project(u, _) =>
      VisitStaysWithinTree(u, visitOther);
      assert Visit(n, visitOther) == Visit(u, visitOther) + [OnProjectNode(n)];
    case Aggregate(u, _, _, _) =>
      VisitStaysWithinTree(u, visitOther);
      assert Visit(n, visitOther) == Visit(u, visitOther) + [OnAggregateNode(n)];
  }

  /**
   * A project or aggregate node's own callback comes last in its traversal, after all of its
   * upstream's callbacks, and it is received exactly once.
   */
  lemma VisitOwnCallbackLastAndOnce(n: Node, visitOther: OtherNode -> seq<nat>)
    requires !n.Other?
    ensures var trace := Visit(n, visitOther);
      && |trace| == |Visit(n.upstream, visitOther)| + 1
      && trace[..|trace| - 1] == Visit(n.upstream, visitOther)
      && trace[|trace| - 1] == OwnCallback(n)
      && multiset(trace)[OwnCallback(n)] == 1
  {
    var up := Visit(n.upstream, visitOther);
    VisitStaysWithinTree(n.upstream, visitOther);
    assert !CallbackWithin(OwnCallback(n), Size(n.upstream));
    assert OwnCallback(n) !in up;
    assert Visit(n, visitOther) == up + [OwnCallback(n)];
  }

  /**
   * Children before parents, anywhere in a model tree: wherever the visitor receives the callback
   * for a project or aggregate node `m`, the callbacks it received just before are exactly
   * those of the traversal of `m`'s upstream.
   */
  lemma {:induction false} UpstreamVisitedJustBefore(n: Node, visitOther: OtherNode -> seq<nat>, i: nat)
    requires i < |Visit(n, visitOther)|
    requires !Visit(n, visitOther)[i].OnOtherEvent?
    ensures var m := Visit(n, visitOther)[i].node;
      && !m.Other?
      && Visit(n, visitOther)[i] == OwnCallback(m)
      && |Visit(m.upstream, visitOther)| <= i
      && Visit(n, visitOther)[i - |Visit(m.upstream, visitOther)|..i] == Visit(m.upstream, visitOther)
  {
    var trace := Visit(n, visitOther);
    VisitStaysWithinTree(n, visitOther);
    assert CallbackWithin(trace[i], Size(n));
    match n
    case Other(o) =>
    case Project(u, _) =>
      var up := Visit(u, visitOther);
      assert trace == up + [OnProjectNode(n)];
      if i < |up| {
        UpstreamVisitedJustBefore(u, visitOther, i);
        assert trace[..|up|] == up;
      } else {
        assert trace[..i] == up;
      }
    case Aggregate(u, _, _, _) =>
      var up := Visit(u, visitOther);
      assert trace == up + [OnAggregateNode(n)];
      if i < |up| {
        UpstreamVisitedJustBefore(u, visitOther, i);
        assert trace[..|up|] == up;
      } else {
        assert trace[..i] == up;
      }
  }

  // ---------------------------------------------------------------------------------------
  // equals

  /**
   * `n.equals(o)`, `None` standing for `null`. Nodes of other classes compare as values.
   */
  function Equals(n: Node, o: Option<Node>): (r: bool)
    decreases n, 1
    ensures r <==> o == Some(n)
  {
    match n
    case Other(_) => o == Some(n)
    case Project(_, _) => ProjectEquals(n, o)
    case Aggregate(_, _, _, _) => AggregateEquals(n, o)
  }

  /** `ProjectPhysicalNode.equals`: `null` and other classes differ; otherwise upstream and projections are compared. */
  function ProjectEquals(n: Node, o: Option<Node>): (r: bool)
    requires n.Project?
    decreases n, 0
    ensures r <==> (o.Some? && o.value.Project?
                    && o.value.upstream == n.upstream && o.value.projects == n.projects)
  {
    if o.None? || !o.value.Project? then false
    else
      var that := o.value;
      Equals(n.upstream, Some(that.upstream)) && n.projects == that.projects
  }

  /** `AggregatePhysicalNode.equals`: `null` and other classes differ; otherwise all four fields are compared. */
  function AggregateEquals(n: Node, o: Option<Node>): (r: bool)
    requires n.Aggregate?
    decreases n, 0
    ensures r <==> (o.Some? && o.value.Aggregate?
                    && o.value.upstream == n.upstream && o.value.groupKey == n.groupKey
                    && o.value.expressions == n.expressions
                    && o.value.sortedGroupKeySize == n.sortedGroupKeySize)
  {
    if o.None? || !o.value.Aggregate? then false
    else
      var that := o.value;
      Equals(n.upstream, Some(that.upstream)) && n.groupKey == that.groupKey
        && n.expressions == that.expressions && n.sortedGroupKeySize == that.sortedGroupKeySize
  }

  // ---------------------------------------------------------------------------------------
  // hashCode

  /** `List.hashCode` of a list whose elements hash with `eh`. */
  function ListHash<T>(xs: seq<T>, eh: T -> int32): int32
  {
    HashAll(seq(|xs|, i requires 0 <= i < |xs| => eh(xs[i])))
  }

  /** `n.hashCode()`. */
  function HashCode(n: Node, h: Hashers): int32
    decreases n, 1
  {
    match n
    case Other(o) => h.other(o)
    case Project(_, _) => ProjectHashCode(n, h)
    case Aggregate(_, _, _, _) => AggregateHashCode(n, h)
  }

  /** `ProjectPhysicalNode.hashCode`: `Objects.hash(upstream, projects)`. */
  function ProjectHashCode(n: Node, h: Hashers): int32
    requires n.Project?
    decreases n, 0
  {
    HashAll([HashCode(n.upstream, h), ListHash(n.projects, h.expression)])
  }

  /** `AggregatePhysicalNode.hashCode`: `Objects.hash(upstream, groupKey, expressions, sortedGroupKeySize)`. */
  function AggregateHashCode(n: Node, h: Hashers): int32
    requires n.Aggregate?
    decreases n, 0
  {
    HashAll([HashCode(n.upstream, h), ListHash(n.groupKey, IntegerHash),
             ListHash(n.expressions, h.aggregate), IntegerHash(n.sortedGroupKeySize)])
  }

  /** Equal nodes have equal hash codes. */
  lemma HashCodeConsistentWithEquals(a: Node, b: Node, h: Hashers)
    requires Equals(a, Some(b))
    ensures HashCode(a, h) == HashCode(b, h)
  {
  }

  /**
   * The aggregate hash covers `sortedGroupKeySize`: two aggregate nodes that differ only there
   * hash differently.
   */
  lemma AggregateHashSeparatesSortedGroupKeySize(a: Node, s: int32, h: Hashers)
    requires a.Aggregate? && a.sortedGroupKeySize != s
    ensures HashCode(a, h) != HashCode(a.(sortedGroupKeySize := s), h)
  {
    var b := a.(sortedGroupKeySize := s);
    var prefix := [HashCode(a.upstream, h), ListHash(a.groupKey, IntegerHash), ListHash(a.expressions, h.aggregate)];
    var ha := prefix + [a.sortedGroupKeySize];
    var hb := prefix + [s];
    assert ha[..|ha| - 1] == prefix && hb[..|hb| - 1] == prefix;
    var c := 31 * HashAll(prefix) as int;
    assert [HashCode(a.upstream, h), ListHash(a.groupKey, IntegerHash), ListHash(a.expressions, h.aggregate),
            IntegerHash(a.sortedGroupKeySize)] == ha;
    assert [HashCode(b.upstream, h), ListHash(b.groupKey, IntegerHash), ListHash(b.expressions, h.aggregate),
            IntegerHash(b.sortedGroupKeySize)] == hb;
    assert HashCode(a, h) == Wrap32(c + a.sortedGroupKeySize as int);
    assert HashCode(b, h) == Wrap32(c + s as int);
    Wrap32Injective(c, a.sortedGroupKeySize, s);
  }

  /** Adding two different `int` values to the same base gives different `int` sums. */
  lemma Wrap32Injective(c: int, x: int32, y: int32)
    requires x != y
    ensures Wrap32(c + x as int) != Wrap32(c + y as int)
  {
    var rx := Wrap32(c + x as int) as int;
    var ry := Wrap32(c + y as int) as int;
    var kx := (rx - (c + x as int)) / TWO_TO_32;
    var ky := (ry - (c + y as int)) / TWO_TO_32;
    assert rx - (c + x as int) == kx * TWO_TO_32;
    assert ry - (c + y as int) == ky * TWO_TO_32;
    assert rx - ry == (x as int - y as int) + (kx - ky) * TWO_TO_32;
    if kx > ky {
      assert (kx - ky) * TWO_TO_32 >= TWO_TO_32;
    } else if kx < ky {
      assert (ky - kx) * TWO_TO_32 >= TWO_TO_32;
    }
  }
}
