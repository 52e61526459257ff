# Physical plan nodes and record selection of a distributed data grid

This project models two small pieces of the Hazelcast code base in Dafny and proves properties
of them.

**SQL physical plan nodes.** A query plan is a tree of physical nodes, serialized, shipped to
members and rebuilt there. The project node (`ProjectPhysicalNode`), the aggregate node
(`AggregatePhysicalNode`) and the join base (`AbstractJoinPhysicalNode`) each write their own
fields to an object stream (`writeData0`) and read them back into an instance made by the no-arg
constructor (`readData0`). The project and aggregate nodes also take part in a visitor traversal
(`visit`: the upstream first, then the node's own callback), and compare and hash by structure
(`equals`, `hashCode`).

- `physical_nodes.dfy` (module `PhysicalNodes`) holds the plan tree as a value (`Node`). It
  defines `visit`, `equals` and `hashCode`, one function per Java method (`ProjectVisit`,
  `AggregateEquals`, ...), dispatching on the node's class. It proves the traversal order and
  the equality and hash laws.
- `aggregate_node.dfy`, `project_node.dfy` and `join_node.dfy` hold the node objects as classes.
  Each class has a no-arg constructor `Empty`, the full constructor and the getters.
  `WriteData0` and `ReadData0` are proved against pure functions of the token stream
  (`AggregateTokens` / `DecodeAggregate`, ...), and round-trip lemmas are proved about those
  functions. `ReadData0` keeps Java's exception behaviour: a read that fails ends the method,
  and the fields read before it stay assigned.
- `wire.dfy` (module `Wire`) is the object stream at token level. It has one token per `int`,
  `boolean` or object written, and one per list written by `SerializationUtil.writeList`. Objects
  carry their class, as they do in the framework's polymorphic object serialization.
- `java_lang.dfy` holds Java `int` (`int32`), its wrap-around (`Wrap32`) and the
  `Arrays.hashCode` fold behind `Objects.hash` and `List.hashCode`.
- `expressions.dfy` holds opaque stand-ins for `Expression` and `AggregateExpression`.

**Record kind selection.** `data_record_factory.dfy` (module `DataRecordFactory`) models
`DataRecordFactory.newRecord`. It chooses one of eight record classes from four inputs: the
cache-deserialized-values mode, the statistics flag (OR-ed with the cluster-version check), the
presence of an evictor, and the eviction policy. The eight classes are described by a reference
pair: a family (cached or not) and a variant (with statistics, LRU eviction, LFU eviction, or
plain).

## Model

| member | source | states |
|---|---|---|
| `PhysicalNodes.ProjectVisit` | hazelcast/src/main/java/com/hazelcast/sql/impl/physical/ProjectPhysicalNode.java:50-54 | `ProjectPhysicalNode.visit`: the upstream's traversal, then `onProjectNode(this)`: the node's own callback is the last one received. Its further properties are stated by `VisitOwnCallbackLastAndOnce` (own callback last and exactly once) and `UpstreamVisitedJustBefore` (children before parents). |
| `PhysicalNodes.AggregateVisit` | hazelcast/src/main/java/com/hazelcast/sql/impl/physical/AggregatePhysicalNode.java:75-79 | `AggregatePhysicalNode.visit`: the upstream's traversal, then `onAggregateNode(this)`: the node's own callback is the last one received. Its further properties are stated by `VisitOwnCallbackLastAndOnce` and `UpstreamVisitedJustBefore`. |
| `PhysicalNodes.VisitOwnCallbackLastAndOnce` | hazelcast/src/main/java/com/hazelcast/sql/impl/physical/AggregatePhysicalNode.java:75-79 | A project or aggregate node's traversal is its upstream's traversal followed by its own callback. The own callback occurs exactly once in it. |
| `PhysicalNodes.UpstreamVisitedJustBefore` | hazelcast/src/main/java/com/hazelcast/sql/impl/physical/ProjectPhysicalNode.java:50-54 | Anywhere in a model tree, the callbacks received just before a project or aggregate node's callback are exactly its upstream's traversal: children before parents. |
| `PhysicalNodes.Equals` | hazelcast/src/main/java/com/hazelcast/sql/impl/physical/AggregatePhysicalNode.java:101-108 | `equals` is true exactly for an equal node. It is false for `null` and for another class, and true for the node itself (the same-reference shortcut agrees with the field comparison). |
| `PhysicalNodes.AggregateEquals` | hazelcast/src/main/java/com/hazelcast/sql/impl/physical/AggregatePhysicalNode.java:101-114 | Two aggregate nodes are equal exactly when upstream, group key, accumulators and `sortedGroupKeySize` are all equal. `null` and other classes are unequal. |
| `PhysicalNodes.ProjectEquals` | hazelcast/src/main/java/com/hazelcast/sql/impl/physical/ProjectPhysicalNode.java:72-84 | Two project nodes are equal exactly when upstream and projections are equal. `null` and other classes are unequal. |
| `PhysicalNodes.ProjectHashCode` | hazelcast/src/main/java/com/hazelcast/sql/impl/physical/ProjectPhysicalNode.java:67-69 | `ProjectPhysicalNode.hashCode`: `Objects.hash(upstream, projects)` in `int` arithmetic. Its consistency with `equals` is stated by `HashCodeConsistentWithEquals`. |
| `PhysicalNodes.AggregateHashCode` | hazelcast/src/main/java/com/hazelcast/sql/impl/physical/AggregatePhysicalNode.java:96-98 | `AggregatePhysicalNode.hashCode`: `Objects.hash(upstream, groupKey, expressions, sortedGroupKeySize)` in `int` arithmetic. Its properties are stated by `HashCodeConsistentWithEquals` and `AggregateHashSeparatesSortedGroupKeySize`. |
| `PhysicalNodes.HashCodeConsistentWithEquals` | hazelcast/src/main/java/com/hazelcast/sql/impl/physical/ProjectPhysicalNode.java:67-69 | Nodes that `equals` relates have equal `hashCode`s. `hashCode` is `Objects.hash` over the fields `equals` compares. |
| `PhysicalNodes.AggregateHashSeparatesSortedGroupKeySize` | hazelcast/src/main/java/com/hazelcast/sql/impl/physical/AggregatePhysicalNode.java:96-98 | The aggregate hash, with Java `int` wrap-around, covers `sortedGroupKeySize`. Two aggregate nodes that differ only there hash differently. |
| `AggregateNode.AggregatePhysicalNode.Empty` | hazelcast/src/main/java/com/hazelcast/sql/impl/physical/AggregatePhysicalNode.java:41-43 | The no-arg constructor leaves upstream, group key and accumulators `null` and `sortedGroupKeySize` 0. |
| `AggregateNode.AggregatePhysicalNode.constructor` | hazelcast/src/main/java/com/hazelcast/sql/impl/physical/AggregatePhysicalNode.java:45-72 | The constructor stores its four arguments unchanged, with no check on `sortedGroupKeySize`. Each getter returns the stored value. |
| `AggregateNode.AggregatePhysicalNode.WriteData0` | hazelcast/src/main/java/com/hazelcast/sql/impl/physical/AggregatePhysicalNode.java:82-86 | `writeData0` appends the group key list, then the accumulator list, then the int, and nothing else. |
| `AggregateNode.AggregatePhysicalNode.ReadData0` | hazelcast/src/main/java/com/hazelcast/sql/impl/physical/AggregatePhysicalNode.java:88-93 | `readData0` reads the three fields in the written order. On success the fields are the decoded ones and the stream has advanced by three. On failure the fields read before the failing read stay assigned. The upstream is never changed. |
| `AggregateNode.AggregateRoundTrip` | hazelcast/src/main/java/com/hazelcast/sql/impl/physical/AggregatePhysicalNode.java:82-93 | Decoding what `writeData0` wrote, anywhere in a stream, restores all three fields and consumes exactly the written tokens. |
| `AggregateNode.AggregateTruncatedRejected` | hazelcast/src/main/java/com/hazelcast/sql/impl/physical/AggregatePhysicalNode.java:88-93 | A stream that ends before the three fields are complete is rejected. |
| `AggregateNode.CopyThroughStream` | hazelcast/src/main/java/com/hazelcast/sql/impl/physical/AggregatePhysicalNode.java:41-93 | Writing a node and reading it into a no-arg node succeeds and gives the same own fields. The copy's upstream is still `null`. |
| `ProjectNode.ProjectPhysicalNode.Empty` | hazelcast/src/main/java/com/hazelcast/sql/impl/physical/ProjectPhysicalNode.java:35-37 | The no-arg constructor leaves upstream and projections `null`. |
| `ProjectNode.ProjectPhysicalNode.constructor` | hazelcast/src/main/java/com/hazelcast/sql/impl/physical/ProjectPhysicalNode.java:39-47 | The constructor stores upstream and projections unchanged, and `getProjects` returns the stored list. |
| `ProjectNode.ProjectPhysicalNode.WriteData0` | hazelcast/src/main/java/com/hazelcast/sql/impl/physical/ProjectPhysicalNode.java:57-59 | `writeData0` appends exactly the projection list. |
| `ProjectNode.ProjectPhysicalNode.ReadData0` | hazelcast/src/main/java/com/hazelcast/sql/impl/physical/ProjectPhysicalNode.java:62-64 | `readData0` reads the projection list. On failure nothing changes. The upstream is never changed. |
| `ProjectNode.ProjectRoundTrip` | hazelcast/src/main/java/com/hazelcast/sql/impl/physical/ProjectPhysicalNode.java:57-64 | Decoding what `writeData0` wrote restores the projections and consumes exactly that token. |
| `ProjectNode.ProjectRejectsForeignItems` | hazelcast/src/main/java/com/hazelcast/sql/impl/physical/ProjectPhysicalNode.java:62-64 | A property of this model's list reading, not of the Java code: the model's typed list read rejects a list holding something other than expressions. Java stores such a list (see Left out). |
| `ProjectNode.CopyThroughStream` | hazelcast/src/main/java/com/hazelcast/sql/impl/physical/ProjectPhysicalNode.java:35-64 | Writing a node and reading it into a no-arg node succeeds and gives the same projections. The copy's upstream is still `null`. |
| `JoinNode.AbstractJoinPhysicalNode.Empty` | hazelcast/src/main/java/com/hazelcast/sql/impl/physical/join/AbstractJoinPhysicalNode.java:43-45 | The no-arg constructor leaves `left`, `right` and `condition` `null`, `outer` and `semi` false, and the column count 0. |
| `JoinNode.AbstractJoinPhysicalNode.constructor` | hazelcast/src/main/java/com/hazelcast/sql/impl/physical/join/AbstractJoinPhysicalNode.java:47-77 | The constructor hands `left` and `right` to the base and stores condition, outer, semi and the column count unchanged. Each getter returns the stored value. |
| `JoinNode.AbstractJoinPhysicalNode.WriteData0` | hazelcast/src/main/java/com/hazelcast/sql/impl/physical/join/AbstractJoinPhysicalNode.java:80-84 | `writeData0` appends exactly the condition object, the `outer` boolean and the int column count, in that order. |
| `JoinNode.AbstractJoinPhysicalNode.ReadData0` | hazelcast/src/main/java/com/hazelcast/sql/impl/physical/join/AbstractJoinPhysicalNode.java:86-91 | `readData0` reads condition, outer and column count in the written order. On failure the fields read before the failing read stay assigned. `left`, `right` and `semi` are never changed. |
| `JoinNode.JoinRoundTripWrittenFields` | hazelcast/src/main/java/com/hazelcast/sql/impl/physical/join/AbstractJoinPhysicalNode.java:80-91 | Decoding what `writeData0` wrote restores condition, outer and column count, and consumes exactly the written tokens. The reader's own `semi` is kept. |
| `JoinNode.JoinRoundTripLosesSemi` | hazelcast/src/main/java/com/hazelcast/sql/impl/physical/join/AbstractJoinPhysicalNode.java:43-91 | A join decoded into a no-arg node always has `semi == false`. It equals the original exactly when the original's `semi` was false. |
| `JoinNode.CopyThroughStream` | hazelcast/src/main/java/com/hazelcast/sql/impl/physical/join/AbstractJoinPhysicalNode.java:43-91 | The same on objects: the read succeeds, the copy agrees on the written fields, its `semi` is false, and it equals the source exactly when the source was not a semi join. |
| `JoinNode.AbstractJoinPhysicalNode.WriteData0WithSemi` | hazelcast/src/main/java/com/hazelcast/sql/impl/physical/join/AbstractJoinPhysicalNode.java:80-84 | Corrected `writeData0`: it also writes `semi`, after `outer`. |
| `JoinNode.AbstractJoinPhysicalNode.ReadData0WithSemi` | hazelcast/src/main/java/com/hazelcast/sql/impl/physical/join/AbstractJoinPhysicalNode.java:86-91 | Corrected `readData0`: it also reads `semi`, after `outer`. On success all four own fields are the decoded ones and the stream has advanced by four. On failure the result is the first failing read's error, the fields read before it are assigned, and the later ones keep their old values. |
| `JoinNode.JoinRoundTripWithSemi` | hazelcast/src/main/java/com/hazelcast/sql/impl/physical/join/AbstractJoinPhysicalNode.java:80-91 | With the corrected codec, decoding restores all four own fields, `semi` included. |
| `JoinNode.CopyThroughStreamWithSemi` | hazelcast/src/main/java/com/hazelcast/sql/impl/physical/join/AbstractJoinPhysicalNode.java:43-91 | With the corrected codec, the read succeeds and a node read into a no-arg node has all of the source's own fields. |
| `DataRecordFactory.NewRecord` | hazelcast/src/main/java/com/hazelcast/map/impl/record/DataRecordFactory.java:39-53 | Mode `NEVER` selects the non-cached family and every other mode the cached one. Statistics or a 4.1 cluster select the with-stats variant whatever the eviction settings. Otherwise, an evictor other than `NULL_EVICTOR` with policy LRU or LFU selects that eviction variant, and every other case the plain one. The record holds `toData(value)`. |
| `DataRecordFactory.NewCachedSimpleRecord` | hazelcast/src/main/java/com/hazelcast/map/impl/record/DataRecordFactory.java:60-77 | The cached builder picks a cached class. Its variant is the shared decision on (statistics or 4.1, eviction, policy). It keeps the given value data. |
| `DataRecordFactory.NewSimpleRecord` | hazelcast/src/main/java/com/hazelcast/map/impl/record/DataRecordFactory.java:79-96 | The non-cached builder picks a non-cached class. Its variant is the same shared decision. It keeps the given value data. |
| `DataRecordFactory.BuildersAgreeOnVariant` | hazelcast/src/main/java/com/hazelcast/map/impl/record/DataRecordFactory.java:60-96 | On the same inputs the two builders choose the same variant and the same value data, and differ only in family. |
| `DataRecordFactory.PolicyIrrelevantWithoutEviction` | hazelcast/src/main/java/com/hazelcast/map/impl/record/DataRecordFactory.java:62-76 | With statistics on, a 4.1 cluster, or no evictor, the eviction policy does not affect the record chosen. |
| `DataRecordFactory.FamilyAndVariantIdentifyKind` | hazelcast/src/main/java/com/hazelcast/map/impl/record/DataRecordFactory.java:60-96 | The eight record classes the builders create correspond one to one to the (family, variant) pairs. |

## Left out

- The unary and binary base classes (`UniInputPhysicalNode`, `BiInputPhysicalNode`) are not part of this model. So the reading and writing of `upstream`, `left` and `right` are absent, and so are the join nodes' `visit`, `equals` and `hashCode`.
- Node classes other than project and aggregate are opaque `Other` nodes. Their visitor callbacks and hash codes are parameters. Their `equals` is taken to be value equality.
- Nodes of other classes are leaves. Their whole traversal is an opaque event list, so a project or aggregate node below a join, filter or other node cannot be expressed. The traversal lemmas `VisitOwnCallbackLastAndOnce` and `UpstreamVisitedJustBefore` cover trees where project and aggregate nodes form a chain over one other node.
- Expression and accumulator evaluation, and the execution semantics of joins and aggregation, are not modelled. Nothing in the modelled files implements them.
- `toString` is not modelled.
- The byte encoding is not modelled. Each `int`, `boolean`, object or list written is one token. A read of the wrong kind of token, or of a list element of the wrong class, is a decode error. In Java a byte stream would be misread instead, and `readList`'s unchecked cast would defer the element check. After a failed read the model leaves the stream position where the read started.
- Null references appear only as the fields a no-arg constructor leaves unset, and as the join condition, which may be null as in Java: it is written as a null object and read back as null. The model's other constructor arguments are never null. `equals`, `hashCode` and `visit` are defined on fully built node values, so the `NullPointerException`s Java would throw on a half-built node are not modelled.
- ProjectNode.ProjectRejectsForeignItems: states the model's eager element check, not Java's behaviour. `SerializationUtil.readList` returns the list through an unchecked generic cast, so Java's `readData0` stores a list of foreign objects without complaint, and a `ClassCastException` can come only later, when an element is used as an `Expression`.
- AggregateNode.AggregatePhysicalNode.WriteData0: requires both lists to be non-null. What `SerializationUtil.writeList` does with a `null` list is framework code this model does not include.
- ProjectNode.ProjectPhysicalNode.WriteData0: requires the projection list to be non-null, for the same reason.
- `AbstractJoinPhysicalNode` is abstract in Java, and its concrete subclasses are not part of this model. The model makes it a concrete class with the base's fields and codec.
- `isClusterV41()` and the serialization service's `toData` are inputs: a boolean and a function parameter. Of `MapContainer` and `MapConfig`, only the values `newRecord` reads are modelled. The record classes' internals are not modelled.
- `sortedGroupKeySize <= |groupKey|` is a natural invariant of the aggregate node, but nothing enforces it: neither the constructor nor `readData0` checks it. The model follows the code and does not enforce the bound either.
- Decoding a node does not always give a node equal to the original: for the join base this holds only when `semi` is false (see Findings).

## Findings

| source | as written | input that shows it | evidently intended | confidence | as-written member | corrected member |
|---|---|---|---|---|---|---|
| hazelcast/src/main/java/com/hazelcast/sql/impl/physical/join/AbstractJoinPhysicalNode.java:80-91 | `writeData0` writes `condition`, `outer` and `rightRowColumnCount`, and `readData0` reads the same three. `semi` is neither written nor read. | A join node with `semi = true` (any condition, `outer`, column count), written and then read into a no-arg node, comes back with `semi = false`. | `semi` is written and read with the other own fields, so the round trip restores it. | medium (concrete join subclasses are not part of this model and might carry `semi` themselves); not executed | `JoinNode.JoinRoundTripLosesSemi` | `JoinNode.JoinRoundTripWithSemi` |
