# Baremaps entity model, consumer dispatch and tile-set query flattening

This project models three small pieces of Baremaps, an OpenStreetMap import
and tile-serving toolkit, and proves properties of them in Dafny:

- **`Domain`** (`domain.dfy`): the closed family of OSM entities (Header,
  Bound, Node, Way, Relation) and the `Way` record. A way holds the base
  element fields (id, info, tags, optional geometry) and an ordered list of
  64-bit node ids. The model covers its two constructors, `getNodes`,
  `equals` and `hashCode`. `hashCode` follows the documented Java arithmetic
  in 32 bits: `Objects.hash`, `List.hashCode` and `Long.hashCode`.
- **`Handler`** (`handler.dfy`): double dispatch. `visit` hands an entity
  to the `match` overload for its variant, for both an `EntityConsumer` and
  an `EntityFunction<T>`. The model also covers the exception translation in
  `EntityConsumer.accept`. A consumer is a record of five handler functions,
  and what a handler does is seen only through how it ends: it completes or
  it throws.
- **`Mappers`** (`mappers.dfy`): `Mappers.map(TileSet)`. It flattens the
  vector layers of a tile set and their queries into one list of
  `PostgresQuery(layer, minzoom, maxzoom, sql)`, layer by layer and query by
  query.

All three source files are pure, so the model uses datatypes, functions
and lemmas only.

Modelling decisions:

- Java `long` and `int` are the subset types `Int64` and `Int32`.
  `Wrap32` is Java's two's-complement narrowing. The `^` in `Long.hashCode`
  is written as arithmetic over bits (`Xor`).
- `Element.equals` and `Element.hashCode` are not part of this model.
  Element equality is taken to be equality of all base fields. The element
  hash is a parameter `elementHash` of `WayHash`: any deterministic function
  of the base fields.
- `Info`, `Geometry`, the payloads of the other four variants and the
  payloads of exceptions are opaque types that support equality.
- A thrown value is a `StreamException` with an optional cause, any other
  `Exception`, or an `Error`. `catch (Exception e)` in `accept` does not
  catch a `java.lang.Error`, so an `Error` passes through `accept`
  unchanged.

## Model

| member | source | states |
|---|---|---|
| `Domain.NewWay` | baremaps-osm/src/main/java/com/baremaps/osm/domain/Way.java:30-33 | the plain constructor stores exactly the node list it is given (`getNodes` returns it), keeps id, info and tags, and leaves the geometry unset |
| `Domain.NewWayWithGeometry` | baremaps-osm/src/main/java/com/baremaps/osm/domain/Way.java:35-38 | the geometry constructor stores exactly the given node list, id, info and tags, and the given geometry |
| `Domain.ConstructorsAgree` | baremaps-osm/src/main/java/com/baremaps/osm/domain/Way.java:30-42 | both constructors store the same node list and the same base fields apart from the geometry, and the two ways differ |
| `Domain.GetNodes` | baremaps-osm/src/main/java/com/baremaps/osm/domain/Way.java:40-42 | `getNodes()`; with `NewWay`, `NewWayWithGeometry` and `ConstructorsAgree` it returns exactly the node list passed to either constructor |
| `Domain.NodeListsEqual` | baremaps-osm/src/main/java/com/baremaps/osm/domain/Way.java:66 | `Objects.equals` on the two node lists; its contract says equal lists have equal length and agree at every index, and `NodeListsEqualIff` gives the converse |
| `Domain.WayEquals` | baremaps-osm/src/main/java/com/baremaps/osm/domain/Way.java:55-67 | `Way.equals`; its contract says a way only equals a way with the same base fields, and `WayEqualsIff`, `WayEqualsReflexive`, `WayNeverEqualsOtherVariant` and `WayEqualsSymmetric` characterise it fully |
| `Domain.NodeListsEqualIff` | baremaps-osm/src/main/java/com/baremaps/osm/domain/Way.java:66 | `List.equals` on node lists holds exactly when the lengths are equal and the lists agree at every index, so it is sequence equality |
| `Domain.WayEqualsReflexive` | baremaps-osm/src/main/java/com/baremaps/osm/domain/Way.java:56-58 | a way always equals itself |
| `Domain.WayNeverEqualsOtherVariant` | baremaps-osm/src/main/java/com/baremaps/osm/domain/Way.java:59-61 | a way never equals a Header, Bound, Node or Relation |
| `Domain.WayEqualsIff` | baremaps-osm/src/main/java/com/baremaps/osm/domain/Way.java:55-67 | two ways are equal exactly when their base fields are equal and their node lists agree element by element in order; this is datatype equality |
| `Domain.WayEqualsSymmetric` | baremaps-osm/src/main/java/com/baremaps/osm/domain/Way.java:55-67 | way equality is symmetric |
| `Domain.LongHashSmall` | baremaps-osm/src/main/java/com/baremaps/osm/domain/Way.java:71 | `Long.hashCode` of a non-negative id below 2^31 is the id itself |
| `Domain.LongHash` | baremaps-osm/src/main/java/com/baremaps/osm/domain/Way.java:71 | `Long.hashCode` of one node id as the exclusive or of its two 32-bit halves; proved for every id below 2^32 by `LongHashLowHalfOnly`, and checked at -1 and 2^32 by `LongHashMinusOne` and `LongHashHighHalf` |
| `Domain.LongHashLowHalfOnly` | baremaps-osm/src/main/java/com/baremaps/osm/domain/Way.java:71 | an id whose high 32 bits are zero (0 <= v < 2^32) hashes to its low 32 bits read as a signed `int` |
| `Domain.LongHashMinusOne` | baremaps-osm/src/main/java/com/baremaps/osm/domain/Way.java:71 | a negative id is hashed through its two's-complement bits: `Long.hashCode(-1)` is 0 |
| `Domain.LongHashHighHalf` | baremaps-osm/src/main/java/com/baremaps/osm/domain/Way.java:71 | the high 32 bits take part in the hash: `Long.hashCode(2^32)` is 1 |
| `Domain.NodeListHashFrom` | baremaps-osm/src/main/java/com/baremaps/osm/domain/Way.java:71 | the `List.hashCode` fold `h = 31 * h + e.hashCode()` over the node ids in order, in 32-bit arithmetic; the fold over a concatenation continues from the fold over its prefix (`NodeListHashFromAppend`), and it is worked out on two examples in `NodeOrderMatters` |
| `Domain.NodeListHashFromAppend` | baremaps-osm/src/main/java/com/baremaps/osm/domain/Way.java:71 | for every start value and every two node lists, folding over `a + b` is folding over `b` from the result of folding over `a` |
| `Domain.NodeListHashSnoc` | baremaps-osm/src/main/java/com/baremaps/osm/domain/Way.java:71 | appending one id to a node list turns its hash `h` into `31 * h + Long.hashCode(id)`, narrowed to `int` |
| `Domain.NodeListHash` | baremaps-osm/src/main/java/com/baremaps/osm/domain/Way.java:71 | `List.hashCode` of the node list, the fold started from 1; `NodeOrderMatters` shows it depends on the order |
| `Domain.WayHash` | baremaps-osm/src/main/java/com/baremaps/osm/domain/Way.java:69-72 | `Way.hashCode` as `Objects.hash(super.hashCode(), nodes)`; consistent with `equals` by `EqualWaysHaveEqualHashes` and computed on an example by `WayHashExample` |
| `Domain.WayHashExample` | baremaps-osm/src/main/java/com/baremaps/osm/domain/Way.java:69-72 | a way with nodes [1, 2] whose element hashes to 5 has hash code 31 * (31 + 5) + 994 = 2110 |
| `Domain.EqualWaysHaveEqualHashes` | baremaps-osm/src/main/java/com/baremaps/osm/domain/Way.java:55-72 | ways that are equal by `equals` have equal `hashCode`, whatever the element hash is |
| `Domain.WayHashDependsOnlyOnFields` | baremaps-osm/src/main/java/com/baremaps/osm/domain/Way.java:69-72 | the hash depends only on the element hash and the node list |
| `Domain.NodeOrderMatters` | baremaps-osm/src/main/java/com/baremaps/osm/domain/Way.java:62-72 | the ways with nodes [1, 2] and [2, 1] are not equal, and their node lists hash to 994 and 1024 |
| `Handler.HandlerFor` | baremaps-osm/src/main/java/com/baremaps/osm/handler/EntityConsumer.java:40-48 | dispatch is exhaustive: each of the five variants selects one handler, and no two variants select the same one |
| `Handler.Visit` | baremaps-osm/src/main/java/com/baremaps/osm/handler/EntityConsumer.java:32 | `entity.visit(consumer)`; `VisitDispatchesToSelectedHandler` and `AcceptOnlyUsesSelectedHandler` say it runs the handler of the entity's own variant and no other |
| `Handler.VisitWay` | baremaps-osm/src/main/java/com/baremaps/osm/domain/Way.java:44-47 | `Way.visit(EntityConsumer)`; `VisitWayIsWayHandler` says its outcome is the way handler's |
| `Handler.VisitWayWith` | baremaps-osm/src/main/java/com/baremaps/osm/domain/Way.java:49-52 | `Way.visit(EntityFunction<T>)`; `VisitWayIsWayHandler` says it returns the way handler's result unchanged |
| `Handler.VisitWith` | baremaps-osm/src/main/java/com/baremaps/osm/domain/Way.java:49-52 | the function form of `visit` over all variants; specified by `VisitDispatchesToSelectedHandler` and `VisitWithOnlyUsesSelectedHandler` |
| `Handler.VisitDispatchesToSelectedHandler` | baremaps-osm/src/main/java/com/baremaps/osm/handler/EntityConsumer.java:40-48 | for each of the five variants, visiting runs the handler `HandlerFor` selects on the entity's own payload, for consumers and functions alike |
| `Handler.AcceptOnlyUsesSelectedHandler` | baremaps-osm/src/main/java/com/baremaps/osm/handler/EntityConsumer.java:29-48 | two consumers that agree on the handler for the entity's variant give the same `visit` and `accept` outcome, so no other handler plays a part |
| `Handler.VisitWithOnlyUsesSelectedHandler` | baremaps-osm/src/main/java/com/baremaps/osm/domain/Way.java:49-52 | the function form of `visit` depends only on the handler for the entity's variant |
| `Handler.VisitWayIsWayHandler` | baremaps-osm/src/main/java/com/baremaps/osm/domain/Way.java:44-52 | visiting a way with a consumer or a function runs the way handler and returns its outcome or result unchanged |
| `Handler.Translate` | baremaps-osm/src/main/java/com/baremaps/osm/handler/EntityConsumer.java:31-37 | normal completion stays normal; a `StreamException` is rethrown as it is; any other `Exception` becomes a `StreamException` whose cause is that exception; an `Error` passes through |
| `Handler.Accept` | baremaps-osm/src/main/java/com/baremaps/osm/handler/EntityConsumer.java:29-38 | `accept`: whatever escapes it is a `StreamException` or an uncaught `Error`; the lemmas below give each case |
| `Handler.AcceptCompletesIffHandlerCompletes` | baremaps-osm/src/main/java/com/baremaps/osm/handler/EntityConsumer.java:30-32 | `accept` completes normally exactly when the visited handler does |
| `Handler.AcceptRethrowsStreamException` | baremaps-osm/src/main/java/com/baremaps/osm/handler/EntityConsumer.java:33-34 | a `StreamException` from the handler leaves `accept` as that same exception, not wrapped again |
| `Handler.AcceptWrapsOtherException` | baremaps-osm/src/main/java/com/baremaps/osm/handler/EntityConsumer.java:35-36 | any other exception from the handler leaves `accept` as a `StreamException` whose cause is exactly that exception |
| `Handler.AcceptFailureShape` | baremaps-osm/src/main/java/com/baremaps/osm/handler/EntityConsumer.java:33-36 | what `accept` throws is a `StreamException` or an uncaught `Error`; it adds exactly one level of wrapping over a non-stream cause and none otherwise |
| `Handler.TranslateIdempotent` | baremaps-osm/src/main/java/com/baremaps/osm/handler/EntityConsumer.java:31-37 | translating twice is translating once, so a consumer nested in another never double-wraps |
| `Mappers.MapQueries` | baremaps-server/src/main/java/com/baremaps/server/Mappers.java:30-37 | one layer yields one entry per query, in query order, each with the layer's id and the query's minzoom, maxzoom and sql copied unchanged |
| `Mappers.FlatMap` | baremaps-server/src/main/java/com/baremaps/server/Mappers.java:27-38 | the `flatMap` over the layers; its contract gives the length as the total query count, and `FlatMapAt`, `FlatMapOrigin`, `FlatMapOrder` and `FlatMapAppend` give its contents |
| `Mappers.Map` | baremaps-server/src/main/java/com/baremaps/server/Mappers.java:26-39 | `Mappers.map(tileset)`; its contract gives the length as the total query count, and `MapSpec` gives the contents |
| `Mappers.TotalQueriesAppend` | baremaps-server/src/main/java/com/baremaps/server/Mappers.java:27-38 | the query count of two concatenated layer lists is the sum of their counts |
| `Mappers.FlatMapAppend` | baremaps-server/src/main/java/com/baremaps/server/Mappers.java:27-38 | flattening distributes over concatenation: map(L1 ++ L2) = map(L1) ++ map(L2) |
| `Mappers.EmptyLayersContributeNothing` | baremaps-server/src/main/java/com/baremaps/server/Mappers.java:27-30 | no layers give an empty result, and a layer with no queries adds no entries wherever it stands |
| `Mappers.OffsetStep` | baremaps-server/src/main/java/com/baremaps/server/Mappers.java:28-38 | the entries of layer i+1 start exactly where those of layer i end |
| `Mappers.OffsetMonotone` | baremaps-server/src/main/java/com/baremaps/server/Mappers.java:28-38 | the start position of a layer's entries never decreases as the layer index grows |
| `Mappers.FlatMapAt` | baremaps-server/src/main/java/com/baremaps/server/Mappers.java:28-38 | query j of layer i is at position offset(i) + j, with the layer's id and the query's minzoom, maxzoom and sql |
| `Mappers.FlatMapOrder` | baremaps-server/src/main/java/com/baremaps/server/Mappers.java:28-38 | the order is layer-major, query-minor: entries of an earlier layer, or earlier queries of the same layer, come first |
| `Mappers.FlatMapOrigin` | baremaps-server/src/main/java/com/baremaps/server/Mappers.java:33-37 | every result entry is some query j of some layer i, at position offset(i) + j, bound to that layer's id |
| `Mappers.MapSpec` | baremaps-server/src/main/java/com/baremaps/server/Mappers.java:26-39 | every entry of `map(tileset)` is a query of some vector layer bound to that layer's id with its fields unchanged (the length is `Map`'s own contract) |

## Left out

- `Way.toString` is not modelled: it is Java list and string formatting only.
- `Element`, its `equals` and its `hashCode` are not part of this model.
  Element equality is taken to be structural over id, info, tags and
  geometry. The element hash is a parameter.
- The model of `Way.equals` takes an entity argument. `equals(null)`, and `equals`
  with an object that is not an entity, are not modelled; in Java both
  return false through the `instanceof` test.
- A `null` node list, `null` elements inside it, and `null` vector-layer or
  query lists in a tile set are not modelled. In Java those lead to
  `NullPointerException`s or null-tolerant comparisons.
- The JTS geometry, `Info`, and the Header, Bound, Node and Relation
  payloads are opaque types. Their own `visit` methods are not part of this
  model. The dispatch for them is the `match` overload the consumer
  interface declares for each.
- What a `match` handler does beyond how it ends (its side effects) is not
  modelled.
- The `minzoom`/`maxzoom` fields are plain integers here, so `null` zoom
  values are not modelled. What `Mappers.map` does with them depends on the
  `PostgresQuery` constructor, which is not part of this model.
- Domain.NewWay, Domain.NewWayWithGeometry and Domain.GetNodes: the Java
  constructors store the caller's `List` and `getNodes()` hands out that
  same list, with no copy. Changing the list later changes what `equals`
  and `hashCode` report. The node list here is an immutable value, so this
  aliasing is not captured.
- Handler.Accept: an `Entity` here is never `null`. In Java, `accept(null)`
  throws a `NullPointerException` from `entity.visit(this)`, and the
  `catch (Exception e)` wraps it in a `StreamException`.
