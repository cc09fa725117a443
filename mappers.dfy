/** Flattening a tile set's vector layers into the list of Postgres queries the
    tile server runs: one entry per query of every layer, layer by layer and,
    within a layer, query by query. */
module Mappers {

  /** A query of a vector layer: the zoom range it applies to and its SQL. */
  datatype Query = Query(minzoom: int, maxzoom: int, sql: string)

  /** A vector layer of a tile set and its queries. */
  datatype Layer = Layer(id: string, queries: seq<Query>)

  /** A tile set; only its vector layers are read here. */
  datatype TileSet = TileSet(vectorLayers: seq<Layer>)

  /** A query bound to the id of the layer it belongs to. */
  datatype PostgresQuery = PostgresQuery(layer: string, minzoom: int, maxzoom: int, sql: string)

  /** The inner `map` of the stream pipeline: every query of one layer, in order,
      turned into a `PostgresQuery` carrying the layer's id. */
  function MapQueries(layerId: string, queries: seq<Query>): (r: seq<PostgresQuery>)
    ensures |r| == |queries|
    ensures forall j :: 0 <= j < |r| ==>
      r[j] == PostgresQuery(layerId, queries[j].minzoom, queries[j].maxzoom, queries[j].sql)
  {
    if queries == [] then []
    else
      [PostgresQuery(layerId, queries[0].minzoom, queries[0].maxzoom, queries[0].sql)]
      + MapQueries(layerId, queries[1..])
  }

  /** The `flatMap` over the layers: each layer's entries, one layer after the
      other. */
  function FlatMap(layers: seq<Layer>): (r: seq<PostgresQuery>)
    ensures |r| == TotalQueries(layers)
  {
    if layers == [] then []
    else MapQueries(layers[0].id, layers[0].queries) + FlatMap(layers[1..])
  }

  /** `Mappers.map(tileset)`. */
  function Map(tileset: TileSet): (r: seq<PostgresQuery>)
    ensures |r| == TotalQueries(tileset.vectorLayers)
  {
    FlatMap(tileset.vectorLayers)
  }

  /** The total number of queries over a list of layers. */
  function TotalQueries(layers: seq<Layer>): nat
  {
    if layers == [] then 0 else |layers[0].queries| + TotalQueries(layers[1..])
  }

  /** Where the entries of layer `i` start in the flattened list: the number of
      queries of all the layers before it. */
  function Offset(layers: seq<Layer>, i: nat): nat
    requires i <= |layers|
  {
    TotalQueries(layers[..i])
  }

  // ----------------------------------------------------------------------
  // Properties

  /** The query count is additive over concatenation. */
  lemma {:induction false} TotalQueriesAppend(l1: seq<Layer>, l2: seq<Layer>)
    ensures TotalQueries(l1 + l2) == TotalQueries(l1) + TotalQueries(l2)
  {
    if l1 != [] {
      assert (l1 + l2)[0] == l1[0];
      assert (l1 + l2)[1..] == l1[1..] + l2;
      TotalQueriesAppend(l1[1..], l2);
    } else {
      assert l1 + l2 == l2;
    }
  }

  /** Flattening distributes over concatenation of layer lists. */
  lemma {:induction false} FlatMapAppend(l1: seq<Layer>, l2: seq<Layer>)
    ensures FlatMap(l1 + l2) == FlatMap(l1) + FlatMap(l2)
  {
    if l1 == [] {
      assert l1 + l2 == l2;
    } else {
      assert (l1 + l2)[1..] == l1[1..] + l2;
      FlatMapAppend(l1[1..], l2);
    }
  }

  /** No layers, no entries; a layer without queries adds no entries wherever
      it stands. */
  lemma EmptyLayersContributeNothing(before: seq<Layer>, id: string, after: seq<Layer>)
    ensures FlatMap([]) == []
    ensures FlatMap(before + [Layer(id, [])] + after) == FlatMap(before + after)
  {
    FlatMapAppend(before + [Layer(id, [])], after);
    FlatMapAppend(before, [Layer(id, [])]);
    FlatMapAppend(before, after);
    assert FlatMap([Layer(id, [])]) == [] by {
      assert [Layer(id, [])][1..] == [];
    }
  }

  /** Layer `i + 1` starts exactly where layer `i` ends, so all entries of one
      layer come before those of the next. */
  lemma OffsetStep(layers: seq<Layer>, i: nat)
    requires i < |layers|
    ensures Offset(layers, i + 1) == Offset(layers, i) + |layers[i].queries|
    ensures Offset(layers, i + 1) <= TotalQueries(layers)
    ensures i + 1 == |layers| ==> Offset(layers, i + 1) == TotalQueries(layers)
  {
    assert layers[..i + 1] == layers[..i] + [layers[i]];
    TotalQueriesAppend(layers[..i], [layers[i]]);
    assert TotalQueries([layers[i]]) == |layers[i].queries| by {
      assert [layers[i]][1..] == [];
    }
    assert layers == layers[..i + 1] + layers[i + 1..];
    TotalQueriesAppend(layers[..i + 1], layers[i + 1..]);
  }

  /** Offsets never decrease as the layer index grows; a layer without
      queries starts where the next one does. */
  lemma {:induction false} OffsetMonotone(layers: seq<Layer>, i: nat, k: nat)
    requires i <= k <= |layers|
    ensures Offset(layers, i) <= Offset(layers, k)
    decreases k - i
  {
    if i < k {
      OffsetStep(layers, i);
      OffsetMonotone(layers, i + 1, k);
    }
  }

  /** Entry `j` of layer `i` sits at `Offset(layers, i) + j` and is that query
      with the layer's id and its zoom range and SQL copied unchanged: the
      order is layer-major and query-minor. */
  lemma FlatMapAt(layers: seq<Layer>, i: nat, j: nat)
    requires i < |layers| && j < |layers[i].queries|
    ensures Offset(layers, i) + j < |FlatMap(layers)|
    ensures FlatMap(layers)[Offset(layers, i) + j]
         == PostgresQuery(layers[i].id, layers[i].queries[j].minzoom,
                          layers[i].queries[j].maxzoom, layers[i].queries[j].sql)
  {
    var pre, rest := layers[..i], layers[i..];
    assert layers == pre + rest;
    FlatMapAppend(pre, rest);
    assert rest[0] == layers[i];
    var r := FlatMap(layers);
    assert r == FlatMap(pre) + (MapQueries(layers[i].id, layers[i].queries) + FlatMap(rest[1..]));
  }

  /** Query `j` of layer `i` comes before query `j'` of layer `i'` whenever
      `i < i'`, or `i == i'` and `j < j'`. */
  lemma FlatMapOrder(layers: seq<Layer>, i: nat, j: nat, i': nat, j': nat)
    requires i < |layers| && j < |layers[i].queries|
    requires i' < |layers| && j' < |layers[i'].queries|
    requires i < i' || (i == i' && j < j')
    ensures Offset(layers, i) + j < Offset(layers, i') + j'
  {
    if i < i' {
      OffsetStep(layers, i);
      OffsetMonotone(layers, i + 1, i');
    }
  }

  /** Every entry of the result comes from some query of some layer: it is
      that query, bound to that layer's id. */
  lemma FlatMapOrigin(layers: seq<Layer>, k: nat) returns (i: nat, j: nat)
    requires k < |FlatMap(layers)|
    ensures i < |layers| && j < |layers[i].queries|
    ensures k == Offset(layers, i) + j
    ensures FlatMap(layers)[k]
         == PostgresQuery(layers[i].id, layers[i].queries[j].minzoom,
                          layers[i].queries[j].maxzoom, layers[i].queries[j].sql)
  {
    i := 0;
    assert Offset(layers, 0) == 0 by { assert layers[..0] == []; }
    while Offset(layers, i) + |layers[i].queries| <= k
      invariant i < |layers| && Offset(layers, i) <= k
      decreases |layers| - i
    {
      OffsetStep(layers, i);
      i := i + 1;
    }
    j := k - Offset(layers, i);
    FlatMapAt(layers, i, j);
  }

  /** `Mappers.map` on a tile set: every entry is a query of some vector
      layer bound to that layer's id. */
  lemma MapSpec(tileset: TileSet)
    ensures forall k :: 0 <= k < |Map(tileset)| ==>
      exists i, j :: (0 <= i < |tileset.vectorLayers| && 0 <= j < |tileset.vectorLayers[i].queries| &&
        Map(tileset)[k] == PostgresQuery(tileset.vectorLayers[i].id, tileset.vectorLayers[i].queries[j].minzoom,
                                         tileset.vectorLayers[i].queries[j].maxzoom, tileset.vectorLayers[i].queries[j].sql))
  {
    assert Map(tileset) == FlatMap(tileset.vectorLayers);
    forall k | 0 <= k < |Map(tileset)|
      ensures exists i, j :: (0 <= i < |tileset.vectorLayers| && 0 <= j < |tileset.vectorLayers[i].queries| &&
        Map(tileset)[k] == PostgresQuery(tileset.vectorLayers[i].id, tileset.vectorLayers[i].queries[j].minzoom,
                                         tileset.vectorLayers[i].queries[j].maxzoom, tileset.vectorLayers[i].queries[j].sql))
    {
      var i, j := FlatMapOrigin(tileset.vectorLayers, k);
      var q := tileset.vectorLayers[i].queries[j];
      assert Map(tileset)[k] == PostgresQuery(tileset.vectorLayers[i].id, q.minzoom, q.maxzoom, q.sql);
    }
  }
}
