/** src/rag/vectordb/memory.py: the in-process dense store. The similarity is an arbitrary real function. */
module VectorStore {
  import opened Schemas
  import opened Collections
  import opened Acl
  import opened Ranking

  type Vector = seq<real>
  type Similarity = (Vector, Vector) -> real

  datatype Item = Item(chunk: Chunk, vector: Vector)

  type Items = Dict<string, Item>

  predicate Visible(item: Item, principal: Principal, version: Option<string>) {
    VersionMatches(version, item.chunk.indexVersion) && IsAllowed(principal, item.chunk.acl)
  }

  /** The visible items of a list, scored against a query vector. */
  function DenseHits(cosine: Similarity, items: seq<Item>, query: Vector, principal: Principal, version: Option<string>)
    : seq<Scored<Chunk>>
  {
    if items == [] then []
    else
      (if Visible(items[0], principal, version) then [Scored(cosine(query, items[0].vector), items[0].chunk)] else [])
      + DenseHits(cosine, items[1..], query, principal, version)
  }

  lemma {:induction false} DenseHitsConcat(cosine: Similarity, a: seq<Item>, b: seq<Item>, query: Vector,
                                           principal: Principal, version: Option<string>)
    ensures DenseHits(cosine, a + b, query, principal, version) ==
              DenseHits(cosine, a, query, principal, version) + DenseHits(cosine, b, query, principal, version)
  {
    if a == [] {
      assert a + b == b;
    } else {
      assert (a + b)[1..] == a[1..] + b;
      DenseHitsConcat(cosine, a[1..], b, query, principal, version);
    }
  }

  /** Every hit is a visible item of the list, and every visible item is hit. */
  lemma {:induction false} DenseHitsVisible(cosine: Similarity, items: seq<Item>, query: Vector, principal: Principal,
                                            version: Option<string>, hit: Scored<Chunk>)
    ensures hit in DenseHits(cosine, items, query, principal, version) <==>
              exists item :: item in items && Visible(item, principal, version)
                             && hit == Scored(cosine(query, item.vector), item.chunk)
  {
    if items != [] {
      DenseHitsVisible(cosine, items[1..], query, principal, version, hit);
      assert forall item :: item in items <==> item == items[0] || item in items[1..];
    }
  }

  /** The stored items in order, from the `i`-th key on. */
  function ListFrom(items: Items, i: nat): seq<Item>
    requires i <= |items.keys|
    decreases |items.keys| - i
  {
    if i == |items.keys| then []
    else
      KeyAt(items, i);
      [items.at[items.keys[i]]] + ListFrom(items, i + 1)
  }

  function PutAll(items: Items, chunks: seq<Chunk>, vectors: seq<Vector>): Items
    requires |chunks| == |vectors|
    decreases |chunks|
  {
    if chunks == [] then items
    else PutAll(Put(items, chunks[0].chunkId, Item(chunks[0], vectors[0])), chunks[1..], vectors[1..])
  }

  /** Every item is stored under the id of its chunk. */
  ghost predicate Keyed(items: Items) {
    forall id :: id in items.at ==> items.at[id].chunk.chunkId == id
  }

  lemma {:induction false} PutAllKeyed(items: Items, chunks: seq<Chunk>, vectors: seq<Vector>)
    requires |chunks| == |vectors| && Keyed(items)
    ensures Keyed(PutAll(items, chunks, vectors))
    decreases |chunks|
  {
    if chunks != [] {
      PutAllKeyed(Put(items, chunks[0].chunkId, Item(chunks[0], vectors[0])), chunks[1..], vectors[1..]);
    }
  }

  lemma {:induction false} DropAllKeyed(items: Items, ids: seq<string>)
    requires Keyed(items)
    ensures Keyed(DropAll(items, ids))
    decreases |ids|
  {
    if ids != [] {
      DropAllKeyed(Drop(items, ids[0]), ids[1..]);
    }
  }

  function DropAll(items: Items, ids: seq<string>): Items
    decreases |ids|
  {
    if ids == [] then items else DropAll(Drop(items, ids[0]), ids[1..])
  }

  class MemoryVectorStore {
    const cosine: Similarity
    var items: Items
    var aliases: map<string, string>

    constructor (cosine: Similarity)
      ensures this.cosine == cosine && items == Empty() && aliases == map[]
      ensures Keyed(items)
    {
      this.cosine := cosine;
      items, aliases := Empty(), map[];
    }

    /** src/rag/vectordb/memory.py:16-21 */
    method Upsert(chunks: seq<Chunk>, vectors: seq<Vector>) returns (r: Result<(), string>)
      modifies `items
      ensures r.Ok? <==> |chunks| == |vectors|
      ensures items == if |chunks| == |vectors| then PutAll(old(items), chunks, vectors) else old(items)
      ensures old(Keyed(items)) ==> Keyed(items)
    {
      if |chunks| != |vectors| {
        return Err("chunks and vectors length mismatch");
      }
      if Keyed(items) {
        PutAllKeyed(items, chunks, vectors);
      }
      for i := 0 to |chunks|
        invariant PutAll(items, chunks[i..], vectors[i..]) == PutAll(old(items), chunks, vectors)
      {
        assert chunks[i..][1..] == chunks[i + 1..] && vectors[i..][1..] == vectors[i + 1..];
        items := Put(items, chunks[i].chunkId, Item(chunks[i], vectors[i]));
      }
      r := Ok(());
    }

    /** src/rag/vectordb/memory.py:23-43 */
    method Search(vector: Vector, topK: int, principal: Principal, indexVersion: Option<string>)
      returns (results: seq<ScoredChunk>)
      ensures results == Ranked(DenseHits(cosine, ListFrom(items, 0), vector, principal, indexVersion), topK, Dense)
    {
      var scored: seq<Scored<Chunk>> := [];
      ghost var all := DenseHits(cosine, ListFrom(items, 0), vector, principal, indexVersion);
      for i := 0 to |items.keys|
        invariant scored + DenseHits(cosine, ListFrom(items, i), vector, principal, indexVersion) == all
      {
        KeyAt(items, i);
        var item := items.at[items.keys[i]];
        ghost var rest := ListFrom(items, i + 1);
        assert ListFrom(items, i) == [item] + rest && ([item] + rest)[1..] == rest;
        var found := if Visible(item, principal, indexVersion) then [Scored(cosine(vector, item.vector), item.chunk)]
                     else [];
        AppendAssoc(scored, found, DenseHits(cosine, rest, vector, principal, indexVersion));
        scored := scored + found;
      }
      assert ListFrom(items, |items.keys|) == [] && scored + [] == scored;
      results := Ranked(scored, topK, Dense);
    }

    /** src/rag/vectordb/memory.py:45-47 */
    method Delete(ids: seq<string>)
      modifies `items
      ensures items == DropAll(old(items), ids)
      ensures old(Keyed(items)) ==> Keyed(items)
    {
      if Keyed(items) {
        DropAllKeyed(items, ids);
      }
      for i := 0 to |ids|
        invariant DropAll(items, ids[i..]) == DropAll(old(items), ids)
      {
        assert ids[i..][1..] == ids[i + 1..];
        items := Drop(items, ids[i]);
      }
    }

    /** src/rag/vectordb/memory.py:49-50 */
    function ResolveAlias(alias: string): Option<string>
      reads this
    {
      if alias in aliases then Some(aliases[alias]) else None
    }

    /** src/rag/vectordb/memory.py:52-53 */
    method SetAlias(alias: string, version: string)
      modifies `aliases
      ensures aliases == old(aliases)[alias := version]
    {
      aliases := aliases[alias := version];
    }
  }
}
