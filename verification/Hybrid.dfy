/** src/rag/retrieval/hybrid.py:99-173: every dense and lexical leg, fused, rechecked and cut. */
module Hybrid {
  import opened Schemas
  import opened Collections
  import opened Acl
  import opened Ranking
  import opened Fusion
  import VS = VectorStore
  import BM = Bm25

  // ---- The legs ----

  ghost function DenseLeg(cosine: VS.Similarity, items: VS.Items, vector: VS.Vector, topK: int, principal: Principal,
                          version: Option<string>): seq<ScoredChunk>
  {
    Ranked(VS.DenseHits(cosine, VS.ListFrom(items, 0), vector, principal, version), topK, Dense)
  }

  ghost function LexicalLeg(p: BM.Params, chunks: BM.Chunks, query: string, topK: int, principal: Principal,
                            version: Option<string>): seq<ScoredChunk>
    requires p.Sane()
  {
    Ranked(BM.AllHits(p, chunks, p.tokenize(query), principal, version), topK, Lexical)
  }

  /** What every leg of a search must be: proper ranks, and only chunks the caller may see in the wanted version. */
  ghost predicate CleanLeg(ranked: seq<ScoredChunk>, principal: Principal, version: Option<string>) {
    forall i :: 0 <= i < |ranked| ==> ranked[i].rank >= 1 && CleanChunk(ranked[i].chunk, principal, version)
  }

  ghost predicate CleanChunk(c: Chunk, principal: Principal, version: Option<string>) {
    IsAllowed(principal, c.acl) && VersionMatches(version, c.indexVersion)
  }

  /** The chunk is stored in one of the two indexes. */
  ghost predicate Stored(c: Chunk, items: VS.Items, chunks: BM.Chunks) {
    (exists id :: id in items.at && items.at[id].chunk == c) || (exists id :: id in chunks.at && chunks.at[id] == c)
  }

  lemma {:induction false} ListFromStored(items: VS.Items, i: nat, item: VS.Item)
    requires i <= |items.keys| && item in VS.ListFrom(items, i)
    ensures exists id :: id in items.at && items.at[id] == item
    decreases |items.keys| - i
  {
    if i < |items.keys| {
      KeyAt(items, i);
      if item != items.at[items.keys[i]] {
        ListFromStored(items, i + 1, item);
      }
    }
  }

  lemma DenseLegClean(cosine: VS.Similarity, items: VS.Items, vector: VS.Vector, topK: int, principal: Principal,
                      version: Option<string>)
    ensures var leg := DenseLeg(cosine, items, vector, topK, principal, version);
            && CleanLeg(leg, principal, version)
            && forall i :: 0 <= i < |leg| ==> exists id :: id in items.at && items.at[id].chunk == leg[i].chunk
  {
    var list := VS.ListFrom(items, 0);
    var hits := VS.DenseHits(cosine, list, vector, principal, version);
    RankedOrder(hits, topK, Dense);
    var leg := DenseLeg(cosine, items, vector, topK, principal, version);
    forall i | 0 <= i < |leg|
      ensures CleanChunk(leg[i].chunk, principal, version)
      ensures exists id :: id in items.at && items.at[id].chunk == leg[i].chunk
    {
      var hit := Scored(leg[i].score, leg[i].chunk);
      VS.DenseHitsVisible(cosine, list, vector, principal, version, hit);
      var item :| && item in list && VS.Visible(item, principal, version)
                  && hit == Scored(cosine(vector, item.vector), item.chunk);
      ListFromStored(items, 0, item);
    }
  }

  lemma LexicalLegClean(p: BM.Params, chunks: BM.Chunks, query: string, topK: int, principal: Principal,
                        version: Option<string>)
    requires p.Sane()
    ensures var leg := LexicalLeg(p, chunks, query, topK, principal, version);
            && CleanLeg(leg, principal, version)
            && forall i :: 0 <= i < |leg| ==> exists id :: id in chunks.at && chunks.at[id] == leg[i].chunk
  {
    var q := p.tokenize(query);
    var hits := BM.AllHits(p, chunks, q, principal, version);
    KeysDistinct(chunks);
    RankedOrder(hits, topK, Lexical);
    var leg := LexicalLeg(p, chunks, query, topK, principal, version);
    forall i | 0 <= i < |leg|
      ensures CleanChunk(leg[i].chunk, principal, version)
      ensures exists id :: id in chunks.at && chunks.at[id] == leg[i].chunk
    {
      var hit := Scored(leg[i].score, leg[i].chunk);
      BM.HitsAreEligible(p, chunks, chunks.keys, q, principal, version, hit);
    }
  }

  // ---- Legs are proper lists ----

  lemma {:induction false} DenseHitsDistinct(cosine: VS.Similarity, items: VS.Items, i: nat, vector: VS.Vector,
                                             principal: Principal, version: Option<string>)
    requires VS.Keyed(items) && i <= |items.keys|
    ensures var hits := VS.DenseHits(cosine, VS.ListFrom(items, i), vector, principal, version);
            DistinctIds(hits) && forall h :: 0 <= h < |hits| ==> hits[h].item.chunkId in items.keys[i..]
    decreases |items.keys| - i
  {
    if i < |items.keys| {
      KeyAt(items, i);
      var id := items.keys[i];
      DenseHitsDistinct(cosine, items, i + 1, vector, principal, version);
      var rest := VS.ListFrom(items, i + 1);
      assert ([items.at[id]] + rest)[1..] == rest;
      assert items.keys[i..] == [id] + items.keys[i + 1..];
      KeyNotLater(items, i);
    }
  }

  lemma LegsProper(cosine: VS.Similarity, items: VS.Items, vector: VS.Vector, p: BM.Params, chunks: BM.Chunks,
                   query: string,
                   topK: nat, principal: Principal, version: Option<string>)
    requires p.Sane() && VS.Keyed(items) && BM.KeyedById(chunks)
    ensures ProperList(DenseLeg(cosine, items, vector, topK, principal, version), topK)
    ensures ProperList(LexicalLeg(p, chunks, query, topK, principal, version), topK)
  {
    DenseHitsDistinct(cosine, items, 0, vector, principal, version);
    RankedDistinct(VS.DenseHits(cosine, VS.ListFrom(items, 0), vector, principal, version), topK, Dense);
    RankedOrder(VS.DenseHits(cosine, VS.ListFrom(items, 0), vector, principal, version), topK, Dense);
    var q := p.tokenize(query);
    BM.HitsDistinct(p, chunks, 0, q, principal, version);
    RankedDistinct(BM.AllHits(p, chunks, q, principal, version), topK, Lexical);
    RankedOrder(BM.AllHits(p, chunks, q, principal, version), topK, Lexical);
  }

  /**
   * A single query with equal positive weights and topK <= k + 1, as the defaults have it: in the result, every
   * chunk that both searches returned stands strictly before every chunk that only one returned.
   */
  lemma BothLegsFirst(cosine: VS.Similarity, items: VS.Items, vector: VS.Vector, p: BM.Params, chunks: BM.Chunks,
                      query: string,
                      topK: nat, principal: Principal, version: Option<string>, k: nat, w: real,
                      results: seq<ScoredChunk>, i: nat, j: nat)
    requires p.Sane() && VS.Keyed(items) && BM.KeyedById(chunks) && topK <= k + 1 && w > 0.0
    requires i < |results| && j < |results|
    requires var a := DenseLeg(cosine, items, vector, topK, principal, version);
             var b := LexicalLeg(p, chunks, query, topK, principal, version);
             && Divisible(k, AllVotes([w, w], [a, b])) && IsRetrieval(results, k, [w, w], [a, b], topK)
             && Lists(a, results[i].chunk.chunkId) && Lists(b, results[i].chunk.chunkId)
             && !(Lists(a, results[j].chunk.chunkId) && Lists(b, results[j].chunk.chunkId))
    ensures i < j && results[i].score > results[j].score
  {
    var a := DenseLeg(cosine, items, vector, topK, principal, version);
    var b := LexicalLeg(p, chunks, query, topK, principal, version);
    LegsProper(cosine, items, vector, p, chunks, query, topK, principal, version);
    var fused :| IsFusion(k, AllVotes([w, w], [a, b]), fused) && results == PyTake(fused, topK);
    FusedLabels(k, AllVotes([w, w], [a, b]), fused);
    BothRankFirst(k, w, a, b, fused, i, j);
  }

  // ---- The whole retrieval ----

  function EmbedAll(embed: string -> VS.Vector, texts: seq<string>): (vectors: seq<VS.Vector>)
    ensures |vectors| == |texts|
  {
    seq(|texts|, i requires 0 <= i < |texts| => embed(texts[i]))
  }

  ghost function DenseLegs(cosine: VS.Similarity, items: VS.Items, vectors: seq<VS.Vector>, topK: int,
                           principal: Principal,
                           version: Option<string>): seq<seq<ScoredChunk>>
  {
    seq(|vectors|, i requires 0 <= i < |vectors| => DenseLeg(cosine, items, vectors[i], topK, principal, version))
  }

  ghost function LexicalLegs(p: BM.Params, chunks: BM.Chunks, queries: seq<string>, topK: int, principal: Principal,
                             version: Option<string>): seq<seq<ScoredChunk>>
    requires p.Sane()
  {
    seq(|queries|, i requires 0 <= i < |queries| => LexicalLeg(p, chunks, queries[i], topK, principal, version))
  }

  lemma DenseLegsSnoc(cosine: VS.Similarity, items: VS.Items, embed: string -> VS.Vector, texts: seq<string>, i: nat,
                      topK: int,
                      principal: Principal, version: Option<string>)
    requires i < |texts|
    ensures DenseLegs(cosine, items, EmbedAll(embed, texts[..i + 1]), topK, principal, version) ==
              DenseLegs(cosine, items, EmbedAll(embed, texts[..i]), topK, principal, version)
              + [DenseLeg(cosine, items, embed(texts[i]), topK, principal, version)]
  {
  }

  lemma LexicalLegsSnoc(p: BM.Params, chunks: BM.Chunks, queries: seq<string>, i: nat, topK: int, principal: Principal,
                        version: Option<string>)
    requires p.Sane() && i < |queries|
    ensures LexicalLegs(p, chunks, queries[..i + 1], topK, principal, version) ==
              LexicalLegs(p, chunks, queries[..i], topK, principal, version)
              + [LexicalLeg(p, chunks, queries[i], topK, principal, version)]
  {
    var before := LexicalLegs(p, chunks, queries[..i], topK, principal, version);
    var after := LexicalLegs(p, chunks, queries[..i + 1], topK, principal, version);
    forall j | 0 <= j <= i
      ensures after[j] == (before + [LexicalLeg(p, chunks, queries[i], topK, principal, version)])[j]
    {
      LexicalLegAt(p, chunks, queries[..i + 1], topK, principal, version, after, j);
      if j < i {
        LexicalLegAt(p, chunks, queries[..i], topK, principal, version, before, j);
      }
    }
  }

  ghost predicate CleanLegs(legs: seq<seq<ScoredChunk>>, principal: Principal, version: Option<string>) {
    forall i :: 0 <= i < |legs| ==> CleanLeg(legs[i], principal, version)
  }

  ghost predicate StoredLegs(legs: seq<seq<ScoredChunk>>, items: VS.Items, chunks: BM.Chunks) {
    forall i, j :: 0 <= i < |legs| && 0 <= j < |legs[i]| ==> Stored(legs[i][j].chunk, items, chunks)
  }

  lemma DenseGood(cosine: VS.Similarity, items: VS.Items, vectors: seq<VS.Vector>, chunks: BM.Chunks, topK: int,
                  principal: Principal, version: Option<string>)
    ensures AllGood(DenseLegs(cosine, items, vectors, topK, principal, version), principal, version, items, chunks)
  {
    forall i | 0 <= i < |vectors|
      ensures GoodLeg(DenseLeg(cosine, items, vectors[i], topK, principal, version), principal, version, items, chunks)
    {
      DenseLegClean(cosine, items, vectors[i], topK, principal, version);
    }
  }

  lemma LexicalGood(p: BM.Params, items: VS.Items, queries: seq<string>, chunks: BM.Chunks, topK: int,
                    principal: Principal, version: Option<string>)
    requires p.Sane()
    ensures AllGood(LexicalLegs(p, chunks, queries, topK, principal, version), principal, version, items, chunks)
  {
    forall i | 0 <= i < |queries|
      ensures GoodLeg(LexicalLeg(p, chunks, queries[i], topK, principal, version), principal, version, items, chunks)
    {
      LexicalLegClean(p, chunks, queries[i], topK, principal, version);
    }
  }

  lemma LegsClean(cosine: VS.Similarity, items: VS.Items, vectors: seq<VS.Vector>, p: BM.Params, chunks: BM.Chunks,
                  queries: seq<string>, topK: int, principal: Principal, version: Option<string>)
    requires p.Sane()
    ensures var legs := DenseLegs(cosine, items, vectors, topK, principal, version)
                        + LexicalLegs(p, chunks, queries, topK, principal, version);
            CleanLegs(legs, principal, version) && StoredLegs(legs, items, chunks)
  {
    var dense := DenseLegs(cosine, items, vectors, topK, principal, version);
    var lexical := LexicalLegs(p, chunks, queries, topK, principal, version);
    DenseGood(cosine, items, vectors, chunks, topK, principal, version);
    LexicalGood(p, items, queries, chunks, topK, principal, version);
    GoodTogether(dense, lexical, principal, version, items, chunks);
    GoodLegs(dense + lexical, principal, version, items, chunks);
  }

  ghost predicate AllGood(legs: seq<seq<ScoredChunk>>, principal: Principal, version: Option<string>, items: VS.Items,
                          chunks: BM.Chunks)
  {
    forall i :: 0 <= i < |legs| ==> GoodLeg(legs[i], principal, version, items, chunks)
  }

  lemma GoodTogether(a: seq<seq<ScoredChunk>>, b: seq<seq<ScoredChunk>>, principal: Principal, version: Option<string>,
                     items: VS.Items, chunks: BM.Chunks)
    requires AllGood(a, principal, version, items, chunks) && AllGood(b, principal, version, items, chunks)
    ensures AllGood(a + b, principal, version, items, chunks)
  {
  }

  ghost predicate GoodLeg(leg: seq<ScoredChunk>, principal: Principal, version: Option<string>, items: VS.Items,
                          chunks: BM.Chunks)
  {
    CleanLeg(leg, principal, version) && forall j :: 0 <= j < |leg| ==> Stored(leg[j].chunk, items, chunks)
  }

  lemma GoodLegs(legs: seq<seq<ScoredChunk>>, principal: Principal, version: Option<string>, items: VS.Items,
                 chunks: BM.Chunks)
    requires AllGood(legs, principal, version, items, chunks)
    ensures CleanLegs(legs, principal, version) && StoredLegs(legs, items, chunks)
  {
    forall i, j | 0 <= i < |legs| && 0 <= j < |legs[i]|
      ensures Stored(legs[i][j].chunk, items, chunks)
    {
      assert GoodLeg(legs[i], principal, version, items, chunks);
    }
    forall i | 0 <= i < |legs|
      ensures CleanLeg(legs[i], principal, version)
    {
      assert GoodLeg(legs[i], principal, version, items, chunks);
    }
  }

  lemma {:induction false} VotesFromLegs(weights: seq<real>, lists: seq<seq<ScoredChunk>>, v: nat)
    returns (i: nat, j: nat)
    requires |weights| == |lists| && v < |AllVotes(weights, lists)|
    ensures i < |lists| && j < |lists[i]| && AllVotes(weights, lists)[v].item == lists[i][j]
  {
    if v < |lists[0]| {
      i, j := 0, v;
    } else {
      i, j := VotesFromLegs(weights[1..], lists[1..], v - |lists[0]|);
      i := i + 1;
    }
  }

  /** Legs that are clean fuse into a ranking that is clean: the recheck after fusion drops nothing. */
  lemma FusedClean(k: int, weights: seq<real>, legs: seq<seq<ScoredChunk>>, fused: seq<ScoredChunk>,
                   principal: Principal, version: Option<string>, items: VS.Items, chunks: BM.Chunks)
    requires |weights| == |legs| && Divisible(k, AllVotes(weights, legs)) && IsFusion(k, AllVotes(weights, legs), fused)
    requires CleanLegs(legs, principal, version) && StoredLegs(legs, items, chunks)
    ensures forall i :: 0 <= i < |fused| ==>
              CleanChunk(fused[i].chunk, principal, version) && Stored(fused[i].chunk, items, chunks)
    ensures Authorised(fused, principal) == fused
  {
    var votes := AllVotes(weights, legs);
    FusionExact(k, votes, fused);
    forall i | 0 <= i < |fused|
      ensures CleanChunk(fused[i].chunk, principal, version) && Stored(fused[i].chunk, items, chunks)
    {
      var v :| 0 <= v < |votes| && votes[v].item.chunk == fused[i].chunk;
      var a, b := VotesFromLegs(weights, legs, v);
      assert CleanLeg(legs[a], principal, version);
    }
    NothingDropped(fused, principal);
  }

  /** `[s for s in fused if is_allowed(principal, s.chunk.acl)]` */
  function Authorised(fused: seq<ScoredChunk>, principal: Principal): seq<ScoredChunk> {
    if fused == [] then []
    else (if IsAllowed(principal, fused[0].chunk.acl) then [fused[0]] else []) + Authorised(fused[1..], principal)
  }

  lemma {:induction false} NothingDropped(fused: seq<ScoredChunk>, principal: Principal)
    requires forall i :: 0 <= i < |fused| ==> IsAllowed(principal, fused[i].chunk.acl)
    ensures Authorised(fused, principal) == fused
  {
    if fused != [] {
      NothingDropped(fused[1..], principal);
    }
  }

  /** Renumber from 1, as src/rag/retrieval/hybrid.py:166-169 does. */
  function Renumber(s: seq<ScoredChunk>): (r: seq<ScoredChunk>)
    ensures |r| == |s|
  {
    seq(|s|, i requires 0 <= i < |s| => ScoredChunk(s[i].chunk, s[i].score, i + 1, Fused))
  }

  /** The result is the cut of a fusion of all legs: clean, stored, and nothing lost to the recheck. */
  ghost predicate IsRetrieval(results: seq<ScoredChunk>, k: int, weights: seq<real>, legs: seq<seq<ScoredChunk>>,
                              topK: int)
    requires |weights| == |legs| && Divisible(k, AllVotes(weights, legs))
  {
    exists fused :: IsFusion(k, AllVotes(weights, legs), fused) && results == PyTake(fused, topK)
  }

  function LegWeights(dense: nat, lexical: nat, denseWeight: real, lexicalWeight: real): seq<real> {
    seq(dense, _ => denseWeight) + seq(lexical, _ => lexicalWeight)
  }

  /**
   * A single query, whatever the weights: a chunk that the dense search alone found and one that the word search
   * alone found, at the same rank, score by the weight of their own search, and the heavier one stands first.
   */
  lemma HeavierLegFirst(cosine: VS.Similarity, items: VS.Items, vector: VS.Vector, p: BM.Params, chunks: BM.Chunks,
                        query: string, topK: nat, principal: Principal, version: Option<string>, k: nat,
                        denseWeight: real, lexicalWeight: real, results: seq<ScoredChunk>, i: nat, j: nat, rank: int)
    requires p.Sane() && VS.Keyed(items) && BM.KeyedById(chunks) && i < |results| && j < |results| && rank >= 1
    requires var a := DenseLeg(cosine, items, vector, topK, principal, version);
             var b := LexicalLeg(p, chunks, query, topK, principal, version);
             var weights := LegWeights(1, 1, denseWeight, lexicalWeight);
             && Divisible(k, AllVotes(weights, [a, b])) && IsRetrieval(results, k, weights, [a, b], topK)
             && Holds(a, results[i].chunk.chunkId, rank) && !Lists(b, results[i].chunk.chunkId)
             && Holds(b, results[j].chunk.chunkId, rank) && !Lists(a, results[j].chunk.chunkId)
    ensures results[i].score == denseWeight * (1.0 / (k + rank) as real)
    ensures results[j].score == lexicalWeight * (1.0 / (k + rank) as real)
    ensures denseWeight > lexicalWeight ==> i < j
    ensures denseWeight < lexicalWeight ==> j < i
  {
    var a := DenseLeg(cosine, items, vector, topK, principal, version);
    var b := LexicalLeg(p, chunks, query, topK, principal, version);
    var weights := LegWeights(1, 1, denseWeight, lexicalWeight);
    assert weights == [denseWeight, lexicalWeight];
    LegsProper(cosine, items, vector, p, chunks, query, topK, principal, version);
    CutHeavierFirst(k, denseWeight, lexicalWeight, a, b, topK, results, i, j, rank);
  }

  lemma CutHeavierFirst(k: nat, v: real, w: real, a: seq<ScoredChunk>, b: seq<ScoredChunk>, topK: nat,
                        results: seq<ScoredChunk>, i: nat, j: nat, rank: int)
    requires ProperList(a, topK) && ProperList(b, topK) && i < |results| && j < |results| && rank >= 1
    requires Divisible(k, AllVotes([v, w], [a, b])) && IsRetrieval(results, k, [v, w], [a, b], topK)
    requires Holds(a, results[i].chunk.chunkId, rank) && !Lists(b, results[i].chunk.chunkId)
    requires Holds(b, results[j].chunk.chunkId, rank) && !Lists(a, results[j].chunk.chunkId)
    ensures results[i].score == Share(k, v, rank) && results[j].score == Share(k, w, rank)
    ensures (v > w ==> i < j) && (v < w ==> j < i)
  {
    var fused: seq<ScoredChunk> :| IsFusion(k, AllVotes([v, w], [a, b]), fused) && results == PyTake(fused, topK);
    HeavierRanksFirst(k, v, w, a, b, topK, fused, i, j, rank);
  }

  lemma RetrievalIsClean(results: seq<ScoredChunk>, k: int, weights: seq<real>, legs: seq<seq<ScoredChunk>>, topK: int,
                         principal: Principal, version: Option<string>, items: VS.Items, chunks: BM.Chunks)
    requires |weights| == |legs| && Divisible(k, AllVotes(weights, legs))
             && IsRetrieval(results, k, weights, legs, topK)
    requires CleanLegs(legs, principal, version) && StoredLegs(legs, items, chunks)
    ensures forall i :: 0 <= i < |results| ==>
              CleanChunk(results[i].chunk, principal, version) && Stored(results[i].chunk, items, chunks)
  {
    var fused :| IsFusion(k, AllVotes(weights, legs), fused) && results == PyTake(fused, topK);
    FusedClean(k, weights, legs, fused, principal, version, items, chunks);
  }

  lemma LegsDivisible(k: nat, weights: seq<real>, legs: seq<seq<ScoredChunk>>, principal: Principal,
                      version: Option<string>)
    requires |weights| == |legs| && CleanLegs(legs, principal, version)
    ensures forall i, j :: 0 <= i < |legs| && 0 <= j < |legs[i]| ==> k + legs[i][j].rank != 0
    ensures Divisible(k, AllVotes(weights, legs))
  {
    forall i, j | 0 <= i < |legs| && 0 <= j < |legs[i]|
      ensures k + legs[i][j].rank != 0
    {
      assert CleanLeg(legs[i], principal, version);
    }
    AllDivisible(k, weights, legs);
  }

  lemma ResultsInReach(results: seq<ScoredChunk>, principal: Principal, version: Option<string>)
    requires forall i :: 0 <= i < |results| ==> CleanChunk(results[i].chunk, principal, version)
    ensures forall i :: 0 <= i < |results| ==>
              InReach(principal, results[i].chunk.acl) && OfVersion(version, results[i].chunk.indexVersion)
  {
    forall i | 0 <= i < |results|
      ensures InReach(principal, results[i].chunk.acl) && OfVersion(version, results[i].chunk.indexVersion)
    {
      AllowedIsInReach(principal, results[i].chunk.acl);
      MatchesIsOfVersion(version, results[i].chunk.indexVersion);
    }
  }

  // ---- Nothing in reach is lost ----

  lemma {:induction false} ListHas(items: VS.Items, i: nat, id: string)
    requires i <= |items.keys| && id in items.keys[i..]
    ensures id in items.at && items.at[id] in VS.ListFrom(items, i)
    decreases |items.keys| - i
  {
    KeyAt(items, i);
    if id != items.keys[i] {
      assert items.keys[i..] == [items.keys[i]] + items.keys[i + 1..];
      ListHas(items, i + 1, id);
    }
  }

  lemma {:induction false} ListSize(items: VS.Items, i: nat)
    requires i <= |items.keys|
    ensures |VS.ListFrom(items, i)| == |items.keys| - i
    decreases |items.keys| - i
  {
    if i < |items.keys| {
      ListSize(items, i + 1);
    }
  }

  lemma {:induction false} FewHits(cosine: VS.Similarity, list: seq<VS.Item>, vector: VS.Vector, principal: Principal,
                                   version: Option<string>)
    ensures |VS.DenseHits(cosine, list, vector, principal, version)| <= |list|
  {
    if list != [] {
      FewHits(cosine, list[1..], vector, principal, version);
    }
  }

  /** Asked for enough results, a dense search finds every item in reach. */
  lemma DenseLegHas(cosine: VS.Similarity, items: VS.Items, vector: VS.Vector, topK: int, principal: Principal,
                    version: Option<string>, id: string)
    requires topK >= |items.at| && id in items.at && VS.Visible(items.at[id], principal, version)
    ensures var leg := DenseLeg(cosine, items, vector, topK, principal, version);
            exists j :: 0 <= j < |leg| && leg[j].chunk == items.at[id].chunk
  {
    var list, item := VS.ListFrom(items, 0), items.at[id];
    var hits := VS.DenseHits(cosine, list, vector, principal, version);
    KeyListed(items, id);
    KeysDistinct(items);
    ListHas(items, 0, id);
    ListSize(items, 0);
    FewHits(cosine, list, vector, principal, version);
    var hit := Scored(cosine(vector, item.vector), item.chunk);
    VS.DenseHitsVisible(cosine, list, vector, principal, version, hit);
    AllRanked(hits, topK, Dense, hit);
    var leg := Ranked(hits, topK, Dense);
    var j :| 0 <= j < |leg| && leg[j].chunk == hit.item && leg[j].score == hit.score;
    assert leg == DenseLeg(cosine, items, vector, topK, principal, version);
    assert leg[j].chunk == items.at[id].chunk;
  }

  /** The `j`-th entry of the `i`-th list has a vote. */
  lemma {:induction false} VoteOf(weights: seq<real>, lists: seq<seq<ScoredChunk>>, i: nat, j: nat) returns (v: nat)
    requires |weights| == |lists| && i < |lists| && j < |lists[i]|
    ensures v < |AllVotes(weights, lists)| && AllVotes(weights, lists)[v] == Vote(weights[i], lists[i][j])
  {
    if i == 0 {
      v := j;
    } else {
      v := VoteOf(weights[1..], lists[1..], i - 1, j);
      v := v + |lists[0]|;
    }
  }

  function ResultIds(results: seq<ScoredChunk>): (ids: seq<string>)
    ensures |ids| == |results|
  {
    seq(|results|, i requires 0 <= i < |results| => results[i].chunk.chunkId)
  }

  /** Results with distinct ids out of a set are no more than the set has. */
  lemma FewResults(results: seq<ScoredChunk>, ids: set<string>)
    requires forall i, j :: 0 <= i < j < |results| ==> results[i].chunk.chunkId != results[j].chunk.chunkId
    requires forall i :: 0 <= i < |results| ==> results[i].chunk.chunkId in ids
    ensures |results| <= |ids|
  {
    ToSetSize(ResultIds(results));
    BM.SubsetSize(ToSet(ResultIds(results)), ids);
  }

  lemma UnionSize(a: set<string>, b: set<string>)
    ensures |a + b| <= |a| + |b|
  {
    assert a + b == a + (b - a);
    BM.SubsetSize(b - a, b);
  }

  lemma StoredIds(items: VS.Items, chunks: BM.Chunks, c: Chunk)
    requires VS.Keyed(items) && BM.KeyedById(chunks) && Stored(c, items, chunks)
    ensures c.chunkId in items.at.Keys + chunks.at.Keys
  {
  }

  /** Asked for as many results as there are chunks, a retrieval returns every chunk that a leg found. */
  lemma LegEntryReturned(k: int, weights: seq<real>, legs: seq<seq<ScoredChunk>>, results: seq<ScoredChunk>, topK: int,
                         principal: Principal, version: Option<string>, items: VS.Items, chunks: BM.Chunks, i: nat,
                         j: nat)
    requires |weights| == |legs| && Divisible(k, AllVotes(weights, legs))
    requires IsRetrieval(results, k, weights, legs, topK)
    requires CleanLegs(legs, principal, version) && StoredLegs(legs, items, chunks)
    requires VS.Keyed(items) && BM.KeyedById(chunks) && topK >= |items.at| + |chunks.at|
    requires i < |legs| && j < |legs[i]|
    ensures Present(results, legs[i][j].chunk.chunkId)
  {
    var fused: seq<ScoredChunk> :| IsFusion(k, AllVotes(weights, legs), fused) && results == PyTake(fused, topK);
    FusedClean(k, weights, legs, fused, principal, version, items, chunks);
    FusionExact(k, AllVotes(weights, legs), fused);
    var v := VoteOf(weights, legs, i, j);
    assert Present(fused, Id(AllVotes(weights, legs)[v]));
    forall n | 0 <= n < |fused| ensures fused[n].chunk.chunkId in items.at.Keys + chunks.at.Keys {
      StoredIds(items, chunks, fused[n].chunk);
    }
    FewResults(fused, items.at.Keys + chunks.at.Keys);
    UnionSize(items.at.Keys, chunks.at.Keys);
  }

  /** The item is in reach and of the version. */
  ghost predicate ShouldFind(item: VS.Item, principal: Principal, version: Option<string>) {
    InReach(principal, item.chunk.acl) && OfVersion(version, item.chunk.indexVersion)
  }

  lemma ShouldIsVisible(item: VS.Item, principal: Principal, version: Option<string>)
    ensures ShouldFind(item, principal, version) <==> VS.Visible(item, principal, version)
  {
    AllowedIsInReach(principal, item.chunk.acl);
    MatchesIsOfVersion(version, item.chunk.indexVersion);
  }

  /** Every item in reach is there. */
  ghost predicate FindsItems(results: seq<ScoredChunk>, items: VS.Items, principal: Principal,
                             version: Option<string>)
  {
    forall id :: id in items.at && ShouldFind(items.at[id], principal, version) ==> Present(results, id)
  }

  /** Every chunk that a word search for the query should find is there. */
  ghost predicate FindsChunks(results: seq<ScoredChunk>, p: BM.Params, chunks: BM.Chunks, query: string,
                              principal: Principal, version: Option<string>)
  {
    forall id :: id in chunks.at && BM.ShouldFind(p, chunks, id, p.tokenize(query), principal, version) ==>
      Present(results, id)
  }

  ghost predicate FindsAll(results: seq<ScoredChunk>, items: VS.Items, p: BM.Params, chunks: BM.Chunks,
                           queries: seq<string>, principal: Principal, version: Option<string>)
  {
    && FindsItems(results, items, principal, version)
    && forall q :: 0 <= q < |queries| ==> FindsChunks(results, p, chunks, queries[q], principal, version)
  }

  /** What the first leg, a dense search, found is returned. */
  lemma ItemsFound(cosine: VS.Similarity, items: VS.Items, vector: VS.Vector, chunks: BM.Chunks, topK: int,
                   principal: Principal, version: Option<string>, k: int, weights: seq<real>,
                   legs: seq<seq<ScoredChunk>>, results: seq<ScoredChunk>)
    requires |weights| == |legs| && Divisible(k, AllVotes(weights, legs))
    requires IsRetrieval(results, k, weights, legs, topK)
    requires CleanLegs(legs, principal, version) && StoredLegs(legs, items, chunks)
    requires VS.Keyed(items) && BM.KeyedById(chunks) && topK >= |items.at| + |chunks.at|
    requires legs != [] && legs[0] == DenseLeg(cosine, items, vector, topK, principal, version)
    ensures FindsItems(results, items, principal, version)
  {
    forall id | id in items.at && ShouldFind(items.at[id], principal, version)
      ensures Present(results, id)
    {
      ShouldIsVisible(items.at[id], principal, version);
      DenseLegHas(cosine, items, vector, topK, principal, version, id);
      var j :| 0 <= j < |legs[0]| && legs[0][j].chunk == items.at[id].chunk;
      LegEntryReturned(k, weights, legs, results, topK, principal, version, items, chunks, 0, j);
    }
  }

  /** What the `i`-th leg, a word search, found is returned. */
  lemma ChunksFound(p: BM.Params, chunks: BM.Chunks, query: string, items: VS.Items, topK: int, principal: Principal,
                    version: Option<string>, k: int, weights: seq<real>, legs: seq<seq<ScoredChunk>>,
                    results: seq<ScoredChunk>, i: nat)
    requires p.Sane() && |weights| == |legs| && Divisible(k, AllVotes(weights, legs))
    requires IsRetrieval(results, k, weights, legs, topK)
    requires CleanLegs(legs, principal, version) && StoredLegs(legs, items, chunks)
    requires VS.Keyed(items) && BM.KeyedById(chunks) && topK >= |items.at| + |chunks.at|
    requires i < |legs| && legs[i] == LexicalLeg(p, chunks, query, topK, principal, version)
    ensures FindsChunks(results, p, chunks, query, principal, version)
  {
    BM.AllFound(p, chunks, p.tokenize(query), topK, principal, version);
    forall id | id in chunks.at && BM.ShouldFind(p, chunks, id, p.tokenize(query), principal, version)
      ensures Present(results, id)
    {
      var j :| 0 <= j < |legs[i]| && legs[i][j].chunk == chunks.at[id];
      LegEntryReturned(k, weights, legs, results, topK, principal, version, items, chunks, i, j);
    }
  }

  lemma LegAt(cosine: VS.Similarity, items: VS.Items, vectors: seq<VS.Vector>, p: BM.Params, chunks: BM.Chunks,
              queries: seq<string>, topK: int, principal: Principal, version: Option<string>,
              legs: seq<seq<ScoredChunk>>, q: nat)
    requires p.Sane() && |vectors| == |queries| && q < |queries|
    requires legs == DenseLegs(cosine, items, vectors, topK, principal, version)
                     + LexicalLegs(p, chunks, queries, topK, principal, version)
    ensures |legs| == |vectors| + |queries|
    ensures legs[0] == DenseLeg(cosine, items, vectors[0], topK, principal, version)
    ensures legs[|vectors| + q] == LexicalLeg(p, chunks, queries[q], topK, principal, version)
  {
    var dense := DenseLegs(cosine, items, vectors, topK, principal, version);
    var lexical := LexicalLegs(p, chunks, queries, topK, principal, version);
    DenseLegAt(cosine, items, vectors, topK, principal, version, dense, 0);
    LexicalLegAt(p, chunks, queries, topK, principal, version, lexical, q);
    ConcatAt(dense, lexical, legs, q);
  }

  lemma DenseLegAt(cosine: VS.Similarity, items: VS.Items, vectors: seq<VS.Vector>, topK: int, principal: Principal,
                   version: Option<string>, dense: seq<seq<ScoredChunk>>, i: nat)
    requires i < |vectors| && dense == DenseLegs(cosine, items, vectors, topK, principal, version)
    ensures |dense| == |vectors| && dense[i] == DenseLeg(cosine, items, vectors[i], topK, principal, version)
  {
  }

  lemma LexicalLegAt(p: BM.Params, chunks: BM.Chunks, queries: seq<string>, topK: int, principal: Principal,
                     version: Option<string>, lexical: seq<seq<ScoredChunk>>, i: nat)
    requires p.Sane() && i < |queries| && lexical == LexicalLegs(p, chunks, queries, topK, principal, version)
    ensures |lexical| == |queries| && lexical[i] == LexicalLeg(p, chunks, queries[i], topK, principal, version)
  {
  }

  lemma ConcatAt<T>(a: seq<T>, b: seq<T>, c: seq<T>, q: nat)
    requires c == a + b && a != [] && q < |b|
    ensures |c| == |a| + |b| && c[0] == a[0] && c[|a| + q] == b[q]
  {
  }

  lemma AllInReachFound(cosine: VS.Similarity, items: VS.Items, vectors: seq<VS.Vector>, p: BM.Params,
                        chunks: BM.Chunks, queries: seq<string>, topK: int, principal: Principal,
                        version: Option<string>, k: int, weights: seq<real>, legs: seq<seq<ScoredChunk>>,
                        results: seq<ScoredChunk>)
    requires p.Sane() && VS.Keyed(items) && BM.KeyedById(chunks) && topK >= |items.at| + |chunks.at|
    requires |vectors| == |queries| > 0 && |weights| == |legs|
    requires legs == DenseLegs(cosine, items, vectors, topK, principal, version)
                     + LexicalLegs(p, chunks, queries, topK, principal, version)
    requires CleanLegs(legs, principal, version) && StoredLegs(legs, items, chunks)
    requires Divisible(k, AllVotes(weights, legs)) && IsRetrieval(results, k, weights, legs, topK)
    ensures FindsAll(results, items, p, chunks, queries, principal, version)
  {
    LegAt(cosine, items, vectors, p, chunks, queries, topK, principal, version, legs, 0);
    ItemsFound(cosine, items, vectors[0], chunks, topK, principal, version, k, weights, legs, results);
    forall q | 0 <= q < |queries| ensures FindsChunks(results, p, chunks, queries[q], principal, version) {
      LegAt(cosine, items, vectors, p, chunks, queries, topK, principal, version, legs, q);
      ChunksFound(p, chunks, queries[q], items, topK, principal, version, k, weights, legs, results, |vectors| + q);
    }
  }

  class HybridRetriever {
    const store: VS.MemoryVectorStore
    const index: BM.BM25MemoryIndex
    const embed: string -> VS.Vector
    const rrfK: nat
    const denseWeight: real
    const lexicalWeight: real

    constructor (store: VS.MemoryVectorStore, index: BM.BM25MemoryIndex, embed: string -> VS.Vector,
                 rrfK: nat, denseWeight: real, lexicalWeight: real)
      ensures this.store == store && this.index == index && this.embed == embed && this.rrfK == rrfK
      ensures this.denseWeight == denseWeight && this.lexicalWeight == lexicalWeight
    {
      this.store, this.index, this.embed, this.rrfK := store, index, embed, rrfK;
      this.denseWeight, this.lexicalWeight := denseWeight, lexicalWeight;
    }

    ghost function Legs(queries: seq<string>, dense: seq<string>, topK: int, principal: Principal,
                        version: Option<string>)
      : seq<seq<ScoredChunk>>
      requires index.Valid()
      reads store, index
    {
      DenseLegs(store.cosine, store.items, EmbedAll(embed, dense), topK, principal, version)
      + LexicalLegs(index.p, index.chunks, queries, topK, principal, version)
    }

    /** src/rag/retrieval/hybrid.py:99-173; the error is the ValueError of line 118 */
    method RetrieveMulti(queries: seq<string>, principal: Principal, topK: int, indexVersion: Option<string>,
                         denseQueries: Option<seq<string>>)
      returns (r: Result<seq<ScoredChunk>, string>)
      requires index.Valid()
      ensures queries == [] ==> r == Ok([])
      ensures var dense := if denseQueries.GetOr([]) == [] then queries else denseQueries.value;
              queries != [] ==> (r.Ok? <==> |dense| == |queries|)
      ensures var dense := if denseQueries.GetOr([]) == [] then queries else denseQueries.value;
              r.Ok? && queries != [] ==>
                var legs := Legs(queries, dense, topK, principal, indexVersion);
                var weights := LegWeights(|dense|, |queries|, denseWeight, lexicalWeight);
                Divisible(rrfK, AllVotes(weights, legs)) && IsRetrieval(r.value, rrfK, weights, legs, topK)
      ensures r.Ok? ==> forall i :: 0 <= i < |r.value| ==>
                CleanChunk(r.value[i].chunk, principal, indexVersion)
                && Stored(r.value[i].chunk, store.items, index.chunks)
      ensures r.Ok? ==> forall i :: 0 <= i < |r.value| ==>
                InReach(principal, r.value[i].chunk.acl) && OfVersion(indexVersion, r.value[i].chunk.indexVersion)
      ensures VS.Keyed(store.items) && topK >= |store.items.at| + |index.chunks.at| && r.Ok? && queries != [] ==>
                FindsAll(r.value, store.items, index.p, index.chunks, queries, principal, indexVersion)
    {
      if queries == [] {
        return Ok([]);
      }
      var dense := if denseQueries.GetOr([]) == [] then queries else denseQueries.value;
      if |dense| != |queries| {
        return Err("dense_queries length must match queries");
      }
      var legs := SearchAll(queries, dense, principal, topK, indexVersion);
      var weights := LegWeights(|dense|, |queries|, denseWeight, lexicalWeight);
      r := FuseAndCut(legs, weights, principal, topK, indexVersion);
      ResultsInReach(r.value, principal, indexVersion);
      if VS.Keyed(store.items) && topK >= |store.items.at| + |index.chunks.at| {
        AllInReachFound(store.cosine, store.items, EmbedAll(embed, dense), index.p, index.chunks, queries, topK,
                        principal, indexVersion, rrfK, weights, legs, r.value);
      }
    }

    /** The searches, src/rag/retrieval/hybrid.py:129-153. */
    method SearchAll(queries: seq<string>, dense: seq<string>, principal: Principal, topK: int,
                     indexVersion: Option<string>)
      returns (legs: seq<seq<ScoredChunk>>)
      requires index.Valid()
      ensures legs == Legs(queries, dense, topK, principal, indexVersion)
      ensures |legs| == |dense| + |queries|
      ensures CleanLegs(legs, principal, indexVersion) && StoredLegs(legs, store.items, index.chunks)
    {
      ghost var vectors := EmbedAll(embed, dense);
      LegsClean(store.cosine, store.items, vectors, index.p, index.chunks, queries, topK, principal, indexVersion);
      var hits := SearchDense(dense, principal, topK, indexVersion);
      var words := SearchLexical(queries, principal, topK, indexVersion);
      legs := hits + words;
    }

    method SearchDense(dense: seq<string>, principal: Principal, topK: int, indexVersion: Option<string>)
      returns (hits: seq<seq<ScoredChunk>>)
      ensures hits == DenseLegs(store.cosine, store.items, EmbedAll(embed, dense),
                                topK, principal, indexVersion)
    {
      hits := [];
      for i := 0 to |dense|
        invariant hits == DenseLegs(store.cosine, store.items, EmbedAll(embed, dense[..i]), topK, principal,
                                    indexVersion)
      {
        var found := store.Search(embed(dense[i]), topK, principal, indexVersion);
        DenseLegsSnoc(store.cosine, store.items, embed, dense, i, topK, principal, indexVersion);
        hits := hits + [found];
      }
      assert dense[..|dense|] == dense;
    }

    method SearchLexical(queries: seq<string>, principal: Principal, topK: int, indexVersion: Option<string>)
      returns (words: seq<seq<ScoredChunk>>)
      requires index.Valid()
      ensures words == LexicalLegs(index.p, index.chunks, queries, topK, principal, indexVersion)
    {
      words := [];
      for i := 0 to |queries|
        invariant words == LexicalLegs(index.p, index.chunks, queries[..i], topK, principal, indexVersion)
      {
        var found := index.Search(queries[i], topK, principal, indexVersion);
        LexicalLegsSnoc(index.p, index.chunks, queries, i, topK, principal, indexVersion);
        words := words + [found];
      }
      assert queries[..|queries|] == queries;
    }

    /** Fusion, recheck and cut, src/rag/retrieval/hybrid.py:154-173. */
    method FuseAndCut(legs: seq<seq<ScoredChunk>>, weights: seq<real>, principal: Principal, topK: int,
                      indexVersion: Option<string>)
      returns (r: Result<seq<ScoredChunk>, string>)
      requires |weights| == |legs| && CleanLegs(legs, principal, indexVersion)
      requires StoredLegs(legs, store.items, index.chunks)
      ensures r.Ok? && Divisible(rrfK, AllVotes(weights, legs)) && IsRetrieval(r.value, rrfK, weights, legs, topK)
      ensures forall i :: 0 <= i < |r.value| ==>
                CleanChunk(r.value[i].chunk, principal, indexVersion)
                && Stored(r.value[i].chunk, store.items, index.chunks)
    {
      LegsDivisible(rrfK, weights, legs, principal, indexVersion);
      var fusion := ReciprocalRankFusion(legs, rrfK, Some(weights));
      var fused := fusion.value;
      FusionExact(rrfK, AllVotes(weights, legs), fused);
      FusedClean(rrfK, weights, legs, fused, principal, indexVersion, store.items, index.chunks);
      var filtered := Authorised(fused, principal);
      var results := Renumber(PyTake(filtered, topK));
      FusedLabels(rrfK, AllVotes(weights, legs), fused);
      assert results == PyTake(fused, topK);
      r := Ok(results);
    }
  }

  lemma FusedLabels(k: int, votes: seq<Vote>, fused: seq<ScoredChunk>)
    requires Divisible(k, votes) && IsFusion(k, votes, fused)
    ensures forall i :: 0 <= i < |fused| ==> fused[i].retriever == Fused && fused[i].rank == i + 1
  {
    var sorted := SortDesc(Entries(k, votes, 0));
    forall i | 0 <= i < |fused|
      ensures fused[i].retriever == Fused && fused[i].rank == i + 1
    {
      assert IsResult(votes, sorted[i], i, fused[i]);
    }
  }
}
