/** What the dense and the lexical search share: the version filter, and the numbered top of a stable sort. */
module Ranking {
  import opened Schemas
  import opened Collections

  /** `not index_version or chunk.index_version == index_version` */
  predicate VersionMatches(wanted: Option<string>, version: string) {
    wanted.None? || wanted.value == "" || version == wanted.value
  }

  /** The chunk is of the version asked for, if one is. */
  predicate OfVersion(wanted: Option<string>, version: string) {
    wanted.GetOr("") != "" ==> wanted == Some(version)
  }

  lemma MatchesIsOfVersion(wanted: Option<string>, version: string)
    ensures VersionMatches(wanted, version) <==> OfVersion(wanted, version)
  {
  }

  /** Number the first `topK` after sorting, from rank 1. */
  function Ranked(hits: seq<Scored<Chunk>>, topK: int, retriever: Retriever): (r: seq<ScoredChunk>)
    ensures |r| == |PyTake(SortDesc(hits), topK)|
  {
    var top := PyTake(SortDesc(hits), topK);
    seq(|top|, i requires 0 <= i < |top| => ScoredChunk(top[i].item, top[i].score, i + 1, retriever))
  }

  /** Ranks count from 1; scores never rise; every result is a hit. */
  lemma RankedOrder(hits: seq<Scored<Chunk>>, topK: int, retriever: Retriever)
    ensures var r := Ranked(hits, topK, retriever);
            && (forall i :: 0 <= i < |r| ==> r[i].rank == i + 1 && r[i].retriever == retriever)
            && (forall i, j :: 0 <= i < j < |r| ==> r[i].score >= r[j].score)
            && (forall i :: 0 <= i < |r| ==> Scored(r[i].score, r[i].chunk) in hits)
  {
    SortIsStable(hits);
    forall i | 0 <= i < |Ranked(hits, topK, retriever)|
      ensures SortDesc(hits)[i] in hits
    {
      SortKeeps(hits, SortDesc(hits)[i]);
    }
  }

  /** For topK >= 0 nothing better is left out: min(topK, #hits) results, and no omitted hit beats a returned one. */
  lemma RankedBest(hits: seq<Scored<Chunk>>, topK: nat, retriever: Retriever)
    ensures var r := Ranked(hits, topK, retriever);
            && |r| == (if topK < |hits| then topK else |hits|)
            && multiset(SortDesc(hits)) == multiset(hits)
            && (forall i, j :: 0 <= i < |r| <= j < |hits| ==> r[i].score >= SortDesc(hits)[j].score)
  {
    SortIsStable(hits);
  }

  /** With room for every hit, each is returned. */
  lemma AllRanked(hits: seq<Scored<Chunk>>, topK: int, retriever: Retriever, hit: Scored<Chunk>)
    requires topK >= |hits| && hit in hits
    ensures var r := Ranked(hits, topK, retriever);
            exists i :: 0 <= i < |r| && r[i].chunk == hit.item && r[i].score == hit.score
  {
    SortKeeps(hits, hit);
    RankedBest(hits, topK, retriever);
    assert |SortDesc(hits)| == |hits|;
    var j :| 0 <= j < |SortDesc(hits)| && SortDesc(hits)[j] == hit;
    var r := Ranked(hits, topK, retriever);
    assert r[j].chunk == hit.item && r[j].score == hit.score;
  }

  ghost predicate DistinctIds(hits: seq<Scored<Chunk>>) {
    forall i, j :: 0 <= i < j < |hits| ==> hits[i].item.chunkId != hits[j].item.chunkId
  }

  /** Hits with distinct ids stay distinct when ranked. */
  lemma RankedDistinct(hits: seq<Scored<Chunk>>, topK: int, retriever: Retriever)
    requires DistinctIds(hits)
    ensures var r := Ranked(hits, topK, retriever);
            forall i, j :: 0 <= i < j < |r| ==> r[i].chunk.chunkId != r[j].chunk.chunkId
  {
    var sorted := SortDesc(hits);
    forall x
      ensures x in sorted <==> x in hits
    {
      SortKeeps(hits, x);
    }
    assert Distinct(hits);
    assert ToSet(sorted) == ToSet(hits);
    ToSetSize(hits);
    ToSetSize(sorted);
    forall i, j | 0 <= i < j < |sorted|
      ensures sorted[i].item.chunkId != sorted[j].item.chunkId
    {
      assert sorted[i] in hits && sorted[j] in hits && sorted[i] != sorted[j];
    }
  }
}
