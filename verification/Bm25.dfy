/**
 * src/rag/lexical/bm25_memory.py: an in-memory BM25 index that keeps its statistics incrementally.
 * The reference is the same formula over statistics counted from scratch. Tokenisation is an arbitrary
 * function, `log` any function that is positive beyond 1; arithmetic is real.
 */
module Bm25 {
  import opened Schemas
  import opened Collections
  import opened Acl
  import opened Ranking

  type Term = string

  datatype Params = Params(k1: real, b: real, tokenize: string -> seq<Term>, log: real -> real) {
    ghost predicate Sane() {
      k1 >= 0.0 && 0.0 <= b <= 1.0 && forall x: real :: x > 1.0 ==> log(x) > 0.0
    }

    function LengthOf(): Chunk -> nat {
      (c: Chunk) => |tokenize(c.text)|
    }
  }

  type Chunks = Dict<string, Chunk>

  // ---- Statistics counted from scratch ----

  function Tokens(p: Params, chunks: Chunks, id: string): seq<Term>
    requires id in chunks.at
  {
    p.tokenize(chunks.at[id].text)
  }

  /** The chunks that contain a term. */
  ghost function Containing(p: Params, chunks: Chunks, t: Term): set<string> {
    set id | id in chunks.at && t in Tokens(p, chunks, id)
  }

  function SumLengths(keys: seq<string>, len: map<string, nat>): nat
    requires ToSet(keys) <= len.Keys
  {
    if keys == [] then 0
    else
      assert keys[0] in ToSet(keys) && ToSet(keys[1..]) <= ToSet(keys);
      len[keys[0]] + SumLengths(keys[1..], len)
  }

  function MeanLength(docLen: Dict<string, nat>): real {
    if docLen.keys == [] then 0.0 else SumLengths(docLen.keys, docLen.at) as real / |docLen.keys| as real
  }

  function Lengths(p: Params, chunks: Chunks): Dict<string, nat> {
    MapValues(chunks, p.LengthOf())
  }

  function Idf(p: Params, n: nat, df: nat): real {
    p.log(1.0 + (n as real - df as real + 0.5) / (df as real + 0.5))
  }

  /** The length normaliser of the denominator. */
  function Norm(p: Params, dl: nat, avgdl: real): real
    requires avgdl >= 0.0
  {
    p.k1 * (1.0 - p.b + p.b * dl as real / (if avgdl == 0.0 then 1.0 else avgdl))
  }

  lemma NormNonnegative(p: Params, dl: nat, avgdl: real)
    requires p.Sane() && avgdl >= 0.0
    ensures Norm(p, dl, avgdl) >= 0.0
  {
    var a := if avgdl == 0.0 then 1.0 else avgdl;
    Product(p.b, dl as real);
    Quotient(p.b * dl as real, a);
    Product(p.k1, 1.0 - p.b + p.b * dl as real / a);
  }

  lemma Product(x: real, y: real)
    requires x >= 0.0 && y >= 0.0
    ensures x * y >= 0.0
    ensures x > 0.0 && y > 0.0 ==> x * y > 0.0
  {
  }

  lemma Quotient(x: real, y: real)
    requires x >= 0.0 && y > 0.0
    ensures x / y >= 0.0
    ensures x > 0.0 ==> x / y > 0.0
  {
  }

  /** What one query term that occurs `freq` times contributes. */
  function Contribution(p: Params, n: nat, df: nat, freq: nat, dl: nat, avgdl: real): real
    requires avgdl >= 0.0 && freq as real + Norm(p, dl, avgdl) > 0.0
  {
    Idf(p, n, df) * (freq as real * (p.k1 + 1.0)) / (freq as real + Norm(p, dl, avgdl))
  }

  lemma ContributionPositive(p: Params, n: nat, df: nat, freq: nat, dl: nat, avgdl: real)
    requires p.Sane() && avgdl >= 0.0 && 1 <= df <= n && freq >= 1
    ensures freq as real + Norm(p, dl, avgdl) > 0.0
    ensures Contribution(p, n, df, freq, dl, avgdl) > 0.0
  {
    NormNonnegative(p, dl, avgdl);
    Quotient(n as real - df as real + 0.5, df as real + 0.5);
    var idf, gain := Idf(p, n, df), freq as real * (p.k1 + 1.0);
    Product(freq as real, p.k1 + 1.0);
    Product(idf, gain);
    Quotient(idf * gain, freq as real + Norm(p, dl, avgdl));
  }

  lemma {:induction false} MeanNonnegative(docLen: Dict<string, nat>)
    ensures MeanLength(docLen) >= 0.0
  {
    if docLen.keys != [] {
      Quotient(SumLengths(docLen.keys, docLen.at) as real, |docLen.keys| as real);
    }
  }

  lemma ContainingBounds(p: Params, chunks: Chunks, id: string, t: Term)
    requires id in chunks.at && t in Tokens(p, chunks, id)
    ensures 1 <= |Containing(p, chunks, t)| <= |chunks.at|
  {
    var s := Containing(p, chunks, t);
    assert id in s;
    SubsetSize(s, chunks.at.Keys);
  }

  lemma {:induction false} SubsetSize(a: set<string>, b: set<string>)
    requires a <= b
    ensures |a| <= |b|
  {
    if a != {} {
      var x :| x in a;
      SubsetSize(a - {x}, b - {x});
    }
  }

  /** The reference score: every occurrence of a query term that the chunk contains contributes. */
  ghost function Score(p: Params, chunks: Chunks, query: seq<Term>, id: string): real
    requires p.Sane() && id in chunks.at
  {
    if query == [] then 0.0
    else
      var t := query[|query| - 1];
      var before := Score(p, chunks, query[..|query| - 1], id);
      var tokens := Tokens(p, chunks, id);
      if t !in tokens then before
      else
        ContainingBounds(p, chunks, id, t);
        MeanNonnegative(Lengths(p, chunks));
        ContributionPositive(p, |chunks.at|, |Containing(p, chunks, t)|, multiset(tokens)[t], |tokens|,
                             MeanLength(Lengths(p, chunks)));
        before + Contribution(p, |chunks.at|, |Containing(p, chunks, t)|, multiset(tokens)[t], |tokens|,
                              MeanLength(Lengths(p, chunks)))
  }

  ghost predicate Shares(p: Params, chunks: Chunks, query: seq<Term>, id: string)
    requires id in chunks.at
  {
    exists t :: t in query && t in Tokens(p, chunks, id)
  }

  /** A chunk scores above zero exactly when it shares a term with the query. */
  lemma {:induction false} ScorePositive(p: Params, chunks: Chunks, query: seq<Term>, id: string)
    requires p.Sane() && id in chunks.at
    ensures Score(p, chunks, query, id) >= 0.0
    ensures Score(p, chunks, query, id) > 0.0 <==> Shares(p, chunks, query, id)
  {
    if query != [] {
      var init, t := query[..|query| - 1], query[|query| - 1];
      assert query == init + [t];
      ScorePositive(p, chunks, init, id);
      var tokens := Tokens(p, chunks, id);
      if t in tokens {
        ContainingBounds(p, chunks, id, t);
        MeanNonnegative(Lengths(p, chunks));
        ContributionPositive(p, |chunks.at|, |Containing(p, chunks, t)|, multiset(tokens)[t], |tokens|,
                             MeanLength(Lengths(p, chunks)));
      } else if Shares(p, chunks, query, id) {
        var u :| u in query && u in tokens;
        assert u in init;
      }
    }
  }

  lemma ScoreSnoc(p: Params, chunks: Chunks, query: seq<Term>, t: Term, id: string)
    requires p.Sane() && id in chunks.at
    ensures t !in Tokens(p, chunks, id) ==> Score(p, chunks, query + [t], id) == Score(p, chunks, query, id)
    ensures t in Tokens(p, chunks, id) ==>
              var tokens, avgdl := Tokens(p, chunks, id), MeanLength(Lengths(p, chunks));
              && avgdl >= 0.0 && multiset(tokens)[t] as real + Norm(p, |tokens|, avgdl) > 0.0
              && Score(p, chunks, query + [t], id) == Score(p, chunks, query, id)
                   + Contribution(p, |chunks.at|, |Containing(p, chunks, t)|, multiset(tokens)[t], |tokens|, avgdl)
  {
    assert (query + [t])[..|query|] == query;
    if t in Tokens(p, chunks, id) {
      ContainingBounds(p, chunks, id, t);
      MeanNonnegative(Lengths(p, chunks));
      ContributionPositive(p, |chunks.at|, |Containing(p, chunks, t)|, multiset(Tokens(p, chunks, id))[t],
                           |Tokens(p, chunks, id)|, MeanLength(Lengths(p, chunks)));
    }
  }

  // ---- What a search must find ----

  /** The chunk may be returned: right version, allowed for the caller, and it shares a term with the query. */
  ghost predicate Eligible(p: Params, chunks: Chunks, id: string, query: seq<Term>, principal: Principal,
                           version: Option<string>)
    requires id in chunks.at
  {
    && VersionMatches(version, chunks.at[id].indexVersion)
    && IsAllowed(principal, chunks.at[id].acl)
    && Shares(p, chunks, query, id)
  }

  /** The eligible chunks among `keys`, scored. */
  ghost function Hits(p: Params, chunks: Chunks, keys: seq<string>, query: seq<Term>, principal: Principal,
                      version: Option<string>): seq<Scored<Chunk>>
    requires p.Sane() && ToSet(keys) <= chunks.at.Keys
  {
    if keys == [] then []
    else
      var id := keys[0];
      assert id in ToSet(keys) && ToSet(keys[1..]) <= ToSet(keys);
      (if Eligible(p, chunks, id, query, principal, version) then [Scored(Score(p, chunks, query, id), chunks.at[id])]
       else [])
      + Hits(p, chunks, keys[1..], query, principal, version)
  }

  lemma {:induction false} NoTermsNoHits(p: Params, chunks: Chunks, keys: seq<string>, query: seq<Term>,
                                         principal: Principal,
                                         version: Option<string>)
    requires p.Sane() && ToSet(keys) <= chunks.at.Keys && (query == [] || keys == [])
    ensures Hits(p, chunks, keys, query, principal, version) == []
  {
    if keys != [] {
      assert keys[0] in ToSet(keys) && ToSet(keys[1..]) <= ToSet(keys);
      NoTermsNoHits(p, chunks, keys[1..], query, principal, version);
    }
  }

  /** The hits the search loop has still to find at key `i`. */
  ghost function HitsFrom(p: Params, chunks: Chunks, i: nat, query: seq<Term>, principal: Principal,
                          version: Option<string>): seq<Scored<Chunk>>
    requires p.Sane() && i <= |chunks.keys|
  {
    assert ToSet(chunks.keys[i..]) <= ToSet(chunks.keys);
    Hits(p, chunks, chunks.keys[i..], query, principal, version)
  }

  ghost function AllHits(p: Params, chunks: Chunks, query: seq<Term>, principal: Principal, version: Option<string>)
    : seq<Scored<Chunk>>
    requires p.Sane()
  {
    Hits(p, chunks, chunks.keys, query, principal, version)
  }

  /** The result represents stored chunk `id`: its chunk, with its reference score. */
  ghost predicate Returns(p: Params, chunks: Chunks, query: seq<Term>, r: ScoredChunk, id: string)
    requires p.Sane()
  {
    id in chunks.at && r.chunk == chunks.at[id] && r.score == Score(p, chunks, query, id)
  }

  ghost predicate ReturnsEligible(p: Params, chunks: Chunks, query: seq<Term>, r: ScoredChunk, principal: Principal,
                                  version: Option<string>)
    requires p.Sane()
  {
    exists id :: && id in chunks.at && Returns(p, chunks, query, r, id)
                 && Eligible(p, chunks, id, query, principal, version)
  }

  /**
   * Search exactness. There are as many results as eligible chunks, up to topK, each of another chunk. Ranks count
   * from 1 and scores never rise; every result is an eligible chunk; and an eligible chunk is left out only when all
   * topK places are taken by chunks that score at least as much.
   */
  lemma SearchExact(p: Params, chunks: Chunks, query: seq<Term>, topK: nat, principal: Principal,
                    version: Option<string>)
    requires p.Sane() && KeyedById(chunks)
    ensures var r := Ranked(AllHits(p, chunks, query, principal, version), topK, Lexical);
            var eligible := |EligibleIds(p, chunks, query, principal, version)|;
            && |r| == (if topK < eligible then topK else eligible)
            && (forall i, j :: 0 <= i < j < |r| ==> r[i].chunk.chunkId != r[j].chunk.chunkId)
            && (forall i :: 0 <= i < |r| ==> r[i].rank == i + 1)
            && (forall i, j :: 0 <= i < j < |r| ==> r[i].score >= r[j].score)
            && (forall i :: 0 <= i < |r| ==> ReturnsEligible(p, chunks, query, r[i], principal, version))
            && (forall id :: id in chunks.at && Eligible(p, chunks, id, query, principal, version) ==>
                  || (exists i :: 0 <= i < |r| && Returns(p, chunks, query, r[i], id))
                  || (|r| == topK && forall i :: 0 <= i < |r| ==> r[i].score >= Score(p, chunks, query, id)))
  {
    var hits := AllHits(p, chunks, query, principal, version);
    var r := Ranked(hits, topK, Lexical);
    HitsCounted(p, chunks, query, principal, version);
    RankedDistinct(hits, topK, Lexical);
    RankedOrder(hits, topK, Lexical);
    RankedBest(hits, topK, Lexical);
    forall i | 0 <= i < |r|
      ensures ReturnsEligible(p, chunks, query, r[i], principal, version)
    {
      HitsAreEligible(p, chunks, chunks.keys, query, principal, version, Scored(r[i].score, r[i].chunk));
    }
    forall id | id in chunks.at && Eligible(p, chunks, id, query, principal, version)
      ensures || (exists i :: 0 <= i < |r| && Returns(p, chunks, query, r[i], id))
              || (|r| == topK && forall i :: 0 <= i < |r| ==> r[i].score >= Score(p, chunks, query, id))
    {
      EligibleReturned(p, chunks, query, topK, principal, version, id);
    }
  }

  lemma {:induction false} HitsDistinct(p: Params, chunks: Chunks, i: nat, query: seq<Term>,
                                        principal: Principal, version: Option<string>)
    requires p.Sane() && KeyedById(chunks) && i <= |chunks.keys|
    ensures var hits := HitsFrom(p, chunks, i, query, principal, version);
            DistinctIds(hits) && forall h :: 0 <= h < |hits| ==> hits[h].item.chunkId in chunks.keys[i..]
    decreases |chunks.keys| - i
  {
    if i < |chunks.keys| {
      HitsStep(p, chunks, i, query, principal, version);
      HitsDistinct(p, chunks, i + 1, query, principal, version);
      assert chunks.keys[i..] == [chunks.keys[i]] + chunks.keys[i + 1..];
      KeyNotLater(chunks, i);
    }
  }

  /** The ids of the eligible chunks. */
  ghost function EligibleIds(p: Params, chunks: Chunks, query: seq<Term>, principal: Principal,
                             version: Option<string>): set<string>
  {
    set id | id in chunks.at && Eligible(p, chunks, id, query, principal, version)
  }

  function HitIds(hits: seq<Scored<Chunk>>): (ids: seq<string>)
    ensures |ids| == |hits|
  {
    seq(|hits|, i requires 0 <= i < |hits| => hits[i].item.chunkId)
  }

  /** One hit for each eligible chunk. */
  lemma HitsCounted(p: Params, chunks: Chunks, query: seq<Term>, principal: Principal, version: Option<string>)
    requires p.Sane() && KeyedById(chunks)
    ensures var hits := AllHits(p, chunks, query, principal, version);
            DistinctIds(hits) && |hits| == |EligibleIds(p, chunks, query, principal, version)|
  {
    var hits := AllHits(p, chunks, query, principal, version);
    KeysDistinct(chunks);
    HitsDistinct(p, chunks, 0, query, principal, version);
    assert chunks.keys[0..] == chunks.keys;
    var ids := HitIds(hits);
    forall id
      ensures id in ToSet(ids) <==> id in EligibleIds(p, chunks, query, principal, version)
    {
      if id in ids {
        var i :| 0 <= i < |hits| && hits[i].item.chunkId == id;
        HitsAreEligible(p, chunks, chunks.keys, query, principal, version, hits[i]);
      }
      if id in EligibleIds(p, chunks, query, principal, version) {
        var hit := Scored(Score(p, chunks, query, id), chunks.at[id]);
        HitsAreEligible(p, chunks, chunks.keys, query, principal, version, hit);
        var i :| 0 <= i < |hits| && hits[i] == hit;
        assert ids[i] == id;
      }
    }
    assert ToSet(ids) == EligibleIds(p, chunks, query, principal, version);
    ToSetSize(ids);
  }

  lemma EligibleReturned(p: Params, chunks: Chunks, query: seq<Term>, topK: nat, principal: Principal,
                         version: Option<string>, id: string)
    requires p.Sane() && id in chunks.at && Eligible(p, chunks, id, query, principal, version)
    ensures var r := Ranked(AllHits(p, chunks, query, principal, version), topK, Lexical);
            || (exists i :: 0 <= i < |r| && Returns(p, chunks, query, r[i], id))
            || (|r| == topK && forall i :: 0 <= i < |r| ==> r[i].score >= Score(p, chunks, query, id))
  {
    var hits := AllHits(p, chunks, query, principal, version);
    var hit := Scored(Score(p, chunks, query, id), chunks.at[id]);
    KeysDistinct(chunks);
    HitsAreEligible(p, chunks, chunks.keys, query, principal, version, hit);
    SortKeeps(hits, hit);
    var j :| 0 <= j < |SortDesc(hits)| && SortDesc(hits)[j] == hit;
    RankedBest(hits, topK, Lexical);
    var r := Ranked(hits, topK, Lexical);
    if j < |r| {
      assert Returns(p, chunks, query, r[j], id);
    }
  }

  /** With room for every chunk, every eligible one is returned. */
  lemma RoomForAll(p: Params, chunks: Chunks, query: seq<Term>, topK: int, principal: Principal,
                   version: Option<string>, id: string)
    requires p.Sane() && KeyedById(chunks) && topK >= |chunks.at|
    requires id in chunks.at && Eligible(p, chunks, id, query, principal, version)
    ensures var r := Ranked(AllHits(p, chunks, query, principal, version), topK, Lexical);
            exists i :: 0 <= i < |r| && r[i].chunk == chunks.at[id]
  {
    var hits := AllHits(p, chunks, query, principal, version);
    var hit := Scored(Score(p, chunks, query, id), chunks.at[id]);
    KeysDistinct(chunks);
    HitsAreEligible(p, chunks, chunks.keys, query, principal, version, hit);
    HitsCounted(p, chunks, query, principal, version);
    SubsetSize(EligibleIds(p, chunks, query, principal, version), chunks.at.Keys);
    AllRanked(hits, topK, Lexical, hit);
  }

  /** Whatever a search returns is in the caller's reach. */
  lemma OnlyInReach(p: Params, chunks: Chunks, query: seq<Term>, topK: int, principal: Principal,
                    version: Option<string>)
    requires p.Sane()
    ensures var r := Ranked(AllHits(p, chunks, query, principal, version), topK, Lexical);
            forall i :: 0 <= i < |r| ==>
              InReach(principal, r[i].chunk.acl) && OfVersion(version, r[i].chunk.indexVersion)
  {
    var hits := AllHits(p, chunks, query, principal, version);
    var r := Ranked(hits, topK, Lexical);
    KeysDistinct(chunks);
    RankedOrder(hits, topK, Lexical);
    forall i | 0 <= i < |r|
      ensures InReach(principal, r[i].chunk.acl) && OfVersion(version, r[i].chunk.indexVersion)
    {
      HitsAreEligible(p, chunks, chunks.keys, query, principal, version, Scored(r[i].score, r[i].chunk));
      AllowedIsInReach(principal, r[i].chunk.acl);
      MatchesIsOfVersion(version, r[i].chunk.indexVersion);
    }
  }

  /** The chunk is in reach, of the version, and shares a term with the query. */
  ghost predicate ShouldFind(p: Params, chunks: Chunks, id: string, query: seq<Term>, principal: Principal,
                             version: Option<string>)
    requires id in chunks.at
  {
    && InReach(principal, chunks.at[id].acl) && OfVersion(version, chunks.at[id].indexVersion)
    && Shares(p, chunks, query, id)
  }

  /** Asked for enough results, a search finds all it should. */
  lemma AllFound(p: Params, chunks: Chunks, query: seq<Term>, topK: int, principal: Principal, version: Option<string>)
    requires p.Sane() && KeyedById(chunks)
    ensures var r := Ranked(AllHits(p, chunks, query, principal, version), topK, Lexical);
            topK >= |chunks.at| ==>
              forall id <- chunks.at :: ShouldFind(p, chunks, id, query, principal, version) ==>
                exists i :: 0 <= i < |r| && r[i].chunk == chunks.at[id]
  {
    if topK >= |chunks.at| {
      forall id | id in chunks.at && ShouldFind(p, chunks, id, query, principal, version)
        ensures var r := Ranked(AllHits(p, chunks, query, principal, version), topK, Lexical);
                exists i :: 0 <= i < |r| && r[i].chunk == chunks.at[id]
      {
        AllowedIsInReach(principal, chunks.at[id].acl);
        MatchesIsOfVersion(version, chunks.at[id].indexVersion);
        RoomForAll(p, chunks, query, topK, principal, version, id);
      }
    }
  }

  /** One round of the search loop: the `score > 0` filter keeps exactly the chunks that share a term. */
  lemma HitsStep(p: Params, chunks: Chunks, i: nat, query: seq<Term>, principal: Principal, version: Option<string>)
    requires p.Sane() && i < |chunks.keys|
    ensures chunks.keys[i] in chunks.at && |chunks.keys| == |chunks.at|
    ensures var id := chunks.keys[i];
            var chunk, score := chunks.at[id], Score(p, chunks, query, id);
            HitsFrom(p, chunks, i, query, principal, version) ==
              (if VersionMatches(version, chunk.indexVersion) && IsAllowed(principal, chunk.acl) && score > 0.0
               then [Scored(score, chunk)] else [])
              + HitsFrom(p, chunks, i + 1, query, principal, version)
  {
    KeysDistinct(chunks);
    var id := chunks.keys[i];
    assert ToSet(chunks.keys[i..]) <= ToSet(chunks.keys) && ToSet(chunks.keys[i + 1..]) <= ToSet(chunks.keys);
    assert chunks.keys[i..][1..] == chunks.keys[i + 1..];
    ScorePositive(p, chunks, query, id);
  }

  /** The hits are the eligible chunks, each with its reference score. */
  lemma {:induction false} HitsAreEligible(p: Params, chunks: Chunks, keys: seq<string>, query: seq<Term>,
                                           principal: Principal,
                                           version: Option<string>, hit: Scored<Chunk>)
    requires p.Sane() && ToSet(keys) <= chunks.at.Keys
    ensures hit in Hits(p, chunks, keys, query, principal, version) <==>
              exists id :: id in keys && id in chunks.at && Eligible(p, chunks, id, query, principal, version)
                           && hit == Scored(Score(p, chunks, query, id), chunks.at[id])
  {
    if keys != [] {
      var head, tail := keys[0], keys[1..];
      assert head in ToSet(keys) && ToSet(tail) <= ToSet(keys);
      HitsAreEligible(p, chunks, tail, query, principal, version, hit);
      assert forall id :: id in keys <==> id == head || id in tail;
    }
  }

  // ---- The incremental statistics ----

  type Counter = map<Term, int>

  /** `df` counts `members` for `t`, without a zero entry. */
  ghost predicate CountsAt(df: Counter, members: set<string>, t: Term) {
    (t in df <==> members != {}) && (t in df ==> df[t] == |members|)
  }

  /** The document frequencies of every chunk. */
  ghost predicate CountsAll(p: Params, chunks: Chunks, df: Counter) {
    forall t :: CountsAt(df, Containing(p, chunks, t), t)
  }

  /** The document frequencies of every chunk but one. */
  ghost predicate CountsAllBut(p: Params, chunks: Chunks, id: string, df: Counter) {
    forall t :: CountsAt(df, Containing(p, chunks, t) - {id}, t)
  }

  function Plus(df: Counter, terms: set<Term>): Counter {
    map t | t in df.Keys + terms :: (if t in df then df[t] else 0) + if t in terms then 1 else 0
  }

  function Minus(df: Counter, terms: set<Term>): Counter {
    map t | t in df && !(t in terms && df[t] <= 1) :: df[t] - if t in terms then 1 else 0
  }

  function Terms(tokens: seq<Term>): set<Term> {
    set t | t in tokens
  }

  /** `set(counter)` */
  function Support(counter: multiset<Term>): set<Term> {
    set t | t in counter
  }

  lemma MinusCounts(p: Params, chunks: Chunks, df: Counter, id: string)
    requires id in chunks.at && CountsAll(p, chunks, df)
    ensures CountsAllBut(p, chunks, id, Minus(df, Terms(Tokens(p, chunks, id))))
  {
    var terms := Terms(Tokens(p, chunks, id));
    forall t
      ensures CountsAt(Minus(df, terms), Containing(p, chunks, t) - {id}, t)
    {
      var s := Containing(p, chunks, t);
      assert CountsAt(df, s, t);
      if id in s {
        assert |s - {id}| == |s| - 1;
      } else {
        assert s - {id} == s;
      }
    }
  }

  lemma NotContaining(p: Params, chunks: Chunks, id: string, t: Term)
    requires id !in chunks.at
    ensures Containing(p, chunks, t) - {id} == Containing(p, chunks, t)
  {
  }

  /** Nothing is counted for an id that is not stored. */
  lemma NothingToSkip(p: Params, chunks: Chunks, df: Counter, id: string)
    requires id !in chunks.at && CountsAll(p, chunks, df)
    ensures CountsAllBut(p, chunks, id, df)
  {
    forall t
      ensures CountsAt(df, Containing(p, chunks, t) - {id}, t)
    {
      assert CountsAt(df, Containing(p, chunks, t), t);
      NotContaining(p, chunks, id, t);
    }
  }

  lemma PlusCounts(p: Params, chunks: Chunks, df: Counter, chunk: Chunk)
    requires CountsAllBut(p, chunks, chunk.chunkId, df)
    ensures CountsAll(p, Put(chunks, chunk.chunkId, chunk), Plus(df, Terms(p.tokenize(chunk.text))))
  {
    var id, terms := chunk.chunkId, Terms(p.tokenize(chunk.text));
    var after := Put(chunks, id, chunk);
    forall t
      ensures CountsAt(Plus(df, terms), Containing(p, after, t), t)
    {
      assert CountsAt(df, Containing(p, chunks, t) - {id}, t);
      ContainingPut(p, chunks, chunk, t);
      PlusAt(df, terms, Containing(p, chunks, t) - {id}, id, t);
    }
  }

  lemma ContainingPut(p: Params, chunks: Chunks, chunk: Chunk, t: Term)
    ensures var others := Containing(p, chunks, t) - {chunk.chunkId};
            Containing(p, Put(chunks, chunk.chunkId, chunk), t) ==
              if t in Terms(p.tokenize(chunk.text)) then others + {chunk.chunkId} else others
  {
  }

  lemma PlusAt(df: Counter, terms: set<Term>, members: set<string>, id: string, t: Term)
    requires CountsAt(df, members, t) && id !in members
    ensures CountsAt(Plus(df, terms), if t in terms then members + {id} else members, t)
  {
  }

  lemma ContainingDrop(p: Params, chunks: Chunks, id: string, t: Term)
    ensures Containing(p, Drop(chunks, id), t) == Containing(p, chunks, t) - {id}
  {
  }

  lemma DropCounts(p: Params, chunks: Chunks, df: Counter, id: string)
    requires CountsAllBut(p, chunks, id, df)
    ensures CountsAll(p, Drop(chunks, id), df)
  {
    var after := Drop(chunks, id);
    forall t
      ensures CountsAt(df, Containing(p, after, t), t)
    {
      assert CountsAt(df, Containing(p, chunks, t) - {id}, t);
      ContainingDrop(p, chunks, id, t);
    }
  }

  /** The per-chunk statistics of one chunk are those of its text. */
  ghost predicate StatsAt(p: Params, chunks: Chunks, tf: map<string, multiset<Term>>, docLen: map<string, nat>,
                          id: string)
    requires id in chunks.at
  {
    && id in tf && tf[id] == multiset(Tokens(p, chunks, id))
    && id in docLen && docLen[id] == |Tokens(p, chunks, id)|
  }

  ghost predicate PerChunk(p: Params, chunks: Chunks, tf: map<string, multiset<Term>>, docLen: Dict<string, nat>) {
    && docLen.keys == chunks.keys && tf.Keys == chunks.at.Keys
    && forall id :: id in chunks.at ==> StatsAt(p, chunks, tf, docLen.at, id)
  }

  /** The statistics agree with a count from scratch over the stored chunks. */
  ghost predicate Agree(p: Params, chunks: Chunks, tf: map<string, multiset<Term>>, df: Counter,
                        docLen: Dict<string, nat>)
  {
    PerChunk(p, chunks, tf, docLen) && CountsAll(p, chunks, df)
  }

  lemma SameMean(p: Params, chunks: Chunks, tf: map<string, multiset<Term>>, docLen: Dict<string, nat>)
    requires PerChunk(p, chunks, tf, docLen)
    ensures MeanLength(docLen) == MeanLength(Lengths(p, chunks))
  {
    forall id | id in chunks.at
      ensures docLen.at[id] == Lengths(p, chunks).at[id]
    {
      assert StatsAt(p, chunks, tf, docLen.at, id);
    }
    assert docLen.at == Lengths(p, chunks).at;
  }

  lemma TermStats(p: Params, chunks: Chunks, tf: map<string, multiset<Term>>, df: Counter, docLen: Dict<string, nat>,
                  id: string)
    requires Agree(p, chunks, tf, df, docLen) && id in chunks.at
    ensures id in tf && tf[id] == multiset(Tokens(p, chunks, id))
    ensures id in docLen.at && docLen.at[id] == |Tokens(p, chunks, id)|
  {
    assert StatsAt(p, chunks, tf, docLen.at, id);
  }

  /** One round of the scoring loop: the stored statistics give the reference contribution. */
  lemma ScoreStep(p: Params, chunks: Chunks, tf: map<string, multiset<Term>>, df: Counter, docLen: Dict<string, nat>,
                  avgdl: real, query: seq<Term>, t: Term, id: string)
    requires p.Sane() && Agree(p, chunks, tf, df, docLen) && avgdl == MeanLength(docLen) && id in chunks.at
    ensures id in tf && id in docLen.at && avgdl >= 0.0
    ensures t !in tf[id] ==> Score(p, chunks, query + [t], id) == Score(p, chunks, query, id)
    ensures t in tf[id] ==>
              && t in df && df[t] >= 0
              && tf[id][t] as real + Norm(p, docLen.at[id], avgdl) > 0.0
              && Score(p, chunks, query + [t], id) == Score(p, chunks, query, id)
                   + Contribution(p, |chunks.at|, df[t], tf[id][t], docLen.at[id], avgdl)
  {
    TermStats(p, chunks, tf, df, docLen, id);
    SameMean(p, chunks, tf, docLen);
    MeanNonnegative(docLen);
    ScoreSnoc(p, chunks, query, t, id);
    assert CountsAt(df, Containing(p, chunks, t), t);
    if t in tf[id] {
      ContainingBounds(p, chunks, id, t);
    }
  }

  lemma PutStatsAt(p: Params, chunks: Chunks, tf: map<string, multiset<Term>>, docLen: Dict<string, nat>, chunk: Chunk,
                   id: string)
    requires id != chunk.chunkId ==> id in chunks.at && StatsAt(p, chunks, tf, docLen.at, id)
    ensures var id', tokens := chunk.chunkId, p.tokenize(chunk.text);
            && id in Put(chunks, id', chunk).at
            && StatsAt(p, Put(chunks, id', chunk), tf[id' := multiset(tokens)], Put(docLen, id', |tokens|).at, id)
  {
  }

  lemma PutEachStats(p: Params, chunks: Chunks, tf: map<string, multiset<Term>>, docLen: Dict<string, nat>,
                     chunk: Chunk)
    requires PerChunk(p, chunks, tf, docLen)
    ensures var id', tokens := chunk.chunkId, p.tokenize(chunk.text);
            var after, tf', len := Put(chunks, id', chunk), tf[id' := multiset(tokens)], Put(docLen, id', |tokens|).at;
            forall id :: id in after.at ==> StatsAt(p, after, tf', len, id)
  {
    forall id | id in Put(chunks, chunk.chunkId, chunk).at
      ensures var id', tokens := chunk.chunkId, p.tokenize(chunk.text);
              StatsAt(p, Put(chunks, id', chunk), tf[id' := multiset(tokens)], Put(docLen, id', |tokens|).at, id)
    {
      PutParts(chunks, chunk.chunkId, chunk);
      PutStatsAt(p, chunks, tf, docLen, chunk, id);
    }
  }

  lemma PutPerChunk(p: Params, chunks: Chunks, tf: map<string, multiset<Term>>, docLen: Dict<string, nat>, chunk: Chunk)
    requires PerChunk(p, chunks, tf, docLen)
    ensures var id, tokens := chunk.chunkId, p.tokenize(chunk.text);
            PerChunk(p, Put(chunks, id, chunk), tf[id := multiset(tokens)], Put(docLen, id, |tokens|))
  {
    var id, tokens := chunk.chunkId, p.tokenize(chunk.text);
    PutEachStats(p, chunks, tf, docLen, chunk);
    PutKeysAlike(chunks, docLen, id, chunk, |tokens|);
    PutParts(chunks, id, chunk);
    assert tf[id := multiset(tokens)].Keys == chunks.at[id := chunk].Keys;
  }

  lemma DropPerChunk(p: Params, chunks: Chunks, tf: map<string, multiset<Term>>, docLen: Dict<string, nat>, id': string)
    requires PerChunk(p, chunks, tf, docLen)
    ensures PerChunk(p, Drop(chunks, id'), tf - {id'}, Drop(docLen, id'))
  {
    forall id | id in Drop(chunks, id').at
      ensures StatsAt(p, Drop(chunks, id'), tf - {id'}, Drop(docLen, id').at, id)
    {
      assert StatsAt(p, chunks, tf, docLen.at, id);
    }
  }

  /** Taking the old text's terms out and putting the new text's terms in keeps the statistics in agreement. */
  lemma AgreePut(p: Params, chunks: Chunks, tf: map<string, multiset<Term>>, df: Counter, docLen: Dict<string, nat>,
                 chunk: Chunk)
    requires Agree(p, chunks, tf, df, docLen)
    ensures chunk.chunkId in chunks.at ==> chunk.chunkId in tf
    ensures var id, tokens := chunk.chunkId, p.tokenize(chunk.text);
            var rest := if id in chunks.at then Minus(df, Support(tf[id])) else df;
            Agree(p, Put(chunks, id, chunk), tf[id := multiset(tokens)], Plus(rest, Terms(tokens)),
                  Put(docLen, id, |tokens|))
  {
    var id := chunk.chunkId;
    PutPerChunk(p, chunks, tf, docLen, chunk);
    if id in chunks.at {
      SupportIsTerms(p, chunks, tf, docLen, id);
      MinusCounts(p, chunks, df, id);
      PlusCounts(p, chunks, Minus(df, Support(tf[id])), chunk);
    } else {
      NothingToSkip(p, chunks, df, id);
      PlusCounts(p, chunks, df, chunk);
    }
  }

  lemma SupportIsTerms(p: Params, chunks: Chunks, tf: map<string, multiset<Term>>, docLen: Dict<string, nat>,
                       id: string)
    requires PerChunk(p, chunks, tf, docLen) && id in chunks.at
    ensures id in tf && Support(tf[id]) == Terms(Tokens(p, chunks, id))
  {
    assert StatsAt(p, chunks, tf, docLen.at, id);
  }

  lemma AgreeDrop(p: Params, chunks: Chunks, tf: map<string, multiset<Term>>, df: Counter, docLen: Dict<string, nat>,
                  id: string)
    requires Agree(p, chunks, tf, df, docLen)
    ensures if id in chunks.at then
              id in tf && Agree(p, Drop(chunks, id), tf - {id}, Minus(df, Support(tf[id])), Drop(docLen, id))
            else Drop(chunks, id) == chunks
  {
    if id in chunks.at {
      DropPerChunk(p, chunks, tf, docLen, id);
      SupportIsTerms(p, chunks, tf, docLen, id);
      MinusCounts(p, chunks, df, id);
      DropCounts(p, chunks, Minus(df, Support(tf[id])), id);
    } else {
      DropAbsent(chunks, id);
    }
  }

  lemma SameFrequencies(p: Params, chunks: Chunks, df: Counter, df': Counter)
    requires CountsAll(p, chunks, df) && CountsAll(p, chunks, df')
    ensures df == df'
  {
    forall t
      ensures t in df <==> t in df'
      ensures t in df ==> df[t] == df'[t]
    {
      assert CountsAt(df, Containing(p, chunks, t), t) && CountsAt(df', Containing(p, chunks, t), t);
    }
  }

  lemma SamePerChunk(p: Params, chunks: Chunks, tf: map<string, multiset<Term>>, docLen: Dict<string, nat>,
                     tf': map<string, multiset<Term>>, docLen': Dict<string, nat>, id: string)
    requires PerChunk(p, chunks, tf, docLen) && PerChunk(p, chunks, tf', docLen') && id in chunks.at
    ensures id in tf && id in tf' && tf[id] == tf'[id]
    ensures id in docLen.at && id in docLen'.at && docLen.at[id] == docLen'.at[id]
  {
    assert StatsAt(p, chunks, tf, docLen.at, id) && StatsAt(p, chunks, tf', docLen'.at, id);
  }

  /** Statistics that agree with the same chunks are the same statistics: a batch rebuild changes nothing. */
  lemma AgreementDetermines(p: Params, chunks: Chunks,
                            tf: map<string, multiset<Term>>, df: Counter, docLen: Dict<string, nat>,
                            tf': map<string, multiset<Term>>, df': Counter, docLen': Dict<string, nat>)
    requires Agree(p, chunks, tf, df, docLen) && Agree(p, chunks, tf', df', docLen')
    ensures tf == tf' && df == df' && docLen == docLen'
  {
    SameFrequencies(p, chunks, df, df');
    forall id | id in chunks.at
      ensures id in tf && id in tf' && tf[id] == tf'[id]
      ensures id in docLen.at && id in docLen'.at && docLen.at[id] == docLen'.at[id]
    {
      SamePerChunk(p, chunks, tf, docLen, tf', docLen', id);
    }
    KeyedAlike(docLen, docLen', chunks);
  }

  lemma KeyedAlike(a: Dict<string, nat>, b: Dict<string, nat>, chunks: Chunks)
    requires a.keys == b.keys == chunks.keys
    requires forall id :: id in chunks.at ==> id in a.at && id in b.at && a.at[id] == b.at[id]
    ensures a == b
  {
    assert a.at.Keys == b.at.Keys == chunks.at.Keys;
    SameDict(a, b);
  }

  /** What a history of writes leaves stored. */
  function PutAll(chunks: Chunks, batch: seq<Chunk>): Chunks
    decreases |batch|
  {
    if batch == [] then chunks
    else PutAll(Put(chunks, batch[0].chunkId, batch[0]), batch[1..])
  }

  function DropAll(chunks: Chunks, ids: seq<string>): Chunks
    decreases |ids|
  {
    if ids == [] then chunks else DropAll(Drop(chunks, ids[0]), ids[1..])
  }

  datatype Write = Upserted(chunk: Chunk) | Deleted(id: string)

  /** The index contents after a history of writes, batches taken apart. */
  function Replay(writes: seq<Write>): Chunks {
    if writes == [] then Empty()
    else
      var before := Replay(writes[..|writes| - 1]);
      match writes[|writes| - 1]
      case Upserted(c) => Put(before, c.chunkId, c)
      case Deleted(id) => Drop(before, id)
  }

  /** The last write that names `id` decides: the chunk it wrote, or nothing. */
  function LastWritten(writes: seq<Write>, id: string): Option<Chunk> {
    if writes == [] then None
    else
      match writes[|writes| - 1]
      case Upserted(c) => if c.chunkId == id then Some(c) else LastWritten(writes[..|writes| - 1], id)
      case Deleted(id') => if id' == id then None else LastWritten(writes[..|writes| - 1], id)
  }

  /** What survives a history is the last-written chunk of every id not deleted since. */
  lemma {:induction false} ReplaySurvivors(writes: seq<Write>, id: string)
    ensures match LastWritten(writes, id)
            case Some(c) => id in Replay(writes).at && Replay(writes).at[id] == c && c.chunkId == id
            case None => id !in Replay(writes).at
  {
    if writes != [] {
      ReplaySurvivors(writes[..|writes| - 1], id);
    }
  }

  function Upserts(batch: seq<Chunk>): seq<Write> {
    if batch == [] then [] else [Upserted(batch[0])] + Upserts(batch[1..])
  }

  function Deletes(ids: seq<string>): seq<Write> {
    if ids == [] then [] else [Deleted(ids[0])] + Deletes(ids[1..])
  }

  /** A batch is the same history as its writes one by one. */
  lemma {:induction false} ReplayPuts(writes: seq<Write>, batch: seq<Chunk>)
    ensures Replay(writes + Upserts(batch)) == PutAll(Replay(writes), batch)
    decreases |batch|
  {
    if batch == [] {
      assert writes + [] == writes;
    } else {
      var first := writes + [Upserted(batch[0])];
      assert first[..|first| - 1] == writes;
      ReplayPuts(first, batch[1..]);
      AppendAssoc(writes, [Upserted(batch[0])], Upserts(batch[1..]));
    }
  }

  lemma {:induction false} ReplayDrops(writes: seq<Write>, ids: seq<string>)
    ensures Replay(writes + Deletes(ids)) == DropAll(Replay(writes), ids)
    decreases |ids|
  {
    if ids == [] {
      assert writes + [] == writes;
    } else {
      var first := writes + [Deleted(ids[0])];
      assert first[..|first| - 1] == writes;
      ReplayDrops(first, ids[1..]);
      AppendAssoc(writes, [Deleted(ids[0])], Deletes(ids[1..]));
    }
  }

  /** The stored chunks in order, from the `i`-th on. */
  function Listing(chunks: Chunks, i: nat): seq<Chunk>
    requires i <= |chunks.keys|
    decreases |chunks.keys| - i
  {
    KeysDistinct(chunks);
    if i == |chunks.keys| then [] else [chunks.at[chunks.keys[i]]] + Listing(chunks, i + 1)
  }

  /** Writing the stored chunks into an empty index, in one batch, stores the same chunks in the same order. */
  lemma RebuildStoresTheSame(chunks: Chunks)
    requires KeyedById(chunks)
    ensures PutAll(Empty(), Listing(chunks, 0)) == chunks
  {
    RebuildFrom(chunks, Empty(), 0);
  }

  lemma PutAllCons(chunks: Chunks, chunk: Chunk, rest: seq<Chunk>)
    ensures PutAll(chunks, [chunk] + rest) == PutAll(Put(chunks, chunk.chunkId, chunk), rest)
  {
    assert ([chunk] + rest)[1..] == rest;
  }

  lemma {:induction false} RebuildFrom(chunks: Chunks, built: Chunks, i: nat)
    requires KeyedById(chunks) && i <= |chunks.keys|
    requires built.keys == chunks.keys[..i]
    requires forall k :: k in built.at ==> k in chunks.at && built.at[k] == chunks.at[k]
    ensures PutAll(built, Listing(chunks, i)) == chunks
    decreases |chunks.keys| - i
  {
    if i < |chunks.keys| {
      var id := chunks.keys[i];
      KeyAt(chunks, i);
      KeyListed(built, id);
      var chunk, rest := chunks.at[id], Listing(chunks, i + 1);
      assert chunks.keys[..i + 1] == chunks.keys[..i] + [id];
      RebuildFrom(chunks, Put(built, id, chunk), i + 1);
      PutAllCons(built, chunk, rest);
    } else {
      assert built.keys == chunks.keys;
      SameDict(built, chunks);
    }
  }

  /** What every write keeps. */
  ghost predicate InOrder(p: Params, chunks: Chunks, tf: map<string, multiset<Term>>, df: Counter,
                          docLen: Dict<string, nat>)
  {
    p.Sane() && Agree(p, chunks, tf, df, docLen) && KeyedById(chunks)
  }

  ghost predicate KeyedById(chunks: Chunks) {
    forall id :: id in chunks.at ==> chunks.at[id].chunkId == id
  }

  lemma PutInOrder(p: Params, chunks: Chunks, tf: map<string, multiset<Term>>, df: Counter, docLen: Dict<string, nat>,
                   chunk: Chunk)
    requires InOrder(p, chunks, tf, df, docLen)
    ensures chunk.chunkId in chunks.at ==> chunk.chunkId in tf
    ensures var id, tokens := chunk.chunkId, p.tokenize(chunk.text);
            var rest := if id in chunks.at then Minus(df, Support(tf[id])) else df;
            InOrder(p, Put(chunks, id, chunk), tf[id := multiset(tokens)], Plus(rest, Terms(tokens)),
                    Put(docLen, id, |tokens|))
  {
    AgreePut(p, chunks, tf, df, docLen, chunk);
    KeyedAfterPut(chunks, chunk);
  }

  lemma KeyedAfterPut(chunks: Chunks, chunk: Chunk)
    requires KeyedById(chunks)
    ensures KeyedById(Put(chunks, chunk.chunkId, chunk))
  {
  }

  lemma KeyedAfterDrop(chunks: Chunks, id: string)
    requires KeyedById(chunks)
    ensures KeyedById(Drop(chunks, id))
  {
  }

  lemma DropInOrder(p: Params, chunks: Chunks, tf: map<string, multiset<Term>>, df: Counter, docLen: Dict<string, nat>,
                    id: string)
    requires InOrder(p, chunks, tf, df, docLen)
    ensures if id in chunks.at then
              id in tf && InOrder(p, Drop(chunks, id), tf - {id}, Minus(df, Support(tf[id])), Drop(docLen, id))
            else Drop(chunks, id) == chunks
  {
    AgreeDrop(p, chunks, tf, df, docLen, id);
    KeyedAfterDrop(chunks, id);
  }

  class BM25MemoryIndex {
    const p: Params
    var chunks: Chunks
    var tf: map<string, multiset<Term>>
    var df: Counter
    var docLen: Dict<string, nat>
    var avgdl: real

    ghost predicate Valid()
      reads this
    {
      InOrder(p, chunks, tf, df, docLen) && avgdl == MeanLength(docLen)
    }

    constructor (p: Params)
      requires p.Sane()
      ensures Valid() && this.p == p && chunks == Empty()
    {
      this.p := p;
      chunks, tf, df, docLen, avgdl := Empty(), map[], map[], Empty(), 0.0;
    }

    /** src/rag/lexical/bm25_memory.py:29-39 */
    method Upsert(batch: seq<Chunk>)
      requires Valid()
      modifies this
      ensures Valid() && chunks == PutAll(old(chunks), batch)
    {
      UpsertEach(batch);
      RecomputeAvgdl();
    }

    method UpsertEach(batch: seq<Chunk>)
      requires InOrder(p, chunks, tf, df, docLen)
      modifies `chunks, `tf, `df, `docLen
      ensures InOrder(p, chunks, tf, df, docLen)
      ensures chunks == PutAll(old(chunks), batch)
    {
      ghost var end := PutAll(chunks, batch);
      for i := 0 to |batch|
        invariant InOrder(p, chunks, tf, df, docLen)
        invariant PutAll(chunks, batch[i..]) == end
      {
        assert batch[i..][0] == batch[i] && batch[i..][1..] == batch[i + 1..];
        PutInOrder(p, chunks, tf, df, docLen, batch[i]);
        UpsertOne(batch[i]);
      }
    }

    /** The loop body, src/rag/lexical/bm25_memory.py:31-38. */
    method UpsertOne(chunk: Chunk)
      requires chunk.chunkId in chunks.at ==> chunk.chunkId in tf
      modifies `chunks, `tf, `df, `docLen
      ensures chunks == Put(old(chunks), chunk.chunkId, chunk)
      ensures tf == old(tf)[chunk.chunkId := multiset(p.tokenize(chunk.text))]
      ensures docLen == Put(old(docLen), chunk.chunkId, |p.tokenize(chunk.text)|)
      ensures df == Plus(if chunk.chunkId in old(chunks).at then Minus(old(df), Support(old(tf)[chunk.chunkId]))
                         else old(df),
                         Terms(p.tokenize(chunk.text)))
    {
      var id := chunk.chunkId;
      if id in chunks.at {
        RemoveStats(id);
      }
      var tokens := p.tokenize(chunk.text);
      chunks := Put(chunks, id, chunk);
      tf := tf[id := multiset(tokens)];
      docLen := Put(docLen, id, |tokens|);
      AddStats(Terms(tokens));
    }

    method AddStats(terms: set<Term>)
      modifies `df
      ensures df == Plus(old(df), terms)
    {
      var todo := terms;
      while todo != {}
        invariant todo <= terms
        invariant df == Plus(old(df), terms - todo)
        decreases |todo|
      {
        var term :| term in todo;
        df := df[term := (if term in df then df[term] else 0) + 1];
        todo := todo - {term};
      }
      assert terms - todo == terms;
    }

    /** src/rag/lexical/bm25_memory.py:91-95 */
    method RemoveStats(id: string)
      requires id in tf
      modifies `df
      ensures df == Minus(old(df), Support(tf[id]))
    {
      var todo := Support(tf[id]);
      ghost var terms := todo;
      while todo != {}
        invariant todo <= terms
        invariant df == Minus(old(df), terms - todo)
        decreases |todo|
      {
        var term :| term in todo;
        var count := (if term in df then df[term] else 0) - 1;
        df := if count <= 0 then df - {term} else df[term := count];
        todo := todo - {term};
      }
      assert terms - todo == terms;
    }

    /** src/rag/lexical/bm25_memory.py:97-101 */
    method RecomputeAvgdl()
      requires InOrder(p, chunks, tf, df, docLen)
      modifies `avgdl
      ensures Valid()
    {
      if docLen.keys == [] {
        avgdl := 0.0;
      } else {
        avgdl := SumLengths(docLen.keys, docLen.at) as real / |docLen.keys| as real;
      }
    }

    /** src/rag/lexical/bm25_memory.py:68-75 */
    method Delete(ids: seq<string>)
      requires Valid()
      modifies this
      ensures Valid() && chunks == DropAll(old(chunks), ids)
    {
      DeleteEach(ids);
      RecomputeAvgdl();
    }

    method DeleteEach(ids: seq<string>)
      requires InOrder(p, chunks, tf, df, docLen)
      modifies `chunks, `tf, `df, `docLen
      ensures InOrder(p, chunks, tf, df, docLen)
      ensures chunks == DropAll(old(chunks), ids)
    {
      ghost var end := DropAll(chunks, ids);
      for i := 0 to |ids|
        invariant InOrder(p, chunks, tf, df, docLen)
        invariant DropAll(chunks, ids[i..]) == end
      {
        assert ids[i..][0] == ids[i] && ids[i..][1..] == ids[i + 1..];
        DropInOrder(p, chunks, tf, df, docLen, ids[i]);
        DeleteOne(ids[i]);
      }
    }

    method DeleteOne(id: string)
      requires id in chunks.at ==> id in tf
      modifies `chunks, `tf, `df, `docLen
      ensures id !in old(chunks).at ==> chunks == old(chunks) && tf == old(tf) && docLen == old(docLen) && df == old(df)
      ensures id in old(chunks).at ==>
                && chunks == Drop(old(chunks), id) && tf == old(tf) - {id} && docLen == Drop(old(docLen), id)
                && df == Minus(old(df), Support(old(tf)[id]))
    {
      if id in chunks.at {
        RemoveStats(id);
        chunks := Drop(chunks, id);
        tf := tf - {id};
        docLen := Drop(docLen, id);
      }
    }

    /** src/rag/lexical/bm25_memory.py:77-89 */
    method Bm25(query: seq<Term>, id: string, n: nat) returns (score: real)
      requires Valid() && id in chunks.at && n == |chunks.at|
      ensures score == Score(p, chunks, query, id)
    {
      score := 0.0;
      TermStats(p, chunks, tf, df, docLen, id);
      var dl, counts := docLen.at[id], tf[id];
      for i := 0 to |query|
        invariant score == Score(p, chunks, query[..i], id)
      {
        var term := query[i];
        TakeSnoc(query, i);
        ScoreStep(p, chunks, tf, df, docLen, avgdl, query[..i], term, id);
        if term in counts {
          var df := if term in this.df then this.df[term] else 0;
          score := score + Contribution(p, n, df, counts[term], dl, avgdl);
        }
      }
      TakeAll(query, |query|);
    }

    /** src/rag/lexical/bm25_memory.py:41-66 */
    method Search(query: string, topK: int, principal: Principal, indexVersion: Option<string>)
      returns (results: seq<ScoredChunk>)
      requires Valid()
      ensures results == Ranked(AllHits(p, chunks, p.tokenize(query), principal, indexVersion), topK, Lexical)
      ensures forall i :: 0 <= i < |results| ==>
                InReach(principal, results[i].chunk.acl) && OfVersion(indexVersion, results[i].chunk.indexVersion)
      ensures topK >= |chunks.at| ==>
                forall id <- chunks.at :: ShouldFind(p, chunks, id, p.tokenize(query), principal, indexVersion) ==>
                  exists i :: 0 <= i < |results| && results[i].chunk == chunks.at[id]
    {
      var q := p.tokenize(query);
      OnlyInReach(p, chunks, q, topK, principal, indexVersion);
      AllFound(p, chunks, q, topK, principal, indexVersion);
      if q == [] || chunks.keys == [] {
        NoTermsNoHits(p, chunks, chunks.keys, q, principal, indexVersion);
        return [];
      }
      var scores := ScoreAll(q, principal, indexVersion);
      results := Ranked(scores, topK, Lexical);
    }

    /** The scoring loop, src/rag/lexical/bm25_memory.py:52-61. */
    method ScoreAll(q: seq<Term>, principal: Principal, indexVersion: Option<string>)
      returns (scores: seq<Scored<Chunk>>)
      requires Valid()
      ensures scores == AllHits(p, chunks, q, principal, indexVersion)
    {
      scores := [];
      assert chunks.keys[0..] == chunks.keys;
      ghost var all := AllHits(p, chunks, q, principal, indexVersion);
      for i := 0 to |chunks.keys|
        invariant scores + HitsFrom(p, chunks, i, q, principal, indexVersion) == all
      {
        var found := ScoreOne(i, q, principal, indexVersion);
        AppendAssoc(scores, found, HitsFrom(p, chunks, i + 1, q, principal, indexVersion));
        scores := scores + found;
      }
      assert chunks.keys[|chunks.keys|..] == [];
    }

    /** The loop body: the chunk under the `i`-th key, if it passes the filters and scores. */
    method ScoreOne(i: nat, q: seq<Term>, principal: Principal, indexVersion: Option<string>)
      returns (found: seq<Scored<Chunk>>)
      requires Valid() && i < |chunks.keys|
      ensures HitsFrom(p, chunks, i, q, principal, indexVersion) ==
                found + HitsFrom(p, chunks, i + 1, q, principal, indexVersion)
    {
      HitsStep(p, chunks, i, q, principal, indexVersion);
      var id := chunks.keys[i];
      var chunk := chunks.at[id];
      found := [];
      if VersionMatches(indexVersion, chunk.indexVersion) && IsAllowed(principal, chunk.acl) {
        var score := Bm25(q, id, |chunks.keys|);
        if score > 0.0 {
          found := [Scored(score, chunk)];
        }
      }
    }
  }
}
