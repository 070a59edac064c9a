/** src/rag/retrieval/hybrid.py:14-52: reciprocal rank fusion, over real arithmetic. */
module Fusion {
  import opened Schemas
  import opened Collections

  /** One list entry with the weight of its list. */
  datatype Vote = Vote(weight: real, item: ScoredChunk)

  function Id(v: Vote): string {
    v.item.chunk.chunkId
  }

  /** The votes of one list, and of all lists in order. */
  function Votes(weight: real, ranked: seq<ScoredChunk>): seq<Vote> {
    seq(|ranked|, i requires 0 <= i < |ranked| => Vote(weight, ranked[i]))
  }

  function AllVotes(weights: seq<real>, lists: seq<seq<ScoredChunk>>): seq<Vote>
    requires |weights| == |lists|
  {
    if lists == [] then [] else Votes(weights[0], lists[0]) + AllVotes(weights[1..], lists[1..])
  }

  ghost predicate Divisible(k: int, votes: seq<Vote>) {
    forall i :: 0 <= i < |votes| ==> k + votes[i].item.rank != 0
  }

  function Worth(k: int, v: Vote): real
    requires k + v.item.rank != 0
  {
    v.weight * (1.0 / (k + v.item.rank) as real)
  }

  /** The sum of w / (k + rank) over the votes for one id. */
  ghost function Total(k: int, votes: seq<Vote>, id: string): real
    requires Divisible(k, votes)
  {
    if votes == [] then 0.0
    else
      var init, last := votes[..|votes| - 1], votes[|votes| - 1];
      Total(k, init, id) + if Id(last) == id then Worth(k, last) else 0.0
  }

  /** The ids in the order of their first vote. */
  ghost function Ids(votes: seq<Vote>): seq<string> {
    if votes == [] then []
    else
      var before, id := Ids(votes[..|votes| - 1]), Id(votes[|votes| - 1]);
      if id in before then before else before + [id]
  }

  lemma {:induction false} IdsAreTheUnion(votes: seq<Vote>, id: string)
    ensures id in Ids(votes) <==> exists i :: 0 <= i < |votes| && Id(votes[i]) == id
  {
    if votes != [] {
      var init := votes[..|votes| - 1];
      IdsAreTheUnion(init, id);
      if id in Ids(init) {
        var i :| 0 <= i < |init| && Id(init[i]) == id;
        assert Id(votes[i]) == id;
      }
      if exists i :: 0 <= i < |votes| && Id(votes[i]) == id {
        var i :| 0 <= i < |votes| && Id(votes[i]) == id;
        assert i < |init| ==> Id(init[i]) == id;
      }
    }
  }

  /** The vote with the best own score for an id; the first one, on a tie. */
  ghost function Best(votes: seq<Vote>, id: string): Option<ScoredChunk> {
    if votes == [] then None
    else
      var before, item := Best(votes[..|votes| - 1], id), votes[|votes| - 1].item;
      if item.chunk.chunkId == id && (before.None? || item.score > before.value.score) then Some(item) else before
  }

  lemma {:induction false} BestIsAVote(votes: seq<Vote>, id: string)
    ensures Best(votes, id).Some? <==> id in Ids(votes)
    ensures Best(votes, id).Some? ==> Best(votes, id).value.chunk.chunkId == id
                                      && exists i :: 0 <= i < |votes| && votes[i].item == Best(votes, id).value
  {
    if votes != [] {
      BestIsAVote(votes[..|votes| - 1], id);
      if Best(votes, id).Some? {
        var init := votes[..|votes| - 1];
        if Best(votes, id) == Best(init, id) {
          var i :| 0 <= i < |init| && init[i].item == Best(init, id).value;
          assert votes[i].item == Best(votes, id).value;
        } else {
          assert votes[|votes| - 1].item == Best(votes, id).value;
        }
      }
    }
  }

  ghost predicate IsBest(votes: seq<Vote>, id: string, b: int) {
    && 0 <= b < |votes| && Id(votes[b]) == id
    && (forall i :: 0 <= i < |votes| && Id(votes[i]) == id ==> votes[i].item.score <= votes[b].item.score)
    && (forall i :: 0 <= i < b && Id(votes[i]) == id ==> votes[i].item.score < votes[b].item.score)
  }

  lemma BestRemains(init: seq<Vote>, last: Vote, id: string, b: int)
    requires IsBest(init, id, b) && (Id(last) == id ==> last.item.score <= init[b].item.score)
    ensures IsBest(init + [last], id, b) && (init + [last])[b] == init[b]
  {
    var votes := init + [last];
    forall i | 0 <= i < |votes| && Id(votes[i]) == id ensures votes[i].item.score <= votes[b].item.score {
      assert i < |init| ==> votes[i] == init[i];
    }
  }

  lemma BestBeaten(init: seq<Vote>, last: Vote, id: string)
    requires Id(last) == id
    requires forall i :: 0 <= i < |init| && Id(init[i]) == id ==> init[i].item.score < last.item.score
    ensures IsBest(init + [last], id, |init|)
  {
    var votes := init + [last];
    forall i | 0 <= i < |init| && Id(votes[i]) == id ensures votes[i].item.score < votes[|init|].item.score {
      assert votes[i] == init[i];
    }
  }

  /** No vote for the id has a better own score, and none before the chosen one has as good a score. */
  lemma {:induction false} BestIsBest(votes: seq<Vote>, id: string)
    requires Best(votes, id).Some?
    ensures exists b :: 0 <= b < |votes| && IsBest(votes, id, b) && votes[b].item == Best(votes, id).value
  {
    var init, last := votes[..|votes| - 1], votes[|votes| - 1];
    assert votes == init + [last];
    if Best(init, id).None? {
      NoneBest(init, id);
      BestBeaten(init, last, id);
    } else {
      BestIsBest(init, id);
      var b :| 0 <= b < |init| && IsBest(init, id, b) && init[b].item == Best(init, id).value;
      if Id(last) == id && last.item.score > init[b].item.score {
        BestBeaten(init, last, id);
      } else {
        BestRemains(init, last, id, b);
      }
    }
  }

  lemma {:induction false} NoneBest(votes: seq<Vote>, id: string)
    requires Best(votes, id).None?
    ensures forall i :: 0 <= i < |votes| ==> Id(votes[i]) != id
  {
    BestIsAVote(votes, id);
    forall i | 0 <= i < |votes| ensures Id(votes[i]) != id {
      IdsAreTheUnion(votes, id);
    }
  }

  /** The accumulators of the fusion loop: what the dictionaries hold after some votes. */
  ghost predicate Tallied(k: int, votes: seq<Vote>, scores: Dict<string, real>, best: map<string, ScoredChunk>)
    requires Divisible(k, votes)
  {
    && scores.keys == Ids(votes) && best.Keys == scores.at.Keys
    && forall id :: id in scores.at ==> TalliedAt(k, votes, scores.at, best, id)
  }

  ghost predicate TalliedAt(k: int, votes: seq<Vote>, scores: map<string, real>, best: map<string, ScoredChunk>,
                            id: string)
    requires Divisible(k, votes)
  {
    id in scores && id in best && scores[id] == Total(k, votes, id) && Best(votes, id) == Some(best[id])
  }

  /** What the loop body makes of the dictionaries, for one vote. */
  ghost function Scored1(scores: Dict<string, real>, id: string, worth: real): Dict<string, real> {
    Put(scores, id, (if id in scores.at then scores.at[id] else 0.0) + worth)
  }

  ghost function Best1(best: map<string, ScoredChunk>, item: ScoredChunk): map<string, ScoredChunk> {
    var id := item.chunk.chunkId;
    if id !in best || item.score > best[id].score then best[id := item] else best
  }

  lemma TallyKeys(votes: seq<Vote>, scores: Dict<string, real>, best: map<string, ScoredChunk>, v: Vote, worth: real)
    requires scores.keys == Ids(votes) && best.Keys == scores.at.Keys
    ensures Scored1(scores, Id(v), worth).keys == Ids(votes + [v])
    ensures Best1(best, v.item).Keys == Scored1(scores, Id(v), worth).at.Keys == scores.at.Keys + {Id(v)}
  {
    KeyListed(scores, Id(v));
    assert (votes + [v])[..|votes|] == votes;
  }

  lemma TallyOther(k: int, votes: seq<Vote>, scores: Dict<string, real>, best: map<string, ScoredChunk>, v: Vote,
                   other: string)
    requires Divisible(k, votes) && k + v.item.rank != 0 && TalliedAt(k, votes, scores.at, best, other)
             && other != Id(v)
    ensures Divisible(k, votes + [v])
    ensures TalliedAt(k, votes + [v], Scored1(scores, Id(v), Worth(k, v)).at, Best1(best, v.item), other)
  {
    SnocVote(k, votes, v, other);
  }

  lemma TallySame(k: int, votes: seq<Vote>, scores: Dict<string, real>, best: map<string, ScoredChunk>, v: Vote)
    requires Divisible(k, votes) && k + v.item.rank != 0
    requires Id(v) in scores.at ==> TalliedAt(k, votes, scores.at, best, Id(v))
    requires Id(v) !in scores.at ==> Id(v) !in Ids(votes) && Id(v) !in best
    ensures Divisible(k, votes + [v])
    ensures TalliedAt(k, votes + [v], Scored1(scores, Id(v), Worth(k, v)).at, Best1(best, v.item), Id(v))
  {
    SnocVote(k, votes, v, Id(v));
    NoVoteNoTotal(k, votes, Id(v));
    BestIsAVote(votes, Id(v));
  }

  /** One vote, as the loop body counts it. */
  lemma TallyOne(k: int, votes: seq<Vote>, scores: Dict<string, real>, best: map<string, ScoredChunk>, v: Vote)
    requires Divisible(k, votes) && Tallied(k, votes, scores, best) && k + v.item.rank != 0
    ensures Divisible(k, votes + [v])
    ensures Tallied(k, votes + [v], Scored1(scores, Id(v), Worth(k, v)), Best1(best, v.item))
  {
    var id := Id(v);
    KeyListed(scores, id);
    assert id in scores.at ==> TalliedAt(k, votes, scores.at, best, id);
    TallySame(k, votes, scores, best, v);
    TallyKeys(votes, scores, best, v, Worth(k, v));
    var scores', best' := Scored1(scores, id, Worth(k, v)).at, Best1(best, v.item);
    forall other | other in scores'
      ensures TalliedAt(k, votes + [v], scores', best', other)
    {
      if other != id {
        assert TalliedAt(k, votes, scores.at, best, other);
        TallyOther(k, votes, scores, best, v, other);
      }
    }
  }

  lemma SnocVote(k: int, votes: seq<Vote>, v: Vote, id: string)
    requires Divisible(k, votes) && k + v.item.rank != 0
    ensures Divisible(k, votes + [v])
    ensures Ids(votes + [v]) == if Id(v) in Ids(votes) then Ids(votes) else Ids(votes) + [Id(v)]
    ensures Total(k, votes + [v], id) == Total(k, votes, id) + if Id(v) == id then Worth(k, v) else 0.0
    ensures Best(votes + [v], id) ==
              if Id(v) == id && (Best(votes, id).None? || v.item.score > Best(votes, id).value.score) then Some(v.item)
              else Best(votes, id)
  {
    assert (votes + [v])[..|votes|] == votes;
  }

  lemma {:induction false} NoVoteNoTotal(k: int, votes: seq<Vote>, id: string)
    requires Divisible(k, votes)
    ensures id !in Ids(votes) ==> Total(k, votes, id) == 0.0
  {
    if votes != [] {
      NoVoteNoTotal(k, votes[..|votes| - 1], id);
    }
  }

  // ---- The fused ranking ----

  /** Ids with their totals, from the `i`-th id on. */
  ghost function Entries(k: int, votes: seq<Vote>, i: nat): seq<Scored<string>>
    requires Divisible(k, votes) && i <= |Ids(votes)|
    decreases |Ids(votes)| - i
  {
    if i == |Ids(votes)| then []
    else [Scored(Total(k, votes, Ids(votes)[i]), Ids(votes)[i])] + Entries(k, votes, i + 1)
  }

  lemma {:induction false} EntryAt(k: int, votes: seq<Vote>, i: nat, j: nat)
    requires Divisible(k, votes) && i + j < |Ids(votes)|
    ensures j < |Entries(k, votes, i)|
            && Entries(k, votes, i)[j] == Scored(Total(k, votes, Ids(votes)[i + j]), Ids(votes)[i + j])
    decreases j
  {
    if j > 0 {
      EntryAt(k, votes, i + 1, j - 1);
      assert Entries(k, votes, i)[j] == Entries(k, votes, i + 1)[j - 1];
    }
  }

  lemma {:induction false} EntriesSize(k: int, votes: seq<Vote>, i: nat)
    requires Divisible(k, votes) && i <= |Ids(votes)|
    ensures |Entries(k, votes, i)| == |Ids(votes)| - i
    decreases |Ids(votes)| - i
  {
    if i < |Ids(votes)| {
      EntriesSize(k, votes, i + 1);
    }
  }

  lemma EntriesAt(k: int, votes: seq<Vote>)
    requires Divisible(k, votes)
    ensures |Entries(k, votes, 0)| == |Ids(votes)|
    ensures forall j :: 0 <= j < |Ids(votes)| ==>
              Entries(k, votes, 0)[j] == Scored(Total(k, votes, Ids(votes)[j]), Ids(votes)[j])
  {
    EntriesSize(k, votes, 0);
    forall j | 0 <= j < |Ids(votes)|
      ensures Entries(k, votes, 0)[j] == Scored(Total(k, votes, Ids(votes)[j]), Ids(votes)[j])
    {
      EntryAt(k, votes, 0, j);
    }
  }

  /** `r` is the entry `e` at place `i`: the chunk of the best vote for the id, the total, the rank. */
  ghost predicate IsResult(votes: seq<Vote>, e: Scored<string>, i: nat, r: ScoredChunk) {
    && Best(votes, e.item).Some?
    && r == ScoredChunk(Best(votes, e.item).value.chunk, e.score, i + 1, Fused)
  }

  ghost predicate IsFusion(k: int, votes: seq<Vote>, results: seq<ScoredChunk>)
    requires Divisible(k, votes)
  {
    var sorted := SortDesc(Entries(k, votes, 0));
    |results| == |sorted| && forall i :: 0 <= i < |results| ==> IsResult(votes, sorted[i], i, results[i])
  }

  /** src/rag/retrieval/hybrid.py:14-52; the error is the ValueError of line 29 */
  method ReciprocalRankFusion(lists: seq<seq<ScoredChunk>>, k: int, weights: Option<seq<real>>)
    returns (r: Result<seq<ScoredChunk>, string>)
    requires forall i, j :: 0 <= i < |lists| && 0 <= j < |lists[i]| ==> k + lists[i][j].rank != 0
    ensures var w := weights.GetOr(seq(|lists|, _ => 1.0));
            && (r.Ok? <==> |w| == |lists|)
            && (r.Ok? ==> Divisible(k, AllVotes(w, lists)) && IsFusion(k, AllVotes(w, lists), r.value))
  {
    var w := weights.GetOr(seq(|lists|, _ => 1.0));
    if |w| != |lists| {
      return Err("weights length must match ranked_lists");
    }
    AllDivisible(k, w, lists);
    var scores, best := TallyLists(lists, k, w);
    var results := Number(scores, best, k, AllVotes(w, lists));
    r := Ok(results);
  }

  lemma {:induction false} AllDivisible(k: int, weights: seq<real>, lists: seq<seq<ScoredChunk>>)
    requires |weights| == |lists|
    requires forall i, j :: 0 <= i < |lists| && 0 <= j < |lists[i]| ==> k + lists[i][j].rank != 0
    ensures Divisible(k, AllVotes(weights, lists))
  {
    if lists != [] {
      AllDivisible(k, weights[1..], lists[1..]);
    }
  }

  /** The two nested loops, src/rag/retrieval/hybrid.py:33-38. */
  method TallyLists(lists: seq<seq<ScoredChunk>>, k: int, weights: seq<real>)
    returns (scores: Dict<string, real>, best: map<string, ScoredChunk>)
    requires |weights| == |lists| && Divisible(k, AllVotes(weights, lists))
    ensures Tallied(k, AllVotes(weights, lists), scores, best)
  {
    scores, best := Empty(), map[];
    ghost var seen: seq<Vote> := [];
    for i := 0 to |lists|
      invariant Divisible(k, seen) && Tallied(k, seen, scores, best)
      invariant seen + AllVotes(weights[i..], lists[i..]) == AllVotes(weights, lists)
    {
      ghost var rest := AllVotes(weights[i + 1..], lists[i + 1..]);
      assert lists[i..][1..] == lists[i + 1..] && weights[i..][1..] == weights[i + 1..];
      AppendAssoc(seen, Votes(weights[i], lists[i]), rest);
      SubDivisible(k, seen + Votes(weights[i], lists[i]), rest);
      scores, best := TallyList(lists[i], k, weights[i], scores, best, seen);
      seen := seen + Votes(weights[i], lists[i]);
    }
    assert lists[|lists|..] == [] && seen + [] == seen;
  }

  lemma SubDivisible(k: int, a: seq<Vote>, b: seq<Vote>)
    requires Divisible(k, a + b)
    ensures Divisible(k, a) && Divisible(k, b)
  {
    assert forall i :: 0 <= i < |a| ==> a[i] == (a + b)[i];
    assert forall i :: 0 <= i < |b| ==> b[i] == (a + b)[|a| + i];
  }

  /** The inner loop, src/rag/retrieval/hybrid.py:34-38. */
  method TallyList(ranked: seq<ScoredChunk>, k: int, weight: real,
                   scores0: Dict<string, real>, best0: map<string, ScoredChunk>, ghost seen: seq<Vote>)
    returns (scores: Dict<string, real>, best: map<string, ScoredChunk>)
    requires Divisible(k, seen + Votes(weight, ranked)) && Divisible(k, seen) && Tallied(k, seen, scores0, best0)
    ensures Tallied(k, seen + Votes(weight, ranked), scores, best)
  {
    scores, best := scores0, best0;
    ghost var done := seen;
    assert seen + Votes(weight, ranked[..0]) == seen;
    for j := 0 to |ranked|
      invariant done == seen + Votes(weight, ranked[..j])
      invariant Divisible(k, done) && Tallied(k, done, scores, best)
    {
      var vote := Vote(weight, ranked[j]);
      VotesSnoc(k, weight, ranked, j, seen);
      scores, best := CountVote(vote, k, scores, best, done);
      done := done + [vote];
    }
    TakeAll(ranked, |ranked|);
  }

  lemma VotesSnoc(k: int, weight: real, ranked: seq<ScoredChunk>, j: nat, seen: seq<Vote>)
    requires j < |ranked| && Divisible(k, seen + Votes(weight, ranked))
    ensures seen + Votes(weight, ranked[..j + 1]) == seen + Votes(weight, ranked[..j]) + [Vote(weight, ranked[j])]
    ensures k + ranked[j].rank != 0
  {
    assert (seen + Votes(weight, ranked))[|seen| + j] == Vote(weight, ranked[j]);
  }

  /** The loop body, src/rag/retrieval/hybrid.py:35-38. */
  method CountVote(vote: Vote, k: int, scores0: Dict<string, real>, best0: map<string, ScoredChunk>,
                   ghost seen: seq<Vote>)
    returns (scores: Dict<string, real>, best: map<string, ScoredChunk>)
    requires Divisible(k, seen) && Tallied(k, seen, scores0, best0) && k + vote.item.rank != 0
    ensures Divisible(k, seen + [vote]) && Tallied(k, seen + [vote], scores, best)
  {
    TallyOne(k, seen, scores0, best0, vote);
    scores, best := scores0, best0;
    var cid := Id(vote);
    scores := Put(scores, cid, (if cid in scores.at then scores.at[cid] else 0.0) + Worth(k, vote));
    if cid !in best || vote.item.score > best[cid].score {
      best := best[cid := vote.item];
    }
  }

  function Listed(scores: Dict<string, real>, i: nat): seq<Scored<string>>
    requires i <= |scores.keys|
    decreases |scores.keys| - i
  {
    if i == |scores.keys| then []
    else
      KeyAt(scores, i);
      [Scored(scores.at[scores.keys[i]], scores.keys[i])] + Listed(scores, i + 1)
  }

  lemma {:induction false} ListedEntries(k: int, votes: seq<Vote>, scores: Dict<string, real>,
                                         best: map<string, ScoredChunk>, i: nat)
    requires Divisible(k, votes) && Tallied(k, votes, scores, best) && i <= |scores.keys|
    ensures Listed(scores, i) == Entries(k, votes, i)
    decreases |scores.keys| - i
  {
    if i < |scores.keys| {
      KeyAt(scores, i);
      assert TalliedAt(k, votes, scores.at, best, scores.keys[i]);
      ListedEntries(k, votes, scores, best, i + 1);
    }
  }

  /** Sorting and numbering, src/rag/retrieval/hybrid.py:40-52. */
  method Number(scores: Dict<string, real>, best: map<string, ScoredChunk>, k: int, ghost votes: seq<Vote>)
    returns (results: seq<ScoredChunk>)
    requires Divisible(k, votes) && Tallied(k, votes, scores, best)
    ensures IsFusion(k, votes, results)
  {
    var fused := SortDesc(Listed(scores, 0));
    ListedEntries(k, votes, scores, best, 0);
    results := [];
    for rank := 0 to |fused|
      invariant |results| == rank
      invariant forall i :: 0 <= i < rank ==> IsResult(votes, fused[i], i, results[i])
    {
      var e := fused[rank];
      EntryIsTallied(k, votes, scores, best, e);
      results := results + [ScoredChunk(best[e.item].chunk, e.score, rank + 1, Fused)];
    }
  }

  lemma EntryIsTallied(k: int, votes: seq<Vote>, scores: Dict<string, real>, best: map<string, ScoredChunk>,
                       e: Scored<string>)
    requires Divisible(k, votes) && Tallied(k, votes, scores, best) && e in SortDesc(Entries(k, votes, 0))
    ensures e.item in best && Best(votes, e.item) == Some(best[e.item])
  {
    SortKeeps(Entries(k, votes, 0), e);
    EntriesAt(k, votes);
    var j :| 0 <= j < |Entries(k, votes, 0)| && Entries(k, votes, 0)[j] == e;
    KeyAt(scores, j);
    assert TalliedAt(k, votes, scores.at, best, e.item);
  }

  // ---- What the fusion is worth ----

  lemma {:induction false} IdsDistinct(votes: seq<Vote>)
    ensures Distinct(Ids(votes))
  {
    if votes != [] {
      IdsDistinct(votes[..|votes| - 1]);
    }
  }

  lemma EntryIs(k: int, votes: seq<Vote>, e: Scored<string>)
    requires Divisible(k, votes)
    ensures e in Entries(k, votes, 0) <==> e.item in Ids(votes) && e.score == Total(k, votes, e.item)
  {
    var entries := Entries(k, votes, 0);
    EntriesAt(k, votes);
    if e in entries {
      var j :| 0 <= j < |entries| && entries[j] == e;
    }
    if e.item in Ids(votes) && e.score == Total(k, votes, e.item) {
      var j :| 0 <= j < |Ids(votes)| && Ids(votes)[j] == e.item;
      assert entries[j] == e;
    }
  }

  lemma SortedEntries(k: int, votes: seq<Vote>)
    requires Divisible(k, votes)
    ensures var sorted := SortDesc(Entries(k, votes, 0));
            && Descending(sorted)
            && (forall e :: e in sorted ==> e.item in Ids(votes) && e.score == Total(k, votes, e.item))
            && (forall i, j :: 0 <= i < j < |sorted| ==> sorted[i].item != sorted[j].item)
            && (forall id :: id in Ids(votes) ==> Scored(Total(k, votes, id), id) in sorted)
  {
    var entries := Entries(k, votes, 0);
    var sorted := SortDesc(entries);
    SortIsStable(entries);
    forall e
      ensures e in sorted <==> e.item in Ids(votes) && e.score == Total(k, votes, e.item)
    {
      SortKeeps(entries, e);
      EntryIs(k, votes, e);
    }
    SortedDistinct(k, votes);
  }

  lemma SortedDistinct(k: int, votes: seq<Vote>)
    requires Divisible(k, votes)
    ensures Distinct(SortDesc(Entries(k, votes, 0)))
  {
    var entries := Entries(k, votes, 0);
    EntriesAt(k, votes);
    IdsDistinct(votes);
    assert Distinct(entries);
    forall e
      ensures e in SortDesc(entries) <==> e in entries
    {
      SortKeeps(entries, e);
    }
    assert ToSet(SortDesc(entries)) == ToSet(entries);
    ToSetSize(entries);
    ToSetSize(SortDesc(entries));
  }

  /**
   * The result lists every id of the union exactly once, under its exact sum, from best to worst, ranked
   * from 1; and its chunk is one that some list held under that id.
   */
  lemma FusionExact(k: int, votes: seq<Vote>, results: seq<ScoredChunk>)
    requires Divisible(k, votes) && IsFusion(k, votes, results)
    ensures forall i :: 0 <= i < |results| ==>
              results[i].rank == i + 1 && results[i].score == Total(k, votes, results[i].chunk.chunkId)
    ensures forall i, j :: 0 <= i < j < |results| ==>
              results[i].score >= results[j].score && results[i].chunk.chunkId != results[j].chunk.chunkId
    ensures forall i :: 0 <= i < |results| ==> Voted(votes, results[i].chunk)
    ensures forall v :: 0 <= v < |votes| ==> Present(results, Id(votes[v]))
  {
    var sorted := SortDesc(Entries(k, votes, 0));
    SortedEntries(k, votes);
    forall i | 0 <= i < |results|
      ensures results[i].chunk.chunkId == sorted[i].item && Voted(votes, results[i].chunk)
    {
      assert IsResult(votes, sorted[i], i, results[i]);
      BestIsAVote(votes, sorted[i].item);
      var v :| 0 <= v < |votes| && votes[v].item == Best(votes, sorted[i].item).value;
      assert votes[v].item.chunk == results[i].chunk;
    }
    forall v | 0 <= v < |votes|
      ensures Present(results, Id(votes[v]))
    {
      IdsAreTheUnion(votes, Id(votes[v]));
      var e := Scored(Total(k, votes, Id(votes[v])), Id(votes[v]));
      var i :| 0 <= i < |sorted| && sorted[i] == e;
      assert results[i].chunk.chunkId == Id(votes[v]);
    }
  }

  ghost predicate Voted(votes: seq<Vote>, chunk: Chunk) {
    exists v :: 0 <= v < |votes| && votes[v].item.chunk == chunk
  }

  ghost predicate Present(results: seq<ScoredChunk>, id: string) {
    exists i :: 0 <= i < |results| && results[i].chunk.chunkId == id
  }

  lemma {:induction false} TotalConcat(k: int, a: seq<Vote>, b: seq<Vote>, id: string)
    requires Divisible(k, a) && Divisible(k, b)
    ensures Divisible(k, a + b)
    ensures Total(k, a + b, id) == Total(k, a, id) + Total(k, b, id)
  {
    if b == [] {
      assert a + b == a;
    } else {
      var init, last := b[..|b| - 1], b[|b| - 1];
      TotalConcat(k, a, init, id);
      assert a + b == (a + init) + [last];
      SnocVote(k, a + init, last, id);
    }
  }

  ghost predicate Holds(ranked: seq<ScoredChunk>, id: string, rank: int) {
    exists j :: 0 <= j < |ranked| && ranked[j].chunk.chunkId == id && ranked[j].rank == rank
  }

  ghost predicate Lists(ranked: seq<ScoredChunk>, id: string) {
    exists j :: 0 <= j < |ranked| && ranked[j].chunk.chunkId == id
  }

  /** A list as a search returns it: ids once each, ranks between 1 and `most`. */
  ghost predicate ProperList(ranked: seq<ScoredChunk>, most: int) {
    && (forall i, j :: 0 <= i < j < |ranked| ==> ranked[i].chunk.chunkId != ranked[j].chunk.chunkId)
    && (forall j :: 0 <= j < |ranked| ==> 1 <= ranked[j].rank <= most)
  }

  lemma ProperInit(ranked: seq<ScoredChunk>, most: int)
    requires ProperList(ranked, most) && ranked != []
    ensures var init, last := ranked[..|ranked| - 1], ranked[|ranked| - 1];
            && ProperList(init, most) && !Lists(init, last.chunk.chunkId) && 1 <= last.rank <= most
  {
  }

  lemma HoldsInit(ranked: seq<ScoredChunk>, id: string, r: int)
    requires ranked != []
    ensures var init, last := ranked[..|ranked| - 1], ranked[|ranked| - 1];
            Holds(ranked, id, r) <==> Holds(init, id, r) || (last.chunk.chunkId == id && last.rank == r)
  {
    var init, last := ranked[..|ranked| - 1], ranked[|ranked| - 1];
    if Holds(init, id, r) {
      var j :| 0 <= j < |init| && init[j].chunk.chunkId == id && init[j].rank == r;
      assert ranked[j].chunk.chunkId == id && ranked[j].rank == r;
    }
    if Holds(ranked, id, r) {
      var j :| 0 <= j < |ranked| && ranked[j].chunk.chunkId == id && ranked[j].rank == r;
      assert j < |init| ==> init[j].chunk.chunkId == id && init[j].rank == r;
    }
  }

  lemma VotesLast(k: int, weight: real, ranked: seq<ScoredChunk>, id: string)
    requires ranked != [] && k + ranked[|ranked| - 1].rank != 0 && Divisible(k, Votes(weight, ranked[..|ranked| - 1]))
    ensures var init, last := ranked[..|ranked| - 1], Vote(weight, ranked[|ranked| - 1]);
            && Divisible(k, Votes(weight, ranked))
            && Total(k, Votes(weight, ranked), id) ==
                 Total(k, Votes(weight, init), id) + (if Id(last) == id then Worth(k, last) else 0.0)
  {
    var init, last := ranked[..|ranked| - 1], ranked[|ranked| - 1];
    assert Votes(weight, ranked) == Votes(weight, init) + [Vote(weight, last)];
    SnocVote(k, Votes(weight, init), Vote(weight, last), id);
  }

  lemma {:induction false} NoShare(k: nat, weight: real, ranked: seq<ScoredChunk>, most: int, id: string)
    requires ProperList(ranked, most)
    ensures Divisible(k, Votes(weight, ranked))
    ensures !Lists(ranked, id) ==> Total(k, Votes(weight, ranked), id) == 0.0
  {
    if ranked != [] {
      var init, last := ranked[..|ranked| - 1], ranked[|ranked| - 1];
      ProperInit(ranked, most);
      NoShare(k, weight, init, most, id);
      VotesLast(k, weight, ranked, id);
      if !Lists(ranked, id) {
        forall j | 0 <= j < |init|
          ensures init[j].chunk.chunkId != id
        {
          assert ranked[j].chunk.chunkId != id;
        }
      }
    }
  }

  /** One list gives an id at most one share, w / (k + rank). */
  lemma {:induction false} OneShare(k: nat, weight: real, ranked: seq<ScoredChunk>, most: int, id: string, r: int)
    requires ProperList(ranked, most) && Holds(ranked, id, r)
    ensures 1 <= r <= most && Divisible(k, Votes(weight, ranked))
    ensures Total(k, Votes(weight, ranked), id) == weight * (1.0 / (k + r) as real)
  {
    var init, last := ranked[..|ranked| - 1], ranked[|ranked| - 1];
    ProperInit(ranked, most);
    HoldsInit(ranked, id, r);
    NoShare(k, weight, init, most, id);
    VotesLast(k, weight, ranked, id);
    if Holds(init, id, r) {
      OneShare(k, weight, init, most, id, r);
    }
  }

  ghost function Sum(xs: seq<real>): real {
    if xs == [] then 0.0 else xs[0] + Sum(xs[1..])
  }

  lemma ShareBounds(k: nat, weight: real, r: int)
    requires weight >= 0.0 && r >= 1
    ensures 0.0 <= weight * (1.0 / (k + r) as real) <= weight / (k + 1) as real
  {
    var x, y := 1.0 / (k + r) as real, 1.0 / (k + 1) as real;
    Antitone(k + 1, k + r);
    Scale(weight, x, y);
    assert weight / (k + 1) as real == weight * y;
  }

  lemma Antitone(a: int, b: int)
    requires 1 <= a <= b
    ensures 0.0 < 1.0 / b as real <= 1.0 / a as real
    ensures a < b ==> 1.0 / b as real < 1.0 / a as real
  {
  }

  lemma Scale(w: real, x: real, y: real)
    requires w >= 0.0 && 0.0 <= x <= y
    ensures 0.0 <= w * x <= w * y
  {
  }

  lemma HeldOrAbsent(ranked: seq<ScoredChunk>, id: string) returns (rank: int)
    ensures Lists(ranked, id) ==> Holds(ranked, id, rank)
  {
    rank := 0;
    if Lists(ranked, id) {
      var j :| 0 <= j < |ranked| && ranked[j].chunk.chunkId == id;
      rank := ranked[j].rank;
    }
  }

  ghost predicate AllProper(lists: seq<seq<ScoredChunk>>, most: int) {
    forall i :: 0 <= i < |lists| ==> ProperList(lists[i], most)
  }

  /**
   * What one leg can give: nothing to an id it does not list, at most w / (k + 1), and more than half of that up
   * to rank k + 1.
   */
  lemma LegBound(k: nat, w: real, ranked: seq<ScoredChunk>, most: int, id: string)
    requires w >= 0.0 && ProperList(ranked, most)
    ensures Divisible(k, Votes(w, ranked))
    ensures 0.0 <= Total(k, Votes(w, ranked), id) <= w / (k + 1) as real
    ensures !Lists(ranked, id) ==> Total(k, Votes(w, ranked), id) == 0.0
    ensures Lists(ranked, id) && w > 0.0 && most <= k + 1 ==> 2.0 * Total(k, Votes(w, ranked), id) > w / (k + 1) as real
  {
    NoShare(k, w, ranked, most, id);
    var r := HeldOrAbsent(ranked, id);
    if Lists(ranked, id) {
      OneShare(k, w, ranked, most, id, r);
      ShareBounds(k, w, r);
      if w > 0.0 && most <= k + 1 {
        HalfShare(k, w, r);
      }
    } else {
      ShareBounds(k, w, 1);
    }
  }

  /** No score exceeds the sum of the weights over k + 1. */
  lemma {:induction false} ScoreBound(k: nat, weights: seq<real>, lists: seq<seq<ScoredChunk>>, most: int, id: string)
    requires |weights| == |lists| && AllProper(lists, most)
    requires forall i :: 0 <= i < |weights| ==> weights[i] >= 0.0
    ensures Divisible(k, AllVotes(weights, lists))
    ensures 0.0 <= Total(k, AllVotes(weights, lists), id) <= Sum(weights) / (k + 1) as real
  {
    if lists != [] {
      ScoreBound(k, weights[1..], lists[1..], most, id);
      LegBound(k, weights[0], lists[0], most, id);
      TotalConcat(k, Votes(weights[0], lists[0]), AllVotes(weights[1..], lists[1..]), id);
      SplitQuotient(weights[0], Sum(weights[1..]), k + 1);
    }
  }

  lemma SplitQuotient(a: real, b: real, n: int)
    requires n >= 1
    ensures (a + b) / n as real == a / n as real + b / n as real
  {
  }

  /** Two legs with the same positive weight, cut at rank k + 1: being found by both beats being found by one. */
  lemma BothBeatsOne(k: nat, w: real, a: seq<ScoredChunk>, b: seq<ScoredChunk>, both: string, one: string)
    requires w > 0.0 && ProperList(a, k + 1) && ProperList(b, k + 1)
    requires Lists(a, both) && Lists(b, both)
    requires !(Lists(a, one) && Lists(b, one))
    ensures Divisible(k, AllVotes([w, w], [a, b]))
    ensures Total(k, AllVotes([w, w], [a, b]), both) > Total(k, AllVotes([w, w], [a, b]), one)
  {
    TwoLegs(w, w, a, b);
    LegBound(k, w, a, k + 1, both);
    LegBound(k, w, b, k + 1, both);
    LegBound(k, w, a, k + 1, one);
    LegBound(k, w, b, k + 1, one);
    TotalConcat(k, Votes(w, a), Votes(w, b), both);
    TotalConcat(k, Votes(w, a), Votes(w, b), one);
  }

  lemma TwoLegs(v: real, w: real, a: seq<ScoredChunk>, b: seq<ScoredChunk>)
    ensures AllVotes([v, w], [a, b]) == Votes(v, a) + Votes(w, b)
  {
    assert [a, b][1..] == [b] && [v, w][1..] == [w];
    assert [b][1..] == [] && [w][1..] == [];
    assert AllVotes([w], [b]) == Votes(w, b) + [];
  }

  /** A share at a rank up to k + 1 is more than half of the share at rank 1. */
  lemma HalfShare(k: nat, w: real, r: int)
    requires w > 0.0 && 1 <= r <= k + 1
    ensures 2.0 * (w * (1.0 / (k + r) as real)) > w / (k + 1) as real
  {
    var x, y := 1.0 / (k + r) as real, 1.0 / (k + 1) as real;
    Antitone(k + r, 2 * k + 2);
    Antitone(k + r, 2 * k + 1);
    Antitone(2 * k + 1, 2 * k + 2);
    var h := 1.0 / (2 * k + 2) as real;
    HalfOf(k + 1);
    assert x > h && y == 2.0 * h;
    ScaleStrict(w, h, x);
    assert w / (k + 1) as real == w * y;
    assert w * y == 2.0 * (w * h);
  }

  lemma HalfOf(n: int)
    requires n >= 1
    ensures 1.0 / n as real == 2.0 * (1.0 / (2 * n) as real)
  {
  }

  lemma ScaleStrict(w: real, x: real, y: real)
    requires w > 0.0 && x < y
    ensures w * x < w * y
  {
  }

  /** The share of one vote at rank `r`. */
  function Share(k: nat, w: real, r: int): real
    requires r >= 1
  {
    w * (1.0 / (k + r) as real)
  }

  /** What only the first of two legs found scores by its weight, and what only the second found by its own. */
  lemma OneLegShares(k: nat, v: real, w: real, a: seq<ScoredChunk>, b: seq<ScoredChunk>, most: int, first: string,
                     second: string, r: int)
    requires ProperList(a, most) && ProperList(b, most)
    requires r >= 1 && Holds(a, first, r) && !Lists(b, first) && Holds(b, second, r) && !Lists(a, second)
    ensures Divisible(k, AllVotes([v, w], [a, b]))
    ensures Total(k, AllVotes([v, w], [a, b]), first) == Share(k, v, r)
    ensures Total(k, AllVotes([v, w], [a, b]), second) == Share(k, w, r)
  {
    TwoLegs(v, w, a, b);
    OneShare(k, v, a, most, first, r);
    OneShare(k, w, b, most, second, r);
    NoShare(k, w, b, most, first);
    NoShare(k, v, a, most, second);
    TotalConcat(k, Votes(v, a), Votes(w, b), first);
    TotalConcat(k, Votes(v, a), Votes(w, b), second);
  }

  lemma HeavierScoresMore(k: nat, r: int, v: real, w: real)
    requires r >= 1
    ensures v > w ==> Share(k, v, r) > Share(k, w, r)
    ensures v < w ==> Share(k, v, r) < Share(k, w, r)
  {
    var share := 1.0 / (k + r) as real;
    Antitone(k + r, k + r);
    if v > w {
      ScaleStrict(share, w, v);
    }
    if v < w {
      ScaleStrict(share, v, w);
    }
  }

  lemma HigherFirst(k: int, votes: seq<Vote>, results: seq<ScoredChunk>, i: nat, j: nat)
    requires Divisible(k, votes) && IsFusion(k, votes, results) && i < |results| && j < |results|
    ensures results[i].score == Total(k, votes, results[i].chunk.chunkId)
    ensures results[i].score > results[j].score ==> i < j
  {
    FusionExact(k, votes, results);
  }

  /** In the fused list, the finding of the heavier leg stands before that of the lighter one at the same rank. */
  lemma HeavierRanksFirst(k: nat, v: real, w: real, a: seq<ScoredChunk>, b: seq<ScoredChunk>, most: int,
                          results: seq<ScoredChunk>, i: nat, j: nat, r: int)
    requires ProperList(a, most) && ProperList(b, most) && i < |results| && j < |results| && r >= 1
    requires Divisible(k, AllVotes([v, w], [a, b])) && IsFusion(k, AllVotes([v, w], [a, b]), results)
    requires Holds(a, results[i].chunk.chunkId, r) && !Lists(b, results[i].chunk.chunkId)
    requires Holds(b, results[j].chunk.chunkId, r) && !Lists(a, results[j].chunk.chunkId)
    ensures results[i].score == Share(k, v, r) && results[j].score == Share(k, w, r)
    ensures (v > w ==> i < j) && (v < w ==> j < i)
  {
    var votes := AllVotes([v, w], [a, b]);
    OneLegShares(k, v, w, a, b, most, results[i].chunk.chunkId, results[j].chunk.chunkId, r);
    HigherFirst(k, votes, results, i, j);
    HigherFirst(k, votes, results, j, i);
    HeavierScoresMore(k, r, v, w);
  }

  /** In the fused list, every chunk found by both legs stands before every chunk found by one. */
  lemma BothRankFirst(k: nat, w: real, a: seq<ScoredChunk>, b: seq<ScoredChunk>, results: seq<ScoredChunk>, i: nat,
                      j: nat)
    requires w > 0.0 && ProperList(a, k + 1) && ProperList(b, k + 1)
    requires Divisible(k, AllVotes([w, w], [a, b])) && IsFusion(k, AllVotes([w, w], [a, b]), results)
    requires i < |results| && j < |results|
    requires Lists(a, results[i].chunk.chunkId) && Lists(b, results[i].chunk.chunkId)
    requires !(Lists(a, results[j].chunk.chunkId) && Lists(b, results[j].chunk.chunkId))
    ensures results[i].rank < results[j].rank && results[i].score > results[j].score
  {
    FusionExact(k, AllVotes([w, w], [a, b]), results);
    BothBeatsOne(k, w, a, b, results[i].chunk.chunkId, results[j].chunk.chunkId);
  }
}
