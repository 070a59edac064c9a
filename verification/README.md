# Proofs about the rag service

A Dafny model of the service's chunking, indexing, retrieval, caching, generation and agent loop, with proofs of what
these parts promise together. One module per component, each opening with the source file it follows. Loops and
objects of the source are methods and classes, proved against functions of the old state; the promises are lemmas
about those functions.

- **Chunking** (`Text`, `Segments`, `RecursiveChunker`, `Boundaries`, `MarkdownChunker`, `FixedChunker`). Packing
  loses nothing but separators, and its pieces are the only ones that fit a description which knows nothing of
  packing: longest runs of parts between the first separator that occurs. Recovering spans by greedy search cannot
  fail: the earliest match never runs ahead of where a piece truly lies. Fixed windows cover the text and rebuild it.
- **Lexical, dense and fused retrieval** (`Bm25`, `Relevance`, `VectorStore`, `Ranking`, `Fusion`, `Hybrid`).
  Incremental statistics agree with a count from scratch after any history, which is what makes the `score > 0` filter
  right; rare terms, frequent occurrence and short chunks raise a score; searches return exactly the best eligible
  chunks; fusion computes its sums, and chunks found by both legs come first.
- **Publication** (`IndexRegistry`, `Publication`, `OfflinePipeline`). A state machine of one writer, operators who
  promote versions or roll back while it works, and any number of readers: a reader's version is complete and stays as
  it is as long as only completed versions are promoted, and only then; alias and registry agree exactly when their
  last changes were of one version.
- **Online answers** (`Acl`, `Caches`, `Citations`, `Grounded`, `OnlineHistory`, `OnlineCaching`, `OnlinePipeline`). A
  state machine of interleaved calls over two shared caches: whoever is answered, from wherever, gets an answer sound
  for them and given to their question; every generated answer is cached, and no refusal is.
- **Agent** (`Budgets`, `Evidence`, `ToolRegistry`, `ToolHistory`, `AgentLoop`, `AgentInvariants`, `AgentDialogue`,
  `AgentAnswers`, `AgentRuntime`, `AgentHistory`, `AgentCaching`, `AgentScenes`, `AgentTurns`). The loop against an
  environment that may answer anything and cut any wait short, with the exact reason why each run ends and the exact
  answers it gives; and state machines of overlapping tool calls and turns over the shared caches.
- **Agent evaluation** (`EchoChat`, `ScriptEval`, `EvalRunner`). The loop again, its environment now two scripts.

Conventions. Floating point numbers are `real`. The digests of chunk ids, cache scopes and keys, and canonical JSON,
are taken as injective: a key is the record it hashes. The logarithm is any function that is positive above 1, and
increasing there where rarity is compared; cosine, embedding, tokenizing, marker extraction, redaction, routing, query
variants and number printing are any functions. Time is a clock reading handed in; the deadline is a choice of the
environment at each wait. Dicts list their keys in insertion order, and sorting is stable. Clean names, where a lemma
asks for them, are tenants without `|` and nonempty group names without commas; that is enough for fingerprints to
tell reaches apart, though not the only way (`Acl.BarsInTenants`).

Where the code departs from its own comments the model follows the code. A positive overlap of the recursive chunker
has no effect, since src/rag/chunking/recursive.py:45 takes `end`; a negative one makes the next search start late and
lose pieces (`RecursiveChunker.RecoveryExactly`). The refusal reason `zero_resolvable_citations`, listed in
src/rag/schemas/answer.py:55, cannot come out of the single-pass pipeline. A planner failure reports none of the usage
spent before it (`AgentAnswers.UsageReportedExactly`), and its fallback still runs under the deadline. An empty
evaluation dataset has trajectory rate 0, not 1. An activation of a version the registry does not know flips the alias
all the same, and two activations that overlap can leave alias and registry apart (`Publication.AliasAgreesExactly`).
Rebuilding a live version in place is not safe for its readers (`Publication.SafeWriteExactly`). An agent turn resolves
the alias more than once, so its cached answer can mix versions; it can exactly when some resolution gives another
version than the one the turn is keyed by (`AgentTurns.AgreementExactly`, `AgentTurns.MixedAnswer`). Nothing checks that
a promoted version was completed, and exactly then readers can see an unfinished one (`Publication.PromotionExactly`).

## Model

| member | source | states |
|---|---|---|
| `Text.FindIsEarliest` | src/rag/chunking/recursive.py:29 | a search returns the first place at or after the cursor where the piece occurs, and fails only when there is none |
| `Text.SplitThenJoin` | src/rag/chunking/recursive.py:58 | splitting on a separator loses nothing when the separator is put back, and no part still contains it |
| `Text.StripIdempotent` | src/rag/chunking/markdown_aware.py:53 | stripping twice is stripping once, and leaves nothing exactly for blank text |
| `RecursiveChunker.SplitLossless` | src/rag/chunking/recursive.py:48-75 | unless the text is blank and fits, it is a sequence of pieces and gaps: pieces are nonempty and no longer than the size, each gap is one separator of the list |
| `RecursiveChunker.SplitExactly` | src/rag/chunking/recursive.py:48-75 | the pieces are exactly these: a text that fits is its own piece; a longer one is cut at the first separator that occurs in it, each piece a longest run of parts, and only a part that does not fit is cut further, by the separators left; with no separator the text is tiled |
| `RecursiveChunker.PiecesAreRuns` | src/rag/chunking/recursive.py:58-75 | when every part fits, each piece is a join of consecutive parts by that separator, and one more part would not fit |
| `Boundaries.TouchOnlyInLongRuns` | src/rag/chunking/recursive.py:48-75 | two pieces touch without a separator between them only inside a stretch longer than the size that holds none of the separators |
| `Boundaries.LongSections` | src/rag/chunking/markdown_aware.py:40 | the same two things of a long markdown section |
| `RecursiveChunker.SplitText` | src/rag/chunking/recursive.py:48-75 | the packing recursion returns the pieces of that decomposition, which are cut as `RecursiveChunker.SplitExactly` describes |
| `RecursiveChunker.PackParts` | src/rag/chunking/recursive.py:59-75 | the packing loop over the parts of one split yields exactly the pieces the greedy packer defines |
| `RecursiveChunker.CutWindows` | src/rag/chunking/recursive.py:57 | without a separator left the text is cut into consecutive windows |
| `RecursiveChunker.RecoverSpans` | src/rag/chunking/recursive.py:27-45 | the recovery loop locates every piece from where the last one ended, or behind it by as much as a negative overlap says, numbering chunks from zero with derived ids |
| `RecursiveChunker.ChunkDocument` | src/rag/chunking/recursive.py:14-46 | a document without text gives no chunk; otherwise one chunk for each piece, with located spans |
| `RecursiveChunker.SpanFidelity` | src/rag/chunking/recursive.py:26-45 | when each search starts where the last span ended, none fails; spans are nonempty, ordered, disjoint and exact; all characters but newline, full stop and space lie under a span |
| `RecursiveChunker.RecoveryExactly` | src/rag/chunking/recursive.py:26-45 | no text loses a piece or gets an inexact span exactly when the overlap is not negative |
| `RecursiveChunker.TabsAreLost` | src/rag/chunking/recursive.py:29-45 | with a negative overlap one tab more than fits is such a text: the search for the second piece starts behind it |
| `Segments.LocatedExact` | src/rag/chunking/recursive.py:27-45 | an earliest match never overruns where the piece truly lies, for any text decomposed into pieces and gaps |
| `Segments.FullWeightCovers` | src/rag/chunking/recursive.py:39 | disjoint spans that carry as many non-separator characters as the text leave none of them out |
| `Segments.CoveredOnce` | src/rag/chunking/recursive.py:39 | no character lies under two spans |
| `MarkdownChunker.SpanFidelity` | src/rag/chunking/markdown_aware.py:38-64 | for any ordered partition into sections, the search over the whole text never fails; spans are ordered, disjoint and exact; all characters but whitespace and full stop are covered |
| `MarkdownChunker.RecoveryExactly` | src/rag/chunking/markdown_aware.py:31-64 | the overlap matters to blank texts only, which go to the recursive chunker; none loses a piece exactly when it is not negative |
| `MarkdownChunker.KeptPieces` | src/rag/chunking/markdown_aware.py:30 | dropping blank sections changes no piece |
| `MarkdownChunker.BlankConcat` | src/rag/chunking/markdown_aware.py:31 | no section is left exactly when the whole text is blank, which is when the fallback runs |
| `MarkdownChunker.ChunkSections` | src/rag/chunking/markdown_aware.py:36-65 | the loop over sections emits the pieces of all sections, with one ordinal and one cursor running through |
| `MarkdownChunker.EmitPieces` | src/rag/chunking/markdown_aware.py:41-64 | the loop over the pieces of a section stores stripped text with the unstripped span |
| `MarkdownChunker.ChunkDocument` | src/rag/chunking/markdown_aware.py:18-65 | a whole document: sections, or the recursive chunker when every section is blank |
| `FixedChunker.ChunkDocument` | src/rag/chunking/fixed.py:12-48 | chunks are the windows that are not blank: text is its span slice of at most the size, ordinals are contiguous |
| `FixedChunker.CutWindows` | src/rag/chunking/fixed.py:26-48 | the window loop with its break and continue visits the windows up to the first that reaches the end |
| `FixedChunker.Coverage` | src/rag/chunking/fixed.py:23-48 | with a nonnegative overlap every character that is not whitespace lies in a chunk |
| `FixedChunker.NegativeOverlapLosesText` | src/rag/chunking/fixed.py:23 | with a negative overlap the character behind the first window is lost |
| `FixedChunker.CoverageExactly` | src/rag/chunking/fixed.py:23-48 | no text loses a character exactly when the overlap is not negative |
| `FixedChunker.WindowCount` | src/rag/chunking/fixed.py:26-47 | the number of windows is one plus the rounded-up quotient of the remaining length by the step |
| `FixedChunker.Reconstruction` | src/rag/chunking/fixed.py:26-48 | with no blank window, dropping the overlap from each later chunk rebuilds the text |
| `Acl.ReachIsTenantAndGroups` | src/rag/security/acl.py:6-13 | a caller may see what is of the tenant and, if it lists groups at all, lists one of the caller's; so two callers reach the same documents exactly when tenant and groups agree |
| `Acl.ReachLaws` | src/rag/security/acl.py:6-13 | another tenant's chunk is never shown, one of the tenant without groups always, one that lists a group of the caller's always, one that lists groups but none of the caller's never |
| `Acl.JoiningAdds` | src/rag/security/acl.py:6-13 | joining a group takes nothing away and adds exactly the chunks of the tenant that list it |
| `Acl.FingerprintReadsBack` | src/rag/security/acl.py:16-34 | a clean fingerprint determines tenant and groups |
| `Acl.FingerprintFullyAbstract` | src/rag/security/acl.py:16-34 | for clean names, equal fingerprints and equal reach are the same thing |
| `Acl.BarsInTenants` | src/rag/security/acl.py:16-34 | the same when bars are in tenants and in no group name: clean names are enough, and not the only way |
| `Acl.BarsCollide` | src/rag/security/acl.py:16-34 | a bar in a tenant and one in a group name do not mix: one fingerprint, two reaches |
| `Acl.UncleanNamesCollide` | src/rag/security/acl.py:16-34 | an empty group name breaks that: one fingerprint, two reaches |
| `Bm25.AgreePut` | src/rag/lexical/bm25_memory.py:31-38 | writing a chunk, over an old one or not, keeps the statistics equal to a count from scratch |
| `Bm25.AgreeDrop` | src/rag/lexical/bm25_memory.py:69-74 | deleting a chunk keeps them so, and leaves no zero entry |
| `Bm25.AgreementDetermines` | src/rag/lexical/bm25_memory.py:29-39 | statistics that agree with the same chunks are the same: a batch rebuild changes nothing |
| `Bm25.ReplaySurvivors` | src/rag/lexical/bm25_memory.py:29-75 | after any history of writes and deletes the index holds the last-written chunk of every id not deleted since |
| `Bm25.ReplayPuts` | src/rag/lexical/bm25_memory.py:29-39 | a batch, with repeated ids or not, is the history of its writes one by one |
| `Bm25.ReplayDrops` | src/rag/lexical/bm25_memory.py:68-75 | the same for a batch of deletes |
| `Bm25.RebuildStoresTheSame` | src/rag/lexical/bm25_memory.py:29-39 | writing the surviving chunks into an empty index stores the same chunks in the same order |
| `Bm25.ScorePositive` | src/rag/lexical/bm25_memory.py:77-89 | for k1 >= 0 and b between 0 and 1 a chunk scores above zero exactly when it shares a term with the query |
| `Relevance.RarerScoresHigher` | src/rag/lexical/bm25_memory.py:77-89 | with an increasing log, of two chunks of one length that each hold one query term equally often, the one whose term fewer chunks hold scores higher |
| `Relevance.FrequencyRaises` | src/rag/lexical/bm25_memory.py:77-89 | at equal length, holding a query term more often never lowers the score, and raises it exactly when k1 is positive or the other chunk does not hold the term |
| `Relevance.LengthLowers` | src/rag/lexical/bm25_memory.py:77-89 | with equal frequencies the longer chunk never scores higher, and scores lower exactly when k1 and b are positive |
| `Relevance.AverageOccurrence` | src/rag/lexical/bm25_memory.py:85-88 | one occurrence in a chunk of mean length contributes exactly the rarity of the term |
| `Relevance.MeanLengthIs` | src/rag/lexical/bm25_memory.py:97-101 | the mean length is the number of all tokens over the number of chunks |
| `Bm25.HitsAreEligible` | src/rag/lexical/bm25_memory.py:52-61 | the hits are exactly the version-matching, allowed, term-sharing chunks, each with its score |
| `Bm25.HitsCounted` | src/rag/lexical/bm25_memory.py:52-61 | one hit for each eligible chunk |
| `Bm25.SearchExact` | src/rag/lexical/bm25_memory.py:41-66 | as many results as the smaller of top_k and the eligible chunks, each of another chunk, ranked from 1, scores never rising, all eligible; no omitted eligible chunk scores higher than a returned one |
| `Bm25.BM25MemoryIndex.Upsert` | src/rag/lexical/bm25_memory.py:29-39 | stores the batch in order and keeps the invariant of all five fields |
| `Bm25.BM25MemoryIndex.UpsertOne` | src/rag/lexical/bm25_memory.py:31-38 | one chunk: old terms out of the document frequencies, new terms in |
| `Bm25.BM25MemoryIndex.RemoveStats` | src/rag/lexical/bm25_memory.py:91-95 | each distinct term counts one less, and a term that counts zero is removed |
| `Bm25.BM25MemoryIndex.RecomputeAvgdl` | src/rag/lexical/bm25_memory.py:97-101 | the exact mean length, zero for an empty index |
| `Bm25.BM25MemoryIndex.Delete` | src/rag/lexical/bm25_memory.py:68-75 | drops the ids, ignoring unknown ones, and keeps the invariant |
| `Bm25.BM25MemoryIndex.Bm25` | src/rag/lexical/bm25_memory.py:77-89 | the loop over query tokens computes the reference score from the incremental statistics; what that score orders is said by `Relevance.RarerScoresHigher`, `Relevance.FrequencyRaises` and `Relevance.LengthLowers` |
| `Bm25.BM25MemoryIndex.Search` | src/rag/lexical/bm25_memory.py:41-66 | the ranking of exactly the eligible chunks: all of them of the version and the tenant, for all or for a group of the caller's; and with top_k large enough every such chunk that shares a term |
| `Fusion.ReciprocalRankFusion` | src/rag/retrieval/hybrid.py:14-52 | the dictionary loops give a fusion: totals per id, sorted, numbered; a weights list of the wrong length is the only error |
| `Fusion.TallyOne` | src/rag/retrieval/hybrid.py:35-38 | one vote keeps the dictionaries equal to the sums and best votes so far |
| `Fusion.BestIsBest` | src/rag/retrieval/hybrid.py:37-38 | the chunk kept for an id is that of the vote with the best own score, the first one on a tie |
| `Fusion.FusionExact` | src/rag/retrieval/hybrid.py:40-52 | each id of the union once, scores descending, ranks from 1, each score the sum of w / (k + rank) over its votes |
| `Fusion.OneShare` | src/rag/retrieval/hybrid.py:36 | a list with distinct ids gives an id exactly one share |
| `Fusion.ScoreBound` | src/rag/retrieval/hybrid.py:36 | with nonnegative weights no score exceeds the sum of the weights over k + 1 |
| `Fusion.BothBeatsOne` | src/rag/retrieval/hybrid.py:36 | with equal positive weights and ranks up to k + 1, two shares beat one |
| `Fusion.BothRankFirst` | src/rag/retrieval/hybrid.py:40-52 | so every chunk found by both legs ranks strictly before every chunk found by one |
| `Hybrid.LegsProper` | src/rag/retrieval/hybrid.py:131-145 | each leg has distinct ids and ranks between 1 and top_k |
| `Hybrid.LegsClean` | src/rag/retrieval/hybrid.py:131-153 | every chunk of every leg is stored, allowed for the caller and of the wanted version |
| `Hybrid.FusedClean` | src/rag/retrieval/hybrid.py:157-161 | so the recheck after fusion drops nothing |
| `Hybrid.RetrievalIsClean` | src/rag/retrieval/hybrid.py:157-169 | whatever prefix of the fusion of clean legs is returned, all of it is allowed, of the version, and stored |
| `Hybrid.BothLegsFirst` | src/rag/retrieval/hybrid.py:99-173 | for a retrieval with top_k <= k + 1 and equal positive weights, chunks of both legs come before chunks of one |
| `Hybrid.HeavierLegFirst` | src/rag/retrieval/hybrid.py:154-169 | whatever the weights, what only the dense search found and what only the word search found, at one rank, score by the weight of their own search, and the heavier comes first |
| `Hybrid.HybridRetriever.RetrieveMulti` | src/rag/retrieval/hybrid.py:99-173 | all legs, fused, rechecked and cut; mismatched query lists are the only error; every result is of the version and in the caller's reach, and with top_k large enough everything in reach is returned |
| `Hybrid.AllInReachFound` | src/rag/retrieval/hybrid.py:131-169 | asked for as many results as chunks are stored, a retrieval returns every item in reach, and every chunk that a word search should find |
| `VectorStore.MemoryVectorStore.Upsert` | src/rag/vectordb/memory.py:16-21 | all items stored in order, or an error and no change when the lengths differ |
| `VectorStore.MemoryVectorStore.Search` | src/rag/vectordb/memory.py:23-43 | the ranking of the visible items |
| `VectorStore.MemoryVectorStore.Delete` | src/rag/vectordb/memory.py:45-47 | unknown ids are ignored |
| `VectorStore.MemoryVectorStore.SetAlias` | src/rag/vectordb/memory.py:52-53 | moves one alias and nothing else |
| `VectorStore.DenseHitsVisible` | src/rag/vectordb/memory.py:31-38 | the hits are exactly the visible items, scored |
| `Ranking.RankedOrder` | src/rag/vectordb/memory.py:39-43 | ranks count from 1, scores never rise, and every result is a hit |
| `Ranking.RankedBest` | src/rag/vectordb/memory.py:39-43 | for top_k >= 0 no omitted hit beats a returned one |
| `Collections.SortIsStable` | src/rag/vectordb/memory.py:39 | sorting rearranges, puts higher scores first and keeps the order of ties |
| `IndexRegistry.IndexRegistry.Record` | src/rag/index_registry.py:68-72 | one entry written |
| `IndexRegistry.IndexRegistry.Activate` | src/rag/index_registry.py:74-84 | the version becomes the only active one, or an error and no change when it is unknown |
| `Publication.StepKeepsInv` | src/rag/pipelines/offline.py:53-114 | no step of the job, of an operator who promotes or rolls back to any version, or of a reader changes what a completed version holds in either store; every step keeps the stores in order |
| `Publication.RunKeepsInv` | src/rag/jobs/reindex.py:34-37 | nor does any history of steps, with any number of operators half way through a promotion |
| `Publication.StepKeepsVetted` | src/rag/jobs/reindex.py:34-37 | while only completed versions are promoted, only completed versions are published, held, active or being promoted |
| `Publication.PromotionExactly` | src/rag/jobs/reindex.py:34-37 | from a state in order, readers stay safe after a step, completed versions alone being promoted from then on, exactly when the step promotes no other version |
| `Publication.ReaderSeesCompleteVersion` | src/rag/pipelines/online.py:54 | if promotions so far were of completed versions, a reader that resolved the alias holds a version that is complete in both stores, then and ever after, whatever writer and operators do next |
| `Publication.CompleteMeansEveryChunk` | src/rag/pipelines/offline.py:142-152 | complete: the chunk last written under each id of the build is in both stores, and the ids of that version in either store are those the build names, no others |
| `Publication.DenseSearchStable` | src/rag/vectordb/memory.py:23-43 | the dense output for a completed version is the same before, during and after a build of another |
| `Publication.SameContentSameSearch` | src/rag/vectordb/memory.py:32-43 | dense search of a version depends on the content of that version alone |
| `Publication.AliasAgreesWithRegistry` | src/rag/pipelines/offline.py:106-114 | when no activation overlaps another, none is cut short and none is of an unknown version, the alias is the active version of the registry, which alone has that status if promoted versions were completed |
| `Publication.AliasAgreesExactly` | src/rag/pipelines/offline.py:106-114 | over any history, activations of unknown versions included, the alias is the active version exactly when the last flip and the last registration that the registry took were of the same version; no other version is marked active |
| `Publication.ActivationAgreesExactly` | src/rag/pipelines/offline.py:106-114 | one activation of a version that the registry knows ends in agreement exactly when the last flip between its own flip and its registration, if there was one, was of its version; one of an unknown version, when the alias has gone back to the active version |
| `Publication.OverlapDisagrees` | src/rag/jobs/reindex.py:34-37 | two promotions of different versions, one within the other: both complete, and the alias is the one version, the active version the other |
| `OfflinePipeline.OverlapHappens` | src/rag/pipelines/offline.py:53-114 | such a history exists from an empty installation on |
| `Publication.SafeWriteExactly` | src/rag/schemas/chunk.py:11-18 | storing a chunk in both stores leaves the readers of a version alone exactly when it is of another version, or both hold the same already |
| `Publication.SafeVectorExactly` | src/rag/vectordb/memory.py:16-21 | the same of the dense store |
| `Publication.SafeWordExactly` | src/rag/lexical/bm25_memory.py:29-39 | the same of the lexical store |
| `Publication.RestartExactly` | src/rag/pipelines/offline.py:142-152 | building a version again over what an interrupted build left gives both stores what a build from scratch would, under every id, exactly when the new build names every id left over |
| `OfflinePipeline.OfflinePipeline.Run` | src/rag/pipelines/offline.py:37-104 | chunks of all documents in both stores, the version recorded, and activated with the alias flipped when wanted and not empty |
| `OfflinePipeline.OfflinePipeline.Build` | src/rag/pipelines/offline.py:54-90 | everything before publication leaves the alias alone |
| `OfflinePipeline.OfflinePipeline.EmbedAndIndex` | src/rag/pipelines/offline.py:142-152 | both stores get all chunks |
| `OfflinePipeline.OfflinePipeline.Activate` | src/rag/pipelines/offline.py:106-114 | flips the alias even for a version the registry does not know; alias and registry then agree exactly when it knows it |
| `OfflinePipeline.JobIsAHistory` | src/rag/pipelines/offline.py:53-93 | an undisturbed job is a history of the publication steps, so what holds of histories holds of it |
| `OfflinePipeline.StampedIdsAreDerived` | src/rag/schemas/chunk.py:11-18 | every chunk the chunkers make has an id derived from its index version |
| `OfflinePipeline.ChunksMakeABuild` | src/rag/pipelines/offline.py:71-90 | the chunks of all documents, whichever of the chunkers made those of each, with their embeddings are a build of the version with derived ids |
| `OfflinePipeline.RecursiveStamps` | src/rag/chunking/recursive.py:26-45 | what the recursive chunker promises makes every id derived from the index version |
| `OfflinePipeline.MarkdownStamps` | src/rag/chunking/markdown_aware.py:36-65 | the same of the markdown chunker |
| `OfflinePipeline.FixedStamps` | src/rag/chunking/fixed.py:26-48 | the same of the fixed chunker |
| `OfflinePipeline.RunIsAHistory` | src/rag/pipelines/offline.py:53-93 | so a run over documents is a history of publication steps |
| `Caches.ReadBack` | src/rag/cache/memory.py:12-24 | a value is read back exactly until its time to live has passed; other keys are untouched, and sweeping one entry hides no live one |
| `Caches.MemoryCache.Get` | src/rag/cache/memory.py:12-20 | a live value or none, an expired entry being deleted |
| `Caches.MemoryCache.Set` | src/rag/cache/memory.py:22-24 | one entry written; a time to live of zero means none |
| `Caches.SemanticCache.Get` | src/rag/cache/semantic.py:33-48 | the first nearest entry of the scope if it reaches the threshold, else none |
| `Caches.SemanticCache.Set` | src/rag/cache/semantic.py:50-61 | overwrite in place, or append and evict the oldest; other scopes untouched |
| `Caches.StoredTidy` | src/rag/cache/semantic.py:50-61 | a bucket keeps one entry per query and its size limit, and holds nothing but old entries and the new value |
| `Caches.StoredEvictsOldest` | src/rag/cache/semantic.py:50-61 | an entry of the same query is replaced in its place; else all entries stay in order with the new one last, and a full bucket loses its first |
| `Caches.StoredIsFound` | src/rag/cache/semantic.py:50-61 | the query itself then gets an answer if its vector is near enough to itself, and the stored value if no entry of another query is as near |
| `Citations.CitedExactly` | src/rag/generation/citations.py:20-31 | the keys cited are distinct, each stands behind a marker, and every marker that resolves is cited |
| `Citations.ResolveIsKey` | src/rag/generation/citations.py:22-27 | a marker resolves to itself or to the first key it abbreviates, and to nothing only when it abbreviates none |
| `Citations.ResolveExactly` | src/rag/generation/citations.py:21-27 | a marker that is a key stands for itself, whatever else it abbreviates; any other stands for the first key in order that it abbreviates |
| `Citations.ResolveMarkers` | src/rag/generation/citations.py:20-31 | the marker loop cites each key at its first mention |
| `Citations.ScoredCitationsSound` | src/rag/generation/citations.py:10-34 | every citation is of a retrieved chunk, none twice, and there is one whenever anything was retrieved |
| `Citations.ScoredMarksCited` | src/rag/generation/citations.py:18-33 | every chunk that a marker stands for is cited, and with no such marker the top chunk alone |
| `Citations.ResolveCitations` | src/rag/generation/citations.py:10-34 | the permissive resolver computes these citations |
| `Citations.SourceCitationsSound` | src/rag/generation/citations.py:37-70 | every citation of the strict resolver is of a listed source that a marker of the text stands for, and no ref is cited twice |
| `Citations.SourceMarksCited` | src/rag/generation/citations.py:56-67 | every source that a marker stands for is cited |
| `Citations.ResolveSourceCitations` | src/rag/generation/citations.py:37-70 | the strict resolver computes these, and the lax one falls back to the first source |
| `Grounded.GenerateExactly` | src/rag/generation/grounded.py:25-89 | weak context is always refused, with the reason that fits, and nothing else is once the model answers: an answer is the redacted completion and has citations of retrieved chunks; the reason zero_resolvable_citations never comes about |
| `OnlineHistory.GeneratedSound` | src/rag/pipelines/online.py:89-107 | an answer generated from retrieved chunks is sound for the caller they were retrieved for |
| `OnlineHistory.SoundForScope` | src/rag/cache/keys.py:15-56 | what is sound for the caller who stored it is sound for every caller who shares the scope |
| `OnlineHistory.StepKeepsInv` | src/rag/pipelines/online.py:50-123 | every access of every interleaved call keeps both caches and all calls sound, through expiry, overwriting and eviction |
| `OnlineHistory.EveryAnswerSound` | src/rag/pipelines/online.py:50-123 | any answer returned, fresh or from either cache, cites only indexed chunks that its caller may see, of the version that was live when the call began, and says so |
| `OnlineHistory.BeginsInLastAlias` | src/rag/pipelines/online.py:54 | a call that begins after the alias was set, and before it is set again, is answered in the version it was set to |
| `OnlineHistory.BeginsInDeployment` | src/rag/pipelines/online.py:136-139 | until the alias is set, calls are answered in the version of the deployment, the fallback one first |
| `OnlineCaching.NoRefusalCached` | src/rag/pipelines/online.py:246-249 | whatever happened since the caches were empty, no entry of either is a refusal and no caller was handed one from a cache |
| `OnlineCaching.EveryAnswerCached` | src/rag/pipelines/online.py:109-114 | with caching on, every generated answer that is returned was stored under its own scope and question on the way, and a lookup finds it until it expires |
| `OnlineCaching.EveryAnswerCachedNear` | src/rag/pipelines/online.py:115-116 | and in the semantic cache, when there is one with room for an entry |
| `OnlineCaching.NextCallerHits` | src/rag/pipelines/online.py:231-237 | until it expires or is overwritten it is handed to the next caller of the same reach who asks the same question in the same version |
| `OnlineCaching.ExactHitsAnswer` | src/rag/pipelines/online.py:231-237 | a hit in the exact cache was given to a caller of the same reach, in the same version, to the same question up to normalisation |
| `OnlineCaching.NearHitsAnswer` | src/rag/pipelines/online.py:238-242 | and one in the semantic cache, to a question at least as near as the threshold |
| `OnlinePipeline.ServedIsRun` | src/rag/pipelines/online.py:50-123 | a call on its own is a run of that history |
| `OnlinePipeline.ServedSound` | src/rag/pipelines/online.py:50-123 | so it keeps both caches sound and returns a sound answer |
| `OnlinePipeline.OnlinePipeline.Answer` | src/rag/pipelines/online.py:50-123 | the call finds, retrieves, generates and stores as the history says, leaving indexes and alias alone; what it may store and must store is said by `OnlineCaching.NoRefusalCached` and `OnlineCaching.EveryAnswerCached` |
| `OnlinePipeline.OnlinePipeline.LookupCache` | src/rag/pipelines/online.py:219-233 | exact cache first, then the semantic one; neither when caching is off |
| `OnlinePipeline.OnlinePipeline.RetrieveFor` | src/rag/pipelines/online.py:180-217 | only indexed chunks of the version, visible to the caller, reach generation |
| `OnlinePipeline.OnlinePipeline.Work` | src/rag/pipelines/online.py:78-105 | refusal, greeting or generation from retrieved chunks; an unavailable model becomes a refusal |
| `OnlinePipeline.OnlinePipeline.Store` | src/rag/pipelines/online.py:109-113 | the answer goes to the exact cache, and to the semantic one when there is one |
| `Budgets.BudgetTracker.ChargeStep` | src/rag/agent/budget.py:41-42 | one step more, nothing else |
| `Budgets.BudgetTracker.ChargeToolCalls` | src/rag/agent/budget.py:44-45 | n tool calls more, nothing else |
| `Budgets.BudgetTracker.ChargeCritique` | src/rag/agent/budget.py:47-48 | one critique more, nothing else |
| `Budgets.BudgetTracker.ChargeUsage` | src/rag/agent/budget.py:50-53 | tokens and cost added |
| `Budgets.BudgetTracker.TerminalStop` | src/rag/agent/budget.py:62-78 | stops exactly when one of the five terminal dimensions is used up; critiques are not among them |
| `Budgets.ClampIsLargest` | src/rag/schemas/agent.py:71-80 | the clamped budget is the largest that allows no more than was asked for and no more than the ceiling, in every dimension |
| `Evidence.LedgerHolds` | src/rag/agent/evidence.py:37-51 | after any sequence of sources each ref holds the first of its best observations, and no other ref is there |
| `Evidence.NewOnce` | src/rag/agent/evidence.py:43-51 | each ref is reported as new exactly once, in order |
| `Evidence.NewsConcat` | src/rag/agent/evidence.py:37-51 | two batches report what one would |
| `Evidence.SeenAgain` | src/rag/agent/evidence.py:37-51 | adding again what was seen, in any order and number, changes and reports nothing |
| `Evidence.SourcesExactly` | src/rag/agent/evidence.py:53-55 | the listing is the values of the ledger, strongest first |
| `Evidence.EvidenceLedger.Add` | src/rag/agent/evidence.py:37-51 | merges the batch and returns what is new |
| `Evidence.RenderSources` | src/rag/agent/evidence.py:69-100 | the text is the joined parts, or a placeholder when there is no source |
| `Evidence.CollectParts` | src/rag/agent/evidence.py:83-98 | the rendering loop with its break computes the parts |
| `Evidence.ShowsPrefix` | src/rag/agent/evidence.py:85-98 | a nonempty prefix of the sources is shown, header and start of quote; the note counts the rest, so shown and omitted make up the total |
| `Evidence.ShowsWhatFits` | src/rag/agent/evidence.py:83-98 | sources are shown as long as there is room for a worthwhile quote of the next, each with as much of its quote as both limits leave; the first left out had too little room |
| `Evidence.RenderBound` | src/rag/agent/evidence.py:90-100 | the text keeps to its budget, plus separator and note when something is omitted, exactly when the first header and its newline fit |
| `ToolRegistry.ValidateExactly` | src/rag/agent/tools/registry.py:145-188 | arguments pass, unchanged, exactly when all are declared or extra ones allowed, none required is missing, and each has its type |
| `ToolRegistry.MatchesExactly` | src/rag/agent/tools/registry.py:191-205 | a value has a declared type exactly when one of the types is the name of its own kind; an integer is a number too, a boolean is neither |
| `ToolRegistry.GateExactly` | src/rag/agent/tools/registry.py:73-111 | a call gets past the gates exactly when its tool is one the planner is offered and its arguments are valid |
| `ToolRegistry.ExecutedTruthfully` | src/rag/agent/tools/registry.py:64-142 | with a truthful cache a call returns what it would without one, and leaves a truthful cache |
| `ToolRegistry.CacheIsTransparent` | src/rag/agent/tools/cache.py:19-93 | over any history of calls by any clean callers, results are those without the cache, under the id and name of the call at hand |
| `ToolRegistry.SecondCallHits` | src/rag/agent/tools/registry.py:112-141 | once a tool has answered, the same question from the same reach in the same version is answered so again for the time to live, whatever the tool would do; a failure is not remembered |
| `ToolHistory.InterleavedTransparent` | src/rag/agent/runtime.py:270-290 | however calls of a round or of different turns overlap between lookup, run and store, and whatever leaves the cache meanwhile, every result is the one without the cache, under the id and name of its call |
| `ToolHistory.AloneIsExecuted` | src/rag/agent/tools/registry.py:64-142 | the three accesses of an uninterrupted call give what the whole call gives |
| `ToolRegistry.NoHitPastGates` | src/rag/agent/tools/registry.py:73-111 | whatever is cached, a call that a gate turns away fails the same way and stores nothing |
| `ToolRegistry.Registry.Execute` | src/rag/agent/tools/registry.py:64-142 | gates, lookup, run and store in that order |
| `ToolRegistry.Registry.Register` | src/rag/agent/tools/registry.py:34-38 | a name is registered once |
| `AgentLoop.PairedConcat` | src/rag/agent/runtime.py:153-170 | histories in which every call is answered can be put one after the other |
| `AgentLoop.RowBooksAdd` | src/rag/agent/runtime.py:142-221 | what the rows say adds up to: act and plan rows, critique rows, the tools used, and the sums of tokens and of cost |
| `AgentInvariants.IterateKeeps` | src/rag/agent/runtime.py:97-239 | one iteration, cut short anywhere or not, keeps caps, ledger and prompts in order, and the books short by exactly what the cut left in flight |
| `AgentInvariants.ActKeeps` | src/rag/agent/runtime.py:129-171 | a call list cut to the budget leaves its message unpaired, but uses the budget up |
| `AgentInvariants.PromptsPaired` | src/rag/agent/runtime.py:97-171 | whenever the planner is asked, every assistant message with calls is followed by one reply per call, in order, under its id; and a tool call is left to spend |
| `AgentDialogue.EachRoundIsTold` | src/rag/agent/runtime.py:129-239 | over every run, each prompt adds to the one before the planner's own answer and what came of it: each tool's content or failure under its call, the request for a draft, or the critic's complaints |
| `AgentDialogue.CorrectionSays` | src/rag/agent/runtime.py:226-238 | a correction names everything the critic misses, or else all its reasons |
| `AgentInvariants.BudgetKept` | src/rag/agent/runtime.py:97-239 | steps, tool calls and critiques stay within their caps; rows fall short of what was charged by exactly what was in flight in the last round: nothing, or one planner round with the usage of its answer if it had one, or one critique; they balance exactly when nothing was |
| `AgentInvariants.StopsExactly` | src/rag/agent/runtime.py:97-243 | by the last look at the budget and what planner, tools and critic gave then: critic_exhausted exactly for a draft whose critiques are spent, critic_grounded exactly for an approved one, budget_exhausted exactly when the budget is used up there or a wait is cut; no other round stops the run |
| `AgentInvariants.Overshoot` | src/rag/agent/runtime.py:97-212 | tokens and cost exceed what they were, when no cap was reached yet, by one planner answer and one critique at most |
| `AgentAnswers.OutcomeAgreement` | src/rag/agent/runtime.py:314-420 | for every answer of every run: own answer, stop reason, task success, cache gate and degraded reason agree; fallback and refusal are reported as such |
| `AgentAnswers.UsageReportedExactly` | src/rag/agent/runtime.py:113-124 | over every run, the answer reports what the turn spent, and the fallback on top, exactly when the planner did not fail or nothing had been spent before |
| `AgentAnswers.PlannerFailureDropsUsage` | src/rag/agent/runtime.py:113-124 | a planner that answers once and then fails: whatever the answer cost, no usage is reported |
| `AgentAnswers.FallbackAgreed` | src/rag/agent/runtime.py:355-420 | a fallback or refusal never counts as an answer of the agent, for metric or cache |
| `AgentAnswers.EvidenceIsClean` | src/rag/agent/runtime.py:308 | all evidence came from a successful call of this turn and is the caller's to see, so the last filter removes nothing |
| `AgentAnswers.NoRejectedDraft` | src/rag/agent/runtime.py:173-332 | a shipped draft was approved in its own round or never shown for want of critiques; its citations exist, are distinct, and each resolves a marker to evidence of this turn |
| `AgentAnswers.OwnAnswerExactly` | src/rag/agent/runtime.py:292-332 | the agent answers itself exactly when its last draft was approved or kept unjudged and some marker of it stands for evidence the caller may see; the text is then that draft, and the stop reason says which |
| `AgentAnswers.ExcuseExactly` | src/rag/agent/runtime.py:333-420 | any other answer says whether the planner failed, the budget ran out or nothing was grounded, and is the pipeline's whenever that answers |
| `AgentAnswers.CeilingHolds` | src/rag/agent/runtime.py:73 | whatever budget a request asks for, steps and tool calls stay within the ceiling of the runtime |
| `AgentHistory.RetrievalBringsSound` | src/rag/agent/tools/retrieval.py:62-69 | the retrieval tool brings sources of visible chunks, of the version it resolved |
| `AgentTurns.TurnsCiteEvidence` | src/rag/agent/runtime.py:308-332 | whatever the loop answers itself cites only what the tools of the turn brought and the caller may see |
| `AgentHistory.StepKeepsInv` | src/rag/api/routes/query.py:96-164 | every access of every interleaved turn keeps answer cache, tool cache and turns sound for their callers; and in version, when the step resolves what its turn is committed to |
| `AgentTurns.EveryAgentAnswerSound` | src/rag/api/routes/query.py:96-164 | what the agent answers itself, fresh or cached, cites only indexed chunks its caller may see, wherever the alias goes; and if all starts, retrievals and labels resolved the version they were keyed by, only chunks of the version that was live when this turn began |
| `AgentCaching.EveryOwnAnswerCached` | src/rag/api/routes/query.py:149-164 | with caching on, every answer of the agent's own that is returned was stored under its own key on the way |
| `AgentCaching.HitsAnswer` | src/rag/api/routes/query.py:134-144 | a hit is an answer of the agent's own that was given to a caller of the same reach, in the same version, under the same parameters, to the same question up to normalisation |
| `AgentTurns.AgreementExactly` | src/rag/api/routes/query.py:125-163 | from a state in order, agreeing continuations of a step return sound answers only, exactly when the step agrees: a start or label resolves the version of the answer key, a retrieval that of the tool key, unless that is empty |
| `AgentTurns.AllAgreeExactly` | src/rag/api/routes/query.py:96-164 | a history agrees throughout exactly when no point of it has an agreeing continuation to an unsound answer |
| `AgentTurns.StartWrong` | src/rag/agent/runtime.py:75 | a turn that starts under another version than its key: its first retrieval, agreeing, may lead to an answer of that version |
| `AgentTurns.AskWrong` | src/rag/agent/tools/retrieval.py:66 | a retrieval that resolves another version than its tool key: the turn, or a later one that finds it cached, may cite it |
| `AgentTurns.LabelWrong` | src/rag/agent/runtime.py:422-474 | an own answer labelled with another version than its key |
| `AgentScenes.SaysSo` | src/rag/agent/runtime.py:64-268 | a turn that searches, drafts with a marker and is approved answers itself, under the version then live, and cites what its search brought |
| `AgentTurns.MixedAnswer` | src/rag/api/routes/query.py:125-163 | it happens: one retrieval resolves another version, all else agrees, the turn is a run of the loop that searches, drafts and is approved, and the next caller is handed its answer from the cache, labelled v and citing another version |
| `AgentRuntime.AuthorisedFrom` | src/rag/agent/runtime.py:504-513 | sources of successful calls that the caller may see, in order |
| `AgentRuntime.AgentRuntime.Act` | src/rag/agent/runtime.py:129-171 | the tool branch on tracker, ledger, rows and messages |
| `AgentRuntime.AgentRuntime.Draft` | src/rag/agent/runtime.py:173-239 | the draft branch: a blank draft is sent back, one whose critiques are spent is kept, any other goes to the critic; `AgentInvariants.StopsExactly` says what that makes of a run |
| `AgentRuntime.AgentRuntime.Criticise` | src/rag/agent/runtime.py:205-239 | the critique branch |
| `AgentRuntime.AgentRuntime.Once` | src/rag/agent/runtime.py:97-239 | one iteration of the loop is one transition |
| `AgentRuntime.AgentRuntime.RunLoop` | src/rag/agent/runtime.py:96-239 | the while loop goes through the transitions and ends |
| `AgentRuntime.AgentRuntime.Run` | src/rag/agent/runtime.py:64-268 | under the clamped budget the answer is the one the transitions lead to, and none when an exception escapes |
| `EchoChat.EchoChatLLM.Chat` | src/rag/llm/echo_chat.py:46-79 | the next scripted turn, or an empty one past the end; the cursor advances up to the end |
| `ScriptEval.BuildTrajectory` | src/rag/jobs/agent_eval.py:114-154 | searches, a draft to be rejected and one more search if a correction is expected, then the cited draft |
| `ScriptEval.BuildScripts` | src/rag/jobs/agent_eval.py:62-66 | the scripts of all examples, one after the other |
| `ScriptEval.Play` | src/rag/agent/runtime.py:96-239 | a turn against the two stateful script walkers is a run of the loop, and moves each cursor by what the turn spent |
| `ScriptEval.PlaysItsPart` | src/rag/agent/runtime.py:97-239 | from a script boundary on the loop plays exactly the example's part of both scripts |
| `ScriptEval.PlaysItsPartExactly` | src/rag/jobs/agent_eval.py:114-160 | with tokens, cost and time out of the way it does so if and only if the counted caps leave room |
| `EvalRunner.Run` | src/rag/eval/agent_runner.py:99-129 | the cases, and both cursors carried on from example to example |
| `EvalRunner.GateExactly` | src/rag/eval/agent_runner.py:132-141 | an example passes the gate exactly when its turn used at least as many tools as it says and corrected itself if it says so: one search too few, or no correction, fails it |
| `EvalRunner.PrefixAligned` | src/rag/eval/agent_runner.py:99-129 | after each example both cursors stand at its boundary, and every answer so far has the expected steps, calls and corrections |
| `EvalRunner.ScriptAlignment` | src/rag/jobs/agent_eval.py:62-90 | for a dataset of any length both scripts are used up exactly, every trajectory is right, and the rate is 1 unless the dataset is empty |
| `EvalRunner.RateIsOneExactly` | src/rag/eval/agent_runner.py:61-76 | the trajectory rate is 1 exactly when there are cases and each is right |
| `EvalRunner.RateIsShare` | src/rag/eval/agent_runner.py:61-73 | the rate is the share of cases that passed |

## Left out

- Chunk sizes below 1: src/rag/chunking/registry.py:62 rejects them unless the overlap is negative as well.
- `SemanticChunker`: it rejoins sentences with single spaces, so its spans are approximate.
- Heading, token, marker and redaction patterns: the sections of a markdown text are any ordered partition of it.
- Floating point rounding, and the order in which BM25 adds up repeated terms.
- Concurrency inside one retrieval: the legs of `HybridRetriever.RetrieveMulti` run one after the other; in
  `OnlineHistory` they may see the indexes at different times.
- Lexical scores while another version is built: document frequencies are global, so unlike dense results they may change.
- Records: metadata, embedding model, trace ids, latencies, prompt versions and model names of usage.
- Registry files, YAML, swallowed write errors, ingestion and parsing of documents, and the setting that an empty version
  defaults to.
- The corrupt cache entry that `ToolResultCache.get` and the query route discard: cached values are read back as written.
- `ToolRegistry.CacheIsTransparent`: tools are a function of arguments, reach and index version, so the alias must not
  move during the turn (`AgentTurns.EveryAgentAnswerSound` says what holds when it does); latencies are not modelled,
  and arguments are JSON values, so the serialization check always passes.
- `AgentLoop.ResultsOf`: the tools of a round are any results bound to their calls, as `ToolHistory.InterleavedTransparent`
  shows of the registry.
- `AgentAnswers.OutcomeAgreement`: the pipeline's own answers are assumed well formed, as `OnlineHistory.EveryAnswerSound`
  shows of them; the rendered trace is not modelled.
- `AgentTurns.EveryAgentAnswerSound`: assumes clean names; an empty live version asks for none; entries of either cache
  may go at any time, which stands for their times to live; answers of the fallback pipeline are those of
  `OnlineHistory`; sources that are not chunks, which no tool brings yet, are not tied to anything.
- `AgentTurns.AgreementExactly`: for the direction from disagreement to an unsound answer, a draft can cite any derived
  id, the caps leave room for a search and a critique, and, for a turn whose answer key has an empty version, tool
  results are cached.
- `Publication.StepKeepsInv`: there is one job at a time.
- `Publication.RestartExactly`: compares what is stored under each id; the order of entries, which decides ties, may differ.
  The history itself starts a job only under a version that holds nothing.
- `OnlineHistory.EveryAnswerSound`: assumes clean names and a nonempty live version, since an empty one filters nothing.
- `EvalRunner.ScriptAlignment`: efficiency, precision and cost averages of the report are left out.
- Redis, Qdrant, OpenSearch, OpenAI and cross-encoder adapters, HTTP, authentication, settings, tracing, metrics, retries.
