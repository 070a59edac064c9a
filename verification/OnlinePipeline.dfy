/** src/rag/pipelines/online.py: one question, from cache lookup to stored answer. */
module OnlinePipeline {
  import opened Schemas
  import opened Acl
  import opened Caches
  import opened Grounded
  import opened OnlineHistory
  import Hybrid
  import Fusion
  import VS = VectorStore
  import BM = Bm25

  type Completer = (string, seq<ScoredChunk>) -> Result<string, string>

  /** The parts of retrieval that only look at text. */
  datatype Queries = Queries(
    variants: string -> seq<string>,
    hyde: Option<string -> string>,
    rerank: (string, seq<ScoredChunk>, int) -> seq<ScoredChunk>,
    topK: int,
    rerankTopK: int)

  /** A reranker returns chunks it was given. */
  ghost predicate Reranks(rerank: (string, seq<ScoredChunk>, int) -> seq<ScoredChunk>) {
    forall q, given: seq<ScoredChunk>, k, s: ScoredChunk ::
      s in rerank(q, given, k) ==> exists t: ScoredChunk :: t in given && t.chunk == s.chunk
  }

  /** Every chunk of both indexes. */
  ghost predicate Indexed(items: VS.Items, chunks: BM.Chunks, ever: set<Chunk>) {
    && (forall id <- items.at :: items.at[id].chunk in ever)
    && (forall id <- chunks.at :: chunks.at[id] in ever)
  }

  /** `hyde_document(v) or v`, src/rag/pipelines/online.py:192-195 */
  function DenseVariant(variant: string, hyde: string -> string): string {
    if hyde(variant) != "" then hyde(variant) else variant
  }

  function DenseVariants(variants: seq<string>, hyde: Option<string -> string>): (r: seq<string>)
    ensures |r| == |variants|
  {
    if hyde.None? then variants
    else seq(|variants|, i requires 0 <= i < |variants| => DenseVariant(variants[i], hyde.value))
  }

  lemma RerankedRetrievable(queries: Queries, q: string, found: seq<ScoredChunk>, p: Principal, version: string,
                            ever: set<Chunk>)
    requires Reranks(queries.rerank) && Retrievable(found, p, version, ever)
    ensures Retrievable(queries.rerank(q, found, queries.rerankTopK), p, version, ever)
  {
  }

  lemma FoundRetrievable(found: seq<ScoredChunk>, p: Principal, version: string, items: VS.Items, chunks: BM.Chunks,
                         ever: set<Chunk>)
    requires forall i :: 0 <= i < |found| ==>
               Hybrid.CleanChunk(found[i].chunk, p, Some(version)) && Hybrid.Stored(found[i].chunk, items, chunks)
    requires Indexed(items, chunks, ever)
    ensures Retrievable(found, p, version, ever)
  {
  }

  // ---- Runs, one step at a time ----

  /** What a call works with: the caches, the time, the alias, and itself. */
  datatype Alone = Alone(
    exact: map<Key, Slot<Answer>>,
    near: Buckets<Answer>,
    now: int,
    alias: Option<string>,
    ever: set<Chunk>,
    call: Call)

  ghost function Whole(a: Alone): State {
    State(a.exact, a.near, a.now, a.alias, a.ever, map[0 := a.call])
  }

  ghost predicate Reached(cfg: Config, start: Alone, steps: seq<Step>, a: Alone) {
    Runs(cfg, Whole(start), steps) && After(cfg, Whole(start), steps) == Whole(a)
  }

  lemma Go(cfg: Config, start: Alone, steps: seq<Step>, a: Alone, step: Step, a': Alone)
    requires Reached(cfg, start, steps, a) && Enabled(cfg, Whole(a), step) && Apply(cfg, Whole(a), step) == Whole(a')
    ensures Reached(cfg, start, steps + [step], a')
  {
    RunSnoc(cfg, Whole(start), steps, step);
  }

  ghost function At(a: Alone, stage: Stage): Alone {
    a.(call := a.call.(stage := stage))
  }

  function CallKey(cfg: Config, c: Call): Key {
    KeyOf(cfg, c.principal, c.version, c.query)
  }

  /** What the lookups of src/rag/pipelines/online.py:219-233 answer. */
  ghost predicate Found(cfg: Config, a: Alone, hit: Option<Answer>) {
    var key := CallKey(cfg, a.call);
    var exact := Lookup(a.exact, key, a.now);
    if !cfg.cacheEnabled then hit == None
    else if exact.Some? || !cfg.semanticOn then hit == exact
    else Answers(cfg.sem, a.near, key.scope, a.call.query, hit)
  }

  /** What they leave in the exact cache. */
  function Glanced(cfg: Config, a: Alone): map<Key, Slot<Answer>> {
    if cfg.cacheEnabled then Swept(a.exact, CallKey(cfg, a.call), a.now) else a.exact
  }

  /** Where a call that missed both caches is after generation, src/rag/pipelines/online.py:78-108. */
  function Worked(cfg: Config, route: QueryRoute, scored: seq<ScoredChunk>, completion: Result<string, string>,
                  version: string)
    : (stage: Stage)
    ensures stage.Generated? || stage.Returned?
  {
    if route == Retrieve then AfterComplete(cfg, scored, completion, version) else AfterRoute(route, scored)
  }

  /** What storing leaves, src/rag/pipelines/online.py:109-113. */
  function StoredExact(cfg: Config, a: Alone, answer: Answer): map<Key, Slot<Answer>> {
    Written(a.exact, CallKey(cfg, a.call), answer, cfg.ttl, a.now)
  }

  function StoredNear(cfg: Config, a: Alone, answer: Answer): Buckets<Answer> {
    if cfg.semanticOn then
      var scope := CallKey(cfg, a.call).scope;
      a.near[scope := Caches.Stored(cfg.sem, Bucket(a.near, scope), a.call.query, answer)]
    else a.near
  }

  /** What a call that missed both caches does. */
  ghost function Fresh(cfg: Config, a: Alone, route: QueryRoute, scored: seq<ScoredChunk>,
                       completion: Result<string, string>): Alone
  {
    var stage := Worked(cfg, route, scored, completion, a.call.version);
    if stage.Generated? then
      At(a, Returned(stage.answer)).(exact := StoredExact(cfg, a, stage.answer),
                                     near := StoredNear(cfg, a, stage.answer))
    else At(a, stage)
  }

  /** What a call on its own does, from `a` on: what it answers, and the caches it leaves. */
  ghost function Served(cfg: Config, a: Alone, hit: Option<Answer>, route: QueryRoute, scored: seq<ScoredChunk>,
                        completion: Result<string, string>): Alone
  {
    var looked := a.(exact := Glanced(cfg, a));
    if hit.Some? then At(looked, AfterNear(hit)) else Fresh(cfg, looked, route, scored, completion)
  }

  // ---- Each part of a call is a run ----

  lemma Skipped(cfg: Config, a: Alone)
    requires a.call.stage == Began && !cfg.cacheEnabled
    ensures Enabled(cfg, Whole(a), SkipCaches(0)) && Apply(cfg, Whole(a), SkipCaches(0)) == Whole(At(a, MissedBoth))
    ensures Reached(cfg, a, [], a)
  {
    MovedAlone(a, MissedBoth);
  }

  lemma ExactLooked(cfg: Config, a: Alone)
    requires a.call.stage == Began && cfg.cacheEnabled
    ensures var b := At(a, AfterExact(cfg, Lookup(a.exact, CallKey(cfg, a.call), a.now))).(exact := Glanced(cfg, a));
            Enabled(cfg, Whole(a), LookExact(0)) && Apply(cfg, Whole(a), LookExact(0)) == Whole(b)
    ensures Reached(cfg, a, [], a)
  {
    MovedAlone(a, AfterExact(cfg, Lookup(a.exact, CallKey(cfg, a.call), a.now)));
  }

  lemma LookedIsRun(cfg: Config, a: Alone, hit: Option<Answer>) returns (steps: seq<Step>)
    requires a.call.stage == Began && Found(cfg, a, hit)
    ensures Reached(cfg, a, steps, At(a, AfterNear(hit)).(exact := Glanced(cfg, a)))
  {
    if !cfg.cacheEnabled {
      Skipped(cfg, a);
      Go(cfg, a, [], a, SkipCaches(0), At(a, MissedBoth));
      steps := [] + [SkipCaches(0)];
    } else {
      var exact := Lookup(a.exact, CallKey(cfg, a.call), a.now);
      var b := At(a, AfterExact(cfg, exact)).(exact := Glanced(cfg, a));
      ExactLooked(cfg, a);
      Go(cfg, a, [], a, LookExact(0), b);
      steps := [] + [LookExact(0)];
      if exact.None? && cfg.semanticOn {
        NearLooked(cfg, b, hit);
        Go(cfg, a, steps, b, LookNear(0, hit), At(b, AfterNear(hit)));
        steps := steps + [LookNear(0, hit)];
      }
    }
  }

  lemma MovedAlone(a: Alone, stage: Stage)
    ensures 0 in Whole(a).calls && Moved(Whole(a), 0, stage) == Whole(At(a, stage))
  {
  }

  lemma NearLooked(cfg: Config, a: Alone, hit: Option<Answer>)
    requires a.call.stage == MissedExact && Answers(cfg.sem, a.near, CallKey(cfg, a.call).scope, a.call.query, hit)
    ensures Enabled(cfg, Whole(a), LookNear(0, hit))
            && Apply(cfg, Whole(a), LookNear(0, hit)) == Whole(At(a, AfterNear(hit)))
  {
    MovedAlone(a, AfterNear(hit));
  }

  lemma Routed(cfg: Config, a: Alone, route: QueryRoute, scored: seq<ScoredChunk>)
    requires a.call.stage == MissedBoth && Retrievable(scored, a.call.principal, a.call.version, a.ever)
    ensures var step := TakeRoute(0, route, scored);
            Enabled(cfg, Whole(a), step) && Apply(cfg, Whole(a), step) == Whole(At(a, AfterRoute(route, scored)))
  {
    MovedAlone(a, AfterRoute(route, scored));
  }

  lemma Completed(cfg: Config, a: Alone, completion: Result<string, string>)
    requires a.call.stage.Retrieved?
    ensures var step := Complete(0, completion);
            && Enabled(cfg, Whole(a), step)
            && Apply(cfg, Whole(a), step) ==
                 Whole(At(a, AfterComplete(cfg, a.call.stage.scored, completion, a.call.version)))
  {
    MovedAlone(a, AfterComplete(cfg, a.call.stage.scored, completion, a.call.version));
  }

  lemma WorkedIsRun(cfg: Config, start: Alone, steps: seq<Step>, a: Alone, route: QueryRoute, scored: seq<ScoredChunk>,
                    completion: Result<string, string>)
    returns (steps': seq<Step>)
    requires Reached(cfg, start, steps, a) && a.call.stage == MissedBoth
    requires Retrievable(scored, a.call.principal, a.call.version, a.ever)
    ensures Reached(cfg, start, steps', At(a, Worked(cfg, route, scored, completion, a.call.version)))
  {
    var b := At(a, AfterRoute(route, scored));
    Routed(cfg, a, route, scored);
    Go(cfg, start, steps, a, TakeRoute(0, route, scored), b);
    steps' := steps + [TakeRoute(0, route, scored)];
    if route == Retrieve {
      Completed(cfg, b, completion);
      Go(cfg, start, steps', b, Complete(0, completion), At(b, AfterComplete(cfg, scored, completion, a.call.version)));
      steps' := steps' + [Complete(0, completion)];
    }
  }

  lemma ExactStored(cfg: Config, a: Alone, answer: Answer)
    requires a.call.stage == Generated(answer)
    ensures var b := At(a, AfterStoreExact(cfg, answer)).(exact := StoredExact(cfg, a, answer));
            Enabled(cfg, Whole(a), StoreExact(0)) && Apply(cfg, Whole(a), StoreExact(0)) == Whole(b)
  {
    MovedAlone(a, AfterStoreExact(cfg, answer));
  }

  lemma NearStored(cfg: Config, a: Alone, answer: Answer)
    requires a.call.stage == HalfStored(answer) && cfg.semanticOn
    ensures var b := At(a, Returned(answer)).(near := StoredNear(cfg, a, answer));
            Enabled(cfg, Whole(a), StoreNear(0)) && Apply(cfg, Whole(a), StoreNear(0)) == Whole(b)
  {
    MovedAlone(a, Returned(answer));
  }

  lemma StoredIsRun(cfg: Config, start: Alone, steps: seq<Step>, a: Alone, answer: Answer) returns (steps': seq<Step>)
    requires Reached(cfg, start, steps, a) && a.call.stage == Generated(answer)
    ensures Reached(cfg, start, steps', At(a, Returned(answer))
                      .(exact := StoredExact(cfg, a, answer), near := StoredNear(cfg, a, answer)))
  {
    var b := At(a, AfterStoreExact(cfg, answer)).(exact := StoredExact(cfg, a, answer));
    ExactStored(cfg, a, answer);
    Go(cfg, start, steps, a, StoreExact(0), b);
    steps' := steps + [StoreExact(0)];
    if cfg.semanticOn {
      NearStored(cfg, b, answer);
      Go(cfg, start, steps', b, StoreNear(0), At(b, Returned(answer)).(near := StoredNear(cfg, b, answer)));
      steps' := steps' + [StoreNear(0)];
    }
  }

  /** A call on its own is a run of the history; so what holds of every history holds of it. */
  lemma ServedIsRun(cfg: Config, a: Alone, hit: Option<Answer>, route: QueryRoute, scored: seq<ScoredChunk>,
                    completion: Result<string, string>)
    returns (steps: seq<Step>)
    requires a.call.stage == Began && Found(cfg, a, hit)
    requires Retrievable(scored, a.call.principal, a.call.version, a.ever)
    ensures Reached(cfg, a, steps, Served(cfg, a, hit, route, scored, completion))
    ensures Served(cfg, a, hit, route, scored, completion).call.stage.Returned?
  {
    steps := LookedIsRun(cfg, a, hit);
    if hit.None? {
      var looked := At(a, MissedBoth).(exact := Glanced(cfg, a));
      steps := WorkedIsRun(cfg, a, steps, looked, route, scored, completion);
      var stage := Worked(cfg, route, scored, completion, a.call.version);
      if stage.Generated? {
        steps := StoredIsRun(cfg, a, steps, At(looked, stage), stage.answer);
      }
    }
  }

  /** So a call on its own keeps what the histories keep, and its answer is sound for its caller. */
  lemma ServedSound(cfg: Config, a: Alone, hit: Option<Answer>, route: QueryRoute, scored: seq<ScoredChunk>,
                    completion: Result<string, string>)
    requires a.call.stage == Began && Found(cfg, a, hit)
    requires Retrievable(scored, a.call.principal, a.call.version, a.ever)
    requires Inv(Whole(a))
    ensures var b := Served(cfg, a, hit, route, scored, completion);
            Inv(Whole(b)) && b.call.stage.Returned?
            && Sound(b.call.stage.answer, a.call.principal, a.call.version, a.ever)
  {
    var steps := ServedIsRun(cfg, a, hit, route, scored, completion);
    var b := Served(cfg, a, hit, route, scored, completion);
    RunKeeps(cfg, Whole(a), steps, 0);
    ServedFor(cfg, a, hit, route, scored, completion);
    CallSound(b);
  }

  lemma CallSound(b: Alone)
    requires Inv(Whole(b)) && b.call.stage.Returned?
    ensures Sound(b.call.stage.answer, b.call.principal, b.call.version, b.ever)
  {
    assert SoundCall(Whole(b).calls[0], b.ever);
  }

  lemma ServedFor(cfg: Config, a: Alone, hit: Option<Answer>, route: QueryRoute, scored: seq<ScoredChunk>,
                  completion: Result<string, string>)
    ensures var b := Served(cfg, a, hit, route, scored, completion);
            b.call.principal == a.call.principal && b.call.version == a.call.version && b.ever == a.ever
  {
  }

  class OnlinePipeline {
    const retriever: Hybrid.HybridRetriever
    const cache: MemoryCache<Key, Answer>
    const semantic: SemanticCache<Answer>
    const cfg: Config
    const queries: Queries
    const collectionAlias: string
    const route: string -> QueryRoute

    ghost predicate Valid()
      reads this, retriever, retriever.index, semantic
    {
      retriever.index.Valid() && semantic.Valid() && semantic.sem == cfg.sem && Reranks(queries.rerank)
    }

    constructor (retriever: Hybrid.HybridRetriever, cache: MemoryCache<Key, Answer>, semantic: SemanticCache<Answer>,
                 cfg: Config, queries: Queries, collectionAlias: string, route: string -> QueryRoute)
      requires retriever.index.Valid() && semantic.Valid() && semantic.sem == cfg.sem && Reranks(queries.rerank)
      ensures Valid() && this.retriever == retriever && this.cache == cache && this.semantic == semantic
      ensures this.cfg == cfg && this.queries == queries && this.collectionAlias == collectionAlias
              && this.route == route
    {
      this.retriever, this.cache, this.semantic, this.cfg := retriever, cache, semantic, cfg;
      this.queries, this.collectionAlias, this.route := queries, collectionAlias, route;
    }

    /** src/rag/pipelines/online.py:136-139 */
    function ActiveIndexVersion(): string
      reads this, retriever, retriever.store
    {
      LiveVersion(cfg, retriever.store.ResolveAlias(collectionAlias))
    }

    /** src/rag/pipelines/online.py:180-217 */
    method RetrieveFor(query: string, principal: Principal, version: string, ghost ever: set<Chunk>)
      returns (scored: seq<ScoredChunk>)
      requires Valid() && Indexed(retriever.store.items, retriever.index.chunks, ever)
      ensures Retrievable(scored, principal, version, ever)
    {
      var found := queries.variants(query);
      var variants := if found == [] then [query] else found;
      var candidates := Candidates(variants, DenseVariants(variants, queries.hyde), principal, version, ever);
      RerankedRetrievable(queries, variants[0], candidates, principal, version, ever);
      scored := queries.rerank(variants[0], candidates, queries.rerankTopK);
    }

    method Candidates(variants: seq<string>, dense: seq<string>, principal: Principal, version: string,
                      ghost ever: set<Chunk>)
      returns (found: seq<ScoredChunk>)
      requires retriever.index.Valid() && Indexed(retriever.store.items, retriever.index.chunks, ever)
      requires variants != [] && |dense| == |variants|
      ensures Retrievable(found, principal, version, ever)
    {
      var r := retriever.RetrieveMulti(variants, principal, queries.topK, Some(version), Some(dense));
      found := r.value;
      FoundRetrievable(found, principal, version, retriever.store.items, retriever.index.chunks, ever);
    }

    /** What a call made now works with. */
    ghost function Begun(principal: Principal, query: string, now: int, ever: set<Chunk>): Alone
      reads this, retriever, retriever.store, cache, semantic
    {
      Alone(cache.store, semantic.buckets, now, retriever.store.ResolveAlias(collectionAlias), ever,
            Call(principal, query, ActiveIndexVersion(), Began))
    }

    /** src/rag/pipelines/online.py:219-233 */
    method LookupCache(query: string, principal: Principal, version: string, now: int, ghost a: Alone)
      returns (answer: Option<Answer>)
      requires Valid()
      requires a.exact == cache.store && a.near == semantic.buckets && a.now == now
               && a.call == Call(principal, query, version, Began)
      modifies cache
      ensures Found(cfg, a, answer) && cache.store == Glanced(cfg, a)
    {
      if !cfg.cacheEnabled {
        return None;
      }
      answer := cache.Get(KeyOf(cfg, principal, version, query), now);
      if answer.None? && cfg.semanticOn {
        answer := semantic.Get(query, ScopeOf(cfg, principal, version));
      }
    }

    /** src/rag/pipelines/online.py:78-105: route, retrieve, generate */
    method Work(query: string, principal: Principal, version: string, complete: Completer, ghost ever: set<Chunk>)
      returns (stage: Stage, ghost scored: seq<ScoredChunk>)
      requires Valid() && Indexed(retriever.store.items, retriever.index.chunks, ever)
      ensures Retrievable(scored, principal, version, ever)
      ensures stage == Worked(cfg, route(query), scored, complete(query, scored), version)
    {
      var kind := route(query);
      if kind != Retrieve {
        stage := AnswerEarly(kind);
        return stage, [];
      }
      var found := RetrieveFor(query, principal, version, ever);
      scored := found;
      stage := GenerateFrom(found, complete(query, found), version);
    }

    /** src/rag/pipelines/online.py:79-86 */
    method AnswerEarly(kind: QueryRoute) returns (stage: Stage)
      requires kind != Retrieve
      ensures forall scored :: stage == AfterRoute(kind, scored)
    {
      if kind == Refuse {
        return Returned(RefusedAnswer("empty_query"));
      }
      stage := Returned(GREETING);
    }

    /** src/rag/pipelines/online.py:92-113 */
    method GenerateFrom(found: seq<ScoredChunk>, completion: Result<string, string>, version: string)
      returns (stage: Stage)
      ensures stage == AfterComplete(cfg, found, completion, version)
    {
      var r := Generate(found, completion, cfg.reading);
      if r.Err? {
        return Returned(RefusedAnswer("llm_unavailable"));
      }
      var answer := r.value.(indexVersion := version);
      stage := if cfg.cacheEnabled && !answer.refused then Generated(answer) else Returned(answer);
    }

    /** src/rag/pipelines/online.py:109-113 */
    method Store(query: string, principal: Principal, version: string, answer: Answer, now: int, ghost a: Alone)
      requires Valid()
      requires a.exact == cache.store && a.near == semantic.buckets && a.now == now
      requires a.call.principal == principal && a.call.query == query && a.call.version == version
      modifies cache, semantic
      ensures Valid() && cache.store == StoredExact(cfg, a, answer) && semantic.buckets == StoredNear(cfg, a, answer)
    {
      cache.Set(KeyOf(cfg, principal, version, query), answer, cfg.ttl, now);
      if cfg.semanticOn {
        semantic.Set(query, answer, ScopeOf(cfg, principal, version));
      }
    }

    /** src/rag/pipelines/online.py:78-123: no cache had an answer */
    method AnswerFresh(query: string, principal: Principal, version: string, now: int, complete: Completer,
                       ghost a: Alone)
      returns (answer: Answer, ghost scored: seq<ScoredChunk>)
      requires Valid() && Indexed(retriever.store.items, retriever.index.chunks, a.ever)
      requires a.exact == cache.store && a.near == semantic.buckets && a.now == now
      requires a.call == Call(principal, query, version, Began)
      modifies cache, semantic
      ensures Valid() && Retrievable(scored, principal, version, a.ever)
      ensures At(a, Returned(answer)).(exact := cache.store, near := semantic.buckets) ==
                Fresh(cfg, a, route(query), scored, complete(query, scored))
    {
      var stage;
      stage, scored := Work(query, principal, version, complete, a.ever);
      answer := stage.answer;
      if stage.Generated? {
        Store(query, principal, version, answer, now, a);
      }
    }

    /** src/rag/pipelines/online.py:50-123; `a` is what the call finds, and the indexes and the alias are left alone */
    method Answer(query: string, principal: Principal, now: int, complete: Completer, ghost a: Alone)
      returns (answer: Answer, ghost hit: Option<Answer>, ghost scored: seq<ScoredChunk>)
      requires Valid() && Indexed(retriever.store.items, retriever.index.chunks, a.ever)
      requires a == Begun(principal, query, now, a.ever)
      modifies cache, semantic
      ensures Valid()
      ensures Found(cfg, a, hit) && Retrievable(scored, principal, a.call.version, a.ever)
      ensures At(a, Returned(answer)).(exact := cache.store, near := semantic.buckets) ==
                Served(cfg, a, hit, route(query), scored, complete(query, scored))
    {
      var version := ActiveIndexVersion();
      var cached := LookupCache(query, principal, version, now, a);
      hit, scored := cached, [];
      if cached.Some? {
        answer := cached.value.(cached := true);
        return;
      }
      answer, scored := AnswerFresh(query, principal, version, now, complete, a.(exact := cache.store));
    }
  }
}
