/**
 * Every interleaved history of src/rag/pipelines/online.py:50-123: callers come and go, the alias moves, the indexes
 * change, cache entries are written, overwritten, evicted and expire. Each step below is one access to shared state.
 */
module OnlineHistory {
  import opened Schemas
  import opened Acl
  import opened Caches
  import opened Citations
  import opened Grounded
  import Hybrid

  datatype Config = Config(
    cacheEnabled: bool,
    semanticOn: bool,
    ttl: Option<int>,
    promptVersion: string,
    params: Params,
    sem: Semantics,
    reading: Reading,
    fallbackVersion: Option<string>,
    indexVersion: string)

  datatype QueryRoute = Refuse | Chitchat | Retrieve

  datatype Stage =
    | Began
    | MissedExact
    | MissedBoth
    | Retrieved(scored: seq<ScoredChunk>)
    | Generated(answer: Answer)
    | HalfStored(answer: Answer)
    | Returned(answer: Answer)

  datatype Call = Call(principal: Principal, query: string, version: string, stage: Stage)

  /** `ever` is every chunk that was ever indexed. */
  datatype State = State(
    exact: map<Key, Slot<Answer>>,
    near: Buckets<Answer>,
    now: int,
    alias: Option<string>,
    ever: set<Chunk>,
    calls: map<nat, Call>)

  datatype Step =
    | Tick(now: int)
    | SetAlias(version: string)
    | Index(chunks: set<Chunk>)
    | Begin(id: nat, principal: Principal, query: string)
    | SkipCaches(id: nat)
    | LookExact(id: nat)
    | LookNear(id: nat, found: Option<Answer>)
    | TakeRoute(id: nat, route: QueryRoute, scored: seq<ScoredChunk>)
    | Complete(id: nat, completion: Result<string, string>)
    | StoreExact(id: nat)
    | StoreNear(id: nat)

  /** `resolved or fallback or settings.index_version`, src/rag/pipelines/online.py:136-139 */
  function LiveVersion(cfg: Config, alias: Option<string>): string {
    if alias.GetOr("") != "" then alias.value
    else if cfg.fallbackVersion.GetOr("") != "" then cfg.fallbackVersion.value
    else cfg.indexVersion
  }

  function ScopeOf(cfg: Config, p: Principal, version: string): Scope {
    CacheScope(p, version, cfg.promptVersion, cfg.params)
  }

  function KeyOf(cfg: Config, p: Principal, version: string, query: string): Key {
    Key(ScopeOf(cfg, p, version), cfg.sem.normalize(query))
  }

  /** What retrieval gives: chunks that are indexed, visible to the caller and of the version asked for. */
  ghost predicate Retrievable(scored: seq<ScoredChunk>, p: Principal, version: string, ever: set<Chunk>) {
    forall s <- scored :: s.chunk in ever && Hybrid.CleanChunk(s.chunk, p, Some(version))
  }

  // ---- What one access does to a call ----

  function AfterExact(cfg: Config, hit: Option<Answer>): Stage {
    if hit.Some? then Returned(hit.value.(cached := true))
    else if cfg.semanticOn then MissedExact
    else MissedBoth
  }

  function AfterNear(found: Option<Answer>): Stage {
    if found.Some? then Returned(found.value.(cached := true)) else MissedBoth
  }

  const GREETING := Answer("Hello. Ask me a question about the indexed documents.", [], false, None, "", false)

  function AfterRoute(route: QueryRoute, scored: seq<ScoredChunk>): Stage {
    match route
    case Refuse => Returned(RefusedAnswer("empty_query"))
    case Chitchat => Returned(GREETING)
    case Retrieve => Retrieved(scored)
  }

  function AfterComplete(cfg: Config, scored: seq<ScoredChunk>, completion: Result<string, string>, version: string)
    : Stage
  {
    var r := Generate(scored, completion, cfg.reading);
    if r.Err? then Returned(RefusedAnswer("llm_unavailable"))
    else
      var a := r.value.(indexVersion := version);
      if cfg.cacheEnabled && !a.refused then Generated(a) else Returned(a)
  }

  function AfterStoreExact(cfg: Config, a: Answer): Stage {
    if cfg.semanticOn then HalfStored(a) else Returned(a)
  }

  // ---- The steps ----

  ghost predicate Enabled(cfg: Config, s: State, step: Step) {
    match step
    case Tick(now) => s.now <= now
    case SetAlias(version) => true
    case Index(chunks) => true
    case Begin(id, p, query) => id !in s.calls && Clean(p) && LiveVersion(cfg, s.alias) != ""
    case SkipCaches(id) => id in s.calls && s.calls[id].stage == Began && !cfg.cacheEnabled
    case LookExact(id) => id in s.calls && s.calls[id].stage == Began && cfg.cacheEnabled
    case LookNear(id, found) =>
      && id in s.calls && s.calls[id].stage == MissedExact
      && Answers(cfg.sem, s.near, ScopeOf(cfg, s.calls[id].principal, s.calls[id].version), s.calls[id].query, found)
    case TakeRoute(id, route, scored) =>
      && id in s.calls && s.calls[id].stage == MissedBoth
      && Retrievable(scored, s.calls[id].principal, s.calls[id].version, s.ever)
    case Complete(id, completion) => id in s.calls && s.calls[id].stage.Retrieved?
    case StoreExact(id) => id in s.calls && s.calls[id].stage.Generated?
    case StoreNear(id) => id in s.calls && s.calls[id].stage.HalfStored?
  }

  ghost function Moved(s: State, id: nat, stage: Stage): State
    requires id in s.calls
  {
    s.(calls := s.calls[id := s.calls[id].(stage := stage)])
  }

  ghost function Apply(cfg: Config, s: State, step: Step): State
    requires Enabled(cfg, s, step)
  {
    match step
    case Tick(now) => s.(now := now)
    case SetAlias(version) => s.(alias := Some(version))
    case Index(chunks) => s.(ever := s.ever + chunks)
    case Begin(id, p, query) => s.(calls := s.calls[id := Call(p, query, LiveVersion(cfg, s.alias), Began)])
    case SkipCaches(id) => Moved(s, id, MissedBoth)
    case LookExact(id) =>
      var c := s.calls[id];
      var key := KeyOf(cfg, c.principal, c.version, c.query);
      Moved(s, id, AfterExact(cfg, Lookup(s.exact, key, s.now))).(exact := Swept(s.exact, key, s.now))
    case LookNear(id, found) => Moved(s, id, AfterNear(found))
    case TakeRoute(id, route, scored) => Moved(s, id, AfterRoute(route, scored))
    case Complete(id, completion) =>
      Moved(s, id, AfterComplete(cfg, s.calls[id].stage.scored, completion, s.calls[id].version))
    case StoreExact(id) =>
      var c := s.calls[id];
      var key := KeyOf(cfg, c.principal, c.version, c.query);
      Moved(s, id, AfterStoreExact(cfg, c.stage.answer))
        .(exact := Written(s.exact, key, c.stage.answer, cfg.ttl, s.now))
    case StoreNear(id) =>
      var c := s.calls[id];
      var scope := ScopeOf(cfg, c.principal, c.version);
      Moved(s, id, Returned(c.stage.answer))
        .(near := s.near[scope := Caches.Stored(cfg.sem, Bucket(s.near, scope), c.query, c.stage.answer)])
  }

  const INIT := State(map[], map[], 0, None, {}, map[])

  ghost predicate Runs(cfg: Config, s: State, steps: seq<Step>)
    decreases |steps|
  {
    steps == [] || (Enabled(cfg, s, steps[0]) && Runs(cfg, Apply(cfg, s, steps[0]), steps[1..]))
  }

  ghost function After(cfg: Config, s: State, steps: seq<Step>): State
    requires Runs(cfg, s, steps)
    decreases |steps|
  {
    if steps == [] then s else After(cfg, Apply(cfg, s, steps[0]), steps[1..])
  }

  // ---- Soundness of an answer, and of what is cached ----

  /** The citation is of a chunk that was indexed, in version `v`, and that the caller may see. */
  ghost predicate Backed(c: Citation, p: Principal, v: string, ever: set<Chunk>) {
    exists s: ScoredChunk :: && s.chunk in ever && IsAllowed(p, s.chunk.acl) && s.chunk.indexVersion == v
                             && c == CitationFromScored(s)
  }

  ghost predicate Sound(a: Answer, p: Principal, v: string, ever: set<Chunk>) {
    && WellFormed(a)
    && (forall c <- a.citations :: Backed(c, p, v, ever))
    && (a.citations != [] ==> a.indexVersion == v)
  }

  /** Sound for whoever may be handed it: every caller whose fingerprint is in the scope. */
  ghost predicate SoundFor(scope: Scope, a: Answer, ever: set<Chunk>) {
    forall p :: Clean(p) && Fingerprint(p) == scope.acl ==> Sound(a, p, scope.indexVersion, ever)
  }

  ghost predicate SoundStage(stage: Stage, p: Principal, v: string, ever: set<Chunk>) {
    match stage
    case Retrieved(scored) => Retrievable(scored, p, v, ever)
    case Generated(a) => Sound(a, p, v, ever)
    case HalfStored(a) => Sound(a, p, v, ever)
    case Returned(a) => Sound(a, p, v, ever)
    case _ => true
  }

  ghost predicate SoundCall(c: Call, ever: set<Chunk>) {
    Clean(c.principal) && c.version != "" && SoundStage(c.stage, c.principal, c.version, ever)
  }

  ghost predicate SoundExact(exact: map<Key, Slot<Answer>>, ever: set<Chunk>) {
    forall k <- exact :: SoundFor(k.scope, exact[k].value, ever)
  }

  ghost predicate SoundBucket(scope: Scope, bucket: seq<Entry<Answer>>, ever: set<Chunk>) {
    forall e <- bucket :: SoundFor(scope, e.value, ever)
  }

  ghost predicate SoundNear(near: Buckets<Answer>, ever: set<Chunk>) {
    forall scope <- near :: SoundBucket(scope, near[scope], ever)
  }

  ghost predicate Inv(s: State) {
    && SoundExact(s.exact, s.ever)
    && SoundNear(s.near, s.ever)
    && forall id <- s.calls :: SoundCall(s.calls[id], s.ever)
  }

  // ---- More chunks never make an answer unsound ----

  lemma SoundGrows(a: Answer, p: Principal, v: string, ever: set<Chunk>, ever': set<Chunk>)
    requires Sound(a, p, v, ever) && ever <= ever'
    ensures Sound(a, p, v, ever')
  {
    forall c | c in a.citations
      ensures Backed(c, p, v, ever')
    {
      assert Backed(c, p, v, ever);
    }
  }

  lemma SoundForGrows(scope: Scope, a: Answer, ever: set<Chunk>, ever': set<Chunk>)
    requires SoundFor(scope, a, ever) && ever <= ever'
    ensures SoundFor(scope, a, ever')
  {
    forall p | Clean(p) && Fingerprint(p) == scope.acl
      ensures Sound(a, p, scope.indexVersion, ever')
    {
      SoundGrows(a, p, scope.indexVersion, ever, ever');
    }
  }

  lemma SoundCallGrows(c: Call, ever: set<Chunk>, ever': set<Chunk>)
    requires SoundCall(c, ever) && ever <= ever'
    ensures SoundCall(c, ever')
  {
    if c.stage.Generated? || c.stage.HalfStored? || c.stage.Returned? {
      SoundGrows(c.stage.answer, c.principal, c.version, ever, ever');
    }
  }

  lemma InvGrows(s: State, chunks: set<Chunk>)
    requires Inv(s)
    ensures Inv(s.(ever := s.ever + chunks))
  {
    var ever' := s.ever + chunks;
    forall k | k in s.exact
      ensures SoundFor(k.scope, s.exact[k].value, ever')
    {
      SoundForGrows(k.scope, s.exact[k].value, s.ever, ever');
    }
    forall scope | scope in s.near
      ensures SoundBucket(scope, s.near[scope], ever')
    {
      assert SoundBucket(scope, s.near[scope], s.ever);
      forall e | e in s.near[scope]
        ensures SoundFor(scope, e.value, ever')
      {
        SoundForGrows(scope, e.value, s.ever, ever');
      }
    }
    forall id | id in s.calls
      ensures SoundCall(s.calls[id], ever')
    {
      SoundCallGrows(s.calls[id], s.ever, ever');
    }
  }

  // ---- What an answer is made of ----

  /** An answer generated from retrievable chunks is sound for the caller they were retrieved for. */
  lemma GeneratedSound(cfg: Config, scored: seq<ScoredChunk>, completion: Result<string, string>, p: Principal,
                       v: string,
                       ever: set<Chunk>)
    requires v != "" && Retrievable(scored, p, v, ever)
    ensures SoundStage(AfterComplete(cfg, scored, completion, v), p, v, ever)
  {
    GenerateExactly(scored, completion, cfg.reading);
    var r := Generate(scored, completion, cfg.reading);
    if r.Ok? {
      forall c | c in r.value.citations
        ensures Backed(c, p, v, ever)
      {
        var s :| s in scored && c == CitationFromScored(s);
        assert s.chunk in ever;
      }
    }
  }

  /**
   * One clean fingerprint is one reach, so what is sound for the caller who stored it is sound for all who may
   * read it.
   */
  lemma SoundForScope(cfg: Config, a: Answer, p: Principal, v: string, ever: set<Chunk>)
    requires Clean(p) && Sound(a, p, v, ever)
    ensures SoundFor(ScopeOf(cfg, p, v), a, ever)
  {
    forall q | Clean(q) && Fingerprint(q) == Fingerprint(p)
      ensures Sound(a, q, v, ever)
    {
      FingerprintReadsBack(p, q);
      forall c | c in a.citations
        ensures Backed(c, q, v, ever)
      {
        assert Backed(c, p, v, ever);
        var s: ScoredChunk :| && s.chunk in ever && IsAllowed(p, s.chunk.acl) && s.chunk.indexVersion == v
                              && c == CitationFromScored(s);
        assert IsAllowed(q, s.chunk.acl);
      }
    }
  }

  lemma StoredBucketSound(cfg: Config, scope: Scope, bucket: seq<Entry<Answer>>, query: string, a: Answer,
                          ever: set<Chunk>)
    requires SoundBucket(scope, bucket, ever) && SoundFor(scope, a, ever)
    ensures SoundBucket(scope, Caches.Stored(cfg.sem, bucket, query, a), ever)
  {
  }

  // ---- Every step keeps the invariant ----

  lemma MovedKeeps(s: State, id: nat, stage: Stage)
    requires Inv(s) && id in s.calls && SoundStage(stage, s.calls[id].principal, s.calls[id].version, s.ever)
    ensures Inv(Moved(s, id, stage))
  {
  }

  lemma HitSound(cfg: Config, s: State, id: nat, scope: Scope, a: Answer)
    requires Inv(s) && id in s.calls && scope == ScopeOf(cfg, s.calls[id].principal, s.calls[id].version)
    requires SoundFor(scope, a, s.ever)
    ensures SoundStage(Returned(a.(cached := true)), s.calls[id].principal, s.calls[id].version, s.ever)
  {
    var c := s.calls[id];
    assert SoundCall(c, s.ever);
    assert Sound(a, c.principal, c.version, s.ever);
  }

  lemma LookExactKeeps(cfg: Config, s: State, id: nat)
    requires Inv(s) && Enabled(cfg, s, LookExact(id))
    ensures Inv(Apply(cfg, s, LookExact(id)))
  {
    var c := s.calls[id];
    var key := KeyOf(cfg, c.principal, c.version, c.query);
    var hit := Lookup(s.exact, key, s.now);
    if hit.Some? {
      HitSound(cfg, s, id, key.scope, hit.value);
    }
    MovedKeeps(s, id, AfterExact(cfg, hit));
  }

  lemma LookNearKeeps(cfg: Config, s: State, id: nat, found: Option<Answer>)
    requires Inv(s) && Enabled(cfg, s, LookNear(id, found))
    ensures Inv(Apply(cfg, s, LookNear(id, found)))
  {
    var c := s.calls[id];
    var scope := ScopeOf(cfg, c.principal, c.version);
    if found.Some? {
      var bucket := Bucket(s.near, scope);
      var best: nat :| Nearest(cfg.sem, bucket, c.query, best) && bucket[best].value == found.value;
      assert scope in s.near && SoundBucket(scope, bucket, s.ever);
      assert bucket[best] in bucket;
      HitSound(cfg, s, id, scope, found.value);
    }
    MovedKeeps(s, id, AfterNear(found));
  }

  lemma StoreExactKeeps(cfg: Config, s: State, id: nat)
    requires Inv(s) && Enabled(cfg, s, StoreExact(id))
    ensures Inv(Apply(cfg, s, StoreExact(id)))
  {
    var c := s.calls[id];
    assert SoundCall(c, s.ever);
    SoundForScope(cfg, c.stage.answer, c.principal, c.version, s.ever);
    MovedKeeps(s, id, AfterStoreExact(cfg, c.stage.answer));
  }

  lemma StoreNearKeeps(cfg: Config, s: State, id: nat)
    requires Inv(s) && Enabled(cfg, s, StoreNear(id))
    ensures Inv(Apply(cfg, s, StoreNear(id)))
  {
    var c := s.calls[id];
    assert SoundCall(c, s.ever);
    var scope := ScopeOf(cfg, c.principal, c.version);
    SoundForScope(cfg, c.stage.answer, c.principal, c.version, s.ever);
    StoredBucketSound(cfg, scope, Bucket(s.near, scope), c.query, c.stage.answer, s.ever);
    MovedKeeps(s, id, Returned(c.stage.answer));
  }

  lemma CompleteKeeps(cfg: Config, s: State, id: nat, completion: Result<string, string>)
    requires Inv(s) && Enabled(cfg, s, Complete(id, completion))
    ensures Inv(Apply(cfg, s, Complete(id, completion)))
  {
    var c := s.calls[id];
    assert SoundCall(c, s.ever);
    GeneratedSound(cfg, c.stage.scored, completion, c.principal, c.version, s.ever);
    MovedKeeps(s, id, AfterComplete(cfg, c.stage.scored, completion, c.version));
  }

  lemma StepKeepsInv(cfg: Config, s: State, step: Step)
    requires Inv(s) && Enabled(cfg, s, step)
    ensures Inv(Apply(cfg, s, step))
  {
    match step
    case Index(chunks) => InvGrows(s, chunks);
    case LookExact(id) => LookExactKeeps(cfg, s, id);
    case LookNear(id, found) => LookNearKeeps(cfg, s, id, found);
    case Complete(id, completion) => CompleteKeeps(cfg, s, id, completion);
    case StoreExact(id) => StoreExactKeeps(cfg, s, id);
    case StoreNear(id) => StoreNearKeeps(cfg, s, id);
    case SkipCaches(id) => MovedKeeps(s, id, MissedBoth);
    case TakeRoute(id, route, scored) => MovedKeeps(s, id, AfterRoute(route, scored));
    case _ =>
  }

  /** A longer run is a run and one more step. */
  lemma {:induction false} RunSnoc(cfg: Config, s: State, steps: seq<Step>, step: Step)
    requires Runs(cfg, s, steps) && Enabled(cfg, After(cfg, s, steps), step)
    ensures Runs(cfg, s, steps + [step]) && After(cfg, s, steps + [step]) == Apply(cfg, After(cfg, s, steps), step)
    decreases |steps|
  {
    if steps == [] {
      assert [step][1..] == [];
      assert steps + [step] == [step];
    } else {
      assert (steps + [step])[1..] == steps[1..] + [step];
      RunSnoc(cfg, Apply(cfg, s, steps[0]), steps[1..], step);
    }
  }

  /** Who asked, what, and which version the call resolved: nothing changes these later. */
  predicate SameCaller(s: State, s': State, id: nat) {
    id in s.calls ==> id in s'.calls && s'.calls[id].(stage := Began) == s.calls[id].(stage := Began)
  }

  lemma CallerKept(cfg: Config, s: State, step: Step, s': State, id: nat)
    requires Enabled(cfg, s, step) && s' == Apply(cfg, s, step)
    ensures SameCaller(s, s', id)
  {
  }

  lemma NextKeeps(cfg: Config, s: State, step: Step, s': State, id: nat)
    requires Inv(s) && Enabled(cfg, s, step) && s' == Apply(cfg, s, step)
    ensures Inv(s') && SameCaller(s, s', id)
  {
    StepKeepsInv(cfg, s, step);
    CallerKept(cfg, s, step, s', id);
  }

  lemma {:induction false} RunKeeps(cfg: Config, s: State, steps: seq<Step>, id: nat)
    requires Inv(s) && Runs(cfg, s, steps)
    ensures Inv(After(cfg, s, steps)) && SameCaller(s, After(cfg, s, steps), id)
    decreases |steps|
  {
    if steps != [] {
      var s' := Apply(cfg, s, steps[0]);
      NextKeeps(cfg, s, steps[0], s', id);
      RunKeeps(cfg, s', steps[1..], id);
    }
  }

  /**
   * Whatever happens before a call and after it begins, whoever else calls meanwhile: if it has returned, fresh or
   * from either cache, its answer is sound for this caller in the version that was live when the call began.
   */
  lemma EveryAnswerSound(cfg: Config, before: seq<Step>, id: nat, p: Principal, query: string, rest: seq<Step>)
    requires Runs(cfg, INIT, before)
    requires Enabled(cfg, After(cfg, INIT, before), Begin(id, p, query))
    requires Runs(cfg, Apply(cfg, After(cfg, INIT, before), Begin(id, p, query)), rest)
    ensures var s := After(cfg, INIT, before);
            var end := After(cfg, Apply(cfg, s, Begin(id, p, query)), rest);
            && id in end.calls
            && (end.calls[id].stage.Returned? ==>
                  Sound(end.calls[id].stage.answer, p, LiveVersion(cfg, s.alias), end.ever))
  {
    RunKeeps(cfg, INIT, before, id);
    var s := After(cfg, INIT, before);
    StepKeepsInv(cfg, s, Begin(id, p, query));
    var s' := Apply(cfg, s, Begin(id, p, query));
    RunKeeps(cfg, s', rest, id);
    var end := After(cfg, s', rest);
    assert SoundCall(end.calls[id], end.ever);
  }

  // ---- Which version a call is answered in ----

  ghost predicate AliasUntouched(steps: seq<Step>) {
    forall step <- steps :: !step.SetAlias?
  }

  lemma {:induction false} AliasStays(cfg: Config, s: State, steps: seq<Step>)
    requires Runs(cfg, s, steps) && AliasUntouched(steps)
    ensures After(cfg, s, steps).alias == s.alias
    decreases |steps|
  {
    if steps != [] {
      AliasStays(cfg, Apply(cfg, s, steps[0]), steps[1..]);
    }
  }

  /**
   * A call that begins after the alias was set, and before it is set again, is answered in the version it was set
   * to.
   */
  lemma BeginsInLastAlias(cfg: Config, s: State, version: string, later: seq<Step>, id: nat, p: Principal,
                          query: string)
    requires version != "" && Runs(cfg, Apply(cfg, s, SetAlias(version)), later) && AliasUntouched(later)
    requires Enabled(cfg, After(cfg, Apply(cfg, s, SetAlias(version)), later), Begin(id, p, query))
    ensures var now := After(cfg, Apply(cfg, s, SetAlias(version)), later);
            Apply(cfg, now, Begin(id, p, query)).calls[id].version == version
  {
    AliasStays(cfg, Apply(cfg, s, SetAlias(version)), later);
  }

  /** Until the alias is set for the first time, calls are answered in the version of the deployment. */
  lemma BeginsInDeployment(cfg: Config, steps: seq<Step>, id: nat, p: Principal, query: string)
    requires Runs(cfg, INIT, steps) && AliasUntouched(steps)
    requires Enabled(cfg, After(cfg, INIT, steps), Begin(id, p, query))
    ensures var version := Apply(cfg, After(cfg, INIT, steps), Begin(id, p, query)).calls[id].version;
            if cfg.fallbackVersion.GetOr("") != "" then Some(version) == cfg.fallbackVersion
            else version == cfg.indexVersion
  {
    AliasStays(cfg, INIT, steps);
  }
}
