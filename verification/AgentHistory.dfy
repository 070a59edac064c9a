/**
 * Every interleaved history of agent turns that share the caches, src/rag/api/routes/query.py:96-164. A turn resolves
 * the alias once for its answer key, once when it starts, and again in each retrieval, and in between the alias may
 * move. Each step below is one access to shared state; entries of both caches may go at any time.
 */
module AgentHistory {
  import opened Schemas
  import opened Acl
  import opened Caches
  import opened Citations
  import opened AgentAnswers
  import O = OnlineHistory
  import TR = ToolRegistry

  /** A tool call under way: its version is resolved, or it has brought its sources. */
  datatype Job = Asked(key: TR.ToolKey, live: string) | Brought(key: TR.ToolKey, sources: set<Source>)

  datatype Stage =
    | Keyed
    | Missed
    | Turning(version: string, evidence: set<Source>, jobs: map<nat, Job>)
    | Finished(answer: AgentAnswer)
    | Returned(answer: AgentAnswer)

  datatype Call = Call(principal: Principal, query: string, params: Params, version: string, stage: Stage)

  /** `ever` is every chunk that was ever indexed. */
  datatype State = State(
    alias: Option<string>,
    answers: map<Key, AgentAnswer>,
    tools: map<TR.ToolKey, set<Source>>,
    ever: set<Chunk>,
    calls: map<nat, Call>)

  datatype Step =
    | SetAlias(version: string)
    | Index(chunks: set<Chunk>)
    | Forget(answers: set<Key>, tools: set<TR.ToolKey>)
    | Begin(id: nat, principal: Principal, query: string, params: Params)
    | LookUp(id: nat)
    | Start(id: nat)
    | Hit(id: nat, key: TR.ToolKey)
    | Ask(id: nat, job: nat, key: TR.ToolKey)
    | Bring(id: nat, job: nat, sources: set<Source>)
    | Land(id: nat, job: nat)
    | Finish(id: nat, answer: AgentAnswer)
    | Store(id: nat)

  function LiveNow(cfg: O.Config, s: State): string {
    O.LiveVersion(cfg, s.alias)
  }

  function ScopeOf(cfg: O.Config, c: Call): Scope {
    CacheScope(c.principal, c.version, cfg.promptVersion, c.params)
  }

  function KeyOf(cfg: O.Config, c: Call): Key {
    Key(ScopeOf(cfg, c), cfg.sem.normalize(c.query))
  }

  // ---- Where a source comes from ----

  /** src/rag/generation/citations.py:97-107 */
  function SourceFrom(s: ScoredChunk, title: string): Source {
    Source(ChunkSource, s.chunk.chunkId, s.chunk.docId, title, PyTake(s.chunk.text, 500), s.score, None,
           Some(s.chunk.acl))
  }

  /** The chunk was indexed, the caller may see it, and it is of version `v`, if one is asked for. */
  ghost predicate OfChunk(s: ScoredChunk, p: Principal, v: Option<string>, ever: set<Chunk>) {
    s.chunk in ever && IsAllowed(p, s.chunk.acl) && (v.Some? ==> s.chunk.indexVersion == v.value)
  }

  /** The version to ask for; the empty one asks for none. */
  function Wanted(strict: bool, version: string): Option<string> {
    if strict && version != "" then Some(version) else None
  }

  /** A source from the index is of a fitting chunk; nothing is asked of other sources. */
  ghost predicate SoundSource(src: Source, p: Principal, v: Option<string>, ever: set<Chunk>) {
    src.kind.ChunkSource? ==> exists s, title :: OfChunk(s, p, v, ever) && src == SourceFrom(s, title)
  }

  ghost predicate SoundSources(sources: set<Source>, p: Principal, v: Option<string>, ever: set<Chunk>) {
    forall src <- sources :: SoundSource(src, p, v, ever)
  }

  /** What the retrieval tool makes of a retrieval, src/rag/agent/tools/retrieval.py:66-69. */
  function RetrievalSources(scored: seq<ScoredChunk>, p: Principal, title: Chunk -> string): seq<Source> {
    if scored == [] then []
    else (if IsAllowed(p, scored[0].chunk.acl) then [SourceFrom(scored[0], title(scored[0].chunk))] else [])
         + RetrievalSources(scored[1..], p, title)
  }

  /** A retrieval under a version brings sound sources of that version. */
  lemma {:induction false} RetrievalBringsSound(scored: seq<ScoredChunk>, p: Principal, title: Chunk -> string,
                                                v: string,
                                                ever: set<Chunk>)
    requires O.Retrievable(scored, p, v, ever)
    ensures forall src <- RetrievalSources(scored, p, title) :: SoundSource(src, p, Wanted(true, v), ever)
  {
    if scored != [] {
      assert scored[0] in scored;
      assert OfChunk(scored[0], p, Wanted(true, v), ever);
      assert forall s <- scored[1..] :: s in scored;
      RetrievalBringsSound(scored[1..], p, title, v, ever);
    }
  }

  // ---- The steps ----

  /** Every citation is of evidence that the caller may see. */
  predicate CitesEvidence(a: AgentAnswer, p: Principal, evidence: set<Source>) {
    forall c <- a.citations :: exists src :: src in evidence && MaySee(p, src) && c == CitationFromSource(src)
  }

  ghost predicate InTurn(s: State, id: nat) {
    id in s.calls && s.calls[id].stage.Turning?
  }

  /** The key under which this turn's calls are cached, src/rag/agent/tools/cache.py:19-40. */
  predicate KeyedFor(key: TR.ToolKey, p: Principal, version: string) {
    key.acl == Fingerprint(p) && key.indexVersion == version
  }

  ghost predicate Enabled(cfg: O.Config, s: State, step: Step) {
    match step
    case SetAlias(_) => true
    case Index(_) => true
    case Forget(_, _) => true
    case Begin(id, p, _, _) => id !in s.calls && Clean(p)
    case LookUp(id) => id in s.calls && s.calls[id].stage.Keyed?
    case Start(id) => id in s.calls && s.calls[id].stage.Missed?
    case Hit(id, key) => InTurn(s, id) && key in s.tools
                         && KeyedFor(key, s.calls[id].principal, s.calls[id].stage.version)
    case Ask(id, _, key) => InTurn(s, id) && KeyedFor(key, s.calls[id].principal, s.calls[id].stage.version)
    case Bring(id, job, sources) =>
      && InTurn(s, id) && job in s.calls[id].stage.jobs && s.calls[id].stage.jobs[job].Asked?
      && SoundSources(sources, s.calls[id].principal, Wanted(true, s.calls[id].stage.jobs[job].live), s.ever)
    case Land(id, job) => InTurn(s, id) && job in s.calls[id].stage.jobs && s.calls[id].stage.jobs[job].Brought?
    case Finish(id, a) => InTurn(s, id)
                          && (OwnAnswer(a) ==> CitesEvidence(a, s.calls[id].principal, s.calls[id].stage.evidence))
    case Store(id) => id in s.calls && s.calls[id].stage.Finished?
  }

  ghost function Moved(s: State, id: nat, stage: Stage): State
    requires id in s.calls
  {
    s.(calls := s.calls[id := s.calls[id].(stage := stage)])
  }

  /** Lines 134-144: a stored answer is returned as cached. */
  function AfterLookUp(cfg: O.Config, s: State, c: Call): Stage {
    if cfg.cacheEnabled && KeyOf(cfg, c) in s.answers then Returned(s.answers[KeyOf(cfg, c)].(cached := true))
    else Missed
  }

  /** Lines 152-164, after src/rag/agent/runtime.py:422-474 has resolved the alias for the answer. */
  function AfterFinish(cfg: O.Config, s: State, a: AgentAnswer): Stage {
    var labelled := if OwnAnswer(a) then a.(indexVersion := LiveNow(cfg, s)) else a;
    if IsStored(cfg.cacheEnabled, labelled) then Finished(labelled) else Returned(labelled)
  }

  ghost function Apply(cfg: O.Config, s: State, step: Step): State
    requires Enabled(cfg, s, step)
  {
    match step
    case SetAlias(version) => s.(alias := Some(version))
    case Index(chunks) => s.(ever := s.ever + chunks)
    case Forget(answers, tools) => s.(answers := s.answers - answers, tools := s.tools - tools)
    case Begin(id, p, query, params) => s.(calls := s.calls[id := Call(p, query, params, LiveNow(cfg, s), Keyed)])
    case LookUp(id) => Moved(s, id, AfterLookUp(cfg, s, s.calls[id]))
    case Start(id) => Moved(s, id, Turning(LiveNow(cfg, s), {}, map[]))
    case Hit(id, key) =>
      var t := s.calls[id].stage;
      Moved(s, id, t.(evidence := t.evidence + s.tools[key]))
    case Ask(id, job, key) =>
      var t := s.calls[id].stage;
      Moved(s, id, t.(jobs := t.jobs[job := Asked(key, LiveNow(cfg, s))]))
    case Bring(id, job, sources) =>
      var t := s.calls[id].stage;
      Moved(s, id, t.(jobs := t.jobs[job := Brought(t.jobs[job].key, sources)]))
    case Land(id, job) =>
      var t := s.calls[id].stage;
      var j := t.jobs[job];
      Moved(s, id, t.(evidence := t.evidence + j.sources)).(tools := s.tools[j.key := j.sources])
    case Finish(id, a) => Moved(s, id, AfterFinish(cfg, s, a))
    case Store(id) =>
      var a := s.calls[id].stage.answer;
      Moved(s, id, Returned(a)).(answers := s.answers[KeyOf(cfg, s.calls[id]) := a])
  }

  const INIT := State(None, map[], map[], {}, map[])

  ghost predicate Runs(cfg: O.Config, s: State, steps: seq<Step>)
    decreases |steps|
  {
    steps == [] || (Enabled(cfg, s, steps[0]) && Runs(cfg, Apply(cfg, s, steps[0]), steps[1..]))
  }

  ghost function After(cfg: O.Config, s: State, steps: seq<Step>): State
    requires Runs(cfg, s, steps)
    decreases |steps|
  {
    if steps == [] then s else After(cfg, Apply(cfg, s, steps[0]), steps[1..])
  }

  // ---- When resolutions agree ----

  predicate SameVersion(wanted: string, live: string) {
    wanted == "" || live == wanted
  }

  /**
   * The step resolves the alias to the version that the turn is committed to: a turn that starts, and an answer of its
   * own when it is labelled, to the version of the answer key; a retrieval to the version of the tool key.
   */
  ghost predicate Agrees(cfg: O.Config, s: State, step: Step)
    requires Enabled(cfg, s, step)
  {
    match step
    case Start(id) => SameVersion(s.calls[id].version, LiveNow(cfg, s))
    case Ask(id, _, _) => SameVersion(s.calls[id].stage.version, LiveNow(cfg, s))
    case Finish(id, a) => OwnAnswer(a) ==> SameVersion(s.calls[id].version, LiveNow(cfg, s))
    case _ => true
  }

  ghost predicate AllAgree(cfg: O.Config, s: State, steps: seq<Step>)
    requires Runs(cfg, s, steps)
    decreases |steps|
  {
    steps == [] || (Agrees(cfg, s, steps[0]) && AllAgree(cfg, Apply(cfg, s, steps[0]), steps[1..]))
  }

  // ---- Soundness ----

  ghost predicate SoundCitation(c: Citation, p: Principal, v: Option<string>, ever: set<Chunk>) {
    c.kind.ChunkSource? ==> exists s, title :: OfChunk(s, p, v, ever) && c == CitationFromSource(SourceFrom(s, title))
  }

  /** What the agent says itself cites what the caller may see, and in version `v`, if one is asked for. */
  ghost predicate Sound(a: AgentAnswer, p: Principal, v: Option<string>, ever: set<Chunk>) {
    OwnAnswer(a) ==>
      && (forall c <- a.citations :: SoundCitation(c, p, v, ever))
      && (v.Some? ==> a.indexVersion == v.value)
  }

  /** Sound for whoever may be handed it. */
  ghost predicate SoundFor(scope: Scope, a: AgentAnswer, strict: bool, ever: set<Chunk>) {
    OwnAnswer(a) && forall p :: Clean(p) && Fingerprint(p) == scope.acl ==>
      Sound(a, p, Wanted(strict, scope.indexVersion), ever)
  }

  ghost predicate SoundTool(key: TR.ToolKey, sources: set<Source>, strict: bool, ever: set<Chunk>) {
    forall p :: Clean(p) && Fingerprint(p) == key.acl ==>
      SoundSources(sources, p, Wanted(strict, key.indexVersion), ever)
  }

  ghost predicate SoundJob(job: Job, p: Principal, version: string, strict: bool, ever: set<Chunk>) {
    && KeyedFor(job.key, p, version)
    && match job
       case Asked(_, live) => strict ==> SameVersion(version, live)
       case Brought(_, sources) => SoundSources(sources, p, Wanted(strict, version), ever)
  }

  ghost predicate SoundTurn(t: Stage, p: Principal, strict: bool, ever: set<Chunk>)
    requires t.Turning?
  {
    && SoundSources(t.evidence, p, Wanted(strict, t.version), ever)
    && forall n <- t.jobs :: SoundJob(t.jobs[n], p, t.version, strict, ever)
  }

  ghost predicate SoundStage(stage: Stage, p: Principal, v: string, strict: bool, ever: set<Chunk>) {
    match stage
    case Turning(version, _, _) => SoundTurn(stage, p, strict, ever) && (strict ==> SameVersion(v, version))
    case Finished(a) => OwnAnswer(a) && Sound(a, p, Wanted(strict, v), ever)
    case Returned(a) => Sound(a, p, Wanted(strict, v), ever)
    case _ => true
  }

  ghost predicate SoundCall(c: Call, strict: bool, ever: set<Chunk>) {
    Clean(c.principal) && SoundStage(c.stage, c.principal, c.version, strict, ever)
  }

  ghost predicate Inv(s: State, strict: bool) {
    && (forall k <- s.answers :: SoundFor(k.scope, s.answers[k], strict, s.ever))
    && (forall k <- s.tools :: SoundTool(k, s.tools[k], strict, s.ever))
    && forall id <- s.calls :: SoundCall(s.calls[id], strict, s.ever)
  }

  // ---- More chunks, fewer demands ----

  lemma SourcesGrow(sources: set<Source>, p: Principal, v: Option<string>, ever: set<Chunk>, w: Option<string>,
                    ever': set<Chunk>)
    requires SoundSources(sources, p, v, ever) && ever <= ever' && (w == v || w == None)
    ensures SoundSources(sources, p, w, ever')
  {
    forall src | src in sources && src.kind.ChunkSource?
      ensures SoundSource(src, p, w, ever')
    {
      var s, title :| OfChunk(s, p, v, ever) && src == SourceFrom(s, title);
      assert OfChunk(s, p, w, ever');
    }
  }

  lemma AnswerGrows(a: AgentAnswer, p: Principal, v: Option<string>, ever: set<Chunk>, ever': set<Chunk>)
    requires Sound(a, p, v, ever) && ever <= ever'
    ensures Sound(a, p, v, ever')
  {
    if OwnAnswer(a) {
      forall c | c in a.citations && c.kind.ChunkSource?
        ensures SoundCitation(c, p, v, ever')
      {
        assert SoundCitation(c, p, v, ever);
        var s, title :| OfChunk(s, p, v, ever) && c == CitationFromSource(SourceFrom(s, title));
        assert OfChunk(s, p, v, ever');
      }
    }
  }

  lemma SoundForGrows(scope: Scope, a: AgentAnswer, strict: bool, ever: set<Chunk>, ever': set<Chunk>)
    requires SoundFor(scope, a, strict, ever) && ever <= ever'
    ensures SoundFor(scope, a, strict, ever')
  {
    forall p | Clean(p) && Fingerprint(p) == scope.acl
      ensures Sound(a, p, Wanted(strict, scope.indexVersion), ever')
    {
      AnswerGrows(a, p, Wanted(strict, scope.indexVersion), ever, ever');
    }
  }

  lemma SoundToolGrows(key: TR.ToolKey, sources: set<Source>, strict: bool, ever: set<Chunk>, ever': set<Chunk>)
    requires SoundTool(key, sources, strict, ever) && ever <= ever'
    ensures SoundTool(key, sources, strict, ever')
  {
    forall p | Clean(p) && Fingerprint(p) == key.acl
      ensures SoundSources(sources, p, Wanted(strict, key.indexVersion), ever')
    {
      var v := Wanted(strict, key.indexVersion);
      SourcesGrow(sources, p, v, ever, v, ever');
    }
  }

  lemma SoundJobGrows(job: Job, p: Principal, version: string, strict: bool, ever: set<Chunk>, ever': set<Chunk>)
    requires SoundJob(job, p, version, strict, ever) && ever <= ever'
    ensures SoundJob(job, p, version, strict, ever')
  {
    if job.Brought? {
      var v := Wanted(strict, version);
      SourcesGrow(job.sources, p, v, ever, v, ever');
    }
  }

  lemma SoundStageGrows(stage: Stage, p: Principal, v: string, strict: bool, ever: set<Chunk>, ever': set<Chunk>)
    requires SoundStage(stage, p, v, strict, ever) && ever <= ever'
    ensures SoundStage(stage, p, v, strict, ever')
  {
    if stage.Turning? {
      var w := Wanted(strict, stage.version);
      SourcesGrow(stage.evidence, p, w, ever, w, ever');
      forall n | n in stage.jobs
        ensures SoundJob(stage.jobs[n], p, stage.version, strict, ever')
      {
        SoundJobGrows(stage.jobs[n], p, stage.version, strict, ever, ever');
      }
    } else if stage.Finished? || stage.Returned? {
      AnswerGrows(stage.answer, p, Wanted(strict, v), ever, ever');
    }
  }

  lemma InvGrows(s: State, strict: bool, chunks: set<Chunk>)
    requires Inv(s, strict)
    ensures Inv(s.(ever := s.ever + chunks), strict)
  {
    var ever' := s.ever + chunks;
    forall k | k in s.answers
      ensures SoundFor(k.scope, s.answers[k], strict, ever')
    {
      SoundForGrows(k.scope, s.answers[k], strict, s.ever, ever');
    }
    forall k | k in s.tools
      ensures SoundTool(k, s.tools[k], strict, ever')
    {
      SoundToolGrows(k, s.tools[k], strict, s.ever, ever');
    }
    forall id | id in s.calls
      ensures SoundCall(s.calls[id], strict, ever')
    {
      var c := s.calls[id];
      SoundStageGrows(c.stage, c.principal, c.version, strict, s.ever, ever');
    }
  }

  // ---- One clean fingerprint is one reach ----

  lemma SameFit(s: ScoredChunk, p: Principal, q: Principal, v: Option<string>, ever: set<Chunk>)
    requires OfChunk(s, p, v, ever) && Clean(p) && Clean(q) && Fingerprint(p) == Fingerprint(q)
    ensures OfChunk(s, q, v, ever)
  {
    FingerprintReadsBack(p, q);
  }

  lemma SourcesForScope(sources: set<Source>, p: Principal, q: Principal, v: Option<string>, ever: set<Chunk>)
    requires SoundSources(sources, p, v, ever) && Clean(p) && Clean(q) && Fingerprint(p) == Fingerprint(q)
    ensures SoundSources(sources, q, v, ever)
  {
    forall src | src in sources && src.kind.ChunkSource?
      ensures SoundSource(src, q, v, ever)
    {
      var s, title :| OfChunk(s, p, v, ever) && src == SourceFrom(s, title);
      SameFit(s, p, q, v, ever);
    }
  }

  lemma AnswerForScope(a: AgentAnswer, p: Principal, q: Principal, v: Option<string>, ever: set<Chunk>)
    requires Sound(a, p, v, ever) && Clean(p) && Clean(q) && Fingerprint(p) == Fingerprint(q)
    ensures Sound(a, q, v, ever)
  {
    if OwnAnswer(a) {
      forall c | c in a.citations && c.kind.ChunkSource?
        ensures SoundCitation(c, q, v, ever)
      {
        assert SoundCitation(c, p, v, ever);
        var s, title :| OfChunk(s, p, v, ever) && c == CitationFromSource(SourceFrom(s, title));
        SameFit(s, p, q, v, ever);
      }
    }
  }

  /** Citations of sound evidence are sound. */
  lemma CitesSoundly(a: AgentAnswer, p: Principal, evidence: set<Source>, v: Option<string>, ever: set<Chunk>)
    requires CitesEvidence(a, p, evidence) && SoundSources(evidence, p, v, ever)
    ensures forall c <- a.citations :: SoundCitation(c, p, v, ever)
  {
    forall c | c in a.citations && c.kind.ChunkSource?
      ensures SoundCitation(c, p, v, ever)
    {
      var src :| src in evidence && MaySee(p, src) && c == CitationFromSource(src);
      assert SoundSource(src, p, v, ever);
      var s, title :| OfChunk(s, p, v, ever) && src == SourceFrom(s, title);
    }
  }

  // ---- Every step keeps the invariant ----

  lemma MovedKeeps(s: State, strict: bool, id: nat, stage: Stage)
    requires Inv(s, strict) && id in s.calls
    requires SoundStage(stage, s.calls[id].principal, s.calls[id].version, strict, s.ever)
    ensures Inv(Moved(s, id, stage), strict)
  {
  }

  lemma LookUpKeeps(cfg: O.Config, s: State, strict: bool, id: nat)
    requires Inv(s, strict) && Enabled(cfg, s, LookUp(id))
    ensures Inv(Apply(cfg, s, LookUp(id)), strict)
  {
    var c := s.calls[id];
    var key := KeyOf(cfg, c);
    if key in s.answers {
      assert SoundFor(key.scope, s.answers[key], strict, s.ever) && SoundCall(c, strict, s.ever);
      assert Sound(s.answers[key], c.principal, Wanted(strict, c.version), s.ever);
    }
    MovedKeeps(s, strict, id, AfterLookUp(cfg, s, c));
  }

  lemma HitKeeps(cfg: O.Config, s: State, strict: bool, id: nat, key: TR.ToolKey)
    requires Inv(s, strict) && Enabled(cfg, s, Hit(id, key))
    ensures Inv(Apply(cfg, s, Hit(id, key)), strict)
  {
    var c := s.calls[id];
    assert SoundTool(key, s.tools[key], strict, s.ever) && SoundCall(c, strict, s.ever);
    assert SoundSources(s.tools[key], c.principal, Wanted(strict, c.stage.version), s.ever);
    MovedKeeps(s, strict, id, c.stage.(evidence := c.stage.evidence + s.tools[key]));
  }

  lemma AskKeeps(cfg: O.Config, s: State, strict: bool, id: nat, job: nat, key: TR.ToolKey)
    requires Inv(s, strict) && Enabled(cfg, s, Ask(id, job, key)) && (strict ==> Agrees(cfg, s, Ask(id, job, key)))
    ensures Inv(Apply(cfg, s, Ask(id, job, key)), strict)
  {
    var c := s.calls[id];
    assert SoundCall(c, strict, s.ever);
    MovedKeeps(s, strict, id, c.stage.(jobs := c.stage.jobs[job := Asked(key, LiveNow(cfg, s))]));
  }

  lemma BringKeeps(cfg: O.Config, s: State, strict: bool, id: nat, job: nat, sources: set<Source>)
    requires Inv(s, strict) && Enabled(cfg, s, Bring(id, job, sources))
    ensures Inv(Apply(cfg, s, Bring(id, job, sources)), strict)
  {
    var c := s.calls[id];
    var j := c.stage.jobs[job];
    assert SoundCall(c, strict, s.ever) && SoundJob(j, c.principal, c.stage.version, strict, s.ever);
    SourcesGrow(sources, c.principal, Wanted(true, j.live), s.ever, Wanted(strict, c.stage.version), s.ever);
    MovedKeeps(s, strict, id, c.stage.(jobs := c.stage.jobs[job := Brought(j.key, sources)]));
  }

  lemma LandKeeps(cfg: O.Config, s: State, strict: bool, id: nat, job: nat)
    requires Inv(s, strict) && Enabled(cfg, s, Land(id, job))
    ensures Inv(Apply(cfg, s, Land(id, job)), strict)
  {
    var c := s.calls[id];
    var j := c.stage.jobs[job];
    assert SoundCall(c, strict, s.ever) && SoundJob(j, c.principal, c.stage.version, strict, s.ever);
    forall q | Clean(q) && Fingerprint(q) == j.key.acl
      ensures SoundSources(j.sources, q, Wanted(strict, j.key.indexVersion), s.ever)
    {
      SourcesForScope(j.sources, c.principal, q, Wanted(strict, j.key.indexVersion), s.ever);
    }
    MovedKeeps(s, strict, id, c.stage.(evidence := c.stage.evidence + j.sources));
  }

  lemma FinishKeeps(cfg: O.Config, s: State, strict: bool, id: nat, a: AgentAnswer)
    requires Inv(s, strict) && Enabled(cfg, s, Finish(id, a)) && (strict ==> Agrees(cfg, s, Finish(id, a)))
    ensures Inv(Apply(cfg, s, Finish(id, a)), strict)
  {
    var c := s.calls[id];
    assert SoundCall(c, strict, s.ever);
    if OwnAnswer(a) {
      var v := Wanted(strict, c.version);
      SourcesGrow(c.stage.evidence, c.principal, Wanted(strict, c.stage.version), s.ever, v, s.ever);
      CitesSoundly(a, c.principal, c.stage.evidence, v, s.ever);
    }
    MovedKeeps(s, strict, id, AfterFinish(cfg, s, a));
  }

  lemma StoreKeeps(cfg: O.Config, s: State, strict: bool, id: nat)
    requires Inv(s, strict) && Enabled(cfg, s, Store(id))
    ensures Inv(Apply(cfg, s, Store(id)), strict)
  {
    var c := s.calls[id];
    var a := c.stage.answer;
    assert SoundCall(c, strict, s.ever);
    forall q | Clean(q) && Fingerprint(q) == Fingerprint(c.principal)
      ensures Sound(a, q, Wanted(strict, c.version), s.ever)
    {
      AnswerForScope(a, c.principal, q, Wanted(strict, c.version), s.ever);
    }
    MovedKeeps(s, strict, id, Returned(a));
  }

  lemma SetAliasKeeps(s: State, strict: bool, version: string)
    requires Inv(s, strict)
    ensures Inv(s.(alias := Some(version)), strict)
  {
  }

  lemma ForgetKeeps(s: State, strict: bool, answers: set<Key>, tools: set<TR.ToolKey>)
    requires Inv(s, strict)
    ensures Inv(s.(answers := s.answers - answers, tools := s.tools - tools), strict)
  {
  }

  lemma BeginKeeps(s: State, strict: bool, id: nat, c: Call)
    requires Inv(s, strict) && Clean(c.principal) && c.stage == Keyed
    ensures Inv(s.(calls := s.calls[id := c]), strict)
  {
  }

  lemma StepKeepsInv(cfg: O.Config, s: State, strict: bool, step: Step)
    requires Inv(s, strict) && Enabled(cfg, s, step) && (strict ==> Agrees(cfg, s, step))
    ensures Inv(Apply(cfg, s, step), strict)
  {
    match step
    case Index(chunks) => InvGrows(s, strict, chunks);
    case LookUp(id) => LookUpKeeps(cfg, s, strict, id);
    case Start(id) => MovedKeeps(s, strict, id, Turning(LiveNow(cfg, s), {}, map[]));
    case Hit(id, key) => HitKeeps(cfg, s, strict, id, key);
    case Ask(id, job, key) => AskKeeps(cfg, s, strict, id, job, key);
    case Bring(id, job, sources) => BringKeeps(cfg, s, strict, id, job, sources);
    case Land(id, job) => LandKeeps(cfg, s, strict, id, job);
    case Finish(id, a) => FinishKeeps(cfg, s, strict, id, a);
    case Store(id) => StoreKeeps(cfg, s, strict, id);
    case SetAlias(version) => SetAliasKeeps(s, strict, version);
    case Forget(answers, tools) => ForgetKeeps(s, strict, answers, tools);
    case Begin(id, p, query, params) => BeginKeeps(s, strict, id, Call(p, query, params, LiveNow(cfg, s), Keyed));
  }
}
