/**
 * What src/rag/pipelines/online.py:50-123 puts in its caches, over every interleaved history: no refusal ever, and
 * every answer it generates.
 */
module OnlineCaching {
  import opened Schemas
  import opened Acl
  import opened Caches
  import opened Grounded
  import opened OnlineHistory

  // ---- No refusal is cached ----

  ghost predicate ServableExact(exact: map<Key, Slot<Answer>>) {
    forall k <- exact :: !exact[k].value.refused
  }

  ghost predicate ServableBucket(bucket: seq<Entry<Answer>>) {
    forall e <- bucket :: !e.value.refused
  }

  ghost predicate ServableNear(near: Buckets<Answer>) {
    forall scope <- near :: ServableBucket(near[scope])
  }

  /** What is on its way to a cache, or came out of one, is no refusal. */
  predicate ServableStage(stage: Stage) {
    match stage
    case Generated(a) => !a.refused
    case HalfStored(a) => !a.refused
    case Returned(a) => a.cached ==> !a.refused
    case _ => true
  }

  ghost predicate Servable(s: State) {
    ServableExact(s.exact) && ServableNear(s.near) && forall id <- s.calls :: ServableStage(s.calls[id].stage)
  }

  lemma MovedServable(s: State, id: nat, stage: Stage)
    requires Servable(s) && id in s.calls && ServableStage(stage)
    ensures Servable(Moved(s, id, stage))
  {
  }

  lemma LookNearServable(cfg: Config, s: State, id: nat, found: Option<Answer>)
    requires Servable(s) && Enabled(cfg, s, LookNear(id, found))
    ensures Servable(Apply(cfg, s, LookNear(id, found)))
  {
    var c := s.calls[id];
    var scope := ScopeOf(cfg, c.principal, c.version);
    if found.Some? {
      var bucket := Bucket(s.near, scope);
      var best: nat :| Nearest(cfg.sem, bucket, c.query, best) && bucket[best].value == found.value;
      assert scope in s.near && ServableBucket(bucket) && bucket[best] in bucket;
    }
    MovedServable(s, id, AfterNear(found));
  }

  lemma StoreNearServable(cfg: Config, s: State, id: nat)
    requires Servable(s) && Enabled(cfg, s, StoreNear(id))
    ensures Servable(Apply(cfg, s, StoreNear(id)))
  {
    var c := s.calls[id];
    var bucket := Bucket(s.near, ScopeOf(cfg, c.principal, c.version));
    assert ServableStage(c.stage) && ServableBucket(bucket);
    assert ServableBucket(Caches.Stored(cfg.sem, bucket, c.query, c.stage.answer));
    MovedServable(s, id, Returned(c.stage.answer));
  }

  lemma StoreExactServable(cfg: Config, s: State, id: nat)
    requires Servable(s) && Enabled(cfg, s, StoreExact(id))
    ensures Servable(Apply(cfg, s, StoreExact(id)))
  {
    assert ServableStage(s.calls[id].stage);
    MovedServable(s, id, AfterStoreExact(cfg, s.calls[id].stage.answer));
  }

  lemma CompletedServable(cfg: Config, scored: seq<ScoredChunk>, completion: Result<string, string>, version: string)
    ensures ServableStage(AfterComplete(cfg, scored, completion, version))
  {
    GenerateExactly(scored, completion, cfg.reading);
  }

  lemma StepServable(cfg: Config, s: State, step: Step)
    requires Servable(s) && Enabled(cfg, s, step)
    ensures Servable(Apply(cfg, s, step))
  {
    match step
    case SkipCaches(id) => MovedServable(s, id, MissedBoth);
    case LookExact(id) =>
      var c := s.calls[id];
      MovedServable(s, id, AfterExact(cfg, Lookup(s.exact, KeyOf(cfg, c.principal, c.version, c.query), s.now)));
    case LookNear(id, found) => LookNearServable(cfg, s, id, found);
    case TakeRoute(id, route, scored) => MovedServable(s, id, AfterRoute(route, scored));
    case Complete(id, completion) =>
      CompletedServable(cfg, s.calls[id].stage.scored, completion, s.calls[id].version);
      MovedServable(s, id, AfterComplete(cfg, s.calls[id].stage.scored, completion, s.calls[id].version));
    case StoreExact(id) => StoreExactServable(cfg, s, id);
    case StoreNear(id) => StoreNearServable(cfg, s, id);
    case _ =>
  }

  lemma {:induction false} RunServable(cfg: Config, s: State, steps: seq<Step>)
    requires Servable(s) && Runs(cfg, s, steps)
    ensures Servable(After(cfg, s, steps))
    decreases |steps|
  {
    if steps != [] {
      StepServable(cfg, s, steps[0]);
      RunServable(cfg, Apply(cfg, s, steps[0]), steps[1..]);
    }
  }

  /**
   * Whatever happened since the caches were empty, no entry of either is a refusal, and no caller was handed a
   * refusal from a cache.
   */
  lemma NoRefusalCached(cfg: Config, steps: seq<Step>)
    requires Runs(cfg, INIT, steps)
    ensures var s := After(cfg, INIT, steps);
            && (forall k <- s.exact :: !s.exact[k].value.refused)
            && (forall scope <- s.near :: forall e <- s.near[scope] :: !e.value.refused)
            && (forall id <- s.calls ::
                  s.calls[id].stage.Returned? && s.calls[id].stage.answer.cached ==> !s.calls[id].stage.answer.refused)
  {
    RunServable(cfg, INIT, steps);
    var s := After(cfg, INIT, steps);
    forall scope | scope in s.near ensures forall e <- s.near[scope] :: !e.value.refused {
      assert ServableBucket(s.near[scope]);
    }
    forall id | id in s.calls
      ensures s.calls[id].stage.Returned? && s.calls[id].stage.answer.cached ==> !s.calls[id].stage.answer.refused
    {
      assert ServableStage(s.calls[id].stage);
    }
  }

  // ---- Every generated answer is cached ----

  /** The answer a call is bound to give, once it has one. */
  function Bound(s: State, id: nat): Option<Answer> {
    if id !in s.calls then None
    else
      match s.calls[id].stage
      case Generated(a) => Some(a)
      case HalfStored(a) => Some(a)
      case Returned(a) => Some(a)
      case _ => None
  }

  lemma {:induction false} BoundKept(cfg: Config, s: State, steps: seq<Step>, id: nat)
    requires Runs(cfg, s, steps) && Bound(s, id).Some?
    ensures Bound(After(cfg, s, steps), id) == Bound(s, id)
    decreases |steps|
  {
    if steps != [] {
      BoundOnce(cfg, s, steps[0], id);
      BoundKept(cfg, Apply(cfg, s, steps[0]), steps[1..], id);
    }
  }

  lemma BoundOnce(cfg: Config, s: State, step: Step, id: nat)
    requires Enabled(cfg, s, step) && Bound(s, id).Some?
    ensures Bound(Apply(cfg, s, step), id) == Bound(s, id)
  {
  }

  /** The model is asked on behalf of the call. */
  ghost predicate Asked(steps: seq<Step>, id: nat) {
    exists j :: 0 <= j < |steps| && steps[j].Complete? && steps[j].id == id
  }

  predicate Pending(s: State, id: nat) {
    id in s.calls && (s.calls[id].stage.Retrieved? || s.calls[id].stage.Generated?)
  }

  /** The call ends with this answer, which is no refusal. */
  ghost predicate EndsWith(cfg: Config, s: State, steps: seq<Step>, id: nat, a: Answer) {
    && Runs(cfg, s, steps) && !a.refused
    && id in After(cfg, s, steps).calls && After(cfg, s, steps).calls[id].stage == Returned(a)
  }

  /** A step other than its own store leaves the answer of the call still to come. */
  lemma StillPending(cfg: Config, s: State, steps: seq<Step>, id: nat, a: Answer)
    requires cfg.cacheEnabled && EndsWith(cfg, s, steps, id, a) && (Pending(s, id) || Asked(steps, id))
    requires steps != [] && steps[0] != StoreExact(id)
    ensures var s' := Apply(cfg, s, steps[0]);
            EndsWith(cfg, s', steps[1..], id, a) && (Pending(s', id) || Asked(steps[1..], id))
  {
    var s' := Apply(cfg, s, steps[0]);
    if steps[0].Complete? && steps[0].id == id {
      if !Pending(s', id) {
        BoundKept(cfg, s', steps[1..], id);
      }
    } else if !Pending(s, id) {
      var j :| 0 <= j < |steps| && steps[j].Complete? && steps[j].id == id;
      assert steps[1..][j - 1] == steps[j];
    }
  }

  /** The answer to a query is in the exact cache, and a lookup finds it as long as it may live. */
  ghost predicate InExact(cfg: Config, s: State, key: Key, a: Answer) {
    && key in s.exact && s.exact[key].value == a
    && forall t :: t >= s.now ==>
         (Lookup(s.exact, key, t) == Some(a) <==> cfg.ttl.None? || cfg.ttl.value == 0 || t <= s.now + cfg.ttl.value)
  }

  lemma StoredIsThere(cfg: Config, s: State, id: nat)
    requires Enabled(cfg, s, StoreExact(id))
    ensures var c, s' := s.calls[id], Apply(cfg, s, StoreExact(id));
            && InExact(cfg, s', KeyOf(cfg, c.principal, c.version, c.query), c.stage.answer)
            && Bound(s', id) == Some(c.stage.answer)
  {
    var c, s' := s.calls[id], Apply(cfg, s, StoreExact(id));
    var key := KeyOf(cfg, c.principal, c.version, c.query);
    forall t | t >= s'.now
      ensures Lookup(s'.exact, key, t) == Some(c.stage.answer) <==>
              cfg.ttl.None? || cfg.ttl.value == 0 || t <= s'.now + cfg.ttl.value
    {
      ReadBack(s.exact, key, c.stage.answer, cfg.ttl, s.now, t, key);
    }
  }

  /** The state after the first `n` steps. */
  lemma AfterPrefix(cfg: Config, s: State, steps: seq<Step>, n: nat)
    requires Runs(cfg, s, steps) && n < |steps|
    requires Runs(cfg, Apply(cfg, s, steps[0]), steps[1..][..n])
    ensures Runs(cfg, s, steps[..n + 1])
    ensures After(cfg, s, steps[..n + 1]) == After(cfg, Apply(cfg, s, steps[0]), steps[1..][..n])
  {
    assert steps[..n + 1][1..] == steps[1..][..n];
  }

  /** The `k`-th step stores the answer of the call. */
  ghost predicate StoresAt(cfg: Config, s: State, steps: seq<Step>, id: nat, a: Answer, k: nat) {
    && k < |steps| && steps[k] == StoreExact(id) && Runs(cfg, s, steps[..k + 1])
    && var there := After(cfg, s, steps[..k + 1]);
       && id in there.calls
       && InExact(cfg, there,
                  KeyOf(cfg, there.calls[id].principal, there.calls[id].version, there.calls[id].query), a)
  }

  /**
   * With caching on, a call for which the model was asked and that returned an answer, not a refusal, has stored
   * that very answer on its way, under its own caller's scope, the version it resolved and its own query; from then
   * on a lookup finds it until it expires or is overwritten.
   */
  lemma {:induction false} EveryAnswerCached(cfg: Config, s: State, steps: seq<Step>, id: nat, a: Answer)
    returns (k: nat)
    requires cfg.cacheEnabled && EndsWith(cfg, s, steps, id, a) && (Pending(s, id) || Asked(steps, id))
    ensures StoresAt(cfg, s, steps, id, a, k)
    decreases |steps|
  {
    if steps[0] == StoreExact(id) {
      StoredIsThere(cfg, s, id);
      BoundKept(cfg, Apply(cfg, s, steps[0]), steps[1..], id);
      assert steps[1..][..0] == [];
      AfterPrefix(cfg, s, steps, 0);
      k := 0;
    } else {
      StillPending(cfg, s, steps, id, a);
      var j := EveryAnswerCached(cfg, Apply(cfg, s, steps[0]), steps[1..], id, a);
      AfterPrefix(cfg, s, steps, j + 1);
      k := j + 1;
    }
  }

  /** Two callers of one reach who asked in the same version. */
  predicate Alike(c: Call, d: Call) {
    Fingerprint(c.principal) == Fingerprint(d.principal) && c.version == d.version
  }

  /** Meanwhile no one stores another answer under the key. */
  ghost predicate NotOverwritten(cfg: Config, s: State, steps: seq<Step>, key: Key)
    requires Runs(cfg, s, steps)
    decreases |steps|
  {
    steps == []
    || (&& (steps[0].StoreExact? ==>
              var c := s.calls[steps[0].id]; KeyOf(cfg, c.principal, c.version, c.query) != key)
        && NotOverwritten(cfg, Apply(cfg, s, steps[0]), steps[1..], key))
  }

  lemma {:induction false} ClockRuns(cfg: Config, s: State, steps: seq<Step>)
    requires Runs(cfg, s, steps)
    ensures s.now <= After(cfg, s, steps).now
    decreases |steps|
  {
    if steps != [] {
      ClockRuns(cfg, Apply(cfg, s, steps[0]), steps[1..]);
    }
  }

  /** An entry that is not overwritten is there until it expires. */
  lemma {:induction false} EntryStays(cfg: Config, s: State, steps: seq<Step>, key: Key, slot: Slot<Answer>)
    requires Runs(cfg, s, steps) && NotOverwritten(cfg, s, steps, key) && key in s.exact && s.exact[key] == slot
    requires Live(slot, After(cfg, s, steps).now)
    ensures key in After(cfg, s, steps).exact && After(cfg, s, steps).exact[key] == slot
    decreases |steps|
  {
    if steps != [] {
      ClockRuns(cfg, s, steps);
      StaysOnce(cfg, s, steps[0], key, slot);
      EntryStays(cfg, Apply(cfg, s, steps[0]), steps[1..], key, slot);
    }
  }

  lemma StaysOnce(cfg: Config, s: State, step: Step, key: Key, slot: Slot<Answer>)
    requires Enabled(cfg, s, step) && key in s.exact && s.exact[key] == slot && Live(slot, s.now)
    requires step.StoreExact? ==>
               var c := s.calls[step.id]; KeyOf(cfg, c.principal, c.version, c.query) != key
    ensures key in Apply(cfg, s, step).exact && Apply(cfg, s, step).exact[key] == slot
  {
  }

  /**
   * Until it expires or is overwritten, whatever else happens, the stored answer is handed to the next caller of the
   * same reach who asks the same question in the same version.
   */
  lemma NextCallerHits(cfg: Config, s: State, id: nat, a: Answer, later: seq<Step>, next: nat)
    requires id in s.calls && Runs(cfg, s, later) && Enabled(cfg, After(cfg, s, later), LookExact(next))
    requires var c, d := s.calls[id], After(cfg, s, later).calls[next];
             && Alike(c, d) && cfg.sem.normalize(c.query) == cfg.sem.normalize(d.query)
             && InExact(cfg, s, KeyOf(cfg, c.principal, c.version, c.query), a)
             && NotOverwritten(cfg, s, later, KeyOf(cfg, c.principal, c.version, c.query))
    requires cfg.ttl.None? || cfg.ttl.value == 0 || After(cfg, s, later).now <= s.now + cfg.ttl.value
    ensures Apply(cfg, After(cfg, s, later), LookExact(next)).calls[next].stage == Returned(a.(cached := true))
  {
    var c, end := s.calls[id], After(cfg, s, later);
    var key := KeyOf(cfg, c.principal, c.version, c.query);
    ClockRuns(cfg, s, later);
    assert Lookup(s.exact, key, end.now) == Some(a);
    EntryStays(cfg, s, later, key, s.exact[key]);
    assert key == KeyOf(cfg, end.calls[next].principal, end.calls[next].version, end.calls[next].query);
  }

  // ---- And in the semantic cache, when there is one ----

  predicate NearPending(s: State, id: nat) {
    Pending(s, id) || (id in s.calls && s.calls[id].stage.HalfStored?)
  }

  lemma StillNearPending(cfg: Config, s: State, steps: seq<Step>, id: nat, a: Answer)
    requires cfg.cacheEnabled && cfg.semanticOn
    requires EndsWith(cfg, s, steps, id, a) && (NearPending(s, id) || Asked(steps, id))
    requires steps != [] && steps[0] != StoreNear(id)
    ensures var s' := Apply(cfg, s, steps[0]);
            EndsWith(cfg, s', steps[1..], id, a) && (NearPending(s', id) || Asked(steps[1..], id))
  {
    var s' := Apply(cfg, s, steps[0]);
    if steps[0].Complete? && steps[0].id == id {
      if !NearPending(s', id) {
        BoundKept(cfg, s', steps[1..], id);
      }
    } else if !NearPending(s, id) {
      var j :| 0 <= j < |steps| && steps[j].Complete? && steps[j].id == id;
      assert steps[1..][j - 1] == steps[j];
    }
  }

  /** The semantic cache holds this answer to the query in the scope. */
  ghost predicate InNear(cfg: Config, s: State, scope: Scope, query: string, a: Answer) {
    Entry(cfg.sem.normalize(query), cfg.sem.embed(cfg.sem.normalize(query)), a) in Bucket(s.near, scope)
  }

  lemma StoredIsNear(cfg: Config, s: State, id: nat)
    requires cfg.sem.maxEntries > 0 && Enabled(cfg, s, StoreNear(id))
    ensures var c, s' := s.calls[id], Apply(cfg, s, StoreNear(id));
            && InNear(cfg, s', ScopeOf(cfg, c.principal, c.version), c.query, c.stage.answer)
            && Bound(s', id) == Some(c.stage.answer)
  {
    var c := s.calls[id];
    var bucket, q := Bucket(s.near, ScopeOf(cfg, c.principal, c.version)), cfg.sem.normalize(c.query);
    var stored, e := Caches.Stored(cfg.sem, bucket, c.query, c.stage.answer),
      Entry(q, cfg.sem.embed(q), c.stage.answer);
    var k := if IndexOf(bucket, q) < |bucket| then IndexOf(bucket, q) else |stored| - 1;
    assert stored[k] == e;
  }

  ghost predicate StoresNearAt(cfg: Config, s: State, steps: seq<Step>, id: nat, a: Answer, k: nat) {
    && k < |steps| && steps[k] == StoreNear(id) && Runs(cfg, s, steps[..k + 1])
    && var there := After(cfg, s, steps[..k + 1]);
       && id in there.calls
       && InNear(cfg, there, ScopeOf(cfg, there.calls[id].principal, there.calls[id].version), there.calls[id].query, a)
  }

  /** With the semantic cache on as well, and room for an entry, such a call has stored its answer there too. */
  lemma {:induction false} EveryAnswerCachedNear(cfg: Config, s: State, steps: seq<Step>, id: nat, a: Answer)
    returns (k: nat)
    requires cfg.cacheEnabled && cfg.semanticOn && cfg.sem.maxEntries > 0
    requires EndsWith(cfg, s, steps, id, a) && (NearPending(s, id) || Asked(steps, id))
    ensures StoresNearAt(cfg, s, steps, id, a, k)
    decreases |steps|
  {
    if steps[0] == StoreNear(id) {
      StoredIsNear(cfg, s, id);
      BoundKept(cfg, Apply(cfg, s, steps[0]), steps[1..], id);
      assert steps[1..][..0] == [];
      AfterPrefix(cfg, s, steps, 0);
      k := 0;
    } else {
      StillNearPending(cfg, s, steps, id, a);
      var j := EveryAnswerCachedNear(cfg, Apply(cfg, s, steps[0]), steps[1..], id, a);
      AfterPrefix(cfg, s, steps, j + 1);
      k := j + 1;
    }
  }

  // ---- A cached answer was given to the same question ----

  /** The answer was given to this call, which asked the question in the scope. */
  predicate GivenTo(cfg: Config, s: State, id: nat, scope: Scope, question: string, a: Answer) {
    && id in s.calls && (s.calls[id].stage.HalfStored? || s.calls[id].stage.Returned?)
    && Bound(s, id) == Some(a) && cfg.sem.normalize(s.calls[id].query) == question
    && scope == CacheScope(s.calls[id].principal, s.calls[id].version, cfg.promptVersion, cfg.params)
  }

  ghost predicate Given(cfg: Config, s: State, scope: Scope, question: string, a: Answer) {
    exists id :: GivenTo(cfg, s, id, scope, question, a)
  }

  lemma GivenKept(cfg: Config, s: State, step: Step, scope: Scope, question: string, a: Answer)
    requires Enabled(cfg, s, step) && Given(cfg, s, scope, question, a)
    ensures Given(cfg, Apply(cfg, s, step), scope, question, a)
  {
    var id :| GivenTo(cfg, s, id, scope, question, a);
    BoundOnce(cfg, s, step, id);
    CallerKept(cfg, s, step, Apply(cfg, s, step), id);
    assert GivenTo(cfg, Apply(cfg, s, step), id, scope, question, a);
  }

  ghost predicate ExactGiven(cfg: Config, s: State, exact: map<Key, Slot<Answer>>) {
    forall k <- exact :: Given(cfg, s, k.scope, k.query, exact[k].value)
  }

  ghost predicate EntryGiven(cfg: Config, s: State, scope: Scope, e: Entry<Answer>) {
    e.vector == cfg.sem.embed(e.query) && Given(cfg, s, scope, e.query, e.value)
  }

  ghost predicate BucketGiven(cfg: Config, s: State, scope: Scope, bucket: seq<Entry<Answer>>) {
    forall e <- bucket :: EntryGiven(cfg, s, scope, e)
  }

  ghost predicate NearGiven(cfg: Config, s: State, near: Buckets<Answer>) {
    forall scope <- near :: BucketGiven(cfg, s, scope, near[scope])
  }

  ghost predicate AllGiven(cfg: Config, s: State) {
    ExactGiven(cfg, s, s.exact) && NearGiven(cfg, s, s.near)
  }

  /** What was given before a step was given after it. */
  lemma ExactStays(cfg: Config, s: State, step: Step)
    requires Enabled(cfg, s, step) && AllGiven(cfg, s)
    ensures ExactGiven(cfg, Apply(cfg, s, step), s.exact)
  {
    forall k | k in s.exact ensures Given(cfg, Apply(cfg, s, step), k.scope, k.query, s.exact[k].value) {
      GivenKept(cfg, s, step, k.scope, k.query, s.exact[k].value);
    }
  }

  lemma BucketStays(cfg: Config, s: State, step: Step, scope: Scope, bucket: seq<Entry<Answer>>)
    requires Enabled(cfg, s, step) && BucketGiven(cfg, s, scope, bucket)
    ensures BucketGiven(cfg, Apply(cfg, s, step), scope, bucket)
  {
    forall e | e in bucket ensures EntryGiven(cfg, Apply(cfg, s, step), scope, e) {
      assert EntryGiven(cfg, s, scope, e);
      GivenKept(cfg, s, step, scope, e.query, e.value);
    }
  }

  lemma NearStays(cfg: Config, s: State, step: Step)
    requires Enabled(cfg, s, step) && AllGiven(cfg, s)
    ensures NearGiven(cfg, Apply(cfg, s, step), s.near)
  {
    forall scope | scope in s.near ensures BucketGiven(cfg, Apply(cfg, s, step), scope, s.near[scope]) {
      BucketStays(cfg, s, step, scope, s.near[scope]);
    }
  }

  lemma StoreExactGiven(cfg: Config, s: State, id: nat)
    requires Enabled(cfg, s, StoreExact(id)) && AllGiven(cfg, s)
    ensures AllGiven(cfg, Apply(cfg, s, StoreExact(id)))
  {
    var c, s' := s.calls[id], Apply(cfg, s, StoreExact(id));
    var key := KeyOf(cfg, c.principal, c.version, c.query);
    ExactStays(cfg, s, StoreExact(id));
    NearStays(cfg, s, StoreExact(id));
    assert GivenTo(cfg, s', id, key.scope, key.query, c.stage.answer);
    forall k | k in s'.exact ensures Given(cfg, s', k.scope, k.query, s'.exact[k].value) {
      assert k != key ==> k in s.exact && s'.exact[k] == s.exact[k];
    }
  }

  lemma StoreNearGiven(cfg: Config, s: State, id: nat)
    requires Enabled(cfg, s, StoreNear(id)) && AllGiven(cfg, s)
    ensures AllGiven(cfg, Apply(cfg, s, StoreNear(id)))
  {
    var c, s' := s.calls[id], Apply(cfg, s, StoreNear(id));
    var scope, q := ScopeOf(cfg, c.principal, c.version), cfg.sem.normalize(c.query);
    ExactStays(cfg, s, StoreNear(id));
    NearStays(cfg, s, StoreNear(id));
    assert GivenTo(cfg, s', id, scope, q, c.stage.answer);
    forall e | e in s'.near[scope] ensures EntryGiven(cfg, s', scope, e) {
      StoredEntries(cfg.sem, Bucket(s.near, scope), c.query, c.stage.answer, e);
      if e in Bucket(s.near, scope) {
        assert BucketGiven(cfg, s', scope, s.near[scope]);
      }
    }
  }

  /** An entry that is there after `set` is the new one or was there before. */
  lemma StoredEntries(sem: Semantics, bucket: seq<Entry<Answer>>, query: string, a: Answer, e: Entry<Answer>)
    requires e in Caches.Stored(sem, bucket, query, a)
    ensures e in bucket || e == Entry(sem.normalize(query), sem.embed(sem.normalize(query)), a)
  {
  }

  lemma StepKeepsGiven(cfg: Config, s: State, step: Step)
    requires Enabled(cfg, s, step) && AllGiven(cfg, s)
    ensures AllGiven(cfg, Apply(cfg, s, step))
  {
    if step.StoreExact? {
      StoreExactGiven(cfg, s, step.id);
    } else if step.StoreNear? {
      StoreNearGiven(cfg, s, step.id);
    } else {
      ExactStays(cfg, s, step);
      NearStays(cfg, s, step);
      OthersOnlyForget(cfg, s, step);
    }
  }

  lemma OthersOnlyForget(cfg: Config, s: State, step: Step)
    requires Enabled(cfg, s, step) && !step.StoreExact? && !step.StoreNear?
    ensures var s' := Apply(cfg, s, step);
            s'.near == s.near && forall k <- s'.exact :: k in s.exact && s'.exact[k] == s.exact[k]
  {
  }

  lemma {:induction false} RunKeepsGiven(cfg: Config, s: State, steps: seq<Step>)
    requires AllGiven(cfg, s) && Runs(cfg, s, steps)
    ensures AllGiven(cfg, After(cfg, s, steps))
    decreases |steps|
  {
    if steps != [] {
      StepKeepsGiven(cfg, s, steps[0]);
      RunKeepsGiven(cfg, Apply(cfg, s, steps[0]), steps[1..]);
    }
  }

  /**
   * A hit in the exact cache is the answer that was given to a caller of the same reach, in the same version, to the
   * same question up to normalisation.
   */
  lemma ExactHitsAnswer(cfg: Config, steps: seq<Step>, id: nat) returns (other: nat)
    requires Runs(cfg, INIT, steps) && Enabled(cfg, After(cfg, INIT, steps), LookExact(id))
    requires var s := After(cfg, INIT, steps);
             Apply(cfg, s, LookExact(id)).calls[id].stage.Returned?
    ensures var s := After(cfg, INIT, steps);
            && other in s.calls && Alike(s.calls[id], s.calls[other])
            && cfg.sem.normalize(s.calls[other].query) == cfg.sem.normalize(s.calls[id].query)
            && Bound(s, other).Some?
            && Apply(cfg, s, LookExact(id)).calls[id].stage.answer == Bound(s, other).value.(cached := true)
  {
    RunKeepsGiven(cfg, INIT, steps);
    var s := After(cfg, INIT, steps);
    var c := s.calls[id];
    var key := KeyOf(cfg, c.principal, c.version, c.query);
    assert Given(cfg, s, key.scope, key.query, s.exact[key].value);
    other :| GivenTo(cfg, s, other, key.scope, key.query, s.exact[key].value);
  }

  /** And a hit in the semantic cache, to a question at least as near as the threshold. */
  lemma NearHitsAnswer(cfg: Config, steps: seq<Step>, id: nat, a: Answer) returns (other: nat)
    requires Runs(cfg, INIT, steps) && Enabled(cfg, After(cfg, INIT, steps), LookNear(id, Some(a)))
    ensures var s := After(cfg, INIT, steps);
            && other in s.calls && Alike(s.calls[id], s.calls[other]) && Bound(s, other) == Some(a)
            && cfg.sem.cosine(cfg.sem.embed(cfg.sem.normalize(s.calls[id].query)),
                              cfg.sem.embed(cfg.sem.normalize(s.calls[other].query))) >= cfg.sem.threshold
            && Apply(cfg, s, LookNear(id, Some(a))).calls[id].stage == Returned(a.(cached := true))
  {
    RunKeepsGiven(cfg, INIT, steps);
    var s := After(cfg, INIT, steps);
    var c := s.calls[id];
    var scope := ScopeOf(cfg, c.principal, c.version);
    var bucket := Bucket(s.near, scope);
    var best: nat :| Nearest(cfg.sem, bucket, c.query, best) && Similarity(cfg.sem, c.query, bucket[best]) >=
                     cfg.sem.threshold && bucket[best].value == a;
    assert scope in s.near && bucket[best] in bucket;
    assert EntryGiven(cfg, s, scope, bucket[best]);
    other :| GivenTo(cfg, s, other, scope, bucket[best].query, a);
  }
}
