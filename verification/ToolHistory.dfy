/**
 * Every interleaved history of tool calls over one result cache: src/rag/agent/runtime.py:270-290 runs the calls of a
 * round side by side, and src/rag/agent/tools/registry.py:64-142 waits for the tool between lookup and store. Each step
 * is one access to the cache, or the run of one tool; entries may go at any time.
 */
module ToolHistory {
  import opened Schemas
  import opened Collections
  import opened Acl
  import opened Caches
  import opened ToolRegistry

  datatype Phase =
    | Missed(request: Request, arguments: Arguments)
    | Ran(request: Request, arguments: Arguments, result: ToolResult)
    | Done(request: Request, result: ToolResult)

  datatype State = State(store: Store, calls: map<nat, Phase>)

  datatype Step =
    | Look(id: nat, request: Request)
    | Work(id: nat)
    | Keep(id: nat, now: int)
    | Forget(keys: set<ToolKey>)

  /** The registry's tools, and its cache. */
  datatype World = World(behave: Behaviour, explain: Explain, cached: Cached)

  ghost predicate Enabled(s: State, step: Step) {
    match step
    case Look(id, q) => id !in s.calls && Clean(q.principal)
    case Work(id) => id in s.calls && s.calls[id].Missed?
    case Keep(id, _) => id in s.calls && s.calls[id].Ran?
    case Forget(_) => true
  }

  /** Gates and lookup, lines 73-119. */
  function Looked(w: World, store: Store, q: Request): Phase {
    match Gate(q.setting, q.call, w.explain)
    case Err(error) => Done(q, Failed(q.call, error))
    case Ok(arguments) =>
      var hit := if w.cached.enabled then Lookup(store, KeyOf(q, arguments), q.now) else None;
      if hit.Some? then Done(q, Bound(hit.value, q.call)) else Missed(q, arguments)
  }

  /** What the lookup leaves: an expired entry goes. */
  function Glanced(w: World, store: Store, q: Request): Store {
    match Gate(q.setting, q.call, w.explain)
    case Err(_) => store
    case Ok(arguments) => if w.cached.enabled then Swept(store, KeyOf(q, arguments), q.now) else store
  }

  /** What is stored when the tool is done, lines 133-140. */
  function Kept(w: World, store: Store, phase: Phase, now: int): Store
    requires phase.Ran?
  {
    if w.cached.enabled && phase.result.ok then
      Written(store, KeyOf(phase.request, phase.arguments), phase.result.(callId := ""), Some(w.cached.ttl), now)
    else store
  }

  function Apply(w: World, s: State, step: Step): State
    requires Enabled(s, step)
  {
    match step
    case Look(id, q) => State(Glanced(w, s.store, q), s.calls[id := Looked(w, s.store, q)])
    case Work(id) =>
      var c := s.calls[id];
      s.(calls := s.calls[id := Ran(c.request, c.arguments, RunTool(w.behave, c.request, c.arguments))])
    case Keep(id, now) =>
      var c := s.calls[id];
      State(Kept(w, s.store, c, now), s.calls[id := Done(c.request, c.result)])
    case Forget(keys) => s.(store := s.store - keys)
  }

  ghost predicate Runs(w: World, s: State, steps: seq<Step>)
    decreases |steps|
  {
    steps == [] || (Enabled(s, steps[0]) && Runs(w, Apply(w, s, steps[0]), steps[1..]))
  }

  ghost function After(w: World, s: State, steps: seq<Step>): State
    requires Runs(w, s, steps)
    decreases |steps|
  {
    if steps == [] then s else After(w, Apply(w, s, steps[0]), steps[1..])
  }

  /** The call is past the gates with these arguments, or it has the result that it would get without a cache. */
  ghost predicate OnCourse(w: World, phase: Phase) {
    && Clean(phase.request.principal)
    && match phase
       case Missed(q, arguments) => Gate(q.setting, q.call, w.explain) == Ok(arguments)
       case Ran(q, arguments, r) =>
         Gate(q.setting, q.call, w.explain) == Ok(arguments) && r == RunTool(w.behave, q, arguments)
       case Done(q, r) => r == Direct(w.behave, w.explain, q)
  }

  ghost predicate Inv(w: World, s: State) {
    TruthfulStore(w.behave, s.store) && forall id <- s.calls :: OnCourse(w, s.calls[id])
  }

  lemma LookKeeps(w: World, s: State, id: nat, q: Request)
    requires ByReach(w.behave) && Inv(w, s) && Enabled(s, Look(id, q))
    ensures OnCourse(w, Looked(w, s.store, q)) && TruthfulStore(w.behave, Glanced(w, s.store, q))
  {
    ExecutedTruthfully(w.behave, w.explain, w.cached, s.store, q);
  }

  lemma KeepKeeps(w: World, store: Store, phase: Phase, now: int)
    requires ByReach(w.behave) && TruthfulStore(w.behave, store) && phase.Ran? && OnCourse(w, phase)
    ensures TruthfulStore(w.behave, Kept(w, store, phase, now))
  {
    if phase.result.ok {
      StoredTruthfully(w.behave, phase.request, phase.arguments);
    }
  }

  lemma StepKeepsInv(w: World, s: State, step: Step)
    requires ByReach(w.behave) && Inv(w, s) && Enabled(s, step)
    ensures Inv(w, Apply(w, s, step))
  {
    match step
    case Look(id, q) => LookKeeps(w, s, id, q);
    case Work(id) => assert OnCourse(w, s.calls[id]);
    case Keep(id, now) =>
      assert OnCourse(w, s.calls[id]);
      KeepKeeps(w, s.store, s.calls[id], now);
    case Forget(_) =>
  }

  lemma {:induction false} RunKeepsInv(w: World, s: State, steps: seq<Step>)
    requires ByReach(w.behave) && Inv(w, s) && Runs(w, s, steps)
    ensures Inv(w, After(w, s, steps))
    decreases |steps|
  {
    if steps != [] {
      StepKeepsInv(w, s, steps[0]);
      RunKeepsInv(w, Apply(w, s, steps[0]), steps[1..]);
    }
  }

  /**
   * However calls overlap, and whatever has left the cache meanwhile, the cache is not seen: a call that is done has
   * the result it would get without one, under its own id and name.
   */
  lemma InterleavedTransparent(w: World, store: Store, steps: seq<Step>, id: nat)
    requires ByReach(w.behave) && TruthfulStore(w.behave, store) && Runs(w, State(store, map[]), steps)
    requires id in After(w, State(store, map[]), steps).calls && After(w, State(store, map[]), steps).calls[id].Done?
    ensures var c := After(w, State(store, map[]), steps).calls[id];
            && c.result == Direct(w.behave, w.explain, c.request)
            && c.result.callId == c.request.call.id && c.result.name == c.request.call.name
  {
    RunKeepsInv(w, State(store, map[]), steps);
    assert OnCourse(w, After(w, State(store, map[]), steps).calls[id]);
  }

  /** The steps of a call that nothing interrupts. */
  function Alone(w: World, store: Store, id: nat, q: Request): seq<Step> {
    if Looked(w, store, q).Done? then [Look(id, q)] else [Look(id, q), Work(id), Keep(id, q.now)]
  }

  /** A call that the gates or the cache answer is done at once. */
  lemma AnsweredAtOnce(w: World, store: Store, q: Request)
    requires Looked(w, store, q).Done?
    ensures var pair := Executed(w.behave, w.explain, w.cached, store, q);
            Looked(w, store, q) == Done(q, pair.0) && Glanced(w, store, q) == pair.1
  {
  }

  /** A call that runs its tool. */
  lemma AnsweredByTool(w: World, store: Store, q: Request)
    requires Looked(w, store, q).Missed?
    ensures var c, pair := Looked(w, store, q), Executed(w.behave, w.explain, w.cached, store, q);
            var ran := Ran(c.request, c.arguments, RunTool(w.behave, c.request, c.arguments));
            ran.request == q && ran.result == pair.0 && Kept(w, Glanced(w, store, q), ran, q.now) == pair.1
  {
  }

  /** Uninterrupted, the steps give the pair that one whole call gives. */
  lemma AloneIsExecuted(w: World, s: State, id: nat, q: Request)
    requires id !in s.calls && Clean(q.principal)
    ensures Runs(w, s, Alone(w, s.store, id, q))
    ensures var end, pair := After(w, s, Alone(w, s.store, id, q)), Executed(w.behave, w.explain, w.cached, s.store, q);
            end == State(pair.1, s.calls[id := Done(q, pair.0)])
  {
    var c, pair := Looked(w, s.store, q), Executed(w.behave, w.explain, w.cached, s.store, q);
    var end := State(pair.1, s.calls[id := Done(q, pair.0)]);
    if c.Done? {
      AnsweredAtOnce(w, s.store, q);
      LastIs(w, s, Look(id, q), end);
    } else {
      AnsweredByTool(w, s.store, q);
      ThreeSteps(w, s, id, q, c, pair.0, pair.1);
    }
  }

  lemma ThreeSteps(w: World, s: State, id: nat, q: Request, c: Phase, r: ToolResult, store: Store)
    requires id !in s.calls && Clean(q.principal) && c == Looked(w, s.store, q) && c.Missed? && c.request == q
    requires r == RunTool(w.behave, q, c.arguments)
    requires store == Kept(w, Glanced(w, s.store, q), Ran(q, c.arguments, r), q.now)
    ensures Runs(w, s, [Look(id, q), Work(id), Keep(id, q.now)])
    ensures After(w, s, [Look(id, q), Work(id), Keep(id, q.now)]) == State(store, s.calls[id := Done(q, r)])
  {
    var s1 := State(Glanced(w, s.store, q), s.calls[id := c]);
    var s2 := State(s1.store, s.calls[id := Ran(q, c.arguments, r)]);
    var end := State(store, s.calls[id := Done(q, r)]);
    assert s2.calls == s1.calls[id := Ran(q, c.arguments, r)] && end.calls == s2.calls[id := Done(q, r)];
    LastIs(w, s2, Keep(id, q.now), end);
    NextIs(w, s1, Work(id), s2, [Keep(id, q.now)], end);
    assert [Work(id)] + [Keep(id, q.now)] == [Work(id), Keep(id, q.now)];
    NextIs(w, s, Look(id, q), s1, [Work(id), Keep(id, q.now)], end);
    assert [Look(id, q)] + [Work(id), Keep(id, q.now)] == [Look(id, q), Work(id), Keep(id, q.now)];
  }

  lemma NextIs(w: World, s: State, step: Step, s': State, rest: seq<Step>, end: State)
    requires Enabled(s, step) && s' == Apply(w, s, step) && Runs(w, s', rest) && After(w, s', rest) == end
    ensures Runs(w, s, [step] + rest) && After(w, s, [step] + rest) == end
  {
    assert ([step] + rest)[1..] == rest;
  }

  lemma LastIs(w: World, s: State, step: Step, end: State)
    requires Enabled(s, step) && end == Apply(w, s, step)
    ensures Runs(w, s, [step]) && After(w, s, [step]) == end
  {
    assert [step] + [] == [step];
    NextIs(w, s, step, end, [], end);
  }
}
