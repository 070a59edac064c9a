/**
 * Whole histories of agent turns: what every answer of the agent is worth, src/rag/api/routes/query.py:96-164, and how
 * a turn that sees the alias move mixes versions.
 */
module AgentTurns {
  import opened Schemas
  import opened Acl
  import opened Caches
  import opened Citations
  import opened AgentAnswers
  import opened AgentHistory
  import opened AgentScenes
  import AgentLoop
  import O = OnlineHistory
  import TR = ToolRegistry

  /** Who asked, what, and under which version the answer is keyed: nothing changes these later. */
  predicate SameCaller(s: State, s': State, id: nat) {
    id in s.calls ==> id in s'.calls && s'.calls[id].(stage := Keyed) == s.calls[id].(stage := Keyed)
  }

  lemma CallerKept(cfg: O.Config, s: State, step: Step, s': State, id: nat)
    requires Enabled(cfg, s, step) && s' == Apply(cfg, s, step)
    ensures SameCaller(s, s', id)
  {
  }

  lemma NextKeeps(cfg: O.Config, s: State, strict: bool, step: Step, s': State, id: nat)
    requires Inv(s, strict) && Enabled(cfg, s, step) && s' == Apply(cfg, s, step)
             && (strict ==> Agrees(cfg, s, step))
    ensures Inv(s', strict) && SameCaller(s, s', id)
  {
    StepKeepsInv(cfg, s, strict, step);
    CallerKept(cfg, s, step, s', id);
  }

  lemma {:induction false} RunKeeps(cfg: O.Config, s: State, strict: bool, steps: seq<Step>, id: nat)
    requires Inv(s, strict) && Runs(cfg, s, steps) && (strict ==> AllAgree(cfg, s, steps))
    ensures Inv(After(cfg, s, steps), strict) && SameCaller(s, After(cfg, s, steps), id)
    decreases |steps|
  {
    if steps != [] {
      var s' := Apply(cfg, s, steps[0]);
      NextKeeps(cfg, s, strict, steps[0], s', id);
      RunKeeps(cfg, s', strict, steps[1..], id);
    }
  }

  /**
   * Whatever happens before a turn and after it begins, whoever else asks meanwhile and wherever the alias goes: what
   * the agent returned to this caller, its own words now or out of the cache, cites only chunks that the caller may
   * see. And if every resolution agreed with what its turn was committed to, it cites only the version that was live
   * when this turn began.
   */
  lemma EveryAgentAnswerSound(cfg: O.Config, before: seq<Step>, id: nat, p: Principal, query: string, params: Params,
                              rest: seq<Step>)
    requires Runs(cfg, INIT, before)
    requires Enabled(cfg, After(cfg, INIT, before), Begin(id, p, query, params))
    requires Runs(cfg, Apply(cfg, After(cfg, INIT, before), Begin(id, p, query, params)), rest)
    ensures var s := After(cfg, INIT, before);
            var s' := Apply(cfg, s, Begin(id, p, query, params));
            var end := After(cfg, s', rest);
            && id in end.calls
            && (end.calls[id].stage.Returned? ==>
                  && Sound(end.calls[id].stage.answer, p, None, end.ever)
                  && (AllAgree(cfg, INIT, before) && AllAgree(cfg, s', rest) ==>
                        Sound(end.calls[id].stage.answer, p, Wanted(true, LiveNow(cfg, s)), end.ever)))
  {
    var s' := Apply(cfg, After(cfg, INIT, before), Begin(id, p, query, params));
    TurnSound(cfg, before, id, p, query, params, rest, false);
    if AllAgree(cfg, INIT, before) && AllAgree(cfg, s', rest) {
      TurnSound(cfg, before, id, p, query, params, rest, true);
    }
  }

  lemma TurnSound(cfg: O.Config, before: seq<Step>, id: nat, p: Principal, query: string, params: Params,
                  rest: seq<Step>, strict: bool)
    requires Runs(cfg, INIT, before) && (strict ==> AllAgree(cfg, INIT, before))
    requires Enabled(cfg, After(cfg, INIT, before), Begin(id, p, query, params))
    requires Runs(cfg, Apply(cfg, After(cfg, INIT, before), Begin(id, p, query, params)), rest)
    requires strict ==> AllAgree(cfg, Apply(cfg, After(cfg, INIT, before), Begin(id, p, query, params)), rest)
    ensures var s := After(cfg, INIT, before);
            var end := After(cfg, Apply(cfg, s, Begin(id, p, query, params)), rest);
            && id in end.calls
            && (end.calls[id].stage.Returned? ==>
                  Sound(end.calls[id].stage.answer, p, Wanted(strict, LiveNow(cfg, s)), end.ever))
  {
    RunKeeps(cfg, INIT, strict, before, id);
    var s := After(cfg, INIT, before);
    StepKeepsInv(cfg, s, strict, Begin(id, p, query, params));
    var s' := Apply(cfg, s, Begin(id, p, query, params));
    RunKeeps(cfg, s', strict, rest, id);
    var end := After(cfg, s', rest);
    assert SoundCall(end.calls[id], strict, end.ever);
  }

  // ---- What the turn itself gives ----

  /** Whatever the loop ends in may be finished with, when the evidence holds all that the turn's tools brought. */
  lemma TurnsCiteEvidence(cfg: AgentLoop.Config, env: AgentLoop.Env, planPrompt: string, fin: Finishing,
                          evidence: set<Source>)
    requires var end := AgentLoop.Loop(cfg, env, AgentLoop.Opening(planPrompt));
             end.Done? ==> forall src :: FromTool(end.turn.rows, src) ==> src in evidence
    ensures var r := AnswerOf(cfg, AgentLoop.Loop(cfg, env, AgentLoop.Opening(planPrompt)), fin);
            r.Some? && OwnAnswer(r.value) ==> CitesEvidence(r.value, cfg.principal, evidence)
  {
    NoRejectedDraft(cfg, env, planPrompt, fin);
    var end := AgentLoop.Loop(cfg, env, AgentLoop.Opening(planPrompt));
    var r := AnswerOf(cfg, end, fin);
    if r.Some? && OwnAnswer(r.value) {
      forall c | c in r.value.citations
        ensures exists src :: src in evidence && MaySee(cfg.principal, src) && c == CitationFromSource(src)
      {
        assert Grounds(c, cfg, end.turn, end.turn.draft.value, fin.markers);
        var src :| c == CitationFromSource(src) && FromTool(end.turn.rows, src) && MaySee(cfg.principal, src);
      }
    }
  }

  // ---- And only then ----

  /** What the agent has returned is sound for its caller, in the version of its key. */
  ghost predicate AnswersSound(s: State) {
    forall id <- s.calls :: s.calls[id].stage.Returned? ==>
      Sound(s.calls[id].stage.answer, s.calls[id].principal, Wanted(true, s.calls[id].version), s.ever)
  }

  /** However the history goes on, as long as resolutions agree. */
  ghost predicate StaysSound(cfg: O.Config, s: State) {
    forall rest :: Runs(cfg, s, rest) && AllAgree(cfg, s, rest) ==> AnswersSound(After(cfg, s, rest))
  }

  lemma InvIsSound(s: State)
    requires Inv(s, true)
    ensures AnswersSound(s)
  {
    forall id | id in s.calls && s.calls[id].stage.Returned?
      ensures Sound(s.calls[id].stage.answer, s.calls[id].principal, Wanted(true, s.calls[id].version), s.ever)
    {
      assert SoundCall(s.calls[id], true, s.ever);
    }
  }

  lemma InvStaysSound(cfg: O.Config, s: State)
    requires Inv(s, true)
    ensures StaysSound(cfg, s)
  {
    forall rest | Runs(cfg, s, rest) && AllAgree(cfg, s, rest)
      ensures AnswersSound(After(cfg, s, rest))
    {
      RunKeeps(cfg, s, true, rest, 0);
      InvIsSound(After(cfg, s, rest));
    }
  }

  lemma UnsoundNow(cfg: O.Config, s: State, id: nat)
    requires id in s.calls && s.calls[id].stage.Returned?
    requires !Sound(s.calls[id].stage.answer, s.calls[id].principal, Wanted(true, s.calls[id].version), s.ever)
    ensures !StaysSound(cfg, s)
  {
    assert Runs(cfg, s, []) && AllAgree(cfg, s, []) && After(cfg, s, []) == s;
  }

  /** What can go wrong after an agreeing step can go wrong before it. */
  lemma WrongBefore(cfg: O.Config, s: State, step: Step, s': State)
    requires Enabled(cfg, s, step) && Agrees(cfg, s, step) && s' == Apply(cfg, s, step) && !StaysSound(cfg, s')
    ensures !StaysSound(cfg, s)
  {
    var rest :| Runs(cfg, s', rest) && AllAgree(cfg, s', rest) && !AnswersSound(After(cfg, s', rest));
    assert ([step] + rest)[1..] == rest;
    assert Runs(cfg, s, [step] + rest) && AllAgree(cfg, s, [step] + rest);
    assert After(cfg, s, [step] + rest) == After(cfg, s', rest);
  }

  /** An unsound answer is returned, once it is stored if it is to be. */
  lemma AnswerWrong(cfg: O.Config, s: State, id: nat, a: AgentAnswer)
    requires id in s.calls && (s.calls[id].stage == Finished(a) || s.calls[id].stage == Returned(a))
    requires !Sound(a, s.calls[id].principal, Wanted(true, s.calls[id].version), s.ever)
    ensures !StaysSound(cfg, s)
  {
    if s.calls[id].stage.Finished? {
      var s' := Apply(cfg, s, Store(id));
      UnsoundNow(cfg, s', id);
      WrongBefore(cfg, s, Store(id), s');
    } else {
      UnsoundNow(cfg, s, id);
    }
  }

  // ---- A chunk that tells versions apart ----

  function Example(w: Wording, p: Principal, version: string, doc: string): Chunk {
    Chunk(w.hash(doc, 0, "1.0", version), doc, 0, "x", (0, 1), AclTags(p.tenant, {}), version)
  }

  function SourceOf(c: Chunk): Source {
    SourceFrom(ScoredChunk(c, 1.0, 1, Fused), c.docId)
  }

  /** The chunk is indexed, the caller may see it, and no other chunk is of its document. */
  ghost predicate Telling(w: Wording, s: State, p: Principal, c: Chunk) {
    && c in s.ever && IsAllowed(p, c.acl) && Marks(w, c.chunkId)
    && forall d <- s.ever :: d.docId == c.docId ==> d == c
  }

  lemma {:induction false} LongerThanAll(ever: set<Chunk>) returns (doc: string)
    ensures doc != "" && forall c <- ever :: |c.docId| < |doc|
  {
    if ever == {} {
      doc := "x";
    } else {
      var c :| c in ever;
      var rest := LongerThanAll(ever - {c});
      doc := rest + c.docId;
      assert |c.docId| < |doc|;
      assert forall d <- ever :: d == c || d in ever - {c};
    }
  }

  lemma {:induction false} AboveAll(ids: set<nat>) returns (id: nat)
    ensures forall n <- ids :: n < id
  {
    if ids == {} {
      id := 0;
    } else {
      var n :| n in ids;
      var m := AboveAll(ids - {n});
      id := if m > n then m else n + 1;
      assert forall k <- ids :: k == n || k in ids - {n};
    }
  }

  /** Citations of such a chunk are sound for its own version alone. */
  lemma TellsApart(w: Wording, s: State, p: Principal, c: Chunk, v: string)
    requires Telling(w, s, p, c) && c.indexVersion != v
    ensures !SoundCitation(CitationFromSource(SourceOf(c)), p, Some(v), s.ever)
  {
    forall t, title | OfChunk(t, p, Some(v), s.ever)
      ensures CitationFromSource(SourceOf(c)) != CitationFromSource(SourceFrom(t, title))
    {
      assert t.chunk.docId == c.docId ==> t.chunk == c;
    }
  }

  // ---- From each kind of disagreement to an unsound answer ----

  /** A turn whose evidence is of another version than its key says so, in an answer that the loop gives. */
  lemma SaysWrong(cfg: O.Config, w: Wording, s: State, id: nat, c: Chunk)
    requires Able(w) && InTurn(s, id) && SourceOf(c) in s.calls[id].stage.evidence
    requires Telling(w, s, s.calls[id].principal, c)
    requires s.calls[id].version != "" && LiveNow(cfg, s) == s.calls[id].version != c.indexVersion
    ensures !StaysSound(cfg, s)
  {
    var p, v, src := s.calls[id].principal, s.calls[id].version, SourceOf(c);
    SaysSo(w, p, src, v);
    var a := Said(w, p, src, v).value;
    FinishWrong(cfg, w, s, id, c, a);
  }

  lemma FinishWrong(cfg: O.Config, w: Wording, s: State, id: nat, c: Chunk, a: AgentAnswer)
    requires InTurn(s, id) && SourceOf(c) in s.calls[id].stage.evidence && Telling(w, s, s.calls[id].principal, c)
    requires s.calls[id].version != "" && LiveNow(cfg, s) == s.calls[id].version != c.indexVersion
    requires OwnAnswer(a) && a.citations != [] && forall x <- a.citations :: x == CitationFromSource(SourceOf(c))
    ensures !StaysSound(cfg, s)
  {
    var p, v := s.calls[id].principal, s.calls[id].version;
    assert CitesEvidence(a, p, s.calls[id].stage.evidence);
    var s' := Apply(cfg, s, Finish(id, a));
    TellsApart(w, s, p, c, v);
    var labelled := a.(indexVersion := v);
    assert labelled.citations[0] in labelled.citations;
    AnswerWrong(cfg, s', id, labelled);
    WrongBefore(cfg, s, Finish(id, a), s');
  }

  /** A retrieval that resolved a version other than the key's: it may bring such a chunk, and the turn may cite it. */
  lemma AskedWrong(cfg: O.Config, w: Wording, s: State, id: nat, job: nat)
    requires Able(w) && InTurn(s, id) && s.calls[id].version != ""
    requires job in s.calls[id].stage.jobs && s.calls[id].stage.jobs[job].Asked?
    requires s.calls[id].stage.jobs[job].live != s.calls[id].version
    ensures !StaysSound(cfg, s)
  {
    var s3, c := BringsAndLands(cfg, w, s, id, job, s.calls[id].version);
    var s4 := s3.(alias := Some(s.calls[id].version));
    SaysWrong(cfg, w, s4, id, c);
    WrongBefore(cfg, s3, SetAlias(s.calls[id].version), s4);
    WrongLater(cfg, w, s, id, job, c, s3);
  }

  /** A chunk of the version that was resolved, or of another than `v` if none was. */
  function Foreign(live: string, v: string): string {
    if live != "" then live else v + "x"
  }

  function Indexed(s: State, c: Chunk): State {
    s.(ever := s.ever + {c})
  }

  /** The retrieval `job` has brought the chunk, and it has landed. */
  function Landed(s: State, id: nat, job: nat, c: Chunk): State
    requires id in s.calls && s.calls[id].stage.Turning? && job in s.calls[id].stage.jobs
  {
    var t, key := s.calls[id].stage, s.calls[id].stage.jobs[job].key;
    var t' := t.(evidence := t.evidence + {SourceOf(c)}, jobs := t.jobs[job := Brought(key, {SourceOf(c)})]);
    s.(ever := s.ever + {c}, tools := s.tools[key := {SourceOf(c)}], calls := s.calls[id := s.calls[id].(stage := t')])
  }

  lemma BringsAndLands(cfg: O.Config, w: Wording, s: State, id: nat, job: nat, v: string) returns (s3: State, c: Chunk)
    requires Able(w) && InTurn(s, id) && job in s.calls[id].stage.jobs && s.calls[id].stage.jobs[job].Asked?
    requires s.calls[id].stage.jobs[job].live != v
    ensures Telling(w, Indexed(s, c), s.calls[id].principal, c) && c.indexVersion != v
    ensures c.indexVersion == Foreign(s.calls[id].stage.jobs[job].live, v)
    ensures s3 == Landed(s, id, job, c)
  {
    var p, live := s.calls[id].principal, s.calls[id].stage.jobs[job].live;
    var doc := LongerThanAll(s.ever);
    c := Example(w, p, Foreign(live, v), doc);
    s3 := Landed(s, id, job, c);
    assert Foreign(live, v) != v by {
      assert |v + "x"| != |v|;
    }
  }

  lemma WrongLater(cfg: O.Config, w: Wording, s: State, id: nat, job: nat, c: Chunk, s3: State)
    requires InTurn(s, id) && job in s.calls[id].stage.jobs && s.calls[id].stage.jobs[job].Asked?
    requires Telling(w, Indexed(s, c), s.calls[id].principal, c)
    requires s.calls[id].stage.jobs[job].live == "" || c.indexVersion == s.calls[id].stage.jobs[job].live
    requires s3 == Landed(s, id, job, c) && !StaysSound(cfg, s3)
    ensures !StaysSound(cfg, s)
  {
    var p, t, j, src := s.calls[id].principal, s.calls[id].stage, s.calls[id].stage.jobs[job], SourceOf(c);
    var s1 := Indexed(s, c);
    assert OfChunk(ScoredChunk(c, 1.0, 1, Fused), p, Wanted(true, j.live), s1.ever);
    var s2 := Moved(s1, id, t.(jobs := t.jobs[job := Brought(j.key, {src})]));
    LandsWrong(cfg, s2, id, job, s3);
    WrongBefore(cfg, s1, Bring(id, job, {src}), s2);
    WrongBefore(cfg, s, Index({c}), s1);
  }

  lemma LandsWrong(cfg: O.Config, s: State, id: nat, job: nat, s': State)
    requires Enabled(cfg, s, Land(id, job)) && !StaysSound(cfg, s')
    requires var t := s.calls[id].stage;
             var j := t.jobs[job];
             s' == Moved(s, id, t.(evidence := t.evidence + j.sources)).(tools := s.tools[j.key := j.sources])
    ensures !StaysSound(cfg, s)
  {
    WrongBefore(cfg, s, Land(id, job), s');
  }

  /**
   * A turn that started under another version than its key: its very first retrieval, agreeing or not, may go
   * wrong.
   */
  lemma StartWrong(cfg: O.Config, w: Wording, s: State, id: nat)
    requires Able(w) && Enabled(cfg, s, Start(id)) && !Agrees(cfg, s, Start(id))
    ensures !StaysSound(cfg, Apply(cfg, s, Start(id)))
  {
    var u, p := LiveNow(cfg, s), s.calls[id].principal;
    var s1 := Apply(cfg, s, Start(id));
    var key := TR.ToolKey(w.call.name, w.call.arguments.at, Fingerprint(p), u);
    var s2 := Apply(cfg, s1, Ask(id, 0, key));
    AskedWrong(cfg, w, s2, id, 0);
    WrongBefore(cfg, s1, Ask(id, 0, key), s2);
  }

  /** What one turn left under a tool key of another version, a later turn may find, start to finish under that key. */
  lemma FoundWrong(cfg: O.Config, w: Wording, s: State, key: TR.ToolKey, p: Principal, c: Chunk)
    requires Able(w) && Clean(p) && KeyedFor(key, p, key.indexVersion) && key.indexVersion != ""
    requires key in s.tools && SourceOf(c) in s.tools[key] && Telling(w, s, p, c) && c.indexVersion != key.indexVersion
    ensures !StaysSound(cfg, s)
  {
    var t := key.indexVersion;
    var n := AboveAll(s.calls.Keys);
    var s1 := s.(alias := Some(t));
    var s2 := s1.(answers := s1.answers - s1.answers.Keys, tools := s1.tools - {});
    var s3 := s2.(calls := s2.calls[n := Call(p, w.prompt, map[], t, Keyed)]);
    var s4 := Moved(s3, n, Missed);
    var s5 := Moved(s4, n, Turning(t, {}, map[]));
    var s6 := Moved(s5, n, Turning(t, {} + s5.tools[key], map[]));
    SaysWrong(cfg, w, s6, n, c);
    WrongBefore(cfg, s5, Hit(n, key), s6);
    WrongBefore(cfg, s4, Start(n), s5);
    WrongBefore(cfg, s3, LookUp(n), s4);
    WrongBefore(cfg, s2, Begin(n, p, w.prompt, map[]), s3);
    WrongBefore(cfg, s1, Forget(s1.answers.Keys, {}), s2);
    WrongBefore(cfg, s, SetAlias(t), s1);
  }

  /** A retrieval that resolves another version than its turn's. */
  lemma AskWrong(cfg: O.Config, w: Wording, s: State, id: nat, job: nat, key: TR.ToolKey)
    requires Able(w) && Inv(s, true) && Enabled(cfg, s, Ask(id, job, key)) && !Agrees(cfg, s, Ask(id, job, key))
    ensures !StaysSound(cfg, Apply(cfg, s, Ask(id, job, key)))
  {
    var call, t := s.calls[id], s.calls[id].stage.version;
    assert SoundCall(call, true, s.ever);
    var s1 := Apply(cfg, s, Ask(id, job, key));
    if call.version != "" {
      AskedWrong(cfg, w, s1, id, job);
    } else {
      var s4, c := BringsAndLands(cfg, w, s1, id, job, t);
      FoundWrong(cfg, w, s4, key, call.principal, c);
      WrongLater(cfg, w, s1, id, job, c, s4);
    }
  }

  /** An answer of the agent's own that is labelled with another version than its key's. */
  lemma LabelWrong(cfg: O.Config, s: State, id: nat, a: AgentAnswer)
    requires Enabled(cfg, s, Finish(id, a)) && !Agrees(cfg, s, Finish(id, a))
    ensures !StaysSound(cfg, Apply(cfg, s, Finish(id, a)))
  {
    AnswerWrong(cfg, Apply(cfg, s, Finish(id, a)), id, a.(indexVersion := LiveNow(cfg, s)));
  }

  /**
   * The exact condition, step by step. From a state that is in order, whatever comes after a step, as long as
   * resolutions agree, returns sound answers only, exactly when the step itself agrees.
   */
  lemma AgreementExactly(cfg: O.Config, w: Wording, s: State, step: Step)
    requires Able(w) && Inv(s, true) && Enabled(cfg, s, step)
    ensures StaysSound(cfg, Apply(cfg, s, step)) <==> Agrees(cfg, s, step)
  {
    if Agrees(cfg, s, step) {
      StepKeepsInv(cfg, s, true, step);
      InvStaysSound(cfg, Apply(cfg, s, step));
    } else {
      match step
      case Start(id) => StartWrong(cfg, w, s, id);
      case Ask(id, job, key) => AskWrong(cfg, w, s, id, job, key);
      case Finish(id, a) => LabelWrong(cfg, s, id, a);
      case _ =>
    }
  }

  /** Nowhere along the history can agreeing steps go wrong. */
  ghost predicate NeverTurns(cfg: O.Config, s: State, steps: seq<Step>)
    requires Runs(cfg, s, steps)
    decreases |steps|
  {
    StaysSound(cfg, s) && (steps == [] || NeverTurns(cfg, Apply(cfg, s, steps[0]), steps[1..]))
  }

  /**
   * And for whole histories: all resolutions agree exactly when no point of the history has an agreeing continuation
   * that ends in an unsound answer.
   */
  lemma {:induction false} AllAgreeExactly(cfg: O.Config, w: Wording, s: State, steps: seq<Step>)
    requires Able(w) && Inv(s, true) && Runs(cfg, s, steps)
    ensures NeverTurns(cfg, s, steps) <==> AllAgree(cfg, s, steps)
    decreases |steps|
  {
    InvStaysSound(cfg, s);
    if steps != [] {
      var s' := Apply(cfg, s, steps[0]);
      AgreementExactly(cfg, w, s, steps[0]);
      if Agrees(cfg, s, steps[0]) {
        StepKeepsInv(cfg, s, true, steps[0]);
        AllAgreeExactly(cfg, w, s', steps[1..]);
      }
    }
  }

  // ---- One retrieval that disagrees, from the start, and what the next caller is handed ----

  ghost predicate Reachable(cfg: O.Config, s: State) {
    exists steps :: Runs(cfg, INIT, steps) && After(cfg, INIT, steps) == s
  }

  lemma {:induction false} RunSnoc(cfg: O.Config, s: State, steps: seq<Step>, step: Step)
    requires Runs(cfg, s, steps) && Enabled(cfg, After(cfg, s, steps), step)
    ensures Runs(cfg, s, steps + [step]) && After(cfg, s, steps + [step]) == Apply(cfg, After(cfg, s, steps), step)
    decreases |steps|
  {
    if steps == [] {
      assert [step][1..] == [] && steps + [step] == [step];
    } else {
      assert (steps + [step])[1..] == steps[1..] + [step];
      RunSnoc(cfg, Apply(cfg, s, steps[0]), steps[1..], step);
    }
  }

  lemma Reach(cfg: O.Config, s: State, step: Step, s': State)
    requires Reachable(cfg, s) && Enabled(cfg, s, step) && s' == Apply(cfg, s, step)
    ensures Reachable(cfg, s')
  {
    var steps :| Runs(cfg, INIT, steps) && After(cfg, INIT, steps) == s;
    RunSnoc(cfg, INIT, steps, step);
  }

  /** One caller, one question, a version, and a chunk of another. */
  datatype Scene = Scene(cfg: O.Config, w: Wording, p: Principal, query: string, params: Params, v: string,
                         chunk: Chunk)

  ghost predicate Apt(x: Scene) {
    && x.cfg.cacheEnabled && Clean(x.p) && IsAllowed(x.p, x.chunk.acl)
    && Roomy(x.w.budget, x.w.usage) && Marks(x.w, x.chunk.chunkId)
    && x.v != "" && x.chunk.indexVersion != "" && x.chunk.indexVersion != x.v
  }

  function SceneKey(x: Scene): TR.ToolKey {
    TR.ToolKey(x.w.call.name, x.w.call.arguments.at, Fingerprint(x.p), x.v)
  }

  function SceneCall(x: Scene, stage: Stage): Call {
    Call(x.p, x.query, x.params, x.v, stage)
  }

  function SceneState(x: Scene, alias: string, answers: map<Key, AgentAnswer>, tools: map<TR.ToolKey, set<Source>>,
                      calls: map<nat, Call>): State
  {
    State(Some(alias), answers, tools, {x.chunk}, calls)
  }

  /** The alias is back; no answer is stored, and the turn of call 0 has this evidence and these jobs. */
  function TurnState(x: Scene, alias: string, tools: map<TR.ToolKey, set<Source>>, evidence: set<Source>,
                     jobs: map<nat, Job>): State
  {
    SceneState(x, alias, map[], tools, map[0 := SceneCall(x, Turning(x.v, evidence, jobs))])
  }

  lemma SceneBegun(x: Scene)
    requires Apt(x)
    ensures Reachable(x.cfg, SceneState(x, x.v, map[], map[], map[0 := SceneCall(x, Keyed)]))
  {
    assert Runs(x.cfg, INIT, []) && After(x.cfg, INIT, []) == INIT;
    var s1 := INIT.(ever := {x.chunk});
    Reach(x.cfg, INIT, Index({x.chunk}), s1);
    var s2 := SceneState(x, x.v, map[], map[], map[]);
    Reach(x.cfg, s1, SetAlias(x.v), s2);
    Reach(x.cfg, s2, Begin(0, x.p, x.query, x.params), SceneState(x, x.v, map[], map[], map[0 := SceneCall(x, Keyed)]));
  }

  lemma SceneStarted(x: Scene)
    requires Apt(x)
    ensures Reachable(x.cfg, TurnState(x, x.v, map[], {}, map[]))
  {
    SceneBegun(x);
    var s1 := SceneState(x, x.v, map[], map[], map[0 := SceneCall(x, Keyed)]);
    var s2 := SceneState(x, x.v, map[], map[], map[0 := SceneCall(x, Missed)]);
    assert s2.calls == s1.calls[0 := SceneCall(x, Missed)];
    Reach(x.cfg, s1, LookUp(0), s2);
    var s3 := TurnState(x, x.v, map[], {}, map[]);
    assert s3.calls == s2.calls[0 := SceneCall(x, Turning(x.v, {}, map[]))];
    Reach(x.cfg, s2, Start(0), s3);
  }

  /** The alias moves to the chunk's version, a retrieval resolves it, and the alias moves back. */
  lemma SceneAsked(x: Scene)
    requires Apt(x)
    ensures Reachable(x.cfg, TurnState(x, x.v, map[], {}, map[0 := Asked(SceneKey(x), x.chunk.indexVersion)]))
  {
    SceneStarted(x);
    var u := x.chunk.indexVersion;
    var jobs := map[0 := Asked(SceneKey(x), u)];
    var s1, s2 := TurnState(x, u, map[], {}, map[]), TurnState(x, u, map[], {}, jobs);
    Reach(x.cfg, TurnState(x, x.v, map[], {}, map[]), SetAlias(u), s1);
    assert s2.calls == s1.calls[0 := SceneCall(x, Turning(x.v, {}, jobs))];
    Reach(x.cfg, s1, Ask(0, 0, SceneKey(x)), s2);
    Reach(x.cfg, s2, SetAlias(x.v), TurnState(x, x.v, map[], {}, jobs));
  }

  lemma SceneBrought(x: Scene)
    requires Apt(x)
    ensures Reachable(x.cfg, TurnState(x, x.v, map[], {}, map[0 := Brought(SceneKey(x), {SourceOf(x.chunk)})]))
  {
    SceneAsked(x);
    var u, key, src := x.chunk.indexVersion, SceneKey(x), SourceOf(x.chunk);
    assert OfChunk(ScoredChunk(x.chunk, 1.0, 1, Fused), x.p, Wanted(true, u), {x.chunk});
    var s1 := TurnState(x, x.v, map[], {}, map[0 := Asked(key, u)]);
    var s2 := TurnState(x, x.v, map[], {}, map[0 := Brought(key, {src})]);
    assert map[0 := Asked(key, u)][0 := Brought(key, {src})] == map[0 := Brought(key, {src})];
    assert s2.calls == s1.calls[0 := SceneCall(x, Turning(x.v, {}, map[0 := Brought(key, {src})]))];
    Reach(x.cfg, s1, Bring(0, 0, {src}), s2);
  }

  lemma SceneLanded(x: Scene)
    requires Apt(x)
    ensures Reachable(x.cfg, TurnState(x, x.v, map[SceneKey(x) := {SourceOf(x.chunk)}], {SourceOf(x.chunk)},
                                       map[0 := Brought(SceneKey(x), {SourceOf(x.chunk)})]))
  {
    SceneBrought(x);
    var key, src := SceneKey(x), SourceOf(x.chunk);
    var jobs := map[0 := Brought(key, {src})];
    var s1, s2 := TurnState(x, x.v, map[], {}, jobs), TurnState(x, x.v, map[key := {src}], {src}, jobs);
    assert {} + {src} == {src};
    assert s2.calls == s1.calls[0 := SceneCall(x, Turning(x.v, {src}, jobs))];
    Reach(x.cfg, s1, Land(0, 0), s2);
  }

  /** An answer of the agent's own, labelled with the key's version, that cites nothing but the chunk. */
  predicate Quotes(x: Scene, a: AgentAnswer) {
    && OwnAnswer(a) && IsStored(true, a) && a.indexVersion == x.v && !a.cached
    && a.citations != [] && forall c <- a.citations :: c == CitationFromSource(SourceOf(x.chunk))
  }

  lemma SceneFinished(x: Scene, a: AgentAnswer)
    requires Apt(x) && Quotes(x, a)
    ensures Reachable(x.cfg, SceneState(x, x.v, map[], map[SceneKey(x) := {SourceOf(x.chunk)}],
                                        map[0 := SceneCall(x, Finished(a))]))
  {
    SceneLanded(x);
    var key, src := SceneKey(x), SourceOf(x.chunk);
    var s1 := TurnState(x, x.v, map[key := {src}], {src}, map[0 := Brought(key, {src})]);
    var s2 := SceneState(x, x.v, map[], map[key := {src}], map[0 := SceneCall(x, Finished(a))]);
    assert src in {src} && MaySee(x.p, src);
    assert CitesEvidence(a, x.p, {src}) && a.(indexVersion := x.v) == a;
    assert s2.calls == s1.calls[0 := SceneCall(x, Finished(a))];
    Reach(x.cfg, s1, Finish(0, a), s2);
  }

  /** The answer is stored under the key, and the same question is asked again. */
  function SecondAsks(x: Scene, a: AgentAnswer): State {
    SceneState(x, x.v, map[KeyOf(x.cfg, SceneCall(x, Keyed)) := a], map[SceneKey(x) := {SourceOf(x.chunk)}],
               map[0 := SceneCall(x, Returned(a)), 1 := SceneCall(x, Keyed)])
  }

  lemma AskedAgain(x: Scene, a: AgentAnswer)
    requires Apt(x) && Quotes(x, a)
    ensures Reachable(x.cfg, SecondAsks(x, a))
  {
    SceneFinished(x, a);
    var answers, tools := map[KeyOf(x.cfg, SceneCall(x, Keyed)) := a], map[SceneKey(x) := {SourceOf(x.chunk)}];
    var s1 := SceneState(x, x.v, map[], tools, map[0 := SceneCall(x, Finished(a))]);
    var s2 := SceneState(x, x.v, answers, tools, map[0 := SceneCall(x, Returned(a))]);
    assert s2.calls == s1.calls[0 := SceneCall(x, Returned(a))];
    Reach(x.cfg, s1, Store(0), s2);
    assert SecondAsks(x, a).calls == s2.calls[1 := SceneCall(x, Keyed)];
    Reach(x.cfg, s2, Begin(1, x.p, x.query, x.params), SecondAsks(x, a));
  }

  function MixedState(x: Scene, a: AgentAnswer): State {
    var s := SecondAsks(x, a);
    s.(calls := s.calls[1 := SceneCall(x, Returned(a.(cached := true)))])
  }

  /**
   * It happens. The alias moves and moves back, one retrieval in between resolves it, and every other resolution
   * agrees. What the turn then answers is what its loop answers: a search, a draft, an approval. The next caller with
   * the same question is handed it out of the cache: labelled `v`, it cites a chunk of another version.
   */
  lemma MixedAnswer(x: Scene)
    requires Apt(x)
    ensures var r := Said(x.w, x.p, SourceOf(x.chunk), x.v);
            && r.Some? && Quotes(x, r.value)
            && (forall src :: FromTool(Ending(x.w, x.p, SourceOf(x.chunk)).turn.rows, src) <==>
                  src == SourceOf(x.chunk))
            && Reachable(x.cfg, MixedState(x, r.value)) && LiveNow(x.cfg, MixedState(x, r.value)) == x.v
            && !SoundCitation(r.value.citations[0], x.p, Some(x.v), MixedState(x, r.value).ever)
  {
    SaysSo(x.w, x.p, SourceOf(x.chunk), x.v);
    Handed(x, Said(x.w, x.p, SourceOf(x.chunk), x.v).value);
  }

  lemma Handed(x: Scene, a: AgentAnswer)
    requires Apt(x) && Quotes(x, a)
    ensures Reachable(x.cfg, MixedState(x, a)) && LiveNow(x.cfg, MixedState(x, a)) == x.v
    ensures !SoundCitation(a.citations[0], x.p, Some(x.v), MixedState(x, a).ever)
  {
    AskedAgain(x, a);
    Reach(x.cfg, SecondAsks(x, a), LookUp(1), MixedState(x, a));
    assert a.citations[0] in a.citations;
    TellsApart(x.w, MixedState(x, a), x.p, x.chunk, x.v);
  }
}
