/**
 * What src/rag/api/routes/query.py:134-164 puts in the answer cache, over every interleaved history of agent turns:
 * every answer of the agent's own, and nothing that was not given to the same question.
 */
module AgentCaching {
  import opened Schemas
  import opened Acl
  import opened Caches
  import opened AgentAnswers
  import opened AgentHistory
  import AgentLoop
  import O = OnlineHistory

  /** The answer a call is bound to give, once it has one. */
  function Bound(s: State, id: nat): Option<AgentAnswer> {
    if id !in s.calls then None
    else
      match s.calls[id].stage
      case Finished(a) => Some(a)
      case Returned(a) => Some(a)
      case _ => None
  }

  lemma BoundOnce(cfg: O.Config, s: State, step: Step, id: nat)
    requires Enabled(cfg, s, step) && Bound(s, id).Some?
    ensures Bound(Apply(cfg, s, step), id) == Bound(s, id)
    ensures s.calls[id].stage.Returned? ==> Apply(cfg, s, step).calls[id] == s.calls[id]
  {
  }

  lemma {:induction false} BoundKept(cfg: O.Config, s: State, steps: seq<Step>, id: nat)
    requires Runs(cfg, s, steps) && Bound(s, id).Some?
    ensures Bound(After(cfg, s, steps), id) == Bound(s, id)
    decreases |steps|
  {
    if steps != [] {
      BoundOnce(cfg, s, steps[0], id);
      BoundKept(cfg, Apply(cfg, s, steps[0]), steps[1..], id);
    }
  }

  // ---- Every answer of the agent's own is cached ----

  /** The agent's turn for the call ends with an answer. */
  ghost predicate Ends(steps: seq<Step>, id: nat) {
    exists j :: 0 <= j < |steps| && steps[j].Finish? && steps[j].id == id
  }

  predicate Pending(s: State, id: nat) {
    id in s.calls && (s.calls[id].stage.Turning? || s.calls[id].stage.Finished?)
  }

  /** The call returns this answer, one the agent gave under its own power. */
  ghost predicate EndsWith(cfg: O.Config, s: State, steps: seq<Step>, id: nat, a: AgentAnswer) {
    && Runs(cfg, s, steps) && OwnAnswer(a) && a.stopReason in AgentLoop.ANSWERABLE_STOPS
    && id in After(cfg, s, steps).calls && After(cfg, s, steps).calls[id].stage == Returned(a)
  }

  lemma StillPending(cfg: O.Config, s: State, steps: seq<Step>, id: nat, a: AgentAnswer)
    requires cfg.cacheEnabled && EndsWith(cfg, s, steps, id, a) && (Pending(s, id) || Ends(steps, id))
    requires steps != [] && steps[0] != Store(id)
    ensures var s' := Apply(cfg, s, steps[0]);
            EndsWith(cfg, s', steps[1..], id, a) && (Pending(s', id) || Ends(steps[1..], id))
  {
    var s' := Apply(cfg, s, steps[0]);
    if steps[0].Finish? && steps[0].id == id {
      if !Pending(s', id) {
        BoundKept(cfg, s', steps[1..], id);
      }
    } else if !Pending(s, id) {
      var j :| 0 <= j < |steps| && steps[j].Finish? && steps[j].id == id;
      assert steps[1..][j - 1] == steps[j];
    }
  }

  lemma AfterPrefix(cfg: O.Config, s: State, steps: seq<Step>, n: nat)
    requires Runs(cfg, s, steps) && n < |steps|
    requires Runs(cfg, Apply(cfg, s, steps[0]), steps[1..][..n])
    ensures Runs(cfg, s, steps[..n + 1])
    ensures After(cfg, s, steps[..n + 1]) == After(cfg, Apply(cfg, s, steps[0]), steps[1..][..n])
  {
    assert steps[..n + 1][1..] == steps[1..][..n];
  }

  /** The `k`-th step puts the answer into the cache, under the call's own scope and question. */
  ghost predicate StoresAt(cfg: O.Config, s: State, steps: seq<Step>, id: nat, a: AgentAnswer, k: nat) {
    && k < |steps| && steps[k] == Store(id) && Runs(cfg, s, steps[..k + 1])
    && var there := After(cfg, s, steps[..k + 1]);
       && id in there.calls && KeyOf(cfg, there.calls[id]) in there.answers
       && there.answers[KeyOf(cfg, there.calls[id])] == a
  }

  /** With caching on, a turn that returned an answer of the agent's own has stored it on its way. */
  lemma {:induction false} EveryOwnAnswerCached(cfg: O.Config, s: State, steps: seq<Step>, id: nat, a: AgentAnswer)
    returns (k: nat)
    requires cfg.cacheEnabled && EndsWith(cfg, s, steps, id, a) && (Pending(s, id) || Ends(steps, id))
    ensures StoresAt(cfg, s, steps, id, a, k)
    decreases |steps|
  {
    if steps[0] == Store(id) {
      BoundOnce(cfg, s, steps[0], id);
      BoundKept(cfg, Apply(cfg, s, steps[0]), steps[1..], id);
      assert steps[1..][..0] == [];
      AfterPrefix(cfg, s, steps, 0);
      k := 0;
    } else {
      StillPending(cfg, s, steps, id, a);
      var j := EveryOwnAnswerCached(cfg, Apply(cfg, s, steps[0]), steps[1..], id, a);
      AfterPrefix(cfg, s, steps, j + 1);
      k := j + 1;
    }
  }

  // ---- A cached answer was given to the same question ----

  /** The answer was the agent's own, and was given to this call, which asked the question in the scope. */
  predicate GivenTo(cfg: O.Config, s: State, id: nat, key: Key, a: AgentAnswer) {
    && id in s.calls && s.calls[id].stage == Returned(a) && OwnAnswer(a)
    && cfg.sem.normalize(s.calls[id].query) == key.query
    && key.scope == CacheScope(s.calls[id].principal, s.calls[id].version, cfg.promptVersion, s.calls[id].params)
  }

  ghost predicate Given(cfg: O.Config, s: State, key: Key, a: AgentAnswer) {
    exists id :: GivenTo(cfg, s, id, key, a)
  }

  /** What is stored is the agent's own, and was given; and what is on its way there is its own, too. */
  ghost predicate AllGiven(cfg: O.Config, s: State) {
    && (forall k <- s.answers :: Given(cfg, s, k, s.answers[k]))
    && forall id <- s.calls :: s.calls[id].stage.Finished? ==> OwnAnswer(s.calls[id].stage.answer)
  }

  lemma GivenKept(cfg: O.Config, s: State, step: Step, key: Key, a: AgentAnswer)
    requires Enabled(cfg, s, step) && Given(cfg, s, key, a)
    ensures Given(cfg, Apply(cfg, s, step), key, a)
  {
    var id :| GivenTo(cfg, s, id, key, a);
    BoundOnce(cfg, s, step, id);
    assert GivenTo(cfg, Apply(cfg, s, step), id, key, a);
  }

  lemma StepKeepsGiven(cfg: O.Config, s: State, step: Step)
    requires Enabled(cfg, s, step) && AllGiven(cfg, s)
    ensures AllGiven(cfg, Apply(cfg, s, step))
  {
    var s' := Apply(cfg, s, step);
    forall k | k in s'.answers ensures Given(cfg, s', k, s'.answers[k]) {
      if k in s.answers && s'.answers[k] == s.answers[k] {
        GivenKept(cfg, s, step, k, s.answers[k]);
      } else {
        StoredNow(cfg, s, step, k);
      }
    }
    StillOwn(cfg, s, step);
  }

  lemma StillOwn(cfg: O.Config, s: State, step: Step)
    requires Enabled(cfg, s, step)
    requires forall id <- s.calls :: s.calls[id].stage.Finished? ==> OwnAnswer(s.calls[id].stage.answer)
    ensures var s' := Apply(cfg, s, step);
            forall id <- s'.calls :: s'.calls[id].stage.Finished? ==> OwnAnswer(s'.calls[id].stage.answer)
  {
  }

  lemma StoredNow(cfg: O.Config, s: State, step: Step, k: Key)
    requires Enabled(cfg, s, step) && AllGiven(cfg, s) && k in Apply(cfg, s, step).answers
    requires k !in s.answers || Apply(cfg, s, step).answers[k] != s.answers[k]
    ensures Given(cfg, Apply(cfg, s, step), k, Apply(cfg, s, step).answers[k])
  {
    assert step.Store?;
    assert GivenTo(cfg, Apply(cfg, s, step), step.id, k, s.calls[step.id].stage.answer);
  }

  lemma {:induction false} RunKeepsGiven(cfg: O.Config, s: State, steps: seq<Step>)
    requires AllGiven(cfg, s) && Runs(cfg, s, steps)
    ensures AllGiven(cfg, After(cfg, s, steps))
    decreases |steps|
  {
    if steps != [] {
      StepKeepsGiven(cfg, s, steps[0]);
      RunKeepsGiven(cfg, Apply(cfg, s, steps[0]), steps[1..]);
    }
  }

  /**
   * A hit is an answer of the agent's own that was given to a caller of the same reach, in the same version, under
   * the same parameters, to the same question up to normalisation.
   */
  lemma HitsAnswer(cfg: O.Config, steps: seq<Step>, id: nat) returns (other: nat)
    requires Runs(cfg, INIT, steps) && Enabled(cfg, After(cfg, INIT, steps), LookUp(id))
    requires Apply(cfg, After(cfg, INIT, steps), LookUp(id)).calls[id].stage.Returned?
    ensures var s := After(cfg, INIT, steps);
            && other in s.calls && s.calls[other].stage.Returned? && OwnAnswer(s.calls[other].stage.answer)
            && Fingerprint(s.calls[other].principal) == Fingerprint(s.calls[id].principal)
            && s.calls[other].version == s.calls[id].version && s.calls[other].params == s.calls[id].params
            && cfg.sem.normalize(s.calls[other].query) == cfg.sem.normalize(s.calls[id].query)
            && Apply(cfg, s, LookUp(id)).calls[id].stage.answer == s.calls[other].stage.answer.(cached := true)
  {
    RunKeepsGiven(cfg, INIT, steps);
    var s := After(cfg, INIT, steps);
    var key := KeyOf(cfg, s.calls[id]);
    assert Given(cfg, s, key, s.answers[key]);
    other :| GivenTo(cfg, s, other, key, s.answers[key]);
  }
}
