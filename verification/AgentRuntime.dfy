/**
 * src/rag/agent/runtime.py: the loop as it runs, over its tracker, ledger and lists, against the turns it goes
 * through.
 */
module AgentRuntime {
  import opened Schemas
  import opened Acl
  import opened Citations
  import opened Evidence
  import opened Budgets
  import opened AgentLoop
  import opened AgentAnswers
  import Text
  import TR = ToolRegistry

  /** src/rag/agent/runtime.py:504-513 */
  method AuthorisedFrom(results: seq<TR.ToolResult>, principal: Principal) returns (found: seq<Source>)
    ensures found == AuthorisedSources(results, principal)
  {
    found := [];
    for i := 0 to |results|
      invariant found == AuthorisedSources(results[..i], principal)
    {
      assert results[..i + 1][..i] == results[..i];
      if !results[i].ok {
        continue;
      }
      var sources := FilterSources(results[i].sources, principal);
      found := found + sources;
    }
    assert results[..|results|] == results;
  }

  method FilterSources(sources: seq<Source>, principal: Principal) returns (found: seq<Source>)
    ensures found == AuthorisedOf(sources, principal)
  {
    found := [];
    for i := 0 to |sources|
      invariant found == AuthorisedOf(sources[..i], principal)
    {
      assert sources[..i + 1][..i] == sources[..i];
      var source := sources[i];
      if source.acl.None? || IsAllowed(principal, source.acl.value) {
        found := found + [source];
      }
    }
    assert sources[..|sources|] == sources;
  }

  class AgentRuntime {
    const budget: Budget

    constructor (budget: Budget)
      ensures this.budget == budget
    {
      this.budget := budget;
    }

    /** Lines 129-171. */
    method Act(cfg: Config, s: Turn, c: Completion, tools: Tooling, tracker: BudgetTracker, ledger: EvidenceLedger)
      returns (next: Next)
      requires tracker.budget == cfg.budget && tracker.spend == s.spend && ledger.byRef == s.ledger
      modifies tracker, ledger
      ensures next == ActStep(cfg, s, c, tools)
      ensures next.Continue? ==> tracker.spend == next.turn.spend && ledger.byRef == next.turn.ledger
    {
      var left := tracker.spend.RemainingToolCalls(tracker.budget);
      if left <= 0 {
        return Done(s, BudgetExhausted);
      }
      var allowedCalls := PyTake(c.calls, left);
      if tools.ToolsCut? {
        return Done(s, BudgetExhausted);
      }
      var results := ResultsOf(allowedCalls, tools.raw);
      tracker.ChargeToolCalls(|allowedCalls|);
      var found := AuthorisedFrom(results, cfg.principal);
      var _ := ledger.Add(found);
      var rows := s.rows + [Row(|s.rows|, AgentLoop.Act, c.text, allowedCalls, results, None, c.usage)];
      var messages := s.messages + [c.Message()] + Replies(results);
      next := Continue(s.(rows := rows, messages := messages, spend := tracker.spend, ledger := ledger.byRef));
    }

    /** Lines 205-239. */
    method Criticise(s: Turn, c: Completion, draft: string, judging: Judging, tracker: BudgetTracker)
      returns (next: Next)
      requires tracker.spend == s.spend
      modifies tracker
      ensures next == CritiqueStep(s, c, draft, judging)
      ensures next.Continue? ==> tracker.spend == next.turn.spend
    {
      tracker.ChargeCritique();
      if judging.CriticCut? {
        return Done(s.(spend := tracker.spend), BudgetExhausted);
      }
      if judging.CriticRaised? {
        return Escaped;
      }
      var verdict, u := judging.verdict, judging.usage;
      tracker.ChargeUsage(u);
      var row := Row(|s.rows|, Critique, Listed(verdict.reasons), [], [], Some(draft), u);
      var judged := s.(verdict := Some(verdict), spend := tracker.spend, usage := s.usage.Plus(u),
                       rows := s.rows + [row]);
      if verdict.sufficient && verdict.grounded {
        return Done(judged, CriticGrounded);
      }
      next := Continue(judged.(
        corrections := judged.corrections + 1,
        messages := judged.messages + [c.Message(), User(Correction(verdict))]));
    }

    /** Lines 173-239. */
    method Draft(cfg: Config, s: Turn, c: Completion, judging: Judging, tracker: BudgetTracker) returns (next: Next)
      requires tracker.budget == cfg.budget && tracker.spend == s.spend
      modifies tracker
      ensures next == PlanStep(cfg, s, c, judging)
      ensures next.Continue? ==> tracker.spend == next.turn.spend
    {
      var draft := Text.Strip(c.text);
      var row := Row(|s.rows|, Plan, draft, [], [], Some(draft), c.usage);
      var drafted := s.(draft := Some(draft), rows := s.rows + [row]);
      if draft == "" {
        return Continue(drafted.(messages := drafted.messages + [c.Message(), User(NUDGE)]));
      }
      if !tracker.spend.CanCritique(tracker.budget) {
        return Done(drafted, CriticExhausted);
      }
      next := Criticise(drafted, c, draft, judging, tracker);
    }

    /** Lines 96-239: until the turn ends one way or another. */
    method RunLoop(cfg: Config, env: Env, start: Turn, tracker: BudgetTracker, ledger: EvidenceLedger)
      returns (end: Next)
      requires tracker.budget == cfg.budget && tracker.spend == start.spend && ledger.byRef == start.ledger
      modifies tracker, ledger
      ensures end == Loop(cfg, env, start)
    {
      var s := start;
      while true
        invariant tracker.spend == s.spend && ledger.byRef == s.ledger
        invariant Loop(cfg, env, s) == Loop(cfg, env, start)
        decreases cfg.budget.maxSteps - s.spend.steps
      {
        var round := env(s);
        LoopStep(cfg, env, s);
        var n := Once(cfg, s, round, tracker, ledger);
        if !n.Continue? {
          return n;
        }
        s := n.turn;
      }
    }

    /** Lines 98-239, once. */
    method Once(cfg: Config, s: Turn, round: Round, tracker: BudgetTracker, ledger: EvidenceLedger) returns (next: Next)
      requires tracker.budget == cfg.budget && tracker.spend == s.spend && ledger.byRef == s.ledger
      modifies tracker, ledger
      ensures next == Iterate(cfg, s, round)
      ensures next.Continue? ==> tracker.spend == next.turn.spend && ledger.byRef == next.turn.ledger
    {
      var terminal := tracker.TerminalStop(round.elapsed);
      if terminal {
        return Done(s, BudgetExhausted);
      }
      tracker.ChargeStep();
      var charged := s.(spend := tracker.spend);
      match round.planning
      case PlannerCut =>
        next := Done(charged, BudgetExhausted);
      case PlannerFailed(thenCut) =>
        next := if thenCut then Done(charged, BudgetExhausted) else Failed(charged);
      case Completed(c, tools, judging) =>
        tracker.ChargeUsage(c.usage);
        var planned := charged.(spend := tracker.spend, usage := charged.usage.Plus(c.usage));
        if c.calls != [] {
          next := Act(cfg, planned, c, tools, tracker, ledger);
        } else {
          next := Draft(cfg, planned, c, judging, tracker);
        }
    }

    /** Lines 64-268; there is no answer when an exception escapes. */
    method Run(principal: Principal, budget: Option<Budget>, env: Env, planPrompt: string, fin: Finishing)
      returns (answer: Option<AgentAnswer>)
      ensures var cfg := Config(budget.GetOr(this.budget).Clamp(this.budget), principal);
              answer == AnswerOf(cfg, Loop(cfg, env, Opening(planPrompt)), fin)
    {
      var effective := budget.GetOr(this.budget).Clamp(this.budget);
      var tracker := new BudgetTracker(effective);
      var ledger := new EvidenceLedger();
      var cfg := Config(effective, principal);
      var end := RunLoop(cfg, env, Opening(planPrompt), tracker, ledger);
      answer := AnswerOf(cfg, end, fin);
    }
  }
}
