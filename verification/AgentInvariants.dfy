/** What every run of the agent loop keeps, whatever planner, tools, critic and deadline do. */
module AgentInvariants {
  import opened Schemas
  import opened Collections
  import opened Acl
  import opened Citations
  import opened Evidence
  import opened Budgets
  import opened AgentLoop
  import Text
  import TR = ToolRegistry

  // ---- The invariant ----

  predicate Capped(n: int, max: int) {
    0 <= n && (n == 0 || n <= max)
  }

  predicate WithinCaps(s: Spend, b: Budget) {
    Capped(s.steps, b.maxSteps) && Capped(s.toolCalls, b.maxToolCalls) && Capped(s.critiqueRounds, b.maxCritiqueRounds)
  }

  /** The ledger is what the rows brought. */
  ghost predicate FromRows(cfg: Config, s: Turn) {
    s.ledger == MergeAll(Empty(), Gathered(s.rows, cfg.principal))
  }

  predicate Promptable(cfg: Config, s: Turn) {
    Paired(s.messages) || s.spend.toolCalls >= cfg.budget.maxToolCalls
  }

  ghost predicate HeadOk(cfg: Config, s: Turn) {
    Balanced(s) && WithinCaps(s.spend, cfg.budget) && FromRows(cfg, s) && Promptable(cfg, s)
  }

  /** What was charged in the last round and is in no row: a planner round, with its usage if known, or a critique. */
  datatype Flight = Flight(rounds: nat, critiques: nat, usage: Option<Usage>)

  const LANDED := Flight(0, 0, None)

  /**
   * What is in flight when the round `r` ends at the turn `h`: it depends on which wait was cut, and on nothing
   * else.
   */
  function InFlight(cfg: Config, h: Turn, r: Round): Flight {
    if h.spend.Exhausted(cfg.budget, r.elapsed) then LANDED
    else if !r.planning.Completed? then Flight(1, 0, None)
    else
      var c := r.planning.completion;
      if c.calls != [] then CutTools(c, r.planning.tools) else CutCritic(cfg, h, c, r.planning.judging)
  }

  function CutTools(c: Completion, tools: Tooling): Flight {
    if tools.ToolsCut? then Flight(1, 0, Some(c.usage)) else LANDED
  }

  function CutCritic(cfg: Config, h: Turn, c: Completion, judging: Judging): Flight {
    if Text.Strip(c.text) != "" && h.spend.CanCritique(cfg.budget) && judging.CriticCut? then Flight(0, 1, None)
    else LANDED
  }

  function Plus(b: Books, f: Flight): Books {
    Books(b.rounds + f.rounds, b.critiques + f.critiques, b.toolCalls,
          if f.usage.Some? then b.usage.Plus(f.usage.value) else b.usage)
  }

  /** The rows account for all that was charged, but for exactly what is in flight. */
  ghost predicate ShortBy(s: Turn, f: Flight) {
    SpendBooks(s.spend) == Plus(RowBooks(s.rows), f) && s.usage == s.spend.usage && Numbered(s.rows)
  }

  /** The critic approved the draft in this very round. */
  predicate JustApproved(s: Turn) {
    && s.draft.Some? && s.draft.value != "" && |s.rows| >= 2
    && s.rows[|s.rows| - 2].kind == Plan && s.rows[|s.rows| - 2].draft == s.draft
    && s.rows[|s.rows| - 1].kind == Critique && s.rows[|s.rows| - 1].draft == s.draft
    && s.verdict.Some? && s.verdict.value.Approves()
  }

  /** The critic was not shown the draft, its rounds being spent. */
  predicate NeverShown(cfg: Config, s: Turn) {
    && s.draft.Some? && s.draft.value != "" && |s.rows| >= 1
    && s.rows[|s.rows| - 1].kind == Plan && s.rows[|s.rows| - 1].draft == s.draft
    && !s.spend.CanCritique(cfg.budget)
  }

  ghost predicate EndOk(cfg: Config, s: Turn, stop: StopReason) {
    && WithinCaps(s.spend, cfg.budget) && FromRows(cfg, s)
    && stop in {BudgetExhausted, CriticGrounded, CriticExhausted}
    && (stop == CriticGrounded ==> JustApproved(s))
    && (stop == CriticExhausted ==> NeverShown(cfg, s))
    && (stop != BudgetExhausted ==> Text.Strip(s.draft.value) == s.draft.value)
  }

  /** What one iteration leads to, `f` being in flight if it is the last. */
  ghost predicate NextOk(cfg: Config, n: Next, f: Flight) {
    match n
    case Continue(t) => HeadOk(cfg, t)
    case Done(t, stop) => EndOk(cfg, t, stop) && ShortBy(t, f)
    case Failed(t) => WithinCaps(t.spend, cfg.budget) && FromRows(cfg, t) && ShortBy(t, f)
    case Escaped => true
  }

  // ---- One iteration keeps it ----

  lemma BalancedIsLanded(s: Turn)
    ensures Balanced(s) <==> ShortBy(s, LANDED)
  {
  }

  /** The planner has answered: the round and its usage are charged, and no row says so yet. */
  ghost predicate Planned(cfg: Config, s: Turn, u: Usage) {
    && WithinCaps(s.spend, cfg.budget) && FromRows(cfg, s) && Paired(s.messages) && ShortBy(s, Flight(1, 0, Some(u)))
    && s.spend.toolCalls < cfg.budget.maxToolCalls
  }

  lemma PlannedFromHead(cfg: Config, s: Turn, elapsed: real, u: Usage)
    requires HeadOk(cfg, s) && !s.spend.Exhausted(cfg.budget, elapsed)
    ensures Planned(cfg, UsageCharged(StepCharged(s), u), u)
    ensures ShortBy(StepCharged(s), Flight(1, 0, None))
  {
  }

  lemma MergedRows(cfg: Config, s: Turn, row: Row)
    requires FromRows(cfg, s)
    ensures MergeAll(s.ledger, AuthorisedSources(row.results, cfg.principal)) ==
              MergeAll(Empty(), Gathered(s.rows + [row], cfg.principal))
  {
    RowAdded(s.rows, row, cfg.principal);
    MergeConcat(Empty(), Gathered(s.rows, cfg.principal), AuthorisedSources(row.results, cfg.principal));
  }

  lemma ActPrompts(cfg: Config, s: Turn, c: Completion, calls: seq<TR.ToolCall>, results: seq<TR.ToolResult>)
    requires Paired(s.messages) && |results| == |calls| && calls <= c.calls
    requires forall i :: 0 <= i < |calls| ==> results[i].callId == calls[i].id
    requires calls != c.calls ==> s.spend.toolCalls + |calls| >= cfg.budget.maxToolCalls
    ensures Paired(s.messages + [c.Message()] + Replies(results))
            || s.spend.toolCalls + |calls| >= cfg.budget.maxToolCalls
  {
    if calls == c.calls {
      ExchangePaired(c, Replies(results));
      PairedConcat(s.messages, [c.Message()] + Replies(results));
      AppendAssoc(s.messages, [c.Message()], Replies(results));
    }
  }

  lemma ActBalances(cfg: Config, s: Turn, c: Completion, calls: seq<TR.ToolCall>, results: seq<TR.ToolResult>)
    requires ShortBy(s, Flight(1, 0, Some(c.usage))) && FromRows(cfg, s)
    ensures var row := ActRow(s, c, calls, results);
            && RowBooks(s.rows + [row]) ==
                 Books(s.spend.steps, s.spend.critiqueRounds, s.spend.toolCalls + |calls|, s.spend.usage)
            && Numbered(s.rows + [row])
            && MergeAll(s.ledger, AuthorisedSources(results, cfg.principal)) ==
                 MergeAll(Empty(), Gathered(s.rows + [row], cfg.principal))
  {
    var row := ActRow(s, c, calls, results);
    RowAdded(s.rows, row, cfg.principal);
    MergedRows(cfg, s, row);
  }

  lemma ResultsNamed(calls: seq<TR.ToolCall>, raw: nat -> TR.ToolResult)
    ensures var results := ResultsOf(calls, raw); forall i :: 0 <= i < |calls| ==> results[i].callId == calls[i].id
  {
    var results := ResultsOf(calls, raw);
    forall i | 0 <= i < |calls|
      ensures results[i].callId == calls[i].id
    {
      assert results[i] == TR.Bound(raw(i), calls[i]);
    }
  }

  lemma CutOrWhole<T>(s: seq<T>, k: nat)
    ensures PyTake(s, k) == s || |PyTake(s, k)| == k
  {
  }

  /** A call list cut to the budget leaves its message unpaired, but uses the budget up: no planner sees it. */
  lemma ActKeeps(cfg: Config, s: Turn, c: Completion, tools: Tooling)
    requires Planned(cfg, s, c.usage) && c.calls != []
    ensures NextOk(cfg, ActStep(cfg, s, c, tools), CutTools(c, tools))
    ensures !tools.ToolsCut? ==> ActStep(cfg, s, c, tools).Continue?
  {
    if !tools.ToolsCut? {
      var left := s.spend.RemainingToolCalls(cfg.budget);
      var calls := PyTake(c.calls, left);
      var results := ResultsOf(calls, tools.raw);
      CutOrWhole(c.calls, left);
      ResultsNamed(calls, tools.raw);
      ActPrompts(cfg, s, c, calls, results);
      ActBalances(cfg, s, c, calls, results);
    }
  }

  lemma DraftBalances(cfg: Config, s: Turn, c: Completion)
    requires Planned(cfg, s, c.usage)
    ensures Balanced(Drafted(s, c)) && FromRows(cfg, Drafted(s, c))
  {
    var row := PlanRow(s, c, Text.Strip(c.text));
    RowAdded(s.rows, row, cfg.principal);
    assert AuthorisedSources([], cfg.principal) == [];
    assert Gathered(s.rows, cfg.principal) + [] == Gathered(s.rows, cfg.principal);
  }

  lemma VerdictBalances(cfg: Config, s: Turn, v: Verdict, draft: string, u: Usage)
    requires Balanced(s) && FromRows(cfg, s)
    ensures var judged := AfterVerdict(CritiqueCharged(s), v, draft, u);
            Balanced(judged) && ShortBy(judged, LANDED) && FromRows(cfg, judged)
  {
    var judged := AfterVerdict(CritiqueCharged(s), v, draft, u);
    RowAdded(s.rows, CritiqueRow(CritiqueCharged(s), v, draft, u), cfg.principal);
    assert AuthorisedSources([], cfg.principal) == [];
    assert Gathered(s.rows, cfg.principal) + [] == Gathered(s.rows, cfg.principal);
    BalancedIsLanded(judged);
  }

  lemma CritiqueInFlight(s: Turn)
    requires Balanced(s)
    ensures ShortBy(CritiqueCharged(s), Flight(0, 1, None))
  {
  }

  /** The turn has its draft, and the critic may be asked about it. */
  ghost predicate Askable(cfg: Config, s: Turn, c: Completion, draft: string) {
    && HeadOk(cfg, s) && Paired(s.messages) && s.spend.CanCritique(cfg.budget) && c.calls == []
    && draft != "" && draft == Text.Strip(c.text) && s.draft == Some(draft)
    && |s.rows| >= 1 && s.rows[|s.rows| - 1].kind == Plan && s.rows[|s.rows| - 1].draft == s.draft
  }

  lemma ApprovalKeeps(cfg: Config, s: Turn, c: Completion, draft: string, v: Verdict, u: Usage)
    requires Askable(cfg, s, c, draft) && v.Approves()
    ensures var judged := AfterVerdict(CritiqueCharged(s), v, draft, u);
            EndOk(cfg, judged, CriticGrounded) && ShortBy(judged, LANDED)
  {
    VerdictBalances(cfg, s, v, draft, u);
    Text.StripIdempotent(c.text);
  }

  lemma RejectionKeeps(cfg: Config, s: Turn, c: Completion, draft: string, v: Verdict, u: Usage)
    requires Askable(cfg, s, c, draft) && !v.Approves()
    ensures NextOk(cfg, CritiqueStep(s, c, draft, Judged(v, u)), LANDED)
  {
    VerdictBalances(cfg, s, v, draft, u);
    RemarkPaired(c, Correction(v));
    PairedConcat(s.messages, [c.Message(), User(Correction(v))]);
  }

  lemma CritiqueKeeps(cfg: Config, s: Turn, c: Completion, draft: string, judging: Judging)
    requires Askable(cfg, s, c, draft)
    ensures NextOk(cfg, CritiqueStep(s, c, draft, judging), CutCritic(cfg, s, c, judging))
  {
    match judging
    case CriticCut => CritiqueInFlight(s);
    case CriticRaised =>
    case Judged(v, u) =>
      if v.Approves() {
        ApprovalKeeps(cfg, s, c, draft, v, u);
      } else {
        RejectionKeeps(cfg, s, c, draft, v, u);
      }
  }

  lemma PlanKeeps(cfg: Config, s: Turn, c: Completion, judging: Judging)
    requires Planned(cfg, s, c.usage) && c.calls == []
    ensures NextOk(cfg, PlanStep(cfg, s, c, judging), CutCritic(cfg, s, c, judging))
  {
    DraftBalances(cfg, s, c);
    var drafted := Drafted(s, c);
    var draft := Text.Strip(c.text);
    if draft == "" {
      RemarkPaired(c, NUDGE);
      PairedConcat(s.messages, [c.Message(), User(NUDGE)]);
    } else if !drafted.spend.CanCritique(cfg.budget) {
      Text.StripIdempotent(c.text);
      BalancedIsLanded(drafted);
    } else {
      CritiqueKeeps(cfg, drafted, c, draft, judging);
    }
  }

  lemma CompletedKeeps(cfg: Config, s: Turn, elapsed: real, c: Completion, tools: Tooling, judging: Judging)
    requires HeadOk(cfg, s) && !s.spend.Exhausted(cfg.budget, elapsed)
    ensures var r := Round(elapsed, Completed(c, tools, judging)); NextOk(cfg, Iterate(cfg, s, r), InFlight(cfg, s, r))
  {
    PlannedFromHead(cfg, s, elapsed, c.usage);
    var planned := UsageCharged(StepCharged(s), c.usage);
    if c.calls != [] {
      ActKeeps(cfg, planned, c, tools);
    } else {
      PlanKeeps(cfg, planned, c, judging);
    }
  }

  lemma ExhaustedKeeps(cfg: Config, s: Turn)
    requires HeadOk(cfg, s)
    ensures NextOk(cfg, Done(s, BudgetExhausted), LANDED)
  {
    BalancedIsLanded(s);
  }

  lemma CutKeeps(cfg: Config, s: Turn, elapsed: real)
    requires HeadOk(cfg, s) && !s.spend.Exhausted(cfg.budget, elapsed)
    ensures NextOk(cfg, Done(StepCharged(s), BudgetExhausted), Flight(1, 0, None))
    ensures NextOk(cfg, Failed(StepCharged(s)), Flight(1, 0, None))
  {
    PlannedFromHead(cfg, s, elapsed, NO_USAGE);
  }

  lemma IterateKeeps(cfg: Config, s: Turn, r: Round)
    requires HeadOk(cfg, s)
    ensures NextOk(cfg, Iterate(cfg, s, r), InFlight(cfg, s, r))
  {
    if s.spend.Exhausted(cfg.budget, r.elapsed) {
      ExhaustedKeeps(cfg, s);
    } else if r.planning.Completed? {
      CompletedKeeps(cfg, s, r.elapsed, r.planning.completion, r.planning.tools, r.planning.judging);
    } else {
      CutKeeps(cfg, s, r.elapsed);
    }
  }

  // ---- Whole runs ----

  lemma OpeningOk(cfg: Config, planPrompt: string)
    ensures HeadOk(cfg, Opening(planPrompt))
  {
    OpeningPaired(planPrompt);
  }

  /** The turn at the last look at the budget. */
  function LastHead(cfg: Config, env: Env, s: Turn): Turn
    decreases cfg.budget.maxSteps - s.spend.steps
  {
    var n := Iterate(cfg, s, env(s));
    if n.Continue? then LastHead(cfg, env, n.turn) else s
  }

  lemma {:induction false} LoopKeeps(cfg: Config, env: Env, s: Turn)
    requires HeadOk(cfg, s)
    ensures var h := LastHead(cfg, env, s);
            NextOk(cfg, Loop(cfg, env, s), InFlight(cfg, h, env(h))) && HeadOk(cfg, h)
    decreases cfg.budget.maxSteps - s.spend.steps
  {
    IterateKeeps(cfg, s, env(s));
    var n := Iterate(cfg, s, env(s));
    if n.Continue? {
      LoopKeeps(cfg, env, n.turn);
    }
  }

  lemma {:induction false} HeadsOk(cfg: Config, env: Env, s: Turn)
    requires HeadOk(cfg, s)
    ensures forall h <- Heads(cfg, env, s) :: HeadOk(cfg, h)
    ensures LastHead(cfg, env, s) in Heads(cfg, env, s)
    decreases cfg.budget.maxSteps - s.spend.steps
  {
    IterateKeeps(cfg, s, env(s));
    var n := Iterate(cfg, s, env(s));
    var heads := Heads(cfg, env, s);
    assert s == heads[0];
    if n.Continue? {
      HeadsOk(cfg, env, n.turn);
      assert heads == [s] + Heads(cfg, env, n.turn);
    }
  }

  // ---- How a run ends ----

  /** The planner was asked in time and gave a draft, not calls. */
  predicate Drafts(cfg: Config, h: Turn, r: Round) {
    && !h.spend.Exhausted(cfg.budget, r.elapsed) && r.planning.Completed?
    && r.planning.completion.calls == [] && Text.Strip(r.planning.completion.text) != ""
  }

  /** A draft was given and every critique is spent. */
  predicate Unjudged(cfg: Config, h: Turn, r: Round) {
    Drafts(cfg, h, r) && h.spend.critiqueRounds >= cfg.budget.maxCritiqueRounds
  }

  /** A draft was given and the critic may be asked about it. */
  predicate Judgeable(cfg: Config, h: Turn, r: Round) {
    Drafts(cfg, h, r) && h.spend.critiqueRounds < cfg.budget.maxCritiqueRounds
  }

  predicate Approved(cfg: Config, h: Turn, r: Round) {
    && Judgeable(cfg, h, r) && r.planning.judging.Judged?
    && r.planning.judging.verdict.sufficient && r.planning.judging.verdict.grounded
  }

  /** The deadline cut the wait for the planner, for the tools it called or for the critic of its draft. */
  predicate WaitCut(cfg: Config, h: Turn, r: Round) {
    match r.planning
    case PlannerCut => true
    case PlannerFailed(thenCut) => thenCut
    case Completed(c, tools, judging) =>
      (c.calls != [] && tools.ToolsCut?) || (Judgeable(cfg, h, r) && judging.CriticCut?)
  }

  predicate RunsOut(cfg: Config, h: Turn, r: Round) {
    h.spend.Exhausted(cfg.budget, r.elapsed) || WaitCut(cfg, h, r)
  }

  predicate PlannerFails(cfg: Config, h: Turn, r: Round) {
    !h.spend.Exhausted(cfg.budget, r.elapsed) && r.planning == PlannerFailed(false)
  }

  predicate CriticFails(cfg: Config, h: Turn, r: Round) {
    Judgeable(cfg, h, r) && r.planning.judging.CriticRaised?
  }

  predicate Stops(cfg: Config, h: Turn, r: Round) {
    Unjudged(cfg, h, r) || Approved(cfg, h, r) || RunsOut(cfg, h, r) || PlannerFails(cfg, h, r)
    || CriticFails(cfg, h, r)
  }

  /** The end is the one that the last look at the budget and the waits behind it call for. */
  predicate EndsAsItMust(cfg: Config, h: Turn, r: Round, end: Next) {
    && (end.Done? && end.stop == CriticExhausted <==> Unjudged(cfg, h, r))
    && (end.Done? && end.stop == CriticGrounded <==> Approved(cfg, h, r))
    && (end.Done? && end.stop == BudgetExhausted <==> RunsOut(cfg, h, r))
    && (end.Failed? <==> PlannerFails(cfg, h, r))
    && (end.Escaped? <==> CriticFails(cfg, h, r))
    && (Unjudged(cfg, h, r) || Approved(cfg, h, r) ==>
          end.turn.draft == Some(Text.Strip(r.planning.completion.text)) && end.turn.ledger == h.ledger)
  }

  lemma IterateStops(cfg: Config, s: Turn, r: Round)
    ensures Iterate(cfg, s, r).Continue? <==> !Stops(cfg, s, r)
    ensures EndsAsItMust(cfg, s, r, Iterate(cfg, s, r))
  {
  }

  /** Only the last of these rounds stops the run. */
  ghost predicate OnlyLastStops(cfg: Config, env: Env, heads: seq<Turn>) {
    forall i :: 0 <= i < |heads| ==> (Stops(cfg, heads[i], env(heads[i])) <==> i == |heads| - 1)
  }

  lemma OneMoreGoesOn(cfg: Config, env: Env, s: Turn, later: seq<Turn>, heads: seq<Turn>)
    requires OnlyLastStops(cfg, env, later) && later != [] && !Stops(cfg, s, env(s)) && heads == [s] + later
    ensures OnlyLastStops(cfg, env, heads)
  {
    forall i | 0 <= i < |heads| ensures Stops(cfg, heads[i], env(heads[i])) <==> i == |heads| - 1 {
      assert i > 0 ==> heads[i] == later[i - 1];
    }
  }

  /**
   * Every run, told by its last look at the budget and what the planner, tools and critic gave then: a draft is kept
   * unjudged exactly when its critiques are spent, the budget stops the run exactly when it is used up there or a
   * wait is cut, and no other round stops it.
   */
  lemma {:induction false} StopsExactly(cfg: Config, env: Env, s: Turn)
    ensures var h := LastHead(cfg, env, s); EndsAsItMust(cfg, h, env(h), Loop(cfg, env, s))
    ensures var heads := Heads(cfg, env, s);
            heads != [] && heads[|heads| - 1] == LastHead(cfg, env, s) && OnlyLastStops(cfg, env, heads)
    decreases cfg.budget.maxSteps - s.spend.steps
  {
    IterateStops(cfg, s, env(s));
    var n := Iterate(cfg, s, env(s));
    if n.Continue? {
      StopsExactly(cfg, env, n.turn);
      OneMoreGoesOn(cfg, env, s, Heads(cfg, env, n.turn), Heads(cfg, env, s));
    }
  }

  /**
   * Whenever the planner is asked, every assistant message with tool calls in the history is followed at once by
   * one reply per call, in order and under that call's id; and there is a tool call left to spend.
   */
  lemma PromptsPaired(cfg: Config, env: Env, planPrompt: string)
    ensures forall h <- Heads(cfg, env, Opening(planPrompt)) :: !h.spend.Exhausted(cfg.budget, env(h).elapsed) ==>
              Paired(h.messages) && h.spend.RemainingToolCalls(cfg.budget) > 0
  {
    OpeningOk(cfg, planPrompt);
    HeadsOk(cfg, env, Opening(planPrompt));
    forall h | h in Heads(cfg, env, Opening(planPrompt)) && !h.spend.Exhausted(cfg.budget, env(h).elapsed)
      ensures Paired(h.messages) && h.spend.RemainingToolCalls(cfg.budget) > 0
    {
      assert HeadOk(cfg, h);
    }
  }

  /**
   * However a turn ends, steps, tool calls and critiques are within their caps, and the rows account for all that
   * was charged but for exactly what was in flight in the last round: nothing, unless a wait was cut there or the
   * planner failed; else one planner round, with the usage of its answer if it had one, or one critique.
   */
  lemma BudgetKept(cfg: Config, env: Env, planPrompt: string)
    ensures var end := Loop(cfg, env, Opening(planPrompt));
            var h := LastHead(cfg, env, Opening(planPrompt));
            !end.Escaped? ==>
              && WithinCaps(end.turn.spend, cfg.budget) && ShortBy(end.turn, InFlight(cfg, h, env(h)))
              && h in Heads(cfg, env, Opening(planPrompt))
              && (Balanced(end.turn) <==> InFlight(cfg, h, env(h)) == LANDED)
  {
    OpeningOk(cfg, planPrompt);
    LoopKeeps(cfg, env, Opening(planPrompt));
    HeadsOk(cfg, env, Opening(planPrompt));
    var end := Loop(cfg, env, Opening(planPrompt));
    if !end.Escaped? {
      BalancedIsLanded(end.turn);
    }
  }

  /**
   * `u` is what had been spent at `h`, when no cap was reached yet, and one planner answer, and one critique
   * perhaps.
   */
  ghost predicate OneRoundOver(cfg: Config, env: Env, h: Turn, u: Usage) {
    var r := env(h);
    && h.spend.usage.tokens < cfg.budget.maxTokens && h.spend.usage.cost < cfg.budget.maxCost
    && h.spend.steps < cfg.budget.maxSteps && h.spend.toolCalls < cfg.budget.maxToolCalls
    && r.elapsed < cfg.budget.maxSeconds && r.planning.Completed?
    && var planned := h.spend.usage.Plus(r.planning.completion.usage);
       u == planned || (r.planning.judging.Judged? && u == planned.Plus(r.planning.judging.usage))
  }

  lemma SpendOfIterate(cfg: Config, env: Env, s: Turn)
    ensures var n := Iterate(cfg, s, env(s));
            !n.Escaped? ==> n.turn.spend.usage == s.spend.usage || OneRoundOver(cfg, env, s, n.turn.spend.usage)
  {
  }

  /** Tokens and cost overshoot their caps by at most one iteration's planner and critic. */
  lemma {:induction false} Overshoot(cfg: Config, env: Env, s: Turn)
    ensures var end := Loop(cfg, env, s);
            !end.Escaped? ==>
              || end.turn.spend.usage == s.spend.usage
              || exists h :: h in Heads(cfg, env, s) && OneRoundOver(cfg, env, h, end.turn.spend.usage)
    decreases cfg.budget.maxSteps - s.spend.steps
  {
    SpendOfIterate(cfg, env, s);
    var n := Iterate(cfg, s, env(s));
    var heads := Heads(cfg, env, s);
    assert s == heads[0];
    if n.Continue? {
      Overshoot(cfg, env, n.turn);
      assert heads == [s] + Heads(cfg, env, n.turn);
      var end := Loop(cfg, env, n.turn);
      if !end.Escaped? && end.turn.spend.usage != n.turn.spend.usage {
        var h :| h in Heads(cfg, env, n.turn) && OneRoundOver(cfg, env, h, end.turn.spend.usage);
        assert h in heads;
      } else if !end.Escaped? && end.turn.spend.usage != s.spend.usage {
        assert OneRoundOver(cfg, env, s, end.turn.spend.usage);
      }
    }
  }
}
