/**
 * How a turn becomes an answer, src/rag/agent/runtime.py:292-474, and who agrees on what kind of answer it is:
 * src/rag/api/routes/query.py:149-164 and src/rag/eval/metrics/agent.py:12-22. Rendering the trace is left out.
 */
module AgentAnswers {
  import opened Schemas
  import opened Collections
  import opened Acl
  import opened Citations
  import opened Evidence
  import opened Budgets
  import opened AgentLoop
  import opened AgentInvariants
  import Grounded
  import Text
  import TR = ToolRegistry

  datatype AgentAnswer = AgentAnswer(
    text: string,
    citations: seq<Citation>,
    refused: bool,
    refusalReason: Option<string>,
    usage: Usage,
    indexVersion: string,
    cached: bool,
    stopReason: StopReason,
    stepsTaken: int,
    toolCalls: int,
    toolsUsed: seq<string>,
    selfCorrections: nat,
    fallbackUsed: bool,
    degradedReason: Option<string>,
    verdict: Option<Verdict>)

  /** What the pipeline does when it is asked instead. */
  datatype Fallback = PipelineAnswered(answer: Grounded.Answer, usage: Usage) | PipelineRaised

  /** What finishing a turn depends on besides the turn: `live` is the version the alias gives at that time. */
  datatype Finishing = Finishing(markers: Markers, redact: Option<string -> string>, fallback: Fallback, live: string)

  /** Lines 422-474. */
  function BuildAnswer(s: Turn, text: string, citations: seq<Citation>, refusalReason: Option<string>, refused: bool,
                       stop: StopReason, usage: Usage, fallbackUsed: bool, degraded: Option<string>,
                       indexVersion: string,
                       cached: bool, verdict: Option<Verdict>): AgentAnswer
  {
    AgentAnswer(text, citations, refused, refusalReason, usage, indexVersion, cached, stop, s.spend.steps,
                s.spend.toolCalls,
                ToolsUsed(s.rows), s.corrections, fallbackUsed, degraded, verdict)
  }

  /** Lines 355-420. */
  function FallbackOrRefuse(s: Turn, reason: string, stop: StopReason, usage: Usage, verdict: Option<Verdict>,
                            fin: Finishing)
    : AgentAnswer
  {
    match fin.fallback
    case PipelineRaised =>
      var r := Grounded.RefusedAnswer(reason);
      BuildAnswer(s, r.text, r.citations, r.refusalReason, true, stop, usage, false, Some(reason), fin.live, false,
                  verdict)
    case PipelineAnswered(a, u) =>
      BuildAnswer(s, a.text, a.citations, a.refusalReason, a.refused, FallbackPipeline, usage.Plus(u), true,
                  Some(reason),
                  a.indexVersion, a.cached, verdict)
  }

  /** Lines 308-312: the draft's citations, against the sources the caller may see. */
  function DraftCitations(cfg: Config, s: Turn, markers: Markers): seq<Citation> {
    var text := Text.Strip(s.draft.GetOr(""));
    if text == "" then [] else SourceCitations(text, AuthorisedOf(Sources(s.ledger), cfg.principal), markers)
  }

  /** Lines 292-353. */
  function Finalize(cfg: Config, s: Turn, stop: StopReason, fin: Finishing): AgentAnswer {
    var text := Text.Strip(s.draft.GetOr(""));
    var citations := DraftCitations(cfg, s, fin.markers);
    if text != "" && citations != [] && stop in ANSWERABLE_STOPS then
      var shown := if fin.redact.Some? then fin.redact.value(text) else text;
      BuildAnswer(s, shown, citations, None, false, stop, s.usage, false, None, fin.live, false, s.verdict)
    else if stop == BudgetExhausted then
      FallbackOrRefuse(s, "agent_budget_exhausted", BudgetExhausted, s.usage, s.verdict, fin)
    else
      FallbackOrRefuse(s, "agent_no_grounding", NoGrounding, s.usage, s.verdict, fin)
  }

  /** A failed planner drops the usage and the verdict so far, lines 113-124; an escaped exception gives no answer. */
  function AnswerOf(cfg: Config, end: Next, fin: Finishing): Option<AgentAnswer> {
    match end
    case Done(s, stop) => Some(Finalize(cfg, s, stop, fin))
    case Failed(s) => Some(FallbackOrRefuse(s, "llm_unavailable", Error, NO_USAGE, None, fin))
    case _ => None
  }

  // ---- Who agrees ----

  /** src/rag/eval/metrics/agent.py:12-22 */
  function TaskSuccess(a: AgentAnswer, requireCitations: bool): real {
    if a.refused then 0.0
    else if a.fallbackUsed then 0.0
    else if a.stopReason !in ANSWERABLE_STOPS then 0.0
    else if requireCitations && a.citations == [] then 0.0
    else 1.0
  }

  /** src/rag/api/routes/query.py:153-159 */
  predicate IsStored(cacheEnabled: bool, a: AgentAnswer) {
    cacheEnabled && !a.refused && !a.fallbackUsed && a.stopReason in ANSWERABLE_STOPS
  }

  /** The agent answered under its own power. */
  predicate OwnAnswer(a: AgentAnswer) {
    !a.refused && !a.fallbackUsed
  }

  /** Runtime, eval metric and cache gate agree on the answer, and a refusal has a reason and no citations. */
  predicate Agreed(a: AgentAnswer) {
    && (OwnAnswer(a) <==> a.stopReason in {CriticGrounded, CriticExhausted})
    && (OwnAnswer(a) <==> TaskSuccess(a, true) == 1.0)
    && (OwnAnswer(a) <==> IsStored(true, a))
    && (OwnAnswer(a) <==> a.degradedReason.None?)
    && (a.fallbackUsed <==> a.stopReason == FallbackPipeline)
    && (a.refused <==> a.refusalReason.Some?)
    && (a.refused ==> a.citations == [])
  }

  predicate SaneFallback(fin: Finishing) {
    fin.fallback.PipelineAnswered? ==> Grounded.WellFormed(fin.fallback.answer)
  }

  lemma FallbackAgreed(s: Turn, reason: string, stop: StopReason, usage: Usage, verdict: Option<Verdict>,
                       fin: Finishing)
    requires SaneFallback(fin) && stop in {BudgetExhausted, NoGrounding, Error}
    ensures Agreed(FallbackOrRefuse(s, reason, stop, usage, verdict, fin))
    ensures !OwnAnswer(FallbackOrRefuse(s, reason, stop, usage, verdict, fin))
  {
  }

  lemma FinalizeAgreed(cfg: Config, s: Turn, stop: StopReason, fin: Finishing)
    requires SaneFallback(fin) && stop in {BudgetExhausted, CriticGrounded, CriticExhausted}
    ensures Agreed(Finalize(cfg, s, stop, fin))
  {
    if stop == BudgetExhausted {
      FallbackAgreed(s, "agent_budget_exhausted", BudgetExhausted, s.usage, s.verdict, fin);
    } else {
      FallbackAgreed(s, "agent_no_grounding", NoGrounding, s.usage, s.verdict, fin);
    }
  }

  ghost predicate EndsOk(cfg: Config, end: Next) {
    match end
    case Done(t, stop) => EndOk(cfg, t, stop)
    case Failed(t) => true
    case Continue(t) => false
    case Escaped => true
  }

  /** However a run ends. */
  lemma RunEnds(cfg: Config, env: Env, planPrompt: string)
    ensures EndsOk(cfg, Loop(cfg, env, Opening(planPrompt)))
  {
    OpeningOk(cfg, planPrompt);
    LoopKeeps(cfg, env, Opening(planPrompt));
  }

  /** Every answer the loop can end in is agreed on, the agent's own and the pipeline's alike. */
  lemma OutcomeAgreement(cfg: Config, env: Env, planPrompt: string, fin: Finishing)
    requires SaneFallback(fin)
    ensures var r := AnswerOf(cfg, Loop(cfg, env, Opening(planPrompt)), fin); r.Some? ==> Agreed(r.value)
  {
    RunEnds(cfg, env, planPrompt);
    EndAgreed(cfg, Loop(cfg, env, Opening(planPrompt)), fin);
  }

  lemma EndAgreed(cfg: Config, end: Next, fin: Finishing)
    requires SaneFallback(fin) && EndsOk(cfg, end)
    ensures var r := AnswerOf(cfg, end, fin); r.Some? ==> Agreed(r.value)
  {
    if end.Done? {
      FinalizeAgreed(cfg, end.turn, end.stop, fin);
    } else if end.Failed? {
      FallbackAgreed(end.turn, "llm_unavailable", Error, NO_USAGE, None, fin);
    }
  }

  /**
   * Whatever budget is asked for, an answer took no more steps and tool calls than the runtime's own
   * budget allows.
   */
  lemma CeilingHolds(asked: Budget, ceiling: Budget, principal: Principal, env: Env, planPrompt: string, fin: Finishing)
    ensures var answer := AnswerOf(Config(asked.Clamp(ceiling), principal),
                                   Loop(Config(asked.Clamp(ceiling), principal), env, Opening(planPrompt)), fin);
            answer.Some? ==>
              && Capped(answer.value.stepsTaken, ceiling.maxSteps)
              && Capped(answer.value.toolCalls, ceiling.maxToolCalls)
  {
    var cfg := Config(asked.Clamp(ceiling), principal);
    ClampIsLargest(asked, ceiling, ceiling);
    BudgetKept(cfg, env, planPrompt);
    var end := Loop(cfg, env, Opening(planPrompt));
    if !end.Escaped? {
      ReportsSpend(cfg, end, fin);
    }
  }

  lemma ReportsSpend(cfg: Config, end: Next, fin: Finishing)
    requires AnswerOf(cfg, end, fin).Some?
    ensures AnswerOf(cfg, end, fin).value.stepsTaken == end.turn.spend.steps
    ensures AnswerOf(cfg, end, fin).value.toolCalls == end.turn.spend.toolCalls
  {
    if end.Done? {
      FinalizeReports(cfg, end.turn, end.stop, fin);
    } else {
      FallbackReports(end.turn, "llm_unavailable", Error, NO_USAGE, None, fin);
    }
  }

  lemma FallbackReports(s: Turn, reason: string, stop: StopReason, usage: Usage, verdict: Option<Verdict>,
                        fin: Finishing)
    ensures FallbackOrRefuse(s, reason, stop, usage, verdict, fin).stepsTaken == s.spend.steps
    ensures FallbackOrRefuse(s, reason, stop, usage, verdict, fin).toolCalls == s.spend.toolCalls
  {
  }

  lemma FinalizeReports(cfg: Config, s: Turn, stop: StopReason, fin: Finishing)
    ensures Finalize(cfg, s, stop, fin).stepsTaken == s.spend.steps
    ensures Finalize(cfg, s, stop, fin).toolCalls == s.spend.toolCalls
  {
    FallbackReports(s, "agent_budget_exhausted", BudgetExhausted, s.usage, s.verdict, fin);
    FallbackReports(s, "agent_no_grounding", NoGrounding, s.usage, s.verdict, fin);
  }

  // ---- What usage is reported ----

  /** What the turn spent, and the pipeline on top of it when it answered instead. */
  function TrueUsage(s: Turn, fin: Finishing, a: AgentAnswer): Usage {
    if a.fallbackUsed && fin.fallback.PipelineAnswered? then s.usage.Plus(fin.fallback.usage) else s.usage
  }

  lemma SameSum(a: Usage, b: Usage, u: Usage)
    ensures a.Plus(u) == b.Plus(u) <==> a == b
  {
  }

  /** The answer reports what was spent exactly when the planner did not fail, or had cost nothing before it did. */
  lemma UsageReportedExactly(cfg: Config, env: Env, planPrompt: string, fin: Finishing)
    ensures var end := Loop(cfg, env, Opening(planPrompt));
            var r := AnswerOf(cfg, end, fin);
            r.Some? ==>
              (r.value.usage == TrueUsage(end.turn, fin, r.value) <==> !end.Failed? || end.turn.usage == NO_USAGE)
  {
    EndReports(cfg, Loop(cfg, env, Opening(planPrompt)), fin);
  }

  lemma EndReports(cfg: Config, end: Next, fin: Finishing)
    requires !end.Continue?
    ensures var r := AnswerOf(cfg, end, fin);
            r.Some? ==>
              (r.value.usage == TrueUsage(end.turn, fin, r.value) <==> !end.Failed? || end.turn.usage == NO_USAGE)
  {
    if end.Failed? && fin.fallback.PipelineAnswered? {
      SameSum(NO_USAGE, end.turn.usage, fin.fallback.usage);
    }
  }

  lemma NudgedOn(cfg: Config, s: Turn, r: Round)
    requires !s.spend.Exhausted(cfg.budget, r.elapsed)
    requires r.planning.Completed? && r.planning.completion.calls == [] && Text.Strip(r.planning.completion.text) == ""
    ensures var n, u := Iterate(cfg, s, r), r.planning.completion.usage;
            && n.Continue? && n.turn.usage == s.usage.Plus(u)
            && n.turn.spend == s.spend.(steps := s.spend.steps + 1, usage := s.spend.usage.Plus(u))
  {
  }

  lemma FailsNow(cfg: Config, s: Turn, r: Round)
    requires !s.spend.Exhausted(cfg.budget, r.elapsed) && r.planning == PlannerFailed(false)
    ensures Iterate(cfg, s, r) == Failed(StepCharged(s))
  {
  }

  /** A planner that answers once, with nothing but its usage, and then fails. */
  function FailsSecond(u: Usage): Env {
    (s: Turn) =>
      Round(0.0,
            if s.spend.steps == 0 then Completed(Completion("", [], u), ToolsCut, CriticCut) else PlannerFailed(false))
  }

  /** The default caps, as far as they matter here. */
  predicate Fits(b: Budget, u: Usage) {
    && b.maxSteps >= 2 && b.maxToolCalls >= 1 && b.maxSeconds > 0.0
    && 0 < b.maxTokens && u.tokens < b.maxTokens && 0.0 < b.maxCost && u.cost < b.maxCost
  }

  lemma FirstThenFails(cfg: Config, u: Usage, s: Turn)
    requires Fits(cfg.budget, u) && s.spend == NOTHING_SPENT && s.usage == NO_USAGE
    ensures var end := Loop(cfg, FailsSecond(u), s); end.Failed? && end.turn.usage == u
  {
    var env := FailsSecond(u);
    Text.StripIdempotent("");
    NudgedOn(cfg, s, env(s));
    var t := Iterate(cfg, s, env(s)).turn;
    FailsNow(cfg, t, env(t));
    LoopStep(cfg, env, s);
    LoopStep(cfg, env, t);
  }

  /** Such a planner at work, its pipeline down: whatever its answer cost, no usage is reported. */
  lemma PlannerFailureDropsUsage(cfg: Config, u: Usage, planPrompt: string, fin: Finishing)
    requires Fits(cfg.budget, u) && fin.fallback.PipelineRaised?
    ensures var end := Loop(cfg, FailsSecond(u), Opening(planPrompt));
            && end.Failed? && end.turn.usage == u
            && AnswerOf(cfg, end, fin).Some? && AnswerOf(cfg, end, fin).value.usage == NO_USAGE
  {
    FirstThenFails(cfg, u, Opening(planPrompt));
  }

  // ---- Where citations come from ----

  predicate MaySee(p: Principal, s: Source) {
    s.acl.None? || IsAllowed(p, s.acl.value)
  }

  lemma {:induction false} AuthorisedExactly(sources: seq<Source>, p: Principal)
    ensures forall s :: s in AuthorisedOf(sources, p) <==> s in sources && MaySee(p, s)
    ensures (forall s <- sources :: MaySee(p, s)) ==> AuthorisedOf(sources, p) == sources
  {
    if sources != [] {
      var init, last := sources[..|sources| - 1], sources[|sources| - 1];
      AuthorisedExactly(init, p);
      assert sources == init + [last];
      assert last in sources;
    }
  }

  /** A successful call brought the source. */
  ghost predicate Brought(results: seq<TR.ToolResult>, s: Source) {
    exists r :: r in results && r.ok && s in r.sources
  }

  lemma {:induction false} ResultsBring(results: seq<TR.ToolResult>, p: Principal, s: Source)
    ensures s in AuthorisedSources(results, p) <==> Brought(results, s) && MaySee(p, s)
  {
    if results != [] {
      var init, last := results[..|results| - 1], results[|results| - 1];
      assert results == init + [last];
      ResultsBring(init, p, s);
      AuthorisedExactly(last.sources, p);
      assert Brought(results, s) <==> Brought(init, s) || (last.ok && s in last.sources);
    }
  }

  /** A successful call of this turn brought the source. */
  ghost predicate FromTool(rows: seq<Row>, s: Source) {
    exists row :: row in rows && Brought(row.results, s)
  }

  lemma {:induction false} RowsBring(rows: seq<Row>, p: Principal, s: Source)
    ensures s in Gathered(rows, p) <==> FromTool(rows, s) && MaySee(p, s)
  {
    if rows != [] {
      var init, last := rows[..|rows| - 1], rows[|rows| - 1];
      assert rows == init + [last];
      RowsBring(init, p, s);
      ResultsBring(last.results, p, s);
      assert FromTool(rows, s) <==> FromTool(init, s) || Brought(last.results, s);
    }
  }

  /** All the evidence of a turn came from its tools and is the caller's to see: the last filter removes nothing. */
  lemma EvidenceIsClean(cfg: Config, s: Turn)
    requires FromRows(cfg, s)
    ensures forall src <- Sources(s.ledger) :: FromTool(s.rows, src) && MaySee(cfg.principal, src)
    ensures AuthorisedOf(Sources(s.ledger), cfg.principal) == Sources(s.ledger)
  {
    var history := Gathered(s.rows, cfg.principal);
    LedgerHolds(history);
    SourcesExactly(s.ledger);
    forall src | src in Sources(s.ledger)
      ensures FromTool(s.rows, src) && MaySee(cfg.principal, src)
    {
      var ref :| ref in s.ledger.at && s.ledger.at[ref] == src;
      assert HoldsBest(s.ledger, history, ref);
      RowsBring(s.rows, cfg.principal, src);
    }
    AuthorisedExactly(Sources(s.ledger), cfg.principal);
  }

  /**
   * A citation that a marker of the draft stands for, of a source that a tool of this turn brought and the caller
   * may see.
   */
  ghost predicate Grounds(c: Citation, cfg: Config, s: Turn, draft: string, markers: Markers) {
    exists src :: && c == CitationFromSource(src) && FromTool(s.rows, src) && MaySee(cfg.principal, src)
                  && Marked(draft, Sources(s.ledger), markers, src)
  }

  predicate NoRefTwice(cs: seq<Citation>) {
    forall i, j :: 0 <= i < j < |cs| ==> cs[i].ref != cs[j].ref
  }

  ghost predicate AllGrounded(cs: seq<Citation>, cfg: Config, s: Turn, draft: string, markers: Markers) {
    forall c <- cs :: Grounds(c, cfg, s, draft, markers)
  }

  /** The answer is the turn's own draft, judged or never shown, with grounded citations, no ref cited twice. */
  ghost predicate Ships(cfg: Config, s: Turn, stop: StopReason, fin: Finishing, a: AgentAnswer) {
    && (if stop == CriticGrounded then JustApproved(s) else NeverShown(cfg, s))
    && a.text == (if fin.redact.Some? then fin.redact.value(s.draft.value) else s.draft.value)
    && a.citations != []
    && NoRefTwice(a.citations)
    && AllGrounded(a.citations, cfg, s, s.draft.value, fin.markers)
  }

  lemma FinalizeOwn(cfg: Config, s: Turn, stop: StopReason, fin: Finishing)
    requires OwnAnswer(Finalize(cfg, s, stop, fin))
    ensures var a, text := Finalize(cfg, s, stop, fin), Text.Strip(s.draft.GetOr(""));
            && text != "" && stop in ANSWERABLE_STOPS && a.stopReason == stop
            && a.citations == DraftCitations(cfg, s, fin.markers) && a.citations != []
            && a.text == (if fin.redact.Some? then fin.redact.value(text) else text)
  {
  }

  lemma DraftGrounded(cfg: Config, s: Turn, markers: Markers)
    requires FromRows(cfg, s) && s.draft.Some? && Text.Strip(s.draft.value) == s.draft.value
    ensures var cs := DraftCitations(cfg, s, markers);
            NoRefTwice(cs) && AllGrounded(cs, cfg, s, s.draft.value, markers)
  {
    CitationsGrounded(cfg, s, s.draft.value, markers);
  }

  lemma FinalizeShips(cfg: Config, s: Turn, stop: StopReason, fin: Finishing, a: AgentAnswer)
    requires EndOk(cfg, s, stop) && a == Finalize(cfg, s, stop, fin) && OwnAnswer(a)
    ensures Ships(cfg, s, stop, fin, a) && a.stopReason == stop
  {
    FinalizeOwn(cfg, s, stop, fin);
    DraftGrounded(cfg, s, fin.markers);
  }

  /**
   * No rejected draft is shipped. When the agent answers, the text is the draft of the last round, which the critic
   * approved in that round or was not shown, its rounds being spent; and the citations are there, distinct, and each
   * grounded in this turn's evidence.
   */
  lemma NoRejectedDraft(cfg: Config, env: Env, planPrompt: string, fin: Finishing)
    ensures var end := Loop(cfg, env, Opening(planPrompt));
            var r := AnswerOf(cfg, end, fin);
            r.Some? && OwnAnswer(r.value) ==>
              end.Done? && end.stop == r.value.stopReason && Ships(cfg, end.turn, end.stop, fin, r.value)
  {
    RunEnds(cfg, env, planPrompt);
    EndShips(cfg, Loop(cfg, env, Opening(planPrompt)), fin);
  }

  lemma EndShips(cfg: Config, end: Next, fin: Finishing)
    requires EndsOk(cfg, end)
    ensures var r := AnswerOf(cfg, end, fin);
            r.Some? && OwnAnswer(r.value) ==>
              end.Done? && end.stop == r.value.stopReason && Ships(cfg, end.turn, end.stop, fin, r.value)
  {
    var r := AnswerOf(cfg, end, fin);
    if r.Some? && OwnAnswer(r.value) {
      FinalizeShips(cfg, end.turn, end.stop, fin, r.value);
    }
  }

  /** Some marker of the text stands for evidence that a tool of this turn brought and the caller may see. */
  ghost predicate Backed(cfg: Config, s: Turn, text: string, markers: Markers) {
    exists src :: FromTool(s.rows, src) && MaySee(cfg.principal, src) && Marked(text, Sources(s.ledger), markers, src)
  }

  lemma BackedIsCited(cfg: Config, s: Turn, text: string, markers: Markers)
    requires FromRows(cfg, s)
    ensures SourceCitations(text, AuthorisedOf(Sources(s.ledger), cfg.principal), markers) != [] <==>
            Backed(cfg, s, text, markers)
  {
    EvidenceIsClean(cfg, s);
    var sources := Sources(s.ledger);
    SourceCitationsSound(text, sources, markers);
    var cs := SourceCitations(text, sources, markers);
    if cs != [] {
      assert CitesSource(cs[0], text, sources, markers);
    }
    CitedExactly(ByRef(sources), markers(text));
  }

  lemma FinalizeExactly(cfg: Config, s: Turn, stop: StopReason, fin: Finishing)
    ensures OwnAnswer(Finalize(cfg, s, stop, fin)) <==>
            stop in ANSWERABLE_STOPS && DraftCitations(cfg, s, fin.markers) != []
  {
  }

  /** The draft of the round is one to ship: approved, or kept unjudged because the critiques were spent. */
  predicate Kept(cfg: Config, h: Turn, r: Round) {
    Unjudged(cfg, h, r) || Approved(cfg, h, r)
  }

  ghost predicate AnswersAsItMust(cfg: Config, h: Turn, r: Round, end: Next, fin: Finishing) {
    var answer := AnswerOf(cfg, end, fin);
    && (answer.Some? && OwnAnswer(answer.value) <==>
        end.Done? && Kept(cfg, h, r) && Backed(cfg, end.turn, Text.Strip(r.planning.completion.text), fin.markers))
    && (answer.Some? && OwnAnswer(answer.value) ==>
          var draft := Text.Strip(r.planning.completion.text);
          && answer.value.text == (if fin.redact.Some? then fin.redact.value(draft) else draft)
          && answer.value.stopReason == if Approved(cfg, h, r) then CriticGrounded else CriticExhausted)
  }

  lemma KeptAnswers(cfg: Config, s: Turn, stop: StopReason, draft: string, fin: Finishing)
    requires FromRows(cfg, s) && stop in ANSWERABLE_STOPS
    requires s.draft == Some(draft) && draft != "" && Text.Strip(draft) == draft
    ensures OwnAnswer(Finalize(cfg, s, stop, fin)) <==> Backed(cfg, s, draft, fin.markers)
    ensures OwnAnswer(Finalize(cfg, s, stop, fin)) ==>
              && Finalize(cfg, s, stop, fin).text == (if fin.redact.Some? then fin.redact.value(draft) else draft)
              && Finalize(cfg, s, stop, fin).stopReason == stop
  {
    FinalizeExactly(cfg, s, stop, fin);
    BackedIsCited(cfg, s, draft, fin.markers);
    if OwnAnswer(Finalize(cfg, s, stop, fin)) {
      FinalizeOwn(cfg, s, stop, fin);
    }
  }

  lemma EndAnswers(cfg: Config, h: Turn, r: Round, end: Next, fin: Finishing)
    requires EndsOk(cfg, end) && EndsAsItMust(cfg, h, r, end)
    ensures AnswersAsItMust(cfg, h, r, end, fin)
  {
    if Kept(cfg, h, r) {
      Text.StripIdempotent(r.planning.completion.text);
      KeptAnswers(cfg, end.turn, end.stop, Text.Strip(r.planning.completion.text), fin);
    } else {
      OtherEndsNotOwn(cfg, end, fin);
    }
  }

  lemma OtherEndsNotOwn(cfg: Config, end: Next, fin: Finishing)
    requires EndsOk(cfg, end) && !(end.Done? && end.stop in {CriticGrounded, CriticExhausted})
    ensures var answer := AnswerOf(cfg, end, fin); answer.Some? ==> !OwnAnswer(answer.value)
  {
    if end.Done? {
      FinalizeExactly(cfg, end.turn, end.stop, fin);
    }
  }

  /**
   * The agent answers under its own power exactly when its last draft was approved, or kept unjudged because the
   * critiques were spent, and a marker of the draft stands for evidence of the turn that the caller may see. The
   * answer is then that draft, and names which of the two it was.
   */
  lemma OwnAnswerExactly(cfg: Config, env: Env, planPrompt: string, fin: Finishing)
    ensures var h := LastHead(cfg, env, Opening(planPrompt));
            AnswersAsItMust(cfg, h, env(h), Loop(cfg, env, Opening(planPrompt)), fin)
  {
    var h := LastHead(cfg, env, Opening(planPrompt));
    RunEnds(cfg, env, planPrompt);
    StopsExactly(cfg, env, Opening(planPrompt));
    EndAnswers(cfg, h, env(h), Loop(cfg, env, Opening(planPrompt)), fin);
  }

  /** Why an answer is not the agent's own. */
  function Excuse(cfg: Config, h: Turn, r: Round): string {
    if PlannerFails(cfg, h, r) then "llm_unavailable"
    else if RunsOut(cfg, h, r) then "agent_budget_exhausted"
    else "agent_no_grounding"
  }

  lemma EndExcuses(cfg: Config, h: Turn, r: Round, end: Next, fin: Finishing)
    requires EndsOk(cfg, end) && EndsAsItMust(cfg, h, r, end)
    ensures var answer := AnswerOf(cfg, end, fin);
            answer.Some? && !OwnAnswer(answer.value) ==>
              && answer.value.degradedReason == Some(Excuse(cfg, h, r))
              && answer.value.fallbackUsed == fin.fallback.PipelineAnswered?
  {
    if end.Done? {
      FinalizeExcuses(cfg, end.turn, end.stop, fin);
    }
  }

  lemma FinalizeExcuses(cfg: Config, s: Turn, stop: StopReason, fin: Finishing)
    requires stop in {BudgetExhausted, CriticGrounded, CriticExhausted}
    ensures var a := Finalize(cfg, s, stop, fin);
            !OwnAnswer(a) ==>
              && a.degradedReason ==
                   Some(if stop == BudgetExhausted then "agent_budget_exhausted" else "agent_no_grounding")
              && a.fallbackUsed == fin.fallback.PipelineAnswered?
  {
  }

  /**
   * An answer that is not the agent's own says why: the planner failed, the budget ran out, or no marker of the draft
   * stood for evidence; and it is the pipeline's whenever the pipeline answers.
   */
  lemma ExcuseExactly(cfg: Config, env: Env, planPrompt: string, fin: Finishing)
    ensures var h := LastHead(cfg, env, Opening(planPrompt));
            var answer := AnswerOf(cfg, Loop(cfg, env, Opening(planPrompt)), fin);
            answer.Some? && !OwnAnswer(answer.value) ==>
              && answer.value.degradedReason == Some(Excuse(cfg, h, env(h)))
              && answer.value.fallbackUsed == fin.fallback.PipelineAnswered?
  {
    var h := LastHead(cfg, env, Opening(planPrompt));
    RunEnds(cfg, env, planPrompt);
    StopsExactly(cfg, env, Opening(planPrompt));
    EndExcuses(cfg, h, env(h), Loop(cfg, env, Opening(planPrompt)), fin);
  }

  lemma CitationsGrounded(cfg: Config, s: Turn, draft: string, markers: Markers)
    requires FromRows(cfg, s)
    ensures var cs := SourceCitations(draft, AuthorisedOf(Sources(s.ledger), cfg.principal), markers);
            NoRefTwice(cs) && AllGrounded(cs, cfg, s, draft, markers)
  {
    EvidenceIsClean(cfg, s);
    var sources := Sources(s.ledger);
    SourceCitationsSound(draft, sources, markers);
    var cs := SourceCitations(draft, sources, markers);
    forall c | c in cs
      ensures Grounds(c, cfg, s, draft, markers)
    {
      var i :| 0 <= i < |cs| && cs[i] == c;
      assert CitesSource(cs[i], draft, sources, markers);
    }
  }
}
