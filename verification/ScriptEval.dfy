/**
 * The agent evaluation of src/rag/jobs/agent_eval.py and src/rag/eval/agent_runner.py: one script for the planner and
 * one for the critic, written for all examples and played through the agent loop.
 */
module ScriptEval {
  import opened Schemas
  import opened Collections
  import opened Citations
  import opened Evidence
  import opened Budgets
  import opened AgentLoop
  import opened AgentInvariants
  import opened EchoChat
  import Text
  import TR = ToolRegistry

  datatype Example = Example(
    id: string,
    question: string,
    reference: string,
    retrievalRounds: nat,
    expectSelfCorrection: bool)

  // ---- The scripts ----

  const UNCITED := "A confident answer that cites nothing."
  const APPROVE :=
    "{\"sufficient\": true, \"grounded\": true, \"reasons\": [\"cited\"], \"missing\": [], \"confidence\": 0.9}"
  const REJECT := "{\"sufficient\": false, \"grounded\": false, \"reasons\": [\"draft cites nothing\"], "
    + "\"missing\": [\"a citation for the main claim\"], \"confidence\": 0.2}"

  type Decimal = nat -> string

  function SearchFor(ex: Example, id: string): ScriptedTurn {
    ScriptedTurn("", [TR.ToolCall(id, "retrieval_search", Put(Empty(), "query", TR.JString(ex.question)))])
  }

  function GroundedDraft(ex: Example, chunkId: string): string {
    (if ex.reference != "" then ex.reference else "Grounded answer from the corpus.") + " [" + chunkId + "]"
  }

  /** One more round of critique when a self-correction is expected. */
  function Corrections(ex: Example): nat {
    if ex.expectSelfCorrection then 1 else 0
  }

  function PlannerTurns(ex: Example): nat {
    ex.retrievalRounds + 1 + 2 * Corrections(ex)
  }

  /**
   * The planner's turn `k` for an example: searches, then perhaps a draft to be rejected and one search, then the
   * answer.
   */
  function ScriptTurn(ex: Example, chunkId: string, decimal: Decimal, k: nat): ScriptedTurn
    requires k < PlannerTurns(ex)
  {
    if k < ex.retrievalRounds then SearchFor(ex, ex.id + "-r" + decimal(k))
    else if k == PlannerTurns(ex) - 1 then ScriptedTurn(GroundedDraft(ex, chunkId), [])
    else if k == ex.retrievalRounds then ScriptedTurn(UNCITED, [])
    else SearchFor(ex, ex.id + "-fix")
  }

  function Trajectory(ex: Example, chunkId: string, decimal: Decimal): (turns: Script)
    ensures |turns| == PlannerTurns(ex)
  {
    seq(PlannerTurns(ex), k requires 0 <= k < PlannerTurns(ex) => ScriptTurn(ex, chunkId, decimal, k))
  }

  /** src/rag/jobs/agent_eval.py:114-154 */
  method BuildTrajectory(ex: Example, chunkId: string, decimal: Decimal) returns (turns: Script)
    ensures turns == Trajectory(ex, chunkId, decimal)
  {
    var grounded := GroundedDraft(ex, chunkId);
    turns := [];
    for round := 0 to ex.retrievalRounds
      invariant turns == seq(round, k requires 0 <= k < round => ScriptTurn(ex, chunkId, decimal, k))
    {
      turns := turns + [SearchFor(ex, ex.id + "-r" + decimal(round))];
    }
    if ex.expectSelfCorrection {
      turns := turns + [ScriptedTurn(UNCITED, [])];
      turns := turns + [SearchFor(ex, ex.id + "-fix")];
    }
    turns := turns + [ScriptedTurn(grounded, [])];
  }

  /** src/rag/jobs/agent_eval.py:157-160 */
  function Critiques(ex: Example): (turns: Script)
    ensures |turns| == 1 + Corrections(ex)
  {
    if ex.expectSelfCorrection then [ScriptedTurn(REJECT, []), ScriptedTurn(APPROVE, [])]
    else [ScriptedTurn(APPROVE, [])]
  }

  function PlannerScript(exs: seq<Example>, chunkId: string, decimal: Decimal): Script {
    if exs == [] then []
    else PlannerScript(exs[..|exs| - 1], chunkId, decimal) + Trajectory(exs[|exs| - 1], chunkId, decimal)
  }

  function CriticScript(exs: seq<Example>): Script {
    if exs == [] then [] else CriticScript(exs[..|exs| - 1]) + Critiques(exs[|exs| - 1])
  }

  /** src/rag/jobs/agent_eval.py:62-66 */
  method BuildScripts(exs: seq<Example>, chunkId: string, decimal: Decimal)
    returns (script: Script, criticScript: Script)
    ensures script == PlannerScript(exs, chunkId, decimal) && criticScript == CriticScript(exs)
  {
    script, criticScript := [], [];
    for i := 0 to |exs|
      invariant script == PlannerScript(exs[..i], chunkId, decimal) && criticScript == CriticScript(exs[..i])
    {
      assert exs[..i + 1][..i] == exs[..i];
      var turns := BuildTrajectory(exs[i], chunkId, decimal);
      script := script + turns;
      criticScript := criticScript + Critiques(exs[i]);
    }
    assert exs[..|exs|] == exs;
  }

  // ---- Playing a script ----

  /** What a run depends on besides the scripts: time, tools, and how critiques are asked for and read. */
  datatype Bench = Bench(
    meter: Meter,
    clock: Turn -> real,
    raw: Turn -> nat -> TR.ToolResult,
    judgePrompt: (string, seq<Source>) -> seq<Message>,
    parse: string -> Verdict)

  function Critic(b: Bench, criticScript: Script, cursor: int, s: Turn, draft: string): Completion {
    Echoed(b.meter, criticScript, cursor, b.judgePrompt(draft, Sources(s.ledger)))
  }

  function ScriptedRound(b: Bench, script: Script, criticScript: Script, p: int, q: int, s: Turn): Round {
    var c := Echoed(b.meter, script, p + s.spend.steps, s.messages);
    var v := Critic(b, criticScript, q + s.spend.critiqueRounds, s, Text.Strip(c.text));
    Round(b.clock(s), Completed(c, Results(b.raw(s)), Judged(b.parse(v.text), v.usage)))
  }

  /** Planner and critic that walk their scripts from `p` and `q` on, as an environment of the loop. */
  function Scripted(b: Bench, script: Script, criticScript: Script, p: int, q: int): Env {
    (s: Turn) => ScriptedRound(b, script, criticScript, p, q, s)
  }

  /** The critic is asked about this completion. */
  predicate AsksCritic(cfg: Config, s: Turn, c: Completion) {
    c.calls == [] && Text.Strip(c.text) != "" && s.spend.CanCritique(cfg.budget)
  }

  lemma JudgingUnasked(cfg: Config, s: Turn, elapsed: real, c: Completion, tools: Tooling, judging: Judging,
                       other: Judging)
    requires !AsksCritic(cfg, s, c)
    ensures Iterate(cfg, s, Round(elapsed, Completed(c, tools, judging))) ==
              Iterate(cfg, s, Round(elapsed, Completed(c, tools, other)))
  {
  }

  /** A round spends one step, and one critique if the critic is asked. */
  lemma RoundSpends(cfg: Config, s: Turn, elapsed: real, c: Completion, raw: nat -> TR.ToolResult, judging: Judging)
    requires !s.spend.Exhausted(cfg.budget, elapsed) && (AsksCritic(cfg, s, c) ==> judging.Judged?)
    ensures var n := Iterate(cfg, s, Round(elapsed, Completed(c, Results(raw), judging)));
            && !n.Escaped? && !n.Failed? && n.turn.spend.steps == s.spend.steps + 1
            && n.turn.spend.critiqueRounds == s.spend.critiqueRounds + (if AsksCritic(cfg, s, c) then 1 else 0)
  {
  }

  /** The critic's judgement if it is asked, from cursor `q`. */
  function Judgement(cfg: Config, b: Bench, criticScript: Script, q: int, s: Turn, c: Completion): Judging {
    if AsksCritic(cfg, s, c) then
      var v := Critic(b, criticScript, q, s, Text.Strip(c.text));
      Judged(b.parse(v.text), v.usage)
    else CriticCut
  }

  /** What a round gives when the critic is asked only if need be is what the scripted round gives. */
  lemma PlayedRound(cfg: Config, b: Bench, script: Script, criticScript: Script, p: int, q: int, s: Turn, c: Completion,
                    judging: Judging, n: Next)
    requires !s.spend.Exhausted(cfg.budget, b.clock(s)) && c == Echoed(b.meter, script, p, s.messages)
    requires judging == Judgement(cfg, b, criticScript, q, s, c)
    requires n == Iterate(cfg, s, Round(b.clock(s), Completed(c, Results(b.raw(s)), judging)))
    ensures n == Iterate(cfg, s, ScriptedRound(b, script, criticScript, p - s.spend.steps, q - s.spend.critiqueRounds,
                                               s))
  {
    var r := ScriptedRound(b, script, criticScript, p - s.spend.steps, q - s.spend.critiqueRounds, s);
    assert r == Round(b.clock(s), Completed(c, Results(b.raw(s)), r.planning.judging));
    if AsksCritic(cfg, s, c) {
      assert r.planning.judging == judging;
    } else {
      JudgingUnasked(cfg, s, b.clock(s), c, Results(b.raw(s)), judging, r.planning.judging);
    }
  }

  /** One round of asking the two script walkers, each only when the loop asks. */
  method Ask(cfg: Config, b: Bench, planner: EchoChatLLM, critic: EchoChatLLM, s: Turn)
    returns (c: Completion, judging: Judging)
    requires planner != critic && planner.cursor <= |planner.script| && critic.cursor <= |critic.script|
    requires planner.meter == b.meter && critic.meter == b.meter
    modifies planner, critic
    ensures planner.cursor <= |planner.script| && critic.cursor <= |critic.script|
    ensures c == Echoed(b.meter, planner.script, old(planner.cursor), s.messages)
    ensures judging == Judgement(cfg, b, critic.script, old(critic.cursor), s, c)
    ensures planner.cursor == Advanced(planner.script, old(planner.cursor), 1)
    ensures critic.cursor == Advanced(critic.script, old(critic.cursor), if AsksCritic(cfg, s, c) then 1 else 0)
  {
    c := planner.Chat(s.messages);
    judging := CriticCut;
    if AsksCritic(cfg, s, c) {
      var v := critic.Chat(b.judgePrompt(Text.Strip(c.text), Sources(s.ledger)));
      judging := Judged(b.parse(v.text), v.usage);
    }
  }

  /** A turn against the two script walkers is a run of the loop in the scripted environment. */
  method Play(cfg: Config, b: Bench, planner: EchoChatLLM, critic: EchoChatLLM, start: Turn) returns (end: Next)
    requires planner != critic && planner.cursor <= |planner.script| && critic.cursor <= |critic.script|
    requires planner.meter == b.meter && critic.meter == b.meter
    requires start.spend == NOTHING_SPENT
    modifies planner, critic
    ensures planner.cursor <= |planner.script| && critic.cursor <= |critic.script|
    ensures end == Loop(cfg, Scripted(b, planner.script, critic.script, old(planner.cursor), old(critic.cursor)), start)
    ensures end.Done?
    ensures planner.cursor == Advanced(planner.script, old(planner.cursor), end.turn.spend.steps)
    ensures critic.cursor == Advanced(critic.script, old(critic.cursor), end.turn.spend.critiqueRounds)
  {
    var s := start;
    ghost var env := Scripted(b, planner.script, critic.script, planner.cursor, critic.cursor);
    while true
      invariant planner.cursor <= |planner.script| && critic.cursor <= |critic.script|
      invariant Loop(cfg, env, s) == Loop(cfg, env, start)
      invariant s.spend.steps >= 0 && planner.cursor == Advanced(planner.script, old(planner.cursor), s.spend.steps)
      invariant s.spend.critiqueRounds >= 0
      invariant critic.cursor == Advanced(critic.script, old(critic.cursor), s.spend.critiqueRounds)
      decreases cfg.budget.maxSteps - s.spend.steps
    {
      if s.spend.Exhausted(cfg.budget, b.clock(s)) {
        return Done(s, BudgetExhausted);
      }
      var c, judging := Ask(cfg, b, planner, critic, s);
      var n := Iterate(cfg, s, Round(b.clock(s), Completed(c, Results(b.raw(s)), judging)));
      PlayedStep(cfg, b, planner.script, critic.script, old(planner.cursor), old(critic.cursor), s, c, judging, n);
      RoundSpends(cfg, s, b.clock(s), c, b.raw(s), judging);
      LoopStep(cfg, env, s);
      AdvancedTwice(planner.script, old(planner.cursor), s.spend.steps, 1);
      AdvancedTwice(critic.script, old(critic.cursor), s.spend.critiqueRounds, if AsksCritic(cfg, s, c) then 1 else 0);
      if !n.Continue? {
        return n;
      }
      s := n.turn;
    }
  }

  /** A round with cursors held at the end is a step of the scripted loop. */
  lemma PlayedStep(cfg: Config, b: Bench, script: Script, criticScript: Script, p: nat, q: nat, s: Turn, c: Completion,
                   judging: Judging, n: Next)
    requires p <= |script| && q <= |criticScript| && s.spend.steps >= 0 && s.spend.critiqueRounds >= 0
    requires !s.spend.Exhausted(cfg.budget, b.clock(s))
    requires c == Echoed(b.meter, script, Advanced(script, p, s.spend.steps), s.messages)
    requires judging == Judgement(cfg, b, criticScript, Advanced(criticScript, q, s.spend.critiqueRounds), s, c)
    requires n == Iterate(cfg, s, Round(b.clock(s), Completed(c, Results(b.raw(s)), judging)))
    ensures n == Iterate(cfg, s, Scripted(b, script, criticScript, p, q)(s))
  {
    RoundPastEnd(b, script, criticScript, p, q, s);
    PlayedRound(cfg, b, script, criticScript, Advanced(script, p, s.spend.steps),
                Advanced(criticScript, q, s.spend.critiqueRounds), s, c, judging, n);
  }

  lemma AdvancedTwice(script: Script, p: nat, n: nat, k: nat)
    requires p <= |script|
    ensures Advanced(script, Advanced(script, p, n), k) == Advanced(script, p, n + k)
  {
  }

  /** Cursors held at the end of their scripts give the round that cursors past the end would. */
  lemma RoundPastEnd(b: Bench, script: Script, criticScript: Script, p: nat, q: nat, s: Turn)
    requires s.spend.steps >= 0 && s.spend.critiqueRounds >= 0
    ensures var held := ScriptedRound(b, script, criticScript, Advanced(script, p, s.spend.steps) - s.spend.steps,
                                      Advanced(criticScript, q, s.spend.critiqueRounds) - s.spend.critiqueRounds, s);
            held == Scripted(b, script, criticScript, p, q)(s)
  {
    EchoedPastEnd(script, p, s.spend.steps);
    EchoedPastEnd(criticScript, q, s.spend.critiqueRounds);
  }

  lemma EchoedPastEnd(script: Script, p: nat, n: nat)
    ensures TurnAt(script, Advanced(script, p, n)) == TurnAt(script, p + n)
  {
  }

  // ---- Single turns ----

  /** What the counters of a turn are. */
  predicate Counts(s: Turn, steps: int, toolCalls: int, critiques: int, corrections: int) {
    s.spend.steps == steps && s.spend.toolCalls == toolCalls && s.spend.critiqueRounds == critiques
    && s.corrections == corrections
  }

  lemma SearchTurn(cfg: Config, s: Turn, r: Round)
    requires !s.spend.Exhausted(cfg.budget, r.elapsed)
    requires r.planning.Completed? && |r.planning.completion.calls| == 1 && r.planning.tools.Results?
    ensures var n := Iterate(cfg, s, r);
            n.Continue? && Counts(n.turn, s.spend.steps + 1, s.spend.toolCalls + 1, s.spend.critiqueRounds,
                                  s.corrections)
  {
  }

  lemma JudgedTurn(cfg: Config, s: Turn, r: Round)
    requires !s.spend.Exhausted(cfg.budget, r.elapsed)
    requires r.planning.Completed? && AsksCritic(cfg, s, r.planning.completion) && r.planning.judging.Judged?
    ensures var n := Iterate(cfg, s, r);
            if r.planning.judging.verdict.Approves() then
              && n.Done? && n.stop == CriticGrounded
              && Counts(n.turn, s.spend.steps + 1, s.spend.toolCalls, s.spend.critiqueRounds + 1, s.corrections)
            else
              && n.Continue?
              && Counts(n.turn, s.spend.steps + 1, s.spend.toolCalls, s.spend.critiqueRounds + 1, s.corrections + 1)
  {
  }

  /** Both scripted drafts are drafts: stripped, they are not empty. */
  lemma DraftsShow(ex: Example, chunkId: string)
    ensures Text.Strip(UNCITED) != "" && Text.Strip(GroundedDraft(ex, chunkId)) != ""
  {
    Text.StripIdempotent(UNCITED);
    assert !Text.IsSpace(UNCITED[0]);
    var draft := GroundedDraft(ex, chunkId);
    Text.StripIdempotent(draft);
    assert draft[|draft| - 1] == ']' && !Text.IsSpace(']');
  }

  // ---- One example, from its script boundary on ----

  /** What the scripts are played with: who asks what, where the example starts in both scripts. */
  datatype Part = Part(ex: Example, chunkId: string, decimal: Decimal, script: Script, criticScript: Script, p: nat,
                       q: nat)

  ghost predicate AtBoundary(pt: Part) {
    && pt.p + PlannerTurns(pt.ex) <= |pt.script|
    && pt.script[pt.p..pt.p + PlannerTurns(pt.ex)] == Trajectory(pt.ex, pt.chunkId, pt.decimal)
    && pt.q + 1 + Corrections(pt.ex) <= |pt.criticScript|
    && pt.criticScript[pt.q..pt.q + 1 + Corrections(pt.ex)] == Critiques(pt.ex)
  }

  /** The critic's reading of its two scripted replies. */
  predicate Readable(b: Bench) {
    b.parse(APPROVE).Approves() && !b.parse(REJECT).Approves()
  }

  /** The counted caps leave room for the example. */
  predicate Roomy(budget: Budget, ex: Example) {
    && PlannerTurns(ex) <= budget.maxSteps
    && ex.retrievalRounds + Corrections(ex) < budget.maxToolCalls
    && 1 + Corrections(ex) <= budget.maxCritiqueRounds
  }

  predicate UnboundAt(budget: Budget, s: Turn, elapsed: real) {
    s.spend.usage.tokens < budget.maxTokens && s.spend.usage.cost < budget.maxCost && elapsed < budget.maxSeconds
  }

  /** Tokens, cost and time never bind. */
  ghost predicate Unbound(cfg: Config, env: Env, s: Turn) {
    forall h <- Heads(cfg, env, s) :: UnboundAt(cfg.budget, h, env(h).elapsed)
  }

  function SearchesBefore(ex: Example, k: nat): nat {
    if k <= ex.retrievalRounds then k
    else if k == ex.retrievalRounds + 1 then ex.retrievalRounds
    else ex.retrievalRounds + 1
  }

  function RejectionsBefore(ex: Example, k: nat): nat {
    if k > ex.retrievalRounds then 1 else 0
  }

  /** `k` turns of the example's script have been played. */
  predicate Played(ex: Example, s: Turn, k: nat) {
    Counts(s, k, SearchesBefore(ex, k), RejectionsBefore(ex, k), RejectionsBefore(ex, k))
  }

  lemma NotExhausted(cfg: Config, ex: Example, s: Turn, k: nat, elapsed: real)
    requires k < PlannerTurns(ex) && Played(ex, s, k) && Roomy(cfg.budget, ex) && UnboundAt(cfg.budget, s, elapsed)
    ensures !s.spend.Exhausted(cfg.budget, elapsed)
  {
  }

  lemma ScriptedTurnIs(b: Bench, pt: Part, s: Turn, k: nat)
    requires AtBoundary(pt) && k < PlannerTurns(pt.ex) && s.spend.steps == k
    ensures var c := ScriptedRound(b, pt.script, pt.criticScript, pt.p, pt.q, s).planning.completion;
            var turn := ScriptTurn(pt.ex, pt.chunkId, pt.decimal, k);
            c.text == turn.content && c.calls == turn.calls
  {
    var n := PlannerTurns(pt.ex);
    assert pt.script[pt.p..pt.p + n][k] == pt.script[pt.p + k];
  }

  lemma ScriptedVerdictIs(b: Bench, pt: Part, s: Turn, j: nat)
    requires AtBoundary(pt) && j < 1 + Corrections(pt.ex) && s.spend.critiqueRounds == j
    ensures ScriptedRound(b, pt.script, pt.criticScript, pt.p, pt.q, s).planning.judging.verdict ==
              b.parse(Critiques(pt.ex)[j].content)
  {
    var n := 1 + Corrections(pt.ex);
    assert pt.criticScript[pt.q..pt.q + n][j] == pt.criticScript[pt.q + j];
  }

  /** Each turn but the last leads to the next. */
  lemma PlaysOn(cfg: Config, b: Bench, pt: Part, s: Turn, k: nat)
    requires AtBoundary(pt) && Readable(b) && Roomy(cfg.budget, pt.ex) && k + 1 < PlannerTurns(pt.ex)
             && Played(pt.ex, s, k)
    requires UnboundAt(cfg.budget, s, b.clock(s))
    ensures var n := Iterate(cfg, s, ScriptedRound(b, pt.script, pt.criticScript, pt.p, pt.q, s));
            n.Continue? && Played(pt.ex, n.turn, k + 1)
  {
    var r := ScriptedRound(b, pt.script, pt.criticScript, pt.p, pt.q, s);
    NotExhausted(cfg, pt.ex, s, k, b.clock(s));
    ScriptedTurnIs(b, pt, s, k);
    if k == pt.ex.retrievalRounds {
      DraftsShow(pt.ex, pt.chunkId);
      ScriptedVerdictIs(b, pt, s, 0);
      JudgedTurn(cfg, s, r);
    } else {
      SearchTurn(cfg, s, r);
    }
  }

  /** The last turn is approved. */
  lemma PlaysOut(cfg: Config, b: Bench, pt: Part, s: Turn)
    requires AtBoundary(pt) && Readable(b) && Roomy(cfg.budget, pt.ex) && Played(pt.ex, s, PlannerTurns(pt.ex) - 1)
    requires UnboundAt(cfg.budget, s, b.clock(s))
    ensures var n := Iterate(cfg, s, ScriptedRound(b, pt.script, pt.criticScript, pt.p, pt.q, s));
            n.Done? && n.stop == CriticGrounded && PlayedOut(pt.ex, n.turn)
  {
    var r := ScriptedRound(b, pt.script, pt.criticScript, pt.p, pt.q, s);
    NotExhausted(cfg, pt.ex, s, PlannerTurns(pt.ex) - 1, b.clock(s));
    ScriptedTurnIs(b, pt, s, PlannerTurns(pt.ex) - 1);
    ScriptedVerdictIs(b, pt, s, Corrections(pt.ex));
    DraftsShow(pt.ex, pt.chunkId);
    JudgedTurn(cfg, s, r);
  }

  /** All that the example asks for has been done, and no more. */
  predicate PlayedOut(ex: Example, s: Turn) {
    Counts(s, PlannerTurns(ex), ex.retrievalRounds + Corrections(ex), 1 + Corrections(ex), Corrections(ex))
  }

  /** From a boundary on, the loop plays exactly the example's part of both scripts. */
  lemma {:induction false} PlaysItsPart(cfg: Config, b: Bench, pt: Part, s: Turn, k: nat)
    requires AtBoundary(pt) && Readable(b) && Roomy(cfg.budget, pt.ex) && k < PlannerTurns(pt.ex) && Played(pt.ex, s, k)
    requires Unbound(cfg, Scripted(b, pt.script, pt.criticScript, pt.p, pt.q), s)
    ensures var end := Loop(cfg, Scripted(b, pt.script, pt.criticScript, pt.p, pt.q), s);
            end.Done? && end.stop == CriticGrounded && PlayedOut(pt.ex, end.turn)
    decreases PlannerTurns(pt.ex) - k
  {
    var env := Scripted(b, pt.script, pt.criticScript, pt.p, pt.q);
    var heads := Heads(cfg, env, s);
    assert s == heads[0];
    if k + 1 < PlannerTurns(pt.ex) {
      PlaysOn(cfg, b, pt, s, k);
      var n := Iterate(cfg, s, env(s));
      assert heads == [s] + Heads(cfg, env, n.turn);
      assert forall h <- Heads(cfg, env, n.turn) :: h in heads;
      PlaysItsPart(cfg, b, pt, n.turn, k + 1);
    } else {
      PlaysOut(cfg, b, pt, s);
    }
  }

  /** A turn that the critic ends has a tool call to spare. */
  lemma {:induction false} ToolCallSpare(cfg: Config, env: Env, s: Turn)
    requires Loop(cfg, env, s).Done? && Loop(cfg, env, s).stop == CriticGrounded
    ensures Loop(cfg, env, s).turn.spend.toolCalls < cfg.budget.maxToolCalls
    decreases cfg.budget.maxSteps - s.spend.steps
  {
    LoopStep(cfg, env, s);
    var n := Iterate(cfg, s, env(s));
    if n.Continue? {
      ToolCallSpare(cfg, env, n.turn);
    }
  }

  /**
   * When tokens, cost and time do not bind, the turn of an example that starts at its script boundary plays exactly
   * the example's part of both scripts and is approved, if and only if the counted caps leave room for it.
   */
  lemma PlaysItsPartExactly(cfg: Config, b: Bench, pt: Part, planPrompt: string)
    requires AtBoundary(pt) && Readable(b)
    requires Unbound(cfg, Scripted(b, pt.script, pt.criticScript, pt.p, pt.q), Opening(planPrompt))
    ensures var end := Loop(cfg, Scripted(b, pt.script, pt.criticScript, pt.p, pt.q), Opening(planPrompt));
            end.Done? && end.stop == CriticGrounded && PlayedOut(pt.ex, end.turn) <==> Roomy(cfg.budget, pt.ex)
  {
    var env := Scripted(b, pt.script, pt.criticScript, pt.p, pt.q);
    var end := Loop(cfg, env, Opening(planPrompt));
    if Roomy(cfg.budget, pt.ex) {
      PlaysItsPart(cfg, b, pt, Opening(planPrompt), 0);
    }
    if end.Done? && end.stop == CriticGrounded && PlayedOut(pt.ex, end.turn) {
      ToolCallSpare(cfg, env, Opening(planPrompt));
      BudgetKept(cfg, env, planPrompt);
    }
  }

  /** Scripts never fail and are never cut: every turn ends with a stop reason. */
  lemma {:induction false} ScriptedDone(cfg: Config, b: Bench, script: Script, criticScript: Script, p: int, q: int,
                                        s: Turn)
    ensures Loop(cfg, Scripted(b, script, criticScript, p, q), s).Done?
    decreases cfg.budget.maxSteps - s.spend.steps
  {
    var env := Scripted(b, script, criticScript, p, q);
    LoopStep(cfg, env, s);
    var n := Iterate(cfg, s, env(s));
    if n.Continue? {
      ScriptedDone(cfg, b, script, criticScript, p, q, n.turn);
    }
  }
}
