/**
 * src/rag/eval/agent_runner.py: all examples, one after the other, over one planner and one critic whose cursors
 * carry on from example to example.
 */
module EvalRunner {
  import opened Schemas
  import opened Budgets
  import opened AgentLoop
  import opened AgentInvariants
  import opened AgentAnswers
  import opened EchoChat
  import opened ScriptEval

  /**
   * What an evaluation runs with: the loop, the bench, both scripts, and how prompts are written and turns
   * finished.
   */
  datatype Eval = Eval(
    cfg: Config,
    bench: Bench,
    script: Script,
    criticScript: Script,
    planPrompt: string -> string,
    finish: Turn -> Finishing)

  datatype Case = Case(exampleId: string, success: real, steps: int, fallbackUsed: bool, refused: bool,
                       trajectoryOk: bool)

  /** src/rag/eval/agent_runner.py:132-141 */
  predicate TrajectoryOk(ex: Example, a: AgentAnswer) {
    !(a.toolCalls < ex.retrievalRounds) && !(ex.expectSelfCorrection && a.selfCorrections < 1)
  }

  function CaseOf(ex: Example, a: AgentAnswer): Case {
    Case(ex.id, TaskSuccess(a, true), a.stepsTaken, a.fallbackUsed, a.refused, TrajectoryOk(ex, a))
  }

  // ---- The turns ----

  function EnvOf(e: Eval, p: int, q: int): Env {
    Scripted(e.bench, e.script, e.criticScript, p, q)
  }

  /** How the turn for one example ends, from the cursors it finds. */
  function TurnFor(e: Eval, ex: Example, p: int, q: int): (end: Next)
    ensures end.Done?
  {
    ScriptedDone(e.cfg, e.bench, e.script, e.criticScript, p, q, Opening(e.planPrompt(ex.question)));
    Loop(e.cfg, EnvOf(e, p, q), Opening(e.planPrompt(ex.question)))
  }

  function AnswerFor(e: Eval, end: Next): AgentAnswer
    requires end.Done?
  {
    Finalize(e.cfg, end.turn, end.stop, e.finish(end.turn))
  }

  /**
   * The gate as the trace shows it: an example passes exactly when its turn used as many tools as it says a correct
   * turn takes rounds of retrieval, and corrected itself if it says that one does.
   */
  lemma GateExactly(e: Eval, ex: Example, p: int, q: int)
    ensures var a := AnswerFor(e, TurnFor(e, ex, p, q));
            CaseOf(ex, a).trajectoryOk <==>
            |a.toolsUsed| >= ex.retrievalRounds && (ex.expectSelfCorrection ==> a.selfCorrections >= 1)
  {
    var prompt := e.planPrompt(ex.question);
    var end := TurnFor(e, ex, p, q);
    BudgetKept(e.cfg, EnvOf(e, p, q), prompt);
    RowBooksAdd(end.turn.rows);
    ReportsTools(e, end);
  }

  lemma ReportsTools(e: Eval, end: Next)
    requires end.Done?
    ensures AnswerFor(e, end).toolCalls == end.turn.spend.toolCalls
    ensures AnswerFor(e, end).toolsUsed == ToolsUsed(end.turn.rows)
  {
  }

  datatype Progress = Progress(answers: seq<AgentAnswer>, p: int, q: int)

  /** One more example: its answer, and both cursors moved by what its turn spent. */
  function Onward(e: Eval, ex: Example, before: Progress): Progress {
    var end := TurnFor(e, ex, before.p, before.q);
    Progress(before.answers + [AnswerFor(e, end)],
             Advanced(e.script, before.p, end.turn.spend.steps),
             Advanced(e.criticScript, before.q, end.turn.spend.critiqueRounds))
  }

  /** The answers for all examples, and where they leave both cursors. */
  function Evaluated(e: Eval, exs: seq<Example>): (r: Progress)
    ensures |r.answers| == |exs|
  {
    if exs == [] then Progress([], 0, 0)
    else Onward(e, exs[|exs| - 1], Evaluated(e, exs[..|exs| - 1]))
  }

  function CasesOf(exs: seq<Example>, answers: seq<AgentAnswer>): (cases: seq<Case>)
    requires |answers| == |exs|
    ensures |cases| == |exs|
  {
    seq(|exs|, i requires 0 <= i < |exs| => CaseOf(exs[i], answers[i]))
  }

  /** src/rag/eval/agent_runner.py:99-129 */
  method Run(e: Eval, planner: EchoChatLLM, critic: EchoChatLLM, exs: seq<Example>) returns (cases: seq<Case>)
    requires planner != critic && planner.cursor == 0 && critic.cursor == 0
    requires planner.script == e.script && critic.script == e.criticScript
    requires planner.meter == e.bench.meter && critic.meter == e.bench.meter
    modifies planner, critic
    ensures var r := Evaluated(e, exs);
            cases == CasesOf(exs, r.answers) && planner.cursor == r.p && critic.cursor == r.q
  {
    cases := [];
    for i := 0 to |exs|
      invariant planner.cursor <= |planner.script| && critic.cursor <= |critic.script|
      invariant var r := Evaluated(e, exs[..i]);
                cases == CasesOf(exs[..i], r.answers) && planner.cursor == r.p && critic.cursor == r.q
    {
      EvaluatedSnoc(e, exs, i);
      ghost var before := Evaluated(e, exs[..i]);
      var end := Play(e.cfg, e.bench, planner, critic, Opening(e.planPrompt(exs[i].question)));
      var answer := Finalize(e.cfg, end.turn, end.stop, e.finish(end.turn));
      CasesSnoc(exs, before.answers, i, answer);
      cases := cases + [CaseOf(exs[i], answer)];
    }
    assert exs[..|exs|] == exs;
  }

  lemma EvaluatedSnoc(e: Eval, exs: seq<Example>, i: nat)
    requires i < |exs|
    ensures Evaluated(e, exs[..i + 1]) == Onward(e, exs[i], Evaluated(e, exs[..i]))
  {
    assert exs[..i + 1][..i] == exs[..i];
  }

  lemma CasesSnoc(exs: seq<Example>, answers: seq<AgentAnswer>, i: nat, a: AgentAnswer)
    requires i < |exs| && |answers| == i
    ensures CasesOf(exs[..i + 1], answers + [a]) == CasesOf(exs[..i], answers) + [CaseOf(exs[i], a)]
  {
  }

  // ---- The rate ----

  function CountOk(cases: seq<Case>): nat {
    if cases == [] then 0 else CountOk(cases[..|cases| - 1]) + if cases[|cases| - 1].trajectoryOk then 1 else 0
  }

  /** `sum(1 for c in cases if c.trajectory_ok) / (len(cases) or 1)`, src/rag/eval/agent_runner.py:61-76 */
  function TrajectoryRate(cases: seq<Case>): real {
    CountOk(cases) as real / (if |cases| == 0 then 1 else |cases|) as real
  }

  lemma {:induction false} AllOk(cases: seq<Case>)
    ensures CountOk(cases) <= |cases|
    ensures CountOk(cases) == |cases| <==> forall c <- cases :: c.trajectoryOk
  {
    if cases != [] {
      var init, last := cases[..|cases| - 1], cases[|cases| - 1];
      AllOk(init);
      assert cases == init + [last];
    }
  }

  /** The gate's trajectory rate is 1 exactly when there are examples and each took its expected shape. */
  lemma RateIsOneExactly(cases: seq<Case>)
    ensures TrajectoryRate(cases) == 1.0 <==> cases != [] && forall c <- cases :: c.trajectoryOk
  {
    AllOk(cases);
    if cases != [] {
      var n, k := |cases| as real, CountOk(cases) as real;
      assert k / n == 1.0 <==> k == n;
    }
  }

  ghost function OkAt(cases: seq<Case>): set<int> {
    set i | 0 <= i < |cases| && cases[i].trajectoryOk
  }

  lemma {:induction false} CountIsSize(cases: seq<Case>)
    ensures CountOk(cases) == |OkAt(cases)|
  {
    if cases != [] {
      var init, n := cases[..|cases| - 1], |cases| - 1;
      CountIsSize(init);
      assert OkAt(cases) == OkAt(init) + if cases[n].trajectoryOk then {n} else {};
    }
  }

  /** The rate is the share of examples that took their expected shape. */
  lemma RateIsShare(cases: seq<Case>)
    requires cases != []
    ensures TrajectoryRate(cases) == |OkAt(cases)| as real / |cases| as real
  {
    CountIsSize(cases);
  }

  // ---- Boundaries ----

  lemma {:induction false} ScriptsExtend(exs: seq<Example>, chunkId: string, decimal: Decimal, i: nat)
    requires i <= |exs|
    ensures PlannerScript(exs[..i], chunkId, decimal) <= PlannerScript(exs, chunkId, decimal)
    ensures CriticScript(exs[..i]) <= CriticScript(exs)
  {
    if i == |exs| {
      assert exs[..i] == exs;
    } else {
      var init := exs[..|exs| - 1];
      ScriptsExtend(init, chunkId, decimal, i);
      assert init[..i] == exs[..i];
    }
  }

  function PartAt(exs: seq<Example>, chunkId: string, decimal: Decimal, i: nat): Part
    requires i < |exs|
  {
    Part(exs[i], chunkId, decimal, PlannerScript(exs, chunkId, decimal), CriticScript(exs),
         |PlannerScript(exs[..i], chunkId, decimal)|, |CriticScript(exs[..i])|)
  }

  lemma Slice<T>(a: seq<T>, b: seq<T>, whole: seq<T>)
    requires a + b <= whole
    ensures |a| + |b| <= |whole| && whole[|a|..|a| + |b|] == b
  {
    assert (a + b)[|a|..] == b;
  }

  lemma BoundariesAreAt(exs: seq<Example>, chunkId: string, decimal: Decimal, i: nat)
    requires i < |exs|
    ensures AtBoundary(PartAt(exs, chunkId, decimal, i))
    ensures |PlannerScript(exs[..i + 1], chunkId, decimal)| == PartAt(exs, chunkId, decimal, i).p + PlannerTurns(exs[i])
    ensures |CriticScript(exs[..i + 1])| == PartAt(exs, chunkId, decimal, i).q + 1 + Corrections(exs[i])
  {
    assert exs[..i + 1][..i] == exs[..i];
    ScriptsExtend(exs, chunkId, decimal, i + 1);
    Slice(PlannerScript(exs[..i], chunkId, decimal), Trajectory(exs[i], chunkId, decimal),
          PlannerScript(exs, chunkId, decimal));
    Slice(CriticScript(exs[..i]), Critiques(exs[i]), CriticScript(exs));
  }

  // ---- The alignment of the gate ----

  /** The scripts are those written for the examples; the caps leave room, and tokens, cost and time never bind. */
  ghost predicate FairEval(e: Eval, exs: seq<Example>, chunkId: string, decimal: Decimal) {
    && e.script == PlannerScript(exs, chunkId, decimal) && e.criticScript == CriticScript(exs) && Readable(e.bench)
    && (forall ex <- exs :: Roomy(e.cfg.budget, ex))
    && forall i: nat :: i < |exs| ==> FairAt(e, PartAt(exs, chunkId, decimal, i))
  }

  ghost predicate FairAt(e: Eval, pt: Part) {
    Unbound(e.cfg, EnvOf(e, pt.p, pt.q), Opening(e.planPrompt(pt.ex.question)))
  }

  /** The answer reports the shape the example asks for, whatever citations or pipeline made of it. */
  predicate InShape(ex: Example, a: AgentAnswer) {
    a.stepsTaken == PlannerTurns(ex) && a.toolCalls == ex.retrievalRounds + Corrections(ex)
    && a.selfCorrections == Corrections(ex)
  }

  lemma OneExampleAligned(e: Eval, pt: Part)
    requires AtBoundary(pt) && pt.script == e.script && pt.criticScript == e.criticScript
    requires Readable(e.bench) && Roomy(e.cfg.budget, pt.ex) && FairAt(e, pt)
    ensures PlayedOut(pt.ex, TurnFor(e, pt.ex, pt.p, pt.q).turn)
  {
    PlaysItsPart(e.cfg, e.bench, pt, Opening(e.planPrompt(pt.ex.question)), 0);
  }

  lemma AnswerInShape(e: Eval, ex: Example, end: Next)
    requires end.Done? && PlayedOut(ex, end.turn)
    ensures InShape(ex, AnswerFor(e, end))
  {
  }

  lemma OnwardAligned(e: Eval, pt: Part, before: Progress)
    requires AtBoundary(pt) && pt.script == e.script && pt.criticScript == e.criticScript
    requires before.p == pt.p && before.q == pt.q && PlayedOut(pt.ex, TurnFor(e, pt.ex, pt.p, pt.q).turn)
    ensures var r := Onward(e, pt.ex, before);
            && r.p == pt.p + PlannerTurns(pt.ex) && r.q == pt.q + 1 + Corrections(pt.ex)
            && |r.answers| == |before.answers| + 1 && r.answers[..|before.answers|] == before.answers
            && InShape(pt.ex, r.answers[|before.answers|])
  {
    AnswerInShape(e, pt.ex, TurnFor(e, pt.ex, pt.p, pt.q));
  }

  ghost predicate AllInShape(exs: seq<Example>, answers: seq<AgentAnswer>, n: nat)
    requires n <= |exs| && n <= |answers|
  {
    forall i :: 0 <= i < n ==> InShape(exs[i], answers[i])
  }

  /** After each example both cursors stand exactly at its script boundary, and every answer so far is in shape. */
  lemma {:induction false} PrefixAligned(e: Eval, exs: seq<Example>, chunkId: string, decimal: Decimal, n: nat)
    requires n <= |exs| && FairEval(e, exs, chunkId, decimal)
    ensures var r := Evaluated(e, exs[..n]);
            && r.p == |PlannerScript(exs[..n], chunkId, decimal)| && r.q == |CriticScript(exs[..n])|
            && AllInShape(exs, r.answers, n)
  {
    if n > 0 {
      PrefixAligned(e, exs, chunkId, decimal, n - 1);
      OneMoreAligned(e, exs, chunkId, decimal, n - 1);
    }
  }

  lemma FairPart(e: Eval, exs: seq<Example>, chunkId: string, decimal: Decimal, n: nat)
    requires n < |exs| && FairEval(e, exs, chunkId, decimal)
    ensures var pt := PartAt(exs, chunkId, decimal, n);
            && AtBoundary(pt) && pt.script == e.script && pt.criticScript == e.criticScript
            && PlayedOut(pt.ex, TurnFor(e, pt.ex, pt.p, pt.q).turn)
  {
    var pt := PartAt(exs, chunkId, decimal, n);
    BoundariesAreAt(exs, chunkId, decimal, n);
    assert exs[n] in exs && FairAt(e, pt);
    OneExampleAligned(e, pt);
  }

  lemma ShapesGrow(exs: seq<Example>, before: seq<AgentAnswer>, after: seq<AgentAnswer>)
    requires |after| == |before| + 1 <= |exs| && after[..|before|] == before
    requires AllInShape(exs, before, |before|) && InShape(exs[|before|], after[|before|])
    ensures AllInShape(exs, after, |after|)
  {
    forall i | 0 <= i < |after|
      ensures InShape(exs[i], after[i])
    {
      if i < |before| {
        assert after[i] == after[..|before|][i];
      }
    }
  }

  lemma OneMoreAligned(e: Eval, exs: seq<Example>, chunkId: string, decimal: Decimal, n: nat)
    requires n < |exs| && FairEval(e, exs, chunkId, decimal)
    requires var r := Evaluated(e, exs[..n]);
             && r.p == |PlannerScript(exs[..n], chunkId, decimal)| && r.q == |CriticScript(exs[..n])|
             && AllInShape(exs, r.answers, n)
    ensures var r := Evaluated(e, exs[..n + 1]);
            && r.p == |PlannerScript(exs[..n + 1], chunkId, decimal)| && r.q == |CriticScript(exs[..n + 1])|
            && AllInShape(exs, r.answers, n + 1)
  {
    var pt := PartAt(exs, chunkId, decimal, n);
    var before := Evaluated(e, exs[..n]);
    FairPart(e, exs, chunkId, decimal, n);
    BoundariesAreAt(exs, chunkId, decimal, n);
    OnwardAligned(e, pt, before);
    EvaluatedSnoc(e, exs, n);
    ShapesGrow(exs, before.answers, Onward(e, pt.ex, before).answers);
  }

  /** For a dataset of any length: the scripts are used up exactly, every trajectory is right, and the rate is 1. */
  lemma ScriptAlignment(e: Eval, exs: seq<Example>, chunkId: string, decimal: Decimal)
    requires FairEval(e, exs, chunkId, decimal)
    ensures var r := Evaluated(e, exs);
            && r.p == |e.script| && r.q == |e.criticScript|
            && AllInShape(exs, r.answers, |exs|)
            && (forall c <- CasesOf(exs, r.answers) :: c.trajectoryOk)
            && (TrajectoryRate(CasesOf(exs, r.answers)) == 1.0 <==> exs != [])
  {
    PrefixAligned(e, exs, chunkId, decimal, |exs|);
    assert exs[..|exs|] == exs;
    RateIsOneExactly(CasesOf(exs, Evaluated(e, exs).answers));
  }
}
