/**
 * A turn of src/rag/agent/runtime.py:64-268 that goes well: it searches, drafts with a marker, and is approved. What
 * the planner says, and what a search brings, are given.
 */
module AgentScenes {
  import opened Schemas
  import opened Collections
  import opened Citations
  import opened Evidence
  import opened Budgets
  import opened AgentLoop
  import opened AgentInvariants
  import opened AgentAnswers
  import Text
  import TR = ToolRegistry

  /** How chunk ids are derived, how a draft cites an id, where markers are, and the caps, calls and costs of a turn. */
  datatype Wording = Wording(
    hash: IdHash,
    draft: string -> string,
    markers: Markers,
    budget: Budget,
    prompt: string,
    call: TR.ToolCall,
    usage: Usage)

  /** The draft that cites an id is a draft, and one of its markers is the id. */
  predicate Marks(w: Wording, ref: string) {
    Text.Strip(w.draft(ref)) == w.draft(ref) && w.draft(ref) != "" && ref in w.markers(w.draft(ref))
  }

  /** The caps leave room for one search and one critique. */
  predicate Roomy(b: Budget, u: Usage) {
    && b.maxSteps >= 2 && b.maxToolCalls >= 2 && b.maxCritiqueRounds >= 1 && b.maxSeconds > 0.0
    && 0 < b.maxTokens && u.tokens < b.maxTokens && 0.0 < b.maxCost && u.cost < b.maxCost
  }

  ghost predicate Able(w: Wording) {
    Roomy(w.budget, w.usage) && forall d, o, c, v :: Marks(w, w.hash(d, o, c, v))
  }

  const APPROVAL := Verdict(true, true, [], [])

  function Finding(src: Source): TR.ToolResult {
    TR.ToolResult("", "", true, src.quote, [src], None)
  }

  function SearchRound(w: Wording, src: Source): Round {
    Round(0.0, Completed(Completion("", [w.call], w.usage), Results((i: nat) => Finding(src)), CriticCut))
  }

  function DraftRound(w: Wording, src: Source): Round {
    Round(0.0, Completed(Completion(w.draft(src.ref), [], w.usage), ToolsCut, Judged(APPROVAL, w.usage)))
  }

  /** The planner searches, then drafts; the critic approves. */
  function Searching(w: Wording, src: Source): Env {
    (s: Turn) => if s.spend.steps == 0 then SearchRound(w, src) else DraftRound(w, src)
  }

  function ConfigOf(w: Wording, p: Principal): Config {
    Config(w.budget, p)
  }

  /** Nothing is redacted, and the pipeline is down. */
  function FinishingAt(w: Wording, live: string): Finishing {
    Finishing(w.markers, None, PipelineRaised, live)
  }

  /** How the turn ends. */
  function Ending(w: Wording, p: Principal, src: Source): Next {
    Loop(ConfigOf(w, p), Searching(w, src), Opening(w.prompt))
  }

  /** What the turn answers. */
  function Said(w: Wording, p: Principal, src: Source, live: string): Option<AgentAnswer> {
    AnswerOf(ConfigOf(w, p), Ending(w, p, src), FinishingAt(w, live))
  }

  lemma SearchedOn(w: Wording, p: Principal, src: Source, s: Turn)
    requires Roomy(w.budget, w.usage) && s.spend == NOTHING_SPENT && s.usage == NO_USAGE && s.rows == []
    ensures var n := Iterate(ConfigOf(w, p), s, SearchRound(w, src));
            && n.Continue? && n.turn.spend == Spend(1, 1, 0, NO_USAGE.Plus(w.usage))
            && |n.turn.rows| == 1 && n.turn.rows[0].results == [TR.Bound(Finding(src), w.call)]
  {
    var calls := [w.call];
    assert PyTake(calls, w.budget.maxToolCalls) == calls;
    assert ResultsOf(calls, (i: nat) => Finding(src)) == [TR.Bound(Finding(src), w.call)];
  }

  lemma DraftedOut(w: Wording, p: Principal, src: Source, s: Turn)
    requires Roomy(w.budget, w.usage) && Marks(w, src.ref) && s.spend == Spend(1, 1, 0, NO_USAGE.Plus(w.usage))
    ensures var n := Iterate(ConfigOf(w, p), s, DraftRound(w, src));
            && n.Done? && n.stop == CriticGrounded && n.turn.draft == Some(w.draft(src.ref))
            && n.turn.ledger == s.ledger && |n.turn.rows| == |s.rows| + 2 && n.turn.rows[..|s.rows|] == s.rows
            && n.turn.rows[|s.rows|].results == [] && n.turn.rows[|s.rows| + 1].results == []
  {
  }

  /** The turn ends approved, with the draft, and its tools brought the one source. */
  lemma EndsApproved(w: Wording, p: Principal, src: Source)
    requires Roomy(w.budget, w.usage) && Marks(w, src.ref)
    ensures var end := Ending(w, p, src);
            && end.Done? && end.stop == CriticGrounded && end.turn.draft == Some(w.draft(src.ref))
            && forall x :: FromTool(end.turn.rows, x) <==> x == src
  {
    var cfg, env, s := ConfigOf(w, p), Searching(w, src), Opening(w.prompt);
    SearchedOn(w, p, src, s);
    LoopStep(cfg, env, s);
    var t := Iterate(cfg, s, env(s)).turn;
    DraftedOut(w, p, src, t);
    LoopStep(cfg, env, t);
    OnlyFinding(Ending(w, p, src).turn.rows, TR.Bound(Finding(src), w.call), src);
  }

  lemma OnlyFinding(rows: seq<Row>, r: TR.ToolResult, src: Source)
    requires |rows| == 3 && rows[0].results == [r] && rows[1].results == [] && rows[2].results == []
    requires r.ok && r.sources == [src]
    ensures forall x :: FromTool(rows, x) <==> x == src
  {
    forall x
      ensures FromTool(rows, x) <==> x == src
    {
      if x == src {
        assert r in rows[0].results && Brought(rows[0].results, x) && rows[0] in rows;
      }
    }
  }

  /**
   * So the turn answers itself, under the version that is live when it does, and whatever it cites is the source that
   * its one search brought.
   */
  lemma SaysSo(w: Wording, p: Principal, src: Source, live: string)
    requires Roomy(w.budget, w.usage) && Marks(w, src.ref) && MaySee(p, src)
    ensures var r := Said(w, p, src, live);
            && r.Some? && OwnAnswer(r.value) && IsStored(true, r.value) && r.value.indexVersion == live
            && r.value.citations != [] && forall c <- r.value.citations :: c == CitationFromSource(src)
    ensures Ending(w, p, src).Done? && forall x :: FromTool(Ending(w, p, src).turn.rows, x) <==> x == src
  {
    EndsApproved(w, p, src);
    var cfg, end, fin := ConfigOf(w, p), Ending(w, p, src), FinishingAt(w, live);
    RunEnds(cfg, Searching(w, src), w.prompt);
    IsCited(w, p, src, end.turn);
    FinalizeAnswers(cfg, end.turn, fin);
    EndShips(cfg, end, fin);
    forall c | c in Said(w, p, src, live).value.citations
      ensures c == CitationFromSource(src)
    {
      assert Grounds(c, cfg, end.turn, end.turn.draft.value, w.markers);
    }
  }

  lemma FinalizeAnswers(cfg: Config, s: Turn, fin: Finishing)
    requires s.draft.Some? && Text.Strip(s.draft.value) == s.draft.value != ""
             && DraftCitations(cfg, s, fin.markers) != []
    ensures var a := Finalize(cfg, s, CriticGrounded, fin);
            OwnAnswer(a) && IsStored(true, a) && a.indexVersion == fin.live && a.citations != []
  {
  }

  /** The source is in the ledger, the caller may see it, and a marker of the draft is its ref. */
  lemma IsCited(w: Wording, p: Principal, src: Source, s: Turn)
    requires Marks(w, src.ref) && MaySee(p, src) && s.draft == Some(w.draft(src.ref))
    requires FromRows(ConfigOf(w, p), s) && forall x :: FromTool(s.rows, x) <==> x == src
    ensures DraftCitations(ConfigOf(w, p), s, w.markers) != []
  {
    var history := Gathered(s.rows, p);
    RowsBring(s.rows, p, src);
    LedgerHolds(history);
    assert src.ref in s.ledger.at;
    assert HoldsBest(s.ledger, history, src.ref);
    var kept := s.ledger.at[src.ref];
    SourcesExactly(s.ledger);
    assert kept in Sources(s.ledger);
    EvidenceIsClean(ConfigOf(w, p), s);
    MarkedIsCited(w.draft(src.ref), Sources(s.ledger), w.markers, kept);
  }
}
