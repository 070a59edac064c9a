/** What the planner is told between two rounds of the agent loop, src/rag/agent/runtime.py:129-239. */
module AgentDialogue {
  import opened Schemas
  import opened Collections
  import opened Budgets
  import opened AgentLoop
  import opened AgentInvariants
  import Text
  import TR = ToolRegistry

  // ---- What a correction says ----

  /** The item stands somewhere in the text. */
  ghost predicate Says(text: string, item: string) {
    exists i: nat :: Text.OccursAt(text, item, i)
  }

  lemma SaysWithin(before: string, text: string, after: string, item: string)
    requires Says(text, item)
    ensures Says(before + text + after, item)
  {
    var i: nat :| Text.OccursAt(text, item, i);
    OccursLater(before, text, after, item, i);
  }

  lemma OccursLater(before: string, text: string, after: string, item: string, i: nat)
    requires Text.OccursAt(text, item, i)
    ensures Text.OccursAt(before + text + after, item, |before| + i)
  {
    var all := before + text + after;
    forall k | 0 <= k < |item| ensures all[|before| + i..|before| + i + |item|][k] == item[k] {
      assert text[i..i + |item|][k] == text[i + k] == all[|before| + i + k];
    }
  }

  lemma SaysItself(item: string)
    ensures Says(item, item)
  {
    assert item[0..|item|] == item;
    assert Text.OccursAt(item, item, 0);
  }

  lemma {:induction false} JoinTailSays(sep: string, items: seq<string>, k: nat)
    requires k < |items|
    ensures Says(Text.JoinTail(sep, items), items[k])
  {
    var rest := Text.JoinTail(sep, items[1..]);
    if k == 0 {
      SaysItself(items[0]);
      SaysWithin(sep, items[0], rest, items[0]);
    } else {
      JoinTailSays(sep, items[1..], k - 1);
      SaysWithin(sep + items[0], rest, "", items[k]);
      assert sep + items[0] + rest + "" == sep + items[0] + rest;
    }
  }

  lemma ListedSays(items: seq<string>, k: nat)
    requires k < |items|
    ensures Says(Listed(items), items[k])
  {
    var rest := Text.JoinTail("; ", items[1..]);
    if k == 0 {
      SaysItself(items[0]);
      SaysWithin("", items[0], rest, items[0]);
      assert "" + items[0] + rest == items[0] + rest;
    } else {
      JoinTailSays("; ", items[1..], k - 1);
      SaysWithin(items[0], rest, "", items[k]);
      assert items[0] + rest + "" == items[0] + rest;
    }
  }

  /** All that the critic misses, or else all its reasons. */
  function Complaints(v: Verdict): seq<string> {
    if v.missing != [] then v.missing else v.reasons
  }

  /** A correction names each of the critic's complaints. */
  lemma CorrectionSays(v: Verdict, k: nat)
    requires k < |Complaints(v)|
    ensures Says(Correction(v), Complaints(v)[k])
  {
    var head, tail := "Critique found the draft insufficient. Missing: ", ". Call a tool or revise with citations.";
    ListedSays(Complaints(v), k);
    SaysWithin(head, Listed(Complaints(v)), tail, Complaints(v)[k]);
  }

  // ---- What a round adds to the history ----

  /** The reply tells what the tool gave to the call, or that it failed and why. */
  predicate RepliesTo(m: Message, call: TR.ToolCall, raw: TR.ToolResult) {
    && m.ToolReply? && m.callId == call.id && m.name == call.name
    && m.content == if raw.ok then raw.content else "ERROR: " + raw.error.GetOr("None")
  }

  /** The calls that were made are the first of those asked for, as many as the budget had left. */
  ghost predicate ToldResults(h: Turn, left: nat, c: Completion, tools: Tooling, news: seq<Message>) {
    && tools.Results? && news != [] && news[0] == Assistant(c.text, c.calls)
    && |news| - 1 == (if |c.calls| <= left then |c.calls| else left)
    && forall i :: 0 <= i < |news| - 1 ==> RepliesTo(news[i + 1], c.calls[i], tools.raw(i))
  }

  /** A draft that was judged and not approved: the planner sees it again, and every complaint. */
  ghost predicate ToldComplaints(c: Completion, judging: Judging, news: seq<Message>) {
    && judging.Judged? && |news| == 2 && news[0] == Assistant(c.text, c.calls) && news[1].User?
    && forall k :: 0 <= k < |Complaints(judging.verdict)| ==> Says(news[1].content, Complaints(judging.verdict)[k])
  }

  /** What the next prompt adds to this one: the completion itself, and what came of it. */
  ghost predicate Told(cfg: Config, h: Turn, r: Round, next: Turn) {
    && r.planning.Completed? && h.messages <= next.messages
    && var c, news := r.planning.completion, next.messages[|h.messages|..];
       if c.calls != [] then ToldResults(h, h.spend.RemainingToolCalls(cfg.budget), c, r.planning.tools, news)
       else if Text.Strip(c.text) == "" then news == [Assistant(c.text, c.calls), User(NUDGE)]
       else ToldComplaints(c, r.planning.judging, news)
  }

  lemma Appended<T>(a: seq<T>, b: seq<T>, all: seq<T>)
    requires all == a + b
    ensures a <= all && all[|a|..] == b
  {
  }

  lemma ActTells(cfg: Config, h: Turn, s: Turn, c: Completion, tools: Tooling)
    requires c.calls != [] && s.messages == h.messages && s.spend.toolCalls == h.spend.toolCalls
    requires ActStep(cfg, s, c, tools).Continue?
    ensures var next := ActStep(cfg, s, c, tools).turn;
            && h.messages <= next.messages
            && ToldResults(h, h.spend.RemainingToolCalls(cfg.budget), c, tools, next.messages[|h.messages|..])
  {
    var calls := PyTake(c.calls, s.spend.RemainingToolCalls(cfg.budget));
    var replies := Replies(ResultsOf(calls, tools.raw));
    var next := ActStep(cfg, s, c, tools).turn;
    AppendAssoc(h.messages, [c.Message()], replies);
    Appended(h.messages, [c.Message()] + replies, next.messages);
    forall i | 0 <= i < |calls| ensures RepliesTo(([c.Message()] + replies)[i + 1], c.calls[i], tools.raw(i)) {
      assert replies[i] == Reply(TR.Bound(tools.raw(i), calls[i]));
    }
  }

  lemma PlanTells(cfg: Config, h: Turn, s: Turn, c: Completion, judging: Judging)
    requires c.calls == [] && s.messages == h.messages && PlanStep(cfg, s, c, judging).Continue?
    ensures var next := PlanStep(cfg, s, c, judging).turn;
            && h.messages <= next.messages
            && var news := next.messages[|h.messages|..];
               if Text.Strip(c.text) == "" then news == [Assistant(c.text, c.calls), User(NUDGE)]
               else ToldComplaints(c, judging, news)
  {
    var next := PlanStep(cfg, s, c, judging).turn;
    if Text.Strip(c.text) == "" {
      Appended(h.messages, [c.Message(), User(NUDGE)], next.messages);
    } else {
      var v := judging.verdict;
      Appended(h.messages, [c.Message(), User(Correction(v))], next.messages);
      forall k | 0 <= k < |Complaints(v)| ensures Says(Correction(v), Complaints(v)[k]) {
        CorrectionSays(v, k);
      }
    }
  }

  lemma IterateTells(cfg: Config, h: Turn, r: Round)
    requires Iterate(cfg, h, r).Continue?
    ensures Told(cfg, h, r, Iterate(cfg, h, r).turn)
  {
    var c := r.planning.completion;
    var s := UsageCharged(StepCharged(h), c.usage);
    if c.calls != [] {
      ActTells(cfg, h, s, c, r.planning.tools);
    } else {
      PlanTells(cfg, h, s, c, r.planning.judging);
    }
  }

  ghost predicate ToldThroughout(cfg: Config, env: Env, heads: seq<Turn>) {
    forall i :: 0 <= i && i + 1 < |heads| ==> Told(cfg, heads[i], env(heads[i]), heads[i + 1])
  }

  lemma OneMoreTold(cfg: Config, env: Env, s: Turn, later: seq<Turn>, heads: seq<Turn>)
    requires ToldThroughout(cfg, env, later) && later != [] && Told(cfg, s, env(s), later[0]) && heads == [s] + later
    ensures ToldThroughout(cfg, env, heads)
  {
    forall i | 0 <= i && i + 1 < |heads| ensures Told(cfg, heads[i], env(heads[i]), heads[i + 1]) {
      assert heads[i + 1] == later[i];
      assert i > 0 ==> heads[i] == later[i - 1];
    }
  }

  /**
   * Over every run, each prompt to the planner is the one before it, the planner's own answer to that, and what came
   * of it: every tool's content or failure under its call, or the request for a draft, or the critic's complaints.
   */
  lemma {:induction false} EachRoundIsTold(cfg: Config, env: Env, s: Turn)
    ensures ToldThroughout(cfg, env, Heads(cfg, env, s))
    decreases cfg.budget.maxSteps - s.spend.steps
  {
    var n := Iterate(cfg, s, env(s));
    if n.Continue? {
      IterateTells(cfg, s, env(s));
      EachRoundIsTold(cfg, env, n.turn);
      HeadsStart(cfg, env, n.turn);
      OneMoreTold(cfg, env, s, Heads(cfg, env, n.turn), Heads(cfg, env, s));
    }
  }

  lemma HeadsStart(cfg: Config, env: Env, s: Turn)
    ensures Heads(cfg, env, s) != [] && Heads(cfg, env, s)[0] == s
  {
  }
}
