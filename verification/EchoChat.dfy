/**
 * src/rag/llm/echo_chat.py: a planner or critic that walks a script. What a turn is metered at is an arbitrary
 * function.
 */
module EchoChat {
  import opened AgentLoop
  import opened Budgets
  import TR = ToolRegistry

  datatype ScriptedTurn = ScriptedTurn(content: string, calls: seq<TR.ToolCall>)

  type Script = seq<ScriptedTurn>

  type Meter = (seq<Message>, ScriptedTurn) -> Usage

  /** The turn at a cursor; past the end, an empty one. */
  function TurnAt(script: Script, cursor: int): ScriptedTurn {
    if 0 <= cursor < |script| then script[cursor] else ScriptedTurn("", [])
  }

  function Echoed(meter: Meter, script: Script, cursor: int, messages: seq<Message>): Completion {
    var turn := TurnAt(script, cursor);
    Completion(turn.content, turn.calls, meter(messages, turn))
  }

  /** The cursor after `n` more turns: it stays at the end. */
  function Advanced(script: Script, cursor: int, n: int): int {
    if cursor + n <= |script| then cursor + n else |script|
  }

  class EchoChatLLM {
    const script: Script
    const meter: Meter
    var cursor: nat
    var calls: seq<seq<Message>>

    constructor (script: Script, meter: Meter)
      ensures this.script == script && this.meter == meter && cursor == 0 && calls == []
    {
      this.script, this.meter, cursor, calls := script, meter, 0, [];
    }

    /** src/rag/llm/echo_chat.py:46-79 */
    method Chat(messages: seq<Message>) returns (c: Completion)
      requires cursor <= |script|
      modifies this
      ensures c == Echoed(meter, script, old(cursor), messages)
      ensures cursor == Advanced(script, old(cursor), 1) && cursor <= |script|
      ensures calls == old(calls) + [messages]
    {
      calls := calls + [messages];
      var turn := ScriptedTurn("", []);
      if cursor < |script| {
        turn := script[cursor];
        cursor := cursor + 1;
      }
      c := Completion(turn.content, turn.calls, meter(messages, turn));
    }
  }
}
