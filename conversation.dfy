/**
 * The conversation state of agent_basic_v1.py: the `messages` list of the
 * graph's `State` and the `add_messages` reducer that merges node updates
 * into it.
 */
module Conversation {
  import opened Wrappers

  /** The kind of LangChain message: a user turn, a model turn or a tool result. */
  datatype Role = Human | Ai | ToolResult

  /** One tool-call request carried by a model message. */
  datatype ToolCall = ToolCall(name: string, args: map<string, string>, id: string)

  /**
   * A message. `toolCalls` is `None` when the message object has no
   * `tool_calls` attribute at all, and `Some(calls)` when it has one.
   */
  datatype Msg = Msg(role: Role, content: string, toolCalls: Option<seq<ToolCall>>)

  /**
   * The `add_messages` reducer as the `State` declaration describes it: the
   * update is appended to the history, nothing already there is overwritten.
   */
  function AddMessages(history: seq<Msg>, update: seq<Msg>): (merged: seq<Msg>)
    ensures |merged| == |history| + |update|
    ensures merged[..|history|] == history
    ensures merged[|history|..] == update
  {
    history + update
  }

  /** The history after the graph has merged the node updates `updates`, in order. */
  function ApplyUpdates(history: seq<Msg>, updates: seq<seq<Msg>>): seq<Msg>
    decreases |updates|
  {
    if updates == [] then history
    else ApplyUpdates(AddMessages(history, updates[0]), updates[1..])
  }

  /** All messages of `updates`, one update after the other. */
  function Concat(updates: seq<seq<Msg>>): seq<Msg>
    decreases |updates|
  {
    if updates == [] then [] else updates[0] + Concat(updates[1..])
  }

  /**
   * Merging any number of updates only ever appends: the result is the old
   * history followed by every update's messages, in the order they came.
   */
  lemma {:induction false} ApplyUpdatesAppends(history: seq<Msg>, updates: seq<seq<Msg>>)
    ensures ApplyUpdates(history, updates) == history + Concat(updates)
    decreases |updates|
  {
    if updates != [] {
      ApplyUpdatesAppends(history + updates[0], updates[1..]);
      assert history + updates[0] + Concat(updates[1..]) == history + (updates[0] + Concat(updates[1..]));
    }
  }

  /** The history is a prefix of every later state: earlier messages never change. */
  lemma HistoryIsPrefix(history: seq<Msg>, updates: seq<seq<Msg>>)
    ensures |ApplyUpdates(history, updates)| >= |history|
    ensures ApplyUpdates(history, updates)[..|history|] == history
  {
    ApplyUpdatesAppends(history, updates);
  }
}
