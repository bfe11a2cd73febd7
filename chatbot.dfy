/**
 * The `chatbot` node of agent_basic_v1.py. The chat-model call is abstracted
 * to the message it returns; the node checks that the message asks for at
 * most one tool call and returns an update holding just that message, which
 * the `add_messages` reducer appends to the history.
 */
module Chatbot {
  import opened Wrappers
  import opened Conversation
  import opened Router

  /**
   * What the node can raise: the failed `assert` on the number of tool calls,
   * or the `AttributeError` of reading `tool_calls` on a message without it.
   */
  datatype ChatbotError = AssertionError | AttributeError

  /** The node's return value, `{"messages": [...]}`. */
  datatype Update = Update(messages: seq<Msg>)

  /** The node itself, given the model's reply. */
  function ChatbotNode(reply: Msg): (r: Result<Update, ChatbotError>)
    ensures r.Ok? <==> reply.toolCalls.Some? && |reply.toolCalls.value| <= 1
    ensures r.Ok? ==> r.value.messages == [reply]
    ensures r == Err(AssertionError) <==> reply.toolCalls.Some? && |reply.toolCalls.value| >= 2
    ensures r == Err(AttributeError) <==> reply.toolCalls == None
  {
    match reply.toolCalls
    case None => Err(AttributeError)
    case Some(calls) =>
      if |calls| <= 1 then Ok(Update([reply])) else Err(AssertionError)
  }

  /**
   * One chatbot step as the graph runs it: the node's update merged into the
   * history. On failure no update is produced and the history is not touched.
   */
  function ChatbotStep(history: seq<Msg>, reply: Msg): (r: Result<seq<Msg>, ChatbotError>)
    ensures r.Ok? <==> reply.toolCalls.Some? && |reply.toolCalls.value| <= 1
    ensures r.Ok? ==> |r.value| == |history| + 1
    ensures r.Ok? ==> r.value[..|history|] == history
    ensures r.Ok? ==> r.value[|history|] == reply
    ensures r.Err? ==> r.error == ChatbotNode(reply).error
  {
    match ChatbotNode(reply)
    case Err(e) => Err(e)
    case Ok(update) => Ok(AddMessages(history, update.messages))
  }

  /**
   * After a successful chatbot step, routing the new state with `route_tools`
   * never fails, routes on the reply, and goes to the tools only when the
   * reply has exactly one call.
   */
  lemma RouteAfterChatbot(history: seq<Msg>, reply: Msg)
    requires ChatbotStep(history, reply).Ok?
    ensures RouteTools(MapState(Some(ChatbotStep(history, reply).value))) == RouteOnMessage(reply)
    ensures RouteTools(MapState(Some(ChatbotStep(history, reply).value))) == Tools
      <==> |reply.toolCalls.value| == 1
  {
  }

  /** A reply asking for two or more tool calls at once is always rejected, whatever the history. */
  lemma ParallelToolCallsRejected(history: seq<Msg>, reply: Msg, first: ToolCall, second: ToolCall)
    requires reply.toolCalls.Some?
    requires first in reply.toolCalls.value && second in reply.toolCalls.value && first != second
    ensures ChatbotStep(history, reply) == Err(AssertionError)
  {
  }
}
