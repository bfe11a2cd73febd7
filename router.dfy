/**
 * `route_tools` of agent_basic_v1.py: after a model turn, decide whether the
 * graph goes on to the tool node ("tools") or stops (END), from the trailing
 * message of the state it is given.
 */
module Router {
  import opened Wrappers
  import opened Conversation

  /**
   * What `route_tools` may be called with: a bare list of messages, or a
   * mapping whose "messages" entry is present (`Some`) or missing (`None`).
   */
  datatype RouteState = ListState(items: seq<Msg>) | MapState(messages: Option<seq<Msg>>)

  /** The two exceptions `route_tools` can raise. */
  datatype RouteError = ValueError(message: string) | IndexError

  /** The two routes, or the exception raised instead of a route. */
  datatype Route = Tools | End | Raised(error: RouteError)

  /** The text of the `ValueError` raised for a mapping without messages. */
  const NoMessagesFound: string := "No messages found in state"

  /** The messages a state holds: the list itself, or the mapping's entry (none when missing). */
  function Messages(state: RouteState): seq<Msg>
  {
    match state
    case ListState(items) => items
    case MapState(None) => []
    case MapState(Some(items)) => items
  }

  /** True when `m` has a `tool_calls` attribute holding at least one call. */
  predicate HasPendingToolCalls(m: Msg)
  {
    m.toolCalls.Some? && exists c :: c in m.toolCalls.value
  }

  /**
   * Which message is routed on, or the exception raised looking for it: a
   * list is indexed with `state[-1]` (IndexError when empty); a mapping whose
   * "messages" entry is missing or empty raises ValueError.
   */
  function RoutedMessage(state: RouteState): (r: Result<Msg, RouteError>)
    ensures r.Ok? <==> Messages(state) != []
    ensures r.Ok? ==> r.value == Messages(state)[|Messages(state)| - 1]
    ensures r == Err(IndexError) <==> state == ListState([])
    ensures r == Err(ValueError(NoMessagesFound)) <==> state.MapState? && Messages(state) == []
  {
    match state
    case ListState(items) =>
      if |items| == 0 then Err(IndexError) else Ok(items[|items| - 1])
    case MapState(entry) =>
      if entry.Some? && |entry.value| > 0 then Ok(entry.value[|entry.value| - 1])
      else Err(ValueError(NoMessagesFound))
  }

  /**
   * The decision on the routed message: "tools" exactly when the message has
   * a `tool_calls` attribute of positive length, END otherwise.
   */
  function RouteOnMessage(m: Msg): (r: Route)
    ensures r == Tools || r == End
    ensures r == Tools <==> HasPendingToolCalls(m)
  {
    if m.toolCalls.Some? && |m.toolCalls.value| > 0 then
      assert m.toolCalls.value[0] in m.toolCalls.value;
      Tools
    else
      End
  }

  /** `route_tools`: find the trailing message, then decide on it. */
  function RouteTools(state: RouteState): (r: Route)
    ensures r in {Tools, End, Raised(IndexError), Raised(ValueError(NoMessagesFound))}
    ensures r == Tools <==>
      Messages(state) != [] && HasPendingToolCalls(Messages(state)[|Messages(state)| - 1])
    ensures r == End <==>
      Messages(state) != [] && !HasPendingToolCalls(Messages(state)[|Messages(state)| - 1])
    ensures r == Raised(IndexError) <==> state == ListState([])
    ensures r == Raised(ValueError(NoMessagesFound)) <==> state.MapState? && Messages(state) == []
  {
    match RoutedMessage(state)
    case Err(e) => Raised(e)
    case Ok(m) => RouteOnMessage(m)
  }

  /** A non-empty list routes on its last element, `state[-1]`. */
  lemma RouteListOnLast(earlier: seq<Msg>, last: Msg)
    ensures RouteTools(ListState(earlier + [last])) == RouteOnMessage(last)
  {
  }

  /** A mapping with a non-empty "messages" entry routes on that entry's last element. */
  lemma RouteMapOnLast(earlier: seq<Msg>, last: Msg)
    ensures RouteTools(MapState(Some(earlier + [last]))) == RouteOnMessage(last)
  {
  }

  /** Only the trailing message matters: any two non-error states ending in the same message route alike. */
  lemma RouteDependsOnlyOnLast(s: RouteState, t: RouteState)
    requires Messages(s) != [] && Messages(t) != []
    requires Messages(s)[|Messages(s)| - 1] == Messages(t)[|Messages(t)| - 1]
    ensures RouteTools(s) == RouteTools(t)
    ensures RouteTools(s) == Tools || RouteTools(s) == End
  {
  }

  /**
   * A state of either shape whose last message has no `tool_calls` attribute,
   * or an empty one, ends the graph.
   */
  lemma RouteWithoutCallsEnds(state: RouteState, m: Msg)
    requires Messages(state) != [] && Messages(state)[|Messages(state)| - 1] == m
    requires m.toolCalls == None || m.toolCalls == Some([])
    ensures RouteOnMessage(m) == End
    ensures RouteTools(state) == End
  {
  }
}
