# Routing, single-tool-call guard and API-key lookup of a LangGraph chat agent

This project models the hand-written logic of `agent_basic_v1.py`, a LangGraph
chat agent that joins a hosted chat model to a web-search tool and a
human-assistance tool. It covers three pieces, all pure functions here:

- **`route_tools`**: after a model turn, picks the trailing message of the
  state and returns `"tools"` when that message has pending tool calls, or
  `END` otherwise. The state may be a bare list of messages or a mapping with a
  `"messages"` entry. An empty list raises `IndexError`, and a mapping whose
  entry is missing or empty raises `ValueError("No messages found in state")`.
- **`chatbot`**: the model's reply is an input. The node asserts that the reply
  carries at most one tool call and returns `{"messages": [reply]}`. The
  `add_messages` reducer of the `State` type appends that update to the history.
- **`get_required_api_key`**: reads a key from the environment, given here as a
  `map<string, string>`. It fails with `ValueError` when the key is unset or
  empty. The script calls it for `OPENAI_API_KEY`, then for `TAVILY_API_KEY`.

Modules: `Wrappers` (Option, Result), `Conversation` (messages, the reducer),
`Router`, `Chatbot`, `ApiKeys`.

What the code does not have:

- `route_tools` has no dedicated empty-state error: an empty list raises
  `IndexError` from `state[-1]`, and a mapping raises `ValueError`.
- There is no unknown-tool error, no error type for parallel tool calls and no
  suspend/resume logic. `interrupt` is imported but never called. The only
  guard on tool calls is the `assert` in `chatbot`.

## Model

| member | source | states |
|---|---|---|
| `Conversation.AddMessages` | agent_basic_v1.py:19-23 | the merged history is the old history, unchanged, followed by the update's messages |
| `Conversation.ApplyUpdatesAppends` | agent_basic_v1.py:20-23 | merging any sequence of node updates gives the old history followed by all their messages, in order |
| `Conversation.HistoryIsPrefix` | agent_basic_v1.py:20-23 | after any number of updates, the earlier history is still a prefix: nothing is overwritten |
| `Router.RoutedMessage` | agent_basic_v1.py:65-70 | a message is found exactly when the state holds messages, and it is the last one; otherwise one of the two exceptions only: an empty list gives IndexError; a mapping with a missing or empty entry gives ValueError("No messages found in state") |
| `Router.RouteOnMessage` | agent_basic_v1.py:71-74 | the result is "tools" or END only, and "tools" exactly when the message has a `tool_calls` attribute containing some call |
| `Router.RouteTools` | agent_basic_v1.py:60-74 | exactly four outcomes: "tools" iff the state's last message has pending tool calls, END iff it has none (attribute absent or empty), IndexError iff the state is the empty list, ValueError iff it is a mapping with no messages |
| `Router.RouteListOnLast` | agent_basic_v1.py:65-66 | a non-empty list routes on its last element |
| `Router.RouteMapOnLast` | agent_basic_v1.py:67-68 | a mapping with a non-empty "messages" entry routes on that entry's last element |
| `Router.RouteDependsOnlyOnLast` | agent_basic_v1.py:65-74 | any two non-empty states, of either shape, with the same trailing message route the same way, and never to an error |
| `Router.RouteWithoutCallsEnds` | agent_basic_v1.py:71-74 | any state, of either shape, whose last message has no `tool_calls` attribute or an empty one routes to END |
| `Chatbot.ChatbotNode` | agent_basic_v1.py:79-85 | the reply is accepted iff it has at most one tool call, and the update is exactly `[reply]`; two or more calls fail the assertion; a reply without `tool_calls` raises AttributeError |
| `Chatbot.ChatbotStep` | agent_basic_v1.py:79-85 | on success the new history is one longer, keeps every earlier message and ends with the reply; on failure the node's error is returned and no history is produced |
| `Chatbot.RouteAfterChatbot` | agent_basic_v1.py:81-85 | after a successful chatbot step, routing the new state never fails, routes on the reply, and goes to the tools only when the reply has exactly one call |
| `Chatbot.ParallelToolCallsRejected` | agent_basic_v1.py:81-84 | a reply with two distinct tool calls is rejected with the assertion error, whatever the history |
| `ApiKeys.MissingKeyMessageNamesKey` | agent_basic_v1.py:31 | the error message names exactly the key that was looked up (reading the key back from the message gives it) |
| `ApiKeys.MissingKeyMessageInjective` | agent_basic_v1.py:31 | different keys give different error messages |
| `ApiKeys.GetRequiredApiKey` | agent_basic_v1.py:27-32 | succeeds iff the key is in the environment with a non-empty value, and returns that value; otherwise a ValueError whose message names the key |
| `ApiKeys.RequiredKeys` | agent_basic_v1.py:35-36 | both keys are returned iff both are set and non-empty; when the OpenAI key is missing, that is the key reported, otherwise the Tavily key is |

## Left out

- Chatbot.ChatbotNode: assumes Python assertions are enabled. Under `python -O` the `assert` at line 84 is removed, so the node would accept a reply with two or more tool calls and would raise no `AttributeError` for a reply without `tool_calls`.
- The chat-model call (`llm_with_tools.invoke`, line 80): an external network service. Its reply is a parameter of `Chatbot.ChatbotNode`.
- `chatbot`'s read of `state["messages"]` (line 80): it only feeds the model call, so it is not modelled.
- A `tool_calls` attribute that is present but `None` would make `len` raise `TypeError`. The model only has "absent" and "a list of calls".
- `add_messages` as the library implements it also replaces an existing message that has the same id. That code is not part of this model. The model follows the comment on `State`, which says the reducer appends.
- `route_tools` is not wired into the graph: the graph uses the library's `tools_condition` (line 96). The library's condition is not part of this model.
- LLM set-up, `bind_tools`, `TavilySearch`, `ToolNode` and the `human_assistance` tool (lines 43-58, 89-90): foreign library calls and network clients.
- Graph construction, compilation and `InMemorySaver` checkpointing (lines 77-106): library plumbing.
- Graph PNG/Mermaid rendering and file writing (lines 109-132): I/O.
- Console streaming, `get_state` and the resume with `Command(resume=...)` (lines 135-184): I/O driven by library internals. `interrupt` is imported but never called, so there is no suspend/resume logic to model.
- `load_dotenv` and the writes to `os.environ` (lines 25, 39-40): global process I/O.
- agent_basic.py: configuration of a prebuilt agent, a one-line weather stub and a schema with float fields. None of it is own decision logic.
