# Scout agent: display-stream reassembly and prompt assembly

This project models two parts of the Scout data-science agent in Dafny.

The first is the client's **display-stream reassembler** (`stream_graph_response`). The agent graph streams message chunks, and the reassembler turns them into the strings the console prints. It skips every chunk that is not an AI chunk. It prints a `"\n\n"` separator whenever a chunk's `finish_reason` is `"tool_calls"`. For a chunk with tool-call entries it looks only at the first entry and prints either a `< TOOL CALL: name >` banner or the raw argument fragment. Any other AI chunk has its text content printed verbatim. One variable, `tool_call_str`, survives from chunk to chunk. A tool-call entry with neither a name nor arguments prints that variable again. If the variable was never assigned, the generator fails with an unbound-local error.

The second is the **agent graph's prompt and node logic** (`build_agent_graph`). The system prompt template has two fields, `{working_dir}` and `{tools}`. They are filled only when tools are supplied, and only then is the model bound to the tools. The `assistant` node sends the system message followed by the whole history, then appends the one response. The graph has fixed edges START→Scout and tools→Scout, and a conditional edge out of Scout.

Files:

- `wrappers.dfy`: `Option`, standing for Python's `None` or a present value.
- `chunks.dfy`: the chunk data model and the facts about one chunk that the reassembler reads.
- `reassembler.dfy`: the reassembler. `Step` is one loop iteration, `Run` folds `Step` over the stream, `LastAssigned` gives the tool text in force after a prefix of the stream, and `StreamGraphResponse` is the loop with a mutable `tool_call_str`.
- `reassembler_properties.dfy`: whole-stream properties of the reassembler.
- `prompt.dfy`: the prompt template, `str.format`, `"\n".join` with its inverse `split`, and the prompt branch of `build_agent_graph`.
- `graph.dfy`: messages, the `assistant` node and the edge set.

The generator's failure is modelled as data. `Outcome.UnboundLocal(fragments)` holds every fragment yielded before the `UnboundLocalError`. That includes the failing chunk's own separator, because the code yields it before it reads `tool_call_str`.

`stream_graph_response` emits the separator on every "tool_calls" chunk, reads only the first tool-call entry of a chunk, and has no cap on model/tool rounds and no per-thread locking. The model does the same.

## Model

| member | source | states |
|---|---|---|
| Reassembler.Step | MCP_LangGraph/scout/client.py:36-55 | One chunk's effect. A non-AI chunk yields nothing and keeps the tool text. An AI chunk yields its separator (if it finishes for tool calls) and then exactly one fragment: its content when it has no tool-call entries; otherwise the first entry's arguments, which win over its name banner. A bare first entry repeats the tool text in force, or fails after the separator when none was ever assigned. |
| Reassembler.Run | MCP_LangGraph/scout/client.py:31-56 | A completed stream yields exactly one fragment per AI chunk plus one per "tool_calls" finish marker. A failed stream yields no more than that. |
| Reassembler.StreamGraphResponse | MCP_LangGraph/scout/client.py:17-56 | The loop with a mutable `tool_call_str` that starts unassigned yields exactly the fragments of the fold. It fails exactly when the fold fails, at the same point. |
| ReassemblerProperties.RunConcat | MCP_LangGraph/scout/client.py:31-53 | Streaming two parts one after the other: the second part starts from the tool text the first part left in force. `tool_call_str` survives across loop iterations. |
| ReassemblerProperties.ChunkInContext | MCP_LangGraph/scout/client.py:31-56 | Inside any stream, a chunk's fragments come right after those of everything before it. They are computed from the most recent assignment before it, and the rest continues from the tool text the chunk leaves. |
| ReassemblerProperties.SeparatorOnEveryToolCallsFinish | MCP_LangGraph/scout/client.py:37-40 | Every chunk whose `finish_reason` is "tool_calls" yields "\n\n" before anything else of its own, wherever it stands and however many such chunks came before. |
| ReassemblerProperties.BannerForNameOnly | MCP_LangGraph/scout/client.py:45-53 | A first entry with a name and no arguments displays exactly "\n\n< TOOL CALL: " + name + " >\n\n". |
| ReassemblerProperties.ArgsOverrideName | MCP_LangGraph/scout/client.py:48-53 | A first entry with non-empty arguments displays them verbatim, even when it also has a name. |
| ReassemblerProperties.ContentVerbatim | MCP_LangGraph/scout/client.py:54-55 | An AI chunk with no tool-call entries displays its content verbatim, including the empty string. |
| ReassemblerProperties.BareRepeatsPrevious | MCP_LangGraph/scout/client.py:45-53 | A first entry with neither name nor arguments repeats the most recently assigned tool text. With none assigned, the stream stops after that chunk's separator with an unbound-local failure. |
| ReassemblerProperties.UnboundExactly | MCP_LangGraph/scout/client.py:42-53 | The stream fails if and only if some chunk's first entry is bare and no earlier chunk assigned a tool text. |
| ReassemblerProperties.NonAIChunksIgnored | MCP_LangGraph/scout/client.py:36-56 | Removing every non-AI chunk changes neither the output nor the tool text in force. |
| ReassemblerProperties.OnlyFirstEntryMatters | MCP_LangGraph/scout/client.py:42-43 | Dropping every tool-call entry after the first, in every chunk, leaves the output unchanged. |
| ReassemblerProperties.ArgumentsReassemble | MCP_LangGraph/scout/client.py:48-53 | A run of argument chunks yields one fragment per chunk. Joined, they equal the first entries' argument fragments concatenated in arrival order, whatever the tool text before the run. |
| ReassemblerProperties.StreamedToolCallScenario | MCP_LangGraph/scout/client.py:36-55 | A name chunk, two argument chunks and a final "tool_calls" chunk display the banner, the two fragments, "\n\n" and "". |
| ReassemblerProperties.StreamedArgumentsScenario | MCP_LangGraph/scout/client.py:48-53 | Streaming the two argument chunks `{"query":` and ` "select 1"}` from any prior tool text completes, and the displayed fragments join into `{"query": "select 1"}` exactly. |
| ReassemblerProperties.UnboundScenario | MCP_LangGraph/scout/client.py:37-53 | A first chunk with a bare tool-call entry and a "tool_calls" finish yields "\n\n" and then fails. |
| Prompt.Format | MCP_LangGraph/scout/graph.py:72-75 | Formatting succeeds if and only if every field of the template has a value. Extra keyword values are ignored. |
| Prompt.FormatWithPlaceholders | MCP_LangGraph/scout/graph.py:68-75 | Formatting each field with its own `{name}` placeholder gives back the raw template. So the raw branch and the formatted branch agree on all literal text. |
| Prompt.RawScout | MCP_LangGraph/scout/graph.py:18-65 | The unformatted Scout prompt keeps `{working_dir}` and `{tools}` as literal text in their places. |
| Prompt.FormatScout | MCP_LangGraph/scout/graph.py:72-75 | Formatting the Scout template puts the working-directory value and the tools text each into its own field, in place. |
| Prompt.ToolsJson | MCP_LangGraph/scout/graph.py:71 | One JSON description per tool, in tool order, each made from that tool's name and description only. |
| Prompt.Join | MCP_LangGraph/scout/graph.py:73 | The joined tool text ends with the last description: join adds no newline after it. Joining nothing gives the empty string. |
| Prompt.SplitJoin | MCP_LangGraph/scout/graph.py:73 | Splitting the joined text at newlines gives back the original strings in order, when none of them holds a newline. |
| Prompt.ToolsSectionLines | MCP_LangGraph/scout/graph.py:71-73 | When no description holds a raw newline, the tools section lists exactly one description per line, in tool order. |
| Prompt.BuildAgent | MCP_LangGraph/scout/graph.py:67-75 | For brace-free prose (the Scout prose has no braces): with no tools, the prompt is the raw template with both placeholders literal, and the model is not bound. With tools, the model is bound to exactly them, and the prompt carries the working directory ("None" when unset) and the newline-joined tool descriptions. |
| Graph.ModelInput | MCP_LangGraph/scout/graph.py:78 | The model is sent the system prompt first, then every history message in order, and nothing else. |
| Graph.Assistant | MCP_LangGraph/scout/graph.py:77-80 | The node keeps the old history as a prefix and appends exactly one message, the model's response to the system-prompt-plus-history input. |
| Graph.LaterInputsExtendPrevious | MCP_LangGraph/scout/graph.py:77-80 | Whatever is appended after an assistant step (tool results, a new user message, further responses), every later model input starts with that step's input followed by the response it gave. |
| Graph.ScoutWiring | MCP_LangGraph/scout/graph.py:84-92 | START's only successor is Scout, and the tools node's only successor is Scout. Scout's successor is the tools node or the end, as `tools_condition` decides. |
| Graph.WalkAlternates | MCP_LangGraph/scout/graph.py:87-92 | Every walk from START alternates: Scout at odd steps, and the tools node or the end at even steps. Nothing follows the end, so the tools node is entered only from Scout. |

## Left out

- `main` in `client.py` is not modelled. It is the console loop, the MCP client connection and the asyncio start-up: all input/output.
- `my_mcp/local_servers/dataflow.py` is not modelled. Its tools are thin wrappers over CSV loading, SQL, directory changes and subprocess calls.
- The stream is a finite list of chunks. Async iteration and the per-chunk `metadata` that `astream` pairs with each chunk (unused by the loop) are left out.
- Chunk content is a string. A list-valued `content`, which LangChain also allows, is not modelled.
- `response_metadata` values are strings. A non-string `finish_reason` can never equal "tool_calls", so nothing observable is lost.
- A missing `name`/`args` key and a `None` value are both `None` in the model. The code treats the two alike, since both are falsy.
- The chat model (`invoke`), `model_dump_json` and `tools_condition` are parameters: a function `seq<Message> -> Message`, a function from a tool's name and description to text, and the boolean outcome of the routing test. Their internals are not visible.
- `bind_tools` is modelled only as which tools the model is bound to, not what binding does.
- The prompt prose is a parameter (`Instructions`), not reproduced. The Scout prose holds no braces, so `str.format` touches only the two fields; `RawScout`, `FormatScout` and `BuildAgent` require this (`BraceFree`). Format specs, conversions and escaped braces are not modelled.
- The `MCP_FILESYSTEM_DIR` lookup is an optional input string. An unset variable formats as "None".
- The `add_messages` reducer, `ToolNode` execution, `MemorySaver` checkpointing and the compiled graph's scheduler are LangGraph internals and are not modelled. `Assistant` returns the appended history as the node does, before any reducer merge.
- The Mermaid visualisation block at the end of `graph.py` is not modelled.
