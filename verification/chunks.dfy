/** The message chunks the agent graph streams to the client, and the
    facts about a single chunk that the display reassembler looks at. */
module Chunks {
  import opened Wrappers

  /** One entry of an AI chunk's `tool_call_chunks` list. A key that is
      absent and a key whose value is None are both `None` here: the
      reassembler reads them with `.get(key, "")` and only tests truthiness. */
  datatype ToolCallChunk = ToolCallChunk(
    name: Option<string>,
    args: Option<string>,
    id: Option<string>,
    index: Option<int>)

  /** A chunk of the graph's `messages` stream: an AI message chunk, or any
      other message chunk (for instance a tool result), which the display
      ignores. */
  datatype Chunk =
    | AIMessageChunk(
        content: string,
        responseMetadata: map<string, string>,
        toolCallChunks: seq<ToolCallChunk>)
    | OtherChunk(content: string)

  /** Python truthiness of an optional string: present and non-empty. */
  predicate Truthy(o: Option<string>) {
    o.Some? && o.value != ""
  }

  /** The fragment emitted when a response stops to request tool calls. */
  const Separator: string := "\n\n"

  /** The banner emitted when a tool-call entry carries a name. */
  function Banner(name: string): string {
    "\n\n< TOOL CALL: " + name + " >\n\n"
  }

  /** The chunk is an AI chunk with non-empty response metadata whose
      `finish_reason` is "tool_calls" (a missing key reads as ""). */
  predicate FinishesForToolCalls(c: Chunk) {
    && c.AIMessageChunk?
    && |c.responseMetadata| > 0
    && "finish_reason" in c.responseMetadata
    && c.responseMetadata["finish_reason"] == "tool_calls"
  }

  /** The separator fragments a chunk contributes: one or none. */
  function SeparatorOf(c: Chunk): seq<string> {
    if FinishesForToolCalls(c) then [Separator] else []
  }

  /** The chunk is an AI chunk whose `tool_call_chunks` list is non-empty. */
  predicate HasToolCallChunks(c: Chunk) {
    c.AIMessageChunk? && |c.toolCallChunks| > 0
  }

  /** What a tool-call entry makes the displayed tool text, if anything:
      its arguments when they are non-empty (they win over the name),
      else the banner for a non-empty name, else nothing. */
  function Assigned(t: ToolCallChunk): Option<string> {
    if Truthy(t.args) then Some(t.args.value)
    else if Truthy(t.name) then Some(Banner(t.name.value))
    else None
  }

  /** The value a chunk assigns to the displayed tool text: that of its
      first tool-call entry; chunks without entries assign nothing. */
  function Assignment(c: Chunk): Option<string> {
    if HasToolCallChunks(c) then Assigned(c.toolCallChunks[0]) else None
  }

  /** A chunk whose first tool-call entry has neither a name nor arguments:
      it can only repeat the previously displayed tool text. */
  predicate Bare(c: Chunk) {
    HasToolCallChunks(c) && Assigned(c.toolCallChunks[0]).None?
  }

  /** Number of AI chunks in a stream. */
  function CountAI(chunks: seq<Chunk>): nat {
    if |chunks| == 0 then 0
    else (if chunks[0].AIMessageChunk? then 1 else 0) + CountAI(chunks[1..])
  }

  /** Number of chunks in a stream that finish to request tool calls. */
  function CountToolCallsFinishes(chunks: seq<Chunk>): nat {
    if |chunks| == 0 then 0
    else |SeparatorOf(chunks[0])| + CountToolCallsFinishes(chunks[1..])
  }
}
