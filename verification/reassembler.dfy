/** The display-stream reassembler of the client: it turns the graph's
    stream of message chunks into the strings shown to the user, carrying
    one piece of state, the last displayed tool text (`tool_call_str`),
    from chunk to chunk. */
module Reassembler {
  import opened Wrappers
  import opened Chunks

  /** The effect of one chunk: the fragments it yields and the tool text
      carried on, or the fragments yielded before the tool text was read
      while still unassigned. */
  datatype StepResult =
    | Yielded(fragments: seq<string>, toolCallStr: Option<string>)
    | Unbound(fragments: seq<string>)

  /** The effect of a whole stream: every fragment yielded, and whether the
      generator ran to completion or stopped on an unbound `tool_call_str`. */
  datatype Outcome =
    | Completed(fragments: seq<string>)
    | UnboundLocal(fragments: seq<string>)

  /** Fragments yielded first, before those of an outcome. */
  function Prepend(first: seq<string>, o: Outcome): Outcome {
    match o
    case Completed(rest) => Completed(first + rest)
    case UnboundLocal(rest) => UnboundLocal(first + rest)
  }

  /** Running two parts of a stream one after the other. */
  function Then(first: Outcome, rest: Outcome): Outcome {
    if first.UnboundLocal? then first else Prepend(first.fragments, rest)
  }

  /** One iteration of the generator's loop, as the code is written: the
      name and the arguments of the first tool-call entry are assigned one
      after the other, so non-empty arguments overwrite the banner. */
  function Step(c: Chunk, toolCallStr: Option<string>): (r: StepResult)
    ensures c.OtherChunk? ==> r == Yielded([], toolCallStr)
    ensures c.AIMessageChunk? && !HasToolCallChunks(c) ==>
      r == Yielded(SeparatorOf(c) + [c.content], toolCallStr)
    ensures HasToolCallChunks(c) && Assignment(c).Some? ==>
      r == Yielded(SeparatorOf(c) + [Assignment(c).value], Assignment(c))
    ensures Bare(c) && toolCallStr.Some? ==>
      r == Yielded(SeparatorOf(c) + [toolCallStr.value], toolCallStr)
    ensures Bare(c) && toolCallStr.None? ==> r == Unbound(SeparatorOf(c))
  {
    match c
    case OtherChunk(_) => Yielded([], toolCallStr)
    case AIMessageChunk(content, _, toolCallChunks) =>
      var separator := if FinishesForToolCalls(c) then [Separator] else [];
      if |toolCallChunks| > 0 then
        var first := toolCallChunks[0];
        var afterName := if Truthy(first.name) then Some(Banner(first.name.value)) else toolCallStr;
        var afterArgs := if Truthy(first.args) then Some(first.args.value) else afterName;
        match afterArgs
        case Some(text) => Yielded(separator + [text], afterArgs)
        case None => Unbound(separator)
      else
        Yielded(separator + [content], toolCallStr)
  }

  /** The generator over a stream, starting from a given tool text. Each AI
      chunk yields one fragment plus a separator when it finishes for tool
      calls; nothing else yields. */
  function Run(chunks: seq<Chunk>, toolCallStr: Option<string>): (r: Outcome)
    ensures |r.fragments| <= CountAI(chunks) + CountToolCallsFinishes(chunks)
    ensures r.Completed? ==>
      |r.fragments| == CountAI(chunks) + CountToolCallsFinishes(chunks)
    decreases |chunks|
  {
    if |chunks| == 0 then Completed([])
    else
      match Step(chunks[0], toolCallStr)
      case Unbound(f) => UnboundLocal(f)
      case Yielded(f, next) => Prepend(f, Run(chunks[1..], next))
  }

  /** The tool text in force after a prefix of the stream: the value of the
      most recent chunk that assigns one, or the initial value if none does. */
  function LastAssigned(prefix: seq<Chunk>, initial: Option<string>): Option<string>
    decreases |prefix|
  {
    if |prefix| == 0 then initial
    else
      match Assignment(prefix[|prefix| - 1])
      case Some(text) => Some(text)
      case None => LastAssigned(prefix[..|prefix| - 1], initial)
  }

  lemma PrependPrepend(first: seq<string>, second: seq<string>, o: Outcome)
    ensures Prepend(first, Prepend(second, o)) == Prepend(first + second, o)
  {
  }

  /** The generator as the client writes it: a loop over the stream with a
      mutable `tool_call_str` that starts unassigned. It yields exactly the
      fragments of `Run`, and stops at the same chunk when the tool text is
      read before any assignment. */
  method StreamGraphResponse(chunks: seq<Chunk>) returns (yielded: seq<string>, unbound: bool)
    ensures Run(chunks, None) == (if unbound then UnboundLocal(yielded) else Completed(yielded))
  {
    yielded := [];
    unbound := false;
    var toolCallStr: Option<string> := None;
    var i := 0;
    while i < |chunks|
      invariant 0 <= i <= |chunks|
      invariant Prepend(yielded, Run(chunks[i..], toolCallStr)) == Run(chunks, None)
    {
      var c := chunks[i];
      assert chunks[i..][0] == c;
      assert chunks[i..][1..] == chunks[i + 1..];
      ghost var before := toolCallStr;
      var emitted: seq<string> := [];
      if c.AIMessageChunk? {
        if FinishesForToolCalls(c) {
          emitted := [Separator];
        }
        if |c.toolCallChunks| > 0 {
          var first := c.toolCallChunks[0];
          if Truthy(first.name) {
            toolCallStr := Some(Banner(first.name.value));
          }
          if Truthy(first.args) {
            toolCallStr := Some(first.args.value);
          }
          if toolCallStr.None? {
            assert Step(c, before) == Unbound(emitted);
            yielded := yielded + emitted;
            unbound := true;
            return;
          }
          emitted := emitted + [toolCallStr.value];
        } else {
          emitted := emitted + [c.content];
        }
      }
      assert Step(c, before) == Yielded(emitted, toolCallStr);
      PrependPrepend(yielded, emitted, Run(chunks[i + 1..], toolCallStr));
      yielded := yielded + emitted;
      i := i + 1;
    }
    assert chunks[i..] == [];
  }
}
