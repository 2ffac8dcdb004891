/** What the display reassembler promises about whole streams: where each
    chunk's fragments land, which chunks are ignored, how tool arguments
    are reassembled, and exactly when the generator fails. */
module ReassemblerProperties {
  import opened Wrappers
  import opened Chunks
  import opened Reassembler

  /** The tool text after one chunk is the most recent assignment. */
  lemma StepKeepsLastAssigned(c: Chunk, toolCallStr: Option<string>)
    ensures Step(c, toolCallStr).Yielded? ==>
      Step(c, toolCallStr).toolCallStr == LastAssigned([c], toolCallStr)
  {
  }

  lemma PrependThen(first: seq<string>, o: Outcome, rest: Outcome)
    ensures Prepend(first, Then(o, rest)) == Then(Prepend(first, o), rest)
  {
  }

  /** The fragments of an outcome start with the given ones. */
  predicate Begins(o: Outcome, prefix: seq<string>) {
    |o.fragments| >= |prefix| && o.fragments[..|prefix|] == prefix
  }

  lemma PrependBegins(first: seq<string>, o: Outcome)
    ensures Begins(Prepend(first, o), first)
  {
  }

  /** The most recent assignment over two consecutive parts of a stream. */
  lemma {:induction false} LastAssignedConcat(a: seq<Chunk>, b: seq<Chunk>, initial: Option<string>)
    ensures LastAssigned(a + b, initial) == LastAssigned(b, LastAssigned(a, initial))
    decreases |b|
  {
    if |b| == 0 {
      assert a + b == a;
    } else {
      var ab := a + b;
      var front := b[..|b| - 1];
      assert ab[|ab| - 1] == b[|b| - 1];
      assert ab[..|ab| - 1] == a + front;
      LastAssignedConcat(a, front, initial);
    }
  }

  /** Streaming two parts of a stream one after the other: the second part
      starts from the tool text the first part left in force. */
  lemma {:induction false} RunConcat(a: seq<Chunk>, b: seq<Chunk>, toolCallStr: Option<string>)
    ensures Run(a + b, toolCallStr) == Then(Run(a, toolCallStr), Run(b, LastAssigned(a, toolCallStr)))
    decreases |a|
  {
    if |a| == 0 {
      assert a + b == b;
      assert Prepend([], Run(b, toolCallStr)) == Run(b, toolCallStr) by {
        var o := Run(b, toolCallStr);
        assert [] + o.fragments == o.fragments;
      }
    } else {
      var x := a[0];
      var rest := a[1..];
      assert (a + b)[0] == x;
      assert (a + b)[1..] == rest + b;
      match Step(x, toolCallStr)
      case Unbound(f) =>
      case Yielded(f, next) =>
        RunConcat(rest, b, next);
        StepKeepsLastAssigned(x, toolCallStr);
        assert a == [x] + rest;
        LastAssignedConcat([x], rest, toolCallStr);
        PrependThen(f, Run(rest, next), Run(b, LastAssigned(rest, next)));
    }
  }

  /** Chunk `c` in the middle of a stream: once everything before it has
      streamed without failing, `c` is processed with the most recent
      assignment before it, its fragments come next, and the rest of the
      stream continues from the tool text `c` leaves. */
  lemma ChunkInContext(a: seq<Chunk>, c: Chunk, b: seq<Chunk>, toolCallStr: Option<string>)
    requires Run(a, toolCallStr).Completed?
    ensures var before := Run(a, toolCallStr).fragments;
      var step := Step(c, LastAssigned(a, toolCallStr));
      && (step.Unbound? ==> Run(a + [c] + b, toolCallStr) == UnboundLocal(before + step.fragments))
      && (step.Yielded? ==>
            && step.toolCallStr == LastAssigned(a + [c], toolCallStr)
            && Run(a + [c] + b, toolCallStr) == Prepend(before + step.fragments, Run(b, step.toolCallStr)))
      && Begins(Run(a + [c] + b, toolCallStr), before + step.fragments)
  {
    var prior := LastAssigned(a, toolCallStr);
    RunConcat(a + [c], b, toolCallStr);
    RunConcat(a, [c], toolCallStr);
    LastAssignedConcat(a, [c], toolCallStr);
    StepKeepsLastAssigned(c, prior);
    assert [c][1..] == [];
    match Step(c, prior)
    case Unbound(f) =>
      assert (Run(a, toolCallStr).fragments + f)[..|Run(a, toolCallStr).fragments + f|]
        == Run(a, toolCallStr).fragments + f;
    case Yielded(f, next) =>
      assert Run([c], prior) == Completed(f + []);
      assert f + [] == f;
      PrependPrepend(Run(a, toolCallStr).fragments, f, Run(b, next));
      PrependBegins(Run(a, toolCallStr).fragments + f, Run(b, next));
  }

  /** Every chunk that finishes for tool calls yields the separator first,
      wherever it stands in the stream and however many came before it. */
  lemma SeparatorOnEveryToolCallsFinish(a: seq<Chunk>, c: Chunk, b: seq<Chunk>, toolCallStr: Option<string>)
    requires FinishesForToolCalls(c)
    requires Run(a, toolCallStr).Completed?
    ensures var before := Run(a, toolCallStr).fragments;
      var after := Run(a + [c] + b, toolCallStr).fragments;
      |after| > |before| && after[..|before|] == before && after[|before|] == Separator
  {
    ChunkInContext(a, c, b, toolCallStr);
    var before := Run(a, toolCallStr).fragments;
    var own := Step(c, LastAssigned(a, toolCallStr)).fragments;
    var after := Run(a + [c] + b, toolCallStr).fragments;
    assert own[0] == Separator;
    assert after[..|before| + |own|] == before + own;
    assert after[|before|] == (before + own)[|before|];
    assert after[..|before|] == (before + own)[..|before|];
  }

  /** Where the single non-separator fragment of chunk `c` lands: right
      after the fragments of the stream before it and its own separator. */
  lemma DisplayedAt(a: seq<Chunk>, c: Chunk, b: seq<Chunk>, toolCallStr: Option<string>, text: string)
    requires Run(a, toolCallStr).Completed?
    requires Step(c, LastAssigned(a, toolCallStr)).fragments == SeparatorOf(c) + [text]
    ensures var before := Run(a, toolCallStr).fragments;
      var after := Run(a + [c] + b, toolCallStr).fragments;
      var at := |before| + |SeparatorOf(c)|;
      |after| > at && after[..|before|] == before && after[at] == text
  {
    ChunkInContext(a, c, b, toolCallStr);
    var before := Run(a, toolCallStr).fragments;
    var own := SeparatorOf(c) + [text];
    var after := Run(a + [c] + b, toolCallStr).fragments;
    assert after[..|before| + |own|] == before + own;
    assert after[|before| + |SeparatorOf(c)|] == (before + own)[|before| + |SeparatorOf(c)|];
    assert after[..|before|] == (before + own)[..|before|];
  }

  /** A first tool-call entry with a name and no arguments displays the
      banner for that name. */
  lemma BannerForNameOnly(a: seq<Chunk>, c: Chunk, b: seq<Chunk>, toolCallStr: Option<string>)
    requires HasToolCallChunks(c)
    requires Truthy(c.toolCallChunks[0].name) && !Truthy(c.toolCallChunks[0].args)
    requires Run(a, toolCallStr).Completed?
    ensures var before := Run(a, toolCallStr).fragments;
      var after := Run(a + [c] + b, toolCallStr).fragments;
      var at := |before| + |SeparatorOf(c)|;
      |after| > at && after[at] == Banner(c.toolCallChunks[0].name.value)
      && after[at] == "\n\n< TOOL CALL: " + c.toolCallChunks[0].name.value + " >\n\n"
  {
    DisplayedAt(a, c, b, toolCallStr, Banner(c.toolCallChunks[0].name.value));
  }

  /** A first tool-call entry with arguments displays them verbatim, even
      when it also carries a name. */
  lemma ArgsOverrideName(a: seq<Chunk>, c: Chunk, b: seq<Chunk>, toolCallStr: Option<string>)
    requires HasToolCallChunks(c) && Truthy(c.toolCallChunks[0].args)
    requires Run(a, toolCallStr).Completed?
    ensures var before := Run(a, toolCallStr).fragments;
      var after := Run(a + [c] + b, toolCallStr).fragments;
      var at := |before| + |SeparatorOf(c)|;
      |after| > at && after[at] == c.toolCallChunks[0].args.value
  {
    DisplayedAt(a, c, b, toolCallStr, c.toolCallChunks[0].args.value);
  }

  /** An AI chunk without tool-call entries displays its content verbatim,
      the empty string included. */
  lemma ContentVerbatim(a: seq<Chunk>, c: Chunk, b: seq<Chunk>, toolCallStr: Option<string>)
    requires c.AIMessageChunk? && |c.toolCallChunks| == 0
    requires Run(a, toolCallStr).Completed?
    ensures var before := Run(a, toolCallStr).fragments;
      var after := Run(a + [c] + b, toolCallStr).fragments;
      var at := |before| + |SeparatorOf(c)|;
      |after| > at && after[at] == c.content
  {
    DisplayedAt(a, c, b, toolCallStr, c.content);
  }

  /** A first tool-call entry with neither name nor arguments repeats the
      most recently displayed tool text; with none ever assigned, the
      generator stops after yielding the chunk's separator, if any. */
  lemma BareRepeatsPrevious(a: seq<Chunk>, c: Chunk, b: seq<Chunk>, toolCallStr: Option<string>)
    requires Bare(c)
    requires Run(a, toolCallStr).Completed?
    ensures var before := Run(a, toolCallStr).fragments;
      var after := Run(a + [c] + b, toolCallStr);
      var at := |before| + |SeparatorOf(c)|;
      var previous := LastAssigned(a, toolCallStr);
      && (previous.Some? ==> |after.fragments| > at && after.fragments[at] == previous.value)
      && (previous.None? ==> after == UnboundLocal(before + SeparatorOf(c)))
  {
    match LastAssigned(a, toolCallStr)
    case Some(previous) =>
      DisplayedAt(a, c, b, toolCallStr, previous);
    case None =>
      ChunkInContext(a, c, b, toolCallStr);
  }

  /** The stream with every non-AI chunk removed. */
  function AIOnly(chunks: seq<Chunk>): (r: seq<Chunk>)
    ensures forall i :: 0 <= i < |r| ==> r[i].AIMessageChunk?
    ensures |r| == CountAI(chunks)
  {
    if |chunks| == 0 then []
    else if chunks[0].AIMessageChunk? then [chunks[0]] + AIOnly(chunks[1..])
    else AIOnly(chunks[1..])
  }

  /** Chunks that are not AI chunks contribute nothing: neither fragments
      nor a change to the tool text. */
  lemma {:induction false} NonAIChunksIgnored(chunks: seq<Chunk>, toolCallStr: Option<string>)
    ensures Run(chunks, toolCallStr) == Run(AIOnly(chunks), toolCallStr)
    ensures LastAssigned(chunks, toolCallStr) == LastAssigned(AIOnly(chunks), toolCallStr)
    decreases |chunks|
  {
    if |chunks| > 0 {
      var x := chunks[0];
      var rest := chunks[1..];
      assert chunks == [x] + rest;
      NonAIChunksIgnored(rest, LastAssigned([x], toolCallStr));
      LastAssignedConcat([x], rest, toolCallStr);
      StepKeepsLastAssigned(x, toolCallStr);
      assert [x][..0] == [];
      if x.AIMessageChunk? {
        var kept := AIOnly(rest);
        assert AIOnly(chunks) == [x] + kept;
        assert ([x] + kept)[0] == x && ([x] + kept)[1..] == kept;
        LastAssignedConcat([x], kept, toolCallStr);
        match Step(x, toolCallStr)
        case Unbound(f) =>
        case Yielded(f, next) =>
      } else {
        assert Prepend([], Run(rest, toolCallStr)) == Run(rest, toolCallStr) by {
          assert [] + Run(rest, toolCallStr).fragments == Run(rest, toolCallStr).fragments;
        }
      }
    }
  }

  /** A chunk with every tool-call entry after the first removed. */
  function FirstEntryOnly(c: Chunk): (r: Chunk)
    ensures c.AIMessageChunk? ==> r.AIMessageChunk? && |r.toolCallChunks| == if |c.toolCallChunks| == 0 then 0 else 1
    ensures HasToolCallChunks(c) ==> r.toolCallChunks[0] == c.toolCallChunks[0]
    ensures c.OtherChunk? ==> r == c
  {
    match c
    case AIMessageChunk(content, metadata, entries) =>
      AIMessageChunk(content, metadata, if |entries| == 0 then [] else entries[..1])
    case OtherChunk(_) => c
  }

  function FirstEntriesOnly(chunks: seq<Chunk>): (r: seq<Chunk>)
    ensures |r| == |chunks|
  {
    if |chunks| == 0 then [] else [FirstEntryOnly(chunks[0])] + FirstEntriesOnly(chunks[1..])
  }

  /** Only the first entry of each chunk's `tool_call_chunks` matters: the
      stream yields the same when every later entry is dropped. */
  lemma {:induction false} OnlyFirstEntryMatters(chunks: seq<Chunk>, toolCallStr: Option<string>)
    ensures Run(chunks, toolCallStr) == Run(FirstEntriesOnly(chunks), toolCallStr)
    decreases |chunks|
  {
    if |chunks| > 0 {
      var x := chunks[0];
      var trimmed := FirstEntriesOnly(chunks);
      assert trimmed[0] == FirstEntryOnly(x) && trimmed[1..] == FirstEntriesOnly(chunks[1..]);
      assert Step(x, toolCallStr) == Step(FirstEntryOnly(x), toolCallStr);
      match Step(x, toolCallStr)
      case Unbound(f) =>
      case Yielded(f, next) =>
        OnlyFirstEntryMatters(chunks[1..], next);
    }
  }

  /** A chunk that streams one argument fragment of a tool call: an AI
      chunk, not finishing, whose first tool-call entry carries arguments. */
  predicate ArgsChunk(c: Chunk) {
    HasToolCallChunks(c) && Truthy(c.toolCallChunks[0].args) && !FinishesForToolCalls(c)
  }

  /** The arguments of the first entries, concatenated in arrival order. */
  function ArgumentText(chunks: seq<Chunk>): string
    requires forall i :: 0 <= i < |chunks| ==> ArgsChunk(chunks[i])
  {
    if |chunks| == 0 then ""
    else
      assert ArgsChunk(chunks[0]);
      chunks[0].toolCallChunks[0].args.value + ArgumentText(chunks[1..])
  }

  /** All fragments of a stream joined into one display text. */
  function Concat(fragments: seq<string>): string {
    if |fragments| == 0 then "" else fragments[0] + Concat(fragments[1..])
  }

  /** A run of argument chunks displays, joined together, exactly the
      argument fragments concatenated in arrival order, whatever the tool
      text before it, and leaves the last fragment as the tool text. */
  lemma {:induction false} ArgumentsReassemble(chunks: seq<Chunk>, toolCallStr: Option<string>)
    requires forall i :: 0 <= i < |chunks| ==> ArgsChunk(chunks[i])
    ensures Run(chunks, toolCallStr).Completed?
    ensures |Run(chunks, toolCallStr).fragments| == |chunks|
    ensures Concat(Run(chunks, toolCallStr).fragments) == ArgumentText(chunks)
    decreases |chunks|
  {
    if |chunks| > 0 {
      var x := chunks[0];
      assert ArgsChunk(x);
      var next := Some(x.toolCallChunks[0].args.value);
      assert Step(x, toolCallStr) == Yielded([x.toolCallChunks[0].args.value], next);
      ArgumentsReassemble(chunks[1..], next);
      var o := Run(chunks[1..], next);
      assert Run(chunks, toolCallStr) == Completed([x.toolCallChunks[0].args.value] + o.fragments);
      assert ([x.toolCallChunks[0].args.value] + o.fragments)[1..] == o.fragments;
    }
  }

  /** The generator fails exactly when some chunk is bare and no chunk
      before it assigned a tool text (nor was one in force at the start). */
  lemma {:induction false} UnboundExactly(chunks: seq<Chunk>, toolCallStr: Option<string>)
    ensures Run(chunks, toolCallStr).UnboundLocal? <==>
      exists i :: 0 <= i < |chunks| && Bare(chunks[i]) && LastAssigned(chunks[..i], toolCallStr).None?
    decreases |chunks|
  {
    if |chunks| > 0 {
      var x := chunks[0];
      var rest := chunks[1..];
      assert chunks[..0] == [];
      match Step(x, toolCallStr)
      case Unbound(f) =>
        assert Bare(x) && LastAssigned(chunks[..0], toolCallStr).None?;
      case Yielded(f, next) =>
        UnboundExactly(rest, next);
        StepKeepsLastAssigned(x, toolCallStr);
        assert !(Bare(x) && toolCallStr.None?);
        forall i | 1 <= i <= |rest|
          ensures LastAssigned(chunks[..i], toolCallStr) == LastAssigned(rest[..i - 1], next)
        {
          assert chunks[..i] == [x] + rest[..i - 1];
          LastAssignedConcat([x], rest[..i - 1], toolCallStr);
        }
        if Run(chunks, toolCallStr).UnboundLocal? {
          var j :| 0 <= j < |rest| && Bare(rest[j]) && LastAssigned(rest[..j], next).None?;
          assert chunks[j + 1] == rest[j];
          assert LastAssigned(chunks[..j + 1], toolCallStr).None?;
        }
        if exists i :: 0 <= i < |chunks| && Bare(chunks[i]) && LastAssigned(chunks[..i], toolCallStr).None? {
          var i :| 0 <= i < |chunks| && Bare(chunks[i]) && LastAssigned(chunks[..i], toolCallStr).None?;
          assert i != 0;
          assert rest[i - 1] == chunks[i];
          assert LastAssigned(rest[..i - 1], next).None?;
        }
    }
  }

  /** A streamed tool call as a chat model sends it: a chunk naming the
      tool, two argument fragments, and a final empty chunk finishing for
      tool calls. */
  function ScenarioChunks(): seq<Chunk> {
    [ AIMessageChunk("", map[], [ToolCallChunk(Some("query_data"), Some(""), Some("call_1"), Some(0))]),
      AIMessageChunk("", map[], [ToolCallChunk(None, Some("{\"query\":"), None, Some(0))]),
      AIMessageChunk("", map[], [ToolCallChunk(None, Some(" \"select 1\"}"), None, Some(0))]),
      AIMessageChunk("", map["finish_reason" := "tool_calls"], []) ]
  }

  lemma ScenarioTail(p1: string, p2: string)
    requires p2 == " \"select 1\"}"
    ensures Run(ScenarioChunks()[2..], Some(p1)) == Completed([p2, Separator, ""])
  {
    var c2 := ScenarioChunks()[2];
    var c3 := ScenarioChunks()[3];
    assert ScenarioChunks()[2..] == [c2, c3];
    assert [c2, c3][1..] == [c3];
    assert [c3][1..] == [];
    assert Assignment(c2) == Some(p2);
    assert Step(c2, Some(p1)) == Yielded([p2], Some(p2));
    assert Step(c3, Some(p2)) == Yielded([Separator, ""], Some(p2));
    assert Run([c3], Some(p2)) == Completed([Separator, ""] + []);
    assert [p2] + ([Separator, ""] + []) == [p2, Separator, ""];
  }

  /** The display of the streamed tool call: the banner, the two argument
      fragments in order, the separator and the final empty content. */
  lemma StreamedToolCallScenario()
    ensures Run(ScenarioChunks(), None)
      == Completed([Banner("query_data"), "{\"query\":", " \"select 1\"}", Separator, ""])
  {
    var chunks := ScenarioChunks();
    var banner := Banner("query_data");
    var p1 := "{\"query\":";
    var p2 := " \"select 1\"}";
    ScenarioTail(p1, p2);
    assert chunks[1..][1..] == chunks[2..];
    assert Assignment(chunks[1]) == Some(p1);
    assert Step(chunks[1], Some(banner)) == Yielded([p1], Some(p1));
    assert Run(chunks[1..], Some(banner)) == Completed([p1] + [p2, Separator, ""]);
    assert Assignment(chunks[0]) == Some(banner);
    assert Step(chunks[0], None) == Yielded([banner], Some(banner));
    assert Run(chunks, None) == Completed([banner] + ([p1] + [p2, Separator, ""]));
    assert [banner] + ([p1] + [p2, Separator, ""]) == [banner, p1, p2, Separator, ""];
  }

  /** The two argument chunks of the streamed tool call, streamed from any
      tool text, display fragments that join into the complete arguments. */
  lemma StreamedArgumentsScenario(toolCallStr: Option<string>)
    ensures Run(ScenarioChunks()[1..3], toolCallStr).Completed?
    ensures Concat(Run(ScenarioChunks()[1..3], toolCallStr).fragments) == "{\"query\": \"select 1\"}"
  {
    var c1 := ScenarioChunks()[1];
    var c2 := ScenarioChunks()[2];
    var p1 := "{\"query\":";
    var p2 := " \"select 1\"}";
    assert ScenarioChunks()[1..3] == [c1, c2];
    assert ArgsChunk(c1) && ArgsChunk(c2);
    ArgumentsReassemble([c1, c2], toolCallStr);
    assert [c1, c2][1..] == [c2];
    assert [c2][1..] == [];
    assert ArgumentText([c2]) == p2 + "";
    assert ArgumentText([c1, c2]) == p1 + (p2 + "");
    assert p1 + (p2 + "") == "{\"query\": \"select 1\"}";
  }

  /** A first chunk whose tool-call entry has neither name nor arguments:
      the generator yields its separator and then fails. */
  lemma UnboundScenario()
    ensures var bare := ToolCallChunk(None, Some(""), None, Some(0));
      var chunks := [
        AIMessageChunk("", map["finish_reason" := "tool_calls"], [bare]),
        AIMessageChunk("after", map[], [])];
      Run(chunks, None) == UnboundLocal([Separator])
  {
  }
}
