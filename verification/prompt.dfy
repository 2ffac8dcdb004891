/** The system prompt of the Scout agent: a template with two named
    fields, `{working_dir}` and `{tools}`, filled in with Python's
    `str.format` only when the agent is built with tools. */
module Prompt {
  import opened Wrappers

  /** A piece of a prompt template: literal text, or a named replacement
      field written `{name}` in the template. The literal text holds no
      braces (the Scout template's does not). */
  datatype Piece = Text(text: string) | Field(name: string)

  type Template = seq<Piece>

  /** A piece as it reads in the template source. */
  function RawPiece(p: Piece): string {
    match p
    case Text(s) => s
    case Field(n) => "{" + n + "}"
  }

  /** The template as a literal string, fields left as `{name}`. */
  function Raw(t: Template): string {
    if |t| == 0 then "" else RawPiece(t[0]) + Raw(t[1..])
  }

  /** Every field of the template is given a value. */
  predicate AllFieldsGiven(t: Template, values: map<string, string>) {
    forall i :: 0 <= i < |t| && t[i].Field? ==> t[i].name in values
  }

  /** `str.format` with keyword arguments: each field is replaced by its
      value, extra keyword arguments are ignored, and a field without a
      value fails (a KeyError), here `None`. */
  function Format(t: Template, values: map<string, string>): (r: Option<string>)
    ensures r.Some? <==> AllFieldsGiven(t, values)
  {
    if |t| == 0 then Some("")
    else
      var rest := Format(t[1..], values);
      assert AllFieldsGiven(t, values) ==> AllFieldsGiven(t[1..], values) by {
        if AllFieldsGiven(t, values) {
          forall i | 0 <= i < |t[1..]| && t[1..][i].Field?
            ensures t[1..][i].name in values
          {
            assert t[1..][i] == t[i + 1];
          }
        }
      }
      match t[0]
      case Text(s) =>
        if rest.None? then None else Some(s + rest.value)
      case Field(n) =>
        if n !in values || rest.None? then None else Some(values[n] + rest.value)
  }

  /** Formatting a template with each field's own placeholder gives back
      the raw template: formatting and the raw text agree on literal text. */
  lemma {:induction false} FormatWithPlaceholders(t: Template, values: map<string, string>)
    requires forall i :: 0 <= i < |t| && t[i].Field? ==>
      t[i].name in values && values[t[i].name] == "{" + t[i].name + "}"
    ensures Format(t, values) == Some(Raw(t))
    decreases |t|
  {
    if |t| > 0 {
      forall i | 0 <= i < |t[1..]| && t[1..][i].Field?
        ensures t[1..][i].name in values && values[t[1..][i].name] == "{" + t[1..][i].name + "}"
      {
        assert t[1..][i] == t[i + 1];
      }
      FormatWithPlaceholders(t[1..], values);
    }
  }

  /** The fixed instruction prose around the two fields. */
  datatype Instructions = Instructions(beforeWorkingDir: string, beforeTools: string, afterTools: string)

  /** The prose holds no braces, so `str.format` sees only the two
      fields; the Scout prompt's prose has none. */
  predicate BraceFree(ins: Instructions) {
    && NoBraces(ins.beforeWorkingDir)
    && NoBraces(ins.beforeTools)
    && NoBraces(ins.afterTools)
  }

  predicate NoBraces(text: string) {
    '{' !in text && '}' !in text
  }

  /** The Scout template: the working directory is interpolated first and
      the tool list later. */
  function ScoutTemplate(ins: Instructions): Template {
    [Text(ins.beforeWorkingDir), Field("working_dir"), Text(ins.beforeTools), Field("tools"), Text(ins.afterTools)]
  }

  lemma Regroup(a: string, b: string, c: string, d: string, e: string)
    ensures a + (b + (c + (d + (e + "")))) == a + b + c + d + e
  {
  }

  /** The raw Scout template leaves both placeholders in the text. */
  lemma RawScout(ins: Instructions)
    requires BraceFree(ins)
    ensures Raw(ScoutTemplate(ins))
      == ins.beforeWorkingDir + "{working_dir}" + ins.beforeTools + "{tools}" + ins.afterTools
  {
    var t := ScoutTemplate(ins);
    assert t[1..][1..][1..][1..][1..] == [];
    assert RawPiece(Field("working_dir")) == "{working_dir}";
    assert RawPiece(Field("tools")) == "{tools}";
    assert Raw(t[1..][1..][1..][1..]) == ins.afterTools + "";
    assert Raw(t[1..][1..][1..]) == "{tools}" + (ins.afterTools + "");
    assert Raw(t[1..][1..]) == ins.beforeTools + ("{tools}" + (ins.afterTools + ""));
    assert Raw(t[1..]) == "{working_dir}" + (ins.beforeTools + ("{tools}" + (ins.afterTools + "")));
    assert Raw(t) == ins.beforeWorkingDir + ("{working_dir}" + (ins.beforeTools + ("{tools}" + (ins.afterTools + ""))));
    Regroup(ins.beforeWorkingDir, "{working_dir}", ins.beforeTools, "{tools}", ins.afterTools);
  }

  /** Formatting the Scout template puts each value in its field. */
  lemma FormatScout(ins: Instructions, values: map<string, string>)
    requires BraceFree(ins)
    requires "working_dir" in values && "tools" in values
    ensures Format(ScoutTemplate(ins), values)
      == Some(ins.beforeWorkingDir + values["working_dir"] + ins.beforeTools + values["tools"] + ins.afterTools)
  {
    var t := ScoutTemplate(ins);
    assert t[1..][1..][1..][1..][1..] == [];
    assert Format(t[1..][1..][1..][1..], values) == Some(ins.afterTools + "");
    assert Format(t[1..][1..][1..], values) == Some(values["tools"] + (ins.afterTools + ""));
    assert Format(t[1..][1..], values) == Some(ins.beforeTools + (values["tools"] + (ins.afterTools + "")));
    assert Format(t[1..], values)
      == Some(values["working_dir"] + (ins.beforeTools + (values["tools"] + (ins.afterTools + ""))));
    assert Format(t, values)
      == Some(ins.beforeWorkingDir + (values["working_dir"] + (ins.beforeTools + (values["tools"] + (ins.afterTools + "")))));
    Regroup(ins.beforeWorkingDir, values["working_dir"], ins.beforeTools, values["tools"], ins.afterTools);
  }

  /** Strings joined with a newline between consecutive ones and none at
      the end (`"\n".join`). */
  function Join(parts: seq<string>): (r: string)
    ensures |parts| > 0 ==> |r| >= |parts[|parts| - 1]| && r[|r| - |parts[|parts| - 1]|..] == parts[|parts| - 1]
    ensures |parts| == 0 ==> r == ""
  {
    if |parts| == 0 then ""
    else if |parts| == 1 then parts[0]
    else parts[0] + "\n" + Join(parts[1..])
  }

  /** A string split at every newline (`str.split("\n")`): always at least
      one part, none of which holds a newline. */
  function Split(s: string): (r: seq<string>)
    ensures |r| > 0
    ensures forall i :: 0 <= i < |r| ==> '\n' !in r[i]
    decreases |s|
  {
    if |s| == 0 then [""]
    else if s[0] == '\n' then [""] + Split(s[1..])
    else
      var rest := Split(s[1..]);
      [[s[0]] + rest[0]] + rest[1..]
  }

  lemma {:induction false} SplitLine(line: string, rest: string)
    requires '\n' !in line
    ensures Split(line + "\n" + rest) == [line] + Split(rest)
    ensures Split(line) == [line]
    decreases |line|
  {
    if |line| == 0 {
      assert line + "\n" + rest == "\n" + rest;
      assert ("\n" + rest)[1..] == rest;
    } else {
      assert (line + "\n" + rest)[0] == line[0];
      assert (line + "\n" + rest)[1..] == line[1..] + "\n" + rest;
      SplitLine(line[1..], rest);
      assert [line[0]] + line[1..] == line;
      assert Split(line[1..]) == [line[1..]];
    }
  }

  /** Joining newline-free strings and splitting the result at newlines
      gives back the same strings, in the same order. */
  lemma {:induction false} SplitJoin(parts: seq<string>)
    requires |parts| > 0
    requires forall i :: 0 <= i < |parts| ==> '\n' !in parts[i]
    ensures Split(Join(parts)) == parts
    decreases |parts|
  {
    if |parts| == 1 {
      SplitLine(parts[0], "");
    } else {
      var rest := parts[1..];
      assert forall i :: 0 <= i < |rest| ==> '\n' !in rest[i] by {
        forall i | 0 <= i < |rest| ensures '\n' !in rest[i] {
          assert rest[i] == parts[i + 1];
        }
      }
      SplitJoin(rest);
      assert Join(parts) == parts[0] + "\n" + Join(rest);
      SplitLine(parts[0], Join(rest));
      assert parts == [parts[0]] + rest;
    }
  }

  /** A tool as the graph sees it. */
  datatype Tool = Tool(name: string, description: string, argsSchema: string)

  /** The JSON description of each tool, in tool order. `dump` stands for
      `model_dump_json` restricted to the name and description fields. */
  function ToolsJson(tools: seq<Tool>, dump: (string, string) -> string): (r: seq<string>)
    ensures |r| == |tools|
    ensures forall i :: 0 <= i < |tools| ==> r[i] == dump(tools[i].name, tools[i].description)
  {
    if |tools| == 0 then [] else [dump(tools[0].name, tools[0].description)] + ToolsJson(tools[1..], dump)
  }

  /** How Python formats the working directory: the environment value, or
      "None" when the variable is unset. */
  function EnvText(v: Option<string>): string {
    match v
    case Some(s) => s
    case None => "None"
  }

  /** The agent's model configuration: its system prompt and, when tools
      were given, the tools the model is bound to. */
  datatype Agent = Agent(systemPrompt: string, boundTools: Option<seq<Tool>>)

  /** The prompt branch of building the agent graph. With no tools the
      template is used raw and the model is left unbound; with tools the
      model is bound and both fields are filled. */
  function BuildAgent(tools: seq<Tool>, ins: Instructions, workingDir: Option<string>,
                      dump: (string, string) -> string): (r: Agent)
    requires BraceFree(ins)
    ensures |tools| == 0 ==> r.boundTools == None
    ensures |tools| == 0 ==>
      r.systemPrompt == ins.beforeWorkingDir + "{working_dir}" + ins.beforeTools + "{tools}" + ins.afterTools
    ensures |tools| > 0 ==> r.boundTools == Some(tools)
    ensures |tools| > 0 ==>
      r.systemPrompt == ins.beforeWorkingDir + EnvText(workingDir) + ins.beforeTools
                        + Join(ToolsJson(tools, dump)) + ins.afterTools
  {
    var template := ScoutTemplate(ins);
    if |tools| > 0 then
      var values := map["tools" := Join(ToolsJson(tools, dump)), "working_dir" := EnvText(workingDir)];
      assert AllFieldsGiven(template, values);
      FormatScout(ins, values);
      Agent(Format(template, values).value, Some(tools))
    else
      RawScout(ins);
      Agent(Raw(template), None)
  }

  /** When no tool description holds a raw newline, the tools section of
      the prompt lists exactly one description per line, in tool order. */
  lemma ToolsSectionLines(tools: seq<Tool>, dump: (string, string) -> string)
    requires |tools| > 0
    requires forall i :: 0 <= i < |tools| ==> '\n' !in dump(tools[i].name, tools[i].description)
    ensures Split(Join(ToolsJson(tools, dump))) == ToolsJson(tools, dump)
  {
    SplitJoin(ToolsJson(tools, dump));
  }
}
