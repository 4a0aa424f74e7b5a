/**
 * Migration of legacy Codex transcripts: runs of untyped assistant text are joined, split into
 * lines, and the recognised wire records among them become common chat messages.
 */
module TranscriptCompat {
  import opened Basics
  import opened Json

  type Message = Object

  /** What the host language supplies: a JSON parser, `str` of a non-string and `json.dumps`. */
  datatype Host = Host(value: Parser, str: Json -> string, dumps: Json -> string)

  function StrOf(host: Host, j: Json): string {
    if j.Str? then j.s else host.str(j)
  }

  // ---- Text, candidates and lines ----

  predicate TextBlocks(items: seq<Json>) {
    forall i :: 0 <= i < |items| ==> items[i].Obj? && Get(items[i].fields, "type") == Str("text")
  }

  function JoinBlocks(host: Host, items: seq<Json>): string
    requires TextBlocks(items)
  {
    if items == [] then ""
    else StrOf(host, GetOr(items[0].fields, "text", Str(""))) + JoinBlocks(host, items[1..])
  }

  function TextOf(host: Host, m: Message): Option<string> {
    match Get(m, "content")
    case Str(s) => Some(s)
    case Arr(items) => if TextBlocks(items) then Some(JoinBlocks(host, items)) else None
    case _ => None
  }

  function TextOrEmpty(host: Host, m: Message): string {
    var text := TextOf(host, m);
    if text.Some? then text.value else ""
  }

  predicate Candidate(host: Host, m: Message) {
    Get(m, "role") == Str("assistant") && !Truthy(Get(m, "type")) && TextOf(host, m).Some?
  }

  function Wire(host: Host, messages: seq<Message>): string {
    if messages == [] then "" else TextOrEmpty(host, messages[0]) + Wire(host, messages[1..])
  }

  /** The line boundaries of `str.splitlines`. */
  predicate IsBreak(c: char) {
    || '\n' <= c <= '\r' || '\U{1c}' <= c <= '\U{1e}' || c == '\U{85}' || c == '\U{2028}' || c == '\U{2029}'
  }

  function LineLength(s: string): (n: nat)
    requires s != ""
    ensures 1 <= n <= |s|
  {
    if IsBreak(s[0]) then (if s[0] == '\r' && |s| > 1 && s[1] == '\n' then 2 else 1)
    else if |s| == 1 then 1
    else 1 + LineLength(s[1..])
  }

  function SplitLines(s: string): seq<string> {
    if s == "" then [] else [s[..LineLength(s)]] + SplitLines(s[LineLength(s)..])
  }

  /** No text is lost or invented by the split, and no line is empty. */
  lemma {:induction false} LinesExact(s: string)
    ensures Concat(SplitLines(s)) == s
    ensures forall i :: 0 <= i < |SplitLines(s)| ==> SplitLines(s)[i] != ""
  {
    if s != "" {
      LinesExact(s[LineLength(s)..]);
      assert s == s[..LineLength(s)] + s[LineLength(s)..];
    }
  }

  // ---- Records ----

  function Record(host: Host, line: string): Option<Object> {
    match Loads(host.value, line)
    case Some(Obj(fields)) => Some(fields)
    case _ => None
  }

  const LIFECYCLE := {"thread.started", "turn.started", "turn.completed", "turn.failed", "error"}
  const TOOL_ITEMS := {"command_execution", "file_change", "mcp_tool_call", "web_search"}
  const ITEMS := TOOL_ITEMS + {"agent_message", "todo_list"}

  predicate Recognized(event: Option<Object>) {
    && event.Some?
    && Get(event.value, "type").Str?
    && var kind, item := Get(event.value, "type").s, Get(event.value, "item");
       || kind in LIFECYCLE
       || (&& kind in {"item.started", "item.updated", "item.completed"}
           && item.Obj? && Get(item.fields, "type").Str? && Get(item.fields, "type").s in ITEMS)
  }

  function Records(host: Host, lines: seq<string>): nat {
    if lines == [] then 0
    else (if Recognized(Record(host, lines[0])) then 1 else 0) + Records(host, lines[1..])
  }

  // ---- Emission ----

  /** What a line can give rise to, before it is written out as a message. */
  datatype Note =
    | Delta(text: string)
    | Failure(text: string)
    | Progress(text: string)
    | ToolUse(id: string, name: Json, arguments: Json)
    | ToolResult(id: string, output: Json, failed: bool, exitCode: Json)

  datatype Stamped = Stamped(note: Note, ts: Json)

  function Untyped(role: string, content: Json, ts: Json): Message {
    map["role" := Str(role), "content" := content, "ts" := ts]
  }

  function Render(e: Stamped): Message {
    match e.note
    case Delta(text) => Untyped("assistant", Str(text), e.ts)["type" := Str("TextDelta")]
    case Failure(text) => Untyped("system", Str(text), e.ts)["type" := Str("Error")]
    case Progress(text) => Untyped("system", Str(text), e.ts)
    case ToolUse(id, name, arguments) =>
      Untyped("assistant",
        Arr([Obj(map["type" := Str("tool_use"), "id" := Str(id), "name" := name, "input" := arguments])]), e.ts)
    case ToolResult(id, output, failed, exitCode) =>
      Untyped("tool",
        Arr([Obj(map["type" := Str("tool_result"), "tool_use_id" := Str(id), "content" := output,
                     "is_error" := Bool(failed), "exit_code" := exitCode])]), e.ts)
  }

  function Rendered(entries: seq<Stamped>): seq<Message> {
    seq(|entries|, i requires 0 <= i < |entries| => Render(entries[i]))
  }

  function Decimal(n: nat): string {
    if n < 10 then ["0123456789"[n]] else Decimal(n / 10) + ["0123456789"[n % 10]]
  }

  function CallId(host: Host, item: Object, tools: set<string>): string {
    StrOf(host, Or(Get(item, "id"), Str("legacy-tool-" + Decimal(|tools|))))
  }

  function ToolName(item: Object, itemType: string): Json {
    if itemType == "command_execution" then Str("Command")
    else if itemType == "file_change" then Str("File change")
    else if itemType == "mcp_tool_call" then Or(Get(item, "name"), Str("MCP tool"))
    else Str("Web search")
  }

  function ToolArguments(item: Object, itemType: string): Json {
    if itemType == "command_execution" then GetOr(item, "command", Str(""))
    else if itemType == "file_change" then GetOr(item, "changes", Arr([]))
    else if itemType == "mcp_tool_call" then GetOr(item, "arguments", Obj(map[]))
    else GetOr(item, "query", Str(""))
  }

  function Output(item: Object): Json {
    GetOr(item, "aggregated_output", GetOr(item, "result", GetOr(item, "status", Str("completed"))))
  }

  /** `bool` is an `int` to the source. */
  predicate ToolFailed(item: Object) {
    var code := Get(item, "exit_code");
    Get(item, "status") == Str("failed") || (code.Int? && code.n != 0) || code == Bool(true)
  }

  function EmitTool(id: string, completed: bool, item: Object, itemType: string, tools: set<string>): (seq<Note>, set<string>) {
    var use := ToolUse(id, ToolName(item, itemType), ToolArguments(item, itemType));
    var result := ToolResult(id, Output(item), ToolFailed(item), Get(item, "exit_code"));
    if id in tools then (if completed then [result] else [], tools)
    else (if completed then [use, result] else [use], tools + {id})
  }

  function ErrorText(host: Host, event: Object): string {
    var error := Or(Get(event, "error"), Or(Get(event, "message"), Str("The agent reported an error.")));
    StrOf(host, if error.Obj? then Or(Get(error.fields, "message"), Str(host.dumps(error))) else error)
  }

  function Ticked(todos: seq<Json>): nat {
    if todos == [] then 0
    else (if todos[0].Obj? && Truthy(Get(todos[0].fields, "completed")) then 1 else 0) + Ticked(todos[1..])
  }

  function PlanProgress(todos: seq<Json>): string {
    "Plan progress \U{b7} " + Decimal(Ticked(todos)) + "/" + Decimal(|todos|) + " complete"
  }

  function EmitItem(host: Host, kind: string, item: Object, itemType: string, tools: set<string>): (seq<Note>, set<string>) {
    if kind == "item.completed" && itemType == "agent_message" then
      ([Delta(StrOf(host, Or(Get(item, "text"), Str(""))))], tools)
    else if kind in {"item.updated", "item.completed"} && itemType == "todo_list" then
      var todos := Get(item, "items");
      (if todos.Arr? && todos.items != [] then [Progress(PlanProgress(todos.items))] else [], tools)
    else if kind in {"item.started", "item.completed"} && itemType in TOOL_ITEMS then
      EmitTool(CallId(host, item, tools), kind == "item.completed", item, itemType, tools)
    else ([], tools)
  }

  function EmitRecord(host: Host, event: Object, tools: set<string>): (seq<Note>, set<string>)
    requires Recognized(Some(event))
  {
    var kind := Get(event, "type").s;
    var item := if Get(event, "item").Obj? then Get(event, "item").fields else map[];
    var itemType := if Get(item, "type").Str? then Get(item, "type").s else "";
    if kind == "error" || kind == "turn.failed" then ([Failure(ErrorText(host, event))], tools)
    else EmitItem(host, kind, item, itemType, tools)
  }

  function EmitLine(host: Host, line: string, tools: set<string>): (seq<Note>, set<string>) {
    if Recognized(Record(host, line)) then EmitRecord(host, Record(host, line).value, tools)
    else (if Blank(line) then [] else [Delta(line)], tools)
  }

  function Stamp(notes: seq<Note>, ts: Json): seq<Stamped> {
    seq(|notes|, i requires 0 <= i < |notes| => Stamped(notes[i], ts))
  }

  // ---- Timestamps: who wrote the character at an offset ----

  function Owner(host: Host, messages: seq<Message>, offset: nat): (k: nat)
    requires messages != []
    ensures k < |messages|
  {
    var size := |TextOrEmpty(host, messages[0])|;
    if |messages| == 1 || offset < size then 0 else 1 + Owner(host, messages[1..], offset - size)
  }

  function TimeAt(host: Host, messages: seq<Message>, offset: nat): Json
    requires messages != []
  {
    GetOr(messages[Owner(host, messages, offset)], "ts", Str(""))
  }

  lemma {:induction false} WireAppend(host: Host, a: seq<Message>, b: seq<Message>)
    ensures Wire(host, a + b) == Wire(host, a) + Wire(host, b)
  {
    if a == [] {
      assert a + b == b;
    } else {
      assert (a + b)[1..] == a[1..] + b;
      WireAppend(host, a[1..], b);
    }
  }

  /** The owner of an offset is the message that holds the character there. */
  lemma {:induction false} OwnerHolds(host: Host, messages: seq<Message>, offset: nat)
    requires offset < |Wire(host, messages)|
    ensures messages != []
    ensures var k := Owner(host, messages, offset); var before := |Wire(host, messages[..k])|;
      && before <= offset < before + |TextOrEmpty(host, messages[k])|
      && Wire(host, messages)[offset] == TextOrEmpty(host, messages[k])[offset - before]
  {
    var size := |TextOrEmpty(host, messages[0])|;
    if |messages| == 1 {
      assert messages[1..] == [];
      assert messages[..0] == [];
    } else if offset < size {
      assert messages[..0] == [];
    } else {
      var rest, k := messages[1..], Owner(host, messages, offset);
      OwnerHolds(host, rest, offset - size);
      assert messages[..k][1..] == rest[..k - 1] && messages[..k][0] == messages[0];
      assert |Wire(host, messages[..k])| == size + |Wire(host, rest[..k - 1])|;
    }
  }

  /** The boundary walk of the decoder finds the owner. */
  lemma {:induction false} OwnerIs(host: Host, messages: seq<Message>, offset: nat, k: nat)
    requires k < |messages| && |Wire(host, messages[..k])| <= offset
    requires k == |messages| - 1 || offset < |Wire(host, messages[..k + 1])|
    ensures Owner(host, messages, offset) == k
    decreases k
  {
    var size := |TextOrEmpty(host, messages[0])|;
    if k == 0 {
      assert messages[..1][1..] == [];
    } else {
      assert messages[..k][1..] == messages[1..][..k - 1] && messages[..k + 1][1..] == messages[1..][..k];
      OwnerIs(host, messages[1..], offset - size, k - 1);
    }
  }

  // ---- Decoding and normalising, as functions ----

  /** What becomes of a line, given the tool calls announced before it. */
  type Emitter = (string, set<string>) -> (seq<Note>, set<string>)

  function LineEmitter(host: Host): Emitter {
    (line, tools) => EmitLine(host, line, tools)
  }

  /** What each line gives rise to, in the order of the lines. */
  function Emissions(host: Host, emit: Emitter, messages: seq<Message>, lines: seq<string>, offset: nat, tools: set<string>)
    : (r: seq<seq<Stamped>>)
    requires messages != []
    ensures |r| == |lines|
    decreases |lines|
  {
    if lines == [] then []
    else
      var (notes, seen) := emit(lines[0], tools);
      [Stamp(notes, TimeAt(host, messages, offset))] + Emissions(host, emit, messages, lines[1..], offset + |lines[0]|, seen)
  }

  function Flat(parts: seq<seq<Stamped>>): seq<Stamped> {
    if parts == [] then [] else parts[0] + Flat(parts[1..])
  }

  function Lines(host: Host, messages: seq<Message>): seq<string> {
    SplitLines(Wire(host, messages))
  }

  predicate Decodable(host: Host, messages: seq<Message>, minimum: nat) {
    messages != [] && Records(host, Lines(host, messages)) >= minimum
  }

  function Decoded(host: Host, messages: seq<Message>): seq<Message>
    requires messages != []
  {
    Rendered(Flat(Emissions(host, LineEmitter(host), messages, Lines(host, messages), 0, {})))
  }

  function Candidates(host: Host, messages: seq<Message>): seq<Message> {
    if messages == [] then []
    else (if Candidate(host, messages[0]) then [messages[0]] else []) + Candidates(host, messages[1..])
  }

  predicate IsWire(host: Host, messages: seq<Message>) {
    Decodable(host, Candidates(host, messages), 2)
  }

  function Flushed(host: Host, chunk: seq<Message>, wire: bool): seq<Message> {
    if wire && Decodable(host, chunk, 1) then Decoded(host, chunk) else chunk
  }

  /** Maximal runs of candidates are flushed where they stand; everything else is copied. */
  function Rebuilt(host: Host, messages: seq<Message>, wire: bool, chunk: seq<Message>): seq<Message>
    decreases |messages|
  {
    if messages == [] then Flushed(host, chunk, wire)
    else if Candidate(host, messages[0]) then Rebuilt(host, messages[1..], wire, chunk + [messages[0]])
    else Flushed(host, chunk, wire) + [messages[0]] + Rebuilt(host, messages[1..], wire, [])
  }

  function Normalized(host: Host, messages: seq<Message>): seq<Message> {
    Rebuilt(host, messages, IsWire(host, messages), [])
  }

  // ---- The loops ----

  lemma NoMessagesNoRecords(host: Host)
    ensures Records(host, Lines(host, [])) == 0
  {
    assert Wire(host, []) == "";
    assert SplitLines("") == [];
  }

  method CountRecords(host: Host, lines: seq<string>) returns (n: nat)
    ensures n == Records(host, lines)
  {
    n := 0;
    for i := |lines| downto 0
      invariant n == Records(host, lines[i..])
    {
      assert lines[i..][1..] == lines[i + 1..];
      if Recognized(Record(host, lines[i])) {
        n := n + 1;
      }
    }
    assert lines[0..] == lines;
  }

  method JoinTexts(host: Host, messages: seq<Message>) returns (wire: string)
    ensures wire == Wire(host, messages)
  {
    wire := "";
    for i := |messages| downto 0
      invariant wire == Wire(host, messages[i..])
    {
      assert messages[i..][1..] == messages[i + 1..];
      wire := TextOrEmpty(host, messages[i]) + wire;
    }
    assert messages[0..] == messages;
  }

  /** Moves on to the message that holds `offset`. */
  method Advance(host: Host, messages: seq<Message>, offset: nat, from: nat, end: nat) returns (index: nat, boundary: nat)
    requires from < |messages| && end == |Wire(host, messages[..from + 1])|
    requires |Wire(host, messages[..from])| <= offset
    ensures index == Owner(host, messages, offset) && boundary == |Wire(host, messages[..index + 1])|
    ensures |Wire(host, messages[..index])| <= offset
  {
    index, boundary := from, end;
    while offset >= boundary && index < |messages| - 1
      invariant index < |messages|
      invariant boundary == |Wire(host, messages[..index + 1])|
      invariant |Wire(host, messages[..index])| <= offset
      decreases |messages| - index
    {
      index := index + 1;
      boundary := boundary + |TextOrEmpty(host, messages[index])|;
      WireSnoc(host, messages, index);
    }
    OwnerIs(host, messages, offset, index);
  }

  method EmitLines(host: Host, emit: Emitter, messages: seq<Message>, lines: seq<string>) returns (result: seq<Message>)
    requires messages != []
    ensures result == Rendered(Flat(Emissions(host, emit, messages, lines, 0, {})))
  {
    result := [];
    var tools: set<string> := {};
    var offset, index := 0, 0;
    var boundary := |TextOrEmpty(host, messages[0])|;
    WireSnoc(host, messages, 0);
    assert lines[0..] == lines;
    for i := 0 to |lines|
      invariant index < |messages|
      invariant boundary == |Wire(host, messages[..index + 1])|
      invariant |Wire(host, messages[..index])| <= offset
      invariant result + Rendered(Flat(Emissions(host, emit, messages, lines[i..], offset, tools)))
             == Rendered(Flat(Emissions(host, emit, messages, lines, 0, {})))
    {
      index, boundary := Advance(host, messages, offset, index, boundary);
      var ts := GetOr(messages[index], "ts", Str(""));
      var (notes, seen) := emit(lines[i], tools);
      RenderedStep(host, emit, messages, lines, i, offset, tools, result);
      result := result + Rendered(Stamp(notes, ts));
      tools, offset := seen, offset + |lines[i]|;
    }
    assert lines[|lines|..] == [];
  }

  lemma WireSnoc(host: Host, messages: seq<Message>, k: nat)
    requires k < |messages|
    ensures Wire(host, messages[..k + 1]) == Wire(host, messages[..k]) + TextOrEmpty(host, messages[k])
  {
    WireAppend(host, messages[..k], [messages[k]]);
    assert messages[..k + 1] == messages[..k] + [messages[k]];
    assert [messages[k]][1..] == [];
  }

  lemma EmissionsStep(
    host: Host, emit: Emitter, messages: seq<Message>, lines: seq<string>, i: nat, offset: nat, tools: set<string>)
    requires messages != [] && i < |lines|
    ensures var (notes, seen) := emit(lines[i], tools);
      Flat(Emissions(host, emit, messages, lines[i..], offset, tools))
      == Stamp(notes, TimeAt(host, messages, offset))
         + Flat(Emissions(host, emit, messages, lines[i + 1..], offset + |lines[i]|, seen))
  {
    assert lines[i..][1..] == lines[i + 1..];
    var (notes, seen) := emit(lines[i], tools);
    var out := Stamp(notes, TimeAt(host, messages, offset));
    var rest := Emissions(host, emit, messages, lines[i + 1..], offset + |lines[i]|, seen);
    assert Flat([out] + rest) == out + Flat(rest) by {
      assert ([out] + rest)[1..] == rest;
    }
  }

  lemma RenderedAppend(done: seq<Message>, a: seq<Stamped>, b: seq<Stamped>)
    ensures done + Rendered(a + b) == (done + Rendered(a)) + Rendered(b)
  {
    assert Rendered(a + b) == Rendered(a) + Rendered(b);
  }

  lemma RenderedStep(
    host: Host, emit: Emitter, messages: seq<Message>, lines: seq<string>, i: nat, offset: nat, tools: set<string>,
    done: seq<Message>)
    requires messages != [] && i < |lines|
    ensures var (notes, seen) := emit(lines[i], tools);
      done + Rendered(Flat(Emissions(host, emit, messages, lines[i..], offset, tools)))
      == (done + Rendered(Stamp(notes, TimeAt(host, messages, offset))))
         + Rendered(Flat(Emissions(host, emit, messages, lines[i + 1..], offset + |lines[i]|, seen)))
  {
    var (notes, seen) := emit(lines[i], tools);
    EmissionsStep(host, emit, messages, lines, i, offset, tools);
    RenderedAppend(done, Stamp(notes, TimeAt(host, messages, offset)),
                   Flat(Emissions(host, emit, messages, lines[i + 1..], offset + |lines[i]|, seen)));
  }

  /** `decoded` is false when the messages are handed back as they came. */
  method DecodeLegacyCodex(host: Host, messages: seq<Message>, minimum: nat)
    returns (result: seq<Message>, decoded: bool)
    requires minimum >= 1
    ensures decoded == Decodable(host, messages, minimum)
    ensures result == if decoded then Decoded(host, messages) else messages
  {
    var wire := JoinTexts(host, messages);
    var lines := SplitLines(wire);
    var n := CountRecords(host, lines);
    NoMessagesNoRecords(host);
    if n < minimum {
      return messages, false;
    }
    decoded := true;
    result := EmitLines(host, LineEmitter(host), messages, lines);
  }

  method SelectCandidates(host: Host, messages: seq<Message>) returns (candidates: seq<Message>)
    ensures candidates == Candidates(host, messages)
  {
    candidates := [];
    for i := |messages| downto 0
      invariant candidates == Candidates(host, messages[i..])
    {
      assert messages[i..][1..] == messages[i + 1..];
      if Candidate(host, messages[i]) {
        candidates := [messages[i]] + candidates;
      }
    }
    assert messages[0..] == messages;
  }

  method Flush(host: Host, chunk: seq<Message>, wire: bool) returns (out: seq<Message>)
    ensures out == Flushed(host, chunk, wire)
  {
    out := chunk;
    if chunk != [] && wire {
      var decoded;
      out, decoded := DecodeLegacyCodex(host, chunk, 1);
    }
  }

  lemma RebuiltStep(host: Host, messages: seq<Message>, wire: bool, chunk: seq<Message>, i: nat, result: seq<Message>)
    requires i < |messages|
    ensures result + Rebuilt(host, messages[i..], wire, chunk)
         == if Candidate(host, messages[i]) then result + Rebuilt(host, messages[i + 1..], wire, chunk + [messages[i]])
            else (result + Flushed(host, chunk, wire) + [messages[i]]) + Rebuilt(host, messages[i + 1..], wire, [])
  {
    assert messages[i..][1..] == messages[i + 1..];
    var flushed, rest := Flushed(host, chunk, wire), Rebuilt(host, messages[i + 1..], wire, []);
    Assoc(result, flushed + [messages[i]], rest);
    Assoc(result, flushed, [messages[i]]);
  }

  method NormalizeLegacyHistory(host: Host, messages: seq<Message>) returns (result: seq<Message>)
    ensures result == Normalized(host, messages)
  {
    var candidates := SelectCandidates(host, messages);
    var wire := false;
    if candidates != [] {
      var ignored;
      ignored, wire := DecodeLegacyCodex(host, candidates, 2);
    }
    result := [];
    var chunk: seq<Message> := [];
    ghost var goal := Normalized(host, messages);
    assert messages[0..] == messages;
    for i := 0 to |messages|
      invariant result + Rebuilt(host, messages[i..], wire, chunk) == goal
    {
      RebuiltStep(host, messages, wire, chunk, i, result);
      if Candidate(host, messages[i]) {
        chunk := chunk + [messages[i]];
      } else {
        var out := Flush(host, chunk, wire);
        result := result + out + [messages[i]];
        chunk := [];
      }
    }
    var out := Flush(host, chunk, wire);
    result := result + out;
  }
}
