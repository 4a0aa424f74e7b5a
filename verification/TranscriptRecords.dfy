/** What each recognised record of a legacy transcript is decoded to, told from its JSON fields. */
module TranscriptRecords {
  import opened Basics
  import opened Json
  import opened TranscriptCompat
  import opened TranscriptLaws

  // ---- Where a line's messages stand ----

  function Blocks(host: Host, messages: seq<Message>): seq<seq<Stamped>>
    requires messages != []
  {
    Emissions(host, LineEmitter(host), messages, Lines(host, messages), 0, {})
  }

  /** How many messages the lines before line `i` give. */
  function Before(host: Host, messages: seq<Message>, i: nat): nat
    requires messages != [] && i <= |Lines(host, messages)|
  {
    |Flat(Blocks(host, messages)[..i])|
  }

  lemma {:induction false} FlatAppend(a: seq<seq<Stamped>>, b: seq<seq<Stamped>>)
    ensures Flat(a + b) == Flat(a) + Flat(b)
  {
    if a == [] {
      assert a + b == b;
    } else {
      assert (a + b)[1..] == a[1..] + b;
      FlatAppend(a[1..], b);
      Assoc(a[0], Flat(a[1..]), Flat(b));
    }
  }

  /** The messages decoded from line `i`: a stretch of the result. */
  function FromLine(host: Host, messages: seq<Message>, i: nat): seq<Message>
    requires messages != [] && i < |Lines(host, messages)|
  {
    Rendered(Blocks(host, messages)[i])
  }

  lemma RenderedAppend(a: seq<Stamped>, b: seq<Stamped>)
    ensures Rendered(a + b) == Rendered(a) + Rendered(b)
  {
  }

  lemma FlatOne(block: seq<Stamped>)
    ensures Flat([block]) == block
  {
    assert [block][1..] == [];
    assert block + [] == block;
  }

  lemma FlatUpTo(blocks: seq<seq<Stamped>>, i: nat)
    requires i < |blocks|
    ensures Flat(blocks[..i + 1]) == Flat(blocks[..i]) + blocks[i]
  {
    assert blocks[..i + 1] == blocks[..i] + [blocks[i]];
    FlatAppend(blocks[..i], [blocks[i]]);
    FlatOne(blocks[i]);
  }

  lemma FlatAt(blocks: seq<seq<Stamped>>, i: nat)
    requires i < |blocks|
    ensures Flat(blocks) == (Flat(blocks[..i]) + blocks[i]) + Flat(blocks[i + 1..])
  {
    assert blocks == blocks[..i + 1] + blocks[i + 1..];
    FlatAppend(blocks[..i + 1], blocks[i + 1..]);
    FlatUpTo(blocks, i);
  }

  lemma LinePlace(host: Host, messages: seq<Message>, i: nat)
    requires messages != [] && i < |Lines(host, messages)|
    ensures var out, start, block := Decoded(host, messages), Before(host, messages, i), FromLine(host, messages, i);
      && start + |block| == Before(host, messages, i + 1) <= |out|
      && out[start..start + |block|] == block
      && out[..start] == Rendered(Flat(Blocks(host, messages)[..i]))
  {
    var blocks := Blocks(host, messages);
    var head, block, tail := Flat(blocks[..i]), blocks[i], Flat(blocks[i + 1..]);
    FlatAt(blocks, i);
    FlatUpTo(blocks, i);
    RenderedAppend(head + block, tail);
    RenderedAppend(head, block);
    var out := Decoded(host, messages);
    assert out == (Rendered(head) + Rendered(block)) + Rendered(tail);
  }

  lemma AllPlaced(host: Host, messages: seq<Message>)
    requires messages != []
    ensures Before(host, messages, 0) == 0 && Before(host, messages, |Lines(host, messages)|) == |Decoded(host, messages)|
  {
    var blocks := Blocks(host, messages);
    assert blocks[..0] == [] && blocks[..|blocks|] == blocks;
  }

  // ---- Which calls were announced before a line ----

  predicate IsUse(m: Message) {
    BlockId(m, "tool_use", "id").Some?
  }

  function Uses(out: seq<Message>): nat {
    if out == [] then 0 else Uses(Init(out)) + if IsUse(Last(out)) then 1 else 0
  }

  predicate Announces(out: seq<Message>, id: string) {
    exists j :: 0 <= j < |out| && BlockId(out[j], "tool_use", "id") == Some(id)
  }

  /** The ids announced in `entries`. */
  function IdsOf(entries: seq<Stamped>): set<string> {
    set j | 0 <= j < |entries| && entries[j].note.ToolUse? :: entries[j].note.id
  }

  lemma {:induction false} KnownIs(entries: seq<Stamped>, tools: set<string>)
    ensures Known(entries, tools) == tools + IdsOf(entries)
  {
    if entries != [] {
      KnownIs(entries[1..], tools + Announced(entries[0].note));
      assert IdsOf(entries) == Announced(entries[0].note) + IdsOf(entries[1..]) by {
        forall id ensures id in IdsOf(entries) <==> id in Announced(entries[0].note) || id in IdsOf(entries[1..]) {
          if j :| 0 <= j < |entries| && entries[j].note.ToolUse? && entries[j].note.id == id {
            if j > 0 { assert entries[1..][j - 1].note.id in IdsOf(entries[1..]); }
          }
          if j :| 0 <= j < |entries[1..]| && entries[1..][j].note.ToolUse? && entries[1..][j].note.id == id {
            assert entries[j + 1].note.id in IdsOf(entries);
          }
        }
      }
    }
  }

  lemma {:induction false} UsesCount(entries: seq<Stamped>)
    requires Paired(entries, {})
    ensures |IdsOf(entries)| == Uses(Rendered(entries))
  {
    if entries == [] {
      assert IdsOf(entries) == {};
    } else {
      var init, e := Init(entries), Last(entries);
      assert entries == init + [e];
      PairedInit(init, [e], {});
      UsesCount(init);
      IdsSnoc(init, e);
      UsesSnoc(init, e);
      NewUse(init, e);
    }
  }

  lemma UsesSnoc(init: seq<Stamped>, e: Stamped)
    ensures Uses(Rendered(init + [e])) == Uses(Rendered(init)) + if e.note.ToolUse? then 1 else 0
  {
    RenderIds(e);
    assert Init(Rendered(init + [e])) == Rendered(init) && Last(Rendered(init + [e])) == Render(e);
  }

  lemma NewUse(init: seq<Stamped>, e: Stamped)
    requires Paired(init + [e], {})
    ensures e.note.ToolUse? ==> e.note.id !in IdsOf(init)
  {
    var entries := init + [e];
    PairedMeans(entries, {}, |init|);
    assert forall j :: 0 <= j < |init| ==> entries[j] == init[j];
  }

  lemma IdsSnoc(init: seq<Stamped>, e: Stamped)
    ensures IdsOf(init + [e]) == IdsOf(init) + Announced(e.note)
  {
    var entries := init + [e];
    forall id ensures id in IdsOf(entries) <==> id in IdsOf(init) || id in Announced(e.note) {
      if j :| 0 <= j < |init| && init[j].note.ToolUse? && init[j].note.id == id { assert entries[j].note.id in IdsOf(entries); }
      if e.note.ToolUse? { assert entries[|init|].note.id in IdsOf(entries); }
    }
  }

  lemma {:induction false} PairedInit(a: seq<Stamped>, b: seq<Stamped>, tools: set<string>)
    requires Paired(a + b, tools)
    ensures Paired(a, tools)
    decreases |a|
  {
    if a != [] {
      assert (a + b)[1..] == a[1..] + b;
      PairedInit(a[1..], b, tools + Announced(a[0].note));
    }
  }

  /** The set the decoder keeps is what the emissions so far have announced. */
  lemma {:induction false} ToolsAreKnown(host: Host, emit: Emitter, messages: seq<Message>, lines: seq<string>, offset: nat, tools: set<string>, i: nat)
    requires messages != [] && EmitsPaired(emit) && i <= |lines|
    ensures ToolsAt(emit, lines[..i], tools) == Known(Flat(Emissions(host, emit, messages, lines, offset, tools)[..i]), tools)
    decreases i
  {
    if i == 0 {
      assert lines[..0] == [];
    } else {
      var (notes, seen) := emit(lines[0], tools);
      var ts := TimeAt(host, messages, offset);
      var rest := Emissions(host, emit, messages, lines[1..], offset + |lines[0]|, seen);
      assert LinePaired(emit, lines[0], tools, ts);
      ToolsAreKnown(host, emit, messages, lines[1..], offset + |lines[0]|, seen, i - 1);
      assert lines[..i][1..] == lines[1..][..i - 1] && lines[..i][0] == lines[0];
      assert Emissions(host, emit, messages, lines, offset, tools)[..i] == [Stamp(notes, ts)] + rest[..i - 1];
      KnownAppend(Stamp(notes, ts), Flat(rest[..i - 1]), tools);
    }
  }

  lemma {:induction false} KnownAppend(a: seq<Stamped>, b: seq<Stamped>, tools: set<string>)
    ensures Known(a + b, tools) == Known(b, Known(a, tools))
    decreases |a|
  {
    if a == [] {
      assert a + b == b;
    } else {
      assert (a + b)[1..] == a[1..] + b;
      KnownAppend(a[1..], b, tools + Announced(a[0].note));
    }
  }

  lemma AnnouncesIds(entries: seq<Stamped>, id: string)
    ensures Announces(Rendered(entries), id) <==> id in IdsOf(entries)
  {
    var out := Rendered(entries);
    if j :| 0 <= j < |out| && BlockId(out[j], "tool_use", "id") == Some(id) {
      RenderIds(entries[j]);
      assert entries[j].note.id in IdsOf(entries);
    }
    if j :| 0 <= j < |entries| && entries[j].note.ToolUse? && entries[j].note.id == id {
      RenderIds(entries[j]);
      assert BlockId(out[j], "tool_use", "id") == Some(id);
    }
  }

  lemma EmitterPaired(host: Host)
    ensures EmitsPaired(LineEmitter(host))
  {
    forall line, tools, ts ensures LinePaired(LineEmitter(host), line, tools, ts) {
      LineEmitterPaired(host, line, tools, ts);
    }
  }

  lemma PairedUpTo(blocks: seq<seq<Stamped>>, i: nat)
    requires i <= |blocks| && Paired(Flat(blocks), {})
    ensures Paired(Flat(blocks[..i]), {})
  {
    assert blocks == blocks[..i] + blocks[i..];
    FlatAppend(blocks[..i], blocks[i..]);
    PairedInit(Flat(blocks[..i]), Flat(blocks[i..]), {});
  }

  lemma ToolsUpTo(host: Host, emit: Emitter, messages: seq<Message>, lines: seq<string>, i: nat)
    requires messages != [] && EmitsPaired(emit) && i <= |lines|
    ensures var entries := Flat(Emissions(host, emit, messages, lines, 0, {})[..i]);
      Paired(entries, {}) && ToolsAt(emit, lines[..i], {}) == IdsOf(entries)
  {
    ToolsAreKnown(host, emit, messages, lines, 0, {}, i);
    KnownIs(Flat(Emissions(host, emit, messages, lines, 0, {})[..i]), {});
    EmissionsPaired(host, emit, messages, lines, 0, {});
    PairedUpTo(Emissions(host, emit, messages, lines, 0, {}), i);
  }

  lemma ToolsBefore(host: Host, messages: seq<Message>, i: nat)
    requires messages != [] && i < |Lines(host, messages)|
    ensures var entries := Flat(Blocks(host, messages)[..i]);
      Paired(entries, {}) && ToolsAt(LineEmitter(host), Lines(host, messages)[..i], {}) == IdsOf(entries)
  {
    EmitterPaired(host);
    ToolsUpTo(host, LineEmitter(host), messages, Lines(host, messages), i);
  }

  /** `tools` are the calls announced in `out`. */
  ghost predicate Tallies(out: seq<Message>, tools: set<string>) {
    |tools| == Uses(out) && forall id :: id in tools <==> Announces(out, id)
  }

  lemma EntriesTally(entries: seq<Stamped>)
    requires Paired(entries, {})
    ensures Tallies(Rendered(entries), IdsOf(entries))
  {
    UsesCount(entries);
    forall id ensures id in IdsOf(entries) <==> Announces(Rendered(entries), id) {
      AnnouncesIds(entries, id);
    }
  }

  lemma LineEmits(host: Host, messages: seq<Message>, i: nat)
    requires messages != [] && i < |Lines(host, messages)|
    ensures var tools := ToolsAt(LineEmitter(host), Lines(host, messages)[..i], {});
      FromLine(host, messages, i) == Rendered(Stamp(EmitLine(host, Lines(host, messages)[i], tools).0, TimeOf(host, messages, i)))
  {
    var lines := Lines(host, messages);
    EmissionAt(host, LineEmitter(host), messages, lines, 0, {}, i);
    NoRecordShows(host, lines[i], ToolsAt(LineEmitter(host), lines[..i], {}), Null);
  }

  lemma ToolsTally(host: Host, messages: seq<Message>, i: nat)
    requires messages != [] && i < |Lines(host, messages)|
    ensures Before(host, messages, i) <= |Decoded(host, messages)|
    ensures Tallies(Decoded(host, messages)[..Before(host, messages, i)], ToolsAt(LineEmitter(host), Lines(host, messages)[..i], {}))
  {
    ToolsBefore(host, messages, i);
    EntriesTally(Flat(Blocks(host, messages)[..i]));
    LinePlace(host, messages, i);
  }

  /** What the decoder knows before line `i`, read off the messages decoded so far, and what it makes of the line. */
  lemma KnownBefore(host: Host, messages: seq<Message>, i: nat) returns (tools: set<string>)
    requires messages != [] && i < |Lines(host, messages)|
    ensures Before(host, messages, i) <= |Decoded(host, messages)|
    ensures Tallies(Decoded(host, messages)[..Before(host, messages, i)], tools)
    ensures FromLine(host, messages, i)
         == Rendered(Stamp(EmitLine(host, Lines(host, messages)[i], tools).0, TimeOf(host, messages, i)))
  {
    tools := ToolsAt(LineEmitter(host), Lines(host, messages)[..i], {});
    ToolsTally(host, messages, i);
    LineEmits(host, messages, i);
  }

  /** The time of the message in which line `i` starts. */
  function TimeOf(host: Host, messages: seq<Message>, i: nat): Json
    requires messages != [] && i < |Lines(host, messages)|
  {
    TimeAt(host, messages, |Concat(Lines(host, messages)[..i])|)
  }

  // ---- The records ----

  /** A line that is a JSON object with the given fields and type. */
  predicate RecordIs(host: Host, line: string, event: Object, kind: string) {
    Loads(host.value, line) == Some(Obj(event)) && Get(event, "type") == Str(kind)
  }

  predicate LineIs(host: Host, messages: seq<Message>, i: nat, event: Object, kind: string) {
    messages != [] && i < |Lines(host, messages)| && RecordIs(host, Lines(host, messages)[i], event, kind)
  }

  function TypedMessage(role: string, kind: string, text: string, ts: Json): Message {
    map["role" := Str(role), "type" := Str(kind), "content" := Str(text), "ts" := ts]
  }

  function PlainMessage(role: string, text: string, ts: Json): Message {
    map["role" := Str(role), "content" := Str(text), "ts" := ts]
  }

  predicate ItemIs(event: Object, item: Object, itemType: string) {
    Get(event, "item") == Obj(item) && Get(item, "type") == Str(itemType)
  }

  /** `text` is what a value shows: nothing if it is empty, itself if it is text. */
  predicate Shows(host: Host, j: Json, text: string) {
    && (j.Str? ==> text == j.s)
    && (j in {Null, Bool(false), Int(0), Float(0.0), Arr([]), Obj(map[])} ==> text == "")
    && (!j.Str? && Truthy(j) ==> text == host.str(j))
  }

  /** A completed agent_message is one text of the assistant. */
  lemma AgentMessageDecoded(host: Host, messages: seq<Message>, i: nat, event: Object, item: Object)
    requires LineIs(host, messages, i, event, "item.completed") && ItemIs(event, item, "agent_message")
    ensures exists text ::
      && Shows(host, Get(item, "text"), text)
      && FromLine(host, messages, i) == [TypedMessage("assistant", "TextDelta", text, TimeOf(host, messages, i))]
  {
    var tools := KnownBefore(host, messages, i);
    var text := StrOf(host, Or(Get(item, "text"), Str("")));
    MessageEmits(host, Lines(host, messages)[i], event, item, tools);
    assert Shows(host, Get(item, "text"), text);
    RenderedOne(Delta(text), TimeOf(host, messages, i));
  }

  lemma MessageEmits(host: Host, line: string, event: Object, item: Object, tools: set<string>)
    requires RecordIs(host, line, event, "item.completed") && ItemIs(event, item, "agent_message")
    ensures EmitLine(host, line, tools).0 == [Delta(StrOf(host, Or(Get(item, "text"), Str(""))))]
  {
    assert Recognized(Record(host, line));
  }

  lemma RenderedOne(note: Note, ts: Json)
    ensures Rendered(Stamp([note], ts)) == [Render(Stamped(note, ts))]
    ensures note.Delta? ==> Render(Stamped(note, ts)) == TypedMessage("assistant", "TextDelta", note.text, ts)
    ensures note.Failure? ==> Render(Stamped(note, ts)) == TypedMessage("system", "Error", note.text, ts)
    ensures note.Progress? ==> Render(Stamped(note, ts)) == PlainMessage("system", note.text, ts)
  {
  }

  /** What an error record says: its error, else its message; of an object its own message, else its JSON. */
  predicate Says(host: Host, event: Object, text: string) {
    var error, message := Get(event, "error"), Get(event, "message");
    var told := if Truthy(error) then error else if Truthy(message) then message else Str("The agent reported an error.");
    match told
    case Str(s) => text == s
    case Obj(fields) =>
      var inner := Get(fields, "message");
      text == if !Truthy(inner) then host.dumps(told) else if inner.Str? then inner.s else host.str(inner)
    case _ => text == host.str(told)
  }

  /** An error and a failed turn are one error of the system. */
  lemma FailureDecoded(host: Host, messages: seq<Message>, i: nat, event: Object, kind: string)
    requires LineIs(host, messages, i, event, kind) && (kind == "error" || kind == "turn.failed")
    ensures exists text ::
      && Says(host, event, text)
      && FromLine(host, messages, i) == [TypedMessage("system", "Error", text, TimeOf(host, messages, i))]
  {
    var tools := KnownBefore(host, messages, i);
    var text := ErrorText(host, event);
    FailureEmits(host, Lines(host, messages)[i], event, kind, tools);
    RenderedOne(Failure(text), TimeOf(host, messages, i));
  }

  lemma FailureEmits(host: Host, line: string, event: Object, kind: string, tools: set<string>)
    requires RecordIs(host, line, event, kind) && (kind == "error" || kind == "turn.failed")
    ensures EmitLine(host, line, tools).0 == [Failure(ErrorText(host, event))] && Says(host, event, ErrorText(host, event))
  {
    assert Recognized(Record(host, line));
  }

  // ---- Plans ----

  predicate Done(todo: Json) {
    todo.Obj? && Truthy(Get(todo.fields, "completed"))
  }

  lemma {:induction false} TickedSnoc(todos: seq<Json>, todo: Json)
    ensures Ticked(todos + [todo]) == Ticked(todos) + if Done(todo) then 1 else 0
  {
    if todos == [] {
      assert [] + [todo] == [todo] && [todo][1..] == [];
    } else {
      assert (todos + [todo])[1..] == todos[1..] + [todo];
      TickedSnoc(todos[1..], todo);
    }
  }

  /** The places of the todos that are done. */
  function DoneIn(todos: seq<Json>): set<nat> {
    set i: nat | i < |todos| && Done(todos[i])
  }

  lemma DoneSnoc(init: seq<Json>, todo: Json)
    ensures DoneIn(init + [todo]) == DoneIn(init) + if Done(todo) then {|init|} else {}
  {
    var all := init + [todo];
    assert all[|init|] == todo;
    forall i: nat ensures i in DoneIn(all) <==> i in DoneIn(init) || (i == |init| && Done(todo)) {
      if i < |init| { assert all[i] == init[i]; }
    }
  }

  lemma {:induction false} TickedCounts(todos: seq<Json>)
    ensures Ticked(todos) == |DoneIn(todos)|
  {
    if todos == [] {
      assert DoneIn(todos) == {};
    } else {
      var init, todo := Init(todos), Last(todos);
      assert todos == init + [todo];
      TickedCounts(init);
      TickedSnoc(init, todo);
      DoneSnoc(init, todo);
      assert |init| !in DoneIn(init);
    }
  }

  function Digit(c: char): nat {
    if '0' <= c <= '9' then c as int - '0' as int else 0
  }

  /** The number a run of decimal digits stands for. */
  function NumberOf(digits: string): nat {
    if digits == "" then 0 else 10 * NumberOf(Init(digits)) + Digit(Last(digits))
  }

  /** A decimal reads back as the number, without leading zeros. */
  lemma {:induction false} DecimalReads(n: nat)
    ensures forall i :: 0 <= i < |Decimal(n)| ==> '0' <= Decimal(n)[i] <= '9'
    ensures NumberOf(Decimal(n)) == n
    ensures Decimal(n) != "" && (n > 0 ==> Decimal(n)[0] != '0')
  {
    var digit := "0123456789"[n % 10];
    assert Digit(digit) == n % 10 && '0' <= digit <= '9';
    if n < 10 {
      assert Decimal(n) == [digit] && Init([digit]) == [];
    } else {
      DecimalReads(n / 10);
      assert Init(Decimal(n)) == Decimal(n / 10);
    }
  }

  function ProgressText(done: nat, all: nat): string {
    "Plan progress \U{b7} " + Decimal(done) + "/" + Decimal(all) + " complete"
  }

  lemma ProgressIs(todos: seq<Json>)
    ensures PlanProgress(todos) == ProgressText(|DoneIn(todos)|, |todos|)
  {
    TickedCounts(todos);
  }

  /** A todo list, updated or completed, is one line of progress; an empty one, or no list, is nothing. */
  lemma PlanDecoded(host: Host, messages: seq<Message>, i: nat, event: Object, kind: string, item: Object)
    requires LineIs(host, messages, i, event, kind) && ItemIs(event, item, "todo_list")
    requires kind == "item.updated" || kind == "item.completed"
    ensures var todos := Get(item, "items");
      if todos.Arr? && todos.items != [] then
        FromLine(host, messages, i) == [PlainMessage("system", ProgressText(|DoneIn(todos.items)|, |todos.items|), TimeOf(host, messages, i))]
      else FromLine(host, messages, i) == []
  {
    var tools := KnownBefore(host, messages, i);
    var todos := Get(item, "items");
    PlanEmits(host, Lines(host, messages)[i], event, kind, item, tools);
    if todos.Arr? && todos.items != [] {
      ProgressIs(todos.items);
      RenderedOne(Progress(PlanProgress(todos.items)), TimeOf(host, messages, i));
    }
  }

  lemma PlanEmits(host: Host, line: string, event: Object, kind: string, item: Object, tools: set<string>)
    requires RecordIs(host, line, event, kind) && ItemIs(event, item, "todo_list")
    requires kind == "item.updated" || kind == "item.completed"
    ensures var todos := Get(item, "items");
      EmitLine(host, line, tools).0 == if todos.Arr? && todos.items != [] then [Progress(PlanProgress(todos.items))] else []
  {
    assert Recognized(Record(host, line));
  }

  // ---- Tools ----

  /** The id of a call: the item's own, else a number among the calls announced so far. */
  predicate IdFits(host: Host, item: Object, uses: nat, id: string) {
    var own := Get(item, "id");
    if !Truthy(own) then id == "legacy-tool-" + Decimal(uses) else if own.Str? then id == own.s else id == host.str(own)
  }

  predicate NameFits(item: Object, itemType: string, name: Json, arguments: Json) {
    match itemType
    case "command_execution" => name == Str("Command") && arguments == GetOr(item, "command", Str(""))
    case "file_change" => name == Str("File change") && arguments == GetOr(item, "changes", Arr([]))
    case "mcp_tool_call" =>
      && name == (if Truthy(Get(item, "name")) then Get(item, "name") else Str("MCP tool"))
      && arguments == GetOr(item, "arguments", Obj(map[]))
    case "web_search" => name == Str("Web search") && arguments == GetOr(item, "query", Str(""))
    case _ => false
  }

  predicate OutputFits(item: Object, output: Json, failed: bool) {
    var code := Get(item, "exit_code");
    && (if "aggregated_output" in item then output == item["aggregated_output"]
        else if "result" in item then output == item["result"]
        else if "status" in item then output == item["status"]
        else output == Str("completed"))
    && (failed <==> Get(item, "status") == Str("failed") || (code.Int? && code.n != 0) || code == Bool(true))
  }

  function UseMessage(id: string, name: Json, arguments: Json, ts: Json): Message {
    map["role" := Str("assistant"), "ts" := ts,
        "content" := Arr([Obj(map["type" := Str("tool_use"), "id" := Str(id), "name" := name, "input" := arguments])])]
  }

  function ResultMessage(id: string, output: Json, failed: bool, exitCode: Json, ts: Json): Message {
    map["role" := Str("tool"), "ts" := ts,
        "content" := Arr([Obj(map["type" := Str("tool_result"), "tool_use_id" := Str(id), "content" := output,
                                  "is_error" := Bool(failed), "exit_code" := exitCode])])]
  }

  /** A call the first time its id is met, and a result when it is completed. */
  function ToolBlock(out: seq<Message>, id: string, name: Json, arguments: Json, completed: bool, output: Json, failed: bool, code: Json, ts: Json): seq<Message> {
    (if Announces(out, id) then [] else [UseMessage(id, name, arguments, ts)])
    + (if completed then [ResultMessage(id, output, failed, code, ts)] else [])
  }

  ghost predicate ToolFits(host: Host, item: Object, itemType: string, completed: bool, out: seq<Message>, ts: Json, block: seq<Message>) {
    exists id, name, arguments, output, failed ::
      && IdFits(host, item, Uses(out), id) && NameFits(item, itemType, name, arguments) && OutputFits(item, output, failed)
      && block == ToolBlock(out, id, name, arguments, completed, output, failed, Get(item, "exit_code"), ts)
  }

  lemma ToolDecoded(host: Host, messages: seq<Message>, i: nat, event: Object, kind: string, item: Object, itemType: string)
    requires LineIs(host, messages, i, event, kind) && ItemIs(event, item, itemType)
    requires kind == "item.started" || kind == "item.completed"
    requires itemType == "command_execution" || itemType == "file_change" || itemType == "mcp_tool_call" || itemType == "web_search"
    ensures Before(host, messages, i) <= |Decoded(host, messages)|
    ensures ToolFits(host, item, itemType, kind == "item.completed", Decoded(host, messages)[..Before(host, messages, i)],
                     TimeOf(host, messages, i), FromLine(host, messages, i))
  {
    var tools := KnownBefore(host, messages, i);
    var ts, completed, out := TimeOf(host, messages, i), kind == "item.completed", Decoded(host, messages)[..Before(host, messages, i)];
    ToolEmits(host, Lines(host, messages)[i], event, kind, item, itemType, tools);
    ToolRendered(host, CallId(host, item, tools), completed, item, itemType, tools, out, ts);
  }

  lemma ToolEmits(host: Host, line: string, event: Object, kind: string, item: Object, itemType: string, tools: set<string>)
    requires RecordIs(host, line, event, kind) && ItemIs(event, item, itemType)
    requires kind == "item.started" || kind == "item.completed"
    requires itemType == "command_execution" || itemType == "file_change" || itemType == "mcp_tool_call" || itemType == "web_search"
    ensures EmitLine(host, line, tools) == EmitTool(CallId(host, item, tools), kind == "item.completed", item, itemType, tools)
  {
    assert Recognized(Record(host, line));
  }

  lemma RenderedTwo(a: Note, b: Note, ts: Json)
    ensures Rendered(Stamp([], ts)) == []
    ensures Rendered(Stamp([a, b], ts)) == [Render(Stamped(a, ts)), Render(Stamped(b, ts))]
  {
  }

  lemma RenderedTool(id: string, name: Json, arguments: Json, output: Json, failed: bool, exitCode: Json, ts: Json)
    ensures Render(Stamped(ToolUse(id, name, arguments), ts)) == UseMessage(id, name, arguments, ts)
    ensures Render(Stamped(ToolResult(id, output, failed, exitCode), ts)) == ResultMessage(id, output, failed, exitCode, ts)
  {
  }

  lemma FieldsFit(host: Host, item: Object, itemType: string, tools: set<string>)
    requires itemType == "command_execution" || itemType == "file_change" || itemType == "mcp_tool_call" || itemType == "web_search"
    ensures IdFits(host, item, |tools|, CallId(host, item, tools))
    ensures NameFits(item, itemType, ToolName(item, itemType), ToolArguments(item, itemType))
    ensures OutputFits(item, Output(item), ToolFailed(item))
  {
  }

  lemma ToolRendered(host: Host, id: string, completed: bool, item: Object, itemType: string, tools: set<string>, out: seq<Message>, ts: Json)
    requires itemType == "command_execution" || itemType == "file_change" || itemType == "mcp_tool_call" || itemType == "web_search"
    requires Tallies(out, tools) && id == CallId(host, item, tools)
    ensures ToolFits(host, item, itemType, completed, out, ts, Rendered(Stamp(EmitTool(id, completed, item, itemType, tools).0, ts)))
  {
    var name, arguments, output, failed, code := ToolName(item, itemType), ToolArguments(item, itemType), Output(item), ToolFailed(item), Get(item, "exit_code");
    var use, result := ToolUse(id, name, arguments), ToolResult(id, output, failed, code);
    FieldsFit(host, item, itemType, tools);
    RenderedTool(id, name, arguments, output, failed, code, ts);
    RenderedTwo(use, result, ts);
    RenderedOne(use, ts);
    RenderedOne(result, ts);
    assert ToolBlock(out, id, name, arguments, completed, output, failed, code, ts)
        == Rendered(Stamp(EmitTool(id, completed, item, itemType, tools).0, ts));
  }

  // ---- The rest ----

  /** Records that are known and say nothing. */
  predicate Silent(event: Object, kind: string) {
    || kind == "thread.started" || kind == "turn.started" || kind == "turn.completed"
    || (var item := Get(event, "item"); item.Obj? && Get(item.fields, "type").Str? && SilentItem(kind, Get(item.fields, "type").s))
  }

  predicate SilentItem(kind: string, itemType: string) {
    || (itemType == "agent_message" && (kind == "item.started" || kind == "item.updated"))
    || (itemType == "todo_list" && kind == "item.started")
    || (itemType in {"command_execution", "file_change", "mcp_tool_call", "web_search"} && kind == "item.updated")
  }

  lemma SilentDecoded(host: Host, messages: seq<Message>, i: nat, event: Object, kind: string)
    requires LineIs(host, messages, i, event, kind) && Silent(event, kind)
    ensures FromLine(host, messages, i) == []
  {
    var tools := KnownBefore(host, messages, i);
    SilentEmits(host, Lines(host, messages)[i], event, kind, tools);
  }

  lemma SilentEmits(host: Host, line: string, event: Object, kind: string, tools: set<string>)
    requires RecordIs(host, line, event, kind) && Silent(event, kind)
    ensures EmitLine(host, line, tools).0 == []
  {
    assert Recognized(Record(host, line));
  }

  // ---- Which runs are decoded ----

  /** A line that is a record the decoder knows. */
  predicate KnownRecord(host: Host, line: string) {
    match Loads(host.value, line)
    case Some(Obj(event)) =>
      var kind, item := Get(event, "type"), Get(event, "item");
      || kind in {Str("thread.started"), Str("turn.started"), Str("turn.completed"), Str("turn.failed"), Str("error")}
      || (&& kind in {Str("item.started"), Str("item.updated"), Str("item.completed")} && item.Obj?
          && Get(item.fields, "type") in {Str("agent_message"), Str("command_execution"), Str("file_change"),
                                          Str("mcp_tool_call"), Str("web_search"), Str("todo_list")})
    case _ => false
  }

  function KnownIn(host: Host, lines: seq<string>): set<nat> {
    set i: nat | i < |lines| && KnownRecord(host, lines[i])
  }

  lemma KnownRecordIs(host: Host, line: string)
    ensures Recognized(Record(host, line)) <==> KnownRecord(host, line)
  {
  }

  lemma KnownSnoc(host: Host, init: seq<string>, line: string)
    ensures KnownIn(host, init + [line]) == KnownIn(host, init) + if KnownRecord(host, line) then {|init|} else {}
  {
    var all := init + [line];
    assert all[|init|] == line;
    forall i: nat ensures i in KnownIn(host, all) <==> i in KnownIn(host, init) || (i == |init| && KnownRecord(host, line)) {
      if i < |init| { assert all[i] == init[i]; }
    }
  }

  lemma {:induction false} RecordsSnoc(host: Host, init: seq<string>, line: string)
    ensures Records(host, init + [line]) == Records(host, init) + if KnownRecord(host, line) then 1 else 0
  {
    KnownRecordIs(host, line);
    if init == [] {
      assert [] + [line] == [line] && [line][1..] == [];
    } else {
      assert (init + [line])[1..] == init[1..] + [line];
      RecordsSnoc(host, init[1..], line);
    }
  }

  lemma {:induction false} RecordsCount(host: Host, lines: seq<string>)
    ensures Records(host, lines) == |KnownIn(host, lines)|
  {
    if lines == [] {
      assert KnownIn(host, lines) == {};
    } else {
      var init, line := Init(lines), Last(lines);
      assert lines == init + [line];
      RecordsCount(host, init);
      RecordsSnoc(host, init, line);
      KnownSnoc(host, init, line);
      assert |init| !in KnownIn(host, init);
    }
  }

  /** `run` is a maximal run of legacy text between `before` and `after`. */
  ghost predicate Maximal(host: Host, before: seq<Message>, run: seq<Message>, after: seq<Message>) {
    && run != [] && Raw(host, run)
    && (before == [] || !Candidate(host, Last(before))) && (after == [] || !Candidate(host, after[0]))
  }

  lemma RunFirst(host: Host, run: seq<Message>, after: seq<Message>, wire: bool)
    requires Raw(host, run) && (after == [] || !Candidate(host, after[0]))
    ensures Rebuilt(host, run + after, wire, []) == Flushed(host, run, wire) + Rebuilt(host, after, wire, [])
  {
    RebuiltRaw(host, run, after, wire, []);
    assert [] + run == run;
    ChunkFirst(host, run, after, wire);
  }

  lemma PlainLast(host: Host, init: seq<Message>, m: Message, rest: seq<Message>, wire: bool)
    requires !Candidate(host, m)
    ensures Rebuilt(host, (init + [m]) + rest, wire, []) == Rebuilt(host, init + [m], wire, []) + Rebuilt(host, rest, wire, [])
  {
    PlainStaysInPlace(host, init, m, rest, wire, []);
    PlainStaysInPlace(host, init, m, [], wire, []);
    assert init + [m] + [] == init + [m];
    assert Rebuilt(host, [], wire, []) == [];
    var head := Rebuilt(host, init, wire, []) + [m];
    assert head + [] == head;
  }

  lemma RebuiltAround(host: Host, before: seq<Message>, run: seq<Message>, after: seq<Message>, wire: bool)
    requires Maximal(host, before, run, after)
    ensures Rebuilt(host, before + (run + after), wire, [])
         == Rebuilt(host, before, wire, []) + (Flushed(host, run, wire) + Rebuilt(host, after, wire, []))
  {
    RunFirst(host, run, after, wire);
    if before == [] {
      assert before + (run + after) == run + after && Rebuilt(host, [], wire, []) == [];
    } else {
      assert before == Init(before) + [Last(before)];
      PlainLast(host, Init(before), Last(before), run + after, wire);
    }
  }

  /**
   * A history is touched only if its legacy text holds two known records.  Then every maximal run of legacy text with
   * a known record in it is replaced by what it decodes to, where it stands, and every other is left.
   */
  lemma RunsDecoded(host: Host, before: seq<Message>, run: seq<Message>, after: seq<Message>)
    requires Maximal(host, before, run, after)
    ensures var all := before + (run + after);
      var wire := |KnownIn(host, Lines(host, Candidates(host, all)))| >= 2;
      && (!wire ==> Normalized(host, all) == all)
      && Normalized(host, all)
         == Rebuilt(host, before, wire, [])
            + ((if wire && KnownIn(host, Lines(host, run)) != {} then Decoded(host, run) else run) + Rebuilt(host, after, wire, []))
  {
    var all := before + (run + after);
    RecordsCount(host, Lines(host, Candidates(host, all)));
    RecordsCount(host, Lines(host, run));
    RebuiltAround(host, before, run, after, IsWire(host, all));
    if Candidates(host, all) == [] { NothingKnown(host); }
    if !IsWire(host, all) {
      NotWireUntouched(host, all, []);
      assert [] + all == all;
    }
  }

  lemma NothingKnown(host: Host)
    ensures KnownIn(host, Lines(host, [])) == {}
  {
    assert Wire(host, []) == "";
    assert SplitLines("") == [];
  }

  // ---- Where lines end ----

  predicate EndsLine(c: char) {
    || c == '\n' || c == '\r' || c == '\U{b}' || c == '\U{c}' || c == '\U{1c}' || c == '\U{1d}' || c == '\U{1e}'
    || c == '\U{85}' || c == '\U{2028}' || c == '\U{2029}'
  }

  predicate Unbroken(s: string) {
    forall i :: 0 <= i < |s| ==> !EndsLine(s[i])
  }

  /** Text without a break, and then one: a single character, or a carriage return with its line feed. */
  predicate Terminated(line: string) {
    && line != "" && EndsLine(Last(line))
    && (Unbroken(Init(line)) || (|line| >= 2 && line[|line| - 2..] == "\r\n" && Unbroken(line[..|line| - 2])))
  }

  lemma {:induction false} FirstLine(s: string)
    requires s != ""
    ensures var n := LineLength(s);
      && (Terminated(s[..n]) || (n == |s| && Unbroken(s)))
      && (n < |s| && s[n - 1] == '\r' ==> s[n] != '\n')
  {
    var n := LineLength(s);
    if EndsLine(s[0]) {
      assert s[..n][..n - 1] == s[..n - 1];
      if n == 2 { assert s[..2] == "\r\n" && s[..2][0..] == s[..2] && s[..2][..0] == ""; }
    } else if |s| > 1 {
      FirstLine(s[1..]);
      assert s[..n] == [s[0]] + s[1..][..n - 1];
      if Terminated(s[1..][..n - 1]) { LineLonger(s[0], s[1..][..n - 1]); }
    }
  }

  lemma LineLonger(c: char, line: string)
    requires !EndsLine(c) && Terminated(line)
    ensures Terminated([c] + line)
  {
    var all := [c] + line;
    assert Init(all) == [c] + Init(line) && Last(all) == Last(line);
    if |line| >= 2 {
      assert all[|all| - 2..] == line[|line| - 2..] && all[..|all| - 2] == [c] + line[..|line| - 2];
    }
  }

  /** Every line but the last ends in one break and holds no other, the last has one at most, and no carriage return is
      parted from its line feed. */
  lemma {:induction false} LinesBroken(s: string, i: nat)
    requires i < |SplitLines(s)|
    ensures var lines := SplitLines(s);
      && (Terminated(lines[i]) || (i == |lines| - 1 && Unbroken(lines[i])))
      && (i + 1 < |lines| && lines[i] != "" && Last(lines[i]) == '\r' ==> lines[i + 1] != "" && lines[i + 1][0] != '\n')
    decreases |s|
  {
    var n := LineLength(s);
    FirstLine(s);
    if i == 0 {
      assert n == |s| ==> s[..n] == s && SplitLines(s[n..]) == [];
    } else {
      LinesBroken(s[n..], i - 1);
    }
  }

  // ---- What counts as legacy text ----

  /** The texts of a list of blocks. */
  function BlockTexts(host: Host, items: seq<Json>): seq<string>
    requires forall i :: 0 <= i < |items| ==> items[i].Obj?
  {
    seq(|items|, i requires 0 <= i < |items| && items[i].Obj? =>
      var f := items[i].fields; if "text" !in f then "" else if f["text"].Str? then f["text"].s else host.str(f["text"]))
  }

  predicate AllText(items: seq<Json>) {
    forall i :: 0 <= i < |items| ==> items[i].Obj? && "type" in items[i].fields && items[i].fields["type"] == Str("text")
  }

  lemma {:induction false} JoinIs(host: Host, items: seq<Json>)
    requires AllText(items)
    ensures TextBlocks(items) && JoinBlocks(host, items) == Concat(BlockTexts(host, items))
  {
    if items != [] {
      JoinIs(host, items[1..]);
      assert BlockTexts(host, items)[1..] == BlockTexts(host, items[1..]);
    }
  }

  /**
   * Legacy text is a message of the assistant, of no type, whose content is text or a list of text blocks; it stands for
   * that text, or for the texts of the blocks one after the other.
   */
  lemma LegacyText(host: Host, m: Message)
    ensures var content := Get(m, "content"); var untyped := "type" !in m || !Truthy(m["type"]);
      && (Candidate(host, m) <==>
            "role" in m && m["role"] == Str("assistant") && untyped && (content.Str? || (content.Arr? && AllText(content.items))))
      && (content.Str? ==> TextOrEmpty(host, m) == content.s)
      && (content.Arr? && AllText(content.items) ==> TextOrEmpty(host, m) == Concat(BlockTexts(host, content.items)))
  {
    var content := Get(m, "content");
    if content.Arr? {
      if AllText(content.items) { JoinIs(host, content.items); }
      if TextBlocks(content.items) {
        forall i | 0 <= i < |content.items|
          ensures "type" in content.items[i].fields && content.items[i].fields["type"] == Str("text")
        {
          assert Get(content.items[i].fields, "type") == Str("text");
        }
      }
    }
  }
}
