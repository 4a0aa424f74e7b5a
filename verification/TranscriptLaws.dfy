/** What the transcript migration guarantees: idempotence, losslessness, provenance, paired tool calls. */
module TranscriptLaws {
  import opened Basics
  import opened Json
  import opened TranscriptCompat

  // ---- Idempotence ----

  ghost predicate Plain(host: Host, messages: seq<Message>) {
    forall i :: 0 <= i < |messages| ==> !Candidate(host, messages[i])
  }

  ghost predicate Raw(host: Host, messages: seq<Message>) {
    forall i :: 0 <= i < |messages| ==> Candidate(host, messages[i])
  }

  /** No emitted message would be taken for legacy text again. */
  lemma RenderPlain(host: Host, e: Stamped)
    ensures !Candidate(host, Render(e))
  {
    if e.note.ToolUse? {
      var items := Get(Render(e), "content").items;
      assert Get(items[0].fields, "type") == Str("tool_use");
      assert !TextBlocks(items);
    }
  }

  lemma DecodedPlain(host: Host, messages: seq<Message>)
    requires messages != []
    ensures Plain(host, Decoded(host, messages))
  {
    var entries := Flat(Emissions(host, LineEmitter(host), messages, Lines(host, messages), 0, {}));
    forall i | 0 <= i < |entries| ensures !Candidate(host, Rendered(entries)[i]) {
      RenderPlain(host, entries[i]);
    }
  }

  lemma {:induction false} RebuiltRaw(host: Host, raw: seq<Message>, rest: seq<Message>, wire: bool, chunk: seq<Message>)
    requires Raw(host, raw)
    ensures Rebuilt(host, raw + rest, wire, chunk) == Rebuilt(host, rest, wire, chunk + raw)
    decreases |raw|
  {
    if raw == [] {
      assert raw + rest == rest && chunk + raw == chunk;
    } else {
      assert (raw + rest)[1..] == raw[1..] + rest;
      assert chunk + raw == (chunk + [raw[0]]) + raw[1..];
      RebuiltRaw(host, raw[1..], rest, wire, chunk + [raw[0]]);
    }
  }

  lemma {:induction false} RebuiltPlain(host: Host, plain: seq<Message>, rest: seq<Message>, wire: bool)
    requires Plain(host, plain)
    ensures Rebuilt(host, plain + rest, wire, []) == plain + Rebuilt(host, rest, wire, [])
    decreases |plain|
  {
    if plain == [] {
      assert plain + rest == rest;
    } else {
      assert (plain + rest)[1..] == plain[1..] + rest;
      RebuiltPlain(host, plain[1..], rest, wire);
      assert Flushed(host, [], wire) == [];
    }
  }

  /** Fit to go through any pass unchanged. */
  ghost predicate Settled(host: Host, out: seq<Message>) {
    Plain(host, out) || (Raw(host, out) && forall wire :: Flushed(host, out, wire) == out)
  }

  lemma FlushSettles(host: Host, chunk: seq<Message>)
    requires Raw(host, chunk)
    ensures Settled(host, Flushed(host, chunk, true))
  {
    if Decodable(host, chunk, 1) {
      DecodedPlain(host, chunk);
    }
  }

  lemma ChunkFirst(host: Host, chunk: seq<Message>, rest: seq<Message>, wire: bool)
    requires rest == [] || !Candidate(host, rest[0])
    ensures Rebuilt(host, rest, wire, chunk) == Flushed(host, chunk, wire) + Rebuilt(host, rest, wire, [])
  {
    var out := Flushed(host, chunk, wire);
    assert Flushed(host, [], wire) == [];
    if rest == [] {
      assert out + [] == out;
    } else {
      var more := Rebuilt(host, rest[1..], wire, []);
      assert [] + [rest[0]] == [rest[0]];
      Assoc(out, [rest[0]], more);
    }
  }

  lemma SettledStays(host: Host, out: seq<Message>, rest: seq<Message>, wire: bool)
    requires Settled(host, out)
    requires rest == [] || !Candidate(host, rest[0])
    ensures Rebuilt(host, out + rest, wire, []) == out + Rebuilt(host, rest, wire, [])
  {
    if Plain(host, out) {
      RebuiltPlain(host, out, rest, wire);
    } else {
      RebuiltRaw(host, out, rest, wire, []);
      assert [] + out == out;
      ChunkFirst(host, out, rest, wire);
    }
  }

  lemma SettledThenFixed(host: Host, out: seq<Message>, m: Message, rest: seq<Message>, wire: bool)
    requires Settled(host, out) && !Candidate(host, m) && Rebuilt(host, rest, wire, []) == rest
    ensures Rebuilt(host, out + [m] + rest, wire, []) == out + [m] + rest
  {
    SettledStays(host, out, [m] + rest, wire);
    RebuiltPlain(host, [m], rest, wire);
    assert out + [m] + rest == out + ([m] + rest);
  }

  lemma {:induction false} RebuiltTwice(host: Host, messages: seq<Message>, chunk: seq<Message>, wire: bool)
    requires Raw(host, chunk)
    ensures Rebuilt(host, Rebuilt(host, messages, true, chunk), wire, []) == Rebuilt(host, messages, true, chunk)
    decreases |messages|
  {
    var out := Flushed(host, chunk, true);
    if messages == [] {
      FlushSettles(host, chunk);
      SettledStays(host, out, [], wire);
      assert out + [] == out;
    } else if Candidate(host, messages[0]) {
      RebuiltTwice(host, messages[1..], chunk + [messages[0]], wire);
    } else {
      FlushSettles(host, chunk);
      RebuiltTwice(host, messages[1..], [], wire);
      SettledThenFixed(host, out, messages[0], Rebuilt(host, messages[1..], true, []), wire);
    }
  }

  lemma {:induction false} NotWireUntouched(host: Host, messages: seq<Message>, chunk: seq<Message>)
    ensures Rebuilt(host, messages, false, chunk) == chunk + messages
    decreases |messages|
  {
    if messages != [] {
      NotWireUntouched(host, messages[1..], if Candidate(host, messages[0]) then chunk + [messages[0]] else []);
      assert messages == [messages[0]] + messages[1..];
    }
  }

  /** Normalising twice is normalising once, for every history. */
  lemma NormalizeIdempotent(host: Host, messages: seq<Message>)
    ensures Normalized(host, Normalized(host, messages)) == Normalized(host, messages)
  {
    if IsWire(host, messages) {
      RebuiltTwice(host, messages, [], IsWire(host, Normalized(host, messages)));
    } else {
      NotWireUntouched(host, messages, []);
      assert [] + messages == messages;
    }
  }

  // ---- Everything else survives in place ----

  /** A message that is not legacy text stays where it is and separates what lies on its two sides. */
  lemma {:induction false} PlainStaysInPlace(
    host: Host, before: seq<Message>, m: Message, after: seq<Message>, wire: bool, chunk: seq<Message>)
    requires !Candidate(host, m)
    ensures Rebuilt(host, before + [m] + after, wire, chunk)
         == Rebuilt(host, before, wire, chunk) + [m] + Rebuilt(host, after, wire, [])
    decreases |before|
  {
    var all := before + [m] + after;
    if before == [] {
      assert all[1..] == after;
    } else {
      assert all[1..] == before[1..] + [m] + after;
      PlainStaysInPlace(host, before[1..], m, after, wire, if Candidate(host, before[0]) then chunk + [before[0]] else []);
    }
  }

  // ---- Lossless decoding with provenance ----

  function ToolsAt(emit: Emitter, lines: seq<string>, tools: set<string>): set<string> {
    if lines == [] then tools else ToolsAt(emit, lines[1..], emit(lines[0], tools).1)
  }

  lemma {:induction false} EmissionAt(
    host: Host, emit: Emitter, messages: seq<Message>, lines: seq<string>, offset: nat, tools: set<string>, i: nat)
    requires messages != [] && i < |lines|
    ensures Emissions(host, emit, messages, lines, offset, tools)[i]
         == Stamp(emit(lines[i], ToolsAt(emit, lines[..i], tools)).0, TimeAt(host, messages, offset + |Concat(lines[..i])|))
    decreases i
  {
    if i == 0 {
      assert lines[..0] == [];
    } else {
      EmissionAt(host, emit, messages, lines[1..], offset + |lines[0]|, emit(lines[0], tools).1, i - 1);
      assert lines[..i][1..] == lines[1..][..i - 1];
    }
  }

  lemma {:induction false} LineInWire(lines: seq<string>, i: nat)
    requires i < |lines| && lines[i] != ""
    ensures |Concat(lines[..i])| < |Concat(lines)|
    ensures Concat(lines)[|Concat(lines[..i])|] == lines[i][0]
    decreases i
  {
    if i == 0 {
      assert lines[..0] == [];
    } else {
      LineInWire(lines[1..], i - 1);
      assert lines[..i][1..] == lines[1..][..i - 1];
    }
  }

  /** `start` lies in message `k`, where `first` is written. */
  predicate Holds(host: Host, messages: seq<Message>, start: nat, k: nat, first: char) {
    && k < |messages|
    && var before, text := |Wire(host, messages[..k])|, TextOrEmpty(host, messages[k]);
       before <= start < before + |text| && text[start - before] == first
  }

  lemma CharacterOwner(host: Host, messages: seq<Message>, lines: seq<string>, i: nat)
    requires Concat(lines) == Wire(host, messages) && i < |lines| && lines[i] != ""
    ensures messages != []
    ensures var start := |Concat(lines[..i])|; Holds(host, messages, start, Owner(host, messages, start), lines[i][0])
  {
    LineInWire(lines, i);
    OwnerHolds(host, messages, |Concat(lines[..i])|);
  }

  /** The time a line is stamped with is that of the message holding its first character. */
  lemma LineProvenance(host: Host, messages: seq<Message>, i: nat)
    requires i < |Lines(host, messages)|
    ensures messages != [] && Concat(Lines(host, messages)) == Wire(host, messages) && Lines(host, messages)[i] != ""
    ensures var start := |Concat(Lines(host, messages)[..i])|; var k := Owner(host, messages, start);
      && Holds(host, messages, start, k, Lines(host, messages)[i][0])
      && TimeAt(host, messages, start) == GetOr(messages[k], "ts", Str(""))
  {
    LinesExact(Wire(host, messages));
    CharacterOwner(host, messages, Lines(host, messages), i);
  }

  lemma BlockStamped(block: seq<Stamped>, notes: seq<Note>, ts: Json)
    requires block == Stamp(notes, ts)
    ensures forall e :: e in block ==> e.ts == ts && Get(Render(e), "ts") == ts
  {
  }

  /** What stands in the result for line `i`. */
  lemma BlockOf(host: Host, emit: Emitter, messages: seq<Message>, lines: seq<string>, i: nat) returns (tools: set<string>)
    requires messages != [] && i < |lines|
    ensures Emissions(host, emit, messages, lines, 0, {})[i]
         == Stamp(emit(lines[i], tools).0, TimeAt(host, messages, |Concat(lines[..i])|))
  {
    EmissionAt(host, emit, messages, lines, 0, {}, i);
    tools := ToolsAt(emit, lines[..i], {});
  }

  lemma NoRecordShows(host: Host, line: string, tools: set<string>, ts: Json)
    ensures LineEmitter(host)(line, tools) == EmitLine(host, line, tools)
    ensures !Recognized(Record(host, line)) ==>
      Stamp(EmitLine(host, line, tools).0, ts) == if Blank(line) then [] else [Stamped(Delta(line), ts)]
  {
  }

  /**
   * Decoding loses nothing it does not understand: the result is one block per line, in order, each
   * entry stamped with its line's time; a line that is no record is its own block, verbatim, unless blank.
   */
  lemma DecodedLossless(host: Host, messages: seq<Message>, i: nat)
    requires messages != [] && i < |Lines(host, messages)|
    ensures var lines := Lines(host, messages); var ts := TimeAt(host, messages, |Concat(lines[..i])|);
      var blocks := Emissions(host, LineEmitter(host), messages, lines, 0, {});
      && Decoded(host, messages) == Rendered(Flat(blocks)) && |blocks| == |lines|
      && (forall e :: e in blocks[i] ==> e.ts == ts && Get(Render(e), "ts") == ts)
      && (!Recognized(Record(host, lines[i])) ==> blocks[i] == if Blank(lines[i]) then [] else [Stamped(Delta(lines[i]), ts)])
  {
    var lines := Lines(host, messages);
    var ts := TimeAt(host, messages, |Concat(lines[..i])|);
    var tools := BlockOf(host, LineEmitter(host), messages, lines, i);
    NoRecordShows(host, lines[i], tools, ts);
    var notes := LineEmitter(host)(lines[i], tools).0;
    BlockStamped(Stamp(notes, ts), notes, ts);
  }

  // ---- Tool calls are announced once and before their results ----

  /** The id in a message that holds one block of the given kind. */
  function BlockId(m: Message, kind: string, key: string): Option<string> {
    match Get(m, "content")
    case Arr(items) =>
      if |items| == 1 && items[0].Obj? && Get(items[0].fields, "type") == Str(kind) && Get(items[0].fields, key).Str?
      then Some(Get(items[0].fields, key).s) else None
    case _ => None
  }

  function Announced(note: Note): set<string> {
    if note.ToolUse? then {note.id} else {}
  }

  lemma RenderIds(e: Stamped)
    ensures BlockId(Render(e), "tool_use", "id") == if e.note.ToolUse? then Some(e.note.id) else None
    ensures BlockId(Render(e), "tool_result", "tool_use_id") == if e.note.ToolResult? then Some(e.note.id) else None
  {
  }

  function Known(entries: seq<Stamped>, tools: set<string>): set<string> {
    if entries == [] then tools else Known(entries[1..], tools + Announced(entries[0].note))
  }

  /** Read from the front with `tools` announced: calls are new, results are of announced calls. */
  predicate Paired(entries: seq<Stamped>, tools: set<string>) {
    entries == [] ||
    (&& (entries[0].note.ToolUse? ==> entries[0].note.id !in tools)
     && (entries[0].note.ToolResult? ==> entries[0].note.id in tools)
     && Paired(entries[1..], tools + Announced(entries[0].note)))
  }

  ghost predicate EmitsPaired(emit: Emitter) {
    forall line, tools, ts :: LinePaired(emit, line, tools, ts)
  }

  ghost predicate LinePaired(emit: Emitter, line: string, tools: set<string>, ts: Json) {
    var (notes, seen) := emit(line, tools);
    Paired(Stamp(notes, ts), tools) && seen == Known(Stamp(notes, ts), tools)
  }

  lemma {:induction false} PairedAppend(a: seq<Stamped>, b: seq<Stamped>, tools: set<string>)
    requires Paired(a, tools) && Paired(b, Known(a, tools))
    ensures Paired(a + b, tools)
    decreases |a|
  {
    if a == [] {
      assert a + b == b;
    } else {
      assert (a + b)[1..] == a[1..] + b;
      PairedAppend(a[1..], b, tools + Announced(a[0].note));
    }
  }

  lemma FewPaired(a: Stamped, b: Stamped, tools: set<string>)
    ensures Known([], tools) == tools && Paired([], tools)
    ensures Known([a], tools) == tools + Announced(a.note)
    ensures Paired([a], tools) <==> (a.note.ToolUse? ==> a.note.id !in tools) && (a.note.ToolResult? ==> a.note.id in tools)
    ensures Known([a, b], tools) == tools + Announced(a.note) + Announced(b.note)
    ensures Paired([a, b], tools) <==> Paired([a], tools) && Paired([b], tools + Announced(a.note))
  {
    assert [a][1..] == [] && [b][1..] == [] && [a, b][1..] == [b];
    var known := tools + Announced(a.note);
    assert Known([b], known) == Known([], known + Announced(b.note));
  }

  /** At most one call is announced, or an announced one reported, or neither. */
  predicate Shaped(notes: seq<Note>, tools: set<string>, seen: set<string>) {
    || (notes == [] && seen == tools)
    || (|notes| == 1 && !notes[0].ToolUse? && !notes[0].ToolResult? && seen == tools)
    || (|notes| == 1 && notes[0].ToolResult? && notes[0].id in tools && seen == tools)
    || (|notes| == 1 && notes[0].ToolUse? && notes[0].id !in tools && seen == tools + {notes[0].id})
    || (|notes| == 2 && notes[0].ToolUse? && notes[0].id !in tools && notes[1].ToolResult?
        && notes[1].id == notes[0].id && seen == tools + {notes[0].id})
  }

  lemma ToolShape(id: string, completed: bool, item: Object, itemType: string, tools: set<string>)
    ensures var (notes, seen) := EmitTool(id, completed, item, itemType, tools); Shaped(notes, tools, seen)
  {
  }

  lemma ItemShape(host: Host, kind: string, item: Object, itemType: string, tools: set<string>)
    ensures var (notes, seen) := EmitItem(host, kind, item, itemType, tools); Shaped(notes, tools, seen)
  {
    ToolShape(CallId(host, item, tools), kind == "item.completed", item, itemType, tools);
  }

  lemma RecordShape(host: Host, event: Object, tools: set<string>)
    requires Recognized(Some(event))
    ensures var (notes, seen) := EmitRecord(host, event, tools); Shaped(notes, tools, seen)
  {
    var item := if Get(event, "item").Obj? then Get(event, "item").fields else map[];
    var itemType := if Get(item, "type").Str? then Get(item, "type").s else "";
    ItemShape(host, Get(event, "type").s, item, itemType, tools);
  }

  lemma LineShape(host: Host, line: string, tools: set<string>)
    ensures var (notes, seen) := EmitLine(host, line, tools); Shaped(notes, tools, seen)
  {
    if Recognized(Record(host, line)) {
      RecordShape(host, Record(host, line).value, tools);
    }
  }

  lemma LineEmitterPaired(host: Host, line: string, tools: set<string>, ts: Json)
    ensures LinePaired(LineEmitter(host), line, tools, ts)
  {
    var (notes, seen) := EmitLine(host, line, tools);
    LineShape(host, line, tools);
    var out := Stamp(notes, ts);
    if |notes| == 0 {
      assert out == [];
    } else if |notes| == 1 {
      assert out == [out[0]];
      FewPaired(out[0], out[0], tools);
    } else {
      assert out == [out[0], out[1]];
      FewPaired(out[0], out[1], tools);
      FewPaired(out[1], out[1], tools + Announced(out[0].note));
    }
  }

  lemma {:induction false} EmissionsPaired(
    host: Host, emit: Emitter, messages: seq<Message>, lines: seq<string>, offset: nat, tools: set<string>)
    requires messages != [] && EmitsPaired(emit)
    ensures Paired(Flat(Emissions(host, emit, messages, lines, offset, tools)), tools)
    decreases |lines|
  {
    if lines != [] {
      var (notes, seen) := emit(lines[0], tools);
      var ts := TimeAt(host, messages, offset);
      var rest := Flat(Emissions(host, emit, messages, lines[1..], offset + |lines[0]|, seen));
      assert LinePaired(emit, lines[0], tools, ts);
      EmissionsPaired(host, emit, messages, lines[1..], offset + |lines[0]|, seen);
      EmissionsStep(host, emit, messages, lines, 0, offset, tools);
      assert lines[0..] == lines;
      PairedAppend(Stamp(notes, ts), rest, tools);
      assert Flat(Emissions(host, emit, messages, lines, offset, tools)) == Stamp(notes, ts) + rest;
    }
  }

  lemma {:induction false} PairedMeans(entries: seq<Stamped>, tools: set<string>, j: nat)
    requires Paired(entries, tools) && j < |entries|
    ensures entries[j].note.ToolUse? ==>
      entries[j].note.id !in tools && forall i :: 0 <= i < j && entries[i].note.ToolUse? ==> entries[i].note.id != entries[j].note.id
    ensures entries[j].note.ToolResult? ==>
      entries[j].note.id in tools || exists i :: 0 <= i < j && entries[i].note.ToolUse? && entries[i].note.id == entries[j].note.id
    decreases |entries|
  {
    if j > 0 {
      var rest, known := entries[1..], tools + Announced(entries[0].note);
      PairedMeans(rest, known, j - 1);
      assert rest[j - 1] == entries[j];
      if entries[j].note.ToolUse? {
        forall i | 0 <= i < j && entries[i].note.ToolUse? ensures entries[i].note.id != entries[j].note.id {
          assert i > 0 ==> rest[i - 1] == entries[i];
        }
      } else if entries[j].note.ToolResult? && entries[j].note.id !in known {
        var i :| 0 <= i < j - 1 && rest[i].note.ToolUse? && rest[i].note.id == rest[j - 1].note.id;
        assert entries[i + 1] == rest[i];
      }
    }
  }

  /** In a decoded run no tool call is announced twice and no result precedes its call. */
  lemma DecodedPaired(host: Host, messages: seq<Message>, j: nat)
    requires messages != [] && j < |Decoded(host, messages)|
    ensures var out := Decoded(host, messages);
      var use, result := BlockId(out[j], "tool_use", "id"), BlockId(out[j], "tool_result", "tool_use_id");
      && (use.Some? ==> forall i :: 0 <= i < j ==> BlockId(out[i], "tool_use", "id") != use)
      && (result.Some? ==> exists i :: 0 <= i < j && BlockId(out[i], "tool_use", "id") == result)
  {
    var entries := Flat(Emissions(host, LineEmitter(host), messages, Lines(host, messages), 0, {}));
    var out := Rendered(entries);
    forall line, tools, ts ensures LinePaired(LineEmitter(host), line, tools, ts) {
      LineEmitterPaired(host, line, tools, ts);
    }
    EmissionsPaired(host, LineEmitter(host), messages, Lines(host, messages), 0, {});
    PairedMeans(entries, {}, j);
    forall i | 0 <= i < |out|
      ensures BlockId(out[i], "tool_use", "id") == if entries[i].note.ToolUse? then Some(entries[i].note.id) else None
      ensures BlockId(out[i], "tool_result", "tool_use_id") == if entries[i].note.ToolResult? then Some(entries[i].note.id) else None
    {
      RenderIds(entries[i]);
    }
  }
}
