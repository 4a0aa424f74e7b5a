/** Loading append-only JSONL event logs into a database, resuming each file at a
    stored byte offset.

    Parsing one line is a parameter of everything below: `kind` classifies the
    bytes between two newlines, for any JSON reader. */
module Migration {
  import opened Basics

  type Byte = nat
  type Path = nat

  const NEWLINE: Byte := 10

  datatype Event = Event(workspaceId: string, payload: string)

  /** What a complete line turns out to be.  `Unstorable` is valid JSON that the
      insert statement rejects: not an object, or an object whose columns hold
      lists or objects. */
  datatype Line = Blank | Malformed | Unstorable | Stored(event: Event)

  datatype Row = Row(source: Path, event: Event)

  datatype Tables = Tables(events: seq<Row>, quarantined: seq<Row>, offsets: map<Path, nat>)

  datatype Report =
    | Raised
    | Migrated(inserted: nat, quarantined: nat, skipped: nat, truncatedTail: bool)
    | WouldInsert(count: nat, skipped: nat, truncatedTail: bool)

  // ------------------------------------------------------------------
  // Lines of a byte string
  // ------------------------------------------------------------------

  /** Split on newlines, keeping empty pieces: always at least one piece. */
  function Chunks(raw: seq<Byte>): (chunks: seq<seq<Byte>>)
    ensures |chunks| > 0
  {
    if raw == [] then [[]] else Prepend(raw[0], Chunks(raw[1..]))
  }

  function Prepend(b: Byte, chunks: seq<seq<Byte>>): (r: seq<seq<Byte>>)
    requires |chunks| > 0
    ensures |r| > 0
  {
    if b == NEWLINE then [[]] + chunks else [[b] + chunks[0]] + chunks[1..]
  }

  lemma PrependAppend(b: Byte, chunks: seq<seq<Byte>>, more: seq<seq<Byte>>)
    requires |chunks| > 0
    ensures Prepend(b, chunks + more) == Prepend(b, chunks) + more
  {
  }

  /** The newline-terminated lines, without their newlines. */
  function Lines(raw: seq<Byte>): seq<seq<Byte>> {
    var chunks := Chunks(raw);
    chunks[..|chunks| - 1]
  }

  /** What follows the last newline. */
  function Tail(raw: seq<Byte>): seq<Byte> {
    var chunks := Chunks(raw);
    chunks[|chunks| - 1]
  }

  /** Start of file or just past a newline. */
  predicate Boundary(raw: seq<Byte>, offset: nat) {
    offset <= |raw| && (offset == 0 || raw[offset - 1] == NEWLINE)
  }

  function Joined(chunks: seq<seq<Byte>>): seq<Byte> {
    if chunks == [] then [] else if |chunks| == 1 then chunks[0] else chunks[0] + [NEWLINE] + Joined(chunks[1..])
  }

  /** The split is the only one: its pieces hold no newline and rejoin to `raw`. */
  lemma {:induction false} ChunksExact(raw: seq<Byte>)
    ensures Joined(Chunks(raw)) == raw
    ensures forall i :: 0 <= i < |Chunks(raw)| ==> NEWLINE !in Chunks(raw)[i]
  {
    if raw != [] {
      ChunksExact(raw[1..]);
      PrependExact(raw[0], Chunks(raw[1..]));
      assert raw == [raw[0]] + raw[1..];
    }
  }

  lemma PrependExact(b: Byte, chunks: seq<seq<Byte>>)
    requires |chunks| > 0 && forall i :: 0 <= i < |chunks| ==> NEWLINE !in chunks[i]
    ensures Joined(Prepend(b, chunks)) == [b] + Joined(chunks)
    ensures forall i :: 0 <= i < |Prepend(b, chunks)| ==> NEWLINE !in Prepend(b, chunks)[i]
  {
    if b == NEWLINE {
      assert Prepend(b, chunks)[1..] == chunks;
    } else {
      assert Prepend(b, chunks)[1..] == chunks[1..];
    }
  }

  lemma {:induction false} ChunksAppend(a: seq<Byte>, b: seq<Byte>)
    ensures Chunks(a + [NEWLINE] + b) == Chunks(a) + Chunks(b)
  {
    var whole := a + [NEWLINE] + b;
    if a == [] {
      assert whole[1..] == b;
    } else {
      assert whole[0] == a[0] && whole[1..] == a[1..] + [NEWLINE] + b;
      ChunksAppend(a[1..], b);
      PrependAppend(a[0], Chunks(a[1..]), Chunks(b));
    }
  }

  /** Reading in two parts at a line boundary is reading at once. */
  lemma SplitAtBoundary(raw: seq<Byte>, offset: nat)
    requires Boundary(raw, offset)
    ensures Lines(raw) == Lines(raw[..offset]) + Lines(raw[offset..])
    ensures Tail(raw) == Tail(raw[offset..]) && Tail(raw[..offset]) == []
  {
    var b := raw[offset..];
    if offset == 0 {
      assert raw == b;
    } else {
      var a := raw[..offset - 1];
      assert raw == a + [NEWLINE] + b;
      assert raw[..offset] == a + [NEWLINE] + [];
      ChunksAppend(a, b);
      ChunksAppend(a, []);
      assert Chunks([]) == [[]];
    }
  }

  lemma {:induction false} OneChunk(raw: seq<Byte>)
    requires NEWLINE !in raw
    ensures Chunks(raw) == [raw]
  {
    if raw != [] {
      OneChunk(raw[1..]);
      assert [raw[0]] + raw[1..] == raw;
    }
  }

  lemma TailFits(raw: seq<Byte>)
    ensures |Tail(raw)| <= |raw|
    ensures Boundary(raw, |raw| - |Tail(raw)|)
    ensures raw[|raw| - |Tail(raw)|..] == Tail(raw) && NEWLINE !in Tail(raw)
  {
    var k := |raw|;
    while k > 0 && raw[k - 1] != NEWLINE
      invariant 0 <= k <= |raw| && NEWLINE !in raw[k..]
    {
      k := k - 1;
    }
    OneChunk(raw[k..]);
    if k == 0 {
      assert raw[k..] == raw;
    } else {
      assert raw == raw[..k - 1] + [NEWLINE] + raw[k..];
      ChunksAppend(raw[..k - 1], raw[k..]);
    }
  }

  /** The offset just past the last complete line at or after `start`. */
  function Consumed(raw: seq<Byte>, start: nat): (next: nat)
  {
    TailFits(Rest(raw, start));
    start + |Rest(raw, start)| - |Tail(Rest(raw, start))|
  }

  /** `raw[start:]`: empty when the offset lies beyond the end. */
  function Rest(raw: seq<Byte>, start: nat): seq<Byte> {
    if start <= |raw| then raw[start..] else []
  }

  lemma ConsumedIsBoundary(raw: seq<Byte>, start: nat)
    requires Boundary(raw, start)
    ensures start <= Consumed(raw, start) && Boundary(raw, Consumed(raw, start))
    ensures Lines(raw[..Consumed(raw, start)]) == Lines(raw)
    ensures Lines(raw) == Lines(raw[..start]) + Lines(raw[start..])
  {
    var rest := raw[start..];
    TailFits(rest);
    var next := Consumed(raw, start);
    SplitAtBoundary(raw, start);
    assert Boundary(raw, next) && raw[next..] == Tail(rest) by {
      assert next > start ==> raw[next - 1] == rest[next - start - 1];
      assert raw[next..] == rest[next - start..];
    }
    DropTail(raw, next);
  }

  lemma DropTail(raw: seq<Byte>, offset: nat)
    requires Boundary(raw, offset) && NEWLINE !in raw[offset..]
    ensures Lines(raw[..offset]) == Lines(raw)
  {
    SplitAtBoundary(raw, offset);
    OneChunk(raw[offset..]);
  }

  /** Appending leaves what was already before the boundary alone. */
  lemma AppendKeepsPrefix(raw: seq<Byte>, more: seq<Byte>, offset: nat)
    requires Boundary(raw, offset)
    ensures Boundary(raw + more, offset) && (raw + more)[..offset] == raw[..offset]
  {
  }

  // ------------------------------------------------------------------
  // Loading one file
  // ------------------------------------------------------------------

  type Reader = seq<Byte> -> Line

  /** Values parsed from complete lines: stored events and unstorable values. */
  function Values(kind: Reader, lines: seq<seq<Byte>>): seq<Line> {
    if lines == [] then []
    else if kind(lines[0]).Stored? || kind(lines[0]).Unstorable? then [kind(lines[0])] + Values(kind, lines[1..])
    else Values(kind, lines[1..])
  }

  function Skipped(kind: Reader, lines: seq<seq<Byte>>): nat {
    if lines == [] then 0 else (if kind(lines[0]).Malformed? then 1 else 0) + Skipped(kind, lines[1..])
  }

  function NonBlank(kind: Reader, lines: seq<seq<Byte>>): nat {
    if lines == [] then 0 else (if kind(lines[0]).Blank? then 0 else 1) + NonBlank(kind, lines[1..])
  }

  lemma {:induction false} ValuesAdd(kind: Reader, a: seq<seq<Byte>>, b: seq<seq<Byte>>)
    ensures Values(kind, a + b) == Values(kind, a) + Values(kind, b)
  {
    if a == [] {
      assert a + b == b;
    } else {
      ValuesAdd(kind, a[1..], b);
      assert (a + b)[1..] == a[1..] + b;
    }
  }

  lemma {:induction false} CountsAdd(kind: Reader, a: seq<seq<Byte>>, b: seq<seq<Byte>>)
    ensures Skipped(kind, a + b) == Skipped(kind, a) + Skipped(kind, b)
    ensures NonBlank(kind, a + b) == NonBlank(kind, a) + NonBlank(kind, b)
  {
    if a == [] {
      assert a + b == b;
    } else {
      CountsAdd(kind, a[1..], b);
      assert (a + b)[1..] == a[1..] + b;
    }
  }

  lemma {:induction false} EveryLineCounted(kind: Reader, lines: seq<seq<Byte>>)
    ensures |Values(kind, lines)| + Skipped(kind, lines) == NonBlank(kind, lines)
  {
    if lines != [] { EveryLineCounted(kind, lines[1..]); }
  }

  function Length(lines: seq<seq<Byte>>): nat {
    if lines == [] then 0 else |lines[0]| + 1 + Length(lines[1..])
  }

  lemma {:induction false} LengthAdd(lines: seq<seq<Byte>>, line: seq<Byte>)
    ensures Length(lines + [line]) == Length(lines) + |line| + 1
  {
    if lines != [] {
      LengthAdd(lines[1..], line);
      assert (lines + [line])[1..] == lines[1..] + [line];
    }
  }

  lemma {:induction false} ChunksLength(raw: seq<Byte>)
    ensures Length(Chunks(raw)) == |raw| + 1
  {
    if raw != [] {
      ChunksLength(raw[1..]);
      var rest := Chunks(raw[1..]);
      assert ([[]] + rest)[1..] == rest;
      assert ([[raw[0]] + rest[0]] + rest[1..])[1..] == rest[1..];
    }
  }

  lemma LinesLength(raw: seq<Byte>)
    ensures Length(Lines(raw)) + |Tail(raw)| == |raw|
  {
    ChunksLength(raw);
    var chunks := Chunks(raw);
    assert chunks == Lines(raw) + [Tail(raw)];
    LengthAdd(Lines(raw), Tail(raw));
  }

  predicate IsSpace(b: Byte) {
    b == 32 || 9 <= b <= 13
  }

  predicate HasText(bytes: seq<Byte>) {
    exists i :: 0 <= i < |bytes| && !IsSpace(bytes[i])
  }

  lemma ChunksSnoc(raw: seq<Byte>, b: Byte)
    ensures Chunks(raw + [b]) == if b == NEWLINE then Chunks(raw) + [[]] else Lines(raw) + [Tail(raw) + [b]]
  {
    if b == NEWLINE {
      assert raw + [b] == raw + [NEWLINE] + [];
      ChunksAppend(raw, []);
    } else {
      TailFits(raw);
      var tail := Tail(raw);
      var k := |raw| - |tail|;
      OneChunk(tail);
      OneChunk(tail + [b]);
      if k == 0 {
        assert raw == tail;
      } else {
        var a := raw[..k - 1];
        assert raw == a + [NEWLINE] + tail;
        assert raw + [b] == a + [NEWLINE] + (tail + [b]);
        ChunksAppend(a, tail);
        ChunksAppend(a, tail + [b]);
      }
    }
  }

  /** `bytes.split(b"\n")`. */
  method Split(raw: seq<Byte>) returns (chunks: seq<seq<Byte>>)
    ensures chunks == Chunks(raw)
  {
    chunks := [];
    var piece: seq<Byte> := [];
    for i := 0 to |raw|
      invariant Chunks(raw[..i]) == chunks + [piece]
    {
      assert raw[..i + 1] == raw[..i] + [raw[i]];
      ChunksSnoc(raw[..i], raw[i]);
      if raw[i] == NEWLINE {
        chunks := chunks + [piece];
        piece := [];
      } else {
        piece := piece + [raw[i]];
      }
    }
    assert raw[..|raw|] == raw;
    chunks := chunks + [piece];
  }

  /** Parse the complete lines from `start`; a fragment without its newline is
      reported but not consumed. */
  method LoadEvents(kind: Reader, raw: seq<Byte>, start: nat)
    returns (values: seq<Line>, next: nat, truncatedTail: bool, skipped: nat)
    ensures values == Values(kind, Lines(Rest(raw, start)))
    ensures next == Consumed(raw, start)
    ensures truncatedTail <==> exists i :: 0 <= i < |Tail(Rest(raw, start))| && Tail(Rest(raw, start))[i] !in {9, 10, 11, 12, 13, 32}
    ensures skipped == Skipped(kind, Lines(Rest(raw, start)))
  {
    var remaining := Rest(raw, start);
    LinesLength(remaining);
    if remaining == [] {
      return [], start, false, 0;
    }
    var chunks := Split(remaining);
    var complete, tail := chunks[..|chunks| - 1], chunks[|chunks| - 1];
    values, skipped, next := [], 0, start;
    for i := 0 to |complete|
      invariant values == Values(kind, complete[..i])
      invariant skipped == Skipped(kind, complete[..i])
      invariant next == start + Length(complete[..i])
    {
      assert complete[..i + 1] == complete[..i] + [complete[i]];
      ValuesAdd(kind, complete[..i], [complete[i]]);
      CountsAdd(kind, complete[..i], [complete[i]]);
      LengthAdd(complete[..i], complete[i]);
      next := next + |complete[i]| + 1;
      var line := kind(complete[i]);
      match line
      case Blank =>
      case Malformed => skipped := skipped + 1;
      case Unstorable => values := values + [line];
      case Stored(_) => values := values + [line];
    }
    assert complete[..|complete|] == complete;
    truncatedTail := HasText(tail);
  }

  // ------------------------------------------------------------------
  // Migrating: what one call does to a connection
  // ------------------------------------------------------------------

  /** `working` is what this connection sees, `durable` what a commit left. */
  datatype Db = Db(working: Tables, durable: Tables)

  const EMPTY := Tables([], [], map[])

  function Offset(t: Tables, path: Path): nat {
    if path in t.offsets then t.offsets[path] else 0
  }

  function Anyone(): Event -> bool {
    (e: Event) => true
  }

  function Registered(registry: set<string>): Event -> bool {
    (e: Event) => e.workspaceId in registry
  }

  /** Inserts stop at the first unstorable value. */
  function Insert(t: Tables, path: Path, known: Event -> bool, values: seq<Line>): Tables
    decreases |values|
  {
    if values == [] || !values[0].Stored? then t
    else Insert(InsertOne(t, path, known, values[0].event), path, known, values[1..])
  }

  function InsertOne(t: Tables, path: Path, known: Event -> bool, event: Event): Tables {
    if known(event) then t.(events := t.events + [Row(path, event)])
    else t.(quarantined := t.quarantined + [Row(path, event)])
  }

  /** The stored events on one side of the registry, in order. */
  function Kept(known: Event -> bool, side: bool, values: seq<Line>): seq<Event> {
    if values == [] then []
    else if values[0].Stored? && known(values[0].event) == side then [values[0].event] + Kept(known, side, values[1..])
    else Kept(known, side, values[1..])
  }

  lemma {:induction false} KeptAdd(known: Event -> bool, side: bool, a: seq<Line>, b: seq<Line>)
    ensures Kept(known, side, a + b) == Kept(known, side, a) + Kept(known, side, b)
  {
    if a == [] {
      assert a + b == b;
    } else {
      assert (a + b)[0] == a[0] && (a + b)[1..] == a[1..] + b;
      KeptAdd(known, side, a[1..], b);
      var head := if a[0].Stored? && known(a[0].event) == side then [a[0].event] else [];
      assert Kept(known, side, a + b) == head + (Kept(known, side, a[1..]) + Kept(known, side, b));
      assert Kept(known, side, a) == head + Kept(known, side, a[1..]);
    }
  }

  /** The two sides together hold every stored event. */
  lemma {:induction false} KeptPartition(known: Event -> bool, values: seq<Line>)
    requires Storable(values)
    ensures |Kept(known, true, values)| + |Kept(known, false, values)| == |values|
  {
    if values != [] { KeptPartition(known, values[1..]); }
  }

  lemma {:induction false} EveryoneKept(values: seq<Line>)
    requires Storable(values)
    ensures |Kept(Anyone(), true, values)| == |values| && Kept(Anyone(), false, values) == []
  {
    if values != [] { EveryoneKept(values[1..]); }
  }

  predicate Storable(values: seq<Line>) {
    forall i :: 0 <= i < |values| ==> values[i].Stored?
  }

  /** One migration: rows and offset become durable together, or an unstorable
      value raises and leaves uncommitted inserts behind. */
  function Migrate(db: Db, path: Path, kind: Reader, known: Event -> bool, raw: seq<Byte>): Db
  {
    var start := Offset(db.working, path);
    var values := Values(kind, Lines(Rest(raw, start)));
    var inserted := Insert(db.working, path, known, values);
    if Storable(values) then
      var committed := inserted.(offsets := inserted.offsets[path := Consumed(raw, start)]);
      Db(committed, committed)
    else
      db.(working := inserted)
  }

  class Connection {
    var db: Db

    constructor (durable: Tables)
      ensures db == Db(durable, durable)
    {
      db := Db(durable, durable);
    }

    /** Insert parsed values in order until one is rejected. */
    method InsertRows(path: Path, known: Event -> bool, values: seq<Line>)
      returns (stored: bool, inserted: nat, quarantined: nat)
      modifies this
      ensures db == old(db).(working := Insert(old(db).working, path, known, values))
      ensures stored <==> Storable(values)
      ensures stored ==> inserted == |Kept(known, true, values)| && quarantined == |Kept(known, false, values)|
    {
      inserted, quarantined := 0, 0;
      ghost var before := db;
      for i := 0 to |values|
        invariant db.durable == before.durable
        invariant forall j :: 0 <= j < i ==> values[j].Stored?
        invariant Insert(db.working, path, known, values[i..]) == Insert(before.working, path, known, values)
        invariant inserted + |Kept(known, true, values[i..])| == |Kept(known, true, values)|
        invariant quarantined + |Kept(known, false, values[i..])| == |Kept(known, false, values)|
      {
        assert values[i..][1..] == values[i + 1..];
        if !values[i].Stored? {
          return false, inserted, quarantined;
        }
        if known(values[i].event) { inserted := inserted + 1; } else { quarantined := quarantined + 1; }
        db := db.(working := InsertOne(db.working, path, known, values[i].event));
      }
      stored := true;
    }

    method RecordOffsetAndCommit(path: Path, offset: nat)
      modifies this
      ensures var t := old(db).working.(offsets := old(db).working.offsets[path := offset]); db == Db(t, t)
    {
      db := db.(working := db.working.(offsets := db.working.offsets[path := offset]));
      db := Db(db.working, db.working);
    }

    method MigrateFile(path: Path, kind: Reader, raw: seq<Byte>, dryRun: bool) returns (report: Report)
      modifies this
      ensures dryRun ==> db == old(db)
      ensures !dryRun ==> db == Migrate(old(db), path, kind, Anyone(), raw)
      ensures var lines := Lines(Rest(raw, Offset(old(db).working, path)));
              var values := Values(kind, lines);
              report == if dryRun then WouldInsert(|values|, Skipped(kind, lines), HasText(Tail(Rest(raw, Offset(old(db).working, path)))))
                        else if Storable(values) then Migrated(|values|, 0, Skipped(kind, lines), HasText(Tail(Rest(raw, Offset(old(db).working, path)))))
                        else Raised
    {
      var start := Offset(db.working, path);
      var values, next, truncatedTail, skipped := LoadEvents(kind, raw, start);
      if dryRun {
        return WouldInsert(|values|, skipped, truncatedTail);
      }
      var stored, inserted, quarantined := InsertRows(path, Anyone(), values);
      if !stored {
        return Raised;
      }
      EveryoneKept(values);
      RecordOffsetAndCommit(path, next);
      report := Migrated(inserted, quarantined, skipped, truncatedTail);
    }

    /** Known workspaces go to `events`, the others to `quarantined_events`. */
    method MigrateFileWithRegistry(path: Path, kind: Reader, raw: seq<Byte>, registry: set<string>) returns (report: Report)
      modifies this
      ensures db == Migrate(old(db), path, kind, Registered(registry), raw)
      ensures var lines := Lines(Rest(raw, Offset(old(db).working, path)));
              var values := Values(kind, lines);
              report == if Storable(values)
                        then Migrated(|Kept(Registered(registry), true, values)|, |Kept(Registered(registry), false, values)|,
                                      Skipped(kind, lines), HasText(Tail(Rest(raw, Offset(old(db).working, path)))))
                        else Raised
    {
      var start := Offset(db.working, path);
      var values, next, truncatedTail, skipped := LoadEvents(kind, raw, start);
      var stored, inserted, quarantined := InsertRows(path, Registered(registry), values);
      if !stored {
        return Raised;
      }
      RecordOffsetAndCommit(path, next);
      report := Migrated(inserted, quarantined, skipped, truncatedTail);
    }

    /** Closing or losing the connection rolls uncommitted work back. */
    method Close()
      modifies this
      ensures db == Db(old(db).durable, old(db).durable)
    {
      db := Db(db.durable, db.durable);
    }
  }

  // ------------------------------------------------------------------
  // Whole histories of appends, migrations, dry runs and crashes
  // ------------------------------------------------------------------

  /** `None`: a migration without a registry, which knows every workspace. */
  type Registry = Option<set<string>>

  function Known(registry: Registry): Event -> bool {
    if registry.None? then Anyone() else Registered(registry.value)
  }

  /** What the committed runs over one file have said: for each value they consumed, whether
      its workspace was known to the run that consumed it, and the sums of their reports. */
  datatype Ledger = Ledger(labels: seq<bool>, inserted: nat, quarantined: nat, skipped: nat)

  datatype World = World(files: map<Path, seq<Byte>>, db: Db, ledgers: map<Path, Ledger>)

  datatype Op =
    | Append(path: Path, bytes: seq<Byte>)
    | Run(path: Path, registry: Registry)
    | DryRun(path: Path)
    | Close                       // also a crash at any point before the commit

  function File(w: World, path: Path): seq<Byte> {
    if path in w.files then w.files[path] else []
  }

  function LedgerOf(w: World, path: Path): Ledger {
    if path in w.ledgers then w.ledgers[path] else Ledger([], 0, 0, 0)
  }

  /** Complete lines from the stored offset on. */
  function Due(w: World, path: Path): seq<seq<Byte>> {
    Lines(Rest(File(w, path), Offset(w.db.working, path)))
  }

  function Labels(known: Event -> bool, values: seq<Line>): seq<bool> {
    seq(|values|, i requires 0 <= i < |values| => values[i].Stored? && known(values[i].event))
  }

  /** What a committed run adds to the ledger: its labels and the report it returns. */
  function Booked(l: Ledger, known: Event -> bool, values: seq<Line>, skipped: nat): Ledger {
    Ledger(l.labels + Labels(known, values), l.inserted + |Kept(known, true, values)|,
           l.quarantined + |Kept(known, false, values)|, l.skipped + skipped)
  }

  function Step(w: World, op: Op, kind: Reader): World {
    match op
    case Append(path, bytes) => w.(files := w.files[path := File(w, path) + bytes])
    case Run(path, registry) =>
      var values := Values(kind, Due(w, path));
      if path !in w.files then w       // reading a missing file raises first
      else World(w.files, Migrate(w.db, path, kind, Known(registry), File(w, path)),
            if Storable(values)
            then w.ledgers[path := Booked(LedgerOf(w, path), Known(registry), values, Skipped(kind, Due(w, path)))]
            else w.ledgers)
    case DryRun(_) => w
    case Close => w.(db := Db(w.db.durable, w.db.durable))
  }

  predicate Clean(w: World) {
    w.db.working == w.db.durable
  }

  function After(w: World, ops: seq<Op>, kind: Reader): World
    decreases |ops|
  {
    if ops == [] then w else After(Step(w, ops[0], kind), ops[1..], kind)
  }

  /** A connection on which a migration raised is closed before it is used again. */
  predicate Disciplined(w: World, ops: seq<Op>, kind: Reader)
    decreases |ops|
  {
    ops == [] || ((ops[0].Run? ==> Clean(w)) && Disciplined(Step(w, ops[0], kind), ops[1..], kind))
  }

  const START := World(map[], Db(EMPTY, EMPTY), map[])

  function RowsOf(rows: seq<Row>, path: Path): seq<Event> {
    if rows == [] then []
    else if rows[0].source == path then [rows[0].event] + RowsOf(rows[1..], path)
    else RowsOf(rows[1..], path)
  }

  lemma {:induction false} RowsOfSnoc(rows: seq<Row>, row: Row, path: Path)
    ensures RowsOf(rows + [row], path) == RowsOf(rows, path) + (if row.source == path then [row.event] else [])
  {
    if rows != [] {
      RowsOfSnoc(rows[1..], row, path);
      assert (rows + [row])[1..] == rows[1..] + [row];
    }
  }

  function StoredPrefix(values: seq<Line>): seq<Line> {
    if values == [] || !values[0].Stored? then [] else [values[0]] + StoredPrefix(values[1..])
  }

  lemma StoredPrefixWhole(values: seq<Line>)
    requires Storable(values)
    ensures StoredPrefix(values) == values
  {
  }

  function On(side: bool, t: Tables): seq<Row> {
    if side then t.events else t.quarantined
  }

  lemma InsertOneRowsOf(t: Tables, path: Path, known: Event -> bool, event: Event, other: Path, side: bool)
    ensures RowsOf(On(side, InsertOne(t, path, known, event)), other)
            == RowsOf(On(side, t), other) + (if other == path && known(event) == side then [event] else [])
  {
    RowsOfSnoc(On(side, t), Row(path, event), other);
  }

  lemma {:induction false} InsertRowsOf(t: Tables, path: Path, known: Event -> bool, values: seq<Line>, other: Path, side: bool)
    ensures Insert(t, path, known, values).offsets == t.offsets
    ensures RowsOf(On(side, Insert(t, path, known, values)), other)
            == RowsOf(On(side, t), other) + (if other == path then Kept(known, side, StoredPrefix(values)) else [])
    decreases |values|
  {
    if values != [] && values[0].Stored? {
      InsertOneRowsOf(t, path, known, values[0].event, other, side);
      InsertRowsOf(InsertOne(t, path, known, values[0].event), path, known, values[1..], other, side);
      assert StoredPrefix(values)[1..] == StoredPrefix(values[1..]);
    }
  }

  // ------------------------------------------------------------------
  // One labelling, two sides
  // ------------------------------------------------------------------

  /** The events labelled `side`, in order. */
  function Side(side: bool, labels: seq<bool>, values: seq<Line>): seq<Event>
    requires |labels| == |values|
  {
    if values == [] then []
    else (if values[0].Stored? && labels[0] == side then [values[0].event] else []) + Side(side, labels[1..], values[1..])
  }

  lemma {:induction false} SideAdd(side: bool, k: seq<bool>, l: seq<bool>, a: seq<Line>, b: seq<Line>)
    requires |k| == |a| && |l| == |b|
    ensures Side(side, k + l, a + b) == Side(side, k, a) + Side(side, l, b)
    decreases |a|
  {
    if a == [] {
      assert k + l == l && a + b == b;
    } else {
      assert (a + b)[1..] == a[1..] + b && (k + l)[1..] == k[1..] + l;
      SideAdd(side, k[1..], l, a[1..], b);
    }
  }

  lemma {:induction false} KeptIsSide(known: Event -> bool, side: bool, values: seq<Line>)
    ensures Kept(known, side, values) == Side(side, Labels(known, values), values)
  {
    if values != [] {
      assert Labels(known, values)[1..] == Labels(known, values[1..]);
      KeptIsSide(known, side, values[1..]);
    }
  }

  lemma {:induction false} SideHolds(labels: seq<bool>, values: seq<Line>, i: nat)
    requires |labels| == |values| && i < |values| && values[i].Stored?
    ensures values[i].event in Side(labels[i], labels, values)
  {
    if i > 0 {
      SideHolds(labels[1..], values[1..], i - 1);
      var rest := Side(labels[i], labels[1..], values[1..]);
      assert values[i].event in rest;
    }
  }

  lemma {:induction false} KeptOnItsSide(known: Event -> bool, side: bool, values: seq<Line>)
    ensures forall e :: e in Kept(known, side, values) ==> known(e) == side
  {
    if values != [] { KeptOnItsSide(known, side, values[1..]); }
  }

  /** The two tables give the labelling away, up to what a registry can tell apart. */
  lemma SidesDecideLabels(known: Event -> bool, labels: seq<bool>, values: seq<Line>)
    requires |labels| == |values| && Storable(values)
    ensures Side(true, labels, values) == Kept(known, true, values) && Side(false, labels, values) == Kept(known, false, values)
            <==> labels == Labels(known, values)
  {
    KeptIsSide(known, true, values);
    KeptIsSide(known, false, values);
    if i :| 0 <= i < |values| && labels[i] != Labels(known, values)[i] {
      SideHolds(labels, values, i);
      KeptOnItsSide(known, true, values);
      KeptOnItsSide(known, false, values);
    }
  }

  // ------------------------------------------------------------------
  // What every history keeps
  // ------------------------------------------------------------------

  /** The rows of `path` on one side, and the count reported for it, are what the ledger's
      labels put there, in order and once each. */
  predicate SideExact(rows: seq<Row>, count: nat, side: bool, path: Path, labels: seq<bool>, values: seq<Line>)
    requires |labels| == |values|
  {
    RowsOf(rows, path) == Side(side, labels, values) && count == |Side(side, labels, values)|
  }

  /** The offset of `path` is a line boundary.  Its rows are the events of the complete lines
      before it, each on the side where the run that consumed it put it; and what was
      reported inserted, quarantined and skipped adds up to the non-blank lines. */
  ghost predicate Exact(w: World, path: Path, kind: Reader) {
    var offset, l, t := Offset(w.db.durable, path), LedgerOf(w, path), w.db.durable;
    && Boundary(File(w, path), offset)
    && var lines := Lines(File(w, path)[..offset]); var values := Values(kind, lines);
       && Storable(values) && |l.labels| == |values|
       && SideExact(t.events, l.inserted, true, path, l.labels, values)
       && SideExact(t.quarantined, l.quarantined, false, path, l.labels, values)
       && l.inserted + l.quarantined + l.skipped == NonBlank(kind, lines)
  }

  lemma AppendKeepsExact(w: World, op: Op, path: Path, kind: Reader)
    requires Exact(w, path, kind) && op.Append?
    ensures Exact(Step(w, op, kind), path, kind)
  {
    AppendKeepsPrefix(File(w, op.path), op.bytes, if op.path == path then Offset(w.db.durable, path) else 0);
  }

  lemma SideGrows(t: Tables, path: Path, known: Event -> bool, count: nat, side: bool, labels: seq<bool>, head: seq<Line>, due: seq<Line>)
    requires |labels| == |head| && Storable(due) && SideExact(On(side, t), count, side, path, labels, head)
    ensures SideExact(On(side, Insert(t, path, known, due)), count + |Kept(known, side, due)|, side, path,
                      labels + Labels(known, due), head + due)
  {
    StoredPrefixWhole(due);
    InsertRowsOf(t, path, known, due, path, side);
    KeptIsSide(known, side, due);
    SideAdd(side, labels, Labels(known, due), head, due);
  }

  predicate SameRows(t: Tables, u: Tables, path: Path) {
    && Offset(u, path) == Offset(t, path)
    && RowsOf(u.events, path) == RowsOf(t.events, path)
    && RowsOf(u.quarantined, path) == RowsOf(t.quarantined, path)
  }

  /** The commit of one file's run makes durable whatever the connection held of another's. */
  lemma CommitElsewhere(w: World, source: Path, registry: Registry, path: Path, kind: Reader)
    requires source != path && source in w.files && Storable(Values(kind, Due(w, source)))
    ensures var u := Step(w, Run(source, registry), kind);
      SameRows(w.db.working, u.db.durable, path) && File(u, path) == File(w, path) && LedgerOf(u, path) == LedgerOf(w, path)
  {
    InsertRowsOf(w.db.working, source, Known(registry), Values(kind, Due(w, source)), path, true);
    InsertRowsOf(w.db.working, source, Known(registry), Values(kind, Due(w, source)), path, false);
  }

  lemma RunElsewhere(w: World, source: Path, registry: Registry, path: Path, kind: Reader)
    requires Clean(w) && source != path
    ensures var u := Step(w, Run(source, registry), kind);
      SameRows(w.db.durable, u.db.durable, path) && File(u, path) == File(w, path) && LedgerOf(u, path) == LedgerOf(w, path)
  {
    if source in w.files && Storable(Values(kind, Due(w, source))) { CommitElsewhere(w, source, registry, path, kind); }
  }

  lemma RunHere(w: World, registry: Registry, path: Path, kind: Reader)
    requires Exact(w, path, kind) && Clean(w)
    ensures Exact(Step(w, Run(path, registry), kind), path, kind)
  {
    var due := Values(kind, Due(w, path));
    if path in w.files && Storable(due) {
      var l, known, t := LedgerOf(w, path), Known(registry), w.db.working;
      var raw, start := File(w, path), Offset(t, path);
      var head := Values(kind, Lines(raw[..start]));
      LinesJoin(raw, start, kind);
      StoredJoin(head, due);
      SideGrows(t, path, known, l.inserted, true, l.labels, head, due);
      SideGrows(t, path, known, l.quarantined, false, l.labels, head, due);
      InsertRowsOf(t, path, known, due, path, true);
      KeptPartition(known, due);
      var u := Step(w, Run(path, registry), kind);
      assert u.db.durable.events == Insert(t, path, known, due).events;
      assert LedgerOf(u, path) == Booked(l, known, due, Skipped(kind, Due(w, path)));
    }
  }

  lemma StoredJoin(a: seq<Line>, b: seq<Line>)
    requires Storable(a) && Storable(b)
    ensures Storable(a + b)
  {
  }

  /** What the lines before an offset and the lines due after it add up to. */
  lemma LinesJoin(raw: seq<Byte>, start: nat, kind: Reader)
    requires Boundary(raw, start)
    ensures var next := Consumed(raw, start);
            var head, due := Values(kind, Lines(raw[..start])), Values(kind, Lines(raw[start..]));
            && Boundary(raw, next)
            && Values(kind, Lines(raw[..next])) == head + due
            && NonBlank(kind, Lines(raw[..next])) == NonBlank(kind, Lines(raw[..start])) + |due| + Skipped(kind, Lines(raw[start..]))
  {
    ConsumedIsBoundary(raw, start);
    var a, b := Lines(raw[..start]), Lines(raw[start..]);
    ValuesAdd(kind, a, b);
    CountsAdd(kind, a, b);
    EveryLineCounted(kind, b);
  }

  lemma RunKeepsExact(w: World, op: Op, path: Path, kind: Reader)
    requires Exact(w, path, kind) && Clean(w) && op.Run?
    ensures Exact(Step(w, op, kind), path, kind)
  {
    if op.path == path { RunHere(w, op.registry, path, kind); } else { RunElsewhere(w, op.path, op.registry, path, kind); }
  }

  /** Every run of a history may come with a registry of its own. */
  lemma {:induction false} HistoryKeepsExact(w: World, ops: seq<Op>, path: Path, kind: Reader)
    requires Exact(w, path, kind) && Disciplined(w, ops, kind)
    ensures Exact(After(w, ops, kind), path, kind)
    decreases |ops|
  {
    if ops != [] {
      match ops[0] {
        case Append(_, _) => AppendKeepsExact(w, ops[0], path, kind);
        case Run(_, _) => RunKeepsExact(w, ops[0], path, kind);
        case _ =>
      }
      HistoryKeepsExact(Step(w, ops[0], kind), ops[1..], path, kind);
    }
  }

  lemma StartExact(path: Path, kind: Reader)
    ensures Exact(START, path, kind)
  {
    assert Chunks([]) == [[]];
  }

  /** The values of `path` consumed so far. */
  function ConsumedValues(w: World, path: Path, kind: Reader): seq<Line>
    requires Offset(w.db.durable, path) <= |File(w, path)|
  {
    Values(kind, Lines(File(w, path)[..Offset(w.db.durable, path)]))
  }

  /** The rows a run over all of `raw` leaves in empty tables. */
  lemma BatchRows(path: Path, kind: Reader, registry: Registry, raw: seq<Byte>)
    requires Storable(Values(kind, Lines(raw)))
    ensures var batch := Migrate(Db(EMPTY, EMPTY), path, kind, Known(registry), raw).durable;
            && RowsOf(batch.events, path) == Kept(Known(registry), true, Values(kind, Lines(raw)))
            && RowsOf(batch.quarantined, path) == Kept(Known(registry), false, Values(kind, Lines(raw)))
            && Offset(batch, path) == Consumed(raw, 0)
  {
    var values := Values(kind, Lines(raw));
    assert Rest(raw, 0) == raw;
    StoredPrefixWhole(values);
    InsertRowsOf(EMPTY, path, Known(registry), values, path, true);
    InsertRowsOf(EMPTY, path, Known(registry), values, path, false);
  }

  /** The rows a last run leaves: what the earlier runs put where, then its own. */
  lemma LastRows(w: World, path: Path, kind: Reader, registry: Registry)
    requires Exact(w, path, kind) && Clean(w) && path in w.files && Storable(Values(kind, Due(w, path)))
    ensures var last := Step(w, Run(path, registry), kind).db.durable;
            var labels, head, due := LedgerOf(w, path).labels, ConsumedValues(w, path, kind), Values(kind, Due(w, path));
            && RowsOf(last.events, path) == Side(true, labels, head) + Kept(Known(registry), true, due)
            && RowsOf(last.quarantined, path) == Side(false, labels, head) + Kept(Known(registry), false, due)
            && Offset(last, path) == Consumed(File(w, path), Offset(w.db.durable, path))
  {
    var due := Values(kind, Due(w, path));
    StoredPrefixWhole(due);
    InsertRowsOf(w.db.working, path, Known(registry), due, path, true);
    InsertRowsOf(w.db.working, path, Known(registry), due, path, false);
  }

  /** However the file grew and was migrated, dry-run or interrupted in pieces, under whatever
      registries, a last run brings the offset where one run over the final file brings it;
      and it leaves the same rows if and only if every line consumed before had been put
      where the last registry puts it. */
  lemma IncrementalEqualsBatch(ops: seq<Op>, path: Path, kind: Reader, registry: Registry)
    requires Disciplined(START, ops, kind) && Clean(After(START, ops, kind)) && path in After(START, ops, kind).files
    requires Storable(Values(kind, Lines(File(After(START, ops, kind), path))))
    ensures var w := After(START, ops, kind);
            var last := Step(w, Run(path, registry), kind).db.durable;
            var batch := Migrate(Db(EMPTY, EMPTY), path, kind, Known(registry), File(w, path)).durable;
            && Offset(last, path) == Offset(batch, path) && Exact(w, path, kind)
            && (RowsOf(last.events, path) == RowsOf(batch.events, path) && RowsOf(last.quarantined, path) == RowsOf(batch.quarantined, path)
                <==> LedgerOf(w, path).labels == Labels(Known(registry), ConsumedValues(w, path, kind)))
  {
    StartExact(path, kind);
    HistoryKeepsExact(START, ops, path, kind);
    var w, known := After(START, ops, kind), Known(registry);
    var raw, start, labels := File(w, path), Offset(w.db.durable, path), LedgerOf(w, path).labels;
    var head, due := Values(kind, Lines(raw[..start])), Values(kind, Lines(raw[start..]));
    SplitAtBoundary(raw, start);
    ValuesAdd(kind, Lines(raw[..start]), Lines(raw[start..]));
    SuffixStorable(head, due);
    LastRows(w, path, kind, registry);
    BatchRows(path, kind, registry, raw);
    KeptAdd(known, true, head, due);
    KeptAdd(known, false, head, due);
    Cancels(Side(true, labels, head), Kept(known, true, head), Kept(known, true, due));
    Cancels(Side(false, labels, head), Kept(known, false, head), Kept(known, false, due));
    SidesDecideLabels(known, labels, head);
  }

  lemma Cancels(a: seq<Event>, b: seq<Event>, c: seq<Event>)
    ensures a + c == b + c <==> a == b
  {
    if a + c == b + c {
      assert a == (a + c)[..|a|] && b == (b + c)[..|b|];
    }
  }

  lemma SuffixStorable(a: seq<Line>, b: seq<Line>)
    requires Storable(a + b)
    ensures Storable(b)
  {
    forall i | 0 <= i < |b| ensures b[i].Stored? {
      assert (a + b)[|a| + i] == b[i];
    }
  }

  /** Every run over `path` comes with the same registry. */
  predicate OneRegistry(ops: seq<Op>, path: Path, registry: Registry) {
    forall i :: 0 <= i < |ops| && ops[i].Run? && ops[i].path == path ==> ops[i].registry == registry
  }

  ghost predicate LabelledBy(w: World, path: Path, kind: Reader, registry: Registry) {
    Exact(w, path, kind) && LedgerOf(w, path).labels == Labels(Known(registry), ConsumedValues(w, path, kind))
  }

  /** Then every line was put where that registry puts it, and increments equal the batch. */
  lemma {:induction false} OneRegistryLabels(w: World, ops: seq<Op>, path: Path, kind: Reader, registry: Registry)
    requires LabelledBy(w, path, kind, registry) && Disciplined(w, ops, kind) && OneRegistry(ops, path, registry)
    ensures LabelledBy(After(w, ops, kind), path, kind, registry)
    decreases |ops|
  {
    if ops != [] {
      var u := Step(w, ops[0], kind);
      match ops[0] {
        case Append(_, _) =>
          AppendKeepsExact(w, ops[0], path, kind);
          AppendKeepsPrefix(File(w, ops[0].path), ops[0].bytes, if ops[0].path == path then Offset(w.db.durable, path) else 0);
        case Run(source, _) =>
          RunKeepsExact(w, ops[0], path, kind);
          if source == path { RunLabels(w, path, kind, registry); } else { RunElsewhere(w, source, ops[0].registry, path, kind); }
        case _ =>
      }
      OneRegistryLabels(u, ops[1..], path, kind, registry);
    }
  }

  lemma RunLabels(w: World, path: Path, kind: Reader, registry: Registry)
    requires LabelledBy(w, path, kind, registry) && Clean(w)
    ensures LabelledBy(Step(w, Run(path, registry), kind), path, kind, registry)
  {
    RunHere(w, registry, path, kind);
    var due := Values(kind, Due(w, path));
    if path in w.files && Storable(due) {
      LastRows(w, path, kind, registry);
      LinesJoin(File(w, path), Offset(w.db.durable, path), kind);
      var u := Step(w, Run(path, registry), kind);
      assert ConsumedValues(u, path, kind) == ConsumedValues(w, path, kind) + due;
      assert LedgerOf(u, path).labels == LedgerOf(w, path).labels + Labels(Known(registry), due);
      LabelsAdd(Known(registry), ConsumedValues(w, path, kind), due);
    }
  }

  lemma LabelsAdd(known: Event -> bool, a: seq<Line>, b: seq<Line>)
    ensures Labels(known, a + b) == Labels(known, a) + Labels(known, b)
  {
  }

  /** The parsed events whose workspace is, or is not, in the registry, as rows of `path`. */
  function Chosen(path: Path, registry: set<string>, inside: bool, values: seq<Line>): seq<Row> {
    if values == [] then []
    else
      (if values[0].Stored? && (values[0].event.workspaceId in registry) == inside then [Row(path, values[0].event)] else [])
      + Chosen(path, registry, inside, values[1..])
  }

  lemma {:induction false} ChosenFrom(path: Path, registry: set<string>, inside: bool, values: seq<Line>)
    ensures forall r :: r in Chosen(path, registry, inside, values) ==>
      r.source == path && Stored(r.event) in values && (inside <==> r.event.workspaceId in registry)
  {
    if values != [] {
      ChosenFrom(path, registry, inside, values[1..]);
      assert values == [values[0]] + values[1..];
    }
  }

  lemma {:induction false} InsertChooses(t: Tables, path: Path, registry: set<string>, values: seq<Line>)
    requires Storable(values)
    ensures var u := Insert(t, path, Registered(registry), values);
      && u.events == t.events + Chosen(path, registry, true, values)
      && u.quarantined == t.quarantined + Chosen(path, registry, false, values)
    decreases |values|
  {
    if values != [] {
      InsertChooses(InsertOne(t, path, Registered(registry), values[0].event), path, registry, values[1..]);
    }
  }

  lemma {:induction false} InsertAll(t: Tables, path: Path, values: seq<Line>)
    requires Storable(values)
    ensures var u := Insert(t, path, Anyone(), values);
      u.quarantined == t.quarantined && |u.events| == |t.events| + |values| && u.events[..|t.events|] == t.events
      && forall i :: 0 <= i < |values| ==> u.events[|t.events| + i] == Row(path, values[i].event)
    decreases |values|
  {
    if values != [] {
      var mid := InsertOne(t, path, Anyone(), values[0].event);
      InsertAll(mid, path, values[1..]);
      var u := Insert(t, path, Anyone(), values);
      assert u.events[..|t.events|] == u.events[..|mid.events|][..|t.events|];
      forall i | 0 <= i < |values| ensures u.events[|t.events| + i] == Row(path, values[i].event) {
        if i == 0 {
          assert u.events[..|mid.events|][|t.events|] == mid.events[|t.events|];
        } else {
          assert u.events[|mid.events| + (i - 1)] == Row(path, values[1..][i - 1].event);
        }
      }
    }
  }

  /**
   * Which table an event goes to: a committed run with a registry adds to `events` exactly the parsed events
   * whose workspace is in the registry, to `quarantined` exactly the others, both in order; without
   * a registry all go to `events`.
   */
  lemma RegistryDecides(db: Db, path: Path, kind: Reader, registry: Registry, raw: seq<Byte>)
    requires Storable(Values(kind, Lines(Rest(raw, Offset(db.working, path)))))
    ensures var values := Values(kind, Lines(Rest(raw, Offset(db.working, path))));
      var t, u := db.working, Migrate(db, path, kind, Known(registry), raw).durable;
      if registry.Some? then
        && u.events == t.events + Chosen(path, registry.value, true, values)
        && u.quarantined == t.quarantined + Chosen(path, registry.value, false, values)
        && (forall r :: r in Chosen(path, registry.value, true, values) ==> r.event.workspaceId in registry.value)
        && (forall r :: r in Chosen(path, registry.value, false, values) ==> r.event.workspaceId !in registry.value)
      else
        && u.quarantined == t.quarantined && |u.events| == |t.events| + |values| && u.events[..|t.events|] == t.events
        && forall i :: 0 <= i < |values| ==> u.events[|t.events| + i] == Row(path, values[i].event)
  {
    var values := Values(kind, Lines(Rest(raw, Offset(db.working, path))));
    if registry.Some? {
      InsertChooses(db.working, path, registry.value, values);
      ChosenFrom(path, registry.value, true, values);
      ChosenFrom(path, registry.value, false, values);
    } else {
      InsertAll(db.working, path, values);
    }
  }

  // ------------------------------------------------------------------
  // Where the promises end
  // ------------------------------------------------------------------

  /** A workspace registered between two runs: its earlier events stay quarantined, where a
      single run over the same file would have inserted them. */
  lemma LateRegistrationSplits(path: Path, kind: Reader, line: seq<Byte>, event: Event)
    requires NEWLINE !in line && kind(line) == Stored(event)
    ensures var raw := line + [NEWLINE]; var late := Some({event.workspaceId});
            var w := After(START, [Append(path, raw), Run(path, Some({}))], kind);
            var last := Step(w, Run(path, late), kind).db.durable;
            var batch := Migrate(Db(EMPTY, EMPTY), path, kind, Known(late), raw).durable;
            && RowsOf(last.events, path) == [] && RowsOf(last.quarantined, path) == [event]
            && RowsOf(batch.events, path) == [event] && RowsOf(batch.quarantined, path) == []
  {
    var raw, late, nobody := line + [NEWLINE], Some({event.workspaceId}), Some({});
    var ops := [Append(path, raw), Run(path, nobody)];
    LineAlone(line);
    assert Values(kind, [line]) == [Stored(event)];
    BatchRows(path, kind, late, raw);
    StartExact(path, kind);
    var u := Step(START, ops[0], kind);
    AppendKeepsExact(START, ops[0], path, kind);
    assert File(u, path) == raw && Rest(raw, 0) == raw && raw[..0] == [] && Chunks([]) == [[]];
    LastRows(u, path, kind, nobody);
    var w := Step(u, ops[1], kind);
    RunHere(u, nobody, path, kind);
    assert ops[1..] == [ops[1]] && [ops[1]][1..] == [];
    assert After(START, ops, kind) == After(u, [ops[1]], kind) == After(w, [], kind);
    assert Offset(w.db.durable, path) == |raw| && raw[|raw|..] == [];
    LastRows(w, path, kind, late);
  }

  lemma LineAlone(line: seq<Byte>)
    requires NEWLINE !in line
    ensures Lines(line + [NEWLINE]) == [line] && Tail(line + [NEWLINE]) == []
  {
    assert line + [NEWLINE] == line + [NEWLINE] + [];
    ChunksAppend(line, []);
    OneChunk(line);
    assert Chunks([]) == [[]];
  }

  /** A run takes in every complete line there is if and only if all of them can be stored. */
  lemma RunCompletesExactly(w: World, path: Path, registry: Registry, kind: Reader)
    requires Exact(w, path, kind) && Clean(w) && path in w.files
    ensures Offset(Step(w, Run(path, registry), kind).db.durable, path) == Consumed(File(w, path), Offset(w.db.durable, path))
            <==> Storable(Values(kind, Due(w, path)))
  {
    var rest := Rest(File(w, path), Offset(w.db.durable, path));
    LinesLength(rest);
    InsertRowsOf(w.db.working, path, Known(registry), Values(kind, Due(w, path)), path, true);
  }

  /** One unstorable line at or after the offset stops the file for good: no later
      append, run or restart moves its offset or adds one of its rows. */
  lemma {:induction false} UnstorableLineWedges(w: World, ops: seq<Op>, path: Path, kind: Reader)
    requires Wedged(w, path, kind) && Disciplined(w, ops, kind)
    ensures SameRows(w.db.durable, After(w, ops, kind).db.durable, path)
    decreases |ops|
  {
    if ops != [] {
      StepWedged(w, ops[0], path, kind);
      UnstorableLineWedges(Step(w, ops[0], kind), ops[1..], path, kind);
    }
  }

  ghost predicate Wedged(w: World, path: Path, kind: Reader) {
    Exact(w, path, kind) && !Storable(Values(kind, Lines(File(w, path)[Offset(w.db.durable, path)..])))
  }

  lemma StepWedged(w: World, op: Op, path: Path, kind: Reader)
    requires Wedged(w, path, kind) && (op.Run? ==> Clean(w))
    ensures Wedged(Step(w, op, kind), path, kind) && SameRows(w.db.durable, Step(w, op, kind).db.durable, path)
  {
    match op
    case Append(p, bytes) =>
      AppendKeepsExact(w, op, path, kind);
      if p == path { MoreBytesStillUnstorable(w, bytes, path, kind); }
    case Run(source, registry) =>
      RunKeepsExact(w, op, path, kind);
      if source != path { RunElsewhere(w, source, registry, path, kind); }
    case _ =>
  }

  lemma MoreBytesStillUnstorable(w: World, bytes: seq<Byte>, path: Path, kind: Reader)
    requires Boundary(File(w, path), Offset(w.db.durable, path))
    requires !Storable(Values(kind, Lines(File(w, path)[Offset(w.db.durable, path)..])))
    ensures !Storable(Values(kind, Lines((File(w, path) + bytes)[Offset(w.db.durable, path)..])))
  {
    var rest := File(w, path)[Offset(w.db.durable, path)..];
    assert (File(w, path) + bytes)[Offset(w.db.durable, path)..] == rest + bytes;
    TailFits(rest);
    var k := |rest| - |Tail(rest)|;
    DropTail(rest, k);
    AppendKeepsPrefix(rest, bytes, k);
    SplitAtBoundary(rest + bytes, k);
    ValuesAdd(kind, Lines(rest), Lines((rest + bytes)[k..]));
    var values := Values(kind, Lines(rest));
    var i :| 0 <= i < |values| && !values[i].Stored?;
    assert Values(kind, Lines(rest + bytes))[i] == values[i];
  }

  /** Without the close, another file's commit makes the half-inserted rows of the
      file that raised durable, although its offset has not moved: the tables stay
      exact precisely when nothing had been inserted before the unstorable value. */
  lemma SharedCommitDuplicates(w: World, path: Path, here: Registry, other: Path, there: Registry, kind: Reader)
    requires Exact(w, path, kind) && Clean(w) && path != other
    requires path in w.files && other in w.files
    requires !Storable(Values(kind, Due(w, path))) && Storable(Values(kind, Due(w, other)))
    ensures var u := Step(Step(w, Run(path, here), kind), Run(other, there), kind);
            Exact(u, path, kind) <==> StoredPrefix(Values(kind, Due(w, path))) == []
  {
    var values := Values(kind, Due(w, path));
    var t := Step(w, Run(path, here), kind);
    var u := Step(t, Run(other, there), kind);
    InsertRowsOf(w.db.working, path, Known(here), values, path, true);
    InsertRowsOf(w.db.working, path, Known(here), values, path, false);
    assert Due(t, other) == Due(w, other);
    CommitElsewhere(t, other, there, path, kind);
    assert Offset(u.db.durable, path) == Offset(w.db.durable, path) && File(u, path) == File(w, path);
    StoredPrefixStorable(values);
    SomethingKept(Known(here), StoredPrefix(values));
  }

  lemma SomethingKept(known: Event -> bool, values: seq<Line>)
    requires Storable(values)
    ensures values == [] <==> Kept(known, true, values) == [] && Kept(known, false, values) == []
  {
    KeptPartition(known, values);
  }

  lemma StoredPrefixStorable(values: seq<Line>)
    ensures Storable(StoredPrefix(values))
  {
  }
}
