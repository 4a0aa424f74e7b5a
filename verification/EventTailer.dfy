/**
 * Live tailing of Codex wire text: chunks of a line-oriented JSON stream are reassembled into records
 * whatever way the transport cut them.
 */
module EventTailer {
  import opened Basics
  import opened Json

  /** What a line amounts to; timestamps are left aside. */
  datatype Action = Wire(event: Object) | Text(value: string) | Fault

  predicate StartsWith(s: string, prefix: string) {
    prefix <= s
  }

  predicate IsWireEvent(event: Object) {
    var kind := Get(event, "type");
    kind.Str? &&
    (StartsWith(kind.s, "thread.") || StartsWith(kind.s, "turn.") || StartsWith(kind.s, "item.") || kind.s == "error")
  }

  /** A line that is JSON but no object makes the source fail. */
  function LineActions(value: Parser, line: string): seq<Action> {
    var text := Strip(line);
    if text == "" then []
    else
      match Loads(value, text)
      case None => [Text(text)]
      case Some(Obj(fields)) => [if IsWireEvent(fields) then Wire(fields) else Text(text)]
      case Some(_) => [Fault]
  }

  /** The place of the first newline, or the length. */
  function NewLine(s: string): (n: nat)
    ensures n <= |s|
    ensures n < |s| ==> s[n] == '\n'
  {
    if s == "" || s[0] == '\n' then 0 else 1 + NewLine(s[1..])
  }

  /** What becomes of a line. */
  type Actor = string -> seq<Action>

  function LineActor(value: Parser): Actor {
    line => LineActions(value, line)
  }

  /** Takes complete lines off a buffer, adding to `done`; what is left has none, unless a line failed. */
  function Taken(act: Actor, done: seq<Action>, buffer: string): (seq<Action>, string)
    decreases |buffer|
  {
    var n := NewLine(buffer);
    if n == |buffer| then (done, buffer)
    else
      var actions, rest := act(buffer[..n]), buffer[n + 1..];
      if actions == [Fault] then (done + actions, rest) else Taken(act, done + actions, rest)
  }

  const OPENING := "{\"type\""

  /** The event a chunk holds all by itself. */
  function Candidate(value: Parser, chunk: string): Option<Object> {
    match Loads(value, LStrip(chunk))
    case Some(Obj(fields)) => if IsWireEvent(fields) then Some(fields) else None
    case _ => None
  }

  /** The actions so far, the buffer and whether the chunk was taken for wire text. */
  datatype Tailer = Tailer(actions: seq<Action>, buffer: string, accepted: bool)

  function Consumed(value: Parser, done: seq<Action>, buffer: string, chunk: string): Tailer {
    if buffer == "" && Candidate(value, chunk).Some? then
      Tailer(done + [Wire(Candidate(value, chunk).value)], "", true)
    else if buffer == "" && !StartsWith(LStrip(chunk), OPENING) then Tailer(done, "", false)
    else
      var (actions, rest) := Taken(LineActor(value), done, buffer + chunk);
      Tailer(actions, rest, true)
  }

  predicate IsWireType(kind: string) {
    || (|kind| >= 7 && kind[..7] == "thread.")
    || (|kind| >= 5 && (kind[..5] == "turn." || kind[..5] == "item."))
    || kind == "error"
  }

  /** A blank line shows nothing, text that is no JSON is shown as it is; a JSON object is an event if its type is text that
      says so, and otherwise shown as it is; any other JSON fails. */
  lemma LineShows(value: Parser, line: string)
    ensures var text := Strip(line);
      if text == "" then LineActions(value, line) == []
      else if Loads(value, text).None? then LineActions(value, line) == [Text(text)]
      else if Loads(value, text).value.Obj? then
        var fields := Loads(value, text).value.fields;
        var isEvent := "type" in fields && fields["type"].Str? && IsWireType(fields["type"].s);
        LineActions(value, line) == [if isEvent then Wire(fields) else Text(text)]
      else LineActions(value, line) == [Fault]
  {
    var json := Loads(value, Strip(line));
    if json.Some? && json.value.Obj? && "type" in json.value.fields && json.value.fields["type"].Str? {
      TypePrefixes(json.value.fields["type"].s);
    }
  }

  /** With nothing buffered a chunk is taken for wire text exactly when it is an event by itself or starts, after white
      space, like one. */
  lemma AcceptedExactly(value: Parser, done: seq<Action>, buffer: string, chunk: string)
    ensures var text := LStrip(chunk);
      Consumed(value, done, buffer, chunk).accepted <==>
        buffer != "" || Candidate(value, chunk).Some? || (|text| >= 7 && text[..7] == "{\"type\"")
  {
    var text := LStrip(chunk);
    assert StartsWith(text, OPENING) ==> text[..7] == "{\"type\"";
  }

  lemma TypePrefixes(kind: string)
    ensures StartsWith(kind, "thread.") <==> |kind| >= 7 && kind[..7] == "thread."
    ensures StartsWith(kind, "turn.") <==> |kind| >= 5 && kind[..5] == "turn."
    ensures StartsWith(kind, "item.") <==> |kind| >= 5 && kind[..5] == "item."
  {
    assert StartsWith(kind, "thread.") ==> kind[..7] == "thread.";
    assert StartsWith(kind, "turn.") ==> kind[..5] == "turn.";
    assert StartsWith(kind, "item.") ==> kind[..5] == "item.";
  }

  class SessionTailer {
    var buffer: string
    ghost var actions: seq<Action>

    constructor ()
      ensures buffer == "" && actions == []
    {
      buffer, actions := "", [];
    }

    method ProcessLine(value: Parser, line: string) returns (fault: bool)
      modifies this`actions
      ensures actions == old(actions) + LineActions(value, line)
      ensures fault <==> LineActions(value, line) == [Fault]
    {
      fault := false;
      var text := Strip(line);
      if text == "" {
        return;
      }
      match Loads(value, text)
      case None => actions := actions + [Text(text)];
      case Some(Obj(fields)) =>
        actions := actions + [if IsWireEvent(fields) then Wire(fields) else Text(text)];
      case Some(_) =>
        fault := true;
        actions := actions + [Fault];
    }

    method TakeLines(value: Parser)
      modifies this
      ensures (actions, buffer) == Taken(LineActor(value), old(actions), old(buffer))
    {
      ghost var act := LineActor(value);
      var n := NewLine(buffer);
      while n < |buffer|
        invariant n == NewLine(buffer)
        invariant Taken(act, actions, buffer) == Taken(act, old(actions), old(buffer))
        decreases |buffer|
      {
        var line := buffer[..n];
        buffer := buffer[n + 1..];
        var fault := ProcessLine(value, line);
        if fault {
          return;
        }
        n := NewLine(buffer);
      }
    }

    method ConsumeWireText(value: Parser, chunk: string) returns (accepted: bool)
      modifies this
      ensures Tailer(actions, buffer, accepted) == Consumed(value, old(actions), old(buffer), chunk)
    {
      if buffer == "" {
        var candidate := Candidate(value, chunk);
        if candidate.Some? {
          actions := actions + [Wire(candidate.value)];
          return true;
        }
        if !StartsWith(LStrip(chunk), OPENING) {
          return false;
        }
      }
      buffer := buffer + chunk;
      TakeLines(value);
      return true;
    }
  }
}
