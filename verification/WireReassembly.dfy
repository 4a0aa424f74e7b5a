/** However a stream of wire lines is cut into chunks, the tailer sees the lines. */
module WireReassembly {
  import opened Basics
  import opened Json
  import opened EventTailer

  // ---- White space ----

  lemma {:induction false} LStripSplits(s: string) returns (k: nat)
    ensures k <= |s| && LStrip(s) == s[k..] && Blank(s[..k])
    ensures k < |s| ==> !IsSpace(s[k])
    ensures Blank(s) <==> k == |s|
  {
    if s != "" && IsSpace(s[0]) {
      k := LStripSplits(s[1..]);
      assert s[..k + 1] == [s[0]] + s[1..][..k] && s[k + 1..] == s[1..][k..];
      k := k + 1;
    } else {
      k := 0;
    }
    if k == |s| {
      assert s[..k] == s;
    } else {
      assert s[k] in s;
    }
  }

  lemma {:induction false} RStripSplits(s: string)
    ensures var k := |RStrip(s)|; k <= |s| && RStrip(s) == s[..k] && Blank(s[k..]) && (k > 0 ==> !IsSpace(s[k - 1]))
  {
    if s != "" && IsSpace(s[|s| - 1]) {
      var init := s[..|s| - 1];
      RStripSplits(init);
      var k := |RStrip(s)|;
      assert s[..k] == init[..k] && s[k..] == init[k..] + [s[|s| - 1]];
    }
  }

  lemma {:induction false} JsonRStripSplits(s: string)
    ensures var k := |JsonRStrip(s)|; k <= |s| && JsonRStrip(s) == s[..k] && Blank(s[k..])
  {
    if s != "" && IsJsonSpace(s[|s| - 1]) {
      var init := s[..|s| - 1];
      JsonRStripSplits(init);
      var k := |JsonRStrip(s)|;
      assert s[..k] == init[..k] && s[k..] == init[k..] + [s[|s| - 1]];
    }
  }

  /** A line that starts with a visible character is stripped at its end only. */
  lemma StripSplits(l: string)
    requires l != "" && !IsSpace(l[0])
    ensures var k := |Strip(l)|; 0 < k <= |l| && Strip(l) == l[..k] && Blank(l[k..])
  {
    RStripSplits(l);
    assert l[0] in l[0..];
  }

  lemma StripIsTight(l: string)
    ensures Strip(l) == "" || (!IsSpace(Strip(l)[0]) && !IsSpace(Strip(l)[|Strip(l)| - 1]))
  {
    var k := LStripSplits(l);
    RStripSplits(LStrip(l));
  }

  lemma {:induction false} LStripAppend(a: string, y: string)
    requires !Blank(a)
    ensures LStrip(a + y) == LStrip(a) + y && LStrip(a) != "" && !IsSpace(LStrip(a)[0])
  {
    assert a == [a[0]] + a[1..];
    if IsSpace(a[0]) {
      assert (a + y)[1..] == a[1..] + y;
      LStripAppend(a[1..], y);
    }
  }

  lemma RStripPrefix(s: string)
    ensures RStrip(s) <= s
  {
    RStripSplits(s);
  }

  lemma BlankSnoc(y: string, c: char)
    ensures Blank(y + [c]) <==> Blank(y) && IsSpace(c)
  {
    assert forall x :: x in y + [c] <==> x in y || x == c;
  }

  lemma {:induction false} RStripAppend(s: string, y: string)
    ensures RStrip(s) <= RStrip(s + y)
    ensures Blank(y) <==> RStrip(s + y) == RStrip(s)
    decreases |y|
  {
    if y == "" {
      assert s + y == s;
    } else {
      var init, c := y[..|y| - 1], y[|y| - 1];
      assert y == init + [c];
      assert (s + y)[..|s + y| - 1] == s + init && (s + y)[|s + y| - 1] == c;
      BlankSnoc(init, c);
      RStripAppend(s, init);
      RStripPrefix(s);
    }
  }

  /** More text leaves what was stripped before it in front; visible text makes it longer. */
  lemma StripAppend(a: string, y: string)
    requires !Blank(a)
    ensures Strip(a) != "" && Strip(a) <= Strip(a + y)
    ensures Blank(y) <==> Strip(a + y) == Strip(a)
  {
    LStripAppend(a, y);
    RStripAppend(LStrip(a), y);
    RStripSplits(LStrip(a));
    assert LStrip(a)[0] == LStrip(a)[0..][0];
  }

  lemma {:induction false} BlankStrip(a: string)
    ensures Blank(a) <==> Strip(a) == ""
  {
    if Blank(a) {
      if a != "" { BlankStrip(a[1..]); }
    } else {
      StripAppend(a, "");
    }
  }

  /** Text without surrounding white space is what the parser sees. */
  lemma LoadsTight(value: Parser, s: string)
    requires s == "" || (!IsSpace(s[0]) && !IsSpace(s[|s| - 1]))
    ensures Loads(value, s) == value(s)
  {
  }

  // ---- Streams of lines ----

  type Lines = string -> bool

  /** Complete lines only, each of them good. */
  ghost predicate Streamed(good: Lines, text: string)
    decreases |text|
  {
    text == "" || (var n := NewLine(text); n < |text| && good(text[..n]) && Streamed(good, text[n + 1..]))
  }

  function Acts(act: Actor, done: seq<Action>, text: string): seq<Action> {
    Taken(act, done, text).0
  }

  /** White space in front of a line is of no account; blank lines do nothing; good lines never fail. */
  ghost predicate Tolerant(act: Actor, good: Lines) {
    && (forall c, l :: IsSpace(c) ==> act([c] + l) == act(l) && good([c] + l) == good(l))
    && act("") == [] && good("")
    && forall l :: good(l) ==> act(l) != [Fault]
  }

  lemma ConsSlices(c: char, text: string, n: nat)
    requires n <= |text|
    ensures ([c] + text)[1..] == text && ([c] + text)[..1 + n] == [c] + text[..n]
    ensures n < |text| ==> ([c] + text)[1 + n + 1..] == text[n + 1..]
  {
  }

  lemma NewLineCons(c: char, text: string)
    requires c != '\n'
    ensures NewLine([c] + text) == 1 + NewLine(text)
  {
    assert ([c] + text)[1..] == text;
  }

  lemma DropSpace(act: Actor, good: Lines, done: seq<Action>, c: char, text: string)
    requires Tolerant(act, good) && IsSpace(c) && Streamed(good, [c] + text)
    ensures Streamed(good, text) && Acts(act, done, [c] + text) == Acts(act, done, text)
  {
    var all := [c] + text;
    if c == '\n' {
      assert NewLine(all) == 0 && all[..0] == "" && all[1..] == text;
      assert done + [] == done;
    } else {
      var n := NewLine(text);
      NewLineCons(c, text);
      ConsSlices(c, text, n);
      assert good([c] + text[..n]) && act([c] + text[..n]) == act(text[..n]);
    }
  }

  lemma {:induction false} DropBlank(act: Actor, good: Lines, done: seq<Action>, w: string, text: string)
    requires Tolerant(act, good) && Blank(w) && Streamed(good, w + text)
    ensures Streamed(good, text) && Acts(act, done, w + text) == Acts(act, done, text)
    decreases |w|
  {
    if w == "" {
      assert w + text == text;
    } else {
      assert w + text == [w[0]] + (w[1..] + text);
      DropSpace(act, good, done, w[0], w[1..] + text);
      DropBlank(act, good, done, w[1..], text);
    }
  }

  lemma {:induction false} BlankIsGood(act: Actor, good: Lines, w: string)
    requires Tolerant(act, good) && Blank(w)
    ensures good(w)
  {
    if w != "" {
      BlankIsGood(act, good, w[1..]);
      assert w == [w[0]] + w[1..];
    }
  }

  lemma IndentedOnce(act: Actor, good: Lines, c: char, text: string)
    requires Tolerant(act, good) && IsSpace(c) && c != '\n' && Streamed(good, text) && text != ""
    ensures Streamed(good, [c] + text)
  {
    NewLineCons(c, text);
    ConsSlices(c, text, NewLine(text));
    assert good([c] + text[..NewLine(text)]);
  }

  /** Indentation does not spoil a stream. */
  lemma {:induction false} Indented(act: Actor, good: Lines, w: string, text: string)
    requires Tolerant(act, good) && Blank(w) && NewLine(w) == |w| && Streamed(good, text) && text != ""
    ensures Streamed(good, w + text)
    decreases |w|
  {
    if w == "" {
      assert w + text == text;
    } else {
      Indented(act, good, w[1..], text);
      assert w + text == [w[0]] + (w[1..] + text);
      IndentedOnce(act, good, w[0], w[1..] + text);
    }
  }

  lemma NewLineAppend(a: string, b: string)
    ensures NewLine(a) < |a| ==> NewLine(a + b) == NewLine(a)
    ensures NewLine(a) == |a| ==> NewLine(a + b) == |a| + NewLine(b)
    decreases |a|
  {
    if a == "" {
      assert a + b == b;
    } else if a[0] != '\n' {
      assert (a + b)[1..] == a[1..] + b;
      NewLineAppend(a[1..], b);
    }
  }

  lemma TakenOnce(act: Actor, good: Lines, done: seq<Action>, text: string, n: nat)
    requires Tolerant(act, good) && Streamed(good, text) && text != "" && n == NewLine(text)
    ensures n < |text| && good(text[..n]) && Streamed(good, text[n + 1..])
    ensures Acts(act, done, text) == Acts(act, done + act(text[..n]), text[n + 1..])
  {
  }

  lemma PartSlices(part: string, rest: string, n: nat)
    requires n == NewLine(part) < |part|
    ensures NewLine(part + rest) == n && part + rest != ""
    ensures (part + rest)[..n] == part[..n] && (part + rest)[n + 1..] == part[n + 1..] + rest
  {
    NewLineAppend(part, rest);
  }

  /** Lines taken off a part of the stream may as well be taken off the whole. */
  lemma {:induction false} TakenPart(act: Actor, good: Lines, done: seq<Action>, part: string, rest: string)
    requires Tolerant(act, good) && Streamed(good, part + rest)
    ensures var (d, left) := Taken(act, done, part);
      NewLine(left) == |left| && Streamed(good, left + rest) && Acts(act, d, left + rest) == Acts(act, done, part + rest)
    decreases |part|
  {
    var n := NewLine(part);
    if n < |part| {
      PartSlices(part, rest, n);
      TakenOnce(act, good, done, part + rest, n);
      TakenPart(act, good, done + act(part[..n]), part[n + 1..], rest);
    }
  }

  // ---- The wire's own lines ----

  predicate GoodLine(value: Parser, line: string) {
    Strip(line) == "" || IsObject(value, Strip(line))
  }

  function GoodLines(value: Parser): Lines {
    line => GoodLine(value, line)
  }

  lemma GoodNeverFails(value: Parser, line: string)
    requires GoodLine(value, line)
    ensures LineActions(value, line) != [Fault]
  {
    StripIsTight(line);
    LoadsTight(value, Strip(line));
  }

  lemma WireTolerant(value: Parser)
    ensures Tolerant(LineActor(value), GoodLines(value))
  {
    var act, good := LineActor(value), GoodLines(value);
    forall c, l | IsSpace(c) ensures act([c] + l) == act(l) && good([c] + l) == good(l) {
      assert ([c] + l)[1..] == l;
      assert Strip([c] + l) == Strip(l);
    }
    forall l | good(l) ensures act(l) != [Fault] {
      GoodNeverFails(value, l);
    }
  }

  /** What an object's text amounts to. */
  function Seen(value: Parser, u: string): Action
    requires IsObject(value, u)
  {
    var fields := value(u).value.fields;
    if IsWireEvent(fields) then Wire(fields) else Text(u)
  }

  /** What is used of the wire's lines: good ones are blank or an object that acts as itself. */
  ghost predicate Wired(value: Parser, act: Actor, good: Lines) {
    && Tolerant(act, good)
    && (forall l :: good(l) ==> GoodLine(value, l))
    && forall l :: Strip(l) != "" && IsObject(value, Strip(l)) ==> act(l) == [Seen(value, Strip(l))]
  }

  lemma WireWired(value: Parser)
    ensures Wired(value, LineActor(value), GoodLines(value))
  {
    WireTolerant(value);
    forall l | Strip(l) != "" && IsObject(value, Strip(l)) ensures LineActor(value)(l) == [Seen(value, Strip(l))] {
      ObjectActs(value, l);
    }
  }

  /** The first line of a stream whose text starts with an object is that object and white space. */
  lemma ObjectFillsLine(value: Parser, u: string, text: string, n: nat)
    requires Lawful(value) && IsObject(value, u) && u <= text && n == NewLine(text) < |text| && GoodLine(value, text[..n])
    ensures |u| <= n && Strip(text[..n]) == u && Blank(text[|u|..n])
  {
    var line := text[..n];
    assert u[0] == '{' && text[0] == '{';
    StripSplits(line);
    var v := Strip(line);
    assert v == text[..|v|] && u == text[..|u|];
    assert u <= v || v <= u;
    assert line[|v|..] == text[|v|..n];
  }

  lemma ObjectActs(value: Parser, line: string)
    requires Strip(line) != "" && IsObject(value, Strip(line))
    ensures LineActions(value, line) == [Seen(value, Strip(line))]
  {
    StripIsTight(line);
    LoadsTight(value, Strip(line));
  }

  /** Taking a line that an object fills. */
  lemma ObjectTaken(value: Parser, act: Actor, good: Lines, done: seq<Action>, u: string, text: string, n: nat)
    requires Lawful(value) && Wired(value, act, good) && IsObject(value, u)
    requires u <= text && Streamed(good, text) && n == NewLine(text)
    ensures |u| <= n < |text| && Blank(text[|u|..n]) && Streamed(good, text[n + 1..])
    ensures Acts(act, done, text) == Acts(act, done + [Seen(value, u)], text[n + 1..])
  {
    TakenOnce(act, good, done, text, n);
    ObjectFillsLine(value, u, text, n);
  }

  lemma ObjectFirst(value: Parser, act: Actor, good: Lines, done: seq<Action>, u: string, s: string, rest: string)
    requires Lawful(value) && Wired(value, act, good) && IsObject(value, u)
    requires u <= s && Blank(s[|u|..]) && Streamed(good, s + rest)
    ensures Streamed(good, rest)
    ensures Acts(act, done, s + rest) == Acts(act, done + [Seen(value, u)], rest)
  {
    var n := NewLine(s + rest);
    ObjectTaken(value, act, good, done, u, s + rest, n);
    AfterTheLine(act, good, done + [Seen(value, u)], s, rest, |u|, n, (s + rest)[n + 1..]);
  }

  lemma BlankThenObject(value: Parser, act: Actor, good: Lines, done: seq<Action>, w: string, u: string, s: string, rest: string)
    requires Lawful(value) && Wired(value, act, good) && IsObject(value, u)
    requires Blank(w) && u <= s && Blank(s[|u|..]) && Streamed(good, (w + s) + rest)
    ensures Streamed(good, rest)
    ensures Acts(act, done, (w + s) + rest) == Acts(act, done + [Seen(value, u)], rest)
  {
    Assoc(w, s, rest);
    DropBlank(act, good, done, w, s + rest);
    ObjectFirst(value, act, good, done, u, s, rest);
  }

  /** A chunk that is an event by itself is the rest of exactly one line. */
  lemma CandidateIsALine(value: Parser, act: Actor, good: Lines, done: seq<Action>, chunk: string, rest: string)
    requires Lawful(value) && Wired(value, act, good) && Candidate(value, chunk).Some? && Streamed(good, chunk + rest)
    ensures Streamed(good, rest)
    ensures Acts(act, done, chunk + rest) == Acts(act, done + [Wire(Candidate(value, chunk).value)], rest)
  {
    var w, u, s := CandidateText(value, chunk);
    BlankThenObject(value, act, good, done, w, u, s, rest);
  }

  lemma CandidateText(value: Parser, chunk: string) returns (w: string, u: string, s: string)
    requires Candidate(value, chunk).Some?
    ensures IsObject(value, u) && value(u).value.fields == Candidate(value, chunk).value && IsWireEvent(value(u).value.fields)
    ensures chunk == w + s && Blank(w) && u <= s && Blank(s[|u|..])
  {
    var k := LStripSplits(chunk);
    w, s := chunk[..k], LStrip(chunk);
    u := JsonRStrip(s);
    JsonRStripSplits(s);
  }

  lemma DropLine(act: Actor, good: Lines, done: seq<Action>, w: string, rest: string, all: string)
    requires Tolerant(act, good) && Blank(w) && NewLine(w) == |w| && all == w + ['\n'] + rest && Streamed(good, rest)
    ensures Streamed(good, all) && Acts(act, done, all) == Acts(act, done, rest)
  {
    BlankLineFirst(act, good, w, rest);
    DropBlank(act, good, done, w + ['\n'], rest);
  }

  /** Past an object that fills its line, what the chunk still holds and what it lacks are both blank. */
  lemma AfterTheLine(act: Actor, good: Lines, done: seq<Action>, s: string, rest: string, k: nat, n: nat, tail: string)
    requires Tolerant(act, good) && n == NewLine(s + rest) && k <= n < |s + rest| && tail == (s + rest)[n + 1..]
    requires k <= |s| && Blank((s + rest)[k..n]) && Blank(s[k..]) && Streamed(good, tail)
    ensures Streamed(good, rest) && Acts(act, done, tail) == Acts(act, done, rest)
  {
    if n < |s| {
      TailInside(s, rest, k, n, tail);
      DropBlank(act, good, done, s[n + 1..], rest);
    } else {
      var w := TailOutside(s, rest, k, n, tail);
      DropLine(act, good, done, w, tail, rest);
    }
  }

  lemma TailInside(s: string, rest: string, k: nat, n: nat, tail: string)
    requires n == NewLine(s + rest) && k <= n < |s| && tail == (s + rest)[n + 1..] && Blank(s[k..])
    ensures tail == s[n + 1..] + rest && Blank(s[n + 1..])
  {
    assert s[n + 1..] == s[k..][n + 1 - k..];
  }

  lemma {:induction false} NewLineTake(s: string, k: nat)
    requires k <= NewLine(s)
    ensures NewLine(s[..k]) == k
  {
    if k > 0 {
      NewLineTake(s[1..], k - 1);
      assert s[..k][1..] == s[1..][..k - 1];
    }
  }

  lemma {:induction false} NewLineDrop(s: string, k: nat)
    requires k <= NewLine(s)
    ensures NewLine(s[k..]) == NewLine(s) - k
  {
    if k > 0 {
      NewLineDrop(s[1..], k - 1);
      assert s[k..] == s[1..][k - 1..];
    } else {
      assert s[0..] == s;
    }
  }

  lemma TailOutside(s: string, rest: string, k: nat, n: nat, tail: string) returns (w: string)
    requires n == NewLine(s + rest) && k <= |s| <= n < |s + rest| && tail == (s + rest)[n + 1..] && Blank((s + rest)[k..n])
    ensures Blank(w) && NewLine(w) == |w| && rest == w + ['\n'] + tail
  {
    w := rest[..n - |s|];
    assert w == (s + rest)[k..n][|s| - k..];
    assert rest == (s + rest)[|s|..];
    NewLineDrop(s + rest, |s|);
    NewLineTake(rest, n - |s|);
  }

  lemma BlankLineFirst(act: Actor, good: Lines, w: string, rest: string)
    requires Tolerant(act, good) && Blank(w) && NewLine(w) == |w| && Streamed(good, rest)
    ensures Streamed(good, w + ['\n'] + rest)
  {
    var text := w + ['\n'] + rest;
    BlankIsGood(act, good, w);
    NewLineAppend(w, ['\n'] + rest);
    assert text == w + (['\n'] + rest);
    assert text[..|w|] == w && text[|w| + 1..] == rest;
  }

  // ---- Whole streams ----

  /** The caller passes on text that is not blank; what is not taken for wire text is shown as it is. */
  function Offered(value: Parser, done: seq<Action>, buffer: string, chunk: string): (seq<Action>, string) {
    if Blank(chunk) then (done, buffer)
    else
      var t := Consumed(value, done, buffer, chunk);
      (if t.accepted then t.actions else t.actions + [Text(chunk)], t.buffer)
  }

  function Fed(value: Parser, done: seq<Action>, buffer: string, chunks: seq<string>): (seq<Action>, string)
    decreases |chunks|
  {
    if chunks == [] then (done, buffer)
    else
      var (d, b) := Offered(value, done, buffer, chunks[0]);
      Fed(value, d, b, chunks[1..])
  }

  /** The first text to come starts with a line break. */
  predicate Recovers(chunks: seq<string>)
    decreases |chunks|
  {
    chunks != [] &&
    if Blank(chunks[0]) then Recovers(chunks[1..]) else NewLine(chunks[0]) < |chunks[0]| - |LStrip(chunks[0])|
  }

  predicate Breaks(chunk: string) {
    NewLine(chunk) < |chunk|
  }

  /** The chunk is taken for what it holds by itself, or not for wire text at all. */
  predicate Alone(value: Parser, buffer: string, chunk: string) {
    buffer == "" && (Candidate(value, chunk).Some? || !StartsWith(LStrip(chunk), OPENING))
  }

  /** `line` is all the text of the unfinished line so far, `buffer` what the tailer has of it: blank
      chunks that fell inside the line are missing there. */
  function Through(value: Parser, line: string, buffer: string, chunk: string): string {
    if Blank(chunk) then if Blank(buffer) || Breaks(chunk) then line else line + chunk
    else if Alone(value, buffer, chunk) then ""
    else if Breaks(chunk) then Offered(value, [], buffer, chunk).1
    else line + chunk
  }

  /**
   * A blank chunk that breaks a line falls between lines, or the next text makes good for it with a line
   * break of its own; a chunk on an empty buffer shows it is wire text, or is an object's text and no more;
   * and a line that ends amounts to the same without the white space dropped from it.
   */
  predicate Fits(value: Parser, line: string, buffer: string, chunk: string, rest: seq<string>) {
    if Blank(chunk) then Blank(buffer) || !Breaks(chunk) || Recovers(rest)
    else if Alone(value, buffer, chunk) then Candidate(value, chunk).Some? || IsObject(value, chunk)
    else Breaks(chunk) ==>
      LineActions(value, line + chunk[..NewLine(chunk)]) == LineActions(value, buffer + chunk[..NewLine(chunk)])
  }

  predicate AllFit(value: Parser, line: string, buffer: string, chunks: seq<string>)
    decreases |chunks|
  {
    chunks == [] ||
    (Fits(value, line, buffer, chunks[0], chunks[1..]) &&
     AllFit(value, Through(value, line, buffer, chunks[0]), Offered(value, [], buffer, chunks[0]).1, chunks[1..]))
  }

  /** What is still to come, as seen from the start of the current line. */
  function Ahead(buffer: string, rest: string): string {
    if Blank(buffer) then rest else buffer + rest
  }

  lemma SettleBuffer(act: Actor, good: Lines, done: seq<Action>, buffer: string, rest: string)
    requires Tolerant(act, good) && Streamed(good, buffer + rest)
    ensures Streamed(good, Ahead(buffer, rest)) && Acts(act, done, Ahead(buffer, rest)) == Acts(act, done, buffer + rest)
  {
    if Blank(buffer) {
      DropBlank(act, good, done, buffer, rest);
    }
  }

  lemma OpenBuffer(act: Actor, good: Lines, done: seq<Action>, buffer: string, rest: string)
    requires Tolerant(act, good) && Streamed(good, Ahead(buffer, rest)) && NewLine(buffer) == |buffer| && rest != ""
    ensures Streamed(good, buffer + rest) && Acts(act, done, buffer + rest) == Acts(act, done, Ahead(buffer, rest))
  {
    if Blank(buffer) {
      Indented(act, good, buffer, rest);
      DropBlank(act, good, done, buffer, rest);
    }
  }

  lemma PartKeeps(act: Actor, good: Lines, done: seq<Action>, part: string, rest: string)
    requires Tolerant(act, good) && Streamed(good, part + rest)
    ensures var (d, b) := Taken(act, done, part);
      && NewLine(b) == |b| && Streamed(good, Ahead(b, rest))
      && Acts(act, d, Ahead(b, rest)) == Acts(act, done, part + rest)
  {
    var (d, b) := Taken(act, done, part);
    TakenPart(act, good, done, part, rest);
    SettleBuffer(act, good, d, b, rest);
  }

  /** The end of a line, and whatever the chunk holds after it. */
  lemma LineKeeps(act: Actor, good: Lines, done: seq<Action>, line: string, buffer: string, chunk: string, rest: string)
    requires Tolerant(act, good) && NewLine(line) == |line| && NewLine(buffer) == |buffer| && Breaks(chunk)
    requires act(line + chunk[..NewLine(chunk)]) == act(buffer + chunk[..NewLine(chunk)])
    requires Streamed(good, line + (chunk + rest))
    ensures var (d, b) := Taken(act, done, buffer + chunk);
      && NewLine(b) == |b| && Streamed(good, Ahead(b, rest))
      && Acts(act, d, Ahead(b, rest)) == Acts(act, done, line + (chunk + rest))
  {
    var n := NewLine(chunk);
    LineOff(act, good, done, line, chunk, rest);
    BufferOff(act, done, buffer, chunk);
    PartKeeps(act, good, done + act(line + chunk[..n]), chunk[n + 1..], rest);
  }

  lemma LineOff(act: Actor, good: Lines, done: seq<Action>, line: string, chunk: string, rest: string)
    requires Tolerant(act, good) && NewLine(line) == |line| && Breaks(chunk) && Streamed(good, line + (chunk + rest))
    ensures var whole, more := line + chunk[..NewLine(chunk)], chunk[NewLine(chunk) + 1..] + rest;
      act(whole) != [Fault] && Streamed(good, more) && Acts(act, done, line + (chunk + rest)) == Acts(act, done + act(whole), more)
  {
    EndSlices(line, chunk, rest);
    TakenAs(act, good, done, line + (chunk + rest), line + chunk[..NewLine(chunk)], chunk[NewLine(chunk) + 1..] + rest);
  }

  lemma TakenAs(act: Actor, good: Lines, done: seq<Action>, text: string, line: string, more: string)
    requires Tolerant(act, good) && Streamed(good, text) && text != ""
    requires NewLine(text) < |text| ==> text[..NewLine(text)] == line && text[NewLine(text) + 1..] == more
    ensures act(line) != [Fault] && Streamed(good, more) && Acts(act, done, text) == Acts(act, done + act(line), more)
  {
    TakenOnce(act, good, done, text, NewLine(text));
  }

  lemma OffSlices(buffer: string, chunk: string)
    requires NewLine(buffer) == |buffer| && Breaks(chunk)
    ensures var text, n := buffer + chunk, |buffer| + NewLine(chunk);
      && NewLine(text) == n < |text|
      && text[..n] == buffer + chunk[..NewLine(chunk)] && text[n + 1..] == chunk[NewLine(chunk) + 1..]
  {
    NewLineAppend(buffer, chunk);
  }

  lemma TakenFirst(act: Actor, done: seq<Action>, text: string, line: string, more: string)
    requires NewLine(text) < |text| && text[..NewLine(text)] == line && text[NewLine(text) + 1..] == more && act(line) != [Fault]
    ensures Taken(act, done, text) == Taken(act, done + act(line), more)
  {
  }

  lemma BufferOff(act: Actor, done: seq<Action>, buffer: string, chunk: string)
    requires NewLine(buffer) == |buffer| && Breaks(chunk) && act(buffer + chunk[..NewLine(chunk)]) != [Fault]
    ensures Taken(act, done, buffer + chunk)
         == Taken(act, done + act(buffer + chunk[..NewLine(chunk)]), chunk[NewLine(chunk) + 1..])
  {
    OffSlices(buffer, chunk);
    TakenFirst(act, done, buffer + chunk, buffer + chunk[..NewLine(chunk)], chunk[NewLine(chunk) + 1..]);
  }

  /** White space after a line is of no account. */
  ghost predicate Trailing(act: Actor, good: Lines) {
    forall c, l :: IsSpace(c) ==> act(l + [c]) == act(l) && good(l + [c]) == good(l)
  }

  lemma WireTrailing(value: Parser)
    ensures Trailing(LineActor(value), GoodLines(value))
  {
    var act, good := LineActor(value), GoodLines(value);
    forall c, l | IsSpace(c) ensures act(l + [c]) == act(l) && good(l + [c]) == good(l) {
      StripTrailing(l, c);
    }
  }

  lemma StripTrailing(l: string, c: char)
    requires IsSpace(c)
    ensures Strip(l + [c]) == Strip(l)
  {
    if Blank(l) {
      BlankStrip(l);
      BlankStrip(l + [c]);
    } else {
      StripAppend(l, [c]);
    }
  }

  lemma {:induction false} DropTrail(act: Actor, good: Lines, l: string, w: string)
    requires Trailing(act, good) && Blank(w)
    ensures act(l + w) == act(l) && good(l + w) == good(l)
    decreases |w|
  {
    if w == "" {
      assert l + w == l;
    } else {
      var init := w[..|w| - 1];
      DropTrail(act, good, l, init);
      assert l + w == (l + init) + [w[|w| - 1]];
    }
  }

  lemma CutAt(c: string, n: nat, more: string)
    requires n < |c|
    ensures c + more == c[..n] + ([c[n]] + (c[n + 1..] + more))
  {
    var tail := [c[n]] + c[n + 1..];
    assert c == c[..n] + tail;
    Assoc(c[..n], tail, more);
    Assoc([c[n]], c[n + 1..], more);
  }

  lemma RecoversHere(c: string)
    requires NewLine(c) < |c| && (Blank(c) || NewLine(c) < |c| - |LStrip(c)|)
    ensures Blank(c[..NewLine(c)])
  {
    var k := LStripSplits(c);
    assert c[..NewLine(c)] == c[..k][..NewLine(c)];
  }

  lemma {:induction false} RecoversSplits(chunks: seq<string>) returns (w: string, rest: string)
    requires Recovers(chunks)
    ensures Concat(chunks) == w + (['\n'] + rest) && Blank(w) && NewLine(w) == |w|
    decreases |chunks|
  {
    var c, n, more := chunks[0], NewLine(chunks[0]), Concat(chunks[1..]);
    if n < |c| {
      w, rest := c[..n], c[n + 1..] + more;
      CutAt(c, n, more);
      NewLineTake(c, n);
      RecoversHere(c);
    } else {
      w, rest := RecoversSplits(chunks[1..]);
      NewLineAppend(c, w);
      Assoc(c, w, ['\n'] + rest);
      w := c + w;
    }
  }

  lemma EndSlices(b: string, w: string, rest: string)
    requires NewLine(b) == |b| && NewLine(w) < |w|
    ensures var text, n := b + (w + rest), |b| + NewLine(w);
      NewLine(text) == n && n < |text| && text[..n] == b + w[..NewLine(w)] && text[n + 1..] == w[NewLine(w) + 1..] + rest
  {
    NewLineAppend(b, w + rest);
    NewLineAppend(w, rest);
  }

  lemma TakenThrough(act: Actor, good: Lines, done: seq<Action>, b: string, w: string, rest: string)
    requires Tolerant(act, good) && NewLine(b) == |b| && Blank(w) && NewLine(w) < |w| && Streamed(good, b + (w + rest))
    ensures var line := b + w[..NewLine(w)];
      good(line) && Streamed(good, rest) && Acts(act, done, b + (w + rest)) == Acts(act, done + act(line), rest)
  {
    var n := NewLine(w);
    EndSlices(b, w, rest);
    TakenThen(act, good, done, b + (w + rest), b + w[..n], w[n + 1..], rest);
  }

  lemma TakenThen(act: Actor, good: Lines, done: seq<Action>, text: string, line: string, w: string, rest: string)
    requires Tolerant(act, good) && Streamed(good, text) && text != "" && Blank(w)
    requires var n := NewLine(text); n < |text| ==> text[..n] == line && text[n + 1..] == w + rest
    ensures good(line) && Streamed(good, rest) && Acts(act, done, text) == Acts(act, done + act(line), rest)
  {
    TakenOnce(act, good, done, text, NewLine(text));
    DropBlank(act, good, done + act(line), w, rest);
  }

  /** The line that ends with `b` and a line break somewhere in blank text. */
  lemma EndsInBlank(act: Actor, good: Lines, done: seq<Action>, b: string, w: string, rest: string)
    requires Tolerant(act, good) && Trailing(act, good) && NewLine(b) == |b| && Blank(w) && NewLine(w) < |w|
    requires Streamed(good, b + (w + rest))
    ensures good(b) && Streamed(good, rest) && Acts(act, done, b + (w + rest)) == Acts(act, done + act(b), rest)
  {
    TakenThrough(act, good, done, b, w, rest);
    DropTrail(act, good, b, w[..NewLine(w)]);
  }

  lemma EndsHere(act: Actor, good: Lines, done: seq<Action>, b: string, w: string, rest: string)
    requires Tolerant(act, good) && NewLine(b) == |b| && NewLine(w) == |w| && good(b + w) && Streamed(good, rest)
    ensures Streamed(good, b + (w + (['\n'] + rest)))
    ensures Acts(act, done, b + (w + (['\n'] + rest))) == Acts(act, done + act(b + w), rest)
  {
    NewLineAppend(b, w);
    StreamStep(act, good, done, b + w, rest);
    Assoc(b, w, ['\n'] + rest);
  }

  lemma BlankRun(chunk: string, w: string, rest: string)
    requires Blank(chunk) && Blank(w)
    ensures var blank := chunk + (w + ['\n']);
      && Blank(blank) && NewLine(blank) < |blank|
      && chunk + (w + (['\n'] + rest)) == blank + rest
  {
    NewLineAppend(chunk, w + ['\n']);
    NewLineAppend(w, ['\n']);
  }

  /** A blank chunk inside or after a line may go if another line break follows. */
  lemma DropInterior(act: Actor, good: Lines, done: seq<Action>, b: string, chunk: string, w: string, rest: string)
    requires Tolerant(act, good) && Trailing(act, good) && NewLine(b) == |b|
    requires Blank(chunk) && Blank(w) && NewLine(w) == |w| && Streamed(good, b + (chunk + (w + (['\n'] + rest))))
    ensures Streamed(good, b + (w + (['\n'] + rest)))
    ensures Acts(act, done, b + (w + (['\n'] + rest))) == Acts(act, done, b + (chunk + (w + (['\n'] + rest))))
  {
    BlankRun(chunk, w, rest);
    EndsInBlank(act, good, done, b, chunk + (w + ['\n']), rest);
    DropTrail(act, good, b, w);
    EndsHere(act, good, done, b, w, rest);
  }

  lemma InteriorKeeps(act: Actor, good: Lines, done: seq<Action>, b: string, chunk: string, chunks: seq<string>)
    requires Tolerant(act, good) && Trailing(act, good) && NewLine(b) == |b|
    requires Blank(chunk) && Recovers(chunks) && Streamed(good, b + (chunk + Concat(chunks)))
    ensures Streamed(good, b + Concat(chunks))
    ensures Acts(act, done, b + Concat(chunks)) == Acts(act, done, b + (chunk + Concat(chunks)))
  {
    var w, rest := RecoversSplits(chunks);
    DropInterior(act, good, done, b, chunk, w, rest);
  }

  // ---- The line as it is and as the tailer has it ----

  predicate HoldsObject(value: Parser, line: string) {
    IsObject(value, Strip(line))
  }

  /** White space deleted from the text of an object leaves the text of an object. */
  ghost predicate Thinnable(value: Parser) {
    forall x, w, y :: Blank(w) && HoldsObject(value, (x + w) + y) ==> HoldsObject(value, x + y)
  }

  /** Whatever makes an object of `line` makes one of `buffer`. */
  ghost predicate Thins(value: Parser, line: string, buffer: string) {
    forall y :: HoldsObject(value, line + y) ==> HoldsObject(value, buffer + y)
  }

  predicate Tracks(line: string, buffer: string) {
    NewLine(line) == |line| && NewLine(buffer) == |buffer| && if Blank(buffer) then line == buffer else !Blank(line)
  }

  lemma TracksBlank(line: string, buffer: string, w: string)
    requires Tracks(line, buffer) && !Blank(buffer) && Blank(w) && NewLine(w) == |w|
    ensures Tracks(line + w, buffer)
  {
    NewLineAppend(line, w);
    BlankConcat(line, w);
  }

  lemma TracksText(line: string, buffer: string, chunk: string)
    requires Tracks(line, buffer) && !Blank(chunk) && NewLine(chunk) == |chunk|
    ensures Tracks(line + chunk, buffer + chunk)
  {
    NewLineAppend(line, chunk);
    NewLineAppend(buffer, chunk);
    BlankConcat(line, chunk);
    BlankConcat(buffer, chunk);
  }

  lemma ThinsOn(value: Parser, line: string, buffer: string, chunk: string)
    requires Thins(value, line, buffer)
    ensures Thins(value, line + chunk, buffer + chunk)
  {
    forall y | HoldsObject(value, (line + chunk) + y) ensures HoldsObject(value, (buffer + chunk) + y) {
      Assoc(line, chunk, y);
      Assoc(buffer, chunk, y);
    }
  }

  lemma ThinsBlank(value: Parser, line: string, buffer: string, w: string)
    requires Thinnable(value) && Thins(value, line, buffer) && Blank(w)
    ensures Thins(value, line + w, buffer)
  {
    forall y | HoldsObject(value, (line + w) + y) ensures HoldsObject(value, buffer + y) {
      assert HoldsObject(value, line + y);
    }
  }

  lemma ThroughThins(value: Parser, line: string, buffer: string, chunk: string)
    requires Thinnable(value) && Tracks(line, buffer) && Thins(value, line, buffer)
    ensures Thins(value, Through(value, line, buffer, chunk), Offered(value, [], buffer, chunk).1)
  {
    OfferedCases(value, [], buffer, chunk);
    if Blank(chunk) {
      if !Blank(buffer) && !Breaks(chunk) { ThinsBlank(value, line, buffer, chunk); }
    } else if !Alone(value, buffer, chunk) && !Breaks(chunk) {
      NewLineAppend(buffer, chunk);
      ThinsOn(value, line, buffer, chunk);
    }
  }

  /** The ways a chunk is dealt with. */
  lemma OfferedCases(value: Parser, done: seq<Action>, buffer: string, chunk: string)
    ensures Offered(value, done, buffer, chunk)
         == if Blank(chunk) then (done, buffer)
            else if buffer == "" && Candidate(value, chunk).Some? then (done + [Wire(Candidate(value, chunk).value)], "")
            else if Alone(value, buffer, chunk) then (done + [Text(chunk)], "")
            else Taken(LineActor(value), done, buffer + chunk)
  {
  }

  /** A chunk that is the text of an object, taken for plain text, shows what its line shows. */
  lemma PlainObject(value: Parser, chunk: string)
    requires Lawful(value) && IsObject(value, chunk) && Candidate(value, chunk).None?
    ensures Seen(value, chunk) == Text(chunk)
  {
    assert LStrip(chunk) == chunk && JsonLStrip(chunk) == chunk && JsonRStrip(chunk) == chunk;
  }

  /** What holds after a chunk that fits: the rest of the stream still amounts to the same. */
  ghost predicate Kept(value: Parser, done: seq<Action>, text: string, d: seq<Action>, line: string, buffer: string, rest: string) {
    && Tracks(line, buffer) && Streamed(GoodLines(value), Ahead(line, rest))
    && Acts(LineActor(value), d, Ahead(line, rest)) == Acts(LineActor(value), done, text)
  }

  lemma BlankKeeps(value: Parser, done: seq<Action>, line: string, buffer: string, chunk: string, chunks: seq<string>)
    requires Lawful(value) && Tracks(line, buffer) && Blank(chunk)
    requires Fits(value, line, buffer, chunk, chunks) && Streamed(GoodLines(value), Ahead(line, chunk + Concat(chunks)))
    ensures Kept(value, done, Ahead(line, chunk + Concat(chunks)), done, Through(value, line, buffer, chunk), buffer, Concat(chunks))
  {
    var act, good, rest := LineActor(value), GoodLines(value), Concat(chunks);
    WireTolerant(value);
    if Blank(buffer) {
      DropBlank(act, good, done, chunk, rest);
    } else if Breaks(chunk) {
      WireTrailing(value);
      InteriorKeeps(act, good, done, line, chunk, chunks);
    } else {
      TracksBlank(line, buffer, chunk);
      Assoc(line, chunk, rest);
    }
  }

  lemma AloneKeeps(value: Parser, done: seq<Action>, line: string, chunk: string, rest: string)
    requires Lawful(value) && Tracks(line, "") && !Blank(chunk) && Alone(value, "", chunk)
    requires Candidate(value, chunk).Some? || IsObject(value, chunk)
    requires Streamed(GoodLines(value), Ahead(line, chunk + rest))
    ensures Kept(value, done, Ahead(line, chunk + rest), Offered(value, done, "", chunk).0, "", "", rest)
  {
    OfferedCases(value, done, "", chunk);
    WireWired(value);
    if Candidate(value, chunk).Some? {
      CandidateIsALine(value, LineActor(value), GoodLines(value), done, chunk, rest);
    } else {
      PlainObject(value, chunk);
      ObjectFirst(value, LineActor(value), GoodLines(value), done, chunk, chunk, rest);
    }
  }

  lemma TextKeeps(value: Parser, done: seq<Action>, line: string, buffer: string, chunk: string, rest: string)
    requires Tracks(line, buffer) && !Blank(chunk) && !Alone(value, buffer, chunk)
    requires Fits(value, line, buffer, chunk, []) && Streamed(GoodLines(value), Ahead(line, chunk + rest))
    ensures var (d, b) := Offered(value, done, buffer, chunk);
      Kept(value, done, Ahead(line, chunk + rest), d, Through(value, line, buffer, chunk), b, rest)
  {
    var act, good := LineActor(value), GoodLines(value);
    OfferedCases(value, done, buffer, chunk);
    OfferedBuffer(value, done, buffer, chunk);
    WireTolerant(value);
    OpenBuffer(act, good, done, line, chunk + rest);
    if Breaks(chunk) {
      LineKeeps(act, good, done, line, buffer, chunk, rest);
    } else {
      TracksText(line, buffer, chunk);
      NewLineAppend(buffer, chunk);
      Assoc(line, chunk, rest);
    }
  }

  /** One chunk that fits leaves the actions of the whole stream as they were. */
  lemma OfferedKeeps(value: Parser, done: seq<Action>, line: string, buffer: string, chunk: string, chunks: seq<string>)
    requires Lawful(value) && Tracks(line, buffer) && Fits(value, line, buffer, chunk, chunks)
    requires Streamed(GoodLines(value), Ahead(line, chunk + Concat(chunks)))
    ensures var (d, b) := Offered(value, done, buffer, chunk);
      Kept(value, done, Ahead(line, chunk + Concat(chunks)), d, Through(value, line, buffer, chunk), b, Concat(chunks))
  {
    if Blank(chunk) {
      BlankKeeps(value, done, line, buffer, chunk, chunks);
    } else if Alone(value, buffer, chunk) {
      AloneKeeps(value, done, line, chunk, Concat(chunks));
    } else {
      TextKeeps(value, done, line, buffer, chunk, Concat(chunks));
    }
  }

  lemma OfferedBuffer(value: Parser, done: seq<Action>, buffer: string, chunk: string)
    ensures Offered(value, done, buffer, chunk).1 == Offered(value, [], buffer, chunk).1
  {
    OfferedCases(value, done, buffer, chunk);
    OfferedCases(value, [], buffer, chunk);
    TakenBuffer(LineActor(value), done, [], buffer + chunk);
  }

  lemma {:induction false} TakenBuffer(act: Actor, a: seq<Action>, b: seq<Action>, buffer: string)
    ensures Taken(act, a, buffer).1 == Taken(act, b, buffer).1
    decreases |buffer|
  {
    var n := NewLine(buffer);
    if n < |buffer| {
      TakenBuffer(act, a + act(buffer[..n]), b + act(buffer[..n]), buffer[n + 1..]);
    }
  }

  lemma {:induction false} FedKeeps(value: Parser, done: seq<Action>, line: string, buffer: string, chunks: seq<string>)
    requires Lawful(value) && Tracks(line, buffer) && AllFit(value, line, buffer, chunks)
    requires Streamed(GoodLines(value), Ahead(line, Concat(chunks)))
    ensures var (d, b) := Fed(value, done, buffer, chunks);
      d == Acts(LineActor(value), done, Ahead(line, Concat(chunks))) && Blank(b)
    decreases |chunks|
  {
    if chunks == [] {
      assert line + "" == line;
    } else {
      var (d, b) := Offered(value, done, buffer, chunks[0]);
      OfferedKeeps(value, done, line, buffer, chunks[0], chunks[1..]);
      OfferedBuffer(value, done, buffer, chunks[0]);
      FedKeeps(value, d, Through(value, line, buffer, chunks[0]), b, chunks[1..]);
    }
  }

  function Stream(lines: seq<string>): string {
    if lines == [] then "" else lines[0] + (['\n'] + Stream(lines[1..]))
  }

  /** The lines processed one at a time. */
  function LineByLine(act: Actor, done: seq<Action>, lines: seq<string>): seq<Action>
    decreases |lines|
  {
    if lines == [] then done else LineByLine(act, done + act(lines[0]), lines[1..])
  }

  ghost predicate WireLines(good: Lines, lines: seq<string>) {
    forall i :: 0 <= i < |lines| ==> good(lines[i]) && NewLine(lines[i]) == |lines[i]|
  }

  lemma StreamSlices(line: string, rest: string)
    requires NewLine(line) == |line|
    ensures var text := line + (['\n'] + rest);
      NewLine(text) == |line| < |text| && text[..|line|] == line && text[|line| + 1..] == rest
  {
    NewLineAppend(line, ['\n'] + rest);
    assert NewLine(['\n'] + rest) == 0;
  }

  lemma StreamStep(act: Actor, good: Lines, done: seq<Action>, line: string, rest: string)
    requires Tolerant(act, good) && good(line) && NewLine(line) == |line| && Streamed(good, rest)
    ensures var text := line + (['\n'] + rest);
      Streamed(good, text) && Acts(act, done, text) == Acts(act, done + act(line), rest)
  {
    StreamSlices(line, rest);
  }

  lemma {:induction false} StreamOfLines(act: Actor, good: Lines, done: seq<Action>, lines: seq<string>)
    requires Tolerant(act, good) && WireLines(good, lines)
    ensures Streamed(good, Stream(lines))
    ensures Acts(act, done, Stream(lines)) == LineByLine(act, done, lines)
    decreases |lines|
  {
    if lines != [] {
      StreamOfLines(act, good, done + act(lines[0]), lines[1..]);
      StreamStep(act, good, done, lines[0], Stream(lines[1..]));
    }
  }

  // ---- A chunk that does not fit ----

  lemma {:induction false} TakenExtends(act: Actor, done: seq<Action>, buffer: string)
    ensures done <= Taken(act, done, buffer).0
    decreases |buffer|
  {
    var n := NewLine(buffer);
    if n < |buffer| {
      var actions := act(buffer[..n]);
      if actions != [Fault] { TakenExtends(act, done + actions, buffer[n + 1..]); }
    }
  }

  lemma {:induction false} FedExtends(value: Parser, done: seq<Action>, buffer: string, chunks: seq<string>)
    ensures done <= Fed(value, done, buffer, chunks).0
    decreases |chunks|
  {
    if chunks != [] {
      var (d, b) := Offered(value, done, buffer, chunks[0]);
      TakenExtends(LineActor(value), done, buffer + chunks[0]);
      FedExtends(value, d, b, chunks[1..]);
    }
  }

  /** The next action of `all` after `done`, if any, is another than `a`. */
  predicate Strays(done: seq<Action>, all: seq<Action>, a: Action) {
    done <= all && (|all| == |done| || all[|done|] != a)
  }

  predicate Follows(done: seq<Action>, all: seq<Action>, a: Action) {
    done <= all && |done| < |all| && all[|done|] == a
  }

  lemma TakenFollows(act: Actor, done: seq<Action>, a: Action, text: string)
    ensures Follows(done, Acts(act, done + [a], text), a)
  {
    TakenExtends(act, done + [a], text);
    assert (done + [a])[|done|] == a;
  }

  /** The buffer's first line holds the object `u` and more. */
  predicate Spoilt(u: string, buffer: string) {
    var line := buffer[..NewLine(buffer)];
    u < Strip(line) && !Blank(line)
  }

  lemma {:induction false} BlankConcat(a: string, b: string)
    ensures Blank(a + b) <==> Blank(a) && Blank(b)
  {
    if Blank(a + b) {
      forall c | c in a ensures IsSpace(c) { assert c in a + b; }
      forall c | c in b ensures IsSpace(c) { assert c in a + b; }
    }
  }

  lemma FirstLineAppend(b: string, chunk: string)
    requires NewLine(b) == |b|
    ensures (b + chunk)[..NewLine(b + chunk)] == b + chunk[..NewLine(chunk)]
  {
    NewLineAppend(b, chunk);
  }

  lemma StaysSpoilt(u: string, buffer: string, chunk: string)
    requires Spoilt(u, buffer) && NewLine(buffer) == |buffer|
    ensures Spoilt(u, buffer + chunk)
  {
    var y := chunk[..NewLine(chunk)];
    FirstLineAppend(buffer, chunk);
    assert buffer[..NewLine(buffer)] == buffer;
    StripAppend(buffer, y);
    BlankConcat(buffer, y);
  }

  lemma VisibleLine(chunk: string)
    requires !Blank(chunk) && !Recovers([chunk])
    ensures !Blank(chunk[..NewLine(chunk)])
  {
    var n := NewLine(chunk);
    var k := LStripSplits(chunk);
    assert n < |chunk| ==> IsSpace(chunk[n]);
    assert k < n;
    assert chunk[..n][k] == chunk[k] && chunk[..n][k] in chunk[..n];
  }

  /** A chunk whose visible text comes before any line break spoils the finished line it lands on. */
  lemma Spoils(b: string, chunk: string)
    requires !Blank(b) && NewLine(b) == |b| && !Blank(chunk) && !Recovers([chunk])
    ensures Spoilt(Strip(b), b + chunk)
  {
    var y := chunk[..NewLine(chunk)];
    VisibleLine(chunk);
    FirstLineAppend(b, chunk);
    StripAppend(b, y);
    BlankConcat(b, y);
  }

  /** A line that holds an object and more is no object, and shows none. */
  lemma SpoiltLine(value: Parser, u: string, line: string, x: string)
    requires Lawful(value) && IsObject(value, u) && u < Strip(line) && IsObject(value, x)
    ensures |LineActions(value, line)| == 1 && LineActions(value, line)[0] != Seen(value, x)
  {
    StripIsTight(line);
    LoadsTight(value, Strip(line));
    assert !IsObject(value, Strip(line));
  }

  lemma OtherTaken(act: Actor, done: seq<Action>, buffer: string, a: Action)
    requires NewLine(buffer) < |buffer| && |act(buffer[..NewLine(buffer)])| == 1 && act(buffer[..NewLine(buffer)])[0] != a
    ensures Strays(done, Acts(act, done, buffer), a) && |Acts(act, done, buffer)| > |done|
  {
    var actions, rest := act(buffer[..NewLine(buffer)]), buffer[NewLine(buffer) + 1..];
    TakenExtends(act, done + actions, rest);
    assert (done + actions)[|done|] == actions[0];
  }

  lemma SpoiltTaken(value: Parser, done: seq<Action>, u: string, buffer: string, x: string)
    requires Lawful(value) && IsObject(value, u) && Spoilt(u, buffer) && IsObject(value, x)
    ensures var (d, b) := Taken(LineActor(value), done, buffer);
      if NewLine(buffer) == |buffer| then (d, b) == (done, buffer)
      else Strays(done, d, Seen(value, x)) && |d| > |done|
  {
    if NewLine(buffer) < |buffer| {
      SpoiltLine(value, u, buffer[..NewLine(buffer)], x);
      OtherTaken(LineActor(value), done, buffer, Seen(value, x));
    }
  }

  lemma StraysOn(value: Parser, done: seq<Action>, d: seq<Action>, b: string, chunks: seq<string>, a: Action)
    requires Strays(done, d, a) && |d| > |done|
    ensures Strays(done, Fed(value, d, b, chunks).0, a)
  {
    FedExtends(value, d, b, chunks);
  }

  lemma {:induction false} SpoiltFed(value: Parser, done: seq<Action>, u: string, buffer: string, chunks: seq<string>, x: string)
    requires Lawful(value) && IsObject(value, u) && Spoilt(u, buffer) && NewLine(buffer) == |buffer| && IsObject(value, x)
    ensures Strays(done, Fed(value, done, buffer, chunks).0, Seen(value, x))
    decreases |chunks|
  {
    if chunks != [] {
      SpoiltOffered(value, done, u, buffer, chunks[0], chunks[1..], x);
      if Offered(value, done, buffer, chunks[0]).0 == done {
        SpoiltFed(value, done, u, Offered(value, done, buffer, chunks[0]).1, chunks[1..], x);
      }
    }
  }

  lemma SpoiltOffered(value: Parser, done: seq<Action>, u: string, buffer: string, chunk: string, rest: seq<string>, x: string)
    requires Lawful(value) && IsObject(value, u) && Spoilt(u, buffer) && NewLine(buffer) == |buffer| && IsObject(value, x)
    ensures var (d, b) := Offered(value, done, buffer, chunk);
      if d == done then Spoilt(u, b) && NewLine(b) == |b| else Strays(done, Fed(value, d, b, rest).0, Seen(value, x))
  {
    if !Blank(chunk) {
      StaysSpoilt(u, buffer, chunk);
      SpoiltTaken(value, done, u, buffer + chunk, x);
      var (d, b) := Offered(value, done, buffer, chunk);
      assert (d, b) == Taken(LineActor(value), done, buffer + chunk);
      if d != done { StraysOn(value, done, d, b, rest, Seen(value, x)); }
    }
  }

  /** A finished line whose line break was dropped, with none to follow: no object is seen of it. */
  lemma {:induction false} StuckFed(value: Parser, done: seq<Action>, buffer: string, chunks: seq<string>, x: string)
    requires Lawful(value) && NewLine(buffer) == |buffer| && !Blank(buffer) && IsObject(value, Strip(buffer)) && !Recovers(chunks)
    requires IsObject(value, x)
    ensures Strays(done, Fed(value, done, buffer, chunks).0, Seen(value, x))
    decreases |chunks|
  {
    if chunks != [] {
      if Blank(chunks[0]) {
        StuckFed(value, done, buffer, chunks[1..], x);
      } else {
        var u := Strip(buffer);
        Spoils(buffer, chunks[0]);
        SpoiltTaken(value, done, u, buffer + chunks[0], x);
        var (d, b) := Offered(value, done, buffer, chunks[0]);
        assert (d, b) == Taken(LineActor(value), done, buffer + chunks[0]);
        if NewLine(buffer + chunks[0]) == |buffer + chunks[0]| {
          SpoiltFed(value, done, u, b, chunks[1..], x);
        } else {
          StraysOn(value, done, d, b, chunks[1..], Seen(value, x));
        }
      }
    }
  }

  /** The stream whose finished line was so dropped does show the object. */
  lemma StuckAhead(value: Parser, done: seq<Action>, buffer: string, chunk: string, rest: string)
    requires Lawful(value) && NewLine(buffer) == |buffer| && !Blank(buffer) && Blank(chunk) && NewLine(chunk) < |chunk|
    requires Streamed(GoodLines(value), buffer + (chunk + rest))
    ensures IsObject(value, Strip(buffer))
    ensures Follows(done, Acts(LineActor(value), done, buffer + (chunk + rest)), Seen(value, Strip(buffer)))
  {
    WireWired(value);
    WireTrailing(value);
    EndsInBlank(LineActor(value), GoodLines(value), done, buffer, chunk, rest);
    BlankStrip(buffer);
    ObjectActs(value, buffer);
    TakenFollows(LineActor(value), done, Seen(value, Strip(buffer)), rest);
  }

  /** The first visible text of a stream is an object. */
  lemma FirstObject(value: Parser, done: seq<Action>, text: string) returns (u: string)
    requires Lawful(value) && Streamed(GoodLines(value), text) && !Blank(text)
    ensures IsObject(value, u) && Follows(done, Acts(LineActor(value), done, text), Seen(value, u))
  {
    var act, good := LineActor(value), GoodLines(value);
    WireWired(value);
    var k := LStripSplits(text);
    var t := text[k..];
    assert text == text[..k] + t;
    DropBlank(act, good, done, text[..k], t);
    var n := NewLine(t);
    TakenOnce(act, good, done, t, n);
    assert n > 0 && t[..n][0] == t[0] && t[..n][0] in t[..n];
    BlankStrip(t[..n]);
    u := Strip(t[..n]);
    ObjectActs(value, t[..n]);
    TakenFollows(act, done, Seen(value, u), t[n + 1..]);
  }

  lemma Differ(done: seq<Action>, x: seq<Action>, y: seq<Action>, a: Action)
    requires Strays(done, x, a) && Follows(done, y, a)
    ensures x != y
  {
  }

  lemma DroppedBreakShows(value: Parser, done: seq<Action>, line: string, buffer: string, chunk: string, rest: seq<string>)
    requires Lawful(value) && Tracks(line, buffer) && Thins(value, line, buffer)
    requires !Blank(buffer) && Blank(chunk) && Breaks(chunk) && !Recovers(rest)
    requires Streamed(GoodLines(value), line + (chunk + Concat(rest)))
    ensures Fed(value, done, buffer, rest).0 != Acts(LineActor(value), done, line + (chunk + Concat(rest)))
  {
    StuckAhead(value, done, line, chunk, Concat(rest));
    assert line + "" == line && buffer + "" == buffer;
    assert HoldsObject(value, line + "") && HoldsObject(value, buffer + "");
    StuckFed(value, done, buffer, rest, Strip(line));
    Differ(done, Fed(value, done, buffer, rest).0, Acts(LineActor(value), done, line + (chunk + Concat(rest))), Seen(value, Strip(line)));
  }

  lemma StrangerShows(value: Parser, done: seq<Action>, chunk: string, chunks: seq<string>)
    requires Lawful(value) && !Blank(chunk) && Alone(value, "", chunk) && Candidate(value, chunk).None? && !IsObject(value, chunk)
    requires Streamed(GoodLines(value), chunk + Concat(chunks))
    ensures var (d, b) := Offered(value, done, "", chunk);
      Fed(value, d, b, chunks).0 != Acts(LineActor(value), done, chunk + Concat(chunks))
  {
    var d, rest := done + [Text(chunk)], Concat(chunks);
    BlankConcat(chunk, rest);
    var u := FirstObject(value, done, chunk + rest);
    OfferedCases(value, done, "", chunk);
    assert Seen(value, u) != Text(chunk) && d[|done|] == Text(chunk);
    StraysOn(value, done, d, "", chunks, Seen(value, u));
    Differ(done, Fed(value, d, "", chunks).0, Acts(LineActor(value), done, chunk + rest), Seen(value, u));
  }

  lemma OneAction(value: Parser, line: string)
    requires !Blank(line)
    ensures |LineActions(value, line)| == 1
  {
    BlankStrip(line);
  }

  /** The stream shows, of a line that ends in this chunk, the object it is. */
  lemma LineFollows(value: Parser, done: seq<Action>, line: string, chunk: string, rest: string)
    requires NewLine(line) == |line| && !Blank(line) && Breaks(chunk) && Streamed(GoodLines(value), line + (chunk + rest))
    ensures var actions := LineActions(value, line + chunk[..NewLine(chunk)]);
      |actions| == 1 && Follows(done, Acts(LineActor(value), done, line + (chunk + rest)), actions[0])
  {
    var act, whole := LineActor(value), line + chunk[..NewLine(chunk)];
    WireTolerant(value);
    LineOff(act, GoodLines(value), done, line, chunk, rest);
    BlankConcat(line, chunk[..NewLine(chunk)]);
    OneAction(value, whole);
    assert act(whole) == [act(whole)[0]];
    TakenFollows(act, done, act(whole)[0], chunk[NewLine(chunk) + 1..] + rest);
  }

  lemma ThinnedLineShows(value: Parser, done: seq<Action>, line: string, buffer: string, chunk: string, chunks: seq<string>)
    requires Tracks(line, buffer) && !Blank(buffer) && !Blank(chunk) && Breaks(chunk)
    requires LineActions(value, line + chunk[..NewLine(chunk)]) != LineActions(value, buffer + chunk[..NewLine(chunk)])
    requires Streamed(GoodLines(value), line + (chunk + Concat(chunks)))
    ensures var (d, b) := Offered(value, done, buffer, chunk);
      Fed(value, d, b, chunks).0 != Acts(LineActor(value), done, line + (chunk + Concat(chunks)))
  {
    var n, act := NewLine(chunk), LineActor(value);
    LineFollows(value, done, line, chunk, Concat(chunks));
    var a := LineActions(value, line + chunk[..n])[0];
    BlankConcat(buffer, chunk[..n]);
    OneAction(value, buffer + chunk[..n]);
    NewLineAppend(buffer, chunk);
    FirstLineAppend(buffer, chunk);
    OtherTaken(act, done, buffer + chunk, a);
    OfferedCases(value, done, buffer, chunk);
    var (d, b) := Offered(value, done, buffer, chunk);
    StraysOn(value, done, d, b, chunks, a);
    Differ(done, Fed(value, d, b, chunks).0, Acts(act, done, line + (chunk + Concat(chunks))), a);
  }

  /** A chunk that does not fit leaves its mark for good, whatever follows. */
  lemma MisfitShows(value: Parser, done: seq<Action>, line: string, buffer: string, chunks: seq<string>)
    requires Lawful(value) && Tracks(line, buffer) && Thins(value, line, buffer) && chunks != [] && !Fits(value, line, buffer, chunks[0], chunks[1..])
    requires Streamed(GoodLines(value), Ahead(line, Concat(chunks)))
    ensures Fed(value, done, buffer, chunks).0 != Acts(LineActor(value), done, Ahead(line, Concat(chunks)))
  {
    var c := chunks[0];
    if Blank(c) {
      DroppedBreakShows(value, done, line, buffer, c, chunks[1..]);
    } else if Alone(value, buffer, c) {
      StrangerShows(value, done, c, chunks[1..]);
    } else {
      ThinnedLineShows(value, done, line, buffer, c, chunks[1..]);
    }
  }

  lemma {:induction false} FedMisfit(value: Parser, done: seq<Action>, line: string, buffer: string, chunks: seq<string>)
    requires Lawful(value) && Thinnable(value) && Tracks(line, buffer) && Thins(value, line, buffer)
    requires !AllFit(value, line, buffer, chunks)
    requires Streamed(GoodLines(value), Ahead(line, Concat(chunks)))
    ensures Fed(value, done, buffer, chunks).0 != Acts(LineActor(value), done, Ahead(line, Concat(chunks)))
    decreases |chunks|
  {
    if Fits(value, line, buffer, chunks[0], chunks[1..]) {
      var (d, b) := Offered(value, done, buffer, chunks[0]);
      OfferedKeeps(value, done, line, buffer, chunks[0], chunks[1..]);
      OfferedBuffer(value, done, buffer, chunks[0]);
      ThroughThins(value, line, buffer, chunks[0]);
      FedMisfit(value, d, Through(value, line, buffer, chunks[0]), b, chunks[1..]);
    } else {
      MisfitShows(value, done, line, buffer, chunks);
    }
  }

  /**
   * Reassembly does not depend on the chunking: fitting chunks of a stream of wire lines give the actions
   * of the lines one by one, and leave nothing but white space behind.
   */
  lemma ChunkInvariant(value: Parser, lines: seq<string>, chunks: seq<string>)
    requires Lawful(value) && WireLines(GoodLines(value), lines)
    requires Concat(chunks) == Stream(lines) && AllFit(value, "", "", chunks)
    ensures Fed(value, [], "", chunks).0 == LineByLine(LineActor(value), [], lines)
    ensures Blank(Fed(value, [], "", chunks).1)
  {
    WireTolerant(value);
    StreamOfLines(LineActor(value), GoodLines(value), [], lines);
    FedKeeps(value, [], "", "", chunks);
  }

  /** And no other chunks do: exact for every chunking of every stream of wire lines. */
  lemma ChunkInvariantExact(value: Parser, lines: seq<string>, chunks: seq<string>)
    requires Lawful(value) && Thinnable(value) && WireLines(GoodLines(value), lines) && Concat(chunks) == Stream(lines)
    ensures Fed(value, [], "", chunks).0 == LineByLine(LineActor(value), [], lines) <==> AllFit(value, "", "", chunks)
  {
    if AllFit(value, "", "", chunks) {
      ChunkInvariant(value, lines, chunks);
    } else {
      WireTolerant(value);
      StreamOfLines(LineActor(value), GoodLines(value), [], lines);
        FedMisfit(value, [], "", "", chunks);
    }
  }

  /** Part of an object's text is no event. */
  lemma PartIsNoCandidate(value: Parser, u: string, part: string)
    requires Lawful(value) && IsObject(value, u) && part < u && part != ""
    ensures Candidate(value, part).None?
  {
    assert part[0] == u[0] == '{';
    JsonRStripSplits(part);
    var v := JsonRStrip(part);
    assert IsObject(value, v) ==> v <= u;
  }

  lemma HeldBack(value: Parser, done: seq<Action>, buffer: string, chunk: string)
    requires !Blank(chunk) && NewLine(buffer + chunk) == |buffer + chunk|
    requires buffer == "" ==> Candidate(value, chunk).None? && StartsWith(LStrip(chunk), OPENING)
    ensures Offered(value, done, buffer, chunk) == (done, buffer + chunk)
  {
  }

  lemma FirstHeld(value: Parser, u: string, first: string)
    requires Lawful(value) && IsObject(value, u) && first < u && StartsWith(first, OPENING) && NewLine(first) == |first|
    ensures Offered(value, [], "", first) == ([], first)
  {
    OpeningVisible(first);
    PartIsNoCandidate(value, u, first);
    HeldFirst(value, first);
  }

  lemma HeldFirst(value: Parser, first: string)
    requires !Blank(first) && Candidate(value, first).None? && StartsWith(LStrip(first), OPENING) && NewLine(first) == |first|
    ensures Offered(value, [], "", first) == ([], first)
  {
    assert "" + first == first;
    HeldBack(value, [], "", first);
  }

  lemma OpeningVisible(first: string)
    requires StartsWith(first, OPENING)
    ensures first != "" && !Blank(first) && LStrip(first) == first && StartsWith(LStrip(first), OPENING)
  {
    assert first[0] == OPENING[0] == '{' && first[0] in first;
  }

  lemma FedThree(value: Parser, a: string, b: string, c: string)
    ensures var s := Offered(value, [], "", a); var t := Offered(value, s.0, s.1, b);
      Fed(value, [], "", [a, b, c]) == Offered(value, t.0, t.1, c)
  {
    assert [a, b, c][1..] == [b, c] && [b, c][1..] == [c] && [c][1..] == [];
    var s := Offered(value, [], "", a);
    var t := Offered(value, s.0, s.1, b);
    assert Fed(value, s.0, s.1, [b, c]) == Fed(value, t.0, t.1, [c]);
  }

  /** A newline that arrives by itself is dropped as blank, and the finished line before it is never seen. */
  lemma StrayNewLineHidesLine(value: Parser, event: Object, first: string, second: string)
    requires Lawful(value) && value(first + second) == Some(Obj(event)) && IsWireEvent(event)
    requires StartsWith(first, OPENING) && !Blank(second) && NewLine(first + second) == |first + second|
    ensures LineByLine(LineActor(value), [], [first + second]) == [Wire(event)]
    ensures Fed(value, [], "", [first, second, ['\n']]) == ([], first + second)
    ensures first + second + ['\n'] == Stream([first + second])
  {
    var u := first + second;
    assert IsObject(value, u) && first < u;
    NewLineAppend(first, second);
    FirstHeld(value, u, first);
    HeldBack(value, [], first, second);
    FedThree(value, first, second, ['\n']);
    ObjectAlone(value, u, event);
  }

  /** A space that arrives by itself inside a line is dropped: another event is seen than was sent. */
  lemma StraySpaceAltersEvent(value: Parser, sent: Object, seen: Object, first: string, second: string)
    requires Lawful(value) && StartsWith(first, OPENING) && !Blank(second) && NewLine(first) == |first| && NewLine(second) == |second|
    requires value(first + " " + second) == Some(Obj(sent)) && IsWireEvent(sent)
    requires value(first + second) == Some(Obj(seen)) && IsWireEvent(seen)
    ensures LineByLine(LineActor(value), [], [first + " " + second]) == [Wire(sent)]
    ensures Fed(value, [], "", [first, " ", second + ['\n']]) == ([Wire(seen)], "")
  {
    var whole := first + " " + second;
    assert first < whole && IsObject(value, whole);
    FirstHeld(value, whole, first);
    FedThree(value, first, " ", second + ['\n']);
    ObjectAlone(value, whole, sent);
    LastPart(value, seen, first, second);
  }

  lemma LastPart(value: Parser, event: Object, first: string, second: string)
    requires Lawful(value) && value(first + second) == Some(Obj(event)) && IsWireEvent(event)
    requires first != "" && !Blank(second) && NewLine(first) == |first| && NewLine(second) == |second|
    ensures Offered(value, [], first, second + ['\n']) == ([Wire(event)], "")
  {
    ObjectLine(value, first + second, event);
    BlankConcat(second, ['\n']);
    OfferedCases(value, [], first, second + ['\n']);
    LastLine(LineActor(value), first, second);
    assert [] + [Wire(event)] == [Wire(event)];
  }

  lemma LastLine(act: Actor, first: string, second: string)
    requires NewLine(first) == |first| && NewLine(second) == |second| && act(first + second) != [Fault]
    ensures Taken(act, [], first + (second + ['\n'])) == ([] + act(first + second), "")
  {
    var chunk := second + ['\n'];
    NewLineAppend(second, ['\n']);
    assert NewLine(chunk) == |second| && chunk[..|second|] == second && chunk[|second| + 1..] == "";
    BufferOff(act, [], first, chunk);
  }

  lemma ObjectAlone(value: Parser, u: string, event: Object)
    requires Lawful(value) && value(u) == Some(Obj(event)) && IsWireEvent(event)
    ensures LineByLine(LineActor(value), [], [u]) == [Wire(event)]
    ensures Stream([u]) == u + ['\n']
  {
    ObjectLine(value, u, event);
    assert [u][1..] == [];
    assert [] + LineActor(value)(u) == [Wire(event)];
  }

  lemma ObjectLine(value: Parser, u: string, event: Object)
    requires Lawful(value) && value(u) == Some(Obj(event)) && IsWireEvent(event)
    ensures LineActions(value, u) == [Wire(event)]
  {
    assert IsObject(value, u);
    assert LStrip(u) == u && RStrip(u) == u;
    ObjectActs(value, u);
  }
}
