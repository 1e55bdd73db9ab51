/**
 * The event-stream format as the server writes it, and the two parsers that read it back: the
 * TypeScript SDK's buffer splitter and the Go SDK's line scanner.
 */
module Sse {
  import opened Json

  // ---------------------------------------------------------------- text

  /** The position of the first newline, or the length when there is none. */
  function NewlineAt(s: string): (i: nat)
    ensures i <= |s|
  {
    if s == "" || s[0] == '\n' then 0 else 1 + NewlineAt(s[1..])
  }

  lemma {:induction false} NewlineIsFirst(s: string)
    ensures NewlineAt(s) < |s| ==> s[NewlineAt(s)] == '\n'
    ensures forall j :: 0 <= j < NewlineAt(s) ==> s[j] != '\n'
  {
    if s != "" && s[0] != '\n' {
      NewlineIsFirst(s[1..]);
      assert forall j :: 1 <= j < NewlineAt(s) ==> s[j] == s[1..][j - 1];
    }
  }

  lemma {:induction false} FirstNewlineIs(s: string, i: nat)
    requires i <= |s| && (i < |s| ==> s[i] == '\n')
    requires forall j :: 0 <= j < i ==> s[j] != '\n'
    ensures NewlineAt(s) == i
  {
    if i > 0 { FirstNewlineIs(s[1..], i - 1); }
  }

  predicate BlankLineAt(s: string, i: int) {
    0 <= i < |s| - 1 && s[i] == '\n' && s[i + 1] == '\n'
  }

  /** `buffer.indexOf("\n\n")` */
  function IndexOfBlank(s: string): (i: int)
    ensures i == -1 || 0 <= i <= |s| - 2
  {
    if |s| < 2 then -1
    else if s[0] == '\n' && s[1] == '\n' then 0
    else
      var i := IndexOfBlank(s[1..]);
      if i == -1 then -1 else i + 1
  }

  lemma {:induction false} BlankIsFirst(s: string)
    ensures IndexOfBlank(s) != -1 ==> BlankLineAt(s, IndexOfBlank(s))
    ensures forall j :: BlankLineAt(s, j) ==> 0 <= IndexOfBlank(s) <= j
  {
    if |s| >= 2 && !BlankLineAt(s, 0) {
      BlankIsFirst(s[1..]);
      forall j | BlankLineAt(s, j) ensures 0 <= IndexOfBlank(s) <= j {
        assert BlankLineAt(s[1..], j - 1);
      }
    }
  }

  /** `s.split("\n")` */
  function Split(s: string): seq<string>
    decreases |s|
  {
    var i := NewlineAt(s);
    if i == |s| then [s] else [s[..i]] + Split(s[i + 1..])
  }

  function Join(lines: seq<string>): string {
    if lines == [] then ""
    else if |lines| == 1 then lines[0]
    else lines[0] + "\n" + Join(lines[1..])
  }

  function Concat(chunks: seq<string>): string {
    if chunks == [] then "" else chunks[0] + Concat(chunks[1..])
  }

  const DATA := "data:"

  predicate IsComment(line: string) {
    line != "" && line[0] == ':'
  }

  predicate IsData(line: string) {
    |line| >= 5 && line[..5] == DATA
  }

  /** What follows `data:`, less one leading space. */
  function DataOf(line: string): string
    requires IsData(line)
  {
    if |line| > 5 && line[5] == ' ' then line[6..] else line[5..]
  }

  function DataLines(lines: seq<string>): seq<string> {
    if lines == [] then []
    else (if IsData(lines[0]) then [DataOf(lines[0])] else []) + DataLines(lines[1..])
  }

  function Dispatch(data: seq<string>): seq<string> {
    if data == [] then [] else [Join(data)]
  }

  // ---------------------------------------------------------------- the TypeScript splitter

  /** handleFrame: the payload of one frame, if it has any. */
  function FramePayload(frame: string): seq<string> {
    Dispatch(DataLines(Split(frame)))
  }

  /** The inner loop: the payloads of the complete frames of the buffer, and what is left of it. */
  function Drain(buffer: string): (seq<string>, string)
    decreases |buffer|
  {
    var sep := IndexOfBlank(buffer);
    if sep == -1 then ([], buffer)
    else
      var r := Drain(buffer[sep + 2..]);
      (FramePayload(buffer[..sep]) + r.0, r.1)
  }

  /** A payload that throws on the way to its callback ends the connection. */
  function UpToBad(good: string -> bool, payloads: seq<string>): seq<string> {
    if payloads == [] || !good(payloads[0]) then []
    else [payloads[0]] + UpToBad(good, payloads[1..])
  }

  function OnlyGood(good: string -> bool, payloads: seq<string>): seq<string> {
    if payloads == [] then []
    else (if good(payloads[0]) then [payloads[0]] else []) + OnlyGood(good, payloads[1..])
  }

  predicate AllGood(good: string -> bool, payloads: seq<string>) {
    forall p :: p in payloads ==> good(p)
  }

  lemma {:induction false} UpToBadSplits(good: string -> bool, a: seq<string>, b: seq<string>)
    ensures AllGood(good, a) ==> UpToBad(good, a + b) == a + UpToBad(good, b)
    ensures !AllGood(good, a) ==> UpToBad(good, a + b) == UpToBad(good, a)
  {
    if a == [] {
      assert a + b == b;
    } else {
      assert (a + b)[1..] == a[1..] + b;
      UpToBadSplits(good, a[1..], b);
      assert forall p :: p in a <==> p == a[0] || p in a[1..];
    }
  }

  lemma BlankStaysFirst(x: string, y: string)
    requires IndexOfBlank(x) != -1
    ensures IndexOfBlank(x + y) == IndexOfBlank(x)
  {
    var i, k := IndexOfBlank(x), IndexOfBlank(x + y);
    BlankIsFirst(x);
    BlankIsFirst(x + y);
    assert BlankLineAt(x + y, i);
    assert BlankLineAt(x, k);
  }

  function Framed(frame: string, rest: string): string {
    frame + "\n" + ("\n" + rest)
  }

  /** One turn of the inner loop. */
  lemma DrainFrame(frame: string, rest: string)
    requires IndexOfBlank(Framed(frame, rest)) == |frame|
    ensures Drain(Framed(frame, rest)) == (FramePayload(frame) + Drain(rest).0, Drain(rest).1)
  {
    var t := Framed(frame, rest);
    assert t[..|frame|] == frame && t[|frame| + 2..] == rest;
  }

  lemma AsFramed(text: string)
    requires IndexOfBlank(text) != -1
    ensures var sep := IndexOfBlank(text);
            text == Framed(text[..sep], text[sep + 2..])
  {
    BlankIsFirst(text);
  }

  /** Draining as the text arrives is draining it all at once. */
  lemma {:induction false} DrainIsIncremental(x: string, y: string)
    ensures Drain(x + y).0 == Drain(x).0 + Drain(Drain(x).1 + y).0
    ensures Drain(x + y).1 == Drain(Drain(x).1 + y).1
    decreases |x|
  {
    hide FramePayload, IndexOfBlank;
    var sep := IndexOfBlank(x);
    if sep == -1 {
      assert [] + Drain(x + y).0 == Drain(x + y).0;
    } else {
      var frame, rest := x[..sep], x[sep + 2..];
      AsFramed(x);
      BlankStaysFirst(x, y);
      assert x + y == Framed(frame, rest + y);
      DrainFrame(frame, rest);
      DrainFrame(frame, rest + y);
      DrainIsIncremental(rest, y);
    }
  }

  /** One openStream connection. */
  class TsParser {
    const good: string -> bool
    var buffer: string
    var failed: bool
    var emitted: seq<string>
    /** Everything received, whether or not it was still read. */
    ghost var input: string

    ghost predicate Valid()
      reads this
    {
      && emitted == UpToBad(good, Drain(input).0)
      && (failed <==> !AllGood(good, Drain(input).0))
      && (!failed ==> buffer == Drain(input).1)
    }

    constructor (good: string -> bool)
      ensures Valid() && input == "" && this.good == good
    {
      this.good := good;
      buffer, failed, emitted, input := "", false, [], "";
    }

    /** Returns false when the payload does not parse. */
    method HandleFrame(frame: string) returns (ok: bool)
      modifies this`emitted
      ensures ok <==> AllGood(good, FramePayload(frame))
      ensures emitted == old(emitted) + UpToBad(good, FramePayload(frame))
    {
      var lines := Split(frame);
      var dataLines: seq<string> := [];
      for i := 0 to |lines|
        invariant dataLines + DataLines(lines[i..]) == DataLines(lines)
      {
        var line := lines[i];
        assert lines[i..][1..] == lines[i + 1..];
        if !IsComment(line) && IsData(line) {
          dataLines := dataLines + [DataOf(line)];
        }
      }
      assert dataLines == DataLines(lines);
      if dataLines == [] {
        return true;
      }
      var payload := Join(dataLines);
      ok := good(payload);
      if ok {
        emitted := emitted + [payload];
      }
    }

    /** The inner loop: takes complete frames off the buffer until there is none. */
    method DrainBuffer()
      requires !failed
      modifies this`buffer, this`emitted, this`failed
      ensures emitted == old(emitted) + UpToBad(good, Drain(old(buffer)).0)
      ensures failed <==> !AllGood(good, Drain(old(buffer)).0)
      ensures !failed ==> buffer == Drain(old(buffer)).1
    {
      hide FramePayload, IndexOfBlank, UpToBad;
      ghost var all := Drain(buffer);
      var sep := IndexOfBlank(buffer);
      while sep != -1
        invariant !failed && sep == IndexOfBlank(buffer)
        invariant emitted + UpToBad(good, Drain(buffer).0) == old(emitted) + UpToBad(good, all.0)
        invariant AllGood(good, Drain(buffer).0) <==> AllGood(good, all.0)
        invariant Drain(buffer).1 == all.1
        decreases |buffer|
      {
        var frame := buffer[..sep];
        AsFramed(buffer);
        buffer := buffer[sep + 2..];
        DrainFrame(frame, buffer);
        UpToBadSplits(good, FramePayload(frame), Drain(buffer).0);
        AllGoodSplits(good, FramePayload(frame), Drain(buffer).0);
        UpToBadOfGood(good, FramePayload(frame));
        var ok := HandleFrame(frame);
        if !ok {
          failed := true;
          return;
        }
        sep := IndexOfBlank(buffer);
      }
      UpToBadOfGood(good, []);
    }

    /** One read of the body. A connection that has failed reads no more. */
    method OnChunk(chunk: string)
      requires Valid()
      modifies this
      ensures Valid() && input == old(input) + chunk
    {
      ghost var early := Drain(input).0;
      ghost var late := Drain(Drain(input).1 + chunk).0;
      DrainIsIncremental(input, chunk);
      UpToBadSplits(good, early, late);
      AllGoodSplits(good, early, late);
      UpToBadOfGood(good, early);
      input := input + chunk;
      if failed {
        return;
      }
      buffer := buffer + chunk;
      DrainBuffer();
    }
  }

  lemma AllGoodSplits(good: string -> bool, a: seq<string>, b: seq<string>)
    ensures AllGood(good, a + b) <==> AllGood(good, a) && AllGood(good, b)
  {
    assert forall p :: p in a + b <==> p in a || p in b;
  }

  lemma {:induction false} UpToBadOfGood(good: string -> bool, a: seq<string>)
    ensures AllGood(good, a) ==> UpToBad(good, a) == a
  {
    if a != [] { UpToBadOfGood(good, a[1..]); }
  }

  lemma {:induction false} ConcatSnoc(chunks: seq<string>, c: string)
    ensures Concat(chunks + [c]) == Concat(chunks) + c
  {
    if chunks == [] {
      assert [c][1..] == [];
      assert "" + c == c && c + "" == c;
    } else {
      assert (chunks + [c])[1..] == chunks[1..] + [c];
      ConcatSnoc(chunks[1..], c);
    }
  }

  /** However the bytes are cut into chunks, the same payloads come out. */
  method ReadAll(good: string -> bool, chunks: seq<string>) returns (emitted: seq<string>)
    ensures emitted == UpToBad(good, Drain(Concat(chunks)).0)
  {
    var parser := new TsParser(good);
    for i := 0 to |chunks|
      invariant parser.Valid() && parser.good == good && parser.input == Concat(chunks[..i])
      invariant fresh(parser)
    {
      ConcatSnoc(chunks[..i], chunks[i]);
      assert chunks[..i + 1] == chunks[..i] + [chunks[i]];
      parser.OnChunk(chunks[i]);
    }
    assert chunks[..|chunks|] == chunks;
    emitted := parser.emitted;
  }

  // ---------------------------------------------------------------- the Go scanner

  predicate EndsInCR(line: string) {
    line != "" && line[|line| - 1] == '\r'
  }

  /** bufio.ScanLines drops one trailing carriage return. */
  function DropCR(line: string): string {
    if EndsInCR(line) then line[..|line| - 1] else line
  }

  /** One line's effect: the payload it dispatches, and the data lines gathered after it. */
  function Line(line: string, data: seq<string>): (seq<string>, seq<string>) {
    if line == "" then (Dispatch(data), [])
    else if IsData(line) then ([], data + [DataOf(line)])
    else ([], data)
  }

  /** The payloads scanned, and whether the scan ended in the token-too-long error. */
  function Scan(cap: nat, text: string, data: seq<string>): (seq<string>, bool)
    decreases |text|
  {
    var i := NewlineAt(text);
    if i >= cap then ([], true)
    else if i == |text| then (if text == "" then ([], false) else (Line(DropCR(text), data).0, false))
    else
      var (out, data') := Line(DropCR(text[..i]), data);
      var r := Scan(cap, text[i + 1..], data');
      (out + r.0, r.1)
  }

  /** The switch in the scanner loop. */
  method TakeLine(line: string, dataLines: seq<string>) returns (dispatched: seq<string>, next: seq<string>)
    ensures (dispatched, next) == Line(line, dataLines)
  {
    dispatched, next := [], dataLines;
    if line == "" {
      if dataLines != [] {
        dispatched := [Join(dataLines)];
      }
      next := [];
    } else if IsComment(line) {
    } else if IsData(line) {
      next := dataLines + [DataOf(line)];
    }
  }

  /** The Go SDK's stream loop over the whole body: payloads that do not parse are skipped. */
  method ScanLoop(good: string -> bool, cap: nat, text: string) returns (emitted: seq<string>, tooLong: bool)
    ensures emitted == OnlyGood(good, Scan(cap, text, []).0)
    ensures tooLong == Scan(cap, text, []).1
  {
    hide NewlineAt, DropCR, OnlyGood, Line;
    var rest, dataLines := text, [];
    emitted := [];
    var i := NewlineAt(rest);
    while i < cap && i < |rest|
      invariant i == NewlineAt(rest)
      invariant emitted + OnlyGood(good, Scan(cap, rest, dataLines).0) == OnlyGood(good, Scan(cap, text, []).0)
      invariant Scan(cap, rest, dataLines).1 == Scan(cap, text, []).1
      decreases |rest|
    {
      var dispatched, next := TakeLine(DropCR(rest[..i]), dataLines);
      OnlyGoodSplits(good, dispatched, Scan(cap, rest[i + 1..], next).0);
      emitted := emitted + OnlyGood(good, dispatched);
      rest, dataLines := rest[i + 1..], next;
      i := NewlineAt(rest);
    }
    OnlyGoodIsGood(good, []);
    if i >= cap {
      return emitted, true;
    }
    if rest != "" {
      var dispatched, _ := TakeLine(DropCR(rest), dataLines);
      emitted := emitted + OnlyGood(good, dispatched);
    }
    return emitted, false;
  }

  lemma {:induction false} OnlyGoodSplits(good: string -> bool, a: seq<string>, b: seq<string>)
    ensures OnlyGood(good, a + b) == OnlyGood(good, a) + OnlyGood(good, b)
  {
    if a == [] {
      assert a + b == b;
    } else {
      assert (a + b)[1..] == a[1..] + b;
      OnlyGoodSplits(good, a[1..], b);
    }
  }

  // ---------------------------------------------------------------- agreement

  /** Every line fits the scanner's buffer. */
  predicate Short(cap: nat, text: string)
    decreases |text|
  {
    var i := NewlineAt(text);
    i < cap && (i < |text| ==> Short(cap, text[i + 1..]))
  }

  /** The lines the scanner makes of a text: no empty one after the last newline. */
  function Tokens(text: string): seq<string>
    decreases |text|
  {
    var i := NewlineAt(text);
    if i < |text| then [text[..i]] + Tokens(text[i + 1..])
    else if text == "" then []
    else [text]
  }

  /** What the scanner dispatches over some lines, and the data lines it is left with. */
  function Pieces(lines: seq<string>, data: seq<string>): (seq<string>, seq<string>)
    decreases |lines|
  {
    if lines == [] then ([], data)
    else
      var (out, data') := Line(DropCR(lines[0]), data);
      var r := Pieces(lines[1..], data');
      (out + r.0, r.1)
  }

  const CR := "\r"

  /**
   * A frame both parsers read alike: no data line ends in a carriage return, and no line that is
   * nothing else comes between two data lines. pending says whether a data line has gone before.
   */
  predicate FrameAlike(lines: seq<string>, pending: bool)
    decreases |lines|
  {
    if lines == [] then true
    else if IsData(lines[0]) then !EndsInCR(lines[0]) && FrameAlike(lines[1..], true)
    else if lines[0] == CR && pending then DataLines(lines[1..]) == []
    else FrameAlike(lines[1..], pending)
  }

  /** An unfinished frame of which the scanner dispatches nothing: no such line after a data line. */
  predicate NothingCutOff(lines: seq<string>, pending: bool)
    decreases |lines|
  {
    if lines == [] then true
    else if lines[0] == CR && pending then false
    else NothingCutOff(lines[1..], pending || IsData(lines[0]))
  }

  predicate Alike(text: string)
    decreases |text|
  {
    var sep := IndexOfBlank(text);
    if sep == -1 then NothingCutOff(Tokens(text), false)
    else FrameAlike(Split(text[..sep]), false) && Alike(text[sep + 2..])
  }

  lemma FirstNewlineIn(frame: string, tail: string)
    ensures NewlineAt(frame + "\n" + tail) == NewlineAt(frame)
  {
    var t := frame + "\n" + tail;
    NewlineIsFirst(frame);
    assert t[NewlineAt(frame)] == '\n';
    FirstNewlineIs(t, NewlineAt(frame));
  }

  /** One turn of the scanner loop. */
  lemma ScanLine(cap: nat, line: string, rest: string, data: seq<string>)
    requires NewlineAt(line) == |line| < cap
    ensures Short(cap, line + "\n" + rest) <==> Short(cap, rest)
    ensures var (out, data') := Line(DropCR(line), data);
            Scan(cap, line + "\n" + rest, data) == (out + Scan(cap, rest, data').0, Scan(cap, rest, data').1)
  {
    var t := line + "\n" + rest;
    FirstNewlineIn(line, rest);
    assert t[..|line|] == line && t[|line| + 1..] == rest;
  }

  /** The scan ends in the token-too-long error exactly when some line does not fit. */
  lemma {:induction false} TooLongExactly(cap: nat, text: string, data: seq<string>)
    ensures Scan(cap, text, data).1 <==> !Short(cap, text)
    decreases |text|
  {
    var i := NewlineAt(text);
    if i < cap && i < |text| {
      TooLongExactly(cap, text[i + 1..], Line(DropCR(text[..i]), data).1);
    }
  }

  lemma {:induction false} ScanTokens(cap: nat, text: string, data: seq<string>)
    requires Short(cap, text)
    ensures Scan(cap, text, data).0 == Pieces(Tokens(text), data).0
    decreases |text|
  {
    var i := NewlineAt(text);
    if i < |text| {
      var data' := Line(DropCR(text[..i]), data).1;
      ScanTokens(cap, text[i + 1..], data');
      assert Tokens(text)[1..] == Tokens(text[i + 1..]);
    } else if text != "" {
      assert Tokens(text) == [text] && [text][1..] == [];
      assert Line(DropCR(text), data).0 + [] == Line(DropCR(text), data).0;
    }
  }

  ghost predicate NoBlank(s: string) {
    forall i :: !BlankLineAt(s, i)
  }

  /** Text whose only blank line can be at its start, and whose last line is not empty. */
  ghost predicate Solid(s: string) {
    NoBlank(s) && (s != "" ==> s[|s| - 1] != '\n')
  }

  /** Only the first line can be empty. */
  predicate Filled(lines: seq<string>) {
    forall i :: 0 < i < |lines| ==> lines[i] != ""
  }

  lemma SplitAt(s: string, i: nat)
    requires i < |s| && i == NewlineAt(s)
    ensures s == s[..i] + "\n" + s[i + 1..]
    ensures NewlineAt(s[..i]) == i
    ensures NoBlank(s) ==> NoBlank(s[i + 1..]) && (i + 1 < |s| ==> s[i + 1] != '\n')
  {
    hide NewlineAt, NoBlank;
    NewlineIsFirst(s);
    FirstNewlineIs(s[..i], i);
    if NoBlank(s) { NoBlankAfter(s, i); }
  }

  lemma NoBlankAfter(s: string, i: nat)
    requires i < |s| && s[i] == '\n' && NoBlank(s)
    ensures NoBlank(s[i + 1..]) && (i + 1 < |s| ==> s[i + 1] != '\n')
  {
    var tail := s[i + 1..];
    forall j ensures !BlankLineAt(tail, j) {
      assert !BlankLineAt(s, i + 1 + j);
    }
    assert !BlankLineAt(s, i);
  }

  lemma {:induction false} TokensFilled(text: string)
    requires NoBlank(text)
    ensures Filled(Tokens(text))
    ensures text != "" && text[0] != '\n' ==> Tokens(text) != [] && Tokens(text)[0] != ""
    decreases |text|
  {
    var i := NewlineAt(text);
    if i < |text| {
      SplitAt(text, i);
      NewlineIsFirst(text);
      TokensFilled(text[i + 1..]);
    }
  }

  lemma {:induction false} SplitFilled(frame: string)
    requires Solid(frame)
    ensures Filled(Split(frame)) && Split(frame) != []
    ensures frame != "" && frame[0] != '\n' ==> Split(frame)[0] != ""
    decreases |frame|
  {
    var i := NewlineAt(frame);
    if i < |frame| {
      SplitAt(frame, i);
      NewlineIsFirst(frame);
      assert frame[i + 1..] != "" && frame[i + 1..][|frame| - i - 2] == frame[|frame| - 1];
      SplitFilled(frame[i + 1..]);
    }
  }

  /** The scanner over one frame and the blank line that ends it. */
  lemma {:induction false} ScanFrame(cap: nat, frame: string, rest: string, data: seq<string>)
    requires Short(cap, Framed(frame, rest))
    ensures Short(cap, rest)
    ensures var (out, left) := Pieces(Split(frame), data);
            Scan(cap, Framed(frame, rest), data).0 == out + Dispatch(left) + Scan(cap, rest, []).0
    decreases |frame|
  {
    hide NewlineAt, Scan, Dispatch, IsData, DropCR;
    var i := NewlineAt(frame);
    FirstNewlineIn(frame, "\n" + rest);
    FirstFits(cap, frame, "\n" + rest);
    if i == |frame| {
      ScanLine(cap, frame, "\n" + rest, data);
      assert "" + "\n" + rest == "\n" + rest;
      FirstNewlineIs("", 0);
      FirstFits(cap, "", rest);
      var (out, left) := Line(DropCR(frame), data);
      ScanLine(cap, "", rest, left);
      assert DropCR("") == "" by { DropNothing(); }
      assert Split(frame) == [frame] && [frame][1..] == [];
      assert Pieces([], left) == ([], left) && out + [] == out;
      assert Scan(cap, rest, Line("", left).1) == Scan(cap, rest, []);
      assert out + (Dispatch(left) + Scan(cap, rest, []).0) == out + Dispatch(left) + Scan(cap, rest, []).0;
    } else {
      var line, tail := frame[..i], frame[i + 1..];
      SplitAt(frame, i);
      assert Framed(frame, rest) == line + "\n" + Framed(tail, rest);
      ScanLine(cap, line, Framed(tail, rest), data);
      assert Split(frame) == [line] + Split(tail) && Split(frame)[1..] == Split(tail);
      var (out, data') := Line(DropCR(line), data);
      ScanFrame(cap, tail, rest, data');
      var (out', left) := Pieces(Split(tail), data');
      assert out + (out' + Dispatch(left) + Scan(cap, rest, []).0)
          == out + out' + Dispatch(left) + Scan(cap, rest, []).0;
    }
  }

  lemma DropNothing()
    ensures DropCR("") == ""
  {
  }

  lemma FirstFits(cap: nat, frame: string, tail: string)
    requires Short(cap, frame + "\n" + tail)
    ensures NewlineAt(frame) < cap
  {
    FirstNewlineIn(frame, tail);
  }

  // ---------------------------------------------------------------- one frame, line by line

  lemma {:induction false} JoinSnoc(lines: seq<string>, line: string)
    ensures |Join(lines + [line])| == |Join(lines)| + (if lines == [] then 0 else 1) + |line|
  {
    if lines != [] {
      assert (lines + [line])[1..] == lines[1..] + [line];
      JoinSnoc(lines[1..], line);
    } else {
      assert lines + [line] == [line];
    }
  }

  lemma {:induction false} JoinGrows(lines: seq<string>, more: seq<string>)
    requires lines != [] && more != []
    ensures |Join(lines)| < |Join(lines + more)|
    decreases |more|
  {
    JoinSnoc(lines, more[0]);
    assert lines + more == (lines + [more[0]]) + more[1..];
    if |more| > 1 {
      JoinGrows(lines + [more[0]], more[1..]);
    } else {
      assert lines + more == lines + [more[0]];
    }
  }

  lemma DataSurvivesDrop(line: string)
    ensures IsData(DropCR(line)) <==> IsData(line)
    ensures IsData(line) && EndsInCR(line) ==> |DataOf(DropCR(line))| < |DataOf(line)|
  {
    if EndsInCR(line) {
      assert IsData(line) ==> line[4] == DATA[4] && |line| > 5;
      assert IsData(DropCR(line)) ==> line[..5] == DropCR(line)[..5];
    }
  }

  /** What a line other than an empty one does to the data gathered so far. */
  lemma LineGathers(line: string, data: seq<string>)
    requires line != ""
    ensures Line(DropCR(line), data)
         == if IsData(line) then ([], data + [DataOf(DropCR(line))])
            else if line == CR then (Dispatch(data), [])
            else ([], data)
    ensures DropCR(line) == "" <==> line == CR
  {
    DataSurvivesDrop(line);
    if EndsInCR(line) && |line| == 1 { assert line == CR; }
  }

  lemma {:induction false} NoDataNothing(lines: seq<string>)
    requires DataLines(lines) == []
    ensures Pieces(lines, []) == ([], [])
    decreases |lines|
  {
    if lines != [] {
      DataSurvivesDrop(lines[0]);
      NoDataNothing(lines[1..]);
    }
  }

  /**
   * From the same point of a frame on, with go and ts gathered before: either the parsers dispatch
   * the same, or both dispatch something and the scanner's first payload is the shorter one.
   */
  ghost predicate Compared(lines: seq<string>, go: seq<string>, ts: seq<string>) {
    var (out, left) := Pieces(lines, go);
    var g, t := out + Dispatch(left), Dispatch(ts + DataLines(lines));
    if go == ts && FrameAlike(lines, ts != []) then g == t
    else g != [] && t != [] && |g[0]| < |t[0]|
  }

  /** The scanner has gathered as many data lines as the splitter has, and no longer ones. */
  ghost predicate Abreast(go: seq<string>, ts: seq<string>) {
    |go| == |ts| && (go == ts || |Join(go)| < |Join(ts)|)
  }

  lemma QuietStep(lines: seq<string>, go: seq<string>, ts: seq<string>)
    requires lines != [] && !IsData(lines[0]) && Line(DropCR(lines[0]), go) == ([], go)
    requires lines[0] == CR ==> ts == []
    requires Compared(lines[1..], go, ts)
    ensures Compared(lines, go, ts)
  {
    hide Dispatch, IsData, DropCR, Line;
    var rest := lines[1..];
    assert [] + Pieces(rest, go).0 == Pieces(rest, go).0;
    assert [] + DataLines(rest) == DataLines(rest);
  }

  lemma DataAbreast(line: string, go: seq<string>, ts: seq<string>)
    requires IsData(line) && IsData(DropCR(line)) && Abreast(go, ts)
    ensures var go', ts' := go + [DataOf(DropCR(line))], ts + [DataOf(line)];
            Abreast(go', ts') && (go' == ts' <==> go == ts && !EndsInCR(line))
  {
    hide Join;
    DataSurvivesDrop(line);
    JoinSnoc(go, DataOf(DropCR(line)));
    JoinSnoc(ts, DataOf(line));
    Snocs(go, ts, DataOf(DropCR(line)), DataOf(line));
  }

  lemma DataStep(lines: seq<string>, go: seq<string>, ts: seq<string>)
    requires lines != [] && IsData(lines[0]) && IsData(DropCR(lines[0]))
    requires Line(DropCR(lines[0]), go) == ([], go + [DataOf(DropCR(lines[0]))])
    requires go + [DataOf(DropCR(lines[0]))] == ts + [DataOf(lines[0])] <==> go == ts && !EndsInCR(lines[0])
    requires Compared(lines[1..], go + [DataOf(DropCR(lines[0]))], ts + [DataOf(lines[0])])
    ensures Compared(lines, go, ts)
  {
    hide Dispatch, IsData, DropCR, Line, DataOf, EndsInCR;
    var rest, go', ts' := lines[1..], go + [DataOf(DropCR(lines[0]))], ts + [DataOf(lines[0])];
    assert [] + Pieces(rest, go').0 == Pieces(rest, go').0;
    assert ts + ([DataOf(lines[0])] + DataLines(rest)) == ts' + DataLines(rest);
  }

  /** A lone carriage return after data: the scanner dispatches what it has. */
  lemma CutStep(lines: seq<string>, go: seq<string>, ts: seq<string>)
    requires lines != [] && lines[0] == CR && !IsData(CR) && Abreast(go, ts) && ts != []
    requires Line(DropCR(CR), go) == (Dispatch(go), [])
    ensures Compared(lines, go, ts)
  {
    hide IsData, DropCR, Line, Join;
    var rest := lines[1..];
    assert Pieces(lines, go) == (Dispatch(go) + Pieces(rest, []).0, Pieces(rest, []).1);
    assert DataLines(lines) == DataLines(rest) by { assert [] + DataLines(rest) == DataLines(rest); }
    if DataLines(rest) == [] {
      NoDataNothing(rest);
      assert ts + [] == ts;
      assert Dispatch(go) + [] + [] == Dispatch(go);
    } else {
      JoinGrows(ts, DataLines(rest));
    }
  }

  lemma {:induction false} FrameCompared(lines: seq<string>, go: seq<string>, ts: seq<string>)
    requires Abreast(go, ts) && Filled(lines) && (lines != [] && lines[0] == "" ==> ts == [])
    ensures Compared(lines, go, ts)
    decreases |lines|
  {
    hide EndsInCR, DropCR, IsData, Join, Compared, FrameAlike;
    if lines == [] {
      NothingLeft(go, ts);
    } else {
      var line, rest := lines[0], lines[1..];
      if line == "" {
        DropNothing();
        NotData();
        FrameCompared(rest, [], []);
        QuietStep(lines, [], []);
      } else {
        LineGathers(line, go);
        if IsData(line) {
          DataSurvivesDrop(line);
          DataAbreast(line, go, ts);
          FrameCompared(rest, go + [DataOf(DropCR(line))], ts + [DataOf(line)]);
          DataStep(lines, go, ts);
        } else if line == CR && ts != [] {
          CutStep(lines, go, ts);
        } else {
          FrameCompared(rest, go, ts);
          QuietStep(lines, go, ts);
        }
      }
    }
  }

  lemma NothingLeft(go: seq<string>, ts: seq<string>)
    requires Abreast(go, ts)
    ensures Compared([], go, ts)
  {
    assert [] + Dispatch(go) == Dispatch(go) && ts + [] == ts;
  }

  lemma NotData()
    ensures !IsData("")
  {
  }

  lemma Snocs(a: seq<string>, b: seq<string>, x: string, y: string)
    requires |a| == |b|
    ensures a + [x] == b + [y] <==> a == b && x == y
  {
    if a + [x] == b + [y] {
      assert (a + [x])[..|a|] == a && (b + [y])[..|b|] == b;
      assert (a + [x])[|a|] == x && (b + [y])[|b|] == y;
    }
  }

  lemma {:induction false} RestCompared(lines: seq<string>, data: seq<string>)
    requires Filled(lines) && (lines != [] && lines[0] == "" ==> data == [])
    ensures Pieces(lines, data).0 == [] <==> NothingCutOff(lines, data != [])
    decreases |lines|
  {
    hide EndsInCR, DropCR, IsData;
    if lines != [] {
      if lines[0] == "" {
        DropNothing();
        NotData();
        RestCompared(lines[1..], []);
      } else {
        LineGathers(lines[0], data);
        RestCompared(lines[1..], Line(DropCR(lines[0]), data).1);
      }
    }
  }

  // ---------------------------------------------------------------- whole texts

  lemma FirstFrameIsSolid(text: string)
    requires IndexOfBlank(text) != -1
    ensures Solid(text[..IndexOfBlank(text)])
  {
    var sep := IndexOfBlank(text);
    var frame := text[..sep];
    BlankIsFirst(text);
    assert forall i :: BlankLineAt(frame, i) ==> BlankLineAt(text, i);
    assert frame != "" && frame[sep - 1] == '\n' ==> BlankLineAt(text, sep - 1);
  }

  /**
   * Exactly when the line scanner and the buffer splitter see the same payloads, of which carriage
   * returns are the whole story: when every line fits the scanner's buffer, in every frame no data
   * line ends in a carriage return and no lone one comes between data lines, and after the last
   * frame none comes after a data line.
   */
  lemma {:induction false} ParsersAgree(cap: nat, text: string)
    ensures Scan(cap, text, []) == (Drain(text).0, false) <==> Short(cap, text) && Alike(text)
    decreases |text|
  {
    TooLongExactly(cap, text, []);
    if Short(cap, text) { ParsersAgreeOnShort(cap, text); }
  }

  lemma {:induction false} ParsersAgreeOnShort(cap: nat, text: string)
    requires Short(cap, text)
    ensures Scan(cap, text, []).0 == Drain(text).0 <==> Alike(text)
    decreases |text|
  {
    hide Scan, Pieces, FrameAlike, Short, Dispatch, DataLines, Tokens, NothingCutOff;
    var sep := IndexOfBlank(text);
    if sep == -1 {
      BlankIsFirst(text);
      TokensFilled(text);
      ScanTokens(cap, text, []);
      RestCompared(Tokens(text), []);
    } else {
      var frame, rest := text[..sep], text[sep + 2..];
      AsFramed(text);
      FirstFrameIsSolid(text);
      SplitFilled(frame);
      ScanFrame(cap, frame, rest, []);
      DrainFrame(frame, rest);
      FrameCompared(Split(frame), [], []);
      assert [] + DataLines(Split(frame)) == DataLines(Split(frame));
      ParsersAgreeOnShort(cap, rest);
      var (out, left) := Pieces(Split(frame), []);
      Peel(out + Dispatch(left), FramePayload(frame), Scan(cap, rest, []).0, Drain(rest).0);
    }
  }

  lemma Peel(g: seq<string>, t: seq<string>, gs: seq<string>, ts: seq<string>)
    requires g == t || (g != [] && t != [] && |g[0]| < |t[0]|)
    ensures g + gs == t + ts <==> g == t && gs == ts
  {
    assert g != [] ==> (g + gs)[0] == g[0];
    assert t != [] ==> (t + ts)[0] == t[0];
    assert (g + gs)[|g|..] == gs && (t + ts)[|t|..] == ts;
  }

  predicate NoneEndsInCR(lines: seq<string>) {
    forall l :: l in lines ==> !EndsInCR(l)
  }

  lemma {:induction false} CleanLines(lines: seq<string>, pending: bool)
    requires NoneEndsInCR(lines)
    ensures FrameAlike(lines, pending) && NothingCutOff(lines, pending)
    decreases |lines|
  {
    if lines != [] {
      assert lines[0] in lines && EndsInCR(CR);
      CleanLines(lines[1..], pending);
      CleanLines(lines[1..], true);
    }
  }

  lemma {:induction false} CleanText(text: string)
    requires '\r' !in text
    ensures NoneEndsInCR(Tokens(text)) && NoneEndsInCR(Split(text))
    decreases |text|
  {
    var i := NewlineAt(text);
    if i < |text| {
      CleanText(text[i + 1..]);
    }
  }

  /** In particular on text without carriage returns. */
  lemma {:induction false} WithoutCRAlike(text: string)
    requires '\r' !in text
    ensures Alike(text)
    decreases |text|
  {
    CleanText(text);
    var sep := IndexOfBlank(text);
    if sep == -1 {
      CleanLines(Tokens(text), false);
    } else {
      CleanText(text[..sep]);
      CleanLines(Split(text[..sep]), false);
      WithoutCRAlike(text[sep + 2..]);
    }
  }

  /**
   * When one parser accepts at least what the other stops short of. TypeScript takes what its
   * JSON.parse and its callbacks let through (goodTs), Go what also unmarshals into its struct
   * (goodGo), and neither includes the other.
   */
  lemma {:induction false} PrefixExactly(goodTs: string -> bool, goodGo: string -> bool, payloads: seq<string>)
    ensures UpToBad(goodTs, payloads) <= OnlyGood(goodGo, payloads)
            <==> forall x :: x in UpToBad(goodTs, payloads) ==> goodGo(x)
  {
    if payloads != [] && goodTs(payloads[0]) {
      var ts, go := UpToBad(goodTs, payloads), OnlyGood(goodGo, payloads);
      var rest := payloads[1..];
      PrefixExactly(goodTs, goodGo, rest);
      assert ts == [payloads[0]] + UpToBad(goodTs, rest);
      assert payloads[0] in ts;
      assert forall x :: x in ts <==> x == payloads[0] || x in UpToBad(goodTs, rest);
      if goodGo(payloads[0]) {
        assert go == [payloads[0]] + OnlyGood(goodGo, rest);
        assert ts <= go <==> UpToBad(goodTs, rest) <= OnlyGood(goodGo, rest) by {
          if ts <= go { assert ts[1..] <= go[1..]; }
        }
      } else {
        OnlyGoodIsGood(goodGo, payloads);
        if ts <= go { PrefixHead(ts, go); }
      }
    }
  }

  lemma PrefixHead<T>(a: seq<T>, b: seq<T>)
    requires a != [] && a <= b
    ensures a[0] in b
  {
    assert a[0] == b[0];
  }

  lemma {:induction false} OnlyGoodIsGood(good: string -> bool, payloads: seq<string>)
    ensures AllGood(good, OnlyGood(good, payloads))
    ensures OnlyGood(good, payloads) == [] <==> forall x :: x in payloads ==> !good(x)
  {
    if payloads != [] {
      OnlyGoodIsGood(good, payloads[1..]);
      assert forall x :: x in payloads <==> x == payloads[0] || x in payloads[1..];
    }
  }

  /** Where TypeScript stops. */
  lemma {:induction false} UpToBadIsTake(good: string -> bool, payloads: seq<string>)
    ensures UpToBad(good, payloads) <= payloads
    ensures AllGood(good, payloads) <==> UpToBad(good, payloads) == payloads
  {
    if payloads != [] {
      UpToBadIsTake(good, payloads[1..]);
      assert payloads == [payloads[0]] + payloads[1..];
      assert forall x :: x in payloads <==> x == payloads[0] || x in payloads[1..];
    }
  }

  /** The two emit the same exactly when Go takes all that TypeScript does and nothing after it stopped. */
  lemma SameExactly(goodTs: string -> bool, goodGo: string -> bool, payloads: seq<string>)
    ensures UpToBad(goodTs, payloads) <= payloads
    ensures UpToBad(goodTs, payloads) == OnlyGood(goodGo, payloads)
            <==> && (forall x :: x in UpToBad(goodTs, payloads) ==> goodGo(x))
                 && (forall x :: x in payloads[|UpToBad(goodTs, payloads)|..] ==> !goodGo(x))
  {
    var ts := UpToBad(goodTs, payloads);
    UpToBadIsTake(goodTs, payloads);
    PrefixExactly(goodTs, goodGo, payloads);
    var rest := payloads[|ts|..];
    assert payloads == ts + rest;
    OnlyGoodSplits(goodGo, ts, rest);
    OnlyGoodIsGood(goodGo, rest);
    if AllGood(goodGo, ts) { OnlyGoodOfGood(goodGo, ts); }
  }

  lemma {:induction false} OnlyGoodOfGood(good: string -> bool, payloads: seq<string>)
    requires AllGood(good, payloads)
    ensures OnlyGood(good, payloads) == payloads
  {
    if payloads != [] { OnlyGoodOfGood(good, payloads[1..]); }
  }

  /** An array is JSON that no Go struct takes: TypeScript hands it on, and Go goes past it. */
  lemma NotAlwaysAPrefix(goodTs: string -> bool, goodGo: string -> bool)
    requires goodTs("[]") && goodTs("{}") && goodGo("{}") && !goodGo("[]")
    ensures UpToBad(goodTs, ["[]", "{}"]) == ["[]", "{}"]
    ensures OnlyGood(goodGo, ["[]", "{}"]) == ["{}"]
    ensures !(UpToBad(goodTs, ["[]", "{}"]) <= OnlyGood(goodGo, ["[]", "{}"]))
  {
    assert ["[]", "{}"][1..] == ["{}"] && ["{}"][1..] == [];
  }

  /**
   * Both SDKs on one body, in whatever chunks it comes: which payloads each emits, and on a body
   * both read alike, exactly when what TypeScript emits is what Go emits, or its beginning.
   */
  method BothSdks(goodTs: string -> bool, goodGo: string -> bool, cap: nat, chunks: seq<string>)
    returns (ts: seq<string>, go: seq<string>)
    ensures ts == UpToBad(goodTs, Drain(Concat(chunks)).0)
    ensures go == OnlyGood(goodGo, Scan(cap, Concat(chunks), []).0)
    ensures ts <= Drain(Concat(chunks)).0
    ensures Short(cap, Concat(chunks)) && Alike(Concat(chunks)) ==>
              && (ts <= go <==> forall x :: x in ts ==> goodGo(x))
              && (ts == go <==> && (forall x :: x in ts ==> goodGo(x))
                                && (forall x :: x in Drain(Concat(chunks)).0[|ts|..] ==> !goodGo(x)))
  {
    ts := ReadAll(goodTs, chunks);
    var tooLong;
    go, tooLong := ScanLoop(goodGo, cap, Concat(chunks));
    ParsersAgree(cap, Concat(chunks));
    PrefixExactly(goodTs, goodGo, Drain(Concat(chunks)).0);
    SameExactly(goodTs, goodGo, Drain(Concat(chunks)).0);
  }

  const CR_DATA := "data: x\r"
  const CR_BLANK := "\r\n"
  const CRLF_EVENT := CR_DATA + "\n" + CR_BLANK

  lemma ScanCRBlank()
    ensures Scan(100, CR_BLANK, ["x"]) == (["x"], false)
  {
    FirstNewlineIs(CR_BLANK, 1);
    assert ["x"] + [] == ["x"];
    assert Line("", ["x"]) == (["x"], []);
    assert Scan(100, "", []) == ([], false);
    assert CR_BLANK[2..] == "" && CR_BLANK[..1] == "\r" && DropCR("\r") == "";
  }

  /** Carriage returns are where they part: a CRLF blank line ends an event for Go only. */
  lemma CarriageReturnsDiffer()
    ensures Drain(CRLF_EVENT).0 == []
    ensures Scan(100, CRLF_EVENT, []) == (["x"], false)
  {
    hide DataLines, Split, Join;
    var text := CRLF_EVENT;
    BlankIsFirst(text);
    FirstNewlineIs(CR_DATA, 8);
    FirstNewlineIn(CR_DATA, CR_BLANK);
    assert text[..8] == CR_DATA && text[9..] == CR_BLANK;
    assert DropCR(CR_DATA) == "data: x" && DataOf("data: x") == "x";
    assert [] + ["x"] == ["x"];
    assert Line("data: x", []) == ([], ["x"]);
    assert [] + ["x"] == ["x"];
    ScanCRBlank();
  }

  // ---------------------------------------------------------------- round trip

  datatype Item = Event(payload: string) | Heartbeat

  /** What the handler writes: `data: <json>` or a heartbeat comment, each with its blank line. */
  function Encode(items: seq<Item>): string {
    if items == [] then ""
    else Framed(FrameText(items[0]), Encode(items[1..]))
  }

  function FrameText(item: Item): string {
    match item case Event(p) => "data: " + p case Heartbeat => ": heartbeat"
  }

  function Payloads(items: seq<Item>): seq<string> {
    if items == [] then []
    else (if items[0].Event? then [items[0].payload] else []) + Payloads(items[1..])
  }

  /** JSON text contains no raw newline or carriage return. */
  predicate OneLine(payload: string) {
    '\n' !in payload && '\r' !in payload
  }

  predicate Sendable(cap: nat, items: seq<Item>) {
    11 < cap && forall item :: item in items && item.Event? ==> OneLine(item.payload) && |item.payload| + 6 < cap
  }

  lemma FrameReadsBack(cap: nat, item: Item)
    requires 11 < cap && (item.Event? ==> OneLine(item.payload) && |item.payload| + 6 < cap)
    ensures var f := FrameText(item);
            && NewlineAt(f) == |f| < cap && '\r' !in f
            && FramePayload(f) == if item.Event? then [item.payload] else []
  {
    var f := FrameText(item);
    if item.Event? {
      assert f[..5] == DATA && f[6..] == item.payload;
      assert forall i :: 6 <= i < |f| ==> f[i] in item.payload;
      assert DataOf(f) == item.payload;
    } else {
      assert f[0] != DATA[0];
    }
    FirstNewlineIs(f, |f|);
    assert Split(f) == [f];
    assert DataLines([f]) == if item.Event? then [item.payload] else [];
  }

  lemma FirstBlankIn(frame: string, rest: string)
    requires NewlineAt(frame) == |frame|
    ensures IndexOfBlank(Framed(frame, rest)) == |frame|
  {
    var t := Framed(frame, rest);
    NewlineIsFirst(frame);
    BlankIsFirst(t);
    assert BlankLineAt(t, |frame|);
    assert forall i :: 0 <= i < |frame| ==> t[i] == frame[i];
  }

  lemma ShortFrame(cap: nat, frame: string, rest: string)
    requires NewlineAt(frame) == |frame| < cap && Short(cap, rest)
    ensures Short(cap, Framed(frame, rest))
  {
    var t := Framed(frame, rest);
    FirstNewlineIn(frame, "\n" + rest);
    assert t[|frame| + 1..] == "\n" + rest;
    FirstNewlineIn("", rest);
    assert "" + "\n" + rest == "\n" + rest && ("\n" + rest)[1..] == rest;
  }

  /** Both parsers recover exactly the payloads framed, heartbeats interleaved anywhere. */
  lemma {:induction false} RoundTrip(cap: nat, items: seq<Item>)
    requires Sendable(cap, items)
    ensures Drain(Encode(items)) == (Payloads(items), "")
    ensures Short(cap, Encode(items)) && '\r' !in Encode(items)
    ensures Scan(cap, Encode(items), []) == (Payloads(items), false)
  {
    if items != [] {
      var f, rest := FrameText(items[0]), Encode(items[1..]);
      FrameReadsBack(cap, items[0]);
      RoundTrip(cap, items[1..]);
      FirstBlankIn(f, rest);
      DrainFrame(f, rest);
      ShortFrame(cap, f, rest);
    }
    WithoutCRAlike(Encode(items));
    ParsersAgree(cap, Encode(items));
  }

  // ---------------------------------------------------------------- frames the format allows

  /** A line of a frame: data, with or without the space after the colon, or anything else. */
  datatype FieldLine = Data(spaced: bool, value: string) | Other(text: string)

  function LineText(l: FieldLine): string {
    match l
    case Data(spaced, value) => if spaced then "data: " + value else "data:" + value
    case Other(text) => text
  }

  predicate ProperLine(l: FieldLine) {
    match l
    case Data(spaced, value) => '\n' !in value && (!spaced && value != "" ==> value[0] != ' ')
    case Other(text) => '\n' !in text && !IsData(text)
  }

  function LineTexts(lines: seq<FieldLine>): seq<string> {
    if lines == [] then [] else [LineText(lines[0])] + LineTexts(lines[1..])
  }

  function DataValues(lines: seq<FieldLine>): seq<string> {
    if lines == [] then []
    else (if lines[0].Data? then [lines[0].value] else []) + DataValues(lines[1..])
  }

  lemma {:induction false} LineTextsRead(lines: seq<FieldLine>)
    requires forall l :: l in lines ==> ProperLine(l)
    ensures DataLines(LineTexts(lines)) == DataValues(lines)
    ensures forall t :: t in LineTexts(lines) ==> '\n' !in t
  {
    if lines != [] {
      LineTextsRead(lines[1..]);
      assert ProperLine(lines[0]);
      LineReads(lines[0]);
    }
  }

  lemma LineReads(l: FieldLine)
    requires ProperLine(l)
    ensures IsData(LineText(l)) <==> l.Data?
    ensures l.Data? ==> DataOf(LineText(l)) == l.value
    ensures '\n' !in LineText(l)
  {
    if l.Data? {
      var t := LineText(l);
      assert t[..5] == DATA;
      assert t[5..] == if l.spaced then " " + l.value else l.value;
      assert l.spaced ==> t[6..] == l.value;
      assert forall c :: c in t <==> c in t[..5] || c in t[5..];
    }
  }

  lemma {:induction false} SplitJoin(lines: seq<string>)
    requires lines != [] && forall l :: l in lines ==> '\n' !in l
    ensures Split(Join(lines)) == lines
    decreases |lines|
  {
    hide NewlineAt, Join;
    var first := lines[0];
    assert '\n' !in first;
    if |lines| == 1 {
      JoinOne(first);
      assert lines == [first];
      FirstNewlineIs(first, |first|);
    } else {
      var text := Join(lines);
      JoinFirst(first, lines[1..]);
      assert [first] + lines[1..] == lines;
      FirstNewlineIs(text, |first|);
      assert text[..|first|] == first && text[|first| + 1..] == Join(lines[1..]);
      SplitJoin(lines[1..]);
    }
  }

  lemma {:induction false} JoinSplit(s: string)
    ensures Split(s) != [] && Join(Split(s)) == s
    decreases |s|
  {
    hide NewlineAt, Join;
    var i := NewlineAt(s);
    if i == |s| {
      assert Split(s) == [s];
      JoinOne(s);
    } else {
      NewlineIsFirst(s);
      var rest := s[i + 1..];
      JoinSplit(rest);
      JoinFirst(s[..i], Split(rest));
      assert s == s[..i] + "\n" + rest;
    }
  }

  lemma JoinOne(line: string)
    ensures Join([line]) == line
  {
  }

  lemma JoinFirst(line: string, lines: seq<string>)
    requires lines != []
    ensures Join([line] + lines) == line + "\n" + Join(lines)
  {
    assert ([line] + lines)[1..] == lines;
  }

  /**
   * A payload of any text, newlines included, sent one line of it to a data line, with whatever
   * comments and other fields between them, is read back whole; and a frame without data is none.
   */
  lemma AnyPayloadReadsBack(payload: string, lines: seq<FieldLine>)
    requires lines != [] && forall l :: l in lines ==> ProperLine(l)
    ensures DataValues(lines) == Split(payload) ==> FramePayload(Join(LineTexts(lines))) == [payload]
    ensures DataValues(lines) == [] ==> FramePayload(Join(LineTexts(lines))) == []
  {
    LineTextsRead(lines);
    SplitJoin(LineTexts(lines));
    JoinSplit(payload);
  }
}
