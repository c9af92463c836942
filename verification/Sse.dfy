/**
 * The runtime's incremental event-stream parser (apps/agent-runtime/src/providers.ts, readProviderSSE).
 * UTF-8 decoding is any decoder that works byte by byte; JSON parsing is a parameter.
 */
module Sse {
  import opened Chunks
  import opened Collections

  newtype byte = x: int | 0 <= x < 256

  // ---------- blank lines: the regular expression \r?\n\r?\n ----------

  /** The length of the line end at `i`, or 0. */
  function NewlineAt(s: string, i: nat): nat
    requires i <= |s|
  {
    if i < |s| && s[i] == '\n' then 1
    else if i + 1 < |s| && s[i] == '\r' && s[i + 1] == '\n' then 2
    else 0
  }

  /** The length of the blank line at `i`, or 0. */
  function BlankAt(s: string, i: nat): (n: nat)
    requires i <= |s|
    ensures i + n <= |s|
  {
    var first := NewlineAt(s, i);
    if first == 0 then 0
    else
      var second := NewlineAt(s, i + first);
      if second == 0 then 0 else first + second
  }

  function FirstBlank(s: string, i: nat): (j: nat)
    requires i <= |s|
    ensures i <= j <= |s| && (j < |s| ==> BlankAt(s, j) > 0)
    decreases |s| - i
  {
    if i == |s| || BlankAt(s, i) > 0 then i else FirstBlank(s, i + 1)
  }

  lemma {:induction false} NoBlankBefore(s: string, i: nat, k: nat)
    requires i <= |s| && i <= k < FirstBlank(s, i)
    ensures BlankAt(s, k) == 0
    decreases |s| - i
  {
    if i < k { NoBlankBefore(s, i + 1, k); }
  }

  lemma {:induction false} FirstBlankIs(s: string, i: nat, j: nat)
    requires i <= j < |s| && BlankAt(s, j) > 0
    requires forall k :: i <= k < j ==> BlankAt(s, k) == 0
    ensures FirstBlank(s, i) == j
    decreases |s| - i
  {
    if i < j { FirstBlankIs(s, i + 1, j); }
  }

  /** The first element that `split` yields, when it is not the last one. */
  function CutEvent(s: string): Option<(string, string)> {
    var j := FirstBlank(s, 0);
    if j == |s| then None else Some((s[..j], s[j + BlankAt(s, j)..]))
  }

  lemma CutShrinks()
    ensures Shrinks(CutEvent)
  {
    forall s ensures ShrinksAt(CutEvent, s) { }
  }

  // ---------- splitting piece by piece ----------

  lemma NewlineStaysPut(a: string, b: string, i: nat)
    requires i <= |a|
    ensures NewlineAt(a, i) > 0 ==> NewlineAt(a + b, i) == NewlineAt(a, i)
    ensures NewlineAt(a, i) == 0 && NewlineAt(a + b, i) > 0 ==> i + NewlineAt(a + b, i) > |a|
  {
  }

  lemma BlankStaysPut(a: string, b: string, i: nat)
    requires i <= |a| && BlankAt(a, i) > 0
    ensures BlankAt(a + b, i) == BlankAt(a, i)
  {
    NewlineStaysPut(a, b, i);
    NewlineStaysPut(a, b, i + NewlineAt(a, i));
  }

  /** A blank line that `b` completes starts after every blank line of `a`: no character of a blank line but the last
      one of each of its two line ends is a line feed. */
  lemma CompletedBlankIsLast(a: string, b: string, i: nat, j: nat)
    requires i < j <= |a| && BlankAt(a, i) == 0 && BlankAt(a, j) > 0
    ensures BlankAt(a + b, i) == 0
  {
    var s := a + b;
    assert forall k :: 0 <= k < |a| ==> s[k] == a[k];
    NewlineStaysPut(a, b, i);
    if NewlineAt(a, i) > 0 {
      NewlineStaysPut(a, b, i + NewlineAt(a, i));
    }
  }

  /** The first blank line of a text stays the first one when more text follows. */
  lemma FirstBlankStays(a: string, b: string)
    requires FirstBlank(a, 0) < |a|
    ensures FirstBlank(a + b, 0) == FirstBlank(a, 0)
    ensures BlankAt(a + b, FirstBlank(a, 0)) == BlankAt(a, FirstBlank(a, 0))
  {
    var j := FirstBlank(a, 0);
    BlankStaysPut(a, b, j);
    forall i | 0 <= i < j ensures BlankAt(a + b, i) == 0 {
      NoBlankBefore(a, 0, i);
      CompletedBlankIsLast(a, b, i, j);
    }
    FirstBlankIs(a + b, 0, j);
  }

  ghost function AnyText(): string -> bool { (s: string) => true }

  lemma LaterTextKeepsEvents(a: string, b: string)
    ensures Keeps(CutEvent, AnyText(), a, b)
  {
    if CutEvent(a).Some? {
      FirstBlankStays(a, b);
      var j := FirstBlank(a, 0);
      var next := j + BlankAt(a, j);
      assert (a + b)[..j] == a[..j];
      assert (a + b)[next..] == a[next..] + b;
    }
  }

  /** The events of a text, and the unfinished one after the last blank line. */
  function EventsOf(s: string): seq<string> {
    CutShrinks();
    Events(CutEvent, s)
  }

  function Pending(s: string): string {
    CutShrinks();
    Rest(CutEvent, s)
  }

  /** Feeding a text in two pieces finds the same events as feeding it at once. */
  lemma SplitsCompose(a: string, b: string)
    ensures EventsOf(a + b) == EventsOf(a) + EventsOf(Pending(a) + b)
    ensures Pending(a + b) == Pending(Pending(a) + b)
  {
    CutShrinks();
    forall x, y ensures Keeps(CutEvent, AnyText(), x, y) { LaterTextKeepsEvents(x, y); }
    SplitComposes(CutEvent, AnyText(), a, b);
  }

  // ---------- the data of an event ----------

  function FirstNewline(s: string, i: nat): (j: nat)
    requires i <= |s|
    ensures i <= j <= |s| && (j < |s| ==> NewlineAt(s, j) > 0)
    decreases |s| - i
  {
    if i == |s| || NewlineAt(s, i) > 0 then i else FirstNewline(s, i + 1)
  }

  function Lines(s: string): seq<string>
    decreases |s|
  {
    var j := FirstNewline(s, 0);
    if j == |s| then [s] else [s[..j]] + Lines(s[j + NewlineAt(s, j)..])
  }

  predicate IsSpace(c: char) {
    c in "\t\n\r \U{0B}\U{0C}\U{A0}\U{1680}\U{2028}\U{2029}\U{202F}\U{205F}\U{3000}\U{FEFF}" || '\U{2000}' <= c <= '\U{200A}'
  }

  function TrimStart(s: string): string {
    if s != "" && IsSpace(s[0]) then TrimStart(s[1..]) else s
  }

  predicate IsData(line: string) { "data:" <= line }

  function Values(lines: seq<string>): seq<string> {
    if lines == [] then []
    else (if IsData(lines[0]) then [TrimStart(lines[0][5..])] else []) + Values(lines[1..])
  }

  function Join(parts: seq<string>): string {
    if parts == [] then "" else if |parts| == 1 then parts[0] else parts[0] + "\n" + Join(parts[1..])
  }

  function Data(event: string): string { Join(Values(Lines(event))) }

  // ---------- writing a stream and reading it back ----------

  predicate OneLine(s: string) { '\r' !in s && '\n' !in s }

  predicate LineEnd(nl: string) { nl == "\n" || nl == "\r\n" }

  /** A value that a data line can carry. */
  predicate Carriable(v: string) { OneLine(v) && (v != "" ==> !IsSpace(v[0])) }

  function DataLine(v: string): string { "data: " + v }

  /** An event with one data line for each value. */
  function Written(values: seq<string>, nl: string): string
    requires values != []
  {
    if |values| == 1 then DataLine(values[0]) else DataLine(values[0]) + (nl + Written(values[1..], nl))
  }

  function WrittenStream(events: seq<seq<string>>, nl: string): string
    requires forall i :: 0 <= i < |events| ==> events[i] != []
  {
    if events == [] then "" else Written(events[0], nl) + (nl + (nl + WrittenStream(events[1..], nl)))
  }

  /** Where a blank line starts does not depend on what comes before it. */
  lemma BlankMoves(a: string, t: string, i: nat)
    requires i <= |t|
    ensures BlankAt(a + t, |a| + i) == BlankAt(t, i)
  {
    NewlineMoves(a, t, i);
    if NewlineAt(t, i) > 0 { NewlineMoves(a, t, i + NewlineAt(t, i)); }
  }

  lemma NewlineMoves(a: string, t: string, i: nat)
    requires i <= |t|
    ensures NewlineAt(a + t, |a| + i) == NewlineAt(t, i)
  {
    assert i < |t| ==> (a + t)[|a| + i] == t[i];
    assert i + 1 < |t| ==> (a + t)[|a| + i + 1] == t[i + 1];
  }

  lemma {:induction false} BlankAfter(a: string, t: string, i: nat)
    requires i <= |t|
    ensures FirstBlank(a + t, |a| + i) == |a| + FirstBlank(t, i)
    decreases |t| - i
  {
    BlankMoves(a, t, i);
    if i < |t| && BlankAt(t, i) == 0 { BlankAfter(a, t, i + 1); }
  }

  lemma {:induction false} NoBlankInLine(line: string, t: string, i: nat)
    requires OneLine(line) && i <= |line|
    ensures FirstBlank(line + t, i) == |line| + FirstBlank(t, 0)
    decreases |line| - i
  {
    if i == |line| {
      BlankAfter(line, t, 0);
    } else {
      assert (line + t)[i] == line[i] && line[i] in line;
      NoBlankInLine(line, t, i + 1);
    }
  }

  /** One line end before more of the event is not a blank line. */
  lemma NoBlankAtLineEnd(nl: string, t: string)
    requires LineEnd(nl) && t != "" && t[0] != '\r' && t[0] != '\n'
    ensures FirstBlank(nl + t, 0) == |nl| + FirstBlank(t, 0)
  {
    var s := nl + t;
    assert s[|nl|] == t[0];
    BlankAfter(nl, t, 0);
    assert forall k: nat :: k < |nl| ==> BlankAt(s, k) == 0;
  }

  lemma WrittenStarts(values: seq<string>, nl: string)
    requires values != []
    ensures Written(values, nl) != "" && Written(values, nl)[0] == 'd'
  {
  }

  lemma DataLineIsOneLine(v: string)
    requires OneLine(v)
    ensures OneLine(DataLine(v)) && IsData(DataLine(v)) && DataLine(v)[5..] == " " + v
  {
  }

  lemma TwoLineEnds(nl: string, rest: string)
    requires LineEnd(nl)
    ensures var tail := nl + (nl + rest);
            FirstBlank(tail, 0) == 0 && BlankAt(tail, 0) == |nl| + |nl| && tail[|nl| + |nl|..] == rest
  {
    var tail := nl + (nl + rest);
    assert forall k :: 0 <= k < |nl| ==> tail[k] == nl[k] && tail[|nl| + k] == nl[k];
  }

  /** A line of an event, and the rest of the event after it. */
  lemma SkipLine(line: string, nl: string, more: string, tail: string)
    requires OneLine(line) && LineEnd(nl) && more != "" && more[0] == 'd'
    ensures FirstBlank((line + (nl + more)) + tail, 0) == |line| + |nl| + FirstBlank(more + tail, 0)
  {
    assert (more + tail)[0] == 'd';
    NoBlankAtLineEnd(nl, more + tail);
    NoBlankInLine(line, nl + (more + tail), 0);
    assert (line + (nl + more)) + tail == line + (nl + (more + tail));
  }

  /** The first blank line of a written stream is the one that ends its first event. */
  lemma {:induction false} WrittenHasNoBlank(values: seq<string>, nl: string, rest: string)
    requires values != [] && LineEnd(nl) && forall i :: 0 <= i < |values| ==> Carriable(values[i])
    ensures FirstBlank(Written(values, nl) + (nl + (nl + rest)), 0) == |Written(values, nl)|
    decreases |values|
  {
    var tail := nl + (nl + rest);
    DataLineIsOneLine(values[0]);
    if |values| == 1 {
      TwoLineEnds(nl, rest);
      NoBlankInLine(DataLine(values[0]), tail, 0);
    } else {
      WrittenHasNoBlank(values[1..], nl, rest);
      WrittenStarts(values[1..], nl);
      SkipLine(DataLine(values[0]), nl, Written(values[1..], nl), tail);
    }
  }

  lemma CutAt(x: string, tail: string, n: nat, rest: string)
    requires 0 < n <= |tail| && tail[n..] == rest && BlankAt(tail, 0) == n && FirstBlank(x + tail, 0) == |x|
    ensures CutEvent(x + tail) == Some((x, rest))
  {
    assert BlankAt(x + tail, |x|) == n by { BlankMoves(x, tail, 0); }
    assert (x + tail)[..|x|] == x && (x + tail)[|x| + n..] == rest by { Slices(x, tail, n); }
    CutWhere(x + tail);
  }

  lemma CutWhere(s: string)
    requires FirstBlank(s, 0) < |s|
    ensures CutEvent(s) == Some((s[..FirstBlank(s, 0)], s[FirstBlank(s, 0) + BlankAt(s, FirstBlank(s, 0))..]))
  {
  }

  lemma Slices(x: string, tail: string, n: nat)
    requires n <= |tail|
    ensures (x + tail)[..|x|] == x && (x + tail)[|x| + n..] == tail[n..]
  {
  }

  lemma FirstWritten(values: seq<string>, nl: string, rest: string)
    requires values != [] && LineEnd(nl) && forall i :: 0 <= i < |values| ==> Carriable(values[i])
    ensures CutEvent(Written(values, nl) + (nl + (nl + rest))) == Some((Written(values, nl), rest))
  {
    WrittenHasNoBlank(values, nl, rest);
    TwoLineEnds(nl, rest);
    CutAt(Written(values, nl), nl + (nl + rest), |nl| + |nl|, rest);
  }

  function WrittenEvents(events: seq<seq<string>>, nl: string): seq<string>
    requires forall i :: 0 <= i < |events| ==> events[i] != []
  {
    if events == [] then [] else [Written(events[0], nl)] + WrittenEvents(events[1..], nl)
  }

  ghost predicate AllCarriable(events: seq<seq<string>>) {
    forall i :: 0 <= i < |events| ==> events[i] != [] && forall j :: 0 <= j < |events[i]| ==> Carriable(events[i][j])
  }

  /** A written stream is cut into exactly the events that were written, with nothing left over. */
  lemma {:induction false} WrittenStreamReadsBack(events: seq<seq<string>>, nl: string)
    requires LineEnd(nl) && AllCarriable(events)
    ensures EventsOf(WrittenStream(events, nl)) == WrittenEvents(events, nl) && Pending(WrittenStream(events, nl)) == ""
  {
    CutShrinks();
    if events != [] {
      FirstWritten(events[0], nl, WrittenStream(events[1..], nl));
      WrittenStreamReadsBack(events[1..], nl);
    }
  }

  lemma {:induction false} LineIsFirst(line: string, t: string, i: nat)
    requires OneLine(line) && i <= |line| && t != "" && NewlineAt(t, 0) > 0
    ensures FirstNewline(line + t, i) == |line|
    decreases |line| - i
  {
    if i < |line| {
      assert (line + t)[i] == line[i] && line[i] in line;
      LineIsFirst(line, t, i + 1);
    } else {
      NewlineMoves(line, t, 0);
    }
  }

  lemma FirstOfLines(line: string, nl: string, more: string)
    requires OneLine(line) && LineEnd(nl)
    ensures Lines(line + (nl + more)) == [line] + Lines(more)
  {
    var t := nl + more;
    var s := line + t;
    StartsWithLineEnd(nl, more);
    assert FirstNewline(s, 0) == |line| by { LineIsFirst(line, t, 0); }
    assert NewlineAt(s, |line|) == |nl| by { NewlineMoves(line, t, 0); }
    assert s[..|line|] == line && s[|line| + |nl|..] == more by { Slices(line, t, |nl|); }
  }

  lemma StartsWithLineEnd(nl: string, more: string)
    requires LineEnd(nl)
    ensures var t := nl + more; t != "" && NewlineAt(t, 0) == |nl| && t[|nl|..] == more
  {
    assert (nl + more)[0] == nl[0];
    assert |nl| == 2 ==> (nl + more)[1] == nl[1];
  }

  lemma {:induction false} OnlyLine(line: string, i: nat)
    requires OneLine(line) && i <= |line|
    ensures FirstNewline(line, i) == |line|
    decreases |line| - i
  {
    if i < |line| {
      assert line[i] in line;
      OnlyLine(line, i + 1);
    }
  }

  function DataLines(values: seq<string>): seq<string> {
    if values == [] then [] else [DataLine(values[0])] + DataLines(values[1..])
  }

  lemma {:induction false} LinesOfWritten(values: seq<string>, nl: string)
    requires values != [] && LineEnd(nl) && forall i :: 0 <= i < |values| ==> Carriable(values[i])
    ensures Lines(Written(values, nl)) == DataLines(values)
    decreases |values|
  {
    var line := DataLine(values[0]);
    DataLineIsOneLine(values[0]);
    if |values| == 1 {
      OnlyLine(line, 0);
      assert values[1..] == [];
    } else {
      LinesOfWritten(values[1..], nl);
      FirstOfLines(line, nl, Written(values[1..], nl));
    }
  }

  lemma {:induction false} ValuesOfDataLines(values: seq<string>)
    requires forall i :: 0 <= i < |values| ==> Carriable(values[i])
    ensures Values(DataLines(values)) == values
  {
    if values != [] {
      var v := values[0];
      DataLineIsOneLine(v);
      assert (" " + v)[1..] == v && TrimStart(" " + v) == TrimStart(v) && TrimStart(v) == v;
      assert DataLines(values)[1..] == DataLines(values[1..]);
      ValuesOfDataLines(values[1..]);
      assert values == [v] + values[1..];
    }
  }

  /** Round trip: the data of a written event is its values, joined by line feeds, whichever line ending is used. */
  lemma WrittenDataReadsBack(values: seq<string>, nl: string)
    requires values != [] && LineEnd(nl) && forall i :: 0 <= i < |values| ==> Carriable(values[i])
    ensures Data(Written(values, nl)) == Join(values)
  {
    LinesOfWritten(values, nl);
    ValuesOfDataLines(values);
  }

  // ---------- delivering events ----------

  /** `JSON.parse` followed by the test for an error event. */
  datatype Parsed<P> = Invalid | ErrorEvent | Payload(value: P)

  datatype End = Finished | InvalidResponse | ProviderFailed | OutputTooLarge

  datatype Result<P> = Result(yielded: seq<P>, end: End)

  /** What one event carries; an event without data and the final marker carry nothing. */
  function Carried<P>(parse: string -> Parsed<P>, event: string): Option<Parsed<P>> {
    var data := Data(event);
    if data == "" || data == "[DONE]" then None else Some(parse(data))
  }

  /** What a list of events yields, up to the first one that cannot be used. */
  function Deliver<P>(events: seq<string>, carried: string -> Option<Parsed<P>>): Result<P> {
    if events == [] then Result([], Finished)
    else
      match carried(events[0])
      case None => Deliver(events[1..], carried)
      case Some(Invalid) => Result([], InvalidResponse)
      case Some(ErrorEvent) => Result([], ProviderFailed)
      case Some(Payload(value)) =>
        var rest := Deliver(events[1..], carried);
        rest.(yielded := [value] + rest.yielded)
  }

  /** Delivery goes on after events that were all usable, and stops for good otherwise. */
  lemma {:induction false} DeliverConcat<P>(x: seq<string>, y: seq<string>, carried: string -> Option<Parsed<P>>)
    ensures var first, second := Deliver(x, carried), Deliver(y, carried);
            Deliver(x + y, carried) ==
              if first.end == Finished then Result(first.yielded + second.yielded, second.end) else first
  {
    if x == [] {
      assert x + y == y;
    } else {
      assert (x + y)[1..] == x[1..] + y;
      DeliverConcat(x[1..], y, carried);
    }
  }

  // ---------- decoding ----------

  /** A streaming decoder that consumes one byte at a time. */
  datatype Decoder<!S> = Decoder(start: S, step: (S, byte) -> (S, string))

  function Decode<S>(d: Decoder<S>, state: S, bytes: seq<byte>): (S, string)
    decreases |bytes|
  {
    if bytes == [] then (state, "")
    else
      var (next, text) := d.step(state, bytes[0]);
      var (end, more) := Decode(d, next, bytes[1..]);
      (end, text + more)
  }

  lemma {:induction false} DecodeConcat<S>(d: Decoder<S>, state: S, x: seq<byte>, y: seq<byte>)
    ensures var (mid, first) := Decode(d, state, x);
            var (end, second) := Decode(d, mid, y);
            Decode(d, state, x + y) == (end, first + second)
    decreases |x|
  {
    if x == [] {
      assert x + y == y;
      assert "" + Decode(d, state, y).1 == Decode(d, state, y).1;
    } else {
      assert (x + y)[1..] == x[1..] + y;
      var (next, text) := d.step(state, x[0]);
      DecodeConcat(d, next, x[1..], y);
      var (mid, first) := Decode(d, next, x[1..]);
      var second := Decode(d, mid, y).1;
      assert text + (first + second) == (text + first) + second;
    }
  }

  function Text<S>(d: Decoder<S>, bytes: seq<byte>): string { Decode(d, d.start, bytes).1 }

  // ---------- the parser ----------

  const LIMIT: nat := 16 * 1024 * 1024

  /** What the parser yields for a whole byte stream, however it was cut. */
  function Delivered<S, P>(d: Decoder<S>, bytes: seq<byte>, parse: string -> Parsed<P>): Result<P> {
    Deliver(EventsOf(Text(d, bytes)), (e: string) => Carried(parse, e))
  }

  lemma {:induction false} FlattenSnoc<T>(ss: seq<seq<T>>, s: seq<T>)
    ensures Flatten(ss + [s]) == Flatten(ss) + s
  {
    FlattenConcat(ss, [s]);
    assert [s][1..] == [];
    assert s + Flatten([]) == s;
  }

  /** One more chunk: the text it adds, the events it completes and what is left pending. */
  lemma NextChunk<S>(d: Decoder<S>, before: seq<byte>, chunk: seq<byte>)
    ensures var (state, text) := Decode(d, d.start, before);
            var (next, more) := Decode(d, state, chunk);
            && Decode(d, d.start, before + chunk) == (next, text + more)
            && EventsOf(text + more) == EventsOf(text) + EventsOf(Pending(text) + more)
            && Pending(text + more) == Pending(Pending(text) + more)
  {
    DecodeConcat(d, d.start, before, chunk);
    var (state, text) := Decode(d, d.start, before);
    SplitsCompose(text, Decode(d, state, chunk).1);
  }

  /** Nothing that comes later changes what was already yielded. */
  lemma EarlierIsPrefix<S, P>(d: Decoder<S>, before: seq<byte>, after: seq<byte>, parse: string -> Parsed<P>)
    ensures var first, whole := Delivered(d, before, parse), Delivered(d, before + after, parse);
            first.yielded <= whole.yielded && (first.end != Finished ==> whole == first)
  {
    NextChunk(d, before, after);
    var (state, text) := Decode(d, d.start, before);
    DeliverConcat(EventsOf(text), EventsOf(Pending(text) + Decode(d, state, after).1), (e: string) => Carried(parse, e));
  }

  /** Yields the payloads of one batch of complete events. */
  method DeliverAll<P>(events: seq<string>, parse: string -> Parsed<P>) returns (yielded: seq<P>, end: End)
    ensures Result(yielded, end) == Deliver(events, (e: string) => Carried(parse, e))
    ensures end != OutputTooLarge
  {
    ghost var carried := (e: string) => Carried(parse, e);
    yielded := [];
    for i := 0 to |events|
      invariant var rest := Deliver(events[i..], carried);
                Deliver(events, carried) == rest.(yielded := yielded + rest.yielded)
    {
      assert events[i..][0] == events[i] && events[i..][1..] == events[i + 1..];
      var data := Data(events[i]);
      if data == "" || data == "[DONE]" {
        continue;
      }
      var parsed := parse(data);
      if parsed.Invalid? {
        return yielded, InvalidResponse;
      }
      if parsed.ErrorEvent? {
        return yielded, ProviderFailed;
      }
      yielded := yielded + [parsed.value];
    }
    end := Finished;
  }

  /** The parser: under the size limit, what it yields depends on the bytes alone and not on how they arrive.  Over
      the limit it always fails, after a prefix of what the bytes would have yielded. */
  method ReadProviderSSE<S, P>(chunks: seq<seq<byte>>, d: Decoder<S>, parse: string -> Parsed<P>)
    returns (yielded: seq<P>, end: End)
    ensures |Flatten(chunks)| <= LIMIT ==> Result(yielded, end) == Delivered(d, Flatten(chunks), parse)
    ensures |Flatten(chunks)| > LIMIT ==> end != Finished && yielded <= Delivered(d, Flatten(chunks), parse).yielded
    ensures end == OutputTooLarge ==> |Flatten(chunks)| > LIMIT
  {
    var state, buffer, bytes := d.start, "", 0;
    yielded := [];
    for i := 0 to |chunks|
      invariant bytes == |Flatten(chunks[..i])| <= LIMIT
      invariant state == Decode(d, d.start, Flatten(chunks[..i])).0 && buffer == Pending(Text(d, Flatten(chunks[..i])))
      invariant Result(yielded, Finished) == Delivered(d, Flatten(chunks[..i]), parse)
    {
      ghost var before := Flatten(chunks[..i]);
      ghost var later := Flatten(chunks[i + 1..]);
      assert chunks[..i + 1] == chunks[..i] + [chunks[i]];
      FlattenSnoc(chunks[..i], chunks[i]);
      assert chunks == chunks[..i + 1] + chunks[i + 1..];
      FlattenConcat(chunks[..i + 1], chunks[i + 1..]);
      assert Flatten(chunks) == before + (chunks[i] + later);
      bytes := bytes + |chunks[i]|;
      if bytes > LIMIT {
        EarlierIsPrefix(d, before, chunks[i] + later, parse);
        return yielded, OutputTooLarge;
      }
      NextChunk(d, before, chunks[i]);
      var (next, text) := Decode(d, state, chunks[i]);
      ghost var seen := Text(d, before);
      DeliverConcat(EventsOf(seen), EventsOf(buffer + text), (e: string) => Carried(parse, e));
      EarlierIsPrefix(d, before + chunks[i], later, parse);
      state := next;
      var events := EventsOf(buffer + text);
      buffer := Pending(buffer + text);
      var more, stop := DeliverAll(events, parse);
      yielded := yielded + more;
      if stop != Finished {
        return yielded, stop;
      }
    }
    assert chunks[..|chunks|] == chunks;
    end := Finished;
  }
}
