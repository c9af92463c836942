/**
 * The gateway's usage observer (core/internal/agentprovider/service.go): an incremental event-stream reader that looks
 * for "\n\n" before it looks for "\r\n\r\n" and keeps at most 1 MiB of an unfinished event.  A string is a sequence
 * of bytes; trimming white space and JSON parsing are parameters.
 */
module Observer {
  import opened Chunks
  import opened Collections
  import Sse

  const LIMIT: nat := 1_048_576

  // ---------- finding separators ----------

  type At = (string, nat) -> bool

  predicate LfAt(s: string, i: nat) { i + 1 < |s| && s[i] == '\n' && s[i + 1] == '\n' }

  predicate CrlfAt(s: string, i: nat) {
    i + 3 < |s| && s[i] == '\r' && s[i + 1] == '\n' && s[i + 2] == '\r' && s[i + 3] == '\n'
  }

  /** `strings.Index` from position `i`, with the length of the text for "not found". */
  function Find(at: At, s: string, i: nat): (j: nat)
    requires i <= |s|
    ensures i <= j <= |s| && (j < |s| ==> at(s, j))
    decreases |s| - i
  {
    if i == |s| || at(s, i) then i else Find(at, s, i + 1)
  }

  lemma {:induction false} NotBefore(at: At, s: string, i: nat, k: nat)
    requires i <= |s| && i <= k < Find(at, s, i)
    ensures !at(s, k)
    decreases |s| - i
  {
    if i < k { NotBefore(at, s, i + 1, k); }
  }

  lemma {:induction false} FindIs(at: At, s: string, i: nat, j: nat)
    requires i <= j <= |s| && (j < |s| ==> at(s, j))
    requires forall k: nat :: i <= k < j ==> !at(s, k)
    ensures Find(at, s, i) == j
    decreases |s| - i
  {
    if i < j { FindIs(at, s, i + 1, j); }
  }

  // ---------- events ----------

  /** The event that one turn of the loop takes off the buffer. */
  function CutEvent(s: string): Option<(string, string)> {
    var i := Find(LfAt, s, 0);
    if i < |s| then Some((s[..i], s[i + 2..]))
    else
      var j := Find(CrlfAt, s, 0);
      if j < |s| then Some((s[..j], s[j + 4..])) else None
  }

  lemma CutShrinks()
    ensures Shrinks(CutEvent)
  {
    forall s ensures ShrinksAt(CutEvent, s) { }
  }

  function EventsOf(s: string): seq<string> {
    CutShrinks();
    Events(CutEvent, s)
  }

  function Pending(s: string): string {
    CutShrinks();
    Rest(CutEvent, s)
  }

  // ---------- streams without a CRLF blank line before an LF blank line ----------

  predicate Clean(s: string) {
    forall i: nat, j: nat :: i < j < |s| && CrlfAt(s, i) ==> !LfAt(s, j)
  }

  lemma CleanParts(a: string, b: string)
    requires Clean(a + b)
    ensures Clean(a) && Clean(b)
  {
    var s := a + b;
    forall i: nat, j: nat | i < j < |a| && CrlfAt(a, i) ensures !LfAt(a, j) {
      assert CrlfAt(s, i) && (LfAt(a, j) ==> LfAt(s, j));
    }
    forall i: nat, j: nat | i < j < |b| && CrlfAt(b, i) ensures !LfAt(b, j) {
      assert CrlfAt(s, |a| + i) && (LfAt(b, j) ==> LfAt(s, |a| + j));
    }
  }

  lemma FirstLfStays(a: string, b: string)
    requires Find(LfAt, a, 0) < |a|
    ensures Find(LfAt, a + b, 0) == Find(LfAt, a, 0)
  {
    var i := Find(LfAt, a, 0);
    forall k: nat | k < i ensures !LfAt(a + b, k) { NotBefore(LfAt, a, 0, k); }
    FindIs(LfAt, a + b, 0, i);
  }

  lemma FirstCrlfStays(a: string, b: string)
    requires Clean(a + b) && Find(LfAt, a, 0) == |a| && Find(CrlfAt, a, 0) < |a|
    ensures Find(LfAt, a + b, 0) == |a + b| && Find(CrlfAt, a + b, 0) == Find(CrlfAt, a, 0)
  {
    var j := Find(CrlfAt, a, 0);
    assert CrlfAt(a + b, j);
    forall k: nat | k < |a + b| ensures !LfAt(a + b, k) {
      if k < j { NotBefore(LfAt, a, 0, k); }
    }
    FindIs(LfAt, a + b, 0, |a + b|);
    forall k: nat | k < j ensures !CrlfAt(a + b, k) { NotBefore(CrlfAt, a, 0, k); }
    FindIs(CrlfAt, a + b, 0, j);
  }

  lemma LaterTextKeepsEvents(a: string, b: string)
    ensures Keeps(CutEvent, Clean, a, b)
  {
    if CutEvent(a).Some? && Clean(a + b) {
      var next;
      if Find(LfAt, a, 0) < |a| {
        FirstLfStays(a, b);
        next := Find(LfAt, a, 0) + 2;
        assert (a + b)[..next - 2] == a[..next - 2];
      } else {
        FirstCrlfStays(a, b);
        next := Find(CrlfAt, a, 0) + 4;
        assert (a + b)[..next - 4] == a[..next - 4];
      }
      assert (a + b)[next..] == a[next..] + b;
      assert a + b == a[..next] + (a[next..] + b);
      CleanParts(a[..next], a[next..] + b);
    }
  }

  lemma SplitsCompose(a: string, b: string)
    requires Clean(a + b)
    ensures EventsOf(a + b) == EventsOf(a) + EventsOf(Pending(a) + b)
    ensures Pending(a + b) == Pending(Pending(a) + b) && Clean(Pending(a) + b)
  {
    CutShrinks();
    forall x, y ensures Keeps(CutEvent, Clean, x, y) { LaterTextKeepsEvents(x, y); }
    SplitComposes(CutEvent, Clean, a, b);
  }

  // ---------- feeding chunks ----------

  /** The events that the observer completes when it is fed chunk by chunk. */
  function FeedAll(chunks: seq<string>): seq<string> {
    CutShrinks();
    Feed(CutEvent, LIMIT, "", chunks)
  }

  ghost predicate FitsCap(s: string) {
    CutShrinks();
    Fits(CutEvent, LIMIT, s)
  }

  lemma NoSeparators(s: string)
    ensures CutEvent(s).None? <==> forall k: nat :: k < |s| ==> !LfAt(s, k) && !CrlfAt(s, k)
  {
    if CutEvent(s).None? {
      forall k: nat | k < |s| ensures !LfAt(s, k) && !CrlfAt(s, k) {
        NotBefore(LfAt, s, 0, k);
        NotBefore(CrlfAt, s, 0, k);
      }
    }
  }

  /** No part of a text without separators has one. */
  lemma NoSeparatorsInPart(a: string, s: string, b: string)
    requires CutEvent(a + s + b).None?
    ensures CutEvent(s).None?
  {
    var all := a + s + b;
    NoSeparators(all);
    forall k: nat | k < |s| ensures !LfAt(s, k) && !CrlfAt(s, k) {
      assert !LfAt(all, |a| + k) && !CrlfAt(all, |a| + k);
    }
    NoSeparators(s);
  }

  /** Feeding a clean stream whose events fit gives the events of the whole. */
  lemma CleanFeed(chunks: seq<string>)
    requires Clean(Flatten(chunks)) && FitsCap(Flatten(chunks))
    ensures FeedAll(chunks) == EventsOf(Flatten(chunks))
  {
    CutShrinks();
    forall x, y ensures Keeps(CutEvent, Clean, x, y) { LaterTextKeepsEvents(x, y); }
    forall x, y ensures Admits(Clean, x, y) { if Clean(x + y) { CleanParts(x, y); } }
    forall x, s, y ensures PartsStayUncut(CutEvent, x, s, y) { if CutEvent(x + s + y).None? { NoSeparatorsInPart(x, s, y); } }
    var all := Flatten(chunks);
    assert "" + all == all && Rest(CutEvent, "") == "";
    FeedIsWhole(CutEvent, Clean, LIMIT, "", chunks);
  }

  // ---------- streams that do depend on the cut ----------

  /** The LF blank line comes first: both cuts are there. */
  lemma SameFirst(s: string, i: nat, m: nat)
    requires CrlfAt(s, i) && m == Find(LfAt, s, 0) && m < i
    ensures m + 2 <= i && CutEvent(s) == Some((s[..m], s[m + 2..]))
    ensures CutEvent(s[..i + 4]) == Some((s[..m], s[m + 2..][..i - m + 2]))
  {
    var a := s[..i + 4];
    forall x: nat | x < m ensures !LfAt(a, x) { NotBefore(LfAt, s, 0, x); }
    FindIs(LfAt, a, 0, m);
    assert a[..m] == s[..m] && a[m + 2..] == s[m + 2..][..i - m + 2];
  }

  /** The CRLF blank line comes first: it ends the first event of what is cut there, but not of the whole. */
  lemma DifferentFirst(s: string, i: nat, m: nat)
    requires CrlfAt(s, i) && i < m == Find(LfAt, s, 0) < |s|
    ensures CutEvent(s).Some? && |CutEvent(s).value.0| == m
    ensures CutEvent(s[..i + 4]).Some? && |CutEvent(s[..i + 4]).value.0| <= i
  {
    var a := s[..i + 4];
    forall x: nat | x < |a| ensures !LfAt(a, x) {
      if x < m { NotBefore(LfAt, s, 0, x); }
    }
    FindIs(LfAt, a, 0, |a|);
    assert CrlfAt(a, i);
    if Find(CrlfAt, a, 0) > i { NotBefore(CrlfAt, a, 0, i); }
  }

  /** After a CRLF blank line at `i` and an LF blank line at a later `j`, the events of what ends with the former differ
      from those of the whole. */
  lemma {:induction false} MixedDiverges(s: string, i: nat, j: nat) returns (k: nat)
    requires i < j && CrlfAt(s, i) && LfAt(s, j)
    ensures var early, whole := EventsOf(s[..i + 4]), EventsOf(s);
            k < |early| && k < |whole| && |early[k]| < |whole[k]|
    decreases |s|
  {
    CutShrinks();
    var m := Find(LfAt, s, 0);
    if m > j { NotBefore(LfAt, s, 0, j); }
    if m < i {
      SameFirst(s, i, m);
      var tail := s[m + 2..];
      assert CrlfAt(tail, i - m - 2) && LfAt(tail, j - m - 2);
      k := MixedDiverges(tail, i - m - 2, j - m - 2);
      k := k + 1;
    } else {
      DifferentFirst(s, i, m);
      k := 0;
    }
  }

  lemma NotInside(x: string, q: string)
    requires CutEvent(x).None?
    ensures forall k: nat :: k + 1 < |x| ==> !LfAt(x + q, k)
    ensures forall k: nat :: k + 3 < |x| ==> !CrlfAt(x + q, k)
  {
    NoSeparators(x);
    forall k: nat | k + 1 < |x| ensures !LfAt(x + q, k) { assert !LfAt(x, k); }
    forall k: nat | k + 3 < |x| ensures !CrlfAt(x + q, k) { assert !CrlfAt(x, k); }
  }

  lemma FindInSuffix(at: At, s: string, t: string, d: nat)
    requires d <= Find(at, s, 0) && |t| == |s| - d
    requires forall k: nat :: k <= |t| ==> at(t, k) == at(s, d + k)
    ensures Find(at, t, 0) == Find(at, s, 0) - d
  {
    var i := Find(at, s, 0);
    forall k: nat | k < i - d ensures !at(t, k) { NotBefore(at, s, 0, d + k); }
    FindIs(at, t, 0, i - d);
  }

  /** Dropping the front of an unfinished event shortens the event that completes. */
  lemma DroppedFront(x: string, q: string, d: nat)
    requires CutEvent(x).None? && CutEvent(x + q).Some? && d + 3 <= |x|
    ensures CutEvent(x[d..] + q).Some? && |CutEvent(x[d..] + q).value.0| == |CutEvent(x + q).value.0| - d
  {
    var t := x[d..] + q;
    assert t == (x + q)[d..];
    NotInside(x, q);
    FindInSuffix(LfAt, x + q, t, d);
    if Find(LfAt, x + q, 0) == |x + q| {
      FindInSuffix(CrlfAt, x + q, t, d);
    }
  }

  lemma TwoChunks(p: string, q: string)
    ensures Flatten([p, q]) == p + q
    ensures FeedAll([p, q]) == EventsOf(p) + EventsOf(Trim(LIMIT, Pending(p)) + q)
  {
    CutShrinks();
    assert [p, q][1..] == [q];
    OneChunk("", q);
    OneChunk(Trim(LIMIT, Pending(p)), q);
    assert "" + p == p;
  }

  lemma OneChunk(buffer: string, q: string)
    requires Shrinks(CutEvent)
    ensures Flatten([q]) == q && Feed(CutEvent, LIMIT, buffer, [q]) == EventsOf(buffer + q)
  {
    assert [q][1..] == [];
    assert q + [] == q && EventsOf(buffer + q) + [] == EventsOf(buffer + q);
  }

  lemma Differ(x: seq<string>, y: seq<string>, whole: seq<string>, k: nat)
    requires k < |x| && k < |whole| && |x[k]| < |whole[k]|
    ensures x + y != whole
  {
    assert (x + y)[k] == x[k];
  }

  lemma OverflowDiverges(p: string, q: string)
    requires Shrinks(CutEvent) && Clean(p + q) && !FitsAt(CutEvent, LIMIT, p, q)
    ensures Flatten([p, q]) == p + q && FeedAll([p, q]) != EventsOf(p + q)
  {
    var x := Pending(p);
    TwoChunks(p, q);
    SplitsCompose(p, q);
    RestIsUncut(CutEvent, p);
    DroppedFront(x, q, |x| - LIMIT);
    SameStart(EventsOf(p), EventsOf(Trim(LIMIT, x) + q), EventsOf(x + q));
  }

  lemma SameStart(x: seq<string>, y: seq<string>, z: seq<string>)
    requires y != [] && z != [] && |y[0]| < |z[0]|
    ensures x + y != x + z
  {
    assert (x + y)[|x|] == y[0] && (x + z)[|x|] == z[0];
  }

  lemma MixedFails(s: string)
    requires !Clean(s)
    ensures exists p, q :: Flatten([p, q]) == s && FeedAll([p, q]) != EventsOf(s)
  {
    var i: nat, j: nat :| i < j < |s| && CrlfAt(s, i) && LfAt(s, j);
    var k := MixedDiverges(s, i, j);
    var p, q := s[..i + 4], s[i + 4..];
    assert s == p + q;
    TwoChunks(p, q);
    Differ(EventsOf(p), EventsOf(Trim(LIMIT, Pending(p)) + q), EventsOf(s), k);
  }

  ghost predicate IndependentOfChunks(s: string) {
    forall chunks :: Flatten(chunks) == s ==> FeedAll(chunks) == EventsOf(s)
  }

  /** The exact condition: the completed events are the same for every way of cutting the stream if and only if no CRLF
      blank line comes before an LF blank line and no event that completes is ever over the cap. */
  lemma ChunkingMattersExactlyWhen(s: string)
    ensures IndependentOfChunks(s) <==> Clean(s) && FitsCap(s)
  {
    CutShrinks();
    if Clean(s) && FitsCap(s) {
      forall chunks | Flatten(chunks) == s ensures FeedAll(chunks) == EventsOf(s) { CleanFeed(chunks); }
    } else if !Clean(s) {
      MixedFails(s);
    } else {
      var p, q :| p + q == s && !FitsAt(CutEvent, LIMIT, p, q);
      OverflowDiverges(p, q);
    }
  }

  // ---------- one line-ending style ----------

  predicate LfOnly(s: string) { '\r' !in s }

  predicate CrlfOnly(s: string) { forall i :: 0 <= i < |s| && s[i] == '\n' ==> i > 0 && s[i - 1] == '\r' }

  lemma OneStyleIsClean(s: string)
    requires LfOnly(s) || CrlfOnly(s)
    ensures Clean(s)
  {
  }

  lemma SameCutLf(s: string)
    requires LfOnly(s)
    ensures CutEvent(s) == Sse.CutEvent(s)
    ensures CutEvent(s).Some? ==> LfOnly(CutEvent(s).value.1)
  {
    var j := Sse.FirstBlank(s, 0);
    forall k: nat | k < j ensures !LfAt(s, k) { Sse.NoBlankBefore(s, 0, k); }
    assert forall k :: 0 <= k < |s| ==> s[k] != '\r';
    FindIs(LfAt, s, 0, j);
    FindIs(CrlfAt, s, 0, |s|);
  }

  lemma SameCutCrlf(s: string)
    requires CrlfOnly(s)
    ensures CutEvent(s) == Sse.CutEvent(s)
    ensures CutEvent(s).Some? ==> CrlfOnly(CutEvent(s).value.1)
  {
    var j := Sse.FirstBlank(s, 0);
    FindIs(LfAt, s, 0, |s|);
    if j < |s| && s[j] == '\n' { Sse.NoBlankBefore(s, 0, j - 1); }
    forall k: nat | k < j ensures !CrlfAt(s, k) { Sse.NoBlankBefore(s, 0, k); }
    FindIs(CrlfAt, s, 0, j);
  }

  /** What the gateway and the runtime cut off a buffer with one line-ending style is the same event. */
  lemma SameCut(s: string)
    requires LfOnly(s) || CrlfOnly(s)
    ensures CutEvent(s) == Sse.CutEvent(s)
    ensures CutEvent(s).Some? ==> LfOnly(CutEvent(s).value.1) || CrlfOnly(CutEvent(s).value.1)
  {
    if LfOnly(s) { SameCutLf(s); } else { SameCutCrlf(s); }
  }

  /** On a stream with one line-ending style the gateway observes exactly the events that the runtime parses. */
  lemma {:induction false} SameEvents(s: string)
    requires LfOnly(s) || CrlfOnly(s)
    ensures EventsOf(s) == Sse.EventsOf(s) && Pending(s) == Sse.Pending(s)
    decreases |s|
  {
    CutShrinks();
    Sse.CutShrinks();
    SameCut(s);
    assert ShrinksAt(CutEvent, s);
    if CutEvent(s).Some? { SameEvents(CutEvent(s).value.1); }
  }

  // ---------- the data of an event, and the token counts ----------

  /** `strings.ReplaceAll(s, "\r\n", "\n")`. */
  function Normalized(s: string): string {
    if s == "" then ""
    else if |s| >= 2 && s[0] == '\r' && s[1] == '\n' then "\n" + Normalized(s[2..])
    else [s[0]] + Normalized(s[1..])
  }

  function FirstLine(s: string): string {
    if s == "" || s[0] == '\n' then "" else [s[0]] + FirstLine(s[1..])
  }

  lemma {:induction false} FirstLineBound(s: string)
    ensures |FirstLine(s)| <= |s|
  {
    if s != "" && s[0] != '\n' { FirstLineBound(s[1..]); }
  }

  type Trimmer = string -> string

  function ValueOf(trim: Trimmer, line: string): string { if "data:" <= line then trim(line[5..]) else "" }

  /** What the data lines say, one after the other without a separator. */
  function DataLines(trim: Trimmer, s: string): string
    decreases |s|
  {
    FirstLineBound(s);
    var line := FirstLine(s);
    if |line| == |s| then ValueOf(trim, line) else ValueOf(trim, line) + DataLines(trim, s[|line| + 1..])
  }

  function Data(trim: Trimmer, event: string): string { DataLines(trim, Normalized(event)) }

  /** The token fields of a usage object, read as numbers. */
  datatype Usage = Usage(inputTokens: int, outputTokens: int, promptTokens: int, completionTokens: int)

  /** A decoded payload: its usage object and the input tokens of its message's usage object. */
  datatype Payload = Payload(usage: Option<Usage>, messageInput: Option<int>)

  datatype Counts = Counts(input: int, output: int)

  function Positive(value: int, otherwise: int): int { if value > 0 then value else otherwise }

  function ReadUsage(provider: string, c: Counts, p: Payload): Counts {
    var first :=
      if p.usage.None? then c
      else if provider == "anthropic" then Counts(Positive(p.usage.value.inputTokens, c.input), Positive(p.usage.value.outputTokens, c.output))
      else Counts(Positive(p.usage.value.promptTokens, c.input), Positive(p.usage.value.completionTokens, c.output));
    if p.messageInput.None? then first else first.(input := Positive(p.messageInput.value, first.input))
  }

  /** How the bytes of a data line are trimmed, and how a payload is decoded. */
  datatype Parser = Parser(trim: Trimmer, decode: string -> Option<Payload>)

  function Note(provider: string, parse: Parser, c: Counts, event: string): Counts {
    var data := Data(parse.trim, event);
    if data == "" || data == "[DONE]" || parse.decode(data).None? then c else ReadUsage(provider, c, parse.decode(data).value)
  }

  function NoteAll(provider: string, parse: Parser, c: Counts, events: seq<string>): Counts
    decreases |events|
  {
    if events == [] then c else NoteAll(provider, parse, Note(provider, parse, c, events[0]), events[1..])
  }

  lemma {:induction false} NoteAllConcat(provider: string, parse: Parser, c: Counts, x: seq<string>, y: seq<string>)
    ensures NoteAll(provider, parse, c, x + y) == NoteAll(provider, parse, NoteAll(provider, parse, c, x), y)
    decreases |x|
  {
    if x == [] {
      assert x + y == y;
    } else {
      assert (x + y)[1..] == x[1..] + y;
      NoteAllConcat(provider, parse, Note(provider, parse, c, x[0]), x[1..], y);
    }
  }

  // What the counts mean: each is the last positive number that was reported for it.

  /** The field of the usage object that a provider reports its input or its output in. */
  function UsageInput(provider: string, p: Payload): Option<int> {
    if p.usage.None? then None else Some(if provider == "anthropic" then p.usage.value.inputTokens else p.usage.value.promptTokens)
  }

  function UsageOutput(provider: string, p: Payload): Option<int> {
    if p.usage.None? then None else Some(if provider == "anthropic" then p.usage.value.outputTokens else p.usage.value.completionTokens)
  }

  function Report(given: Option<int>): seq<int> { if given.None? then [] else [given.value] }

  /** The input counts a payload reports, in the order in which they are read, and the output counts. */
  function InputReports(provider: string, p: Payload): seq<int> { Report(UsageInput(provider, p)) + Report(p.messageInput) }

  function OutputReports(provider: string, p: Payload): seq<int> { Report(UsageOutput(provider, p)) }

  /** `after` is the last positive report, or `before` when there is none; so a count never falls back to zero. */
  ghost predicate IsLatest(reports: seq<int>, before: int, after: int) {
    && (before > 0 ==> after > 0)
    && (if forall i :: 0 <= i < |reports| ==> reports[i] <= 0 then after == before
        else exists k :: 0 <= k < |reports| && reports[k] == after > 0 && forall i :: k < i < |reports| ==> reports[i] <= 0)
  }

  lemma LatestJoins(x: seq<int>, y: seq<int>, a: int, b: int, c: int)
    requires IsLatest(x, a, b) && IsLatest(y, b, c)
    ensures IsLatest(x + y, a, c)
  {
    var all := x + y;
    if !(forall i :: 0 <= i < |y| ==> y[i] <= 0) {
      var k :| 0 <= k < |y| && y[k] == c > 0 && forall i :: k < i < |y| ==> y[i] <= 0;
      assert all[|x| + k] == c;
    } else if !(forall i :: 0 <= i < |x| ==> x[i] <= 0) {
      var k :| 0 <= k < |x| && x[k] == b > 0 && forall i :: k < i < |x| ==> x[i] <= 0;
      assert all[k] == c;
    } else {
      assert forall i :: 0 <= i < |all| ==> all[i] <= 0;
    }
  }

  ghost predicate Reported(inputs: seq<int>, outputs: seq<int>, before: Counts, after: Counts) {
    IsLatest(inputs, before.input, after.input) && IsLatest(outputs, before.output, after.output)
  }

  function Updated(given: Option<int>, before: int): int { if given.None? then before else Positive(given.value, before) }

  lemma LatestOfOne(given: Option<int>, before: int)
    ensures IsLatest(Report(given), before, Updated(given, before))
  {
    if given.Some? { assert Report(given)[0] == given.value; }
  }

  lemma ReadsLatest(provider: string, c: Counts, p: Payload)
    ensures Reported(InputReports(provider, p), OutputReports(provider, p), c, ReadUsage(provider, c, p))
  {
    var input := Updated(UsageInput(provider, p), c.input);
    assert ReadUsage(provider, c, p) == Counts(Updated(p.messageInput, input), Updated(UsageOutput(provider, p), c.output));
    LatestOfOne(UsageInput(provider, p), c.input);
    LatestOfOne(p.messageInput, input);
    LatestOfOne(UsageOutput(provider, p), c.output);
    LatestJoins(Report(UsageInput(provider, p)), Report(p.messageInput), c.input, input, Updated(p.messageInput, input));
  }

  /** The payloads of the events that carry one. */
  function PayloadsOf(parse: Parser, events: seq<string>): seq<Payload> {
    if events == [] then []
    else
      var data := Data(parse.trim, events[0]);
      (if data == "" || data == "[DONE]" || parse.decode(data).None? then [] else [parse.decode(data).value]) + PayloadsOf(parse, events[1..])
  }

  function AllInputs(provider: string, payloads: seq<Payload>): seq<int> {
    if payloads == [] then [] else InputReports(provider, payloads[0]) + AllInputs(provider, payloads[1..])
  }

  function AllOutputs(provider: string, payloads: seq<Payload>): seq<int> {
    if payloads == [] then [] else OutputReports(provider, payloads[0]) + AllOutputs(provider, payloads[1..])
  }

  /** Between two moments, the counts have become the last positive ones that the events in between report. */
  ghost predicate CountsLatest(provider: string, parse: Parser, events: seq<string>, before: Counts, after: Counts) {
    Reported(AllInputs(provider, PayloadsOf(parse, events)), AllOutputs(provider, PayloadsOf(parse, events)), before, after)
  }

  lemma {:induction false} NotesLatest(provider: string, parse: Parser, c: Counts, events: seq<string>)
    ensures CountsLatest(provider, parse, events, c, NoteAll(provider, parse, c, events))
    decreases |events|
  {
    if events != [] {
      var n := Note(provider, parse, c, events[0]);
      var rest := PayloadsOf(parse, events[1..]);
      NotesLatest(provider, parse, n, events[1..]);
      var data := Data(parse.trim, events[0]);
      if data == "" || data == "[DONE]" || parse.decode(data).None? {
        assert PayloadsOf(parse, events) == rest;
      } else {
        var p := parse.decode(data).value;
        ReadsLatest(provider, c, p);
        assert PayloadsOf(parse, events) == [p] + rest && ([p] + rest)[1..] == rest;
        var after := NoteAll(provider, parse, n, events[1..]);
        LatestJoins(InputReports(provider, p), AllInputs(provider, rest), c.input, n.input, after.input);
        LatestJoins(OutputReports(provider, p), AllOutputs(provider, rest), c.output, n.output, after.output);
      }
    }
  }

  class UsageObserver {
    const provider: string
    const parse: Parser
    var buffer: string
    var input: int
    var output: int

    ghost function Seen(): Counts reads this { Counts(input, output) }

    constructor (provider: string, parse: Parser)
      ensures this.provider == provider && this.parse == parse && buffer == "" && Seen() == Counts(0, 0)
    {
      this.provider, this.parse, buffer, input, output := provider, parse, "", 0, 0;
    }

    method NoteUsage(p: Payload)
      modifies this`input, this`output
      ensures Seen() == ReadUsage(provider, old(Seen()), p)
      ensures Reported(InputReports(provider, p), OutputReports(provider, p), old(Seen()), Seen())
    {
      ReadsLatest(provider, Seen(), p);
      if p.usage.Some? {
        var usage := p.usage.value;
        if provider == "anthropic" {
          if usage.inputTokens > 0 { input := usage.inputTokens; }
          if usage.outputTokens > 0 { output := usage.outputTokens; }
        } else {
          if usage.promptTokens > 0 { input := usage.promptTokens; }
          if usage.completionTokens > 0 { output := usage.completionTokens; }
        }
      }
      if p.messageInput.Some? {
        if p.messageInput.value > 0 { input := p.messageInput.value; }
      }
    }

    /** Every event that the chunk completes is noted, in order, and the rest stays buffered up to the cap. */
    method Observe(chunk: string)
      modifies this`buffer, this`input, this`output
      ensures buffer == Trim(LIMIT, Pending(old(buffer) + chunk))
      ensures Seen() == NoteAll(provider, parse, old(Seen()), EventsOf(old(buffer) + chunk))
      ensures CountsLatest(provider, parse, EventsOf(old(buffer) + chunk), old(Seen()), Seen())
    {
      CutShrinks();
      NotesLatest(provider, parse, Seen(), EventsOf(buffer + chunk));
      buffer := buffer + chunk;
      var cut := CutEvent(buffer);
      while cut.Some?
        invariant cut == CutEvent(buffer)
        invariant Pending(buffer) == Pending(old(buffer) + chunk)
        invariant NoteAll(provider, parse, Seen(), EventsOf(buffer)) == NoteAll(provider, parse, old(Seen()), EventsOf(old(buffer) + chunk))
        decreases |buffer|
      {
        assert ShrinksAt(CutEvent, buffer);
        var event := cut.value.0;
        buffer := cut.value.1;
        cut := CutEvent(buffer);
        var data := Data(parse.trim, event);
        if data == "" || data == "[DONE]" {
          continue;
        }
        var payload := parse.decode(data);
        if payload.None? {
          continue;
        }
        NoteUsage(payload.value);
      }
      if |buffer| > LIMIT {
        buffer := buffer[|buffer| - LIMIT..];
      }
    }

    /** A whole stream: the counts depend on how it was cut only through the events that were completed. */
    method ObserveAll(chunks: seq<string>)
      requires buffer == ""
      modifies this`buffer, this`input, this`output
      ensures Seen() == NoteAll(provider, parse, old(Seen()), FeedAll(chunks))
      ensures CountsLatest(provider, parse, FeedAll(chunks), old(Seen()), Seen())
      ensures Clean(Flatten(chunks)) && FitsCap(Flatten(chunks)) ==>
                && Seen() == NoteAll(provider, parse, old(Seen()), EventsOf(Flatten(chunks)))
                && CountsLatest(provider, parse, EventsOf(Flatten(chunks)), old(Seen()), Seen())
      ensures (LfOnly(Flatten(chunks)) || CrlfOnly(Flatten(chunks))) && FitsCap(Flatten(chunks)) ==>
                CountsLatest(provider, parse, Sse.EventsOf(Flatten(chunks)), old(Seen()), Seen())
    {
      NotesLatest(provider, parse, Seen(), FeedAll(chunks));
      if LfOnly(Flatten(chunks)) || CrlfOnly(Flatten(chunks)) {
        OneStyleIsClean(Flatten(chunks));
        SameEvents(Flatten(chunks));
      }
      CutShrinks();
      assert chunks[0..] == chunks;
      for i := 0 to |chunks|
        invariant NoteAll(provider, parse, Seen(), Feed(CutEvent, LIMIT, buffer, chunks[i..]))
                  == NoteAll(provider, parse, old(Seen()), FeedAll(chunks))
      {
        FeedUnfolds(buffer, chunks[i..]);
        assert chunks[i..][1..] == chunks[i + 1..];
        NoteAllConcat(provider, parse, Seen(), EventsOf(buffer + chunks[i]),
                      Feed(CutEvent, LIMIT, Trim(LIMIT, Pending(buffer + chunks[i])), chunks[i + 1..]));
        Observe(chunks[i]);
      }
      if Clean(Flatten(chunks)) && FitsCap(Flatten(chunks)) { CleanFeed(chunks); }
    }
  }

  lemma FeedUnfolds(buffer: string, chunks: seq<string>)
    requires Shrinks(CutEvent) && chunks != []
    ensures Feed(CutEvent, LIMIT, buffer, chunks)
            == EventsOf(buffer + chunks[0]) + Feed(CutEvent, LIMIT, Trim(LIMIT, Pending(buffer + chunks[0])), chunks[1..])
  {
  }

  // ---------- what mixed line endings cost ----------

  predicate OneLine(s: string) { '\r' !in s && '\n' !in s }

  lemma {:induction false} NormalizedLine(x: string, rest: string)
    requires OneLine(x)
    ensures Normalized(x + rest) == x + Normalized(rest)
  {
    if x == "" {
      assert x + rest == rest;
    } else {
      assert (x + rest)[1..] == x[1..] + rest && x[0] in x;
      NormalizedLine(x[1..], rest);
    }
  }

  lemma {:induction false} FirstLineIs(x: string, rest: string)
    requires OneLine(x) && (rest == "" || rest[0] == '\n')
    ensures FirstLine(x + rest) == x
  {
    if x == "" {
      assert x + rest == rest;
    } else {
      assert (x + rest)[1..] == x[1..] + rest && x[0] in x;
      FirstLineIs(x[1..], rest);
    }
  }

  function Line(a: string): string { "data:" + a }

  predicate Plain(trim: Trimmer, a: string) { a != "" && a != "[DONE]" && OneLine(a) && trim(a) == a }

  lemma LastDataLine(trim: Trimmer, x: string)
    requires OneLine(x)
    ensures DataLines(trim, x) == ValueOf(trim, x) && Normalized(x) == x
  {
    FirstLineIs(x, "");
    NormalizedLine(x, "");
    assert x + "" == x;
  }

  lemma NextDataLine(trim: Trimmer, x: string, rest: string)
    requires OneLine(x)
    ensures DataLines(trim, x + ("\n" + rest)) == ValueOf(trim, x) + DataLines(trim, rest)
  {
    FirstLineIs(x, "\n" + rest);
    assert (x + ("\n" + rest))[|x| + 1..] == rest;
  }

  lemma ValueOfLine(trim: Trimmer, a: string)
    requires Plain(trim, a)
    ensures ValueOf(trim, Line(a)) == a && OneLine(Line(a)) && Line(a) != ""
  {
    assert Line(a)[5..] == a;
  }

  lemma DataOfLine(trim: Trimmer, a: string)
    requires Plain(trim, a)
    ensures Data(trim, Line(a)) == a
  {
    ValueOfLine(trim, a);
    LastDataLine(trim, Line(a));
  }

  lemma NormalizedEnd(rest: string)
    ensures Normalized("\r\n" + rest) == "\n" + Normalized(rest)
  {
    assert ("\r\n" + rest)[2..] == rest;
  }

  lemma DataOfBoth(trim: Trimmer, a: string, b: string)
    requires Plain(trim, a) && Plain(trim, b)
    ensures Data(trim, Line(a) + "\r\n\r\n" + Line(b)) == a + b
  {
    var x, y := Line(a), Line(b);
    ValueOfLine(trim, a);
    ValueOfLine(trim, b);
    assert x + "\r\n\r\n" + y == x + ("\r\n" + ("\r\n" + y));
    NormalizedLine(x, "\r\n" + ("\r\n" + y));
    NormalizedEnd("\r\n" + y);
    NormalizedEnd(y);
    LastDataLine(trim, y);
    NextDataLine(trim, x, "\n" + y);
    assert "" + ("\n" + y) == "\n" + y;
    NextDataLine(trim, "", y);
    assert ValueOf(trim, "") == "" && "" + b == b;
  }

  lemma NothingInEmpty()
    ensures EventsOf("") == [] && Pending("") == ""
  {
    CutShrinks();
  }

  lemma OneCut(s: string, x: string)
    requires CutEvent(s) == Some((x, ""))
    ensures EventsOf(s) == [x] && Pending(s) == ""
  {
    CutShrinks();
    NothingInEmpty();
    assert [x] + [] == [x];
  }

  lemma OneCrlfEvent(x: string)
    requires OneLine(x)
    ensures EventsOf(x + "\r\n\r\n") == [x] && Pending(x + "\r\n\r\n") == ""
  {
    var s := x + "\r\n\r\n";
    FindIs(LfAt, s, 0, |s|);
    FindIs(CrlfAt, s, 0, |x|);
    assert s[..|x|] == x && s[|x| + 4..] == "";
    OneCut(s, x);
  }

  lemma OneLfEvent(x: string)
    requires forall k: nat :: k < |x| ==> !LfAt(x, k)
    requires x != "" && x[|x| - 1] != '\n'
    ensures EventsOf(x + "\n\n") == [x]
  {
    var s := x + "\n\n";
    forall k: nat | k < |x| ensures !LfAt(s, k) { assert k + 1 < |x| ==> !LfAt(x, k); }
    FindIs(LfAt, s, 0, |x|);
    assert s[..|x|] == x && s[|x| + 2..] == "";
    OneCut(s, x);
  }

  lemma OneThenOther(provider: string, parse: Parser, c: Counts, x: string, y: string)
    ensures NoteAll(provider, parse, c, [x] + [y]) == Note(provider, parse, Note(provider, parse, c, x), y)
    ensures NoteAll(provider, parse, c, [x]) == Note(provider, parse, c, x)
  {
    assert [y][1..] == [] && [x][1..] == [];
    NoteAllConcat(provider, parse, c, [x], [y]);
  }

  lemma InPieces(trim: Trimmer, a: string, b: string)
    requires Plain(trim, a) && Plain(trim, b)
    ensures FeedAll([Line(a) + "\r\n\r\n", Line(b) + "\n\n"]) == [Line(a)] + [Line(b)]
  {
    ValueOfLine(trim, a);
    ValueOfLine(trim, b);
    var x, y := Line(a), Line(b);
    OneCrlfEvent(x);
    assert y[|y| - 1] in y;
    OneLfEvent(y);
    TwoChunks(x + "\r\n\r\n", y + "\n\n");
    assert "" + (y + "\n\n") == y + "\n\n";
  }

  lemma InOnePiece(trim: Trimmer, a: string, b: string)
    requires Plain(trim, a) && Plain(trim, b)
    ensures FeedAll([Line(a) + "\r\n\r\n" + (Line(b) + "\n\n")]) == [Line(a) + "\r\n\r\n" + Line(b)]
  {
    ValueOfLine(trim, a);
    ValueOfLine(trim, b);
    var x, y := Line(a), Line(b);
    var both := x + "\r\n\r\n" + y;
    var s := x + "\r\n\r\n" + (y + "\n\n");
    assert s == both + "\n\n";
    assert y[|y| - 1] in y && both[|both| - 1] == y[|y| - 1];
    OneLfEvent(both);
    CutShrinks();
    OneChunk("", s);
    assert "" + s == s;
  }

  /** Two events with different line endings, each with a payload of its own: fed one after the other both are counted,
      fed in one piece they run together and neither is, unless the two payloads together happen to be one. */
  lemma MixedEndingsLoseUsage(provider: string, parse: Parser, c: Counts, a: string, b: string)
    requires Plain(parse.trim, a) && Plain(parse.trim, b) && a + b != "[DONE]"
    requires parse.decode(a).Some? && parse.decode(b).Some? && parse.decode(a + b).None?
    ensures var p, q := Line(a) + "\r\n\r\n", Line(b) + "\n\n";
            && NoteAll(provider, parse, c, FeedAll([p, q])) == ReadUsage(provider, ReadUsage(provider, c, parse.decode(a).value), parse.decode(b).value)
            && NoteAll(provider, parse, c, FeedAll([p + q])) == c
  {
    InPieces(parse.trim, a, b);
    InOnePiece(parse.trim, a, b);
    DataOfLine(parse.trim, a);
    DataOfLine(parse.trim, b);
    DataOfBoth(parse.trim, a, b);
    OneThenOther(provider, parse, c, Line(a), Line(b));
    OneThenOther(provider, parse, c, Line(a) + "\r\n\r\n" + Line(b), "");
  }
}
