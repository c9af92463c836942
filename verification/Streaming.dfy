/**
 * Streaming of an agent's answer (apps/agent-runtime/src/runtime.ts): deltas are coalesced under a timer, split at
 * code points and numbered, around the loop of provider calls and tool calls.  Text is UTF-16.
 */
module Streaming {
  import opened Collections

  type Unit = x: int | 0 <= x < 0x1_0000
  type Text = seq<Unit>

  const LIMIT: nat := 8192

  // ---------- code points ----------

  predicate High(u: Unit) { 0xD800 <= u <= 0xDBFF }
  predicate Low(u: Unit) { 0xDC00 <= u <= 0xDFFF }

  /** The code points of a text, each as one or two units; half of a surrogate pair stands alone. */
  function Points(s: Text): seq<Text> {
    if s == [] then []
    else if |s| >= 2 && High(s[0]) && Low(s[1]) then [s[..2]] + Points(s[2..])
    else [s[..1]] + Points(s[1..])
  }

  /** The bytes that UTF-8 takes for a code point; a lone surrogate is replaced by a three-byte character. */
  function Size(point: Text): nat {
    if |point| != 1 then 4 else if point[0] < 0x80 then 1 else if point[0] < 0x800 then 2 else 3
  }

  function Sizes(points: seq<Text>): nat {
    if points == [] then 0 else Size(points[0]) + Sizes(points[1..])
  }

  function Bytes(s: Text): nat { Sizes(Points(s)) }

  predicate IsPoint(p: Text) { |p| == 1 || (|p| == 2 && High(p[0]) && Low(p[1])) }

  /** Code points that stay apart when they are written one after the other. */
  predicate Apart(points: seq<Text>) {
    && (forall i :: 0 <= i < |points| ==> IsPoint(points[i]))
    && forall i :: 0 <= i < |points| - 1 ==> !(|points[i]| == 1 && High(points[i][0]) && Low(points[i + 1][0]))
  }

  lemma {:induction false} PointsAreApart(s: Text)
    ensures Flatten(Points(s)) == s && Apart(Points(s))
    ensures s != [] ==> Points(s) != [] && Points(s)[0][0] == s[0]
  {
    if s != [] {
      var n := if |s| >= 2 && High(s[0]) && Low(s[1]) then 2 else 1;
      PointsAreApart(s[n..]);
      var rest := Points(s[n..]);
      assert Points(s)[1..] == rest;
      assert s == s[..n] + s[n..];
    }
  }

  /** Writing code points that are apart and reading them back gives the same code points. */
  lemma {:induction false} ApartReadsBack(points: seq<Text>)
    requires Apart(points)
    ensures Points(Flatten(points)) == points
  {
    if points != [] {
      var p, rest := points[0], points[1..];
      assert Apart(rest) by { assert forall i :: 0 <= i < |rest| ==> rest[i] == points[i + 1]; }
      ApartReadsBack(rest);
      var tail := Flatten(rest);
      var s := p + tail;
      assert s[..|p|] == p && s[|p|..] == tail;
      if rest != [] {
        assert Flatten(rest) == rest[0] + Flatten(rest[1..]) && tail[0] == rest[0][0];
      }
    }
  }

  lemma {:induction false} SizesSnoc(points: seq<Text>, p: Text)
    ensures Sizes(points + [p]) == Sizes(points) + Size(p)
  {
    if points == [] {
      assert points + [p] == [p] && [p][1..] == [];
    } else {
      assert (points + [p])[1..] == points[1..] + [p];
      SizesSnoc(points[1..], p);
    }
  }

  lemma ApartSlice(points: seq<Text>, i: nat, j: nat)
    requires Apart(points) && i <= j <= |points|
    ensures Apart(points[i..j])
  {
    var part := points[i..j];
    assert forall k :: 0 <= k < |part| ==> part[k] == points[i + k];
  }

  lemma {:induction false} FlattenSnoc<T>(ss: seq<seq<T>>, s: seq<T>)
    ensures Flatten(ss + [s]) == Flatten(ss) + s
  {
    FlattenConcat(ss, [s]);
    assert [s][1..] == [] && s + Flatten([]) == s;
  }

  // ---------- splitting ----------

  function AllPoints(parts: seq<Text>): seq<Text> {
    if parts == [] then [] else AllPoints(parts[..|parts| - 1]) + Points(parts[|parts| - 1])
  }

  /** A split that loses nothing, cuts no code point, and keeps every part within the limit. */
  ghost predicate Splits(value: Text, parts: seq<Text>) {
    && Flatten(parts) == value && AllPoints(parts) == Points(value)
    && (forall i :: 0 <= i < |parts| ==> Bytes(parts[i]) <= LIMIT)
    && (value != [] ==> forall i :: 0 <= i < |parts| ==> parts[i] != [])
  }

  /** A part that is a run of code points of the text: its own code points and its size. */
  lemma PartIs(points: seq<Text>, i: nat, j: nat)
    requires Apart(points) && i <= j <= |points|
    ensures Points(Flatten(points[i..j])) == points[i..j] && Bytes(Flatten(points[i..j])) == Sizes(points[i..j])
  {
    ApartSlice(points, i, j);
    ApartReadsBack(points[i..j]);
  }

  lemma SliceGrows(points: seq<Text>, i: nat, j: nat)
    requires Apart(points) && i <= j < |points|
    ensures points[i..j + 1] == points[i..j] + [points[j]]
    ensures Flatten(points[i..j + 1]) == Flatten(points[i..j]) + points[j]
    ensures Sizes(points[i..j + 1]) == Sizes(points[i..j]) + Size(points[j])
    ensures Flatten(points[i..j + 1]) != []
  {
    assert points[i..j + 1] == points[i..j] + [points[j]];
    FlattenSnoc(points[i..j], points[j]);
    SizesSnoc(points[i..j], points[j]);
  }

  lemma PartDone(points: seq<Text>, result: seq<Text>, start: nat, j: nat)
    requires Apart(points) && start <= j <= |points|
    requires Flatten(result) == Flatten(points[..start]) && AllPoints(result) == points[..start]
    ensures var more := result + [Flatten(points[start..j])];
            Flatten(more) == Flatten(points[..j]) && AllPoints(more) == points[..j]
  {
    var part := Flatten(points[start..j]);
    FlattenSnoc(result, part);
    PartIs(points, start, j);
    assert points[..j] == points[..start] + points[start..j];
    FlattenConcat(points[..start], points[start..j]);
    assert (result + [part])[..|result|] == result;
  }

  /** The loop's state after `j` code points: the parts before `start` are done and `current` holds the rest. */
  ghost predicate Splitting(points: seq<Text>, j: nat, start: nat, result: seq<Text>, current: Text, bytes: nat)
    requires Apart(points) && j <= |points|
  {
    && start <= j && (j > 0 ==> start < j)
    && current == Flatten(points[start..j]) && bytes == Sizes(points[start..j]) <= LIMIT
    && Flatten(result) == Flatten(points[..start]) && AllPoints(result) == points[..start]
    && forall i :: 0 <= i < |result| ==> result[i] != [] && Bytes(result[i]) <= LIMIT
  }

  /** A part is closed and the next code point starts a new one. */
  lemma CutBefore(points: seq<Text>, j: nat, start: nat, result: seq<Text>, current: Text, bytes: nat)
    requires Apart(points) && j < |points| && start < j && Splitting(points, j, start, result, current, bytes)
    ensures Splitting(points, j + 1, j, result + [current], points[j], Size(points[j]))
  {
    PartDone(points, result, start, j);
    PartIs(points, start, j);
    SliceGrows(points, start, j - 1);
    assert points[j..j] == [];
    SliceGrows(points, j, j);
    assert [] + points[j] == points[j];
  }

  lemma TakePoint(points: seq<Text>, j: nat, start: nat, result: seq<Text>, current: Text, bytes: nat)
    requires Apart(points) && j < |points| && Splitting(points, j, start, result, current, bytes)
    requires bytes + Size(points[j]) <= LIMIT
    ensures Splitting(points, j + 1, start, result, current + points[j], bytes + Size(points[j]))
  {
    SliceGrows(points, start, j);
  }

  lemma SplitDone(points: seq<Text>, start: nat, result: seq<Text>, current: Text, bytes: nat)
    requires Apart(points) && points != [] && Splitting(points, |points|, start, result, current, bytes)
    ensures current != [] && Splits(Flatten(points), result + [current])
  {
    PartDone(points, result, start, |points|);
    PartIs(points, start, |points|);
    SliceGrows(points, start, |points| - 1);
    assert points[..|points|] == points;
    ApartReadsBack(points);
  }

  lemma SplitWhole(value: Text)
    requires Bytes(value) <= LIMIT
    ensures Splits(value, [value])
  {
    FlattenSnoc([], value);
    assert [] + [value] == [value] && [value][..0] == [] && [] + Points(value) == Points(value) && Flatten([]) + value == value;
  }

  method SplitStreamingDelta(value: Text) returns (result: seq<Text>)
    ensures Splits(value, result) && result != []
  {
    PointsAreApart(value);
    if Bytes(value) <= LIMIT {
      SplitWhole(value);
      return [value];
    }
    var points := Points(value);
    var current: Text, bytes: nat := [], 0;
    ghost var start := 0;
    result := [];
    assert points[0..0] == [];
    for j := 0 to |points|
      invariant Splitting(points, j, start, result, current, bytes)
    {
      var size := Size(points[j]);
      if bytes + size > LIMIT {
        CutBefore(points, j, start, result, current, bytes);
        result := result + [current];
        current, bytes := [], 0;
        start := j;
        assert [] + points[j] == points[j];
      } else {
        TakePoint(points, j, start, result, current, bytes);
      }
      current := current + points[j];
      bytes := bytes + size;
    }
    SplitDone(points, start, result, current, bytes);
    if current != [] {
      result := result + [current];
    }
  }

  // ---------- what the receivers of a stream put together ----------

  datatype Message = Reset(index: nat) | Delta(index: nat, text: Text) | Done(index: nat)

  /** Text is added to the newest piece. */
  function Extend(pieces: seq<Text>, text: Text): seq<Text> {
    if pieces == [] then [text] else pieces[..|pieces| - 1] + [pieces[|pieces| - 1] + text]
  }

  function Receive(pieces: seq<Text>, m: Message): seq<Text> {
    match m
    case Reset(_) => pieces + [[]]
    case Delta(_, text) => Extend(pieces, text)
    case Done(_) => pieces
  }

  /** The text between resets, piece by piece. */
  function Pieces(out: seq<Message>): seq<Text> {
    if out == [] then [] else Receive(Pieces(out[..|out| - 1]), out[|out| - 1])
  }

  lemma PiecesSnoc(out: seq<Message>, m: Message)
    ensures Pieces(out + [m]) == Receive(Pieces(out), m)
  {
    assert (out + [m])[..|out|] == out;
  }

  lemma ExtendTwice(pieces: seq<Text>, a: Text, b: Text)
    ensures Extend(Extend(pieces, a), b) == Extend(pieces, a + b)
    ensures pieces != [] ==> Extend(pieces, []) == pieces
  {
    if pieces == [] {
      assert [a][..0] == [] && [] + [a + b] == [a + b];
    } else {
      var init, last := pieces[..|pieces| - 1], pieces[|pieces| - 1];
      assert (init + [last + a])[..|init|] == init;
      assert (last + a) + b == last + (a + b);
      assert last + [] == last && init + [last] == pieces;
    }
  }

  /** Indices run from 1 without gaps, and the text of every delta passes a test. */
  ghost predicate Numbered(out: seq<Message>, test: Text -> bool) {
    forall i :: 0 <= i < |out| ==> out[i].index == i + 1 && (out[i].Delta? ==> test(out[i].text))
  }

  predicate Short(text: Text) { text != [] && Bytes(text) <= LIMIT }

  /** Every delta is a nonempty part within the limit. */
  ghost predicate WellFormed(out: seq<Message>) { Numbered(out, Short) }

  /** The stream has not been ended. */
  ghost predicate Ongoing(out: seq<Message>) { forall i :: 0 <= i < |out| ==> !out[i].Done? }

  function Deltas(from: nat, parts: seq<Text>): seq<Message> {
    seq(|parts|, i requires 0 <= i < |parts| => Delta(from + i, parts[i]))
  }

  /** The first `i` parts of a flushed text are out. */
  ghost predicate Emitted(before: seq<Message>, parts: seq<Text>, i: nat, out: seq<Message>, test: Text -> bool) {
    && i <= |parts| && out == before + Deltas(|before| + 1, parts[..i]) && Numbered(out, test)
    && Pieces(out) == if i == 0 then Pieces(before) else Extend(Pieces(before), Flatten(parts[..i]))
  }

  lemma DeltasSnoc(from: nat, parts: seq<Text>, i: nat)
    requires i < |parts|
    ensures Deltas(from, parts[..i + 1]) == Deltas(from, parts[..i]) + [Delta(from + i, parts[i])]
  {
  }

  lemma PiecesGrow(pieces: seq<Text>, parts: seq<Text>, i: nat)
    requires i < |parts|
    ensures Extend(if i == 0 then pieces else Extend(pieces, Flatten(parts[..i])), parts[i]) == Extend(pieces, Flatten(parts[..i + 1]))
  {
    assert parts[..i + 1] == parts[..i] + [parts[i]];
    FlattenSnoc(parts[..i], parts[i]);
    ExtendTwice(pieces, Flatten(parts[..i]), parts[i]);
    assert [] + parts[i] == parts[i];
  }

  lemma EmitOne(before: seq<Message>, parts: seq<Text>, i: nat, out: seq<Message>, test: Text -> bool)
    requires Emitted(before, parts, i, out, test) && i < |parts| && test(parts[i])
    ensures Emitted(before, parts, i + 1, out + [Delta(|out| + 1, parts[i])], test)
  {
    EmittedPieces(before, parts, i, out, test);
    EmittedDeltas(before, parts, i, out);
    NumberedSnoc(out, Delta(|out| + 1, parts[i]), test);
  }

  lemma NumberedSnoc(out: seq<Message>, m: Message, test: Text -> bool)
    requires Numbered(out, test) && m.index == |out| + 1 && (m.Delta? ==> test(m.text))
    ensures Numbered(out + [m], test)
  {
  }

  lemma EmittedDeltas(before: seq<Message>, parts: seq<Text>, i: nat, out: seq<Message>)
    requires i < |parts| && out == before + Deltas(|before| + 1, parts[..i])
    ensures out + [Delta(|out| + 1, parts[i])] == before + Deltas(|before| + 1, parts[..i + 1])
  {
    DeltasSnoc(|before| + 1, parts, i);
    var x, y := Deltas(|before| + 1, parts[..i]), [Delta(|out| + 1, parts[i])];
    assert (before + x) + y == before + (x + y);
  }

  lemma EmittedPieces(before: seq<Message>, parts: seq<Text>, i: nat, out: seq<Message>, test: Text -> bool)
    requires Emitted(before, parts, i, out, test) && i < |parts|
    ensures Pieces(out + [Delta(|out| + 1, parts[i])]) == Extend(Pieces(before), Flatten(parts[..i + 1]))
  {
    PiecesSnoc(out, Delta(|out| + 1, parts[i]));
    PiecesGrow(Pieces(before), parts, i);
  }

  /** The coalescer's callback: one message for each part. */
  method EmitParts(before: seq<Message>, value: Text) returns (out: seq<Message>)
    requires WellFormed(before) && value != []
    ensures WellFormed(out) && Pieces(out) == Extend(Pieces(before), value)
    ensures exists parts :: Splits(value, parts) && out == before + Deltas(|before| + 1, parts)
  {
    var parts := SplitStreamingDelta(value);
    out := before;
    for i := 0 to |parts|
      invariant Emitted(before, parts, i, out, Short)
    {
      EmitOne(before, parts, i, out, Short);
      out := out + [Delta(|out| + 1, parts[i])];
    }
    assert parts[..|parts|] == parts;
  }

  /** The stream of one run, with the coalescer of the provider call that is open. */
  class AgentStream {
    var out: seq<Message>
    var pending: Text
    var timer: bool

    ghost predicate Valid() reads this {
      && WellFormed(out) && Ongoing(out) && (timer <==> pending != []) && Bytes(pending) < LIMIT
    }

    /** What the receivers will have once the buffer is flushed. */
    ghost function Shown(): seq<Text> reads this {
      if pending == [] then Pieces(out) else Extend(Pieces(out), pending)
    }

    constructor ()
      ensures Valid() && out == [] && pending == []
    {
      out, pending, timer := [], [], false;
    }

    method EmitReset()
      requires Valid() && pending == []
      modifies this`out
      ensures Valid() && out == old(out) + [Reset(|old(out)| + 1)] && Shown() == old(Shown()) + [[]]
    {
      PiecesSnoc(out, Reset(|out| + 1));
      out := out + [Reset(|out| + 1)];
    }

    method Emit(value: Text)
      requires WellFormed(out) && Ongoing(out) && value != []
      modifies this`out
      ensures WellFormed(out) && Ongoing(out) && Pieces(out) == Extend(old(Pieces(out)), value)
      ensures exists parts :: Splits(value, parts) && out == old(out) + Deltas(|old(out)| + 1, parts)
    {
      out := EmitParts(out, value);
    }

    method Flush()
      requires WellFormed(out) && Ongoing(out)
      modifies this
      ensures Valid() && pending == [] && !timer
      ensures Shown() == old(Shown())
      ensures old(pending) == [] ==> out == old(out)
      ensures old(pending) != [] ==> exists parts :: Splits(old(pending), parts) && out == old(out) + Deltas(|old(out)| + 1, parts)
    {
      timer := false;
      var value := pending;
      pending := [];
      if value != [] {
        Emit(value);
      }
    }

    /** A delta of the provider; the buffer is flushed at the limit, and otherwise the timer runs. */
    method Push(delta: Text)
      requires Valid() && Pieces(out) != []
      modifies this
      ensures Valid() && Pieces(out) != [] && Shown() == Extend(old(Shown()), delta)
    {
      ExtendTwice(Pieces(out), pending, delta);
      if delta == [] {
        assert pending + [] == pending;
        return;
      }
      assert [] + delta == delta;
      pending := pending + delta;
      if Bytes(pending) >= LIMIT {
        Flush();
      } else {
        timer := true;
      }
    }

    /** The timer fires, if it is set. */
    method Fire()
      requires Valid() && Pieces(out) != []
      modifies this
      ensures Valid() && Pieces(out) != [] && Shown() == old(Shown())
    {
      if timer {
        Flush();
      }
    }

    /** The message that ends the stream, which shows nothing. */
    method EmitDone()
      requires WellFormed(out) && pending == []
      modifies this`out
      ensures WellFormed(out) && out == old(out) + [Done(|old(out)| + 1)] && Pieces(out) == old(Pieces(out))
    {
      PiecesSnoc(out, Done(|out| + 1));
      out := out + [Done(|out| + 1)];
    }
  }
}
