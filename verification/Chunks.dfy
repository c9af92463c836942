/** Splitting a text into events piece by piece, for any rule that cuts the first complete event off a buffer. */
module Chunks {
  import opened Collections

  /** The first complete event of a buffer and what follows it. */
  type Cut = string -> Option<(string, string)>

  ghost predicate ShrinksAt(cut: Cut, s: string) { cut(s).Some? ==> |cut(s).value.1| < |s| }

  ghost predicate Shrinks(cut: Cut) { forall s :: ShrinksAt(cut, s) }

  /** The complete events of a buffer. */
  function Events(cut: Cut, s: string): seq<string>
    requires Shrinks(cut)
    decreases |s|
  {
    assert ShrinksAt(cut, s);
    match cut(s)
    case None => []
    case Some((event, tail)) => [event] + Events(cut, tail)
  }

  /** The unfinished event that stays in the buffer. */
  function Rest(cut: Cut, s: string): string
    requires Shrinks(cut)
    decreases |s|
  {
    assert ShrinksAt(cut, s);
    match cut(s)
    case None => s
    case Some((event, tail)) => Rest(cut, tail)
  }

  lemma {:induction false} RestIsUncut(cut: Cut, s: string)
    requires Shrinks(cut)
    ensures cut(Rest(cut, s)) == None
    decreases |s|
  {
    assert ShrinksAt(cut, s);
    if cut(s).Some? { RestIsUncut(cut, cut(s).value.1); }
  }

  /** Later text does not change the first event, among the texts that `ok` admits. */
  ghost predicate Keeps(cut: Cut, ok: string -> bool, x: string, y: string) {
    cut(x).Some? && ok(x + y) ==>
      cut(x + y) == Some((cut(x).value.0, cut(x).value.1 + y)) && ok(cut(x).value.1 + y)
  }

  /** Feeding a text in two pieces finds the same events as feeding it at once. */
  lemma {:induction false} SplitComposes(cut: Cut, ok: string -> bool, a: string, b: string)
    requires Shrinks(cut) && ok(a + b)
    requires forall x, y :: Keeps(cut, ok, x, y)
    ensures Events(cut, a + b) == Events(cut, a) + Events(cut, Rest(cut, a) + b)
    ensures Rest(cut, a + b) == Rest(cut, Rest(cut, a) + b)
    ensures ok(Rest(cut, a) + b)
    decreases |a|
  {
    assert ShrinksAt(cut, a) && Keeps(cut, ok, a, b);
    if cut(a).Some? {
      var (first, tail) := cut(a).value;
      SplitComposes(cut, ok, tail, b);
      var later := Events(cut, Rest(cut, tail) + b);
      assert [first] + (Events(cut, tail) + later) == ([first] + Events(cut, tail)) + later;
    } else {
      assert Events(cut, a) + Events(cut, a + b) == Events(cut, a + b);
    }
  }

  // ---------- feeding chunk by chunk ----------

  /** A cap on the buffer keeps its end. */
  function Trim(limit: nat, s: string): string { if |s| > limit then s[|s| - limit..] else s }

  /** The events that are completed when the chunks arrive one after the other. */
  function Feed(cut: Cut, limit: nat, buffer: string, chunks: seq<string>): seq<string>
    requires Shrinks(cut)
    decreases |chunks|
  {
    if chunks == [] then []
    else Events(cut, buffer + chunks[0]) + Feed(cut, limit, Trim(limit, Rest(cut, buffer + chunks[0])), chunks[1..])
  }

  /** An event that is still unfinished after `p` and is over the limit is not completed by `q`. */
  ghost predicate FitsAt(cut: Cut, limit: nat, p: string, q: string)
    requires Shrinks(cut)
  {
    |Rest(cut, p)| > limit ==> cut(Rest(cut, p) + q).None?
  }

  ghost predicate Fits(cut: Cut, limit: nat, s: string)
    requires Shrinks(cut)
  {
    forall p, q :: p + q == s ==> FitsAt(cut, limit, p, q)
  }

  /** No part of a text that cannot be cut can be cut. */
  ghost predicate PartsStayUncut(cut: Cut, a: string, s: string, b: string) {
    cut(a + s + b).None? ==> cut(s).None?
  }

  ghost predicate Admits(ok: string -> bool, a: string, b: string) { ok(a + b) ==> ok(a) }

  /** A stream that never completes another event gives none, whatever of it was dropped. */
  lemma {:induction false} QuietFeed(cut: Cut, limit: nat, x: string, d: nat, chunks: seq<string>)
    requires Shrinks(cut) && forall a, s, b :: PartsStayUncut(cut, a, s, b)
    requires d <= |x| && cut(x + Flatten(chunks)).None?
    ensures Feed(cut, limit, x[d..], chunks) == []
    decreases |chunks|
  {
    if chunks != [] {
      var text := x[d..] + chunks[0];
      assert x + Flatten(chunks) == x[..d] + text + Flatten(chunks[1..]);
      assert PartsStayUncut(cut, x[..d], text, Flatten(chunks[1..]));
      var next := x + chunks[0];
      var e := if |text| > limit then d + |text| - limit else d;
      assert Trim(limit, text) == next[e..];
      assert next + Flatten(chunks[1..]) == x + Flatten(chunks);
      QuietFeed(cut, limit, next, e, chunks[1..]);
    }
  }

  /** One chunk: the events it completes, and what is left pending. */
  lemma NextChunk(cut: Cut, ok: string -> bool, seen: string, c: string, later: string)
    requires Shrinks(cut) && ok(seen + (c + later))
    requires forall x, y :: Keeps(cut, ok, x, y)
    requires forall x, y :: Admits(ok, x, y)
    ensures var text := Rest(cut, seen) + c;
            && Rest(cut, seen + c) == Rest(cut, text)
            && Events(cut, Rest(cut, seen) + (c + later)) == Events(cut, text) + Events(cut, Rest(cut, text) + later)
  {
    assert seen + (c + later) == (seen + c) + later;
    assert Admits(ok, seen + c, later);
    SplitComposes(cut, ok, seen, c);
    SplitComposes(cut, ok, seen, c + later);
    assert (Rest(cut, seen) + c) + later == Rest(cut, seen) + (c + later);
    SplitComposes(cut, ok, Rest(cut, seen) + c, later);
  }

  lemma JoinFeed(cut: Cut, ok: string -> bool, limit: nat, seen: string, c: string, rest: seq<string>)
    requires Shrinks(cut) && ok(seen + (c + Flatten(rest)))
    requires forall x, y :: Keeps(cut, ok, x, y)
    requires forall x, y :: Admits(ok, x, y)
    requires Feed(cut, limit, Trim(limit, Rest(cut, seen + c)), rest) == Events(cut, Rest(cut, seen + c) + Flatten(rest))
    ensures Feed(cut, limit, Rest(cut, seen), [c] + rest) == Events(cut, Rest(cut, seen) + (c + Flatten(rest)))
  {
    NextChunk(cut, ok, seen, c, Flatten(rest));
    assert ([c] + rest)[1..] == rest;
  }

  /** Feeding the rest of an admissible stream whose events fit gives the events of the rest. */
  lemma {:induction false} FeedIsWhole(cut: Cut, ok: string -> bool, limit: nat, seen: string, chunks: seq<string>)
    requires Shrinks(cut) && ok(seen + Flatten(chunks)) && Fits(cut, limit, seen + Flatten(chunks))
    requires forall x, y :: Keeps(cut, ok, x, y)
    requires forall x, y :: Admits(ok, x, y)
    requires forall a, s, b :: PartsStayUncut(cut, a, s, b)
    ensures Feed(cut, limit, Rest(cut, seen), chunks) == Events(cut, Rest(cut, seen) + Flatten(chunks))
    decreases |chunks|
  {
    if chunks == [] {
      RestIsUncut(cut, seen);
      assert Rest(cut, seen) + [] == Rest(cut, seen);
    } else {
      var c, rest := chunks[0], chunks[1..];
      Regroup(seen, c, Flatten(rest));
      if |Rest(cut, seen + c)| <= limit {
        FeedIsWhole(cut, ok, limit, seen + c, rest);
      } else {
        OverflowFeed(cut, limit, seen + c, rest);
      }
      JoinFeed(cut, ok, limit, seen, c, rest);
      assert chunks == [c] + rest;
    }
  }

  lemma Regroup(a: string, b: string, c: string)
    ensures (a + b) + c == a + (b + c)
  {
  }

  lemma OverflowFeed(cut: Cut, limit: nat, p: string, rest: seq<string>)
    requires Shrinks(cut) && Fits(cut, limit, p + Flatten(rest)) && |Rest(cut, p)| > limit
    requires forall a, s, b :: PartsStayUncut(cut, a, s, b)
    ensures Feed(cut, limit, Trim(limit, Rest(cut, p)), rest) == Events(cut, Rest(cut, p) + Flatten(rest))
  {
    assert FitsAt(cut, limit, p, Flatten(rest));
    QuietTrim(cut, limit, Rest(cut, p), rest);
  }

  lemma QuietTrim(cut: Cut, limit: nat, x: string, rest: seq<string>)
    requires Shrinks(cut) && cut(x + Flatten(rest)).None?
    requires forall a, s, b :: PartsStayUncut(cut, a, s, b)
    ensures Feed(cut, limit, Trim(limit, x), rest) == []
  {
    QuietFeed(cut, limit, x, if |x| > limit then |x| - limit else 0, rest);
  }
}
