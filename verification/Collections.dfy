/** Shared vocabulary: options, finite sums and sequence filters. */
module Collections {

  datatype Option<+T> = None | Some(value: T)

  /** The sum of `f` over a finite set, in an unspecified order. */
  ghost function Sum<K>(s: set<K>, f: K -> int): int
  {
    if s == {} then 0
    else
      var k :| k in s;
      f(k) + Sum(s - {k}, f)
  }

  /** Any element may be taken out first. */
  lemma {:induction false} SumRemove<K>(s: set<K>, f: K -> int, k: K)
    requires k in s
    ensures Sum(s, f) == f(k) + Sum(s - {k}, f)
    decreases |s|
  {
    var j :| j in s && Sum(s, f) == f(j) + Sum(s - {j}, f);
    if j != k {
      SumRemove(s - {j}, f, k);
      SumRemove(s - {k}, f, j);
      assert s - {j} - {k} == s - {k} - {j};
    }
  }

  lemma SumInsert<K>(s: set<K>, f: K -> int, k: K)
    requires k !in s
    ensures Sum(s + {k}, f) == f(k) + Sum(s, f)
  {
    SumRemove(s + {k}, f, k);
    assert s + {k} - {k} == s;
  }

  /** Only the values on the set matter. */
  lemma {:induction false} SumExt<K>(s: set<K>, f: K -> int, g: K -> int)
    requires forall k :: k in s ==> f(k) == g(k)
    ensures Sum(s, f) == Sum(s, g)
    decreases |s|
  {
    if s != {} {
      var k :| k in s && Sum(s, f) == f(k) + Sum(s - {k}, f);
      SumExt(s - {k}, f, g);
      SumRemove(s, g, k);
    }
  }

  /** Changing the summand at one point changes the sum by that difference. */
  lemma SumChange<K>(s: set<K>, f: K -> int, g: K -> int, k: K)
    requires k in s
    requires forall j :: j in s && j != k ==> f(j) == g(j)
    ensures Sum(s, g) == Sum(s, f) - f(k) + g(k)
  {
    SumRemove(s, f, k);
    SumRemove(s, g, k);
    SumExt(s - {k}, f, g);
  }

  /** The difference of two sums is the sum of the differences. */
  lemma {:induction false} SumDifference<K>(s: set<K>, f: K -> int, g: K -> int, d: K -> int)
    requires forall k :: k in s ==> d(k) == f(k) - g(k)
    ensures Sum(s, d) == Sum(s, f) - Sum(s, g)
    decreases |s|
  {
    if s != {} {
      var k :| k in s;
      SumRemove(s, f, k);
      SumRemove(s, g, k);
      SumRemove(s, d, k);
      SumDifference(s - {k}, f, g, d);
    }
  }

  /** Elements that count for nothing can be left out. */
  lemma {:induction false} SumOfPart<K>(s: set<K>, t: set<K>, f: K -> int)
    requires s <= t && forall k :: k in t && k !in s ==> f(k) == 0
    ensures Sum(t, f) == Sum(s, f)
    decreases |t|
  {
    if s != t {
      var k :| k in t && k !in s;
      SumRemove(t, f, k);
      SumOfPart(s, t - {k}, f);
    }
  }

  /** A larger set with larger values that are not negative. */
  lemma {:induction false} SumGrows<K>(s: set<K>, t: set<K>, f: K -> int, g: K -> int)
    requires s <= t && (forall k :: k in s ==> f(k) <= g(k)) && (forall k :: k in t ==> 0 <= g(k))
    ensures Sum(s, f) <= Sum(t, g)
    decreases |s|
  {
    if s == {} {
      SumNonNegative(t, g);
    } else {
      var k :| k in s;
      SumRemove(s, f, k);
      SumRemove(t, g, k);
      SumGrows(s - {k}, t - {k}, f, g);
    }
  }

  lemma {:induction false} SumNonNegative<K>(s: set<K>, f: K -> int)
    requires forall k :: k in s ==> 0 <= f(k)
    ensures 0 <= Sum(s, f)
    ensures forall k :: k in s ==> f(k) <= Sum(s, f)
    decreases |s|
  {
    if s != {} {
      var k :| k in s && Sum(s, f) == f(k) + Sum(s - {k}, f);
      SumNonNegative(s - {k}, f);
      forall j | j in s ensures f(j) <= Sum(s, f) {
        if j != k { assert j in s - {k}; }
      }
    }
  }

  /** The elements of `s` that satisfy `p`, in order. */
  function Filter<T>(s: seq<T>, p: T -> bool): seq<T>
  {
    if s == [] then []
    else (if p(s[0]) then [s[0]] else []) + Filter(s[1..], p)
  }

  lemma {:induction false} FilterConcat<T>(a: seq<T>, b: seq<T>, p: T -> bool)
    ensures Filter(a + b, p) == Filter(a, p) + Filter(b, p)
  {
    if a == [] {
      assert a + b == b;
    } else {
      assert (a + b)[1..] == a[1..] + b;
      FilterConcat(a[1..], b, p);
      var first := if p(a[0]) then [a[0]] else [];
      assert first + (Filter(a[1..], p) + Filter(b, p)) == (first + Filter(a[1..], p)) + Filter(b, p);
    }
  }

  lemma {:induction false} FilterMembers<T>(s: seq<T>, p: T -> bool)
    ensures forall x :: x in Filter(s, p) <==> x in s && p(x)
  {
    if s != [] {
      FilterMembers(s[1..], p);
      assert s == [s[0]] + s[1..];
    }
  }

  lemma {:induction false} FilterExt<T>(s: seq<T>, p: T -> bool, q: T -> bool)
    requires forall x :: x in s ==> p(x) == q(x)
    ensures Filter(s, p) == Filter(s, q)
  {
    if s != [] {
      FilterExt(s[1..], p, q);
    }
  }

  lemma {:induction false} FilterTwice<T>(s: seq<T>, p: T -> bool, q: T -> bool, both: T -> bool)
    requires forall x :: x in s ==> both(x) == (p(x) && q(x))
    ensures Filter(Filter(s, p), q) == Filter(s, both)
  {
    if s != [] {
      FilterTwice(s[1..], p, q, both);
      FilterConcat(if p(s[0]) then [s[0]] else [], Filter(s[1..], p), q);
    }
  }

  /** At most the first `n` elements: `LIMIT n`. */
  function Take<T>(s: seq<T>, n: nat): seq<T> { if |s| <= n then s else s[..n] }

  /** The concatenation of a sequence of sequences. */
  function Flatten<T>(ss: seq<seq<T>>): seq<T>
  {
    if ss == [] then [] else ss[0] + Flatten(ss[1..])
  }

  lemma {:induction false} FlattenConcat<T>(a: seq<seq<T>>, b: seq<seq<T>>)
    ensures Flatten(a + b) == Flatten(a) + Flatten(b)
  {
    if a == [] {
      assert a + b == b;
    } else {
      assert (a + b)[1..] == a[1..] + b;
      FlattenConcat(a[1..], b);
      assert a[0] + (Flatten(a[1..]) + Flatten(b)) == (a[0] + Flatten(a[1..])) + Flatten(b);
    }
  }

  lemma {:induction false} FilterNone<T>(s: seq<T>, p: T -> bool)
    requires forall i :: 0 <= i < |s| ==> !p(s[i])
    ensures Filter(s, p) == []
  {
    if s != [] { FilterNone(s[1..], p); }
  }

  lemma {:induction false} FilterAll<T>(s: seq<T>, p: T -> bool)
    requires forall i :: 0 <= i < |s| ==> p(s[i])
    ensures Filter(s, p) == s
  {
    if s != [] {
      FilterAll(s[1..], p);
      assert s == [s[0]] + s[1..];
    }
  }

  // ---------- sequences that ascend by a key ----------

  ghost predicate Ascending<T>(s: seq<T>, key: T -> int) {
    forall i, j :: 0 <= i < j < |s| ==> key(s[i]) < key(s[j])
  }

  lemma {:induction false} FilterAscending<T>(s: seq<T>, key: T -> int, p: T -> bool)
    requires Ascending(s, key)
    ensures Ascending(Filter(s, p), key)
  {
    if s != [] {
      var tail := s[1..];
      var rest := Filter(tail, p);
      FilterAscending(tail, key, p);
      forall j | 0 <= j < |rest| ensures key(s[0]) < key(rest[j]) {
        var i := FilterSource(tail, p, j);
        assert tail[i] == s[i + 1];
      }
    }
  }

  /** Where a kept element came from. */
  lemma {:induction false} FilterSource<T>(s: seq<T>, p: T -> bool, j: nat) returns (i: nat)
    requires j < |Filter(s, p)|
    ensures i < |s| && s[i] == Filter(s, p)[j] && p(s[i])
  {
    if p(s[0]) && j == 0 {
      return 0;
    }
    i := FilterSource(s[1..], p, if p(s[0]) then j - 1 else j);
    i := i + 1;
  }

  /** After an element above the bound, nothing up to the bound follows. */
  lemma NothingLowFollows<T>(s: seq<T>, key: T -> int, low: T -> bool, bound: int)
    requires Ascending(s, key) && s != [] && key(s[0]) > bound
    requires forall i :: 0 <= i < |s| && low(s[i]) ==> key(s[i]) <= bound
    ensures Filter(s[1..], low) == []
  {
    var tail := s[1..];
    forall i | 0 <= i < |tail| ensures !low(tail[i]) { assert tail[i] == s[i + 1] && key(s[0]) < key(s[i + 1]); }
    FilterNone(tail, low);
  }

  lemma AscendingTail<T>(s: seq<T>, key: T -> int)
    requires Ascending(s, key) && s != []
    ensures Ascending(s[1..], key)
  {
    forall i, j | 0 <= i < j < |s[1..]| ensures key(s[1..][i]) < key(s[1..][j]) { assert key(s[i + 1]) < key(s[j + 1]); }
  }

  /** In an ascending sequence, what is kept up to a bound comes before what is kept after it. */
  lemma {:induction false} FilterSplits<T>(s: seq<T>, key: T -> int, low: T -> bool, high: T -> bool, both: T -> bool, bound: int)
    requires Ascending(s, key)
    requires forall i :: 0 <= i < |s| ==> both(s[i]) == (low(s[i]) || high(s[i]))
    requires forall i :: 0 <= i < |s| ==> (low(s[i]) ==> key(s[i]) <= bound) && (high(s[i]) ==> key(s[i]) > bound)
    ensures Filter(s, both) == Filter(s, low) + Filter(s, high)
  {
    if s != [] {
      var first, tail := s[0], s[1..];
      AscendingTail(s, key);
      assert forall i :: 0 <= i < |tail| ==> tail[i] == s[i + 1];
      FilterSplits(tail, key, low, high, both, bound);
      if high(first) { NothingLowFollows(s, key, low, bound); }
      JoinFirst(if low(first) then [first] else [], if high(first) then [first] else [],
                Filter(tail, low), Filter(tail, high));
    }
  }

  lemma JoinFirst<T>(a: seq<T>, b: seq<T>, low: seq<T>, high: seq<T>)
    requires b != [] ==> low == []
    ensures (a + b) + (low + high) == (a + low) + (b + high)
  {
  }

  /** The first `n` kept elements are the kept elements up to the last of them. */
  lemma FirstKept<T>(s: seq<T>, key: T -> int, p: T -> bool, n: nat, upTo: T -> bool)
    requires Ascending(s, key) && 1 <= n <= |Filter(s, p)|
    requires forall x :: x in s ==> upTo(x) == (p(x) && key(x) <= key(Filter(s, p)[n - 1]))
    ensures Filter(s, p)[..n] == Filter(s, upTo)
  {
    var kept := Filter(s, p);
    var last := key(kept[n - 1]);
    FilterAscending(s, key, p);
    var low := (x: T) => key(x) <= last;
    FilterTwice(s, p, low, upTo);
    AscendingFront(kept, key, n, low);
  }

  lemma AscendingSplit<T>(s: seq<T>, key: T -> int, n: nat)
    requires Ascending(s, key) && 1 <= n <= |s|
    ensures forall i :: 0 <= i < |s[..n]| ==> key(s[..n][i]) <= key(s[n - 1])
    ensures forall i :: 0 <= i < |s[n..]| ==> key(s[n - 1]) < key(s[n..][i])
  {
    forall i | 0 <= i < n ensures key(s[i]) <= key(s[n - 1]) { assert i < n - 1 ==> key(s[i]) < key(s[n - 1]); }
    forall i | 0 <= i < |s[n..]| ensures key(s[n - 1]) < key(s[n..][i]) { assert s[n..][i] == s[n + i]; }
  }

  lemma AscendingFront<T>(s: seq<T>, key: T -> int, n: nat, low: T -> bool)
    requires Ascending(s, key) && 1 <= n <= |s|
    requires forall x :: low(x) <==> key(x) <= key(s[n - 1])
    ensures Filter(s, low) == s[..n]
  {
    AscendingSplit(s, key, n);
    FilterFront(s[..n], s[n..], low);
    assert s == s[..n] + s[n..];
  }

  lemma FilterFront<T>(front: seq<T>, back: seq<T>, p: T -> bool)
    requires (forall i :: 0 <= i < |front| ==> p(front[i])) && forall i :: 0 <= i < |back| ==> !p(back[i])
    ensures Filter(front + back, p) == front
  {
    FilterConcat(front, back, p);
    FilterAll(front, p);
    FilterNone(back, p);
    assert front + [] == front;
  }

  /** What a filter drops and what it keeps add up. */
  lemma {:induction false} FilterCount<T>(s: seq<T>, p: T -> bool, q: T -> bool)
    requires forall x :: x in s ==> q(x) == !p(x)
    ensures |Filter(s, p)| + |Filter(s, q)| == |s|
  {
    if s != [] { FilterCount(s[1..], p, q); }
  }

  // ---------- ascending lists of distinct numbers ----------

  predicate Strict(s: seq<int>) { forall i, j :: 0 <= i < j < |s| ==> s[i] < s[j] }

  /** Insertion into an ascending list; a number that is already there stays once. */
  function InsertSorted(s: seq<int>, x: int): seq<int> {
    if s == [] || x < s[0] then [x] + s
    else if x == s[0] then s
    else [s[0]] + InsertSorted(s[1..], x)
  }

  lemma {:induction false} InsertMembers(s: seq<int>, x: int)
    ensures forall y :: y in InsertSorted(s, x) <==> y == x || y in s
  {
    if s != [] && s[0] < x { InsertMembers(s[1..], x); }
  }

  lemma StrictCons(x: int, s: seq<int>)
    requires Strict(s) && forall y :: y in s ==> x < y
    ensures Strict([x] + s)
  {
    var all := [x] + s;
    forall j | 1 <= j < |all| ensures all[j] == s[j - 1] && all[0] < all[j] { assert s[j - 1] in s; }
  }

  lemma StrictTail(s: seq<int>)
    requires Strict(s) && s != []
    ensures Strict(s[1..]) && forall y :: y in s[1..] ==> s[0] < y
  {
  }

  lemma {:induction false} InsertStrict(s: seq<int>, x: int)
    requires Strict(s)
    ensures Strict(InsertSorted(s, x)) && (x in s ==> InsertSorted(s, x) == s)
  {
    if s == [] {
      StrictCons(x, s);
    } else {
      StrictTail(s);
      assert s == [s[0]] + s[1..];
      if x < s[0] {
        StrictCons(x, s);
      } else if s[0] < x {
        InsertStrict(s[1..], x);
        InsertMembers(s[1..], x);
        StrictCons(s[0], InsertSorted(s[1..], x));
      }
    }
  }
}
