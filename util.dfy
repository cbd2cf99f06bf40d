/** Generic sequence operations that mirror the JavaScript array methods the
    stores and screens use: `filter`, `map` over a by-id condition, a stable
    `sort` by an integer key, and `slice(0, n)`. */
module Util {

  datatype Option<T> = None | Some(value: T)

  /** A non-empty sequence is its head followed by its tail. */
  lemma HeadTail<T>(s: seq<T>)
    requires s != []
    ensures s == [s[0]] + s[1..]
  {
  }

  /** Concatenation is associative. Stated once here, so that proofs about
      filtered lists need not rediscover it among their own facts. */
  lemma ConcatAssoc<T>(a: seq<T>, b: seq<T>, c: seq<T>)
    ensures a + (b + c) == (a + b) + c
  {
  }

  /** `Array.prototype.filter`: the elements satisfying `p`, in their original order. */
  function Filter<T(==,!new)>(s: seq<T>, p: T -> bool): (r: seq<T>)
    ensures |r| <= |s|
    ensures forall x :: x in r <==> x in s && p(x)
    ensures forall x :: multiset(r)[x] == if p(x) then multiset(s)[x] else 0
  {
    if s == [] then []
    else
      HeadTail(s);
      (if p(s[0]) then [s[0]] else []) + Filter(s[1..], p)
  }

  /** One element in front: kept or dropped, then the rest. */
  lemma FilterCons<T(!new)>(a: T, s: seq<T>, p: T -> bool)
    ensures Filter([a] + s, p) == (if p(a) then [a] else []) + Filter(s, p)
  {
    var u := [a] + s;
    assert u[0] == a && u[1..] == s;
  }

  /** Filtering distributes over concatenation, so the kept elements keep their order. */
  lemma {:induction false} FilterAppend<T(!new)>(s: seq<T>, t: seq<T>, p: T -> bool)
    ensures Filter(s + t, p) == Filter(s, p) + Filter(t, p)
  {
    if s == [] {
      assert s + t == t;
    } else {
      FilterAppend(s[1..], t, p);
      HeadTail(s);
      FilterAppendStep(s[0], s[1..], t, p);
    }
  }

  /** The inductive step of `FilterAppend`: one more element in front. */
  lemma FilterAppendStep<T(!new)>(a: T, rest: seq<T>, t: seq<T>, p: T -> bool)
    requires Filter(rest + t, p) == Filter(rest, p) + Filter(t, p)
    ensures Filter([a] + rest + t, p) == Filter([a] + rest, p) + Filter(t, p)
  {
    var head := if p(a) then [a] else [];
    ConcatAssoc([a], rest, t);
    FilterCons(a, rest + t, p);
    FilterCons(a, rest, p);
    ConcatAssoc(head, Filter(rest, p), Filter(t, p));
  }

  /** A filter that keeps everything is the identity. */
  lemma {:induction false} FilterAll<T(!new)>(s: seq<T>, p: T -> bool)
    requires forall x :: x in s ==> p(x)
    ensures Filter(s, p) == s
  {
    if s != [] {
      FilterAll(s[1..], p);
    }
  }

  /** `s.map(x => p(x) ? f(x) : x)`: rewrite exactly the elements satisfying `p`. */
  function MapIf<T>(s: seq<T>, p: T -> bool, f: T -> T): (r: seq<T>)
    ensures |r| == |s|
    ensures forall i :: 0 <= i < |s| ==> r[i] == if p(s[i]) then f(s[i]) else s[i]
  {
    if s == [] then []
    else [if p(s[0]) then f(s[0]) else s[0]] + MapIf(s[1..], p, f)
  }

  /** With no element selected, the by-condition map changes nothing. */
  lemma MapIfNoMatch<T>(s: seq<T>, p: T -> bool, f: T -> T)
    requires forall i :: 0 <= i < |s| ==> !p(s[i])
    ensures MapIf(s, p, f) == s
  {
  }

  /** Ascending order of `key` over the whole sequence. */
  ghost predicate SortedBy<T>(s: seq<T>, key: T -> int)
  {
    forall i, j :: 0 <= i < j < |s| ==> key(s[i]) <= key(s[j])
  }

  /** A sorted sequence stays sorted with an element in front that is not larger than its head. */
  lemma ConsSorted<T>(a: T, rest: seq<T>, key: T -> int)
    requires SortedBy(rest, key)
    requires rest != [] ==> key(a) <= key(rest[0])
    ensures SortedBy([a] + rest, key)
  {
    var r := [a] + rest;
    forall i, j | 0 <= i < j < |r| ensures key(r[i]) <= key(r[j]) {
      assert r[j] == rest[j - 1];
      if i > 0 {
        assert r[i] == rest[i - 1];
      } else if j > 1 {
        assert key(rest[0]) <= key(rest[j - 1]);
      }
    }
  }

  /** A key of a spread patch (`{ ...current, ...patch }`): the patch's value
      when the key is present, the current one otherwise. */
  function Override<T>(key: Option<T>, current: T): T
  {
    if key.Some? then key.value else current
  }

  /** Inserts `x` before the first element whose key is not smaller. */
  function Insert<T(==)>(x: T, s: seq<T>, key: T -> int): (r: seq<T>)
    requires SortedBy(s, key)
    ensures multiset(r) == multiset(s) + multiset{x}
    ensures |r| == |s| + 1
    ensures r[0] == x || (s != [] && r[0] == s[0])
    ensures SortedBy(r, key)
  {
    if s == [] || key(x) <= key(s[0]) then
      ConsSorted(x, s, key);
      [x] + s
    else
      var tail := s[1..];
      assert SortedBy(tail, key);
      var rest := Insert(x, tail, key);
      InsertStep(x, s, rest, key);
      [s[0]] + rest
  }

  /** The step of `Insert` past the head: putting the head back in front keeps
      the elements and the order. */
  lemma InsertStep<T>(x: T, s: seq<T>, rest: seq<T>, key: T -> int)
    requires s != [] && key(s[0]) < key(x) && SortedBy(s, key)
    requires multiset(rest) == multiset(s[1..]) + multiset{x}
    requires rest != [] && (rest[0] == x || (|s| > 1 && rest[0] == s[1]))
    requires SortedBy(rest, key)
    ensures multiset([s[0]] + rest) == multiset(s) + multiset{x}
    ensures SortedBy([s[0]] + rest, key)
  {
    HeadTail(s);
    assert multiset(s) == multiset{s[0]} + multiset(s[1..]);
    ConsSorted(s[0], rest, key);
  }

  /** Stable ascending sort by an integer key (insertion sort; an element is
      inserted before elements of equal key that came after it). A descending
      comparator `(a, b) => k(b) - k(a)` is the key `x => -k(x)`. */
  function SortByKey<T(==)>(s: seq<T>, key: T -> int): (r: seq<T>)
    ensures multiset(r) == multiset(s)
    ensures |r| == |s|
    ensures SortedBy(r, key)
  {
    if s == [] then []
    else
      HeadTail(s);
      Insert(s[0], SortByKey(s[1..], key), key)
  }

  /** `slice(0, n)`. */
  function Take<T>(s: seq<T>, n: nat): (r: seq<T>)
    ensures |r| == if |s| < n then |s| else n
    ensures forall i :: 0 <= i < |r| ==> r[i] == s[i]
  {
    if |s| <= n then s else s[..n]
  }

  /** The first `n` elements of a sorted sequence are its `n` smallest: an
      element left out of the prefix means the prefix is full and none of its
      members has a larger key. */
  lemma TakeOfSortedIsSmallest<T>(t: seq<T>, key: T -> int, n: nat, x: T)
    requires SortedBy(t, key)
    requires x in t && x !in Take(t, n)
    ensures |Take(t, n)| == n
    ensures forall y :: y in Take(t, n) ==> key(y) <= key(x)
  {
    var j :| 0 <= j < |t| && t[j] == x;
    forall y | y in Take(t, n) ensures key(y) <= key(x) {
      var i :| 0 <= i < |Take(t, n)| && Take(t, n)[i] == y;
    }
  }

  /** A prefix of a sorted sequence is sorted. */
  lemma TakeSorted<T>(s: seq<T>, key: T -> int, n: nat)
    requires SortedBy(s, key)
    ensures SortedBy(Take(s, n), key)
  {
  }

  /** Sequences with the same elements, counted, have the same members. */
  lemma SameMembers<T>(a: seq<T>, b: seq<T>)
    requires multiset(a) == multiset(b)
    ensures forall x :: x in a <==> x in b
  {
    forall x ensures x in a <==> x in b {
      assert x in a <==> x in multiset(a);
      assert x in b <==> x in multiset(b);
    }
  }

  /** A sequence without repeated elements holds each value at most once. */
  lemma {:induction false} DistinctCount<T>(s: seq<T>)
    requires forall i, j :: 0 <= i < j < |s| ==> s[i] != s[j]
    ensures forall x :: multiset(s)[x] <= 1
  {
    if s != [] {
      var rest := s[1..];
      assert forall i, j :: 0 <= i < j < |rest| ==> rest[i] == s[i + 1] && rest[j] == s[j + 1];
      DistinctCount(rest);
      assert s[0] !in rest by {
        forall k | 0 <= k < |rest| ensures rest[k] != s[0] {
          assert rest[k] == s[k + 1];
        }
      }
      HeadTail(s);
      assert multiset(s) == multiset{s[0]} + multiset(rest);
    }
  }

  /** A value found at two positions is held at least twice. */
  lemma RepeatCount<T>(s: seq<T>, i: nat, j: nat)
    requires i < j < |s| && s[i] == s[j]
    ensures multiset(s)[s[i]] >= 2
  {
    var front, back := s[..j], s[j..];
    assert s == front + back;
    assert front[i] == s[i] && back[0] == s[j];
    assert multiset(s) == multiset(front) + multiset(back);
  }

  /** The converse of `DistinctCount`: a sequence holding each value at most
      once has no repeated elements. */
  lemma OnceMeansDistinct<T>(s: seq<T>)
    requires forall x :: multiset(s)[x] <= 1
    ensures forall i, j :: 0 <= i < j < |s| ==> s[i] != s[j]
  {
    forall i, j | 0 <= i < j < |s| ensures s[i] != s[j] {
      if s[i] == s[j] {
        RepeatCount(s, i, j);
        assert false;
      }
    }
  }

  /** `slice(0, n)` keeps only elements of the original. */
  lemma TakeMembers<T>(s: seq<T>, n: nat)
    ensures forall x :: x in Take(s, n) ==> x in s
  {
  }

  lemma TakeIsSubMultiset<T>(s: seq<T>, n: nat)
    ensures multiset(Take(s, n)) <= multiset(s)
  {
    var r := Take(s, n);
    assert s == r + s[|r|..];
  }
}
