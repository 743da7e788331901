/** The PHP array built-ins the core relies on, on lists: array_slice from
    offset 0, array_count_values (keys in order of first occurrence) and the
    stable descending sort that usort and arsort perform since PHP 8. */
module PhpArrays {

  /** array_slice($a, 0, $length). A negative length stops that many
      elements before the end. */
  function Slice<T>(s: seq<T>, length: int): (r: seq<T>)
    ensures |r| <= |s| && r == s[..|r|]
    ensures length >= 0 ==> |r| == if |s| <= length then |s| else length
    ensures length < 0 ==> |r| == if |s| + length <= 0 then 0 else |s| + length
  {
    if length >= 0 then (if |s| <= length then s else s[..length])
    else if |s| + length <= 0 then []
    else s[..|s| + length]
  }

  /** How many times `x` occurs in `s`. */
  function Occurrences<T(==)>(s: seq<T>, x: T): nat {
    if s == [] then 0
    else Occurrences(s[..|s| - 1], x) + (if s[|s| - 1] == x then 1 else 0)
  }

  lemma {:induction false} OccurrencesPositive<T>(s: seq<T>, x: T)
    ensures Occurrences(s, x) > 0 <==> x in s
  {
    if s != [] {
      OccurrencesPositive(s[..|s| - 1], x);
      assert s == s[..|s| - 1] + [s[|s| - 1]];
    }
  }

  /** array_map: `f` applied to each element, in order. */
  function MapSeq<T, U>(s: seq<T>, f: T -> U): (r: seq<U>)
    ensures |r| == |s|
    ensures forall i :: 0 <= i < |s| ==> r[i] == f(s[i])
  {
    if s == [] then []
    else MapSeq(s[..|s| - 1], f) + [f(s[|s| - 1])]
  }

  lemma MapSeqStep<T, U>(s: seq<T>, i: nat, f: T -> U)
    requires i < |s|
    ensures MapSeq(s[..i + 1], f) == MapSeq(s[..i], f) + [f(s[i])]
  {
    assert s[..i + 1][..i] == s[..i];
  }

  /** The results of `f` on the elements of `s`, concatenated in order. */
  function FlatMap<T, U>(s: seq<T>, f: T -> seq<U>): seq<U> {
    if s == [] then []
    else FlatMap(s[..|s| - 1], f) + f(s[|s| - 1])
  }

  /** One more element: its results come last. */
  lemma FlatMapStep<T, U>(s: seq<T>, i: nat, f: T -> seq<U>)
    requires i < |s|
    ensures FlatMap(s[..i + 1], f) == FlatMap(s[..i], f) + f(s[i])
  {
    assert s[..i + 1][..i] == s[..i];
  }

  lemma {:induction false} FlatMapAppend<T, U>(a: seq<T>, b: seq<T>, f: T -> seq<U>)
    ensures FlatMap(a + b, f) == FlatMap(a, f) + FlatMap(b, f)
    decreases |b|
  {
    if b == [] {
      assert a + b == a;
    } else {
      var ab := a + b;
      FlatMapAppend(a, b[..|b| - 1], f);
      assert ab[..|ab| - 1] == a + b[..|b| - 1];
      assert ab[|ab| - 1] == b[|b| - 1];
    }
  }

  /** Membership in a flat map: `y` comes from the result of `f` on some
      element. */
  lemma {:induction false} FlatMapMember<T, U>(s: seq<T>, f: T -> seq<U>, y: U)
    ensures y in FlatMap(s, f) <==> exists i :: 0 <= i < |s| && y in f(s[i])
  {
    if s != [] {
      var init := s[..|s| - 1];
      FlatMapMember(init, f, y);
      assert forall i :: 0 <= i < |init| ==> init[i] == s[i];
      if y in FlatMap(s, f) && y !in FlatMap(init, f) {
        assert y in f(s[|s| - 1]);
      }
    }
  }

  /** When `f` gives at most one result per element, so does the flat map. */
  lemma {:induction false} FlatMapAtMostOne<T, U>(s: seq<T>, f: T -> seq<U>)
    requires forall x :: |f(x)| <= 1
    ensures |FlatMap(s, f)| <= |s|
  {
    if s != [] {
      FlatMapAtMostOne(s[..|s| - 1], f);
    }
  }

  /** A flat map where each element gives at most one result, tagged by
      `tag` with that element: a result is in it exactly when its tag is
      one of the elements and that element gives it. */
  lemma FlatMapOfSingles<T, U>(s: seq<T>, f: T -> seq<U>, tag: U -> T)
    requires forall x :: |f(x)| <= 1
    requires forall x :: f(x) != [] ==> tag(f(x)[0]) == x
    ensures |FlatMap(s, f)| <= |s|
    ensures forall y :: y in FlatMap(s, f) <==> tag(y) in s && f(tag(y)) == [y]
  {
    FlatMapAtMostOne(s, f);
    forall y ensures y in FlatMap(s, f) <==> tag(y) in s && f(tag(y)) == [y] {
      FlatMapMember(s, f, y);
      if y in FlatMap(s, f) {
        var i :| 0 <= i < |s| && y in f(s[i]);
        assert f(s[i]) == [y];
      }
      if tag(y) in s && f(tag(y)) == [y] {
        var i :| 0 <= i < |s| && s[i] == tag(y);
        assert y in f(s[i]);
      }
    }
  }

  ghost predicate NoDuplicates<T>(s: seq<T>) {
    forall i, j :: 0 <= i < j < |s| ==> s[i] != s[j]
  }

  /** The distinct elements of `s`, each where it first occurs. */
  function Distinct<T(==)>(s: seq<T>): (d: seq<T>)
    ensures forall i :: 0 <= i < |s| ==> s[i] in d
    ensures forall i :: 0 <= i < |d| ==> d[i] in s
    ensures NoDuplicates(d)
  {
    if s == [] then []
    else
      var d := Distinct(s[..|s| - 1]);
      assert forall i :: 0 <= i < |s| - 1 ==> s[i] == s[..|s| - 1][i];
      if s[|s| - 1] in d then d else d + [s[|s| - 1]]
  }

  /** First-occurrence order: the distinct elements of a prefix of `s` come
      first, in the same order, among those of `s`. */
  lemma {:induction false} DistinctOfPrefix<T>(s: seq<T>, n: nat)
    requires n <= |s|
    ensures |Distinct(s[..n])| <= |Distinct(s)|
    ensures Distinct(s[..n]) == Distinct(s)[..|Distinct(s[..n])|]
    decreases |s| - n
  {
    if n < |s| {
      DistinctOfPrefix(s, n + 1);
      assert s[..n + 1][..n] == s[..n];
      var d, d' := Distinct(s[..n]), Distinct(s[..n + 1]);
      assert d' == d || d' == d + [s[n]];
      assert d == d'[..|d|];
    } else {
      assert s[..n] == s;
    }
  }

  /** The elements of `s` that satisfy `p`, in order. */
  function Filter<T>(s: seq<T>, p: T -> bool): (r: seq<T>)
    ensures |r| <= |s|
  {
    if s == [] then []
    else Filter(s[..|s| - 1], p) + (if p(s[|s| - 1]) then [s[|s| - 1]] else [])
  }

  /** One more element: it is kept last when it passes. */
  lemma FilterStep<T>(s: seq<T>, i: nat, p: T -> bool)
    requires i < |s|
    ensures Filter(s[..i + 1], p) == Filter(s[..i], p) + (if p(s[i]) then [s[i]] else [])
  {
    assert s[..i + 1][..i] == s[..i];
  }

  /** Everything kept satisfies the test. */
  lemma {:induction false} FilterSatisfies<T>(s: seq<T>, p: T -> bool)
    ensures forall i :: 0 <= i < |Filter(s, p)| ==> p(Filter(s, p)[i])
  {
    if s != [] {
      FilterSatisfies(s[..|s| - 1], p);
      var init := Filter(s[..|s| - 1], p);
      assert forall i :: 0 <= i < |init| ==> Filter(s, p)[i] == init[i];
    }
  }

  lemma {:induction false} FilterMember<T>(s: seq<T>, p: T -> bool, x: T)
    ensures x in Filter(s, p) <==> x in s && p(x)
  {
    if s != [] {
      FilterMember(s[..|s| - 1], p, x);
      assert s == s[..|s| - 1] + [s[|s| - 1]];
    }
  }

  /** The first components of a list of pairs (array_keys). */
  function Keys<K, V>(s: seq<(K, V)>): (r: seq<K>)
    ensures |r| == |s|
    ensures forall i :: 0 <= i < |s| ==> r[i] == s[i].0
  {
    seq(|s|, i requires 0 <= i < |s| => s[i].0)
  }

  /** Each of `keys` paired with its number of occurrences in `s`. */
  function CountsOf<T(==)>(keys: seq<T>, s: seq<T>): (r: seq<(T, nat)>)
    ensures Keys(r) == keys
    ensures forall i :: 0 <= i < |r| ==> r[i].1 == Occurrences(s, r[i].0)
  {
    if keys == [] then []
    else
      var last := keys[|keys| - 1];
      CountsOf(keys[..|keys| - 1], s) + [(last, Occurrences(s, last))]
  }

  /** array_count_values: every distinct element once, in order of first
      occurrence, with how often it occurs. */
  function Tally<T(==)>(s: seq<T>): (r: seq<(T, nat)>)
    ensures Keys(r) == Distinct(s)
    ensures forall i :: 0 <= i < |r| ==> r[i].1 == Occurrences(s, r[i].0) && r[i].1 > 0
  {
    var r := CountsOf(Distinct(s), s);
    forall i | 0 <= i < |r| ensures r[i].1 > 0 {
      assert r[i].0 == Distinct(s)[i];
      OccurrencesPositive(s, r[i].0);
    }
    r
  }

  lemma KeysAppend<K, V>(a: seq<(K, V)>, b: seq<(K, V)>)
    ensures Keys(a + b) == Keys(a) + Keys(b)
  {
  }

  /** Filtering the counted pairs and keeping their keys is filtering the
      keys themselves: the order of the keys is kept. */
  lemma {:induction false} KeysOfFilteredCounts<T>(keys: seq<T>, s: seq<T>, p: ((T, nat)) -> bool, q: T -> bool)
    requires forall x :: q(x) == p((x, Occurrences(s, x)))
    ensures Keys(Filter(CountsOf(keys, s), p)) == Filter(keys, q)
  {
    if keys != [] {
      var init, last := keys[..|keys| - 1], keys[|keys| - 1];
      KeysOfFilteredCounts(init, s, p, q);
      var ci := CountsOf(init, s);
      var pair := (last, Occurrences(s, last));
      var c := ci + [pair];
      assert CountsOf(keys, s) == c;
      assert c[..|c| - 1] == ci;
      var tail := if p(pair) then [pair] else [];
      assert Filter(c, p) == Filter(ci, p) + tail;
      KeysAppend(Filter(ci, p), tail);
      assert q(last) == p(pair);
      assert Keys(tail) == if q(last) then [last] else [];
    }
  }

  /** The test on an element that filtering `Tally(s)` by `p` applies. */
  function CountTest<T(==)>(s: seq<T>, p: ((T, nat)) -> bool): T -> bool {
    x => p((x, Occurrences(s, x)))
  }

  /** Filtering array_count_values and keeping the keys: the distinct
      elements, in order of first occurrence, whose count passes. */
  lemma KeysOfFilteredTally<T>(s: seq<T>, p: ((T, nat)) -> bool)
    ensures Keys(Filter(Tally(s), p)) == Filter(Distinct(s), CountTest(s, p))
  {
    KeysOfFilteredCounts(Distinct(s), s, p, CountTest(s, p));
  }

  /** An element is kept exactly when it occurs and its count passes. */
  lemma FilteredTallyMember<T>(s: seq<T>, p: ((T, nat)) -> bool, x: T)
    ensures x in Keys(Filter(Tally(s), p)) <==> x in s && p((x, Occurrences(s, x)))
  {
    KeysOfFilteredTally(s, p);
    FilterMember(Distinct(s), CountTest(s, p), x);
    if x in s {
      var i :| 0 <= i < |s| && s[i] == x;
      assert s[i] in Distinct(s);
    }
  }

  ghost predicate SortedDesc<T>(s: seq<T>, key: T -> int) {
    forall i, j :: 0 <= i < j < |s| ==> key(s[i]) >= key(s[j])
  }

  /** Puts `x` in front of the first element whose key is not larger. */
  function Insert<T>(x: T, s: seq<T>, key: T -> int): (r: seq<T>)
    ensures |r| == |s| + 1
    ensures multiset(r) == multiset(s) + multiset{x}
  {
    if s == [] || key(s[0]) <= key(x) then [x] + s
    else
      assert s == [s[0]] + s[1..];
      [s[0]] + Insert(x, s[1..], key)
  }

  lemma SortedTail<T>(s: seq<T>, key: T -> int)
    requires s != [] && SortedDesc(s, key)
    ensures SortedDesc(s[1..], key)
    ensures forall j :: 0 <= j < |s[1..]| ==> key(s[1..][j]) <= key(s[0])
  {
    forall i, j | 0 <= i < j < |s[1..]| ensures key(s[1..][i]) >= key(s[1..][j]) {
      assert s[1..][i] == s[i + 1] && s[1..][j] == s[j + 1];
    }
    forall j | 0 <= j < |s[1..]| ensures key(s[1..][j]) <= key(s[0]) {
      assert s[1..][j] == s[j + 1];
    }
  }

  /** No element of the result has a key above a bound that `x` and every
      element of `s` respect. */
  lemma {:induction false} InsertBounded<T>(x: T, s: seq<T>, key: T -> int, b: int)
    requires key(x) <= b
    requires forall k :: 0 <= k < |s| ==> key(s[k]) <= b
    ensures forall j :: 0 <= j < |Insert(x, s, key)| ==> key(Insert(x, s, key)[j]) <= b
  {
    if s == [] || key(s[0]) <= key(x) {
    } else {
      assert forall k :: 0 <= k < |s[1..]| ==> s[1..][k] == s[k + 1];
      InsertBounded(x, s[1..], key, b);
    }
  }

  lemma {:induction false} InsertSorted<T>(x: T, s: seq<T>, key: T -> int)
    requires SortedDesc(s, key)
    ensures SortedDesc(Insert(x, s, key), key)
  {
    var r := Insert(x, s, key);
    if s == [] || key(s[0]) <= key(x) {
      assert r == [x] + s;
      forall i, j | 0 <= i < j < |r| ensures key(r[i]) >= key(r[j]) {
        if i > 0 {
          assert r[i] == s[i - 1] && r[j] == s[j - 1];
        } else {
          assert r[j] == s[j - 1];
        }
      }
    } else {
      SortedTail(s, key);
      InsertSorted(x, s[1..], key);
      var t := Insert(x, s[1..], key);
      InsertBounded(x, s[1..], key, key(s[0]));
      assert r == [s[0]] + t;
      forall i, j | 0 <= i < j < |r| ensures key(r[i]) >= key(r[j]) {
        if i > 0 {
          assert r[i] == t[i - 1] && r[j] == t[j - 1];
        } else {
          assert r[j] == t[j - 1];
        }
      }
    }
  }

  /** A stable sort by descending key (usort with `$b <=> $a`, arsort). */
  function SortDesc<T>(s: seq<T>, key: T -> int): (r: seq<T>)
    ensures |r| == |s|
    ensures multiset(r) == multiset(s)
    ensures SortedDesc(r, key)
  {
    if s == [] then []
    else
      var t := SortDesc(s[1..], key);
      InsertSorted(s[0], t, key);
      assert s == [s[0]] + s[1..];
      Insert(s[0], t, key)
  }

  /** The elements of `s` whose key is `v`, in order. */
  ghost function WithKey<T>(s: seq<T>, key: T -> int, v: int): seq<T> {
    if s == [] then []
    else (if key(s[0]) == v then [s[0]] else []) + WithKey(s[1..], key, v)
  }

  lemma {:induction false} WithKeyInsert<T>(x: T, s: seq<T>, key: T -> int, v: int)
    requires SortedDesc(s, key)
    ensures WithKey(Insert(x, s, key), key, v)
         == (if key(x) == v then [x] else []) + WithKey(s, key, v)
  {
    var r := Insert(x, s, key);
    if s == [] || key(s[0]) <= key(x) {
      assert r == [x] + s;
      assert r[1..] == s;
    } else {
      SortedTail(s, key);
      WithKeyInsert(x, s[1..], key, v);
      assert r == [s[0]] + Insert(x, s[1..], key);
      assert r[1..] == Insert(x, s[1..], key);
      assert WithKey(r, key, v) == (if key(s[0]) == v then [s[0]] else []) + WithKey(Insert(x, s[1..], key), key, v);
      assert WithKey(s, key, v) == (if key(s[0]) == v then [s[0]] else []) + WithKey(s[1..], key, v);
    }
  }

  /** Stability: elements with equal keys keep their original order. */
  lemma {:induction false} SortDescStable<T>(s: seq<T>, key: T -> int, v: int)
    ensures WithKey(SortDesc(s, key), key, v) == WithKey(s, key, v)
  {
    if s != [] {
      SortDescStable(s[1..], key, v);
      WithKeyInsert(s[0], SortDesc(s[1..], key), key, v);
    }
  }

  /** What the first `n` elements of a descending list are: none of the
      rest has a larger key than any of them. */
  lemma TopOfSorted<T>(s: seq<T>, key: T -> int, n: int)
    requires SortedDesc(s, key)
    ensures forall i, j :: 0 <= i < |Slice(s, n)| <= j < |s| ==> key(Slice(s, n)[i]) >= key(s[j])
  {
  }

  /** Sorting what `p` keeps: every element satisfies `p`, and none past the
      first `n` has a larger key than any of the first `n`. */
  lemma SortedFilterTop<T>(s: seq<T>, p: T -> bool, key: T -> int, n: int)
    ensures forall i :: 0 <= i < |SortDesc(Filter(s, p), key)| ==> p(SortDesc(Filter(s, p), key)[i])
    ensures forall i, j :: 0 <= i < |Slice(SortDesc(Filter(s, p), key), n)| <= j < |SortDesc(Filter(s, p), key)| ==>
              key(SortDesc(Filter(s, p), key)[i]) >= key(SortDesc(Filter(s, p), key)[j])
  {
    var f := Filter(s, p);
    var r := SortDesc(f, key);
    FilterSatisfies(s, p);
    forall i | 0 <= i < |r| ensures p(r[i]) {
      assert r[i] in multiset(f);
      var k :| 0 <= k < |f| && f[k] == r[i];
    }
    TopOfSorted(r, key, n);
  }
}
