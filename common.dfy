/**
 * Helpers shared by every component: an optional value, the ASCII subset of
 * Python's string methods that the components use (`lower`, `upper`, `strip`,
 * `in`, `startswith`, `join`), Python list slicing, and the stable sort that
 * stands for `list.sort(key=..., reverse=...)`.
 */
module Common {

  datatype Option<T> = None | Some(value: T) {
    /** `d.get(k, default)` once the lookup has produced an Option. */
    function GetOr(default: T): T {
      if Some? then value else default
    }
  }

  function Min(a: int, b: int): int { if a <= b then a else b }
  function Max(a: int, b: int): int { if a <= b then b else a }
  function MinReal(a: real, b: real): real { if a <= b then a else b }

  // ---------------------------------------------------------------------
  // Strings
  // ---------------------------------------------------------------------

  /** `c.lower()` on ASCII letters; every other character is left alone. */
  function LowerChar(c: char): char {
    if 'A' <= c <= 'Z' then (c as int + 32) as char else c
  }

  /** `c.upper()` on ASCII letters. */
  function UpperChar(c: char): char {
    if 'a' <= c <= 'z' then (c as int - 32) as char else c
  }

  function Lower(s: string): (r: string)
    ensures |r| == |s|
    ensures forall i :: 0 <= i < |s| ==> r[i] == LowerChar(s[i])
  {
    seq(|s|, i requires 0 <= i < |s| => LowerChar(s[i]))
  }

  function Upper(s: string): (r: string)
    ensures |r| == |s|
    ensures forall i :: 0 <= i < |s| ==> r[i] == UpperChar(s[i])
  {
    seq(|s|, i requires 0 <= i < |s| => UpperChar(s[i]))
  }

  /** The ASCII characters for which Python's `str.isspace()` holds. */
  predicate IsSpace(c: char) {
    c == ' ' || 9 <= c as int <= 13 || 28 <= c as int <= 31
  }

  predicate IsBlank(s: string) {
    forall i :: 0 <= i < |s| ==> IsSpace(s[i])
  }

  function TrimLeft(s: string): (r: string)
    ensures |r| <= |s| && r == s[|s| - |r|..]
    ensures r == [] || !IsSpace(r[0])
    ensures IsBlank(s[..|s| - |r|])
  {
    if s != [] && IsSpace(s[0]) then
      var r := TrimLeft(s[1..]);
      assert s[1..][..|s| - 1 - |r|] == s[1..|s| - |r|];
      r
    else s
  }

  function TrimRight(s: string): (r: string)
    ensures |r| <= |s| && r == s[..|r|]
    ensures r == [] || !IsSpace(r[|r| - 1])
    ensures IsBlank(s[|r|..])
  {
    if s != [] && IsSpace(s[|s| - 1]) then
      var r := TrimRight(s[..|s| - 1]);
      assert s[..|s| - 1][|r|..] == s[|r|..|s| - 1];
      assert s[|r|..] == s[|r|..|s| - 1] + [s[|s| - 1]];
      assert forall i :: |r| <= i < |s| ==> IsSpace(s[i]);
      r
    else s
  }

  /** `s.strip()`: the longest infix of `s` that neither starts nor ends with whitespace. */
  function Strip(s: string): (r: string)
    ensures |r| <= |s|
    ensures r == [] || (!IsSpace(r[0]) && !IsSpace(r[|r| - 1]))
  {
    TrimRight(TrimLeft(s))
  }

  /** `s.strip()` is empty exactly when `s` is blank. */
  lemma StripEmptyIffBlank(s: string)
    ensures Strip(s) == [] <==> IsBlank(s)
  {
  }

  /** Stripping a stripped string changes nothing. */
  lemma StripIdempotent(s: string)
    ensures Strip(Strip(s)) == Strip(s)
  {
    var r := Strip(s);
    assert TrimLeft(r) == r;
  }

  predicate StartsWith(s: string, prefix: string) {
    |prefix| <= |s| && s[..|prefix|] == prefix
  }

  /** Python's substring test `needle in hay`. */
  predicate Contains(hay: string, needle: string)
    decreases |hay|
  {
    StartsWith(hay, needle) || (hay != [] && Contains(hay[1..], needle))
  }

  /** The substring test, stated by a position in `hay` at which `needle` occurs. */
  lemma {:induction false} ContainsAt(hay: string, needle: string, k: nat)
    requires k + |needle| <= |hay| && hay[k..k + |needle|] == needle
    ensures Contains(hay, needle)
    decreases k
  {
    if k > 0 {
      assert hay[1..][k - 1..k - 1 + |needle|] == needle;
      ContainsAt(hay[1..], needle, k - 1);
    }
  }

  /** Every string contains itself and the empty string. */
  lemma ContainsSelfAndEmpty(s: string)
    ensures Contains(s, s) && Contains(s, "")
  {
    ContainsAt(s, s, 0);
    ContainsAt(s, "", 0);
  }

  // ---------------------------------------------------------------------
  // Sets
  // ---------------------------------------------------------------------

  /** No item occurs twice. */
  predicate Distinct<T(==)>(s: seq<T>) {
    forall i, j :: 0 <= i < j < |s| ==> s[i] != s[j]
  }

  /** A subset is no larger than its superset. */
  lemma {:induction false} SubsetCard<T>(a: set<T>, b: set<T>)
    requires a <= b
    ensures |a| <= |b|
    decreases a
  {
    if a != {} {
      var x :| x in a;
      SubsetCard(a - {x}, b - {x});
    }
  }

  /** A subset as large as its superset is the superset. */
  lemma SubsetSameCardEqual<T>(a: set<T>, b: set<T>)
    requires a <= b && |a| == |b|
    ensures a == b
  {
    if a != b {
      var x :| x in b && x !in a;
      SubsetCard(a, b - {x});
    }
  }

  /** hits / total, for hits <= total, lies in [0, 1]. */
  lemma FractionInUnit(hits: nat, total: nat)
    requires 0 < total && hits <= total
    ensures 0.0 <= hits as real / total as real <= 1.0
  {
  }

  /** `sep.join(parts)` */
  function Join(parts: seq<string>, sep: string): (r: string)
    ensures parts == [] ==> r == ""
  {
    if |parts| == 0 then ""
    else if |parts| == 1 then parts[0]
    else parts[0] + sep + Join(parts[1..], sep)
  }

  // ---------------------------------------------------------------------
  // Python slices
  // ---------------------------------------------------------------------

  /** `s[:k]` for any integer `k`, a negative `k` counting from the end. */
  function PyPrefix<T>(s: seq<T>, k: int): (r: seq<T>)
    ensures |r| <= |s| && r == s[..|r|]
    ensures k >= 0 ==> |r| == Min(k, |s|)
    ensures k < 0 ==> |r| == Max(|s| + k, 0)
  {
    if k >= 0 then (if k <= |s| then s[..k] else s)
    else (if -k <= |s| then s[..|s| + k] else [])
  }

  /** `s[-n:]` for n > 0, and a whole-list `limit_to_last(n)` query: the last `n` items. */
  function LastN<T>(s: seq<T>, n: nat): (r: seq<T>)
    ensures |r| == Min(n, |s|) && r == s[|s| - |r|..]
  {
    if n >= |s| then s else s[|s| - n..]
  }

  /** The list comprehension `[x for x in s if p(x)]`. */
  function Filter<T>(s: seq<T>, p: T -> bool): (r: seq<T>)
    ensures |r| <= |s|
    ensures forall x :: x in r ==> x in s && p(x)
    ensures forall x :: x in s && p(x) ==> x in r
    ensures multiset(r) <= multiset(s)
  {
    if s == [] then []
    else
      var rest := Filter(s[..|s| - 1], p);
      assert s == s[..|s| - 1] + [s[|s| - 1]];
      if p(s[|s| - 1]) then rest + [s[|s| - 1]] else rest
  }

  /** `len([x for x in s if p(x)])` */
  function Count<T>(s: seq<T>, p: T -> bool): (n: nat)
    ensures n <= |s|
  {
    if s == [] then 0 else Count(s[..|s| - 1], p) + (if p(s[|s| - 1]) then 1 else 0)
  }

  /** Two tests no element passes together count at most the whole list between them. */
  lemma {:induction false} CountDisjoint<T>(s: seq<T>, p: T -> bool, q: T -> bool)
    requires forall x :: x in s ==> !(p(x) && q(x))
    ensures Count(s, p) + Count(s, q) <= |s|
  {
    if s != [] {
      CountDisjoint(s[..|s| - 1], p, q);
    }
  }

  /** A test that implies another counts no more. */
  lemma {:induction false} CountMonotone<T>(s: seq<T>, p: T -> bool, q: T -> bool)
    requires forall x :: x in s && p(x) ==> q(x)
    ensures Count(s, p) <= Count(s, q)
  {
    if s != [] {
      CountMonotone(s[..|s| - 1], p, q);
    }
  }

  /** The distinct items of a list are no more than its length. */
  lemma {:induction false} SeqSetCard<T>(s: seq<T>)
    ensures |(set x | x in s)| <= |s|
  {
    if s != [] {
      var init := s[..|s| - 1];
      SeqSetCard(init);
      assert (set x | x in s) == (set x | x in init) + {s[|s| - 1]};
    }
  }

  /** A list with no repeated item has as many distinct items as its length. */
  lemma {:induction false} DistinctSeqCard<T>(s: seq<T>)
    requires Distinct(s)
    ensures |(set x | x in s)| == |s|
  {
    if s != [] {
      var init := s[..|s| - 1];
      DistinctSeqCard(init);
      assert s[|s| - 1] !in init;
      assert (set x | x in s) == (set x | x in init) + {s[|s| - 1]};
    }
  }

  /** Appending a new item keeps a list free of repetitions. */
  lemma DistinctAppend<T>(s: seq<T>, x: T)
    requires Distinct(s) && x !in s
    ensures Distinct(s + [x])
  {
  }

  /** Distinct keys of a map are no more than the map's entries. */
  lemma DistinctKeysWithin<K, V>(keys: seq<K>, m: map<K, V>)
    requires Distinct(keys)
    requires forall i :: 0 <= i < |keys| ==> keys[i] in m
    ensures |keys| <= |m|
  {
    DistinctSeqCard(keys);
    SubsetCard((set x | x in keys), m.Keys);
  }

  // ---------------------------------------------------------------------
  // Stable sorting
  // ---------------------------------------------------------------------

  /**
   * A sort key. An item whose key `Precedes` another's is placed before it:
   * a larger `primary`, and on equal `primary` a larger `secondary`. A
   * descending sort on one number uses `secondary == 0.0`.
   */
  datatype Rank = Rank(primary: real, secondary: real)

  predicate Precedes(a: Rank, b: Rank) {
    a.primary > b.primary || (a.primary == b.primary && a.secondary > b.secondary)
  }

  /** No item is placed after an item whose key it precedes. */
  ghost predicate SortedBy<T>(s: seq<T>, key: T -> Rank) {
    forall i, j :: 0 <= i < j < |s| ==> !Precedes(key(s[j]), key(s[i]))
  }

  /** Place `x` before the first item of `s` whose key does not precede `x`'s. */
  function InsertBy<T>(x: T, s: seq<T>, key: T -> Rank): (r: seq<T>)
    ensures multiset(r) == multiset(s) + multiset{x}
    ensures |r| == |s| + 1
    ensures forall y :: y in r ==> y == x || y in s
    ensures x in r && forall y :: y in s ==> y in r
  {
    if s == [] then [x]
    else if Precedes(key(s[0]), key(x)) then
      assert s == [s[0]] + s[1..];
      [s[0]] + InsertBy(x, s[1..], key)
    else
      [x] + s
  }

  lemma {:induction false} InsertBySorted<T>(x: T, s: seq<T>, key: T -> Rank)
    requires SortedBy(s, key)
    ensures SortedBy(InsertBy(x, s, key), key)
  {
    if s != [] && Precedes(key(s[0]), key(x)) {
      var tail := InsertBy(x, s[1..], key);
      InsertBySorted(x, s[1..], key);
      forall j | 0 <= j < |tail| ensures !Precedes(key(tail[j]), key(s[0])) {
        var y := tail[j];
        assert y in tail;
        if y != x {
          assert y in s[1..];
          var k :| 0 <= k < |s[1..]| && s[1..][k] == y;
          assert s[k + 1] == y;
        }
      }
      var r := [s[0]] + tail;
      forall i, j | 0 <= i < j < |r| ensures !Precedes(key(r[j]), key(r[i])) {
        assert r[j] == tail[j - 1];
        if i > 0 {
          assert r[i] == tail[i - 1];
        }
      }
    }
  }

  /**
   * `list.sort(key=...)`: a stable insertion sort. The first of two items with
   * equal keys stays first, which is what Python's sort guarantees, with or
   * without `reverse=True`.
   */
  function SortBy<T>(s: seq<T>, key: T -> Rank): (r: seq<T>)
    ensures multiset(r) == multiset(s)
    ensures |r| == |s|
    ensures forall x :: x in r ==> x in s
    ensures forall x :: x in s ==> x in r
    ensures SortedBy(r, key)
  {
    if s == [] then []
    else
      assert s == [s[0]] + s[1..];
      var rest := SortBy(s[1..], key);
      InsertBySorted(s[0], rest, key);
      InsertBy(s[0], rest, key)
  }

  /** A prefix of a sorted list is sorted. */
  lemma PrefixSorted<T>(s: seq<T>, k: int, key: T -> Rank)
    requires SortedBy(s, key)
    ensures SortedBy(PyPrefix(s, k), key)
  {
  }

  /** A list's items are those of its first `n` items and of the rest. */
  lemma SplitMultiset<T>(t: seq<T>, n: nat)
    requires n <= |t|
    ensures multiset(t) - multiset(t[..n]) == multiset(t[n..])
    ensures multiset(t[..n]) <= multiset(t)
  {
    assert t == t[..n] + t[n..];
    assert multiset(t) == multiset(t[..n]) + multiset(t[n..]);
  }

  /** In a sorted list no item after position `n` is placed before an item ahead of it. */
  lemma SortedSplit<T>(t: seq<T>, n: nat, key: T -> Rank)
    requires n <= |t| && SortedBy(t, key)
    ensures forall x, m :: x in t[..n] && m in t[n..] ==> !Precedes(key(m), key(x))
  {
    forall x, m | x in t[..n] && m in t[n..]
      ensures !Precedes(key(m), key(x))
    {
      var i :| 0 <= i < n && t[..n][i] == x;
      var j :| 0 <= j < |t| - n && t[n..][j] == m;
      assert t[i] == x && t[n + j] == m;
    }
  }

  /** Cutting a sorted list: no item left out is placed before an item kept. */
  lemma SortedPrefixBest<T>(t: seq<T>, key: T -> Rank, n: nat)
    requires n <= |t| && SortedBy(t, key)
    ensures forall x, m :: x in t[..n] && m in multiset(t) - multiset(t[..n]) ==> !Precedes(key(m), key(x))
  {
    SplitMultiset(t, n);
    SortedSplit(t, n, key);
  }

  /**
   * Sorting then cutting to `k`: the items kept are items of `s`, all of them
   * when `k` allows, and no item left out is placed before an item kept.
   */
  lemma SortedPrefixKeepsBest<T>(s: seq<T>, key: T -> Rank, k: int)
    ensures multiset(PyPrefix(SortBy(s, key), k)) <= multiset(s)
    ensures k >= |s| ==> multiset(PyPrefix(SortBy(s, key), k)) == multiset(s)
    ensures forall x, m :: x in PyPrefix(SortBy(s, key), k) && m in multiset(s) - multiset(PyPrefix(SortBy(s, key), k)) ==>
              !Precedes(key(m), key(x))
  {
    var t := SortBy(s, key);
    var r := PyPrefix(t, k);
    assert r == t[..|r|];
    SplitMultiset(t, |r|);
    SortedPrefixBest(t, key, |r|);
  }

  /** An item at two positions of a list occurs in it at least twice. */
  lemma RepeatedTwice<T>(r: seq<T>, i: nat, j: nat)
    requires i < j < |r|
    ensures r[i] == r[j] ==> multiset(r)[r[j]] >= 2
  {
    assert r == r[..j] + [r[j]] + r[j + 1..];
    assert r[..j][i] == r[i];
  }

  /** An item occurs at most once in a duplicate-free list. */
  lemma {:induction false} DistinctOnce<T>(s: seq<T>, x: T)
    requires Distinct(s)
    ensures multiset(s)[x] <= 1
  {
    if s != [] {
      var init := s[..|s| - 1];
      assert s == init + [s[|s| - 1]];
      DistinctOnce(init, x);
      assert s[|s| - 1] !in init;
    }
  }

  /** Some of the items of a duplicate-free list, in any order, hold no duplicate either. */
  lemma DistinctSubMultiset<T>(r: seq<T>, s: seq<T>)
    requires Distinct(s) && multiset(r) <= multiset(s)
    ensures Distinct(r)
  {
    forall i, j | 0 <= i < j < |r|
      ensures r[i] != r[j]
    {
      RepeatedTwice(r, i, j);
      DistinctOnce(s, r[j]);
    }
  }

  /** Some of the items of a list whose items differ in `f`, in any order, differ in `f` too. */
  lemma DistinctFieldSubMultiset<T, K>(r: seq<T>, s: seq<T>, f: T -> K)
    requires forall i, j :: 0 <= i < j < |s| ==> f(s[i]) != f(s[j])
    requires multiset(r) <= multiset(s)
    ensures forall i, j :: 0 <= i < j < |r| ==> f(r[i]) != f(r[j])
  {
    DistinctSubMultiset(r, s);
    forall i, j | 0 <= i < j < |r|
      ensures f(r[i]) != f(r[j])
    {
      assert r[i] in multiset(s) && r[j] in multiset(s);
      var k :| 0 <= k < |s| && s[k] == r[i];
      var l :| 0 <= l < |s| && s[l] == r[j];
      assert k != l;
    }
  }

  /** The items of `s` whose key is `v`, in their order in `s`. */
  function WithKey<T>(s: seq<T>, key: T -> Rank, v: Rank): seq<T> {
    if s == [] then [] else (if key(s[0]) == v then [s[0]] else []) + WithKey(s[1..], key, v)
  }

  /** The items with key `v` of a list with `x` in front. */
  lemma WithKeyCons<T>(x: T, s: seq<T>, key: T -> Rank, v: Rank)
    ensures WithKey([x] + s, key, v) == (if key(x) == v then [x] else []) + WithKey(s, key, v)
  {
    assert ([x] + s)[0] == x && ([x] + s)[1..] == s;
  }

  /** Putting `y` in front of two lists with the same items of key `v` other than `x` keeps that so. */
  lemma WithKeyConsAhead<T>(y: T, x: T, t: seq<T>, s: seq<T>, key: T -> Rank, v: Rank)
    requires key(y) != key(x)
    requires WithKey(t, key, v) == (if key(x) == v then [x] else []) + WithKey(s, key, v)
    ensures WithKey([y] + t, key, v) == (if key(x) == v then [x] else []) + WithKey([y] + s, key, v)
  {
    WithKeyCons(y, t, key, v);
    WithKeyCons(y, s, key, v);
    var w := WithKey(s, key, v);
    if key(x) == v {
      assert WithKey([y] + t, key, v) == WithKey(t, key, v);
      assert WithKey([y] + s, key, v) == w;
    } else {
      assert WithKey(t, key, v) == [] + w;
    }
  }

  /** Inserting `x` puts it before every item with its key, and keeps their order. */
  lemma {:induction false} InsertByStable<T>(x: T, s: seq<T>, key: T -> Rank, v: Rank)
    ensures WithKey(InsertBy(x, s, key), key, v) == (if key(x) == v then [x] else []) + WithKey(s, key, v)
  {
    if s == [] {
      assert InsertBy(x, s, key) == [x] + [];
      WithKeyCons(x, [], key, v);
    } else if Precedes(key(s[0]), key(x)) {
      assert InsertBy(x, s, key) == [s[0]] + InsertBy(x, s[1..], key);
      InsertByStable(x, s[1..], key, v);
      assert s == [s[0]] + s[1..];
      WithKeyConsAhead(s[0], x, InsertBy(x, s[1..], key), s[1..], key, v);
    } else {
      assert InsertBy(x, s, key) == [x] + s;
      WithKeyCons(x, s, key, v);
    }
  }

  /** The sort is stable: items with equal keys keep their relative order. */
  lemma {:induction false} SortByStable<T>(s: seq<T>, key: T -> Rank, v: Rank)
    ensures WithKey(SortBy(s, key), key, v) == WithKey(s, key, v)
  {
    if s != [] {
      SortByStable(s[1..], key, v);
      InsertByStable(s[0], SortBy(s[1..], key), key, v);
    }
  }
}
