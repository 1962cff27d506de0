/** Sorting by keys that compare like tuples of strings and integers: each key is a sequence
    of integers, compared lexicographically, a string being its shifted characters and a 0. */
module Ordering {
  import opened Prelude

  type Key = seq<int>

  predicate Leq(a: Key, b: Key) {
    a == [] || (b != [] && (a[0] < b[0] || (a[0] == b[0] && Leq(a[1..], b[1..]))))
  }

  lemma {:induction false} LeqTotal(a: Key, b: Key)
    ensures Leq(a, b) || Leq(b, a)
  {
    if a != [] && b != [] { LeqTotal(a[1..], b[1..]); }
  }

  lemma {:induction false} LeqAntisymmetric(a: Key, b: Key)
    requires Leq(a, b) && Leq(b, a)
    ensures a == b
  {
    if a != [] && b != [] {
      LeqAntisymmetric(a[1..], b[1..]);
      assert a == [a[0]] + a[1..] && b == [b[0]] + b[1..];
    }
  }

  lemma {:induction false} LeqTransitive(a: Key, b: Key, c: Key)
    requires Leq(a, b) && Leq(b, c)
    ensures Leq(a, c)
  {
    if a != [] && a[0] == b[0] && b[0] == c[0] { LeqTransitive(a[1..], b[1..], c[1..]); }
  }

  function StringKey(s: string): Key {
    if s == "" then [0] else [s[0] as int + 1] + StringKey(s[1..])
  }

  /** A string key tells where the string ends, whatever follows it. */
  lemma {:induction false} StringKeyPrefixFree(s: string, t: string, a: Key, b: Key)
    requires StringKey(s) + a == StringKey(t) + b
    ensures s == t && a == b
  {
    var x, y := StringKey(s) + a, StringKey(t) + b;
    assert x[0] == y[0];
    if s == "" || t == "" {
      assert s == t == "";
      assert x[1..] == a && y[1..] == b;
    } else {
      assert x[1..] == StringKey(s[1..]) + a && y[1..] == StringKey(t[1..]) + b;
      StringKeyPrefixFree(s[1..], t[1..], a, b);
      assert s == [s[0]] + s[1..] && t == [t[0]] + t[1..];
    }
  }

  lemma StringKeyInjective(s: string, t: string)
    requires StringKey(s) == StringKey(t)
    ensures s == t
  {
    assert StringKey(s) + [] == StringKey(t) + [];
    StringKeyPrefixFree(s, t, [], []);
  }

  lemma PairOrder(a: int, b: int, c: int, d: int)
    ensures Leq([a, b], [c, d]) <==> a < c || (a == c && b <= d)
  {
    assert [a, b][1..] == [b] && [c, d][1..] == [d] && [b][1..] == [];
    assert Leq([b], [d]) <==> b <= d;
  }

  /** A text comes before another if it is the beginning of the other, or has the lower character
      where they first differ. */
  ghost predicate Precedes(s: string, t: string) {
    s < t || exists k :: 0 <= k < |s| && k < |t| && s[..k] == t[..k] && s[k] < t[k]
  }

  lemma PrecedesAfter(c: char, s: string, t: string)
    ensures Precedes([c] + s, [c] + t) <==> Precedes(s, t)
  {
    var x, y := [c] + s, [c] + t;
    assert x[1..] == s && y[1..] == t;
    if s < t { assert x < y; }
    if x < y { assert s == x[1..] < y[1..] == t; }
    if k :| 0 <= k < |s| && k < |t| && s[..k] == t[..k] && s[k] < t[k] {
      assert x[..k + 1] == [c] + s[..k] == y[..k + 1];
    }
    if k :| 0 <= k < |x| && k < |y| && x[..k] == y[..k] && x[k] < y[k] {
      assert s[..k - 1] == x[1..k] == x[..k][1..] && t[..k - 1] == y[1..k] == y[..k][1..];
      assert s[k - 1] < t[k - 1];
    }
  }

  /** Keys that begin with a text compare as texts, and go on where the texts are equal. */
  lemma {:induction false} TextOrder(s: string, a: Key, t: string, b: Key)
    ensures Leq(StringKey(s) + a, StringKey(t) + b) <==> if s == t then Leq(a, b) else Precedes(s, t)
  {
    var x, y := StringKey(s) + a, StringKey(t) + b;
    if s != "" && t != "" && s[0] == t[0] {
      assert x[1..] == StringKey(s[1..]) + a && y[1..] == StringKey(t[1..]) + b;
      TextOrder(s[1..], a, t[1..], b);
      assert s == [s[0]] + s[1..] && t == [t[0]] + t[1..];
      PrecedesAfter(s[0], s[1..], t[1..]);
    } else if s == "" && t == "" {
      assert x[1..] == a && y[1..] == b;
    } else if s == "" {
      assert s < t;
    } else if t != "" {
      if s[0] < t[0] { assert s[..0] == t[..0]; }
    }
  }

  lemma TextsInOrder(s: string, t: string)
    requires Leq(StringKey(s), StringKey(t)) && s != t
    ensures Precedes(s, t)
  {
    assert StringKey(s) + [] == StringKey(s) && StringKey(t) + [] == StringKey(t);
    TextOrder(s, [], t, []);
  }

  // ---- sets to sorted sequences -----------------------------------------------------

  ghost predicate InjectiveOn<T>(s: set<T>, key: T -> Key) {
    forall x, y :: x in s && y in s && key(x) == key(y) ==> x == y
  }

  predicate IsLeast<T>(s: set<T>, key: T -> Key, m: T) {
    m in s && forall x :: x in s ==> Leq(key(m), key(x))
  }

  lemma {:induction false} LeastExists<T>(s: set<T>, key: T -> Key)
    requires s != {}
    ensures exists m :: IsLeast(s, key, m)
    decreases |s|
  {
    var x :| x in s;
    if s == {x} {
      LeqTotal(key(x), key(x));
      assert IsLeast(s, key, x);
    } else {
      var rest := s - {x};
      LeastExists(rest, key);
      var m :| IsLeast(rest, key, m);
      LeqTotal(key(x), key(m));
      LeqTotal(key(x), key(x));
      if Leq(key(x), key(m)) {
        forall y | y in s ensures Leq(key(x), key(y)) {
          if y != x { LeqTransitive(key(x), key(m), key(y)); }
        }
        assert IsLeast(s, key, x);
      } else {
        assert IsLeast(s, key, m);
      }
    }
  }

  lemma LeastUnique<T>(s: set<T>, key: T -> Key)
    requires InjectiveOn(s, key)
    ensures forall m, n :: IsLeast(s, key, m) && IsLeast(s, key, n) ==> m == n
  {
    forall m, n | IsLeast(s, key, m) && IsLeast(s, key, n) ensures m == n {
      LeqAntisymmetric(key(m), key(n));
    }
  }

  /** Python's sorted() over a set whose elements have distinct keys. */
  function SortedSet<T(==)>(s: set<T>, key: T -> Key): (r: seq<T>)
    requires InjectiveOn(s, key)
    decreases |s|
  {
    if s == {} then []
    else
      LeastExists(s, key);
      LeastUnique(s, key);
      var m :| IsLeast(s, key, m);
      [m] + SortedSet(s - {m}, key)
  }

  ghost predicate Ascending<T>(xs: seq<T>, key: T -> Key) {
    forall i, j :: 0 <= i < j < |xs| ==> Leq(key(xs[i]), key(xs[j]))
  }

  lemma EmptyIffNoMember<T>(xs: seq<T>)
    ensures xs == [] <==> forall x :: x !in xs
  {
    if xs != [] { assert xs[0] in xs; }
  }

  /** The elements of a set, each once, in ascending order. */
  ghost predicate SortedForm<T>(xs: seq<T>, s: set<T>, key: T -> Key) {
    && (forall x :: x in xs ==> x in s)
    && (forall x :: x in s ==> x in xs)
    && Ascending(xs, key) && Distinct(xs)
  }

  lemma {:induction false} SortedSetIs<T>(s: set<T>, key: T -> Key)
    requires InjectiveOn(s, key)
    ensures SortedForm(SortedSet(s, key), s, key)
    decreases |s|
  {
    if s != {} {
      LeastExists(s, key);
      LeastUnique(s, key);
      var m :| IsLeast(s, key, m);
      var rest := SortedSet(s - {m}, key);
      SortedSetIs(s - {m}, key);
      assert forall x :: x in rest ==> x in s - {m};
      assert SortedSet(s, key) == [m] + rest;
      PrependLeast(m, rest, key);
    }
  }

  lemma {:induction false} SortedSetLength<T>(s: set<T>, key: T -> Key)
    requires InjectiveOn(s, key)
    ensures |SortedSet(s, key)| == |s|
    decreases |s|
  {
    if s != {} {
      LeastExists(s, key);
      LeastUnique(s, key);
      var m :| IsLeast(s, key, m);
      SortedSetLength(s - {m}, key);
    }
  }

  lemma PrependLeast<T>(m: T, rest: seq<T>, key: T -> Key)
    requires Ascending(rest, key) && Distinct(rest)
    requires forall x :: x in rest ==> x != m && Leq(key(m), key(x))
    ensures Ascending([m] + rest, key) && Distinct([m] + rest)
  {
  }

  /** An ascending sequence without repeats is the sorted form of its set of elements. */
  lemma {:induction false} AscendingIsSortedSet<T>(xs: seq<T>, s: set<T>, key: T -> Key)
    requires InjectiveOn(s, key) && SortedForm(xs, s, key)
    ensures xs == SortedSet(s, key)
    decreases |xs|
  {
    if xs == [] {
      assert s == {};
    } else {
      var m := xs[0];
      assert m in s;
      LeqTotal(key(m), key(m));
      assert IsLeast(s, key, m);
      LeastUnique(s, key);
      forall x ensures x in xs[1..] <==> x in s - {m} {
        if x in s - {m} {
          var i :| 0 <= i < |xs| && xs[i] == x;
          assert xs[1..][i - 1] == x;
        }
      }
      AscendingIsSortedSet(xs[1..], s - {m}, key);
    }
  }

  // ---- stable sort --------------------------------------------------------------------

  function Insert<T>(x: T, ys: seq<T>, key: T -> Key): seq<T> {
    if ys == [] then [x]
    else if Leq(key(x), key(ys[0])) then [x] + ys
    else [ys[0]] + Insert(x, ys[1..], key)
  }

  /** Python's sorted() over a sequence: ascending, equal keys in their old order. */
  function StableSort<T>(xs: seq<T>, key: T -> Key): seq<T> {
    if xs == [] then [] else Insert(xs[0], StableSort(xs[1..], key), key)
  }

  /** The elements with one key, in order. */
  ghost function WithKey<T>(xs: seq<T>, key: T -> Key, k: Key): seq<T> {
    if xs == [] then []
    else (if key(xs[0]) == k then [xs[0]] else []) + WithKey(xs[1..], key, k)
  }

  lemma {:induction false} InsertAdds<T>(x: T, ys: seq<T>, key: T -> Key)
    ensures multiset(Insert(x, ys, key)) == multiset{x} + multiset(ys)
  {
    if ys != [] && !Leq(key(x), key(ys[0])) {
      InsertAdds(x, ys[1..], key);
      assert ys == [ys[0]] + ys[1..];
    }
  }

  lemma {:induction false} InsertAscends<T>(x: T, ys: seq<T>, key: T -> Key)
    requires Ascending(ys, key)
    ensures Ascending(Insert(x, ys, key), key)
  {
    if ys == [] {
    } else if Leq(key(x), key(ys[0])) {
      forall j | 0 <= j < |ys| ensures Leq(key(x), key(ys[j])) {
        if j > 0 { LeqTransitive(key(x), key(ys[0]), key(ys[j])); }
      }
      PrependLower(x, ys, key);
    } else {
      InsertAscends(x, ys[1..], key);
      InsertAdds(x, ys[1..], key);
      LeqTotal(key(x), key(ys[0]));
      var r := Insert(x, ys[1..], key);
      forall j | 0 <= j < |r| ensures Leq(key(ys[0]), key(r[j])) {
        assert r[j] in multiset(r);
        if r[j] != x {
          var i :| 0 <= i < |ys[1..]| && ys[1..][i] == r[j];
          assert ys[i + 1] == r[j];
        }
      }
      PrependLower(ys[0], r, key);
    }
  }

  lemma PrependLower<T>(m: T, rest: seq<T>, key: T -> Key)
    requires Ascending(rest, key)
    requires forall j :: 0 <= j < |rest| ==> Leq(key(m), key(rest[j]))
    ensures Ascending([m] + rest, key)
  {
  }

  lemma {:induction false} InsertStable<T>(x: T, ys: seq<T>, key: T -> Key, k: Key)
    ensures WithKey(Insert(x, ys, key), key, k) == (if key(x) == k then [x] else []) + WithKey(ys, key, k)
  {
    if ys == [] {
    } else if Leq(key(x), key(ys[0])) {
      assert ([x] + ys)[1..] == ys;
    } else {
      InsertStable(x, ys[1..], key, k);
      assert ([ys[0]] + Insert(x, ys[1..], key))[1..] == Insert(x, ys[1..], key);
      LeqTotal(k, k);
    }
  }

  /** The stable sort is ascending, a permutation, and keeps the order of equal keys. */
  lemma {:induction false} StableSortIs<T>(xs: seq<T>, key: T -> Key, k: Key)
    ensures Ascending(StableSort(xs, key), key)
    ensures multiset(StableSort(xs, key)) == multiset(xs)
    ensures WithKey(StableSort(xs, key), key, k) == WithKey(xs, key, k)
  {
    if xs != [] {
      StableSortIs(xs[1..], key, k);
      var ys := StableSort(xs[1..], key);
      InsertAdds(xs[0], ys, key);
      InsertAscends(xs[0], ys, key);
      InsertStable(xs[0], ys, key, k);
      assert xs == [xs[0]] + xs[1..];
    }
  }

  lemma SameElements<T>(xs: seq<T>, key: T -> Key)
    ensures forall x :: x in StableSort(xs, key) <==> x in xs
    ensures |StableSort(xs, key)| == |xs|
  {
    StableSortIs(xs, key, []);
    var r := StableSort(xs, key);
    assert |multiset(r)| == |multiset(xs)|;
    forall x ensures x in r <==> x in xs {
      assert x in multiset(r) <==> x in multiset(xs);
    }
  }

  lemma {:induction false} WithKeyMember<T>(xs: seq<T>, key: T -> Key, k: Key)
    ensures WithKey(xs, key, k) != [] <==> exists i :: 0 <= i < |xs| && key(xs[i]) == k
  {
    if xs != [] {
      WithKeyMember(xs[1..], key, k);
      if i :| 0 <= i < |xs| && key(xs[i]) == k {
        if i > 0 { assert xs[1..][i - 1] == xs[i]; }
      }
    }
  }

  lemma HeadHasKey<T>(xs: seq<T>, key: T -> Key)
    requires xs != []
    ensures exists k :: WithKey(xs, key, k) != []
  {
    assert WithKey(xs, key, key(xs[0])) != [];
  }

  lemma TailWithKey<T>(xs: seq<T>, key: T -> Key, k: Key)
    requires xs != []
    ensures WithKey(xs[1..], key, k) == if key(xs[0]) == k then WithKey(xs, key, k)[1..] else WithKey(xs, key, k)
  {
  }

  /** Two ascending sequences that agree on the elements of every key are equal. */
  lemma {:induction false} AscendingDetermined<T>(xs: seq<T>, ys: seq<T>, key: T -> Key)
    requires Ascending(xs, key) && Ascending(ys, key)
    requires forall k :: WithKey(xs, key, k) == WithKey(ys, key, k)
    ensures xs == ys
    decreases |xs|
  {
    if xs == [] {
      if ys != [] { HeadHasKey(ys, key); }
    } else {
      var a := key(xs[0]);
      WithKeyMember(xs, key, a);
      WithKeyMember(ys, key, a);
      var b := key(ys[0]);
      WithKeyMember(ys, key, b);
      WithKeyMember(xs, key, b);
      LeqTotal(a, a);
      LeqTotal(b, b);
      LeqAntisymmetric(a, b);
      assert xs[0] == WithKey(xs, key, a)[0] == WithKey(ys, key, a)[0] == ys[0];
      forall k ensures WithKey(xs[1..], key, k) == WithKey(ys[1..], key, k) {
        TailWithKey(xs, key, k);
        TailWithKey(ys, key, k);
        assert WithKey(xs, key, k) == WithKey(ys, key, k);
      }
      AscendingDetermined(xs[1..], ys[1..], key);
      assert xs == [xs[0]] + xs[1..] && ys == [ys[0]] + ys[1..];
    }
  }

  /** Sequences that agree, key by key, on their elements in order have the same stable sort. */
  lemma SameSort<T>(xs: seq<T>, ys: seq<T>, key: T -> Key)
    requires forall k :: WithKey(xs, key, k) == WithKey(ys, key, k)
    ensures StableSort(xs, key) == StableSort(ys, key)
  {
    StableSortIs(xs, key, []);
    StableSortIs(ys, key, []);
    forall k ensures WithKey(StableSort(xs, key), key, k) == WithKey(StableSort(ys, key), key, k) {
      StableSortIs(xs, key, k);
      StableSortIs(ys, key, k);
    }
    AscendingDetermined(StableSort(xs, key), StableSort(ys, key), key);
  }

  /** Where keys identify elements, the sort depends on the multiset only. */
  lemma {:induction false} PermutedSort<T>(xs: seq<T>, ys: seq<T>, key: T -> Key)
    requires multiset(xs) == multiset(ys)
    requires forall x, y :: x in xs && y in xs && key(x) == key(y) ==> x == y
    ensures StableSort(xs, key) == StableSort(ys, key)
  {
    forall k ensures WithKey(xs, key, k) == WithKey(ys, key, k) {
      if e :| e in xs && key(e) == k {
        WithKeyRepeats(xs, key, e);
        WithKeyRepeats(ys, key, e) by {
          forall x | x in ys && key(x) == key(e) ensures x == e {
            assert x in multiset(ys);
          }
        }
      } else {
        WithKeyMember(xs, key, k);
        WithKeyMember(ys, key, k);
        forall i | 0 <= i < |ys| ensures key(ys[i]) != k {
          assert ys[i] in multiset(xs);
        }
      }
    }
    SameSort(xs, ys, key);
  }

  lemma {:induction false} WithKeyRepeats<T>(xs: seq<T>, key: T -> Key, e: T)
    requires forall x :: x in xs && key(x) == key(e) ==> x == e
    ensures WithKey(xs, key, key(e)) == seq(multiset(xs)[e], _ => e)
  {
    if xs != [] {
      assert xs == [xs[0]] + xs[1..];
      WithKeyRepeats(xs[1..], key, e);
    }
  }

  lemma {:induction false} WithKeyConcat<T>(xs: seq<T>, ys: seq<T>, key: T -> Key, k: Key)
    ensures WithKey(xs + ys, key, k) == WithKey(xs, key, k) + WithKey(ys, key, k)
  {
    if xs == [] {
      assert xs + ys == ys;
    } else {
      var head := if key(xs[0]) == k then [xs[0]] else [];
      assert (xs + ys)[0] == xs[0] && (xs + ys)[1..] == xs[1..] + ys;
      assert WithKey(xs + ys, key, k) == head + WithKey(xs[1..] + ys, key, k);
      WithKeyConcat(xs[1..], ys, key, k);
    }
  }

  // ---- permutations ---------------------------------------------------------------------

  function Mapped<A, B>(xs: seq<A>, f: A -> B): (r: seq<B>)
    ensures |r| == |xs|
  {
    seq(|xs|, i requires 0 <= i < |xs| => f(xs[i]))
  }

  lemma MappedSplit<A, B>(before: seq<A>, x: A, after: seq<A>, f: A -> B)
    ensures multiset(Mapped(before + [x] + after, f)) == multiset{f(x)} + multiset(Mapped(before + after, f))
  {
    assert Mapped(before + [x] + after, f) == Mapped(before, f) + [f(x)] + Mapped(after, f);
    assert Mapped(before + after, f) == Mapped(before, f) + Mapped(after, f);
  }

  lemma SplitAt<A>(ys: seq<A>, x: A) returns (before: seq<A>, after: seq<A>)
    requires x in multiset(ys)
    ensures ys == before + [x] + after && multiset(before + after) == multiset(ys) - multiset{x}
  {
    var j :| 0 <= j < |ys| && ys[j] == x;
    before, after := ys[..j], ys[j + 1..];
    assert ys == before + [x] + after;
  }

  lemma {:induction false} MappedPermuted<A, B>(xs: seq<A>, ys: seq<A>, f: A -> B)
    requires multiset(xs) == multiset(ys)
    ensures multiset(Mapped(xs, f)) == multiset(Mapped(ys, f))
  {
    if xs == [] {
      assert |ys| == |multiset(ys)| == |multiset(xs)| == 0;
    } else {
      var x, rest := xs[0], xs[1..];
      assert xs == [] + [x] + rest && [] + rest == rest;
      var before, after := SplitAt(ys, x);
      assert multiset(rest) == multiset(xs) - multiset{x};
      MappedPermuted(rest, before + after, f);
      MappedSplit([], x, rest, f);
      MappedSplit(before, x, after, f);
    }
  }

  lemma SameMembers<A>(xs: seq<A>, ys: seq<A>)
    requires multiset(xs) == multiset(ys)
    ensures forall x :: x in xs <==> x in ys
  {
    forall x ensures x in xs <==> x in ys {
      assert x in multiset(xs) <==> x in multiset(ys);
    }
  }

  // ---- blocks put together in some order -----------------------------------------------------

  function Concatenated<A, T>(xs: seq<A>, block: A -> seq<T>): seq<T> {
    if xs == [] then [] else Concatenated(xs[..|xs| - 1], block) + block(xs[|xs| - 1])
  }

  function Repeated<T>(block: seq<T>, n: nat): seq<T> {
    if n == 0 then [] else Repeated(block, n - 1) + block
  }

  lemma CountLast<A>(xs: seq<A>, a: A)
    requires xs != []
    ensures var n := |xs| - 1;
            multiset(xs)[a] == multiset(xs[..n])[a] + if xs[n] == a then 1 else 0
  {
    assert xs == xs[..|xs| - 1] + [xs[|xs| - 1]];
  }

  lemma RepeatedMore<T>(block: seq<T>, n: nat)
    ensures Repeated(block, n + 1) == Repeated(block, n) + block
  {
  }

  lemma {:induction false} OneBlockWithKey<A, T>(xs: seq<A>, block: A -> seq<T>, key: T -> Key, k: Key, a: A)
    requires forall x :: x in xs && x != a ==> WithKey(block(x), key, k) == []
    ensures WithKey(Concatenated(xs, block), key, k) == Repeated(WithKey(block(a), key, k), multiset(xs)[a])
  {
    if xs != [] {
      var n := |xs| - 1;
      CountLast(xs, a);
      OneBlockWithKey(xs[..n], block, key, k, a);
      WithKeyConcat(Concatenated(xs[..n], block), block(xs[n]), key, k);
      RepeatedMore(WithKey(block(a), key, k), multiset(xs[..n])[a]);
    }
  }

  lemma {:induction false} NoBlockWithKey<A, T>(xs: seq<A>, block: A -> seq<T>, key: T -> Key, k: Key)
    requires forall x :: x in xs ==> WithKey(block(x), key, k) == []
    ensures WithKey(Concatenated(xs, block), key, k) == []
  {
    if xs != [] {
      var n := |xs| - 1;
      NoBlockWithKey(xs[..n], block, key, k);
      WithKeyConcat(Concatenated(xs[..n], block), block(xs[n]), key, k);
    }
  }

  /** Blocks without a common key sort to the same list in whatever order they are put together. */
  lemma PermutedBlocks<A, T>(xs: seq<A>, ys: seq<A>, block: A -> seq<T>, key: T -> Key)
    requires multiset(xs) == multiset(ys)
    requires forall k, x, y :: x in xs && y in xs && x != y ==> WithKey(block(x), key, k) == [] || WithKey(block(y), key, k) == []
    ensures StableSort(Concatenated(xs, block), key) == StableSort(Concatenated(ys, block), key)
  {
    SameMembers(xs, ys);
    forall k ensures WithKey(Concatenated(xs, block), key, k) == WithKey(Concatenated(ys, block), key, k) {
      if a :| a in xs && WithKey(block(a), key, k) != [] {
        OneBlockWithKey(xs, block, key, k, a);
        OneBlockWithKey(ys, block, key, k, a);
      } else {
        NoBlockWithKey(xs, block, key, k);
        NoBlockWithKey(ys, block, key, k);
      }
    }
    SameSort(Concatenated(xs, block), Concatenated(ys, block), key);
  }
}
