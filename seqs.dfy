/**
 * The array operations the view code uses, as functions on sequences:
 * `Array.prototype.filter`, a stable `Array.prototype.sort` driven by a
 * comparator returning a negative, zero or positive number, and the
 * concatenation that nested `forEach`/`push(...)` loops build.
 */
module Seqs {

  // ---------------------------------------------------------------- filter

  /** `s.filter(p)`. */
  function Filter<T>(s: seq<T>, p: T -> bool): (r: seq<T>)
    ensures |r| <= |s|
    ensures forall x :: x in r ==> x in s && p(x)
  {
    if s == [] then [] else (if p(s[0]) then [s[0]] else []) + Filter(s[1..], p)
  }

  /** `idx` lists, in increasing order, the positions in `b` that make up `a`. */
  ghost predicate Embeds<T>(idx: seq<int>, a: seq<T>, b: seq<T>) {
    |idx| == |a|
    && (forall k :: 0 <= k < |idx| ==> 0 <= idx[k] < |b| && a[k] == b[idx[k]])
    && (forall k, l :: 0 <= k < l < |idx| ==> idx[k] < idx[l])
  }

  /** `a` is `b` with some elements dropped and the order of the rest kept. */
  ghost predicate IsSubsequence<T>(a: seq<T>, b: seq<T>) {
    exists idx :: Embeds(idx, a, b)
  }

  /** What `filter` keeps is an order-preserving subsequence of its input. */
  lemma {:induction false} FilterIsSubsequence<T>(s: seq<T>, p: T -> bool)
    ensures IsSubsequence(Filter(s, p), s)
  {
    if s == [] {
      assert Embeds([], Filter(s, p), s);
    } else {
      FilterIsSubsequence(s[1..], p);
      var rest := Filter(s[1..], p);
      var idx' :| Embeds(idx', rest, s[1..]);
      var shifted := seq(|idx'|, k requires 0 <= k < |idx'| => idx'[k] + 1);
      if p(s[0]) {
        assert Embeds([0] + shifted, Filter(s, p), s);
      } else {
        assert Embeds(shifted, Filter(s, p), s);
      }
    }
  }

  /** `filter` keeps an element exactly when it satisfies the predicate. */
  lemma {:induction false} FilterMembership<T>(s: seq<T>, p: T -> bool, x: T)
    ensures x in Filter(s, p) <==> x in s && p(x)
  {
    if s != [] {
      FilterMembership(s[1..], p, x);
      assert s == [s[0]] + s[1..];
    }
  }

  /** `filter` keeps every copy of a matching element and no copy of any other. */
  lemma {:induction false} FilterCount<T>(s: seq<T>, p: T -> bool, x: T)
    ensures multiset(Filter(s, p))[x] == if p(x) then multiset(s)[x] else 0
  {
    if s != [] {
      FilterCount(s[1..], p, x);
      assert s == [s[0]] + s[1..];
    }
  }

  /** A predicate that holds everywhere in `s` makes `filter` the identity. */
  lemma {:induction false} FilterKeepsAll<T>(s: seq<T>, p: T -> bool)
    requires forall x :: x in s ==> p(x)
    ensures Filter(s, p) == s
  {
    if s != [] {
      FilterKeepsAll(s[1..], p);
      assert s == [s[0]] + s[1..];
    }
  }

  /** A predicate that holds nowhere in `s` makes `filter` empty. */
  lemma {:induction false} FilterKeepsNone<T>(s: seq<T>, p: T -> bool)
    requires forall x :: x in s ==> !p(x)
    ensures Filter(s, p) == []
  {
    if s != [] {
      FilterKeepsNone(s[1..], p);
    }
  }

  /** `filter` keeps everything exactly when the predicate holds everywhere. */
  lemma {:induction false} FilterKeepsAllIff<T>(s: seq<T>, p: T -> bool)
    ensures |Filter(s, p)| == |s| <==> forall x :: x in s ==> p(x)
  {
    if s != [] {
      FilterKeepsAllIff(s[1..], p);
      assert s == [s[0]] + s[1..];
    }
  }

  // ---------------------------------------------------------------- sort

  /** `cmp` puts no later element of `s` strictly before an earlier one. */
  ghost predicate Ordered<T>(s: seq<T>, cmp: (T, T) -> int) {
    forall i, j :: 0 <= i < j < |s| ==> cmp(s[i], s[j]) <= 0
  }

  /** "`cmp(a, b) <= 0`" is total and transitive on the elements of `s`. */
  ghost predicate TotalPreorderOn<T>(s: seq<T>, cmp: (T, T) -> int) {
    (forall a, b :: a in s && b in s ==> cmp(a, b) <= 0 || cmp(b, a) <= 0)
    && (forall a, b, c ::
          a in s && b in s && c in s && cmp(a, b) <= 0 && cmp(b, c) <= 0 ==> cmp(a, c) <= 0)
  }

  /**
   * Insert `x` into `t` after every element that does not compare greater
   * than it; elements that compare equal keep their relative order.
   */
  function Insert<T>(t: seq<T>, x: T, cmp: (T, T) -> int): seq<T> {
    if t == [] then [x]
    else if cmp(t[|t| - 1], x) > 0 then Insert(t[..|t| - 1], x, cmp) + [t[|t| - 1]]
    else t + [x]
  }

  /** `[...s].sort(cmp)`: a stable insertion sort. */
  function SortBy<T>(s: seq<T>, cmp: (T, T) -> int): seq<T> {
    if s == [] then [] else Insert(SortBy(s[..|s| - 1], cmp), s[|s| - 1], cmp)
  }

  lemma {:induction false} InsertPermutes<T>(t: seq<T>, x: T, cmp: (T, T) -> int)
    ensures multiset(Insert(t, x, cmp)) == multiset(t) + multiset{x}
  {
    if t != [] && cmp(t[|t| - 1], x) > 0 {
      InsertPermutes(t[..|t| - 1], x, cmp);
      assert t == t[..|t| - 1] + [t[|t| - 1]];
    }
  }

  /** Sorting rearranges its input and neither adds nor loses an element. */
  lemma {:induction false} SortPermutes<T>(s: seq<T>, cmp: (T, T) -> int)
    ensures multiset(SortBy(s, cmp)) == multiset(s)
    ensures |SortBy(s, cmp)| == |s|
  {
    if s != [] {
      SortPermutes(s[..|s| - 1], cmp);
      InsertPermutes(SortBy(s[..|s| - 1], cmp), s[|s| - 1], cmp);
      assert s == s[..|s| - 1] + [s[|s| - 1]];
    }
    assert |multiset(SortBy(s, cmp))| == |multiset(s)|;
  }

  /** A comparator that never ranks a later element first leaves `s` as it is. */
  lemma {:induction false} SortKeepsOrder<T>(s: seq<T>, cmp: (T, T) -> int)
    requires forall a, b :: a in s && b in s ==> cmp(a, b) <= 0
    ensures SortBy(s, cmp) == s
  {
    if s != [] {
      var init := s[..|s| - 1];
      assert forall a :: a in init ==> a in s;
      SortKeepsOrder(init, cmp);
      assert s == init + [s[|s| - 1]];
    }
  }

  lemma OrderedSnoc<T>(u: seq<T>, z: T, cmp: (T, T) -> int)
    requires Ordered(u, cmp)
    requires forall i :: 0 <= i < |u| ==> cmp(u[i], z) <= 0
    ensures Ordered(u + [z], cmp)
  {
  }

  /** Inserting after an element that does not compare greater appends. */
  lemma InsertAtEndOrdered<T>(t: seq<T>, x: T, cmp: (T, T) -> int, dom: seq<T>)
    requires TotalPreorderOn(dom, cmp)
    requires forall y :: y in t ==> y in dom
    requires x in dom
    requires Ordered(t, cmp)
    requires t != [] && cmp(t[|t| - 1], x) <= 0
    ensures Ordered(t + [x], cmp)
  {
    var last := t[|t| - 1];
    forall i | 0 <= i < |t| - 1 ensures cmp(t[i], x) <= 0 {
      assert t[i] in dom && last in dom;
      assert cmp(t[i], last) <= 0;
    }
    OrderedSnoc(t, x, cmp);
  }

  lemma {:induction false} InsertOrdered<T>(t: seq<T>, x: T, cmp: (T, T) -> int, dom: seq<T>)
    requires TotalPreorderOn(dom, cmp)
    requires forall y :: y in t ==> y in dom
    requires x in dom
    requires Ordered(t, cmp)
    ensures Ordered(Insert(t, x, cmp), cmp)
  {
    if t != [] {
      var init, last := t[..|t| - 1], t[|t| - 1];
      if cmp(last, x) > 0 {
        assert forall y :: y in init ==> y in t;
        InsertOrdered(init, x, cmp, dom);
        InsertPermutes(init, x, cmp);
        var u := Insert(init, x, cmp);
        assert last in t;
        assert cmp(x, last) <= 0;
        forall i | 0 <= i < |u| ensures cmp(u[i], last) <= 0 {
          assert u[i] in multiset(u);
          if u[i] != x {
            assert u[i] in multiset(init);
            var k :| 0 <= k < |init| && init[k] == u[i];
            assert t[k] == u[i];
          }
        }
        OrderedSnoc(u, last, cmp);
      } else {
        InsertAtEndOrdered(t, x, cmp, dom);
      }
    }
  }

  /** Under a total preorder the sorted copy is in order. */
  lemma {:induction false} SortOrdered<T>(s: seq<T>, cmp: (T, T) -> int)
    requires TotalPreorderOn(s, cmp)
    ensures Ordered(SortBy(s, cmp), cmp)
  {
    if s != [] {
      var init := s[..|s| - 1];
      assert forall a :: a in init ==> a in s;
      assert TotalPreorderOn(init, cmp);
      SortOrdered(init, cmp);
      SortPermutes(init, cmp);
      forall y | y in SortBy(init, cmp) ensures y in s {
        assert y in multiset(SortBy(init, cmp));
      }
      InsertOrdered(SortBy(init, cmp), s[|s| - 1], cmp, s);
    }
  }

  // ---------------------------------------------------------------- concatenation

  /** The concatenation of `f(x)` over the elements `x` of `s`, in order. */
  function ConcatMap<T, U>(s: seq<T>, f: T -> seq<U>): seq<U> {
    if s == [] then [] else ConcatMap(s[..|s| - 1], f) + f(s[|s| - 1])
  }

  lemma {:induction false} ConcatMapAppend<T, U>(a: seq<T>, b: seq<T>, f: T -> seq<U>)
    ensures ConcatMap(a + b, f) == ConcatMap(a, f) + ConcatMap(b, f)
  {
    if b != [] {
      ConcatMapAppend(a, b[..|b| - 1], f);
      assert (a + b)[..|a + b| - 1] == a + b[..|b| - 1];
    } else {
      assert a + b == a;
    }
  }

  /**
   * Flattening in two stages equals flattening in one: concatenating `g` over
   * the concatenation of `f` is concatenating, over `s`, `h(x)`, which
   * concatenates `g` over `f(x)`.
   */
  lemma {:induction false} ConcatMapNested<T, U, V>(s: seq<T>, f: T -> seq<U>, g: U -> seq<V>, h: T -> seq<V>)
    requires forall x :: x in s ==> h(x) == ConcatMap(f(x), g)
    ensures ConcatMap(ConcatMap(s, f), g) == ConcatMap(s, h)
  {
    if s != [] {
      var init := s[..|s| - 1];
      assert forall x :: x in init ==> x in s;
      ConcatMapNested(init, f, g, h);
      ConcatMapAppend(ConcatMap(init, f), f(s[|s| - 1]), g);
    }
  }

  lemma ConcatMapOne<T, U>(a: T, f: T -> seq<U>)
    ensures ConcatMap([a], f) == f(a)
  {
    assert [a][..0] == [];
  }

  lemma ConcatMapTwo<T, U>(a: T, b: T, f: T -> seq<U>)
    ensures ConcatMap([a, b], f) == f(a) + f(b)
  {
    assert [a, b][..1] == [a];
    ConcatMapOne(a, f);
  }

  /** The length of a concatenation is the sum of the parts' lengths. */
  function SumLengths<T, U>(s: seq<T>, f: T -> seq<U>): nat {
    if s == [] then 0 else SumLengths(s[..|s| - 1], f) + |f(s[|s| - 1])|
  }

  lemma {:induction false} ConcatMapLength<T, U>(s: seq<T>, f: T -> seq<U>)
    ensures |ConcatMap(s, f)| == SumLengths(s, f)
  {
    if s != [] {
      ConcatMapLength(s[..|s| - 1], f);
    }
  }
}
