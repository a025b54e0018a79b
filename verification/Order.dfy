/** Stable sorting, shared by the fingerprint and by paging. */
module Order {

  ghost predicate TotalPreorder<T(!new)>(le: (T, T) -> bool) {
    && (forall x, y :: le(x, y) || le(y, x))
    && (forall x, y, z :: le(x, y) && le(y, z) ==> le(x, z))
  }

  ghost predicate Sorted<T>(xs: seq<T>, le: (T, T) -> bool) {
    forall i, j :: 0 <= i < j < |xs| ==> le(xs[i], xs[j])
  }

  /** Elements the order ties are equal. */
  ghost predicate TiesAreEqual<T>(xs: seq<T>, le: (T, T) -> bool) {
    forall i, j :: 0 <= i < |xs| && 0 <= j < |xs| && le(xs[i], xs[j]) && le(xs[j], xs[i]) ==> xs[i] == xs[j]
  }

  function Insert<T>(x: T, ys: seq<T>, le: (T, T) -> bool): seq<T> {
    if ys == [] || le(x, ys[0]) then [x] + ys else [ys[0]] + Insert(x, ys[1..], le)
  }

  /** The order-preserving stable sort `slice::sort` and `sort_by_key` perform. */
  function Sort<T>(xs: seq<T>, le: (T, T) -> bool): seq<T> {
    if xs == [] then [] else Insert(xs[0], Sort(xs[1..], le), le)
  }

  lemma {:induction false} InsertPermutes<T>(x: T, ys: seq<T>, le: (T, T) -> bool)
    ensures multiset(Insert(x, ys, le)) == multiset([x] + ys)
  {
    if ys != [] && !le(x, ys[0]) {
      InsertPermutes(x, ys[1..], le);
      assert ys == [ys[0]] + ys[1..];
    }
  }

  lemma {:induction false} SortPermutes<T>(xs: seq<T>, le: (T, T) -> bool)
    ensures multiset(Sort(xs, le)) == multiset(xs)
    ensures |Sort(xs, le)| == |xs|
  {
    if xs != [] {
      SortPermutes(xs[1..], le);
      InsertPermutes(xs[0], Sort(xs[1..], le), le);
      assert xs == [xs[0]] + xs[1..];
      assert |multiset(Sort(xs, le))| == |multiset(xs)|;
    }
  }

  lemma {:induction false} InsertSorts<T(!new)>(x: T, ys: seq<T>, le: (T, T) -> bool)
    requires TotalPreorder(le) && Sorted(ys, le)
    ensures Sorted(Insert(x, ys, le), le)
  {
    if ys != [] && !le(x, ys[0]) {
      var rest := Insert(x, ys[1..], le);
      InsertSorts(x, ys[1..], le);
      InsertPermutes(x, ys[1..], le);
      forall j | 0 <= j < |rest| ensures le(ys[0], rest[j]) {
        assert rest[j] in multiset(rest);
        assert rest[j] in multiset([x] + ys[1..]);
        assert rest[j] in [x] + ys[1..];
      }
    }
  }

  lemma {:induction false} SortSorts<T(!new)>(xs: seq<T>, le: (T, T) -> bool)
    requires TotalPreorder(le)
    ensures Sorted(Sort(xs, le), le)
  {
    if xs != [] {
      SortSorts(xs[1..], le);
      InsertSorts(xs[0], Sort(xs[1..], le), le);
    }
  }

  lemma HeadsAreEqual<T(!new)>(a: seq<T>, b: seq<T>, le: (T, T) -> bool)
    requires TotalPreorder(le) && TiesAreEqual(a, le)
    requires Sorted(a, le) && Sorted(b, le) && multiset(a) == multiset(b) && a != [] && b != []
    ensures a[0] == b[0]
  {
    assert a[0] in multiset(b) && b[0] in multiset(a);
    var i :| 0 <= i < |b| && b[i] == a[0];
    var j :| 0 <= j < |a| && a[j] == b[0];
    assert le(a[0], a[j]) && le(b[0], b[i]);
  }

  /** Two sorted arrangements of the same elements are the same list when ties are equal. */
  lemma {:induction false} SortedIsUnique<T(!new)>(a: seq<T>, b: seq<T>, le: (T, T) -> bool)
    requires TotalPreorder(le) && TiesAreEqual(a, le)
    requires Sorted(a, le) && Sorted(b, le) && multiset(a) == multiset(b)
    ensures a == b
  {
    assert |multiset(a)| == |a| && |multiset(b)| == |b|;
    if a != [] {
      HeadsAreEqual(a, b, le);
      assert a == [a[0]] + a[1..] && b == [b[0]] + b[1..];
      assert multiset(a[1..]) == multiset(a) - multiset{a[0]};
      assert multiset(b[1..]) == multiset(b) - multiset{b[0]};
      SortedIsUnique(a[1..], b[1..], le);
    }
  }

  /** Sorting forgets exactly the original arrangement. */
  lemma SortForgetsOnlyArrangement<T(!new)>(a: seq<T>, b: seq<T>, le: (T, T) -> bool)
    requires TotalPreorder(le) && TiesAreEqual(a, le)
    ensures Sort(a, le) == Sort(b, le) <==> multiset(a) == multiset(b)
  {
    SortPermutes(a, le);
    SortPermutes(b, le);
    if multiset(a) == multiset(b) {
      SortSorts(a, le);
      SortSorts(b, le);
      var sa := Sort(a, le);
      forall i, j | 0 <= i < |sa| && 0 <= j < |sa| && le(sa[i], sa[j]) && le(sa[j], sa[i])
        ensures sa[i] == sa[j]
      {
        assert sa[i] in multiset(sa) && sa[j] in multiset(sa);
        assert sa[i] in multiset(a) && sa[j] in multiset(a);
      }
      SortedIsUnique(sa, Sort(b, le), le);
    }
  }

  /** The elements the order ties with `t`, as they stand. */
  function Tied<T>(xs: seq<T>, t: T, le: (T, T) -> bool): seq<T> {
    if xs == [] then []
    else (if le(xs[0], t) && le(t, xs[0]) then [xs[0]] else []) + Tied(xs[1..], t, le)
  }

  lemma {:induction false} InsertKeepsTies<T(!new)>(x: T, ys: seq<T>, t: T, le: (T, T) -> bool)
    requires TotalPreorder(le)
    ensures Tied(Insert(x, ys, le), t, le) == Tied([x] + ys, t, le)
  {
    assert ([x] + ys)[1..] == ys;
    if ys != [] && !le(x, ys[0]) {
      InsertKeepsTies(x, ys[1..], t, le);
      assert ([x] + ys[1..])[1..] == ys[1..];
      assert Insert(x, ys, le)[1..] == Insert(x, ys[1..], le);
    }
  }

  /** The sort is stable: elements it may not order stay in their order. */
  lemma {:induction false} SortIsStable<T(!new)>(xs: seq<T>, t: T, le: (T, T) -> bool)
    requires TotalPreorder(le)
    ensures Tied(Sort(xs, le), t, le) == Tied(xs, t, le)
  {
    if xs != [] {
      SortIsStable(xs[1..], t, le);
      InsertKeepsTies(xs[0], Sort(xs[1..], le), t, le);
      assert ([xs[0]] + Sort(xs[1..], le))[1..] == Sort(xs[1..], le);
    }
  }

  // ---- In place ---------------------------------------------------------------------

  /** An element goes in before the first it may precede. */
  lemma {:induction false} InsertAt<T>(x: T, ys: seq<T>, k: nat, le: (T, T) -> bool)
    requires k <= |ys| && (forall m :: 0 <= m < k ==> !le(x, ys[m])) && (k < |ys| ==> le(x, ys[k]))
    ensures Insert(x, ys, le) == ys[..k] + [x] + ys[k..]
  {
    if k == 0 {
      assert ys[..0] == [] && ys[0..] == ys;
    } else {
      InsertAt(x, ys[1..], k - 1, le);
      assert ys[..k] == [ys[0]] + ys[1..][..k - 1] && ys[k..] == ys[1..][k - 1..];
    }
  }

  /** `a[i]` moves right to its place in the ordered rest. */
  method SinkInPlace<T>(a: array<T>, i: nat, le: (T, T) -> bool)
    requires i < a.Length
    modifies a
    ensures a[..i] == old(a[..i]) && a[i..] == Insert(old(a[i]), old(a[i + 1..]), le)
  {
    var x, j := a[i], i;
    ghost var ys := a[i + 1..];
    while j + 1 < a.Length && !le(x, a[j + 1])
      invariant i <= j < a.Length
      invariant forall m :: 0 <= m < i || j < m < a.Length ==> a[m] == old(a[m])
      invariant forall m :: i <= m < j ==> a[m] == ys[m - i]
      invariant forall m :: 0 <= m < j - i ==> !le(x, ys[m])
    {
      a[j] := a[j + 1];
      j := j + 1;
    }
    InsertAt(x, ys, j - i, le);
    a[j] := x;
  }

  /** The sort, done on the array itself. */
  method SortInPlace<T>(a: array<T>, le: (T, T) -> bool)
    modifies a
    ensures a[..] == Sort(old(a[..]), le)
  {
    var i := a.Length;
    while i > 0
      invariant 0 <= i <= a.Length && a[..i] == old(a[..i]) && a[i..] == Sort(old(a[i..]), le)
    {
      i := i - 1;
      assert a[..i] == a[..i + 1][..i] && a[i] == a[..i + 1][i];
      assert old(a[i..])[1..] == old(a[i + 1..]);
      SinkInPlace(a, i, le);
    }
    assert a[..] == a[0..] && old(a[..]) == old(a[0..]);
  }

  /** `str` order: lexicographic by character. */
  predicate StrLe(a: string, b: string) {
    a == "" || (b != "" && (a[0] < b[0] || (a[0] == b[0] && StrLe(a[1..], b[1..]))))
  }

  lemma {:induction false} StrLeTotal(a: string, b: string)
    ensures StrLe(a, b) || StrLe(b, a)
    ensures StrLe(a, b) && StrLe(b, a) ==> a == b
  {
    if a != "" && b != "" && a[0] == b[0] {
      StrLeTotal(a[1..], b[1..]);
      assert a == [a[0]] + a[1..] && b == [b[0]] + b[1..];
    }
  }

  lemma {:induction false} StrLeTransitive(a: string, b: string, c: string)
    requires StrLe(a, b) && StrLe(b, c)
    ensures StrLe(a, c)
  {
    if a != "" && a[0] == b[0] == c[0] { StrLeTransitive(a[1..], b[1..], c[1..]); }
  }

  lemma StrLeIsTotalOrder()
    ensures TotalPreorder<string>(StrLe)
    ensures forall a, b :: StrLe(a, b) && StrLe(b, a) ==> a == b
  {
    forall a, b ensures (StrLe(a, b) || StrLe(b, a)) && (StrLe(a, b) && StrLe(b, a) ==> a == b) { StrLeTotal(a, b); }
    forall a, b, c | StrLe(a, b) && StrLe(b, c) ensures StrLe(a, c) { StrLeTransitive(a, b, c); }
  }

  /** `a` and `b` agree up to `k`, where `a` ends or has the smaller character. */
  predicate SmallerFrom(a: string, b: string, k: nat) {
    k <= |a| && k <= |b| && (forall i :: 0 <= i < k ==> a[i] == b[i]) && (k == |a| || (k < |b| && a[k] < b[k]))
  }

  /** String order is lexicographic. */
  lemma {:induction false} StrLeIsLexicographic(a: string, b: string)
    ensures StrLe(a, b) <==> exists k: nat :: SmallerFrom(a, b, k)
  {
    if a == "" {
      assert SmallerFrom(a, b, 0);
    } else if b == "" || a[0] != b[0] {
      if b != "" && a[0] < b[0] { assert SmallerFrom(a, b, 0); }
    } else {
      StrLeIsLexicographic(a[1..], b[1..]);
      if k: nat :| SmallerFrom(a[1..], b[1..], k) {
        assert forall i :: 1 <= i < k + 1 ==> a[i] == a[1..][i - 1] && b[i] == b[1..][i - 1];
        assert SmallerFrom(a, b, k + 1);
      }
      if k: nat :| SmallerFrom(a, b, k) { assert SmallerFrom(a[1..], b[1..], k - 1); }
    }
  }
}
