/** What a stable sort by a total preorder computes (sort.SliceStable). */
module Sorting {

  ghost predicate Preorder<T(!new)>(le: (T, T) -> bool) {
    && (forall a, b :: le(a, b) || le(b, a))
    && (forall a, b, c :: le(a, b) && le(b, c) ==> le(a, c))
  }

  ghost predicate Ordered<T>(s: seq<T>, le: (T, T) -> bool) {
    forall i, j :: 0 <= i < j < |s| ==> le(s[i], s[j])
  }

  /** Puts x behind every item it does not precede. */
  ghost function Insert<T>(s: seq<T>, x: T, le: (T, T) -> bool): (r: seq<T>)
    ensures |r| == |s| + 1
  {
    if s == [] || le(s[|s| - 1], x) then s + [x]
    else Insert(s[..|s| - 1], x, le) + [s[|s| - 1]]
  }

  ghost function Sort<T>(s: seq<T>, le: (T, T) -> bool): (r: seq<T>)
    ensures |r| == |s|
  {
    if s == [] then [] else Insert(Sort(s[..|s| - 1], le), s[|s| - 1], le)
  }

  /** Where a new item lands: behind a prefix it does not precede, before the rest. */
  lemma {:induction false} InsertSplits<T(!new)>(s: seq<T>, x: T, le: (T, T) -> bool) returns (j: nat)
    requires Ordered(s, le) && Preorder(le)
    ensures j <= |s| && Insert(s, x, le) == s[..j] + [x] + s[j..]
    ensures forall k :: 0 <= k < j ==> le(s[k], x)
    ensures forall k :: j <= k < |s| ==> !le(s[k], x)
    decreases |s|
  {
    if s == [] || le(s[|s| - 1], x) {
      j := |s|;
    } else {
      var n := |s| - 1;
      var t := s[..n];
      j := InsertSplits(t, x, le);
      assert t[..j] == s[..j] && t[j..] + [s[n]] == s[j..];
    }
  }

  lemma {:induction false} InsertOrdered<T(!new)>(s: seq<T>, x: T, le: (T, T) -> bool)
    requires Ordered(s, le) && Preorder(le)
    ensures Ordered(Insert(s, x, le), le)
  {
    var j := InsertSplits(s, x, le);
  }

  lemma {:induction false} InsertPermutes<T>(s: seq<T>, x: T, le: (T, T) -> bool)
    ensures multiset(Insert(s, x, le)) == multiset(s) + multiset{x}
    decreases |s|
  {
    if s != [] && !le(s[|s| - 1], x) {
      InsertPermutes(s[..|s| - 1], x, le);
      assert s == s[..|s| - 1] + [s[|s| - 1]];
    }
  }

  /** The items of one kind, in the order they appear. */
  ghost function Only<T>(s: seq<T>, p: T -> bool): seq<T> {
    if s == [] then []
    else Only(s[..|s| - 1], p) + (if p(s[|s| - 1]) then [s[|s| - 1]] else [])
  }

  lemma {:induction false} OnlyConcat<T>(s: seq<T>, t: seq<T>, p: T -> bool)
    ensures Only(s + t, p) == Only(s, p) + Only(t, p)
    decreases |t|
  {
    if t == [] {
      assert s + t == s;
    } else {
      OnlyConcat(s, t[..|t| - 1], p);
      assert (s + t)[..|s + t| - 1] == s + t[..|t| - 1];
    }
  }

  lemma {:induction false} OnlyNone<T>(s: seq<T>, p: T -> bool)
    requires forall k :: 0 <= k < |s| ==> !p(s[k])
    ensures Only(s, p) == []
  {
    if s != [] { OnlyNone(s[..|s| - 1], p); }
  }

  lemma {:induction false} OnlyMove<T>(a: seq<T>, x: T, b: seq<T>, p: T -> bool)
    requires p(x) ==> forall k :: 0 <= k < |b| ==> !p(b[k])
    ensures Only(a + [x] + b, p) == Only(a + b + [x], p)
  {
    OnlyConcat(a + [x], b, p);
    OnlyConcat(a, [x], p);
    OnlyConcat(a + b, [x], p);
    OnlyConcat(a, b, p);
    if p(x) {
      OnlyNone(b, p);
    } else {
      OnlyNone([x], p);
    }
  }

  /** Items that are equal in the order keep the order they arrived in. */
  lemma {:induction false} InsertStable<T(!new)>(s: seq<T>, x: T, le: (T, T) -> bool, p: T -> bool)
    requires Ordered(s, le) && Preorder(le)
    requires forall a, b :: p(a) && p(b) ==> le(a, b)
    ensures Only(Insert(s, x, le), p) == Only(s + [x], p)
  {
    var j := InsertSplits(s, x, le);
    assert s == s[..j] + s[j..];
    OnlyMove(s[..j], x, s[j..], p);
  }

  lemma {:induction false} SortCorrect<T(!new)>(s: seq<T>, le: (T, T) -> bool, p: T -> bool)
    requires Preorder(le)
    requires forall a, b :: p(a) && p(b) ==> le(a, b)
    ensures Ordered(Sort(s, le), le)
    ensures multiset(Sort(s, le)) == multiset(s)
    ensures Only(Sort(s, le), p) == Only(s, p)
  {
    if s != [] {
      var t := s[..|s| - 1];
      var x := s[|s| - 1];
      assert s == t + [x];
      SortCorrect(t, le, p);
      InsertOrdered(Sort(t, le), x, le);
      InsertPermutes(Sort(t, le), x, le);
      InsertStable(Sort(t, le), x, le, p);
      OnlyConcat(Sort(t, le), [x], p);
      OnlyConcat(t, [x], p);
    }
  }

  /** No two items of s are equal in the order. */
  ghost predicate Strict<T>(s: seq<T>, le: (T, T) -> bool) {
    forall i, j :: 0 <= i < j < |s| ==> !(le(s[i], s[j]) && le(s[j], s[i]))
  }

  lemma {:induction false} SameFirst<T(!new)>(s: seq<T>, t: seq<T>, le: (T, T) -> bool)
    requires Ordered(s, le) && Ordered(t, le) && Strict(s, le) && Preorder(le)
    requires multiset(s) == multiset(t) && s != [] && t != []
    ensures s[0] == t[0]
  {
    assert s[0] in multiset(t) && t[0] in multiset(s);
    var i :| 0 <= i < |s| && s[i] == t[0];
    var j :| 0 <= j < |t| && t[j] == s[0];
    assert le(s[0], s[i]) && le(t[0], t[j]);
  }

  lemma {:induction false} WithoutFirst<T>(s: seq<T>)
    requires s != []
    ensures multiset(s[1..]) == multiset(s) - multiset{s[0]}
  {
    assert s == [s[0]] + s[1..];
  }

  lemma {:induction false} OrderedIsUnique<T(!new)>(s: seq<T>, t: seq<T>, le: (T, T) -> bool)
    requires Ordered(s, le) && Ordered(t, le) && Strict(s, le) && Preorder(le)
    requires multiset(s) == multiset(t)
    ensures s == t
  {
    assert |multiset(s)| == |s| && |multiset(t)| == |t|;
    if s != [] {
      SameFirst(s, t, le);
      WithoutFirst(s);
      WithoutFirst(t);
      OrderedIsUnique(s[1..], t[1..], le);
    }
  }

  /** Sorting makes no two items equal that were not. */
  lemma {:induction false} InsertStrict<T(!new)>(s: seq<T>, x: T, le: (T, T) -> bool)
    requires Ordered(s, le) && Preorder(le) && Strict(s, le)
    requires forall k :: 0 <= k < |s| ==> !(le(s[k], x) && le(x, s[k]))
    ensures Strict(Insert(s, x, le), le)
  {
    var j := InsertSplits(s, x, le);
  }

  lemma {:induction false} SortStrict<T(!new)>(s: seq<T>, le: (T, T) -> bool)
    requires Preorder(le) && Strict(s, le)
    ensures Strict(Sort(s, le), le)
  {
    if s != [] {
      var t := s[..|s| - 1];
      var x := s[|s| - 1];
      SortStrict(t, le);
      SortCorrect(t, le, (a: T) => false);
      var r := Sort(t, le);
      forall k | 0 <= k < |r|
        ensures !(le(r[k], x) && le(x, r[k]))
      {
        assert r[k] in multiset(r) && r[k] in multiset(t);
        var i :| 0 <= i < |t| && t[i] == r[k];
        assert t[i] == s[i];
      }
      InsertStrict(r, x, le);
    }
  }

  /** Every arrangement of pairwise unequal items sorts to one and the same sequence. */
  lemma {:induction false} SortIsCanonical<T(!new)>(s: seq<T>, t: seq<T>, le: (T, T) -> bool)
    requires Preorder(le) && Strict(s, le) && multiset(s) == multiset(t)
    ensures Sort(s, le) == Sort(t, le)
  {
    SortCorrect(s, le, (a: T) => false);
    SortCorrect(t, le, (a: T) => false);
    SortStrict(s, le);
    OrderedIsUnique(Sort(s, le), Sort(t, le), le);
  }

  // ---- in place

  /** x belongs before s[j..], and where it goes in s[..j] is still open. */
  ghost predicate BelongsBefore<T>(s: seq<T>, x: T, j: nat, le: (T, T) -> bool)
    requires j <= |s|
  {
    Insert(s, x, le) == Insert(s[..j], x, le) + s[j..]
  }

  lemma {:induction false} BelongsAtEnd<T>(s: seq<T>, x: T, le: (T, T) -> bool)
    ensures BelongsBefore(s, x, |s|, le)
  {
    assert s[..|s|] == s && s[|s|..] == [];
  }

  lemma {:induction false} BelongsFurther<T>(s: seq<T>, x: T, j: nat, le: (T, T) -> bool)
    requires 0 < j <= |s| && !le(s[j - 1], x) && BelongsBefore(s, x, j, le)
    ensures BelongsBefore(s, x, j - 1, le)
  {
    assert s[..j][..j - 1] == s[..j - 1];
    assert [s[j - 1]] + s[j..] == s[j - 1..];
  }

  lemma {:induction false} BelongsHere<T>(s: seq<T>, x: T, j: nat, le: (T, T) -> bool)
    requires j <= |s| && (j == 0 || le(s[j - 1], x)) && BelongsBefore(s, x, j, le)
    ensures Insert(s, x, le) == s[..j] + [x] + s[j..]
  {
  }

  /** Moves a[i] down into the sorted part before it. */
  method InsertInPlace<T>(a: array<T>, i: nat, le: (T, T) -> bool)
    requires i < a.Length
    modifies a
    ensures a[..i + 1] == Insert(old(a[..i]), old(a[i]), le)
    ensures a[i + 1..] == old(a[i + 1..])
  {
    ghost var s := a[..i];
    var x := a[i];
    var j := i;
    BelongsAtEnd(s, x, le);
    while j > 0 && !le(a[j - 1], x)
      invariant 0 <= j <= i && a[j] == x
      invariant forall k :: 0 <= k < j ==> a[k] == s[k]
      invariant forall k :: j < k <= i ==> a[k] == s[k - 1]
      invariant forall k :: i < k < a.Length ==> a[k] == old(a[k])
      invariant BelongsBefore(s, x, j, le)
    {
      BelongsFurther(s, x, j, le);
      a[j], a[j - 1] := a[j - 1], x;
      j := j - 1;
    }
    BelongsHere(s, x, j, le);
  }

  lemma {:induction false} SortOneMore<T>(s: seq<T>, i: nat, le: (T, T) -> bool)
    requires i < |s|
    ensures Sort(s[..i + 1], le) == Insert(Sort(s[..i], le), s[i], le)
    ensures s[i..][0] == s[i] && s[i..][1..] == s[i + 1..]
  {
    assert s[..i + 1][..i] == s[..i];
  }

  /** Stable insertion sort; every stable sort gives this result. */
  method SliceStable<T>(a: array<T>, le: (T, T) -> bool)
    modifies a
    ensures a[..] == Sort(old(a[..]), le)
  {
    ghost var was := a[..];
    for i := 0 to a.Length
      invariant a[..i] == Sort(was[..i], le) && a[i..] == was[i..]
    {
      SortOneMore(was, i, le);
      assert a[i] == a[i..][0] && a[i + 1..] == a[i..][1..];
      InsertInPlace(a, i, le);
    }
    assert was[..a.Length] == was && a[..a.Length] == a[..];
  }
}
