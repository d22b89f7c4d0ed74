/** Sequence idioms the components use throughout: `filter`, `reduce` with a sum,
    `find`/`findIndex`, and the blank test `!s.trim()`. */
module Seqs {

  datatype Option<+T> = None | Some(value: T)

  /** `s.filter(keep)`: the elements of `s` that satisfy `keep`, in their original order. */
  function Filter<T>(s: seq<T>, keep: T -> bool): (r: seq<T>)
    ensures |r| <= |s|
    ensures forall i :: 0 <= i < |r| ==> r[i] in s && keep(r[i])
    ensures forall i :: 0 <= i < |s| && keep(s[i]) ==> s[i] in r
  {
    if s == [] then []
    else
      assert s == s[..|s| - 1] + [s[|s| - 1]];
      Filter(s[..|s| - 1], keep) + (if keep(s[|s| - 1]) then [s[|s| - 1]] else [])
  }

  /** Filtering distributes over concatenation, so it keeps the relative order of what it keeps. */
  lemma {:induction false} FilterConcat<T>(a: seq<T>, b: seq<T>, keep: T -> bool)
    ensures Filter(a + b, keep) == Filter(a, keep) + Filter(b, keep)
  {
    if b == [] {
      assert a + b == a;
    } else {
      var n := |b| - 1;
      assert (a + b)[..|a + b| - 1] == a + b[..n];
      FilterConcat(a, b[..n], keep);
    }
  }

  /** Putting the same head in front of two sequences keeps a relation between their filters. */
  lemma FilterConsShift<T>(h: T, r: seq<T>, r2: seq<T>, keep: T -> bool, tail: seq<T>)
    requires Filter(r, keep) == Filter(r2, keep) + tail
    ensures Filter([h] + r, keep) == Filter([h] + r2, keep) + tail
  {
    FilterConcat([h], r, keep);
    FilterConcat([h], r2, keep);
    ConcatAssoc(Filter([h], keep), Filter(r2, keep), tail);
  }

  lemma ConcatAssoc<T>(a: seq<T>, b: seq<T>, c: seq<T>)
    ensures a + (b + c) == (a + b) + c
  {
  }

  /** Appending one element extends the filtered sequence by it exactly when it is kept. */
  lemma FilterSnoc<T>(s: seq<T>, x: T, keep: T -> bool)
    ensures Filter(s + [x], keep) == Filter(s, keep) + (if keep(x) then [x] else [])
  {
    assert (s + [x])[..|s|] == s;
  }

  /** Appending one element adds its value to the sum. */
  lemma SumSnoc<T>(s: seq<T>, x: T, f: T -> real)
    ensures Sum(s + [x], f) == Sum(s, f) + f(x)
  {
    assert (s + [x])[..|s|] == s;
  }

  /** Every element satisfies `p`, stated one element at a time from the end. */
  ghost predicate Every<T>(s: seq<T>, p: T -> bool)
    decreases |s|
  {
    s != [] ==> Every(s[..|s| - 1], p) && p(s[|s| - 1])
  }

  lemma {:induction false} EveryAll<T>(s: seq<T>, p: T -> bool)
    requires Every(s, p)
    ensures forall k :: 0 <= k < |s| ==> p(s[k])
  {
    if s != [] {
      EveryAll(s[..|s| - 1], p);
    }
  }

  lemma EverySnoc<T>(s: seq<T>, x: T, p: T -> bool)
    requires Every(s, p) && p(x)
    ensures Every(s + [x], p)
  {
    assert (s + [x])[..|s|] == s;
  }

  lemma PrefixSnoc<T>(s: seq<T>, i: int)
    requires 0 <= i < |s|
    ensures s[..i + 1] == s[..i] + [s[i]]
  {
  }

  /** The sum over one more element of a prefix. */
  lemma SumPrefixStep<T>(s: seq<T>, i: int, f: T -> real)
    requires 0 <= i < |s|
    ensures Sum(s[..i + 1], f) == Sum(s[..i], f) + f(s[i])
  {
    assert s[..i + 1] == s[..i] + [s[i]];
    SumSnoc(s[..i], s[i], f);
  }

  /** The measure `x => f(x) * a + g(x) * b`. */
  function Weighted<T>(f: T -> real, g: T -> real, a: real, b: real): T -> real
  {
    (x: T) => f(x) * a + g(x) * b
  }

  /** The sum of a weighted combination of two measures is the combination of their sums. */
  lemma {:induction false} SumWeighted<T>(s: seq<T>, f: T -> real, g: T -> real, a: real, b: real)
    ensures Sum(s, Weighted(f, g, a, b)) == a * Sum(s, f) + b * Sum(s, g)
  {
    if s != [] {
      SumWeighted(s[..|s| - 1], f, g, a, b);
    }
  }

  /** `s.map(f)`. */
  function Map<T, U>(s: seq<T>, f: T -> U): (r: seq<U>)
    ensures |r| == |s|
    ensures forall i :: 0 <= i < |s| ==> r[i] == f(s[i])
  {
    seq(|s|, i requires 0 <= i < |s| => f(s[i]))
  }

  /** With unit weights the weighted sum is the plain sum of the two parts. */
  lemma SumUnitWeighted<T>(s: seq<T>, f: T -> real, g: T -> real)
    ensures Sum(s, Weighted(f, g, 1.0, 1.0)) == Sum(s, f) + Sum(s, g)
  {
    SumWeighted(s, f, g, 1.0, 1.0);
  }

  /** The values of a map are exactly the images of the elements. */
  lemma MapMembers<T, U>(s: seq<T>, f: T -> U)
    ensures forall x :: x in Map(s, f) <==> exists y :: y in s && f(y) == x
  {
    var r := Map(s, f);
    forall x | x in r ensures exists y :: y in s && f(y) == x {
      var i :| 0 <= i < |r| && r[i] == x;
      assert s[i] in s;
    }
    forall y | y in s ensures f(y) in r {
      var i :| 0 <= i < |s| && s[i] == y;
      assert r[i] == f(y);
    }
  }

  /** The map over one more element of a prefix. */
  lemma MapPrefixStep<T, U>(s: seq<T>, i: int, f: T -> U)
    requires 0 <= i < |s|
    ensures Map(s[..i + 1], f) == Map(s[..i], f) + [f(s[i])]
  {
  }

  lemma MapSnoc<T, U>(s: seq<T>, x: T, f: T -> U)
    ensures Map(s + [x], f) == Map(s, f) + [f(x)]
  {
  }

  /** Summing a measure of the mapped elements is summing the composed measure. */
  lemma {:induction false} SumMap<T, U>(s: seq<T>, f: T -> U, g: U -> real, h: T -> real)
    requires forall x :: h(x) == g(f(x))
    ensures Sum(Map(s, f), g) == Sum(s, h)
  {
    if s != [] {
      var n := |s| - 1;
      SumMap(s[..n], f, g, h);
      assert Map(s, f)[..n] == Map(s[..n], f);
    }
  }

  /** One pass over `s` mapping each element and adding two measures of the image
      to two totals. */
  method MapSumTwo<T, U>(s: seq<T>, f: T -> U, g1: U -> real, g2: U -> real)
    returns (r: seq<U>, t1: real, t2: real)
    ensures r == Map(s, f)
    ensures t1 == Sum(r, g1) && t2 == Sum(r, g2)
  {
    r, t1, t2 := [], 0.0, 0.0;
    var i := 0;
    while i < |s|
      invariant 0 <= i <= |s|
      invariant r == Map(s[..i], f)
      invariant t1 == Sum(r, g1) && t2 == Sum(r, g2)
    {
      var y := f(s[i]);
      PrefixSnoc(s, i);
      MapSnoc(s[..i], s[i], f);
      SumSnoc(r, y, g1);
      SumSnoc(r, y, g2);
      r, t1, t2 := r + [y], t1 + g1(y), t2 + g2(y);
      i := i + 1;
    }
    assert s[..i] == s;
  }

  /** One pass over `s` adding four measures of each element to four totals. */
  method SumFour<T>(s: seq<T>, f1: T -> real, f2: T -> real, f3: T -> real, f4: T -> real)
    returns (t1: real, t2: real, t3: real, t4: real)
    ensures t1 == Sum(s, f1) && t2 == Sum(s, f2) && t3 == Sum(s, f3) && t4 == Sum(s, f4)
  {
    t1, t2, t3, t4 := 0.0, 0.0, 0.0, 0.0;
    var i := 0;
    while i < |s|
      invariant 0 <= i <= |s|
      invariant t1 == Sum(s[..i], f1) && t2 == Sum(s[..i], f2) && t3 == Sum(s[..i], f3) && t4 == Sum(s[..i], f4)
    {
      SumPrefixStep(s, i, f1);
      SumPrefixStep(s, i, f2);
      SumPrefixStep(s, i, f3);
      SumPrefixStep(s, i, f4);
      t1, t2, t3, t4 := t1 + f1(s[i]), t2 + f2(s[i]), t3 + f3(s[i]), t4 + f4(s[i]);
      i := i + 1;
    }
    assert s[..i] == s;
  }

  /** Filtering with a predicate no element satisfies leaves nothing. */
  lemma {:induction false} FilterKeepsNone<T>(s: seq<T>, keep: T -> bool)
    requires forall i :: 0 <= i < |s| ==> !keep(s[i])
    ensures Filter(s, keep) == []
  {
    if s != [] {
      FilterKeepsNone(s[..|s| - 1], keep);
    }
  }

  /** Filtering with a predicate that every element satisfies changes nothing. */
  lemma {:induction false} FilterKeepsAll<T>(s: seq<T>, keep: T -> bool)
    requires forall i :: 0 <= i < |s| ==> keep(s[i])
    ensures Filter(s, keep) == s
  {
    if s != [] {
      var n := |s| - 1;
      var front := s[..n];
      assert forall i :: 0 <= i < |front| ==> front[i] == s[i];
      FilterKeepsAll(front, keep);
      assert keep(s[n]);
      assert Filter(s, keep) == front + [s[n]];
      PrefixSnoc(s, n);
      assert s[..n + 1] == s;
    }
  }

  /** Filtering twice with the same predicate is the same as filtering once. */
  lemma FilterIdempotent<T>(s: seq<T>, keep: T -> bool)
    ensures Filter(Filter(s, keep), keep) == Filter(s, keep)
  {
    var r := Filter(s, keep);
    assert forall i :: 0 <= i < |r| ==> r[i] in r;
    FilterKeepsAll(r, keep);
  }

  /** `s.reduce((sum, x) => sum + f(x), 0)`: the sum of `f` over `s`, from the left. */
  function Sum<T>(s: seq<T>, f: T -> real): real
  {
    if s == [] then 0.0 else Sum(s[..|s| - 1], f) + f(s[|s| - 1])
  }

  lemma {:induction false} SumConcat<T>(a: seq<T>, b: seq<T>, f: T -> real)
    ensures Sum(a + b, f) == Sum(a, f) + Sum(b, f)
  {
    if b == [] {
      assert a + b == a;
    } else {
      var n := |b| - 1;
      assert (a + b)[..|a + b| - 1] == a + b[..n];
      SumConcat(a, b[..n], f);
    }
  }

  lemma {:induction false} SumNonNegative<T>(s: seq<T>, f: T -> real)
    requires forall i :: 0 <= i < |s| ==> f(s[i]) >= 0.0
    ensures Sum(s, f) >= 0.0
  {
    if s != [] {
      SumNonNegative(s[..|s| - 1], f);
    }
  }

  /** A filtered sum of non-negative terms is non-negative, and it is 0 when nothing is kept. */
  lemma SumFilterBounds<T>(s: seq<T>, keep: T -> bool, f: T -> real)
    ensures (forall i :: 0 <= i < |s| ==> f(s[i]) >= 0.0) ==> Sum(Filter(s, keep), f) >= 0.0
    ensures (forall i :: 0 <= i < |s| ==> !keep(s[i])) ==> Sum(Filter(s, keep), f) == 0.0
  {
    var kept := Filter(s, keep);
    if forall i :: 0 <= i < |s| ==> f(s[i]) >= 0.0 {
      forall k | 0 <= k < |kept|
        ensures f(kept[k]) >= 0.0
      {
        var i :| 0 <= i < |s| && s[i] == kept[k];
      }
      SumNonNegative(kept, f);
    }
    if forall i :: 0 <= i < |s| ==> !keep(s[i]) {
      FilterKeepsNone(s, keep);
    }
  }

  /** Dropping elements that contribute nothing negative can only lower a sum. */
  lemma {:induction false} SumFilterAtMost<T>(s: seq<T>, keep: T -> bool, f: T -> real)
    requires forall i :: 0 <= i < |s| ==> f(s[i]) >= 0.0
    ensures Sum(Filter(s, keep), f) <= Sum(s, f)
  {
    if s != [] {
      var n := |s| - 1;
      SumFilterAtMost(s[..n], keep, f);
      SumConcat(Filter(s[..n], keep), if keep(s[n]) then [s[n]] else [], f);
      assert Sum([s[n]], f) == Sum([], f) + f(s[n]);
    }
  }

  /** A sum over a filtered sequence is the sum of the contributions of the kept elements. */
  lemma {:induction false} SumFilter<T>(s: seq<T>, keep: T -> bool, f: T -> real, g: T -> real)
    requires forall x :: g(x) == (if keep(x) then f(x) else 0.0)
    ensures Sum(Filter(s, keep), f) == Sum(s, g)
  {
    if s != [] {
      var n := |s| - 1;
      SumFilter(s[..n], keep, f, g);
      SumConcat(Filter(s[..n], keep), if keep(s[n]) then [s[n]] else [], f);
      assert Sum([s[n]], f) == Sum([], f) + f(s[n]);
    }
  }

  /** Sums are linear: a pointwise sum of contributions sums to the sum of the two sums. */
  lemma {:induction false} SumAdd<T>(s: seq<T>, f: T -> real, g: T -> real, h: T -> real)
    requires forall x :: h(x) == f(x) + g(x)
    ensures Sum(s, h) == Sum(s, f) + Sum(s, g)
  {
    if s != [] {
      SumAdd(s[..|s| - 1], f, g, h);
    }
  }

  /** Sums are linear: scaling every contribution by `c` scales the sum by `c`. */
  lemma {:induction false} SumScale<T>(s: seq<T>, f: T -> real, g: T -> real, c: real)
    requires forall x :: g(x) == c * f(x)
    ensures Sum(s, g) == c * Sum(s, f)
  {
    if s != [] {
      SumScale(s[..|s| - 1], f, g, c);
    }
  }

  /** A sum does not depend on the order of the summands. */
  lemma {:induction false} SumPermutation<T>(a: seq<T>, b: seq<T>, f: T -> real)
    requires multiset(a) == multiset(b)
    ensures Sum(a, f) == Sum(b, f)
    decreases |a|
  {
    if a == [] {
      assert |b| == |multiset(b)| == 0;
    } else {
      var n := |a| - 1;
      var x := a[n];
      assert a == a[..n] + [x];
      assert multiset(a[..n]) == multiset(a) - multiset{x};
      assert x in multiset(b);
      var i :| 0 <= i < |b| && b[i] == x;
      var rest := b[..i] + b[i + 1..];
      MultisetRemove(b, i);
      SumPermutation(a[..n], rest, f);
      SumRemove(b, i, f);
      SumSnoc(a[..n], x, f);
    }
  }

  /** Filtering keeps every occurrence of a kept element and none of a dropped one. */
  lemma {:induction false} FilterCount<T>(s: seq<T>, keep: T -> bool, x: T)
    ensures multiset(Filter(s, keep))[x] == if keep(x) then multiset(s)[x] else 0
  {
    if s != [] {
      var n := |s| - 1;
      FilterCount(s[..n], keep, x);
      assert s == s[..n] + [s[n]];
      assert multiset(s) == multiset(s[..n]) + multiset{s[n]};
    }
  }

  /** Filters of two orderings of the same elements are orderings of the same elements. */
  lemma FilterPermutation<T>(a: seq<T>, b: seq<T>, keep: T -> bool)
    requires multiset(a) == multiset(b)
    ensures multiset(Filter(a, keep)) == multiset(Filter(b, keep))
  {
    var fa, fb := multiset(Filter(a, keep)), multiset(Filter(b, keep));
    forall x
      ensures fa[x] == fb[x]
    {
      FilterCount(a, keep, x);
      FilterCount(b, keep, x);
    }
    assert fa == fb;
  }

  /** Removing position `i` removes one occurrence of its element. */
  lemma MultisetRemove<T>(b: seq<T>, i: int)
    requires 0 <= i < |b|
    ensures multiset(b[..i] + b[i + 1..]) == multiset(b) - multiset{b[i]}
  {
    SplitAt(b, i);
  }

  lemma SplitAt<T>(b: seq<T>, i: int)
    requires 0 <= i < |b|
    ensures b == (b[..i] + [b[i]]) + b[i + 1..]
  {
  }

  /** Removing position `i` removes its summand. */
  lemma SumRemove<T>(b: seq<T>, i: int, f: T -> real)
    requires 0 <= i < |b|
    ensures Sum(b, f) == Sum(b[..i] + b[i + 1..], f) + f(b[i])
  {
    var front, x, back := b[..i], b[i], b[i + 1..];
    calc {
      Sum(b, f);
      { SplitAt(b, i); }
      Sum((front + [x]) + back, f);
      { SumConcat(front + [x], back, f); }
      Sum(front + [x], f) + Sum(back, f);
      { SumSnoc(front, x, f); }
      Sum(front, f) + f(x) + Sum(back, f);
      { SumConcat(front, back, f); }
      Sum(front + back, f) + f(x);
    }
  }

  /** `s.findIndex(p)`: the index of the first element satisfying `p`, or -1. */
  function FindIndex<T>(s: seq<T>, p: T -> bool): (r: int)
    ensures -1 <= r < |s|
    ensures r >= 0 ==> p(s[r]) && forall j :: 0 <= j < r ==> !p(s[j])
    ensures r == -1 <==> forall j :: 0 <= j < |s| ==> !p(s[j])
  {
    if s == [] then -1
    else if p(s[0]) then 0
    else
      var k := FindIndex(s[1..], p);
      if k == -1 then -1 else k + 1
  }

  /** `s.find(p)`: the first element satisfying `p`, if any. */
  function Find<T>(s: seq<T>, p: T -> bool): (r: Option<T>)
    ensures r.Some? <==> exists i :: 0 <= i < |s| && p(s[i])
    ensures r.Some? ==> r.value in s && p(r.value)
    ensures r.Some? ==> exists i :: 0 <= i < |s| && s[i] == r.value && forall j :: 0 <= j < i ==> !p(s[j])
  {
    var k := FindIndex(s, p);
    if k == -1 then None else Some(s[k])
  }

  /** The characters JavaScript's `String.prototype.trim` removes: WhiteSpace and LineTerminator. */
  predicate IsJsSpace(c: char)
  {
    c == '\t' || c == '\n' || c == '\U{000B}' || c == '\U{000C}' || c == '\r' || c == ' '
    || c == '\U{00A0}' || c == '\U{1680}' || ('\U{2000}' <= c <= '\U{200A}')
    || c == '\U{2028}' || c == '\U{2029}' || c == '\U{202F}' || c == '\U{205F}'
    || c == '\U{3000}' || c == '\U{FEFF}'
  }

  /** `s.trim()`: `s` without its leading and trailing white space. */
  function Trim(s: string): string
  {
    TrimEnd(TrimStart(s))
  }

  function TrimStart(s: string): (r: string)
    ensures |r| <= |s|
    ensures r == s[|s| - |r|..]
    ensures r != [] ==> !IsJsSpace(r[0])
    ensures forall i :: 0 <= i < |s| - |r| ==> IsJsSpace(s[i])
  {
    if s != [] && IsJsSpace(s[0]) then
      var r := TrimStart(s[1..]);
      assert s[1..][|s| - 1 - |r|..] == s[|s| - |r|..];
      assert forall i :: 1 <= i < |s| - |r| ==> s[i] == s[1..][i - 1];
      r
    else s
  }

  function TrimEnd(s: string): (r: string)
    ensures |r| <= |s|
    ensures r == s[..|r|]
    ensures r != [] ==> !IsJsSpace(r[|r| - 1])
    ensures forall i :: |r| <= i < |s| ==> IsJsSpace(s[i])
  {
    if s != [] && IsJsSpace(s[|s| - 1]) then TrimEnd(s[..|s| - 1]) else s
  }

  /** `!s.trim()`: the string is empty or made only of white space. */
  predicate IsBlank(s: string)
  {
    forall i :: 0 <= i < |s| ==> IsJsSpace(s[i])
  }

  /** The blank test is exactly "trimming leaves nothing". */
  lemma TrimEmptyIffBlank(s: string)
    ensures Trim(s) == "" <==> IsBlank(s)
  {
    var t := TrimStart(s);
    if Trim(s) == "" {
      assert t == [];
    }
  }

  /** The `findIndex`-then-assign-or-`push` update: the first element with the key
      is replaced by its updated copy; without one, `added` goes at the end. */
  function Upsert<T>(s: seq<T>, key: T -> bool, update: T -> T, added: T): seq<T>
  {
    var i := FindIndex(s, key);
    if i >= 0 then s[i := update(s[i])] else s + [added]
  }

  /** With a keyed element present, the length stays, the first keyed element is
      updated where it stood (and is what a lookup now finds), and every other
      position is unchanged. */
  lemma UpsertFound<T>(s: seq<T>, key: T -> bool, update: T -> T, added: T)
    requires FindIndex(s, key) >= 0
    requires forall x :: key(x) ==> key(update(x))
    ensures |Upsert(s, key, update, added)| == |s|
    ensures Upsert(s, key, update, added)[FindIndex(s, key)] == update(s[FindIndex(s, key)])
    ensures forall j :: 0 <= j < |s| && j != FindIndex(s, key) ==> Upsert(s, key, update, added)[j] == s[j]
    ensures Find(Upsert(s, key, update, added), key) == Some(update(s[FindIndex(s, key)]))
  {
    var i := FindIndex(s, key);
    var r := Upsert(s, key, update, added);
    assert forall j :: 0 <= j < i ==> r[j] == s[j];
    FindIndexFirst(r, key, i);
  }

  /** A position that passes the test with none passing before it is the one `findIndex` gives. */
  lemma FindIndexFirst<T>(s: seq<T>, p: T -> bool, i: int)
    requires 0 <= i < |s| && p(s[i])
    requires forall j :: 0 <= j < i ==> !p(s[j])
    ensures FindIndex(s, p) == i
  {
    var k := FindIndex(s, p);
    assert k != -1;
    assert !(k < i);
    assert !(k > i);
  }

  /** Without a keyed element, exactly `added` is appended, and a lookup finds it. */
  lemma UpsertMissing<T>(s: seq<T>, key: T -> bool, update: T -> T, added: T)
    requires FindIndex(s, key) == -1
    requires key(added)
    ensures Upsert(s, key, update, added) == s + [added]
    ensures Find(Upsert(s, key, update, added), key) == Some(added)
  {
    FindIndexSnoc(s, added, key);
  }

  /** Appending to a sequence with no match makes the appended element the first match. */
  lemma {:induction false} FindIndexSnoc<T>(s: seq<T>, x: T, p: T -> bool)
    requires FindIndex(s, p) == -1
    requires p(x)
    ensures FindIndex(s + [x], p) == |s|
  {
    if s != [] {
      assert (s + [x])[1..] == s[1..] + [x];
      FindIndexSnoc(s[1..], x, p);
    }
  }

  /** A lookup under a key that the upsert's key excludes sees no change. */
  lemma UpsertOtherKey<T>(s: seq<T>, key: T -> bool, update: T -> T, added: T, other: T -> bool)
    requires forall x :: key(x) ==> !other(x) && !other(update(x))
    requires !other(added)
    ensures FindIndex(Upsert(s, key, update, added), other) == FindIndex(s, other)
    ensures Find(Upsert(s, key, update, added), other) == Find(s, other)
  {
    var i := FindIndex(s, key);
    var r := Upsert(s, key, update, added);
    var k := FindIndex(s, other);
    assert forall j :: 0 <= j < |s| ==> other(r[j]) == other(s[j]) && (other(s[j]) ==> r[j] == s[j]);
    if k >= 0 {
      assert FindIndex(r, other) == k;
    } else if i < 0 {
      assert FindIndex(r, other) == -1;
    } else {
      assert forall j :: 0 <= j < |r| ==> !other(r[j]);
    }
  }

  /** Upserting the same update twice gives what upserting it once gives, whatever
      new element the second call would have used. */
  lemma UpsertIdempotent<T>(s: seq<T>, key: T -> bool, update: T -> T, added: T, added2: T)
    requires forall x :: key(x) ==> key(update(x)) && update(update(x)) == update(x)
    requires key(added) && update(added) == added
    ensures Upsert(Upsert(s, key, update, added), key, update, added2) == Upsert(s, key, update, added)
  {
    var r := Upsert(s, key, update, added);
    if FindIndex(s, key) >= 0 {
      UpsertFound(s, key, update, added);
      var i := FindIndex(s, key);
      assert forall j :: 0 <= j < i ==> r[j] == s[j];
      assert FindIndex(r, key) == i;
      assert r[i := update(r[i])] == r;
    } else {
      UpsertMissing(s, key, update, added);
      assert forall j :: 0 <= j < |s| ==> r[j] == s[j];
      assert FindIndex(r, key) == |s|;
      assert r[|s| := update(r[|s|])] == r;
    }
  }

  /** The filtered sum splits over a concatenation. */
  lemma SumFilterConcat<T>(a: seq<T>, b: seq<T>, keep: T -> bool, f: T -> real)
    ensures Sum(Filter(a + b, keep), f) == Sum(Filter(a, keep), f) + Sum(Filter(b, keep), f)
  {
    FilterConcat(a, b, keep);
    SumConcat(Filter(a, keep), Filter(b, keep), f);
  }

  lemma SumFilterSingle<T>(x: T, keep: T -> bool, f: T -> real)
    ensures Sum(Filter([x], keep), f) == if keep(x) then f(x) else 0.0
  {
    assert [x][..0] == [];
    if keep(x) {
      assert Filter([x], keep) == [x];
      assert [x][..0] == [];
    }
  }

  /** Replacing one element changes the filtered sum by what the new element adds
      minus what the old one added. */
  lemma SumFilterReplace<T>(s: seq<T>, i: int, y: T, keep: T -> bool, f: T -> real)
    requires 0 <= i < |s|
    ensures Sum(Filter(s[i := y], keep), f) ==
      Sum(Filter(s, keep), f) - (if keep(s[i]) then f(s[i]) else 0.0) + (if keep(y) then f(y) else 0.0)
  {
    var a, b := s[..i], s[i + 1..];
    assert s == a + ([s[i]] + b);
    assert s[i := y] == a + ([y] + b);
    SumFilterConcat(a, [s[i]] + b, keep, f);
    SumFilterConcat([s[i]], b, keep, f);
    SumFilterConcat(a, [y] + b, keep, f);
    SumFilterConcat([y], b, keep, f);
    SumFilterSingle(s[i], keep, f);
    SumFilterSingle(y, keep, f);
  }

  /** Appending one element adds its value to the filtered sum when it is kept. */
  lemma SumFilterSnoc<T>(s: seq<T>, x: T, keep: T -> bool, f: T -> real)
    ensures Sum(Filter(s + [x], keep), f) == Sum(Filter(s, keep), f) + (if keep(x) then f(x) else 0.0)
  {
    SumFilterConcat(s, [x], keep, f);
    SumFilterSingle(x, keep, f);
  }

  /** No element occurs twice. */
  predicate Distinct<T(==)>(s: seq<T>)
  {
    forall i, j :: 0 <= i < j < |s| ==> s[i] != s[j]
  }

  /** A sequence without repetitions counts every value at most once. */
  lemma {:induction false} DistinctCountsOnce<T>(s: seq<T>, x: T)
    requires Distinct(s)
    ensures multiset(s)[x] <= 1
  {
    if s != [] {
      var n := |s| - 1;
      assert s == s[..n] + [s[n]];
      assert Distinct(s[..n]);
      DistinctCountsOnce(s[..n], x);
      if x == s[n] {
        assert x !in s[..n];
      }
    }
  }

  /** Rearranging a sequence without repetitions gives one without repetitions. */
  lemma DistinctPermutation<T>(s: seq<T>, t: seq<T>)
    requires Distinct(s) && multiset(s) == multiset(t)
    ensures Distinct(t)
  {
    forall i, j | 0 <= i < j < |t| ensures t[i] != t[j] {
      if t[i] == t[j] {
        assert t == t[..j] + [t[j]] + t[j + 1..];
        assert t[i] in t[..j];
        assert multiset(t)[t[j]] >= 2;
        DistinctCountsOnce(s, t[j]);
      }
    }
  }

  /** Position k of `acc` holds the sum of `each` over positions 0..k. */
  ghost predicate RunningSums<T>(s: seq<T>, acc: T -> real, each: T -> real)
  {
    forall k :: 0 <= k < |s| ==> acc(s[k]) == Sum(s[..k + 1], each)
  }

  /** Appending an element whose running value is the old total plus its own keeps
      the running sums. */
  lemma RunningSumsSnoc<T>(s: seq<T>, x: T, acc: T -> real, each: T -> real)
    requires RunningSums(s, acc, each)
    requires acc(x) == Sum(s, each) + each(x)
    ensures RunningSums(s + [x], acc, each)
  {
    var t := s + [x];
    forall k | 0 <= k < |t| ensures acc(t[k]) == Sum(t[..k + 1], each) {
      if k < |s| {
        assert t[..k + 1] == s[..k + 1];
      } else {
        assert t[..k + 1] == t;
        SumSnoc(s, x, each);
      }
    }
  }

  /** With no negative term, running sums never decrease. */
  lemma RunningSumsMonotone<T>(s: seq<T>, acc: T -> real, each: T -> real, i: int, j: int)
    requires RunningSums(s, acc, each)
    requires forall k :: 0 <= k < |s| ==> each(s[k]) >= 0.0
    requires 0 <= i <= j < |s|
    ensures acc(s[i]) <= acc(s[j])
  {
    assert s[..j + 1] == s[..i + 1] + s[i + 1..j + 1];
    SumConcat(s[..i + 1], s[i + 1..j + 1], each);
    var rest := s[i + 1..j + 1];
    assert forall k :: 0 <= k < |rest| ==> rest[k] == s[i + 1 + k];
    SumNonNegative(rest, each);
  }
}
