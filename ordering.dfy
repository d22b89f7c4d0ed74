/** Orders the components sort by, and the sort itself.
    - strings compare character by character (JavaScript's default `sort` and `<`);
    - budget codes compare segment by segment, numerically where a segment is a
      number ("1.2" before "1.10"), standing for `localeCompare(…, { numeric: true })`;
    - `Array.prototype.sort` is stable; it is modelled as a stable insertion sort. */
module Ordering {
  import opened Seqs

  /** Three-way comparison of strings by character code: -1, 0 or 1. */
  function StrCmp(a: string, b: string): (r: int)
    ensures -1 <= r <= 1
    ensures r == 0 <==> a == b
  {
    if a == [] then (if b == [] then 0 else -1)
    else if b == [] then 1
    else if a[0] < b[0] then -1
    else if a[0] > b[0] then 1
    else
      assert a == [a[0]] + a[1..] && b == [b[0]] + b[1..];
      StrCmp(a[1..], b[1..])
  }

  lemma {:induction false} StrCmpAntisymmetric(a: string, b: string)
    ensures StrCmp(a, b) == -StrCmp(b, a)
  {
    if a != [] && b != [] && a[0] == b[0] {
      StrCmpAntisymmetric(a[1..], b[1..]);
    }
  }

  lemma {:induction false} StrCmpTransitive(a: string, b: string, c: string)
    requires StrCmp(a, b) <= 0 && StrCmp(b, c) <= 0
    ensures StrCmp(a, c) <= 0
  {
    if a != [] && b != [] && c != [] && a[0] == b[0] == c[0] {
      StrCmpTransitive(a[1..], b[1..], c[1..]);
    }
  }

  // ----- budget codes -----

  /** `code.split('.')`: the dot-separated segments of a code (at least one). */
  function Segments(code: string): (parts: seq<string>)
    ensures |parts| >= 1
  {
    if code == [] then [""]
    else
      var init := Segments(code[..|code| - 1]);
      var c := code[|code| - 1];
      if c == '.' then init + [""]
      else init[..|init| - 1] + [init[|init| - 1] + [c]]
  }

  /** A segment made only of digits compares as the number it spells, before any other text. */
  datatype SegmentKey = Number(value: nat) | Word(text: string)

  predicate AllDigits(s: string)
  {
    s != [] && forall i :: 0 <= i < |s| ==> '0' <= s[i] <= '9'
  }

  function DigitsValue(s: string): nat
    requires forall i :: 0 <= i < |s| ==> '0' <= s[i] <= '9'
  {
    if s == [] then 0
    else 10 * DigitsValue(s[..|s| - 1]) + (s[|s| - 1] as int - '0' as int)
  }

  function KeyOf(segment: string): SegmentKey
  {
    if AllDigits(segment) then Number(DigitsValue(segment)) else Word(segment)
  }

  function KeyCmp(a: SegmentKey, b: SegmentKey): (r: int)
    ensures -1 <= r <= 1
  {
    match (a, b)
    case (Number(x), Number(y)) => if x < y then -1 else if x > y then 1 else 0
    case (Number(_), Word(_)) => -1
    case (Word(_), Number(_)) => 1
    case (Word(s), Word(t)) => StrCmp(s, t)
  }

  lemma KeyCmpAntisymmetric(a: SegmentKey, b: SegmentKey)
    ensures KeyCmp(a, b) == -KeyCmp(b, a)
  {
    if a.Word? && b.Word? {
      StrCmpAntisymmetric(a.text, b.text);
    }
  }

  lemma KeyCmpTransitive(a: SegmentKey, b: SegmentKey, c: SegmentKey)
    requires KeyCmp(a, b) <= 0 && KeyCmp(b, c) <= 0
    ensures KeyCmp(a, c) <= 0
  {
    if a.Word? && b.Word? && c.Word? {
      StrCmpTransitive(a.text, b.text, c.text);
    }
  }

  /** Equal keys (comparing 0) compare alike with every third key. */
  lemma KeyCmpTieCompatible(a: SegmentKey, b: SegmentKey, c: SegmentKey)
    requires KeyCmp(a, b) == 0
    ensures KeyCmp(a, c) == KeyCmp(b, c)
  {
    KeyCmpAntisymmetric(a, b);
    KeyCmpAntisymmetric(a, c);
    KeyCmpAntisymmetric(b, c);
    if KeyCmp(a, c) <= 0 { KeyCmpTransitive(b, a, c); }
    if KeyCmp(b, c) <= 0 { KeyCmpTransitive(a, b, c); }
    if KeyCmp(c, a) <= 0 { KeyCmpTransitive(c, a, b); }
    if KeyCmp(c, b) <= 0 { KeyCmpTransitive(c, b, a); }
  }

  /** Lexicographic comparison of key lists; a proper prefix comes first. */
  function KeysCmp(xs: seq<SegmentKey>, ys: seq<SegmentKey>): (r: int)
    ensures -1 <= r <= 1
  {
    if xs == [] then (if ys == [] then 0 else -1)
    else if ys == [] then 1
    else if KeyCmp(xs[0], ys[0]) != 0 then KeyCmp(xs[0], ys[0])
    else KeysCmp(xs[1..], ys[1..])
  }

  lemma {:induction false} KeysCmpAntisymmetric(xs: seq<SegmentKey>, ys: seq<SegmentKey>)
    ensures KeysCmp(xs, ys) == -KeysCmp(ys, xs)
  {
    if xs != [] && ys != [] {
      KeyCmpAntisymmetric(xs[0], ys[0]);
      KeysCmpAntisymmetric(xs[1..], ys[1..]);
    }
  }

  lemma {:induction false} KeysCmpTransitive(xs: seq<SegmentKey>, ys: seq<SegmentKey>, zs: seq<SegmentKey>)
    requires KeysCmp(xs, ys) <= 0 && KeysCmp(ys, zs) <= 0
    ensures KeysCmp(xs, zs) <= 0
  {
    if xs != [] && ys != [] && zs != [] {
      var x, y, z := xs[0], ys[0], zs[0];
      KeyCmpTransitive(x, y, z);
      if KeyCmp(x, y) == 0 && KeyCmp(y, z) == 0 {
        KeyCmpTieCompatible(x, y, z);
        KeysCmpTransitive(xs[1..], ys[1..], zs[1..]);
      } else if KeyCmp(x, y) == 0 {
        KeyCmpTieCompatible(x, y, z);
      } else if KeyCmp(y, z) == 0 {
        KeyCmpTieCompatible(y, z, x);
        KeyCmpAntisymmetric(x, z);
        KeyCmpAntisymmetric(x, y);
      } else if KeyCmp(x, z) == 0 {
        KeyCmpTieCompatible(x, z, y);
        KeyCmpAntisymmetric(z, y);
      }
    }
  }

  function Keys(parts: seq<string>): (ks: seq<SegmentKey>)
    ensures |ks| == |parts|
  {
    if parts == [] then [] else [KeyOf(parts[0])] + Keys(parts[1..])
  }

  /** The numeric-aware three-way comparison of two budget codes. */
  function CodeCmp(a: string, b: string): int
  {
    KeysCmp(Keys(Segments(a)), Keys(Segments(b)))
  }

  /** The code comparison is a total preorder: every pair compares one way or
      the other, and the comparison is transitive. */
  lemma CodeCmpIsTotalPreorder(a: string, b: string, c: string)
    ensures CodeCmp(a, b) <= 0 || CodeCmp(b, a) <= 0
    ensures CodeCmp(a, b) == -CodeCmp(b, a)
    ensures CodeCmp(a, b) <= 0 && CodeCmp(b, c) <= 0 ==> CodeCmp(a, c) <= 0
  {
    KeysCmpAntisymmetric(Keys(Segments(a)), Keys(Segments(b)));
    if CodeCmp(a, b) <= 0 && CodeCmp(b, c) <= 0 {
      KeysCmpTransitive(Keys(Segments(a)), Keys(Segments(b)), Keys(Segments(c)));
    }
  }

  // ----- stable insertion sort -----

  /** `before(x, y)`: x must be placed ahead of y. A strict order: never both ways, and transitive. */
  ghost predicate StrictOrder<T(!new)>(before: (T, T) -> bool)
  {
    (forall x, y :: before(x, y) ==> !before(y, x))
    && (forall x, y, z :: before(x, y) && before(y, z) ==> before(x, z))
  }

  /** No element is placed ahead of an element that precedes it. */
  ghost predicate SortedBy<T>(s: seq<T>, before: (T, T) -> bool)
  {
    forall i, j :: 0 <= i < j < |s| ==> !before(s[j], s[i])
  }

  /** Insert `x` ahead of the first element it must precede, so after every element it ties with. */
  function Insert<T>(x: T, s: seq<T>, before: (T, T) -> bool): (r: seq<T>)
    ensures multiset(r) == multiset(s) + multiset{x}
    ensures |r| == |s| + 1
  {
    if s == [] then [x]
    else if before(x, s[0]) then [x] + s
    else
      assert s == [s[0]] + s[1..];
      [s[0]] + Insert(x, s[1..], before)
  }

  /** `s.sort(cmp)`: each element in turn is inserted into the sorted prefix before it. */
  function SortBy<T>(s: seq<T>, before: (T, T) -> bool): (r: seq<T>)
    ensures multiset(r) == multiset(s)
    ensures |r| == |s|
  {
    if s == [] then []
    else
      assert s == s[..|s| - 1] + [s[|s| - 1]];
      Insert(s[|s| - 1], SortBy(s[..|s| - 1], before), before)
  }

  lemma {:induction false} InsertSorted<T(!new)>(x: T, s: seq<T>, before: (T, T) -> bool)
    requires StrictOrder(before)
    requires SortedBy(s, before)
    ensures SortedBy(Insert(x, s, before), before)
  {
    if s == [] {
    } else if before(x, s[0]) {
      var r := [x] + s;
      forall i, j | 0 <= i < j < |r| ensures !before(r[j], r[i]) {
        if i == 0 {
          assert r[j] == s[j - 1];
          assert !before(s[j - 1], s[0]);
        } else {
          assert r[i] == s[i - 1] && r[j] == s[j - 1];
        }
      }
    } else {
      InsertSorted(x, s[1..], before);
      var t := Insert(x, s[1..], before);
      assert multiset(t) == multiset(s[1..]) + multiset{x};
      var r := [s[0]] + t;
      forall i, j | 0 <= i < j < |r| ensures !before(r[j], r[i]) {
        if i == 0 {
          var y := t[j - 1];
          assert r[j] == y;
          assert y in multiset(t);
          if y != x {
            assert y in multiset(s[1..]);
            var k :| 0 <= k < |s[1..]| && s[1..][k] == y;
            assert s[k + 1] == y;
          }
        } else {
          assert r[i] == t[i - 1] && r[j] == t[j - 1];
        }
      }
    }
  }

  lemma {:induction false} SortBySorted<T(!new)>(s: seq<T>, before: (T, T) -> bool)
    requires StrictOrder(before)
    ensures SortedBy(SortBy(s, before), before)
  {
    if s != [] {
      SortBySorted(s[..|s| - 1], before);
      InsertSorted(s[|s| - 1], SortBy(s[..|s| - 1], before), before);
    }
  }

  /** Neither element must precede the other. */
  predicate Tied<T>(before: (T, T) -> bool, x: T, y: T)
  {
    !before(x, y) && !before(y, x)
  }

  /** The filter that keeps the elements tied with `x`. */
  function TiedWith<T>(before: (T, T) -> bool, x: T): T -> bool
  {
    (y: T) => Tied(before, x, y)
  }

  /** A strict order in which tied elements precede the same elements: the
      comparators a sort is given. */
  ghost predicate WeakOrder<T(!new)>(before: (T, T) -> bool)
  {
    StrictOrder(before) && forall a, b, c :: Tied(before, a, b) && before(b, c) ==> before(a, c)
  }

  /** Inserting into a sorted sequence puts `y` after every element tied with it. */
  lemma {:induction false} InsertKeepsTies<T(!new)>(y: T, t: seq<T>, before: (T, T) -> bool, x: T)
    requires WeakOrder(before)
    requires SortedBy(t, before)
    ensures Filter(Insert(y, t, before), TiedWith(before, x)) ==
      Filter(t, TiedWith(before, x)) + (if Tied(before, x, y) then [y] else [])
  {
    var keep := TiedWith(before, x);
    var tail := if Tied(before, x, y) then [y] else [];
    FilterSnoc([], y, keep);
    assert [] + [y] == [y];
    if t == [] {
    } else if before(y, t[0]) {
      FilterConcat([y], t, keep);
      if Tied(before, x, y) {
        NoneTiedAfter(y, t, before, x);
      }
    } else {
      SortedTail(t, before);
      InsertKeepsTies(y, t[1..], before, x);
      InsertPastHead(y, t, before, keep, tail);
    }
  }

  /** Inserting past the head: what the filter keeps of the rest carries over to the whole. */
  lemma InsertPastHead<T>(y: T, t: seq<T>, before: (T, T) -> bool, keep: T -> bool, tail: seq<T>)
    requires t != [] && !before(y, t[0])
    requires Filter(Insert(y, t[1..], before), keep) == Filter(t[1..], keep) + tail
    ensures Filter(Insert(y, t, before), keep) == Filter(t, keep) + tail
  {
    assert t == [t[0]] + t[1..];
    FilterConsShift(t[0], Insert(y, t[1..], before), t[1..], keep, tail);
  }

  /** When `y`, tied with `x`, must precede the head of a sorted sequence, nothing in
      that sequence is tied with `x`. */
  lemma NoneTiedAfter<T(!new)>(y: T, t: seq<T>, before: (T, T) -> bool, x: T)
    requires WeakOrder(before)
    requires SortedBy(t, before)
    requires t != [] && before(y, t[0]) && Tied(before, x, y)
    ensures Filter(t, TiedWith(before, x)) == []
  {
    assert before(x, t[0]);
    forall k | 0 <= k < |t|
      ensures !TiedWith(before, x)(t[k])
    {
      if k > 0 {
        assert !before(t[k], t[0]);
      }
    }
    FilterKeepsNone(t, TiedWith(before, x));
  }

  /** A sorted sequence stays sorted without its head. */
  lemma SortedTail<T>(t: seq<T>, before: (T, T) -> bool)
    requires t != [] && SortedBy(t, before)
    ensures SortedBy(t[1..], before)
  {
    forall i, j | 0 <= i < j < |t[1..]|
      ensures !before(t[1..][j], t[1..][i])
    {
      assert t[1..][i] == t[i + 1] && t[1..][j] == t[j + 1];
    }
  }

  /** The sort is stable: the elements tied with any `x` come out in their input order. */
  lemma {:induction false} SortByStable<T(!new)>(s: seq<T>, before: (T, T) -> bool, x: T)
    requires WeakOrder(before)
    ensures Filter(SortBy(s, before), TiedWith(before, x)) == Filter(s, TiedWith(before, x))
  {
    if s != [] {
      var n := |s| - 1;
      SortByStable(s[..n], before, x);
      SortBySorted(s[..n], before);
      InsertKeepsTies(s[n], SortBy(s[..n], before), before, x);
    }
  }

  /** `s.slice(0, n)`. */
  function Take<T>(s: seq<T>, n: nat): (r: seq<T>)
    ensures |r| <= n && |r| <= |s|
    ensures forall i :: 0 <= i < |r| ==> r[i] == s[i]
    ensures |s| > n ==> |r| == n
  {
    if |s| <= n then s else s[..n]
  }

  /** `s.filter(keep).sort(cmp).slice(0, n)`: at most `n` kept elements of `s`, in
      order; a kept element left out means the list is full of elements none of
      which it must precede. */
  lemma TopOfSorted<T(!new)>(s: seq<T>, keep: T -> bool, before: (T, T) -> bool, n: nat)
    requires StrictOrder(before)
    ensures |Take(SortBy(Filter(s, keep), before), n)| <= n
    ensures forall i :: 0 <= i < |Take(SortBy(Filter(s, keep), before), n)| ==>
      keep(Take(SortBy(Filter(s, keep), before), n)[i]) && Take(SortBy(Filter(s, keep), before), n)[i] in s
    ensures SortedBy(Take(SortBy(Filter(s, keep), before), n), before)
    ensures forall x :: x in s && keep(x) && x !in Take(SortBy(Filter(s, keep), before), n) ==>
      |Take(SortBy(Filter(s, keep), before), n)| == n
      && forall i :: 0 <= i < n ==> !before(x, Take(SortBy(Filter(s, keep), before), n)[i])
  {
    var ranked := SortBy(Filter(s, keep), before);
    SortBySorted(Filter(s, keep), before);
    TakeSorted(ranked, n, before);
    TopMembers(s, keep, ranked, n);
    forall x | x in s && keep(x) && x !in Take(ranked, n)
      ensures |Take(ranked, n)| == n && forall i :: 0 <= i < n ==> !before(x, Take(ranked, n)[i])
    {
      TopLeftOut(s, keep, ranked, n, before, x);
    }
  }

  lemma TakeSorted<T>(s: seq<T>, n: nat, before: (T, T) -> bool)
    requires SortedBy(s, before)
    ensures SortedBy(Take(s, n), before)
  {
    var r := Take(s, n);
    forall i, j | 0 <= i < j < |r| ensures !before(r[j], r[i]) {
      assert r[i] == s[i] && r[j] == s[j];
    }
  }

  /** Every element of the list is a kept element of `s`. */
  lemma TopMembers<T>(s: seq<T>, keep: T -> bool, ranked: seq<T>, n: nat)
    requires multiset(ranked) == multiset(Filter(s, keep))
    ensures forall i :: 0 <= i < |Take(ranked, n)| ==> keep(Take(ranked, n)[i]) && Take(ranked, n)[i] in s
  {
    var kept := Filter(s, keep);
    var r := Take(ranked, n);
    forall i | 0 <= i < |r| ensures keep(r[i]) && r[i] in s {
      assert r[i] == ranked[i];
      assert ranked[i] in multiset(ranked);
      assert r[i] in multiset(kept);
      var k :| 0 <= k < |kept| && kept[k] == r[i];
    }
  }

  /** A kept element missing from the list sits after it in the sorted order. */
  lemma TopLeftOut<T>(s: seq<T>, keep: T -> bool, ranked: seq<T>, n: nat, before: (T, T) -> bool, x: T)
    requires multiset(ranked) == multiset(Filter(s, keep))
    requires SortedBy(ranked, before)
    requires x in s && keep(x) && x !in Take(ranked, n)
    ensures |Take(ranked, n)| == n && forall i :: 0 <= i < n ==> !before(x, Take(ranked, n)[i])
  {
    var r := Take(ranked, n);
    var j :| 0 <= j < |s| && s[j] == x;
    assert x in Filter(s, keep);
    assert x in multiset(ranked);
    var k :| 0 <= k < |ranked| && ranked[k] == x;
    assert forall i :: 0 <= i < |r| ==> ranked[i] != x;
    assert k >= |r|;
    forall i | 0 <= i < n ensures !before(x, r[i]) {
      assert r[i] == ranked[i];
    }
  }

  /** Strings placed by character code, as JavaScript's default `sort()` places them. */
  predicate StrBefore(a: string, b: string)
  {
    StrCmp(a, b) < 0
  }

  lemma StrBeforeIsStrictOrder()
    ensures StrictOrder(StrBefore)
  {
    forall a, b | StrBefore(a, b) ensures !StrBefore(b, a) {
      StrCmpAntisymmetric(a, b);
    }
    forall a, b, c | StrBefore(a, b) && StrBefore(b, c) ensures StrBefore(a, c) {
      StrCmpTransitive(a, b, c);
    }
  }

  /** A code without dots is one segment. */
  lemma {:induction false} SegmentsOfWord(w: string)
    requires forall i :: 0 <= i < |w| ==> w[i] != '.'
    ensures Segments(w) == [w]
  {
    if w != [] {
      var n := |w| - 1;
      SegmentsOfWord(w[..n]);
      assert w[..n] + [w[n]] == w;
    }
  }

  /** Appending a dot and a dot-free segment appends that segment. */
  lemma {:induction false} SegmentsThenWord(a: string, w: string)
    requires forall i :: 0 <= i < |w| ==> w[i] != '.'
    ensures Segments(a + "." + w) == Segments(a) + [w]
  {
    if w == [] {
      assert a + "." + w == a + ".";
      assert (a + ".")[..|a|] == a && (a + ".")[|a|] == '.';
    } else {
      var n := |w| - 1;
      SegmentsThenWord(a, w[..n]);
      assert (a + "." + w)[..|a + "." + w| - 1] == a + "." + w[..n];
      assert w[..n] + [w[n]] == w;
    }
  }

  /** A code of two numeric segments compares by those two numbers. */
  lemma NumericCodeKeys(a: string, b: string)
    requires AllDigits(a) && AllDigits(b)
    ensures Keys(Segments(a)) == [Number(DigitsValue(a))]
    ensures Keys(Segments(a + "." + b)) == [Number(DigitsValue(a)), Number(DigitsValue(b))]
  {
    SegmentsOfWord(a);
    SegmentsOfWord(b);
    SegmentsThenWord(a, b);
  }

  /** Numeric segments compare as numbers, whatever their length: "1.2" comes before
      "1.10" because 2 < 10. */
  lemma NumericSegmentsCompareAsNumbers(a: string, b: string, d: string)
    requires AllDigits(a) && AllDigits(b) && AllDigits(d)
    requires DigitsValue(b) < DigitsValue(d)
    ensures CodeCmp(a + "." + b, a + "." + d) < 0
  {
    NumericCodeKeys(a, b);
    NumericCodeKeys(a, d);
    var x := Number(DigitsValue(a));
    var xs, ys := [x, Number(DigitsValue(b))], [x, Number(DigitsValue(d))];
    assert KeyCmp(x, x) == 0;
    assert xs[1..] == [Number(DigitsValue(b))] && ys[1..] == [Number(DigitsValue(d))];
    assert KeysCmp(xs[1..], ys[1..]) == -1;
    assert KeysCmp(xs, ys) == -1;
  }

  /** Filtering a sorted sequence leaves it sorted. */
  lemma {:induction false} FilterSorted<T>(s: seq<T>, keep: T -> bool, before: (T, T) -> bool)
    requires SortedBy(s, before)
    ensures SortedBy(Filter(s, keep), before)
  {
    if s != [] {
      var n := |s| - 1;
      FilterSorted(s[..n], keep, before);
      var a := Filter(s[..n], keep);
      assert s == s[..n] + [s[n]];
      FilterSnoc(s[..n], s[n], keep);
      if keep(s[n]) {
        forall i | 0 <= i < |a| ensures !before(s[n], a[i]) {
          assert a[i] in s[..n];
          var k :| 0 <= k < n && s[..n][k] == a[i];
          assert s[k] == a[i];
        }
        var r := a + [s[n]];
        forall i, j | 0 <= i < j < |r| ensures !before(r[j], r[i]) {
          if j == |a| {
            assert r[j] == s[n] && r[i] == a[i];
          } else {
            assert r[j] == a[j] && r[i] == a[i];
          }
        }
        assert Filter(s, keep) == r;
      }
    }
  }
}
