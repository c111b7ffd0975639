/** Sorting by a total order, and the order of strings. */
module Ordering {

  ghost predicate TotalOrder<T(!new)>(leq: (T, T) -> bool)
  {
    && (forall a, b :: leq(a, b) || leq(b, a))
    && (forall a, b, c :: leq(a, b) && leq(b, c) ==> leq(a, c))
  }

  function Place<T>(x: T, s: seq<T>, leq: (T, T) -> bool): seq<T>
  {
    if s == [] then [x]
    else if leq(x, s[0]) then [x] + s
    else [s[0]] + Place(x, s[1..], leq)
  }

  function Sort<T>(s: seq<T>, leq: (T, T) -> bool): seq<T>
  {
    if s == [] then [] else Place(s[0], Sort(s[1..], leq), leq)
  }

  ghost predicate Sorted<T(!new)>(s: seq<T>, leq: (T, T) -> bool)
  {
    forall i, j :: 0 <= i < j < |s| ==> leq(s[i], s[j])
  }

  lemma {:induction false} PlaceKeepsElements<T(!new)>(x: T, s: seq<T>, leq: (T, T) -> bool)
    ensures multiset(Place(x, s, leq)) == multiset(s) + multiset{x}
    ensures forall y :: y in Place(x, s, leq) ==> y == x || y in s
  {
    if s != [] {
      assert s == [s[0]] + s[1..];
      PlaceKeepsElements(x, s[1..], leq);
    }
  }

  lemma {:induction false} PlaceKeepsSorted<T(!new)>(x: T, s: seq<T>, leq: (T, T) -> bool)
    requires TotalOrder(leq) && Sorted(s, leq)
    ensures Sorted(Place(x, s, leq), leq)
  {
    if s != [] && !leq(x, s[0]) {
      var rest := Place(x, s[1..], leq);
      PlaceKeepsSorted(x, s[1..], leq);
      PlaceKeepsElements(x, s[1..], leq);
      forall i | 0 <= i < |rest| ensures leq(s[0], rest[i]) {
        assert rest[i] in rest;
      }
    }
  }

  /** Sorting yields a sorted permutation. */
  lemma {:induction false} SortIsSorted<T(!new)>(s: seq<T>, leq: (T, T) -> bool)
    requires TotalOrder(leq)
    ensures Sorted(Sort(s, leq), leq) && multiset(Sort(s, leq)) == multiset(s)
  {
    if s != [] {
      SortIsSorted(s[1..], leq);
      PlaceKeepsSorted(s[0], Sort(s[1..], leq), leq);
      PlaceKeepsElements(s[0], Sort(s[1..], leq), leq);
      assert s == [s[0]] + s[1..];
    }
  }

  /** Lexicographic order, as sort.Strings uses. */
  predicate StringLeq(a: string, b: string)
  {
    if a == "" then true
    else if b == "" then false
    else if a[0] != b[0] then a[0] < b[0]
    else StringLeq(a[1..], b[1..])
  }

  /** A prefix comes first; otherwise the first character that differs decides, the smaller one coming first. */
  lemma {:induction false} FirstDifferenceDecides(a: string, b: string)
    ensures StringLeq(a, b) <==>
            || (|a| <= |b| && b[..|a|] == a)
            || (exists i :: 0 <= i < |a| && i < |b| && a[..i] == b[..i] && a[i] < b[i])
    decreases |a|
  {
    if a != "" && b != "" && a[0] == b[0] {
      FirstDifferenceDecides(a[1..], b[1..]);
      assert a == [a[0]] + a[1..] && b == [b[0]] + b[1..];
      assert |a| <= |b| ==> b[..|a|] == [b[0]] + b[1..][..|a| - 1];
      forall i | 0 <= i < |a| - 1 && i < |b| - 1 ensures a[..i + 1] == [a[0]] + a[1..][..i] && b[..i + 1] == [b[0]] + b[1..][..i] {
      }
      if i :| 0 <= i < |a| - 1 && i < |b| - 1 && a[1..][..i] == b[1..][..i] && a[1..][i] < b[1..][i] {
        assert a[..i + 1] == b[..i + 1] && a[i + 1] < b[i + 1];
      }
      if i :| 0 <= i < |a| && i < |b| && a[..i] == b[..i] && a[i] < b[i] {
        assert i > 0;
        assert a[1..][..i - 1] == a[..i][1..] && b[1..][..i - 1] == b[..i][1..];
      }
    }
  }

  lemma StringLeqTotal(a: string, b: string)
    ensures StringLeq(a, b) || StringLeq(b, a)
  {
  }

  lemma {:induction false} StringLeqTransitive(a: string, b: string, c: string)
    requires StringLeq(a, b) && StringLeq(b, c)
    ensures StringLeq(a, c)
  {
    if a != "" && a[0] == b[0] == c[0] {
      StringLeqTransitive(a[1..], b[1..], c[1..]);
    }
  }

  lemma StringOrder()
    ensures TotalOrder(StringLeq)
  {
    forall a, b ensures StringLeq(a, b) || StringLeq(b, a) {
      StringLeqTotal(a, b);
    }
    forall a, b, c | StringLeq(a, b) && StringLeq(b, c) ensures StringLeq(a, c) {
      StringLeqTransitive(a, b, c);
    }
  }
}
