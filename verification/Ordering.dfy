/** Python's `sorted` on strings and on lists of strings: lexicographic order, insertion sort, and the fact that a
    strictly sorted sequence is determined by its set. */
module Ordering {

  /** `leq` is a total order. */
  ghost predicate TotalOrder<T(!new)>(leq: (T, T) -> bool) {
    && (forall a, b :: leq(a, b) || leq(b, a))
    && (forall a, b :: leq(a, b) && leq(b, a) ==> a == b)
    && (forall a, b, c :: leq(a, b) && leq(b, c) ==> leq(a, c))
  }

  /** Lexicographic order on sequences whose elements are ordered by `leq`. */
  predicate Lex<T(==)>(leq: (T, T) -> bool, a: seq<T>, b: seq<T>) {
    if a == [] then true
    else if b == [] then false
    else if a[0] == b[0] then Lex(leq, a[1..], b[1..])
    else leq(a[0], b[0])
  }

  predicate IntLeq(a: int, b: int) { a <= b }

  predicate CharLeq(a: char, b: char) { a <= b }

  predicate StringLeq(a: string, b: string) { Lex(CharLeq, a, b) }

  predicate ListLeq(a: seq<string>, b: seq<string>) { Lex(StringLeq, a, b) }

  lemma {:induction false} LexTotal<T(!new)>(leq: (T, T) -> bool, a: seq<T>, b: seq<T>)
    requires TotalOrder(leq)
    ensures Lex(leq, a, b) || Lex(leq, b, a)
  {
    if a != [] && b != [] && a[0] == b[0] {
      LexTotal(leq, a[1..], b[1..]);
    }
  }

  lemma {:induction false} LexAntisymmetric<T(!new)>(leq: (T, T) -> bool, a: seq<T>, b: seq<T>)
    requires TotalOrder(leq) && Lex(leq, a, b) && Lex(leq, b, a)
    ensures a == b
  {
    if a != [] && b != [] {
      if a[0] == b[0] {
        LexAntisymmetric(leq, a[1..], b[1..]);
        assert a == [a[0]] + a[1..] && b == [b[0]] + b[1..];
      }
    }
  }

  lemma {:induction false} LexTransitive<T(!new)>(leq: (T, T) -> bool, a: seq<T>, b: seq<T>, c: seq<T>)
    requires TotalOrder(leq) && Lex(leq, a, b) && Lex(leq, b, c)
    ensures Lex(leq, a, c)
  {
    if a != [] && b != [] && c != [] {
      if a[0] == b[0] == c[0] {
        LexTransitive(leq, a[1..], b[1..], c[1..]);
      }
    }
  }

  /** Lexicographic order in one step: a prefix comes first, else the first difference decides. */
  lemma {:induction false} LexMeans<T>(leq: (T, T) -> bool, a: seq<T>, b: seq<T>)
    ensures Lex(leq, a, b) <==>
            || a <= b
            || exists k :: 0 <= k < |a| && k < |b| && a[..k] == b[..k] && a[k] != b[k] && leq(a[k], b[k])
  {
    if a != [] && b != [] && a[0] == b[0] {
      var x, y := a[1..], b[1..];
      LexMeans(leq, x, y);
      assert a == [a[0]] + x && b == [b[0]] + y;
      if k :| 0 <= k < |x| && k < |y| && x[..k] == y[..k] && x[k] != y[k] && leq(x[k], y[k]) {
        assert a[..k + 1] == [a[0]] + x[..k] && b[..k + 1] == [b[0]] + y[..k];
        assert a[k + 1] == x[k] && b[k + 1] == y[k];
      }
      if k :| 0 <= k < |a| && k < |b| && a[..k] == b[..k] && a[k] != b[k] && leq(a[k], b[k]) {
        assert k > 0 && x[..k - 1] == a[..k][1..] && y[..k - 1] == b[..k][1..];
        assert x[k - 1] == a[k] && y[k - 1] == b[k];
      }
      assert a <= b <==> x <= y;
    } else if a != [] && b != [] {
      assert a[..0] == b[..0];
    }
  }

  /** Strings compare by code point. */
  lemma StringLeqMeans(a: string, b: string)
    ensures StringLeq(a, b) <==>
              a <= b || exists k :: 0 <= k < |a| && k < |b| && a[..k] == b[..k] && a[k] as int < b[k] as int
  {
    LexMeans(CharLeq, a, b);
    hide Lex;
  }

  lemma StringOrder()
    ensures TotalOrder(StringLeq)
  {
    assert TotalOrder(CharLeq);
    forall a, b ensures StringLeq(a, b) || StringLeq(b, a) { LexTotal(CharLeq, a, b); }
    forall a, b | StringLeq(a, b) && StringLeq(b, a) ensures a == b { LexAntisymmetric(CharLeq, a, b); }
    forall a, b, c | StringLeq(a, b) && StringLeq(b, c) ensures StringLeq(a, c) { LexTransitive(CharLeq, a, b, c); }
  }

  lemma ListOrder()
    ensures TotalOrder(ListLeq)
  {
    StringOrder();
    forall a, b ensures ListLeq(a, b) || ListLeq(b, a) { LexTotal(StringLeq, a, b); }
    forall a, b | ListLeq(a, b) && ListLeq(b, a) ensures a == b { LexAntisymmetric(StringLeq, a, b); }
    forall a, b, c | ListLeq(a, b) && ListLeq(b, c) ensures ListLeq(a, c) { LexTransitive(StringLeq, a, b, c); }
  }

  function Elements<T(==)>(s: seq<T>): set<T> { set x | x in s }

  predicate Distinct<T(==)>(s: seq<T>) { forall i, j :: 0 <= i < j < |s| ==> s[i] != s[j] }

  predicate Ascending<T>(leq: (T, T) -> bool, s: seq<T>) {
    forall i, j :: 0 <= i < j < |s| ==> leq(s[i], s[j])
  }

  function Insert<T(==)>(leq: (T, T) -> bool, x: T, s: seq<T>): seq<T> {
    if s == [] || leq(x, s[0]) then [x] + s else [s[0]] + Insert(leq, x, s[1..])
  }

  /** The library function `sorted`. */
  function Sort<T(==)>(leq: (T, T) -> bool, s: seq<T>): seq<T> {
    if s == [] then [] else Insert(leq, s[0], Sort(leq, s[1..]))
  }

  lemma AscendingCons<T(!new)>(leq: (T, T) -> bool, x: T, s: seq<T>)
    requires Ascending(leq, s) && forall k :: 0 <= k < |s| ==> leq(x, s[k])
    ensures Ascending(leq, [x] + s)
  {
  }

  lemma {:induction false} InsertContents<T>(leq: (T, T) -> bool, x: T, s: seq<T>)
    ensures multiset(Insert(leq, x, s)) == multiset(s) + multiset{x}
  {
    if s == [] || leq(x, s[0]) {
      assert multiset([x] + s) == multiset{x} + multiset(s);
    } else {
      InsertContents(leq, x, s[1..]);
      assert s == [s[0]] + s[1..];
    }
  }

  lemma {:induction false} InsertKeeps<T(!new)>(leq: (T, T) -> bool, x: T, s: seq<T>)
    requires TotalOrder(leq) && Ascending(leq, s)
    ensures Ascending(leq, Insert(leq, x, s))
    ensures multiset(Insert(leq, x, s)) == multiset(s) + multiset{x}
  {
    InsertContents(leq, x, s);
    if s == [] || leq(x, s[0]) {
      AscendingCons(leq, x, s);
    } else {
      var rest := Insert(leq, x, s[1..]);
      InsertKeeps(leq, x, s[1..]);
      forall k | 0 <= k < |rest| ensures leq(s[0], rest[k]) {
        assert rest[k] in multiset(rest);
        assert rest[k] == x || rest[k] in s[1..];
      }
      AscendingCons(leq, s[0], rest);
    }
  }

  lemma {:induction false} SortSorts<T(!new)>(leq: (T, T) -> bool, s: seq<T>)
    requires TotalOrder(leq)
    ensures Ascending(leq, Sort(leq, s)) && multiset(Sort(leq, s)) == multiset(s)
  {
    if s != [] {
      SortSorts(leq, s[1..]);
      InsertKeeps(leq, s[0], Sort(leq, s[1..]));
      assert s == [s[0]] + s[1..];
    }
  }

  lemma SameElements<T>(a: seq<T>, b: seq<T>)
    requires multiset(a) == multiset(b)
    ensures |a| == |b| && Elements(a) == Elements(b)
    ensures forall x :: x in a <==> x in b
  {
    assert |multiset(a)| == |a| && |multiset(b)| == |b|;
    forall x ensures x in a <==> x in b { assert x in multiset(a) <==> x in multiset(b); }
  }

  lemma {:induction false} DistinctCounts<T>(s: seq<T>)
    ensures Distinct(s) <==> forall x :: x in s ==> multiset(s)[x] == 1
  {
    if s == [] {
    } else {
      var t := s[1..];
      assert s == [s[0]] + t;
      assert multiset(s) == multiset{s[0]} + multiset(t);
      DistinctCounts(t);
      if Distinct(s) {
        assert Distinct(t);
        assert s[0] !in t;
        forall x | x in s ensures multiset(s)[x] == 1 {
          if x == s[0] { assert multiset(t)[x] == 0; } else { assert x in t; }
        }
      }
      if forall x :: x in s ==> multiset(s)[x] == 1 {
        assert multiset(s)[s[0]] == 1;
        assert s[0] !in multiset(t);
        forall x | x in t ensures multiset(t)[x] == 1 { assert x in s; assert x != s[0]; }
      }
    }
  }

  /** Sorting keeps elements and distinctness. */
  lemma SortKeeps<T(!new)>(leq: (T, T) -> bool, s: seq<T>)
    requires TotalOrder(leq)
    ensures Ascending(leq, Sort(leq, s)) && Elements(Sort(leq, s)) == Elements(s) && |Sort(leq, s)| == |s|
    ensures forall x :: x in Sort(leq, s) <==> x in s
    ensures Distinct(s) <==> Distinct(Sort(leq, s))
  {
    SortSorts(leq, s);
    SameElements(Sort(leq, s), s);
    DistinctCounts(s);
    DistinctCounts(Sort(leq, s));
  }

  /** A distinct ascending sequence is determined by its elements. */
  lemma {:induction false} SortedUnique<T(!new)>(leq: (T, T) -> bool, a: seq<T>, b: seq<T>)
    requires TotalOrder(leq) && Ascending(leq, a) && Ascending(leq, b) && Distinct(a) && Distinct(b)
    requires forall x :: x in a <==> x in b
    ensures a == b
  {
    assert a != [] ==> a[0] in b;
    assert b != [] ==> b[0] in a;
    if a != [] {
      assert leq(a[0], b[0]);
      assert leq(b[0], a[0]);
      forall x ensures x in a[1..] <==> x in b[1..] {
        assert a == [a[0]] + a[1..] && b == [b[0]] + b[1..];
        assert x in a <==> x in b;
      }
      SortedUnique(leq, a[1..], b[1..]);
      assert a == [a[0]] + a[1..] && b == [b[0]] + b[1..];
    }
  }

  lemma {:induction false} DistinctSize<T>(s: seq<T>)
    requires Distinct(s)
    ensures |Elements(s)| == |s|
  {
    if s != [] {
      var n := |s| - 1;
      DistinctSize(s[..n]);
      assert Elements(s) == Elements(s[..n]) + {s[n]};
      assert s[n] !in Elements(s[..n]);
    }
  }
}
