// Sorting followed by removal of adjacent duplicates, as the settings and
// provider code applies it to every list it normalizes.

module Sorting {
  ghost predicate TotalOrder<T(!new)>(less: (T, T) -> bool) {
    && (forall a :: !less(a, a))
    && (forall a, b :: a == b || less(a, b) || less(b, a))
    && (forall a, b, c :: less(a, b) && less(b, c) ==> less(a, c))
  }

  ghost predicate Strict<T>(s: seq<T>, less: (T, T) -> bool) {
    forall i, j | 0 <= i < j < |s| :: less(s[i], s[j])
  }

  function Insert<T(==)>(x: T, s: seq<T>, less: (T, T) -> bool): seq<T> {
    if s == [] || less(x, s[0]) then [x] + s
    else if x == s[0] then s
    else [s[0]] + Insert(x, s[1..], less)
  }

  function SortCompact<T(==)>(s: seq<T>, less: (T, T) -> bool): seq<T> {
    if s == [] then [] else Insert(s[0], SortCompact(s[1..], less), less)
  }

  lemma {:induction false} InsertMeaning<T(!new)>(x: T, s: seq<T>, less: (T, T) -> bool)
    requires TotalOrder(less) && Strict(s, less)
    ensures Strict(Insert(x, s, less), less)
    ensures forall y :: y in Insert(x, s, less) <==> y == x || y in s
    ensures |Insert(x, s, less)| <= |s| + 1
  {
    if s != [] && !less(x, s[0]) && x != s[0] {
      InsertMeaning(x, s[1..], less);
      assert forall y | y in s[1..] :: less(s[0], y);
    } else if s != [] && x != s[0] {
      forall j | 0 < j < |s| ensures less(x, s[j]) { assert less(s[0], s[j]); }
    }
  }

  // The result is strictly ordered, has the same elements and is no longer.
  lemma {:induction false} SortCompactMeaning<T(!new)>(s: seq<T>, less: (T, T) -> bool)
    requires TotalOrder(less)
    ensures Strict(SortCompact(s, less), less)
    ensures forall y :: y in SortCompact(s, less) <==> y in s
    ensures |SortCompact(s, less)| <= |s|
  {
    if s != [] {
      SortCompactMeaning(s[1..], less);
      InsertMeaning(s[0], SortCompact(s[1..], less), less);
    }
  }

  lemma HeadIsLeast<T(!new)>(s: seq<T>, x: T, less: (T, T) -> bool)
    requires s != [] && Strict(s, less) && x in s
    ensures x == s[0] || less(s[0], x)
  {
  }

  // Strict order and contents determine the list.
  lemma {:induction false} StrictUnique<T(!new)>(a: seq<T>, b: seq<T>, less: (T, T) -> bool)
    requires TotalOrder(less) && Strict(a, less) && Strict(b, less)
    requires forall y :: y in a <==> y in b
    ensures a == b
  {
    assert a != [] ==> a[0] in b;
    assert b != [] ==> b[0] in a;
    if a != [] {
      HeadIsLeast(a, b[0], less);
      HeadIsLeast(b, a[0], less);
      assert a[0] == b[0];
      forall y ensures y in a[1..] <==> y in b[1..] {
        assert y in a <==> y == a[0] || y in a[1..];
        assert y in b <==> y == b[0] || y in b[1..];
        if y in a[1..] { assert less(a[0], y); }
        if y in b[1..] { assert less(b[0], y); }
      }
      StrictUnique(a[1..], b[1..], less);
    }
  }

  // Byte order of UTF-8 text is the order of its code points.
  predicate TextLess(a: string, b: string) {
    b != [] && (a == [] || a[0] < b[0] || (a[0] == b[0] && TextLess(a[1..], b[1..])))
  }

  lemma {:induction false} TextLessTransitive(a: string, b: string, c: string)
    requires TextLess(a, b) && TextLess(b, c)
    ensures TextLess(a, c)
  {
    if a != [] && a[0] == b[0] && b[0] == c[0] { TextLessTransitive(a[1..], b[1..], c[1..]); }
  }

  lemma {:induction false} TextLessConnected(a: string, b: string)
    ensures a == b || TextLess(a, b) || TextLess(b, a)
    ensures !TextLess(a, a)
  {
    if a != [] {
      TextLessConnected(a[1..], if b == [] then [] else b[1..]);
      if b != [] && a[0] == b[0] && a[1..] == b[1..] { assert a == [a[0]] + a[1..] && b == [b[0]] + b[1..]; }
    }
  }

  lemma TextOrder()
    ensures TotalOrder(TextLess)
  {
    forall a, b ensures a == b || TextLess(a, b) || TextLess(b, a) { TextLessConnected(a, b); }
    forall a ensures !TextLess(a, a) { TextLessConnected(a, a); }
    forall a, b, c | TextLess(a, b) && TextLess(b, c) ensures TextLess(a, c) { TextLessTransitive(a, b, c); }
  }
}
