// The elements of a list as a set, and how the set grows with the list.

module Collections {
  function Members<T(==)>(s: seq<T>): set<T> { set x | x in s }

  lemma MembersGrow<T>(s: seq<T>, x: T)
    ensures Members(s + [x]) == Members(s) + {x}
  {
  }

  lemma Fewer<T>(a: set<T>, b: set<T>)
    requires a <= b
    ensures |a| <= |b|
  {
    assert b == a + (b - a);
  }

  lemma MembersStep<T>(base: set<T>, s: seq<T>, n: nat)
    requires n < |s|
    ensures base + Members(s[..n + 1]) == (base + Members(s[..n])) + {s[n]}
    ensures base + Members(s[..n + 1]) <= base + Members(s)
    ensures |base + Members(s[..n + 1])| <= |base + Members(s)|
  {
    assert s[..n + 1] == s[..n] + [s[n]];
    Fewer(base + Members(s[..n + 1]), base + Members(s));
  }

  // No element appears twice.
  ghost predicate Distinct<T>(s: seq<T>) { |Members(s)| == |s| }

  lemma {:induction false} DistinctMeaning<T>(s: seq<T>)
    ensures |Members(s)| <= |s|
    ensures Distinct(s) <==> forall i, j | 0 <= i < j < |s| :: s[i] != s[j]
  {
    if s != [] {
      var n := |s| - 1;
      var init := s[..n];
      DistinctMeaning(init);
      assert Members(s) == Members(init) + {s[n]};
    }
  }
}
