/**
 * Generic list operations shared by the model: `Array.prototype.filter` / a Python list
 * comprehension with a condition (`Keep`), order-preserving sub-lists, sums, and the
 * first-occurrence de-duplication performed by a JavaScript `Set`.
 */
module Lists {

  /** The elements of `s` that satisfy `p`, in their original order. */
  function Keep<T>(s: seq<T>, p: T -> bool): (r: seq<T>)
    ensures |r| <= |s|
    ensures forall i :: 0 <= i < |r| ==> r[i] in s && p(r[i])
    ensures forall i :: 0 <= i < |s| && p(s[i]) ==> s[i] in r
  {
    if s == [] then [] else (if p(s[0]) then [s[0]] else []) + Keep(s[1..], p)
  }

  /**
   * Filtering drops no copy of a kept value: each value satisfying `p` occurs in the result
   * as often as in the input, and no value occurs more often than in the input.
   */
  lemma KeepCounts<T>(s: seq<T>, p: T -> bool)
    ensures multiset(Keep(s, p)) <= multiset(s)
    ensures forall i :: 0 <= i < |s| && p(s[i]) ==> multiset(Keep(s, p))[s[i]] == multiset(s)[s[i]]
  {
    forall x | x in multiset(Keep(s, p)) ensures multiset(Keep(s, p))[x] <= multiset(s)[x] {
      KeepCountOf(s, p, x);
    }
    forall i | 0 <= i < |s| && p(s[i]) ensures multiset(Keep(s, p))[s[i]] == multiset(s)[s[i]] {
      KeepCountOf(s, p, s[i]);
    }
  }

  /** Filtering never adds a copy of a value, and keeps every copy of a value satisfying `p`. */
  lemma {:induction false} KeepCountOf<T>(s: seq<T>, p: T -> bool, x: T)
    ensures multiset(Keep(s, p))[x] <= multiset(s)[x]
    ensures p(x) ==> multiset(Keep(s, p))[x] == multiset(s)[x]
  {
    if s != [] {
      var rest := Keep(s[1..], p);
      KeepCountOf(s[1..], p, x);
      assert s == [s[0]] + s[1..];
      if p(s[0]) {
        assert Keep(s, p) == [s[0]] + rest;
      } else {
        assert Keep(s, p) == rest;
      }
    }
  }

  /** `a` can be obtained from `b` by deleting elements (order is preserved). */
  ghost predicate IsSubsequence<T>(a: seq<T>, b: seq<T>)
    decreases |b|
  {
    a == [] || (b != [] && ((a[0] == b[0] && IsSubsequence(a[1..], b[1..])) || IsSubsequence(a, b[1..])))
  }

  /** Every list is a sub-list of itself. */
  lemma {:induction false} IsSubsequenceRefl<T>(s: seq<T>)
    ensures IsSubsequence(s, s)
  {
    if s != [] {
      IsSubsequenceRefl(s[1..]);
    }
  }

  /** Filtering yields an order-preserving sub-list of its input. */
  lemma {:induction false} KeepIsSubsequence<T>(s: seq<T>, p: T -> bool)
    ensures IsSubsequence(Keep(s, p), s)
  {
    if s != [] {
      KeepIsSubsequence(s[1..], p);
      if p(s[0]) {
        assert Keep(s, p) == [s[0]] + Keep(s[1..], p);
        assert Keep(s, p)[1..] == Keep(s[1..], p);
      } else {
        assert Keep(s, p) == Keep(s[1..], p);
      }
    }
  }

  /** A filter whose condition holds of every element removes nothing. */
  lemma {:induction false} KeepAll<T>(s: seq<T>, p: T -> bool)
    requires forall i :: 0 <= i < |s| ==> p(s[i])
    ensures Keep(s, p) == s
  {
    if s != [] {
      KeepAll(s[1..], p);
    }
  }

  /** Two successive filters are one filter on the conjunction of their conditions. */
  lemma {:induction false} KeepKeep<T>(s: seq<T>, p: T -> bool, q: T -> bool, both: T -> bool)
    requires forall x :: both(x) == (p(x) && q(x))
    ensures Keep(Keep(s, p), q) == Keep(s, both)
  {
    if s != [] {
      KeepKeep(s[1..], p, q, both);
      KeepAppend(if p(s[0]) then [s[0]] else [], Keep(s[1..], p), q);
    }
  }

  /** Filters on pointwise-equal conditions agree. */
  lemma {:induction false} KeepSame<T>(s: seq<T>, p: T -> bool, q: T -> bool)
    requires forall x :: p(x) == q(x)
    ensures Keep(s, p) == Keep(s, q)
  {
    if s != [] {
      KeepSame(s[1..], p, q);
    }
  }

  /** Filtering a non-empty list looks at its first element, then filters the rest. */
  lemma KeepFirst<T>(s: seq<T>, p: T -> bool)
    requires s != []
    ensures p(s[0]) ==> Keep(s, p) == [s[0]] + Keep(s[1..], p)
    ensures !p(s[0]) ==> Keep(s, p) == Keep(s[1..], p)
  {
  }

  /** The sum of `f` over the elements satisfying `p`, element by element. */
  function SumWhere<T>(s: seq<T>, p: T -> bool, f: T -> int): int {
    if s == [] then 0 else (if p(s[0]) then f(s[0]) else 0) + SumWhere(s[1..], p, f)
  }

  /** Summing element by element equals summing the filtered, mapped list. */
  lemma {:induction false} SumWhereIsSumOfKept<T>(s: seq<T>, p: T -> bool, f: T -> int)
    ensures SumWhere(s, p, f) == Sum(Map(Keep(s, p), f))
  {
    if s != [] {
      SumWhereIsSumOfKept(s[1..], p, f);
      SumKeptFirst(s, p, f);
    }
  }

  /** The sum over the kept elements of a non-empty list: its first element's share, then the rest's. */
  lemma SumKeptFirst<T>(s: seq<T>, p: T -> bool, f: T -> int)
    requires s != []
    ensures Sum(Map(Keep(s, p), f)) == (if p(s[0]) then f(s[0]) else 0) + Sum(Map(Keep(s[1..], p), f))
  {
    KeepFirst(s, p);
    var kept := Keep(s[1..], p);
    if p(s[0]) {
      MapAppend([s[0]], kept, f);
      SumAppend(Map([s[0]], f), Map(kept, f));
      assert Map([s[0]], f) == [f(s[0])];
      assert Sum([f(s[0])]) == f(s[0]);
    }
  }

  /** Filtering distributes over concatenation. */
  lemma {:induction false} KeepAppend<T>(a: seq<T>, b: seq<T>, p: T -> bool)
    ensures Keep(a + b, p) == Keep(a, p) + Keep(b, p)
  {
    if a == [] {
      assert a + b == b;
    } else {
      assert (a + b)[1..] == a[1..] + b;
      KeepAppend(a[1..], b, p);
    }
  }

  /** `f` applied to every element, in order. */
  function Map<T, U>(s: seq<T>, f: T -> U): (r: seq<U>)
    ensures |r| == |s|
    ensures forall i :: 0 <= i < |s| ==> r[i] == f(s[i])
  {
    if s == [] then [] else [f(s[0])] + Map(s[1..], f)
  }

  /** The sum of a list of integers. */
  function Sum(xs: seq<int>): int {
    if xs == [] then 0 else xs[0] + Sum(xs[1..])
  }

  lemma {:induction false} SumAppend(a: seq<int>, b: seq<int>)
    ensures Sum(a + b) == Sum(a) + Sum(b)
  {
    if a == [] {
      assert a + b == b;
    } else {
      assert (a + b)[1..] == a[1..] + b;
      SumAppend(a[1..], b);
    }
  }

  lemma {:induction false} MapAppend<T, U>(a: seq<T>, b: seq<T>, f: T -> U)
    ensures Map(a + b, f) == Map(a, f) + Map(b, f)
  {
  }

  /** No element occurs twice. */
  predicate NoDuplicates<T(==)>(s: seq<T>) {
    forall i, j :: 0 <= i < j < |s| ==> s[i] != s[j]
  }

  /**
   * The first occurrence of every element of `s`, in the order of those first
   * occurrences: the last element is listed only if it did not occur before.
   */
  function FirstOccurrences<T(==)>(s: seq<T>): seq<T> {
    if s == [] then []
    else
      var init := s[..|s| - 1];
      FirstOccurrences(init) + (if s[|s| - 1] in init then [] else [s[|s| - 1]])
  }

  /** The first occurrences hold every element of `s`, nothing else, and none twice. */
  lemma {:induction false} FirstOccurrencesSpec<T>(s: seq<T>)
    ensures forall x :: x in FirstOccurrences(s) <==> x in s
    ensures NoDuplicates(FirstOccurrences(s))
  {
    if s != [] {
      var init, last := s[..|s| - 1], s[|s| - 1];
      assert s == init + [last];
      FirstOccurrencesSpec(init);
    }
  }

  /** Appending one element to the input extends the first occurrences by it, unless it occurred already. */
  lemma FirstOccurrencesSnoc<T>(s: seq<T>, x: T)
    ensures FirstOccurrences(s + [x]) == FirstOccurrences(s) + (if x in s then [] else [x])
  {
    assert (s + [x])[..|s + [x]| - 1] == s;
  }

  /**
   * `Array.from(new Set(xs))` with `seen` already in the set: each value is appended at its
   * first insertion and ignored afterwards.
   */
  function InsertAll<T(==)>(seen: seq<T>, xs: seq<T>): seq<T>
    decreases |xs|
  {
    if xs == [] then seen
    else InsertAll(if xs[0] in seen then seen else seen + [xs[0]], xs[1..])
  }

  /** Inserting `xs` into the set built from `a` gives the first occurrences of `a + xs`. */
  lemma {:induction false} InsertAllFirstOccurrences<T>(a: seq<T>, xs: seq<T>)
    ensures InsertAll(FirstOccurrences(a), xs) == FirstOccurrences(a + xs)
    decreases |xs|
  {
    if xs == [] {
      assert a + xs == a;
    } else {
      var a' := a + [xs[0]];
      var seen := FirstOccurrences(a);
      FirstOccurrencesSpec(a);
      FirstOccurrencesSnoc(a, xs[0]);
      var next := if xs[0] in seen then seen else seen + [xs[0]];
      assert FirstOccurrences(a') == next;
      assert InsertAll(seen, xs) == InsertAll(next, xs[1..]);
      InsertAllFirstOccurrences(a', xs[1..]);
      ShiftFirst(a, xs);
    }
  }

  /** Moving the head of `xs` to the end of `a` keeps the concatenation. */
  lemma ShiftFirst<T>(a: seq<T>, xs: seq<T>)
    requires xs != []
    ensures (a + [xs[0]]) + xs[1..] == a + xs
  {
  }
}
