/**
 * Python's list.remove on the model's sequences: the first occurrence of a
 * value is deleted and the rest keep their order; a missing value leaves the
 * list as it was (every call site removes an element that is present).
 */
module Lists {
  /** The position of the first occurrence of x (list.index). */
  function IndexOf<T(==)>(s: seq<T>, x: T): (i: nat)
    requires x in s
    ensures i < |s| && s[i] == x && x !in s[..i]
  {
    if s[0] == x then 0
    else
      var j := IndexOf(s[1..], x);
      assert s[..j + 1] == [s[0]] + s[1..][..j];
      j + 1
  }

  function RemoveFirst<T(==)>(s: seq<T>, x: T): (r: seq<T>)
    ensures x !in s ==> r == s
    ensures x in s ==> |r| == |s| - 1
  {
    if x in s then
      var i := IndexOf(s, x);
      s[..i] + s[i + 1..]
    else s
  }

  /** Removal takes away exactly one copy of a present value and nothing else. */
  lemma RemoveFirstMultiset<T>(s: seq<T>, x: T)
    ensures multiset(RemoveFirst(s, x)) == multiset(s) - multiset{x}
  {
    if x in s {
      var i := IndexOf(s, x);
      assert s == s[..i] + [x] + s[i + 1..];
    }
  }

  /** No value occurs twice. */
  predicate NoDuplicates<T(==)>(s: seq<T>)
  {
    forall a, b :: 0 <= a < b < |s| ==> s[a] != s[b]
  }

  /** Removal keeps every other value and adds none. */
  lemma RemoveFirstMembers<T>(s: seq<T>, x: T, y: T)
    requires y != x
    ensures y in RemoveFirst(s, x) <==> y in s
  {
    if x in s {
      var i := IndexOf(s, x);
      assert s == s[..i] + [x] + s[i + 1..];
      assert y in s <==> y in s[..i] || y in s[i + 1..];
    }
  }

  /** The element at k after deleting position i is the original element k, or k + 1 past the gap. */
  lemma DeleteShifts<T>(s: seq<T>, i: nat, k: nat)
    requires i < |s| && k < |s| - 1
    ensures (s[..i] + s[i + 1..])[k] == s[if k < i then k else k + 1]
  {
  }

  /** Removing from a list without duplicates leaves no copy of the value and keeps the list duplicate-free. */
  lemma RemoveFirstFromDistinct<T>(s: seq<T>, x: T)
    requires NoDuplicates(s)
    ensures x !in RemoveFirst(s, x)
    ensures NoDuplicates(RemoveFirst(s, x))
  {
    if x in s {
      var i := IndexOf(s, x);
      var r := RemoveFirst(s, x);
      forall a, b | 0 <= a < b < |r|
        ensures r[a] != r[b]
      {
        DeleteShifts(s, i, a);
        DeleteShifts(s, i, b);
      }
      forall k | 0 <= k < |r|
        ensures r[k] != x
      {
        DeleteShifts(s, i, k);
      }
    }
  }

  /** A list comprehension that keeps every element different from x, in order. */
  function Without<T(==)>(s: seq<T>, x: T): (r: seq<T>)
    ensures |r| <= |s|
    ensures forall k :: 0 <= k < |r| ==> r[k] != x
  {
    if s == [] then []
    else
      var init := s[..|s| - 1];
      var last := s[|s| - 1];
      Without(init, x) + (if last == x then [] else [last])
  }

  /** The filter keeps exactly the elements different from x. */
  lemma {:induction false} WithoutMembers<T>(s: seq<T>, x: T, y: T)
    ensures y in Without(s, x) <==> y in s && y != x
  {
    if s != [] {
      var init := s[..|s| - 1];
      WithoutMembers(init, x, y);
      assert s == init + [s[|s| - 1]];
    }
  }

  lemma {:induction false} WithoutAbsent<T>(s: seq<T>, x: T)
    requires x !in s
    ensures Without(s, x) == s
  {
    if s != [] {
      WithoutAbsent(s[..|s| - 1], x);
    }
  }

  /** Without duplicates, filtering out the element at t is deleting position t. */
  lemma {:induction false} WithoutAt<T>(s: seq<T>, t: nat)
    requires NoDuplicates(s) && t < |s|
    ensures Without(s, s[t]) == s[..t] + s[t + 1..]
  {
    var init := s[..|s| - 1];
    var last := s[|s| - 1];
    if t == |s| - 1 {
      WithoutAbsent(init, s[t]);
    } else {
      assert init[t] == s[t];
      WithoutAt(init, t);
      assert init[..t] == s[..t];
      assert init[t + 1..] + [last] == s[t + 1..];
    }
  }

  /** Filtering keeps a duplicate-free list duplicate-free. */
  lemma {:induction false} WithoutKeepsDistinct<T>(s: seq<T>, x: T)
    requires NoDuplicates(s)
    ensures NoDuplicates(Without(s, x))
  {
    if s != [] {
      var init := s[..|s| - 1];
      var last := s[|s| - 1];
      assert NoDuplicates(init);
      WithoutKeepsDistinct(init, x);
      assert last !in init;
      var w := Without(init, x);
      WithoutMembers(init, x, last);
      var r := w + (if last == x then [] else [last]);
      forall a, b | 0 <= a < b < |r|
        ensures r[a] != r[b]
      {
        if b == |w| {
          assert r[a] == w[a];
        }
      }
    }
  }
}
