/**
 * Python's `sorted(xs, key=...)` / `xs.sort(key=...)`: a stable sort that
 * only asks `<` of the keys. It is modelled as an insertion sort that puts
 * each element in front of the first later-sorted element it is not
 * strictly greater than, which keeps equal elements in input order.
 */
module Sorting {

  /** `lt` never holds both ways between two elements of `s`. */
  ghost predicate AsymmetricOn<T>(s: seq<T>, lt: (T, T) -> bool) {
    forall x, y :: x in s && y in s && lt(x, y) ==> !lt(y, x)
  }

  /** No element is strictly less than the one before it. */
  ghost predicate Ordered<T>(r: seq<T>, lt: (T, T) -> bool) {
    forall i :: 1 <= i < |r| ==> !lt(r[i], r[i - 1])
  }

  function Insert<T>(x: T, r: seq<T>, lt: (T, T) -> bool): (out: seq<T>)
    ensures multiset(out) == multiset(r) + multiset{x}
    ensures |out| == |r| + 1
    ensures out[0] == x || (|r| > 0 && out[0] == r[0])
  {
    if r == [] || !lt(r[0], x) then [x] + r
    else
      assert r == [r[0]] + r[1..];
      [r[0]] + Insert(x, r[1..], lt)
  }

  /** The stable sort of `s` under `lt`. */
  function SortWith<T>(s: seq<T>, lt: (T, T) -> bool): (r: seq<T>)
    ensures multiset(r) == multiset(s)
    ensures |r| == |s|
  {
    if s == [] then []
    else
      assert s == [s[0]] + s[1..];
      Insert(s[0], SortWith(s[1..], lt), lt)
  }

  lemma {:induction false} InsertOrdered<T>(x: T, r: seq<T>, lt: (T, T) -> bool)
    requires Ordered(r, lt)
    requires AsymmetricOn(r + [x], lt)
    ensures Ordered(Insert(x, r, lt), lt)
  {
    if r == [] || !lt(r[0], x) {
    } else {
      var tail := r[1..];
      assert Ordered(tail, lt) by {
        forall i | 1 <= i < |tail| ensures !lt(tail[i], tail[i - 1]) {
          assert tail[i] == r[i + 1] && tail[i - 1] == r[i];
        }
      }
      assert AsymmetricOn(tail + [x], lt) by {
        forall y | y in tail + [x] ensures y in r + [x] {
          if y in tail { assert y in r; }
        }
      }
      InsertOrdered(x, tail, lt);
      var rest := Insert(x, tail, lt);
      assert r[0] in r + [x] && x in r + [x];
      assert !lt(rest[0], r[0]) by {
        if rest[0] == x {
        } else {
          assert rest[0] == r[1];
        }
      }
    }
  }

  /** The sort is a permutation of its input that is ordered whenever `lt` is asymmetric. */
  lemma {:induction false} SortOrdered<T>(s: seq<T>, lt: (T, T) -> bool)
    requires AsymmetricOn(s, lt)
    ensures Ordered(SortWith(s, lt), lt)
  {
    if s != [] {
      var rest := s[1..];
      assert AsymmetricOn(rest, lt) by {
        forall y | y in rest ensures y in s { }
      }
      SortOrdered(rest, lt);
      var sorted := SortWith(rest, lt);
      assert AsymmetricOn(sorted + [s[0]], lt) by {
        forall y | y in sorted + [s[0]] ensures y in s {
          if y in sorted {
            assert y in multiset(sorted);
            assert y in multiset(rest);
            assert y in rest;
          }
        }
      }
      InsertOrdered(s[0], sorted, lt);
    }
  }

  // ---- sorting by a real-valued key, as `key=lambda x: ...` does ----

  function KeyLess<T>(key: T -> real): (T, T) -> bool {
    (a: T, b: T) => key(a) < key(b)
  }

  /** The index of the first element with the least key. */
  function FirstMin<T>(s: seq<T>, key: T -> real): (k: nat)
    requires |s| > 0
    ensures k < |s|
    ensures forall j :: 0 <= j < |s| ==> key(s[k]) <= key(s[j])
    ensures forall j :: 0 <= j < k ==> key(s[k]) < key(s[j])
  {
    if |s| == 1 then 0
    else
      var k := FirstMin(s[1..], key) + 1;
      assert forall j :: 1 <= j < |s| ==> s[j] == s[1..][j - 1];
      if key(s[0]) <= key(s[k]) then 0 else k
  }

  /** `sorted(s, key=key)[0]` is the first element of `s` whose key is least. */
  lemma {:induction false} SortByKeyHead<T>(s: seq<T>, key: T -> real)
    requires |s| > 0
    ensures SortWith(s, KeyLess(key))[0] == s[FirstMin(s, key)]
  {
    if |s| > 1 {
      var rest := s[1..];
      SortByKeyHead(rest, key);
      var sorted := SortWith(rest, KeyLess(key));
      assert sorted[0] == s[FirstMin(rest, key) + 1];
    }
  }

  /** Sorting by a real key puts the keys in non-decreasing order. */
  lemma SortByKeyOrdered<T>(s: seq<T>, key: T -> real)
    ensures forall i, j :: 0 <= i < j < |SortWith(s, KeyLess(key))| ==>
      key(SortWith(s, KeyLess(key))[i]) <= key(SortWith(s, KeyLess(key))[j])
  {
    var lt := KeyLess(key);
    SortOrdered(s, lt);
    var r := SortWith(s, lt);
    forall i, j | 0 <= i < j < |r| ensures key(r[i]) <= key(r[j]) {
      AdjacentToGlobal(r, key, i, j);
    }
  }

  lemma {:induction false} AdjacentToGlobal<T>(r: seq<T>, key: T -> real, i: nat, j: nat)
    requires Ordered(r, KeyLess(key))
    requires i <= j < |r|
    ensures key(r[i]) <= key(r[j])
    decreases j - i
  {
    if i < j {
      AdjacentToGlobal(r, key, i, j - 1);
      assert !KeyLess(key)(r[j], r[j - 1]);
    }
  }

  /** A sequence already in key order is left as it is. */
  lemma {:induction false} SortByKeyIdentity<T>(s: seq<T>, key: T -> real)
    requires forall i, j :: 0 <= i < j < |s| ==> key(s[i]) <= key(s[j])
    ensures SortWith(s, KeyLess(key)) == s
  {
    if s != [] {
      var rest := s[1..];
      SortByKeyIdentity(rest, key);
      assert SortWith(rest, KeyLess(key)) == rest;
      if rest != [] {
        assert !KeyLess(key)(rest[0], s[0]);
      }
      assert [s[0]] + rest == s;
    }
  }
}
