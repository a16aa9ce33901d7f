/**
 * The list operations every page is built from: `filter`, the "map the matching id"
 * update, removal by id, and `new Set(...)` de-duplication, together with the facts
 * about them the pages rely on (results are subsequences, counts add up).
 */
module Seqs {

  /** The elements of `s` that satisfy `p`, in their original order (`Array.prototype.filter`). */
  function Filter<T(==,!new)>(s: seq<T>, p: T -> bool): (r: seq<T>)
    ensures |r| <= |s|
    ensures forall x :: x in r <==> x in s && p(x)
  {
    if s == [] then []
    else if p(s[0]) then [s[0]] + Filter(s[1..], p)
    else Filter(s[1..], p)
  }

  /** The number of elements of `s` that satisfy `p`. */
  function Count<T>(s: seq<T>, p: T -> bool): nat {
    if s == [] then 0 else (if p(s[0]) then 1 else 0) + Count(s[1..], p)
  }

  /** Filtering keeps exactly `Count` elements. */
  lemma {:induction false} FilterCount<T(!new)>(s: seq<T>, p: T -> bool)
    ensures |Filter(s, p)| == Count(s, p)
    decreases |s|
  {
    if s != [] {
      FilterCount(s[1..], p);
    }
  }

  /** `r` is obtained from `s` by deleting elements, without reordering or inventing any. */
  predicate IsSubsequence<T(==,!new)>(r: seq<T>, s: seq<T>)
    decreases |s|
  {
    r == [] || (s != [] && ((r[0] == s[0] && IsSubsequence(r[1..], s[1..])) || IsSubsequence(r, s[1..])))
  }

  lemma {:induction false} SubsequenceReflexive<T(!new)>(s: seq<T>)
    ensures IsSubsequence(s, s)
    decreases |s|
  {
    if s != [] {
      SubsequenceReflexive(s[1..]);
    }
  }

  lemma {:induction false} SubsequenceTransitive<T(!new)>(a: seq<T>, b: seq<T>, c: seq<T>)
    requires IsSubsequence(a, b) && IsSubsequence(b, c)
    ensures IsSubsequence(a, c)
    decreases |c|
  {
    if a == [] {
    } else if IsSubsequence(b, c[1..]) {
      SubsequenceTransitive(a, b, c[1..]);
    } else {
      assert b[0] == c[0] && IsSubsequence(b[1..], c[1..]);
      if a[0] == b[0] && IsSubsequence(a[1..], b[1..]) {
        SubsequenceTransitive(a[1..], b[1..], c[1..]);
      } else {
        SubsequenceTransitive(a, b[1..], c[1..]);
      }
    }
  }

  /** A filter keeps the surviving elements in their original relative order. */
  lemma {:induction false} FilterIsSubsequence<T(!new)>(s: seq<T>, p: T -> bool)
    ensures IsSubsequence(Filter(s, p), s)
    decreases |s|
  {
    if s != [] {
      FilterIsSubsequence(s[1..], p);
      var r := Filter(s, p);
      if p(s[0]) {
        assert r[0] == s[0] && r[1..] == Filter(s[1..], p);
      }
    }
  }

  /** A filter whose predicate holds of every element returns its input unchanged. */
  lemma {:induction false} FilterKeepsAll<T(!new)>(s: seq<T>, p: T -> bool)
    requires forall x :: x in s ==> p(x)
    ensures Filter(s, p) == s
    decreases |s|
  {
    if s != [] {
      assert s[0] in s;
      assert forall x :: x in s[1..] ==> x in s;
      FilterKeepsAll(s[1..], p);
      assert s == [s[0]] + s[1..];
    }
  }

  /** Two predicates that agree on every element select the same elements. */
  lemma {:induction false} FilterSame<T(!new)>(s: seq<T>, p: T -> bool, q: T -> bool)
    requires forall x :: x in s ==> p(x) == q(x)
    ensures Filter(s, p) == Filter(s, q)
    decreases |s|
  {
    if s != [] {
      assert s[0] in s;
      assert forall x :: x in s[1..] ==> x in s;
      FilterSame(s[1..], p, q);
    }
  }

  /** A predicate and its complement split a list: their counts add up to its length. */
  lemma {:induction false} FilterComplement<T(!new)>(s: seq<T>, p: T -> bool, q: T -> bool)
    requires forall x :: x in s ==> (q(x) <==> !p(x))
    ensures |Filter(s, p)| + |Filter(s, q)| == |s|
    decreases |s|
  {
    if s != [] {
      assert s[0] in s;
      assert forall x :: x in s[1..] ==> x in s;
      FilterComplement(s[1..], p, q);
    }
  }

  /** Exactly one of three truth values holds. */
  predicate ExactlyOne(a: bool, b: bool, c: bool) {
    (a && !b && !c) || (!a && b && !c) || (!a && !b && c)
  }

  /** Three predicates that partition the elements split a list into three counts adding up to its length. */
  lemma {:induction false} FilterPartition3<T(!new)>(s: seq<T>, p: T -> bool, q: T -> bool, r: T -> bool)
    requires forall x :: x in s ==> ExactlyOne(p(x), q(x), r(x))
    ensures |Filter(s, p)| + |Filter(s, q)| + |Filter(s, r)| == |s|
    decreases |s|
  {
    if s != [] {
      assert s[0] in s;
      assert forall x :: x in s[1..] ==> x in s;
      FilterPartition3(s[1..], p, q, r);
    }
  }

  // ----- Lists of records identified by an integer key (`item.id`) -----

  /** Some element of `s` has key `k` (what `find((item) => item.id === k)` tests). */
  predicate HasKey<T>(s: seq<T>, key: T -> int, k: int) {
    exists i :: 0 <= i < |s| && key(s[i]) == k
  }

  /** No two elements of `s` share a key. */
  predicate UniqueKeys<T>(s: seq<T>, key: T -> int) {
    forall i, j :: 0 <= i < j < |s| ==> key(s[i]) != key(s[j])
  }

  /** The tail of a list with unique keys has unique keys, none of them the head's. */
  lemma UniqueKeysTail<T>(s: seq<T>, key: T -> int)
    requires UniqueKeys(s, key) && s != []
    ensures UniqueKeys(s[1..], key)
    ensures !HasKey(s[1..], key, key(s[0]))
  {
    var t := s[1..];
    forall i, j | 0 <= i < j < |t| ensures key(t[i]) != key(t[j]) {
      assert t[i] == s[i + 1] && t[j] == s[j + 1];
    }
    forall i | 0 <= i < |t| ensures key(t[i]) != key(s[0]) {
      assert t[i] == s[i + 1];
    }
  }

  /** `s.filter((x) => x.id !== k)`: every element with key `k` is dropped, the rest kept in order. */
  function WithoutKey<T(==,!new)>(s: seq<T>, key: T -> int, k: int): (r: seq<T>)
    ensures forall x :: x in r <==> x in s && key(x) != k
    ensures !HasKey(r, key, k)
  {
    var r := Filter(s, x => key(x) != k);
    assert forall i :: 0 <= i < |r| ==> r[i] in r;
    r
  }

  lemma WithoutKeyIsSubsequence<T(!new)>(s: seq<T>, key: T -> int, k: int)
    ensures IsSubsequence(WithoutKey(s, key, k), s)
  {
    FilterIsSubsequence(s, x => key(x) != k);
  }

  /** Dropping elements never creates two elements with the same key. */
  lemma {:induction false} FilterKeepsUniqueKeys<T(!new)>(s: seq<T>, p: T -> bool, key: T -> int)
    requires UniqueKeys(s, key)
    ensures UniqueKeys(Filter(s, p), key)
    decreases |s|
  {
    if s != [] {
      var t := s[1..];
      assert UniqueKeys(t, key) by {
        forall i, j | 0 <= i < j < |t| ensures key(t[i]) != key(t[j]) {
          assert t[i] == s[i + 1] && t[j] == s[j + 1];
        }
      }
      FilterKeepsUniqueKeys(t, p, key);
      if p(s[0]) {
        var r := Filter(s, p);
        assert r[1..] == Filter(t, p);
        forall j | 0 < j < |r| ensures key(r[0]) != key(r[j]) {
          assert r[j] in Filter(t, p);
          var m :| 0 <= m < |t| && t[m] == r[j];
          assert t[m] == s[m + 1];
        }
      }
    }
  }

  /** Removing a key that is not present changes nothing. */
  lemma WithoutAbsentKey<T(!new)>(s: seq<T>, key: T -> int, k: int)
    requires !HasKey(s, key, k)
    ensures WithoutKey(s, key, k) == s
  {
    forall x | x in s ensures key(x) != k {
      var i :| 0 <= i < |s| && s[i] == x;
    }
    FilterKeepsAll(s, x => key(x) != k);
  }

  /** Removing a key keeps the remaining keys unique. */
  lemma WithoutKeyKeepsUniqueKeys<T(!new)>(s: seq<T>, key: T -> int, k: int)
    requires UniqueKeys(s, key)
    ensures UniqueKeys(WithoutKey(s, key, k), key)
  {
    FilterKeepsUniqueKeys(s, x => key(x) != k, key);
  }

  /** Removing a key held by exactly one element shortens the list by one. */
  lemma {:induction false} WithoutUniqueKeyLength<T(!new)>(s: seq<T>, key: T -> int, k: int)
    requires UniqueKeys(s, key) && HasKey(s, key, k)
    ensures |WithoutKey(s, key, k)| == |s| - 1
    decreases |s|
  {
    var t := s[1..];
    assert UniqueKeys(t, key) by {
      forall i, j | 0 <= i < j < |t| ensures key(t[i]) != key(t[j]) {
        assert t[i] == s[i + 1] && t[j] == s[j + 1];
      }
    }
    if key(s[0]) == k {
      assert !HasKey(t, key, k) by {
        forall i | 0 <= i < |t| ensures key(t[i]) != k {
          assert t[i] == s[i + 1];
        }
      }
      WithoutAbsentKey(t, key, k);
    } else {
      var i :| 0 <= i < |s| && key(s[i]) == k;
      assert key(t[i - 1]) == k;
      WithoutUniqueKeyLength(t, key, k);
    }
  }

  /**
   * `s.map((x) => (x.id === k ? f(x) : x))`: every element with key `k` is replaced by
   * its image under `f`; every other element, the length and the order are unchanged.
   */
  function UpdateKey<T>(s: seq<T>, key: T -> int, k: int, f: T -> T): (r: seq<T>)
    ensures |r| == |s|
    ensures forall i :: 0 <= i < |s| ==> r[i] == if key(s[i]) == k then f(s[i]) else s[i]
  {
    if s == [] then []
    else [if key(s[0]) == k then f(s[0]) else s[0]] + UpdateKey(s[1..], key, k, f)
  }

  /** Updating a key that is not present changes nothing. */
  lemma UpdateAbsentKey<T>(s: seq<T>, key: T -> int, k: int, f: T -> T)
    requires !HasKey(s, key, k)
    ensures UpdateKey(s, key, k, f) == s
  {
  }

  /** An update that keeps keys keeps the set of keys present and their uniqueness. */
  lemma UpdateKeepsKeys<T>(s: seq<T>, key: T -> int, k: int, f: T -> T)
    requires forall x :: key(f(x)) == key(x)
    ensures forall j :: HasKey(UpdateKey(s, key, k, f), key, j) <==> HasKey(s, key, j)
    ensures UniqueKeys(s, key) ==> UniqueKeys(UpdateKey(s, key, k, f), key)
  {
    var r := UpdateKey(s, key, k, f);
    assert forall i :: 0 <= i < |s| ==> key(r[i]) == key(s[i]);
  }

  /** Applying an involution twice to the same key restores the list (toggling a flag twice). */
  lemma UpdateTwice<T>(s: seq<T>, key: T -> int, k: int, f: T -> T)
    requires forall x :: key(f(x)) == key(x) && f(f(x)) == x
    ensures UpdateKey(UpdateKey(s, key, k, f), key, k, f) == s
  {
  }

  /** `CountAfterUpdate` on `Count`, by induction on the list. */
  lemma {:induction false} CountUpdate<T>(s: seq<T>, key: T -> int, k: int, f: T -> T, p: T -> bool, i: int)
    requires UniqueKeys(s, key) && 0 <= i < |s| && key(s[i]) == k
    ensures Count(UpdateKey(s, key, k, f), p) + (if p(s[i]) then 1 else 0) == Count(s, p) + (if p(f(s[i])) then 1 else 0)
    decreases |s|
  {
    var t := s[1..];
    var r := UpdateKey(s, key, k, f);
    assert r[1..] == UpdateKey(t, key, k, f);
    UniqueKeysTail(s, key);
    if i == 0 {
      UpdateAbsentKey(t, key, k, f);
    } else {
      assert t[i - 1] == s[i];
      CountUpdate(t, key, k, f, p, i - 1);
    }
  }

  /**
   * Updating the one element with key `k` moves the count of elements satisfying `p`
   * by exactly what the update does to that element.
   */
  lemma CountAfterUpdate<T(!new)>(s: seq<T>, key: T -> int, k: int, f: T -> T, p: T -> bool, i: int)
    requires UniqueKeys(s, key) && 0 <= i < |s| && key(s[i]) == k
    ensures |Filter(UpdateKey(s, key, k, f), p)| + (if p(s[i]) then 1 else 0)
         == |Filter(s, p)| + (if p(f(s[i])) then 1 else 0)
  {
    FilterCount(s, p);
    FilterCount(UpdateKey(s, key, k, f), p);
    CountUpdate(s, key, k, f, p, i);
  }

  /** `[...new Set(s)]`: each distinct element once, in order of first occurrence. */
  function Distinct<T(==,!new)>(s: seq<T>): (r: seq<T>)
    ensures forall x :: x in r <==> x in s
    ensures forall i, j :: 0 <= i < j < |r| ==> r[i] != r[j]
    decreases |s|
  {
    if s == [] then []
    else
      var init := s[..|s| - 1];
      var d := Distinct(init);
      assert forall x :: x in s <==> x in init || x == s[|s| - 1] by {
        assert s == init + [s[|s| - 1]];
      }
      if s[|s| - 1] in d then d else d + [s[|s| - 1]]
  }
}
