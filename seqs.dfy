/**
 * The array methods the code uses on record sequences — `filter`,
 * `findIndex`/`find`, and a stable descending `sort` — as functions with
 * their defining properties.
 */
module Seqs {
  import opened Values

  /** `s.filter(p)`: the elements satisfying p, in their original order. */
  function Filter<T>(s: seq<T>, p: T -> bool): (r: seq<T>)
    ensures |r| <= |s|
    ensures forall i :: 0 <= i < |r| ==> p(r[i])
  {
    if s == [] then [] else (if p(s[0]) then [s[0]] else []) + Filter(s[1..], p)
  }

  /** Filtering distributes over concatenation, so it keeps relative order. */
  lemma {:induction false} FilterConcat<T>(s: seq<T>, t: seq<T>, p: T -> bool)
    ensures Filter(s + t, p) == Filter(s, p) + Filter(t, p)
  {
    if s == [] {
      assert s + t == t;
    } else {
      assert (s + t)[1..] == s[1..] + t;
      FilterConcat(s[1..], t, p);
    }
  }

  /** Filtering keeps exactly the elements satisfying p. */
  lemma {:induction false} FilterMembers<T>(s: seq<T>, p: T -> bool, x: T)
    ensures x in Filter(s, p) <==> x in s && p(x)
  {
    if s != [] {
      FilterMembers(s[1..], p, x);
      assert s == [s[0]] + s[1..];
    }
  }

  /** Nothing is dropped from a sequence whose elements all satisfy p. */
  lemma {:induction false} FilterAll<T>(s: seq<T>, p: T -> bool)
    requires forall i :: 0 <= i < |s| ==> p(s[i])
    ensures Filter(s, p) == s
  {
    if s != [] {
      FilterAll(s[1..], p);
    }
  }

  /** Filtering twice with the same predicate is filtering once. */
  lemma FilterIdempotent<T>(s: seq<T>, p: T -> bool)
    ensures Filter(Filter(s, p), p) == Filter(s, p)
  {
    FilterAll(Filter(s, p), p);
  }

  /** Nothing survives when no element satisfies p. */
  lemma {:induction false} FilterNone<T>(s: seq<T>, p: T -> bool)
    requires forall i :: 0 <= i < |s| ==> !p(s[i])
    ensures Filter(s, p) == []
  {
    if s != [] {
      FilterNone(s[1..], p);
    }
  }

  /** `s.findIndex(p)`: the first index whose element satisfies p, or None (-1). */
  function FirstIndex<T>(s: seq<T>, p: T -> bool): (r: Option<nat>)
    ensures r.Some? ==> r.value < |s| && p(s[r.value])
    ensures r.Some? ==> forall j :: 0 <= j < r.value ==> !p(s[j])
    ensures r.None? ==> forall j :: 0 <= j < |s| ==> !p(s[j])
  {
    if s == [] then None
    else if p(s[0]) then Some(0)
    else match FirstIndex(s[1..], p)
      case None => None
      case Some(i) => Some(i + 1)
  }

  /** Appending a match to a sequence without one makes the appended element the first match. */
  lemma FirstIndexAppend<T>(s: seq<T>, x: T, p: T -> bool)
    requires FirstIndex(s, p).None?
    requires p(x)
    ensures FirstIndex(s + [x], p) == Some(|s|)
  {
    assert (s + [x])[|s|] == x;
  }

  /** `s.find(p)`: the first element satisfying p, or None (`undefined`). */
  function Find<T>(s: seq<T>, p: T -> bool): (r: Option<T>)
    ensures r.None? <==> FirstIndex(s, p).None?
    ensures r.Some? ==> r.value == s[FirstIndex(s, p).value]
  {
    match FirstIndex(s, p)
    case None => None
    case Some(i) => Some(s[i])
  }

  // ---------------------------------------------------------------------------
  // `s.sort((a, b) => key(b) - key(a))`: order by key, largest first. Both
  // JavaScript's sort and this insertion sort are stable; the contracts below
  // state the order and the permutation only.

  predicate Descending<T>(s: seq<T>, key: T -> int) {
    forall i, j :: 0 <= i < j < |s| ==> key(s[i]) >= key(s[j])
  }

  /** Put x in front of the first element whose key is not larger than x's. */
  function Insert<T>(x: T, s: seq<T>, key: T -> int): (r: seq<T>)
    requires Descending(s, key)
    ensures Descending(r, key)
    ensures multiset(r) == multiset(s) + multiset{x}
    ensures |r| == |s| + 1
    ensures r[0] == x || (|s| > 0 && r[0] == s[0])
  {
    if s == [] then [x]
    else if key(s[0]) <= key(x) then [x] + s
    else
      var rest := Insert(x, s[1..], key);
      assert s == [s[0]] + s[1..];
      assert key(s[0]) >= key(rest[0]);
      DescendingCons(s[0], rest, key);
      [s[0]] + rest
  }

  /** A head no smaller than the first of a descending tail keeps it descending. */
  lemma DescendingCons<T>(h: T, t: seq<T>, key: T -> int)
    requires Descending(t, key) && (|t| > 0 ==> key(h) >= key(t[0]))
    ensures Descending([h] + t, key)
  {
    var r := [h] + t;
    forall i, j | 0 <= i < j < |r| ensures key(r[i]) >= key(r[j]) {
      if i == 0 {
        assert r[j] == t[j - 1];
        if j > 1 {
          assert key(t[0]) >= key(t[j - 1]);
        }
      } else {
        assert r[i] == t[i - 1] && r[j] == t[j - 1];
      }
    }
  }

  /** A stable insertion sort, largest key first. */
  function SortDescending<T>(s: seq<T>, key: T -> int): (r: seq<T>)
    ensures Descending(r, key)
    ensures multiset(r) == multiset(s)
    ensures |r| == |s|
  {
    if s == [] then []
    else
      assert s == [s[0]] + s[1..];
      Insert(s[0], SortDescending(s[1..], key), key)
  }

  /** `s.slice(0, n)`. */
  function Take<T>(s: seq<T>, n: nat): (r: seq<T>)
    ensures |r| == if |s| < n then |s| else n
    ensures r <= s
  {
    if |s| <= n then s else s[..n]
  }

  /** A member of a prefix is a member of the whole. */
  lemma PrefixMember<T>(p: seq<T>, s: seq<T>, x: T)
    requires p <= s && x in p
    ensures x in s
  {
    var i :| 0 <= i < |p| && p[i] == x;
    assert s[i] == x;
  }

  /** Sequences with the same multiset have the same members. */
  lemma PermutationMember<T>(a: seq<T>, b: seq<T>, x: T)
    requires multiset(a) == multiset(b) && x in a
    ensures x in b
  {
    assert x in multiset(a);
  }

  /** In a descending sequence, an element outside the first n scores no more than any of them. */
  lemma DescendingPrefixIsTop<T>(s: seq<T>, n: nat, x: T, key: T -> int)
    requires Descending(s, key) && n <= |s|
    requires x in multiset(s) - multiset(s[..n])
    ensures forall i :: 0 <= i < n ==> key(x) <= key(s[i])
  {
    assert s == s[..n] + s[n..];
    assert multiset(s) == multiset(s[..n]) + multiset(s[n..]);
    assert x in multiset(s[n..]);
    var j :| n <= j < |s| && s[j] == x;
  }

  /** An element of s left out of a prefix of s sorted descending scores no more than anything in that prefix. */
  lemma PrefixOfSortedIsTop<T>(s: seq<T>, sorted: seq<T>, top: seq<T>, x: T, key: T -> int)
    requires multiset(sorted) == multiset(s) && Descending(sorted, key) && top <= sorted
    requires x in multiset(s) - multiset(top)
    ensures forall i :: 0 <= i < |top| ==> key(x) <= key(top[i])
  {
    assert top == sorted[..|top|];
    DescendingPrefixIsTop(sorted, |top|, x, key);
  }

  /** The same, for an element of s that does not occur in the prefix. */
  lemma AbsentFromSortedPrefixIsBelow<T>(s: seq<T>, sorted: seq<T>, top: seq<T>, x: T, key: T -> int)
    requires multiset(sorted) == multiset(s) && Descending(sorted, key) && top <= sorted
    requires x in s && x !in top
    ensures forall i :: 0 <= i < |top| ==> key(x) <= key(top[i])
  {
    assert x in multiset(s) && x !in multiset(top);
    PrefixOfSortedIsTop(s, sorted, top, x, key);
  }

  /** A prefix of a descending sequence is descending. */
  lemma TakeDescending<T>(s: seq<T>, n: nat, key: T -> int)
    requires Descending(s, key)
    ensures Descending(Take(s, n), key)
  {
  }
}
