/** Small shared vocabulary: an optional value, as the source's `T | null` and optional fields. */
module Common {

  datatype Option<+T> = None | Some(value: T) {
    function GetOr(default: T): T {
      match this
      case Some(v) => v
      case None => default
    }
  }
}

/**
 * The array operations the stores are written with: `filter`, `map` and `find`,
 * each defined once here and specified by what it keeps, computes or returns.
 */
module Seqs {
  import opened Common

  /** `s.filter(p)`: the elements of `s` that satisfy `p`, in their original order. */
  function Filter<T>(s: seq<T>, p: T -> bool): (r: seq<T>)
    ensures |r| <= |s|
    ensures forall k :: 0 <= k < |r| ==> r[k] in s && p(r[k])
    ensures forall k :: 0 <= k < |s| && p(s[k]) ==> s[k] in r
  {
    if s == [] then []
    else if p(s[0]) then [s[0]] + Filter(s[1..], p)
    else Filter(s[1..], p)
  }

  /** `s.map(f)`: same length, each element replaced by its image. */
  function Map<T, U>(s: seq<T>, f: T -> U): (r: seq<U>)
    ensures |r| == |s|
    ensures forall k :: 0 <= k < |s| ==> r[k] == f(s[k])
  {
    if s == [] then [] else [f(s[0])] + Map(s[1..], f)
  }

  /** `s.find(p)`: the first element that satisfies `p`, if any. */
  function Find<T>(s: seq<T>, p: T -> bool): (r: Option<T>)
    ensures r.None? <==> forall k :: 0 <= k < |s| ==> !p(s[k])
    ensures r.Some? ==> exists k :: 0 <= k < |s| && s[k] == r.value && p(s[k])
                                     && forall j :: 0 <= j < k ==> !p(s[j])
  {
    if s == [] then None
    else if p(s[0]) then Some(s[0])
    else
      var r := Find(s[1..], p);
      if r.Some? then
        ghost var k :| 0 <= k < |s[1..]| && s[1..][k] == r.value && p(s[1..][k])
                       && forall j :: 0 <= j < k ==> !p(s[1..][j]);
        assert s[k + 1] == r.value;
        r
      else r
  }

  /** Filtering distributes over concatenation: the kept elements stay in their order. */
  lemma {:induction false} FilterAppend<T>(s: seq<T>, t: seq<T>, p: T -> bool)
    ensures Filter(s + t, p) == Filter(s, p) + Filter(t, p)
  {
    if s == [] {
      assert s + t == t;
    } else {
      assert (s + t)[1..] == s[1..] + t;
      FilterAppend(s[1..], t, p);
    }
  }

  /** Filtering a list whose every element passes changes nothing. */
  lemma {:induction false} FilterAllKept<T>(s: seq<T>, p: T -> bool)
    requires forall k :: 0 <= k < |s| ==> p(s[k])
    ensures Filter(s, p) == s
  {
    if s != [] {
      FilterAllKept(s[1..], p);
    }
  }

  /** Filtering twice by the same predicate is filtering once. */
  lemma FilterIdempotent<T>(s: seq<T>, p: T -> bool)
    ensures Filter(Filter(s, p), p) == Filter(s, p)
  {
    FilterAllKept(Filter(s, p), p);
  }

  /** An element that fails the predicate, put in front, is dropped again. */
  lemma FilterDropsRejectedHead<T>(x: T, s: seq<T>, p: T -> bool)
    requires !p(x)
    ensures Filter([x] + s, p) == Filter(s, p)
  {
    assert ([x] + s)[1..] == s;
  }

  /**
   * Splitting by a predicate and its negation loses nothing and invents nothing:
   * the two parts add up to the whole, as multisets and in length.
   */
  lemma {:induction false} FilterPartition<T>(s: seq<T>, p: T -> bool, q: T -> bool)
    requires forall k :: 0 <= k < |s| ==> q(s[k]) == !p(s[k])
    ensures multiset(Filter(s, p)) + multiset(Filter(s, q)) == multiset(s)
    ensures |Filter(s, p)| + |Filter(s, q)| == |s|
  {
    if s != [] {
      FilterPartition(s[1..], p, q);
      assert s == [s[0]] + s[1..];
      assert multiset(s) == multiset{s[0]} + multiset(s[1..]);
    }
  }

  /** The head of a filtered list is the first element that passes: `s.filter(p)[0]` is `s.find(p)`. */
  lemma {:induction false} FilterHeadIsFind<T>(s: seq<T>, p: T -> bool)
    ensures Find(s, p) == if Filter(s, p) == [] then None else Some(Filter(s, p)[0])
  {
    if s != [] && !p(s[0]) {
      FilterHeadIsFind(s[1..], p);
    }
  }

  /** The predicate `x => key(x) !== id`. */
  function KeyOtherThan<T, K(==)>(key: T -> K, id: K): T -> bool {
    (x: T) => key(x) != id
  }

  /**
   * `s.filter(x => key(x) !== id)`, the delete-by-id every store uses: no element
   * with that key is left, and every other element is.
   */
  function RemoveByKey<T, K(==)>(s: seq<T>, key: T -> K, id: K): (r: seq<T>)
    ensures |r| <= |s|
    ensures forall k :: 0 <= k < |r| ==> r[k] in s && key(r[k]) != id
    ensures forall k :: 0 <= k < |s| && key(s[k]) != id ==> s[k] in r
  {
    Filter(s, KeyOtherThan(key, id))
  }

  /** Removal distributes over concatenation, so the survivors keep their order. */
  lemma RemoveByKeyAppend<T, K>(s: seq<T>, t: seq<T>, key: T -> K, id: K)
    ensures RemoveByKey(s + t, key, id) == RemoveByKey(s, key, id) + RemoveByKey(t, key, id)
  {
    FilterAppend(s, t, KeyOtherThan(key, id));
  }

  /** Removing the same key twice is removing it once. */
  lemma RemoveByKeyIdempotent<T, K>(s: seq<T>, key: T -> K, id: K)
    ensures RemoveByKey(RemoveByKey(s, key, id), key, id) == RemoveByKey(s, key, id)
  {
    FilterIdempotent(s, KeyOtherThan(key, id));
  }

  /** Removing a key no element carries changes nothing. */
  lemma RemoveByKeyAbsent<T, K>(s: seq<T>, key: T -> K, id: K)
    requires forall k :: 0 <= k < |s| ==> key(s[k]) != id
    ensures RemoveByKey(s, key, id) == s
  {
    FilterAllKept(s, KeyOtherThan(key, id));
  }

  /** An element put in front under a key no other element carries is removed again, and only it. */
  lemma RemoveByKeyFreshHead<T, K>(x: T, s: seq<T>, key: T -> K)
    requires forall k :: 0 <= k < |s| ==> key(s[k]) != key(x)
    ensures RemoveByKey([x] + s, key, key(x)) == s
  {
    FilterDropsRejectedHead(x, s, KeyOtherThan(key, key(x)));
    RemoveByKeyAbsent(s, key, key(x));
  }

  /** An element put at the end under a key no other element carries is removed again, and only it. */
  lemma RemoveByKeyFreshLast<T, K>(s: seq<T>, x: T, key: T -> K)
    requires forall k :: 0 <= k < |s| ==> key(s[k]) != key(x)
    ensures RemoveByKey(s + [x], key, key(x)) == s
  {
    RemoveByKeyAppend(s, [x], key, key(x));
    RemoveByKeyAbsent(s, key, key(x));
    assert Filter([x], KeyOtherThan(key, key(x))) == [];
  }

  predicate Distinct<T(==)>(s: seq<T>) {
    forall i, j :: 0 <= i < j < |s| ==> s[i] != s[j]
  }

  /** Filtering a list without repeats leaves a list without repeats. */
  lemma {:induction false} FilterKeepsDistinct<T>(s: seq<T>, p: T -> bool)
    requires Distinct(s)
    ensures Distinct(Filter(s, p))
  {
    if s != [] {
      FilterKeepsDistinct(s[1..], p);
      var rest := Filter(s[1..], p);
      if p(s[0]) {
        forall j | 0 <= j < |rest|
          ensures s[0] != rest[j]
        {
          assert rest[j] in s[1..];
        }
        assert Filter(s, p) == [s[0]] + rest;
      }
    }
  }
}
