/**
 * The array operations the store and the components are built from:
 * `filter`, `findIndex` and `find`, and "keep everything whose id differs",
 * which is how every delete is written.
 */
module Collections {
  import opened Wrappers

  /** `s.filter(keep)`: the elements satisfying `keep`, in their original order. */
  function Filter<T>(s: seq<T>, keep: T -> bool): (r: seq<T>)
    ensures |r| <= |s|
    ensures forall i :: 0 <= i < |r| ==> r[i] in s && keep(r[i])
    ensures forall i :: 0 <= i < |s| && keep(s[i]) ==> s[i] in r
  {
    if s == [] then [] else (if keep(s[0]) then [s[0]] else []) + Filter(s[1..], keep)
  }

  /** Filtering a concatenation filters each part and keeps them in order. */
  lemma {:induction false} FilterConcat<T>(a: seq<T>, b: seq<T>, keep: T -> bool)
    ensures Filter(a + b, keep) == Filter(a, keep) + Filter(b, keep)
  {
    if a == [] {
      assert a + b == b;
    } else {
      assert (a + b)[0] == a[0] && (a + b)[1..] == a[1..] + b;
      FilterConcat(a[1..], b, keep);
    }
  }

  /** A filter that rejects nothing returns its input unchanged. */
  lemma {:induction false} FilterKeepsAll<T>(s: seq<T>, keep: T -> bool)
    requires forall i :: 0 <= i < |s| ==> keep(s[i])
    ensures Filter(s, keep) == s
  {
    if s != [] {
      FilterKeepsAll(s[1..], keep);
    }
  }

  /** Filtering twice with the same predicate is filtering once. */
  lemma FilterIdempotent<T>(s: seq<T>, keep: T -> bool)
    ensures Filter(Filter(s, keep), keep) == Filter(s, keep)
  {
    FilterKeepsAll(Filter(s, keep), keep);
  }

  /** The number of elements of `s` satisfying `p`. */
  function CountWhere<T>(s: seq<T>, p: T -> bool): (n: nat)
    ensures n <= |s|
  {
    if s == [] then 0 else (if p(s[0]) then 1 else 0) + CountWhere(s[1..], p)
  }

  /** A filter keeps exactly as many elements as satisfy its predicate. */
  lemma {:induction false} FilterLength<T>(s: seq<T>, keep: T -> bool)
    ensures |Filter(s, keep)| == CountWhere(s, keep)
  {
    if s != [] {
      FilterLength(s[1..], keep);
    }
  }

  /** `s.findIndex(x => key(x) === id)`: the first position holding `id`, or -1. */
  function FindIndex<T>(s: seq<T>, id: string, key: T -> string): (r: int)
    ensures -1 <= r < |s|
    ensures r == -1 <==> forall i :: 0 <= i < |s| ==> key(s[i]) != id
    ensures 0 <= r ==> key(s[r]) == id && forall i :: 0 <= i < r ==> key(s[i]) != id
  {
    if s == [] then -1
    else if key(s[0]) == id then 0
    else
      var k := FindIndex(s[1..], id, key);
      if k == -1 then -1 else k + 1
  }

  /** `s.find(x => key(x) === id)`: the first element holding `id`, if any. */
  function Find<T>(s: seq<T>, id: string, key: T -> string): (r: Option<T>)
    ensures r.None? <==> forall i :: 0 <= i < |s| ==> key(s[i]) != id
    ensures r.Some? ==> r.value in s && key(r.value) == id
    ensures r.Some? ==> exists k :: 0 <= k < |s| && s[k] == r.value && forall j :: 0 <= j < k ==> key(s[j]) != id
  {
    var k := FindIndex(s, id, key);
    if k == -1 then None else Some(s[k])
  }

  /** `s.filter(x => key(x) !== id)`: every element holding `id` removed, the rest in order. */
  function Without<T>(s: seq<T>, id: string, key: T -> string): (r: seq<T>)
    ensures forall i :: 0 <= i < |r| ==> r[i] in s && key(r[i]) != id
    ensures forall i :: 0 <= i < |s| && key(s[i]) != id ==> s[i] in r
  {
    Filter(s, x => key(x) != id)
  }

  /** Removing an id that is absent changes nothing. */
  lemma WithoutAbsent<T>(s: seq<T>, id: string, key: T -> string)
    requires forall i :: 0 <= i < |s| ==> key(s[i]) != id
    ensures Without(s, id, key) == s
  {
    FilterKeepsAll(s, x => key(x) != id);
  }

  /** Deleting the same id twice is deleting it once. */
  lemma WithoutTwice<T>(s: seq<T>, id: string, key: T -> string)
    ensures Without(Without(s, id, key), id, key) == Without(s, id, key)
  {
    FilterIdempotent(s, x => key(x) != id);
  }

  /** The deletion removes as many elements as hold the id, no more and no fewer. */
  lemma WithoutLength<T>(s: seq<T>, id: string, key: T -> string)
    ensures |Without(s, id, key)| == |s| - CountWhere(s, x => key(x) == id)
  {
    FilterLength(s, x => key(x) != id);
    CountComplement(s, x => key(x) != id, x => key(x) == id);
  }

  lemma {:induction false} CountComplement<T>(s: seq<T>, p: T -> bool, q: T -> bool)
    requires forall x :: p(x) <==> !q(x)
    ensures CountWhere(s, p) + CountWhere(s, q) == |s|
  {
    if s != [] {
      CountComplement(s[1..], p, q);
    }
  }

  /** Deleting from a concatenation deletes from each part, keeping their order. */
  lemma WithoutConcat<T>(a: seq<T>, b: seq<T>, id: string, key: T -> string)
    ensures Without(a + b, id, key) == Without(a, id, key) + Without(b, id, key)
  {
    FilterConcat(a, b, x => key(x) != id);
  }

  /**
   * `s[s.findIndex(...)] = f(s[...])` guarded by `index !== -1`: the first
   * element holding `id` is replaced by its image under `f`; nothing else moves.
   */
  function UpdateFirst<T>(s: seq<T>, id: string, key: T -> string, f: T -> T): (r: seq<T>)
    ensures |r| == |s|
    ensures forall i :: 0 <= i < |s| && r[i] != s[i] ==>
      key(s[i]) == id && forall j :: 0 <= j < i ==> key(s[j]) != id
    ensures (forall i :: 0 <= i < |s| ==> key(s[i]) != id) ==> r == s
    ensures forall i :: 0 <= i < |s| && key(s[i]) == id && (forall j :: 0 <= j < i ==> key(s[j]) != id) ==>
      r[i] == f(s[i])
  {
    var k := FindIndex(s, id, key);
    if k == -1 then s else s[k := f(s[k])]
  }
}
