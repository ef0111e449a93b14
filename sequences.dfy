/**
 * The JavaScript array built-ins the engine uses: `findIndex`, `find`,
 * `filter`, `some` and `slice(0, n)`, over immutable sequences.
 */
module Sequences {
  import opened Options

  /** `s.findIndex(p)`: the first index whose element satisfies `p`, or -1. */
  function FindIndex<T>(s: seq<T>, p: T -> bool): (r: int)
    ensures -1 <= r < |s|
    ensures r >= 0 ==> p(s[r]) && forall j :: 0 <= j < r ==> !p(s[j])
    ensures r == -1 <==> forall j :: 0 <= j < |s| ==> !p(s[j])
  {
    if s == [] then -1
    else if p(s[0]) then 0
    else
      var r := FindIndex(s[1..], p);
      if r == -1 then -1 else r + 1
  }

  /** When exactly the element at `k` satisfies `p`, `findIndex` finds `k`. */
  lemma FindIndexUnique<T>(s: seq<T>, p: T -> bool, k: nat)
    requires k < |s|
    requires forall j :: 0 <= j < |s| ==> (p(s[j]) <==> j == k)
    ensures FindIndex(s, p) == k
  {
    assert p(s[k]);
  }

  /** `s.find(p)`: the first element satisfying `p`, or `undefined`. */
  function Find<T>(s: seq<T>, p: T -> bool): (r: Option<T>)
    ensures r.Some? ==> exists i :: 0 <= i < |s| && s[i] == r.value && p(s[i]) && forall j :: 0 <= j < i ==> !p(s[j])
    ensures r.None? <==> forall j :: 0 <= j < |s| ==> !p(s[j])
  {
    var i := FindIndex(s, p);
    if i == -1 then None else Some(s[i])
  }

  /** `s.filter(p)`: the elements satisfying `p`, in their order in `s`. */
  function Filter<T>(s: seq<T>, p: T -> bool): (r: seq<T>)
    ensures |r| <= |s|
    ensures forall i :: 0 <= i < |r| ==> p(r[i])
  {
    if s == [] then []
    else if p(s[0]) then [s[0]] + Filter(s[1..], p)
    else Filter(s[1..], p)
  }

  /** Everything the filter keeps comes from `s`. */
  lemma {:induction false} FilterSound<T>(s: seq<T>, p: T -> bool)
    ensures forall i :: 0 <= i < |Filter(s, p)| ==> Filter(s, p)[i] in s
    decreases |s|
  {
    if s != [] {
      FilterSound(s[1..], p);
      var r := Filter(s, p);
      var rest := Filter(s[1..], p);
      forall i | 0 <= i < |r| ensures r[i] in s {
        if p(s[0]) && i > 0 {
          assert r[i] == rest[i - 1];
        }
      }
    }
  }

  /** Nothing satisfying the filter is dropped. */
  lemma {:induction false} FilterComplete<T>(s: seq<T>, p: T -> bool, x: T)
    requires x in s && p(x)
    ensures x in Filter(s, p)
    decreases |s|
  {
    if s[0] != x {
      FilterComplete(s[1..], p, x);
    }
  }

  /** `key` strictly increases along `s`. */
  predicate Increasing<T>(s: seq<T>, key: T -> int)
  {
    forall i, j :: 0 <= i < j < |s| ==> key(s[i]) < key(s[j])
  }

  /** A filter every element passes leaves the sequence as it is. */
  lemma {:induction false} FilterAll<T>(s: seq<T>, p: T -> bool)
    requires forall i :: 0 <= i < |s| ==> p(s[i])
    ensures Filter(s, p) == s
    decreases |s|
  {
    if s != [] {
      FilterAll(s[1..], p);
    }
  }

  /** The filter keeps order: a key that increases along `s` increases along the filtered sequence. */
  lemma {:induction false} FilterIncreasing<T>(s: seq<T>, p: T -> bool, key: T -> int)
    requires Increasing(s, key)
    ensures Increasing(Filter(s, p), key)
    decreases |s|
  {
    if s != [] {
      var rest := Filter(s[1..], p);
      FilterIncreasing(s[1..], p, key);
      FilterSound(s[1..], p);
      if p(s[0]) {
        forall k | 0 <= k < |rest| ensures key(s[0]) < key(rest[k]) {
          var j :| 0 <= j < |s[1..]| && s[1..][j] == rest[k];
          assert s[j + 1] == rest[k];
        }
        IncreasingCons(s[0], rest, key);
      }
    }
  }

  lemma IncreasingCons<T>(x: T, rest: seq<T>, key: T -> int)
    requires Increasing(rest, key)
    requires forall k :: 0 <= k < |rest| ==> key(x) < key(rest[k])
    ensures Increasing([x] + rest, key)
  {
    var r := [x] + rest;
    forall i, j | 0 <= i < j < |r| ensures key(r[i]) < key(r[j]) {
      assert r[j] == rest[j - 1];
      if i > 0 {
        assert r[i] == rest[i - 1];
      }
    }
  }

  /**
   * Taking the first `n` filtered elements skips nothing: an element that
   * passes the filter is taken, or else `n` elements were taken and all of
   * them come before it.
   */
  lemma TakeFilterSkipsNothing<T>(s: seq<T>, p: T -> bool, key: T -> int, j: nat, n: nat)
    requires Increasing(s, key)
    requires j < |s| && p(s[j])
    ensures var r := Take(Filter(s, p), n);
      s[j] in r || (|r| == n && forall k :: 0 <= k < n ==> key(r[k]) < key(s[j]))
  {
    var before := Filter(s[..j], p);
    FilterAround(s, p, j);
    FilteredBefore(s, p, key, j);
    var r := Take(Filter(s, p), n);
    if n > |before| {
      assert r[|before|] == s[j];
    } else {
      assert forall k :: 0 <= k < n ==> r[k] == before[k];
    }
  }

  /** The filtered sequence around an element that passes. */
  lemma {:induction false} FilterAround<T>(s: seq<T>, p: T -> bool, j: nat)
    requires j < |s| && p(s[j])
    ensures Filter(s, p) == Filter(s[..j], p) + ([s[j]] + Filter(s[j + 1..], p))
    decreases j
  {
    if j == 0 {
      assert s[..0] == [];
    } else {
      var t := s[1..];
      FilterAround(t, p, j - 1);
      assert t[j - 1] == s[j] && t[j..] == s[j + 1..];
      assert s[..j][0] == s[0] && s[..j][1..] == t[..j - 1];
    }
  }

  /** What passes the filter before position `j` has a smaller key than `s[j]`. */
  lemma FilteredBefore<T>(s: seq<T>, p: T -> bool, key: T -> int, j: nat)
    requires Increasing(s, key) && j < |s|
    ensures forall k :: 0 <= k < |Filter(s[..j], p)| ==> key(Filter(s[..j], p)[k]) < key(s[j])
  {
    var before := Filter(s[..j], p);
    FilterSound(s[..j], p);
    forall k | 0 <= k < |before| ensures key(before[k]) < key(s[j]) {
      var i :| 0 <= i < |s[..j]| && s[..j][i] == before[k];
      assert s[i] == before[k];
    }
  }

  /** `s.slice(0, n)`. */
  function Take<T>(s: seq<T>, n: nat): (r: seq<T>)
    ensures |r| == if |s| <= n then |s| else n
    ensures r == s[..|r|]
  {
    if |s| <= n then s else s[..n]
  }
}
