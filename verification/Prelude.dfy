/** The vocabulary every other module shares. */
module Prelude {
  /** A row identifier; UUIDs compare as the 128-bit numbers they are. */
  type Uuid = nat

  datatype Option<+T> = None | Some(value: T)

  /** Where test first holds. */
  function FindFirst<T>(s: seq<T>, test: T -> bool): (r: Option<nat>)
    ensures r.Some? ==> r.value < |s| && test(s[r.value]) && forall i :: 0 <= i < r.value ==> !test(s[i])
    ensures r.None? ==> forall i :: 0 <= i < |s| ==> !test(s[i])
  {
    if s == [] then None
    else
      var n := |s| - 1;
      var r := FindFirst(s[..n], test);
      if r.Some? then r else if test(s[n]) then Some(n) else None
  }

  predicate Distinct<T(==)>(s: seq<T>) {
    forall i, j :: 0 <= i < j < |s| ==> s[i] != s[j]
  }

  function Elements<T>(s: seq<T>): set<T> {
    set x | x in s
  }

  /** Any element: the source ranges over a map, in no particular order. */
  method Pick<T(==)>(values: set<T>) returns (x: T)
    requires values != {}
    ensures x in values
  {
    x :| x in values;
  }

  /** 1 to n. */
  function Range(n: nat): (r: set<int>)
    ensures |r| == n && forall k :: k in r <==> 1 <= k <= n
  {
    if n == 0 then {} else Range(n - 1) + {n}
  }

  /** What one more element does to the elements seen and to their being distinct. */
  lemma NextElement<T>(s: seq<T>, n: nat)
    requires n < |s|
    ensures Elements(s[..n + 1]) == Elements(s[..n]) + {s[n]}
    ensures Distinct(s[..n + 1]) <==> Distinct(s[..n]) && s[n] !in s[..n]
    ensures s[n] in s[..n] ==> !Distinct(s)
  {
    assert s[..n + 1] == s[..n] + [s[n]];
  }

  lemma {:induction false} DistinctCount<T>(s: seq<T>)
    ensures |Elements(s)| <= |s|
    ensures Distinct(s) <==> |Elements(s)| == |s|
    decreases |s|
  {
    if s != [] {
      var n := |s| - 1;
      NextElement(s, n);
      assert s[..n + 1] == s;
      DistinctCount(s[..n]);
    }
  }

  lemma {:induction false} SubsetIsSmaller<T>(a: set<T>, b: set<T>)
    requires a <= b
    ensures |a| <= |b|
    decreases a
  {
    if a != {} {
      var x :| x in a;
      SubsetIsSmaller(a - {x}, b - {x});
    }
  }

  /** n different numbers between 1 and n are all the numbers between 1 and n. */
  lemma DistinctInRange(s: seq<int>)
    requires Distinct(s) && forall i :: 0 <= i < |s| ==> 1 <= s[i] <= |s|
    ensures forall k :: 1 <= k <= |s| ==> k in s
  {
    var used, all := Elements(s), Range(|s|);
    DistinctCount(s);
    assert used <= all;
    SubsetOfSameSize(used, all);
    forall k | 1 <= k <= |s| ensures k in s {
      assert k in used;
    }
  }

  lemma SubsetOfSameSize<T>(a: set<T>, b: set<T>)
    requires a <= b && |a| == |b|
    ensures a == b
  {
    if a != b {
      var x :| x in b && x !in a;
      SubsetIsSmaller(a, b - {x});
    }
  }
}
