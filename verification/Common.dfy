/** Datatypes and counting facts shared by the models. */
module Common {

  datatype Option<+T> = None | Some(value: T)

  /** The numbers below `n`. */
  function Below(n: nat): (r: set<nat>)
    ensures |r| == n
    ensures forall i: nat :: i in r <==> i < n
  {
    if n == 0 then {} else Below(n - 1) + {n - 1}
  }

  lemma SubsetSize<T>(a: set<T>, b: set<T>)
    requires a <= b
    ensures |a| <= |b|
  {
    assert b == a + (b - a);
  }

  function Elements(s: seq<nat>): (r: set<nat>)
    ensures forall i :: i in r <==> i in s
  {
    set i | i in s
  }

  lemma DistinctSize(s: seq<nat>)
    requires forall k, l :: 0 <= k < l < |s| ==> s[k] != s[l]
    ensures |Elements(s)| == |s|
  {
    if s != [] {
      var t := s[..|s| - 1];
      DistinctSize(t);
      assert Elements(s) == Elements(t) + {s[|s| - 1]};
    }
  }

  /** Distinct numbers below a bound are no more than the bound. */
  lemma DistinctFit(s: seq<nat>, bound: nat)
    requires forall k :: 0 <= k < |s| ==> s[k] < bound
    requires forall k, l :: 0 <= k < l < |s| ==> s[k] != s[l]
    ensures |s| <= bound
  {
    DistinctSize(s);
    SubsetSize(Elements(s), Below(bound));
  }
}
