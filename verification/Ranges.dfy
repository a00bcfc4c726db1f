/** Half-open ranges of absolute indices as sets. */
module Ranges {

  function Range(lo: nat, hi: nat): (r: set<nat>)
    ensures forall a :: a in r <==> lo <= a < hi
    ensures lo <= hi ==> |r| == hi - lo
    decreases hi
  {
    if hi <= lo then {} else Range(lo, hi - 1) + {hi - 1}
  }

  /** A subset as large as the whole range is the whole range. */
  lemma FullSubset(r: set<nat>, lo: nat, hi: nat)
    requires lo <= hi && r <= Range(lo, hi)
    ensures |r| <= hi - lo
    ensures |r| == hi - lo ==> r == Range(lo, hi)
  {
    SubsetSize(r, Range(lo, hi));
  }

  lemma {:induction false} SubsetSize(r: set<nat>, t: set<nat>)
    requires r <= t
    ensures |r| <= |t|
    ensures |r| == |t| ==> r == t
    decreases r
  {
    if r != {} {
      var x :| x in r;
      SubsetSize(r - {x}, t - {x});
      assert r == (r - {x}) + {x} && t == (t - {x}) + {x};
    } else if |t| == 0 {
      assert t == {};
    }
  }
}
