/** Sequences without repetition, ascending sequences, and the least element of a set. */
module Lists {

  ghost predicate NoDuplicates(s: seq<nat>) {
    forall i, j | 0 <= i < j < |s| :: s[i] != s[j]
  }

  ghost predicate Apart(s: seq<nat>, t: seq<nat>) {
    forall v | v in s :: v !in t
  }

  lemma NoDuplicatesParts(s: seq<nat>, t: seq<nat>)
    requires NoDuplicates(s + t)
    ensures NoDuplicates(s) && NoDuplicates(t) && Apart(s, t)
  {
    var u := s + t;
    forall i, j | 0 <= i < j < |s| ensures s[i] != s[j] {
      assert u[i] != u[j];
    }
    forall i, j | 0 <= i < j < |t| ensures t[i] != t[j] {
      assert u[|s| + i] != u[|s| + j];
    }
    forall i, j | 0 <= i < |s| && 0 <= j < |t| ensures s[i] != t[j] {
      assert u[i] != u[|s| + j];
    }
  }

  lemma NoDuplicatesSum(s: seq<nat>, t: seq<nat>)
    requires NoDuplicates(s) && NoDuplicates(t) && Apart(s, t)
    ensures NoDuplicates(s + t)
  {
    var u := s + t;
    forall i, j | 0 <= i < j < |u| ensures u[i] != u[j] {
      if i < |s| <= j {
        assert u[i] in s && u[j] in t;
      }
    }
  }

  ghost predicate Ascending(s: seq<nat>) {
    forall i, j | 0 <= i < j < |s| :: s[i] <= s[j]
  }

  function Inserted(s: seq<nat>, x: nat): (r: seq<nat>) {
    if s == [] then [x]
    else if x <= s[0] then [x] + s
    else [s[0]] + Inserted(s[1..], x)
  }

  lemma AscendingCons(x: nat, s: seq<nat>)
    requires Ascending(s) && forall v | v in s :: x <= v
    ensures Ascending([x] + s)
  {
    var r := [x] + s;
    forall i, j | 0 <= i < j < |r| ensures r[i] <= r[j] {
      assert r[j] == s[j - 1] && s[j - 1] in s;
    }
  }

  lemma AscendingTail(s: seq<nat>)
    requires Ascending(s) && s != []
    ensures Ascending(s[1..]) && forall v | v in s[1..] :: s[0] <= v
  {
  }

  lemma {:induction false} InsertedFacts(s: seq<nat>, x: nat)
    requires Ascending(s)
    ensures Ascending(Inserted(s, x)) && multiset(Inserted(s, x)) == multiset(s) + multiset{x}
  {
    if s == [] {
    } else if x <= s[0] {
      hide Ascending;
      AscendingTail(s);
      assert s == [s[0]] + s[1..];
      AscendingCons(x, s);
    } else {
      hide Ascending;
      AscendingTail(s);
      InsertedFacts(s[1..], x);
      var r := Inserted(s[1..], x);
      assert s == [s[0]] + s[1..];
      forall v | v in r ensures s[0] <= v {
        assert v in multiset(r);
        assert v in multiset(s[1..]) || v == x;
      }
      AscendingCons(s[0], r);
    }
  }

  function Sorted(s: seq<nat>): (r: seq<nat>) {
    if s == [] then [] else Inserted(Sorted(s[1..]), s[0])
  }

  lemma {:induction false} SortedFacts(s: seq<nat>)
    ensures Ascending(Sorted(s)) && multiset(Sorted(s)) == multiset(s)
  {
    if s != [] {
      SortedFacts(s[1..]);
      InsertedFacts(Sorted(s[1..]), s[0]);
      assert s == [s[0]] + s[1..];
    }
  }

  /** Permutations have the same elements and the same repetitions. */
  lemma SameElements(s: seq<nat>, t: seq<nat>)
    requires multiset(s) == multiset(t)
    ensures forall v :: v in s <==> v in t
    ensures NoDuplicates(s) ==> NoDuplicates(t)
  {
    forall v ensures v in s <==> v in t {
      assert v in multiset(s) <==> v in multiset(t);
    }
    if NoDuplicates(s) && !NoDuplicates(t) {
      var i, j :| 0 <= i < j < |t| && t[i] == t[j];
      Repeated(t, i, j);
      NotRepeated(s, t[i]);
    }
  }

  lemma Repeated(t: seq<nat>, i: nat, j: nat)
    requires i < j < |t| && t[i] == t[j]
    ensures multiset(t)[t[i]] >= 2
  {
    assert t == t[..j] + t[j..];
    assert t[..j][i] == t[i] && t[j..][0] == t[j];
    assert t[i] in multiset(t[..j]) && t[i] in multiset(t[j..]);
  }

  lemma {:induction false} NotRepeated(s: seq<nat>, v: nat)
    requires NoDuplicates(s)
    ensures multiset(s)[v] <= 1
  {
    if s != [] {
      NotRepeated(s[1..], v);
      assert s == [s[0]] + s[1..];
      if v == s[0] {
        assert v !in s[1..];
        assert v !in multiset(s[1..]);
      }
    }
  }

  function Least(keys: set<nat>): (k: nat)
    requires keys != {}
    ensures k in keys && forall x | x in keys :: k <= x
  {
    HasLeast(keys);
    var k :| k in keys && forall x | x in keys :: k <= x;
    k
  }

  lemma HasLeast(keys: set<nat>)
    requires keys != {}
    ensures exists k :: k in keys && forall x | x in keys :: k <= x
  {
    var k := SmallestOf(keys);
  }

  lemma {:induction false} SmallestOf(keys: set<nat>) returns (k: nat)
    requires keys != {}
    ensures k in keys && forall x | x in keys :: k <= x
    decreases keys
  {
    var x :| x in keys;
    var rest := keys - {x};
    k := x;
    if rest != {} {
      var m := SmallestOf(rest);
      k := if x <= m then x else m;
    }
    forall y | y in keys ensures k <= y {
      assert y == x || y in rest;
    }
  }
}
