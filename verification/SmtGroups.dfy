/** Reading the SMT groups: one group for each distinct sibling list of the present CPUs. */
module SmtGroups {
  import opened Lists
  import opened Topology

  /** The CPU's thread_siblings_list exists and is not empty. */
  predicate Listed(siblings: map<nat, seq<nat>>, cpu: nat) {
    cpu in siblings && siblings[cpu] != []
  }

  /** The smallest sibling names the group. */
  function Key(siblings: map<nat, seq<nat>>, cpu: nat): (k: nat)
    requires Listed(siblings, cpu)
    ensures k in siblings[cpu] && forall v | v in siblings[cpu] :: k <= v
  {
    var cpus := set v | v in siblings[cpu];
    assert siblings[cpu][0] in cpus;
    assert forall v | v in siblings[cpu] :: v in cpus;
    Least(cpus)
  }

  /** A CPU that no NUMA node lists is on node 0. */
  function NodeOf(numa: map<nat, nat>, cpu: nat): (node: nat) {
    if cpu in numa then numa[cpu] else 0
  }

  /** Position i of `present` is the first CPU listed under key k. */
  ghost predicate FirstWith(present: seq<nat>, siblings: map<nat, seq<nat>>, i: nat, k: nat) {
    && i < |present| && Listed(siblings, present[i]) && Key(siblings, present[i]) == k
    && forall j | 0 <= j < i :: !(Listed(siblings, present[j]) && Key(siblings, present[j]) == k)
  }

  /** The first list seen under a key is the one that is kept. */
  ghost predicate Collected(groups: map<nat, seq<nat>>, present: seq<nat>, siblings: map<nat, seq<nat>>) {
    && (forall i | 0 <= i < |present| && Listed(siblings, present[i]) :: Key(siblings, present[i]) in groups)
    && (forall k | k in groups ::
          exists i: nat :: FirstWith(present, siblings, i, k) && groups[k] == siblings[present[i]])
  }

  ghost predicate IsGroup(g: SmtGroup, k: nat, present: seq<nat>, siblings: map<nat, seq<nat>>, numa: map<nat, nat>) {
    && Ascending(g.vcpus) && g.vcpus != [] && g.vcpus[0] == k
    && g.numaNode == (if k in numa then numa[k] else 0)
    && exists i: nat :: FirstWith(present, siblings, i, k) && multiset(g.vcpus) == multiset(siblings[present[i]])
  }

  /**
   The groups, by ascending smallest vCPU: each the sorted siblings of the first present
   CPU listed under that vCPU, and one for every present CPU that has a list.
  */
  ghost predicate FromSiblings(groups: seq<SmtGroup>, present: seq<nat>, siblings: map<nat, seq<nat>>, numa: map<nat,
                               nat>) {
    && (forall g | g in groups :: g.vcpus != [] && IsGroup(g, g.vcpus[0], present, siblings, numa))
    && (forall i, j | 0 <= i < j < |groups| :: groups[i].vcpus[0] < groups[j].vcpus[0])
    && (forall i | 0 <= i < |present| && Listed(siblings, present[i]) ::
          exists g :: g in groups && g.vcpus[0] == Key(siblings, present[i]))
  }

  lemma FirstStays(present: seq<nat>, siblings: map<nat, seq<nat>>, n: nat, i: nat, k: nat)
    requires n < |present| && FirstWith(present[..n], siblings, i, k)
    ensures FirstWith(present[..n + 1], siblings, i, k)
  {
    assert forall j | 0 <= j <= i :: present[..n][j] == present[..n + 1][j];
  }

  method CollectLists(present: seq<nat>, siblings: map<nat, seq<nat>>) returns (groups: map<nat, seq<nat>>)
    ensures Collected(groups, present, siblings)
  {
    groups := map[];
    for n := 0 to |present|
      invariant Collected(groups, present[..n], siblings)
    {
      ghost var before := groups;
      var cpu := present[n];
      if Listed(siblings, cpu) {
        var k := Key(siblings, cpu);
        if k !in groups {
          groups := groups[k := siblings[cpu]];
          assert FirstWith(present[..n + 1], siblings, n, k);
        }
      }
      ghost var seen := present[..n + 1];
      forall k | k in groups
        ensures exists i: nat :: FirstWith(seen, siblings, i, k) && groups[k] == siblings[seen[i]]
      {
        if k in before {
          var i: nat :| FirstWith(present[..n], siblings, i, k) && before[k] == siblings[present[..n][i]];
          FirstStays(present, siblings, n, i, k);
        }
      }
    }
    assert present[..|present|] == present;
  }

  lemma SortedGroup(list: seq<nat>, k: nat)
    requires k in list && forall v | v in list :: k <= v
    ensures Sorted(list) != [] && Sorted(list)[0] == k
  {
    SortedFacts(list);
    SameElements(list, Sorted(list));
    var r := Sorted(list);
    assert k in r;
    assert r[0] in r;
  }

  lemma CollectedGroup(lists: map<nat, seq<nat>>, present: seq<nat>, siblings: map<nat, seq<nat>>, numa: map<nat,
                       nat>, k: nat)
    requires Collected(lists, present, siblings) && k in lists
    ensures IsGroup(SmtGroup(Sorted(lists[k]), NodeOf(numa, k)), k, present, siblings, numa)
  {
    hide Sorted, Ascending;
    var i: nat :| FirstWith(present, siblings, i, k) && lists[k] == siblings[present[i]];
    SortedGroup(lists[k], k);
    SortedFacts(lists[k]);
  }

  method ReadSmtGroups(present: seq<nat>, siblings: map<nat, seq<nat>>, numa: map<nat, nat>)
    returns (groups: seq<SmtGroup>)
    ensures FromSiblings(groups, present, siblings, numa)
  {
    var lists := CollectLists(present, siblings);
    hide IsGroup, Collected, FirstWith;
    groups := [];
    var keys := lists.Keys;
    ghost var floor: nat := 0;
    while keys != {}
      invariant keys <= lists.Keys
      invariant forall k | k in lists.Keys :: k in keys <==> floor <= k
      invariant forall g | g in groups ::
                  g.vcpus != [] && g.vcpus[0] < floor && IsGroup(g, g.vcpus[0], present, siblings, numa)
      invariant forall i, j | 0 <= i < j < |groups| :: groups[i].vcpus[0] < groups[j].vcpus[0]
      invariant forall k | k in lists.Keys && k < floor :: exists g :: g in groups && g.vcpus[0] == k
      decreases keys
    {
      var k := Least(keys);
      CollectedGroup(lists, present, siblings, numa, k);
      var g := SmtGroup(Sorted(lists[k]), NodeOf(numa, k));
      GroupKey(g, k, present, siblings, numa);
      ghost var before := groups;
      groups := groups + [g];
      assert g in groups && forall h | h in before :: h in groups;
      keys := keys - {k};
      floor := k + 1;
    }
    EveryListed(groups, lists, present, siblings);
  }

  lemma GroupKey(g: SmtGroup, k: nat, present: seq<nat>, siblings: map<nat, seq<nat>>, numa: map<nat, nat>)
    requires IsGroup(g, k, present, siblings, numa)
    ensures g.vcpus != [] && g.vcpus[0] == k
  {
  }

  lemma EveryListed(groups: seq<SmtGroup>, lists: map<nat, seq<nat>>, present: seq<nat>, siblings: map<nat, seq<nat>>)
    requires Collected(lists, present, siblings)
    requires forall g | g in groups :: g.vcpus != []
    requires forall k | k in lists.Keys :: exists g :: g in groups && g.vcpus[0] == k
    ensures forall i | 0 <= i < |present| && Listed(siblings, present[i]) ::
              exists g :: g in groups && g.vcpus[0] == Key(siblings, present[i])
  {
  }

  // ----- consistent sibling lists give physical cores -----

  /** Sibling lists name no CPU twice, and any two are permutations of each other or share no CPU. */
  ghost predicate Consistent(present: seq<nat>, siblings: map<nat, seq<nat>>) {
    && (forall c | c in present && Listed(siblings, c) :: NoDuplicates(siblings[c]))
    && (forall c, d | c in present && d in present && Listed(siblings, c) && Listed(siblings, d) ::
          multiset(siblings[c]) == multiset(siblings[d]) || Apart(siblings[c], siblings[d]))
  }

  lemma DifferentKeysApart(present: seq<nat>, siblings: map<nat, seq<nat>>, c: nat, d: nat)
    requires Consistent(present, siblings) && c in present && d in present
    requires Listed(siblings, c) && Listed(siblings, d) && Key(siblings, c) != Key(siblings, d)
    ensures Apart(siblings[c], siblings[d])
  {
    if multiset(siblings[c]) == multiset(siblings[d]) {
      SameElements(siblings[c], siblings[d]);
    }
  }

  lemma GroupList(g: SmtGroup, present: seq<nat>, siblings: map<nat, seq<nat>>, numa: map<nat, nat>) returns (c: nat)
    requires g.vcpus != [] && IsGroup(g, g.vcpus[0], present, siblings, numa)
    ensures c in present && Listed(siblings, c) && Key(siblings, c) == g.vcpus[0]
    ensures multiset(g.vcpus) == multiset(siblings[c])
    ensures forall v :: v in g.vcpus <==> v in siblings[c]
  {
    var i: nat :| FirstWith(present, siblings, i, g.vcpus[0]) && multiset(g.vcpus) == multiset(siblings[present[i]]);
    c := present[i];
    SameElements(g.vcpus, siblings[c]);
  }

  lemma GroupsAreApart(g: SmtGroup, h: SmtGroup, present: seq<nat>, siblings: map<nat, seq<nat>>, numa: map<nat, nat>)
    requires Consistent(present, siblings)
    requires g.vcpus != [] && IsGroup(g, g.vcpus[0], present, siblings, numa)
    requires h.vcpus != [] && IsGroup(h, h.vcpus[0], present, siblings, numa)
    requires g.vcpus[0] != h.vcpus[0]
    ensures Apart(g.vcpus, h.vcpus)
  {
    hide Consistent, IsGroup;
    var c := GroupList(g, present, siblings, numa);
    var d := GroupList(h, present, siblings, numa);
    DifferentKeysApart(present, siblings, c, d);
  }

  /** From consistent sibling lists: the groups are disjoint and duplicate-free, and cover every listed CPU. */
  lemma ConsistentGroups(groups: seq<SmtGroup>, present: seq<nat>, siblings: map<nat, seq<nat>>, numa: map<nat, nat>)
    requires FromSiblings(groups, present, siblings, numa) && Consistent(present, siblings)
    ensures Physical(groups)
    ensures forall c | c in present && c in siblings && c in siblings[c] :: Covered(c, groups)
  {
    hide IsGroup, Apart, NoDuplicates;
    forall i | 0 <= i < |groups| ensures NoDuplicates(groups[i].vcpus) {
      var c := GroupList(groups[i], present, siblings, numa);
      SameElements(siblings[c], groups[i].vcpus);
    }
    forall i, j | 0 <= i < j < |groups| ensures Apart(groups[i].vcpus, groups[j].vcpus) {
      GroupsAreApart(groups[i], groups[j], present, siblings, numa);
    }
    forall c | c in present && c in siblings && c in siblings[c] ensures Covered(c, groups) {
      var i :| 0 <= i < |present| && present[i] == c;
      var g :| g in groups && g.vcpus[0] == Key(siblings, c);
      GroupCovers(g, c, present, siblings, numa);
    }
  }

  lemma GroupCovers(g: SmtGroup, c: nat, present: seq<nat>, siblings: map<nat, seq<nat>>, numa: map<nat, nat>)
    requires Consistent(present, siblings) && c in present && Listed(siblings, c)
    requires g.vcpus != [] && IsGroup(g, g.vcpus[0], present, siblings, numa) && g.vcpus[0] == Key(siblings, c)
    ensures c in siblings[c] ==> c in g.vcpus
  {
    hide IsGroup;
    var d := GroupList(g, present, siblings, numa);
    assert !Apart(siblings[c], siblings[d]);
    SameElements(siblings[c], siblings[d]);
  }

  /** From sibling lists to threads: a plan over consistent lists uses allowed, distinct vCPUs. */
  lemma PlacementIsSound(groups: seq<SmtGroup>, present: seq<nat>, siblings: map<nat, seq<nat>>, numa: map<nat, nat>,
                         allowed: set<nat>, wanted: nat)
    requires FromSiblings(groups, present, siblings, numa) && Consistent(present, siblings)
    requires wanted <= |FullPlan(groups, allowed)|
    ensures var pairs := FullPlan(groups, allowed)[..wanted];
            NoDuplicates(Cpus(pairs)) && forall p | p in pairs :: PairOk(p, groups, allowed)
  {
    hide FromSiblings, Consistent, NoDuplicates, FullPlan, PairOk;
    ConsistentGroups(groups, present, siblings, numa);
    PlanIsSound(groups, allowed, wanted);
  }
}
