/**
 Placing runtime and submission-queue threads on CPUs: SMT groups are read from sibling
 lists, and pairs of neighbouring groups of one NUMA node give pairs of vCPUs.
*/
module Topology {
  import opened Lists

  /** The vCPUs of one physical core. */
  datatype SmtGroup = SmtGroup(vcpus: seq<nat>, numaNode: nat)

  datatype Pair = Pair(runtime: nat, sqpoll: nat, numaNode: nat)

  /** The failure names how many pairs could be placed. */
  datatype Plan = Placed(pairs: seq<Pair>) | NotPlaced(got: nat)

  // ----- the full plan: every pair that the allowed CPUs can give -----

  predicate IsUsable(g: SmtGroup, allowed: set<nat>) {
    forall v | v in g.vcpus :: v in allowed
  }

  function Usable(groups: seq<SmtGroup>, allowed: set<nat>): (r: seq<SmtGroup>) {
    if groups == [] then []
    else (if IsUsable(groups[0], allowed) then [groups[0]] else []) + Usable(groups[1..], allowed)
  }

  function OfNode(groups: seq<SmtGroup>, node: nat): (r: seq<SmtGroup>) {
    if groups == [] then []
    else (if groups[0].numaNode == node then [groups[0]] else []) + OfNode(groups[1..], node)
  }

  function Min(a: nat, b: nat): (m: nat)
    ensures m <= a && m <= b && (m == a || m == b)
  {
    if a <= b then a else b
  }

  /** The first n pairs of a chunk of two groups. */
  function ChunkPairs(rt: SmtGroup, sq: SmtGroup, node: nat, n: nat): (r: seq<Pair>)
    requires n <= |rt.vcpus| && n <= |sq.vcpus|
    ensures |r| == n
  {
    seq(n, i requires 0 <= i < n => Pair(rt.vcpus[i], sq.vcpus[i], node))
  }

  function FullChunk(rt: SmtGroup, sq: SmtGroup, node: nat): (r: seq<Pair>) {
    ChunkPairs(rt, sq, node, Min(|rt.vcpus|, |sq.vcpus|))
  }

  /** Adjacent groups two by two; an odd last group is left alone. */
  function NodePairs(groups: seq<SmtGroup>, node: nat): (r: seq<Pair>) {
    if |groups| < 2 then []
    else FullChunk(groups[0], groups[1], node) + NodePairs(groups[2..], node)
  }

  /** All nodes below `bound`, in ascending order. */
  function PairsBelow(usable: seq<SmtGroup>, bound: nat): (r: seq<Pair>) {
    if bound == 0 then []
    else PairsBelow(usable, bound - 1) + NodePairs(OfNode(usable, bound - 1), bound - 1)
  }

  ghost predicate NodesBelow(groups: seq<SmtGroup>, bound: nat) {
    forall g | g in groups :: g.numaNode < bound
  }

  function NodeBound(groups: seq<SmtGroup>): (bound: nat)
    ensures NodesBelow(groups, bound)
  {
    if groups == [] then 0
    else
      var rest := NodeBound(groups[1..]);
      if groups[0].numaNode < rest then rest else groups[0].numaNode + 1
  }

  function FullPlan(groups: seq<SmtGroup>, allowed: set<nat>): (r: seq<Pair>) {
    var usable := Usable(groups, allowed);
    PairsBelow(usable, NodeBound(usable))
  }

  /** How many pairs a node gives: the smaller size of each two adjacent groups, added up. */
  function NodeSlots(groups: seq<SmtGroup>): (n: nat) {
    if |groups| < 2 then 0
    else Min(|groups[0].vcpus|, |groups[1].vcpus|) + NodeSlots(groups[2..])
  }

  function SlotsBelow(usable: seq<SmtGroup>, bound: nat): (n: nat) {
    if bound == 0 then 0 else SlotsBelow(usable, bound - 1) + NodeSlots(OfNode(usable, bound - 1))
  }

  lemma {:induction false} NodePairsCount(groups: seq<SmtGroup>, node: nat)
    ensures |NodePairs(groups, node)| == NodeSlots(groups)
  {
    if |groups| >= 2 {
      NodePairsCount(groups[2..], node);
    }
  }

  lemma {:induction false} PairsBelowCount(usable: seq<SmtGroup>, bound: nat)
    ensures |PairsBelow(usable, bound)| == SlotsBelow(usable, bound)
  {
    if bound != 0 {
      PairsBelowCount(usable, bound - 1);
      NodePairsCount(OfNode(usable, bound - 1), bound - 1);
    }
  }

  /** The size of the full plan: over the NUMA nodes and their adjacent usable groups, the smaller group sizes. */
  lemma FullPlanSize(groups: seq<SmtGroup>, allowed: set<nat>)
    ensures var usable := Usable(groups, allowed);
            |FullPlan(groups, allowed)| == SlotsBelow(usable, NodeBound(usable))
  {
    PairsBelowCount(Usable(groups, allowed), NodeBound(Usable(groups, allowed)));
  }

  // ----- the planning loop -----

  lemma {:induction false} UsableExtends(groups: seq<SmtGroup>, g: SmtGroup, allowed: set<nat>)
    ensures Usable(groups + [g], allowed) == Usable(groups, allowed) + (if IsUsable(g, allowed) then [g] else [])
  {
    if groups == [] {
      assert groups + [g] == [g];
    } else {
      UsableExtends(groups[1..], g, allowed);
      assert (groups + [g])[1..] == groups[1..] + [g];
    }
  }

  lemma {:induction false} OfNodeExtends(groups: seq<SmtGroup>, g: SmtGroup, node: nat)
    ensures OfNode(groups + [g], node) == OfNode(groups, node) + (if g.numaNode == node then [g] else [])
  {
    if groups == [] {
      assert groups + [g] == [g];
    } else {
      OfNodeExtends(groups[1..], g, node);
      assert (groups + [g])[1..] == groups[1..] + [g];
    }
  }

  /** r lists the groups at the given ascending positions. */
  ghost predicate Selects(r: seq<SmtGroup>, groups: seq<SmtGroup>, positions: seq<nat>) {
    && |r| == |positions|
    && (forall k | 0 <= k < |r| :: positions[k] < |groups| && r[k] == groups[positions[k]])
    && forall k, l | 0 <= k < l < |r| :: positions[k] < positions[l]
  }

  lemma SelectsOneMore(r: seq<SmtGroup>, groups: seq<SmtGroup>, positions: seq<nat>, g: SmtGroup, take: bool)
    requires Selects(r, groups, positions)
    ensures Selects(if take then r + [g] else r, groups + [g], if take then positions + [|groups|] else positions)
  {
  }

  ghost predicate FullyAllowed(g: SmtGroup, allowed: set<nat>) {
    forall v | v in g.vcpus :: v in allowed
  }

  lemma UsableIsAllowed(g: SmtGroup, allowed: set<nat>)
    ensures IsUsable(g, allowed) <==> FullyAllowed(g, allowed)
  {
  }

  lemma SelectsNothing()
    ensures Selects([], [], [])
  {
  }

  lemma SelectedBelow(r: seq<SmtGroup>, groups: seq<SmtGroup>, positions: seq<nat>)
    requires Selects(r, groups, positions)
    ensures forall i | i in positions :: i < |groups|
  {
  }

  /** The usable groups are, in order, those all of whose vCPUs are allowed. */
  lemma {:induction false} UsableAreAllowed(groups: seq<SmtGroup>, allowed: set<nat>) returns (positions: seq<nat>)
    ensures Selects(Usable(groups, allowed), groups, positions)
    ensures forall i: nat | i < |groups| :: i in positions <==> FullyAllowed(groups[i], allowed)
  {
    hide FullyAllowed, Selects, IsUsable;
    if groups == [] {
      positions := [];
      SelectsNothing();
    } else {
      var last := |groups| - 1;
      var before := groups[..last];
      var earlier := UsableAreAllowed(before, allowed);
      UsableIsAllowed(groups[last], allowed);
      SelectedBelow(Usable(before, allowed), before, earlier);
      UsableExtends(before, groups[last], allowed);
      var take := FullyAllowed(groups[last], allowed);
      positions := if take then earlier + [last] else earlier;
      SelectsOneMore(Usable(before, allowed), before, earlier, groups[last], take);
      assert groups == before + [groups[last]];
      assert Usable(before, allowed) + [] == Usable(before, allowed);
      forall i: nat | i < |groups| ensures i in positions <==> FullyAllowed(groups[i], allowed) {
        assert i < last ==> before[i] == groups[i];
      }
    }
  }

  /** The groups of a node are, in order, those that name it. */
  lemma {:induction false} NodeGroups(groups: seq<SmtGroup>, node: nat) returns (positions: seq<nat>)
    ensures Selects(OfNode(groups, node), groups, positions)
    ensures forall i: nat | i < |groups| :: i in positions <==> groups[i].numaNode == node
  {
    hide Selects;
    if groups == [] {
      positions := [];
      SelectsNothing();
    } else {
      var last := |groups| - 1;
      var before := groups[..last];
      var earlier := NodeGroups(before, node);
      SelectedBelow(OfNode(before, node), before, earlier);
      OfNodeExtends(before, groups[last], node);
      var take := groups[last].numaNode == node;
      positions := if take then earlier + [last] else earlier;
      SelectsOneMore(OfNode(before, node), before, earlier, groups[last], take);
      assert groups == before + [groups[last]];
      assert OfNode(before, node) + [] == OfNode(before, node);
      forall i: nat | i < |groups| ensures i in positions <==> groups[i].numaNode == node {
        assert i < last ==> before[i] == groups[i];
      }
    }
  }

  /** If every vCPU is allowed, every group is usable. */
  lemma {:induction false} AllUsable(groups: seq<SmtGroup>, allowed: set<nat>)
    requires forall g, v | g in groups && v in g.vcpus :: v in allowed
    ensures Usable(groups, allowed) == groups
  {
    if groups != [] {
      AllUsable(groups[1..], allowed);
    }
  }

  /** With every vCPU allowed, the plan's size is the sum over all the given groups. */
  lemma UnrestrictedPlanSize(groups: seq<SmtGroup>, allowed: set<nat>)
    requires forall g, v | g in groups && v in g.vcpus :: v in allowed
    ensures |FullPlan(groups, allowed)| == SlotsBelow(groups, NodeBound(groups))
  {
    AllUsable(groups, allowed);
    FullPlanSize(groups, allowed);
  }

  method FilterUsable(groups: seq<SmtGroup>, allowed: set<nat>) returns (usable: seq<SmtGroup>)
    ensures usable == Usable(groups, allowed)
    ensures forall g :: g in usable <==> g in groups && forall v | v in g.vcpus :: v in allowed
  {
    usable := [];
    for i := 0 to |groups|
      invariant usable == Usable(groups[..i], allowed)
    {
      UsableExtends(groups[..i], groups[i], allowed);
      assert groups[..i + 1] == groups[..i] + [groups[i]];
      if IsUsable(groups[i], allowed) {
        usable := usable + [groups[i]];
      }
    }
    assert groups[..|groups|] == groups;
    UsableMembers(groups, allowed);
  }

  /** by_node holds, for each node that has groups, its groups in order. */
  ghost predicate Grouped(byNode: map<nat, seq<SmtGroup>>, groups: seq<SmtGroup>) {
    && (forall node | node in byNode :: byNode[node] == OfNode(groups, node))
    && (forall node: nat | node !in byNode :: OfNode(groups, node) == [])
  }

  method GroupByNode(groups: seq<SmtGroup>) returns (byNode: map<nat, seq<SmtGroup>>)
    ensures Grouped(byNode, groups)
  {
    byNode := map[];
    for i := 0 to |groups|
      invariant Grouped(byNode, groups[..i])
    {
      var g := groups[i];
      forall node: nat
        ensures OfNode(groups[..i + 1], node) == OfNode(groups[..i], node) + (if g.numaNode == node then [g] else [])
      {
        OfNodeExtends(groups[..i], g, node);
        assert groups[..i + 1] == groups[..i] + [g];
      }
      var own := if g.numaNode in byNode then byNode[g.numaNode] else [];
      byNode := byNode[g.numaNode := own + [g]];
    }
    assert groups[..|groups|] == groups;
  }

  /** `whole` cut off at `wanted`. */
  function UpTo(whole: seq<Pair>, wanted: nat): (r: seq<Pair>) {
    if |whole| <= wanted then whole else whole[..wanted]
  }

  lemma UpToSum(done: seq<Pair>, more: seq<Pair>, wanted: nat)
    ensures UpTo(UpTo(done, wanted) + more, wanted) == UpTo(done + more, wanted)
    ensures |UpTo(done, wanted)| == wanted ==> UpTo(done + more, wanted) == UpTo(done, wanted)
  {
  }

  /** One chunk's pairs, until the chunk or the demand is exhausted. */
  method AddChunk(pairs: seq<Pair>, rt: SmtGroup, sq: SmtGroup, node: nat, wanted: nat) returns (r: seq<Pair>)
    requires |pairs| < wanted
    ensures r == UpTo(pairs + FullChunk(rt, sq, node), wanted)
  {
    r := pairs;
    var n := Min(|rt.vcpus|, |sq.vcpus|);
    for i := 0 to n
      invariant |r| <= wanted
      invariant r == pairs + ChunkPairs(rt, sq, node, i)
    {
      if |r| == wanted {
        assert FullChunk(rt, sq, node)[..i] == ChunkPairs(rt, sq, node, i);
        assert (pairs + FullChunk(rt, sq, node))[..wanted] == r;
        return;
      }
      r := r + [Pair(rt.vcpus[i], sq.vcpus[i], node)];
      assert ChunkPairs(rt, sq, node, i + 1) == ChunkPairs(rt, sq, node, i) + [Pair(rt.vcpus[i], sq.vcpus[i], node)];
    }
  }

  /** The chunks of one node. */
  method AddNode(pairs: seq<Pair>, groups: seq<SmtGroup>, node: nat, wanted: nat) returns (r: seq<Pair>)
    requires |pairs| <= wanted
    ensures r == UpTo(pairs + NodePairs(groups, node), wanted)
  {
    r := pairs;
    var next := 0;
    while true
      invariant next <= |groups| && |r| <= wanted
      invariant UpTo(r + NodePairs(groups[next..], node), wanted) == UpTo(pairs + NodePairs(groups, node), wanted)
      decreases |groups| - next
    {
      if |r| == wanted {
        UpToSum(r, NodePairs(groups[next..], node), wanted);
        return;
      }
      if next + 2 > |groups| {
        assert NodePairs(groups[next..], node) == [];
        assert r + [] == r;
        return;
      }
      var rt, sq := groups[next], groups[next + 1];
      assert groups[next..][2..] == groups[next + 2..];
      ghost var chunk, rest := FullChunk(rt, sq, node), NodePairs(groups[next + 2..], node);
      assert NodePairs(groups[next..], node) == chunk + rest;
      assert r + (chunk + rest) == (r + chunk) + rest;
      UpToSum(r + chunk, rest, wanted);
      r := AddChunk(r, rt, sq, node, wanted);
      next := next + 2;
    }
  }

  /** Nodes without groups add nothing. */
  lemma {:induction false} EmptyNodes(usable: seq<SmtGroup>, low: nat, high: nat)
    requires low <= high && forall node | low <= node < high :: OfNode(usable, node) == []
    ensures PairsBelow(usable, high) == PairsBelow(usable, low)
    decreases high
  {
    if low < high {
      EmptyNodes(usable, low, high - 1);
    }
  }

  lemma {:induction false} OfNodeMembers(groups: seq<SmtGroup>, node: nat)
    ensures forall g :: g in OfNode(groups, node) <==> g in groups && g.numaNode == node
  {
    if groups != [] {
      OfNodeMembers(groups[1..], node);
    }
  }

  lemma {:induction false} NoNodesAbove(usable: seq<SmtGroup>, node: nat)
    requires NodesBelow(usable, node)
    ensures OfNode(usable, node) == []
  {
    if usable != [] {
      NoNodesAbove(usable[1..], node);
    }
  }

  lemma NothingBelowZero(usable: seq<SmtGroup>)
    ensures PairsBelow(usable, 0) == []
  {
  }

  lemma OneMoreNode(usable: seq<SmtGroup>, node: nat)
    ensures PairsBelow(usable, node + 1) == PairsBelow(usable, node) + NodePairs(OfNode(usable, node), node)
  {
  }

  /** The full plan does not depend on how far above the last node it looks. */
  lemma NodesDone(usable: seq<SmtGroup>, floor: nat)
    requires forall node: nat | floor <= node :: OfNode(usable, node) == []
    ensures PairsBelow(usable, floor) == PairsBelow(usable, NodeBound(usable))
  {
    var bound := NodeBound(usable);
    if floor <= bound {
      EmptyNodes(usable, floor, bound);
    } else {
      forall node | bound <= node < floor ensures OfNode(usable, node) == [] {
        NoNodesAbove(usable, node);
      }
      EmptyNodes(usable, bound, floor);
    }
  }

  lemma {:induction false} EarlierNodesFirst(usable: seq<SmtGroup>, low: nat, high: nat)
    requires low <= high
    ensures PairsBelow(usable, low) <= PairsBelow(usable, high)
    decreases high
  {
    if low < high {
      EarlierNodesFirst(usable, low, high - 1);
    }
  }

  /** Stopping early is right: the pairs of the remaining nodes come later in the full plan. */
  lemma EnoughAlready(usable: seq<SmtGroup>, floor: nat, wanted: nat)
    requires |UpTo(PairsBelow(usable, floor), wanted)| == wanted
    ensures var full := PairsBelow(usable, NodeBound(usable));
            wanted <= |full| && full[..wanted] == UpTo(PairsBelow(usable, floor), wanted)
  {
    var bound := NodeBound(usable);
    if floor <= bound {
      EarlierNodesFirst(usable, floor, bound);
    } else {
      forall node | bound <= node < floor ensures OfNode(usable, node) == [] {
        NoNodesAbove(usable, node);
      }
      EmptyNodes(usable, bound, floor);
    }
  }

  /**
   plan_pairs: with enough pairs, the first `wanted` of the full plan; otherwise a
   failure that says how many there were.
  */
  method PlanPairs(allowedVcpus: seq<nat>, groups: seq<SmtGroup>, wanted: nat) returns (plan: Plan)
    ensures var full := FullPlan(groups, set v | v in allowedVcpus);
            plan == if wanted <= |full| then Placed(full[..wanted]) else NotPlaced(|full|)
  {
    hide OfNode, PairsBelow, NodePairs;
    var allowed := set v | v in allowedVcpus;
    var usable := FilterUsable(groups, allowed);
    var byNode := GroupByNode(usable);
    var pairs: seq<Pair> := [];
    var nodes := byNode.Keys;
    ghost var floor: nat := 0;
    assert PairsBelow(usable, 0) == [] by { NothingBelowZero(usable); }
    while nodes != {}
      invariant nodes <= byNode.Keys && |pairs| <= wanted
      invariant forall node | node in byNode.Keys :: node in nodes <==> floor <= node
      invariant pairs == UpTo(PairsBelow(usable, floor), wanted)
      decreases nodes
    {
      if |pairs| == wanted {
        EnoughAlready(usable, floor, wanted);
        return Placed(pairs);
      }
      var node := Least(nodes);
      EmptyNodes(usable, floor, node);
      OneMoreNode(usable, node);
      UpToSum(PairsBelow(usable, node), NodePairs(OfNode(usable, node), node), wanted);
      pairs := AddNode(pairs, byNode[node], node, wanted);
      nodes := nodes - {node};
      floor := node + 1;
    }
    assert forall node: nat | floor <= node :: node !in byNode.Keys;
    NodesDone(usable, floor);
    plan := if |pairs| < wanted then NotPlaced(|pairs|) else Placed(pairs);
  }

  // ----- which pairs a plan has -----

  /** The pair joins the i-th vCPUs of the groups at positions j and j + 1 of its node. */
  ghost predicate PairOfChunk(p: Pair, groups: seq<SmtGroup>, j: nat, i: nat) {
    && j % 2 == 0 && j + 1 < |groups|
    && i < |groups[j].vcpus| && i < |groups[j + 1].vcpus|
    && p.runtime == groups[j].vcpus[i] && p.sqpoll == groups[j + 1].vcpus[i]
  }

  /** The pair is one that adjacent groups give: those at positions 0 and 1, 2 and 3, and so on. */
  ghost predicate InChunks(p: Pair, groups: seq<SmtGroup>) {
    exists j: nat, i: nat :: PairOfChunk(p, groups, j, i)
  }

  lemma {:induction false} NodePairsExactly(groups: seq<SmtGroup>, node: nat, p: Pair)
    ensures p in NodePairs(groups, node)
       <==> p.numaNode == node && InChunks(p, groups)
  {
    if |groups| >= 2 {
      var rest := groups[2..];
      NodePairsExactly(rest, node, p);
      if p in FullChunk(groups[0], groups[1], node) {
        var i :| 0 <= i < Min(|groups[0].vcpus|, |groups[1].vcpus|) && FullChunk(groups[0], groups[1], node)[i] == p;
        assert PairOfChunk(p, groups, 0, i);
      }
      if j: nat, i: nat :| PairOfChunk(p, rest, j, i) {
        assert PairOfChunk(p, groups, j + 2, i);
      }
      if j: nat, i: nat :| PairOfChunk(p, groups, j, i) {
        if j == 0 {
          assert p.numaNode == node ==> FullChunk(groups[0], groups[1], node)[i] == p;
        } else {
          assert PairOfChunk(p, rest, j - 2, i);
        }
      }
    }
  }

  lemma {:induction false} PairsBelowExactly(usable: seq<SmtGroup>, bound: nat, p: Pair)
    ensures p in PairsBelow(usable, bound)
       <==> p.numaNode < bound && InChunks(p, OfNode(usable, p.numaNode))
    decreases bound
  {
    hide InChunks, NodePairs, OfNode;
    if bound > 0 {
      PairsBelowExactly(usable, bound - 1, p);
      NodePairsExactly(OfNode(usable, bound - 1), bound - 1, p);
    }
  }

  lemma NoPairWithoutGroups(p: Pair)
    ensures !InChunks(p, [])
  {
  }

  /**
   The full plan has exactly the pairs of equal rank of two adjacent usable groups of a node,
   counted from its first usable group; an odd last group is left out.
  */
  lemma FullPlanExactly(groups: seq<SmtGroup>, allowed: set<nat>, p: Pair)
    ensures p in FullPlan(groups, allowed)
       <==> InChunks(p, OfNode(Usable(groups, allowed), p.numaNode))
  {
    hide InChunks, OfNode, Usable, PairsBelow;
    var usable := Usable(groups, allowed);
    PairsBelowExactly(usable, NodeBound(usable), p);
    if p.numaNode >= NodeBound(usable) {
      NoNodesAbove(usable, p.numaNode);
      NoPairWithoutGroups(p);
    }
  }

  // ----- what a plan is worth -----

  /** No vCPU is listed twice, in one group or in two. */
  ghost predicate Physical(groups: seq<SmtGroup>) {
    && (forall i | 0 <= i < |groups| :: NoDuplicates(groups[i].vcpus))
    && (forall i, j | 0 <= i < j < |groups| :: Apart(groups[i].vcpus, groups[j].vcpus))
  }

  /** All vCPUs of a plan, over both roles. */
  function Cpus(pairs: seq<Pair>): (r: seq<nat>) {
    if pairs == [] then [] else [pairs[0].runtime, pairs[0].sqpoll] + Cpus(pairs[1..])
  }

  ghost predicate Covered(v: nat, groups: seq<SmtGroup>) {
    exists g :: g in groups && v in g.vcpus
  }

  /** The two ends of a pair are allowed vCPUs of two groups of its node that share none. */
  ghost predicate PairOk(p: Pair, groups: seq<SmtGroup>, allowed: set<nat>) {
    exists g, h :: g in groups && h in groups && EndsIn(p, g, h, allowed)
  }

  ghost predicate EndsIn(p: Pair, g: SmtGroup, h: SmtGroup, allowed: set<nat>) {
    && g.numaNode == h.numaNode == p.numaNode
    && p.runtime in g.vcpus && p.sqpoll in h.vcpus
    && p.runtime in allowed && p.sqpoll in allowed
    && Apart(g.vcpus, h.vcpus)
  }

  lemma {:induction false} CpusSum(a: seq<Pair>, b: seq<Pair>)
    ensures Cpus(a + b) == Cpus(a) + Cpus(b)
  {
    if a == [] {
      assert a + b == b;
    } else {
      CpusSum(a[1..], b);
      assert (a + b)[1..] == a[1..] + b;
    }
  }

  lemma Extended(s: seq<nat>, n: nat)
    requires NoDuplicates(s) && n < |s|
    ensures s[n] !in s[..n] && s[..n + 1] == s[..n] + [s[n]] && s[n] in s
    ensures forall v | v in s[..n] :: v in s
  {
  }

  lemma TwoCpus(x: nat, y: nat)
    requires x != y
    ensures NoDuplicates([x, y])
  {
  }

  /** A chunk uses each of its two groups' vCPUs at most once. */
  lemma {:induction false} ChunkUses(rt: SmtGroup, sq: SmtGroup, node: nat, n: nat)
    requires n <= |rt.vcpus| && n <= |sq.vcpus|
    requires NoDuplicates(rt.vcpus) && NoDuplicates(sq.vcpus) && Apart(rt.vcpus, sq.vcpus)
    ensures NoDuplicates(Cpus(ChunkPairs(rt, sq, node, n)))
    ensures forall v :: v in Cpus(ChunkPairs(rt, sq, node, n)) <==> v in rt.vcpus[..n] || v in sq.vcpus[..n]
    decreases n
  {
    hide NoDuplicates;
    if n == 0 {
      NoneUsed();
    } else {
      ChunkUses(rt, sq, node, n - 1);
      var before, last := ChunkPairs(rt, sq, node, n - 1), [Pair(rt.vcpus[n - 1], sq.vcpus[n - 1], node)];
      assert ChunkPairs(rt, sq, node, n) == before + last;
      CpusSum(before, last);
      var x, y := rt.vcpus[n - 1], sq.vcpus[n - 1];
      assert Cpus(last) == [x, y];
      Extended(rt.vcpus, n - 1);
      Extended(sq.vcpus, n - 1);
      TwoCpus(x, y);
      NoDuplicatesSum(Cpus(before), [x, y]);
    }
  }

  lemma NoneUsed()
    ensures NoDuplicates([])
  {
  }

  lemma FullChunkUses(rt: SmtGroup, sq: SmtGroup, node: nat)
    requires NoDuplicates(rt.vcpus) && NoDuplicates(sq.vcpus) && Apart(rt.vcpus, sq.vcpus)
    ensures NoDuplicates(Cpus(FullChunk(rt, sq, node)))
    ensures forall v | v in Cpus(FullChunk(rt, sq, node)) :: v in rt.vcpus || v in sq.vcpus
  {
    hide NoDuplicates, Apart;
    ChunkUses(rt, sq, node, Min(|rt.vcpus|, |sq.vcpus|));
  }

  lemma RestIsPhysical(groups: seq<SmtGroup>)
    requires Physical(groups) && |groups| >= 2
    ensures Physical(groups[2..])
    ensures NoDuplicates(groups[0].vcpus) && NoDuplicates(groups[1].vcpus) && Apart(groups[0].vcpus, groups[1].vcpus)
    ensures forall g | g in groups[2..] :: Apart(groups[0].vcpus, g.vcpus) && Apart(groups[1].vcpus, g.vcpus)
  {
    hide NoDuplicates, Apart;
    var rest := groups[2..];
    forall i, j | 0 <= i < j < |rest| ensures Apart(rest[i].vcpus, rest[j].vcpus) {
      assert rest[i] == groups[i + 2] && rest[j] == groups[j + 2];
    }
  }

  /** A node uses each vCPU of its groups at most once. */
  lemma {:induction false} NodeUses(groups: seq<SmtGroup>, node: nat)
    requires Physical(groups)
    ensures NoDuplicates(Cpus(NodePairs(groups, node)))
    ensures forall v | v in Cpus(NodePairs(groups, node)) :: Covered(v, groups)
  {
    hide Physical, NoDuplicates, FullChunk;
    if |groups| < 2 {
      NoneUsed();
    } else {
      RestIsPhysical(groups);
      NodeUses(groups[2..], node);
      FullChunkUses(groups[0], groups[1], node);
      var chunk, rest := FullChunk(groups[0], groups[1], node), NodePairs(groups[2..], node);
      CpusSum(chunk, rest);
      forall v | v in Cpus(chunk) ensures v !in Cpus(rest) && Covered(v, groups) {
        assert groups[0] in groups && groups[1] in groups;
      }
      NoDuplicatesSum(Cpus(chunk), Cpus(rest));
    }
  }

  lemma SameGroup(groups: seq<SmtGroup>, g: SmtGroup, h: SmtGroup, v: nat)
    requires Physical(groups) && g in groups && h in groups && v in g.vcpus && v in h.vcpus
    ensures g == h
  {
    var i :| 0 <= i < |groups| && groups[i] == g;
    var j :| 0 <= j < |groups| && groups[j] == h;
    assert i == j;
  }

  lemma PhysicalCons(g: SmtGroup, rest: seq<SmtGroup>)
    requires NoDuplicates(g.vcpus) && Physical(rest) && forall h | h in rest :: Apart(g.vcpus, h.vcpus)
    ensures Physical([g] + rest)
  {
    hide NoDuplicates, Apart;
    var groups := [g] + rest;
    forall i, j | 0 <= i < j < |groups| ensures Apart(groups[i].vcpus, groups[j].vcpus) {
      assert groups[j] == rest[j - 1] && rest[j - 1] in rest;
    }
  }

  lemma PhysicalTail(groups: seq<SmtGroup>)
    requires Physical(groups) && groups != []
    ensures NoDuplicates(groups[0].vcpus) && Physical(groups[1..])
    ensures forall h | h in groups[1..] :: Apart(groups[0].vcpus, h.vcpus)
  {
    hide NoDuplicates, Apart;
    var rest := groups[1..];
    forall i, j | 0 <= i < j < |rest| ensures Apart(rest[i].vcpus, rest[j].vcpus) {
      assert rest[i] == groups[i + 1] && rest[j] == groups[j + 1];
    }
  }

  lemma {:induction false} OfNodeIsPhysical(groups: seq<SmtGroup>, node: nat)
    requires Physical(groups)
    ensures Physical(OfNode(groups, node))
  {
    if groups != [] {
      PhysicalTail(groups);
      OfNodeIsPhysical(groups[1..], node);
      OfNodeMembers(groups[1..], node);
      hide Physical, NoDuplicates, Apart;
      if groups[0].numaNode == node {
        PhysicalCons(groups[0], OfNode(groups[1..], node));
      } else {
        assert [] + OfNode(groups[1..], node) == OfNode(groups[1..], node);
      }
    }
  }

  lemma {:induction false} UsableMembers(groups: seq<SmtGroup>, allowed: set<nat>)
    ensures forall g :: g in Usable(groups, allowed) <==> g in groups && IsUsable(g, allowed)
  {
    if groups != [] {
      UsableMembers(groups[1..], allowed);
    }
  }

  lemma {:induction false} UsableIsPhysical(groups: seq<SmtGroup>, allowed: set<nat>)
    requires Physical(groups)
    ensures Physical(Usable(groups, allowed))
  {
    if groups != [] {
      PhysicalTail(groups);
      UsableIsPhysical(groups[1..], allowed);
      UsableMembers(groups[1..], allowed);
      hide Physical, NoDuplicates, Apart, IsUsable;
      if IsUsable(groups[0], allowed) {
        PhysicalCons(groups[0], Usable(groups[1..], allowed));
      } else {
        assert [] + Usable(groups[1..], allowed) == Usable(groups[1..], allowed);
      }
    }
  }

  /** No vCPU of the nodes below is used again by the next node. */
  lemma {:induction false} BelowUses(usable: seq<SmtGroup>, bound: nat)
    requires Physical(usable)
    ensures NoDuplicates(Cpus(PairsBelow(usable, bound)))
    ensures forall v | v in Cpus(PairsBelow(usable, bound)) ::
              exists g :: g in usable && g.numaNode < bound && v in g.vcpus
    decreases bound
  {
    hide Physical, NoDuplicates, NodePairs, OfNode;
    if bound == 0 {
      NoneUsed();
    } else {
      var node := bound - 1;
      BelowUses(usable, node);
      OfNodeIsPhysical(usable, node);
      OfNodeMembers(usable, node);
      NodeUses(OfNode(usable, node), node);
      var below, here := PairsBelow(usable, node), NodePairs(OfNode(usable, node), node);
      CpusSum(below, here);
      forall v | v in Cpus(below) ensures v !in Cpus(here) {
        if v in Cpus(here) {
          var g :| g in usable && g.numaNode < node && v in g.vcpus;
          var h :| h in OfNode(usable, node) && v in h.vcpus;
          SameGroup(usable, g, h, v);
        }
      }
      NoDuplicatesSum(Cpus(below), Cpus(here));
    }
  }

  lemma ChunkEnds(rt: SmtGroup, sq: SmtGroup, node: nat, allowed: set<nat>)
    requires rt.numaNode == sq.numaNode == node && IsUsable(rt, allowed) && IsUsable(sq, allowed)
    requires Apart(rt.vcpus, sq.vcpus)
    ensures forall p | p in FullChunk(rt, sq, node) :: EndsIn(p, rt, sq, allowed)
  {
  }

  lemma {:induction false} NodeEnds(groups: seq<SmtGroup>, node: nat, allowed: set<nat>)
    requires Physical(groups) && forall g | g in groups :: g.numaNode == node && IsUsable(g, allowed)
    ensures forall p | p in NodePairs(groups, node) :: PairOk(p, groups, allowed)
  {
    if |groups| >= 2 {
      RestIsPhysical(groups);
      hide Physical, IsUsable, EndsIn, Apart, NoDuplicates, FullChunk;
      NodeEnds(groups[2..], node, allowed);
      assert groups[0] in groups && groups[1] in groups;
      ChunkEnds(groups[0], groups[1], node, allowed);
    }
  }

  lemma {:induction false} BelowEnds(usable: seq<SmtGroup>, bound: nat, allowed: set<nat>)
    requires Physical(usable) && forall g | g in usable :: IsUsable(g, allowed)
    ensures forall p | p in PairsBelow(usable, bound) :: PairOk(p, usable, allowed)
    decreases bound
  {
    hide Physical, IsUsable, EndsIn, OfNode, NodePairs;
    if bound > 0 {
      BelowEnds(usable, bound - 1, allowed);
      OfNodeIsPhysical(usable, bound - 1);
      OfNodeMembers(usable, bound - 1);
      NodeEnds(OfNode(usable, bound - 1), bound - 1, allowed);
    }
  }

  /** A plan of any size: no vCPU in it twice, whatever the roles, and every pair sound. */
  lemma PlanIsSound(groups: seq<SmtGroup>, allowed: set<nat>, wanted: nat)
    requires Physical(groups) && wanted <= |FullPlan(groups, allowed)|
    ensures var pairs := FullPlan(groups, allowed)[..wanted];
            NoDuplicates(Cpus(pairs)) && forall p | p in pairs :: PairOk(p, groups, allowed)
  {
    hide Physical, NoDuplicates, IsUsable, EndsIn, Usable, PairsBelow;
    var usable := Usable(groups, allowed);
    UsableIsPhysical(groups, allowed);
    UsableMembers(groups, allowed);
    BelowUses(usable, NodeBound(usable));
    BelowEnds(usable, NodeBound(usable), allowed);
    var full := FullPlan(groups, allowed);
    assert full == full[..wanted] + full[wanted..];
    CpusSum(full[..wanted], full[wanted..]);
    NoDuplicatesParts(Cpus(full[..wanted]), Cpus(full[wanted..]));
    forall p | p in full[..wanted] ensures PairOk(p, groups, allowed) {
      assert p in full;
    }
  }
}
