/** Sorting the interface list in place by relinking its nodes. */
module IfSort {

  // ----- strcmp and if_sort -----

  /** strcmp: negative, zero or positive. */
  function Strcmp(a: string, b: string): int
    decreases |a|
  {
    if a == [] then (if b == [] then 0 else -1)
    else if b == [] then 1
    else if a[0] < b[0] then -1
    else if b[0] < a[0] then 1
    else Strcmp(a[1..], b[1..])
  }

  lemma {:induction false} StrcmpEqual(a: string, b: string)
    ensures Strcmp(a, b) == 0 <==> a == b
    ensures Strcmp(a, b) > 0 <==> Strcmp(b, a) < 0
    decreases |a|
  {
    if a != [] && b != [] {
      StrcmpEqual(a[1..], b[1..]);
      assert a == [a[0]] + a[1..] && b == [b[0]] + b[1..];
    }
  }

  lemma {:induction false} StrcmpTransitive(a: string, b: string, c: string)
    requires Strcmp(a, b) <= 0 && Strcmp(b, c) <= 0
    ensures Strcmp(a, c) <= 0
    ensures Strcmp(a, c) == 0 ==> Strcmp(a, b) == 0 && Strcmp(b, c) == 0
    decreases |a|
  {
    if a != [] && b != [] && c != [] && a[0] == b[0] == c[0] {
      StrcmpTransitive(a[1..], b[1..], c[1..]);
    }
  }

  /** strchr(s, '_') as an index. */
  function Underscore(s: string): (i: nat)
    requires '_' in s
    ensures i < |s| && s[i] == '_' && '_' !in s[..i]
  {
    if s[0] == '_' then 0
    else
      assert s == [s[0]] + s[1..];
      var i := 1 + Underscore(s[1..]);
      assert s[..i] == [s[0]] + s[1..][..i - 1];
      i
  }

  function Prefix(s: string): string
    requires '_' in s
  {
    s[..Underscore(s)]
  }

  function Suffix(s: string): string
    requires '_' in s
  {
    s[Underscore(s) + 1..]
  }

  /** if_sort: prefixes first, then suffixes. */
  function IfSort(s1: string, s2: string): int
    requires '_' in s1 && '_' in s2
  {
    var retval := Strcmp(Prefix(s1), Prefix(s2));
    if retval != 0 then retval else Strcmp(Suffix(s1), Suffix(s2))
  }

  /** if_sort is a total order on names with an underscore. */
  lemma IfSortEqual(a: string, b: string)
    requires '_' in a && '_' in b
    ensures IfSort(a, b) == 0 <==> a == b
    ensures IfSort(a, b) > 0 <==> IfSort(b, a) < 0
  {
    StrcmpEqual(Prefix(a), Prefix(b));
    StrcmpEqual(Suffix(a), Suffix(b));
    StrcmpEqual(Prefix(b), Prefix(a));
    StrcmpEqual(Suffix(b), Suffix(a));
    assert a == Prefix(a) + "_" + Suffix(a) && b == Prefix(b) + "_" + Suffix(b);
  }

  lemma IfSortTransitive(a: string, b: string, c: string)
    requires '_' in a && '_' in b && '_' in c
    requires IfSort(a, b) <= 0 && IfSort(b, c) <= 0
    ensures IfSort(a, c) <= 0
  {
    StrcmpEqual(Prefix(a), Prefix(b));
    StrcmpEqual(Prefix(b), Prefix(c));
    StrcmpTransitive(Prefix(a), Prefix(b), Prefix(c));
    if Prefix(a) == Prefix(b) == Prefix(c) {
      StrcmpTransitive(Suffix(a), Suffix(b), Suffix(c));
    }
  }

  // ----- The order it is -----

  /** Alphabetical order: up to some place the strings agree, and there `a` ends or has the smaller character. */
  ghost predicate Precedes(a: string, b: string) {
    exists k {:trigger a[..k]} :: 0 <= k <= |a| && k < |b| && a[..k] == b[..k] && (k == |a| || a[k] < b[k])
  }

  /** `name` is `first`, an underscore, and `rest`; the underscore is the first one. */
  ghost predicate Parts(name: string, first: string, rest: string) {
    name == first + "_" + rest && '_' !in first
  }

  /** The first parts decide; where they are the same, the rests. */
  ghost predicate Earlier(a1: string, a2: string, b1: string, b2: string) {
    Precedes(a1, b1) || (a1 == b1 && Precedes(a2, b2))
  }

  ghost predicate Before(a: string, b: string) {
    exists a1, a2, b1, b2 :: Parts(a, a1, a2) && Parts(b, b1, b2) && Earlier(a1, a2, b1, b2)
  }

  lemma {:induction false} StrcmpOrder(a: string, b: string)
    ensures Strcmp(a, b) < 0 <==> Precedes(a, b)
    decreases |a|
  {
    if a == [] {
      assert b != [] ==> a[..0] == b[..0];
    } else if b != [] {
      StrcmpOrder(a[1..], b[1..]);
      if Strcmp(a, b) < 0 && a[0] == b[0] {
        var k :| 0 <= k <= |a[1..]| && k < |b[1..]| && a[1..][..k] == b[1..][..k]
          && (k == |a[1..]| || a[1..][k] < b[1..][k]);
        assert a[..k + 1] == [a[0]] + a[1..][..k] && b[..k + 1] == [b[0]] + b[1..][..k];
      } else if Strcmp(a, b) < 0 {
        assert a[..0] == b[..0];
      }
      if Precedes(a, b) {
        PrecedesTail(a, b);
      }
    }
  }

  lemma PrecedesTail(a: string, b: string)
    requires a != [] && b != [] && Precedes(a, b)
    ensures a[0] < b[0] || (a[0] == b[0] && Precedes(a[1..], b[1..]))
  {
    var k :| 0 <= k <= |a| && k < |b| && a[..k] == b[..k] && (k == |a| || a[k] < b[k]);
    if k > 0 {
      assert a[..k][0] == b[..k][0];
      assert a[1..][..k - 1] == a[..k][1..] && b[1..][..k - 1] == b[..k][1..];
    }
  }

  /** There is one way to take a name apart. */
  lemma PartsOnce(name: string, first: string, rest: string)
    requires '_' in name
    ensures Parts(name, first, rest) <==> first == Prefix(name) && rest == Suffix(name)
  {
    var i := Underscore(name);
    assert name == name[..i] + "_" + name[i + 1..];
    if Parts(name, first, rest) {
      assert name[|first|] == '_' && name[..|first|] == first && name[|first| + 1..] == rest;
    }
  }

  /** A string does not precede itself. */
  lemma NotBoth(a: string, b: string)
    ensures Precedes(a, b) ==> a != b
  {
    StrcmpOrder(a, b);
    StrcmpEqual(a, b);
  }

  lemma BeforeIs(a: string, b: string)
    requires '_' in a && '_' in b
    ensures Before(a, b) <==> Earlier(Prefix(a), Suffix(a), Prefix(b), Suffix(b))
  {
    PartsOnce(a, Prefix(a), Suffix(a));
    PartsOnce(b, Prefix(b), Suffix(b));
    hide Earlier, Prefix, Suffix, Parts;
    if Before(a, b) {
      var a1, a2, b1, b2 :| Parts(a, a1, a2) && Parts(b, b1, b2) && Earlier(a1, a2, b1, b2);
      PartsOnce(a, a1, a2);
      PartsOnce(b, b1, b2);
    }
  }

  /** if_sort is that order. */
  lemma IfSortOrder(a: string, b: string)
    requires '_' in a && '_' in b
    ensures IfSort(a, b) < 0 <==> Before(a, b)
  {
    StrcmpOrder(Prefix(a), Prefix(b));
    StrcmpOrder(Suffix(a), Suffix(b));
    StrcmpEqual(Prefix(a), Prefix(b));
    NotBoth(Prefix(a), Prefix(b));
    BeforeIs(a, b);
    hide Precedes, Strcmp, Prefix, Suffix, Before;
  }

  // ----- Lists -----

  class Iface {
    const name: string
    var next: Iface?

    constructor (name: string)
      ensures this.name == name && next == null
    {
      this.name := name;
      next := null;
    }
  }

  ghost predicate Named(nodes: seq<Iface>) {
    forall i {:trigger nodes[i]} :: 0 <= i < |nodes| ==> '_' in nodes[i].name
  }

  /** The k-th and the next node are out of order. */
  predicate Wrong(a: Iface, b: Iface)
    requires '_' in a.name && '_' in b.name
  {
    IfSort(a.name, b.name) > 0
  }

  /** No node stands behind one that its name comes before. */
  ghost predicate Sorted(nodes: seq<Iface>) {
    forall i, j {:trigger nodes[i], nodes[j]} :: 0 <= i < j < |nodes| ==> !Before(nodes[j].name, nodes[i].name)
  }

  /** The nodes of one name, in list order. */
  ghost function OfName(nodes: seq<Iface>, name: string): seq<Iface> {
    if nodes == [] then []
    else (if nodes[0].name == name then [nodes[0]] else []) + OfName(nodes[1..], name)
  }

  /** The same nodes, with nodes of equal name in the same order. */
  ghost predicate Stable(nodes: seq<Iface>, nodes': seq<Iface>) {
    multiset(nodes) == multiset(nodes') && forall name :: OfName(nodes, name) == OfName(nodes', name)
  }

  // ----- Inversions -----

  /** How many of `nodes` belong before a node of name `name`. */
  ghost function Smaller(a: Iface, nodes: seq<Iface>): nat
    requires '_' in a.name && Named(nodes)
  {
    if nodes == [] then 0
    else (if Wrong(a, nodes[0]) then 1 else 0) + Smaller(a, nodes[1..])
  }

  ghost function Inversions(nodes: seq<Iface>): nat
    requires Named(nodes)
  {
    if nodes == [] then 0
    else Smaller(nodes[0], nodes[1..]) + Inversions(nodes[1..])
  }

  /** Nodes i and i + 1 exchanged. */
  ghost function Swapped(nodes: seq<Iface>, i: nat): (r: seq<Iface>)
    requires i + 1 < |nodes|
    ensures |r| == |nodes|
  {
    nodes[..i] + [nodes[i + 1], nodes[i]] + nodes[i + 2..]
  }

  lemma SwappedTail(nodes: seq<Iface>, i: nat)
    requires 0 < i && i + 1 < |nodes|
    ensures Swapped(nodes, i)[0] == nodes[0] && Swapped(nodes, i)[1..] == Swapped(nodes[1..], i - 1)
  {
  }

  lemma SwappedHead(nodes: seq<Iface>)
    requires 1 < |nodes|
    ensures Swapped(nodes, 0) == [nodes[1], nodes[0]] + nodes[2..]
    ensures nodes == [nodes[0], nodes[1]] + nodes[2..]
  {
  }

  lemma SwappedNamed(nodes: seq<Iface>, i: nat)
    requires i + 1 < |nodes| && Named(nodes)
    ensures Named(Swapped(nodes, i))
  {
  }

  lemma {:induction false} SmallerSwapped(a: Iface, nodes: seq<Iface>, i: nat)
    requires '_' in a.name && Named(nodes) && i + 1 < |nodes|
    ensures Named(Swapped(nodes, i)) && Smaller(a, Swapped(nodes, i)) == Smaller(a, nodes)
    decreases |nodes|
  {
    SwappedNamed(nodes, i);
    var s := Swapped(nodes, i);
    if i == 0 {
      SwappedHead(nodes);
      assert s[1..] == [nodes[0]] + nodes[2..] && s[1..][1..] == nodes[2..];
      assert nodes[1..] == [nodes[1]] + nodes[2..] && nodes[1..][1..] == nodes[2..];
    } else {
      SwappedTail(nodes, i);
      SmallerSwapped(a, nodes[1..], i - 1);
    }
  }

  /** Exchanging two neighbours that are out of order removes exactly one inversion. */
  lemma {:induction false} SwapRemovesInversion(nodes: seq<Iface>, i: nat)
    requires Named(nodes) && i + 1 < |nodes| && Wrong(nodes[i], nodes[i + 1])
    ensures Named(Swapped(nodes, i)) && Inversions(Swapped(nodes, i)) + 1 == Inversions(nodes)
    decreases |nodes|
  {
    SwappedNamed(nodes, i);
    var s := Swapped(nodes, i);
    if i == 0 {
      SwappedHead(nodes);
      IfSortEqual(nodes[0].name, nodes[1].name);
      assert s[1..] == [nodes[0]] + nodes[2..] && s[1..][1..] == nodes[2..];
      assert nodes[1..] == [nodes[1]] + nodes[2..] && nodes[1..][1..] == nodes[2..];
    } else {
      SwappedTail(nodes, i);
      SmallerSwapped(nodes[0], nodes[1..], i - 1);
      SwapRemovesInversion(nodes[1..], i - 1);
    }
  }

  lemma {:induction false} SwapKeepsName(nodes: seq<Iface>, i: nat, name: string)
    requires i + 1 < |nodes| && nodes[i].name != nodes[i + 1].name
    ensures OfName(Swapped(nodes, i), name) == OfName(nodes, name)
    decreases |nodes|
  {
    var s := Swapped(nodes, i);
    if i == 0 {
      SwappedHead(nodes);
      assert s[1..] == [nodes[0]] + nodes[2..] && s[1..][1..] == nodes[2..];
      assert nodes[1..] == [nodes[1]] + nodes[2..] && nodes[1..][1..] == nodes[2..];
    } else {
      SwappedTail(nodes, i);
      SwapKeepsName(nodes[1..], i - 1, name);
    }
  }

  lemma SwapStable(nodes: seq<Iface>, i: nat)
    requires Named(nodes) && i + 1 < |nodes| && Wrong(nodes[i], nodes[i + 1])
    ensures Stable(nodes, Swapped(nodes, i))
  {
    IfSortEqual(nodes[i].name, nodes[i + 1].name);
    forall name
      ensures OfName(nodes, name) == OfName(Swapped(nodes, i), name)
    {
      SwapKeepsName(nodes, i, name);
    }
    assert nodes == nodes[..i] + [nodes[i], nodes[i + 1]] + nodes[i + 2..];
  }

  /** Neighbours in order everywhere: the list is sorted. */
  lemma {:induction false} NeighboursSorted(nodes: seq<Iface>, i: nat, j: nat)
    requires Named(nodes) && i < j < |nodes|
    requires OrderedUpTo(nodes, |nodes|)
    ensures IfSort(nodes[i].name, nodes[j].name) <= 0
    decreases j - i
  {
    assert !Wrong(nodes[j - 1], nodes[j]);
    if i < j - 1 {
      NeighboursSorted(nodes, i, j - 1);
      IfSortTransitive(nodes[i].name, nodes[j - 1].name, nodes[j].name);
    }
  }

  // ----- sort_if_table -----

  ghost function NextOf(nodes: seq<Iface>, i: nat): Iface? {
    if i + 1 < |nodes| then nodes[i + 1] else null
  }

  lemma SwappedWithin(nodes: seq<Iface>, i: nat, S: set<Iface>)
    requires i + 1 < |nodes| && Within(nodes, S)
    ensures Within(Swapped(nodes, i), S)
  {
  }

  lemma StableTransitive(a: seq<Iface>, b: seq<Iface>, c: seq<Iface>)
    requires Stable(a, b) && Stable(b, c)
    ensures Stable(a, c)
  {
    forall name
      ensures OfName(a, name) == OfName(c, name)
    {
      assert OfName(a, name) == OfName(b, name);
    }
  }

  ghost predicate Within(nodes: seq<Iface>, S: set<Iface>) {
    forall i {:trigger nodes[i]} :: 0 <= i < |nodes| ==> nodes[i] in S
  }

  /** No neighbours among the first `n` nodes are out of order. */
  ghost predicate OrderedUpTo(nodes: seq<Iface>, n: int)
    requires Named(nodes)
  {
    forall k {:trigger nodes[k]} :: 0 <= k < n && k + 1 < |nodes| ==> !Wrong(nodes[k], nodes[k + 1])
  }

  /** A walk has come to node `i`: either it has removed an inversion, or there was none so far. */
  ghost predicate Walked(nodes0: seq<Iface>, nodes: seq<Iface>, i: nat, hasSwapped: bool)
    ensures Walked(nodes0, nodes, i, hasSwapped) ==> Named(nodes)
  {
    && Named(nodes0) && Named(nodes) && Stable(nodes0, nodes) && |nodes| == |nodes0|
    && if hasSwapped then Inversions(nodes) < Inversions(nodes0) else nodes == nodes0 && OrderedUpTo(nodes, i)
  }

  lemma WalkStart(nodes: seq<Iface>)
    requires Named(nodes)
    ensures Walked(nodes, nodes, 0, false)
  {
  }

  lemma WalkStep(nodes0: seq<Iface>, before: seq<Iface>, nodes: seq<Iface>, i: nat, hasSwapped: bool, swapped: bool)
    requires Walked(nodes0, before, i, hasSwapped) && Named(before) && Named(nodes) && Stable(before, nodes)
    requires |nodes| == |before| && i + 1 < |before|
    requires swapped ==> Inversions(nodes) < Inversions(before)
    requires !swapped ==> nodes == before && !Wrong(before[i], before[i + 1])
    ensures Walked(nodes0, nodes, i + 1, hasSwapped || swapped)
  {
    StableTransitive(nodes0, before, nodes);
    hide Stable, Inversions, Wrong;
  }

  lemma WalkEnd(nodes0: seq<Iface>, nodes: seq<Iface>, hasSwapped: bool)
    requires nodes != [] && Walked(nodes0, nodes, |nodes| - 1, hasSwapped)
    ensures Walked(nodes0, nodes, |nodes|, hasSwapped)
  {
    hide Stable, Inversions, Wrong;
  }

  class IfTable {
    var acnIfList: Iface?

    /** The list from acnIfList runs through `nodes`, each once. */
    ghost predicate Linked(nodes: seq<Iface>)
      reads this, nodes
    {
      && acnIfList == (if nodes == [] then null else nodes[0])
      && (forall i, j :: 0 <= i < j < |nodes| ==> nodes[i] != nodes[j])
      && (forall i {:trigger nodes[i]} :: 0 <= i < |nodes| ==> nodes[i].next == NextOf(nodes, i))
    }

    /** The exchange in sort_if_table: p2 = p1->next moves in front of p1. */
    method SwapNext(prev: Iface?, p1: Iface, p2: Iface, ghost nodes: seq<Iface>, ghost i: nat, ghost S: set<Iface>)
      requires Linked(nodes) && Within(nodes, S) && i + 1 < |nodes| && p1 == nodes[i] && p2 == nodes[i + 1]
      requires prev == if i > 0 then nodes[i - 1] else null
      modifies this, S
      ensures Linked(Swapped(nodes, i)) && p2.next == p1
    {
      var temp := p2.next;
      if prev != null {
        prev.next := p2;
        p2.next := p1;
        p1.next := temp;
      } else {
        acnIfList := p2;
        p2.next := p1;
        p1.next := temp;
      }
      ghost var s := Swapped(nodes, i);
      assert forall k {:trigger s[k]} :: 0 <= k < |s| ==>
          s[k] == if k == i then p2 else if k == i + 1 then p1 else nodes[k];
    }

    /** One step of the walk at p1, the i-th node. */
    method Step(prev: Iface?, p1: Iface, p2: Iface, ghost nodes: seq<Iface>, ghost i: nat, ghost S: set<Iface>)
        returns (front: Iface, hasSwapped: bool, ghost nodes': seq<Iface>)
      requires Linked(nodes) && Named(nodes) && Within(nodes, S) && i + 1 < |nodes| && p1 == nodes[i]
      requires p2 == nodes[i + 1]
      requires prev == if i > 0 then nodes[i - 1] else null
      modifies this, S
      ensures |nodes'| == |nodes| && front == nodes'[i] && front.next == nodes'[i + 1]
      ensures Linked(nodes') && Named(nodes') && Stable(nodes, nodes') && Within(nodes', S)
      ensures if hasSwapped then Inversions(nodes') < Inversions(nodes)
              else nodes' == nodes && !Wrong(nodes[i], nodes[i + 1])
    {
      if IfSort(p1.name, p2.name) > 0 {
        SwapRemovesInversion(nodes, i);
        SwapStable(nodes, i);
        SwappedWithin(nodes, i, S);
        SwapNext(prev, p1, p2, nodes, i, S);
        nodes' := Swapped(nodes, i);
        front := p2;
        hasSwapped := true;
      } else {
        front, hasSwapped, nodes' := p1, false, nodes;
      }
    }

    lemma ReadNode(nodes: seq<Iface>, i: nat)
      requires Linked(nodes) && i < |nodes|
      ensures nodes[i].next == (if i + 1 < |nodes| then nodes[i + 1] else null) && acnIfList == nodes[0]
    {
    }

    /** One walk along the list; afterwards some inversion is gone, or there was none. */
    method Pass(ghost nodes0: seq<Iface>, ghost S: set<Iface>) returns (hasSwapped: bool, ghost nodes: seq<Iface>)
      requires nodes0 != [] && Linked(nodes0) && Named(nodes0) && Within(nodes0, S)
      modifies this, S
      ensures Linked(nodes) && Walked(nodes0, nodes, |nodes|, hasSwapped) && Within(nodes, S)
    {
      hide *;
      nodes := nodes0;
      WalkStart(nodes0);
      ReadNode(nodes, 0);
      var p1: Iface, prev: Iface? := acnIfList, null;
      hasSwapped := false;
      ghost var i := 0;
      while p1.next != null
        invariant 0 <= i < |nodes| && p1 == nodes[i] && prev == if i > 0 then nodes[i - 1] else null
        invariant Linked(nodes) && Walked(nodes0, nodes, i, hasSwapped) && Within(nodes, S)
        decreases |nodes| - i
      {
        ReadNode(nodes, i);
        ghost var before := nodes;
        var swapped;
        p1, swapped, nodes := Step(prev, p1, p1.next, nodes, i, S);
        WalkStep(nodes0, before, nodes, i, hasSwapped, swapped);
        hasSwapped := hasSwapped || swapped;
        prev := p1;
        p1 := p1.next;
        i := i + 1;
      }
      ReadNode(nodes, i);
      WalkEnd(nodes0, nodes, hasSwapped);
    }

    method SortIfTable(ghost nodes0: seq<Iface>, ghost S: set<Iface>) returns (ghost nodes: seq<Iface>)
      requires Linked(nodes0) && Named(nodes0) && Within(nodes0, S)
      modifies this, S
      ensures Linked(nodes) && Named(nodes) && Sorted(nodes) && Stable(nodes0, nodes)
    {
      nodes := nodes0;
      SortStart(nodes0);
      if acnIfList == null {
        assert nodes0 == [];
        return;
      }
      while true
        invariant nodes != [] && Linked(nodes) && Named(nodes) && Stable(nodes0, nodes) && Within(nodes, S)
        decreases Inversions(nodes)
      {
        ghost var before := nodes;
        var hasSwapped;
        hide Stable, Inversions, Linked, OrderedUpTo, Sorted;
        hasSwapped, nodes := Pass(nodes, S);
        StableTransitive(nodes0, before, nodes);
        if !hasSwapped {
          AllOrdered(nodes);
          return;
        }
      }
    }
  }

  lemma SortStart(nodes: seq<Iface>)
    ensures Stable(nodes, nodes)
  {
  }

  lemma AllOrdered(nodes: seq<Iface>)
    requires Named(nodes) && OrderedUpTo(nodes, |nodes|)
    ensures Sorted(nodes)
  {
    forall i, j | 0 <= i < j < |nodes|
      ensures !Before(nodes[j].name, nodes[i].name)
    {
      NeighboursSorted(nodes, i, j);
      IfSortEqual(nodes[i].name, nodes[j].name);
      IfSortOrder(nodes[j].name, nodes[i].name);
    }
  }
}
