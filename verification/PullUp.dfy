/** or_pullup and and_pullup. The two differ only in which outcome the chain shares, so both are
    PullUp, on the side on which the chain goes on. */
module PullUp {
  import opened Bpf
  import opened Cfg
  import opened Paths
  import opened InEdges
  import opened PullSpec

  // ----- A dominated chain is entered at its front only -----

  lemma {:induction false} WalkConcat(g: Graph, root: Block, d1: seq<bool>, d2: seq<bool>)
    requires Walk(g, root, d1) != null
    ensures Walk(g, root, d1 + d2) == Walk(g, Walk(g, root, d1), d2)
    decreases |d2|
  {
    if d2 == [] {
      assert d1 + d2 == d1;
    } else {
      var init, last := d2[..|d2| - 1], d2[|d2| - 1];
      WalkConcat(g, root, d1, init);
      assert d1 + d2 == (d1 + init) + [last] && d2 == init + [last];
      WalkSnoc(g, root, d1 + init, last);
    }
  }

  /** A path that visits b goes on from there. */
  lemma {:induction false} VisitsSplit(g: Graph, root: Block, ds: seq<bool>, b: Block)
      returns (d1: seq<bool>, d2: seq<bool>)
    requires Visits(g, root, ds, b)
    ensures ds == d1 + d2 && Walk(g, root, d1) == b && Walk(g, b, d2) == Walk(g, root, ds)
    decreases |ds|
  {
    if Walk(g, root, ds) == b {
      d1, d2 := ds, [];
    } else {
      var last := ds[|ds| - 1];
      d1, d2 := VisitsSplit(g, root, ds[..|ds| - 1], b);
      d2 := d2 + [last];
      assert ds == ds[..|ds| - 1] + [last];
      WalkConcat(g, root, d1, d2);
    }
  }

  /** The blocks checked so far: a chain from b, all with the common successor, all in `D`, the blocks listed as
      dominated by b. */
  ghost predicate Checked(g: Graph, D: set<Block>, b: Block, q: seq<Block>, side: bool, common: Block) {
    && common in g && (q != [] ==> q[0] == b)
    && forall i {:trigger q[i]} :: 0 <= i < |q| ==> CheckedAt(g, D, b, q, side, common, i)
  }

  ghost predicate CheckedAt(g: Graph, D: set<Block>, b: Block, q: seq<Block>, side: bool, common: Block, i: int)
    requires 0 <= i < |q|
  {
    && q[i] in g && g[q[i]].test.code.Jmp? && Succ(g[q[i]], !side) == common && q[i] in D
    && (i + 1 < |q| ==> Succ(g[q[i]], side) == q[i + 1])
  }

  lemma {:induction false} CheckedRanks(g: Graph, rank: map<Block, nat>, D: set<Block>, b: Block, q: seq<Block>,
                                        side: bool, common: Block, i: nat, j: nat)
    requires Dag(g, rank) && Checked(g, D, b, q, side, common) && i <= j < |q|
    ensures q[i] in g && q[j] in g && rank[q[j]] + (j - i) <= rank[q[i]] && rank[common] < rank[q[j]]
    decreases j - i
  {
    assert CheckedAt(g, D, b, q, side, common, i) && CheckedAt(g, D, b, q, side, common, j);
    assert DagNode(g, rank, q[i]) && DagNode(g, rank, q[j]);
    if i < j {
      CheckedRanks(g, rank, D, b, q, side, common, i + 1, j);
    }
  }

  /** From one block of the chain the only way to a later one is along the chain. */
  lemma {:induction false} AlongChain(g: Graph, rank: map<Block, nat>, D: set<Block>, b: Block, q: seq<Block>,
                                      side: bool, common: Block, m: nat, k: nat, ds: seq<bool>)
    requires Dag(g, rank) && Checked(g, D, b, q, side, common) && m < k < |q| && Walk(g, q[m], ds) == q[k]
    ensures ds != [] && Walk(g, q[m], ds[..|ds| - 1]) == q[k - 1] && ds[|ds| - 1] == side
    decreases k - m
  {
    CheckedRanks(g, rank, D, b, q, side, common, m, k);
    CheckedRanks(g, rank, D, b, q, side, common, m + 1, k);
    assert CheckedAt(g, D, b, q, side, common, m) && CheckedAt(g, D, b, q, side, common, m + 1);
    assert ds != [];
    var s, rest := ds[0], ds[1..];
    assert ds == [s] + rest;
    assert DagNode(g, rank, q[m]);
    WalkCons(g, q[m], s, rest);
    if s != side {
      NotUp(g, rank, common, rest, q[k]);
      assert false;
    }
    if m + 1 == k {
      RootPath(g, rank, q[k], rest);
      assert ds == [side] && ds[..|ds| - 1] == [];
    } else {
      AlongChain(g, rank, D, b, q, side, common, m + 1, k, rest);
      assert ds[..|ds| - 1] == [side] + rest[..|rest| - 1];
      WalkCons(g, q[m], side, rest[..|rest| - 1]);
    }
  }

  /** Paths never go up. */
  lemma NotUp(g: Graph, rank: map<Block, nat>, x: Block, ds: seq<bool>, y: Block)
    requires Dag(g, rank) && x in g && Walk(g, x, ds) == y
    ensures y in g && rank[y] <= rank[x]
  {
    WalkInReach(g, rank, x, ds);
    ReachBelow(g, rank, x);
  }

  /** The list of dominated blocks is right. */
  ghost predicate Current(g: Graph, root: Block, b: Block, D: set<Block>) {
    forall x :: x in D && x in g ==> Dominates(g, root, b, x)
  }

  /** A block of the chain but the first is entered from the one before it only. */
  lemma OnlyEntry(g: Graph, rank: map<Block, nat>, root: Block, D: set<Block>, b: Block, q: seq<Block>, side: bool,
                  common: Block, k: nat, x: Block, s: bool)
    requires Dag(g, rank) && root in g && Checked(g, D, b, q, side, common) && 0 < k < |q| && Current(g, root, b, D)
    requires x in Reach(g, rank, root) && Enters(g, x, s, q[k])
    ensures x == q[k - 1] && s == side
  {
    var ds := ReachWalk(g, rank, root, x);
    WalkSnoc(g, root, ds, s);
    assert CheckedAt(g, D, b, q, side, common, k);
    assert Dominates(g, root, b, q[k]);
    CheckedRanks(g, rank, D, b, q, side, common, 0, k);
    assert Visits(g, root, ds, b);
    var d1, d2 := VisitsSplit(g, root, ds, b);
    WalkSnoc(g, b, d2, s);
    AlongChain(g, rank, D, b, q, side, common, 0, k, d2 + [s]);
    assert (d2 + [s])[..|d2 + [s]| - 1] == d2;
  }

  lemma CheckedGet(g: Graph, D: set<Block>, b: Block, q: seq<Block>, side: bool, common: Block, i: nat)
    requires Checked(g, D, b, q, side, common) && i < |q|
    ensures CheckedAt(g, D, b, q, side, common, i)
  {
  }

  lemma FoundMembers(g: Graph, D: set<Block>, b: Block, q: seq<Block>, i: nat, c: Chain)
    requires Checked(g, D, b, q, c.side, c.common) && i + 2 <= |q| && c.cs == q[i..]
    requires Succ(g[q[|q| - 1]], c.side) == c.after
    ensures forall k {:trigger Member(g, c, k)} :: 0 <= k < |c.cs| ==> Member(g, c, k)
  {
    hide Checked;
    forall k {:trigger Member(g, c, k)} | 0 <= k < |c.cs|
      ensures Member(g, c, k)
    {
      CheckedGet(g, D, b, q, c.side, c.common, i + k);
      assert c.cs[k] == q[i + k] && (k + 1 < |c.cs| ==> c.cs[k + 1] == q[i + k + 1]);
    }
  }

  lemma ChainFound(g: Graph, rank: map<Block, nat>, root: Block, D: set<Block>, b: Block, q: seq<Block>, i: nat,
                   c: Chain)
    requires Dag(g, rank) && root in g && Reach(g, rank, root) == g.Keys && Current(g, root, b, D)
    requires Checked(g, D, b, q, c.side, c.common)
    requires i + 2 <= |q|
    requires c.cs == q[i..] && c.after in g && Succ(g[q[|q| - 1]], c.side) == c.after
    ensures ChainIn(g, c)
  {
    assert c.common in g;
    FoundMembers(g, D, b, q, i, c);
    hide Checked, Current, Dag, Reach, Member, EnteredAlong;
    forall k {:trigger EnteredAlong(g, c, k)} | 0 < k < |c.cs|
      ensures EnteredAlong(g, c, k)
    {
      FoundEntry(g, rank, root, D, b, q, i, c, k);
    }
  }

  lemma FoundEntry(g: Graph, rank: map<Block, nat>, root: Block, D: set<Block>, b: Block, q: seq<Block>, i: nat,
                   c: Chain, k: nat)
    requires Dag(g, rank) && root in g && Reach(g, rank, root) == g.Keys && Current(g, root, b, D)
    requires Checked(g, D, b, q, c.side, c.common)
    requires i < |q|
    requires c.cs == q[i..] && 0 < k < |c.cs|
    ensures EnteredAlong(g, c, k)
  {
    assert c.cs[k] == q[i + k] && c.cs[k - 1] == q[i + k - 1];
    hide Checked, Current, Dag, Reach;
    forall x, s {:trigger Enters(g, x, s, c.cs[k])} | x in g && Enters(g, x, s, c.cs[k])
      ensures x == c.cs[k - 1] && s == c.side
    {
      OnlyEntry(g, rank, root, D, b, q, c.side, c.common, i + k, x, s);
    }
  }

  /** The root is not in the chain. */
  lemma RootOutside(g: Graph, rank: map<Block, nat>, root: Block, D: set<Block>, b: Block, q: seq<Block>, side: bool,
                    common: Block, k: nat)
    requires Dag(g, rank) && root in g && Reach(g, rank, root) == g.Keys && Checked(g, D, b, q, side, common)
    requires k < |q| && b != root
    ensures q[k] != root
  {
    if k > 0 {
      assert CheckedAt(g, D, b, q, side, common, k - 1);
      EntersLower(g, rank, root, q[k - 1], side, q[k]);
    }
  }

  // ----- The edges that are moved -----

  /** The loop over in_edges: of every block in the list the true edge is moved to `to` if it leads to b, else the
      false one, wherever that leads. */
  ghost function MovedAll(g: Graph, b: Block, to: Block, ins: seq<Edge>): (g1: Graph)
    requires forall e :: e in ins ==> e.pred in g
    ensures g1.Keys == g.Keys
    decreases |ins|
  {
    if ins == [] then g
    else
      var g1, x := MovedAll(g, b, to, ins[..|ins| - 1]), ins[|ins| - 1].pred;
      g1[x := if g1[x].jt == b then g1[x].(jt := to) else g1[x].(jf := to)]
  }

  /** A predecessor of `b` once those of its edges that are flagged have been moved. */
  function MovedPred(n: Node, b: Block, to: Block, t: bool, f: bool): Node {
    if n.jt == b && n.jf == b then
      if t && f then n.(jt := to, jf := to) else if t || f then n.(jt := to) else n
    else if n.jt == b then (if t then n.(jt := to) else n)
    else if n.jf == b then (if f then n.(jf := to) else n)
    else n
  }

  /** The graph when the edges of the list, all of which lead to b, have been moved. */
  ghost function PredsMoved(g: Graph, b: Block, to: Block, ins: seq<Edge>): (g1: Graph)
    ensures g1.Keys == g.Keys
  {
    map x | x in g :: MovedPred(g[x], b, to, Edge(x, true) in ins, Edge(x, false) in ins)
  }

  lemma PredsStart(g: Graph, b: Block, to: Block)
    ensures PredsMoved(g, b, to, []) == g
  {
  }

  /** When the list holds edges that lead to b, each once, these are moved and no others. */
  lemma {:induction false} MovedListed(g: Graph, b: Block, to: Block, ins: seq<Edge>)
    requires Once(ins) && to != b
    requires forall k {:trigger ins[k]} :: 0 <= k < |ins| ==>
        ins[k].pred in g && Succ(g[ins[k].pred], ins[k].sense) == b
    ensures (forall e :: e in ins ==> e.pred in g) && MovedAll(g, b, to, ins) == PredsMoved(g, b, to, ins)
    decreases |ins|
  {
    if ins == [] {
      PredsStart(g, b, to);
    } else {
      var init := ins[..|ins| - 1];
      assert forall k {:trigger init[k]} :: 0 <= k < |init| ==> init[k] == ins[k];
      MovedListed(g, b, to, init);
      assert ins[|ins| - 1].pred in g;
      PredsStep(g, b, to, ins, |ins| - 1);
      assert ins[..|ins| - 1 + 1] == ins;
    }
  }

  lemma PredsStep(g: Graph, b: Block, to: Block, ins: seq<Edge>, k: nat)
    requires k < |ins| && Once(ins) && to != b && ins[k].pred in g && Succ(g[ins[k].pred], ins[k].sense) == b
    ensures var (x, g1) := (ins[k].pred, PredsMoved(g, b, to, ins[..k]));
            PredsMoved(g, b, to, ins[..k + 1]) == g1[x := if g1[x].jt == b then g1[x].(jt := to) else g1[x].(jf := to)]
  {
    var e := ins[k];
    assert ins[..k + 1] == ins[..k] + [e];
    assert e !in ins[..k];
    assert forall y: Block, s: bool :: y in g ==>
        (Edge(y, s) in ins[..k + 1] <==> Edge(y, s) in ins[..k] || Edge(y, s) == e);
  }

  /** When all in_edges have been moved, every edge into b has, but for one that came from `to` itself. */
  lemma PredsEnd(g: Graph, b: Block, to: Block, ins: seq<Edge>)
    requires forall x, s :: x in g && x != to && Enters(g, x, s, b) ==> Edge(x, s) in ins
    requires Edge(to, true) !in ins && Edge(to, false) !in ins
    ensures PredsMoved(g, b, to, ins) == map x | x in g :: if x == to then g[x] else Redirected(g[x], b, to)
  {
    forall x | x in g
      ensures PredsMoved(g, b, to, ins)[x] == if x == to then g[x] else Redirected(g[x], b, to)
    {
      assert Enters(g, x, true, b) <==> g[x].jt == b;
      assert Enters(g, x, false, b) <==> g[x].jf == b;
    }
  }

  /** The two edges inside the chain moved: the last block skipped, and led back to the front. */
  ghost function Turned(g: Graph, c: Chain): (g1: Graph)
    requires |c.cs| >= 2 && Last(c) in g && c.cs[|c.cs| - 2] in g
    ensures g1.Keys == g.Keys
  {
    var g1 := g[c.cs[|c.cs| - 2] := SetSide(g[c.cs[|c.cs| - 2]], c.side, c.after)];
    g1[Last(c) := SetSide(g1[Last(c)], c.side, First(c))]
  }

  /** With the edges into the front moved as well, the block has been pulled up. */
  lemma TurnedPulled(g: Graph, rank: map<Block, nat>, c: Chain)
    requires Dag(g, rank) && ChainIn(g, c) && Last(c) in g && c.cs[|c.cs| - 2] in g && First(c) in g
    ensures forall x :: x in g && x != Last(c) ==> Redirected(Turned(g, c)[x], First(c), Last(c)) == Pulled(g, c)[x]
    ensures Turned(g, c)[Last(c)] == Pulled(g, c)[Last(c)]
    ensures forall x, s :: x in g && x != Last(c) && s in {true, false} ==>
              (Enters(Turned(g, c), x, s, First(c)) <==> Enters(g, x, s, First(c)))
  {
    var n := |c.cs|;
    ChainRanks(g, rank, c, 0, n - 1);
    ChainRanks(g, rank, c, n - 2, n - 1);
    ChainRanks(g, rank, c, 0, n - 2);
    assert Member(g, c, n - 1) && Member(g, c, n - 2);
    hide ChainIn, Dag;
    forall x, s | x in g && x != Last(c) && s in {true, false}
      ensures Enters(Turned(g, c), x, s, First(c)) <==> Enters(g, x, s, First(c))
    {
    }
  }

  // ----- The methods -----

  /** The graph the pass looks at. The blocks need not all be reachable, nor the dominator sets and the in_edges
      current. */
  ghost predicate Wired(S: set<Block>, g: Graph, rank: map<Block, nat>, b: Block)
    reads b`inEdges
    ensures Wired(S, g, rank, b) ==> Dag(g, rank) && b in g
  {
    && g.Keys == S && Dag(g, rank) && b in S && forall e :: e in b.inEdges ==> e.pred in S
  }

  /** The blocks whose dominator sets name `b`. */
  ghost function Listed(S: set<Block>, b: Block): set<Block>
    reads S`dom, b`id
  {
    set x | x in S && b.id in x.dom
  }

  /** What every block of a chain must pass. */
  method Check(d: Block?, b: Block, side: bool, common: Block, ghost S: set<Block>, ghost g: Graph,
               ghost rank: map<Block, nat>, ghost D: set<Block>)
      returns (ok: bool)
    requires Wired(S, g, rank, b) && D == Listed(S, b) && g == GraphOf(S) && (d != null ==> d in S)
    ensures ok <==> d != null && g[d].test.code.Jmp? && Succ(g[d], !side) == common && d in D
  {
    if d == null {
      return false;
    }
    assert g[d] == NodeOf(d) && DagNode(g, rank, d);
    if (if side then d.jf else d.jt) != common {
      return false;
    }
    return b.id in d.dom;
  }

  /** The chain from b up to the candidate `d`. */
  ghost predicate Upto(g: Graph, D: set<Block>, b: Block, q: seq<Block>, side: bool, common: Block, d: Block?) {
    && Checked(g, D, b, q, side, common)
    && d == (if q == [] then b else if q[|q| - 1] in g then Succ(g[q[|q| - 1]], side) else null)
  }

  lemma UptoStep(g: Graph, rank: map<Block, nat>, D: set<Block>, b: Block, q: seq<Block>, side: bool, common: Block,
                 d: Block)
    requires Dag(g, rank) && Upto(g, D, b, q, side, common, d) && d in g && g[d].test.code.Jmp?
    requires Succ(g[d], !side) == common && d in D
    ensures Upto(g, D, b, q + [d], side, common, Succ(g[d], side)) && Succ(g[d], side) != null
    ensures Succ(g[d], side) in g
    ensures rank[Succ(g[d], side)] < rank[d]
  {
    var q1 := q + [d];
    assert DagNode(g, rank, d);
    hide Dag;
    forall i {:trigger CheckedAt(g, D, b, q1, side, common, i)} | 0 <= i < |q1|
      ensures CheckedAt(g, D, b, q1, side, common, i)
    {
      if i < |q| {
        CheckedGet(g, D, b, q, side, common, i);
        assert q1[i] == q[i] && (i + 1 < |q| ==> q1[i + 1] == q[i + 1]);
      }
    }
    assert forall i {:trigger q1[i]} :: 0 <= i < |q1| ==> CheckedAt(g, D, b, q1, side, common, i);
  }

  /** The exit number of A. */
  function ExitA(b: Block): nat
    reads b`val
  {
    b.val[A_ATOM]
  }

  /** The exit numbers of A. */
  ghost function Numbers(S: set<Block>): map<Block, nat>
    reads S`val
  {
    map x | x in S :: ExitA(x)
  }

  /** What one of the two loops looks for: from the n-th block of the chain on, the numbers are `val` (`same`), or
      are not, up to the last, where it is the other way round. */
  ghost predicate Ends(g: Graph, D: set<Block>, b: Block, older q: seq<Block>, n: nat, side: bool, common: Block,
                       nums: map<Block, nat>, val: nat, same: bool)
  {
    && Checked(g, D, b, q, side, common) && n < |q|
    && forall k {:trigger q[k]} :: n <= k < |q| ==> q[k] in nums && ((nums[q[k]] == val) == same <==> k < |q| - 1)
  }

  /** A chain to be turned, from its i-th block on: the first one whose number is not `val`, and the next whose
      number is. */
  ghost predicate Candidate(g: Graph, D: set<Block>, b: Block, older q: seq<Block>, i: nat, side: bool, common: Block,
                            nums: map<Block, nat>, val: nat)
  {
    && i + 2 <= |q| && Ends(g, D, b, q[..i + 1], 0, side, common, nums, val, true)
    && Ends(g, D, b, q, i + 1, side, common, nums, val, false)
  }

  /** There is none, among the chains of blocks of the graph. */
  ghost predicate NoCandidate(g: Graph, D: set<Block>, b: Block, side: bool, common: Block, nums: map<Block, nat>,
                              val: nat)
  {
    forall q: seq<Block>, i: nat {:trigger Candidate(g, D, b, q, i, side, common, nums, val)} ::
      !Candidate(g, D, b, q, i, side, common, nums, val)
  }

  /** How a chain that is looked for goes on from `q`. */
  lemma EndsNext(g: Graph, D: set<Block>, b: Block, q: seq<Block>, d: Block, q1: seq<Block>, n: nat, side: bool,
                 common: Block, nums: map<Block, nat>, val: nat, same: bool)
    requires Upto(g, D, b, q, side, common, d) && q <= q1 && n <= |q| < |q1|
    requires Ends(g, D, b, q1, n, side, common, nums, val, same)
    ensures q + [d] <= q1 && d in g && g[d].test.code.Jmp? && Succ(g[d], !side) == common && d in D
    ensures d in nums && ((nums[d] == val) == same <==> |q| + 1 < |q1|)
  {
    assert q1[|q|] in g && CheckedAt(g, D, b, q1, side, common, |q|);
    if q != [] {
      assert q1[|q| - 1] == q[|q| - 1] && CheckedAt(g, D, b, q1, side, common, |q| - 1);
    }
  }

  /** All chains that are looked for, behind `q0`, pass along `q` and go on. */
  ghost predicate AllPass(g: Graph, D: set<Block>, b: Block, q0: seq<Block>, q: seq<Block>, side: bool, common: Block,
                          nums: map<Block, nat>, val: nat, same: bool)
  {
    forall q1: seq<Block> {:trigger Ends(g, D, b, q1, |q0|, side, common, nums, val, same)} ::
      Ends(g, D, b, q1, |q0|, side, common, nums, val, same) && q0 <= q1 ==> q <= q1 && |q| < |q1|
  }

  /** There is at most one of them, `q`, and none if not `ok`. */
  ghost predicate OnlyEnd(g: Graph, D: set<Block>, b: Block, q0: seq<Block>, ok: bool, q: seq<Block>, side: bool,
                          common: Block, nums: map<Block, nat>, val: nat, same: bool)
  {
    forall q1: seq<Block> {:trigger Ends(g, D, b, q1, |q0|, side, common, nums, val, same)} ::
      Ends(g, D, b, q1, |q0|, side, common, nums, val, same) && q0 <= q1 ==> ok && q1 == q
  }

  lemma AllPassStart(g: Graph, D: set<Block>, b: Block, q0: seq<Block>, side: bool, common: Block,
                     nums: map<Block, nat>, val: nat, same: bool)
    ensures AllPass(g, D, b, q0, q0, side, common, nums, val, same)
  {
  }

  /** They go on with the candidate `d`, which then passes the check. */
  lemma AllPassStep(g: Graph, D: set<Block>, b: Block, q0: seq<Block>, q: seq<Block>, d: Block, side: bool,
                    common: Block, nums: map<Block, nat>, val: nat, same: bool, ok: bool)
    requires Upto(g, D, b, q, side, common, d) && |q0| <= |q| && d in nums && d in g
    requires AllPass(g, D, b, q0, q, side, common, nums, val, same)
    requires ok == (g[d].test.code.Jmp? && Succ(g[d], !side) == common && d in D)
    ensures !ok ==> OnlyEnd(g, D, b, q0, ok, q, side, common, nums, val, same)
    ensures (nums[d] == val) != same ==> OnlyEnd(g, D, b, q0, ok, q + [d], side, common, nums, val, same)
    ensures (nums[d] == val) == same ==> AllPass(g, D, b, q0, q + [d], side, common, nums, val, same)
  {
    hide Ends, Upto;
    forall q1: seq<Block> {:trigger Ends(g, D, b, q1, |q0|, side, common, nums, val, same)} |
        Ends(g, D, b, q1, |q0|, side, common, nums, val, same) && q0 <= q1
      ensures q + [d] <= q1 && ((nums[d] == val) == same <==> |q| + 1 < |q1|) && ok
    {
      EndsNext(g, D, b, q, d, q1, |q0|, side, common, nums, val, same);
    }
  }

  /** One of the two loops: on along the chain while the exit number of A is `val` (`same`), or is not. */
  method FindEnd(start: Block, top: Block, b: Block, side: bool, common: Block, val: nat, same: bool,
                 ghost q0: seq<Block>, ghost S: set<Block>, ghost g: Graph, ghost rank: map<Block, nat>,
                 ghost D: set<Block>)
      returns (ok: bool, before: Block?, d: Block, ghost q: seq<Block>)
    requires Wired(S, g, rank, b) && D == Listed(S, b) && g == GraphOf(S) && Upto(g, D, top, q0, side, common, start)
    requires start in S
    ensures ok ==>
              q0 <= q && q != q0 && d == q[|q| - 1] && d in S && Upto(g, D, top, q, side, common, Succ(g[d], side))
    ensures ok ==> (ExitA(d) == val) != same
    ensures ok ==> forall i {:trigger q[i]} :: |q0| <= i < |q| - 1 ==> (ExitA(q[i]) == val) == same
    ensures ok ==> forall i {:trigger q[i]} :: |q0| <= i < |q| ==> q[i] in S
    ensures ok ==> before == if |q| - 1 > |q0| then q[|q| - 2] else null
    ensures ok ==> Succ(g[d], side) != null && Succ(g[d], side) in S
    ensures OnlyEnd(g, D, top, q0, ok, q, side, common, Numbers(S), val, same)
  {
    d, before, q := start, null, q0;
    ghost var nums := Numbers(S);
    AllPassStart(g, D, top, q0, side, common, nums, val, same);
    hide Wired, Listed, Upto, Ends, Checked, AllPass, OnlyEnd;
    while true
      invariant AllPass(g, D, top, q0, q, side, common, nums, val, same)
      invariant q0 <= q && d in S && d in rank && Upto(g, D, top, q, side, common, d)
      invariant forall i {:trigger q[i]} :: |q0| <= i < |q| ==> (ExitA(q[i]) == val) == same
      invariant forall i {:trigger q[i]} :: |q0| <= i < |q| ==> q[i] in S
      invariant before == if |q| > |q0| then q[|q| - 1] else null
      decreases rank[d]
    {
      ok := Check(d, b, side, common, S, g, rank, D);
      AllPassStep(g, D, top, q0, q, d, side, common, nums, val, same, ok);
      if !ok {
        return;
      }
      UptoStep(g, rank, D, top, q, side, common, d);
      assert g[d] == NodeOf(d);
      q := q + [d];
      if (ExitA(d) == val) != same {
        return;
      }
      before := d;
      d := if side then d.jt else d.jf;
    }
  }

  method SetSucc(x: Block, side: bool, d: Block?, ghost S: set<Block>)
    requires x in S
    modifies x`jt, x`jf
    ensures GraphOf(S) == old(GraphOf(S))[x := SetSide(old(GraphOf(S))[x], side, d)]
  {
    if side {
      x.jt := d;
    } else {
      x.jf := d;
    }
  }

  /** The loop over in_edges. */
  method MovePreds(b: Block, to: Block, ins: seq<Edge>, ghost S: set<Block>, ghost g: Graph)
    requires g == GraphOf(S) && forall e :: e in ins ==> e.pred in S
    modifies S`jt, S`jf
    ensures (forall e :: e in ins ==> e.pred in g) && GraphOf(S) == MovedAll(g, b, to, ins)
  {
    assert ins[..0] == [];
    hide GraphOf;
    for k := 0 to |ins|
      invariant (forall e :: e in ins ==> e.pred in g) && GraphOf(S) == MovedAll(g, b, to, ins[..k])
    {
      assert ins[..k + 1][..k] == ins[..k] && ins[..k + 1][k] == ins[k] && ins[k] in ins;
      MovePred(ins[k].pred, b, to, S);
    }
    assert ins[..|ins|] == ins;
  }

  method MovePred(x: Block, b: Block, to: Block, ghost S: set<Block>)
    requires x in S
    modifies x`jt, x`jf
    ensures var n := old(GraphOf(S))[x];
            GraphOf(S) == old(GraphOf(S))[x := if n.jt == b then n.(jt := to) else n.(jf := to)]
  {
    if x.jt == b {
      x.jt := to;
    } else {
      x.jf := to;
    }
  }

  /** Inside the chain one edge leads to the front: moving it completes the pull. */
  lemma PulledInside(g: Graph, rank: map<Block, nat>, c: Chain, x: Block)
    requires Dag(g, rank) && ChainIn(g, c) && Last(c) in g && c.cs[|c.cs| - 2] in g && First(c) in g
    requires x in g && x !in c.cs && Succ(g[x], c.side) == First(c) && Succ(g[x], !c.side) != First(c)
    requires forall y, s :: y in g && Enters(g, y, s, First(c)) ==> y == x
    ensures Turned(g, c)[x := SetSide(Turned(g, c)[x], c.side, Last(c))] == Pulled(g, c)
  {
    var g1 := Turned(g, c);
    TurnedPulled(g, rank, c);
    assert Last(c) in c.cs && c.cs[|c.cs| - 2] in c.cs;
    forall y | y in g
      ensures g1[x := SetSide(g1[x], c.side, Last(c))][y] == Pulled(g, c)[y]
    {
      if y != Last(c) {
        assert Enters(g1, y, true, First(c)) <==> Enters(g, y, true, First(c));
        assert Enters(g1, y, false, First(c)) <==> Enters(g, y, false, First(c));
      }
    }
  }

  /** What the surgery makes of the chain q[i..]: the block before the last leads where the last led, the last to the
      first, and the block before the first, or all of b's in_edges, to the last. */
  ghost function Surgery(g: Graph, b: Block, q: seq<Block>, i: nat, side: bool, ins: seq<Edge>): (g1: Graph)
    requires i + 2 <= |q| && (forall x :: x in q ==> x in g) && forall e :: e in ins ==> e.pred in g
    ensures g1.Keys == g.Keys
  {
    var g1 := Inner(g, q, i, side);
    if i > 0 then g1[q[i - 1] := SetSide(g1[q[i - 1]], side, q[|q| - 1])] else MovedAll(g1, b, q[|q| - 1], ins)
  }

  /** The two edges inside the chain. */
  ghost function Inner(g: Graph, q: seq<Block>, i: nat, side: bool): (g1: Graph)
    requires i + 2 <= |q| && forall x :: x in q ==> x in g
    ensures g1.Keys == g.Keys
  {
    var before, last := q[|q| - 2], q[|q| - 1];
    var g1 := g[before := SetSide(g[before], side, Succ(g[last], side))];
    g1[last := SetSide(g1[last], side, q[i])]
  }

  /** The two loops together: the chain to turn, or none. `before` leads to its front, null at the top;
      `pullBefore` leads to its end. */
  method FindChain(top: Block, b: Block, side: bool, common: Block, val: nat, ghost S: set<Block>, ghost g: Graph,
                   ghost rank: map<Block, nat>, ghost D: set<Block>)
      returns (found: bool, before: Block?, first: Block, pullBefore: Block, pull: Block, ghost q: seq<Block>,
               ghost i: nat)
    requires Wired(S, g, rank, b) && D == Listed(S, b) && g == GraphOf(S) && common in g && top in S
    ensures found ==> i + 2 <= |q| && q[0] == top && Checked(g, D, top, q, side, common)
    ensures found ==> (forall k {:trigger q[k]} :: 0 <= k < |q| ==> q[k] in g)
    ensures found ==> first == q[i] && pull == q[|q| - 1] && pullBefore == q[|q| - 2]
    ensures found ==> before == if i > 0 then q[i - 1] else null
    ensures found ==> Succ(g[pull], side) != null && Succ(g[pull], side) in g
    ensures found ==> ExitA(pull) == val && forall k {:trigger q[k]} :: i <= k < |q| - 1 ==> ExitA(q[k]) != val
    ensures found ==> Candidate(g, D, top, q, i, side, common, Numbers(S), val)
    ensures !found ==> NoCandidate(g, D, top, side, common, Numbers(S), val)
  {
    hide *;
    first, pullBefore, pull, i := top, top, top, 0;
    UptoStart(S, g, rank, D, top, side, common);
    found, before, first, q := FindEnd(top, top, b, side, common, val, true, [], S, g, rank, D);
    NoneFirst(g, D, top, found, q, side, common, Numbers(S), val);
    if !found {
      return;
    }
    i := |q| - 1;
    ghost var q1 := q;
    EndsFound(S, g, D, top, q, 0, side, common, val, true);
    var start := if side then first.jt else first.jf;
    ReadSide(S, g, first, side);
    var before2;
    found, before2, pull, q := FindEnd(start, top, b, side, common, val, false, q1, S, g, rank, D);
    pullBefore := if before2 == null then first else before2;
    if found {
      FoundFacts(g, rank, D, top, q, side, common, pull);
      EndsFound(S, g, D, top, q, i + 1, side, common, val, false);
      CandidateFound(g, D, top, q, i, side, common, Numbers(S), val, q1);
    } else {
      NoneSecond(g, D, top, q1, q, side, common, Numbers(S), val);
    }
  }

  lemma CandidateParts(g: Graph, D: set<Block>, b: Block, q: seq<Block>, i: nat, side: bool, common: Block,
                       nums: map<Block, nat>, val: nat)
    requires Candidate(g, D, b, q, i, side, common, nums, val)
    ensures i + 2 <= |q| && q[..i + 1] <= q && |q[..i + 1]| == i + 1
    ensures Ends(g, D, b, q[..i + 1], 0, side, common, nums, val, true) && [] <= q[..i + 1]
    ensures Ends(g, D, b, q, i + 1, side, common, nums, val, false)
  {
    hide Ends;
  }

  lemma NoneFirst(g: Graph, D: set<Block>, b: Block, found: bool, q: seq<Block>, side: bool, common: Block,
                  nums: map<Block, nat>, val: nat)
    requires OnlyEnd(g, D, b, [], found, q, side, common, nums, val, true)
    ensures !found ==> NoCandidate(g, D, b, side, common, nums, val)
  {
    hide Candidate, Ends;
    forall q1: seq<Block>, i: nat | Candidate(g, D, b, q1, i, side, common, nums, val)
      ensures found
    {
      CandidateParts(g, D, b, q1, i, side, common, nums, val);
    }
  }

  lemma NoneSecond(g: Graph, D: set<Block>, b: Block, q0: seq<Block>, q: seq<Block>, side: bool, common: Block,
                   nums: map<Block, nat>, val: nat)
    requires OnlyEnd(g, D, b, [], true, q0, side, common, nums, val, true)
    requires OnlyEnd(g, D, b, q0, false, q, side, common, nums, val, false)
    ensures NoCandidate(g, D, b, side, common, nums, val)
  {
    hide Candidate, Ends;
    forall q1: seq<Block>, i: nat | Candidate(g, D, b, q1, i, side, common, nums, val)
      ensures false
    {
      CandidateParts(g, D, b, q1, i, side, common, nums, val);
    }
  }

  lemma CandidateFound(g: Graph, D: set<Block>, b: Block, q: seq<Block>, i: nat, side: bool, common: Block,
                       nums: map<Block, nat>, val: nat, q1: seq<Block>)
    requires q1 <= q && q1 != q && i + 1 == |q1| && Ends(g, D, b, q1, 0, side, common, nums, val, true)
    requires Ends(g, D, b, q, i + 1, side, common, nums, val, false)
    ensures Candidate(g, D, b, q, i, side, common, nums, val)
  {
    assert q[..i + 1] == q1;
    hide Ends;
  }

  lemma EndsFound(S: set<Block>, g: Graph, D: set<Block>, b: Block, q: seq<Block>, n: nat, side: bool, common: Block,
                  val: nat, same: bool)
    requires n < |q| && q[|q| - 1] in g && Upto(g, D, b, q, side, common, Succ(g[q[|q| - 1]], side))
    requires forall k {:trigger q[k]} :: n <= k < |q| ==> q[k] in S
    requires forall k {:trigger q[k]} :: n <= k < |q| - 1 ==> (ExitA(q[k]) == val) == same
    requires (ExitA(q[|q| - 1]) == val) != same
    ensures Ends(g, D, b, q, n, side, common, Numbers(S), val, same)
  {
    hide Checked;
  }

  lemma UptoStart(S: set<Block>, g: Graph, rank: map<Block, nat>, D: set<Block>, b: Block, side: bool, common: Block)
    requires g.Keys == S && common in g && b in S
    ensures Upto(g, D, b, [], side, common, b) && b in g
  {
  }

  lemma ReadSide(S: set<Block>, g: Graph, x: Block, side: bool)
    requires g == GraphOf(S) && x in S
    ensures Succ(g[x], side) == if side then x.jt else x.jf
  {
    assert g[x] == NodeOf(x);
  }

  lemma FoundFacts(g: Graph, rank: map<Block, nat>, D: set<Block>, b: Block, q: seq<Block>, side: bool, common: Block,
                   pull: Block)
    requires pull in g && Upto(g, D, b, q, side, common, Succ(g[pull], side))
    ensures Checked(g, D, b, q, side, common) && forall k {:trigger q[k]} :: 0 <= k < |q| ==> q[k] in g
    ensures q != [] ==> q[0] == b
  {
    forall k {:trigger q[k]} | 0 <= k < |q|
      ensures q[k] in g
    {
      CheckedGet(g, D, b, q, side, common, k);
    }
  }

  /** What the chain found means for the graph, when all blocks are reachable and the dominator sets are current. */
  lemma FoundChain(g: Graph, rank: map<Block, nat>, root: Block, D: set<Block>, b: Block, q: seq<Block>, i: nat,
                   c: Chain)
    requires Dag(g, rank) && root in g && Reach(g, rank, root) == g.Keys && Current(g, root, b, D)
    requires Checked(g, D, b, q, c.side, c.common) && i + 2 <= |q|
    requires c.cs == q[i..] && c.after in g && Succ(g[q[|q| - 1]], c.side) == c.after && b != root
    ensures ChainIn(g, c) && root !in c.cs && First(c) == q[i] && Last(c) == q[|q| - 1]
    ensures c.cs[|c.cs| - 2] == q[|q| - 2]
    ensures First(c) in g && Last(c) in g && c.cs[|c.cs| - 2] in g
    ensures i > 0 ==> q[i - 1] in g && q[i - 1] !in c.cs && Succ(g[q[i - 1]], c.side) == First(c)
    ensures i > 0 ==> Succ(g[q[i - 1]], !c.side) != First(c)
    ensures i > 0 ==> forall y, s :: y in g && Enters(g, y, s, First(c)) ==> y == q[i - 1]
  {
    ChainFound(g, rank, root, D, b, q, i, c);
    ChainMembers(g, c);
    assert First(c) in c.cs && Last(c) in c.cs && c.cs[|c.cs| - 2] in c.cs;
    forall x | x in c.cs
      ensures x != root && (i > 0 ==> x != q[i - 1])
    {
      var k :| 0 <= k < |c.cs| && c.cs[k] == x;
      RootOutside(g, rank, root, D, b, q, c.side, c.common, i + k);
      if i > 0 {
        CheckedRanks(g, rank, D, b, q, c.side, c.common, i - 1, i + k);
      }
    }
    if i > 0 {
      CheckedGet(g, D, b, q, c.side, c.common, i - 1);
      CheckedRanks(g, rank, D, b, q, c.side, c.common, i - 1, i);
      forall y, s | y in g && Enters(g, y, s, First(c))
        ensures y == q[i - 1]
      {
        OnlyEntry(g, rank, root, D, b, q, c.side, c.common, i, y, s);
      }
    }
  }

  /** The surgery. */
  method Turn(b: Block, side: bool, ins: seq<Edge>, before: Block?, first: Block, pullBefore: Block, pull: Block,
              ghost q: seq<Block>, ghost i: nat, ghost S: set<Block>, ghost g: Graph)
    requires g == GraphOf(S) && g.Keys == S && i + 2 <= |q| && (forall x :: x in q ==> x in g)
    requires forall e :: e in ins ==> e.pred in g
    requires first == q[i] && pull == q[|q| - 1] && pullBefore == q[|q| - 2]
    requires before == if i > 0 then q[i - 1] else null
    modifies S`jt, S`jf
    ensures GraphOf(S) == Surgery(g, b, q, i, side, ins)
  {
    assert first in q && pull in q && pullBefore in q && (i > 0 ==> q[i - 1] in q);
    ReadSide(S, g, pull, side);
    SurgerySteps(g, b, q, i, side, ins);
    hide *;
    var after := if side then pull.jt else pull.jf;
    SetSucc(pullBefore, side, after, S);
    SetSucc(pull, side, first, S);
    if before == null {
      MovePreds(b, pull, ins, S, Inner(g, q, i, side));
    } else {
      SetSucc(before, side, pull, S);
    }
  }

  lemma SurgerySteps(g: Graph, b: Block, q: seq<Block>, i: nat, side: bool, ins: seq<Edge>)
    requires i + 2 <= |q| && (forall x :: x in q ==> x in g) && forall e :: e in ins ==> e.pred in g
    ensures q[i] in q && q[|q| - 1] in q && q[|q| - 2] in q && (i > 0 ==> q[i - 1] in q)
    ensures var g1 := g[q[|q| - 2] := SetSide(g[q[|q| - 2]], side, Succ(g[q[|q| - 1]], side))];
            Inner(g, q, i, side) == g1[q[|q| - 1] := SetSide(g1[q[|q| - 1]], side, q[i])]
    ensures var g1 := Inner(g, q, i, side);
            Surgery(g, b, q, i, side, ins)
                == if i > 0 then g1[q[i - 1] := SetSide(g1[q[i - 1]], side, q[|q| - 1])]
                   else MovedAll(g1, b, q[|q| - 1], ins)
  {
  }

  /** The number all predecessors are left with, if they agree. */
  ghost predicate PredsAgree(ins: seq<Edge>, nums: map<Block, nat>)
    requires forall e :: e in ins ==> e.pred in nums
  {
    ins != [] && forall e :: e in ins ==> nums[e.pred] == nums[ins[0].pred]
  }

  /** Where the chain is looked for: behind the first predecessor, on the side that leads to b if one does. */
  function Top(b: Block, pred: Block): Block?
    reads pred`jt, pred`jf
  {
    if pred.jt == b then b else pred.jf
  }

  /** or_pullup (side false) and and_pullup (side true) at a block that is not a leaf, whatever the dominator sets and
      the in_edges say. When the predecessors disagree or no chain is listed, nothing is changed; else the surgery is
      done on the listed chain. What that means when the lists are right is PullCurrent. */
  method PullUp(b: Block, side: bool, ghost S: set<Block>, ghost g: Graph, ghost rank: map<Block, nat>)
      returns (found: bool, ghost q: seq<Block>, ghost i: nat)
    requires Wired(S, g, rank, b) && g == GraphOf(S) && b.jt != null && b.jf != null
    modifies S`jt, S`jf
    ensures forall e :: e in b.inEdges ==> e.pred in S
    ensures !found ==> GraphOf(S) == g
    ensures found ==>
              PredsAgree(b.inEdges, Numbers(S)) && i + 2 <= |q| && (forall x :: x in q ==> x in g)
              && old(Top(b, b.inEdges[0].pred)) != null
              && Candidate(g, Listed(S, b), old(Top(b, b.inEdges[0].pred)), q, i, side,
                           if side then old(b.jf) else old(b.jt), Numbers(S), ExitA(b.inEdges[0].pred))
              && GraphOf(S) == Surgery(g, b, q, i, side, b.inEdges)
    ensures !found && PredsAgree(b.inEdges, Numbers(S)) ==>
              var top := old(Top(b, b.inEdges[0].pred));
              top == null || NoCandidate(g, Listed(S, b), top, side, if side then old(b.jf) else old(b.jt), Numbers(S),
                                         ExitA(b.inEdges[0].pred))
  {
    hide *;
    found, q, i := false, [], 0;
    var ins := b.inEdges;
    WiredParts(S, g, rank, b);
    if ins == [] {
      Disagree(S, ins, 0);
      return;
    }
    var val := ExitA(ins[0].pred);
    for k := 1 to |ins|
      invariant forall j {:trigger ins[j]} :: 0 <= j < k ==> ExitA(ins[j].pred) == val
    {
      if ExitA(ins[k].pred) != val {
        Disagree(S, ins, k);
        return;
      }
    }
    Agree(S, ins);
    var common := if side then b.jf else b.jt;
    SuccIn(S, g, rank, b);
    var top := Top(b, ins[0].pred);
    if top == null {
      return;
    }
    TopIn(S, g, rank, b, ins[0].pred);
    var before, first, pullBefore, pull;
    ghost var D := Listed(S, b);
    found, before, first, pullBefore, pull, q, i := FindChain(top, b, side, common, val, S, g, rank, D);
    if !found {
      return;
    }
    InGraph(g, q);
    Turn(b, side, ins, before, first, pullBefore, pull, q, i, S, g);
  }

  lemma TopIn(S: set<Block>, g: Graph, rank: map<Block, nat>, b: Block, pred: Block)
    requires Wired(S, g, rank, b) && g == GraphOf(S) && pred in S && Top(b, pred) != null
    ensures Top(b, pred) in S
  {
    assert g[pred] == NodeOf(pred) && DagNode(g, rank, pred);
  }

  lemma InGraph(g: Graph, q: seq<Block>)
    requires forall k {:trigger q[k]} :: 0 <= k < |q| ==> q[k] in g
    ensures forall x :: x in q ==> x in g
  {
  }

  lemma WiredParts(S: set<Block>, g: Graph, rank: map<Block, nat>, b: Block)
    requires Wired(S, g, rank, b)
    ensures g.Keys == S && Dag(g, rank) && b in S && b in g
    ensures forall e :: e in b.inEdges ==> e.pred in S && e.pred in g
    ensures forall k {:trigger b.inEdges[k]} :: 0 <= k < |b.inEdges| ==> b.inEdges[k] in b.inEdges
    ensures forall e :: e in b.inEdges ==> e.pred in Numbers(S)
  {
  }

  lemma SuccIn(S: set<Block>, g: Graph, rank: map<Block, nat>, b: Block)
    requires Wired(S, g, rank, b) && g == GraphOf(S) && b.jt != null && b.jf != null
    ensures b.jt in g && b.jf in g
  {
    assert g[b] == NodeOf(b) && DagNode(g, rank, b);
  }

  lemma Disagree(S: set<Block>, ins: seq<Edge>, k: nat)
    requires forall e :: e in ins ==> e.pred in S
    requires ins == [] || (k < |ins| && ExitA(ins[k].pred) != ExitA(ins[0].pred))
    ensures !PredsAgree(ins, Numbers(S))
  {
    if ins != [] {
      assert ins[k] in ins && ins[0] in ins;
    }
  }

  lemma Agree(S: set<Block>, ins: seq<Edge>)
    requires (forall e :: e in ins ==> e.pred in S) && ins != []
    requires forall j {:trigger ins[j]} :: 0 <= j < |ins| ==> ExitA(ins[j].pred) == ExitA(ins[0].pred)
    ensures PredsAgree(ins, Numbers(S))
  {
    assert ins[0] in ins;
    forall e | e in ins
      ensures Numbers(S)[e.pred] == Numbers(S)[ins[0].pred]
    {
      var j :| 0 <= j < |ins| && ins[j] == e;
    }
  }
}
