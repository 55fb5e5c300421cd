/** Any sequence of the passes that rewrite the graph: maxval, allotted before the first, is enough for each. */
module PassChain {
  import opened Cfg
  import opened Paths
  import opened Levels
  import opened InEdges
  import opened LiveStmts
  import opened BlockSums
  import opened Liveness
  import opened ValueTable
  import opened ValueFlow
  import opened ValuePass
  import opened JumpThread
  import opened BlkFlow
  import opened BlkPass
  import opened PullSpec
  import opened PullUp
  import Redirect

  /** What can happen to the graph: the first loop of opt_blks, an edge moved by opt_j, the surgery of or_pullup or
      and_pullup. */
  datatype Act =
    | Blks(rank: map<Block, nat>, pass: Pass, alter: bool)
    | Move(edge: Edge, to: Block)
    | Pull(b: Block, chain: seq<Block>, i: nat, side: bool, ins: seq<Edge>)

  /** `R` is what opt_init has numbered. Edges are moved from blocks of R that branch, and to blocks of R. */
  ghost predicate Makes(g: Graph, act: Act, g1: Graph, root: Block, R: set<Block>) {
    match act
    case Blks(rank, P, alter) =>
      Dag(g, rank) && GraphMemOk(g) && root in g && BlksLeft(g, rank, Reach(g, rank, root), P, g1, alter)
    case Move(ep, d) =>
      ep.pred in g && Branches(g, R, ep.pred) && d in R && g1 == Redirect.Moved(g, ep, d)
    case Pull(b, q, i, side, ins) =>
      i + 2 <= |q| && (forall x :: x in q ==> x in g && Branches(g, R, x))
      && (forall e :: e in ins ==> e.pred in g && Branches(g, R, e.pred)) && g1 == Surgery(g, b, q, i, side, ins)
  }

  ghost predicate Branches(g: Graph, R: set<Block>, x: Block) {
    x in R && x in g && g[x].jt != null
  }

  /** The graph has no edges out of `R`, the leaves of `g0`, and in no block of R more live statements. */
  ghost predicate Inside(g0: Graph, R: set<Block>, g: Graph) {
    Relinked(g0, g, R) && Fewer(g0, R, g)
  }

  ghost predicate Fewer(g0: Graph, R: set<Block>, g: Graph) {
    forall b {:trigger g[b]} :: b in R && b in g && b in g0 ==> |Live(g[b].stmts)| <= |Live(g0[b].stmts)|
  }

  /** One edge of a branching block, led to a block of R. */
  lemma Relink(g0: Graph, R: set<Block>, g: Graph, x: Block, side: bool, d: Block)
    requires Inside(g0, R, g) && x in g && Branches(g, R, x) && d in R
    ensures Inside(g0, R, g[x := SetSide(g[x], side, d)])
  {
    var g1 := g[x := SetSide(g[x], side, d)];
    hide Live;
    forall b {:trigger g1[b]} | b in R
      ensures RelinkedAt(g0[b], g1[b], R) && |Live(g1[b].stmts)| <= |Live(g0[b].stmts)|
    {
      assert g[b] == g[b];
    }
  }

  /** All blocks that branched still do. */
  ghost predicate AlsoBranch(g: Graph, g1: Graph, R: set<Block>) {
    forall x {:trigger Branches(g1, R, x)} :: x in R && Branches(g, R, x) ==> Branches(g1, R, x)
  }

  lemma SuccInside(g0: Graph, R: set<Block>, g: Graph, x: Block, side: bool)
    requires Inside(g0, R, g) && x in g && Branches(g, R, x)
    ensures Succ(g[x], side) != null && Succ(g[x], side) in R
  {
    assert g[x] == g[x];
  }

  lemma RelinkBranch(g: Graph, R: set<Block>, x: Block, side: bool, d: Block)
    requires x in g
    ensures AlsoBranch(g, g[x := SetSide(g[x], side, d)], R)
  {
  }

  lemma BranchIn(g: Graph, R: set<Block>, x: Block)
    requires Branches(g, R, x)
    ensures x in R
  {
  }

  lemma {:induction false} MovedInside(g0: Graph, R: set<Block>, g: Graph, b: Block, to: Block, ins: seq<Edge>)
    requires Inside(g0, R, g) && to in R && forall e :: e in ins ==> e.pred in g && Branches(g, R, e.pred)
    ensures Inside(g0, R, MovedAll(g, b, to, ins)) && AlsoBranch(g, MovedAll(g, b, to, ins), R)
    decreases |ins|
  {
    hide Inside, Branches;
    if ins != [] {
      var init, x := ins[..|ins| - 1], ins[|ins| - 1].pred;
      assert ins[|ins| - 1] in ins;
      BranchIn(g, R, x);
      MovedInside(g0, R, g, b, to, init);
      var g1 := MovedAll(g, b, to, init);
      Relink(g0, R, g1, x, g1[x].jt == b, to);
      RelinkBranch(g1, R, x, g1[x].jt == b, to);
    }
  }

  lemma PullInside(g0: Graph, R: set<Block>, g: Graph, b: Block, q: seq<Block>, i: nat, side: bool, ins: seq<Edge>)
    requires Inside(g0, R, g) && i + 2 <= |q| && forall x :: x in q ==> x in g && Branches(g, R, x)
    requires forall e :: e in ins ==> e.pred in g && Branches(g, R, e.pred)
    ensures Inside(g0, R, Surgery(g, b, q, i, side, ins))
  {
    SurgerySteps(g, b, q, i, side, ins);
    var before, last := q[|q| - 2], q[|q| - 1];
    SuccInside(g0, R, g, last, side);
    QIn(g, R, q);
    hide Inside, Branches, Surgery, Inner, MovedAll;
    var g1 := g[before := SetSide(g[before], side, Succ(g[last], side))];
    Relink(g0, R, g, before, side, Succ(g[last], side));
    RelinkBranch(g, R, before, side, Succ(g[last], side));
    Relink(g0, R, g1, last, side, q[i]);
    RelinkBranch(g1, R, last, side, q[i]);
    if i > 0 {
      Relink(g0, R, Inner(g, q, i, side), q[i - 1], side, last);
    } else {
      MovedInside(g0, R, Inner(g, q, i, side), b, last, ins);
    }
  }

  lemma QIn(g: Graph, R: set<Block>, q: seq<Block>)
    requires forall x :: x in q ==> x in g && Branches(g, R, x)
    ensures forall x :: x in q ==> x in R
  {
  }

  lemma BlksInside(g0: Graph, R: set<Block>, g: Graph, rank: map<Block, nat>, root: Block, P: Pass, alter: bool,
                   g1: Graph)
    requires Inside(g0, R, g) && root in R && Dag(g, rank) && GraphMemOk(g) && root in g
    requires BlksLeft(g, rank, Reach(g, rank, root), P, g1, alter)
    ensures Inside(g0, R, g1)
  {
    InsideReach(g0, R, g, rank, root);
    assert R <= g1.Keys;
    forall b {:trigger g1[b]} | b in R
      ensures RelinkedAt(g0[b], g1[b], R) && |Live(g1[b].stmts)| <= |Live(g0[b].stmts)|
    {
      assert g[b] == g[b] && DagNode(g, rank, b);
      if b in Reach(g, rank, root) {
        assert LeftAt(g, rank, P, g1, alter, b);
        LeftOne(g, g1, rank, Reach(g, rank, root), P, alter, b);
      }
    }
  }

  lemma InsideReach(g0: Graph, R: set<Block>, g: Graph, rank: map<Block, nat>, root: Block)
    requires Inside(g0, R, g) && root in R && Dag(g, rank) && root in g
    ensures Reach(g, rank, root) <= R
  {
    forall x {:trigger g[x]} | x in R && x in g && rank[x] <= rank[root] && g[x].jt != null
      ensures g[x].jt in R && g[x].jf in R
    {
      assert RelinkedAt(g0[x], g[x], R);
    }
    ReachInClosed(g, rank, R, root);
  }

  /** One step. */
  lemma StaysInside(g0: Graph, R: set<Block>, g: Graph, act: Act, g1: Graph, root: Block)
    requires Inside(g0, R, g) && root in R && Makes(g, act, g1, root, R)
    ensures Inside(g0, R, g1)
  {
    hide Inside, BlksLeft, Surgery, Dag, GraphMemOk, Branches, Reach;
    match act
    case Blks(rank, P, alter) => BlksInside(g0, R, g, rank, root, P, alter, g1);
    case Move(ep, d) => Relink(g0, R, g, ep.pred, ep.sense, d);
    case Pull(b, q, i, side, ins) => PullInside(g0, R, g, b, q, i, side, ins);
  }

  /** `gs` are the graphs before, between and after the steps `acts`. */
  ghost predicate Passes(gs: seq<Graph>, acts: seq<Act>, root: Block, R: set<Block>) {
    |gs| == |acts| + 1 && forall k {:trigger acts[k]} :: 0 <= k < |acts| ==> Makes(gs[k], acts[k], gs[k + 1], root, R)
  }

  lemma {:induction false} AlwaysInside(gs: seq<Graph>, acts: seq<Act>, root: Block, R: set<Block>, k: nat)
    requires Passes(gs, acts, root, R) && k < |gs| && root in R && Inside(gs[0], R, gs[0])
    ensures Inside(gs[0], R, gs[k])
    decreases k
  {
    hide Inside, Makes;
    if k > 0 {
      AlwaysInside(gs, acts, root, R, k - 1);
      assert Makes(gs[k - 1], acts[k - 1], gs[k - 1 + 1], root, R);
      StaysInside(gs[0], R, gs[k - 1], acts[k - 1], gs[k], root);
    }
  }

  /** Whatever passes have been made, in whatever order: what can be reached was numbered by opt_init, no block has
      more statements than it had then, and the maxval opt_init has allotted is enough for the next pass. */
  lemma RoomForAll(gs: seq<Graph>, acts: seq<Act>, rank0: map<Block, nat>, root: Block, k: nat, rank: map<Block, nat>)
    requires |gs| > 0 && Dag(gs[0], rank0) && root in gs[0] && Passes(gs, acts, root, Reach(gs[0], rank0, root))
    requires k < |gs| && Dag(gs[k], rank) && root in gs[k]
    ensures Shrunk(gs[0], Reach(gs[0], rank0, root), gs[k], Reach(gs[k], rank, root))
    ensures SetLen(Reach(gs[k], rank, root), Bounds(gs[k])) <= SetLen(Reach(gs[0], rank0, root), Bounds(gs[0]))
  {
    var R := Reach(gs[0], rank0, root);
    RelinkedStart(gs[0], rank0, root);
    hide Relinked, Passes, Makes, Reach, Live, Dag;
    AlwaysInside(gs, acts, root, R, k);
    InsideReach(gs[0], R, gs[k], rank, root);
    InsideShrunk(gs[0], R, gs[k], Reach(gs[k], rank, root));
    BoundsShrink(gs[0], R, gs[k], Reach(gs[k], rank, root));
  }

  lemma InsideShrunk(g0: Graph, R: set<Block>, g: Graph, R1: set<Block>)
    requires Inside(g0, R, g) && R1 <= R
    ensures Shrunk(g0, R, g, R1)
  {
  }

  // ----- What the methods do are such steps -----

  /** The first loop of opt_blks. */
  lemma BlksMakes(c: Layout, t: Table, P: Pass, alter: bool, R: set<Block>)
    requires Standing(c) && BlksAt(c, Reached(c), t, P, alter)
    ensures Makes(c.g, Blks(c.rank, P, alter), GraphOf(c.S), c.root, R)
  {
    hide BlksLeft, PassInv, Lists, InsExact, Noted, LevelOf, SetLen;
  }

  /** Where opt_j leaves the edge. */
  lemma MoveMakes(S: set<Block>, g: Graph, rank: map<Block, nat>, root: Block, t: Tables, ep: Edge, target: Block,
                  path: seq<Block>, R: set<Block>)
    requires Redirect.EdgeStands(S, g, rank, root, t, ep, target, path) && g[ep.pred].jt != null
    requires Dag(g, rank) && root in g && Reach(g, rank, root) <= R
    ensures Makes(g, Move(ep, target), GraphOf(S), root, R)
  {
    hide Redirect.OptReady, Redirect.Trail, Redirect.Skipped, Redirect.Clear, Reach, Dag;
  }

  /** The chain that or_pullup or and_pullup turns. */
  lemma PullMakes(g: Graph, rank: map<Block, nat>, D: set<Block>, b: Block, top: Block, q: seq<Block>, i: nat,
                  side: bool, common: Block, nums: map<Block, nat>, val: nat, ins: seq<Edge>, root: Block,
                  R: set<Block>)
    requires Dag(g, rank) && g.Keys == R && Candidate(g, D, top, q, i, side, common, nums, val)
    requires forall e :: e in ins ==> e.pred in g && Branches(g, R, e.pred)
    ensures i + 2 <= |q| && forall x :: x in q ==> x in g
    ensures Makes(g, Pull(b, q, i, side, ins), Surgery(g, b, q, i, side, ins), root, R)
  {
    hide *;
    CandidateParts(g, D, top, q, i, side, common, nums, val);
    EndsChecked(g, D, top, q, i + 1, side, common, nums, val, false);
    ChainBranches(g, rank, D, top, q, side, common, R);
    PullIs(g, b, q, i, side, ins, root, R);
  }

  lemma EndsChecked(g: Graph, D: set<Block>, top: Block, q: seq<Block>, n: nat, side: bool, common: Block,
                    nums: map<Block, nat>, val: nat, same: bool)
    requires Ends(g, D, top, q, n, side, common, nums, val, same)
    ensures Checked(g, D, top, q, side, common)
  {
    hide Checked;
  }

  lemma ChainBranches(g: Graph, rank: map<Block, nat>, D: set<Block>, top: Block, q: seq<Block>, side: bool,
                      common: Block, R: set<Block>)
    requires Dag(g, rank) && g.Keys == R && Checked(g, D, top, q, side, common)
    ensures forall x :: x in q ==> x in g && Branches(g, R, x)
  {
    hide Checked;
    forall x | x in q
      ensures x in g && Branches(g, R, x)
    {
      var k :| 0 <= k < |q| && q[k] == x;
      CheckedGet(g, D, top, q, side, common, k);
      assert DagNode(g, rank, x);
    }
  }

  lemma PullIs(g: Graph, b: Block, q: seq<Block>, i: nat, side: bool, ins: seq<Edge>, root: Block, R: set<Block>)
    requires i + 2 <= |q| && forall x :: x in q ==> x in g && Branches(g, R, x)
    requires forall e :: e in ins ==> e.pred in g && Branches(g, R, e.pred)
    ensures Makes(g, Pull(b, q, i, side, ins), Surgery(g, b, q, i, side, ins), root, R)
  {
    hide Branches, Surgery;
  }

  /** The in_edges are edges of blocks that branch, also when edges have been moved since they were found, in `g1`. */
  lemma InsBranch(g0: Graph, g1: Graph, g: Graph, R: set<Block>, ins: map<Block, seq<Edge>>, b: Block)
    requires Relinked(g0, g1, R) && Relinked(g0, g, R) && R <= ins.Keys && InEdgesUpTo(g1, R, R, ins) && b in R
    ensures forall e :: e in ins[b] ==> e.pred in g && Branches(g, R, e.pred)
  {
    forall e | e in ins[b]
      ensures e.pred in g && Branches(g, R, e.pred)
    {
      var x := e.pred;
      assert Enters(g1, x, e.sense, b) && x in R;
      assert RelinkedAt(g0[x], g1[x], R) && RelinkedAt(g0[x], g[x], R);
    }
  }
}
