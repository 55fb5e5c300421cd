/** Sharing equal blocks: what one round of intern_blocks does to the graph. */
module InternSpec {
  import opened Bpf
  import opened Cfg
  import opened LiveStmts
  import opened Paths
  import opened Levels

  /** eq_blk: the same test, the same successors, and the same statements but for deleted ones. */
  ghost predicate Same(n0: Node, n1: Node) {
    n0.test == n1.test && n0.jt == n1.jt && n0.jf == n1.jf && Live(n0.stmts) == Live(n1.stmts)
  }

  /** The links of a round: a linked block is reachable and equal to the block it is linked to, which
      is reachable and not linked itself. */
  ghost predicate Links(g: Graph, R: set<Block>, links: map<Block, Block>) {
    && R <= g.Keys && links.Keys <= R
    && forall b {:trigger links[b]} :: b in links ==> LinkOk(g, R, links, b)
  }

  ghost predicate LinkOk(g: Graph, R: set<Block>, links: map<Block, Block>, b: Block)
    requires R <= g.Keys && b in links && b in R
  {
    var r := links[b];
    r in R && r != b && r !in links && Same(g[b], g[r])
  }

  /** Every reachable block with an equal one further on is linked. */
  ghost predicate Complete(g: Graph, R: set<Block>, blocks: seq<Block>, links: map<Block, Block>)
    requires R <= g.Keys
  {
    forall i, j {:trigger blocks[i], blocks[j]} :: 0 <= i < j < |blocks| && blocks[i] in R && blocks[j] in R ==>
      (Same(g[blocks[i]], g[blocks[j]]) ==> blocks[i] in links)
  }

  /** A successor replaced by what it is linked to. */
  function Rep(links: map<Block, Block>, c: Block?): Block? {
    if c != null && c in links then links[c] else c
  }

  ghost function Shared(g: Graph, links: map<Block, Block>): (g1: Graph)
    ensures g1.Keys == g.Keys
  {
    map b | b in g :: Relinked(g[b], links)
  }

  ghost function Relinked(n: Node, links: map<Block, Block>): Node {
    n.(jt := Rep(links, n.jt), jf := Rep(links, n.jf))
  }

  /** Equal blocks run alike. */
  lemma SameRun(g: Graph, x: Block, y: Block, st: State, p: Packet, fuel: nat)
    requires x in g && y in g && Same(g[x], g[y])
    ensures Run(g, x, st, p, fuel) == Run(g, y, st, p, fuel)
  {
    LiveMeaning(g[x].stmts, st, p);
    LiveMeaning(g[y].stmts, st, p);
  }

  lemma RepRun(g: Graph, R: set<Block>, links: map<Block, Block>, c: Block?, st: State, p: Packet, fuel: nat)
    requires Links(g, R, links)
    ensures Run(g, Rep(links, c), st, p, fuel) == Run(g, c, st, p, fuel)
  {
    if c != null && c in links {
      assert LinkOk(g, R, links, c);
      SameRun(g, c, links[c], st, p, fuel);
    }
  }

  /** Sharing keeps every run exactly, faults and the number of blocks included. */
  lemma SharedRun(g: Graph, rank: map<Block, nat>, R: set<Block>, links: map<Block, Block>, b: Block, st: State,
                  p: Packet, fuel: nat)
    requires Dag(g, rank) && Links(g, R, links) && b in g
    ensures Run(Shared(g, links), b, st, p, fuel) == Run(g, b, st, p, fuel)
  {
    SharedRunIn(g, Shared(g, links), rank, R, links, b, st, p, fuel);
  }

  lemma {:induction false} SharedRunIn(g: Graph, g1: Graph, rank: map<Block, nat>, R: set<Block>,
                                       links: map<Block, Block>, b: Block, st: State, p: Packet, fuel: nat)
    requires Dag(g, rank) && Links(g, R, links) && b in g && g1 == Shared(g, links)
    ensures Run(g1, b, st, p, fuel) == Run(g, b, st, p, fuel)
    decreases fuel
  {
    SharedNode(g, g1, links, b);
    hide *;
    if fuel > 0 && ExecAll(g[b].stmts, st, p).Some? && g[b].test.code.Jmp? {
      var st1 := ExecAll(g[b].stmts, st, p).value;
      var side := Taken(g[b].test, st1);
      RepIn(g, rank, R, links, b, side);
      RepRun(g, R, links, Succ(g[b], side), st1, p, fuel - 1);
      SharedRunIn(g, g1, rank, R, links, Rep(links, Succ(g[b], side)), st1, p, fuel - 1);
    }
    StepAlike(g, g1, b, st, p, fuel);
  }

  lemma SharedNode(g: Graph, g1: Graph, links: map<Block, Block>, b: Block)
    requires b in g && g1 == Shared(g, links)
    ensures b in g1 && g1[b].stmts == g[b].stmts && g1[b].test == g[b].test
    ensures forall side :: Succ(g1[b], side) == Rep(links, Succ(g[b], side))
  {
  }

  /** Two graphs that agree on a block, and run alike from the successor taken, run alike from it. */
  lemma StepAlike(g: Graph, g1: Graph, b: Block, st: State, p: Packet, fuel: nat)
    requires b in g && b in g1 && g1[b].stmts == g[b].stmts && g1[b].test == g[b].test
    requires fuel > 0 && ExecAll(g[b].stmts, st, p).Some? && g[b].test.code.Jmp? ==>
      var st1 := ExecAll(g[b].stmts, st, p).value;
      var side := Taken(g[b].test, st1);
      Run(g1, Succ(g1[b], side), st1, p, fuel - 1) == Run(g, Succ(g[b], side), st1, p, fuel - 1)
    ensures Run(g1, b, st, p, fuel) == Run(g, b, st, p, fuel)
  {
  }

  lemma RepIn(g: Graph, rank: map<Block, nat>, R: set<Block>, links: map<Block, Block>, b: Block, side: bool)
    requires Dag(g, rank) && Links(g, R, links) && b in g && g[b].test.code.Jmp?
    ensures var c := Succ(g[b], side);
            Rep(links, c) != null && Rep(links, c) in g
  {
    assert DagNode(g, rank, b);
    var c := Succ(g[b], side);
    if c in links {
      assert LinkOk(g, R, links, c);
    }
  }

  // ----- Levels -----

  ghost function LevelRank(g: Graph, rank: map<Block, nat>): (r: map<Block, nat>)
    requires Dag(g, rank)
    ensures r.Keys == g.Keys
  {
    map b | b in g :: LevelOf(g, rank, b)
  }

  lemma SameLevel(g: Graph, rank: map<Block, nat>, x: Block, y: Block)
    requires Dag(g, rank) && x in g && y in g && g[x].jt == g[y].jt && g[x].jf == g[y].jf
    ensures LevelOf(g, rank, x) == LevelOf(g, rank, y)
  {
    assert DagNode(g, rank, x) && DagNode(g, rank, y);
  }

  /** A successor and its replacement are on the same level. */
  lemma RepLevel(g: Graph, rank: map<Block, nat>, R: set<Block>, links: map<Block, Block>, c: Block)
    requires Dag(g, rank) && Links(g, R, links) && c in g
    ensures Rep(links, c) != null && Rep(links, c) in g && LevelOf(g, rank, Rep(links, c)) == LevelOf(g, rank, c)
  {
    if c in links {
      assert LinkOk(g, R, links, c);
      SameLevel(g, rank, c, links[c]);
    }
  }

  /** Sharing keeps the graph acyclic. */
  lemma SharedDag(g: Graph, rank: map<Block, nat>, R: set<Block>, links: map<Block, Block>)
    requires Dag(g, rank) && Links(g, R, links)
    ensures Dag(Shared(g, links), LevelRank(g, rank))
  {
    var g1, rank1 := Shared(g, links), LevelRank(g, rank);
    forall b {:trigger DagNode(g1, rank1, b)} | b in g1
      ensures DagNode(g1, rank1, b)
    {
      assert DagNode(g, rank, b);
      if g[b].jt != null {
        RepLevel(g, rank, R, links, g[b].jt);
        RepLevel(g, rank, R, links, g[b].jf);
      }
    }
  }

  // ----- What stays reachable -----

  /** The root is never linked: nothing reachable from it is on its level. */
  lemma RootUnlinked(g: Graph, rank: map<Block, nat>, root: Block, links: map<Block, Block>)
    requires Dag(g, rank) && root in g && Links(g, Reach(g, rank, root), links)
    ensures root !in links
  {
    if root in links {
      assert LinkOk(g, Reach(g, rank, root), links, root);
      SameLevel(g, rank, root, links[root]);
      LevelsInReach(g, rank, root, links[root]);
    }
  }

  /** After sharing only reachable unlinked blocks are reachable. */
  lemma SharedReach(g: Graph, rank: map<Block, nat>, root: Block, links: map<Block, Block>)
    requires Dag(g, rank) && root in g && Links(g, Reach(g, rank, root), links)
    ensures Dag(Shared(g, links), LevelRank(g, rank)) && root in Shared(g, links)
    ensures forall x :: x in Reach(Shared(g, links), LevelRank(g, rank), root) ==>
        x in Reach(g, rank, root) && x !in links
  {
    var R, g1, rank1 := Reach(g, rank, root), Shared(g, links), LevelRank(g, rank);
    SharedDag(g, rank, R, links);
    RootUnlinked(g, rank, root, links);
    var V := set x | x in R && x !in links;
    forall x {:trigger g1[x]} | x in V && x in g1 && g1[x].jt != null
      ensures g1[x].jt in V && g1[x].jf in V
    {
      assert DagNode(g, rank, x);
      ReachClosed(g, rank, root, x);
      assert g[x].jt in Reach(g, rank, x) && g[x].jf in Reach(g, rank, x);
      RepReached(g, R, links, g[x].jt);
      RepReached(g, R, links, g[x].jf);
    }
    ReachInClosed(g1, rank1, V, root);
  }

  lemma RepReached(g: Graph, R: set<Block>, links: map<Block, Block>, c: Block)
    requires Links(g, R, links) && c in R
    ensures Rep(links, c) != null && Rep(links, c) in R && Rep(links, c) !in links
  {
    if c in links {
      assert LinkOk(g, R, links, c);
    }
  }

  lemma SomeLink(g: Graph, links: map<Block, Block>)
    ensures Shared(g, links) == g || exists b :: b in links
  {
    if links.Keys == {} {
      assert forall b :: b in g ==> Relinked(g[b], links) == g[b];
    }
  }

  /** A round that changes an edge makes a block unreachable. */
  lemma SharedShrinks(g: Graph, rank: map<Block, nat>, root: Block, links: map<Block, Block>)
    requires Dag(g, rank) && root in g && Links(g, Reach(g, rank, root), links) && Shared(g, links) != g
    ensures Dag(Shared(g, links), LevelRank(g, rank))
    ensures Reach(Shared(g, links), LevelRank(g, rank), root) < Reach(g, rank, root)
  {
    SharedReach(g, rank, root, links);
    SomeLink(g, links);
    var b :| b in links;
    assert LinkOk(g, Reach(g, rank, root), links, b);
  }

  /** A linked block is pointed at by a reachable one. */
  lemma LinkedSeen(g: Graph, rank: map<Block, nat>, root: Block, links: map<Block, Block>, b: Block)
    requires Dag(g, rank) && root in g && Links(g, Reach(g, rank, root), links) && b in links
    ensures Shared(g, links) != g
  {
    assert LinkOk(g, Reach(g, rank, root), links, b);
    RootUnlinked(g, rank, root, links);
    var ds := ReachWalk(g, rank, root, b);
    var c, s := Walk(g, root, ds[..|ds| - 1]), ds[|ds| - 1];
    assert Succ(g[c], s) == b;
    assert Succ(Shared(g, links)[c], s) == links[b];
  }

  /** Two different blocks of `R` differ in the branch, in a successor, or in their live statements. */
  ghost predicate NoTwins(g: Graph, R: set<Block>)
    requires R <= g.Keys
  {
    forall b, c {:trigger g[b], g[c]} :: b in R && c in R && b != c ==>
      g[b].test != g[c].test || g[b].jt != g[c].jt || g[b].jf != g[c].jf || Live(g[b].stmts) != Live(g[c].stmts)
  }

  /** A round that changes nothing has found no equal blocks. */
  lemma SharedAll(g: Graph, rank: map<Block, nat>, root: Block, blocks: seq<Block>, links: map<Block, Block>)
    requires Dag(g, rank) && root in g && Links(g, Reach(g, rank, root), links)
    requires Complete(g, Reach(g, rank, root), blocks, links) && Shared(g, links) == g
    requires forall b :: b in g ==> b in blocks
    ensures NoTwins(g, Reach(g, rank, root))
  {
    var R := Reach(g, rank, root);
    forall b, c {:trigger g[b], g[c]} | b in R && c in R && b != c
      ensures !Same(g[b], g[c])
    {
      var i :| 0 <= i < |blocks| && blocks[i] == b;
      var j :| 0 <= j < |blocks| && blocks[j] == c;
      if b in links {
        LinkedSeen(g, rank, root, links, b);
      }
      if c in links {
        LinkedSeen(g, rank, root, links, c);
      }
      assert !Same(g[blocks[i]], g[blocks[j]]) || !Same(g[blocks[j]], g[blocks[i]]);
    }
  }
}
