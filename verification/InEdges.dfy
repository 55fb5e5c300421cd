/** find_inedges: the edges that lead to each block. */
module InEdges {
  import opened Cfg
  import opened Paths
  import opened Levels
  import opened Dominators

  ghost function InEdgesOf(S: set<Block>): (r: map<Block, seq<Edge>>)
    reads S`inEdges
    ensures r.Keys == S
  {
    map b | b in S :: b.inEdges
  }

  ghost predicate Once(ins: seq<Edge>) {
    forall i, j :: 0 <= i < j < |ins| ==> ins[i] != ins[j]
  }

  /** The lists hold, each once, exactly the edges that leave the blocks of `done`. */
  ghost predicate InEdgesUpTo(g: Graph, R: set<Block>, done: set<Block>, ins: map<Block, seq<Edge>>)
    requires R <= ins.Keys
  {
    && (forall b: Block, e: Edge :: b in R && e in ins[b] ==>
         e.pred in R && e.pred in done && Enters(g, e.pred, e.sense, b))
    && (forall b, c, s :: b in R && c in R && c in done && Enters(g, c, s, b) ==> Edge(c, s) in ins[b])
    && (forall b :: b in R ==> Once(ins[b]))
  }

  /** link_inedge for both edges of `b`. */
  ghost function Linked(g: Graph, ins: map<Block, seq<Edge>>, b: Block): map<Block, seq<Edge>>
    requires b in g && g[b].jt != null && g[b].jf != null && g[b].jt in ins && g[b].jf in ins
  {
    var ins1 := ins[g[b].jt := [Edge(b, true)] + ins[g[b].jt]];
    ins1[g[b].jf := [Edge(b, false)] + ins1[g[b].jf]]
  }

  lemma LinkedStep(g: Graph, R: set<Block>, done: set<Block>, ins: map<Block, seq<Edge>>, b: Block)
    requires R <= ins.Keys && InEdgesUpTo(g, R, done, ins)
    requires b in R && b !in done && b in g && g[b].jt != null && g[b].jf != null && g[b].jt in R && g[b].jf in R
    ensures InEdgesUpTo(g, R, done + {b}, Linked(g, ins, b))
  {
    var ins1 := Linked(g, ins, b);
    forall x | x in R
      ensures Once(ins1[x])
    {
      assert Edge(b, true) !in ins[x] && Edge(b, false) !in ins[x];
    }
    forall x: Block, e: Edge | x in R && e in ins1[x]
      ensures e.pred in R && e.pred in done + {b} && Enters(g, e.pred, e.sense, x)
    {
      if e !in ins[x] {
        assert e == Edge(b, true) || e == Edge(b, false);
      }
    }
    forall x, c, s | x in R && c in R && c in done + {b} && Enters(g, c, s, x)
      ensures Edge(c, s) in ins1[x]
    {
      if c == b {
        assert x == if s then g[b].jt else g[b].jf;
        var ins2 := ins[g[b].jt := [Edge(b, true)] + ins[g[b].jt]];
        assert Edge(b, true) in ins2[g[b].jt];
        assert Edge(b, false) in ins1[g[b].jf];
      } else {
        assert Edge(c, s) in ins[x];
      }
    }
  }

  method SetInEdges(b: Block, ins: seq<Edge>, ghost S: set<Block>, ghost g0: Graph, ghost g: Graph,
                    ghost rank: map<Block, nat>, ghost root: Block, ghost blocks: seq<Block>,
                    ghost levels: seq<seq<Block>>)
    requires b in S && Stacked(S, g0, g, rank, root, blocks, levels)
    modifies S`inEdges
    ensures Stacked(S, g0, g, rank, root, blocks, levels) && InEdgesOf(S) == old(InEdgesOf(S))[b := ins]
  {
    b.inEdges := ins;
  }

  method LinkNext(b: Block, ghost root: Block, ghost blocks: seq<Block>, ghost levels: seq<seq<Block>>, ghost l: nat,
                  ghost j: nat, ghost S: set<Block>, ghost g0: Graph, ghost g: Graph, ghost rank: map<Block, nat>)
    requires Stacked(S, g0, g, rank, root, blocks, levels) && 0 < l < |levels| && j < |levels[l]| && b == levels[l][j]
    requires InEdgesUpTo(g, Reach(g0, rank, root), Done(g0, rank, Reach(g0, rank, root), l, levels[l][..j]),
        InEdgesOf(S))
    modifies S`inEdges
    ensures Stacked(S, g0, g, rank, root, blocks, levels)
    ensures InEdgesUpTo(g, Reach(g0, rank, root), Done(g0, rank, Reach(g0, rank, root), l, levels[l][..j + 1]),
        InEdgesOf(S))
  {
    ghost var R, ins := Reach(g0, rank, root), InEdgesOf(S);
    ghost var done := Done(g0, rank, R, l, levels[l][..j]);
    TurnComes(g0, rank, root, levels, l, j);
    DoneNext(g0, rank, R, levels, l, j);
    NotLeaf(g0, g, rank, R, levels, l, j);
    assert g[b] == NodeOf(b) && R <= S;
    var t, f := b.jt, b.jf;
    LinkedStep(g, R, done, ins, b);
    assert ins[t] == t.inEdges;
    assert Linked(g, ins, b)
        == ins[t := [Edge(b, true)] + ins[t]][f := [Edge(b, false)] + ins[t := [Edge(b, true)] + ins[t]][f]];
    assert t in S && f in S;
    hide Stacked, InEdgesUpTo, Linked, Done, Reach, Dag, Lists, Turn, AboveDone;
    SetInEdges(t, [Edge(b, true)] + t.inEdges, S, g0, g, rank, root, blocks, levels);
    assert InEdgesOf(S)[f] == f.inEdges;
    SetInEdges(f, [Edge(b, false)] + f.inEdges, S, g0, g, rank, root, blocks, levels);
  }

  lemma NotLeaf(g0: Graph, g: Graph, rank: map<Block, nat>, R: set<Block>, levels: seq<seq<Block>>, l: nat, j: nat)
    requires Dag(g0, rank) && Lists(levels, g0, rank, R) && Relinked(g0, g, R) && 0 < l < |levels| && j < |levels[l]|
    ensures var b := levels[l][j];
            b in g && b in R && g[b].jt != null && g[b].jf != null && g[b].jt in R && g[b].jf in R
  {
    var b := levels[l][j];
    assert b in levels[l] && LevelOf(g0, rank, b) == l;
    assert DagNode(g0, rank, b) && g[b] == g[b];
  }

  /** The blocks of level 0 have no edges to add. */
  lemma LeavesAdd(g0: Graph, g: Graph, rank: map<Block, nat>, R: set<Block>, ins: map<Block, seq<Edge>>)
    requires Dag(g0, rank) && R <= g0.Keys && R <= ins.Keys && InEdgesUpTo(g, R, Done(g0, rank, R, 0, []), ins)
    requires Relinked(g0, g, R)
    ensures InEdgesUpTo(g, R, R, ins)
  {
    forall b, c, s | b in R && c in R && Enters(g, c, s, b)
      ensures Edge(c, s) in ins[b]
    {
      assert g[c] == g[c] && DagNode(g0, rank, c);
      LevelDrops(g0, rank, c, s);
    }
  }

  /** find_inedges. The level lists may be those from before some edges were moved. */
  method FindInedges(root: Block, blocks: seq<Block>, levels: seq<seq<Block>>, ghost S: set<Block>, ghost g0: Graph,
                     ghost g: Graph, ghost rank: map<Block, nat>)
    requires Stacked(S, g0, g, rank, root, blocks, levels)
    modifies S`inEdges
    ensures Stacked(S, g0, g, rank, root, blocks, levels)
    ensures InEdgesUpTo(g, Reach(g0, rank, root), Reach(g0, rank, root), InEdgesOf(S))
  {
    hide *;
    StackedFacts(S, g0, g, rank, root, blocks, levels);
    ghost var R := Reach(g0, rank, root);
    var top := root.level;
    NoneDone(g0, rank, root);
    ClearInEdges(root, blocks, levels, S, g0, g, rank);
    for l := top + 1 downto 1
      invariant Stacked(S, g0, g, rank, root, blocks, levels)
      invariant InEdgesUpTo(g, R, Done(g0, rank, R, l - 1, []), InEdgesOf(S))
    {
      LevelStart(g0, rank, R, levels, l);
      for j := 0 to |levels[l]|
        invariant Stacked(S, g0, g, rank, root, blocks, levels)
        invariant InEdgesUpTo(g, R, Done(g0, rank, R, l, levels[l][..j]), InEdgesOf(S))
      {
        LinkNext(levels[l][j], root, blocks, levels, l, j, S, g0, g, rank);
      }
      NextLevel(g0, rank, R, levels, l);
    }
    LeavesAdd(g0, g, rank, R, InEdgesOf(S));
  }

  /** The parts of Stacked. */
  lemma StackedFacts(S: set<Block>, g0: Graph, g: Graph, rank: map<Block, nat>, root: Block, blocks: seq<Block>,
                     levels: seq<seq<Block>>)
    requires Stacked(S, g0, g, rank, root, blocks, levels)
    ensures Dag(g0, rank) && root in g0 && root.level == LevelOf(g0, rank, root) < |levels| && g == GraphOf(S)
    ensures S == g0.Keys == g.Keys && Relinked(g0, g, Reach(g0, rank, root))
    ensures Reach(g0, rank, root) <= S && Lists(levels, g0, rank, Reach(g0, rank, root))
  {
  }

  method ClearInEdges(root: Block, blocks: seq<Block>, ghost levels: seq<seq<Block>>, ghost S: set<Block>,
                      ghost g0: Graph, ghost g: Graph, ghost rank: map<Block, nat>)
    requires Stacked(S, g0, g, rank, root, blocks, levels)
    modifies S`inEdges
    ensures Stacked(S, g0, g, rank, root, blocks, levels)
    ensures InEdgesUpTo(g, Reach(g0, rank, root), {}, InEdgesOf(S))
  {
    ghost var R := Reach(g0, rank, root);
    assert forall b :: b in R ==> b.id < |blocks| && blocks[b.id] == b;
    hide Dag, Reach, Lists, Done, LevelOf, InEdgesUpTo, Relinked;
    for i := 0 to |blocks|
      invariant Stacked(S, g0, g, rank, root, blocks, levels)
      invariant forall k {:trigger blocks[k]} :: 0 <= k < i ==> blocks[k] in S && InEdgesOf(S)[blocks[k]] == []
    {
      SetInEdges(blocks[i], [], S, g0, g, rank, root, blocks, levels);
    }
    assert forall b :: b in R ==> InEdgesOf(S)[b] == [];
    NoneLinked(g, R, InEdgesOf(S));
  }

  lemma NoneLinked(g: Graph, R: set<Block>, ins: map<Block, seq<Edge>>)
    requires R <= ins.Keys && forall b :: b in R ==> ins[b] == []
    ensures InEdgesUpTo(g, R, {}, ins)
  {
  }
}
