/** find_levels: the level lists the other passes walk. */
module Levels {
  import opened Cfg
  import opened DepthFirst

  /** The length of the longest path from `b` to a leaf. */
  ghost function LevelOf(g: Graph, rank: map<Block, nat>, b: Block): nat
    requires Dag(g, rank) && b in g
    decreases rank[b]
  {
    assert DagNode(g, rank, b);
    if g[b].jt == null then 0 else Max(LevelOf(g, rank, g[b].jt), LevelOf(g, rank, g[b].jf)) + 1
  }

  function Max(a: nat, b: nat): nat {
    if a > b then a else b
  }

  /** Every edge goes strictly down. */
  lemma LevelDrops(g: Graph, rank: map<Block, nat>, b: Block, s: bool)
    requires Dag(g, rank) && b in g && Succ(g[b], s) != null
    ensures Succ(g[b], s) in g && LevelOf(g, rank, Succ(g[b], s)) < LevelOf(g, rank, b)
  {
    assert DagNode(g, rank, b);
  }

  /** A level is below the number of blocks that can be reached. */
  lemma {:induction false} LevelBelowCount(g: Graph, rank: map<Block, nat>, b: Block)
    requires Dag(g, rank) && b in g
    ensures LevelOf(g, rank, b) < |Reach(g, rank, b)|
    decreases rank[b]
  {
    assert DagNode(g, rank, b);
    if g[b].jt != null {
      forall c | c == g[b].jt || c == g[b].jf
        ensures LevelOf(g, rank, c) + 1 < |Reach(g, rank, b)|
      {
        LevelBelowCount(g, rank, c);
        ReachBelow(g, rank, c);
        Larger(Reach(g, rank, c), b, Reach(g, rank, b));
      }
    } else {
      assert b in Reach(g, rank, b);
    }
  }

  lemma Larger(small: set<Block>, b: Block, large: set<Block>)
    requires small <= large && b in large && b !in small
    ensures |small| < |large|
  {
    assert |small + {b}| == |small| + 1;
    assert large == small + {b} + (large - (small + {b}));
  }

  lemma {:induction false} LevelsInReach(g: Graph, rank: map<Block, nat>, root: Block, b: Block)
    requires Dag(g, rank) && root in g && b in Reach(g, rank, root)
    ensures b in g && (b == root || LevelOf(g, rank, b) < LevelOf(g, rank, root))
    decreases rank[root]
  {
    assert DagNode(g, rank, root);
    if b != root {
      LevelsInReach(g, rank, if b in Reach(g, rank, g[root].jt) then g[root].jt else g[root].jf, b);
    }
  }

  /** The lists hold exactly the blocks of `placed`, each once, on its level. */
  ghost predicate Lists(levels: seq<seq<Block>>, g: Graph, rank: map<Block, nat>, placed: set<Block>)
    requires Dag(g, rank)
  {
    && placed <= g.Keys
    && (forall c :: c in placed ==> LevelOf(g, rank, c) < |levels| && c in levels[LevelOf(g, rank, c)])
    && (forall l, c :: 0 <= l < |levels| && c in levels[l] ==> c in placed && LevelOf(g, rank, c) == l)
    && (forall l, i, j :: 0 <= l < |levels| && 0 <= i < j < |levels[l]| ==> levels[l][i] != levels[l][j])
  }

  /** One block more, at the head of its list. */
  lemma ListsPlace(levels: seq<seq<Block>>, g: Graph, rank: map<Block, nat>, placed: set<Block>, b: Block)
    requires Dag(g, rank) && Lists(levels, g, rank, placed) && b in g && b !in placed && LevelOf(g, rank, b) < |levels|
    ensures var l := LevelOf(g, rank, b); Lists(levels[l := [b] + levels[l]], g, rank, placed + {b})
  {
    var l := LevelOf(g, rank, b);
    var more := levels[l := [b] + levels[l]];
    assert forall k {:trigger more[k]} :: 0 <= k < |levels| ==>
        more[k] == if k == l then [b] + levels[l] else levels[k];
    hide LevelOf, Dag;
    forall c | c in placed + {b}
      ensures LevelOf(g, rank, c) < |more| && c in more[LevelOf(g, rank, c)]
    {
      assert b in [b] + levels[l];
    }
    forall k, c | 0 <= k < |more| && c in more[k]
      ensures c in placed + {b} && LevelOf(g, rank, c) == k
    {
      assert (c == b && k == l) || c in levels[k];
    }
    forall k, i, j | 0 <= k < |more| && 0 <= i < j < |more[k]|
      ensures more[k][i] != more[k][j]
    {
      if k == l {
        assert more[k][j] == levels[k][j - 1];
        assert more[k][j] in levels[k] && b !in levels[k];
        if i > 0 {
          assert more[k][i] == levels[k][i - 1];
        }
      }
    }
  }

  class Flow {
    var curMark: nat
    var levels: seq<seq<Block>>   // one list per level

    ghost predicate Listed(g: Graph, rank: map<Block, nat>, placed: set<Block>)
      requires Dag(g, rank)
      reads this`levels, placed`level
    {
      Lists(levels, g, rank, placed) && forall c :: c in placed ==> c.level == LevelOf(g, rank, c)
    }

    /** Marked blocks not above `b` are in the lists. */
    static ghost predicate Settled(rank: map<Block, nat>, seen: set<Block>, placed: set<Block>, b: Block?) {
      placed <= seen && forall q :: q in seen ==> q in placed || Height(rank, q) > Height(rank, b)
    }

    ghost predicate Ok(S: set<Block>, g: Graph, rank: map<Block, nat>, seen: set<Block>, placed: set<Block>)
      reads this, S
    {
      && g == GraphOf(S) && Dag(g, rank) && Marks(S, curMark, seen) && placed <= S && Listed(g, rank, placed)
    }

    method Mark(b: Block, ghost S: set<Block>, ghost g: Graph, ghost rank: map<Block, nat>, ghost seen: set<Block>,
                ghost placed: set<Block>)
      requires b in S && Ok(S, g, rank, seen, placed)
      modifies b`mark
      ensures Ok(S, g, rank, seen + {b}, placed)
    {
      b.mark := curMark;
      assert b in S;
    }

    /** Puts a block at the head of its level list. */
    method Place(b: Block, level: nat, ghost S: set<Block>, ghost g: Graph, ghost rank: map<Block, nat>,
                 ghost seen: set<Block>, ghost placed: set<Block>)
      requires b in S && Ok(S, g, rank, seen, placed) && b !in placed && level == LevelOf(g, rank, b) < |levels|
      modifies this`levels, b`level
      ensures Ok(S, g, rank, seen, placed + {b}) && |levels| == old(|levels|)
    {
      ListsPlace(levels, g, rank, placed, b);
      hide Lists, Dag, LevelOf;
      b.level := level;
      levels := levels[level := [b] + levels[level]];
    }

    /** What find_levels_r relies on at an unmarked inner block. */
    static lemma Descend(g: Graph, rank: map<Block, nat>, b: Block, seen: set<Block>, placed: set<Block>)
      requires Dag(g, rank) && Ready(g, rank, seen, b) && b in g && b !in seen && Settled(rank, seen, placed, b)
      requires g[b].jt != null
      ensures g[b].jf != null && g[b].jt in g && g[b].jf in g && rank[g[b].jt] < rank[b] && rank[g[b].jf] < rank[b]
      ensures LevelOf(g, rank, b) == Max(LevelOf(g, rank, g[b].jt), LevelOf(g, rank, g[b].jf)) + 1
      ensures var (s1, p1) := (seen + {b} + Reach(g, rank, g[b].jt), placed + Reach(g, rank, g[b].jt));
              && Ready(g, rank, seen + {b}, g[b].jt) && Settled(rank, seen + {b}, placed, g[b].jt)
              && Ready(g, rank, s1, g[b].jf) && Settled(rank, s1, p1, g[b].jf)
              && s1 + Reach(g, rank, g[b].jf) == seen + Reach(g, rank, b)
              && p1 + Reach(g, rank, g[b].jf) + {b} == placed + Reach(g, rank, b)
              && b !in p1 + Reach(g, rank, g[b].jf)
    {
      assert DagNode(g, rank, b);
      WalkStep(g, rank, b, g[b].jt, g[b].jf, seen);
      ReachBelow(g, rank, g[b].jt);
      ReachBelow(g, rank, g[b].jf);
    }

    method FindLevelsR(b: Block, ghost S: set<Block>, ghost g: Graph, ghost rank: map<Block, nat>,
                       ghost seen: set<Block>, ghost placed: set<Block>)
      requires b in S && Ok(S, g, rank, seen, placed) && Ready(g, rank, seen, b) && Settled(rank, seen, placed, b)
      requires LevelOf(g, rank, b) < |levels|
      modifies this`levels, S`mark, S`level
      ensures Ok(S, g, rank, seen + Reach(g, rank, b), placed + Reach(g, rank, b)) && |levels| == old(|levels|)
      ensures b.level == LevelOf(g, rank, b)
      decreases rank[b]
    {
      if b.mark == curMark {
        MarkedPlaced(b, S, g, rank, seen, placed);
        return;
      }
      assert b !in seen && g[b] == NodeOf(b);
      var t, f, level := b.jt, b.jf, 0;
      ghost var n := |levels|;
      if t != null {
        Descend(g, rank, b, seen, placed);
        ghost var (s1, p1) := (seen + {b} + Reach(g, rank, t), placed + Reach(g, rank, t));
        hide *;
        Mark(b, S, g, rank, seen, placed);
        FindLevelsR(t, S, g, rank, seen + {b}, placed);
        FindLevelsR(f, S, g, rank, s1, p1);
        level := Max(t.level, f.level) + 1;
        Place(b, level, S, g, rank, seen + Reach(g, rank, b), p1 + Reach(g, rank, f));
      } else {
        assert seen + Reach(g, rank, b) == seen + {b};
        assert placed + Reach(g, rank, b) == placed + {b};
        Mark(b, S, g, rank, seen, placed);
        Place(b, level, S, g, rank, seen + {b}, placed);
      }
    }

    lemma MarkedPlaced(b: Block, S: set<Block>, g: Graph, rank: map<Block, nat>, seen: set<Block>, placed: set<Block>)
      requires b in S && Ok(S, g, rank, seen, placed) && Ready(g, rank, seen, b) && Settled(rank, seen, placed, b)
      requires b.mark == curMark
      ensures b in placed && seen + Reach(g, rank, b) == seen && placed + Reach(g, rank, b) == placed
    {
      WalkDone(g, rank, b, seen);
      ReachBelow(g, rank, b);
      assert forall q :: q in Reach(g, rank, b) ==> q in seen && Height(rank, q) <= Height(rank, b);
    }

    /** find_levels: afterwards the lists hold exactly the blocks reachable from the root. */
    method FindLevels(root: Block, nBlocks: nat, ghost S: set<Block>, ghost g: Graph, ghost rank: map<Block, nat>)
      requires root in S && g == GraphOf(S) && Dag(g, rank) && MarksBelow(S, curMark)
      requires |Reach(g, rank, root)| <= nBlocks
      modifies this, S`mark, S`level
      ensures g == GraphOf(S) && MarksBelow(S, curMark)
      ensures Listed(g, rank, Reach(g, rank, root)) && |levels| == nBlocks
      ensures root.level == LevelOf(g, rank, root) < nBlocks
    {
      LevelBelowCount(g, rank, root);
      levels := seq(nBlocks, _ => []);
      FreshMark(S, curMark);
      curMark := curMark + 1;
      assert {} + Reach(g, rank, root) == Reach(g, rank, root);
      assert Ok(S, g, rank, {}, {}) && Ready(g, rank, {}, root) && Settled(rank, {}, {}, root);
      hide Lists, Dag, Reach, LevelOf, Settled, Ready;
      FindLevelsR(root, S, g, rank, {}, {});
    }
  }

  // ----- The order of the passes -----

  /** The blocks handled so far: everything above level `l`, and the first `j` blocks of level `l`. */
  ghost function Done(g: Graph, rank: map<Block, nat>, R: set<Block>, l: int, prefix: seq<Block>): set<Block>
    requires Dag(g, rank) && R <= g.Keys
  {
    set b | b in R && (LevelOf(g, rank, b) > l || b in prefix)
  }

  lemma DoneNext(g: Graph, rank: map<Block, nat>, R: set<Block>, levels: seq<seq<Block>>, l: nat, j: nat)
    requires Dag(g, rank) && Lists(levels, g, rank, R) && l < |levels| && j < |levels[l]|
    ensures Done(g, rank, R, l, levels[l][..j + 1]) == Done(g, rank, R, l, levels[l][..j]) + {levels[l][j]}
  {
    assert levels[l][j] in levels[l];
    assert levels[l][..j + 1] == levels[l][..j] + [levels[l][j]];
  }

  lemma LevelStart(g: Graph, rank: map<Block, nat>, R: set<Block>, levels: seq<seq<Block>>, l: nat)
    requires Dag(g, rank) && R <= g.Keys && l < |levels|
    ensures Done(g, rank, R, l, levels[l][..0]) == Done(g, rank, R, l, [])
  {
    assert levels[l][..0] == [];
  }

  lemma NextLevel(g: Graph, rank: map<Block, nat>, R: set<Block>, levels: seq<seq<Block>>, l: nat)
    requires Dag(g, rank) && Lists(levels, g, rank, R) && l < |levels|
    ensures Done(g, rank, R, l, levels[l][..|levels[l]|]) == Done(g, rank, R, l - 1, [])
  {
    assert levels[l][..|levels[l]|] == levels[l];
  }

  /** Nothing is above the root. */
  lemma NoneDone(g: Graph, rank: map<Block, nat>, root: Block)
    requires Dag(g, rank) && root in g
    ensures Done(g, rank, Reach(g, rank, root), LevelOf(g, rank, root), []) == {}
  {
    forall b | b in Reach(g, rank, root)
      ensures LevelOf(g, rank, b) <= LevelOf(g, rank, root)
    {
      LevelsInReach(g, rank, root, b);
    }
  }

  /** The pass is over when nothing is left below level 0. */
  lemma AllDone(g: Graph, rank: map<Block, nat>, R: set<Block>)
    requires Dag(g, rank) && R <= g.Keys
    ensures Done(g, rank, R, -1, []) == R
  {
  }

  /** What the passes over the level lists read and do not change. */
  ghost predicate Leveled(S: set<Block>, g: Graph, rank: map<Block, nat>, root: Block, blocks: seq<Block>,
                          levels: seq<seq<Block>>)
    reads S`stmts, S`s, S`jt, S`jf, S`id, S`level
  {
    && root in S && g == GraphOf(S) && Dag(g, rank)
    && Lists(levels, g, rank, Reach(g, rank, root)) && root.level == LevelOf(g, rank, root)
    && (forall i {:trigger blocks[i]} :: 0 <= i < |blocks| ==> blocks[i] in S)
    && (forall b :: b in Reach(g, rank, root) ==> b.id < |blocks| && blocks[b.id] == b)
  }

  /** The parts of it. */
  lemma LeveledFacts(S: set<Block>, g: Graph, rank: map<Block, nat>, root: Block, blocks: seq<Block>,
                     levels: seq<seq<Block>>)
    requires Leveled(S, g, rank, root, blocks, levels)
    ensures Dag(g, rank) && root in g && root.level == LevelOf(g, rank, root) < |levels| && g == GraphOf(S)
    ensures S == g.Keys
    ensures Reach(g, rank, root) <= S && Lists(levels, g, rank, Reach(g, rank, root))
  {
  }

  // ----- A graph whose statements are being rewritten -----

  /** The test and the successors of every block of `S` are those of `g`. */
  ghost predicate Framed(S: set<Block>, g: Graph)
    reads S`s, S`jt, S`jf
  {
    g.Keys == S && forall b {:trigger g[b]} :: b in S ==> g[b].test == b.s && g[b].jt == b.jt && g[b].jf == b.jf
  }

  /** The same as Leveled when only the statements of blocks may differ from those of `g`. */
  ghost predicate Laid(S: set<Block>, g: Graph, rank: map<Block, nat>, root: Block, blocks: seq<Block>,
                       levels: seq<seq<Block>>)
    reads S`s, S`jt, S`jf, S`id, S`level
  {
    && root in S && Framed(S, g) && Dag(g, rank)
    && Lists(levels, g, rank, Reach(g, rank, root)) && root.level == LevelOf(g, rank, root)
    && (forall i {:trigger blocks[i]} :: 0 <= i < |blocks| ==> blocks[i] in S)
    && (forall b :: b in Reach(g, rank, root) ==> b.id < |blocks| && blocks[b.id] == b)
  }

  lemma LeveledIsLaid(S: set<Block>, g: Graph, rank: map<Block, nat>, root: Block, blocks: seq<Block>,
                      levels: seq<seq<Block>>)
    requires Leveled(S, g, rank, root, blocks, levels)
    ensures Laid(S, g, rank, root, blocks, levels)
  {
    assert forall b :: b in S ==> g[b] == NodeOf(b);
    hide Dag, Lists, Reach, LevelOf;
  }

  // ----- A graph whose edges have been moved -----

  /** A block of `R` is a leaf in both graphs or in none, and the edges of `g` stay in `R`. */
  ghost predicate Relinked(g0: Graph, g: Graph, R: set<Block>) {
    && R <= g0.Keys && R <= g.Keys
    && forall b {:trigger g[b]} :: b in R ==> RelinkedAt(g0[b], g[b], R)
  }

  ghost predicate RelinkedAt(n0: Node, n: Node, R: set<Block>) {
    && (n.jt == null <==> n0.jt == null) && (n.jf == null <==> n.jt == null)
    && (n.jt != null ==> n.jt in R && n.jf in R)
  }

  /** The same as Leveled when edges have been moved since the level lists were made, for `g0`. */
  ghost predicate Stacked(S: set<Block>, g0: Graph, g: Graph, rank: map<Block, nat>, root: Block, blocks: seq<Block>,
                          levels: seq<seq<Block>>)
    reads S`stmts, S`s, S`jt, S`jf, S`id, S`level
  {
    && root in S && g == GraphOf(S) && g0.Keys == S && Dag(g0, rank) && Relinked(g0, g, Reach(g0, rank, root))
    && Lists(levels, g0, rank, Reach(g0, rank, root)) && root.level == LevelOf(g0, rank, root)
    && (forall i {:trigger blocks[i]} :: 0 <= i < |blocks| ==> blocks[i] in S)
    && (forall b :: b in Reach(g0, rank, root) ==> b.id < |blocks| && blocks[b.id] == b)
  }

  lemma RelinkedStart(g: Graph, rank: map<Block, nat>, root: Block)
    requires Dag(g, rank) && root in g
    ensures Relinked(g, g, Reach(g, rank, root))
  {
    var R := Reach(g, rank, root);
    forall b {:trigger g[b]} | b in R
      ensures RelinkedAt(g[b], g[b], R)
    {
      ReachClosed(g, rank, root, b);
      assert DagNode(g, rank, b);
      if g[b].jt != null {
        assert g[b].jt in Reach(g, rank, b) && g[b].jf in Reach(g, rank, b);
      }
    }
  }

  lemma LeveledIsStacked(S: set<Block>, g: Graph, rank: map<Block, nat>, root: Block, blocks: seq<Block>,
                         levels: seq<seq<Block>>)
    requires Leveled(S, g, rank, root, blocks, levels)
    ensures Stacked(S, g, g, rank, root, blocks, levels)
  {
    RelinkedStart(g, rank, root);
    hide Dag, Lists, Reach, LevelOf, Relinked;
  }
}
