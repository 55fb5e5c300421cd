/** opt_init: counting and numbering the blocks, and the bound on the value numbers. */
module OptInit {
  import opened Cfg
  import opened LiveStmts
  import opened BlockSums
  import opened DepthFirst
  import opened AsmWalk
  import opened Levels
  import opened Dominators
  import opened ValueFlow

  /** The first `n` places of `bs` hold the blocks of `seen`, each at its number. */
  ghost predicate Entered(bs: seq<Block>, n: nat, ids: map<Block, nat>, seen: set<Block>) {
    && n == |seen| <= |bs| && seen <= ids.Keys
    && (forall k {:trigger bs[k]} :: 0 <= k < n ==> bs[k] in seen && ids[bs[k]] == k)
    && (forall b {:trigger ids[b]} :: b in seen ==> ids[b] < n && bs[ids[b]] == b)
  }

  /** One block more. */
  lemma EnteredNext(bs: seq<Block>, n: nat, ids: map<Block, nat>, seen: set<Block>, b: Block)
    requires Entered(bs, n, ids, seen) && b !in seen && b in ids && n < |bs|
    ensures Entered(bs[n := b], n + 1, ids[b := n], seen + {b})
  {
    assert |seen + {b}| == n + 1;
    var bs1, ids1 := bs[n := b], ids[b := n];
    forall k {:trigger bs1[k]} | 0 <= k < n + 1
      ensures bs1[k] in seen + {b} && ids1[bs1[k]] == k
    {
      if k < n {
        assert bs1[k] == bs[k];
      }
    }
    forall x {:trigger ids1[x]} | x in seen + {b}
      ensures ids1[x] < n + 1 && bs1[ids1[x]] == x
    {
      if x != b {
        assert ids1[x] == ids[x];
      }
    }
  }

  /** The tables opt_init allots. */
  class Tables {
    var curMark: nat
    var blocks: array<Block>
    var nBlocks: nat

    constructor (filler: Block)
      ensures curMark == 0 && fresh(blocks)
    {
      curMark, nBlocks := 0, 0;
      blocks := new Block[0](_ => filler);
    }

    method Mark(b: Block, ghost S: set<Block>, ghost g: Graph, ghost seen: set<Block>)
      requires b in S && Marks(S, curMark, seen) && g == GraphOf(S)
      modifies b`mark
      ensures Marks(S, curMark, seen + {b}) && g == GraphOf(S)
    {
      b.mark := curMark;
    }

    /** count_blocks: the blocks reachable from `p` and not yet marked. */
    method CountBlocks(p: Block?, ghost S: set<Block>, ghost g: Graph, ghost rank: map<Block, nat>,
                       ghost seen: set<Block>)
        returns (n: nat)
      requires g == GraphOf(S) && Dag(g, rank) && Marks(S, curMark, seen) && Ready(g, rank, seen, p)
      modifies S`mark
      ensures g == GraphOf(S) && Marks(S, curMark, seen + ReachFrom(g, rank, p))
      ensures |seen| + n == |seen + ReachFrom(g, rank, p)|
      decreases Height(rank, p)
    {
      if p == null {
        assert seen + {} == seen;
        return 0;
      }
      if p.mark == curMark {
        WalkDone(g, rank, p, seen);
        return 0;
      }
      assert g[p] == NodeOf(p) && p !in seen;
      var t, f := p.jt, p.jf;
      WalkStep(g, rank, p, t, f, seen);
      assert |seen + {p}| == |seen| + 1 && ReachFrom(g, rank, p) == Reach(g, rank, p);
      hide *;
      Mark(p, S, g, seen);
      var nt := CountBlocks(t, S, g, rank, seen + {p});
      var nf := CountBlocks(f, S, g, rank, seen + {p} + ReachFrom(g, rank, t));
      n := nt + nf + 1;
    }

    method SetId(p: Block, n: nat, ghost S: set<Block>, ghost g: Graph, ghost seen: set<Block>)
      requires p in S && Marks(S, curMark, seen) && g == GraphOf(S)
      modifies p`id
      ensures Marks(S, curMark, seen) && g == GraphOf(S) && IdsOf(S) == old(IdsOf(S))[p := n]
    {
      p.id := n;
    }

    method Put(n: nat, p: Block)
      requires n < blocks.Length
      modifies blocks
      ensures blocks[..] == old(blocks[..])[n := p]
    {
      blocks[n] := p;
    }

    /** Numbers a block that has just been marked. */
    method Enter(p: Block, ghost S: set<Block>, ghost g: Graph, ghost seen: set<Block>)
      requires p in S && Marks(S, curMark, seen + {p}) && g == GraphOf(S) && p !in seen
      requires Entered(blocks[..], nBlocks, IdsOf(S), seen) && nBlocks < blocks.Length
      modifies this`nBlocks, blocks, p`id
      ensures Marks(S, curMark, seen + {p}) && g == GraphOf(S)
      ensures Entered(blocks[..], nBlocks, IdsOf(S), seen + {p})
    {
      hide *;
      IdKnown(p, S);
      EnteredNext(blocks[..], nBlocks, IdsOf(S), seen, p);
      var n := nBlocks;
      nBlocks := nBlocks + 1;
      SetId(p, n, S, g, seen + {p});
      Put(n, p);
    }

    /** number_blks_r: every reachable block gets the next number and its place. */
    method NumberBlksR(p: Block?, ghost S: set<Block>, ghost g: Graph, ghost rank: map<Block, nat>,
                       ghost seen: set<Block>)
      requires g == GraphOf(S) && Dag(g, rank) && Marks(S, curMark, seen) && Ready(g, rank, seen, p)
      requires Entered(blocks[..], nBlocks, IdsOf(S), seen) && |seen + ReachFrom(g, rank, p)| <= blocks.Length
      modifies this`nBlocks, blocks, S`mark, S`id
      ensures g == GraphOf(S) && Marks(S, curMark, seen + ReachFrom(g, rank, p))
      ensures Entered(blocks[..], nBlocks, IdsOf(S), seen + ReachFrom(g, rank, p))
      decreases Height(rank, p)
    {
      hide *;
      if p == null {
        NothingLeft(g, rank, p, seen);
        return;
      }
      if p.mark == curMark {
        AlreadySeen(p, S, g, rank, seen, curMark);
        return;
      }
      Descend(p, S, g, rank, seen, curMark);
      var t, f := p.jt, p.jf;
      ghost var s1 := seen + {p} + ReachFrom(g, rank, t);
      EnteredSize(blocks[..], nBlocks, IdsOf(S), seen);
      Mark(p, S, g, seen);
      Enter(p, S, g, seen);
      NumberBlksR(t, S, g, rank, seen + {p});
      NumberBlksR(f, S, g, rank, s1);
    }

    /** One place, counted. */
    method CountOne(i: nat, ghost S: set<Block>, ghost g: Graph, ghost R: set<Block>, ghost bs: seq<Block>)
        returns (n: nat)
      requires g == GraphOf(S) && R <= S && i < blocks.Length && bs == blocks[..] && Entered(bs, |bs|, IdsOf(S), R)
      ensures SetLen(Firsts(bs, i + 1), Bounds(g)) == SetLen(Firsts(bs, i), Bounds(g)) + 3 * n
    {
      var b := blocks[i];
      BoundAt(b, bs, i, S, g, R);
      FirstsNext(bs, i, IdsOf(S), R, Bounds(g));
      hide SetLen, Firsts, Entered, GraphOf;
      var len := SLength(b.stmts);
      n := len + 1;
    }

    /** The bound: three for each statement and each block. */
    method MaxStmts(n: nat, ghost S: set<Block>, ghost g: Graph, ghost R: set<Block>) returns (maxStmts: nat)
      requires g == GraphOf(S) && R <= S && n == blocks.Length && Entered(blocks[..], n, IdsOf(S), R)
      ensures 3 * maxStmts == SetLen(R, Bounds(g))
    {
      hide *;
      maxStmts := 0;
      ghost var bs := blocks[..];
      NoFirst(bs, Bounds(g));
      for i := 0 to n
        invariant blocks[..] == bs && 3 * maxStmts == SetLen(Firsts(bs, i), Bounds(g))
      {
        var count := CountOne(i, S, g, R, bs);
        maxStmts := maxStmts + count;
      }
      AllFirst(bs, n, IdsOf(S), R);
    }

    /** unMarkAll. */
    method UnMarkAll(ghost S: set<Block>, ghost g: Graph)
      requires MarksBelow(S, curMark) && g == GraphOf(S)
      modifies this`curMark
      ensures Marks(S, curMark, {}) && g == GraphOf(S) && blocks == old(blocks) && nBlocks == old(nBlocks)
    {
      FreshMark(S, curMark);
      curMark := curMark + 1;
    }

    /** The array of blocks, as long as there are blocks. */
    method Allot(root: Block, ghost S: set<Block>, ghost g: Graph, ghost rank: map<Block, nat>)
      requires root in S && g == GraphOf(S) && Dag(g, rank) && MarksBelow(S, curMark)
      modifies this, S`mark
      ensures g == GraphOf(S) && MarksBelow(S, curMark) && fresh(blocks)
      ensures nBlocks == 0 && blocks.Length == |Reach(g, rank, root)| && Entered(blocks[..], 0, IdsOf(S), {})
    {
      hide *;
      InGraph(S, g, S);
      Start(g, rank, root);
      UnMarkAll(S, g);
      var n := CountBlocks(root, S, g, rank, {});
      blocks := new Block[n](_ => root);
      nBlocks := 0;
      MarkedBelow(S, curMark, Reach(g, rank, root));
      NoneEntered(blocks[..], S);
    }

    /** opt_init. */
    method OptInit(root: Block, ghost S: set<Block>, ghost g: Graph, ghost rank: map<Block, nat>) returns (maxval: nat)
      requires root in S && g == GraphOf(S) && Dag(g, rank) && MarksBelow(S, curMark)
      modifies this, S`mark, S`id
      ensures g == GraphOf(S) && MarksBelow(S, curMark) && fresh(blocks)
      ensures nBlocks == blocks.Length == |Reach(g, rank, root)|
      ensures Entered(blocks[..], nBlocks, IdsOf(S), Reach(g, rank, root))
      ensures maxval == SetLen(Reach(g, rank, root), Bounds(g)) > 0
    {
      hide *;
      InGraph(S, g, S);
      Start(g, rank, root);
      Allot(root, S, g, rank);
      UnMarkAll(S, g);
      NumberBlksR(root, S, g, rank, {});
      EnteredSize(blocks[..], nBlocks, IdsOf(S), Reach(g, rank, root));
      MarkedBelow(S, curMark, Reach(g, rank, root));
      InGraph(S, g, Reach(g, rank, root));
      var maxStmts := MaxStmts(nBlocks, S, g, Reach(g, rank, root));
      maxval := 3 * maxStmts;
      Positive(Reach(g, rank, root), g, root);
    }
  }

  lemma MarkedBelow(S: set<Block>, m: nat, seen: set<Block>)
    requires Marks(S, m, seen)
    ensures MarksBelow(S, m) && seen <= S
  {
  }

  lemma InGraph(S: set<Block>, g: Graph, R: set<Block>)
    requires g == GraphOf(S) && R <= S
    ensures g.Keys == S && R <= g.Keys
  {
  }

  lemma Positive(R: set<Block>, g: Graph, root: Block)
    requires root in R && R <= g.Keys
    ensures SetLen(R, Bounds(g)) > 0
  {
    SetLenRemove(R, Bounds(g), root);
  }

  lemma NoneEntered(bs: seq<Block>, S: set<Block>)
    ensures Entered(bs, 0, IdsOf(S), {})
  {
  }

  lemma EnteredSize(bs: seq<Block>, n: nat, ids: map<Block, nat>, seen: set<Block>)
    requires Entered(bs, n, ids, seen)
    ensures n == |seen| <= |bs|
  {
  }

  lemma IdKnown(p: Block, S: set<Block>)
    requires p in S
    ensures p in IdsOf(S)
  {
  }

  lemma NoFirst(bs: seq<Block>, lens: map<Block, nat>)
    ensures SetLen(Firsts(bs, 0), lens) == 0
  {
  }

  /** The count of the i-th block is that of its live statements, and one. */
  lemma BoundAt(b: Block, bs: seq<Block>, i: nat, S: set<Block>, g: Graph, R: set<Block>)
    requires g == GraphOf(S) && R <= S && i < |bs| && b == bs[i] && Entered(bs, |bs|, IdsOf(S), R)
    ensures b in Bounds(g) && Bounds(g)[b] == 3 * (|Live(b.stmts)| + 1) && R <= Bounds(g).Keys
  {
    assert bs[i] in R && g[b] == NodeOf(b);
  }

  lemma NothingLeft(g: Graph, rank: map<Block, nat>, p: Block?, seen: set<Block>)
    requires Dag(g, rank) && p == null
    ensures seen + ReachFrom(g, rank, p) == seen
  {
  }

  lemma AlreadySeen(p: Block, S: set<Block>, g: Graph, rank: map<Block, nat>, seen: set<Block>, m: nat)
    requires g == GraphOf(S) && Dag(g, rank) && Marks(S, m, seen) && Ready(g, rank, seen, p) && p.mark == m
    ensures p in g && seen + ReachFrom(g, rank, p) == seen
  {
    WalkDone(g, rank, p, seen);
  }

  /** Going down from an unmarked block. */
  lemma Descend(p: Block, S: set<Block>, g: Graph, rank: map<Block, nat>, seen: set<Block>, m: nat)
    requires g == GraphOf(S) && Dag(g, rank) && Marks(S, m, seen) && Ready(g, rank, seen, p) && p.mark != m
    ensures p in S && p !in seen && p in g && g[p].jt == p.jt && g[p].jf == p.jf && |seen + {p}| == |seen| + 1
    ensures (p.jt == null || p.jt in g) && (p.jf == null || p.jf in g)
    ensures var (t, f) := (p.jt, p.jf);
            var s1 := seen + {p} + ReachFrom(g, rank, t);
            && Height(rank, t) < Height(rank, p) && Height(rank, f) < Height(rank, p)
            && Ready(g, rank, seen + {p}, t) && Ready(g, rank, s1, f)
            && s1 + ReachFrom(g, rank, f) == seen + ReachFrom(g, rank, p)
            && |seen + {p}| <= |seen + ReachFrom(g, rank, p)| && |s1| <= |seen + ReachFrom(g, rank, p)|
  {
    assert g[p] == NodeOf(p);
    WalkStep(g, rank, p, p.jt, p.jf, seen);
    var s1 := seen + {p} + ReachFrom(g, rank, p.jt);
    var s2 := s1 + ReachFrom(g, rank, p.jf);
    assert s2 == seen + ReachFrom(g, rank, p);
    Smaller(seen + {p}, s2);
    Smaller(s1, s2);
  }

  lemma Start(g: Graph, rank: map<Block, nat>, root: Block)
    requires Dag(g, rank) && root in g
    ensures Ready(g, rank, {}, root)
    ensures {} + ReachFrom(g, rank, root) == ReachFrom(g, rank, root) == Reach(g, rank, root)
  {
  }

  lemma Smaller(a: set<Block>, b: set<Block>)
    requires a <= b
    ensures |a| <= |b|
  {
    assert b == a + (b - a);
  }

  ghost function Firsts(bs: seq<Block>, i: nat): set<Block>
    requires i <= |bs|
  {
    set k | 0 <= k < i :: bs[k]
  }

  lemma FirstsNext(bs: seq<Block>, i: nat, ids: map<Block, nat>, R: set<Block>, lens: map<Block, nat>)
    requires Entered(bs, |bs|, ids, R) && i < |bs| && R <= lens.Keys
    ensures bs[i] in lens && SetLen(Firsts(bs, i + 1), lens) == SetLen(Firsts(bs, i), lens) + lens[bs[i]]
  {
    assert bs[i] in R;
    forall k | 0 <= k < i
      ensures bs[k] != bs[i]
    {
      assert ids[bs[k]] == k && ids[bs[i]] == i;
    }
    assert Firsts(bs, i + 1) == Firsts(bs, i) + {bs[i]};
    SetLenRemove(Firsts(bs, i + 1), lens, bs[i]);
    assert Firsts(bs, i + 1) - {bs[i]} == Firsts(bs, i);
  }

  lemma AllFirst(bs: seq<Block>, n: nat, ids: map<Block, nat>, R: set<Block>)
    requires Entered(bs, n, ids, R) && n == |bs|
    ensures Firsts(bs, n) == R
  {
    forall b | b in R
      ensures b in Firsts(bs, n)
    {
      assert bs[ids[b]] == b;
    }
    forall b | b in Firsts(bs, n)
      ensures b in R
    {
      var k :| 0 <= k < n && bs[k] == b;
    }
  }

  /** What opt_init and find_levels leave is what the passes over the level lists start from. */
  lemma LeveledReady(S: set<Block>, g: Graph, rank: map<Block, nat>, root: Block, bs: seq<Block>, n: nat,
                     levels: seq<seq<Block>>)
    requires root in S && g == GraphOf(S) && Dag(g, rank) && n == |bs| && Entered(bs, n, IdsOf(S), Reach(g, rank, root))
    requires Lists(levels, g, rank, Reach(g, rank, root)) && root.level == LevelOf(g, rank, root)
    ensures Leveled(S, g, rank, root, bs, levels)
  {
    var R := Reach(g, rank, root);
    PlacedAll(S, bs, R);
    assert R <= S;
    hide Lists, LevelOf, Dag, Reach, Entered;
  }

  lemma PlacedAll(S: set<Block>, bs: seq<Block>, R: set<Block>)
    requires R <= S && Entered(bs, |bs|, IdsOf(S), R)
    ensures forall b :: b in R ==> b.id < |bs| && bs[b.id] == b
    ensures forall i {:trigger bs[i]} :: 0 <= i < |bs| ==> bs[i] in S
  {
    forall b | b in R
      ensures b.id < |bs| && bs[b.id] == b
    {
      assert IdsOf(S)[b] == b.id;
    }
  }
}
