/** Depth-first walks under marks: what the recursive passes over the block graph share. */
module DepthFirst {
  import opened Cfg

  // ----- Marks -----

  /** The blocks of `S` that carry the current mark `m` are those of `seen`. */
  ghost predicate Marks(S: set<Block>, m: nat, seen: set<Block>)
    reads S`mark
    ensures Marks(S, m, seen) ==> MarksBelow(S, m)
  {
    seen <= S && forall b :: b in S ==> b.mark <= m && (b.mark == m <==> b in seen)
  }

  /** No block carries a mark from the future. */
  ghost predicate MarksBelow(S: set<Block>, m: nat)
    reads S`mark
  {
    forall b :: b in S ==> b.mark <= m
  }

  /** unMarkAll */
  lemma FreshMark(S: set<Block>, m: nat)
    requires MarksBelow(S, m)
    ensures Marks(S, m + 1, {})
  {
  }

  ghost function ReachFrom(g: Graph, rank: map<Block, nat>, b: Block?): set<Block>
    requires Dag(g, rank) && (b == null || b in g)
  {
    if b == null then {} else Reach(g, rank, b)
  }

  /** The marks a depth-first walk may start from at `b`: whatever is marked and not above `b`
      has been walked. */
  ghost predicate Ready(g: Graph, rank: map<Block, nat>, seen: set<Block>, b: Block?)
    requires Dag(g, rank)
  {
    b != null ==> b in g && ClosedBelow(g, rank, seen, rank[b])
  }

  /** One more than the rank of a block: what is left to walk. */
  ghost function Height(rank: map<Block, nat>, b: Block?): nat {
    if b == null || b !in rank then 0 else rank[b] + 1
  }

  // ----- One step of a walk -----

  /** Marks stay closed below `k` once `b` is marked and its successor `c` has been visited. */
  lemma SeenClosed(g: Graph, rank: map<Block, nat>, b: Block, c: Block, seen: set<Block>, k: nat)
    requires Dag(g, rank) && b in g && c in g && ClosedBelow(g, rank, seen, rank[b]) && k < rank[b]
    ensures ClosedBelow(g, rank, seen + {b} + Reach(g, rank, c), k)
  {
    forall x | x in seen + {b} + Reach(g, rank, c) && x in g && rank[x] <= k && g[x].jt != null
      ensures g[x].jt in seen + {b} + Reach(g, rank, c) && g[x].jf in seen + {b} + Reach(g, rank, c)
    {
      if x !in seen {
        assert DagNode(g, rank, x);
        ReachClosed(g, rank, c, x);
        assert g[x].jt in Reach(g, rank, x) && g[x].jf in Reach(g, rank, x);
      }
    }
  }

  /** Walking from an unmarked block: mark it, then its successors `c1` and `c2` in turn. */
  lemma WalkStep(g: Graph, rank: map<Block, nat>, b: Block, c1: Block?, c2: Block?, seen: set<Block>)
    requires Dag(g, rank) && Ready(g, rank, seen, b) && b !in seen && b in g
    requires (c1 == g[b].jt && c2 == g[b].jf) || (c1 == g[b].jf && c2 == g[b].jt)
    ensures (c1 == null || c1 in g) && Height(rank, c1) < Height(rank, b)
    ensures (c2 == null || c2 in g) && Height(rank, c2) < Height(rank, b)
    ensures Ready(g, rank, seen + {b}, c1)
    ensures Ready(g, rank, seen + {b} + ReachFrom(g, rank, c1), c2)
    ensures seen + Reach(g, rank, b) == seen + {b} + ReachFrom(g, rank, c1) + ReachFrom(g, rank, c2)
  {
    assert DagNode(g, rank, b);
    if c1 != null {
      SeenClosed(g, rank, b, c1, seen, rank[c2]);
    }
  }

  lemma WalkDone(g: Graph, rank: map<Block, nat>, b: Block, seen: set<Block>)
    requires Dag(g, rank) && Ready(g, rank, seen, b) && b in seen
    ensures Reach(g, rank, b) - seen == {} && seen + Reach(g, rank, b) == seen
  {
    ReachInClosed(g, rank, seen, b);
  }
}
