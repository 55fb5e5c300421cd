/** Paths from the root as sequences of branch decisions, and domination by blocks and by edges. */
module Paths {
  import opened Cfg

  /** Where the decisions `ds` lead from `root`; null when they run off the graph. */
  ghost function Walk(g: Graph, root: Block, ds: seq<bool>): Block?
    decreases |ds|
  {
    if ds == [] then root
    else
      var c := Walk(g, root, ds[..|ds| - 1]);
      if c == null || c !in g then null else Succ(g[c], ds[|ds| - 1])
  }

  /** Block `a` is on the path. */
  ghost predicate Visits(g: Graph, root: Block, ds: seq<bool>, a: Block)
    decreases |ds|
  {
    Walk(g, root, ds) == a || (ds != [] && Visits(g, root, ds[..|ds| - 1], a))
  }

  /** Edge `k` is on the path. */
  ghost predicate Takes(g: Graph, root: Block, ds: seq<bool>, k: Edge)
    decreases |ds|
  {
    ds != [] &&
    ((Walk(g, root, ds[..|ds| - 1]) == k.pred && ds[|ds| - 1] == k.sense) || Takes(g, root, ds[..|ds| - 1], k))
  }

  lemma WalkSnoc(g: Graph, root: Block, ds: seq<bool>, s: bool)
    ensures Walk(g, root, ds + [s])
         == var c := Walk(g, root, ds); if c == null || c !in g then null else Succ(g[c], s)
    ensures forall a :: Visits(g, root, ds + [s], a) <==> Walk(g, root, ds + [s]) == a || Visits(g, root, ds, a)
    ensures forall k :: Takes(g, root, ds + [s], k) <==>
        (Walk(g, root, ds) == k.pred && s == k.sense) || Takes(g, root, ds, k)
  {
    assert (ds + [s])[..|ds + [s]| - 1] == ds;
  }

  /** Every path to `b` visits `a`. */
  ghost predicate Dominates(g: Graph, root: Block, a: Block, b: Block) {
    forall ds :: Walk(g, root, ds) == b ==> Visits(g, root, ds, a)
  }

  /** Every path that ends with edge `e` takes edge `k`. */
  ghost predicate EdgeDominates(g: Graph, root: Block, k: Edge, e: Edge) {
    forall ds :: Walk(g, root, ds) == e.pred ==> Takes(g, root, ds + [e.sense], k)
  }

  /** Edge (c, s) leads to `b`. */
  predicate Enters(g: Graph, c: Block, s: bool, b: Block) {
    c in g && Succ(g[c], s) == b
  }

  lemma {:induction false} WalkInReach(g: Graph, rank: map<Block, nat>, root: Block, ds: seq<bool>)
    requires Dag(g, rank) && root in g && Walk(g, root, ds) != null
    ensures Walk(g, root, ds) in Reach(g, rank, root)
    decreases |ds|
  {
    if ds != [] {
      WalkInReach(g, rank, root, ds[..|ds| - 1]);
      var c := Walk(g, root, ds[..|ds| - 1]);
      ReachClosed(g, rank, root, c);
      assert DagNode(g, rank, c);
      assert Walk(g, root, ds) in Reach(g, rank, c);
    }
  }

  lemma {:induction false} WalkCons(g: Graph, b: Block, s: bool, ds: seq<bool>)
    requires b in g && Succ(g[b], s) != null
    ensures Walk(g, b, [s] + ds) == Walk(g, Succ(g[b], s), ds)
    decreases |ds|
  {
    if ds == [] {
      assert [s] + ds == [] + [s];
      WalkSnoc(g, b, [], s);
    } else {
      var init, last := ds[..|ds| - 1], ds[|ds| - 1];
      WalkCons(g, b, s, init);
      assert [s] + ds == ([s] + init) + [last] && ds == init + [last];
      WalkSnoc(g, b, [s] + init, last);
      WalkSnoc(g, Succ(g[b], s), init, last);
    }
  }

  /** The reachable blocks are the ends of paths. */
  lemma {:induction false} ReachWalk(g: Graph, rank: map<Block, nat>, root: Block, b: Block) returns (ds: seq<bool>)
    requires Dag(g, rank) && root in g && b in Reach(g, rank, root)
    ensures Walk(g, root, ds) == b
    decreases rank[root]
  {
    assert DagNode(g, rank, root);
    if b == root {
      ds := [];
    } else {
      var s := b in Reach(g, rank, g[root].jt);
      var tail := ReachWalk(g, rank, Succ(g[root], s), b);
      WalkCons(g, root, s, tail);
      ds := [s] + tail;
    }
  }

  /** An edge between reachable blocks goes down, and never to the root. */
  lemma EntersLower(g: Graph, rank: map<Block, nat>, root: Block, c: Block, s: bool, b: Block)
    requires Dag(g, rank) && root in g && c in Reach(g, rank, root) && Enters(g, c, s, b)
    ensures b in Reach(g, rank, root) && rank[b] < rank[c] <= rank[root] && b != root
  {
    ReachClosed(g, rank, root, c);
    assert DagNode(g, rank, c);
    assert b in Reach(g, rank, c);
  }

  /** Only the empty path leads back to the root. */
  lemma RootPath(g: Graph, rank: map<Block, nat>, root: Block, ds: seq<bool>)
    requires Dag(g, rank) && root in g && Walk(g, root, ds) == root
    ensures ds == []
  {
    if ds != [] {
      WalkInReach(g, rank, root, ds[..|ds| - 1]);
      EntersLower(g, rank, root, Walk(g, root, ds[..|ds| - 1]), ds[|ds| - 1], root);
      assert false;
    }
  }

  /** A dominates b when it is b, or dominates everything that enters b. */
  lemma DominatesStep(g: Graph, rank: map<Block, nat>, root: Block, a: Block, b: Block)
    requires Dag(g, rank) && root in g
    ensures Dominates(g, root, a, b) <==>
            a == b || (b != root && forall c, s :: c in Reach(g, rank, root) && Enters(g, c, s, b) ==>
                Dominates(g, root, a, c))
  {
    if Dominates(g, root, a, b) && a != b {
      if b == root {
        assert Walk(g, root, []) == root;
        assert false;
      }
      forall c, s | c in Reach(g, rank, root) && Enters(g, c, s, b)
        ensures Dominates(g, root, a, c)
      {
        forall ds | Walk(g, root, ds) == c
          ensures Visits(g, root, ds, a)
        {
          WalkSnoc(g, root, ds, s);
        }
      }
    }
    if a != b && b != root && (forall c, s :: c in Reach(g, rank, root) && Enters(g, c, s, b) ==>
        Dominates(g, root, a, c)) {
      forall ds | Walk(g, root, ds) == b
        ensures Visits(g, root, ds, a)
      {
        var c := Walk(g, root, ds[..|ds| - 1]);
        WalkInReach(g, rank, root, ds[..|ds| - 1]);
        assert Enters(g, c, ds[|ds| - 1], b);
      }
    }
  }

  /** What dominates an edge dominates every edge into its start. */
  lemma EdgeDominatesInto(g: Graph, rank: map<Block, nat>, root: Block, k: Edge, e: Edge)
    requires Dag(g, rank) && root in g && EdgeDominates(g, root, k, e) && k != e
    ensures e.pred != root && forall c, s :: c in Reach(g, rank, root) && Enters(g, c, s, e.pred) ==>
              EdgeDominates(g, root, k, Edge(c, s))
  {
    var b := e.pred;
    if b == root {
      assert Walk(g, root, []) == root;
      WalkSnoc(g, root, [], e.sense);
      assert false;
    }
    forall c, s | c in Reach(g, rank, root) && Enters(g, c, s, b)
      ensures EdgeDominates(g, root, k, Edge(c, s))
    {
      forall ds | Walk(g, root, ds) == c
        ensures Takes(g, root, ds + [s], k)
      {
        WalkSnoc(g, root, ds, s);
        WalkSnoc(g, root, ds + [s], e.sense);
      }
    }
  }

  lemma EdgeDominatesFrom(g: Graph, rank: map<Block, nat>, root: Block, k: Edge, e: Edge)
    requires Dag(g, rank) && root in g && e.pred != root
    requires forall c, s :: c in Reach(g, rank, root) && Enters(g, c, s, e.pred) ==>
        EdgeDominates(g, root, k, Edge(c, s))
    ensures EdgeDominates(g, root, k, e)
  {
    forall ds | Walk(g, root, ds) == e.pred
      ensures Takes(g, root, ds + [e.sense], k)
    {
      var init, last := ds[..|ds| - 1], ds[|ds| - 1];
      var c := Walk(g, root, init);
      WalkInReach(g, rank, root, init);
      assert Enters(g, c, last, e.pred);
      assert ds == init + [last];
      assert EdgeDominates(g, root, k, Edge(c, last));
      WalkSnoc(g, root, ds, e.sense);
    }
  }

  lemma EdgeDominatesStep(g: Graph, rank: map<Block, nat>, root: Block, k: Edge, e: Edge)
    requires Dag(g, rank) && root in g
    ensures EdgeDominates(g, root, k, e) <==>
            k == e || (e.pred != root
                       && forall c, s :: c in Reach(g, rank, root) && Enters(g, c, s, e.pred) ==>
                            EdgeDominates(g, root, k, Edge(c, s)))
  {
    if k == e {
      forall ds | Walk(g, root, ds) == e.pred
        ensures Takes(g, root, ds + [e.sense], k)
      {
        WalkSnoc(g, root, ds, e.sense);
      }
    } else {
      hide *;
      if EdgeDominates(g, root, k, e) {
        EdgeDominatesInto(g, rank, root, k, e);
      } else if e.pred != root && forall c, s :: c in Reach(g, rank, root) && Enters(g, c, s, e.pred) ==>
          EdgeDominates(g, root, k, Edge(c, s)) {
        EdgeDominatesFrom(g, rank, root, k, e);
      }
    }
  }
}
