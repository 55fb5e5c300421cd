/** What or_pullup and and_pullup do when the dominator sets are current. */
module PullCurrent {
  import opened Bpf
  import opened Cfg
  import opened Paths
  import opened Levels
  import opened InEdges
  import opened PullSpec
  import opened PullUp

  // ----- The reachable part of a graph -----

  ghost function Part(g: Graph, R: set<Block>): (g1: Graph)
    requires R <= g.Keys
    ensures g1.Keys == R
  {
    map b | b in R :: g[b]
  }

  lemma SuccIn(g: Graph, rank: map<Block, nat>, root: Block, x: Block, s: bool)
    requires Dag(g, rank) && root in g && x in Reach(g, rank, root)
    ensures x in g && (Succ(g[x], s) != null ==> Succ(g[x], s) in Reach(g, rank, root))
  {
    ReachClosed(g, rank, root, x);
    assert DagNode(g, rank, x);
    if Succ(g[x], s) != null {
      EntersLower(g, rank, root, x, s, Succ(g[x], s));
    }
  }

  lemma PartIn(g: Graph, rank: map<Block, nat>, root: Block)
    requires Dag(g, rank) && root in g
    ensures Reach(g, rank, root) <= g.Keys && root in Reach(g, rank, root)
  {
    forall x | x in Reach(g, rank, root)
      ensures x in g
    {
      ReachClosed(g, rank, root, x);
    }
  }

  lemma PartDag(g: Graph, rank: map<Block, nat>, root: Block)
    requires Dag(g, rank) && root in g && Reach(g, rank, root) <= g.Keys
    ensures Dag(Part(g, Reach(g, rank, root)), rank)
  {
    var g1 := Part(g, Reach(g, rank, root));
    forall x {:trigger DagNode(g1, rank, x)} | x in g1
      ensures DagNode(g1, rank, x)
    {
      assert DagNode(g, rank, x);
      SuccIn(g, rank, root, x, true);
      SuccIn(g, rank, root, x, false);
    }
  }

  lemma {:induction false} PartReach(g: Graph, rank: map<Block, nat>, root: Block, b: Block)
    requires Dag(g, rank) && root in g && b in Reach(g, rank, root) && Reach(g, rank, root) <= g.Keys
    requires Dag(Part(g, Reach(g, rank, root)), rank)
    ensures Reach(Part(g, Reach(g, rank, root)), rank, b) == Reach(g, rank, b)
    decreases rank[b]
  {
    var R := Reach(g, rank, root);
    assert DagNode(g, rank, b) && Part(g, R)[b] == g[b];
    if g[b].jt != null {
      SuccIn(g, rank, root, b, true);
      SuccIn(g, rank, root, b, false);
      PartReach(g, rank, root, g[b].jt);
      PartReach(g, rank, root, g[b].jf);
    }
  }

  /** A run stays in a part that is closed. */
  lemma {:induction false} PartRun(g: Graph, R: set<Block>, b: Block, st: State, p: Packet, fuel: nat)
    requires R <= g.Keys && b in R
    requires forall x, s {:trigger Succ(g[x], s)} :: x in R && g[x].test.code.Jmp? ==>
               Succ(g[x], s) != null && Succ(g[x], s) in R
    ensures Run(Part(g, R), b, st, p, fuel) == Run(g, b, st, p, fuel)
    decreases fuel
  {
    assert Part(g, R)[b] == g[b];
    var st1 := ExecAll(g[b].stmts, st, p);
    hide ExecAll, Taken;
    if fuel > 0 && st1.Some? && g[b].test.code.Jmp? {
      PartRun(g, R, Succ(g[b], Taken(g[b].test, st1.value)), st1.value, p, fuel - 1);
    }
  }

  lemma {:induction false} PartWalk(g: Graph, rank: map<Block, nat>, root: Block, ds: seq<bool>)
    requires Dag(g, rank) && root in g && Reach(g, rank, root) <= g.Keys
    ensures Walk(Part(g, Reach(g, rank, root)), root, ds) == Walk(g, root, ds)
    ensures forall a :: Visits(Part(g, Reach(g, rank, root)), root, ds, a) <==> Visits(g, root, ds, a)
    decreases |ds|
  {
    if ds != [] {
      var init := ds[..|ds| - 1];
      PartWalk(g, rank, root, init);
      if Walk(g, root, init) != null {
        WalkInReach(g, rank, root, init);
      }
    }
  }

  lemma PartCurrent(g: Graph, rank: map<Block, nat>, root: Block, b: Block, D: set<Block>)
    requires Dag(g, rank) && root in g && Reach(g, rank, root) <= g.Keys
    ensures forall x :: Dominates(g, root, b, x) <==> Dominates(Part(g, Reach(g, rank, root)), root, b, x)
    ensures Current(g, root, b, D) ==> Current(Part(g, Reach(g, rank, root)), root, b, D)
  {
    forall ds
      ensures Walk(Part(g, Reach(g, rank, root)), root, ds) == Walk(g, root, ds)
      ensures forall a :: Visits(Part(g, Reach(g, rank, root)), root, ds, a) <==> Visits(g, root, ds, a)
    {
      PartWalk(g, rank, root, ds);
    }
    forall x
      ensures Dominates(g, root, b, x) <==> Dominates(Part(g, Reach(g, rank, root)), root, b, x)
    {
    }
  }

  // ----- With all blocks reachable -----

  ghost function ChainOf(g: Graph, q: seq<Block>, i: nat, side: bool, common: Block): (c: Chain)
    requires i + 2 <= |q| && q[|q| - 1] in g && Succ(g[q[|q| - 1]], side) != null
    ensures c.cs == q[i..]
  {
    Chain(q[i..], side, common, Succ(g[q[|q| - 1]], side))
  }

  /** The list of in_edges is right, as far as it speaks of blocks of the graph. */
  ghost predicate InsPart(g: Graph, b: Block, ins: seq<Edge>) {
    && (forall e :: e in ins && e.pred in g ==> Enters(g, e.pred, e.sense, b))
    && (forall x, s :: x in g && Enters(g, x, s, b) ==> Edge(x, s) in ins)
  }

  /** It is right, and each edge is there once. */
  ghost predicate InsRight(g: Graph, b: Block, ins: seq<Edge>) {
    Once(ins) && InsPart(g, b, ins) && forall e :: e in ins ==> e.pred in g
  }

  /** The surgery when the list of in_edges is right. */
  ghost function SurgeryNow(g: Graph, b: Block, q: seq<Block>, i: nat, side: bool, ins: seq<Edge>): (g1: Graph)
    requires i + 2 <= |q| && forall x :: x in q ==> x in g
    ensures g1.Keys == g.Keys
  {
    var g1 := Inner(g, q, i, side);
    if i > 0 then g1[q[i - 1] := SetSide(g1[q[i - 1]], side, q[|q| - 1])] else PredsMoved(g1, b, q[|q| - 1], ins)
  }

  /** The edges into the top of the chain come from above it, and the surgery inside the chain leaves them alone. */
  lemma TopStays(g: Graph, rank: map<Block, nat>, D: set<Block>, b: Block, q: seq<Block>, side: bool, common: Block,
                 ins: seq<Edge>)
    requires Dag(g, rank) && Checked(g, D, b, q, side, common) && |q| >= 2 && forall x :: x in q ==> x in g
    requires forall e :: e in ins ==> e.pred in g && Enters(g, e.pred, e.sense, b)
    ensures q[0] == b && q[|q| - 1] != b
    ensures forall k {:trigger ins[k]} :: 0 <= k < |ins| ==>
              ins[k].pred in g && Succ(Inner(g, q, 0, side)[ins[k].pred], ins[k].sense) == b
  {
    CheckedRanks(g, rank, D, b, q, side, common, 0, |q| - 1);
    CheckedRanks(g, rank, D, b, q, side, common, 0, |q| - 2);
    hide Checked;
    forall k {:trigger ins[k]} | 0 <= k < |ins|
      ensures ins[k].pred in g && Succ(Inner(g, q, 0, side)[ins[k].pred], ins[k].sense) == b
    {
      assert ins[k] in ins && DagNode(g, rank, ins[k].pred);
    }
  }

  lemma SurgeryIsNow(g: Graph, rank: map<Block, nat>, D: set<Block>, b: Block, q: seq<Block>, i: nat, side: bool,
                     common: Block, ins: seq<Edge>)
    requires Dag(g, rank) && Checked(g, D, b, q, side, common) && i + 2 <= |q| && InsRight(g, b, ins)
    requires forall x :: x in q ==> x in g
    ensures (forall e :: e in ins ==> e.pred in g)
    ensures Surgery(g, b, q, i, side, ins) == SurgeryNow(g, b, q, i, side, ins)
  {
    if i == 0 {
      TopStays(g, rank, D, b, q, side, common, ins);
      MovedListed(Inner(g, q, 0, side), b, q[|q| - 1], ins);
    }
    hide Inner, MovedAll, PredsMoved, Checked, Dag;
  }

  lemma SurgeryPulled(g: Graph, rank: map<Block, nat>, root: Block, D: set<Block>, b: Block, q: seq<Block>, i: nat,
                      side: bool, common: Block, ins: seq<Edge>)
    requires Dag(g, rank) && root in g && Reach(g, rank, root) == g.Keys && Current(g, root, b, D) && b != root
    requires Checked(g, D, b, q, side, common) && i + 2 <= |q| && InsPart(g, b, ins)
    ensures (forall x :: x in q ==> x in g) && Succ(g[q[|q| - 1]], side) != null
    ensures var c := ChainOf(g, q, i, side, common);
            ChainIn(g, c) && root !in c.cs && SurgeryNow(g, b, q, i, side, ins) == Pulled(g, c)
  {
    hide *;
    CheckedIn(g, rank, D, b, q, side, common);
    var c := ChainOf(g, q, i, side, common);
    ChainIs(g, q, i, side, common);
    FoundChain(g, rank, root, D, b, q, i, c);
    if i > 0 {
      PulledInside(g, rank, c, q[i - 1]);
    } else {
      TopIs(g, D, b, q, side, common, c);
      TopMoved(g, rank, c, b, ins);
    }
    SurgeryTurned(g, b, q, i, side, ins, c);
  }

  lemma CheckedIn(g: Graph, rank: map<Block, nat>, D: set<Block>, b: Block, q: seq<Block>, side: bool, common: Block)
    requires Dag(g, rank) && Checked(g, D, b, q, side, common) && q != []
    ensures (forall x :: x in q ==> x in g) && Succ(g[q[|q| - 1]], side) != null && Succ(g[q[|q| - 1]], side) in g
    ensures q[0] == b && common in g
  {
    forall x | x in q
      ensures x in g
    {
      var k :| 0 <= k < |q| && q[k] == x;
      CheckedGet(g, D, b, q, side, common, k);
    }
    CheckedGet(g, D, b, q, side, common, |q| - 1);
    assert DagNode(g, rank, q[|q| - 1]);
  }

  lemma ChainIs(g: Graph, q: seq<Block>, i: nat, side: bool, common: Block)
    requires i + 2 <= |q| && q[|q| - 1] in g && Succ(g[q[|q| - 1]], side) != null
    ensures var c := ChainOf(g, q, i, side, common);
            c.cs == q[i..] && c.side == side && c.common == common && c.after == Succ(g[q[|q| - 1]], side)
  {
  }

  lemma TopIs(g: Graph, D: set<Block>, b: Block, q: seq<Block>, side: bool, common: Block, c: Chain)
    requires Checked(g, D, b, q, side, common) && |q| >= 2 && c.cs == q[0..]
    ensures First(c) == b
  {
  }

  /** Moving all listed edges completes the pull. */
  lemma TopMoved(g: Graph, rank: map<Block, nat>, c: Chain, b: Block, ins: seq<Edge>)
    requires Dag(g, rank) && ChainIn(g, c) && Last(c) in g && c.cs[|c.cs| - 2] in g && First(c) in g && First(c) == b
    requires InsPart(g, b, ins)
    ensures PredsMoved(Turned(g, c), First(c), Last(c), ins) == Pulled(g, c)
  {
    var g1 := Turned(g, c);
    TurnedPulled(g, rank, c);
    NoneFromLast(g, rank, c, ins);
    hide Turned, Pulled, PredsMoved, ChainIn, Dag, Redirected;
    forall x, s | x in g1 && x != Last(c) && Enters(g1, x, s, First(c))
      ensures Edge(x, s) in ins
    {
      assert s in {true, false} && Enters(g, x, s, First(c));
    }
    PredsEnd(g1, First(c), Last(c), ins);
    assert g1.Keys == g.Keys == Pulled(g, c).Keys;
    forall x | x in g
      ensures PredsMoved(g1, First(c), Last(c), ins)[x] == Pulled(g, c)[x]
    {
    }
  }

  /** The last block of the chain does not lead to the first. */
  lemma NoneFromLast(g: Graph, rank: map<Block, nat>, c: Chain, ins: seq<Edge>)
    requires Dag(g, rank) && ChainIn(g, c) && Last(c) in g && First(c) in g
    requires InsPart(g, First(c), ins)
    ensures Edge(Last(c), true) !in ins && Edge(Last(c), false) !in ins
  {
    ChainRanks(g, rank, c, 0, |c.cs| - 1);
    assert DagNode(g, rank, Last(c));
  }

  lemma SurgeryTurned(g: Graph, b: Block, q: seq<Block>, i: nat, side: bool, ins: seq<Edge>, c: Chain)
    requires i + 2 <= |q| && (forall x :: x in q ==> x in g) && c.cs == q[i..] && c.side == side
    requires c.after == Succ(g[q[|q| - 1]], side) && (i == 0 ==> First(c) == b)
    ensures |c.cs| >= 2 && Last(c) == q[|q| - 1] && Last(c) in g && c.cs[|c.cs| - 2] in g && First(c) == q[i]
    ensures i > 0 ==> q[i - 1] in q
    ensures SurgeryNow(g, b, q, i, side, ins)
        == if i > 0 then Turned(g, c)[q[i - 1] := SetSide(Turned(g, c)[q[i - 1]], side, Last(c))]
           else PredsMoved(Turned(g, c), First(c), Last(c), ins)
  {
    assert c.cs[|c.cs| - 1] == q[|q| - 1] && c.cs[|c.cs| - 2] == q[|q| - 2] && c.cs[0] == q[i];
    assert q[|q| - 1] in q && q[|q| - 2] in q && (i > 0 ==> q[i - 1] in q);
    assert Inner(g, q, i, side) == Turned(g, c);
  }

  // ----- With blocks that are not reachable -----

  /** The chain lies in the reachable part if its top does. */
  lemma {:induction false} ChainReached(g: Graph, rank: map<Block, nat>, root: Block, D: set<Block>, b: Block,
                                        q: seq<Block>, side: bool, common: Block, k: nat)
    requires Dag(g, rank) && root in g && Checked(g, D, b, q, side, common) && k < |q| && b in Reach(g, rank, root)
    ensures q[k] in Reach(g, rank, root) && common in Reach(g, rank, root)
    decreases k
  {
    if k > 0 {
      ChainReached(g, rank, root, D, b, q, side, common, k - 1);
      CheckedGet(g, D, b, q, side, common, k - 1);
      SuccIn(g, rank, root, q[k - 1], side);
    }
    CheckedGet(g, D, b, q, side, common, k);
    SuccIn(g, rank, root, q[k], !side);
  }

  /** It does not meet it otherwise. */
  lemma ChainUnreached(g: Graph, rank: map<Block, nat>, root: Block, D: set<Block>, b: Block, q: seq<Block>,
                       side: bool, common: Block, k: nat)
    requires Dag(g, rank) && root in g && Checked(g, D, b, q, side, common) && k < |q| && b !in Reach(g, rank, root)
    requires Current(g, root, b, D)
    ensures q[k] !in Reach(g, rank, root)
  {
    CheckedGet(g, D, b, q, side, common, k);
    if q[k] in Reach(g, rank, root) {
      var ds := ReachWalk(g, rank, root, q[k]);
      assert Dominates(g, root, b, q[k]) && Visits(g, root, ds, b);
      var d1, d2 := VisitsSplit(g, root, ds, b);
      WalkInReach(g, rank, root, d1);
    }
  }

  lemma ChainThere(g: Graph, rank: map<Block, nat>, root: Block, D: set<Block>, b: Block, q: seq<Block>, side: bool,
                   common: Block)
    requires Dag(g, rank) && root in g && Checked(g, D, b, q, side, common) && q != [] && Reach(g, rank, root) <= g.Keys
    requires Current(g, root, b, D)
    ensures b in Reach(g, rank, root) ==> forall x :: x in q ==> x in Reach(g, rank, root)
    ensures b in Reach(g, rank, root) ==> Checked(Part(g, Reach(g, rank, root)), D, b, q, side, common)
    ensures b !in Reach(g, rank, root) ==> forall x :: x in q ==> x !in Reach(g, rank, root)
  {
    var R := Reach(g, rank, root);
    hide Checked, Reach, Current;
    forall k {:trigger CheckedAt(g, D, b, q, side, common, k)} | 0 <= k < |q|
      ensures (q[k] in R <==> b in R) && (b in R ==> common in R) && CheckedAt(g, D, b, q, side, common, k)
    {
      CheckedGet(g, D, b, q, side, common, k);
      if b in R {
        ChainReached(g, rank, root, D, b, q, side, common, k);
      } else {
        ChainUnreached(g, rank, root, D, b, q, side, common, k);
      }
    }
    assert forall k {:trigger q[k]} :: 0 <= k < |q| ==> CheckedAt(g, D, b, q, side, common, k);
    hide CheckedAt;
    assert q[0] in q;
    if b in R {
      TopFirst(g, D, b, q, side, common);
      CheckedPart(g, R, D, b, q, side, common);
    }
  }

  lemma TopFirst(g: Graph, D: set<Block>, b: Block, q: seq<Block>, side: bool, common: Block)
    requires Checked(g, D, b, q, side, common) && q != []
    ensures q[0] == b
  {
  }

  lemma CheckedPart(g: Graph, R: set<Block>, D: set<Block>, b: Block, q: seq<Block>, side: bool, common: Block)
    requires R <= g.Keys && common in R && q != [] && q[0] == b
    requires forall k {:trigger q[k]} :: 0 <= k < |q| ==> q[k] in R && CheckedAt(g, D, b, q, side, common, k)
    ensures Checked(Part(g, R), D, b, q, side, common)
  {
    var g1 := Part(g, R);
    forall k {:trigger CheckedAt(g1, D, b, q, side, common, k)} | 0 <= k < |q|
      ensures CheckedAt(g1, D, b, q, side, common, k)
    {
      assert CheckedAt(g, D, b, q, side, common, k) && g1[q[k]] == g[q[k]];
    }
    hide CheckedAt;
    assert common in g1;
    assert forall k {:trigger q[k]} :: 0 <= k < |q| ==> CheckedAt(g1, D, b, q, side, common, k);
  }

  /** The surgery on the whole and on a part that holds the chain. */
  lemma SurgeryPart(g: Graph, R: set<Block>, b: Block, q: seq<Block>, i: nat, side: bool, ins: seq<Edge>)
    requires R <= g.Keys && i + 2 <= |q| && forall x :: x in q ==> x in R
    ensures Part(SurgeryNow(g, b, q, i, side, ins), R) == SurgeryNow(Part(g, R), b, q, i, side, ins)
  {
    assert q[i] in q && q[|q| - 1] in q && q[|q| - 2] in q && (i > 0 ==> q[i - 1] in q);
    assert Part(Inner(g, q, i, side), R) == Inner(Part(g, R), q, i, side);
    hide Inner;
  }

  /** The surgery outside of a part. */
  lemma SurgeryOutside(g: Graph, R: set<Block>, b: Block, q: seq<Block>, i: nat, side: bool, ins: seq<Edge>)
    requires R <= g.Keys && i + 2 <= |q| && forall x :: x in q ==> x !in R && x in g
    requires forall x, s {:trigger Enters(g, x, s, b)} :: x in R ==> !Enters(g, x, s, b)
    ensures Part(SurgeryNow(g, b, q, i, side, ins), R) == Part(g, R)
  {
    assert q[i] in q && q[|q| - 1] in q && q[|q| - 2] in q && (i > 0 ==> q[i - 1] in q);
    forall x | x in R
      ensures SurgeryNow(g, b, q, i, side, ins)[x] == g[x]
    {
      assert Inner(g, q, i, side)[x] == g[x];
      assert !Enters(g, x, true, b) && !Enters(g, x, false, b);
    }
  }

  /** The listed chain, when the lists are right: if b is reachable, the surgery has pulled up a test in the graph of
      the reachable blocks; else it has changed nothing there. */
  lemma PullNow(g: Graph, rank: map<Block, nat>, root: Block, D: set<Block>, b: Block, q: seq<Block>, i: nat,
                side: bool, common: Block, ins: seq<Edge>)
    requires Dag(g, rank) && root in g && b != root && Current(g, root, b, D) && InsRight(g, b, ins)
    requires Checked(g, D, b, q, side, common) && i + 2 <= |q|
    ensures Reach(g, rank, root) <= g.Keys && (forall x :: x in q ==> x in g) && forall e :: e in ins ==> e.pred in g
    ensures Succ(g[q[|q| - 1]], side) != null
    ensures b in Reach(g, rank, root) ==>
              var (g0, c) := (Part(g, Reach(g, rank, root)), ChainOf(g, q, i, side, common));
              Dag(g0, rank) && ChainIn(g0, c) && root !in c.cs
              && Part(Surgery(g, b, q, i, side, ins), Reach(g, rank, root)) == Pulled(g0, c)
    ensures b !in Reach(g, rank, root) ==>
              Part(Surgery(g, b, q, i, side, ins), Reach(g, rank, root)) == Part(g, Reach(g, rank, root))
  {
    var R := Reach(g, rank, root);
    InsParts(g, b, ins);
    hide *;
    PartIn(g, rank, root);
    CheckedIn(g, rank, D, b, q, side, common);
    SurgeryIsNow(g, rank, D, b, q, i, side, common, ins);
    ChainThere(g, rank, root, D, b, q, side, common);
    if b in R {
      PartDag(g, rank, root);
      PartReach(g, rank, root, root);
      PartCurrent(g, rank, root, b, D);
      InsOfPart(g, R, b, ins);
      SurgeryPulled(Part(g, R), rank, root, D, b, q, i, side, common, ins);
      SurgeryPart(g, R, b, q, i, side, ins);
      SameChain(g, R, q, i, side, common);
    } else {
      Unentered(g, rank, root, b);
      SurgeryOutside(g, R, b, q, i, side, ins);
    }
  }

  /** So the verdict after the surgery is that of the graph with the test pulled up, on which PulledSound is exact, or
      that from before. */
  lemma PullRuns(g: Graph, rank: map<Block, nat>, root: Block, D: set<Block>, b: Block, q: seq<Block>, i: nat,
                 side: bool, common: Block, ins: seq<Edge>, st: State, p: Packet, fuel: nat)
    requires Dag(g, rank) && root in g && b != root && Current(g, root, b, D) && InsRight(g, b, ins)
    requires Checked(g, D, b, q, side, common) && i + 2 <= |q|
    ensures Reach(g, rank, root) <= g.Keys && (forall x :: x in q ==> x in g) && forall e :: e in ins ==> e.pred in g
    ensures Succ(g[q[|q| - 1]], side) != null && root in Reach(g, rank, root)
    ensures Run(Part(g, Reach(g, rank, root)), root, st, p, fuel) == Run(g, root, st, p, fuel)
    ensures var c := ChainOf(g, q, i, side, common);
            Run(Surgery(g, b, q, i, side, ins), root, st, p, fuel)
                == if b in Reach(g, rank, root) then Run(Pulled(Part(g, Reach(g, rank, root)), c), root, st, p, fuel)
                   else Run(g, root, st, p, fuel)
  {
    hide *;
    PullNow(g, rank, root, D, b, q, i, side, common, ins);
    PartIn(g, rank, root);
    PartDag(g, rank, root);
    var R, g1 := Reach(g, rank, root), Surgery(g, b, q, i, side, ins);
    DagStays(g, R, rank);
    PartRun(g, R, root, st, p, fuel);
    if b in R {
      var c := ChainOf(g, q, i, side, common);
      ChainEnds(Part(g, R), rank, c);
      PulledDag(Part(g, R), rank, c);
      DagStays(g1, R, PulledRank(Part(g, R), rank, c));
    } else {
      DagStays(g1, R, rank);
    }
    PartRun(g1, R, root, st, p, fuel);
  }

  /** A part that is a graph of its own is never left. */
  lemma DagStays(g: Graph, R: set<Block>, rank: map<Block, nat>)
    requires R <= g.Keys && Dag(Part(g, R), rank)
    ensures forall x, s {:trigger Succ(g[x], s)} :: x in R && g[x].test.code.Jmp? ==>
              Succ(g[x], s) != null && Succ(g[x], s) in R
  {
    forall x, s {:trigger Succ(g[x], s)} | x in R && g[x].test.code.Jmp?
      ensures Succ(g[x], s) != null && Succ(g[x], s) in R
    {
      assert DagNode(Part(g, R), rank, x) && Part(g, R)[x] == g[x];
    }
  }

  lemma InsParts(g: Graph, b: Block, ins: seq<Edge>)
    requires InsRight(g, b, ins)
    ensures InsPart(g, b, ins) && forall e :: e in ins ==> e.pred in g
  {
  }

  lemma InsOfPart(g: Graph, R: set<Block>, b: Block, ins: seq<Edge>)
    requires R <= g.Keys && InsPart(g, b, ins)
    ensures InsPart(Part(g, R), b, ins)
  {
    forall x, s | x in R && Enters(Part(g, R), x, s, b)
      ensures Edge(x, s) in ins
    {
      assert Enters(g, x, s, b);
    }
  }

  lemma SameChain(g: Graph, R: set<Block>, q: seq<Block>, i: nat, side: bool, common: Block)
    requires R <= g.Keys && i + 2 <= |q| && (forall x :: x in q ==> x in R) && Succ(g[q[|q| - 1]], side) != null
    ensures q[|q| - 1] in q && Part(g, R)[q[|q| - 1]] == g[q[|q| - 1]]
    ensures ChainOf(Part(g, R), q, i, side, common) == ChainOf(g, q, i, side, common)
  {
    assert q[|q| - 1] in q;
  }

  lemma Unentered(g: Graph, rank: map<Block, nat>, root: Block, b: Block)
    requires Dag(g, rank) && root in g && b !in Reach(g, rank, root)
    ensures forall x, s {:trigger Enters(g, x, s, b)} :: x in Reach(g, rank, root) ==> !Enters(g, x, s, b)
  {
    forall x, s {:trigger Enters(g, x, s, b)} | x in Reach(g, rank, root)
      ensures !Enters(g, x, s, b)
    {
      if Enters(g, x, s, b) {
        EntersLower(g, rank, root, x, s, b);
      }
    }
  }

  // ----- The passes before -----

  /** What find_inedges leaves, on the level lists from before the edges were moved, is right on the listed blocks. */
  lemma InsReady(S: set<Block>, g0: Graph, g: Graph, rank: map<Block, nat>, root: Block, blocks: seq<Block>,
                 levels: seq<seq<Block>>, b: Block)
    requires Stacked(S, g0, g, rank, root, blocks, levels) && Dag(g, rank) && b in Reach(g0, rank, root)
    requires InEdgesUpTo(g, Reach(g0, rank, root), Reach(g0, rank, root), InEdgesOf(S))
    ensures Reach(g0, rank, root) <= g.Keys
    ensures var h := Part(g, Reach(g0, rank, root));
            && h == GraphOf(Reach(g0, rank, root)) && root in h && Wired(Reach(g0, rank, root), h, rank, b)
            && InsRight(h, b, b.inEdges) && (b.inEdges != [] ==> b != root && Top(b, b.inEdges[0].pred) == b)
  {
    hide *;
    StackedFacts(S, g0, g, rank, root, blocks, levels);
    var R := Reach(g0, rank, root);
    PartIn(g0, rank, root);
    ReachBelow(g0, rank, root);
    RelinkedDag(g0, g, rank, R);
    PartOnHeap(S, g, R);
    InsOnHeap(S, g, R, b);
    InsWired(R, Part(g, R), rank, b);
    if b.inEdges != [] {
      TopReady(R, Part(g, R), rank, root, b);
    }
  }

  lemma PartOnHeap(S: set<Block>, g: Graph, R: set<Block>)
    requires g == GraphOf(S) && R <= S
    ensures R <= g.Keys && Part(g, R) == GraphOf(R)
  {
    forall x | x in R
      ensures Part(g, R)[x] == GraphOf(R)[x]
    {
      assert GraphOf(R)[x] == NodeOf(x) && g[x] == NodeOf(x);
    }
  }

  lemma InsOnHeap(S: set<Block>, g: Graph, R: set<Block>, b: Block)
    requires R <= S && R <= g.Keys && b in R && InEdgesUpTo(g, R, R, InEdgesOf(S))
    ensures InsRight(Part(g, R), b, b.inEdges)
  {
    var h := Part(g, R);
    assert InEdgesOf(S)[b] == b.inEdges;
    forall x, s | x in h && Enters(h, x, s, b)
      ensures Edge(x, s) in b.inEdges
    {
      assert Enters(g, x, s, b);
    }
    forall e | e in b.inEdges
      ensures e.pred in h && Enters(h, e.pred, e.sense, b)
    {
      assert Enters(g, e.pred, e.sense, b);
    }
  }

  lemma InsWired(R: set<Block>, h: Graph, rank: map<Block, nat>, b: Block)
    requires h.Keys == R && b in R && Dag(h, rank) && InsRight(h, b, b.inEdges)
    ensures Wired(R, h, rank, b)
  {
    hide Dag;
  }

  /** The chain is looked for at b, which is not the root. */
  lemma TopReady(R: set<Block>, h: Graph, rank: map<Block, nat>, root: Block, b: Block)
    requires h == GraphOf(R) && Dag(h, rank) && InsRight(h, b, b.inEdges) && b.inEdges != [] && b in R && root in h
    requires forall x :: x in R ==> x == root || rank[x] < rank[root]
    ensures b != root && Top(b, b.inEdges[0].pred) == b
  {
    var e := b.inEdges[0];
    assert e in b.inEdges && Enters(h, e.pred, e.sense, b);
    assert h[e.pred] == NodeOf(e.pred) && DagNode(h, rank, e.pred);
  }

  lemma RelinkedDag(g0: Graph, g: Graph, rank: map<Block, nat>, R: set<Block>)
    requires Dag(g, rank) && Relinked(g0, g, R)
    ensures Dag(Part(g, R), rank)
  {
    forall x {:trigger DagNode(Part(g, R), rank, x)} | x in R
      ensures DagNode(Part(g, R), rank, x)
    {
      assert DagNode(g, rank, x) && g[x] == g[x];
    }
  }

  /** What find_dom leaves is right, as long as the edges are those it has seen. */
  lemma DomsReady(S: set<Block>, g: Graph, rank: map<Block, nat>, root: Block, blocks: seq<Block>,
                  levels: seq<seq<Block>>, b: Block)
    requires Leveled(S, g, rank, root, blocks, levels) && b in Reach(g, rank, root)
    requires forall x, y :: x in Reach(g, rank, root) && y in Reach(g, rank, root) ==>
               (x.id in y.dom <==> Dominates(g, root, x, y))
    ensures Reach(g, rank, root) <= g.Keys && Part(g, Reach(g, rank, root)) == GraphOf(Reach(g, rank, root))
    ensures Current(Part(g, Reach(g, rank, root)), root, b, Listed(Reach(g, rank, root), b))
  {
    var R := Reach(g, rank, root);
    LeveledFacts(S, g, rank, root, blocks, levels);
    hide *;
    PartOnHeap(S, g, R);
    DomsListed(g, rank, root, R, b);
    PartCurrent(g, rank, root, b, Listed(R, b));
  }

  lemma DomsListed(g: Graph, rank: map<Block, nat>, root: Block, R: set<Block>, b: Block)
    requires b in R && forall x, y :: x in R && y in R ==> (x.id in y.dom <==> Dominates(g, root, x, y))
    ensures Current(g, root, b, Listed(R, b))
  {
    hide Dominates;
  }

  /** Level lists, in_edges and dominator sets just made, with no edge moved since: all that PullUp and PullNow ask. */
  lemma PullReady(S: set<Block>, g: Graph, rank: map<Block, nat>, root: Block, blocks: seq<Block>,
                  levels: seq<seq<Block>>, b: Block)
    requires Leveled(S, g, rank, root, blocks, levels) && b in Reach(g, rank, root)
    requires InEdgesUpTo(g, Reach(g, rank, root), Reach(g, rank, root), InEdgesOf(S))
    requires forall x, y :: x in Reach(g, rank, root) && y in Reach(g, rank, root) ==>
               (x.id in y.dom <==> Dominates(g, root, x, y))
    ensures Reach(g, rank, root) <= g.Keys
    ensures var h := Part(g, Reach(g, rank, root));
            && h == GraphOf(Reach(g, rank, root)) && root in h && Wired(Reach(g, rank, root), h, rank, b)
            && InsRight(h, b, b.inEdges) && (b.inEdges != [] ==> b != root && Top(b, b.inEdges[0].pred) == b)
            && Current(h, root, b, Listed(Reach(g, rank, root), b))
  {
    hide *;
    LeveledFacts(S, g, rank, root, blocks, levels);
    LeveledIsStacked(S, g, rank, root, blocks, levels);
    InsReady(S, g, g, rank, root, blocks, levels, b);
    DomsReady(S, g, rank, root, blocks, levels, b);
  }
}
