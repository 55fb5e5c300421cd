/** The first loop of opt_blks: opt_blk on every block, from the root down. */
module BlkPass {
  import opened Bpf
  import opened Cfg
  import opened Atoms
  import opened Levels
  import opened LiveStmts
  import opened BlockSums
  import opened Dominators
  import opened Liveness
  import opened Runs
  import opened InEdges
  import opened ValueTable
  import opened Symbolic
  import opened BlockValues
  import opened ValueFlow
  import opened ValuePass
  import opened PeepFlow
  import opened OptBlk
  import opened BlkFlow

  /** What the pass relies on and does not change: the level lists, the in_edges lists, and the out_use sets. */
  ghost predicate Standing(c: Layout)
    reads c.S`inEdges, c.S`level, c.S`outUse
  {
    && GraphMemOk(c.g) && Dag(c.g, c.rank) && c.root in c.g && c.S == c.g.Keys
    && Lists(c.levels, c.g, c.rank, Reached(c)) && c.root.level == LevelOf(c.g, c.rank, c.root) < |c.levels|
    && c.ins == InEdgesOf(c.S) && InsExact(c.g, Reached(c), c.ins) && Reached(c) <= c.S
    && forall b :: b in Reached(c) && b in c.g ==> b.outUse == OutUse(c.g, c.rank, b)
  }

  /** Return blocks hold no statements, as the code generator leaves them. */
  ghost predicate RetsEmpty(g: Graph) {
    forall b {:trigger g[b]} :: b in g && g[b].test.code == Ret ==> g[b].stmts == []
  }

  /** What the pass has written down. */
  ghost predicate Noted(S: set<Block>, keys: seq<Key>, P: Pass)
    reads S`val, S`oval, S`s
  {
    P.keys == keys && P.vals == ValsOf(S) && P.ovals == OvalsOf(S) && P.tests == TestsOf(S)
  }

  /** Where the pass stands when the blocks of `done` have been handled. */
  ghost predicate BlksAt(c: Layout, done: set<Block>, t: Table, P: Pass, alter: bool)
    reads c.S`val, c.S`oval, c.S`stmts, c.S`s, c.S`jt, c.S`jf, t`keys, t`curval, t.hashtbl, t.vmap
  {
    && t.Valid() && Noted(c.S, t.keys, P) && GraphMemOk(c.g) && Dag(c.g, c.rank) && done <= Reached(c) <= c.g.Keys
    && PassInv(c.g, Reached(c), c.ins, done, P, alter) && BlksLeft(c.g, c.rank, done, P, GraphOf(c.S), alter)
    && t.curval <= SetLen(done, Uses(c.g)) && SetLen(Reached(c), Bounds(c.g)) <= t.vmap.Length
  }

  // ----- One block -----

  /** Reading the fields of the next block is reading the snapshots. */
  lemma ReadNext(c: Layout, b: Block, done: set<Block>, t: Table, P: Pass, alter: bool)
    requires Standing(c) && BlksAt(c, done, t, P, alter) && NextUp(c.g, Reached(c), done, b)
    ensures b in c.S && b in c.g && b in c.ins && NodeOf(b) == c.g[b] && b.inEdges == c.ins[b]
    ensures b.stmts == c.g[b].stmts
    ensures b.outUse == OutUse(c.g, c.rank, b) && AllMemOk(c.g[b].stmts) && MemOk(c.g[b].test) && b !in done
    ensures b in Reached(c)
    ensures Preds(c.S, b.inEdges) && Preds(P.vals.Keys, b.inEdges) && P.vals == ValsOf(c.S) && P.keys == t.keys
    ensures forall i {:trigger b.inEdges[i]} :: 0 <= i < |b.inEdges| ==> Bounded(t.keys, b.inEdges[i].pred.val)
    ensures t.Valid() && WellKeyed(t.keys) && t.curval + 2 * |Live(c.g[b].stmts)| + 3 <= t.vmap.Length
    ensures SetLen(done + {b}, Uses(c.g)) == SetLen(done, Uses(c.g)) + 2 * |Live(c.g[b].stmts)| + 1
  {
    hide *;
    StandingParts(c);
    AtParts(c, done, t, P, alter);
    NextIn(c.g, Reached(c), done, b);
    NextReady(c.g, Reached(c), c.ins, done, P, alter, b);
    RoomLeft(c.g, Reached(c), done, b);
    StandingAt(c, b);
    NotLeft(c, b, done, P, alter);
    PredsBounded(c, b, P);
  }

  lemma NextIn(g: Graph, R: set<Block>, done: set<Block>, b: Block)
    requires NextUp(g, R, done, b)
    ensures b in R && b !in done && done <= R
  {
  }

  lemma StandingAt(c: Layout, b: Block)
    requires Standing(c) && b in Reached(c)
    ensures b in c.S && b in c.g && b in c.ins && b.inEdges == c.ins[b] && b.outUse == OutUse(c.g, c.rank, b)
    ensures AllMemOk(c.g[b].stmts) && MemOk(c.g[b].test)
  {
    assert c.g[b] == c.g[b];
    hide Lists, LevelOf, InsExact, OutUse, Dag;
  }

  /** A block that has not been handled is what it was. */
  lemma NotLeft(c: Layout, b: Block, done: set<Block>, P: Pass, alter: bool)
    requires Dag(c.g, c.rank) && GraphMemOk(c.g) && BlksLeft(c.g, c.rank, done, P, GraphOf(c.S), alter)
    requires b in c.S && b in c.g && b !in done
    ensures NodeOf(b) == c.g[b] && b.stmts == c.g[b].stmts
  {
    assert GraphOf(c.S)[b] == NodeOf(b);
    hide LeftAt, Dag, GraphMemOk;
  }

  lemma PredsBounded(c: Layout, b: Block, P: Pass)
    requires b in c.ins && b.inEdges == c.ins[b] && Preds(Reached(c), c.ins[b]) && Reached(c) <= c.S
    requires Preds(P.vals.Keys, c.ins[b]) && P.vals == ValsOf(c.S)
    requires forall i {:trigger c.ins[b][i]} :: 0 <= i < |c.ins[b]| ==> Bounded(P.keys, P.vals[c.ins[b][i].pred])
    ensures Preds(c.S, b.inEdges)
    ensures forall i {:trigger b.inEdges[i]} :: 0 <= i < |b.inEdges| ==> Bounded(P.keys, b.inEdges[i].pred.val)
  {
    hide Bounded, Reached;
    forall i {:trigger b.inEdges[i]} | 0 <= i < |b.inEdges|
      ensures Bounded(P.keys, b.inEdges[i].pred.val)
    {
      assert P.vals[b.inEdges[i].pred] == b.inEdges[i].pred.val;
    }
  }

  lemma NextIsReady(c: Layout, b: Block, keys: seq<Key>, e: Vals, alter: bool)
    requires Dag(c.g, c.rank) && GraphMemOk(c.g) && b in c.g && AllMemOk(c.g[b].stmts) && MemOk(c.g[b].test)
    requires WellKeyed(keys) && Bounded(keys, e) && (!alter ==> RetsEmpty(c.g))
    ensures BlkReady(c.g[b], OutUse(c.g, c.rank, b), keys, e, alter)
  {
    assert DagNode(c.g, c.rank, b);
  }

  /** opt_blk on block b changes nothing the pass relies on. */
  method OptBlkAt(b: Block, e: Vals, t: Table, alter: bool, ghost c: Layout)
      returns (ok: bool, ghost m: seq<Stmt>)
    requires Standing(c) && b in c.S && t.Valid() && BlkReady(NodeOf(b), b.outUse, t.keys, e, alter)
    requires t.curval + 2 * |Live(b.stmts)| + 3 <= t.vmap.Length
    modifies b`stmts, b`s, b`jt, b`jf, b`val, b`oval, t, t.hashtbl, t.vmap
    ensures Standing(c) && t.Valid() && ok == Steps(old(t.keys), e, old(b.stmts), alter).Rewrites?
    ensures ok ==> var r := Steps(old(t.keys), e, old(b.stmts), alter);
                   b.val == r.val && OvalNumbered(r.keys, b.s, b.val, b.oval, t.keys)
    ensures ok ==> BlkLeft(old(NodeOf(b)), m, NodeOf(b), old(b.outUse), old(t.keys), e, alter)
    ensures ok ==> t.curval <= old(t.curval) + 2 * |Live(old(b.stmts))| + 1
  {
    hide *;
    ok, m := OptBlk.OptBlk(b, e, t, alter);
  }

  /** opt_blk on block b, and the snapshots. */
  method OptBlkIn(b: Block, e: Vals, t: Table, alter: bool, ghost c: Layout, ghost n0: Node, ghost Z: set<Atom>,
                  ghost keys: seq<Key>, ghost g0: Graph)
      returns (ok: bool, ghost m: seq<Stmt>)
    requires Standing(c) && b in c.S && t.Valid() && BlkReady(n0, Z, keys, e, alter)
    requires g0 == GraphOf(c.S) && n0 == NodeOf(b) && n0.stmts == b.stmts && Z == b.outUse && keys == t.keys
    requires t.curval + 2 * |Live(n0.stmts)| + 3 <= t.vmap.Length
    modifies c.S`stmts, c.S`s, c.S`jt, c.S`jf, c.S`val, c.S`oval, t, t.hashtbl, t.vmap
    ensures Standing(c) && t.Valid() && ok == Steps(keys, e, n0.stmts, alter).Rewrites?
    ensures ok ==> GraphOf(c.S) == g0[b := NodeOf(b)]
    ensures ok ==> ValsOf(c.S) == old(ValsOf(c.S))[b := b.val] && OvalsOf(c.S) == old(OvalsOf(c.S))[b := b.oval]
                   && TestsOf(c.S) == old(TestsOf(c.S))[b := b.s]
    ensures ok ==> b.val == Steps(keys, e, n0.stmts, alter).val
    ensures ok ==> OvalNumbered(Steps(keys, e, n0.stmts, alter).keys, b.s, b.val, b.oval, t.keys)
    ensures ok ==> BlkLeft(n0, m, NodeOf(b), Z, keys, e, alter)
    ensures ok ==> t.curval <= old(t.curval) + 2 * |Live(n0.stmts)| + 1
  {
    hide *;
    ghost var vals0, ovals0, tests0 := ValsOf(c.S), OvalsOf(c.S), TestsOf(c.S);
    InStanding(c);
    Snapshots(c.S);
    ok, m := OptBlkAt(b, e, t, alter, c);
    if ok {
      SnapshotsNext(c.S, b, g0, vals0, ovals0, tests0);
    }
  }

  lemma InStanding(c: Layout)
    requires Standing(c)
    ensures c.S == c.g.Keys
  {
  }

  lemma Snapshots(S: set<Block>)
    ensures forall x {:trigger NodeOf(x)} :: x in S ==> GraphOf(S)[x] == NodeOf(x)
    ensures forall x {:trigger ValsOf(S)[x]} :: x in S ==> ValsOf(S)[x] == x.val
    ensures forall x {:trigger OvalsOf(S)[x]} :: x in S ==> OvalsOf(S)[x] == x.oval
    ensures forall x {:trigger TestsOf(S)[x]} :: x in S ==> TestsOf(S)[x] == x.s
  {
  }

  /** Only block b has changed. */
  lemma SnapshotsNext(S: set<Block>, b: Block, g0: Graph, vals0: map<Block, Vals>, ovals0: map<Block, nat>,
                      tests0: map<Block, Stmt>)
    requires b in S && g0.Keys == vals0.Keys == ovals0.Keys == tests0.Keys == S
    requires forall x {:trigger NodeOf(x)} :: x in S && x != b ==> g0[x] == NodeOf(x)
    requires forall x {:trigger vals0[x]} :: x in S && x != b ==> vals0[x] == x.val
    requires forall x {:trigger ovals0[x]} :: x in S && x != b ==> ovals0[x] == x.oval
    requires forall x {:trigger tests0[x]} :: x in S && x != b ==> tests0[x] == x.s
    ensures GraphOf(S) == g0[b := NodeOf(b)] && ValsOf(S) == vals0[b := b.val] && OvalsOf(S) == ovals0[b := b.oval]
    ensures TestsOf(S) == tests0[b := b.s]
  {
    GraphNext(S, b, g0);
    forall x | x in S
      ensures ValsOf(S)[x] == vals0[b := b.val][x] && OvalsOf(S)[x] == ovals0[b := b.oval][x]
      ensures TestsOf(S)[x] == tests0[b := b.s][x]
    {
      if x != b {
        assert vals0[x] == x.val && ovals0[x] == x.oval && tests0[x] == x.s;
      }
    }
  }

  /** What the predecessors of block b have left. */
  method EntryNext(b: Block, t: Table, alter: bool, ghost c: Layout, ghost done: set<Block>, ghost P: Pass)
      returns (e: Vals)
    requires Standing(c) && (!alter ==> RetsEmpty(c.g))
    requires BlksAt(c, done, t, P, alter) && NextUp(c.g, Reached(c), done, b)
    ensures b in c.g && b in c.ins && Preds(P.vals.Keys, c.ins[b]) && EntryTable(c.ins[b], P.vals, e)
    ensures Dag(c.g, c.rank) && GraphMemOk(c.g) && WellKeyed(P.keys) && Bounded(P.keys, e)
    ensures BlkReady(c.g[b], OutUse(c.g, c.rank, b), P.keys, e, alter)
  {
    hide *;
    ReadNext(c, b, done, t, P, alter);
    AtParts(c, done, t, P, alter);
    e := EntryVals(b, c.S, t.keys);
    NextIsReady(c, b, t.keys, e, alter);
  }

  /** Entering block b with what its predecessors have left, and opt_blk on it. */
  method EnterBlk(b: Block, t: Table, alter: bool, ghost c: Layout, ghost done: set<Block>, ghost P: Pass)
      returns (ok: bool, ghost e: Vals, ghost m: seq<Stmt>)
    requires Standing(c) && (!alter ==> RetsEmpty(c.g))
    requires BlksAt(c, done, t, P, alter) && NextUp(c.g, Reached(c), done, b)
    modifies c.S`stmts, c.S`s, c.S`jt, c.S`jf, c.S`val, c.S`oval, t, t.hashtbl, t.vmap
    ensures Standing(c) && t.Valid() && Entered(c, done, t, P, alter, b, e, m, ok, old(GraphOf(c.S)))
  {
    hide *;
    ReadNext(c, b, done, t, P, alter);
    AtParts(c, done, t, P, alter);
    ghost var g0 := GraphOf(c.S);
    var entry := EntryNext(b, t, alter, c, done, P);
    e := entry;
    ok, m := OptBlkIn(b, entry, t, alter, c, c.g[b], OutUse(c.g, c.rank, b), P.keys, g0);
    if ok {
      WrittenIs(c, done, t, P, alter, b, e, m, g0);
    }
    EnteredIs(c, done, t, P, alter, b, e, m, ok, g0);
  }

  /** Block b has been entered with `e`, and opt_blk has done its work or given up. */
  ghost predicate Entered(c: Layout, done: set<Block>, t: Table, P: Pass, alter: bool, b: Block, e: Vals,
                          m: seq<Stmt>, ok: bool, g0: Graph)
    reads c.S`val, c.S`oval, c.S`stmts, c.S`s, c.S`jt, c.S`jf, b, t
  {
    && GraphMemOk(c.g) && Dag(c.g, c.rank) && b in c.g && AllMemOk(c.g[b].stmts)
    && b in c.ins && Preds(P.vals.Keys, c.ins[b]) && EntryTable(c.ins[b], P.vals, e)
    && WellKeyed(P.keys) && Bounded(P.keys, e)
    && ok == Steps(P.keys, e, c.g[b].stmts, alter).Rewrites?
    && (ok ==> BlkWritten(c, done, t, P, alter, b, e, m, g0))
  }

  lemma EnteredIs(c: Layout, done: set<Block>, t: Table, P: Pass, alter: bool, b: Block, e: Vals,
                  m: seq<Stmt>, ok: bool, g0: Graph)
    requires GraphMemOk(c.g) && Dag(c.g, c.rank) && b in c.g && AllMemOk(c.g[b].stmts)
    requires b in c.ins && Preds(P.vals.Keys, c.ins[b]) && EntryTable(c.ins[b], P.vals, e)
    requires WellKeyed(P.keys) && Bounded(P.keys, e)
    requires ok == Steps(P.keys, e, c.g[b].stmts, alter).Rewrites?
    requires ok ==> BlkWritten(c, done, t, P, alter, b, e, m, g0)
    ensures Entered(c, done, t, P, alter, b, e, m, ok, g0)
  {
    hide BlkWritten, Steps, EntryTable, WellKeyed, Bounded, Dag, GraphMemOk;
  }

  lemma EnteredParts(c: Layout, done: set<Block>, t: Table, P: Pass, alter: bool, b: Block, e: Vals,
                     m: seq<Stmt>, ok: bool, g0: Graph)
    requires Entered(c, done, t, P, alter, b, e, m, ok, g0)
    ensures GraphMemOk(c.g) && Dag(c.g, c.rank) && b in c.g && AllMemOk(c.g[b].stmts)
    ensures b in c.ins && Preds(P.vals.Keys, c.ins[b]) && EntryTable(c.ins[b], P.vals, e)
    ensures WellKeyed(P.keys) && Bounded(P.keys, e)
    ensures ok == Steps(P.keys, e, c.g[b].stmts, alter).Rewrites?
    ensures ok ==> BlkWritten(c, done, t, P, alter, b, e, m, g0)
  {
    hide BlkWritten, Steps, EntryTable, WellKeyed, Bounded, Dag, GraphMemOk;
  }

  /** What opt_blk has written. */
  ghost predicate BlkWritten(c: Layout, done: set<Block>, t: Table, P: Pass, alter: bool, b: Block, e: Vals,
                             m: seq<Stmt>, g0: Graph)
    requires GraphMemOk(c.g) && Dag(c.g, c.rank) && b in c.g && AllMemOk(c.g[b].stmts)
    reads c.S`val, c.S`oval, c.S`stmts, c.S`s, c.S`jt, c.S`jf, b, t
  {
    && Reached(c) <= c.g.Keys && done <= Reached(c) && b in Reached(c)
    && Steps(P.keys, e, c.g[b].stmts, alter).Rewrites?
    && b.val == Steps(P.keys, e, c.g[b].stmts, alter).val
    && OvalNumbered(Steps(P.keys, e, c.g[b].stmts, alter).keys, b.s, b.val, b.oval, t.keys)
    && BlkLeft(c.g[b], m, NodeOf(b), OutUse(c.g, c.rank, b), P.keys, e, alter)
    && GraphOf(c.S) == g0[b := NodeOf(b)] && ValsOf(c.S) == P.vals[b := b.val]
    && OvalsOf(c.S) == P.ovals[b := b.oval] && TestsOf(c.S) == P.tests[b := b.s]
    && t.curval <= SetLen(done + {b}, Uses(c.g)) && SetLen(Reached(c), Bounds(c.g)) <= t.vmap.Length
  }

  method NextBlk(b: Block, t: Table, alter: bool, ghost c: Layout, ghost done: set<Block>, ghost P: Pass)
      returns (ok: bool, ghost P': Pass)
    requires Standing(c) && (!alter ==> RetsEmpty(c.g))
    requires BlksAt(c, done, t, P, alter) && NextUp(c.g, Reached(c), done, b)
    modifies c.S`stmts, c.S`s, c.S`jt, c.S`jf, c.S`val, c.S`oval, t, t.hashtbl, t.vmap
    ensures Standing(c) && (ok ==> BlksAt(c, done + {b}, t, P', alter)) && (!alter ==> ok)
    ensures !ok ==> Stuck(c, done, P', b, alter)
  {
    hide *;
    ReadNext(c, b, done, t, P, alter);
    AtParts(c, done, t, P, alter);
    ghost var g0 := GraphOf(c.S);
    ghost var e, m;
    ok, e, m := EnterBlk(b, t, alter, c, done, P);
    EnteredParts(c, done, t, P, alter, b, e, m, ok, g0);
    StepsKeys(P.keys, e, c.g[b].stmts, alter);
    if ok {
      P' := Handled(c, done, t, P, alter, b, e, m, g0);
    } else {
      P' := P.(entries := P.entries[b := Entry(P.keys, e)]);
      StuckThere(c, done, P, b, e, alter);
    }
  }

  /** The invariant once block b has been handled. */
  lemma Handled(c: Layout, done: set<Block>, t: Table, P: Pass, alter: bool, b: Block, e: Vals,
                m: seq<Stmt>, g0: Graph)
      returns (P1: Pass)
    requires t.Valid() && GraphMemOk(c.g) && Dag(c.g, c.rank) && done <= Reached(c) <= c.g.Keys && b in c.g
    requires PassInv(c.g, Reached(c), c.ins, done, P, alter) && BlksLeft(c.g, c.rank, done, P, g0, alter)
    requires NextUp(c.g, Reached(c), done, b) && AllMemOk(c.g[b].stmts) && b in Reached(c) && b !in done
    requires b in c.ins && Preds(P.vals.Keys, c.ins[b]) && EntryTable(c.ins[b], P.vals, e) && Bounded(P.keys, e)
    requires WellKeyed(P.keys) && BlkWritten(c, done, t, P, alter, b, e, m, g0)
    ensures BlksAt(c, done + {b}, t, P1, alter)
  {
    hide *;
    WrittenParts(c, done, t, P, alter, b, e, m, g0);
    var r := Steps(P.keys, e, c.g[b].stmts, alter);
    FlowStep(c.g, Reached(c), c.ins, done, P, alter, b, e, r, b.s, b.oval, t.keys);
    var P2 := NextPass(P, b, e, r.ss, b.s, b.val, b.oval, t.keys);
    P1 := P2.(peeped := P.peeped[b := m]);
    PeepedInv(c.g, Reached(c), c.ins, done + {b}, P2, alter, P.peeped[b := m]);
    NextEntries(P, b, e, r.ss, b.s, b.val, b.oval, t.keys);
    LeftNext(c.g, c.rank, done, P, g0, b, NodeOf(b), e, m, P1, alter);
    NotedNext(c.S, t.keys, P, b, e, r.ss, P2);
    NotedStill(c.S, t.keys, P2, P.peeped[b := m]);
    AtWhole(c, done, b, t, P1, alter);
  }

  lemma WrittenParts(c: Layout, done: set<Block>, t: Table, P: Pass, alter: bool, b: Block, e: Vals,
                     m: seq<Stmt>, g0: Graph)
    requires GraphMemOk(c.g) && Dag(c.g, c.rank) && b in c.g && AllMemOk(c.g[b].stmts)
    requires BlkWritten(c, done, t, P, alter, b, e, m, g0)
    ensures Reached(c) <= c.g.Keys && done <= Reached(c) && b in Reached(c)
    ensures Steps(P.keys, e, c.g[b].stmts, alter).Rewrites?
    ensures b.val == Steps(P.keys, e, c.g[b].stmts, alter).val
    ensures OvalNumbered(Steps(P.keys, e, c.g[b].stmts, alter).keys, b.s, b.val, b.oval, t.keys)
    ensures BlkLeft(c.g[b], m, NodeOf(b), OutUse(c.g, c.rank, b), P.keys, e, alter)
    ensures GraphOf(c.S) == g0[b := NodeOf(b)] && ValsOf(c.S) == P.vals[b := b.val]
    ensures OvalsOf(c.S) == P.ovals[b := b.oval] && TestsOf(c.S) == P.tests[b := b.s]
    ensures t.curval <= SetLen(done + {b}, Uses(c.g)) && SetLen(Reached(c), Bounds(c.g)) <= t.vmap.Length
  {
    hide OvalNumbered, BlkLeft, OutUse, Steps, SetLen, Uses, Bounds, GraphOf, ValsOf, OvalsOf, TestsOf, Dag;
    hide GraphMemOk, NodeOf, Reached;
  }

  lemma WrittenIs(c: Layout, done: set<Block>, t: Table, P: Pass, alter: bool, b: Block, e: Vals,
                  m: seq<Stmt>, g0: Graph)
    requires GraphMemOk(c.g) && Dag(c.g, c.rank) && b in c.g && AllMemOk(c.g[b].stmts)
    requires Reached(c) <= c.g.Keys && done <= Reached(c) && b in Reached(c)
    requires Steps(P.keys, e, c.g[b].stmts, alter).Rewrites?
    requires b.val == Steps(P.keys, e, c.g[b].stmts, alter).val
    requires OvalNumbered(Steps(P.keys, e, c.g[b].stmts, alter).keys, b.s, b.val, b.oval, t.keys)
    requires BlkLeft(c.g[b], m, NodeOf(b), OutUse(c.g, c.rank, b), P.keys, e, alter)
    requires GraphOf(c.S) == g0[b := NodeOf(b)] && ValsOf(c.S) == P.vals[b := b.val]
    requires OvalsOf(c.S) == P.ovals[b := b.oval] && TestsOf(c.S) == P.tests[b := b.s]
    requires t.curval <= SetLen(done + {b}, Uses(c.g)) && SetLen(Reached(c), Bounds(c.g)) <= t.vmap.Length
    ensures BlkWritten(c, done, t, P, alter, b, e, m, g0)
  {
    hide OvalNumbered, BlkLeft, OutUse, Steps, SetLen, Uses, Bounds, GraphOf, ValsOf, OvalsOf, TestsOf, Dag;
    hide GraphMemOk, NodeOf, Reached;
  }

  lemma NextEntries(P: Pass, b: Block, e: Vals, ss: seq<Stmt>, test: Stmt, val: Vals, oval: nat, more: seq<Key>)
    ensures NextPass(P, b, e, ss, test, val, oval, more).entries == P.entries[b := Entry(P.keys, e)]
  {
  }

  lemma AtParts(c: Layout, done: set<Block>, t: Table, P: Pass, alter: bool)
    requires BlksAt(c, done, t, P, alter)
    ensures PassInv(c.g, Reached(c), c.ins, done, P, alter) && GraphMemOk(c.g) && P.keys == t.keys && WellKeyed(P.keys)
    ensures P.vals == ValsOf(c.S) && P.ovals == OvalsOf(c.S) && P.tests == TestsOf(c.S) && Dag(c.g, c.rank)
    ensures BlksLeft(c.g, c.rank, done, P, GraphOf(c.S), alter) && t.Valid()
    ensures t.curval <= SetLen(done, Uses(c.g)) && SetLen(Reached(c), Bounds(c.g)) <= t.vmap.Length
    ensures done <= Reached(c) <= c.g.Keys
  {
    hide BlksLeft;
  }

  lemma AtWhole(c: Layout, done: set<Block>, b: Block, t: Table, P: Pass, alter: bool)
    requires t.Valid() && Noted(c.S, t.keys, P) && GraphMemOk(c.g) && Dag(c.g, c.rank) && done <= Reached(c) <= c.g.Keys
    requires b in Reached(c) && PassInv(c.g, Reached(c), c.ins, done + {b}, P, alter)
    requires BlksLeft(c.g, c.rank, done + {b}, P, GraphOf(c.S), alter)
    requires t.curval <= SetLen(done + {b}, Uses(c.g)) && SetLen(Reached(c), Bounds(c.g)) <= t.vmap.Length
    ensures BlksAt(c, done + {b}, t, P, alter)
  {
    hide BlksLeft, PassInv;
  }

  lemma NotedNext(S: set<Block>, keys: seq<Key>, P: Pass, b: Block, e: Vals, ss: seq<Stmt>, P1: Pass)
    requires P1 == NextPass(P, b, e, ss, b.s, b.val, b.oval, keys)
    requires ValsOf(S) == P.vals[b := b.val] && OvalsOf(S) == P.ovals[b := b.oval] && TestsOf(S) == P.tests[b := b.s]
    ensures Noted(S, keys, P1)
  {
  }

  lemma NotedStill(S: set<Block>, keys: seq<Key>, P: Pass, peeped: map<Block, seq<Stmt>>)
    requires Noted(S, keys, P)
    ensures Noted(S, keys, P.(peeped := peeped))
  {
  }

  lemma LeftNext(g: Graph, rank: map<Block, nat>, done: set<Block>, P: Pass, g0: Graph, b: Block, n: Node, e: Vals,
                 m: seq<Stmt>, P1: Pass, alter: bool)
    requires Dag(g, rank) && GraphMemOk(g) && b in g && b !in done && BlksLeft(g, rank, done, P, g0, alter)
    requires P1.entries == P.entries[b := Entry(P.keys, e)] && P1.peeped == P.peeped[b := m]
    requires BlkLeft(g[b], m, n, OutUse(g, rank, b), P.keys, e, alter)
    ensures BlksLeft(g, rank, done + {b}, P1, g0[b := n], alter)
  {
    var g1 := g0[b := n];
    assert g1.Keys == g.Keys;
    hide BlkLeft, OutUse, Dag, GraphMemOk;
    forall x {:trigger g1[x]} | x in g
      ensures if x in done + {b} then LeftAt(g, rank, P1, g1, alter, x) else g1[x] == g[x]
    {
      if x == b {
        assert P1.entries[b] == Entry(P.keys, e) && P1.peeped[b] == m;
      } else {
        assert g0[x] == g1[x];
        if x in done {
          assert LeftAt(g, rank, P, g0, alter, x) && P1.entries[x] == P.entries[x] && P1.peeped[x] == P.peeped[x];
        }
      }
    }
  }

  // ----- The loop -----

  lemma NextComes(c: Layout, l: nat, j: nat)
    requires Standing(c) && l < |c.levels| && j < |c.levels[l]|
    ensures Dag(c.g, c.rank) && Reached(c) <= c.g.Keys
    ensures NextUp(c.g, Reached(c), Done(c.g, c.rank, Reached(c), l, c.levels[l][..j]), c.levels[l][j])
    ensures Done(c.g, c.rank, Reached(c), l, c.levels[l][..j + 1])
         == Done(c.g, c.rank, Reached(c), l, c.levels[l][..j]) + {c.levels[l][j]}
  {
    TurnComes(c.g, c.rank, c.root, c.levels, l, j);
    DoneNext(c.g, c.rank, Reached(c), c.levels, l, j);
    hide Dag, Lists, LevelOf, Reach, GraphMemOk, InsExact, OutUse;
  }

  /** All blocks of one level. */
  method LevelBlks(l: nat, level: seq<Block>, t: Table, alter: bool, ghost c: Layout, ghost P0: Pass)
      returns (ok: bool, ghost P: Pass, ghost done: set<Block>, ghost bad: Block)
    requires Standing(c) && (!alter ==> RetsEmpty(c.g))
    requires l < |c.levels| && level == c.levels[l] && Dag(c.g, c.rank) && Reached(c) <= c.g.Keys
    requires BlksAt(c, Done(c.g, c.rank, Reached(c), l, []), t, P0, alter)
    modifies c.S`stmts, c.S`s, c.S`jt, c.S`jf, c.S`val, c.S`oval, t, t.hashtbl, t.vmap
    ensures Standing(c) && (!alter ==> ok)
    ensures ok ==> BlksAt(c, Done(c.g, c.rank, Reached(c), l - 1, []), t, P, alter)
    ensures !ok ==> Stuck(c, done, P, bad, alter)
  {
    hide *;
    StandingParts(c);
    LevelStart(c.g, c.rank, Reached(c), c.levels, l);
    ok, P, done, bad := true, P0, {}, c.root;
    for j := 0 to |level|
      invariant ok && Standing(c) && BlksAt(c, Done(c.g, c.rank, Reached(c), l, c.levels[l][..j]), t, P, alter)
    {
      NextComes(c, l, j);
      done, bad := Done(c.g, c.rank, Reached(c), l, c.levels[l][..j]), c.levels[l][j];
      ok, P := NextBlk(level[j], t, alter, c, done, P);
      if !ok {
        return;
      }
    }
    NextLevel(c.g, c.rank, Reached(c), c.levels, l);
  }

  lemma StandingParts(c: Layout)
    requires Standing(c)
    ensures GraphMemOk(c.g) && Dag(c.g, c.rank) && c.root in c.g && c.S == c.g.Keys && Reached(c) <= c.S
    ensures Reached(c) == Reach(c.g, c.rank, c.root) && Lists(c.levels, c.g, c.rank, Reached(c))
    ensures c.root.level == LevelOf(c.g, c.rank, c.root) < |c.levels| && InsExact(c.g, Reached(c), c.ins)
  {
  }

  lemma BlksStart(c: Layout, t: Table, alter: bool) returns (P: Pass)
    requires Standing(c) && GraphOf(c.S) == c.g
    requires t.Valid() && t.keys == [] && SetLen(Reached(c), Bounds(c.g)) <= t.vmap.Length
    ensures Dag(c.g, c.rank) && BlksAt(c, Done(c.g, c.rank, Reached(c), c.root.level, []), t, P, alter)
  {
    hide *;
    StandingParts(c);
    NoneDone(c.g, c.rank, c.root);
    P := Pass([], ValsOf(c.S), OvalsOf(c.S), StmtsOf(c.S), TestsOf(c.S), map[], map[]);
    StmtsRead(c);
    StartInv(c, P, alter);
    NoneLeft(c, P, alter);
    AtStart(c, t, P, alter);
  }

  lemma StmtsRead(c: Layout)
    requires GraphOf(c.S) == c.g
    ensures StmtsAre(c)
  {
    forall b {:trigger c.g[b]} | b in c.S && b in c.g
      ensures c.g[b].stmts == b.stmts
    {
      assert GraphOf(c.S)[b] == NodeOf(b);
    }
  }

  lemma NoneLeft(c: Layout, P: Pass, alter: bool)
    requires Dag(c.g, c.rank) && GraphMemOk(c.g) && GraphOf(c.S) == c.g
    ensures BlksLeft(c.g, c.rank, {}, P, GraphOf(c.S), alter) && SetLen({}, Uses(c.g)) == 0
  {
    hide LeftAt, Dag, GraphMemOk;
  }

  lemma AtStart(c: Layout, t: Table, P: Pass, alter: bool)
    requires t.Valid() && t.keys == [] && GraphMemOk(c.g) && Dag(c.g, c.rank) && Reached(c) <= c.g.Keys
    requires P == Pass([], ValsOf(c.S), OvalsOf(c.S), StmtsOf(c.S), TestsOf(c.S), map[], map[])
    requires PassInv(c.g, Reached(c), c.ins, {}, P, alter) && BlksLeft(c.g, c.rank, {}, P, GraphOf(c.S), alter)
    requires SetLen({}, Uses(c.g)) == 0 && SetLen(Reached(c), Bounds(c.g)) <= t.vmap.Length
    ensures BlksAt(c, {}, t, P, alter)
  {
    hide PassInv, BlksLeft, GraphMemOk, Dag, SetLen, Uses, Bounds, Reached, ValsOf, OvalsOf, StmtsOf, TestsOf, GraphOf;
  }

  method InitTable(t: Table, ghost c: Layout)
    requires Standing(c) && GraphOf(c.S) == c.g && t.hashtbl.Length == MODULUS && t.vmap.Length > 0
    modifies t, t.hashtbl, t.vmap
    ensures Standing(c) && GraphOf(c.S) == c.g && t.Valid() && t.keys == []
  {
    hide *;
    t.InitVal();
  }

  /** opt_blks up to its first return: with `do_stmts` (`alter`) on, all of it. What it keeps is BlksSound. */
  method OptBlks(root: Block, levels: seq<seq<Block>>, t: Table, alter: bool, ghost c: Layout)
      returns (ok: bool, ghost P: Pass, ghost done: set<Block>, ghost bad: Block)
    requires Standing(c) && (!alter ==> RetsEmpty(c.g)) && GraphOf(c.S) == c.g && root == c.root && levels == c.levels
    requires t.hashtbl.Length == MODULUS && t.vmap.Length > 0 && SetLen(Reached(c), Bounds(c.g)) <= t.vmap.Length
    modifies c.S`stmts, c.S`s, c.S`jt, c.S`jf, c.S`val, c.S`oval, t, t.hashtbl, t.vmap
    ensures Standing(c) && (!alter ==> ok)
    ensures ok ==> BlksAt(c, Reached(c), t, P, alter) && t.curval < t.vmap.Length
    ensures !ok ==> Stuck(c, done, P, bad, alter)
  {
    hide *;
    StandingParts(c);
    var top := root.level;
    InitTable(t, c);
    P := BlksStart(c, t, alter);
    ok, done, bad := true, {}, root;
    for l := top + 1 downto 0
      invariant ok && Standing(c) && BlksAt(c, Done(c.g, c.rank, Reached(c), l - 1, []), t, P, alter)
    {
      ok, P, done, bad := LevelBlks(l, levels[l], t, alter, c, P);
      if !ok {
        return;
      }
    }
    AllDone(c.g, c.rank, Reached(c));
    BlksEnd(c, t, P, alter);
  }

  lemma BlksEnd(c: Layout, t: Table, P: Pass, alter: bool)
    requires BlksAt(c, Reached(c), t, P, alter)
    ensures t.curval < t.vmap.Length
  {
    hide BlksLeft, PassInv;
  }

  // ----- What the pass promises -----

  /** With rewriting on, every run that does not fault gets its verdict from the graph that is left, if what the rules
      take for granted holds in every block, the run has a nonzero A where the rule for jset #0xffffffff
      applies, and no atom a block gives up is live at its exit in the graph that is left. */
  lemma BlksSound(c: Layout, t: Table, P: Pass)
    requires Standing(c) && BlksAt(c, Reached(c), t, P, true)
    ensures Dag(GraphOf(c.S), c.rank) && GraphMemOk(GraphOf(c.S))
    ensures Shrunk(c.g, Reached(c), GraphOf(c.S), Reach(GraphOf(c.S), c.rank, c.root))
    ensures AllSure(c.g, c.rank, Reached(c), P) && NoneMissed(c.g, GraphOf(c.S), c.rank, Reached(c), P) ==>
              forall st, p, fuel: nat ::
                OnesRun(c.g, c.rank, c.root, P, st, p) && Run(c.g, c.root, st, p, fuel) != Faulted ==>
                  Run(GraphOf(c.S), c.root, st, p, fuel) == Run(c.g, c.root, st, p, fuel)
  {
    hide *;
    var g1, R := GraphOf(c.S), Reached(c);
    StandingParts(c);
    AtParts(c, R, t, P, true);
    LeftShrinks(c.g, g1, c.rank, c.root, R, P, true);
    LeftKeys(c.g, c.rank, R, P, g1, true);
    if AllSure(c.g, c.rank, R, P) && NoneMissed(c.g, g1, c.rank, R, P) {
      SureSteady(c.g, c.rank, R, P);
      NoneMissedKept(c.g, g1, c.rank, R, c.ins, P);
      forall st, p, fuel: nat | OnesRun(c.g, c.rank, c.root, P, st, p) && Run(c.g, c.root, st, p, fuel) != Faulted
        ensures Run(g1, c.root, st, p, fuel) == Run(c.g, c.root, st, p, fuel)
      {
        RunStarts(c.g, c.root, st, p);
        AgreeSelf(st, InUse(g1, c.rank, c.root));
        BlksKeepRun(c.g, g1, c.rank, c.root, R, c.ins, P, st, p, 0, st, fuel);
      }
    }
  }

  lemma AgreeSelf(st: State, Z: set<Atom>)
    ensures AgreeOn(st, st, Z)
  {
  }

  /** With rewriting off there is no such condition on the whole, and none on the numbers: vstore deletes nothing, and
      opt_peep and opt_deadstores keep what is live. */
  lemma BlksOffSound(c: Layout, t: Table, P: Pass)
    requires Standing(c) && BlksAt(c, Reached(c), t, P, false) && RetsEmpty(c.g) && NoneLate(c.g, c.rank, Reached(c))
    ensures forall st, p, fuel: nat ::
              OnesNonzero(c.g, c.rank, c.root, st, p) && Run(c.g, c.root, st, p, fuel) != Faulted ==>
                Run(GraphOf(c.S), c.root, st, p, fuel) == Run(c.g, c.root, st, p, fuel)
    ensures Dag(GraphOf(c.S), c.rank) && GraphMemOk(GraphOf(c.S))
    ensures Shrunk(c.g, Reached(c), GraphOf(c.S), Reach(GraphOf(c.S), c.rank, c.root))
  {
    hide *;
    var g1, R := GraphOf(c.S), Reached(c);
    StandingParts(c);
    AtParts(c, R, t, P, false);
    LeftShrinks(c.g, g1, c.rank, c.root, R, P, false);
    RetsAre(c.g);
    OffIsPeeped(c.g, g1, c.rank, c.root, R, c.ins, P);
    forall st, p, fuel: nat | OnesNonzero(c.g, c.rank, c.root, st, p) && Run(c.g, c.root, st, p, fuel) != Faulted
      ensures Run(g1, c.root, st, p, fuel) == Run(c.g, c.root, st, p, fuel)
    {
      RunStarts(c.g, c.root, st, p);
      AgreeSelf(st, InUse(c.g, c.rank, c.root));
      PeepKeepsRun(c.g, g1, c.rank, c.root, R, P.keys, P.vals, st, p, 0, st, fuel);
    }
  }

  lemma RetsAre(g: Graph)
    requires RetsEmpty(g)
    ensures forall b {:trigger g[b]} :: b in g && g[b].test.code == Ret ==> g[b].stmts == []
  {
  }

  // ----- The passes before -----

  /** find_levels, find_inedges and find_ud leave what the passes over the blocks start from. */
  lemma StandingReady(c: Layout)
    requires Leveled(c.S, c.g, c.rank, c.root, c.blocks, c.levels) && GraphMemOk(c.g) && c.ins == InEdgesOf(c.S)
    requires InEdgesUpTo(c.g, Reach(c.g, c.rank, c.root), Reach(c.g, c.rank, c.root), c.ins)
    requires forall b {:trigger UdsOf(c.S)[b]} :: b in Reach(c.g, c.rank, c.root) ==>
               UdsOf(c.S)[b] == FinalUd(c.g, c.rank, b)
    ensures GraphOf(c.S) == c.g && Walking(c) && StmtsAre(c) && Standing(c)
  {
    LeveledFacts(c.S, c.g, c.rank, c.root, c.blocks, c.levels);
    LeveledIsLaid(c.S, c.g, c.rank, c.root, c.blocks, c.levels);
    assert Walking(c);
    WalkFacts(c);
    forall b | b in Reached(c) && b in c.g
      ensures b.outUse == OutUse(c.g, c.rank, b)
    {
      assert UdsOf(c.S)[b].outUse == b.outUse;
    }
    forall b {:trigger c.g[b]} | b in c.S && b in c.g
      ensures c.g[b].stmts == b.stmts
    {
      assert GraphOf(c.S)[b] == NodeOf(b);
    }
    hide Laid, Lists, LevelOf, InsExact, Dag, GraphMemOk, OutUse, Reach, InEdgesUpTo;
  }
}
