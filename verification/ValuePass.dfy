/** The numbering half of opt_blks: every block once, from the root down, each entered with what its
    predecessors have left. With `alter` on the statements are rewritten on the way. */
module ValuePass {
  import opened Bpf
  import opened Cfg
  import opened Atoms
  import opened Paths
  import opened Levels
  import opened LiveStmts
  import opened BlockSums
  import opened Dominators
  import opened Liveness
  import opened Runs
  import opened InEdges
  import opened ValueTable
  import opened Symbolic
  import opened BlockValues
  import opened ValueFlow

  /** The graph as the pass finds it, with its level lists and in_edges lists. */
  datatype Layout = Layout(S: set<Block>, g: Graph, rank: map<Block, nat>, root: Block, blocks: seq<Block>,
                           levels: seq<seq<Block>>, ins: map<Block, seq<Edge>>)

  ghost predicate Walking(c: Layout)
    reads c.S`s, c.S`jt, c.S`jf, c.S`id, c.S`level, c.S`inEdges
  {
    Laid(c.S, c.g, c.rank, c.root, c.blocks, c.levels) && GraphMemOk(c.g)
    && c.ins == InEdgesOf(c.S) && InEdgesUpTo(c.g, Reached(c), Reached(c), c.ins)
  }

  ghost function Reached(c: Layout): (R: set<Block>) {
    if Dag(c.g, c.rank) && c.root in c.g then Reach(c.g, c.rank, c.root) else {}
  }

  ghost function StmtsOf(S: set<Block>): (r: map<Block, seq<Stmt>>)
    reads S`stmts
    ensures r.Keys == S
  {
    map b | b in S :: b.stmts
  }

  ghost function TestsOf(S: set<Block>): (r: map<Block, Stmt>)
    reads S`s
    ensures r.Keys == S
  {
    map b | b in S :: b.s
  }

  /** What the pass has written into the blocks and the table. */
  ghost predicate Written(S: set<Block>, keys: seq<Key>, P: Pass)
    reads S`val, S`oval, S`stmts, S`s
  {
    P == Pass(keys, ValsOf(S), OvalsOf(S), StmtsOf(S), TestsOf(S), P.entries, P.peeped)
  }

  /** Where the pass stands when the blocks of `done` have been handled. */
  ghost predicate PassAt(c: Layout, done: set<Block>, t: Table, P: Pass, alter: bool)
    reads c.S`val, c.S`oval, c.S`stmts, c.S`s, t`keys, t`curval, t.hashtbl, t.vmap
  {
    && t.Valid() && Written(c.S, t.keys, P) && GraphMemOk(c.g) && Reached(c) <= c.g.Keys && done <= Reached(c)
    && PassInv(c.g, Reached(c), c.ins, done, P, alter)
    && t.curval <= SetLen(done, Uses(c.g)) && SetLen(Reached(c), Bounds(c.g)) <= t.vmap.Length
  }

  /** Everything a walk relies on. */
  lemma WalkFacts(c: Layout)
    requires Walking(c)
    ensures c.root in c.g && Dag(c.g, c.rank) && GraphMemOk(c.g) && Reached(c) == Reach(c.g, c.rank, c.root)
    ensures Reached(c) <= c.S && c.S == c.g.Keys && Lists(c.levels, c.g, c.rank, Reached(c))
    ensures c.root.level < |c.levels|
    ensures c.root.level == LevelOf(c.g, c.rank, c.root) && InsExact(c.g, Reached(c), c.ins)
  {
    var R := Reach(c.g, c.rank, c.root);
    forall b {:trigger c.ins[b]} | b in R
      ensures InsOf(c.g, R, b, c.ins[b])
    {
      forall i {:trigger c.ins[b][i]} | 0 <= i < |c.ins[b]|
        ensures c.ins[b][i].pred in R && Enters(c.g, c.ins[b][i].pred, c.ins[b][i].sense, b)
      {
        assert c.ins[b][i] in c.ins[b];
      }
    }
  }

  /** Reading the fields of a block is reading the snapshots. */
  lemma ReadBlock(c: Layout, b: Block, done: set<Block>, t: Table, P: Pass, alter: bool)
    requires Walking(c) && PassAt(c, done, t, P, alter) && NextUp(c.g, Reached(c), done, b)
    ensures b in c.S && b in c.g && b in c.ins && b.s == c.g[b].test && b.inEdges == c.ins[b] && b.stmts == c.g[b].stmts
    ensures AllMemOk(b.stmts) && Preds(c.S, b.inEdges) && Preds(P.vals.Keys, b.inEdges) && P.vals == ValsOf(c.S)
    ensures forall i {:trigger b.inEdges[i]} :: 0 <= i < |b.inEdges| ==> Bounded(t.keys, b.inEdges[i].pred.val)
    ensures t.Valid() && P.keys == t.keys && WellKeyed(t.keys)
    ensures t.curval + 2 * |Live(b.stmts)| + 3 <= t.vmap.Length
    ensures SetLen(done + {b}, Uses(c.g)) == SetLen(done, Uses(c.g)) + 2 * |Live(b.stmts)| + 1
  {
    NextReady(c.g, Reached(c), c.ins, done, P, alter, b);
    WalkFacts(c);
    RoomLeft(c.g, Reached(c), done, b);
    assert c.g[b].test == b.s && P.stmts[b] == b.stmts && c.ins[b] == b.inEdges;
    forall i {:trigger b.inEdges[i]} | 0 <= i < |b.inEdges|
      ensures Bounded(t.keys, b.inEdges[i].pred.val)
    {
      assert P.vals[b.inEdges[i].pred] == b.inEdges[i].pred.val;
    }
    hide Walking, PassInv, SetLen, Live;
  }

  /** The entry table of opt_blk. */
  method EntryVals(b: Block, ghost S: set<Block>, ghost keys: seq<Key>) returns (e: Vals)
    requires b in S && Preds(S, b.inEdges)
    requires forall i {:trigger b.inEdges[i]} :: 0 <= i < |b.inEdges| ==> Bounded(keys, b.inEdges[i].pred.val)
    ensures EntryTable(b.inEdges, ValsOf(S), e) && Bounded(keys, e)
  {
    e := MergeVals(b, S);
    EntryBounded(keys, ValsOf(S), b.inEdges, e);
  }

  /** The number of what a test compares with. */
  method OvalNumber(t: Table, test: Stmt, val: Vals) returns (oval: nat)
    requires t.Valid() && WellKeyed(t.keys) && t.curval + 1 < t.vmap.Length
    modifies t, t.hashtbl, t.vmap
    ensures t.Valid() && OvalNumbered(old(t.keys), test, val, oval, t.keys)
  {
    if test.code.Jmp? && test.code.jsrc == X {
      oval := val[X_ATOM];
    } else {
      ConstantNumbered(t.keys, test.k);
      oval := t.F(LdImm, test.k, 0);
    }
  }

  lemma ConstantNumbered(keys: seq<Key>, k: Word)
    requires WellKeyed(keys)
    ensures var more := Extend(keys, ConstKey(k));
            && WellKeyed(more) && keys <= more && |more| <= |keys| + 1 && ConstKey(k) in more
            && (NoUnknownOperand(keys) ==> NoUnknownOperand(more))
  {
    ExtendWellKeyed(keys, ConstKey(k));
    ExtendDistinct(keys, ConstKey(k));
  }

  /** The tables of one block: its exit values, the number of what its test compares with, and its new statements. */
  method BlockTables(t: Table, e: Vals, ss0: seq<Stmt>, test: Stmt, alter: bool)
      returns (ok: bool, ss: seq<Stmt>, val: Vals, oval: nat)
    requires t.Valid() && WellKeyed(t.keys) && Bounded(t.keys, e) && AllMemOk(ss0)
    requires t.curval + 2 * |Live(ss0)| + 3 <= t.vmap.Length
    modifies t, t.hashtbl, t.vmap
    ensures t.Valid() && ok == Steps(old(t.keys), e, ss0, alter).Rewrites?
    ensures ok ==> var r := Steps(old(t.keys), e, ss0, alter);
                   && ss == r.ss && val == r.val && OvalNumbered(r.keys, test, val, oval, t.keys)
                   && t.curval <= old(t.curval) + 2 * |Live(ss0)| + 1
  {
    hide *;
    ghost var keys := t.keys;
    TableCount(t);
    StepsKeys(keys, e, ss0, alter);
    ok, ss, val := NumberStmts(t, e, ss0, alter);
    oval := 0;
    if ok {
      StepsGrownIs(keys, ss0, Rewrites(ss, val, t.keys));
      TableCount(t);
      oval := OvalNumber(t, test, val);
      TableCount(t);
      OvalCount(Steps(keys, e, ss0, alter).keys, test, val, oval, t.keys);
    }
  }

  method NumberBlock(b: Block, t: Table, alter: bool, ghost c: Layout, ghost done: set<Block>, ghost P: Pass)
      returns (ok: bool, ss: seq<Stmt>, val: Vals, oval: nat, ghost e: Vals)
    requires Walking(c) && PassAt(c, done, t, P, alter) && NextUp(c.g, Reached(c), done, b) && b in c.g
    requires AllMemOk(c.g[b].stmts)
    modifies t, t.hashtbl, t.vmap
    ensures Walking(c) && t.Valid() && b in c.ins && Preds(P.vals.Keys, c.ins[b])
    ensures ValsOf(c.S) == old(ValsOf(c.S)) && OvalsOf(c.S) == old(OvalsOf(c.S)) && StmtsOf(c.S) == old(StmtsOf(c.S))
    ensures TestsOf(c.S) == old(TestsOf(c.S))
    ensures EntryTable(c.ins[b], P.vals, e) && Bounded(old(t.keys), e)
    ensures ok == Steps(old(t.keys), e, c.g[b].stmts, alter).Rewrites?
    ensures ok ==> var r := Steps(old(t.keys), e, c.g[b].stmts, alter);
                   && ss == r.ss && val == r.val && OvalNumbered(r.keys, c.g[b].test, val, oval, t.keys)
                   && t.curval <= old(t.curval) + 2 * |Live(c.g[b].stmts)| + 1
  {
    hide *;
    ReadBlock(c, b, done, t, P, alter);
    var m := EntryVals(b, c.S, t.keys);
    e := m;
    ok, ss, val, oval := BlockTables(t, m, b.stmts, b.s, alter);
  }

  lemma TableCount(t: Table)
    requires t.Valid()
    ensures t.curval == |t.keys|
  {
  }

  lemma OvalCount(keys: seq<Key>, test: Stmt, val: Vals, oval: nat, more: seq<Key>)
    requires OvalNumbered(keys, test, val, oval, more)
    ensures |more| <= |keys| + 1
  {
  }

  lemma StepsGrownIs(keys: seq<Key>, ss: seq<Stmt>, r: Rewrites)
    requires StepsGrown(keys, ss, r) && r.Rewrites?
    ensures WellKeyed(r.keys) && |r.keys| <= |keys| + 2 * |Live(ss)|
  {
  }

  /** opt_blk's writes to the block. */
  method SetBlock(b: Block, ss: seq<Stmt>, val: Vals, oval: nat, ghost c: Layout, ghost t: Table)
    requires b in c.S && Walking(c) && t.Valid()
    modifies c.S`val, c.S`oval, c.S`stmts
    ensures Walking(c) && t.Valid() && t.keys == old(t.keys) && t.curval == old(t.curval)
    ensures ValsOf(c.S) == old(ValsOf(c.S))[b := val] && OvalsOf(c.S) == old(OvalsOf(c.S))[b := oval]
    ensures TestsOf(c.S) == old(TestsOf(c.S))
    ensures StmtsOf(c.S) == old(StmtsOf(c.S))[b := ss]
  {
    hide *;
    SetStmts(b, ss, c.S);
    SetVals(b, val, oval, c.S);
  }

  method SetVals(b: Block, val: Vals, oval: nat, ghost S: set<Block>)
    requires b in S
    modifies S`val, S`oval
    ensures ValsOf(S) == old(ValsOf(S))[b := val] && OvalsOf(S) == old(OvalsOf(S))[b := oval]
  {
    b.val, b.oval := val, oval;
  }

  method SetStmts(b: Block, ss: seq<Stmt>, ghost S: set<Block>)
    requires b in S
    modifies S`stmts
    ensures StmtsOf(S) == old(StmtsOf(S))[b := ss]
  {
    b.stmts := ss;
  }

  lemma WrittenNext(S: set<Block>, keys: seq<Key>, P: Pass, b: Block, e: Vals, ss: seq<Stmt>, val: Vals, oval: nat,
                    vals: map<Block, Vals>, ovals: map<Block, nat>, stmts: map<Block, seq<Stmt>>)
    requires P.vals == vals && P.ovals == ovals && P.stmts == stmts && P.tests == TestsOf(S) && b in S
    requires ValsOf(S) == vals[b := val] && OvalsOf(S) == ovals[b := oval] && StmtsOf(S) == stmts[b := ss]
    ensures Written(S, keys, NextPass(P, b, e, ss, b.s, val, oval, keys))
  {
  }

  method NumberNext(b: Block, t: Table, alter: bool, ghost c: Layout, ghost done: set<Block>, ghost P: Pass)
      returns (ok: bool, ghost P': Pass)
    requires Walking(c) && PassAt(c, done, t, P, alter) && NextUp(c.g, Reached(c), done, b)
    modifies c.S`val, c.S`oval, c.S`stmts, t, t.hashtbl, t.vmap
    ensures Walking(c) && (ok ==> PassAt(c, done + {b}, t, P', alter)) && (!alter ==> ok)
    ensures !ok ==> Stuck(c, done, P', b, alter)
  {
    ReadBlock(c, b, done, t, P, alter);
    NumberedParts(c, done, t, P, alter);
    ghost var vals, ovals, stmts := ValsOf(c.S), OvalsOf(c.S), StmtsOf(c.S);
    hide *;
    var ss, val, oval;
    ghost var e;
    ok, ss, val, oval, e := NumberBlock(b, t, alter, c, done, P);
    if ok {
      FlowStep(c.g, Reached(c), c.ins, done, P, alter, b, e, Steps(P.keys, e, c.g[b].stmts, alter), b.s, oval, t.keys);
      P' := NextPass(P, b, e, ss, b.s, val, oval, t.keys);
      SetBlock(b, ss, val, oval, c, t);
      WrittenNext(c.S, t.keys, P, b, e, ss, val, oval, vals, ovals, stmts);
      NumberedWhole(c, done, b, t, P', alter);
    } else {
      P' := P.(entries := P.entries[b := Entry(P.keys, e)]);
      StuckThere(c, done, P, b, e, alter);
      StepsKeys(P.keys, e, c.g[b].stmts, alter);
    }
  }

  lemma NumberedParts(c: Layout, done: set<Block>, t: Table, P: Pass, alter: bool)
    requires Walking(c) && PassAt(c, done, t, P, alter)
    ensures PassInv(c.g, Reached(c), c.ins, done, P, alter) && GraphMemOk(c.g) && P.keys == t.keys
    ensures Written(c.S, P.keys, P)
    ensures P.vals == ValsOf(c.S) && P.ovals == OvalsOf(c.S) && P.stmts == StmtsOf(c.S) && P.tests == TestsOf(c.S)
    ensures WellKeyed(P.keys) && t.curval <= SetLen(done, Uses(c.g)) && SetLen(Reached(c), Bounds(c.g)) <= t.vmap.Length
    ensures done <= Reached(c) <= c.g.Keys
  {
  }

  lemma NumberedWhole(c: Layout, done: set<Block>, b: Block, t: Table, P: Pass, alter: bool)
    requires t.Valid() && Written(c.S, t.keys, P) && GraphMemOk(c.g) && Reached(c) <= c.g.Keys && done <= Reached(c)
    requires b in Reached(c)
    requires PassInv(c.g, Reached(c), c.ins, done + {b}, P, alter)
    requires t.curval <= SetLen(done + {b}, Uses(c.g)) && SetLen(Reached(c), Bounds(c.g)) <= t.vmap.Length
    ensures PassAt(c, done + {b}, t, P, alter)
  {
  }

  /** The pass has given up at block b, on a division by zero. */
  ghost predicate Stuck(c: Layout, done: set<Block>, P: Pass, b: Block, alter: bool) {
    && GraphMemOk(c.g) && PassInv(c.g, Reached(c), c.ins, done, P, alter) && EntryOk(c.g, Reached(c), c.ins, done, P, b)
    && b !in done && b in c.g && AllMemOk(c.g[b].stmts) && BlockSteps(c.g, P, b, alter) == Divided
  }

  lemma StuckThere(c: Layout, done: set<Block>, P: Pass, b: Block, e: Vals, alter: bool)
    requires GraphMemOk(c.g) && PassInv(c.g, Reached(c), c.ins, done, P, alter) && NextUp(c.g, Reached(c), done, b)
    requires b in c.ins && Preds(P.vals.Keys, c.ins[b]) && EntryTable(c.ins[b], P.vals, e) && Bounded(P.keys, e)
    requires b in c.g && AllMemOk(c.g[b].stmts) && Steps(P.keys, e, c.g[b].stmts, alter) == Divided
    ensures Stuck(c, done, P.(entries := P.entries[b := Entry(P.keys, e)]), b, alter)
  {
    var P1, R := P.(entries := P.entries[b := Entry(P.keys, e)]), Reached(c);
    forall x {:trigger BlockOk(c.g, R, c.ins, done, P1, alter, x)} | x in R && x in done
      ensures BlockOk(c.g, R, c.ins, done, P1, alter, x)
    {
      DoneFacts(c.g, R, c.ins, done, P, alter, x);
      assert P1.entries[x] == P.entries[x];
      hide Steps, EntryTable, WellKeyed, Bounded, OvalIs;
    }
    if AllKnown(c.g, R, done, P1, alter) {
      assert AllKnown(c.g, R, done, P, alter) by {
        forall x {:trigger P.entries[x]} | x in R && x in done && x in c.g && x in P.entries
          ensures AllMemOk(c.g[x].stmts) && KnownReads(P.entries[x].keys, P.entries[x].val, c.g[x].stmts, alter)
        {
          assert P1.entries[x] == P.entries[x];
        }
      }
    }
    hide BlockOk, EntryTable, Steps, AllKnown;
  }

  /** The j-th block of level l is the next. */
  lemma Upcoming(c: Layout, l: nat, j: nat)
    requires Walking(c) && l < |c.levels| && j < |c.levels[l]|
    ensures Dag(c.g, c.rank) && Reached(c) <= c.g.Keys
    ensures NextUp(c.g, Reached(c), Done(c.g, c.rank, Reached(c), l, c.levels[l][..j]), c.levels[l][j])
    ensures Done(c.g, c.rank, Reached(c), l, c.levels[l][..j + 1])
         == Done(c.g, c.rank, Reached(c), l, c.levels[l][..j]) + {c.levels[l][j]}
  {
    WalkFacts(c);
    TurnComes(c.g, c.rank, c.root, c.levels, l, j);
    DoneNext(c.g, c.rank, Reached(c), c.levels, l, j);
    hide Walking, Dag, Lists, LevelOf, Reach;
  }

  /** All blocks of one level. */
  method NumberLevel(l: nat, level: seq<Block>, t: Table, alter: bool, ghost c: Layout, ghost P0: Pass)
      returns (ok: bool, ghost P: Pass, ghost done: set<Block>, ghost bad: Block)
    requires Walking(c) && l < |c.levels| && level == c.levels[l] && Dag(c.g, c.rank) && Reached(c) <= c.g.Keys
    requires PassAt(c, Done(c.g, c.rank, Reached(c), l, []), t, P0, alter)
    modifies c.S`val, c.S`oval, c.S`stmts, t, t.hashtbl, t.vmap
    ensures Walking(c) && (!alter ==> ok)
    ensures ok ==> PassAt(c, Done(c.g, c.rank, Reached(c), l - 1, []), t, P, alter)
    ensures !ok ==> Stuck(c, done, P, bad, alter)
  {
    hide *;
    WalkFacts(c);
    LevelStart(c.g, c.rank, Reached(c), c.levels, l);
    ok, P, done, bad := true, P0, {}, c.root;
    for j := 0 to |level|
      invariant ok && Walking(c) && PassAt(c, Done(c.g, c.rank, Reached(c), l, c.levels[l][..j]), t, P, alter)
    {
      Upcoming(c, l, j);
      done, bad := Done(c.g, c.rank, Reached(c), l, c.levels[l][..j]), c.levels[l][j];
      ok, P := NumberNext(level[j], t, alter, c, done, P);
      if !ok {
        return;
      }
    }
    NextLevel(c.g, c.rank, Reached(c), c.levels, l);
  }

  lemma PassStart(c: Layout, t: Table, alter: bool) returns (P: Pass)
    requires Walking(c) && StmtsAre(c) && t.Valid() && t.keys == [] && SetLen(Reached(c), Bounds(c.g)) <= t.vmap.Length
    ensures Dag(c.g, c.rank) && PassAt(c, Done(c.g, c.rank, Reached(c), c.root.level, []), t, P, alter)
  {
    WalkFacts(c);
    NoneDone(c.g, c.rank, c.root);
    P := Pass([], ValsOf(c.S), OvalsOf(c.S), StmtsOf(c.S), TestsOf(c.S), map[], map[]);
    StartInv(c, P, alter);
    assert SetLen({}, Uses(c.g)) == 0;
    hide Walking, SetLen, Dag, Reach, Lists, Done, PassInv, LevelOf, StmtsAre;
  }

  lemma StartInv(c: Layout, P: Pass, alter: bool)
    requires GraphMemOk(c.g) && Reached(c) <= c.S == c.g.Keys && StmtsAre(c) && InsExact(c.g, Reached(c), c.ins)
    requires P == Pass([], ValsOf(c.S), OvalsOf(c.S), StmtsOf(c.S), TestsOf(c.S), map[], map[])
    ensures PassInv(c.g, Reached(c), c.ins, {}, P, alter)
  {
    forall b {:trigger P.stmts[b]} | b in c.g
      ensures P.stmts[b] == c.g[b].stmts
    {
      assert c.g[b] == c.g[b];
    }
    hide Reached, InsExact;
  }

  /** The statements of the blocks are those of the graph. */
  ghost predicate StmtsAre(c: Layout)
    reads c.S`stmts
  {
    forall b {:trigger c.g[b]} :: b in c.S && b in c.g ==> c.g[b].stmts == b.stmts
  }

  method Init(t: Table, ghost c: Layout)
    requires Walking(c) && StmtsAre(c) && t.hashtbl.Length == MODULUS && t.vmap.Length > 0
    modifies t, t.hashtbl, t.vmap
    ensures Walking(c) && StmtsAre(c) && t.Valid() && t.keys == []
  {
    hide Walking, StmtsAre;
    t.InitVal();
  }

  /** The pass. It is over with a table for every reachable block, and has taken fewer than maxval numbers;
      or it has given up at a block that every run faults in (StuckFaults). What the tables and the new
      statements promise is PassSound. */
  method NumberBlocks(root: Block, levels: seq<seq<Block>>, t: Table, alter: bool, ghost c: Layout)
      returns (ok: bool, ghost P: Pass, ghost done: set<Block>, ghost bad: Block)
    requires Walking(c) && StmtsAre(c) && root == c.root && levels == c.levels
    requires t.hashtbl.Length == MODULUS && t.vmap.Length > 0 && SetLen(Reached(c), Bounds(c.g)) <= t.vmap.Length
    modifies c.S`val, c.S`oval, c.S`stmts, t, t.hashtbl, t.vmap
    ensures Walking(c) && (!alter ==> ok)
    ensures ok ==> PassAt(c, Reached(c), t, P, alter) && t.curval <= SetLen(Reached(c), Uses(c.g))
    ensures ok ==> t.curval < t.vmap.Length
    ensures !ok ==> Stuck(c, done, P, bad, alter)
  {
    hide *;
    WalkFacts(c);
    var top := root.level;
    Init(t, c);
    P := PassStart(c, t, alter);
    ok, done, bad := true, {}, root;
    for l := top + 1 downto 0
      invariant ok && Walking(c) && PassAt(c, Done(c.g, c.rank, Reached(c), l - 1, []), t, P, alter)
    {
      ok, P, done, bad := NumberLevel(l, levels[l], t, alter, c, P);
      if !ok {
        return;
      }
    }
    AllDone(c.g, c.rank, Reached(c));
    PassEnd(c, t, P, alter);
  }

  lemma PassEnd(c: Layout, t: Table, P: Pass, alter: bool)
    requires PassAt(c, Reached(c), t, P, alter)
    ensures t.curval <= SetLen(Reached(c), Uses(c.g)) && t.curval < t.vmap.Length
  {
  }

  // ----- What the pass promises -----

  /** The pass is sound: the exit table of every block agrees with the state every run leaves it with, and the
      rewritten graph gives the verdict of the original on every run that does not fault, provided vstore
      deleted nothing on account of an unknown number. With `alter` off there is no such condition, and
      the graph is what it was. */
  lemma PassSound(c: Layout, t: Table, P: Pass, alter: bool)
    requires Walking(c) && PassAt(c, Reached(c), t, P, alter) && AllSteady(c.g, Reached(c), Reached(c), P, alter)
    ensures forall b :: b in Reached(c) ==> Holds(c.g, c.root, b, t.keys, b.val) && OvalIs(t.keys, b.s, b.val, b.oval)
    ensures forall st, p, fuel: nat :: Run(c.g, c.root, st, p, fuel) != Faulted ==>
              Run(GraphOf(c.S), c.root, st, p, fuel) == Run(c.g, c.root, st, p, fuel)
    ensures Shrunk(c.g, Reached(c), GraphOf(c.S), Reached(c))
    ensures !alter ==> GraphOf(c.S) == c.g
  {
    var R := Reached(c);
    WalkFacts(c);
    NumberedParts(c, R, t, P, alter);
    NewGraph(c, P);
    PassShrinks(c.g, R, c.ins, P, alter, GraphOf(c.S));
    forall b | b in R
      ensures Holds(c.g, c.root, b, t.keys, b.val) && OvalIs(t.keys, b.s, b.val, b.oval)
    {
      TablesHold(c.g, c.rank, c.root, R, c.ins, P, alter, b);
      DoneFacts(c.g, R, c.ins, R, P, alter, b);
      assert P.vals[b] == b.val && P.ovals[b] == b.oval && P.tests[b] == b.s;
    }
    forall st, p, fuel: nat | Run(c.g, c.root, st, p, fuel) != Faulted
      ensures Run(GraphOf(c.S), c.root, st, p, fuel) == Run(c.g, c.root, st, p, fuel)
    {
      assert RunTo(c.g, c.root, st, p, 0) == Some(At(c.root, st));
      PassKeepsRun(c.g, GraphOf(c.S), c.rank, c.root, R, c.ins, P, alter, st, p, 0, fuel);
    }
  }

  /** The graph the pass leaves on the heap. */
  lemma NewGraph(c: Layout, P: Pass)
    requires Walking(c) && Written(c.S, P.keys, P)
    ensures Rewritten(c.g, GraphOf(c.S), P.stmts)
  {
    WalkFacts(c);
    forall b {:trigger GraphOf(c.S)[b]} | b in c.g
      ensures GraphOf(c.S)[b] == c.g[b].(stmts := P.stmts[b])
    {
      assert c.g[b].test == b.s && P.stmts[b] == b.stmts;
    }
  }

  /** When the pass gives up, every run that comes to that block faults in it. */
  lemma StuckFaults(c: Layout, done: set<Block>, P: Pass, bad: Block, alter: bool, st: State, p: Packet, n: nat)
    requires Walking(c) && Stuck(c, done, P, bad, alter) && AllSteady(c.g, Reached(c), done + {bad}, P, alter)
    requires RunTo(c.g, c.root, st, p, n).Some? && RunTo(c.g, c.root, st, p, n).value.b == bad
    ensures ExecAll(c.g[bad].stmts, RunTo(c.g, c.root, st, p, n).value.st, p) == None
  {
    WalkFacts(c);
    DividedFaults(c.g, c.rank, c.root, Reached(c), c.ins, done, P, alter, bad, st, p, n);
  }

  /** With rewriting off there is no condition on the numbers. */
  lemma PassOffSound(c: Layout, t: Table, P: Pass)
    requires Walking(c) && PassAt(c, Reached(c), t, P, false)
    ensures forall b :: b in Reached(c) ==> Holds(c.g, c.root, b, t.keys, b.val) && OvalIs(t.keys, b.s, b.val, b.oval)
    ensures GraphOf(c.S) == c.g
  {
    hide *;
    WalkFacts(c);
    NoAlterSteady(c.g, Reached(c), Reached(c), P);
    PassSound(c, t, P, false);
  }
}
