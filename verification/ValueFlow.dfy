/** The symbolic pass of opt_blks over the whole graph: what the exit tables and the rewritten
    statements promise. */
module ValueFlow {
  import opened Bpf
  import opened Cfg
  import opened Atoms
  import opened Paths
  import opened Runs
  import opened LiveStmts
  import opened BlockSums
  import opened Liveness
  import opened Dominators
  import opened ValueTable
  import opened Symbolic
  import opened BlockValues

  // ----- What an exit table promises -----

  /** Every run that comes to the end of block b leaves it with a state that agrees with `val`. */
  ghost predicate Holds(g: Graph, root: Block, b: Block, keys: seq<Key>, val: Vals)
    requires WellKeyed(keys) && b in g
  {
    forall st, p, n {:trigger RunTo(g, root, st, p, n)} ::
      RunTo(g, root, st, p, n).Some? && RunTo(g, root, st, p, n).value.b == b ==>
        HoldsAt(g, b, keys, val, RunTo(g, root, st, p, n).value.st, p)
  }

  ghost predicate HoldsAt(g: Graph, b: Block, keys: seq<Key>, val: Vals, st: State, p: Packet)
    requires WellKeyed(keys) && b in g
  {
    ExecAll(g[b].stmts, st, p).Some? ==> Agrees(keys, val, ExecAll(g[b].stmts, st, p).value, p)
  }

  /** Equal known numbers mean equal values, wherever in the graph the two states are left. */
  lemma EqualNumbersEqualWords(g: Graph, root: Block, keys: seq<Key>, b: Block, vb: Vals, c: Block, vc: Vals, st: State,
                               st': State, p: Packet, n: nat, m: nat, x: Atom, y: Atom)
    requires WellKeyed(keys) && b in g && c in g && Holds(g, root, b, keys, vb) && Holds(g, root, c, keys, vc)
    requires RunTo(g, root, st, p, n).Some? && RunTo(g, root, st, p, n).value.b == b
    requires RunTo(g, root, st', p, m).Some? && RunTo(g, root, st', p, m).value.b == c
    requires ExecAll(g[b].stmts, RunTo(g, root, st, p, n).value.st, p).Some?
    requires ExecAll(g[c].stmts, RunTo(g, root, st', p, m).value.st, p).Some?
    requires vb[x] == vc[y] && Clean(keys, vb[x])
    ensures ExecAll(g[b].stmts, RunTo(g, root, st, p, n).value.st, p).value[x]
         == ExecAll(g[c].stmts, RunTo(g, root, st', p, m).value.st, p).value[y]
  {
    assert HoldsAt(g, b, keys, vb, RunTo(g, root, st, p, n).value.st, p);
    assert HoldsAt(g, c, keys, vc, RunTo(g, root, st', p, m).value.st, p);
  }

  // ----- The entry table of a block -----

  ghost function ValsOf(S: set<Block>): (r: map<Block, Vals>)
    reads S`val
    ensures r.Keys == S
  {
    map b | b in S :: b.val
  }

  /** What the predecessors agree on; 0 where they do not, or where there is none. */
  ghost predicate EntryTable(ins: seq<Edge>, vals: map<Block, Vals>, e: Vals)
    requires forall i {:trigger ins[i]} :: 0 <= i < |ins| ==> ins[i].pred in vals
  {
    forall a {:trigger e[a]} :: 0 <= a < N_ATOMS ==>
      if ins == [] then e[a] == 0
      else if forall i {:trigger ins[i]} :: 0 <= i < |ins| ==>
          vals[ins[i].pred][a] == vals[ins[0].pred][a] then e[a] == vals[ins[0].pred][a]
      else e[a] == 0
  }

  ghost predicate Preds(S: set<Block>, ins: seq<Edge>) {
    forall i {:trigger ins[i]} :: 0 <= i < |ins| ==> ins[i].pred in S
  }

  /** The table depends on the predecessors' exit tables only. */
  lemma EntrySame(ins: seq<Edge>, vals: map<Block, Vals>, vals1: map<Block, Vals>, e: Vals)
    requires Preds(vals.Keys, ins) && Preds(vals1.Keys, ins) && EntryTable(ins, vals, e)
    requires forall i {:trigger ins[i]} :: 0 <= i < |ins| ==> vals[ins[i].pred] == vals1[ins[i].pred]
    ensures EntryTable(ins, vals1, e)
  {
    forall a {:trigger e[a]} | 0 <= a < N_ATOMS
      ensures if ins == [] then e[a] == 0
              else if forall i {:trigger ins[i]} :: 0 <= i < |ins| ==>
                  vals1[ins[i].pred][a] == vals1[ins[0].pred][a] then e[a] == vals1[ins[0].pred][a]
              else e[a] == 0
    {
      assert e[a] == e[a];
    }
  }

  method MergeVals(b: Block, ghost S: set<Block>) returns (e: Vals)
    requires b in S && Preds(S, b.inEdges)
    ensures EntryTable(b.inEdges, ValsOf(S), e)
  {
    var ins := b.inEdges;
    if ins == [] {
      e := seq(N_ATOMS, _ => 0);
      return;
    }
    e := ins[0].pred.val;
    ghost var vals := ValsOf(S);
    for k := 1 to |ins|
      invariant EntryTable(ins[..k], vals, e)
    {
      assert ins[..k + 1] == ins[..k] + [ins[k]];
      var p := ins[k].pred.val;
      var e1: Vals := seq(N_ATOMS, a requires 0 <= a < N_ATOMS => if e[a] != p[a] then 0 else e[a]);
      EntryStep(ins, k, vals, e, e1);
      e := e1;
    }
    assert ins[..|ins|] == ins;
  }

  lemma EntryStep(ins: seq<Edge>, k: nat, vals: map<Block, Vals>, e: Vals, e1: Vals)
    requires 0 < k < |ins| && Preds(vals.Keys, ins) && EntryTable(ins[..k], vals, e)
    requires forall a {:trigger e1[a]} :: 0 <= a < N_ATOMS ==> e1[a] == if e[a] != vals[ins[k].pred][a] then 0 else e[a]
    ensures EntryTable(ins[..k + 1], vals, e1)
  {
    var pre, all := ins[..k], ins[..k + 1];
    assert all[k] == ins[k] && pre[0] == all[0] == ins[0];
    assert forall i {:trigger all[i]} {:trigger pre[i]} :: 0 <= i < k ==> all[i] == pre[i];
    forall a {:trigger e1[a]} | 0 <= a < N_ATOMS
      ensures if forall i {:trigger all[i]} :: 0 <= i < |all| ==> vals[all[i].pred][a] == vals[all[0].pred][a]
              then e1[a] == vals[all[0].pred][a] else e1[a] == 0
    {
      assert e[a] == e[a];
    }
  }

  /** Each entry is unknown, or what every predecessor has. */
  lemma EntryFrom(ins: seq<Edge>, vals: map<Block, Vals>, e: Vals, a: Atom, i: nat)
    requires Preds(vals.Keys, ins) && EntryTable(ins, vals, e) && i < |ins|
    ensures e[a] == 0 || e[a] == vals[ins[i].pred][a]
  {
    assert e[a] == e[a];
    assert ins[i] == ins[i];
  }

  lemma EntryBounded(keys: seq<Key>, vals: map<Block, Vals>, ins: seq<Edge>, e: Vals)
    requires Preds(vals.Keys, ins) && EntryTable(ins, vals, e)
    requires forall i {:trigger ins[i]} :: 0 <= i < |ins| ==> Bounded(keys, vals[ins[i].pred])
    ensures Bounded(keys, e)
  {
    forall a {:trigger e[a]} | 0 <= a < N_ATOMS
      ensures e[a] <= |keys|
    {
      if ins != [] {
        EntryFrom(ins, vals, e, a, 0);
        assert Bounded(keys, vals[ins[0].pred]);
        assert vals[ins[0].pred][a] <= |keys|;
      }
    }
  }

  // ----- Room for the numbers -----

  /** The most numbers block b can take: two per statement, one for the operand of its test. */
  ghost function Uses(g: Graph): (r: map<Block, nat>)
    ensures r.Keys == g.Keys
  {
    map b | b in g :: 2 * |Live(g[b].stmts)| + 1
  }

  /** opt_init's bound on the numbers: three for each statement and each block. */
  ghost function Bounds(g: Graph): (r: map<Block, nat>)
    ensures r.Keys == g.Keys
  {
    map b | b in g :: 3 * (|Live(g[b].stmts)| + 1)
  }

  /** What is left is more than the next block can take. */
  lemma RoomLeft(g: Graph, R: set<Block>, done: set<Block>, b: Block)
    requires R <= g.Keys && done <= R && b in R && b !in done
    ensures SetLen(done, Uses(g)) + 2 * |Live(g[b].stmts)| + 3 <= SetLen(R, Bounds(g))
    ensures SetLen(done + {b}, Uses(g)) == SetLen(done, Uses(g)) + 2 * |Live(g[b].stmts)| + 1
  {
    SetLenBelow(done, Uses(g), Bounds(g));
    SetLenRemove(done + {b}, Bounds(g), b);
    SetLenRemove(done + {b}, Uses(g), b);
    assert done + {b} - {b} == done;
    SetLenSubset(done + {b}, R, Bounds(g));
  }

  /** The number of the word a test compares with. */
  ghost predicate OvalIs(keys: seq<Key>, test: Stmt, val: Vals, oval: nat) {
    if test.code.Jmp? && test.code.jsrc == X then oval == val[X_ATOM]
    else ConstKey(test.k) in keys && oval == Number(keys, ConstKey(test.k))
  }

  ghost function OvalsOf(S: set<Block>): (r: map<Block, nat>)
    reads S`oval
    ensures r.Keys == S
  {
    map b | b in S :: b.oval
  }

  // ----- The invariant of the pass -----

  /** Where opt_blk started on a block: the value-number table so far, and the entry table. */
  datatype Entry = Entry(keys: seq<Key>, val: Vals)

  /** What the pass has left so far: the table, and each block's exit table, operand number, numbered statements
      and test; and the statements opt_peep has left, where it has been called. */
  datatype Pass = Pass(keys: seq<Key>, vals: map<Block, Vals>, ovals: map<Block, nat>, stmts: map<Block, seq<Stmt>>,
                       tests: map<Block, Stmt>, entries: map<Block, Entry>, peeped: map<Block, seq<Stmt>>)

  ghost predicate Covers(P: Pass, R: set<Block>) {
    R <= P.vals.Keys && R <= P.ovals.Keys && R <= P.stmts.Keys && R <= P.tests.Keys
  }

  /** The edges that lead into the blocks of `R`. */
  ghost predicate InsExact(g: Graph, R: set<Block>, ins: map<Block, seq<Edge>>) {
    && R <= ins.Keys
    && (forall b, c, s {:trigger Enters(g, c, s, b)} :: b in R && c in R && Enters(g, c, s, b) ==> Edge(c, s) in ins[b])
    && (forall b {:trigger ins[b]} :: b in R ==> InsOf(g, R, b, ins[b]))
  }

  ghost predicate InsOf(g: Graph, R: set<Block>, b: Block, ins: seq<Edge>) {
    forall i {:trigger ins[i]} :: 0 <= i < |ins| ==> ins[i].pred in R && Enters(g, ins[i].pred, ins[i].sense, b)
  }

  /** Block b was entered with what its predecessors, all handled, had left. */
  ghost predicate EntryOk(g: Graph, R: set<Block>, ins: map<Block, seq<Edge>>, done: set<Block>, P: Pass, b: Block) {
    && b in R && b in ins && b in P.entries && AboveDone(g, R, done, b)
    && Preds(P.vals.Keys, ins[b]) && EntryTable(ins[b], P.vals, P.entries[b].val)
    && WellKeyed(P.entries[b].keys) && Bounded(P.entries[b].keys, P.entries[b].val) && P.entries[b].keys <= P.keys
  }

  /** What the statement loop gives for block b. */
  ghost function BlockSteps(g: Graph, P: Pass, b: Block, alter: bool): Rewrites
    requires b in g && AllMemOk(g[b].stmts) && b in P.entries
  {
    Steps(P.entries[b].keys, P.entries[b].val, g[b].stmts, alter)
  }

  ghost predicate BlockDone(g: Graph, P: Pass, b: Block, alter: bool)
    requires b in g && AllMemOk(g[b].stmts)
  {
    && b in P.entries && b in P.vals && b in P.ovals && b in P.stmts && b in P.tests
    && var r := BlockSteps(g, P, b, alter);
       r.Rewrites? && r.ss == P.stmts[b] && r.val == P.vals[b] && r.keys <= P.keys
       && OvalIs(P.keys, P.tests[b], P.vals[b], P.ovals[b])
  }

  /** No statement of the blocks handled read an atom numbered 0. */
  ghost predicate AllKnown(g: Graph, R: set<Block>, done: set<Block>, P: Pass, alter: bool)
    requires GraphMemOk(g)
  {
    forall b {:trigger P.entries[b]} :: b in R && b in done && b in g && b in P.entries ==>
      AllMemOk(g[b].stmts) && KnownReads(P.entries[b].keys, P.entries[b].val, g[b].stmts, alter)
  }

  /** No statement of the blocks handled was deleted on account of an unknown number. */
  ghost predicate AllSteady(g: Graph, R: set<Block>, done: set<Block>, P: Pass, alter: bool)
    requires GraphMemOk(g)
  {
    forall b {:trigger P.entries[b]} :: b in R && b in done && b in g && b in P.entries ==>
      AllMemOk(g[b].stmts) && Steady(P.entries[b].keys, P.entries[b].val, g[b].stmts, alter)
  }

  ghost predicate BlockOk(g: Graph, R: set<Block>, ins: map<Block, seq<Edge>>, done: set<Block>, P: Pass, alter: bool,
                          b: Block) {
    b in g && AllMemOk(g[b].stmts) && EntryOk(g, R, ins, done, P, b) && BlockDone(g, P, b, alter)
  }

  /** `P` is what the pass leaves of graph `g` when the blocks of `done` have been handled. */
  ghost predicate PassInv(g: Graph, R: set<Block>, ins: map<Block, seq<Edge>>, done: set<Block>, P: Pass, alter: bool)
    requires GraphMemOk(g)
  {
    && R <= g.Keys && Covers(P, R) && InsExact(g, R, ins) && WellKeyed(P.keys)
    && (forall b {:trigger BlockOk(g, R, ins, done, P, alter, b)} :: b in R && b in done ==>
         BlockOk(g, R, ins, done, P, alter, b))
    && P.stmts.Keys == g.Keys
    && (forall b {:trigger P.stmts[b]} :: b in g && !(b in R && b in done) ==> P.stmts[b] == g[b].stmts)
    && (AllKnown(g, R, done, P, alter) ==> NoUnknownOperand(P.keys))
  }

  /** What opt_peep has left does not matter to it. */
  lemma PeepedInv(g: Graph, R: set<Block>, ins: map<Block, seq<Edge>>, done: set<Block>, P: Pass, alter: bool,
                  peeped: map<Block, seq<Stmt>>)
    requires GraphMemOk(g) && PassInv(g, R, ins, done, P, alter)
    ensures PassInv(g, R, ins, done, P.(peeped := peeped), alter)
  {
    var P1 := P.(peeped := peeped);
    hide InsExact, AboveDone, EntryTable, WellKeyed, Bounded, OvalIs, KnownReads, Steps, Preds;
    assert AllKnown(g, R, done, P1, alter) ==> AllKnown(g, R, done, P, alter);
    forall b {:trigger BlockOk(g, R, ins, done, P1, alter, b)} | b in R && b in done
      ensures BlockOk(g, R, ins, done, P1, alter, b)
    {
      assert BlockOk(g, R, ins, done, P, alter, b);
    }
  }

  /** What is known of one block that has been handled. */
  lemma DoneFacts(g: Graph, R: set<Block>, ins: map<Block, seq<Edge>>, done: set<Block>, P: Pass, alter: bool, b: Block)
    requires GraphMemOk(g) && PassInv(g, R, ins, done, P, alter) && b in R && b in done
    ensures b in g && AllMemOk(g[b].stmts) && EntryOk(g, R, ins, done, P, b) && BlockDone(g, P, b, alter)
    ensures StepsGrown(P.entries[b].keys, g[b].stmts, BlockSteps(g, P, b, alter))
    ensures Bounded(P.keys, P.vals[b])
  {
    assert BlockOk(g, R, ins, done, P, alter, b);
    StepsKeys(P.entries[b].keys, P.entries[b].val, g[b].stmts, alter);
    BoundedMore(BlockSteps(g, P, b, alter).keys, P.keys, P.vals[b]);
  }

  lemma BoundedMore(keys: seq<Key>, more: seq<Key>, val: Vals)
    requires keys <= more && Bounded(keys, val)
    ensures Bounded(more, val)
  {
  }

  // ----- Runs against the tables -----

  /** Agreement says the same with fewer numbers. */
  lemma AgreesBack(keys: seq<Key>, more: seq<Key>, val: Vals, st: State, p: Packet)
    requires WellKeyed(keys) && WellKeyed(more) && keys <= more && Bounded(keys, val)
    ensures Agrees(keys, val, st, p) <==> Agrees(more, val, st, p)
  {
    forall a {:trigger val[a]} | 0 <= a < N_ATOMS
      ensures Clean(more, val[a]) == Clean(keys, val[a]) && Denote(more, val[a], p) == Denote(keys, val[a], p)
    {
      DenoteStable(keys, more, val[a], p);
    }
  }

  /** A table entered from a predecessor agrees with the state it was left with. */
  lemma AgreesOn(keys: seq<Key>, ins: seq<Edge>, vals: map<Block, Vals>, e: Vals, i: nat, st: State, p: Packet)
    requires WellKeyed(keys) && Preds(vals.Keys, ins) && EntryTable(ins, vals, e) && i < |ins|
    requires Agrees(keys, vals[ins[i].pred], st, p)
    ensures Agrees(keys, e, st, p)
  {
    forall a {:trigger e[a]} | 0 <= a < N_ATOMS && Clean(keys, e[a])
      ensures Denote(keys, e[a], p) == Some(st[a])
    {
      EntryFrom(ins, vals, e, a, i);
      assert vals[ins[i].pred][a] == e[a];
    }
  }

  lemma NothingKnown(keys: seq<Key>, vals: map<Block, Vals>, e: Vals, st: State, p: Packet)
    requires WellKeyed(keys) && EntryTable([], vals, e)
    ensures Agrees(keys, e, st, p)
  {
    assert forall a {:trigger e[a]} :: 0 <= a < N_ATOMS ==> e[a] == 0;
  }

  /** The edge by which a run has come to b, from a block that has been handled. */
  lemma EnteredBy(g: Graph, rank: map<Block, nat>, root: Block, R: set<Block>, ins: map<Block, seq<Edge>>,
                  done: set<Block>, P: Pass, b: Block, st: State, p: Packet, n: nat)
      returns (i: nat)
    requires Dag(g, rank) && root in g && R == Reach(g, rank, root) && InsExact(g, R, ins)
    requires EntryOk(g, R, ins, done, P, b)
    requires n > 0 && RunTo(g, root, st, p, n).Some? && RunTo(g, root, st, p, n).value.b == b
    ensures i < |ins[b]| && RunTo(g, root, st, p, n - 1).Some?
    ensures var at := RunTo(g, root, st, p, n - 1).value;
            && at.b == ins[b][i].pred && at.b in R && at.b in g && at.b in done
            && ExecAll(g[at.b].stmts, at.st, p) == Some(RunTo(g, root, st, p, n).value.st)
  {
    var at := RunTo(g, root, st, p, n - 1).value;
    RunToReach(g, rank, root, st, p, n - 1);
    var s := Taken(g[at.b].test, ExecAll(g[at.b].stmts, at.st, p).value);
    assert Enters(g, at.b, s, b);
    hide Taken, EntryTable, Dag, Reach;
    i :| 0 <= i < |ins[b]| && ins[b][i] == Edge(at.b, s);
  }

  /** Nothing leads to the root. */
  lemma RootEntry(g: Graph, rank: map<Block, nat>, root: Block, R: set<Block>, ins: map<Block, seq<Edge>>,
                  done: set<Block>, P: Pass)
    requires Dag(g, rank) && root in g && R == Reach(g, rank, root) && InsExact(g, R, ins)
    requires EntryOk(g, R, ins, done, P, root)
    ensures ins[root] == []
  {
    if ins[root] != [] {
      assert InsOf(g, R, root, ins[root]);
      EntersLower(g, rank, root, ins[root][0].pred, ins[root][0].sense, root);
      assert false;
    }
  }

  lemma EntryParts(g: Graph, R: set<Block>, ins: map<Block, seq<Edge>>, done: set<Block>, P: Pass, alter: bool,
                   b: Block)
    requires GraphMemOk(g) && PassInv(g, R, ins, done, P, alter) && EntryOk(g, R, ins, done, P, b)
    ensures InsExact(g, R, ins) && WellKeyed(P.keys) && b in P.entries && b in ins && P.entries[b].keys <= P.keys
    ensures WellKeyed(P.entries[b].keys) && Bounded(P.entries[b].keys, P.entries[b].val)
    ensures Preds(P.vals.Keys, ins[b]) && EntryTable(ins[b], P.vals, P.entries[b].val)
  {
  }

  /** Every run that comes to b enters it with a state that agrees with its entry table. */
  lemma {:induction false} EntryAgrees(g: Graph, rank: map<Block, nat>, root: Block, R: set<Block>,
                                       ins: map<Block, seq<Edge>>, done: set<Block>, P: Pass, alter: bool, b: Block,
                                       st: State, p: Packet, n: nat)
    requires Dag(g, rank) && GraphMemOk(g) && root in g && R == Reach(g, rank, root)
    requires PassInv(g, R, ins, done, P, alter) && AllSteady(g, R, done, P, alter) && EntryOk(g, R, ins, done, P, b)
    requires RunTo(g, root, st, p, n).Some? && RunTo(g, root, st, p, n).value.b == b
    ensures Agrees(P.entries[b].keys, P.entries[b].val, RunTo(g, root, st, p, n).value.st, p)
    decreases n, 0
  {
    hide *;
    EntryParts(g, R, ins, done, P, alter, b);
    if n == 0 {
      RunStarts(g, root, st, p);
      RootEntry(g, rank, root, R, ins, done, P);
      NothingKnown(P.entries[b].keys, P.vals, P.entries[b].val, RunTo(g, root, st, p, n).value.st, p);
    } else {
      var i := EnteredBy(g, rank, root, R, ins, done, P, b, st, p, n);
      var e, st1 := P.entries[b], RunTo(g, root, st, p, n).value.st;
      ExitAgrees(g, rank, root, R, ins, done, P, alter, st, p, n - 1);
      AgreesOn(P.keys, ins[b], P.vals, e.val, i, st1, p);
      AgreesBack(e.keys, P.keys, e.val, st1, p);
    }
  }

  /** A block that has been handled is left, on every run that executes it, as its new statements would
      leave it, with a state that agrees with its exit table. */
  lemma {:induction false} ExitAgrees(g: Graph, rank: map<Block, nat>, root: Block, R: set<Block>,
                                      ins: map<Block, seq<Edge>>, done: set<Block>, P: Pass, alter: bool, st: State,
                                      p: Packet, n: nat)
    requires Dag(g, rank) && GraphMemOk(g) && root in g && R == Reach(g, rank, root)
    requires PassInv(g, R, ins, done, P, alter) && AllSteady(g, R, done, P, alter)
    requires RunTo(g, root, st, p, n).Some? && RunTo(g, root, st, p, n).value.b in R
    requires RunTo(g, root, st, p, n).value.b in done
    requires ExecAll(g[RunTo(g, root, st, p, n).value.b].stmts, RunTo(g, root, st, p, n).value.st, p).Some?
    ensures var at := RunTo(g, root, st, p, n).value;
            && ExecAll(P.stmts[at.b], at.st, p) == ExecAll(g[at.b].stmts, at.st, p)
            && Agrees(P.keys, P.vals[at.b], ExecAll(g[at.b].stmts, at.st, p).value, p)
    decreases n, 1
  {
    var at := RunTo(g, root, st, p, n).value;
    DoneFacts(g, R, ins, done, P, alter, at.b);
    EntryAgrees(g, rank, root, R, ins, done, P, alter, at.b, st, p, n);
    var e, r := P.entries[at.b], BlockSteps(g, P, at.b, alter);
    assert Steady(e.keys, e.val, g[at.b].stmts, alter);
    StepsSound(e.keys, e.val, g[at.b].stmts, alter, at.st, p);
    AgreesBack(r.keys, P.keys, r.val, ExecAll(g[at.b].stmts, at.st, p).value, p);
  }

  // ----- The pass is sound -----

  /** Value numbering is sound over the whole graph: the exit table of every block agrees with the state
      every run leaves it with, on every packet. */
  lemma TablesHold(g: Graph, rank: map<Block, nat>, root: Block, R: set<Block>, ins: map<Block, seq<Edge>>, P: Pass,
                   alter: bool, b: Block)
    requires Dag(g, rank) && GraphMemOk(g) && root in g && R == Reach(g, rank, root)
    requires PassInv(g, R, ins, R, P, alter) && AllSteady(g, R, R, P, alter) && b in R
    ensures Holds(g, root, b, P.keys, P.vals[b])
  {
    forall st, p, n {:trigger RunTo(g, root, st, p, n)} |
        RunTo(g, root, st, p, n).Some? && RunTo(g, root, st, p, n).value.b == b
      ensures HoldsAt(g, b, P.keys, P.vals[b], RunTo(g, root, st, p, n).value.st, p)
    {
      if ExecAll(g[b].stmts, RunTo(g, root, st, p, n).value.st, p).Some? {
        ExitAgrees(g, rank, root, R, ins, R, P, alter, st, p, n);
      }
    }
  }

  /** The graph with other statements in its blocks. */
  ghost predicate Rewritten(g: Graph, g1: Graph, stmts: map<Block, seq<Stmt>>) {
    && stmts.Keys == g.Keys == g1.Keys
    && forall b {:trigger g1[b]} :: b in g ==> g1[b] == g[b].(stmts := stmts[b])
  }

  /** A block runs as it did. */
  lemma BlockRuns(g: Graph, g1: Graph, rank: map<Block, nat>, root: Block, R: set<Block>, ins: map<Block, seq<Edge>>,
                  P: Pass, alter: bool, st: State, p: Packet, n: nat)
    requires Dag(g, rank) && GraphMemOk(g) && root in g && R == Reach(g, rank, root)
    requires PassInv(g, R, ins, R, P, alter) && AllSteady(g, R, R, P, alter) && Rewritten(g, g1, P.stmts)
    requires RunTo(g, root, st, p, n).Some?
    ensures var at := RunTo(g, root, st, p, n).value;
            && at.b in g && at.b in g1 && g1[at.b] == Node(g1[at.b].stmts, g[at.b].test, g[at.b].jt, g[at.b].jf)
            && (forall s :: Succ(g1[at.b], s) == Succ(g[at.b], s)
                 && (g[at.b].test.code.Jmp? ==> Succ(g[at.b], s) != null))
            && (ExecAll(g[at.b].stmts, at.st, p).Some? ==>
                 ExecAll(g1[at.b].stmts, at.st, p) == ExecAll(g[at.b].stmts, at.st, p))
  {
    var at := RunTo(g, root, st, p, n).value;
    RunToReach(g, rank, root, st, p, n);
    assert g1[at.b].stmts == P.stmts[at.b] && DagNode(g, rank, at.b);
    if ExecAll(g[at.b].stmts, at.st, p).Some? {
      ExitAgrees(g, rank, root, R, ins, R, P, alter, st, p, n);
    }
  }

  /** The rewritten graph gives the verdict of the original one on every run that does not fault. */
  lemma {:induction false} PassKeepsRun(g: Graph, g1: Graph, rank: map<Block, nat>, root: Block, R: set<Block>,
                                        ins: map<Block, seq<Edge>>, P: Pass, alter: bool, st: State, p: Packet, n: nat,
                                        fuel: nat)
    requires Dag(g, rank) && GraphMemOk(g) && root in g && R == Reach(g, rank, root)
    requires PassInv(g, R, ins, R, P, alter) && AllSteady(g, R, R, P, alter) && Rewritten(g, g1, P.stmts)
    requires RunTo(g, root, st, p, n).Some?
    requires Run(g, RunTo(g, root, st, p, n).value.b, RunTo(g, root, st, p, n).value.st, p, fuel) != Faulted
    ensures var at := RunTo(g, root, st, p, n).value;
            Run(g1, at.b, at.st, p, fuel) == Run(g, at.b, at.st, p, fuel)
    decreases fuel
  {
    hide *;
    var at := RunTo(g, root, st, p, n).value;
    BlockRuns(g, g1, rank, root, R, ins, P, alter, st, p, n);
    RunUnfold(g, at, p, fuel);
    RunUnfold(g1, at, p, fuel);
    RunToNext(g, root, st, p, n);
    if fuel > 0 && g[at.b].test.code.Jmp? {
      PassKeepsRun(g, g1, rank, root, R, ins, P, alter, st, p, n + 1, fuel - 1);
    }
  }

  /** fold_op's error exit is only taken at a block that every run faults in. */
  lemma DividedFaults(g: Graph, rank: map<Block, nat>, root: Block, R: set<Block>, ins: map<Block, seq<Edge>>,
                      done: set<Block>, P: Pass, alter: bool, b: Block, st: State, p: Packet, n: nat)
    requires Dag(g, rank) && GraphMemOk(g) && root in g && R == Reach(g, rank, root)
    requires PassInv(g, R, ins, done, P, alter) && AllSteady(g, R, done + {b}, P, alter)
    requires EntryOk(g, R, ins, done, P, b)
    requires BlockSteps(g, P, b, alter) == Divided
    requires RunTo(g, root, st, p, n).Some? && RunTo(g, root, st, p, n).value.b == b
    ensures ExecAll(g[b].stmts, RunTo(g, root, st, p, n).value.st, p) == None
  {
    EntryAgrees(g, rank, root, R, ins, done, P, alter, b, st, p, n);
    var e, st0 := P.entries[b], RunTo(g, root, st, p, n).value.st;
    if ExecAll(g[b].stmts, st0, p).Some? {
      assert Steady(e.keys, e.val, g[b].stmts, alter);
      StepsSound(e.keys, e.val, g[b].stmts, alter, st0, p);
    }
  }

  /** With `alter` off nothing is rewritten, and nothing can go wrong. */
  lemma NoAlterSteady(g: Graph, R: set<Block>, done: set<Block>, P: Pass)
    requires GraphMemOk(g)
    ensures AllSteady(g, R, done, P, false)
  {
    forall b {:trigger P.entries[b]} | b in R && b in done && b in g && b in P.entries
      ensures AllMemOk(g[b].stmts) && Steady(P.entries[b].keys, P.entries[b].val, g[b].stmts, false)
    {
      assert g[b] == g[b];
    }
  }

  lemma KnownPrefix(keys: seq<Key>, more: seq<Key>)
    requires keys <= more && NoUnknownOperand(more)
    ensures NoUnknownOperand(keys)
  {
    assert forall i {:trigger keys[i]} :: 0 <= i < |keys| ==> keys[i] == more[i];
  }

  /** If no statement read an atom numbered 0, the known numbers are the nonzero ones and nothing was
      deleted wrongly. */
  lemma KnownIsSteady(g: Graph, R: set<Block>, ins: map<Block, seq<Edge>>, P: Pass, alter: bool)
    requires GraphMemOk(g) && PassInv(g, R, ins, R, P, alter) && AllKnown(g, R, R, P, alter)
    ensures AllSteady(g, R, R, P, alter) && NoUnknownOperand(P.keys)
    ensures forall v :: 0 <= v <= |P.keys| ==> (Clean(P.keys, v) <==> v != 0)
  {
    forall b {:trigger P.entries[b]} | b in R && b in g && b in P.entries
      ensures AllMemOk(g[b].stmts) && Steady(P.entries[b].keys, P.entries[b].val, g[b].stmts, alter)
    {
      DoneFacts(g, R, ins, R, P, alter, b);
      var e := P.entries[b];
      KnownPrefix(e.keys, P.keys);
      StepsKnown(e.keys, e.val, g[b].stmts, alter);
    }
    forall v | 0 <= v <= |P.keys|
      ensures Clean(P.keys, v) <==> v != 0
    {
      NonzeroIsKnown(P.keys, v);
    }
  }

  // ----- One more block -----

  /** Block b, entered with `e`, was left with `val`, `oval`, `test` and the numbered statements `ss`; the table is
      now `more`. */
  ghost function NextPass(P: Pass, b: Block, e: Vals, ss: seq<Stmt>, test: Stmt, val: Vals, oval: nat,
                          more: seq<Key>): Pass {
    Pass(more, P.vals[b := val], P.ovals[b := oval], P.stmts[b := ss], P.tests[b := test],
         P.entries[b := Entry(P.keys, e)], P.peeped)
  }

  /** The block to handle next. */
  ghost predicate NextUp(g: Graph, R: set<Block>, done: set<Block>, b: Block) {
    b in R && b !in done && done <= R && AboveDone(g, R, done, b)
  }

  /** The entry table is in range. */
  lemma NextReady(g: Graph, R: set<Block>, ins: map<Block, seq<Edge>>, done: set<Block>, P: Pass, alter: bool, b: Block)
    requires GraphMemOk(g) && PassInv(g, R, ins, done, P, alter) && NextUp(g, R, done, b)
    ensures b in g && AllMemOk(g[b].stmts) && P.stmts[b] == g[b].stmts && b in ins && Preds(R, ins[b])
    ensures Preds(P.vals.Keys, ins[b])
    ensures forall i {:trigger ins[b][i]} :: 0 <= i < |ins[b]| ==>
        ins[b][i].pred in done && Bounded(P.keys, P.vals[ins[b][i].pred])
  {
    assert g[b] == g[b] && P.stmts[b] == P.stmts[b];
    forall i {:trigger ins[b][i]} | 0 <= i < |ins[b]|
      ensures ins[b][i].pred in R && ins[b][i].pred in P.vals && ins[b][i].pred in done
      ensures Bounded(P.keys, P.vals[ins[b][i].pred])
    {
      assert InsOf(g, R, b, ins[b]);
      assert Enters(g, ins[b][i].pred, ins[b][i].sense, b);
      DoneFacts(g, R, ins, done, P, alter, ins[b][i].pred);
    }
  }

  /** Handling b leaves alone what is known of a block handled before. */
  lemma OthersKept(g: Graph, R: set<Block>, ins: map<Block, seq<Edge>>, done: set<Block>, P: Pass, alter: bool,
                   b: Block, e: Vals, ss: seq<Stmt>, test: Stmt, val: Vals, oval: nat, more: seq<Key>, x: Block)
    requires GraphMemOk(g) && PassInv(g, R, ins, done, P, alter) && NextUp(g, R, done, b) && x in R && x in done
    requires WellKeyed(more) && P.keys <= more
    ensures EntryOk(g, R, ins, done + {b}, NextPass(P, b, e, ss, test, val, oval, more), x)
    ensures x in g && AllMemOk(g[x].stmts) && BlockDone(g, NextPass(P, b, e, ss, test, val, oval, more), x, alter)
  {
    var P1 := NextPass(P, b, e, ss, test, val, oval, more);
    DoneFacts(g, R, ins, done, P, alter, x);
    forall i {:trigger ins[x][i]} | 0 <= i < |ins[x]|
      ensures ins[x][i].pred in P1.vals && P1.vals[ins[x][i].pred] == P.vals[ins[x][i].pred]
    {
      assert InsOf(g, R, x, ins[x]);
      assert Enters(g, ins[x][i].pred, ins[x][i].sense, x);
    }
    EntrySame(ins[x], P.vals, P1.vals, P.entries[x].val);
    OvalStable(P.keys, more, P.tests[x], P.vals[x], P.ovals[x]);
    assert P1.entries[x] == P.entries[x];
    hide *;
    OthersKeptParts(g, R, ins, done, P, P1, b, x, alter);
  }

  lemma OthersKeptParts(g: Graph, R: set<Block>, ins: map<Block, seq<Edge>>, done: set<Block>, P: Pass, P1: Pass,
                        b: Block, x: Block, alter: bool)
    requires x in g && AllMemOk(g[x].stmts) && EntryOk(g, R, ins, done, P, x) && BlockDone(g, P, x, alter)
    requires P.keys <= P1.keys && x in P1.entries && P1.entries[x] == P.entries[x] && Preds(P1.vals.Keys, ins[x])
    requires x in P1.vals && P1.vals[x] == P.vals[x] && x in P1.ovals && P1.ovals[x] == P.ovals[x] && x in P1.stmts
    requires P1.stmts[x] == P.stmts[x] && x in P1.tests && P1.tests[x] == P.tests[x]
    requires EntryTable(ins[x], P1.vals, P.entries[x].val) && OvalIs(P1.keys, P.tests[x], P.vals[x], P.ovals[x])
    ensures EntryOk(g, R, ins, done + {b}, P1, x) && BlockDone(g, P1, x, alter)
  {
    hide WellKeyed, Bounded, EntryTable, OvalIs, Steps;
  }

  lemma OvalStable(keys: seq<Key>, more: seq<Key>, test: Stmt, val: Vals, oval: nat)
    requires keys <= more && Distinct(more) && OvalIs(keys, test, val, oval)
    ensures OvalIs(more, test, val, oval)
  {
    if ConstKey(test.k) in keys {
      NumberStable(keys, more, ConstKey(test.k));
    }
  }

  /** What opt_blk leaves of b keeps the invariant. */
  lemma FlowStep(g: Graph, R: set<Block>, ins: map<Block, seq<Edge>>, done: set<Block>, P: Pass, alter: bool, b: Block,
                 e: Vals, r: Rewrites, test: Stmt, oval: nat, more: seq<Key>)
    requires GraphMemOk(g) && PassInv(g, R, ins, done, P, alter) && NextUp(g, R, done, b) && b in g
    requires AllMemOk(g[b].stmts)
    requires b in ins && Preds(P.vals.Keys, ins[b]) && EntryTable(ins[b], P.vals, e) && Bounded(P.keys, e)
    requires r == Steps(P.keys, e, g[b].stmts, alter) && r.Rewrites?
    requires OvalNumbered(r.keys, test, r.val, oval, more)
    ensures PassInv(g, R, ins, done + {b}, NextPass(P, b, e, r.ss, test, r.val, oval, more), alter)
  {
    var P1 := NextPass(P, b, e, r.ss, test, r.val, oval, more);
    StepsKeys(P.keys, e, g[b].stmts, alter);
    forall x {:trigger BlockOk(g, R, ins, done + {b}, P1, alter, x)} | x in R && x in done + {b}
      ensures BlockOk(g, R, ins, done + {b}, P1, alter, x)
    {
      if x == b {
        NewEntry(g, R, ins, done, P, alter, b, e, r, test, oval, more);
      } else {
        OthersKept(g, R, ins, done, P, alter, b, e, r.ss, test, r.val, oval, more, x);
      }
    }
    StepKnown(g, R, ins, done, P, P1, alter, b, e, r, test, oval, more);
    StepFrame(g, R, ins, done, P, P1, alter, b);
  }

  lemma StepFrame(g: Graph, R: set<Block>, ins: map<Block, seq<Edge>>, done: set<Block>, P: Pass, P1: Pass, alter: bool,
                  b: Block)
    requires GraphMemOk(g) && PassInv(g, R, ins, done, P, alter) && NextUp(g, R, done, b)
    requires P.vals.Keys <= P1.vals.Keys && P.ovals.Keys <= P1.ovals.Keys && b in P1.stmts
    requires P.tests.Keys <= P1.tests.Keys
    requires P1.stmts == P.stmts[b := P1.stmts[b]]
    ensures R <= g.Keys && Covers(P1, R) && InsExact(g, R, ins) && P1.stmts.Keys == g.Keys
    ensures forall x {:trigger P1.stmts[x]} :: x in g && !(x in R && x in done + {b}) ==> P1.stmts[x] == g[x].stmts
  {
    forall x {:trigger P1.stmts[x]} | x in g && !(x in R && x in done + {b})
      ensures P1.stmts[x] == g[x].stmts
    {
      assert P1.stmts[x] == P.stmts[x];
    }
    hide InsExact;
  }

  lemma StepKnown(g: Graph, R: set<Block>, ins: map<Block, seq<Edge>>, done: set<Block>, P: Pass, P1: Pass, alter: bool,
                  b: Block, e: Vals, r: Rewrites, test: Stmt, oval: nat, more: seq<Key>)
    requires GraphMemOk(g) && PassInv(g, R, ins, done, P, alter) && NextUp(g, R, done, b) && b in g
    requires AllMemOk(g[b].stmts)
    requires Bounded(P.keys, e) && r == Steps(P.keys, e, g[b].stmts, alter) && r.Rewrites?
    requires P1 == NextPass(P, b, e, r.ss, test, r.val, oval, more)
    requires OvalNumbered(r.keys, test, r.val, oval, more)
    ensures AllKnown(g, R, done + {b}, P1, alter) ==> NoUnknownOperand(more)
  {
    if AllKnown(g, R, done + {b}, P1, alter) {
      KnownBefore(g, R, ins, done, P, P1, alter, b, e);
      StepsKnown(P.keys, e, g[b].stmts, alter);
    }
  }

  /** The operand of the test has been numbered: the table has grown by a constant at most. */
  ghost predicate OvalNumbered(keys: seq<Key>, test: Stmt, val: Vals, oval: nat, more: seq<Key>) {
    && WellKeyed(more) && keys <= more && |more| <= |keys| + 1 && OvalIs(more, test, val, oval)
    && (NoUnknownOperand(keys) ==> NoUnknownOperand(more))
  }

  lemma NewEntry(g: Graph, R: set<Block>, ins: map<Block, seq<Edge>>, done: set<Block>, P: Pass, alter: bool, b: Block,
                 e: Vals, r: Rewrites, test: Stmt, oval: nat, more: seq<Key>)
    requires GraphMemOk(g) && PassInv(g, R, ins, done, P, alter) && NextUp(g, R, done, b)
    requires b in ins && Preds(P.vals.Keys, ins[b]) && EntryTable(ins[b], P.vals, e) && Bounded(P.keys, e)
    requires b in g && AllMemOk(g[b].stmts) && r == Steps(P.keys, e, g[b].stmts, alter) && r.Rewrites?
    requires P.keys <= r.keys
    requires OvalNumbered(r.keys, test, r.val, oval, more)
    ensures EntryOk(g, R, ins, done + {b}, NextPass(P, b, e, r.ss, test, r.val, oval, more), b)
    ensures BlockDone(g, NextPass(P, b, e, r.ss, test, r.val, oval, more), b, alter)
  {
    var P1 := NextPass(P, b, e, r.ss, test, r.val, oval, more);
    NextReady(g, R, ins, done, P, alter, b);
    forall i {:trigger ins[b][i]} | 0 <= i < |ins[b]|
      ensures ins[b][i].pred in P1.vals && P1.vals[ins[b][i].pred] == P.vals[ins[b][i].pred]
    {
    }
    EntrySame(ins[b], P.vals, P1.vals, e);
    hide EntryTable, Steps, OvalIs, Bounded, NoUnknownOperand;
  }

  lemma KnownBefore(g: Graph, R: set<Block>, ins: map<Block, seq<Edge>>, done: set<Block>, P: Pass, P1: Pass,
                    alter: bool, b: Block, e: Vals)
    requires GraphMemOk(g) && PassInv(g, R, ins, done, P, alter) && NextUp(g, R, done, b)
    requires P1.entries == P.entries[b := Entry(P.keys, e)]
    requires AllKnown(g, R, done + {b}, P1, alter)
    ensures AllKnown(g, R, done, P, alter) && AllMemOk(g[b].stmts) && KnownReads(P.keys, e, g[b].stmts, alter)
  {
    assert P1.entries[b] == Entry(P.keys, e);
    forall x {:trigger P.entries[x]} | x in R && x in done && x in g && x in P.entries
      ensures AllMemOk(g[x].stmts) && KnownReads(P.entries[x].keys, P.entries[x].val, g[x].stmts, alter)
    {
      assert P1.entries[x] == P.entries[x];
    }
  }

  // ----- Nothing comes back -----

  /** The live statements of the blocks of `R` are no more than those of the graph the pass started from. */
  ghost predicate Shrunk(g: Graph, R: set<Block>, g1: Graph, R1: set<Block>) {
    && R1 <= R && R <= g.Keys && R1 <= g1.Keys
    && forall b {:trigger g1[b]} :: b in R1 ==> |Live(g1[b].stmts)| <= |Live(g[b].stmts)|
  }

  /** What opt_init allots for a graph is enough for every graph it shrinks to. */
  lemma BoundsShrink(g0: Graph, R0: set<Block>, g: Graph, R: set<Block>)
    requires Shrunk(g0, R0, g, R)
    ensures SetLen(R, Bounds(g)) <= SetLen(R0, Bounds(g0))
  {
    assert forall b :: b in R ==> |Live(g[b].stmts)| <= |Live(g0[b].stmts)| by {
      forall b | b in R
        ensures |Live(g[b].stmts)| <= |Live(g0[b].stmts)|
      {
        assert g[b] == g[b];
      }
    }
    SetLenAtMost(R, Bounds(g), Bounds(g0));
    SetLenSubset(R, R0, Bounds(g0));
  }

  lemma {:induction false} SetLenAtMost(s: set<Block>, small: map<Block, nat>, large: map<Block, nat>)
    requires s <= small.Keys && s <= large.Keys && forall b :: b in s ==> small[b] <= large[b]
    ensures SetLen(s, small) <= SetLen(s, large)
    decreases s
  {
    if s != {} {
      var x :| x in s;
      SetLenRemove(s, small, x);
      SetLenRemove(s, large, x);
      SetLenAtMost(s - {x}, small, large);
    }
  }

  /** The pass shrinks the graph. */
  lemma PassShrinks(g: Graph, R: set<Block>, ins: map<Block, seq<Edge>>, P: Pass, alter: bool, g1: Graph)
    requires GraphMemOk(g) && PassInv(g, R, ins, R, P, alter) && Rewritten(g, g1, P.stmts)
    ensures Shrunk(g, R, g1, R) && (!alter ==> g1 == g)
  {
    forall b {:trigger g1[b]} | b in g
      ensures b in R ==> |Live(g1[b].stmts)| <= |Live(g[b].stmts)|
      ensures !alter ==> g1[b] == g[b]
    {
      assert g1[b].stmts == P.stmts[b];
      if b in R {
        DoneFacts(g, R, ins, R, P, alter, b);
        var e := P.entries[b];
        StepsKeys(e.keys, e.val, g[b].stmts, alter);
      }
    }
  }
}
