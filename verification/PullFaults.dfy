/** When the test that is pulled up can fault where it is pulled to. */
module PullFaults {
  import opened Bpf
  import opened Cfg
  import opened Atoms
  import opened LiveStmts
  import opened Paths
  import opened Runs
  import opened Liveness
  import opened ValueTable
  import opened Symbolic
  import opened ValueFlow
  import opened JumpThread
  import opened PullSpec

  // ----- The test that is pulled up repeats a load of the blocks before -----

  /** The usual case: the pulled test is of one field, and its A has the number every block that leads to the
      chain was left with. Then that field is there whenever the run comes to the chain. */
  lemma RepeatedLoad(g: Graph, rank: map<Block, nat>, root: Block, c: Chain, keys: seq<Key>, vals: map<Block, Vals>,
                     ld: Stmt, st: State, p: Packet)
    requires Dag(g, rank) && root in g && ChainIn(g, c) && root !in c.cs && NonFaulting(g, root, st, p)
    requires WellKeyed(keys) && Last(c) in g && Live(g[Last(c)].stmts) == [ld] && ld.code.LdAbs?
    requires Key(ld.code, ld.k, 0) in keys
    requires forall x, s {:trigger Enters(g, x, s, First(c))} :: x in g && Enters(g, x, s, First(c)) ==>
        x in vals && Holds(g, root, x, keys, vals[x])
        && vals[x][A_ATOM] == Number(keys, Key(ld.code, ld.k, 0))
    ensures PullExecutes(g, root, c, st, p)
  {
    ChainEnds(g, rank, c);
    hide Dag, ChainIn;
    forall n: nat {:trigger RunTo(g, root, st, p, n)} |
        RunTo(g, root, st, p, n).Some? && RunTo(g, root, st, p, n).value.b == First(c)
      ensures ExecAll(g[Last(c)].stmts, RunTo(g, root, st, p, n).value.st, p).Some?
    {
      FrontEntered(g, rank, root, c, st, p, n);
      var at := RunTo(g, root, st, p, n - 1).value;
      LoadSucceeds(keys, vals[at.b], ExitAt(g, at, p), p, ld, g[Last(c)].stmts, RunTo(g, root, st, p, n).value.st);
    }
  }

  /** The block the run comes to the front from. */
  lemma FrontEntered(g: Graph, rank: map<Block, nat>, root: Block, c: Chain, st: State, p: Packet, n: nat)
    requires Dag(g, rank) && root in g && c.cs != [] && root !in c.cs && NonFaulting(g, root, st, p)
    requires RunTo(g, root, st, p, n).Some? && RunTo(g, root, st, p, n).value.b == First(c)
    ensures n > 0 && RunTo(g, root, st, p, n - 1).Some?
    ensures var at := RunTo(g, root, st, p, n - 1).value;
            && at.b in g && ExecAll(g[at.b].stmts, at.st, p).Some? && (exists s :: Enters(g, at.b, s, First(c)))
            && forall keys, val | WellKeyed(keys) && Holds(g, root, at.b, keys, val) ::
                 Agrees(keys, val, ExitAt(g, at, p), p)
  {
    assert First(c) in c.cs;
    RunFalls(g, rank, root, st, p, n - 1, n);
    LeavesBy(g, root, st, p, n - 1);
    var at := RunTo(g, root, st, p, n - 1).value;
    assert Enters(g, at.b, Taken(g[at.b].test, ExitAt(g, at, p)), First(c));
  }

  lemma LoadSucceeds(keys: seq<Key>, val: Vals, st: State, p: Packet, ld: Stmt, ss: seq<Stmt>, st1: State)
    requires WellKeyed(keys) && Agrees(keys, val, st, p) && Live(ss) == [ld] && ld.code.LdAbs?
    requires Key(ld.code, ld.k, 0) in keys && val[A_ATOM] == Number(keys, Key(ld.code, ld.k, 0))
    ensures ExecAll(ss, st1, p).Some?
  {
    LiveMeaning(ss, st1, p);
    var key, v := Key(ld.code, ld.k, 0), val[A_ATOM];
    assert 1 <= v <= |keys| && keys[v - 1] == key;
    hide LoadAt, Live;
    assert KeyClean(keys, key, v) && Clean(keys, v);
    assert KeyValue(keys, key, v, p) == LoadAt(p, ld.k, ld.code.size);
    assert Denote(keys, v, p) == KeyValue(keys, key, v, p);
    assert Exec(ld, st1, p).Some?;
  }

  // ----- A test that faults when pulled up -----

  function Returning(k: Word): Node {
    Node([], Stmt(Ret, k), null, null)
  }

  /** Block a loads the length, b tests a constant, and d, which loads the length again, reads a byte before. */
  function FaultGraph(a: Block, b: Block, d: Block, yes: Block, no: Block): Graph {
    map[a := Node([Stmt(LdLen, 0)], Stmt(Jmp(JEQ, K), 0), b, b),
        b := Node([Stmt(LdImm, 1)], Stmt(Jmp(JEQ, K), 1), yes, d),
        d := Node([Stmt(LdxMsh, 0), Stmt(LdLen, 0)], Stmt(Jmp(JEQ, K), 5), yes, no),
        yes := Returning(1), no := Returning(0)]
  }

  function FaultChain(b: Block, d: Block, yes: Block, no: Block): Chain {
    Chain([b, d], false, yes, no)
  }

  ghost predicate Apart(a: Block, b: Block, d: Block, yes: Block, no: Block) {
    a !in {b, d, yes, no} && b !in {d, yes, no} && d !in {yes, no} && yes != no
  }

  function FaultRank(a: Block, b: Block, d: Block, yes: Block, no: Block): map<Block, nat> {
    map[a := 3, b := 2, d := 1, yes := 0, no := 0]
  }

  lemma FaultShape(a: Block, b: Block, d: Block, yes: Block, no: Block)
    requires Apart(a, b, d, yes, no)
    ensures var (g, c, rank) := (FaultGraph(a, b, d, yes, no), FaultChain(b, d, yes, no), FaultRank(a, b, d, yes, no));
            Dag(g, rank) && GraphMemOk(g) && ChainIn(g, c) && a !in c.cs
  {
    var (g, c, rank) := (FaultGraph(a, b, d, yes, no), FaultChain(b, d, yes, no), FaultRank(a, b, d, yes, no));
    forall x {:trigger DagNode(g, rank, x)} | x in g
      ensures DagNode(g, rank, x)
    {
    }
    assert c.cs[0] == b && c.cs[1] == d && Member(g, c, 0) && Member(g, c, 1);
    assert EnteredAlong(g, c, 1);
  }

  /** Neither reads what the other defines, and behind them nothing is read. */
  lemma FaultSeparate(a: Block, b: Block, d: Block, yes: Block, no: Block)
    requires Apart(a, b, d, yes, no)
    ensures var (g, c, rank) := (FaultGraph(a, b, d, yes, no), FaultChain(b, d, yes, no), FaultRank(a, b, d, yes, no));
            Dag(g, rank) && GraphMemOk(g) && ChainIn(g, c) && Separate(g, rank, c)
  {
    FaultShape(a, b, d, yes, no);
    var (g, c, rank) := (FaultGraph(a, b, d, yes, no), FaultChain(b, d, yes, no), FaultRank(a, b, d, yes, no));
    UseNothing(g, rank, yes);
    UseNothing(g, rank, no);
    OneUse(Stmt(LdImm, 1), Stmt(Jmp(JEQ, K), 1));
    var ss := [Stmt(LdxMsh, 0), Stmt(LdLen, 0)];
    TwoUse(ss[0], ss[1], Stmt(Jmp(JEQ, K), 5));
    assert LocalAt(g, b).use == {} && LocalAt(g, d).use == {};
    ChainMembers(g, c);
    assert Member(g, c, 0) && Member(g, c, 1);
    hide Dag, ChainIn, LocalAt, GraphMemOk, FaultGraph;
    assert Independent(g, c.cs);
  }

  lemma OneUse(s: Stmt, test: Stmt)
    requires MemOk(s) && MemOk(test) && AtomUse(s) == {} && AtomDef(s) == Some(A_ATOM)
    requires test.code.Jmp? && AtomUse(test) == {A_ATOM}
    ensures BlockLocal([s], test).use == {}
  {
    assert [s][..0] == [] && s in [s] && LocalOf([]) == Local({}, {}, {});
    assert LocalOf([s]) == Local({A_ATOM}, {}, {A_ATOM});
  }

  lemma TwoUse(s: Stmt, t: Stmt, test: Stmt)
    requires MemOk(s) && MemOk(t) && MemOk(test) && AtomUse(s) == {} && AtomUse(t) == {} && AtomDef(s) == Some(X_ATOM)
    requires AtomDef(t) == Some(A_ATOM) && test.code.Jmp? && AtomUse(test) == {A_ATOM}
    ensures BlockLocal([s, t], test).use == {}
  {
    assert [s, t][..1] == [s] && [s][..0] == [] && s in [s] && LocalOf([]) == Local({}, {}, {});
    assert LocalOf([s]) == Local({X_ATOM}, {}, {X_ATOM});
    assert LocalOf([s, t]) == Local({X_ATOM, A_ATOM}, {}, {X_ATOM, A_ATOM});
  }

  lemma UseNothing(g: Graph, rank: map<Block, nat>, x: Block)
    requires Dag(g, rank) && GraphMemOk(g) && x in g && g[x].stmts == [] && g[x].test.code == Ret && g[x].jt == null
    ensures InUse(g, rank, x) == {}
  {
  }

  /** On an empty packet b accepts before d is come to; with d pulled up, d faults first. */
  lemma PulledFaults(a: Block, b: Block, d: Block, yes: Block, no: Block, st: State)
    requires Apart(a, b, d, yes, no)
    ensures
      var (g, c, rank) := (FaultGraph(a, b, d, yes, no), FaultChain(b, d, yes, no), FaultRank(a, b, d, yes, no));
      && Dag(g, rank) && GraphMemOk(g) && ChainIn(g, c) && Separate(g, rank, c) && a !in c.cs
      && Run(g, a, st, Packet([], 0), 4) == Returned(1) && Run(Pulled(g, c), a, st, Packet([], 0), 4) == Faulted
  {
    FaultShape(a, b, d, yes, no);
    FaultSeparate(a, b, d, yes, no);
    FaultRuns(a, b, d, yes, no, st);
  }

  /** What the three blocks do, one by one. */
  lemma FaultSteps(st: State, p: Packet)
    requires p == Packet([], 0)
    ensures ExecAll([Stmt(LdLen, 0)], st, p) == Some(st[A_ATOM := 0])
    ensures ExecAll([Stmt(LdImm, 1)], st[A_ATOM := 0], p) == Some(st[A_ATOM := 1])
    ensures ExecAll([Stmt(LdxMsh, 0), Stmt(LdLen, 0)], st[A_ATOM := 0], p) == None
  {
    assert st[A_ATOM := 0][A_ATOM := 1] == st[A_ATOM := 1];
  }

  lemma FaultNodes(a: Block, b: Block, d: Block, yes: Block, no: Block)
    requires Apart(a, b, d, yes, no)
    ensures
      var (g, c) := (FaultGraph(a, b, d, yes, no), FaultChain(b, d, yes, no));
      var g1 := Pulled(g, c);
      && a in g && b in g && d in g && g[a] == Node([Stmt(LdLen, 0)], Stmt(Jmp(JEQ, K), 0), b, b)
      && g[b] == Node([Stmt(LdImm, 1)], Stmt(Jmp(JEQ, K), 1), yes, d)
      && yes in g && g[yes] == Returning(1) && g1[a] == g[a].(jt := d, jf := d)
      && g1[d].stmts == g[d].stmts == [Stmt(LdxMsh, 0), Stmt(LdLen, 0)] && g1[d].test == g[d].test
  {
  }

  lemma FaultRuns(a: Block, b: Block, d: Block, yes: Block, no: Block, st: State)
    requires Apart(a, b, d, yes, no)
    ensures
      var (g, c, p) := (FaultGraph(a, b, d, yes, no), FaultChain(b, d, yes, no), Packet([], 0));
      Run(g, a, st, p, 4) == Returned(1) && Run(Pulled(g, c), a, st, p, 4) == Faulted
  {
    var (g, c, p) := (FaultGraph(a, b, d, yes, no), FaultChain(b, d, yes, no), Packet([], 0));
    var g1, s1, s2 := Pulled(g, c), st[A_ATOM := 0], st[A_ATOM := 1];
    FaultNodes(a, b, d, yes, no);
    FaultSteps(st, p);
    NothingRun(s2, p);
    hide ExecAll, Run, Pulled, FaultGraph, FaultChain;
    RunUnfold(g, At(a, st), p, 4);
    RunUnfold(g, At(b, s1), p, 3);
    RunUnfold(g, At(yes, s2), p, 2);
    RunUnfold(g1, At(a, st), p, 4);
    RunUnfold(g1, At(d, s1), p, 3);
  }

  lemma NothingRun(st: State, p: Packet)
    ensures ExecAll([], st, p) == Some(st)
  {
  }
}
