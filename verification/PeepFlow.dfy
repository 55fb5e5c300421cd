/** opt_peep and opt_deadstores over the whole graph. */
module PeepFlow {
  import opened Bpf
  import opened Cfg
  import opened Atoms
  import opened Runs
  import opened Liveness
  import opened ValueTable
  import opened Symbolic
  import opened ValueFlow
  import opened PeepBlock

  /** `g1` is `g` after opt_peep, with or without opt_deadstores, on its reachable blocks, with the exit tables
      `vals`. */
  ghost predicate Peeped(g: Graph, g1: Graph, rank: map<Block, nat>, R: set<Block>, keys: seq<Key>,
                         vals: map<Block, Vals>)
    requires Dag(g, rank) && GraphMemOk(g)
  {
    && R <= g.Keys && g.Keys == g1.Keys && R <= vals.Keys
    && forall b {:trigger g1[b]} :: b in R ==>
         && Carries(g[b], g1[b], OutUse(g, rank, b), keys, vals[b], Asked(g[b], OutUse(g, rank, b)))
         && (!g[b].test.code.Jmp? ==> g1[b] == g[b]) && (g[b].test.code.Jmp? ==> g1[b].test.code.Jmp?)
  }

  /** The exit tables are right, and return blocks are empty. */
  ghost predicate TablesRight(g: Graph, root: Block, R: set<Block>, keys: seq<Key>, vals: map<Block, Vals>) {
    && R <= g.Keys && R <= vals.Keys && WellKeyed(keys)
    && (forall b {:trigger vals[b]} :: b in R ==> Holds(g, root, b, keys, vals[b]))
    && (forall b {:trigger g[b]} :: b in R && g[b].test.code == Ret ==> g[b].stmts == [])
  }

  /** The indexed-load rule leaves no use of X behind. */
  ghost predicate NoneLate(g: Graph, rank: map<Block, nat>, R: set<Block>)
    requires Dag(g, rank) && GraphMemOk(g)
  {
    forall b {:trigger g[b]} :: b in R && b in g ==> Asked(g[b], OutUse(g, rank, b)).sure
  }

  /** Where the rule for jset #0xffffffff applies, the run leaves the block with a nonzero A. */
  ghost predicate OnesNonzero(g: Graph, rank: map<Block, nat>, root: Block, st: State, p: Packet)
    requires Dag(g, rank) && GraphMemOk(g)
  {
    forall n: nat {:trigger RunTo(g, root, st, p, n)} :: RunTo(g, root, st, p, n).Some? ==>
      OnesNonzeroAt(g, rank, RunTo(g, root, st, p, n).value, p)
  }

  ghost predicate OnesNonzeroAt(g: Graph, rank: map<Block, nat>, at: At, p: Packet)
    requires Dag(g, rank) && GraphMemOk(g)
  {
    at.b in g && AllOnes(g[at.b], OutUse(g, rank, at.b)) && ExecAll(g[at.b].stmts, at.st, p).Some? ==>
      ExecAll(g[at.b].stmts, at.st, p).value[A_ATOM] != 0
  }

  /** What a statement uses, its block uses or defines. */
  lemma {:induction false} UsedOrDefined(ss: seq<Stmt>, k: nat, a: Atom)
    requires AllMemOk(ss) && k < |ss| && MemOk(ss[k]) && a in AtomUse(ss[k])
    ensures a in LocalOf(ss).use || a in LocalOf(ss).def
    decreases |ss|
  {
    var (init, last) := (ss[..|ss| - 1], ss[|ss| - 1]);
    assert last in ss && forall s :: s in init ==> s in ss;
    if k < |init| {
      assert init[k] == ss[k];
      UsedOrDefined(init, k, a);
    }
  }

  /** The registers the branch depends on are left alike by runs that agree on in_use. */
  lemma DecidersAgree(g: Graph, rank: map<Block, nat>, b: Block, st: State, st': State, p: Packet, a: Atom)
    requires Dag(g, rank) && GraphMemOk(g) && b in g && AgreeOn(st, st', InUse(g, rank, b)) && g[b].test.code.Jmp?
    requires ExecAll(g[b].stmts, st, p).Some?
    requires a == A_ATOM || (a == X_ATOM && XMatters(g[b]))
    ensures ExecAll(g[b].stmts, st', p).Some?
    ensures ExecAll(g[b].stmts, st, p).value[a] == ExecAll(g[b].stmts, st', p).value[a]
  {
    var ss, l := g[b].stmts, LocalOf(g[b].stmts);
    assert l.use <= LocalAt(g, b).use;
    ExecAgree(ss, st, st', p, InUse(g, rank, b));
    if a == X_ATOM && g[b].test.code.jsrc != X {
      var k :| 0 <= k < |ss| && ss[k].code == Alu(SUB, X);
      assert ss[k] in ss;
      UsedOrDefined(ss, k, a);
    }
  }

  /** One block: the rewritten block leaves the live atoms, and goes on, as the original does. */
  lemma PeepedBlock(g: Graph, g1: Graph, rank: map<Block, nat>, root: Block, R: set<Block>, keys: seq<Key>,
                    vals: map<Block, Vals>, st: State, p: Packet, n: nat, st': State)
    requires Dag(g, rank) && GraphMemOk(g) && root in g && R == Reach(g, rank, root)
    requires TablesRight(g, root, R, keys, vals) && Peeped(g, g1, rank, R, keys, vals)
    requires NoneLate(g, rank, R) && OnesNonzero(g, rank, root, st, p)
    requires RunTo(g, root, st, p, n).Some? && RunTo(g, root, st, p, n).value.b in R
    requires var at := RunTo(g, root, st, p, n).value;
             AgreeOn(at.st, st', InUse(g, rank, at.b)) && g[at.b].test.code.Jmp?
                 && ExecAll(g[at.b].stmts, at.st, p).Some?
    ensures var at := RunTo(g, root, st, p, n).value;
            && ExecAll(g1[at.b].stmts, st', p).Some? && g1[at.b].test.code.Jmp?
            && AgreeOn(ExecAll(g[at.b].stmts, at.st, p).value, ExecAll(g1[at.b].stmts, st', p).value,
                 OutUse(g, rank, at.b))
            && Next(g[at.b], ExecAll(g[at.b].stmts, at.st, p).value)
                 == Next(g1[at.b], ExecAll(g1[at.b].stmts, st', p).value)
  {
    var at := RunTo(g, root, st, p, n).value;
    var b := at.b;
    BlockAgree(g, rank, b, at.st, st', p);
    DecidersAgree(g, rank, b, at.st, st', p, A_ATOM);
    if XMatters(g[b]) {
      DecidersAgree(g, rank, b, at.st, st', p, X_ATOM);
    }
    var e, e' := ExecAll(g[b].stmts, at.st, p).value, ExecAll(g[b].stmts, st', p).value;
    assert HoldsAt(g, b, keys, vals[b], at.st, p) && OnesNonzeroAt(g, rank, at, p);
    ExitRight(g[b], keys, vals[b], e, e', p);
    assert Carries(g[b], g1[b], OutUse(g, rank, b), keys, vals[b], Asked(g[b], OutUse(g, rank, b))) && g1[b] == g1[b];
    assert Asked(g[b], OutUse(g, rank, b)).sure;
    assert CarriesRun(g[b], g1[b], OutUse(g, rank, b), keys, vals[b], Asked(g[b], OutUse(g, rank, b)), st', p);
    hide Holds, Peeped, TablesRight, OnesNonzero, AllOnes, Reach, Dag, GraphMemOk, Taken, ExitOk, Carries;
  }

  lemma ExitRight(n: Node, keys: seq<Key>, val: Vals, e: State, e': State, p: Packet)
    requires WellKeyed(keys) && Agrees(keys, val, e, p) && e[A_ATOM] == e'[A_ATOM]
    requires (XMatters(n) ==> e[X_ATOM] == e'[X_ATOM])
    ensures ExitOk(n, keys, val, e')
  {
    if Const(keys, val[A_ATOM]) {
      ConstAgrees(keys, val, e, p, A_ATOM);
    }
    if Const(keys, val[X_ATOM]) {
      ConstAgrees(keys, val, e, p, X_ATOM);
    }
  }

  /** opt_peep keeps the verdict of every run that does not fault and leaves a nonzero A where the rule for
      jset #0xffffffff applies, under right exit tables and where no use of X is left behind. */
  lemma {:induction false} PeepKeepsRun(g: Graph, g1: Graph, rank: map<Block, nat>, root: Block, R: set<Block>,
                                        keys: seq<Key>, vals: map<Block, Vals>, st: State, p: Packet, n: nat,
                                        st': State, fuel: nat)
    requires Dag(g, rank) && GraphMemOk(g) && root in g && R == Reach(g, rank, root)
    requires TablesRight(g, root, R, keys, vals) && Peeped(g, g1, rank, R, keys, vals)
    requires NoneLate(g, rank, R) && OnesNonzero(g, rank, root, st, p)
    requires RunTo(g, root, st, p, n).Some? && RunTo(g, root, st, p, n).value.b in g
    requires AgreeOn(RunTo(g, root, st, p, n).value.st, st', InUse(g, rank, RunTo(g, root, st, p, n).value.b))
    requires Run(g, RunTo(g, root, st, p, n).value.b, RunTo(g, root, st, p, n).value.st, p, fuel) != Faulted
    ensures var at := RunTo(g, root, st, p, n).value;
            Run(g1, at.b, st', p, fuel) == Run(g, at.b, at.st, p, fuel)
    decreases fuel
  {
    hide *;
    var at := RunTo(g, root, st, p, n).value;
    RunToReach(g, rank, root, st, p, n);
    PeepedNode(g, g1, rank, root, R, keys, vals, at.b);
    RunUnfold(g, at, p, fuel);
    RunUnfold(g1, At(at.b, st'), p, fuel);
    RunToNext(g, root, st, p, n);
    if fuel > 0 && g[at.b].test.code.Jmp? {
      PeepedBlock(g, g1, rank, root, R, keys, vals, st, p, n, st');
      var e, e' := ExecAll(g[at.b].stmts, at.st, p).value, ExecAll(g1[at.b].stmts, st', p).value;
      NextIs(g[at.b], e);
      NextIs(g1[at.b], e');
      LiveAtSuccessor(g, rank, at.b, e, e');
      PeepKeepsRun(g, g1, rank, root, R, keys, vals, st, p, n + 1, e', fuel - 1);
    }
  }

  lemma NextIs(n: Node, st: State)
    requires n.test.code.Jmp?
    ensures Next(n, st) == Succ(n, Taken(n.test, st))
  {
  }

  lemma PeepedNode(g: Graph, g1: Graph, rank: map<Block, nat>, root: Block, R: set<Block>, keys: seq<Key>,
                   vals: map<Block, Vals>, b: Block)
    requires Dag(g, rank) && GraphMemOk(g) && TablesRight(g, root, R, keys, vals) && Peeped(g, g1, rank, R, keys, vals)
    requires b in R && b in g
    ensures b in g1 && (g[b].test.code.Jmp? || (g[b].test.code == Ret && g1[b] == g[b] && g[b].stmts == []))
    ensures forall st, p :: g[b].stmts == [] ==> ExecAll(g[b].stmts, st, p) == Some(st)
  {
    assert DagNode(g, rank, b);
    assert g1[b] == g1[b];
  }

  /** What is live at the successor taken was live at the exit. */
  lemma LiveAtSuccessor(g: Graph, rank: map<Block, nat>, b: Block, e: State, e': State)
    requires Dag(g, rank) && GraphMemOk(g) && b in g && g[b].test.code.Jmp? && AgreeOn(e, e', OutUse(g, rank, b))
    ensures var c := Succ(g[b], Taken(g[b].test, e));
            c != null && c in g && AgreeOn(e, e', InUse(g, rank, c))
  {
    assert DagNode(g, rank, b);
  }
}
