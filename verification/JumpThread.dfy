/** Jump threading: fold_edge and opt_j. */
module JumpThread {
  import opened Bpf
  import opened Cfg
  import opened Paths
  import opened Liveness
  import opened ValueTable
  import opened Runs
  import opened Symbolic
  import opened ValueFlow

  // ----- Runs as paths -----

  /** The run on `p` from `st` faults nowhere. */
  ghost predicate NonFaulting(g: Graph, root: Block, st: State, p: Packet) {
    forall n {:trigger RunTo(g, root, st, p, n)} :: RunTo(g, root, st, p, n).Some? ==>
        ExecutesAt(g, RunTo(g, root, st, p, n).value, p)
  }

  ghost predicate ExecutesAt(g: Graph, at: At, p: Packet) {
    at.b in g ==> ExecAll(g[at.b].stmts, at.st, p).Some?
  }

  /** The state a block is left with. */
  ghost function ExitAt(g: Graph, at: At, p: Packet): State
    requires at.b in g && ExecAll(g[at.b].stmts, at.st, p).Some?
  {
    ExecAll(g[at.b].stmts, at.st, p).value
  }

  /** The run stands at `at` and leaves it by edge `e`. */
  ghost predicate Leaves(g: Graph, at: At, p: Packet, e: Edge) {
    && at.b == e.pred && at.b in g && ExecAll(g[at.b].stmts, at.st, p).Some?
    && g[at.b].test.code.Jmp? && Taken(g[at.b].test, ExitAt(g, at, p)) == e.sense
  }

  /** The edge a run leaves a block by. */
  lemma LeavesBy(g: Graph, root: Block, st: State, p: Packet, n: nat)
    requires NonFaulting(g, root, st, p) && RunTo(g, root, st, p, n).Some? && RunTo(g, root, st, p, n).value.b in g
    ensures var at := RunTo(g, root, st, p, n).value;
            && ExecAll(g[at.b].stmts, at.st, p).Some? && ExitAt(g, at, p) == ExecAll(g[at.b].stmts, at.st, p).value
            && (g[at.b].test.code.Jmp? ==> Leaves(g, at, p, Edge(at.b, Taken(g[at.b].test, ExitAt(g, at, p)))))
  {
    assert ExecutesAt(g, RunTo(g, root, st, p, n).value, p);
  }

  /** The decisions of the first `n` blocks. */
  ghost function PathOf(g: Graph, root: Block, st: State, p: Packet, n: nat): (ds: seq<bool>)
    requires RunTo(g, root, st, p, n).Some?
    ensures |ds| == n
  {
    if n == 0 then []
    else
      var at := RunTo(g, root, st, p, n - 1).value;
      PathOf(g, root, st, p, n - 1) + [Taken(g[at.b].test, ExitAt(g, at, p))]
  }

  lemma {:induction false} PathLeads(g: Graph, root: Block, st: State, p: Packet, n: nat)
    requires RunTo(g, root, st, p, n).Some?
    ensures Walk(g, root, PathOf(g, root, st, p, n)) == RunTo(g, root, st, p, n).value.b
    decreases n
  {
    if n > 0 {
      PathLeads(g, root, st, p, n - 1);
      var at := RunTo(g, root, st, p, n - 1).value;
      WalkSnoc(g, root, PathOf(g, root, st, p, n - 1), Taken(g[at.b].test, ExitAt(g, at, p)));
    }
  }

  /** An edge on the path was left by the run. */
  lemma {:induction false} PathTakes(g: Graph, root: Block, st: State, p: Packet, n: nat, k: Edge) returns (i: nat)
    requires RunTo(g, root, st, p, n).Some? && Takes(g, root, PathOf(g, root, st, p, n), k)
    ensures i < n && RunTo(g, root, st, p, i).Some? && Leaves(g, RunTo(g, root, st, p, i).value, p, k)
    decreases n
  {
    var at := RunTo(g, root, st, p, n - 1).value;
    var init, s := PathOf(g, root, st, p, n - 1), Taken(g[at.b].test, ExitAt(g, at, p));
    WalkSnoc(g, root, init, s);
    PathLeads(g, root, st, p, n - 1);
    if Takes(g, root, init, k) {
      i := PathTakes(g, root, st, p, n - 1, k);
    } else {
      i := n - 1;
    }
  }

  /** A run that leaves by an edge has left by every edge that dominates it. */
  lemma DominatorLeft(g: Graph, root: Block, st: State, p: Packet, n: nat, ep: Edge, k: Edge) returns (i: nat)
    requires RunTo(g, root, st, p, n).Some? && Leaves(g, RunTo(g, root, st, p, n).value, p, ep)
    requires EdgeDominates(g, root, k, ep)
    ensures i <= n && RunTo(g, root, st, p, i).Some? && Leaves(g, RunTo(g, root, st, p, i).value, p, k)
  {
    var ds := PathOf(g, root, st, p, n);
    PathLeads(g, root, st, p, n);
    WalkSnoc(g, root, ds, ep.sense);
    if Takes(g, root, ds, k) {
      i := PathTakes(g, root, st, p, n, k);
    } else {
      i := n;
    }
  }

  // ----- fold_edge -----

  /** The exit tables as the passes before have left them. */
  datatype Tables = Tables(keys: seq<Key>, vals: map<Block, Vals>, ovals: map<Block, nat>)

  /** They are right for the graph, and no test reads an unknown atom. */
  ghost predicate TablesOk(g: Graph, root: Block, R: set<Block>, t: Tables) {
    && R <= g.Keys && R <= t.vals.Keys && R <= t.ovals.Keys && WellKeyed(t.keys)
    && forall b {:trigger t.vals[b]} :: b in R ==> TableOk(g, root, b, t)
  }

  ghost predicate TableOk(g: Graph, root: Block, b: Block, t: Tables)
    requires b in g && b in t.vals && b in t.ovals && WellKeyed(t.keys)
  {
    && Holds(g, root, b, t.keys, t.vals[b]) && OvalIs(t.keys, g[b].test, t.vals[b], t.ovals[b])
    && (g[b].test.code.Jmp? ==> Clean(t.keys, t.vals[b][A_ATOM]))
    && (g[b].test.code.Jmp? && g[b].test.code.jsrc == X ==> Clean(t.keys, t.vals[b][X_ATOM]))
  }

  /** No test reads an atom whose number is 0. */
  ghost predicate TestsNumbered(g: Graph, R: set<Block>, vals: map<Block, Vals>)
    requires R <= g.Keys && R <= vals.Keys
  {
    forall b {:trigger vals[b]} :: b in R && g[b].test.code.Jmp? ==>
      vals[b][A_ATOM] != 0 && (g[b].test.code.jsrc == X ==> vals[b][X_ATOM] != 0)
  }

  /** The pass with `alter` off leaves right tables when nothing, statement or test, read an atom numbered 0. */
  lemma TablesKnown(g: Graph, rank: map<Block, nat>, root: Block, R: set<Block>, ins: map<Block, seq<Edge>>, P: Pass)
    requires Dag(g, rank) && GraphMemOk(g) && root in g && R == Reach(g, rank, root)
    requires PassInv(g, R, ins, R, P, false) && AllKnown(g, R, R, P, false) && TestsNumbered(g, R, P.vals)
    requires forall b {:trigger P.tests[b]} :: b in R ==> P.tests[b] == g[b].test
    ensures TablesOk(g, root, R, Tables(P.keys, P.vals, P.ovals))
  {
    KnownIsSteady(g, R, ins, P, false);
    forall b {:trigger P.vals[b]} | b in R
      ensures TableOk(g, root, b, Tables(P.keys, P.vals, P.ovals))
    {
      TablesHold(g, rank, root, R, ins, P, false, b);
      DoneFacts(g, R, ins, R, P, false, b);
      assert P.tests[b] == g[b].test;
      assert P.vals[b][A_ATOM] <= |P.keys| && P.vals[b][X_ATOM] <= |P.keys|;
      hide Holds, Clean, PassInv, AllKnown;
    }
  }

  /** fold_edge: the side on which the child must be left when edge (pred, sense) has been taken. */
  function FoldSide(child: Stmt, v0: Vals, o0: nat, pred: Stmt, v1: Vals, o1: nat, sense: bool): Option<bool> {
    if child.code != pred.code then None
    else if v0[A_ATOM] != v1[A_ATOM] then None
    else if o0 == o1 then Some(sense)
    else if sense && child.code == Jmp(JEQ, K) then Some(false)
    else None
  }

  /** The tables say which way `child` goes after an edge out of `pred`: the comparisons are of one kind, A has the same
      number, and so has the operand; or the edge says that A is a constant, and the child asks for another. */
  predicate Settles(child: Stmt, v0: Vals, o0: nat, pred: Stmt, v1: Vals, o1: nat, sense: bool) {
    child.code == pred.code && v0[A_ATOM] == v1[A_ATOM] && (o0 == o1 || (sense && child.code == Jmp(JEQ, K)))
  }

  /** fold_edge decides exactly then, and is right: with equal known numbers the child's test repeats the edge's, and
      two different constants cannot both equal the accumulator. */
  lemma FoldDecides(keys: seq<Key>, p: Packet, child: Stmt, v0: Vals, o0: nat, st0: State, pred: Stmt, v1: Vals,
                    o1: nat, st1: State, sense: bool)
    requires WellKeyed(keys) && child.code.Jmp? && pred.code.Jmp?
    requires Agrees(keys, v0, st0, p) && Agrees(keys, v1, st1, p) && OvalIs(keys, child, v0, o0)
    requires OvalIs(keys, pred, v1, o1)
    requires Clean(keys, v0[A_ATOM]) && (child.code.jsrc == X ==> Clean(keys, v0[X_ATOM]) && Clean(keys, v1[X_ATOM]))
    requires Taken(pred, st1) == sense
    ensures FoldSide(child, v0, o0, pred, v1, o1, sense)
         == if Settles(child, v0, o0, pred, v1, o1, sense) then Some(Taken(child, st0)) else None
  {
    if Settles(child, v0, o0, pred, v1, o1, sense) {
      assert st0[A_ATOM] == st1[A_ATOM];
      if child.code.jsrc == K {
        NumbersApart(keys, ConstKey(child.k), ConstKey(pred.k));
      } else {
        assert o0 == o1 ==> st0[X_ATOM] == st1[X_ATOM];
      }
    }
  }

  /** For two comparisons of A with constants it decides exactly when the way taken fixes the answer. */
  lemma JeqDecided(keys: seq<Key>, child: Stmt, v0: Vals, o0: nat, pred: Stmt, v1: Vals, o1: nat, sense: bool)
    requires WellKeyed(keys) && child.code == pred.code == Jmp(JEQ, K) && v0[A_ATOM] == v1[A_ATOM]
    requires OvalIs(keys, child, v0, o0) && OvalIs(keys, pred, v1, o1)
    ensures FoldSide(child, v0, o0, pred, v1, o1, sense).Some? <==>
              forall st, st' :: Taken(pred, st) == sense && Taken(pred, st') == sense ==>
                Taken(child, st) == Taken(child, st')
  {
    NumbersApart(keys, ConstKey(child.k), ConstKey(pred.k));
    if !sense && child.k != pred.k {
      var other: Word := if child.k != 0 && pred.k != 0 then 0 else if child.k != 1 && pred.k != 1 then 1 else 2;
      var st: State, st' := seq(N_ATOMS, _ => child.k), seq(N_ATOMS, _ => other);
      assert Taken(child, st) && !Taken(pred, st) && !Taken(child, st') && !Taken(pred, st');
    }
  }

  /** On every run that leaves by an edge k and later comes to `child`, the child is left on the
      side fold_edge gives. */
  lemma FoldSound(g: Graph, root: Block, R: set<Block>, t: Tables, child: Block, k: Edge, st: State, p: Packet, i: nat,
                  m: nat)
    requires TablesOk(g, root, R, t) && child in R && k.pred in R && g[child].test.code.Jmp?
    requires FoldSide(g[child].test, t.vals[child], t.ovals[child], g[k.pred].test, t.vals[k.pred], t.ovals[k.pred],
        k.sense).Some?
    requires RunTo(g, root, st, p, i).Some? && Leaves(g, RunTo(g, root, st, p, i).value, p, k)
    requires RunTo(g, root, st, p, m).Some? && RunTo(g, root, st, p, m).value.b == child
    requires ExecutesAt(g, RunTo(g, root, st, p, m).value, p)
    ensures Leaves(g, RunTo(g, root, st, p, m).value, p,
                   Edge(child, FoldSide(g[child].test, t.vals[child], t.ovals[child], g[k.pred].test, t.vals[k.pred],
                       t.ovals[k.pred], k.sense).value))
  {
    var at0, at1 := RunTo(g, root, st, p, m).value, RunTo(g, root, st, p, i).value;
    assert TableOk(g, root, child, t) && TableOk(g, root, k.pred, t);
    assert HoldsAt(g, child, t.keys, t.vals[child], at0.st, p) && HoldsAt(g, k.pred, t.keys, t.vals[k.pred], at1.st, p);
    FoldDecides(t.keys, p, g[child].test, t.vals[child], t.ovals[child], ExitAt(g, at0, p),
                g[k.pred].test, t.vals[k.pred], t.ovals[k.pred], ExitAt(g, at1, p), k.sense);
  }
}
