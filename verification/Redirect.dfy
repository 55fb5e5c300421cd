/** opt_j: moving one edge past blocks whose test is already decided. */
module Redirect {
  import opened Bpf
  import opened Cfg
  import opened Atoms
  import opened Paths
  import opened Liveness
  import opened DeadStores
  import opened Runs
  import opened Levels
  import opened Dominators
  import opened EdgeDoms
  import opened ValueTable
  import opened Symbolic
  import opened ValueFlow
  import opened ValuePass
  import opened JumpThread

  // ----- Where the moved edge may point -----

  /** Whenever a run leaves by `ep`, it later comes to `cur`, with the state it left `ep` with but for the
      atoms of `lost`. */
  ghost predicate Threads(g: Graph, root: Block, ep: Edge, cur: Block, lost: set<Atom>) {
    forall st, p, n: nat {:trigger RunTo(g, root, st, p, n)} ::
      NonFaulting(g, root, st, p) && RunTo(g, root, st, p, n).Some?
          && Leaves(g, RunTo(g, root, st, p, n).value, p, ep) ==>
        ComesTo(g, root, st, p, n, cur, lost)
  }

  ghost predicate ComesTo(g: Graph, root: Block, st: State, p: Packet, n: nat, cur: Block, lost: set<Atom>)
    requires RunTo(g, root, st, p, n).Some? && ExecutesAt(g, RunTo(g, root, st, p, n).value, p)
    requires RunTo(g, root, st, p, n).value.b in g
  {
    exists m: nat {:trigger RunTo(g, root, st, p, m)} ::
      n < m && RunTo(g, root, st, p, m).Some? && RunTo(g, root, st, p, m).value.b == cur
      && SameBut(ExitAt(g, RunTo(g, root, st, p, n).value, p), RunTo(g, root, st, p, m).value.st, lost)
  }

  lemma ThreadsStart(g: Graph, root: Block, ep: Edge)
    requires ep.pred in g && Succ(g[ep.pred], ep.sense) != null && Succ(g[ep.pred], ep.sense) in g
    ensures Threads(g, root, ep, Succ(g[ep.pred], ep.sense), {})
  {
    forall st, p, n: nat {:trigger RunTo(g, root, st, p, n)} |
        NonFaulting(g, root, st, p) && RunTo(g, root, st, p, n).Some?
            && Leaves(g, RunTo(g, root, st, p, n).value, p, ep)
      ensures ComesTo(g, root, st, p, n, Succ(g[ep.pred], ep.sense), {})
    {
      assert RunTo(g, root, st, p, n + 1).Some?;
    }
  }

  /** Every run that leaves by `ep` and comes to `c` goes on to `d`. */
  ghost predicate GoesOn(g: Graph, root: Block, ep: Edge, c: Block, d: Block)
  {
    forall st, p, n: nat, m: nat {:trigger RunTo(g, root, st, p, n), RunTo(g, root, st, p, m)} ::
      NonFaulting(g, root, st, p) && RunTo(g, root, st, p, n).Some? && Leaves(g, RunTo(g, root, st, p, n).value, p, ep)
      && RunTo(g, root, st, p, m).Some? && RunTo(g, root, st, p, m).value.b == c ==>
        RunTo(g, root, st, p, m + 1).Some? && RunTo(g, root, st, p, m + 1).value.b == d
  }

  lemma ThreadsStep(g: Graph, root: Block, ep: Edge, c: Block, d: Block, lost: set<Atom>)
    requires GraphMemOk(g) && c in g && Threads(g, root, ep, c, lost) && GoesOn(g, root, ep, c, d)
    ensures Threads(g, root, ep, d, lost + LocalAt(g, c).def)
  {
    forall st, p, n: nat {:trigger RunTo(g, root, st, p, n)} |
        NonFaulting(g, root, st, p) && RunTo(g, root, st, p, n).Some?
            && Leaves(g, RunTo(g, root, st, p, n).value, p, ep)
      ensures ComesTo(g, root, st, p, n, d, lost + LocalAt(g, c).def)
    {
      assert ComesTo(g, root, st, p, n, c, lost);
      var st1 := ExitAt(g, RunTo(g, root, st, p, n).value, p);
      var m: nat :| n < m && RunTo(g, root, st, p, m).Some? && RunTo(g, root, st, p, m).value.b == c
          && SameBut(st1, RunTo(g, root, st, p, m).value.st, lost);
      var at := RunTo(g, root, st, p, m).value;
      assert ExecutesAt(g, at, p);
      PassThrough(g, c, st1, at.st, p, lost);
      assert RunTo(g, root, st, p, m + 1).value == At(d, ExecAll(g[c].stmts, at.st, p).value);
    }
  }

  /** Passing a block changes what it defines only. */
  lemma PassThrough(g: Graph, c: Block, st1: State, st: State, p: Packet, lost: set<Atom>)
    requires GraphMemOk(g) && c in g && SameBut(st1, st, lost) && ExecAll(g[c].stmts, st, p).Some?
    ensures SameBut(st1, ExecAll(g[c].stmts, st, p).value, lost + LocalAt(g, c).def)
  {
    forall a {:trigger st1[a]} | 0 <= a < N_ATOMS && a !in lost + LocalAt(g, c).def
      ensures st1[a] == ExecAll(g[c].stmts, st, p).value[a]
    {
      UndefinedKept(g[c].stmts, st, p, a);
    }
  }

  /** Both sides the same: the run goes there. */
  lemma CommonGoesOn(g: Graph, root: Block, ep: Edge, c: Block, d: Block)
    requires c in g && g[c].test.code.Jmp? && g[c].jt == d && g[c].jf == d
    ensures GoesOn(g, root, ep, c, d)
  {
    forall st, p, n: nat, m: nat {:trigger RunTo(g, root, st, p, n), RunTo(g, root, st, p, m)} |
        NonFaulting(g, root, st, p) && RunTo(g, root, st, p, m).Some? && RunTo(g, root, st, p, m).value.b == c
      ensures RunTo(g, root, st, p, m + 1).Some? && RunTo(g, root, st, p, m + 1).value.b == d
    {
      assert ExecutesAt(g, RunTo(g, root, st, p, m).value, p);
    }
  }

  /** A dominating edge decides the side. */
  lemma FoldGoesOn(g: Graph, root: Block, R: set<Block>, t: Tables, ep: Edge, k: Edge, c: Block, d: Block)
    requires TablesOk(g, root, R, t) && c in R && k.pred in R && g[c].test.code.Jmp? && EdgeDominates(g, root, k, ep)
    requires var side := FoldSide(g[c].test, t.vals[c], t.ovals[c], g[k.pred].test, t.vals[k.pred], t.ovals[k.pred],
        k.sense);
             side.Some? && Succ(g[c], side.value) == d
    ensures GoesOn(g, root, ep, c, d)
  {
    forall st, p, n: nat, m: nat {:trigger RunTo(g, root, st, p, n), RunTo(g, root, st, p, m)} |
        NonFaulting(g, root, st, p) && RunTo(g, root, st, p, n).Some?
            && Leaves(g, RunTo(g, root, st, p, n).value, p, ep)
        && RunTo(g, root, st, p, m).Some? && RunTo(g, root, st, p, m).value.b == c
      ensures RunTo(g, root, st, p, m + 1).Some? && RunTo(g, root, st, p, m + 1).value.b == d
    {
      var i := DominatorLeft(g, root, st, p, n, ep, k);
      assert ExecutesAt(g, RunTo(g, root, st, p, m).value, p);
      FoldSound(g, root, R, t, c, k, st, p, i, m);
    }
  }

  // ----- The graph with the edge moved -----

  ghost function Moved(g: Graph, ep: Edge, d: Block): (g1: Graph)
    requires ep.pred in g
    ensures g1.Keys == g.Keys
  {
    g[ep.pred := if ep.sense then g[ep.pred].(jt := d) else g[ep.pred].(jf := d)]
  }

  lemma MovedDag(g: Graph, rank: map<Block, nat>, ep: Edge, d: Block)
    requires Dag(g, rank) && ep.pred in g && g[ep.pred].test.code.Jmp? && d in g && rank[d] < rank[ep.pred]
    ensures Dag(Moved(g, ep, d), rank)
  {
    var g1 := Moved(g, ep, d);
    forall b {:trigger DagNode(g1, rank, b)} | b in g1
      ensures DagNode(g1, rank, b)
    {
      assert DagNode(g, rank, b);
    }
  }

  /** Below the edge nothing has changed. */
  lemma {:induction false} SameBelow(g: Graph, rank: map<Block, nat>, ep: Edge, d: Block, x: Block, st: State,
                                     p: Packet, fuel: nat)
    requires Dag(g, rank) && ep.pred in g && x in g && rank[x] < rank[ep.pred]
    ensures Run(Moved(g, ep, d), x, st, p, fuel) == Run(g, x, st, p, fuel)
    decreases fuel
  {
    assert DagNode(g, rank, x);
    var st1 := ExecAll(g[x].stmts, st, p);
    if fuel > 0 && st1.Some? && g[x].test.code.Jmp? {
      SameBelow(g, rank, ep, d, Succ(g[x], Taken(g[x].test, st1.value)), st1.value, p, fuel - 1);
    }
  }

  /** What is left of a run is the run from where it stands. */
  lemma {:induction false} RunContinues(g: Graph, root: Block, st: State, p: Packet, n: nat, m: nat, fuel: nat)
    requires n <= m && RunTo(g, root, st, p, n).Some? && RunTo(g, root, st, p, m).Some?
    ensures Run(g, RunTo(g, root, st, p, n).value.b, RunTo(g, root, st, p, n).value.st, p, fuel + (m - n))
         == Run(g, RunTo(g, root, st, p, m).value.b, RunTo(g, root, st, p, m).value.st, p, fuel)
    decreases m - n
  {
    if n < m {
      RunOneBlock(g, root, st, p, m - 1, fuel);
      hide *;
      RunContinues(g, root, st, p, n, m - 1, fuel + 1);
    }
  }

  lemma RunOneBlock(g: Graph, root: Block, st: State, p: Packet, n: nat, fuel: nat)
    requires RunTo(g, root, st, p, n + 1).Some?
    ensures RunTo(g, root, st, p, n).Some?
    ensures Run(g, RunTo(g, root, st, p, n).value.b, RunTo(g, root, st, p, n).value.st, p, fuel + 1)
         == Run(g, RunTo(g, root, st, p, n + 1).value.b, RunTo(g, root, st, p, n + 1).value.st, p, fuel)
  {
    var at := RunTo(g, root, st, p, n).value;
    RunUnfold(g, at, p, fuel + 1);
    hide Run, ExecAll, Taken;
  }

  /** An edge may be moved to `d`: the target itself reads nothing that has been lost on the way, and what is lost
      and still live when it is left has the same known number there and where the edge starts. */
  ghost predicate Lands(g: Graph, rank: map<Block, nat>, t: Tables, ep: Edge, d: Block, lost: set<Atom>)
    requires Dag(g, rank) && GraphMemOk(g) && d in g
  {
    && ep.pred in t.vals && d in t.vals && WellKeyed(t.keys) && LocalAt(g, d).use !! lost
    && forall a :: a in OutUse(g, rank, d) && a in lost ==>
         t.vals[ep.pred][a] == t.vals[d][a] && Clean(t.keys, t.vals[d][a])
  }

  /** Entered with either state, `d` runs alike: the same branch, and exit states that agree on all that is live. */
  lemma LandsAgree(g: Graph, rank: map<Block, nat>, t: Tables, ep: Edge, d: Block, lost: set<Atom>, st1: State,
                   st2: State, p: Packet)
    requires Dag(g, rank) && GraphMemOk(g) && d in g && Lands(g, rank, t, ep, d, lost) && SameBut(st1, st2, lost)
    requires ExecAll(g[d].stmts, st2, p).Some?
    requires Agrees(t.keys, t.vals[ep.pred], st1, p) && Agrees(t.keys, t.vals[d], ExecAll(g[d].stmts, st2, p).value, p)
    ensures ExecAll(g[d].stmts, st1, p).Some?
    ensures AgreeOn(ExecAll(g[d].stmts, st1, p).value, ExecAll(g[d].stmts, st2, p).value, OutUse(g, rank, d))
    ensures g[d].test.code.Jmp? ==>
              Taken(g[d].test, ExecAll(g[d].stmts, st1, p).value) == Taken(g[d].test, ExecAll(g[d].stmts, st2, p).value)
  {
    var ss, l := g[d].stmts, LocalOf(g[d].stmts);
    var Z := KeptAtoms(lost);
    assert l.use <= LocalAt(g, d).use;
    ExecAgree(ss, st1, st2, p, Z);
    var e1, e2 := ExecAll(ss, st1, p).value, ExecAll(ss, st2, p).value;
    forall a {:trigger e1[a]} {:trigger e2[a]} | a in OutUse(g, rank, d)
      ensures e1[a] == e2[a]
    {
      if a in lost && a !in l.def {
        UndefinedKept(ss, st1, p, a);
        assert Denote(t.keys, t.vals[ep.pred][a], p) == Some(st1[a]);
        assert Denote(t.keys, t.vals[d][a], p) == Some(e2[a]);
      }
    }
    if g[d].test.code.Jmp? {
      TakenAgree(g[d].test, e1, e2);
    }
  }

  ghost function KeptAtoms(lost: set<Atom>): (r: set<Atom>)
    ensures forall a: Atom :: a in r <==> a !in lost
  {
    set a: Atom | 0 <= a < N_ATOMS && a !in lost
  }

  /** From `d` on the verdict is the same, entered with either state. */
  lemma LandsRun(g: Graph, rank: map<Block, nat>, root: Block, R: set<Block>, t: Tables, ep: Edge, d: Block,
                 lost: set<Atom>, st: State, p: Packet, n: nat, m: nat, fuel: nat)
    requires Dag(g, rank) && GraphMemOk(g) && d in g && Lands(g, rank, t, ep, d, lost) && TablesOk(g, root, R, t)
    requires d in R && ep.pred in R
    requires NonFaulting(g, root, st, p) && RunTo(g, root, st, p, n).Some?
    requires Leaves(g, RunTo(g, root, st, p, n).value, p, ep)
    requires RunTo(g, root, st, p, m).Some? && RunTo(g, root, st, p, m).value.b == d
    requires SameBut(ExitAt(g, RunTo(g, root, st, p, n).value, p), RunTo(g, root, st, p, m).value.st, lost)
    ensures Run(g, d, ExitAt(g, RunTo(g, root, st, p, n).value, p), p, fuel)
        == Run(g, d, RunTo(g, root, st, p, m).value.st, p, fuel)
  {
    var at1, at2 := RunTo(g, root, st, p, n).value, RunTo(g, root, st, p, m).value;
    var st1 := ExitAt(g, at1, p);
    assert ExecutesAt(g, at2, p);
    assert TableOk(g, root, d, t) && TableOk(g, root, ep.pred, t);
    assert HoldsAt(g, d, t.keys, t.vals[d], at2.st, p) && HoldsAt(g, ep.pred, t.keys, t.vals[ep.pred], at1.st, p);
    LandsAgree(g, rank, t, ep, d, lost, st1, at2.st, p);
    LandsOn(g, rank, d, st1, at2.st, p, fuel);
  }

  /** Two runs of a block that end alike go on alike. */
  lemma LandsOn(g: Graph, rank: map<Block, nat>, d: Block, st1: State, st2: State, p: Packet, fuel: nat)
    requires Dag(g, rank) && GraphMemOk(g) && d in g && ExecAll(g[d].stmts, st1, p).Some?
    requires ExecAll(g[d].stmts, st2, p).Some?
    requires AgreeOn(ExecAll(g[d].stmts, st1, p).value, ExecAll(g[d].stmts, st2, p).value, OutUse(g, rank, d))
    requires g[d].test.code.Jmp? ==>
              Taken(g[d].test, ExecAll(g[d].stmts, st1, p).value) == Taken(g[d].test, ExecAll(g[d].stmts, st2, p).value)
    ensures Run(g, d, st1, p, fuel) == Run(g, d, st2, p, fuel)
  {
    assert DagNode(g, rank, d);
    if fuel > 0 && g[d].test.code.Jmp? {
      var e1, e2 := ExecAll(g[d].stmts, st1, p).value, ExecAll(g[d].stmts, st2, p).value;
      var c := Succ(g[d], Taken(g[d].test, e1));
      assert InUse(g, rank, c) <= OutUse(g, rank, d);
      RunAgree(g, rank, c, e1, e2, p, fuel - 1);
    }
  }

  /** What makes the move to `d` right. */
  ghost predicate MoveOk(g: Graph, rank: map<Block, nat>, root: Block, R: set<Block>, t: Tables, ep: Edge, d: Block,
                         lost: set<Atom>)
    requires Dag(g, rank) && GraphMemOk(g) && d in g
  {
    && Threads(g, root, ep, d, lost) && Lands(g, rank, t, ep, d, lost) && TablesOk(g, root, R, t) && d in R
    && ep.pred in R
    && ep.pred in g && rank[d] < rank[ep.pred]
  }

  /** Where the original run comes to `d`. */
  lemma ComesAt(g: Graph, rank: map<Block, nat>, root: Block, R: set<Block>, t: Tables, ep: Edge, d: Block,
                lost: set<Atom>, st: State, p: Packet, n: nat)
      returns (m: nat)
    requires Dag(g, rank) && GraphMemOk(g) && d in g && MoveOk(g, rank, root, R, t, ep, d, lost)
    requires NonFaulting(g, root, st, p)
    requires RunTo(g, root, st, p, n).Some? && Leaves(g, RunTo(g, root, st, p, n).value, p, ep)
    ensures n < m && RunTo(g, root, st, p, m).Some? && RunTo(g, root, st, p, m).value.b == d
    ensures SameBut(ExitAt(g, RunTo(g, root, st, p, n).value, p), RunTo(g, root, st, p, m).value.st, lost)
    ensures Succ(g[ep.pred], ep.sense) != null && Succ(g[ep.pred], ep.sense) in g
    ensures rank[Succ(g[ep.pred], ep.sense)] < rank[ep.pred]
    ensures RunTo(g, root, st, p, n + 1)
        == Some(At(Succ(g[ep.pred], ep.sense), ExitAt(g, RunTo(g, root, st, p, n).value, p)))
  {
    assert DagNode(g, rank, ep.pred);
    assert ComesTo(g, root, st, p, n, d, lost);
    var st1 := ExitAt(g, RunTo(g, root, st, p, n).value, p);
    m :| n < m && RunTo(g, root, st, p, m).Some? && RunTo(g, root, st, p, m).value.b == d
        && SameBut(st1, RunTo(g, root, st, p, m).value.st, lost);
    hide Lands, Threads, TablesOk, SameBut, Dag;
  }

  lemma MoveParts(g: Graph, rank: map<Block, nat>, root: Block, R: set<Block>, t: Tables, ep: Edge, d: Block,
                  lost: set<Atom>)
    requires Dag(g, rank) && GraphMemOk(g) && d in g && MoveOk(g, rank, root, R, t, ep, d, lost)
    ensures Lands(g, rank, t, ep, d, lost) && TablesOk(g, root, R, t) && d in R && ep.pred in R && ep.pred in g
    ensures rank[d] < rank[ep.pred]
  {
  }

  /** From the moved edge on the verdict is that of the original run. */
  lemma AfterMove(g: Graph, rank: map<Block, nat>, root: Block, R: set<Block>, t: Tables, ep: Edge, d: Block,
                  lost: set<Atom>, st: State, p: Packet, n: nat, fuel: nat)
    requires Dag(g, rank) && GraphMemOk(g) && d in g && MoveOk(g, rank, root, R, t, ep, d, lost)
    requires NonFaulting(g, root, st, p)
    requires RunTo(g, root, st, p, n).Some? && Leaves(g, RunTo(g, root, st, p, n).value, p, ep) && rank[ep.pred] <= fuel
    ensures var st1 := ExitAt(g, RunTo(g, root, st, p, n).value, p);
            Run(Moved(g, ep, d), d, st1, p, fuel) == Run(g, Succ(g[ep.pred], ep.sense), st1, p, fuel)
  {
    hide *;
    MoveParts(g, rank, root, R, t, ep, d, lost);
    var m := ComesAt(g, rank, root, R, t, ep, d, lost, st, p, n);
    var st1, c0 := RunTo(g, root, st, p, n + 1).value.st, Succ(g[ep.pred], ep.sense);
    RunContinues(g, root, st, p, n + 1, m, fuel);
    RunFinishes(g, rank, c0, st1, p, fuel);
    RunMoreFuel(g, c0, st1, p, fuel, fuel + (m - (n + 1)));
    LandsRun(g, rank, root, R, t, ep, d, lost, st, p, n, m, fuel);
    SameBelow(g, rank, ep, d, d, st1, p, fuel);
  }

  lemma MovedNode(g: Graph, rank: map<Block, nat>, ep: Edge, d: Block, b: Block)
    requires Dag(g, rank) && ep.pred in g && b in g
    ensures var g1 := Moved(g, ep, d);
            && b in rank && 0 <= rank[b] && g1[b].stmts == g[b].stmts && g1[b].test == g[b].test
            && (forall s :: Succ(g1[b], s) == if b == ep.pred && s == ep.sense then d else Succ(g[b], s))
    ensures g[b].test.code.Jmp? ==>
              forall s :: Succ(g[b], s) != null && Succ(g[b], s) in g && rank[Succ(g[b], s)] < rank[b]
  {
    assert DagNode(g, rank, b);
  }

  lemma {:induction false} MovedRun(g: Graph, rank: map<Block, nat>, root: Block, R: set<Block>, t: Tables, ep: Edge,
                                    d: Block, lost: set<Atom>, st: State, p: Packet, n: nat, fuel: nat)
    requires Dag(g, rank) && GraphMemOk(g) && root in g && d in g && MoveOk(g, rank, root, R, t, ep, d, lost)
    requires NonFaulting(g, root, st, p)
    requires RunTo(g, root, st, p, n).Some? && RunTo(g, root, st, p, n).value.b in g
    requires rank[RunTo(g, root, st, p, n).value.b] < fuel
    ensures var at := RunTo(g, root, st, p, n).value;
            Run(Moved(g, ep, d), at.b, at.st, p, fuel) == Run(g, at.b, at.st, p, fuel)
    decreases fuel
  {
    hide *;
    var at := RunTo(g, root, st, p, n).value;
    MoveParts(g, rank, root, R, t, ep, d, lost);
    MovedNode(g, rank, ep, d, at.b);
    RunUnfold(g, at, p, fuel);
    RunUnfold(Moved(g, ep, d), at, p, fuel);
    RunToNext(g, root, st, p, n);
    LeavesBy(g, root, st, p, n);
    if g[at.b].test.code.Jmp? {
      var side := Taken(g[at.b].test, ExitAt(g, at, p));
      if at.b == ep.pred && side == ep.sense {
        assert ep == Edge(at.b, side);
        AfterMove(g, rank, root, R, t, ep, d, lost, st, p, n, fuel - 1);
      } else {
        MovedRun(g, rank, root, R, t, ep, d, lost, st, p, n + 1, fuel - 1);
      }
    }
  }

  /** Moving an edge along a thread keeps the verdict of every run that does not fault. */
  lemma MovedKeeps(g: Graph, rank: map<Block, nat>, root: Block, R: set<Block>, t: Tables, ep: Edge, d: Block,
                   lost: set<Atom>, st: State, p: Packet, fuel: nat)
    requires Dag(g, rank) && GraphMemOk(g) && root in g && d in g && MoveOk(g, rank, root, R, t, ep, d, lost)
    requires NonFaulting(g, root, st, p)
    requires rank[root] < fuel
    ensures Run(Moved(g, ep, d), root, st, p, fuel) == Run(g, root, st, p, fuel)
  {
    assert RunTo(g, root, st, p, 0) == Some(At(root, st));
    MovedRun(g, rank, root, R, t, ep, d, lost, st, p, 0, fuel);
  }

  // ----- The passes' methods -----

  /** use_conflict: some atom live at the exit of `succ` has another exit number in `b`. */
  method UseConflict(b: Block, succ: Block) returns (r: bool)
    ensures r <==> Conflict(b, succ)
  {
    for atom := 0 to N_ATOMS
      invariant forall a: Atom :: a < atom && a in succ.outUse ==> b.val[a] == succ.val[a]
    {
      if atom in succ.outUse && b.val[atom] != succ.val[atom] {
        return true;
      }
    }
    return false;
  }

  /** fold_edge; null stands for "undecided". */
  method FoldEdge(child: Block, ep: Edge) returns (target: Block?)
    ensures match FoldSide(child.s, child.val, child.oval, ep.pred.s, ep.pred.val, ep.pred.oval, ep.sense)
            case None => target == null
            case Some(side) => target == if side then child.jt else child.jf
  {
    var sense := ep.sense;
    if child.s.code != ep.pred.s.code {
      return null;
    }
    if child.val[A_ATOM] != ep.pred.val[A_ATOM] {
      return null;
    }
    if child.oval == ep.pred.oval {
      return if sense then child.jt else child.jf;
    }
    if sense && child.s.code == Jmp(JEQ, K) {
      return child.jf;
    }
    return null;
  }

  /** Some atom live at the exit of `d` has another exit number in `b`. */
  ghost predicate Conflict(b: Block, d: Block)
    reads b`val, d`val, d`outUse
  {
    exists a: Atom :: a in d.outUse && b.val[a] != d.val[a]
  }

  /** Edge `k` gives no reason to go on from `cur`: the tables do not settle the test, or the side they say leads to a
      block with a conflict. */
  ghost predicate Stopped(b: Block, cur: Block, k: Edge)
    reads b`val, cur, k.pred, {cur.jt, cur.jf}
  {
    Settles(cur.s, cur.val, cur.oval, k.pred.s, k.pred.val, k.pred.oval, k.sense) ==>
      BarredTo(b, if k.sense && cur.oval == k.pred.oval then cur.jt else cur.jf)
  }

  ghost predicate BarredTo(b: Block, d: Block?)
    reads b`val, {d}
  {
    d == null || Conflict(b, d)
  }

  /** edges[k]. */
  function EdgeAt(blocks: seq<Block>, k: nat): Edge
    requires k < 2 * |blocks|
  {
    if k < |blocks| then Edge(blocks[k], true) else Edge(blocks[k - |blocks|], false)
  }

  /** The edge dominators opt_j walks: numbers of edges of reachable blocks that dominate `ep`. */
  ghost predicate EdomOk(g: Graph, root: Block, R: set<Block>, blocks: seq<Block>, ep: Edge, edom: set<nat>) {
    forall k {:trigger k in edom} :: k in edom ==>
      k < 2 * |blocks| && EdgeAt(blocks, k).pred in R && EdgeDominates(g, root, EdgeAt(blocks, k), ep)
  }

  ghost predicate OptReady(S: set<Block>, g: Graph, rank: map<Block, nat>, root: Block, t: Tables)
    reads S`val, S`oval
  {
    && Dag(g, rank) && GraphMemOk(g) && root in g && g.Keys == S
    && TablesOk(g, root, Reach(g, rank, root), t) && t.vals.Keys == S == t.ovals.Keys
    && forall b :: b in S ==> t.vals[b] == b.val && t.ovals[b] == b.oval
  }

  /** The blocks the edge has led to: each a successor of the one before. */
  ghost predicate Trail(g: Graph, path: seq<Block>) {
    path != [] && forall i {:trigger path[i]} :: 0 <= i < |path| - 1 ==>
        path[i] in g && (path[i + 1] == g[path[i]].jt || path[i + 1] == g[path[i]].jf)
  }

  /** What the blocks passed define. */
  ghost function Skipped(g: Graph, path: seq<Block>): set<Atom>
    requires GraphMemOk(g)
    decreases |path|
  {
    if |path| <= 1 then {}
    else Skipped(g, path[..|path| - 1]) + if path[|path| - 2] in g then LocalAt(g, path[|path| - 2]).def else {}
  }

  /** The edge may stand at the end of `path`, as far as the order of the blocks goes, and threads to there. */
  ghost predicate Stands(g: Graph, rank: map<Block, nat>, root: Block, ep: Edge, cur: Block, path: seq<Block>)
    requires Dag(g, rank) && GraphMemOk(g) && root in g
  {
    && Trail(g, path) && path[|path| - 1] == cur
    && ep.pred in Reach(g, rank, root) && cur in Reach(g, rank, root) && rank[cur] < rank[ep.pred]
    && Threads(g, root, ep, cur, Skipped(g, path))
  }

  /** use_conflict has stood against none of the moves. */
  ghost predicate Clear(b: Block, path: seq<Block>)
    reads b`val, path`val, path`outUse
  {
    forall i {:trigger path[i]} :: 1 <= i < |path| ==> !Conflict(b, path[i])
  }

  /** The state of opt_j between two moves. */
  ghost predicate EdgeStands(S: set<Block>, g: Graph, rank: map<Block, nat>, root: Block, t: Tables, ep: Edge,
                             cur: Block, path: seq<Block>)
    reads S`stmts, S`s, S`jt, S`jf, S`val, S`oval, path`val, path`outUse
    ensures EdgeStands(S, g, rank, root, t, ep, cur, path) ==>
              path != [] && path[|path| - 1] == cur && cur in g && cur in rank
  {
    && OptReady(S, g, rank, root, t) && ep.pred in g && GraphOf(S) == Moved(g, ep, cur)
    && Stands(g, rank, root, ep, cur, path)
    && ep.pred in S && cur in S && Clear(ep.pred, path)
  }

  lemma Below(g: Graph, rank: map<Block, nat>, root: Block, c: Block, d: Block)
    requires Dag(g, rank) && root in g && c in Reach(g, rank, root) && c in g && (d == g[c].jt || d == g[c].jf)
    ensures d in Reach(g, rank, root) && rank[d] < rank[c]
  {
    assert DagNode(g, rank, c);
    ReachClosed(g, rank, root, c);
    assert d in Reach(g, rank, c);
  }

  lemma SkippedSnoc(g: Graph, path: seq<Block>, d: Block)
    requires GraphMemOk(g) && Trail(g, path) && path[|path| - 1] in g && d in g
    requires d == g[path[|path| - 1]].jt || d == g[path[|path| - 1]].jf
    ensures Trail(g, path + [d]) && Skipped(g, path + [d]) == Skipped(g, path) + LocalAt(g, path[|path| - 1]).def
  {
    var more := path + [d];
    assert more[..|more| - 1] == path && more[|more| - 2] == path[|path| - 1];
    SkippedLast(g, more);
    hide Skipped, LocalAt, GraphMemOk;
    forall i {:trigger more[i]} | 0 <= i < |more| - 1
      ensures more[i] in g && (more[i + 1] == g[more[i]].jt || more[i + 1] == g[more[i]].jf)
    {
      assert more[i] == path[i];
      if i + 1 < |path| {
        assert more[i + 1] == path[i + 1];
      }
    }
  }

  lemma SkippedLast(g: Graph, path: seq<Block>)
    requires GraphMemOk(g) && |path| >= 2 && path[|path| - 2] in g
    ensures Skipped(g, path) == Skipped(g, path[..|path| - 1]) + LocalAt(g, path[|path| - 2]).def
  {
    hide LocalAt, GraphMemOk;
  }

  lemma MovedTwice(g: Graph, ep: Edge, c: Block, d: Block)
    requires ep.pred in g
    ensures Moved(Moved(g, ep, c), ep, d) == Moved(g, ep, d)
  {
  }

  /** Moving on from `cur` to `d`. */
  lemma StandsStep(g: Graph, rank: map<Block, nat>, root: Block, ep: Edge, cur: Block, d: Block, path: seq<Block>)
    requires Dag(g, rank) && GraphMemOk(g) && root in g && Stands(g, rank, root, ep, cur, path) && cur in g
    requires ep.pred in g
    requires d in g && (d == g[cur].jt || d == g[cur].jf) && GoesOn(g, root, ep, cur, d)
    ensures Stands(g, rank, root, ep, d, path + [d]) && rank[d] < rank[cur]
  {
    Below(g, rank, root, cur, d);
    hide Threads, GoesOn, Reach, Dag, Trail, Skipped, GraphMemOk;
    ThreadsStep(g, root, ep, cur, d, Skipped(g, path));
    SkippedSnoc(g, path, d);
  }

  /** ep->succ = target. */
  method SetSucc(b: Block, sense: bool, d: Block, ghost S: set<Block>, ghost g: Graph, ghost rank: map<Block, nat>,
                 ghost root: Block, ghost t: Tables)
    requires b in S && OptReady(S, g, rank, root, t)
    modifies b`jt, b`jf
    ensures GraphOf(S) == Moved(old(GraphOf(S)), Edge(b, sense), d) && OptReady(S, g, rank, root, t)
  {
    hide OptReady;
    if sense {
      b.jt := d;
    } else {
      b.jf := d;
    }
  }

  method MoveEdge(b: Block, sense: bool, d: Block, ghost cur: Block, ghost S: set<Block>, ghost g: Graph,
                  ghost rank: map<Block, nat>, ghost root: Block, ghost t: Tables, ghost path: seq<Block>)
    requires b in S && EdgeStands(S, g, rank, root, t, Edge(b, sense), cur, path) && cur in g
    requires d in g && (d == g[cur].jt || d == g[cur].jf) && GoesOn(g, root, Edge(b, sense), cur, d)
    requires !Conflict(b, d)
    modifies b`jt, b`jf
    ensures EdgeStands(S, g, rank, root, t, Edge(b, sense), d, path + [d]) && d in rank && cur in rank
    ensures rank[d] < rank[cur]
  {
    hide *;
    StandsParts(S, g, rank, root, t, Edge(b, sense), cur, path);
    StandsStep(g, rank, root, Edge(b, sense), cur, d, path);
    MovedTwice(g, Edge(b, sense), cur, d);
    ClearOn(S, g, rank, root, t, Edge(b, sense), cur, path, d);
    SetSucc(b, sense, d, S, g, rank, root, t);
    StandsWhole(S, g, rank, root, t, Edge(b, sense), d, path + [d]);
  }

  lemma StandsParts(S: set<Block>, g: Graph, rank: map<Block, nat>, root: Block, t: Tables, ep: Edge, cur: Block,
                    path: seq<Block>)
    requires EdgeStands(S, g, rank, root, t, ep, cur, path)
    ensures Dag(g, rank) && GraphMemOk(g) && root in g && g.Keys == S && OptReady(S, g, rank, root, t) && ep.pred in g
    ensures cur in g && cur in rank
    ensures GraphOf(S) == Moved(g, ep, cur) && Stands(g, rank, root, ep, cur, path)
  {
    hide Stands, TablesOk;
  }

  lemma StandsWhole(S: set<Block>, g: Graph, rank: map<Block, nat>, root: Block, t: Tables, ep: Edge, cur: Block,
                    path: seq<Block>)
    requires Dag(g, rank) && GraphMemOk(g) && root in g && OptReady(S, g, rank, root, t) && ep.pred in g && cur in g
    requires GraphOf(S) == Moved(g, ep, cur) && Stands(g, rank, root, ep, cur, path) && Clear(ep.pred, path)
    ensures EdgeStands(S, g, rank, root, t, ep, cur, path) && cur in rank
  {
    hide TablesOk, Threads;
  }

  /** What the graph on the heap says about the block the edge stands at. */
  lemma ReadCur(S: set<Block>, g: Graph, rank: map<Block, nat>, root: Block, t: Tables, ep: Edge, cur: Block,
                path: seq<Block>)
    requires EdgeStands(S, g, rank, root, t, ep, cur, path)
    ensures cur in g && cur in S && g[cur] == NodeOf(cur) && cur in Reach(g, rank, root) && cur in t.vals
    ensures cur in t.ovals
    ensures t.vals[cur] == cur.val && t.ovals[cur] == cur.oval
    ensures cur.jt != null ==> cur.jf != null && cur.jt in g && cur.jf in g && g[cur].test.code.Jmp?
    ensures cur.jt == null ==> cur.jf == null && g[cur].test.code == Ret
  {
    assert DagNode(g, rank, cur);
    assert GraphOf(S)[cur] == NodeOf(cur);
  }

  lemma ReadPred(S: set<Block>, g: Graph, rank: map<Block, nat>, root: Block, t: Tables, ep: Edge, cur: Block,
                 path: seq<Block>, x: Block)
    requires EdgeStands(S, g, rank, root, t, ep, cur, path) && x in Reach(g, rank, root)
    ensures x in g && g[x].test == x.s && x in t.vals && x in t.ovals && t.vals[x] == x.val && t.ovals[x] == x.oval
  {
    assert GraphOf(S)[x] == NodeOf(x);
  }

  /** One edge of the dominator set, tried at the block the edge stands at. */
  method TryEdge(b: Block, sense: bool, k: Edge, cur: Block, ghost S: set<Block>, ghost g: Graph,
                 ghost rank: map<Block, nat>, ghost root: Block, ghost t: Tables, ghost path: seq<Block>)
      returns (next: Block?)
    requires b in S && EdgeStands(S, g, rank, root, t, Edge(b, sense), cur, path)
    requires k.pred in Reach(g, rank, root) && EdgeDominates(g, root, k, Edge(b, sense))
    modifies b`jt, b`jf
    ensures next == null ==> EdgeStands(S, g, rank, root, t, Edge(b, sense), cur, path)
    ensures next != null ==> EdgeStands(S, g, rank, root, t, Edge(b, sense), next, path + [next]) && next in rank
    ensures next != null ==> cur in rank && rank[next] < rank[cur]
    ensures next == null ==> b.jt == old(b.jt) && b.jf == old(b.jf) && Stopped(b, cur, k)
  {
    hide *;
    next := null;
    var target := FoldEdge(cur, k);
    if target != null {
      var conflict := UseConflict(b, target);
      if !conflict {
        MayGoOn(S, g, rank, root, t, Edge(b, sense), k, cur, target, path);
        MoveEdge(b, sense, target, cur, S, g, rank, root, t, path);
        next := target;
        return;
      }
    }
    IsStopped(b, cur, k, target);
  }

  lemma IsStopped(b: Block, cur: Block, k: Edge, target: Block?)
    requires match FoldSide(cur.s, cur.val, cur.oval, k.pred.s, k.pred.val, k.pred.oval, k.sense)
             case None => target == null
             case Some(side) => target == if side then cur.jt else cur.jf
    requires target != null ==> Conflict(b, target)
    ensures Stopped(b, cur, k)
  {
    hide Conflict;
  }

  lemma ClearOn(S: set<Block>, g: Graph, rank: map<Block, nat>, root: Block, t: Tables, ep: Edge, cur: Block,
                path: seq<Block>, d: Block)
    requires EdgeStands(S, g, rank, root, t, ep, cur, path) && !Conflict(ep.pred, d)
    ensures Clear(ep.pred, path + [d])
  {
    hide Conflict, OptReady, Stands;
  }

  lemma MayGoOn(S: set<Block>, g: Graph, rank: map<Block, nat>, root: Block, t: Tables, ep: Edge, k: Edge, c: Block,
                d: Block, path: seq<Block>)
    requires EdgeStands(S, g, rank, root, t, ep, c, path) && k.pred in Reach(g, rank, root)
    requires EdgeDominates(g, root, k, ep)
    requires match FoldSide(c.s, c.val, c.oval, k.pred.s, k.pred.val, k.pred.oval, k.sense)
             case None => false
             case Some(side) => d == if side then c.jt else c.jf
    ensures c in g && d in g && (d == g[c].jt || d == g[c].jf) && GoesOn(g, root, ep, c, d)
  {
    ReadCur(S, g, rank, root, t, ep, c, path);
    ReadPred(S, g, rank, root, t, ep, c, path, k.pred);
    FoldGoesOn(g, root, Reach(g, rank, root), t, ep, k, c, d);
  }

  /** None of the first n edges of the set gives a reason to go on from `cur`. */
  ghost predicate AllStopped(b: Block, cur: Block, blocks: seq<Block>, edom: set<nat>, n: nat)
    reads b`val, cur, blocks, {cur.jt, cur.jf}
  {
    forall k {:trigger k in edom} :: 0 <= k < n <= 2 * |blocks| && k in edom ==> Stopped(b, cur, EdgeAt(blocks, k))
  }

  lemma EdomAt(g: Graph, root: Block, R: set<Block>, blocks: seq<Block>, ep: Edge, edom: set<nat>, k: nat)
    requires EdomOk(g, root, R, blocks, ep, edom) && k in edom
    ensures k < 2 * |blocks| && EdgeAt(blocks, k).pred in R && EdgeDominates(g, root, EdgeAt(blocks, k), ep)
  {
  }

  lemma NoneStopped(b: Block, cur: Block, blocks: seq<Block>, edom: set<nat>)
    ensures AllStopped(b, cur, blocks, edom, 0)
  {
  }

  lemma OneMoreStopped(b: Block, cur: Block, blocks: seq<Block>, edom: set<nat>, n: nat)
    requires AllStopped(b, cur, blocks, edom, n) && n < 2 * |blocks|
    requires n in edom ==> Stopped(b, cur, EdgeAt(blocks, n))
    ensures AllStopped(b, cur, blocks, edom, n + 1)
  {
    hide Stopped;
  }

  /** The walk over the set of edge dominators. */
  method TryEdges(b: Block, sense: bool, edom: set<nat>, blocks: seq<Block>, cur: Block, ghost S: set<Block>,
                  ghost g: Graph, ghost rank: map<Block, nat>, ghost root: Block, ghost t: Tables,
                  ghost path: seq<Block>)
      returns (next: Block?)
    requires b in S && EdgeStands(S, g, rank, root, t, Edge(b, sense), cur, path)
    requires EdomOk(g, root, Reach(g, rank, root), blocks, Edge(b, sense), edom)
    modifies b`jt, b`jf
    ensures next == null ==> EdgeStands(S, g, rank, root, t, Edge(b, sense), cur, path)
    ensures next != null ==> EdgeStands(S, g, rank, root, t, Edge(b, sense), next, path + [next]) && next in rank
    ensures next != null ==> cur in rank && rank[next] < rank[cur]
    ensures next == null ==> AllStopped(b, cur, blocks, edom, 2 * |blocks|)
  {
    hide *;
    next := null;
    NoneStopped(b, cur, blocks, edom);
    for k := 0 to 2 * |blocks|
      invariant EdgeStands(S, g, rank, root, t, Edge(b, sense), cur, path) && next == null
      invariant AllStopped(b, cur, blocks, edom, k) && b.jt == old(b.jt) && b.jf == old(b.jf)
    {
      if k in edom {
        StandsParts(S, g, rank, root, t, Edge(b, sense), cur, path);
        EdomAt(g, root, Reach(g, rank, root), blocks, Edge(b, sense), edom, k);
        next := TryEdge(b, sense, EdgeAt(blocks, k), cur, S, g, rank, root, t, path);
        if next != null {
          return;
        }
      }
      OneMoreStopped(b, cur, blocks, edom, k);
    }
  }

  /** The two sides of `c` are the same block, which has no conflict with b. */
  ghost predicate Passable(b: Block, c: Block)
    reads b`val, c`jt, c`jf, {c.jt}
  {
    c.jt != null && c.jt == c.jf && !Conflict(b, c.jt)
  }

  lemma NotPassable(b: Block, c: Block)
    requires c.jt == null || c.jt != c.jf || Conflict(b, c.jt)
    ensures !Passable(b, c)
  {
    hide Conflict;
  }

  /** The promotion past a block whose two sides are the same. */
  method PassCommon(b: Block, sense: bool, cur: Block, ghost S: set<Block>, ghost g: Graph, ghost rank: map<Block, nat>,
                    ghost root: Block, ghost t: Tables, ghost path: seq<Block>)
      returns (next: Block, ghost path': seq<Block>)
    requires b in S && EdgeStands(S, g, rank, root, t, Edge(b, sense), cur, path)
    modifies b`jt, b`jf
    ensures EdgeStands(S, g, rank, root, t, Edge(b, sense), next, path') && path <= path'
    ensures old(Passable(b, cur)) ==> |path'| > |path|
  {
    hide *;
    next, path' := cur, path;
    ReadCur(S, g, rank, root, t, Edge(b, sense), cur, path);
    if cur.jt != null && cur.jt == cur.jf {
      var target := cur.jt;
      var conflict := UseConflict(b, target);
      if !conflict {
        ReadNode(g, cur);
        CommonGoesOn(g, root, Edge(b, sense), cur, target);
        path' := path + [target];
        MoveEdge(b, sense, target, cur, S, g, rank, root, t, path);
        next := target;
        return;
      }
    }
    NotPassable(b, cur);
  }

  lemma ReadNode(g: Graph, b: Block)
    requires b in g && g[b] == NodeOf(b)
    ensures g[b].jt == b.jt && g[b].jf == b.jf
  {
  }

  /** The restart loop. */
  method Promote(b: Block, sense: bool, edom: set<nat>, blocks: seq<Block>, start: Block, ghost S: set<Block>,
                 ghost g: Graph, ghost rank: map<Block, nat>, ghost root: Block, ghost t: Tables,
                 ghost path0: seq<Block>)
      returns (target: Block, ghost path: seq<Block>)
    requires b in S && EdgeStands(S, g, rank, root, t, Edge(b, sense), start, path0)
    requires EdomOk(g, root, Reach(g, rank, root), blocks, Edge(b, sense), edom)
    modifies b`jt, b`jf
    ensures EdgeStands(S, g, rank, root, t, Edge(b, sense), target, path) && path0 <= path
    ensures target.jt == null || AllStopped(b, target, blocks, edom, 2 * |blocks|)
  {
    hide *;
    target, path := start, path0;
    while true
      invariant EdgeStands(S, g, rank, root, t, Edge(b, sense), target, path) && path0 <= path
      decreases rank[target]
    {
      var next := TryEdges(b, sense, edom, blocks, target, S, g, rank, root, t, path);
      if next == null {
        return;
      }
      target, path := next, path + [next];
      if target.jt == null {
        return;
      }
    }
  }

  /** opt_j on edge (b, sense). The edge is moved along `path`, on which every run that leaves by it goes, through
      reachable blocks that have no conflict with b; past the first one if both its sides are the same, and then as far
      as the edge dominators decide the way: it stops at a return, or where none of them leads on (Stopped). When that
      keeps the verdicts is OptJSound. */
  method OptJ(b: Block, sense: bool, blocks: seq<Block>, ghost S: set<Block>, ghost g: Graph,
              ghost rank: map<Block, nat>, ghost root: Block, ghost t: Tables)
      returns (ghost path: seq<Block>)
    requires b in S && g == GraphOf(S) && OptReady(S, g, rank, root, t)
    requires b in Reach(g, rank, root) && b.jt != null && b.jf != null
    requires EdomOk(g, root, Reach(g, rank, root), blocks, Edge(b, sense), if sense then b.etDom else b.efDom)
    modifies b`jt, b`jf
    ensures path != [] && path[0] == old(if sense then b.jt else b.jf)
    ensures old(Passable(b, if sense then b.jt else b.jf)) ==> |path| > 1
    ensures EdgeStands(S, g, rank, root, t, Edge(b, sense), path[|path| - 1], path)
    ensures path[|path| - 1].jt == null
            || AllStopped(b, path[|path| - 1], blocks, if sense then b.etDom else b.efDom, 2 * |blocks|)
  {
    hide *;
    var cur: Block := if sense then b.jt else b.jf;
    path := [cur];
    StartStands(S, g, rank, root, t, b, sense);
    var edom := if sense then b.etDom else b.efDom;
    if cur.jt == null {
      NotPassable(b, cur);
      return;
    }
    ghost var path0 := path;
    cur, path := PassCommon(b, sense, cur, S, g, rank, root, t, path);
    cur, path := Promote(b, sense, edom, blocks, cur, S, g, rank, root, t, path);
    assert path0 <= path && path[0] == path0[0];
  }

  lemma StartStands(S: set<Block>, g: Graph, rank: map<Block, nat>, root: Block, t: Tables, b: Block, sense: bool)
    requires b in S && g == GraphOf(S) && OptReady(S, g, rank, root, t) && b in Reach(g, rank, root) && b.jt != null
    requires b.jf != null
    ensures var start := if sense then b.jt else b.jf;
            EdgeStands(S, g, rank, root, t, Edge(b, sense), start, [start])
  {
    var start := if sense then b.jt else b.jf;
    assert g[b] == NodeOf(b);
    assert DagNode(g, rank, b);
    Below(g, rank, root, b, start);
    assert start in g;
    ThreadsStart(g, root, Edge(b, sense));
    assert Moved(g, Edge(b, sense), start) == g;
  }

  /** What OptJ's result means: the graph stays acyclic, and every run that does not fault gets its verdict from the
      new graph too, if the last block reads nothing that the blocks passed define, its out_use set is right,
      and what they define that is live when it is left has a known number. */
  lemma OptJSound(S: set<Block>, g: Graph, rank: map<Block, nat>, root: Block, t: Tables, ep: Edge, target: Block,
                  path: seq<Block>)
    requires EdgeStands(S, g, rank, root, t, ep, target, path) && g[ep.pred].test.code.Jmp?
    ensures Dag(GraphOf(S), rank)
    ensures LocalAt(g, target).use !! Skipped(g, path) && OutUse(g, rank, target) <= target.outUse
            && (forall a: Atom :: a in OutUse(g, rank, target) && a in Skipped(g, path) ==>
                 Clean(t.keys, target.val[a])) ==>
              forall st, p, fuel: nat :: NonFaulting(g, root, st, p) && rank[root] < fuel ==>
                Run(GraphOf(S), root, st, p, fuel) == Run(g, root, st, p, fuel)
  {
    ReadCur(S, g, rank, root, t, ep, target, path);
    ReadPred(S, g, rank, root, t, ep, target, path, ep.pred);
    MovedDag(g, rank, ep, target);
    var lost, R := Skipped(g, path), Reach(g, rank, root);
    if LocalAt(g, target).use !! lost && OutUse(g, rank, target) <= target.outUse
       && (forall a: Atom :: a in OutUse(g, rank, target) && a in lost ==> Clean(t.keys, target.val[a])) {
      NothingLost(g, path);
      assert MoveOk(g, rank, root, R, t, ep, target, lost);
      forall st, p, fuel: nat | NonFaulting(g, root, st, p) && rank[root] < fuel
        ensures Run(GraphOf(S), root, st, p, fuel) == Run(g, root, st, p, fuel)
      {
        MovedKeeps(g, rank, root, R, t, ep, target, lost, st, p, fuel);
      }
    }
  }

  /** What one reachable block reads before it defines it, no reachable block defines. */
  ghost predicate Unmixed(g: Graph, R: set<Block>)
    requires GraphMemOk(g)
  {
    forall b, c {:trigger LocalAt(g, b), LocalAt(g, c)} :: b in R && c in R && b in g && c in g ==>
      LocalAt(g, b).use !! LocalAt(g, c).def
  }

  lemma {:induction false} LiveIsRead(g: Graph, rank: map<Block, nat>, b: Block, a: Atom) returns (c: Block)
    requires Dag(g, rank) && GraphMemOk(g) && b in g && a in InUse(g, rank, b)
    ensures c in g && c in Reach(g, rank, b) && a in LocalAt(g, c).use
    decreases rank[b]
  {
    hide LocalAt, GraphMemOk;
    assert DagNode(g, rank, b);
    if a in LocalAt(g, b).use {
      c := b;
    } else if a in InUse(g, rank, g[b].jt) {
      c := LiveIsRead(g, rank, g[b].jt, a);
    } else {
      c := LiveIsRead(g, rank, g[b].jf, a);
    }
  }

  /** The blocks passed are reachable. */
  lemma {:induction false} TrailReached(g: Graph, rank: map<Block, nat>, root: Block, path: seq<Block>, k: nat)
    requires Dag(g, rank) && root in g && Trail(g, path) && path[0] in Reach(g, rank, root) && k < |path|
    ensures path[k] in Reach(g, rank, root) && path[k] in g
    decreases k
  {
    if k > 0 {
      TrailReached(g, rank, root, path, k - 1);
      assert path[k - 1] in g && (path[k] == g[path[k - 1]].jt || path[k] == g[path[k - 1]].jf);
      Below(g, rank, root, path[k - 1], path[k]);
    }
    ReachClosed(g, rank, root, path[k]);
  }

  lemma {:induction false} SkippedIsDefined(g: Graph, path: seq<Block>, a: Atom) returns (k: nat)
    requires GraphMemOk(g) && a in Skipped(g, path)
    ensures k < |path| && path[k] in g && a in LocalAt(g, path[k]).def
    decreases |path|
  {
    hide LocalAt, GraphMemOk;
    if |path| >= 2 && a in Skipped(g, path[..|path| - 1]) {
      k := SkippedIsDefined(g, path[..|path| - 1], a);
    } else {
      k := |path| - 2;
    }
  }

  /** Nothing that is skipped is read or live, if nothing is read across blocks that they define. */
  lemma NothingMissed(g: Graph, rank: map<Block, nat>, root: Block, path: seq<Block>, target: Block, a: Atom)
    requires Dag(g, rank) && GraphMemOk(g) && root in g && Unmixed(g, Reach(g, rank, root))
    requires Trail(g, path) && path[0] in Reach(g, rank, root) && target in Reach(g, rank, root) && target in g
    requires a in LocalAt(g, target).use || a in OutUse(g, rank, target)
    ensures a !in Skipped(g, path)
  {
    var c := target;
    if a !in LocalAt(g, target).use {
      assert DagNode(g, rank, target);
      c := LiveIsRead(g, rank, if a in InUse(g, rank, g[target].jt) then g[target].jt else g[target].jf, a);
      SuccReach(g, rank, root, target, c);
    }
    hide LocalAt, GraphMemOk, Dag, Reach, InUse, OutUse, Skipped;
    if a in Skipped(g, path) {
      var k := SkippedIsDefined(g, path, a);
      TrailReached(g, rank, root, path, k);
      assert false;
    }
  }

  lemma SuccReach(g: Graph, rank: map<Block, nat>, root: Block, b: Block, c: Block)
    requires Dag(g, rank) && root in g && b in Reach(g, rank, root) && b in g && g[b].jt != null
    requires g[b].jt in g && g[b].jf in g && (c in Reach(g, rank, g[b].jt) || c in Reach(g, rank, g[b].jf))
    ensures c in Reach(g, rank, root)
  {
    ReachClosed(g, rank, root, b);
    assert DagNode(g, rank, b) && c in Reach(g, rank, b);
  }

  /** A condition on the graph alone, before the call: if no reachable block reads an atom from outside that a
      reachable block defines, and find_ud has run, every run that does not fault keeps its verdict. */
  lemma OptJUnmixed(S: set<Block>, g: Graph, rank: map<Block, nat>, root: Block, t: Tables, ep: Edge, target: Block,
                    path: seq<Block>)
    requires EdgeStands(S, g, rank, root, t, ep, target, path) && g[ep.pred].test.code.Jmp?
    requires path[0] == Succ(g[ep.pred], ep.sense) && Unmixed(g, Reach(g, rank, root))
    requires forall b :: b in Reach(g, rank, root) && b in g ==> OutUse(g, rank, b) <= b.outUse
    ensures Dag(GraphOf(S), rank)
    ensures forall st, p, fuel: nat :: NonFaulting(g, root, st, p) && rank[root] < fuel ==>
              Run(GraphOf(S), root, st, p, fuel) == Run(g, root, st, p, fuel)
  {
    OptJSound(S, g, rank, root, t, ep, target, path);
    EntersLower(g, rank, root, ep.pred, ep.sense, path[0]);
    forall a: Atom
      ensures a in LocalAt(g, target).use || a in OutUse(g, rank, target) ==> a !in Skipped(g, path)
    {
      if a in LocalAt(g, target).use || a in OutUse(g, rank, target) {
        NothingMissed(g, rank, root, path, target, a);
      }
    }
    hide LocalAt, OutUse, Skipped, Dag, GraphMemOk, Reach, Run, NonFaulting, OptReady, GraphOf;
  }

  lemma NothingLost(g: Graph, path: seq<Block>)
    requires GraphMemOk(g)
    ensures |path| <= 1 ==> Skipped(g, path) == {}
  {
  }

  /** A moved edge adds neither blocks nor statements. */
  lemma MovedShrinks(g: Graph, rank: map<Block, nat>, root: Block, ep: Edge, d: Block)
    requires Dag(g, rank) && root in g && ep.pred in g && g[ep.pred].test.code.Jmp? && d in Reach(g, rank, root)
    requires rank[d] < rank[ep.pred]
    ensures Dag(Moved(g, ep, d), rank)
    ensures Shrunk(g, Reach(g, rank, root), Moved(g, ep, d), Reach(Moved(g, ep, d), rank, root))
  {
    var g1, R := Moved(g, ep, d), Reach(g, rank, root);
    MovedDag(g, rank, ep, d);
    forall x {:trigger g1[x]} | x in R && x in g1 && rank[x] <= rank[root] && g1[x].jt != null
      ensures g1[x].jt in R && g1[x].jf in R
    {
      assert DagNode(g, rank, x) && DagNode(g1, rank, x);
      ReachClosed(g, rank, root, x);
      if g[x].jt != null {
        assert g[x].jt in Reach(g, rank, x) && g[x].jf in Reach(g, rank, x);
      }
    }
    ReachInClosed(g1, rank, R, root);
  }

  // ----- The passes before -----

  /** The numbering pass has left what opt_j needs in the exit tables, if nothing read an atom numbered 0. */
  lemma TablesReady(c: Layout, t: Table, P: Pass)
    requires Walking(c) && PassAt(c, Reached(c), t, P, false)
    requires AllKnown(c.g, Reached(c), Reached(c), P, false) && TestsNumbered(c.g, Reached(c), P.vals)
    ensures GraphOf(c.S) == c.g && OptReady(c.S, c.g, c.rank, c.root, Tables(P.keys, P.vals, P.ovals))
  {
    hide *;
    WalkFacts(c);
    NumberedParts(c, Reached(c), t, P, false);
    NewGraph(c, P);
    PassShrinks(c.g, Reached(c), c.ins, P, false, GraphOf(c.S));
    TestsAre(c, P);
    TablesKnown(c.g, c.rank, c.root, Reached(c), c.ins, P);
    ReadyNow(c, P);
  }

  lemma ReadyNow(c: Layout, P: Pass)
    requires c.root in c.g && Dag(c.g, c.rank) && GraphMemOk(c.g) && Reached(c) == Reach(c.g, c.rank, c.root)
    requires c.S == c.g.Keys && P.vals == ValsOf(c.S) && P.ovals == OvalsOf(c.S)
    requires TablesOk(c.g, c.root, Reached(c), Tables(P.keys, P.vals, P.ovals))
    ensures OptReady(c.S, c.g, c.rank, c.root, Tables(P.keys, P.vals, P.ovals))
  {
    hide Dag, GraphMemOk, Reached, Reach, TablesOk;
    forall b | b in c.S
      ensures P.vals[b] == b.val && P.ovals[b] == b.oval
    {
      assert ValsOf(c.S)[b] == b.val && OvalsOf(c.S)[b] == b.oval;
    }
  }

  lemma TestsAre(c: Layout, P: Pass)
    requires P.tests == TestsOf(c.S) && GraphOf(c.S) == c.g && Reached(c) <= c.S
    ensures forall b {:trigger P.tests[b]} :: b in Reached(c) ==> b in c.g && P.tests[b] == c.g[b].test
  {
    hide Reached;
    forall b {:trigger P.tests[b]} | b in Reached(c)
      ensures b in c.g && P.tests[b] == c.g[b].test
    {
      assert GraphOf(c.S)[b] == NodeOf(b);
    }
  }

  /** find_edom has left what opt_j needs in the edge sets. */
  lemma EdomReady(S: set<Block>, g: Graph, rank: map<Block, nat>, root: Block, blocks: seq<Block>,
                  levels: seq<seq<Block>>, b: Block, sense: bool)
    requires Leveled(S, g, rank, root, blocks, levels) && b in Reach(g, rank, root)
    requires forall x, sx, y, sy {:trigger Edge(x, sx), Edge(y, sy)} ::
        x in Reach(g, rank, root) && y in Reach(g, rank, root) ==>
               (EdgeId(IdsOf(S), |blocks|, Edge(x, sx)) in Get(EDomsOf(S)[y], sy) <==>
                   EdgeDominates(g, root, Edge(x, sx), Edge(y, sy)))
    requires forall x, s {:trigger Get(EDomsOf(S)[x], s)} :: x in Reach(g, rank, root) ==>
               EdgeIds(IdsOf(S), Reach(g, rank, root), |blocks|, Get(EDomsOf(S)[x], s))
    ensures EdomOk(g, root, Reach(g, rank, root), blocks, Edge(b, sense), if sense then b.etDom else b.efDom)
  {
    var R, ids, n, ep := Reach(g, rank, root), IdsOf(S), |blocks|, Edge(b, sense);
    var edom := if sense then b.etDom else b.efDom;
    assert edom == Get(EDomsOf(S)[b], sense);
    forall k {:trigger k in edom} | k in edom
      ensures k < 2 * n && EdgeAt(blocks, k).pred in R && EdgeDominates(g, root, EdgeAt(blocks, k), ep)
    {
      assert IsEdgeId(ids, R, n, k);
      var x, s :| x in R && k == EdgeId(ids, n, Edge(x, s));
      EdgeNumber(S, g, rank, root, blocks, levels, x, s);
    }
  }

  /** The number of an edge leads back to it. */
  lemma EdgeNumber(S: set<Block>, g: Graph, rank: map<Block, nat>, root: Block, blocks: seq<Block>,
                   levels: seq<seq<Block>>, x: Block, s: bool)
    requires Leveled(S, g, rank, root, blocks, levels) && x in Reach(g, rank, root)
    ensures x in S && EdgeId(IdsOf(S), |blocks|, Edge(x, s)) < 2 * |blocks|
    ensures EdgeAt(blocks, EdgeId(IdsOf(S), |blocks|, Edge(x, s))) == Edge(x, s)
  {
    assert x.id < |blocks| && blocks[x.id] == x && IdsOf(S)[x] == x.id;
    hide Leveled, Reach;
  }
}
