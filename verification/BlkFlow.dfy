/** opt_blk on every block of the graph: when the whole keeps the verdicts. */
module BlkFlow {
  import opened Bpf
  import opened Cfg
  import opened Atoms
  import opened Runs
  import opened LastDefs
  import opened LiveStmts
  import opened Liveness
  import opened ValueTable
  import opened Symbolic
  import opened BlockValues
  import opened ValueFlow
  import opened PeepBlock
  import opened PeepFlow
  import opened OptBlk

  /** `g1` is `g` after opt_blk on the blocks of `done`, with what the pass has written down in `P`. */
  ghost predicate BlksLeft(g: Graph, rank: map<Block, nat>, done: set<Block>, P: Pass, g1: Graph, alter: bool)
    requires Dag(g, rank) && GraphMemOk(g)
  {
    && g1.Keys == g.Keys
    && forall b {:trigger g1[b]} :: b in g ==> if b in done then LeftAt(g, rank, P, g1, alter, b) else g1[b] == g[b]
  }

  ghost predicate LeftAt(g: Graph, rank: map<Block, nat>, P: Pass, g1: Graph, alter: bool, b: Block)
    requires Dag(g, rank) && GraphMemOk(g) && b in g && b in g1
  {
    && b in P.entries && b in P.peeped
    && BlkLeft(g[b], P.peeped[b], g1[b], OutUse(g, rank, b), P.entries[b].keys, P.entries[b].val, alter)
  }

  /** What opt_blk has left of every block keeps what is live at its exit in the graph that is left. */
  ghost predicate AllKept(g: Graph, g1: Graph, rank: map<Block, nat>, R: set<Block>, P: Pass)
    requires Dag(g, rank) && GraphMemOk(g) && Dag(g1, rank) && GraphMemOk(g1)
  {
    forall b {:trigger P.entries[b]} :: b in R && b in P.entries ==> KeptAt(g, g1, rank, P, b)
  }

  ghost predicate KeptAt(g: Graph, g1: Graph, rank: map<Block, nat>, P: Pass, b: Block)
    requires Dag(g, rank) && GraphMemOk(g) && Dag(g1, rank) && GraphMemOk(g1) && b in P.entries
  {
    b in g && b in g1 && AllMemOk(g[b].stmts) && WellKeyed(P.entries[b].keys) ==>
      BlkKept(g[b], g1[b], OutUse(g1, rank, b), P.entries[b].keys, P.entries[b].val,
              BlkOnes(g[b], OutUse(g, rank, b), P.entries[b].keys, P.entries[b].val))
  }

  /** No atom a block gives up is live at its exit in the graph that is left. */
  ghost predicate NoneMissed(g: Graph, g1: Graph, rank: map<Block, nat>, R: set<Block>, P: Pass)
    requires Dag(g, rank) && GraphMemOk(g) && Dag(g1, rank) && GraphMemOk(g1)
  {
    forall b {:trigger P.entries[b]} :: b in R && b in P.entries ==> NotMissed(g, g1, rank, P, b)
  }

  ghost predicate NotMissed(g: Graph, g1: Graph, rank: map<Block, nat>, P: Pass, b: Block)
    requires Dag(g, rank) && GraphMemOk(g) && Dag(g1, rank) && GraphMemOk(g1) && b in P.entries
  {
    b in g && b in g1 && b in P.peeped && AllMemOk(g[b].stmts) ==>
      GivenUp(g[b], P.peeped[b], g1[b], OutUse(g, rank, b), P.entries[b].keys, P.entries[b].val, true)
        !! OutUse(g1, rank, b)
  }

  /** What the rules take for granted holds in every block. */
  ghost predicate AllSure(g: Graph, rank: map<Block, nat>, R: set<Block>, P: Pass)
    requires Dag(g, rank) && GraphMemOk(g)
  {
    forall b {:trigger P.entries[b]} :: b in R && b in g && b in P.entries ==>
      AllMemOk(g[b].stmts) && WellKeyed(P.entries[b].keys)
      && BlkSure(g[b], OutUse(g, rank, b), P.entries[b].keys, P.entries[b].val)
  }

  /** Where the rule for jset #0xffffffff applies, the run leaves the block with a nonzero A. */
  ghost predicate OnesRun(g: Graph, rank: map<Block, nat>, root: Block, P: Pass, st: State, p: Packet)
    requires Dag(g, rank) && GraphMemOk(g)
  {
    forall n: nat {:trigger RunTo(g, root, st, p, n)} :: RunTo(g, root, st, p, n).Some? ==>
      OnesAt(g, rank, P, RunTo(g, root, st, p, n).value, p)
  }

  ghost predicate OnesAt(g: Graph, rank: map<Block, nat>, P: Pass, at: At, p: Packet)
    requires Dag(g, rank) && GraphMemOk(g)
  {
    at.b in g && at.b in P.entries && AllMemOk(g[at.b].stmts)
    && BlkOnes(g[at.b], OutUse(g, rank, at.b), P.entries[at.b].keys, P.entries[at.b].val)
    && ExecAll(g[at.b].stmts, at.st, p).Some? ==>
      ExecAll(g[at.b].stmts, at.st, p).value[A_ATOM] != 0
  }

  lemma SureSteady(g: Graph, rank: map<Block, nat>, R: set<Block>, P: Pass)
    requires Dag(g, rank) && GraphMemOk(g) && AllSure(g, rank, R, P)
    ensures AllSteady(g, R, R, P, true)
  {
    hide Steps, Steady, Asked;
  }

  /** If no atom a block gives up is live in the graph that is left, what is live there is kept. */
  lemma NoneMissedKept(g: Graph, g1: Graph, rank: map<Block, nat>, R: set<Block>, ins: map<Block, seq<Edge>>, P: Pass)
    requires Dag(g, rank) && GraphMemOk(g) && Dag(g1, rank) && GraphMemOk(g1)
    requires PassInv(g, R, ins, R, P, true) && AllSure(g, rank, R, P) && BlksLeft(g, rank, R, P, g1, true)
    requires NoneMissed(g, g1, rank, R, P)
    ensures AllKept(g, g1, rank, R, P)
  {
    hide *;
    forall b | b in R && b in P.entries
      ensures KeptAt(g, g1, rank, P, b)
    {
      DoneFacts(g, R, ins, R, P, true, b);
      DoneSteps(g, P, b, true);
      OneKept(g, g1, rank, R, P, b);
    }
    EachKept(g, g1, rank, R, P);
  }

  lemma EachKept(g: Graph, g1: Graph, rank: map<Block, nat>, R: set<Block>, P: Pass)
    requires Dag(g, rank) && GraphMemOk(g) && Dag(g1, rank) && GraphMemOk(g1)
    requires forall b :: b in R && b in P.entries ==> KeptAt(g, g1, rank, P, b)
    ensures AllKept(g, g1, rank, R, P)
  {
    hide KeptAt, Dag, GraphMemOk;
  }

  lemma OneKept(g: Graph, g1: Graph, rank: map<Block, nat>, R: set<Block>, P: Pass, b: Block)
    requires Dag(g, rank) && GraphMemOk(g) && Dag(g1, rank) && GraphMemOk(g1)
    requires AllSure(g, rank, R, P) && BlksLeft(g, rank, R, P, g1, true) && NoneMissed(g, g1, rank, R, P)
    requires b in R && b in g && AllMemOk(g[b].stmts) && b in P.entries
    requires Steps(P.entries[b].keys, P.entries[b].val, g[b].stmts, true).Rewrites?
    ensures KeptAt(g, g1, rank, P, b)
  {
    hide Steps, BlkKept, BlkSure, BlkOnes, Onward, OutUse, WellKeyed, Dag, GraphMemOk, GivenUp;
    assert P.entries[b] == P.entries[b] && NotMissed(g, g1, rank, P, b);
    assert g1[b] == g1[b] && LeftAt(g, rank, P, g1, true, b);
    var (keys, e, Z) := (P.entries[b].keys, P.entries[b].val, OutUse(g, rank, b));
    if WellKeyed(keys) {
      BlkKeptLess(g[b], g1[b], AllAtoms() - GivenUp(g[b], P.peeped[b], g1[b], Z, keys, e, true), OutUse(g1, rank, b),
                  keys, e, BlkOnes(g[b], Z, keys, e));
    }
  }

  /** One block: what opt_blk has left of it goes on as the original does, from any state that agrees with the run's
      on what is live in the graph that is left. */
  lemma LeftRuns(g: Graph, g1: Graph, rank: map<Block, nat>, root: Block, R: set<Block>, ins: map<Block, seq<Edge>>,
                 P: Pass, st: State, p: Packet, n: nat, st': State)
    requires Dag(g, rank) && GraphMemOk(g) && Dag(g1, rank) && GraphMemOk(g1) && root in g && R == Reach(g, rank, root)
    requires PassInv(g, R, ins, R, P, true) && AllSteady(g, R, R, P, true) && AllKept(g, g1, rank, R, P)
    requires OnesRun(g, rank, root, P, st, p) && g1.Keys == g.Keys
    requires RunTo(g, root, st, p, n).Some? && RunTo(g, root, st, p, n).value.b in R
    requires var at := RunTo(g, root, st, p, n).value;
             && at.b in g1 && AgreeOn(at.st, st', InUse(g1, rank, at.b))
             && at.b in g && ExecAll(g[at.b].stmts, at.st, p).Some?
    ensures var at := RunTo(g, root, st, p, n).value;
            && ExecAll(g1[at.b].stmts, st', p).Some?
            && AgreeOn(ExecAll(g[at.b].stmts, at.st, p).value, ExecAll(g1[at.b].stmts, st', p).value,
                 OutUse(g1, rank, at.b))
            && Next(g[at.b], ExecAll(g[at.b].stmts, at.st, p).value)
                 == Next(g1[at.b], ExecAll(g1[at.b].stmts, st', p).value)
  {
    hide *;
    var at := RunTo(g, root, st, p, n).value;
    DoneFacts(g, R, ins, R, P, true, at.b);
    EntryHere(g, R, ins, P, at.b);
    EntryAgrees(g, rank, root, R, ins, R, P, true, at.b, st, p, n);
    OnesHere(g, rank, root, P, st, p, n);
    KeptHere(g, g1, rank, R, P, at, p);
    BlockAgree(g1, rank, at.b, at.st, st', p);
    var e, e1, e' := ExecAll(g[at.b].stmts, at.st, p).value, ExecAll(g1[at.b].stmts, at.st, p).value,
      ExecAll(g1[at.b].stmts, st', p).value;
    SameNext(g1[at.b], e1, e');
    AgreeThen(e, e1, e', OutUse(g1, rank, at.b));
  }

  lemma EntryHere(g: Graph, R: set<Block>, ins: map<Block, seq<Edge>>, P: Pass, b: Block)
    requires EntryOk(g, R, ins, R, P, b)
    ensures b in P.entries && WellKeyed(P.entries[b].keys)
  {
  }

  lemma SameNext(n: Node, e: State, e': State)
    requires n.test.code.Jmp? ==> Taken(n.test, e) == Taken(n.test, e')
    ensures Next(n, e) == Next(n, e')
  {
    hide Taken;
  }

  lemma DoneSteps(g: Graph, P: Pass, b: Block, alter: bool)
    requires b in g && AllMemOk(g[b].stmts) && BlockDone(g, P, b, alter)
    ensures b in P.entries && Steps(P.entries[b].keys, P.entries[b].val, g[b].stmts, alter).Rewrites?
  {
  }

  lemma AgreeBack(a: State, b: State, Z: set<Atom>)
    requires AgreeOn(a, b, Z)
    ensures AgreeOn(b, a, Z)
  {
  }

  lemma AgreeThen(a: State, b: State, c: State, Z: set<Atom>)
    requires AgreeOn(a, b, Z) && AgreeOn(b, c, Z)
    ensures AgreeOn(a, c, Z)
  {
  }

  lemma OnesHere(g: Graph, rank: map<Block, nat>, root: Block, P: Pass, st: State, p: Packet, n: nat)
    requires Dag(g, rank) && GraphMemOk(g) && OnesRun(g, rank, root, P, st, p) && RunTo(g, root, st, p, n).Some?
    ensures OnesAt(g, rank, P, RunTo(g, root, st, p, n).value, p)
  {
    hide OnesAt;
  }

  lemma KeptHere(g: Graph, g1: Graph, rank: map<Block, nat>, R: set<Block>, P: Pass, at: At, p: Packet)
    requires Dag(g, rank) && GraphMemOk(g) && Dag(g1, rank) && GraphMemOk(g1) && AllKept(g, g1, rank, R, P)
    requires at.b in R && at.b in g && at.b in g1 && at.b in P.entries && AllMemOk(g[at.b].stmts)
    requires WellKeyed(P.entries[at.b].keys) && OnesAt(g, rank, P, at, p)
    requires Agrees(P.entries[at.b].keys, P.entries[at.b].val, at.st, p) && ExecAll(g[at.b].stmts, at.st, p).Some?
    ensures ExecAll(g1[at.b].stmts, at.st, p).Some?
    ensures var (e, e1) := (ExecAll(g[at.b].stmts, at.st, p).value, ExecAll(g1[at.b].stmts, at.st, p).value);
            AgreeOn(e, e1, OutUse(g1, rank, at.b)) && Next(g[at.b], e) == Next(g1[at.b], e1)
  {
    hide BlkOnes, OutUse, ExecAll, Agrees, Next, Dag, GraphMemOk, WellKeyed;
    assert P.entries[at.b] == P.entries[at.b] && KeptAt(g, g1, rank, P, at.b);
    assert BlkKeptRun(g[at.b], g1[at.b], OutUse(g1, rank, at.b),
        BlkOnes(g[at.b], OutUse(g, rank, at.b), P.entries[at.b].keys, P.entries[at.b].val), at.st, p);
  }

  /** opt_blk on all blocks, rewriting: the verdict of every run that does not fault is kept, if what is left of each
      block keeps what is live in the graph that is left. */
  lemma {:induction false} BlksKeepRun(g: Graph, g1: Graph, rank: map<Block, nat>, root: Block, R: set<Block>,
                                       ins: map<Block, seq<Edge>>, P: Pass, st: State, p: Packet, n: nat, st': State,
                                       fuel: nat)
    requires Dag(g, rank) && GraphMemOk(g) && Dag(g1, rank) && GraphMemOk(g1) && root in g && R == Reach(g, rank, root)
    requires PassInv(g, R, ins, R, P, true) && AllSteady(g, R, R, P, true) && BlksLeft(g, rank, R, P, g1, true)
    requires AllKept(g, g1, rank, R, P) && OnesRun(g, rank, root, P, st, p)
    requires RunTo(g, root, st, p, n).Some? && RunTo(g, root, st, p, n).value.b in g
    requires RunTo(g, root, st, p, n).value.b in g1
    requires AgreeOn(RunTo(g, root, st, p, n).value.st, st', InUse(g1, rank, RunTo(g, root, st, p, n).value.b))
    requires Run(g, RunTo(g, root, st, p, n).value.b, RunTo(g, root, st, p, n).value.st, p, fuel) != Faulted
    ensures var at := RunTo(g, root, st, p, n).value;
            Run(g1, at.b, st', p, fuel) == Run(g, at.b, at.st, p, fuel)
    decreases fuel
  {
    hide *;
    var at := RunTo(g, root, st, p, n).value;
    RunToReach(g, rank, root, st, p, n);
    LeftKeys(g, rank, R, P, g1, true);
    LeftNode(g, g1, rank, R, P, true, at.b);
    RunUnfold(g, at, p, fuel);
    RunUnfold(g1, At(at.b, st'), p, fuel);
    RunToNext(g, root, st, p, n);
    if fuel > 0 {
      LeftRuns(g, g1, rank, root, R, ins, P, st, p, n, st');
      if g[at.b].test.code.Jmp? {
        var e, e' := ExecAll(g[at.b].stmts, at.st, p).value, ExecAll(g1[at.b].stmts, st', p).value;
        NextIs(g[at.b], e);
        NextIs(g1[at.b], e');
        AgreeBack(e, e', OutUse(g1, rank, at.b));
        LiveAtSuccessor(g1, rank, at.b, e', e);
        AgreeBack(e', e, InUse(g1, rank, Succ(g1[at.b], Taken(g1[at.b].test, e'))));
        BlksKeepRun(g, g1, rank, root, R, ins, P, st, p, n + 1, e', fuel - 1);
      }
    }
  }

  lemma LeftNode(g: Graph, g1: Graph, rank: map<Block, nat>, R: set<Block>, P: Pass, alter: bool, b: Block)
    requires Dag(g, rank) && GraphMemOk(g) && BlksLeft(g, rank, R, P, g1, alter) && b in R && b in g
    ensures b in g1 && (g[b].test.code.Jmp? ==> g1[b].test.code.Jmp?)
    ensures !g[b].test.code.Jmp? ==> g[b].test.code == Ret && g1[b].test == g[b].test
  {
    assert g1[b] == g1[b] && DagNode(g, rank, b);
    assert LeftAt(g, rank, P, g1, alter, b);
    hide BlkRight, OutUse, Onward;
  }

  // ----- Where nothing becomes live -----

  /** What is live at the entry of a block with `Z` live at its exit. */
  ghost function Needed(n: Node, Z: set<Atom>): set<Atom>
    requires AllMemOk(n.stmts) && MemOk(n.test)
  {
    BlockLocal(n.stmts, n.test).use + (Z - BlockLocal(n.stmts, n.test).kill)
  }

  /** The rewriting makes nothing live at the entry of a block that find_ud has found dead there. */
  ghost predicate NoNewUse(g: Graph, g1: Graph, rank: map<Block, nat>, R: set<Block>)
    requires Dag(g, rank) && GraphMemOk(g)
  {
    forall b {:trigger g1[b]} :: b in R && b in g && b in g1 ==>
      AllMemOk(g1[b].stmts) && MemOk(g1[b].test) && Needed(g1[b], OutUse(g, rank, b)) <= InUse(g, rank, b)
  }

  lemma {:induction false} LessLive(g: Graph, g1: Graph, rank: map<Block, nat>, root: Block, R: set<Block>, P: Pass,
                                    b: Block)
    requires Dag(g, rank) && GraphMemOk(g) && Dag(g1, rank) && GraphMemOk(g1) && root in g && R == Reach(g, rank, root)
    requires BlksLeft(g, rank, R, P, g1, true) && NoNewUse(g, g1, rank, R) && b in R && b in g && b in g1
    ensures OutUse(g1, rank, b) <= OutUse(g, rank, b) && InUse(g1, rank, b) <= InUse(g, rank, b)
    decreases rank[b]
  {
    LeftOne(g, g1, rank, R, P, true, b);
    SuccReached(g, rank, root, b);
    assert DagNode(g, rank, b) && DagNode(g1, rank, b);
    LeftNode(g, g1, rank, R, P, true, b);
    hide BlksLeft, LeftFits, BlockLocal, Reach;
    if g1[b].jt != null {
      LessLive(g, g1, rank, root, R, P, g1[b].jt);
      LessLive(g, g1, rank, root, R, P, g1[b].jf);
    }
    assert Needed(g1[b], OutUse(g, rank, b)) <= InUse(g, rank, b);
  }

  /** Then nothing is missed. */
  lemma NoNewUseSuffices(g: Graph, g1: Graph, rank: map<Block, nat>, root: Block, R: set<Block>,
                         ins: map<Block, seq<Edge>>, P: Pass)
    requires Dag(g, rank) && GraphMemOk(g) && Dag(g1, rank) && GraphMemOk(g1) && root in g && R == Reach(g, rank, root)
    requires PassInv(g, R, ins, R, P, true) && BlksLeft(g, rank, R, P, g1, true) && NoNewUse(g, g1, rank, R)
    ensures NoneMissed(g, g1, rank, R, P)
  {
    hide *;
    forall b | b in R && b in P.entries
      ensures NotMissed(g, g1, rank, P, b)
    {
      DoneFacts(g, R, ins, R, P, true, b);
      DoneSteps(g, P, b, true);
      EntryHere(g, R, ins, P, b);
      LeftNode(g, g1, rank, R, P, true, b);
      LessLive(g, g1, rank, root, R, P, b);
      OneNotMissed(g, g1, rank, R, P, b);
    }
    EachNotMissed(g, g1, rank, R, P);
  }

  lemma EachNotMissed(g: Graph, g1: Graph, rank: map<Block, nat>, R: set<Block>, P: Pass)
    requires Dag(g, rank) && GraphMemOk(g) && Dag(g1, rank) && GraphMemOk(g1)
    requires forall b :: b in R && b in P.entries ==> NotMissed(g, g1, rank, P, b)
    ensures NoneMissed(g, g1, rank, R, P)
  {
    hide NotMissed, Dag, GraphMemOk;
  }

  lemma OneNotMissed(g: Graph, g1: Graph, rank: map<Block, nat>, R: set<Block>, P: Pass, b: Block)
    requires Dag(g, rank) && GraphMemOk(g) && Dag(g1, rank) && GraphMemOk(g1)
    requires BlksLeft(g, rank, R, P, g1, true) && b in R && b in g && b in g1 && b in P.entries && AllMemOk(g[b].stmts)
    requires Steps(P.entries[b].keys, P.entries[b].val, g[b].stmts, true).Rewrites? && WellKeyed(P.entries[b].keys)
    requires OutUse(g1, rank, b) <= OutUse(g, rank, b)
    ensures NotMissed(g, g1, rank, P, b)
  {
    hide Steps, BlkKept, BlkSure, BlkOnes, Onward, OutUse, WellKeyed, Dag, GraphMemOk, GivenUp;
    assert g1[b] == g1[b] && LeftAt(g, rank, P, g1, true, b);
  }

  // ----- The graph that is left -----

  /** It is a graph the passes may go on with: acyclic, and with no more blocks and statements. */
  lemma LeftShrinks(g: Graph, g1: Graph, rank: map<Block, nat>, root: Block, R: set<Block>, P: Pass, alter: bool)
    requires Dag(g, rank) && GraphMemOk(g) && root in g && R == Reach(g, rank, root)
    requires BlksLeft(g, rank, R, P, g1, alter)
    ensures Dag(g1, rank) && GraphMemOk(g1) && Shrunk(g, R, g1, Reach(g1, rank, root))
  {
    forall b | b in g
      ensures LeftFits(g, g1, rank, b) && (b in R ==> g1[b].jt in {g[b].jt, g[b].jf} && g1[b].jf in {g[b].jt, g[b].jf})
      ensures |Live(g1[b].stmts)| <= |Live(g[b].stmts)|
    {
      LeftOne(g, g1, rank, R, P, alter, b);
    }
    assert g1.Keys == g.Keys;
    hide BlksLeft, BlkLeft, Reach, Live;
    assert forall b {:trigger DagNode(g1, rank, b)} :: b in g1 ==> LeftFits(g, g1, rank, b);
    ReachClosed(g, rank, root, root);
    forall x {:trigger g1[x]} | x in R && x in g1 && rank[x] <= rank[root] && g1[x].jt != null
      ensures g1[x].jt in R && g1[x].jf in R
    {
      assert DagNode(g, rank, x) && DagNode(g1, rank, x);
      ReachClosed(g, rank, root, x);
      SuccReached(g, rank, root, x);
    }
    RootIn(g, rank, root);
    ReachInClosed(g1, rank, R, root);
  }

  ghost predicate LeftFits(g: Graph, g1: Graph, rank: map<Block, nat>, b: Block)
    requires g.Keys <= rank.Keys
  {
    b in g1 && b in g && g1.Keys == g.Keys && DagNode(g1, rank, b) && AllMemOk(g1[b].stmts) && MemOk(g1[b].test)
  }

  lemma RootIn(g: Graph, rank: map<Block, nat>, root: Block)
    requires Dag(g, rank) && root in g
    ensures root in Reach(g, rank, root)
  {
  }

  lemma SuccReached(g: Graph, rank: map<Block, nat>, root: Block, x: Block)
    requires Dag(g, rank) && root in g && x in Reach(g, rank, root)
    ensures x in g && (g[x].jt != null ==> g[x].jt in Reach(g, rank, root) && g[x].jf in Reach(g, rank, root))
  {
    ReachClosed(g, rank, root, x);
    assert DagNode(g, rank, x);
    if g[x].jt != null {
      assert g[x].jt in Reach(g, rank, x) && g[x].jf in Reach(g, rank, x);
    }
  }

  lemma LeftOne(g: Graph, g1: Graph, rank: map<Block, nat>, R: set<Block>, P: Pass, alter: bool, b: Block)
    requires Dag(g, rank) && GraphMemOk(g) && BlksLeft(g, rank, R, P, g1, alter) && b in g
    ensures LeftFits(g, g1, rank, b) && (b in R ==> g1[b].jt in {g[b].jt, g[b].jf} && g1[b].jf in {g[b].jt, g[b].jf})
    ensures |Live(g1[b].stmts)| <= |Live(g[b].stmts)|
  {
    assert g1[b] == g1[b] && g[b] == g[b] && DagNode(g, rank, b);
    if b in R {
      assert LeftAt(g, rank, P, g1, alter, b);
    }
    hide BlkRight, OutUse, Live;
  }

  // ----- With `alter` off -----

  /** A constant stays one as the table grows. */
  lemma ExitMore(n: Node, keys: seq<Key>, more: seq<Key>, val: Vals, st: State)
    requires keys <= more && Bounded(keys, val)
    ensures ExitOk(n, keys, val, st) <==> ExitOk(n, more, val, st)
  {
    assert val[A_ATOM] <= |keys| && val[X_ATOM] <= |keys|;
  }

  lemma CarriesMore(n0: Node, n: Node, Z: set<Atom>, keys: seq<Key>, more: seq<Key>, val: Vals, q: Premise)
    requires keys <= more && Bounded(keys, val) && Carries(n0, n, Z, keys, val, q)
    ensures Carries(n0, n, Z, more, val, q)
  {
    forall st, p {:trigger ExecAll(n0.stmts, st, p)} | ExecAll(n0.stmts, st, p).Some?
      ensures CarriesRun(n0, n, Z, more, val, q, st, p)
    {
      ExitMore(n0, keys, more, val, ExecAll(n0.stmts, st, p).value);
      assert CarriesRun(n0, n, Z, keys, val, q, st, p);
      hide ExitOk, Next;
    }
  }

  /** With `alter` off the pass is opt_peep and opt_deadstores, under right exit tables. */
  lemma OffIsPeeped(g: Graph, g1: Graph, rank: map<Block, nat>, root: Block, R: set<Block>, ins: map<Block, seq<Edge>>,
                    P: Pass)
    requires Dag(g, rank) && GraphMemOk(g) && root in g && R == Reach(g, rank, root)
    requires PassInv(g, R, ins, R, P, false) && BlksLeft(g, rank, R, P, g1, false)
    requires forall b {:trigger g[b]} :: b in R && b in g && g[b].test.code == Ret ==> g[b].stmts == []
    ensures R <= g.Keys && TablesRight(g, root, R, P.keys, P.vals) && Peeped(g, g1, rank, R, P.keys, P.vals)
  {
    NoAlterSteady(g, R, R, P);
    PassParts(g, R, ins, P);
    hide PassInv, Holds, Peeped, BlksLeft, Reach, AllSteady, Dag, GraphMemOk;
    forall b {:trigger P.vals[b]} | b in R
      ensures Holds(g, root, b, P.keys, P.vals[b])
    {
      TablesHold(g, rank, root, R, ins, P, false, b);
    }
    BlksPeeped(g, g1, rank, R, ins, P);
  }

  lemma PassParts(g: Graph, R: set<Block>, ins: map<Block, seq<Edge>>, P: Pass)
    requires GraphMemOk(g) && PassInv(g, R, ins, R, P, false)
    ensures R <= g.Keys && R <= P.vals.Keys && WellKeyed(P.keys)
  {
  }

  lemma BlksPeeped(g: Graph, g1: Graph, rank: map<Block, nat>, R: set<Block>, ins: map<Block, seq<Edge>>, P: Pass)
    requires Dag(g, rank) && GraphMemOk(g) && R <= g.Keys && R <= P.vals.Keys
    requires PassInv(g, R, ins, R, P, false) && BlksLeft(g, rank, R, P, g1, false)
    requires forall b {:trigger g[b]} :: b in R && b in g && g[b].test.code == Ret ==> g[b].stmts == []
    ensures Peeped(g, g1, rank, R, P.keys, P.vals)
  {
    hide *;
    forall b | b in R
      ensures PeepedAt(g, g1, rank, P.keys, P.vals, b)
    {
      OnePeeped(g, g1, rank, R, ins, P, b);
    }
    LeftKeys(g, rank, R, P, g1, false);
    AllPeeped(g, g1, rank, R, P);
  }

  lemma LeftKeys(g: Graph, rank: map<Block, nat>, done: set<Block>, P: Pass, g1: Graph, alter: bool)
    requires Dag(g, rank) && GraphMemOk(g) && BlksLeft(g, rank, done, P, g1, alter)
    ensures g1.Keys == g.Keys
  {
  }

  ghost predicate PeepedAt(g: Graph, g1: Graph, rank: map<Block, nat>, keys: seq<Key>, vals: map<Block, Vals>, b: Block)
    requires Dag(g, rank) && GraphMemOk(g)
  {
    && b in g && b in g1 && b in vals
    && Carries(g[b], g1[b], OutUse(g, rank, b), keys, vals[b], Asked(g[b], OutUse(g, rank, b)))
    && (!g[b].test.code.Jmp? ==> g1[b] == g[b]) && (g[b].test.code.Jmp? ==> g1[b].test.code.Jmp?)
  }

  lemma AllPeeped(g: Graph, g1: Graph, rank: map<Block, nat>, R: set<Block>, P: Pass)
    requires Dag(g, rank) && GraphMemOk(g) && R <= g.Keys && R <= P.vals.Keys && g1.Keys == g.Keys
    requires forall b :: b in R ==> PeepedAt(g, g1, rank, P.keys, P.vals, b)
    ensures Peeped(g, g1, rank, R, P.keys, P.vals)
  {
    hide Carries, Asked, OutUse, Dag, GraphMemOk;
  }

  lemma OnePeeped(g: Graph, g1: Graph, rank: map<Block, nat>, R: set<Block>, ins: map<Block, seq<Edge>>, P: Pass,
                  b: Block)
    requires Dag(g, rank) && GraphMemOk(g) && R <= g.Keys && R <= P.vals.Keys && b in R
    requires PassInv(g, R, ins, R, P, false) && BlksLeft(g, rank, R, P, g1, false)
    requires forall b {:trigger g[b]} :: b in R && b in g && g[b].test.code == Ret ==> g[b].stmts == []
    ensures PeepedAt(g, g1, rank, P.keys, P.vals, b)
  {
    DoneFacts(g, R, ins, R, P, false, b);
    EntryIs(g, R, ins, P, b);
    assert g1[b] == g1[b] && g[b] == g[b] && DagNode(g, rank, b);
    assert LeftAt(g, rank, P, g1, false, b);
    hide PassInv, BlksLeft, Carries, Asked, OutUse, Steps, WellKeyed, Bounded, EntryOk, BlkRight;
    BlkPeeped(g[b], P.peeped[b], g1[b], OutUse(g, rank, b), P.entries[b], P.keys, P.vals[b]);
  }

  lemma EntryIs(g: Graph, R: set<Block>, ins: map<Block, seq<Edge>>, P: Pass, b: Block)
    requires EntryOk(g, R, ins, R, P, b)
    ensures b in P.entries && WellKeyed(P.entries[b].keys) && Bounded(P.entries[b].keys, P.entries[b].val)
  {
  }

  lemma BlkPeeped(n0: Node, m: seq<Stmt>, n: Node, Z: set<Atom>, e: Entry, more: seq<Key>, val: Vals)
    requires AllMemOk(n0.stmts) && WellKeyed(e.keys) && Bounded(e.keys, e.val)
    requires BlkLeft(n0, m, n, Z, e.keys, e.val, false)
    requires var r := Steps(e.keys, e.val, n0.stmts, false); r.Rewrites? && r.val == val && r.keys <= more
    ensures Carries(n0, n, Z, more, val, Asked(n0, Z))
  {
    var r := Steps(e.keys, e.val, n0.stmts, false);
    StepsKeys(e.keys, e.val, n0.stmts, false);
    CarriesLess(n0, n, AllAtoms() - GivenUp(n0, m, n, Z, e.keys, e.val, false), Z, r.keys, val, Asked(n0, Z));
    CarriesMore(n0, n, Z, r.keys, more, val, Asked(n0, Z));
  }
}
