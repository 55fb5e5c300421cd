/** An edge that opt_j moves past a store the target reads. */
module LostStore {
  import opened Bpf
  import opened Cfg
  import opened Runs
  import opened Liveness
  import opened JumpThread
  import opened PullFaults
  import Redirect

  /** Blocks a and s ask whether A, the length, is 0; s stores it, and t loads it back and asks once more. */
  function LossGraph(a: Block, s: Block, t: Block, yes: Block, no: Block): Graph {
    map[a := Node([Stmt(LdLen, 0)], Stmt(Jmp(JEQ, K), 0), s, no),
        s := Node([Stmt(St, 0)], Stmt(Jmp(JEQ, K), 0), t, no),
        t := Node([Stmt(LdMem, 0)], Stmt(Jmp(JEQ, K), 0), yes, no),
        yes := Returning(1), no := Returning(0)]
  }

  function LossRank(a: Block, s: Block, t: Block, yes: Block, no: Block): map<Block, nat> {
    map[a := 3, s := 2, t := 1, yes := 0, no := 0]
  }

  /** opt_j may move the true edge of a to t: the test of s is decided whenever a and s have the same number for A,
      and nothing is live at the exit of t, so there is no conflict. The store is lost. */
  lemma StoreLost(a: Block, s: Block, t: Block, yes: Block, no: Block, st: State)
    requires Apart(a, s, t, yes, no) && st[0] != 0
    ensures
      var (g, rank) := (LossGraph(a, s, t, yes, no), LossRank(a, s, t, yes, no));
      && Dag(g, rank) && GraphMemOk(g) && OutUse(g, rank, t) == {}
      && (forall v0: Vals, v1: Vals, o {:trigger FoldSide(g[s].test, v0, o, g[a].test, v1, o, true)} ::
            v0[A_ATOM] == v1[A_ATOM] ==> FoldSide(g[s].test, v0, o, g[a].test, v1, o, true) == Some(true))
      && Run(g, a, st, Packet([], 0), 4) == Returned(1)
      && Run(Redirect.Moved(g, Edge(a, true), t), a, st, Packet([], 0), 4) == Returned(0)
  {
    LossShape(a, s, t, yes, no);
    LossRuns(a, s, t, yes, no, st);
  }

  lemma LossShape(a: Block, s: Block, t: Block, yes: Block, no: Block)
    requires Apart(a, s, t, yes, no)
    ensures var (g, rank) := (LossGraph(a, s, t, yes, no), LossRank(a, s, t, yes, no));
            Dag(g, rank) && GraphMemOk(g) && OutUse(g, rank, t) == {}
  {
    var (g, rank) := (LossGraph(a, s, t, yes, no), LossRank(a, s, t, yes, no));
    forall x {:trigger DagNode(g, rank, x)} | x in g
      ensures DagNode(g, rank, x)
    {
    }
    UseNothing(g, rank, yes);
    UseNothing(g, rank, no);
  }

  /** What the three blocks do, one by one. */
  lemma LossSteps(st: State, p: Packet)
    requires p == Packet([], 0)
    ensures ExecAll([Stmt(LdLen, 0)], st, p) == Some(st[A_ATOM := 0])
    ensures ExecAll([Stmt(St, 0)], st[A_ATOM := 0], p) == Some(st[A_ATOM := 0][0 := 0])
    ensures ExecAll([Stmt(LdMem, 0)], st[A_ATOM := 0][0 := 0], p) == Some(st[A_ATOM := 0][0 := 0])
    ensures ExecAll([Stmt(LdMem, 0)], st[A_ATOM := 0], p) == Some(st[A_ATOM := st[0]])
    ensures ExecAll([], st, p) == Some(st)
  {
    assert st[A_ATOM := 0][0 := 0][A_ATOM := 0] == st[A_ATOM := 0][0 := 0];
    assert st[A_ATOM := 0][A_ATOM := st[0]] == st[A_ATOM := st[0]];
  }

  lemma LossNodes(a: Block, s: Block, t: Block, yes: Block, no: Block)
    requires Apart(a, s, t, yes, no)
    ensures
      var g := LossGraph(a, s, t, yes, no);
      && a in g && s in g && t in g && yes in g && no in g
      && g[a] == Node([Stmt(LdLen, 0)], Stmt(Jmp(JEQ, K), 0), s, no)
      && g[s] == Node([Stmt(St, 0)], Stmt(Jmp(JEQ, K), 0), t, no)
      && g[t] == Node([Stmt(LdMem, 0)], Stmt(Jmp(JEQ, K), 0), yes, no)
      && g[yes] == Returning(1) && g[no] == Returning(0)
      && Redirect.Moved(g, Edge(a, true), t) == g[a := g[a].(jt := t)]
  {
  }

  lemma LossRuns(a: Block, s: Block, t: Block, yes: Block, no: Block, st: State)
    requires Apart(a, s, t, yes, no) && st[0] != 0
    ensures
      var (g, p) := (LossGraph(a, s, t, yes, no), Packet([], 0));
      Run(g, a, st, p, 4) == Returned(1) && Run(Redirect.Moved(g, Edge(a, true), t), a, st, p, 4) == Returned(0)
  {
    var (g, p) := (LossGraph(a, s, t, yes, no), Packet([], 0));
    var g1, s1 := Redirect.Moved(g, Edge(a, true), t), st[A_ATOM := 0];
    var s2, s3 := s1[0 := 0], st[A_ATOM := st[0]];
    LossNodes(a, s, t, yes, no);
    LossSteps(st, p);
    NothingRun(s2, p);
    NothingRun(s3, p);
    hide ExecAll, Run, Redirect.Moved, LossGraph;
    RunUnfold(g, At(a, st), p, 4);
    RunUnfold(g, At(s, s1), p, 3);
    RunUnfold(g, At(t, s2), p, 2);
    RunUnfold(g, At(yes, s2), p, 1);
    RunUnfold(g1, At(a, st), p, 4);
    RunUnfold(g1, At(t, s1), p, 3);
    RunUnfold(g1, At(no, s3), p, 2);
  }
}
