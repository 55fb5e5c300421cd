/** Boolean filter expressions, and program fragments whose exits are still open.

    A fragment's pending exits are symbolic here: Exit(true) is "the expression held",
    Exit(false) "it did not". BoolGen ties this picture to the lists threaded through
    the blocks. */
module BoolExpr {
  import opened Bpf
  import opened Cfg

  // ----- Expressions -----

  /** A primitive is one block: statements, then a conditional test. */
  datatype Expr = Prim(stmts: seq<Stmt>, test: Stmt) | And(l: Expr, r: Expr) | Or(l: Expr, r: Expr) | Not(e: Expr)

  datatype Answer = Decided(holds: bool, st: State) | FaultedAt | Open

  ghost predicate WellFormed(e: Expr) {
    match e
    case Prim(_, test) => test.code.Jmp?
    case And(l, r) => WellFormed(l) && WellFormed(r)
    case Or(l, r) => WellFormed(l) && WellFormed(r)
    case Not(e0) => WellFormed(e0)
  }

  /** Left-to-right short-circuit evaluation; a fault ends it. */
  ghost function Eval(e: Expr, st: State, p: Packet): Answer
    requires WellFormed(e)
  {
    match e
    case Prim(stmts, test) =>
      (match ExecAll(stmts, st, p)
       case None => FaultedAt
       case Some(st1) => Decided(Taken(test, st1), st1))
    case And(l, r) =>
      var a := Eval(l, st, p);
      if a.Decided? && a.holds then Eval(r, a.st, p) else a
    case Or(l, r) =>
      var a := Eval(l, st, p);
      if a.Decided? && !a.holds then Eval(r, a.st, p) else a
    case Not(e0) =>
      Negated(Eval(e0, st, p))
  }

  function Negated(a: Answer): Answer {
    if a.Decided? then Decided(!a.holds, a.st) else a
  }

  ghost function Prims(e: Expr): nat {
    match e
    case Prim(_, _) => 1
    case And(l, r) => Prims(l) + Prims(r)
    case Or(l, r) => Prims(l) + Prims(r)
    case Not(e0) => Prims(e0)
  }

  // ----- Open graphs -----

  datatype Target = To(b: Block) | Exit(sense: bool)

  datatype OpenNode = OpenNode(stmts: seq<Stmt>, test: Stmt, jt: Target, jf: Target)

  type OpenGraph = map<Block, OpenNode>

  function Branch(n: OpenNode, sense: bool): Target {
    if sense then n.jt else n.jf
  }

  /** Runs from `t` until an exit is reached, over at most `fuel` blocks. */
  function RunOpen(g: OpenGraph, t: Target, st: State, p: Packet, fuel: nat): Answer
    decreases fuel
  {
    match t
    case Exit(v) => Decided(v, st)
    case To(b) =>
      if fuel == 0 || b !in g || !g[b].test.code.Jmp? then Open
      else match ExecAll(g[b].stmts, st, p)
        case None => FaultedAt
        case Some(st1) => RunOpen(g, Branch(g[b], Taken(g[b].test, st1)), st1, p, fuel - 1)
  }

  /** The graph of `g` with every open exit of one sense led to `target` instead. */
  function Redirect(t: Target, sense: bool, target: Target): Target {
    if t == Exit(sense) then target else t
  }

  ghost function RedirectAll(g: OpenGraph, sense: bool, target: Target): OpenGraph {
    map b | b in g :: g[b].(jt := Redirect(g[b].jt, sense, target), jf := Redirect(g[b].jf, sense, target))
  }

  /** `g` entered at `head` computes `e`: any fuel from the number of primitives up will do. */
  ghost predicate Computes(g: OpenGraph, head: Block, e: Expr)
    requires WellFormed(e)
  {
    forall st, p, fuel: nat :: fuel >= Prims(e) ==> RunOpen(g, To(head), st, p, fuel) == Eval(e, st, p)
  }

  /** Resolved edges stay in the graph and go strictly down in `rank`. */
  ghost predicate Layered(g: OpenGraph, rank: map<Block, nat>, bound: nat) {
    && g.Keys <= rank.Keys
    && forall b {:trigger LayeredNode(g, rank, bound, b)} :: b in g ==> LayeredNode(g, rank, bound, b)
  }

  ghost predicate LayeredNode(g: OpenGraph, rank: map<Block, nat>, bound: nat, b: Block)
    requires g.Keys <= rank.Keys && b in g
  {
    && rank[b] < bound
    && g[b].test.code.Jmp?
    && (g[b].jt.To? ==> g[b].jt.b in g && rank[g[b].jt.b] < rank[b])
    && (g[b].jf.To? ==> g[b].jf.b in g && rank[g[b].jf.b] < rank[b])
  }

  // ----- Joining two fragments -----

  /** Runs of `g0` continue in `g1` exactly where they would have left by the joined exit. */
  ghost function Joined(g0: OpenGraph, g1: OpenGraph, sense: bool, head1: Block): OpenGraph {
    RedirectAll(g0, sense, To(head1)) + g1
  }

  ghost function AndThen(a: Answer, sense: bool, g1: OpenGraph, head1: Block, p: Packet, fuel: nat): Answer {
    if a.Decided? && a.holds == sense then RunOpen(g1, To(head1), a.st, p, fuel) else a
  }

  lemma {:induction false} RunJoinedRight(g0: OpenGraph, g1: OpenGraph, sense: bool, head1: Block,
                                          rank: map<Block, nat>, bound: nat, t: Target, st: State, p: Packet, fuel: nat)
    requires g0.Keys !! g1.Keys && Layered(g1, rank, bound)
    requires t.To? ==> t.b in g1
    ensures RunOpen(Joined(g0, g1, sense, head1), t, st, p, fuel) == RunOpen(g1, t, st, p, fuel)
    decreases fuel
  {
    if t.To? && fuel > 0 {
      assert LayeredNode(g1, rank, bound, t.b);
      match ExecAll(g1[t.b].stmts, st, p)
      case None =>
      case Some(st1) =>
        RunJoinedRight(g0, g1, sense, head1, rank, bound, Branch(g1[t.b], Taken(g1[t.b].test, st1)), st1, p, fuel - 1);
    }
  }

  /** A run that finishes in `g0` within `fuel0` blocks, followed by one of `g1`. */
  lemma {:induction false} RunJoinedLeft(g0: OpenGraph, rank0: map<Block, nat>, bound0: nat, g1: OpenGraph, sense: bool,
                                         head1: Block, rank: map<Block, nat>, bound: nat, t: Target, st: State,
                                         p: Packet, fuel0: nat, fuel: nat)
      returns (left: nat)
    requires g0.Keys !! g1.Keys && Layered(g0, rank0, bound0) && Layered(g1, rank, bound) && head1 in g1
    requires t.To? && t.b in g0
    requires RunOpen(g0, t, st, p, fuel0) != Open && fuel0 <= fuel
    ensures fuel - fuel0 <= left
    ensures RunOpen(Joined(g0, g1, sense, head1), t, st, p, fuel)
         == AndThen(RunOpen(g0, t, st, p, fuel0), sense, g1, head1, p, left)
    decreases fuel0
  {
    var g := Joined(g0, g1, sense, head1);
    left := fuel - 1;
    RunsFrom(g0, t, st, p, fuel0);
    JoinedNode(g0, g1, sense, head1, t.b);
    OpenStep(g0, t.b, st, p, fuel0);
    OpenStep(g, t.b, st, p, fuel);
    assert LayeredNode(g0, rank0, bound0, t.b);
    hide RunOpen, Joined, Layered, Taken, ExecAll;
    var st1 := ExecAll(g0[t.b].stmts, st, p);
    if st1.Some? {
      var next := Branch(g0[t.b], Taken(g0[t.b].test, st1.value));
      if next.To? {
        left := RunJoinedLeft(g0, rank0, bound0, g1, sense, head1, rank, bound, next, st1.value, p,
                              fuel0 - 1, fuel - 1);
      } else {
        JoinedExit(g0, g1, sense, head1, rank, bound, next, st1.value, p, fuel0 - 1, fuel - 1);
      }
    }
  }

  lemma JoinedExit(g0: OpenGraph, g1: OpenGraph, sense: bool, head1: Block, rank: map<Block, nat>, bound: nat,
                   t: Target, st: State, p: Packet, fuel0: nat, fuel: nat)
    requires g0.Keys !! g1.Keys && Layered(g1, rank, bound) && head1 in g1 && t.Exit?
    ensures RunOpen(Joined(g0, g1, sense, head1), Redirect(t, sense, To(head1)), st, p, fuel)
         == AndThen(RunOpen(g0, t, st, p, fuel0), sense, g1, head1, p, fuel)
  {
    hide Joined, Layered;
    ExitRuns(g0, t, st, p, fuel0);
    if t.sense == sense {
      RunJoinedRight(g0, g1, sense, head1, rank, bound, To(head1), st, p, fuel);
    } else {
      ExitRuns(Joined(g0, g1, sense, head1), t, st, p, fuel);
    }
  }

  lemma OpenStep(g: OpenGraph, b: Block, st: State, p: Packet, fuel: nat)
    requires b in g && g[b].test.code.Jmp? && fuel > 0
    ensures RunOpen(g, To(b), st, p, fuel)
         == match ExecAll(g[b].stmts, st, p)
            case None => FaultedAt
            case Some(st1) => RunOpen(g, Branch(g[b], Taken(g[b].test, st1)), st1, p, fuel - 1)
  {
  }

  lemma RunsFrom(g: OpenGraph, t: Target, st: State, p: Packet, fuel: nat)
    requires t.To? && RunOpen(g, t, st, p, fuel) != Open
    ensures fuel > 0 && t.b in g && g[t.b].test.code.Jmp?
  {
  }

  lemma ExitRuns(g: OpenGraph, t: Target, st: State, p: Packet, fuel: nat)
    requires t.Exit?
    ensures RunOpen(g, t, st, p, fuel) == Decided(t.sense, st)
  {
  }

  lemma JoinedNode(g0: OpenGraph, g1: OpenGraph, sense: bool, head1: Block, b: Block)
    requires g0.Keys !! g1.Keys && b in g0
    ensures var g := Joined(g0, g1, sense, head1);
            && b in g && g[b].stmts == g0[b].stmts && g[b].test == g0[b].test
            && forall s :: Branch(g[b], s) == Redirect(Branch(g0[b], s), sense, To(head1))
  {
    assert b in RedirectAll(g0, sense, To(head1)) && b !in g1;
  }

  ghost function JoinedRank(rank0: map<Block, nat>, g0: OpenGraph, rank1: map<Block, nat>, g1: OpenGraph,
                            bound1: nat): map<Block, nat>
    requires g0.Keys <= rank0.Keys && g1.Keys <= rank1.Keys
  {
    (map b | b in g0 :: rank0[b] + bound1) + (map b | b in g1 :: rank1[b])
  }

  lemma JoinedLayered(g0: OpenGraph, g1: OpenGraph, sense: bool, head1: Block, rank0: map<Block, nat>, bound0: nat,
                      rank1: map<Block, nat>, bound1: nat)
    requires g0.Keys !! g1.Keys && head1 in g1
    requires Layered(g0, rank0, bound0) && Layered(g1, rank1, bound1)
    ensures Layered(Joined(g0, g1, sense, head1), JoinedRank(rank0, g0, rank1, g1, bound1), bound0 + bound1)
  {
    var g, rank := Joined(g0, g1, sense, head1), JoinedRank(rank0, g0, rank1, g1, bound1);
    assert LayeredNode(g1, rank1, bound1, head1);
    forall b | b in g
      ensures LayeredNode(g, rank, bound0 + bound1, b)
    {
      if b in g0 {
        assert LayeredNode(g0, rank0, bound0, b);
      } else {
        assert LayeredNode(g1, rank1, bound1, b);
      }
    }
  }

  /** gen_and (sense true) and gen_or (sense false) on open graphs: joining the fragments of
      `l` and `r` computes `l and r`, respectively `l or r`. */
  lemma JoinedComputes(g0: OpenGraph, head0: Block, l: Expr, g1: OpenGraph, head1: Block, r: Expr, sense: bool,
                       rank0: map<Block, nat>, bound0: nat, rank1: map<Block, nat>, bound1: nat)
    requires WellFormed(l) && WellFormed(r)
    requires Computes(g0, head0, l) && Computes(g1, head1, r)
    requires g0.Keys !! g1.Keys && head0 in g0 && head1 in g1
    requires Layered(g0, rank0, bound0) && Layered(g1, rank1, bound1)
    ensures Computes(Joined(g0, g1, sense, head1), head0, if sense then And(l, r) else Or(l, r))
  {
    var e := if sense then And(l, r) else Or(l, r);
    var g := Joined(g0, g1, sense, head1);
    forall st, p, fuel: nat | fuel >= Prims(e)
      ensures RunOpen(g, To(head0), st, p, fuel) == Eval(e, st, p)
    {
      EvalNotOpen(l, st, p);
      var left := RunJoinedLeft(g0, rank0, bound0, g1, sense, head1, rank1, bound1, To(head0), st, p, Prims(l), fuel);
    }
  }

  lemma EvalNotOpen(e: Expr, st: State, p: Packet)
    requires WellFormed(e)
    ensures Eval(e, st, p) != Open
  {
  }

  // ----- Negation: the exits trade places -----

  function FlipTarget(t: Target): Target {
    if t.Exit? then Exit(!t.sense) else t
  }

  ghost function FlipAll(g: OpenGraph): OpenGraph {
    map b | b in g :: g[b].(jt := FlipTarget(g[b].jt), jf := FlipTarget(g[b].jf))
  }

  lemma {:induction false} RunFlipped(g: OpenGraph, t: Target, st: State, p: Packet, fuel: nat)
    ensures RunOpen(FlipAll(g), FlipTarget(t), st, p, fuel) == Negated(RunOpen(g, t, st, p, fuel))
    decreases fuel
  {
    if t.To? && fuel > 0 && t.b in g && g[t.b].test.code.Jmp? {
      match ExecAll(g[t.b].stmts, st, p)
      case None =>
      case Some(st1) =>
        RunFlipped(g, Branch(g[t.b], Taken(g[t.b].test, st1)), st1, p, fuel - 1);
    }
  }

  lemma FlippedComputes(g: OpenGraph, head: Block, e: Expr, rank: map<Block, nat>, bound: nat)
    requires WellFormed(e) && Computes(g, head, e) && Layered(g, rank, bound)
    ensures Computes(FlipAll(g), head, Not(e)) && Layered(FlipAll(g), rank, bound)
  {
    forall st, p, fuel: nat | fuel >= Prims(e)
      ensures RunOpen(FlipAll(g), To(head), st, p, fuel) == Eval(Not(e), st, p)
    {
      RunFlipped(g, To(head), st, p, fuel);
    }
    forall b | b in g
      ensures LayeredNode(FlipAll(g), rank, bound, b)
    {
      assert LayeredNode(g, rank, bound, b);
    }
  }

  // ----- Closing the exits -----

  function Close(t: Target, yes: Block, no: Block): Block {
    match t
    case To(b) => b
    case Exit(v) => if v then yes else no
  }

  ghost function CloseAll(g: OpenGraph, yes: Block, no: Block, snaplen: Word): Graph {
    (map b | b in g :: Node(g[b].stmts, g[b].test, Close(g[b].jt, yes, no), Close(g[b].jf, yes, no)))
    + map[yes := Node([], Stmt(Ret, snaplen), null, null), no := Node([], Stmt(Ret, 0), null, null)]
  }

  /** The verdict an answer stands for once the exits lead to `ret #snaplen` and `ret #0`. */
  function Verdict(a: Answer, snaplen: Word): Outcome {
    match a
    case Decided(v, _) => Returned(if v then snaplen else 0)
    case FaultedAt => Faulted
    case Open => Unfinished
  }

  /** One block of the closed graph, run for one block's worth of fuel. */
  lemma ClosedStep(g: OpenGraph, yes: Block, no: Block, snaplen: Word, b: Block, st: State, p: Packet, fuel: nat)
    requires yes !in g && no !in g && yes != no && b in g && g[b].test.code.Jmp?
    ensures Run(CloseAll(g, yes, no, snaplen), b, st, p, fuel + 1)
         == match ExecAll(g[b].stmts, st, p)
            case None => Faulted
            case Some(st1) =>
              Run(CloseAll(g, yes, no, snaplen), Close(Branch(g[b], Taken(g[b].test, st1)), yes, no), st1, p, fuel)
  {
    var c := CloseAll(g, yes, no, snaplen);
    assert c[b] == Node(g[b].stmts, g[b].test, Close(g[b].jt, yes, no), Close(g[b].jf, yes, no));
    hide CloseAll, ExecAll, Taken, Close;
  }

  /** The exits are returns. */
  lemma ClosedExit(g: OpenGraph, yes: Block, no: Block, snaplen: Word, v: bool, st: State, p: Packet, fuel: nat)
    requires yes !in g && no !in g && yes != no
    ensures Run(CloseAll(g, yes, no, snaplen), Close(Exit(v), yes, no), st, p, fuel + 1)
        == Returned(if v then snaplen else 0)
  {
  }

  lemma {:induction false} RunClosed(g: OpenGraph, yes: Block, no: Block, snaplen: Word, t: Target, st: State,
                                     p: Packet, fuel: nat)
    requires yes !in g && no !in g && yes != no
    requires RunOpen(g, t, st, p, fuel) != Open
    ensures Run(CloseAll(g, yes, no, snaplen), Close(t, yes, no), st, p, fuel + 1)
        == Verdict(RunOpen(g, t, st, p, fuel), snaplen)
    decreases fuel
  {
    match t
    case Exit(v) => ClosedExit(g, yes, no, snaplen, v, st, p, fuel);
    case To(b) =>
      assert fuel > 0 && b in g && g[b].test.code.Jmp? && Close(t, yes, no) == b;
      OpenStep(g, b, st, p, fuel);
      ClosedStep(g, yes, no, snaplen, b, st, p, fuel);
      hide Run, RunOpen, CloseAll, ExecAll, Taken, Close, Branch;
      match ExecAll(g[b].stmts, st, p)
      case None =>
      case Some(st1) =>
        RunClosed(g, yes, no, snaplen, Branch(g[b], Taken(g[b].test, st1)), st1, p, fuel - 1);
  }

  ghost function ClosedRank(g: OpenGraph, rank: map<Block, nat>, yes: Block, no: Block): map<Block, nat>
    requires g.Keys <= rank.Keys
  {
    (map b | b in g :: rank[b] + 1) + map[yes := 0, no := 0]
  }

  lemma ClosedDag(g: OpenGraph, yes: Block, no: Block, snaplen: Word, rank: map<Block, nat>, bound: nat)
    requires yes !in g && no !in g && yes != no && Layered(g, rank, bound)
    ensures Dag(CloseAll(g, yes, no, snaplen), ClosedRank(g, rank, yes, no))
  {
    var c, r := CloseAll(g, yes, no, snaplen), ClosedRank(g, rank, yes, no);
    forall b | b in c
      ensures DagNode(c, r, b)
    {
      if b in g {
        assert LayeredNode(g, rank, bound, b);
      }
    }
  }
}
