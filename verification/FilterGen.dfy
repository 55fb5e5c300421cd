/** From an expression tree to a closed program graph: the parser's calls of gen_and, gen_or
    and gen_not, then finish_parse. */
module FilterGen {
  import opened Bpf
  import opened Cfg
  import opened BoolExpr
  import opened BoolGen

  ghost predicate Compiled(f: Frag, e: Expr, rank: map<Block, nat>)
    requires WellFormed(e)
    reads f.g.Keys
  {
    Represents(f) && f.head in f.g && f.last in f.g && Computes(f.g, f.head, e) && Layered(f.g, rank, Prims(e))
  }

  lemma CompiledParts(f: Frag, e: Expr, rank: map<Block, nat>)
    requires WellFormed(e) && Compiled(f, e, rank)
    ensures Represents(f) && f.head in f.g && f.last in f.g && Computes(f.g, f.head, e) && Layered(f.g, rank, Prims(e))
  {
  }

  lemma PrimComputes(b: Block, stmts: seq<Stmt>, test: Stmt)
    requires test.code.Jmp?
    ensures Computes(PrimFrag(b, stmts, test).g, b, Prim(stmts, test))
    ensures Layered(PrimFrag(b, stmts, test).g, map[b := 0], 1)
  {
    var g := PrimFrag(b, stmts, test).g;
    forall st, p, fuel: nat | fuel >= 1
      ensures RunOpen(g, To(b), st, p, fuel) == Eval(Prim(stmts, test), st, p)
    {
      assert g[b].stmts == stmts;
    }
    assert LayeredNode(g, map[b := 0], 1, b);
  }

  /** gen_and on compiled operands. */
  method AndCompiled(b0: Block, b1: Block, ghost f0: Frag, ghost f1: Frag, ghost l: Expr, ghost r: Expr,
                     ghost rank0: map<Block, nat>, ghost rank1: map<Block, nat>)
      returns (ghost f: Frag, ghost rank: map<Block, nat>)
    requires WellFormed(l) && WellFormed(r) && Compiled(f0, l, rank0) && Compiled(f1, r, rank1)
    requires f0.last == b0 && f1.last == b1 && f0.g.Keys !! f1.g.Keys
    modifies f0.g.Keys`jt, f0.g.Keys`jf, f1.g.Keys`jt, f1.g.Keys`jf, b0`sense, b1`sense, b1`head
    ensures Compiled(f, And(l, r), rank) && f.last == b1 && f.g.Keys == f0.g.Keys + f1.g.Keys
  {
    hide Represents, Computes, Layered, JoinedFrag, JoinedRank;
    JoinedCompiled(f0, f1, true, l, r, rank0, rank1);
    f := GenAnd(b0, b1, f0, f1);
    rank := JoinedRank(rank0, f0.g, rank1, f1.g, Prims(r));
  }

  /** One block: statements and a test, negated or not. */
  ghost function TestExpr(stmts: seq<Stmt>, test: Stmt, negate: bool): (e: Expr)
    ensures Prims(e) == 1 && (test.code.Jmp? ==> WellFormed(e))
  {
    assert Prims(Prim(stmts, test)) == 1;
    if negate then Not(Prim(stmts, test)) else Prim(stmts, test)
  }

  method GenTest(stmts: seq<Stmt>, test: Stmt, negate: bool)
      returns (b: Block, ghost f: Frag, ghost rank: map<Block, nat>)
    requires test.code.Jmp?
    ensures fresh(f.g.Keys) && f.last == b && Compiled(f, TestExpr(stmts, test, negate), rank)
  {
    ghost var e := Prim(stmts, test);
    hide Represents, Computes, Layered;
    b, f := GenPrim(stmts, test);
    PrimComputes(b, stmts, test);
    rank := map[b := 0];
    if negate {
      FlippedComputes(f.g, f.head, e, rank, 1);
      f := GenNot(b, f);
      assert Layered(f.g, rank, Prims(Not(e)));
    } else {
      assert Layered(f.g, rank, Prims(e));
    }
  }

  /** What the grammar does with an expression: operands first, left to right. */
  method Compile(e: Expr) returns (b: Block, ghost f: Frag, ghost rank: map<Block, nat>)
    requires WellFormed(e)
    ensures fresh(f.g.Keys) && f.last == b && Compiled(f, e, rank)
  {
    hide Represents, Computes, Layered, JoinedFrag, JoinedRank;
    match e
    case Prim(stmts, test) =>
      b, f := GenPrim(stmts, test);
      PrimComputes(b, stmts, test);
      rank := map[b := 0];
    case And(l, r) =>
      var b0, f0, rank0 := Compile(l);
      ghost var f1, rank1;
      b, f1, rank1 := Compile(r);
      assert Represents(f0);
      JoinedCompiled(f0, f1, true, l, r, rank0, rank1);
      f := GenAnd(b0, b, f0, f1);
      rank := JoinedRank(rank0, f0.g, rank1, f1.g, Prims(r));
    case Or(l, r) =>
      var b0, f0, rank0 := Compile(l);
      ghost var f1, rank1;
      b, f1, rank1 := Compile(r);
      assert Represents(f0);
      JoinedCompiled(f0, f1, false, l, r, rank0, rank1);
      f := GenOr(b0, b, f0, f1);
      rank := JoinedRank(rank0, f0.g, rank1, f1.g, Prims(r));
    case Not(e0) =>
      ghost var f0;
      b, f0, rank := Compile(e0);
      FlippedComputes(f0.g, f0.head, e0, rank, Prims(e0));
      f := GenNot(b, f0);
  }

  lemma JoinedCompiled(f0: Frag, f1: Frag, sense: bool, l: Expr, r: Expr, rank0: map<Block, nat>,
                       rank1: map<Block, nat>)
    requires WellFormed(l) && WellFormed(r) && f0.g.Keys !! f1.g.Keys
    requires f0.head in f0.g && Computes(f0.g, f0.head, l) && Layered(f0.g, rank0, Prims(l))
    requires f1.head in f1.g && Computes(f1.g, f1.head, r) && Layered(f1.g, rank1, Prims(r))
    ensures f0.g.Keys <= rank0.Keys && f1.g.Keys <= rank1.Keys
    ensures var f, e := JoinedFrag(f0, f1, sense), if sense then And(l, r) else Or(l, r);
            && f.g.Keys == f0.g.Keys + f1.g.Keys && f.last == f1.last && f.head == f0.head
            && f.head in f.g && (f1.last in f1.g ==> f.last in f.g)
            && Computes(f.g, f.head, e)
            && Layered(f.g, JoinedRank(rank0, f0.g, rank1, f1.g, Prims(r)), Prims(e))
  {
    JoinedShape(f0, f1, sense, l, r, rank0, rank1);
    hide *;
    JoinedComputes(f0.g, f0.head, l, f1.g, f1.head, r, sense, rank0, Prims(l), rank1, Prims(r));
    JoinedLayered(f0.g, f1.g, sense, f1.head, rank0, Prims(l), rank1, Prims(r));
  }

  lemma JoinedShape(f0: Frag, f1: Frag, sense: bool, l: Expr, r: Expr, rank0: map<Block, nat>, rank1: map<Block, nat>)
    requires f0.g.Keys !! f1.g.Keys && f0.head in f0.g && Layered(f0.g, rank0, Prims(l))
    requires Layered(f1.g, rank1, Prims(r))
    ensures f0.g.Keys <= rank0.Keys && f1.g.Keys <= rank1.Keys
    ensures var f, e := JoinedFrag(f0, f1, sense), if sense then And(l, r) else Or(l, r);
            && f.g == Joined(f0.g, f1.g, sense, f1.head) && f.g.Keys == f0.g.Keys + f1.g.Keys && f.last == f1.last
            && f.head == f0.head
            && Prims(e) == Prims(l) + Prims(r)
  {
  }

  // ----- finish_parse -----

  /** Wires with every exit sent to a return block. */
  ghost function ClosedWires(w: map<Block, Wires>, f: Frag, yes: Block, no: Block): map<Block, Wires>
    requires f.last in w
  {
    PatchAll(FlipSense(PatchAll(w, Members(f.yes), yes), f.last), Members(f.no), no)
  }

  lemma ClosedBranch(f: Frag, w: map<Block, Wires>, yes: Block, no: Block, b: Block, d: bool)
    requires Pictured(f, w) && b in f.g
    ensures Field(ClosedWires(w, f, yes, no)[b], d) == Close(Branch(f.g[b], d), yes, no)
  {
    assert BranchPictured(f, w[b], b, d);
  }

  lemma ClosedNode(f: Frag, w: map<Block, Wires>, yes: Block, no: Block, snaplen: Word, S: set<Block>, b: Block)
    requires Pictured(f, w) && S == f.g.Keys && yes !in S && no !in S && b in S
    requires WiresOf(S) == ClosedWires(w, f, yes, no) && Labelled(f.g, LabelsOf(S))
    ensures NodeOf(b) == CloseAll(f.g, yes, no, snaplen)[b]
  {
    assert WiresOf(S)[b] == Wires(b.sense, b.jt, b.jf);
    assert LabelsOf(S)[b] == (b.stmts, b.s);
    hide Pictured, ClosedWires, LabelsOf, WiresOf;
    ClosedBranch(f, w, yes, no, b, true);
    ClosedBranch(f, w, yes, no, b, false);
  }

  lemma ClosedGraph(f: Frag, w: map<Block, Wires>, yes: Block, no: Block, snaplen: Word, S: set<Block>)
    requires Pictured(f, w) && S == f.g.Keys && yes !in S && no !in S && yes != no
    requires WiresOf(S) == ClosedWires(w, f, yes, no) && Labelled(f.g, LabelsOf(S))
    requires NodeOf(yes) == Node([], Stmt(Ret, snaplen), null, null)
    requires NodeOf(no) == Node([], Stmt(Ret, 0), null, null)
    ensures GraphOf(S + {yes, no}) == CloseAll(f.g, yes, no, snaplen)
  {
    hide Pictured, ClosedWires, LabelsOf, WiresOf, Labelled;
    var c := CloseAll(f.g, yes, no, snaplen);
    forall b | b in S
      ensures NodeOf(b) == c[b]
    {
      ClosedNode(f, w, yes, no, snaplen, S, b);
    }
    assert c.Keys == S + {yes, no};
  }

  lemma FlipKeepsThread(w: map<Block, Wires>, f: Frag, yes: Block)
    requires Pictured(f, w) && Threaded(FlipSense(w, f.last), f.no)
    ensures Threaded(FlipSense(PatchAll(w, Members(f.yes), yes), f.last), f.no)
  {
    forall i | 0 <= i < |f.no|
      ensures f.no[i] in f.yes ==> f.no[i] == f.last
    {
      assert f.no[i] in f.no;
    }
  }

  /** finish_parse, for link types without variable-length headers: the exits become
      `ret #snaplen` and `ret #0`. */
  method FinishParse(p: Block, snaplen: Word, ghost f: Frag) returns (root: Block, ghost yes: Block, ghost no: Block)
    requires Represents(f) && f.last == p
    modifies f.g.Keys`jt, f.g.Keys`jf, p`sense
    ensures root == f.head && fresh(yes) && fresh(no) && yes != no
    ensures GraphOf(f.g.Keys + {yes, no}) == CloseAll(f.g, yes, no, snaplen)
  {
    hide WiresOf, LabelsOf, Labelled, PatchAll, FlipSense, Pictured, Threaded, Represents, CloseAll;
    ghost var S := f.g.Keys;
    ghost var w := WiresOf(S);
    Heads(f, S);
    var ret1 := new Block([], Stmt(Ret, snaplen));
    FlipKeepsThread(w, f, ret1);
    Backpatch(p, ret1, f.yes, S);
    Flip(p, S);
    var ret0 := new Block([], Stmt(Ret, 0));
    Backpatch(p, ret0, f.no, S);
    root := p.head;
    yes, no := ret1, ret0;
    ClosedGraph(f, w, yes, no, snaplen, S);
  }

  /** The whole front end on a boolean filter: the graph is closed and acyclic, and it returns
      `snaplen` exactly when the expression holds, 0 when it does not, and faults when it does. */
  method CompileFilter(e: Expr, snaplen: Word) returns (root: Block, ghost S: set<Block>, ghost rank: map<Block, nat>)
    requires WellFormed(e)
    ensures fresh(S) && root in S && Dag(GraphOf(S), rank) && rank[root] <= Prims(e)
    ensures forall st, p, fuel: nat :: fuel > Prims(e) ==>
              Run(GraphOf(S), root, st, p, fuel) == Verdict(Eval(e, st, p), snaplen)
  {
    hide Represents, Computes, Layered, CloseAll, ClosedRank, Dag, GraphOf;
    var b, f, rank0 := Compile(e);
    ghost var yes, no;
    root, yes, no := FinishParse(b, snaplen, f);
    S := f.g.Keys + {yes, no};
    FilterCorrect(f, e, rank0, yes, no, snaplen);
    rank := ClosedRank(f.g, rank0, yes, no);
  }

  lemma FilterCorrect(f: Frag, e: Expr, rank: map<Block, nat>, yes: Block, no: Block, snaplen: Word)
    requires WellFormed(e) && f.head in f.g && Computes(f.g, f.head, e) && Layered(f.g, rank, Prims(e))
    requires yes !in f.g && no !in f.g && yes != no
    ensures f.g.Keys <= rank.Keys
    ensures Dag(CloseAll(f.g, yes, no, snaplen), ClosedRank(f.g, rank, yes, no))
    ensures ClosedRank(f.g, rank, yes, no)[f.head] <= Prims(e)
    ensures forall st, p, fuel: nat :: fuel > Prims(e) ==>
              Run(CloseAll(f.g, yes, no, snaplen), f.head, st, p, fuel) == Verdict(Eval(e, st, p), snaplen)
  {
    hide *;
    HeadRank(f, e, rank, yes, no);
    ClosedDag(f.g, yes, no, snaplen, rank, Prims(e));
    forall st, p, fuel: nat | fuel > Prims(e)
      ensures Run(CloseAll(f.g, yes, no, snaplen), f.head, st, p, fuel) == Verdict(Eval(e, st, p), snaplen)
    {
      FilterRun(f, e, yes, no, snaplen, st, p, fuel);
    }
  }

  lemma HeadRank(f: Frag, e: Expr, rank: map<Block, nat>, yes: Block, no: Block)
    requires f.head in f.g && Layered(f.g, rank, Prims(e)) && yes !in f.g && no !in f.g
    ensures f.g.Keys <= rank.Keys && f.head in ClosedRank(f.g, rank, yes, no)
    ensures ClosedRank(f.g, rank, yes, no)[f.head] <= Prims(e)
  {
    assert LayeredNode(f.g, rank, Prims(e), f.head);
  }

  lemma FilterRun(f: Frag, e: Expr, yes: Block, no: Block, snaplen: Word, st: State, p: Packet, fuel: nat)
    requires WellFormed(e) && Computes(f.g, f.head, e) && yes !in f.g && no !in f.g && yes != no && fuel > Prims(e)
    ensures Run(CloseAll(f.g, yes, no, snaplen), f.head, st, p, fuel) == Verdict(Eval(e, st, p), snaplen)
  {
    EvalNotOpen(e, st, p);
    assert RunOpen(f.g, To(f.head), st, p, fuel - 1) == Eval(e, st, p);
    RunClosed(f.g, yes, no, snaplen, To(f.head), st, p, fuel - 1);
    hide Run, RunOpen, CloseAll, Eval, Verdict;
  }
}
