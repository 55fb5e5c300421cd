/** The linear form of a program: an array of instructions whose branches skip forward.

    CodeOf is the code of one block, given how far its two successors lie; Assembled says an
    array holds that code for every placed block. */
module AsmSpec {
  import opened Bpf
  import opened Cfg
  import opened LiveStmts

  /** struct bpf_insn */
  datatype Insn = Insn(code: Code, jt: nat, jf: nat, k: nat)

  /** A zeroed instruction reads as `ld #0`. */
  const ZERO: Insn := Insn(LdImm, 0, 0, 0)

  function StmtOf(i: Insn): Stmt {
    Stmt(i.code, i.k % TWO32)
  }

  /** Runs the array from index `pc`; jumps are relative to the next instruction. */
  function RunCode(code: seq<Insn>, pc: nat, st: State, p: Packet): Outcome
    decreases |code| - pc
  {
    if pc >= |code| then Unfinished
    else match code[pc].code
      case Ret => Returned(StmtOf(code[pc]).k)
      case Ja => RunCode(code, pc + 1 + code[pc].k, st, p)
      case Jmp(_, _) =>
        RunCode(code, pc + 1 + (if Taken(StmtOf(code[pc]), st) then code[pc].jt else code[pc].jf), st, p)
      case _ =>
        match Exec(StmtOf(code[pc]), st, p)
        case Some(st1) => RunCode(code, pc + 1, st1, p)
        case None => Faulted
  }

  // ----- Straight-line code -----

  predicate Plain(s: Stmt) {
    !s.code.Jmp? && !s.code.Ja? && !s.code.Ret?
  }

  /** No jumps inside blocks. */
  ghost predicate PlainGraph(g: Graph) {
    forall b {:trigger g[b]} :: b in g ==> forall i {:trigger g[b].stmts[i]} :: 0 <= i < |g[b].stmts| ==>
        Plain(g[b].stmts[i])
  }

  lemma {:induction false} LivePlain(ss: seq<Stmt>)
    requires forall i :: 0 <= i < |ss| ==> Plain(ss[i])
    ensures forall i :: 0 <= i < |Live(ss)| ==> Plain(Live(ss)[i]) && Live(ss)[i].code != Nop
  {
    if ss != [] {
      LivePlain(ss[1..]);
    }
  }

  ghost function Straight(ss: seq<Stmt>): (r: seq<Insn>)
    ensures |r| == |ss|
  {
    seq(|ss|, i requires 0 <= i < |ss| => Insn(ss[i].code, 0, 0, ss[i].k))
  }

  lemma {:induction false} RunStraight(code: seq<Insn>, pc: nat, ss: seq<Stmt>, st: State, p: Packet)
    requires pc + |ss| <= |code| && code[pc..pc + |ss|] == Straight(ss)
    requires forall i :: 0 <= i < |ss| ==> Plain(ss[i])
    ensures RunCode(code, pc, st, p)
         == match ExecAll(ss, st, p) case Some(st1) => RunCode(code, pc + |ss|, st1, p) case None => Faulted
    decreases |ss|
  {
    hide Result, Dest, Taken;
    if ss != [] {
      assert code[pc] == code[pc..pc + |ss|][0] == Insn(ss[0].code, 0, 0, ss[0].k);
      assert StmtOf(code[pc]) == ss[0];
      match Exec(ss[0], st, p)
      case None =>
      case Some(st1) =>
        assert code[pc + 1..pc + 1 + |ss[1..]|] == code[pc..pc + |ss|][1..] == Straight(ss[1..]);
        RunStraight(code, pc + 1, ss[1..], st1, p);
    }
  }

  // ----- The code of a block -----

  /** Whether each branch has room for a long jump. */
  datatype Long = Long(jt: nat, jf: nat)

  ghost function Len(n: Node, l: Long): nat {
    |Live(n.stmts)| + 1 + l.jt + l.jf
  }

  /** The conditional and its long jumps, when the true and false targets lie `dt` and `df`
      instructions past the conditional. */
  function BranchCode(test: Stmt, dt: nat, df: nat): (r: seq<Insn>)
    ensures |r| == 1 + (if dt >= 256 then 1 else 0) + (if df >= 256 then 1 else 0)
  {
    var jumpT := if dt >= 256 then 1 else 0;
    [Insn(test.code, if dt >= 256 then 0 else dt, if df >= 256 then jumpT else df, test.k)]
    + (if dt >= 256 then [Insn(Ja, 0, 0, dt - 1)] else [])
    + (if df >= 256 then [Insn(Ja, 0, 0, df - jumpT - 1)] else [])
  }

  lemma RunBranch(code: seq<Insn>, pc: nat, test: Stmt, dt: nat, df: nat, st: State, p: Packet)
    requires test.code.Jmp? && pc + |BranchCode(test, dt, df)| <= |code|
    requires code[pc..pc + |BranchCode(test, dt, df)|] == BranchCode(test, dt, df)
    ensures RunCode(code, pc, st, p) == RunCode(code, pc + 1 + if Taken(test, st) then dt else df, st, p)
  {
    var c, jumpT := BranchCode(test, dt, df), if dt >= 256 then 1 else 0;
    assert forall i :: 0 <= i < |c| ==> code[pc + i] == c[i];
    assert code[pc + 0] == c[0] && StmtOf(code[pc]) == test;
    assert dt >= 256 ==> code[pc + 1] == c[1] == Insn(Ja, 0, 0, dt - 1);
    assert df >= 256 ==> code[pc + (1 + jumpT)] == c[1 + jumpT] == Insn(Ja, 0, 0, df - jumpT - 1);
    RunTest(code, pc, st, p);
    hide Taken, RunCode, BranchCode, StmtOf;
    if Taken(test, st) {
      if dt >= 256 {
        RunJump(code, pc + 1, dt - 1, st, p);
      }
    } else if df >= 256 {
      RunJump(code, pc + 1 + jumpT, df - jumpT - 1, st, p);
    }
  }

  lemma RunTest(code: seq<Insn>, pc: nat, st: State, p: Packet)
    requires pc < |code| && code[pc].code.Jmp?
    ensures RunCode(code, pc, st, p)
        == RunCode(code, pc + 1 + (if Taken(StmtOf(code[pc]), st) then code[pc].jt else code[pc].jf), st, p)
  {
    hide Taken, StmtOf;
  }

  lemma RunJump(code: seq<Insn>, pc: nat, k: nat, st: State, p: Packet)
    requires pc < |code| && code[pc] == Insn(Ja, 0, 0, k)
    ensures RunCode(code, pc, st, p) == RunCode(code, pc + 1 + k, st, p)
  {
  }

  predicate Fits(l: Long, dt: nat, df: nat) {
    (dt >= 256 ==> l.jt > 0) && (df >= 256 ==> l.jf > 0)
  }

  function Zeros(n: nat): (r: seq<Insn>)
    ensures |r| == n
  {
    seq(n, _ => ZERO)
  }

  ghost function CodeOf(n: Node, l: Long, dt: nat, df: nat): (r: seq<Insn>)
    requires n.test.code.Jmp? ==> Fits(l, dt, df)
    ensures |r| == Len(n, l)
  {
    if n.test.code.Jmp? then
      Straight(Live(n.stmts)) + BranchCode(n.test, dt, df) + Zeros(1 + l.jt + l.jf - |BranchCode(n.test, dt, df)|)
    else
      Straight(Live(n.stmts)) + [Insn(n.test.code, 0, 0, n.test.k)] + Zeros(l.jt + l.jf)
  }

  /** Every conditional offset fits in eight bits. */
  ghost predicate AllShort(code: seq<Insn>) {
    forall i {:trigger code[i]} :: 0 <= i < |code| ==> code[i].jt < 256 && code[i].jf < 256
  }

  lemma CodeOfShort(n: Node, l: Long, dt: nat, df: nat)
    requires n.test.code.Jmp? ==> Fits(l, dt, df)
    ensures AllShort(CodeOf(n, l, dt, df))
  {
    hide Live;
  }

  /** `code` with the instructions from `at` on overwritten by `part`. */
  ghost function Overlay(code: seq<Insn>, at: nat, part: seq<Insn>): (r: seq<Insn>)
    requires at + |part| <= |code|
    ensures |r| == |code|
  {
    code[..at] + part + code[at + |part|..]
  }

  // ----- A whole program -----

  /** How far the successor `c` of `b` lies past the conditional of `b`. */
  ghost function Distance(g: Graph, offs: map<Block, nat>, b: Block, c: Block): int
    requires b in g && b in offs && c in offs
  {
    offs[c] - (offs[b] + |Live(g[b].stmts)|) - 1
  }

  ghost predicate Placed(g: Graph, longs: map<Block, Long>, offs: map<Block, nat>, code: seq<Insn>, b: Block)
    requires g.Keys == longs.Keys == offs.Keys && b in g
  {
    var n := g[b];
    && offs[b] + Len(n, longs[b]) <= |code|
    && if n.test.code.Jmp? then
         && n.jt != null && n.jf != null && n.jt in g && n.jf in g
         && Distance(g, offs, b, n.jt) >= 0 && Distance(g, offs, b, n.jf) >= 0
         && Fits(longs[b], Distance(g, offs, b, n.jt), Distance(g, offs, b, n.jf))
         && code[offs[b]..offs[b] + Len(n, longs[b])]
            == CodeOf(n, longs[b], Distance(g, offs, b, n.jt), Distance(g, offs, b, n.jf))
       else
         && n.test.code == Ret
         && code[offs[b]..offs[b] + Len(n, longs[b])] == CodeOf(n, longs[b], 0, 0)
  }

  ghost predicate Assembled(g: Graph, longs: map<Block, Long>, offs: map<Block, nat>, code: seq<Insn>, bs: set<Block>)
    requires g.Keys == longs.Keys == offs.Keys
  {
    forall b {:trigger Placed(g, longs, offs, code, b)} :: b in bs ==> b in g && Placed(g, longs, offs, code, b)
  }

  lemma Parts(code: seq<Insn>, at: nat, a: seq<Insn>, b: seq<Insn>, c: seq<Insn>)
    requires at + |a| + |b| + |c| <= |code| && code[at..at + |a| + |b| + |c|] == a + b + c
    ensures code[at..at + |a|] == a && code[at + |a|..at + |a| + |b|] == b
  {
    var all := code[at..at + |a| + |b| + |c|];
    assert code[at..at + |a|] == all[..|a|];
    forall i | 0 <= i < |b|
      ensures code[at + |a| + i] == b[i]
    {
      assert all[|a| + i] == b[i];
    }
  }

  lemma RunBlock(g: Graph, longs: map<Block, Long>, offs: map<Block, nat>, code: seq<Insn>, b: Block, st: State,
                 p: Packet)
    requires g.Keys == longs.Keys == offs.Keys && b in g && PlainGraph(g)
    requires Placed(g, longs, offs, code, b)
    ensures RunCode(code, offs[b], st, p)
         == match ExecAll(g[b].stmts, st, p)
            case None => Faulted
            case Some(st1) =>
              if g[b].test.code.Jmp? then RunCode(code, offs[Succ(g[b], Taken(g[b].test, st1))], st1, p)
              else Returned(g[b].test.k)
  {
    hide Taken, Live, ExecAll, Zeros, Straight, BranchCode, RunCode;
    var n, at := g[b], offs[b];
    var live := Live(n.stmts);
    LivePlain(n.stmts);
    LiveMeaning(n.stmts, st, p);
    if n.test.code.Jmp? {
      var dt, df := Distance(g, offs, b, n.jt), Distance(g, offs, b, n.jf);
      var c := BranchCode(n.test, dt, df);
      Parts(code, at, Straight(live), c, Zeros(1 + longs[b].jt + longs[b].jf - |c|));
      RunStraight(code, at, live, st, p);
      if ExecAll(live, st, p).Some? {
        RunBranch(code, at + |live|, n.test, dt, df, ExecAll(live, st, p).value, p);
      }
    } else {
      Parts(code, at, Straight(live), [Insn(n.test.code, 0, 0, n.test.k)], Zeros(longs[b].jt + longs[b].jf));
      RunStraight(code, at, live, st, p);
      assert code[at + |live|] == code[at + |live|..at + |live| + 1][0];
      if ExecAll(live, st, p).Some? {
        RunRet(code, at + |live|, ExecAll(live, st, p).value, p);
      }
    }
  }

  lemma RunRet(code: seq<Insn>, pc: nat, st: State, p: Packet)
    requires pc < |code| && code[pc].code == Ret
    ensures RunCode(code, pc, st, p) == Returned(StmtOf(code[pc]).k)
  {
    hide StmtOf;
  }

  /** Running the array from a block's offset is running the graph from that block. */
  lemma {:induction false} CodeSimulatesGraph(g: Graph, rank: map<Block, nat>, longs: map<Block, Long>,
                                              offs: map<Block, nat>, code: seq<Insn>, root: Block, b: Block, st: State,
                                              p: Packet, fuel: nat)
    requires g.Keys == longs.Keys == offs.Keys && PlainGraph(g) && Dag(g, rank)
    requires root in g && b in Reach(g, rank, root) && Assembled(g, longs, offs, code, Reach(g, rank, root))
    requires rank[b] < fuel
    ensures RunCode(code, offs[b], st, p) == Run(g, b, st, p, fuel)
    decreases fuel
  {
    hide Taken, ExecAll, Placed, PlainGraph;
    assert Placed(g, longs, offs, code, b);
    RunBlock(g, longs, offs, code, b, st, p);
    assert DagNode(g, rank, b);
    match ExecAll(g[b].stmts, st, p)
    case None =>
    case Some(st1) =>
      if g[b].test.code.Jmp? {
        var next := Succ(g[b], Taken(g[b].test, st1));
        ReachClosed(g, rank, root, b);
        assert next in Reach(g, rank, b);
        CodeSimulatesGraph(g, rank, longs, offs, code, root, next, st1, p, fuel - 1);
      }
  }
}
