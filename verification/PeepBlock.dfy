/** The branch half of opt_peep, and the whole of it on a block. */
module PeepBlock {
  import opened Bpf
  import opened Cfg
  import opened Atoms
  import opened LiveStmts
  import opened LastDefs
  import opened DeadStores
  import opened PeepStmts
  import opened PeepRules
  import opened ValueTable
  import opened Symbolic
  import opened Peephole

  // ----- What a block must keep -----

  /** X matters to the branch: it is compared with, or subtracted. */
  ghost predicate XMatters(n: Node) {
    (n.test.code.Jmp? && n.test.code.jsrc == X) || exists k :: 0 <= k < |n.stmts| && n.stmts[k].code == Alu(SUB, X)
  }

  /** The exit table is right about a constant in A, and in X if that matters. */
  ghost predicate ExitOk(n: Node, keys: seq<Key>, val: Vals, st: State) {
    && (Const(keys, val[A_ATOM]) ==> st[A_ATOM] == ConstVal(keys, val[A_ATOM]))
    && (Const(keys, val[X_ATOM]) && XMatters(n) ==> st[X_ATOM] == ConstVal(keys, val[X_ATOM]))
  }

  /** The successor a finished block goes to. */
  ghost function Next(n: Node, st: State): Block? {
    if n.test.code.Jmp? then Succ(n, Taken(n.test, st)) else null
  }

  /** What the rules take for granted: no use of X is left behind (`sure`), and, when `ones` is set, the runs
      leave a nonzero A. */
  datatype Premise = Premise(sure: bool, ones: bool)

  /** On every run of `n0` that does not fault and leaves a state the exit table is right about, `n`
      does not fault either, leaves the same values in the atoms of `Z`, and goes to the same
      successor; as far as the premise goes. */
  ghost predicate Keeps(n0: Node, n: Node, Z: set<Atom>, keys: seq<Key>, val: Vals, q: Premise) {
    forall st, p {:trigger ExecAll(n0.stmts, st, p)} :: ExecAll(n0.stmts, st, p).Some? ==>
      KeepsRun(n0, n, Z, keys, val, q, st, p)
  }

  ghost predicate KeepsRun(n0: Node, n: Node, Z: set<Atom>, keys: seq<Key>, val: Vals, q: Premise, st: State, p: Packet)
    requires ExecAll(n0.stmts, st, p).Some?
  {
    var st1 := ExecAll(n0.stmts, st, p).value;
    ExitOk(n0, keys, val, st1) && q.sure && (q.ones ==> st1[A_ATOM] != 0) ==>
      && ExecAll(n.stmts, st, p).Some?
      && AgreeOn(st1, ExecAll(n.stmts, st, p).value, Z)
      && (q.ones ==> ExecAll(n.stmts, st, p).value[A_ATOM] == st1[A_ATOM])
      && Next(n0, st1) == Next(n, ExecAll(n.stmts, st, p).value)
  }

  /** The same without the word in A, which matters only on the way. */
  ghost predicate Carries(n0: Node, n: Node, Z: set<Atom>, keys: seq<Key>, val: Vals, q: Premise) {
    forall st, p {:trigger ExecAll(n0.stmts, st, p)} :: ExecAll(n0.stmts, st, p).Some? ==>
      CarriesRun(n0, n, Z, keys, val, q, st, p)
  }

  ghost predicate CarriesRun(n0: Node, n: Node, Z: set<Atom>, keys: seq<Key>, val: Vals, q: Premise, st: State,
                             p: Packet)
    requires ExecAll(n0.stmts, st, p).Some?
  {
    var st1 := ExecAll(n0.stmts, st, p).value;
    ExitOk(n0, keys, val, st1) && q.sure && (q.ones ==> st1[A_ATOM] != 0) ==>
      && ExecAll(n.stmts, st, p).Some?
      && AgreeOn(st1, ExecAll(n.stmts, st, p).value, Z)
      && Next(n0, st1) == Next(n, ExecAll(n.stmts, st, p).value)
  }

  /** After the rules, dead-store removal: what both keep is kept. */
  lemma KeepsDead(n0: Node, n1: Node, n2: Node, Z1: set<Atom>, Z2: set<Atom>, Z: set<Atom>, keys: seq<Key>, val: Vals,
                  q: Premise)
    requires Keeps(n0, n1, Z1, keys, val, q) && Z <= Z1 && Z <= Z2
    requires n2 == n1.(stmts := n2.stmts) && KeepsBlock(n1.stmts, n2.stmts, n1.test, Z2)
    ensures Carries(n0, n2, Z, keys, val, q)
  {
    forall st, p {:trigger ExecAll(n0.stmts, st, p)} | ExecAll(n0.stmts, st, p).Some?
      ensures CarriesRun(n0, n2, Z, keys, val, q, st, p)
    {
      assert KeepsRun(n0, n1, Z1, keys, val, q, st, p);
      hide ExitOk, Taken;
    }
  }

  lemma CarriesLess(n0: Node, n: Node, Z: set<Atom>, Z1: set<Atom>, keys: seq<Key>, val: Vals, q: Premise)
    requires Carries(n0, n, Z, keys, val, q) && Z1 <= Z
    ensures Carries(n0, n, Z1, keys, val, q)
  {
    forall st, p {:trigger ExecAll(n0.stmts, st, p)} | ExecAll(n0.stmts, st, p).Some?
      ensures CarriesRun(n0, n, Z1, keys, val, q, st, p)
    {
      assert CarriesRun(n0, n, Z, keys, val, q, st, p);
    }
  }

  lemma KeepsLess(n0: Node, n: Node, Z: set<Atom>, Z1: set<Atom>, keys: seq<Key>, val: Vals, q: Premise)
    requires Keeps(n0, n, Z, keys, val, q) && Z1 <= Z
    ensures Keeps(n0, n, Z1, keys, val, q)
  {
    forall st, p {:trigger ExecAll(n0.stmts, st, p)} | ExecAll(n0.stmts, st, p).Some?
      ensures KeepsRun(n0, n, Z1, keys, val, q, st, p)
    {
      assert KeepsRun(n0, n, Z, keys, val, q, st, p);
    }
  }

  lemma KeepsStmts(n0: Node, ss: seq<Stmt>, dead: set<Atom>, keys: seq<Key>, val: Vals, q: Premise)
    requires MemOk(n0.test) && Preserves(n0.stmts, ss, dead) && dead !! AtomUse(n0.test) && A_ATOM !in dead
    ensures Keeps(n0, n0.(stmts := ss), AllAtoms() - dead, keys, val, q)
  {
    forall st, p {:trigger ExecAll(n0.stmts, st, p)} | ExecAll(n0.stmts, st, p).Some?
      ensures KeepsRun(n0, n0.(stmts := ss), AllAtoms() - dead, keys, val, q, st, p)
    {
      var st1, st2 := ExecAll(n0.stmts, st, p).value, ExecAll(ss, st, p).value;
      assert SameBut(st1, st2, dead);
      if n0.test.code.Jmp? {
        TakenAgree(n0.test, st1, st2);
      }
    }
  }

  // ----- Merging the last statement into the branch -----

  function Operand(s: Stmt, st: State): Word
    requires s.code.Alu?
  {
    if s.code.src == X then st[X_ATOM] else s.k
  }

  lemma {:induction false} ExecNops(ss: seq<Stmt>, st: State, p: Packet)
    requires AllNop(ss, 0)
    ensures ExecAll(ss, st, p) == Some(st)
    decreases |ss|
  {
    if ss != [] {
      assert ss[0].code == Nop;
      assert AllNop(ss[1..], 0) by {
        forall k {:trigger ss[1..][k]} | 0 <= k < |ss| - 1
          ensures ss[1..][k].code == Nop
        {
          assert ss[1..][k] == ss[k + 1];
        }
      }
      ExecNops(ss[1..], st, p);
    }
  }

  /** Without its last arithmetic statement a block leaves the operand of it in A. */
  lemma DropAlu(ss: seq<Stmt>, last: nat, st: State, p: Packet)
    requires last < |ss| && ss[last].code.Alu? && AllNop(ss, last + 1) && ExecAll(ss, st, p).Some?
    ensures var ss1 := ss[last := Stmt(Nop, ss[last].k)];
            && ExecAll(ss1, st, p).Some?
            && var (st2, st3) := (ExecAll(ss, st, p).value, ExecAll(ss1, st, p).value);
               && SameBut(st2, st3, {A_ATOM})
               && AluEval(ss[last].code.op, st3[A_ATOM], Operand(ss[last], st3)) == Some(st2[A_ATOM])
  {
    hide AluEval;
    var ss1 := ss[last := Stmt(Nop, ss[last].k)];
    SplitAt(ss, last, st, p);
    SplitAt(ss1, last, st, p);
    assert ss1[..last] == ss[..last] && ss1[last + 1..] == ss[last + 1..];
    var st3 := ExecAll(ss[..last], st, p).value;
    assert AllNop(ss[last + 1..], 0) by {
      forall k {:trigger ss[last + 1..][k]} | 0 <= k < |ss| - last - 1
        ensures ss[last + 1..][k].code == Nop
      {
        assert ss[last + 1..][k] == ss[last + 1 + k];
      }
    }
    ExecNops(ss[last + 1..], st3, p);
    ExecNops(ss[last + 1..], Exec(ss[last], st3, p).value, p);
  }

  /** The merged branch decides as the subtraction or conjunction and the comparison did. */
  ghost predicate Merged(s: Stmt, n: Node, test1: Stmt, jt1: Block?, jf1: Block?, keys: seq<Key>, val: Vals) {
    s.code.Alu? && n.test.code == Jmp(JEQ, K) &&
    match s.code.op
    case SUB =>
      && jt1 == n.jt && jf1 == n.jf
      && (|| (s.code.src == X && Const(keys, val[X_ATOM])
           && test1 == Stmt(Jmp(JEQ, K), Wrap(n.test.k + ConstVal(keys, val[X_ATOM]))))
          || (s.code.src == X && !Const(keys, val[X_ATOM]) && n.test.k == 0 && test1 == Stmt(Jmp(JEQ, X), n.test.k))
          || (s.code.src == K && test1 == Stmt(Jmp(JEQ, K), Wrap(n.test.k + s.k))))
    case AND => s.code.src == K && n.test.k == 0 && test1 == Stmt(Jmp(JSET, K), s.k) && jt1 == n.jf && jf1 == n.jt
    case _ => false
  }

  lemma SubtractEquals(a: Word, x: Word, y: Word)
    ensures Wrap(a - x) == y <==> a == Wrap(y + x)
  {
  }

  lemma MergedDecides(s: Stmt, n: Node, test1: Stmt, jt1: Block?, jf1: Block?, keys: seq<Key>, val: Vals, st2: State,
                      st3: State)
    requires Merged(s, n, test1, jt1, jf1, keys, val) && SameBut(st2, st3, {A_ATOM})
    requires AluEval(s.code.op, st3[A_ATOM], Operand(s, st3)) == Some(st2[A_ATOM])
    requires s.code.src == X && Const(keys, val[X_ATOM]) ==> st2[X_ATOM] == ConstVal(keys, val[X_ATOM])
    ensures Next(n, st2) == Next(Node(n.stmts, test1, jt1, jf1), st3)
  {
    SubtractEquals(st3[A_ATOM], Operand(s, st3), n.test.k);
  }

  lemma KeepsMerged(n0: Node, n: Node, last: nat, test1: Stmt, jt1: Block?, jf1: Block?, Z: set<Atom>, keys: seq<Key>,
                    val: Vals, q: Premise)
    requires Keeps(n0, n, Z, keys, val, q) && last < |n.stmts| && AllNop(n.stmts, last + 1)
    requires Merged(n.stmts[last], n, test1, jt1, jf1, keys, val)
    requires n.stmts[last].code.src == X ==> X_ATOM in Z && XMatters(n0)
    requires q.ones ==> n.stmts[last] == Stmt(Alu(AND, K), MAX_WORD)
    ensures Keeps(n0, Node(n.stmts[last := Stmt(Nop, n.stmts[last].k)], test1, jt1, jf1), Z - {A_ATOM}, keys, val, q)
  {
    var s, ss1 := n.stmts[last], n.stmts[last := Stmt(Nop, n.stmts[last].k)];
    var n1 := Node(ss1, test1, jt1, jf1);
    forall st, p {:trigger ExecAll(n0.stmts, st, p)} | ExecAll(n0.stmts, st, p).Some?
      ensures KeepsRun(n0, n1, Z - {A_ATOM}, keys, val, q, st, p)
    {
      assert KeepsRun(n0, n, Z, keys, val, q, st, p);
      var st1 := ExecAll(n0.stmts, st, p).value;
      if ExitOk(n0, keys, val, st1) && q.sure && (q.ones ==> st1[A_ATOM] != 0) {
        DropAlu(n.stmts, last, st, p);
        var st2, st3 := ExecAll(n.stmts, st, p).value, ExecAll(ss1, st, p).value;
        MergedDecides(s, n, test1, jt1, jf1, keys, val, st2, st3);
        if q.ones {
          BitAndMaxWord(st3[A_ATOM]);
        }
        hide Merged, Const, ConstVal;
      }
    }
  }

  // ----- Deciding the branch -----

  /** The block leads nowhere it did not lead before. */
  predicate Onward(n0: Node, n: Node) {
    n.jt in {n0.jt, n0.jf} && n.jf in {n0.jt, n0.jf}
  }

  /** jset #0 never branches. */
  lemma KeepsZero(n0: Node, n: Node, Z: set<Atom>, keys: seq<Key>, val: Vals, q: Premise)
    requires Keeps(n0, n, Z, keys, val, q) && n.test == Stmt(Jmp(JSET, K), 0)
    ensures Keeps(n0, n.(jt := n.jf), Z, keys, val, q)
  {
    forall st, p {:trigger ExecAll(n0.stmts, st, p)} | ExecAll(n0.stmts, st, p).Some?
      ensures KeepsRun(n0, n.(jt := n.jf), Z, keys, val, q, st, p)
    {
      assert KeepsRun(n0, n, Z, keys, val, q, st, p);
    }
  }

  /** jset #0xffffffff is taken to branch always; that is so just when A is not 0. */
  lemma AllOnesRule(n: Node, st: State)
    requires n.test == Stmt(Jmp(JSET, K), MAX_WORD)
    ensures Next(n.(jf := n.jt), st) == Next(n, st) <==> st[A_ATOM] != 0 || n.jt == n.jf
  {
    BitAndMaxWord(st[A_ATOM]);
  }

  lemma KeepsOnes(n0: Node, n: Node, Z: set<Atom>, keys: seq<Key>, val: Vals, q: Premise)
    requires Keeps(n0, n, Z, keys, val, q) && q.ones && n.test == Stmt(Jmp(JSET, K), MAX_WORD)
    ensures Keeps(n0, n.(jf := n.jt), Z, keys, val, q)
  {
    forall st, p {:trigger ExecAll(n0.stmts, st, p)} | ExecAll(n0.stmts, st, p).Some?
      ensures KeepsRun(n0, n.(jf := n.jt), Z, keys, val, q, st, p)
    {
      assert KeepsRun(n0, n, Z, keys, val, q, st, p);
      if ExecAll(n.stmts, st, p).Some? {
        AllOnesRule(n, ExecAll(n.stmts, st, p).value);
      }
    }
  }

  /** A comparison with an index register that is a known constant. */
  lemma KeepsConstX(n0: Node, n: Node, Z: set<Atom>, keys: seq<Key>, val: Vals, q: Premise)
    requires Keeps(n0, n, Z, keys, val, q) && n.test.code.Jmp? && n.test.code.jsrc == X
    requires Const(keys, val[X_ATOM]) && X_ATOM in Z && XMatters(n0)
    ensures Keeps(n0, n.(test := Stmt(Jmp(n.test.code.jop, K), ConstVal(keys, val[X_ATOM]))), Z, keys, val, q)
  {
    var n1 := n.(test := Stmt(Jmp(n.test.code.jop, K), ConstVal(keys, val[X_ATOM])));
    forall st, p {:trigger ExecAll(n0.stmts, st, p)} | ExecAll(n0.stmts, st, p).Some?
      ensures KeepsRun(n0, n1, Z, keys, val, q, st, p)
    {
      assert KeepsRun(n0, n, Z, keys, val, q, st, p);
    }
  }

  /** A comparison of two constants. */
  lemma KeepsConstA(n0: Node, n: Node, Z: set<Atom>, keys: seq<Key>, val: Vals, q: Premise, c: Word)
    requires Keeps(n0, n, Z, keys, val, q) && n.test.code.Jmp? && n.test.code.jsrc == K
    requires Const(keys, val[A_ATOM]) && c == ConstVal(keys, val[A_ATOM]) && A_ATOM in Z
    ensures Compare(n.test.code.jop, c, n.test.k) ==> Keeps(n0, n.(jf := n.jt), Z, keys, val, q)
    ensures !Compare(n.test.code.jop, c, n.test.k) ==> Keeps(n0, n.(jt := n.jf), Z, keys, val, q)
  {
    var n1 := if Compare(n.test.code.jop, c, n.test.k) then n.(jf := n.jt) else n.(jt := n.jf);
    forall st, p {:trigger ExecAll(n0.stmts, st, p)} | ExecAll(n0.stmts, st, p).Some?
      ensures KeepsRun(n0, n1, Z, keys, val, q, st, p)
    {
      assert KeepsRun(n0, n, Z, keys, val, q, st, p);
    }
  }

  // ----- opt_peep -----

  /** The rule for jset #0xffffffff applies: to such a branch, or to the one made of
      `and #0xffffffff` and a comparison with 0. */
  ghost predicate AllOnes(n: Node, outUse: set<Atom>) {
    || n.test == Stmt(Jmp(JSET, K), MAX_WORD)
    || (n.test == Stmt(Jmp(JEQ, K), 0) && A_ATOM !in outUse
        && exists j :: 0 <= j < |n.stmts| && n.stmts[j] == Stmt(Alu(AND, K), MAX_WORD) && AllNop(n.stmts, j + 1))
  }

  /** What opt_peep takes for granted of a block. */
  ghost function Asked(n: Node, outUse: set<Atom>): Premise {
    Premise(AllMemOk(n.stmts) && MemOk(n.test) && NoLateX(n.stmts, n.test, outUse), AllOnes(n, outUse))
  }

  lemma NoLaterLoad(ss: seq<Stmt>, last: nat, k: nat)
    requires AllNop(ss, last + 1) && last < k
    ensures !LaterLoad(ss, k)
  {
  }

  /** A subtraction of X at the end shows that X was not left different. */
  lemma NotGone(ss: seq<Stmt>, last: nat, test: Stmt, outUse: set<Atom>)
    requires MemOk(test) && XGone(ss, test, outUse) && last < |ss| && ss[last].code.Alu? && AllNop(ss, last + 1)
    ensures ss[last].code != Alu(SUB, X)
  {
    var m :| 0 <= m < |ss| && ss[m].code.LdInd? && NoSubX(ss, m);
    assert m <= last;
  }

  /** A statement of arithmetic at the end is an original one, and was at the end already. */
  lemma EndsSame(ss0: seq<Stmt>, ss: seq<Stmt>, last: nat)
    requires Shape(ss0, ss) && last < |ss| && ss[last].code.Alu? && AllNop(ss, last + 1)
    ensures ss0[last] == ss[last] && AllNop(ss0, last + 1)
  {
    forall k {:trigger ss0[k]} | last + 1 <= k < |ss0|
      ensures ss0[k].code == Nop
    {
      assert ss[k].code == Nop;
      NoLaterLoad(ss, last, k);
    }
  }

  /** What opt_peep may assume of the block and its exit table. */
  ghost predicate PeepReady(n: Node, outUse: set<Atom>, keys: seq<Key>, val: Vals) {
    && AllMemOk(n.stmts) && MemOk(n.test) && WellKeyed(keys) && Bounded(keys, val)
    && (n.test.code.Jmp? || (n.test.code == Ret && n.stmts == []))
    && (EndsInAlu(n.stmts) ==> !Const(keys, val[A_ATOM]))
  }

  /** The block as it stands, and the live or still consulted atoms that have been kept. */
  ghost predicate Decidable(n0: Node, n: Node, Z: set<Atom>, outUse: set<Atom>, keys: seq<Key>, val: Vals) {
    && Keeps(n0, n, Z, keys, val, Asked(n0, outUse)) && outUse <= Z && n.test.code.Jmp?
    && (n.test.code.jsrc == X ==> X_ATOM in Z && (Const(keys, val[X_ATOM]) ==> XMatters(n0)))
    && (Const(keys, val[A_ATOM]) ==> A_ATOM in Z)
  }

  /** The same before the jset rules have been tried. */
  ghost predicate Stage(n0: Node, n: Node, Z: set<Atom>, outUse: set<Atom>, keys: seq<Key>, val: Vals) {
    Decidable(n0, n, Z, outUse, keys, val) && (n.test == Stmt(Jmp(JSET, K), MAX_WORD) ==> AllOnes(n0, outUse))
  }

  /** A merge at the last statement carries the stage over. */
  lemma StageMerged(n0: Node, n: Node, last: nat, dead: set<Atom>, test1: Stmt, jt1: Block?, jf1: Block?,
                    outUse: set<Atom>, keys: seq<Key>, val: Vals)
    requires PeepReady(n0, outUse, keys, val) && n == n0.(stmts := n.stmts) && Shape(n0.stmts, n.stmts)
    requires Keeps(n0, n, AllAtoms() - dead, keys, val, Asked(n0, outUse)) && Lost(dead, n.stmts, n.test, outUse)
    requires last < |n.stmts| && AllNop(n.stmts, last + 1) && A_ATOM !in outUse
    requires Merged(n.stmts[last], n, test1, jt1, jf1, keys, val)
    requires n.stmts[last].code.src == X ==> n.stmts[last].code == Alu(SUB, X)
    ensures Stage(n0, Node(n.stmts[last := Stmt(Nop, n.stmts[last].k)], test1, jt1, jf1), AllAtoms() - dead - {A_ATOM},
        outUse, keys, val)
  {
    hide NoLateX, Keeps, ExecAll, Taken;
    var s, q, Z := n.stmts[last], Asked(n0, outUse), AllAtoms() - dead;
    EndsSame(n0.stmts, n.stmts, last);
    assert EndsInAlu(n0.stmts);
    if s.code.src == X {
      assert n0.stmts[last].code == Alu(SUB, X) && XMatters(n0);
    }
    if X_ATOM in dead {
      NotGone(n.stmts, last, n.test, outUse);
    }
    if q.ones {
      var j :| 0 <= j < |n0.stmts| && n0.stmts[j] == Stmt(Alu(AND, K), MAX_WORD) && AllNop(n0.stmts, j + 1);
      assert j == last;
    }
    KeepsMerged(n0, n, last, test1, jt1, jf1, Z, keys, val, q);
    assert outUse <= Z - {A_ATOM};
    hide Keeps, Lost, Shape, NoLateX;
  }

  /** Deleting the last statement gives up A. */
  lemma MergeGone(ss0: seq<Stmt>, ss: seq<Stmt>, last: nat)
    requires Shape(ss0, ss) && last < |ss| && ss[last].code.Alu? && AllNop(ss, last + 1)
    ensures Gone(ss0, ss[last := Stmt(Nop, ss[last].k)]) == Gone(ss0, ss) + {A_ATOM}
  {
    EndsSame(ss0, ss, last);
    hide Shape;
    assert forall k {:trigger ss0[k]} :: last < k < |ss0| ==> ss0[k].code == Nop;
    assert LastDef(ss0, last, A_ATOM);
    GoneOne(ss0, ss, last, ss[last].k, A_ATOM);
  }

  /** The last statement is live, A is not, and the statements have been rewritten soundly. */
  ghost predicate MergeReady(b: Block, last: nat, keys: seq<Key>, n0: Node, dead: set<Atom>)
    reads b
  {
    && PeepReady(n0, b.outUse, keys, b.val)
    && NodeOf(b) == n0.(stmts := b.stmts) && Shape(n0.stmts, b.stmts)
    && Keeps(n0, NodeOf(b), AllAtoms() - dead, keys, b.val, Asked(n0, b.outUse)) && Lost(dead, b.stmts, b.s, b.outUse)
    && last < |b.stmts| && AllNop(b.stmts, last + 1) && A_ATOM !in b.outUse
  }

  /** Deletes the last statement and makes the branch `test1`. */
  method Merge(b: Block, last: nat, test1: Stmt, jt1: Block?, jf1: Block?, ghost keys: seq<Key>, ghost n0: Node,
               ghost dead: set<Atom>)
    requires MergeReady(b, last, keys, n0, dead) && last < |b.stmts|
    requires Merged(b.stmts[last], NodeOf(b), test1, jt1, jf1, keys, b.val)
    requires b.stmts[last].code.src == X ==> b.stmts[last].code == Alu(SUB, X)
    modifies b`stmts, b`s, b`jt, b`jf
    ensures Stage(n0, NodeOf(b), AllAtoms() - dead - {A_ATOM}, b.outUse, keys, b.val)
    ensures |b.stmts| == |old(b.stmts)| && b.stmts == old(b.stmts)[last := Stmt(Nop, old(b.stmts)[last].k)]
    ensures b.s == test1 && b.jt == jt1 && b.jf == jf1
  {
    hide NoLateX, Keeps, ExecAll, Shape, Lost, EndsInAlu, Const, WellKeyed, Bounded;
    StageMerged(n0, NodeOf(b), last, dead, test1, jt1, jf1, b.outUse, keys, b.val);
    hide *;
    b.stmts := b.stmts[last := Stmt(Nop, b.stmts[last].k)];
    b.s, b.jt, b.jf := test1, jt1, jf1;
  }

  lemma StageStart(n0: Node, n: Node, dead: set<Atom>, outUse: set<Atom>, keys: seq<Key>, val: Vals)
    requires PeepReady(n0, outUse, keys, val) && n0.test.code.Jmp? && n == n0.(stmts := n.stmts)
    requires Keeps(n0, n, AllAtoms() - dead, keys, val, Asked(n0, outUse)) && Lost(dead, n.stmts, n.test, outUse)
    ensures Stage(n0, n, AllAtoms() - dead, outUse, keys, val)
  {
    hide Keeps, NoLateX, EndsInAlu;
  }

  /** The merge that applies to the last statement `s` and the branch of `n`, if one does. */
  method PickMerge(s: Stmt, n: Node, xc: bool, x: Word, ghost keys: seq<Key>, ghost val: Vals)
      returns (found: bool, test1: Stmt, jt1: Block?, jf1: Block?)
    requires n.test.code == Jmp(JEQ, K) && xc == Const(keys, val[X_ATOM]) && (xc ==> x == ConstVal(keys, val[X_ATOM]))
    ensures found ==> Merged(s, n, test1, jt1, jf1, keys, val) && (s.code.src == X ==> s.code == Alu(SUB, X))
    ensures jt1 in {n.jt, n.jf} && jf1 in {n.jt, n.jf}
    ensures found <==> s.code == Alu(SUB, K) || (s.code == Alu(SUB, X) && (Const(keys, val[X_ATOM]) || n.test.k == 0))
                       || (s.code == Alu(AND, K) && n.test.k == 0)
  {
    found, test1, jt1, jf1 := false, n.test, n.jt, n.jf;
    if s.code == Alu(SUB, X) {
      if xc {
        found, test1 := true, Stmt(Jmp(JEQ, K), Wrap(n.test.k + x));
      } else if n.test.k == 0 {
        found, test1 := true, Stmt(Jmp(JEQ, X), 0);
      }
    } else if s.code == Alu(SUB, K) {
      found, test1 := true, Stmt(Jmp(JEQ, K), Wrap(n.test.k + s.k));
    } else if s.code == Alu(AND, K) && n.test.k == 0 {
      found, test1 := true, Stmt(Jmp(JSET, K), s.k);
      jt1, jf1 := n.jf, n.jt;
    }
  }

  /** A merge is to be tried: the branch compares A with a constant, and A is not live. */
  ghost predicate Mergeable(n: Node, outUse: set<Atom>) {
    n.test.code == Jmp(JEQ, K) && A_ATOM !in outUse
  }

  /** Arithmetic at j has been merged into the comparison wherever that can be done: a subtraction adds its operand to
      the constant, or compares with X if that is not known and the constant is 0; a conjunction that is compared with 0
      becomes a test of bits with the successors exchanged. */
  ghost predicate MergedAt(n0: Node, n: Node, j: int, keys: seq<Key>, val: Vals)
    requires 0 <= j < |n0.stmts| == |n.stmts|
  {
    var (s, k) := (n0.stmts[j], n0.test.k);
    && (s.code == Alu(SUB, X) && Const(keys, val[X_ATOM]) ==>
         n.stmts[j].code == Nop && n.jt == n0.jt && n.jf == n0.jf
         && n.test == Stmt(Jmp(JEQ, K), Wrap(k + ConstVal(keys, val[X_ATOM]))))
    && (s.code == Alu(SUB, X) && !Const(keys, val[X_ATOM]) && k == 0 ==>
         n.stmts[j].code == Nop && n.jt == n0.jt && n.jf == n0.jf && n.test == Stmt(Jmp(JEQ, X), 0))
    && (s.code == Alu(SUB, K) ==>
         n.stmts[j].code == Nop && n.jt == n0.jt && n.jf == n0.jf && n.test == Stmt(Jmp(JEQ, K), Wrap(k + s.k)))
    && (s.code == Alu(AND, K) && k == 0 ==>
         n.stmts[j].code == Nop && n.jt == n0.jf && n.jf == n0.jt && n.test == Stmt(Jmp(JSET, K), s.k))
  }

  lemma PickedMerge(s: Stmt, n: Node, last: nat, found: bool, test1: Stmt, jt1: Block?, jf1: Block?, keys: seq<Key>,
                    val: Vals)
    requires last < |n.stmts| && s == n.stmts[last] && n.test.code == Jmp(JEQ, K)
    requires found ==> Merged(s, n, test1, jt1, jf1, keys, val)
    requires found <==> s.code == Alu(SUB, K) || (s.code == Alu(SUB, X) && (Const(keys, val[X_ATOM]) || n.test.k == 0))
                        || (s.code == Alu(AND, K) && n.test.k == 0)
    ensures !found ==> MergedAt(n, n, last, keys, val)
    ensures found ==> test1.code.Jmp? && (test1.code.jsrc == X ==> !Const(keys, val[X_ATOM]))
    ensures found ==> MergedAt(n, Node(n.stmts[last := Stmt(Nop, s.k)], test1, jt1, jf1), last, keys, val)
  {
    hide Const, ConstVal, Wrap;
  }

  /** What the rules have rewritten is no arithmetic. */
  lemma AppliedStill(ss0: seq<Stmt>, ss: seq<Stmt>, outUse: set<Atom>, last: nat, k: Word)
    requires |ss| == |ss0| && last < |ss| && ss[last].code.Alu? && AppliedTo(ss0, ss, outUse, |ss0|)
    ensures AppliedTo(ss0, ss[last := Stmt(Nop, k)], outUse, |ss0|)
  {
    var ss1 := ss[last := Stmt(Nop, k)];
    hide Follows, Stands, Wrap;
    forall i {:trigger Applied(ss0, ss1, outUse, i)} | 0 <= i < |ss0|
      ensures Applied(ss0, ss1, outUse, i)
    {
      assert Applied(ss0, ss, outUse, i);
      AppliedOther(ss0, ss, ss1, outUse, last, i);
    }
  }

  lemma AppliedOther(ss0: seq<Stmt>, ss: seq<Stmt>, ss1: seq<Stmt>, outUse: set<Atom>, last: nat, i: nat)
    requires |ss1| == |ss| == |ss0| && last < |ss| && ss[last].code.Alu? && ss1[last].code == Nop
    requires ss1 == ss[last := ss1[last]] && i < |ss0| && Applied(ss0, ss, outUse, i)
    ensures Applied(ss0, ss1, outUse, i)
  {
    hide Wrap;
    forall x {:trigger Stands(ss0, i, x)} | Stands(ss0, i, x) && X_ATOM !in outUse
      ensures FoldedIn(ss0, ss1, i, x)
    {
      assert FoldedIn(ss0, ss, i, x);
    }
  }

  /** `sub x; jeq`, `sub #x; jeq` and `and #k; jeq #0` at the end of the block. */
  method MergeLast(b: Block, last: nat, t: Table, ghost n0: Node, ghost dead: set<Atom>) returns (ghost Z: set<Atom>)
    requires t.Valid() && PeepReady(n0, b.outUse, t.keys, b.val) && n0.test.code.Jmp?
    requires NodeOf(b) == n0.(stmts := b.stmts) && Shape(n0.stmts, b.stmts)
    requires Keeps(n0, NodeOf(b), AllAtoms() - dead, t.keys, b.val, Asked(n0, b.outUse))
    requires Lost(dead, b.stmts, b.s, b.outUse)
    requires last < |b.stmts| && (b.stmts[last].code != Nop ==> AllNop(b.stmts, last + 1)) && AllMemOk(b.stmts)
    requires dead <= Gone(n0.stmts, b.stmts) && Gone(n0.stmts, b.stmts) !! b.outUse
    requires |b.stmts| == |n0.stmts| && AppliedTo(n0.stmts, b.stmts, b.outUse, |n0.stmts|)
    modifies b`stmts, b`s, b`jt, b`jf
    ensures Stage(n0, NodeOf(b), Z, b.outUse, t.keys, b.val) && SameMem(old(b.stmts), b.stmts)
    ensures Onward(old(NodeOf(b)), NodeOf(b))
    ensures AllAtoms() - Gone(n0.stmts, b.stmts) <= Z && Gone(n0.stmts, b.stmts) !! b.outUse
    ensures |b.stmts| == |n0.stmts| && AppliedTo(n0.stmts, b.stmts, b.outUse, |n0.stmts|)
    ensures Mergeable(old(NodeOf(b)), b.outUse) ==> MergedAt(old(NodeOf(b)), NodeOf(b), last, t.keys, b.val)
    ensures !Mergeable(old(NodeOf(b)), b.outUse) ==> NodeOf(b) == old(NodeOf(b))
    ensures Mergeable(old(NodeOf(b)), b.outUse) ==>
              b.s.code.Jmp? && (b.s.code.jsrc == X ==> !Const(t.keys, b.val[X_ATOM]))
  {
    hide NoLateX, Keeps, Shape, Lost, EndsInAlu, WellKeyed, Const, GoneAt, MergedAt, Merged, Applied, Stage;
    Z := AllAtoms() - dead;
    StageStart(n0, NodeOf(b), dead, b.outUse, t.keys, b.val);
    if b.s.code == Jmp(JEQ, K) && A_ATOM !in b.outUse {
      var c, x := IsConstant(t, b.val[X_ATOM]);
      var found, test1, jt1, jf1 := PickMerge(b.stmts[last], Node(b.stmts, b.s, b.jt, b.jf), c, x, t.keys, b.val);
      PickedMerge(b.stmts[last], NodeOf(b), last, found, test1, jt1, jf1, t.keys, b.val);
      if found {
        assert MergeReady(b, last, t.keys, n0, dead);
        MergeGone(n0.stmts, b.stmts, last);
        AppliedStill(n0.stmts, b.stmts, b.outUse, last, b.stmts[last].k);
        hide *;
        Merge(b, last, test1, jt1, jf1, t.keys, n0, dead);
        Z := Z - {A_ATOM};
      }
    }
  }

  /** What is left of the successors: a test of no bits goes to the false one, one of all bits to the true one. */
  ghost predicate Sides(n: Node, jt: Block?, jf: Block?) {
    && jt == (if n.test == Stmt(Jmp(JSET, K), 0) then n.jf else n.jt)
    && jf == (if n.test == Stmt(Jmp(JSET, K), MAX_WORD) then n.jt else n.jf)
  }

  /** jset with nothing, or with everything. */
  method DecideSet(b: Block, ghost n0: Node, ghost Z: set<Atom>, ghost keys: seq<Key>)
    requires Stage(n0, NodeOf(b), Z, b.outUse, keys, b.val)
    modifies b`jt, b`jf
    ensures Decidable(n0, NodeOf(b), Z, b.outUse, keys, b.val) && Onward(old(NodeOf(b)), NodeOf(b))
    ensures Sides(old(NodeOf(b)), b.jt, b.jf)
  {
    ghost var val: Vals, q := b.val, Asked(n0, b.outUse);
    hide Keeps, AllOnes, XMatters, Const;
    if b.s.code == Jmp(JSET, K) {
      if b.s.k == 0 {
        KeepsZero(n0, NodeOf(b), Z, keys, val, q);
        b.jt := b.jf;
      }
      if b.s.k == MAX_WORD {
        KeepsOnes(n0, NodeOf(b), Z, keys, val, q);
        b.jf := b.jt;
      }
    }
  }

  /** No branch is left that known values decide. */
  ghost predicate Decided(n: Node, keys: seq<Key>, val: Vals) {
    && n.test.code.Jmp? && (Const(keys, val[X_ATOM]) ==> n.test.code.jsrc == K)
    && (n.test.code.jsrc == K && Const(keys, val[A_ATOM]) ==> n.jt == n.jf)
  }

  /** A comparison with an index register that is a known constant. */
  method DecideX(b: Block, t: Table, ghost n0: Node, ghost Z: set<Atom>)
    requires t.Valid() && WellKeyed(t.keys) && Bounded(t.keys, b.val)
    requires Decidable(n0, NodeOf(b), Z, b.outUse, t.keys, b.val)
    modifies b`s
    ensures Decidable(n0, NodeOf(b), Z, b.outUse, t.keys, b.val)
    ensures b.s.code.Jmp? && (Const(t.keys, b.val[X_ATOM]) ==> b.s.code.jsrc == K)
    ensures NodeOf(b).jt == old(NodeOf(b)).jt && NodeOf(b).jf == old(NodeOf(b)).jf
    ensures old(b.s).code.Jmp? && (old(b.s).code.jsrc == K || !Const(t.keys, b.val[X_ATOM])) ==> b.s == old(b.s)
  {
    var xc, x := IsConstant(t, b.val[X_ATOM]);
    hide Keeps, AllOnes, WellKeyed, Bounded, Const, ConstVal, XMatters;
    if xc && b.s.code.jsrc == X {
      KeepsConstX(n0, NodeOf(b), Z, t.keys, b.val, Asked(n0, b.outUse));
      b.s := Stmt(Jmp(b.s.code.jop, K), x);
    }
  }

  /** A comparison of two constants. */
  method DecideA(b: Block, t: Table, ghost n0: Node, ghost Z: set<Atom>)
    requires t.Valid() && WellKeyed(t.keys) && Bounded(t.keys, b.val)
    requires Decidable(n0, NodeOf(b), Z, b.outUse, t.keys, b.val)
    modifies b`jt, b`jf
    ensures Keeps(n0, NodeOf(b), Z, t.keys, b.val, Asked(n0, b.outUse)) && b.s.code.Jmp?
    ensures (b.s.code.jsrc == K && Const(t.keys, b.val[A_ATOM]) ==> b.jt == b.jf) && Onward(old(NodeOf(b)), NodeOf(b))
    ensures !Const(t.keys, b.val[A_ATOM]) || old(b.jt) == old(b.jf) ==> b.jt == old(b.jt) && b.jf == old(b.jf)
  {
    var ac, a := IsConstant(t, b.val[A_ATOM]);
    hide Keeps, AllOnes, WellKeyed, Bounded, Const, ConstVal, XMatters, Compare;
    if ac && b.s.code.jsrc == K {
      KeepsConstA(n0, NodeOf(b), Z, t.keys, b.val, Asked(n0, b.outUse), a);
      if Compare(b.s.code.jop, a, b.s.k) {
        b.jf := b.jt;
      } else {
        b.jt := b.jf;
      }
    }
  }

  /** jset with nothing or everything, and comparisons of known values. */
  method DecideBranch(b: Block, t: Table, ghost n0: Node, ghost Z: set<Atom>)
    requires t.Valid() && WellKeyed(t.keys) && Bounded(t.keys, b.val)
    requires Stage(n0, NodeOf(b), Z, b.outUse, t.keys, b.val)
    modifies b`s, b`jt, b`jf
    ensures Keeps(n0, NodeOf(b), Z, t.keys, b.val, Asked(n0, b.outUse)) && b.s.code.Jmp?
    ensures Decided(NodeOf(b), t.keys, b.val) && Onward(old(NodeOf(b)), NodeOf(b))
    ensures SetDecided(old(NodeOf(b)), NodeOf(b), t.keys, b.val)
  {
    hide *;
    ghost var m0 := NodeOf(b);
    NodeFields(b);
    DecideSet(b, n0, Z, t.keys);
    ghost var m1 := NodeOf(b);
    NodeFields(b);
    DecideX(b, t, n0, Z);
    ghost var m2 := NodeOf(b);
    NodeFields(b);
    DecideA(b, t, n0, Z);
    NodeFields(b);
    SetsDecided(m0, m1, m2, NodeOf(b), t.keys, b.val);
    OnwardStill(m0, m1, m2, NodeOf(b));
    NowDecided(b, t.keys, b.val);
  }

  /** A branch that compares with a constant, or with an X that is not known, stays as it is; and when A is not known
      its successors do, but for a test of no bits or of all bits, which has one afterwards. */
  ghost predicate SetDecided(n: Node, n1: Node, keys: seq<Key>, val: Vals) {
    n.test.code.Jmp? && (n.test.code.jsrc == K || !Const(keys, val[X_ATOM])) ==>
      && n1.test == n.test && (!Const(keys, val[A_ATOM]) ==> Sides(n, n1.jt, n1.jf))
      && (n.test == Stmt(Jmp(JSET, K), 0) || n.test == Stmt(Jmp(JSET, K), MAX_WORD) ==> n1.jt == n1.jf)
  }

  lemma SetsDecided(n: Node, n1: Node, n2: Node, n3: Node, keys: seq<Key>, val: Vals)
    requires Sides(n, n1.jt, n1.jf) && n1.test == n.test && n2.jt == n1.jt && n2.jf == n1.jf && n3.test == n2.test
    requires n1.test.code.Jmp? && (n1.test.code.jsrc == K || !Const(keys, val[X_ATOM])) ==> n2.test == n1.test
    requires !Const(keys, val[A_ATOM]) || n2.jt == n2.jf ==> n3.jt == n2.jt && n3.jf == n2.jf
    ensures SetDecided(n, n3, keys, val)
  {
    hide Const;
  }

  lemma OnwardStill(m0: Node, m1: Node, m2: Node, m3: Node)
    requires (m0 == m1 || Onward(m0, m1)) && (m2 == m3 || Onward(m2, m3)) && m2.jt == m1.jt && m2.jf == m1.jf
    ensures Onward(m0, m3)
  {
  }

  lemma NowDecided(b: Block, keys: seq<Key>, val: Vals)
    requires b.s.code.Jmp? && (Const(keys, val[X_ATOM]) ==> b.s.code.jsrc == K)
    requires b.s.code.jsrc == K && Const(keys, val[A_ATOM]) ==> b.jt == b.jf
    ensures Decided(NodeOf(b), keys, val)
  {
    hide Const;
  }

  /** Arithmetic at j has been merged into the branch where that can be done, and then the successors are those of a
      decided test of bits. */
  ghost predicate Merging(n0: Node, n: Node, j: int, keys: seq<Key>, val: Vals)
    requires 0 <= j < |n0.stmts| == |n.stmts|
  {
    exists jt, jf {:trigger Sides(n.(jt := jt, jf := jf), n.jt, n.jf)} ::
      && jt in {n0.jt, n0.jf} && jf in {n0.jt, n0.jf}
      && MergedAt(n0, n.(jt := jt, jf := jf), j, keys, val) && Sides(n.(jt := jt, jf := jf), n.jt, n.jf)
  }

  /** What opt_peep leaves: every rule for statements of the block has been applied; arithmetic that ends them has been
      merged into the comparison; a test of no bits or of all bits, and one that known values decide, has one successor
      only; and none compares with a known X. */
  ghost predicate RulesApplied(n0: Node, n: Node, outUse: set<Atom>, keys: seq<Key>, val: Vals) {
    && |n.stmts| == |n0.stmts| && AppliedTo(n0.stmts, n.stmts, outUse, |n0.stmts|)
    && (Mergeable(n0, outUse) ==>
         forall j {:trigger AluEnd(n0.stmts, j)} :: AluEnd(n0.stmts, j) ==> Merging(n0, n, j, keys, val))
    && (n0.stmts != [] && n0.test.code.Jmp? ==>
         && (n0.test.code.jsrc == K && (n.test == Stmt(Jmp(JSET, K), 0) || n.test == Stmt(Jmp(JSET, K), MAX_WORD)) ==>
              n.jt == n.jf)
         && Decided(n, keys, val))
  }

  /** A merge that has been tried where the loop has left off, and the branch decided after it. */
  lemma NowApplied(n0: Node, n1: Node, n2: Node, n: Node, last: nat, outUse: set<Atom>, keys: seq<Key>, val: Vals)
    requires n0.test.code.Jmp? && (EndsInAlu(n0.stmts) ==> !Const(keys, val[A_ATOM]))
    requires n1 == n0.(stmts := n1.stmts) && last < |n1.stmts| == |n2.stmts| == |n0.stmts| && n.stmts == n2.stmts
    requires AppliedTo(n0.stmts, n2.stmts, outUse, |n0.stmts|)
    requires forall j {:trigger AluEnd(n0.stmts, j)} :: AluEnd(n0.stmts, j) ==> last == j && n1.stmts[j] == n0.stmts[j]
    requires Mergeable(n1, outUse) ==> MergedAt(n1, n2, last, keys, val)
    requires !Mergeable(n1, outUse) ==> n2 == n1
    requires SetDecided(n2, n, keys, val) && Decided(n, keys, val) && Onward(n1, n2)
    requires Mergeable(n1, outUse) ==>
               n2.test.code.Jmp? && (n2.test.code.jsrc == X ==> !Const(keys, val[X_ATOM]))
    ensures RulesApplied(n0, n, outUse, keys, val)
  {
    hide AppliedTo, Const, ConstVal, Wrap;
    if Mergeable(n0, outUse) {
      forall j {:trigger AluEnd(n0.stmts, j)} | AluEnd(n0.stmts, j)
        ensures Merging(n0, n, j, keys, val)
      {
        NowMerging(n0, n1, n2, n, j, keys, val);
      }
    }
  }

  lemma NowMerging(n0: Node, n1: Node, n2: Node, n: Node, j: nat, keys: seq<Key>, val: Vals)
    requires n0.test == Stmt(Jmp(JEQ, K), n0.test.k) && (EndsInAlu(n0.stmts) ==> !Const(keys, val[A_ATOM]))
    requires AluEnd(n0.stmts, j) && n1 == n0.(stmts := n1.stmts) && |n1.stmts| == |n2.stmts| == |n0.stmts|
    requires n1.stmts[j] == n0.stmts[j] && n.stmts == n2.stmts
    requires MergedAt(n1, n2, j, keys, val) && SetDecided(n2, n, keys, val) && Onward(n1, n2)
    requires n2.test.code.Jmp? && (n2.test.code.jsrc == X ==> !Const(keys, val[X_ATOM]))
    ensures Merging(n0, n, j, keys, val)
  {
    hide Const, ConstVal, Wrap;
    assert EndsInAlu(n0.stmts);
    var jt, jf := n2.jt, n2.jf;
    assert n.(jt := jt, jf := jf) == n2;
    assert Sides(n.(jt := jt, jf := jf), n.jt, n.jf);
  }

  /** opt_peep applies its rules wherever they match (RulesApplied). It keeps the branch decision and every atom but
      those whose last definition it deletes, which are not live at the exit, on every run that does not fault and
      leaves a state the exit table is right about. The rule for jset #0xffffffff is right only when the A it tests is
      not 0 (AllOnesRule): where it applies, only such runs are kept. */
  method OptPeep(b: Block, t: Table)
    requires t.Valid() && PeepReady(NodeOf(b), b.outUse, t.keys, b.val)
    modifies b`stmts, b`s, b`jt, b`jf
    ensures Keeps(old(NodeOf(b)), NodeOf(b), AllAtoms() - Gone(old(b.stmts), b.stmts), t.keys, b.val,
                  Asked(old(NodeOf(b)), b.outUse))
    ensures Gone(old(b.stmts), b.stmts) !! b.outUse
    ensures SameMem(old(b.stmts), b.stmts) && MemOk(b.s)
    ensures old(b.stmts) == [] ==> NodeOf(b) == old(NodeOf(b))
    ensures old(b.s).code.Jmp? ==> b.s.code.Jmp?
    ensures old(b.stmts) != [] ==> Decided(NodeOf(b), t.keys, b.val)
    ensures Onward(old(NodeOf(b)), NodeOf(b))
    ensures RulesApplied(old(NodeOf(b)), NodeOf(b), b.outUse, t.keys, b.val)
  {
    hide *;
    ghost var n0, q := NodeOf(b), Asked(NodeOf(b), b.outUse);
    PeepParts(n0, b.outUse, t.keys, b.val);
    NodeFields(b);
    if b.stmts == [] {
      EmptyKept(n0, b.outUse, t.keys, b.val, q);
      OnwardStill(n0, n0, n0, n0);
      EmptyApplied(n0, b.outUse, t.keys, b.val);
      return;
    }
    var ss, last;
    ghost var dead;
    ss, last, dead := PeepLoop(b.stmts, b.outUse, b.s);
    LostKeeps(n0, ss, dead, b.outUse, t.keys, b.val, q);
    b.stmts := ss;
    NodeFields(b);
    RevivedTwice(n0.stmts, n0.stmts, ss);
    ghost var Z := MergeLast(b, last, t, n0, dead);
    RevivedTwice(n0.stmts, ss, b.stmts);
    ghost var n2 := NodeOf(b);
    NodeFields(b);
    DecideBranch(b, t, n0, Z);
    NodeFields(b);
    NowApplied(n0, n0.(stmts := ss), n2, NodeOf(b), last, b.outUse, t.keys, b.val);
    KeepsLess(n0, NodeOf(b), Z, AllAtoms() - Gone(n0.stmts, b.stmts), t.keys, b.val, q);
    BranchMem(b.s);
    OnwardStill(n0.(stmts := ss), n2, n2, NodeOf(b));
    OnwardSame(n0, ss, NodeOf(b));
  }

  lemma OnwardSame(n0: Node, ss: seq<Stmt>, n: Node)
    requires Onward(n0.(stmts := ss), n)
    ensures Onward(n0, n)
  {
  }

  lemma NodeFields(b: Block)
    ensures NodeOf(b) == Node(b.stmts, b.s, b.jt, b.jf)
  {
  }

  lemma PeepParts(n0: Node, outUse: set<Atom>, keys: seq<Key>, val: Vals)
    requires PeepReady(n0, outUse, keys, val)
    ensures AllMemOk(n0.stmts) && MemOk(n0.test) && WellKeyed(keys) && Bounded(keys, val)
    ensures (n0.stmts != [] ==> n0.test.code.Jmp?) && (EndsInAlu(n0.stmts) ==> !Const(keys, val[A_ATOM]))
    ensures Asked(n0, outUse).sure == NoLateX(n0.stmts, n0.test, outUse)
  {
    hide NoLateX, EndsInAlu, WellKeyed;
  }

  lemma EmptyKept(n0: Node, outUse: set<Atom>, keys: seq<Key>, val: Vals, q: Premise)
    requires n0.stmts == [] && MemOk(n0.test)
    ensures Keeps(n0, n0, AllAtoms() - Gone(n0.stmts, n0.stmts), keys, val, q) && SameMem(n0.stmts, n0.stmts)
    ensures Gone(n0.stmts, n0.stmts) !! outUse
  {
    hide Keeps;
    NothingChanged(n0.stmts);
    NothingGone(n0.stmts);
    KeepsStmts(n0, n0.stmts, {}, keys, val, q);
  }

  lemma EmptyApplied(n0: Node, outUse: set<Atom>, keys: seq<Key>, val: Vals)
    requires n0.stmts == []
    ensures RulesApplied(n0, n0, outUse, keys, val)
  {
  }

  lemma LostKeeps(n0: Node, ss: seq<Stmt>, dead: set<Atom>, outUse: set<Atom>, keys: seq<Key>, val: Vals, q: Premise)
    requires MemOk(n0.test) && (q.sure ==> Preserves(n0.stmts, ss, dead)) && Lost(dead, ss, n0.test, outUse)
    ensures Keeps(n0, n0.(stmts := ss), AllAtoms() - dead, keys, val, q)
  {
    if q.sure {
      KeepsStmts(n0, ss, dead, keys, val, q);
    }
  }

  lemma RevivedTwice(ss0: seq<Stmt>, ss1: seq<Stmt>, ss2: seq<Stmt>)
    requires (ss0 == ss1 || SameMem(ss0, ss1)) && SameMem(ss1, ss2)
    ensures SameMem(ss0, ss2) && AllMemOk(ss2) && |ss1| == |ss2| == |ss0|
  {
  }

  lemma BranchMem(s: Stmt)
    requires s.code.Jmp?
    ensures MemOk(s)
  {
  }

  // ----- Where the rule for jset #0xffffffff goes wrong -----

  /** `ld [0]; and #0xffffffff; jeq #0`. */
  function MaskBlock(jt: Block?, jf: Block?): Node {
    Node([Stmt(LdAbs(W), 0), Stmt(Alu(AND, K), MAX_WORD)], Stmt(Jmp(JEQ, K), 0), jt, jf)
  }

  /** What the merge makes of it: `ld [0]; jset #0xffffffff` with the successors exchanged, and then, by the
      rule, with the true successor on both sides. */
  function MaskMerged(jt: Block?, jf: Block?): Node {
    Node([Stmt(LdAbs(W), 0), Stmt(Nop, MAX_WORD)], Stmt(Jmp(JSET, K), MAX_WORD), jf, jt)
  }

  const ZEROS := Packet([0, 0, 0, 0], 4)

  /** Four zero bytes will do. */
  lemma ZeroWord()
    ensures LoadAt(ZEROS, 0, W) == Some(0)
  {
    assert LoadAt(Packet([0, 0, 0, 0], 4), 0, W) == Some(BigEndian(0, 0, 0, 0));
  }

  lemma LoadZero(st: State, p: Packet)
    requires LoadAt(p, 0, W) == Some(0)
    ensures Exec(Stmt(LdAbs(W), 0), st, p) == Some(st[A_ATOM := 0])
  {
    hide LoadAt;
  }

  lemma MaskZero(st: State, p: Packet)
    requires st[A_ATOM] == 0
    ensures Exec(Stmt(Alu(AND, K), MAX_WORD), st, p) == Some(st)
  {
    assert AluEval(AND, 0, MAX_WORD) == Some(BitAnd(0, MAX_WORD)) && BitAnd(0, MAX_WORD) == 0;
    assert st[A_ATOM := 0] == st;
    hide AluEval, BitAnd;
  }

  /** Both leave 0 in A. */
  lemma MaskRuns(ld: Stmt, mask: Stmt, nop: Stmt, st: State, st1: State, p: Packet)
    requires LoadAt(p, 0, W) == Some(0) && ld == Stmt(LdAbs(W), 0) && mask == Stmt(Alu(AND, K), MAX_WORD)
    requires nop.code == Nop && st1 == st[A_ATOM := 0]
    ensures ExecAll([ld, mask], st, p) == Some(st1) && ExecAll([ld, nop], st, p) == Some(st1)
  {
    LoadZero(st, p);
    MaskZero(st1, p);
    assert Exec(nop, st1, p) == Some(st1);
    hide *;
    ExecPair(ld, mask, st, p);
    ExecPair(ld, nop, st, p);
  }

  lemma ExecPair(a: Stmt, b: Stmt, st: State, p: Packet)
    ensures ExecAll([a, b], st, p) == match Exec(a, st, p) case Some(st1) => Exec(b, st1, p) case None => None
  {
    ExecList(a, [b], st, p);
    assert [a, b] == [a] + [b] && [b][1..] == [];
  }

  /** On a packet that starts with a zero word the block goes to jt, and the rewritten one to the old jf. */
  lemma ZeroGoes(jt: Block?, jf: Block?, keys: seq<Key>, val: Vals, st: State, p: Packet)
    requires LoadAt(p, 0, W) == Some(0)
    ensures
      var (n, m) := (MaskBlock(jt, jf), MaskMerged(jt, jf));
      && AllOnes(n, {}) && Merged(n.stmts[1], n, m.test, m.jt, m.jf, keys, val)
      && m.test == Stmt(Jmp(JSET, K), MAX_WORD)
      && ExecAll(n.stmts, st, p) == ExecAll(m.stmts, st, p) == Some(st[A_ATOM := 0])
      && Next(n, st[A_ATOM := 0]) == jt && Next(m.(jf := m.jt), st[A_ATOM := 0]) == jf
  {
    var n := MaskBlock(jt, jf);
    assert AllNop(n.stmts, 2) && n.stmts[1] == Stmt(Alu(AND, K), MAX_WORD);
    MaskRuns(Stmt(LdAbs(W), 0), Stmt(Alu(AND, K), MAX_WORD), Stmt(Nop, MAX_WORD), st, st[A_ATOM := 0], p);
    BitAndMaxWord(0);
    hide ExecAll, LoadAt, BitAnd;
  }

  /** The same on a packet of four zero bytes. */
  lemma AllOnesFails(jt: Block?, jf: Block?, keys: seq<Key>, val: Vals, st: State)
    ensures
      var (n, m) := (MaskBlock(jt, jf), MaskMerged(jt, jf));
      && AllOnes(n, {}) && Merged(n.stmts[1], n, m.test, m.jt, m.jf, keys, val)
      && m.test == Stmt(Jmp(JSET, K), MAX_WORD)
      && ExecAll(n.stmts, st, ZEROS) == ExecAll(m.stmts, st, ZEROS) == Some(st[A_ATOM := 0])
      && Next(n, st[A_ATOM := 0]) == jt && Next(m.(jf := m.jt), st[A_ATOM := 0]) == jf
  {
    hide *;
    ZeroWord();
    ZeroGoes(jt, jf, keys, val, st, ZEROS);
  }
}
