/** Arithmetic expressions: code that leaves a tree's value in a scratch register, and the
    allocation of these registers. */
module ArithGen {
  import opened Bpf
  import opened Cfg
  import opened BoolExpr
  import opened BoolGen
  import opened FilterGen

  /** The expression trees of the filter language; LinkLoad is an access relative to the link-layer
      header, which starts `offLl` bytes into the packet. */
  datatype Arith =
    | Num(val: Word)
    | Len
    | Minus(e: Arith)
    | Bin(op: AluOp, l: Arith, r: Arith)
    | LinkLoad(size: Size, offLl: Word, index: Arith)

  /** The value of a tree on a packet; None when an access or a division in it fails. */
  function Value(e: Arith, p: Packet): Option<Word> {
    match e
    case Num(val) => Some(val)
    case Len => Some(p.wireLen)
    case Minus(e1) => (match Value(e1, p) case None => None case Some(w) => Some(Negate(w)))
    case Bin(op, l, r) =>
      (match Value(l, p)
       case None => None
       case Some(a) => (match Value(r, p) case None => None case Some(b) => AluEval(op, a, b)))
    case LinkLoad(size, offLl, index) =>
      (match Value(index, p) case None => None case Some(w) => LoadAt(p, Wrap(w + offLl), size))
  }

  /** How many registers are in use at the worst moment while the tree is compiled left to right. */
  function Need(e: Arith): (n: nat)
    ensures n > 0
  {
    match e
    case Num(_) | Len => 1
    case Minus(e1) => Need(e1)
    case Bin(_, l, r) => if Need(l) > 1 + Need(r) then Need(l) else 1 + Need(r)
    case LinkLoad(_, _, index) => if Need(index) > 2 then Need(index) else 2
  }

  type Reg = r: int | 0 <= r < MEMWORDS

  /** Which registers are in use. */
  type Live = b: seq<bool> | |b| == MEMWORDS witness seq(MEMWORDS, i => false)

  function Count(b: seq<bool>): (n: nat)
    ensures n <= |b|
  {
    if b == [] then 0 else Count(b[..|b| - 1]) + if b[|b| - 1] then 1 else 0
  }

  lemma {:induction false} CountUpdate(b: seq<bool>, i: nat, v: bool)
    requires i < |b|
    ensures Count(b[i := v]) == Count(b) + (if v then 1 else 0) - (if b[i] then 1 else 0)
    decreases |b|
  {
    var n := |b| - 1;
    if i < n {
      assert b[i := v][..n] == b[..n][i := v];
      CountUpdate(b[..n], i, v);
    } else {
      assert b[i := v][..n] == b[..n];
    }
  }

  lemma {:induction false} CountAll(b: seq<bool>)
    ensures Count(b) == |b| <==> forall i :: 0 <= i < |b| ==> b[i]
    decreases |b|
  {
    if b != [] {
      CountAll(b[..|b| - 1]);
      assert forall i :: 0 <= i < |b| - 1 ==> b[..|b| - 1][i] == b[i];
    }
  }

  /** Running `s` leaves the tree's value in M[reg] and the registers of `live` alone; it faults just
      when the tree has no value. */
  ghost predicate Computes(s: seq<Stmt>, reg: Reg, e: Arith, live: Live) {
    forall st, p :: ComputesOn(s, reg, e, live, st, p)
  }

  ghost predicate ComputesOn(s: seq<Stmt>, reg: Reg, e: Arith, live: Live, st: State, p: Packet) {
    && ExecAll(s, st, p).Some? == Value(e, p).Some?
    && (Value(e, p).Some? ==>
          && ExecAll(s, st, p).value[reg] == Value(e, p).value
          && Keeps(st, ExecAll(s, st, p).value, live))
  }

  ghost predicate Keeps(st: State, st1: State, live: Live) {
    forall r {:trigger st1[r]} :: 0 <= r < MEMWORDS && live[r] ==> st1[r] == st[r]
  }

  // ----- The registers -----

  /** struct arth, without the protocol checks. */
  class Arth {
    var s: seq<Stmt>
    var regno: Reg

    constructor (s: seq<Stmt>, regno: Reg)
      ensures this.s == s && this.regno == regno
    {
      this.s, this.regno := s, regno;
    }
  }

  class Registers {
    const regused: array<bool>
    var curreg: nat

    ghost predicate Valid()
      reads this`curreg
    {
      regused.Length == MEMWORDS && curreg < MEMWORDS
    }

    ghost function Used(): Live
      requires Valid()
      reads this`curreg, regused
    {
      regused[..]
    }

    /** init_regs. */
    constructor ()
      ensures Valid() && Used() == seq(MEMWORDS, _ => false) && fresh(regused)
    {
      curreg := 0;
      regused := new bool[MEMWORDS](_ => false);
    }

    /** alloc_reg. A free register is found whenever there is one. */
    method AllocReg() returns (r: Option<Reg>)
      requires Valid()
      modifies this, regused
      ensures Valid()
      ensures match r
              case Some(n) => !old(Used())[n] && Used() == old(Used())[n := true]
              case None => Used() == old(Used()) && forall k :: 0 <= k < MEMWORDS ==> Used()[k]
    {
      ghost var start := curreg;
      var n := MEMWORDS;
      while n > 0
        invariant Valid() && 0 <= n <= MEMWORDS && regused[..] == old(regused[..])
        invariant curreg == At(start, MEMWORDS - n)
        invariant forall k {:trigger At(start, k)} :: 0 <= k < MEMWORDS - n ==> regused[At(start, k)]
      {
        n := n - 1;
        if regused[curreg] {
          curreg := (curreg + 1) % MEMWORDS;
        } else {
          regused[curreg] := true;
          return Some(curreg);
        }
      }
      forall r | 0 <= r < MEMWORDS
        ensures regused[r]
      {
        Around(start, r);
      }
      r := None;
    }

    /** free_reg. */
    method FreeReg(n: Reg)
      requires Valid()
      modifies regused
      ensures Valid() && Used() == old(Used())[n := false]
    {
      regused[n] := false;
    }
  }

  /** The k-th register after `start`, going round. */
  function At(start: nat, k: nat): (r: nat)
    ensures r < MEMWORDS
  {
    (start + k) % MEMWORDS
  }

  lemma Around(start: nat, r: nat)
    requires start < MEMWORDS && r < MEMWORDS
    ensures exists k :: 0 <= k < MEMWORDS && At(start, k) == r
  {
    var k := if r >= start then r - start else r + MEMWORDS - start;
    assert At(start, k) == r;
  }

  // ----- The code generated for one node -----

  /** Code appended to a list that computes `e1`: what it does from where that leaves the machine. */
  lemma AppendComputes(s: seq<Stmt>, r1: Reg, e1: Arith, more: seq<Stmt>, reg: Reg, e: Arith, live: Live)
    requires Computes(s, r1, e1, live)
    requires forall st1: State, p :: Value(e1, p).Some? && st1[r1] == Value(e1, p).value ==>
        ComputesOn(more, reg, e, live, st1, p)
    requires forall p :: Value(e1, p) == None ==> Value(e, p) == None
    ensures Computes(s + more, reg, e, live)
  {
    forall st, p
      ensures ComputesOn(s + more, reg, e, live, st, p)
    {
      ExecAllConcat(s, more, st, p);
      assert ExecAll(s, st, p).Some? == Value(e1, p).Some? by {
        assert ComputesOn(s, r1, e1, live, st, p);
      }
      if Value(e1, p).Some? {
        assert ComputesOn(s, r1, e1, live, st, p);
        assert ComputesOn(more, reg, e, live, ExecAll(s, st, p).value, p);
      }
    }
  }

  lemma ExecCons(t: Stmt, ss: seq<Stmt>, st: State, p: Packet)
    ensures ExecAll([t] + ss, st, p) == match Exec(t, st, p) case None => None case Some(st1) => ExecAll(ss, st1, p)
  {
    assert ([t] + ss)[1..] == ss;
  }

  function NegCode(reg: Reg): seq<Stmt> {
    [Stmt(LdMem, reg)] + ([Stmt(Neg, 0)] + ([Stmt(St, reg)] + []))
  }

  lemma NegComputes(s: seq<Stmt>, reg: Reg, e: Arith, live: Live)
    requires Computes(s, reg, e, live) && !live[reg]
    ensures Computes(s + NegCode(reg), reg, Minus(e), live)
  {
    forall st1: State, p | Value(e, p).Some? && st1[reg] == Value(e, p).value
      ensures ComputesOn(NegCode(reg), reg, Minus(e), live, st1, p)
    {
      var st2 := st1[A_ATOM := st1[reg]];
      var st3 := st2[A_ATOM := Negate(st1[reg])];
      ExecCons(Stmt(LdMem, reg), [Stmt(Neg, 0)] + ([Stmt(St, reg)] + []), st1, p);
      ExecCons(Stmt(Neg, 0), [Stmt(St, reg)] + [], st2, p);
      ExecCons(Stmt(St, reg), [], st3, p);
    }
    AppendComputes(s, reg, e, NegCode(reg), reg, Minus(e), live);
  }

  function LoadCode(size: Size, offLl: Word, from: Reg, reg: Reg): seq<Stmt> {
    [Stmt(LdxMem, from)] + ([Stmt(LdInd(size), offLl)] + ([Stmt(St, reg)] + []))
  }

  lemma LoadComputes(s: seq<Stmt>, from: Reg, e: Arith, size: Size, offLl: Word, reg: Reg, live: Live)
    requires Computes(s, from, e, live) && !live[reg]
    ensures Computes(s + LoadCode(size, offLl, from, reg), reg, LinkLoad(size, offLl, e), live)
  {
    var code := LoadCode(size, offLl, from, reg);
    forall st1: State, p | Value(e, p).Some? && st1[from] == Value(e, p).value
      ensures ComputesOn(code, reg, LinkLoad(size, offLl, e), live, st1, p)
    {
      hide LoadAt;
      var st2 := st1[X_ATOM := st1[from]];
      ExecCons(Stmt(LdxMem, from), [Stmt(LdInd(size), offLl)] + ([Stmt(St, reg)] + []), st1, p);
      ExecCons(Stmt(LdInd(size), offLl), [Stmt(St, reg)] + [], st2, p);
      var w := LoadAt(p, Wrap(st1[from] + offLl), size);
      if w.Some? {
        ExecCons(Stmt(St, reg), [], st2[A_ATOM := w.value], p);
      }
    }
    AppendComputes(s, from, e, code, reg, LinkLoad(size, offLl, e), live);
  }

  /** ldx M[r1]; ld M[r0] */
  function Fetch(r0: Reg, r1: Reg, rest: seq<Stmt>): seq<Stmt> {
    [Stmt(LdxMem, r1)] + ([Stmt(LdMem, r0)] + rest)
  }

  lemma FetchRuns(r0: Reg, r1: Reg, rest: seq<Stmt>, st: State, p: Packet)
    ensures ExecAll(Fetch(r0, r1, rest), st, p) == ExecAll(rest, st[X_ATOM := st[r1]][A_ATOM := st[r0]], p)
  {
    ExecCons(Stmt(LdxMem, r1), [Stmt(LdMem, r0)] + rest, st, p);
    ExecCons(Stmt(LdMem, r0), rest, st[X_ATOM := st[r1]], p);
  }

  /** Both operands, left to right; the right one's code keeps the left one's register. */
  lemma BothRun(s0: seq<Stmt>, r0: Reg, l: Arith, s1: seq<Stmt>, r1: Reg, r: Arith, rest: seq<Stmt>, live: Live,
                st: State, p: Packet)
      returns (st2: State)
    requires Computes(s0, r0, l, live) && !live[r0] && Computes(s1, r1, r, live[r0 := true]) && !live[r0 := true][r1]
    ensures Value(l, p) == None || Value(r, p) == None ==> ExecAll(s0 + (s1 + Fetch(r0, r1, rest)), st, p) == None
    ensures Value(l, p).Some? && Value(r, p).Some? ==>
              && ExecAll(s0 + (s1 + Fetch(r0, r1, rest)), st, p) == ExecAll(rest, st2, p)
              && st2[A_ATOM] == Value(l, p).value && st2[X_ATOM] == Value(r, p).value && Keeps(st, st2, live)
  {
    st2 := st;
    ExecAllConcat(s0, s1 + Fetch(r0, r1, rest), st, p);
    assert ComputesOn(s0, r0, l, live, st, p);
    if Value(l, p).Some? {
      var st0 := ExecAll(s0, st, p).value;
      ExecAllConcat(s1, Fetch(r0, r1, rest), st0, p);
      assert ComputesOn(s1, r1, r, live[r0 := true], st0, p);
      if Value(r, p).Some? {
        var st1 := ExecAll(s1, st0, p).value;
        FetchRuns(r0, r1, rest, st1, p);
        assert st1[r0] == st0[r0];
        st2 := st1[X_ATOM := st1[r1]][A_ATOM := st1[r0]];
      }
    }
  }

  lemma BinComputes(op: AluOp, s0: seq<Stmt>, r0: Reg, l: Arith, s1: seq<Stmt>, r1: Reg, r: Arith, reg: Reg, live: Live)
    requires Computes(s0, r0, l, live) && !live[r0] && Computes(s1, r1, r, live[r0 := true]) && !live[r0 := true][r1]
    requires !live[reg]
    ensures Computes(s0 + (s1 + Fetch(r0, r1, [Stmt(Alu(op, X), 0)] + ([Stmt(St, reg)] + []))), reg,
                     Bin(op, l, r), live)
  {
    var rest := [Stmt(Alu(op, X), 0)] + ([Stmt(St, reg)] + []);
    var code := s0 + (s1 + Fetch(r0, r1, rest));
    forall st, p
      ensures ComputesOn(code, reg, Bin(op, l, r), live, st, p)
    {
      var st2 := BothRun(s0, r0, l, s1, r1, r, rest, live, st, p);
      hide AluEval, Fetch, Computes;
      if Value(l, p).Some? && Value(r, p).Some? {
        ExecCons(Stmt(Alu(op, X), 0), [Stmt(St, reg)] + [], st2, p);
        var w := AluEval(op, st2[A_ATOM], st2[X_ATOM]);
        if w.Some? {
          ExecCons(Stmt(St, reg), [], st2[A_ATOM := w.value], p);
        }
      }
    }
  }

  // ----- gen_loadi, gen_loadlen, gen_neg, gen_load, gen_arth -----

  lemma LeafComputes(t: Stmt, e: Arith, reg: Reg, live: Live)
    requires (t.code == LdImm && e == Num(t.k)) || (t.code == LdLen && e == Len)
    requires !live[reg]
    ensures Computes([t] + ([Stmt(St, reg)] + []), reg, e, live)
  {
    var s := [t] + ([Stmt(St, reg)] + []);
    forall st: State, p
      ensures ComputesOn(s, reg, e, live, st, p)
    {
      ExecCons(t, [Stmt(St, reg)] + [], st, p);
      ExecCons(Stmt(St, reg), [], st[A_ATOM := Value(e, p).value], p);
    }
  }

  /** `a` holds the tree `e`; besides its register those of `live` are in use. */
  ghost predicate Holding(a: Arth, e: Arith, live: Live)
    reads a
  {
    !live[a.regno] && Computes(a.s, a.regno, e, live)
  }

  /** gen_loadi and gen_loadlen; null is the error exit. */
  method GenLeaf(R: Registers, t: Stmt, ghost e: Arith) returns (a: Arth?)
    requires R.Valid() && ((t.code == LdImm && e == Num(t.k)) || (t.code == LdLen && e == Len))
    modifies R, R.regused
    ensures R.Valid() && (a == null <==> forall k :: 0 <= k < MEMWORDS ==> old(R.Used())[k])
    ensures a != null ==> fresh(a) && Holding(a, e, old(R.Used())) && R.Used() == old(R.Used())[a.regno := true]
  {
    var r := R.AllocReg();
    if r == None {
      return null;
    }
    LeafComputes(t, e, r.value, old(R.Used()));
    a := new Arth([t] + ([Stmt(St, r.value)] + []), r.value);
  }

  method GenNeg(a: Arth, ghost e: Arith, ghost live: Live)
    requires Holding(a, e, live)
    modifies a
    ensures Holding(a, Minus(e), live) && a.regno == old(a.regno)
  {
    NegComputes(a.s, a.regno, e, live);
    a.s := a.s + ([Stmt(LdMem, a.regno)] + ([Stmt(Neg, 0)] + ([Stmt(St, a.regno)] + [])));
  }

  /** gen_load of the link layer, when its header starts at a fixed offset. The new register is
      taken before the old one is given back. */
  method GenLoad(R: Registers, size: Size, offLl: Word, inst: Arth, ghost e: Arith, ghost live: Live) returns (ok: bool)
    requires R.Valid() && Holding(inst, e, live) && R.Used() == live[inst.regno := true]
    modifies R, R.regused, inst
    ensures R.Valid() && (ok <==> exists k :: 0 <= k < MEMWORDS && !old(R.Used())[k])
    ensures ok ==> Holding(inst, LinkLoad(size, offLl, e), live) && R.Used() == live[inst.regno := true]
  {
    var r := R.AllocReg();
    if r == None {
      return false;
    }
    var regno := r.value;
    R.FreeReg(inst.regno);
    LoadComputes(inst.s, inst.regno, e, size, offLl, regno, live);
    assert R.Used() == live[regno := true];
    inst.s := inst.s + ([Stmt(LdxMem, inst.regno)] + ([Stmt(LdInd(size), offLl)] + ([Stmt(St, regno)] + [])));
    inst.regno := regno;
    ok := true;
  }

  /** gen_arth. With both operands' registers given back there is always one for the result. */
  method GenArth(R: Registers, op: AluOp, a0: Arth, a1: Arth, ghost l: Arith, ghost r: Arith, ghost live: Live)
    requires R.Valid() && a0 != a1 && Holding(a0, l, live) && Holding(a1, r, live[a0.regno := true])
    requires R.Used() == live[a0.regno := true][a1.regno := true]
    modifies R, R.regused, a0, a1
    ensures R.Valid() && Holding(a0, Bin(op, l, r), live) && R.Used() == live[a0.regno := true]
  {
    var s0, r0, s1, r1 := a0.s, a0.regno, a1.s, a1.regno;
    var fetch := [Stmt(LdxMem, a1.regno)] + ([Stmt(LdMem, a0.regno)] + []);
    R.FreeReg(a0.regno);
    R.FreeReg(a1.regno);
    assert R.Used() == live;
    var alloc := R.AllocReg();
    assert alloc.Some?;
    var reg := alloc.value;
    BinComputes(op, s0, r0, l, s1, r1, r, reg, live);
    a0.regno := reg;
    a0.s := s0 + (s1 + ([Stmt(LdxMem, r1)] + ([Stmt(LdMem, r0)] + ([Stmt(Alu(op, X), 0)] + ([Stmt(St, reg)] + [])))));
  }

  /** Building the code of a whole tree, left operands first. It succeeds just when the tree needs no
      more registers than there are left; then the code computes the tree and keeps every register
      that was in use. */
  method Compile(R: Registers, e: Arith) returns (a: Arth?)
    requires R.Valid()
    modifies R, R.regused
    ensures R.Valid() && (a != null <==> Count(old(R.Used())) + Need(e) <= MEMWORDS)
    ensures a != null ==> fresh(a) && Holding(a, e, old(R.Used())) && R.Used() == old(R.Used())[a.regno := true]
    decreases e
  {
    ghost var live := R.Used();
    CountAll(live);
    match e
    case Num(val) => a := GenLeaf(R, Stmt(LdImm, val), e);
    case Len => a := GenLeaf(R, Stmt(LdLen, 0), e);
    case Minus(e1) =>
      a := Compile(R, e1);
      if a != null {
        GenNeg(a, e1, live);
      }
    case LinkLoad(size, offLl, index) =>
      a := Compile(R, index);
      if a != null {
        CountUpdate(live, a.regno, true);
        CountAll(R.Used());
        var ok := GenLoad(R, size, offLl, a, index, live);
        if !ok {
          a := null;
        }
      }
    case Bin(op, l, r) =>
      a := Compile(R, l);
      if a != null {
        CountUpdate(live, a.regno, true);
        var a1 := Compile(R, r);
        if a1 == null {
          a := null;
        } else {
          GenArth(R, op, a, a1, l, r, live);
        }
      }
  }

  // ----- gen_relation -----

  /** What a comparison of two trees decides; it faults when one of them has no value. */
  ghost predicate Relates(b: Expr, code: JmpOp, l: Arith, r: Arith, reversed: bool)
    requires WellFormed(b)
  {
    forall st, p :: RelatesOn(b, code, l, r, reversed, st, p)
  }

  ghost predicate RelatesOn(b: Expr, code: JmpOp, l: Arith, r: Arith, reversed: bool, st: State, p: Packet)
    requires WellFormed(b)
  {
    if Value(l, p) == None || Value(r, p) == None then
      Eval(b, st, p) == FaultedAt
    else
      Eval(b, st, p).Decided?
      && Eval(b, st, p).holds == (Compare(code, Value(l, p).value, Value(r, p).value) != reversed)
  }

  lemma EqualByDifference(a: Word, b: Word)
    ensures Wrap(a - b) == 0 <==> a == b
  {
  }

  /** The end of the comparison: with the operands in A and X, the branch is taken when they compare. */
  lemma TestDecides(code: JmpOp, rest: seq<Stmt>, test: Stmt, st: State, p: Packet)
    requires rest == if code == JEQ then [Stmt(Alu(SUB, X), 0)] + [] else []
    requires test == if code == JEQ then Stmt(Jmp(JEQ, K), 0) else Stmt(Jmp(code, X), 0)
    ensures ExecAll(rest, st, p).Some?
    ensures Taken(test, ExecAll(rest, st, p).value) == Compare(code, st[A_ATOM], st[X_ATOM])
  {
    if code == JEQ {
      ExecCons(Stmt(Alu(SUB, X), 0), [], st, p);
      EqualByDifference(st[A_ATOM], st[X_ATOM]);
    }
  }

  lemma EvalRelation(s: seq<Stmt>, test: Stmt, reversed: bool, st: State, p: Packet)
    requires test.code.Jmp?
    ensures Eval(TestExpr(s, test, reversed), st, p)
         == match ExecAll(s, st, p) case None => FaultedAt case Some(st1) => Decided(Taken(test, st1) != reversed, st1)
  {
    assert Eval(Prim(s, test), st, p)
        == match ExecAll(s, st, p) case None => FaultedAt case Some(st1) => Decided(Taken(test, st1), st1);
  }

  lemma RelationDecides(code: JmpOp, s0: seq<Stmt>, r0: Reg, l: Arith, s1: seq<Stmt>, r1: Reg, r: Arith, live: Live,
                        reversed: bool, rest: seq<Stmt>, test: Stmt)
    requires Computes(s0, r0, l, live) && !live[r0] && Computes(s1, r1, r, live[r0 := true]) && !live[r0 := true][r1]
    requires rest == if code == JEQ then [Stmt(Alu(SUB, X), 0)] + [] else []
    requires test == if code == JEQ then Stmt(Jmp(JEQ, K), 0) else Stmt(Jmp(code, X), 0)
    ensures Relates(TestExpr(s0 + (s1 + Fetch(r0, r1, rest)), test, reversed), code, l, r, reversed)
  {
    var s := s0 + (s1 + Fetch(r0, r1, rest));
    forall st: State, p
      ensures RelatesOn(TestExpr(s, test, reversed), code, l, r, reversed, st, p)
    {
      var st2 := BothRun(s0, r0, l, s1, r1, r, rest, live, st, p);
      TestDecides(code, rest, test, st2, p);
      EvalRelation(s, test, reversed, st, p);
      hide Fetch, Computes, Taken, Compare, Eval, TestExpr, Value, ExecAll;
    }
  }

  /** gen_relation on two trees without protocol checks. The block is the comparison, reversed or not,
      and both registers are given back. */
  method GenRelation(R: Registers, code: JmpOp, a0: Arth, a1: Arth, reversed: bool, ghost l: Arith, ghost r: Arith,
                     ghost live: Live)
      returns (b: Block, ghost f: Frag, ghost e: Expr, ghost rank: map<Block, nat>)
    requires R.Valid() && a0 != a1 && Holding(a0, l, live) && Holding(a1, r, live[a0.regno := true])
    requires R.Used() == live[a0.regno := true][a1.regno := true]
    modifies R, R.regused
    ensures R.Valid() && R.Used() == live
    ensures fresh(f.g.Keys) && f.last == b && WellFormed(e) && Prims(e) == 1 && Compiled(f, e, rank)
    ensures Relates(e, code, l, r, reversed)
  {
    var rest := [];
    var test := Stmt(Jmp(code, X), 0);
    if code == JEQ {
      rest := [Stmt(Alu(SUB, X), 0)] + [];
      test := Stmt(Jmp(JEQ, K), 0);
    }
    RelationDecides(code, a0.s, a0.regno, l, a1.s, a1.regno, r, live, reversed, rest, test);
    var s := a0.s + (a1.s + ([Stmt(LdxMem, a1.regno)] + ([Stmt(LdMem, a0.regno)] + rest)));
    e := TestExpr(s, test, reversed);
    assert s == a0.s + (a1.s + Fetch(a0.regno, a1.regno, rest));
    FreeBoth(R, a0.regno, a1.regno, live);
    hide *;
    b, f, rank := GenTest(s, test, reversed);
  }

  method FreeBoth(R: Registers, r0: Reg, r1: Reg, ghost live: Live)
    requires R.Valid() && !live[r0] && !live[r0 := true][r1] && R.Used() == live[r0 := true][r1 := true]
    modifies R, R.regused
    ensures R.Valid() && R.Used() == live
  {
    R.FreeReg(r0);
    R.FreeReg(r1);
    assert R.Used() == live;
  }

  /** What a filter that compares two trees answers. */
  function RelationVerdict(code: JmpOp, l: Arith, r: Arith, reversed: bool, snaplen: Word, p: Packet): Outcome {
    match (Value(l, p), Value(r, p))
    case (Some(a), Some(b)) => Returned(if Compare(code, a, b) != reversed then snaplen else 0)
    case _ => Faulted
  }

  /** A whole filter `l code r`, or its negation: it is compiled just when the registers suffice, and then returns
      `snaplen` for exactly the packets on which the values compare, or do not if reversed. */
  method RelationFilter(R: Registers, code: JmpOp, l: Arith, r: Arith, reversed: bool, snaplen: Word)
      returns (root: Block?, ghost S: set<Block>)
    requires R.Valid()
    modifies R, R.regused
    ensures R.Valid()
    ensures root != null <==>
        Count(old(R.Used())) + Need(l) <= MEMWORDS && Count(old(R.Used())) + 1 + Need(r) <= MEMWORDS
    ensures root != null ==> R.Used() == old(R.Used()) && root in S && fresh(S)
    ensures root != null ==> forall st, p, fuel: nat {:trigger Run(GraphOf(S), root, st, p, fuel)} ::
              fuel >= 2 ==> Run(GraphOf(S), root, st, p, fuel) == RelationVerdict(code, l, r, reversed, snaplen, p)
  {
    ghost var live := R.Used();
    root, S := null, {};
    var a0 := Compile(R, l);
    if a0 == null {
      return;
    }
    CountUpdate(live, a0.regno, true);
    var a1 := Compile(R, r);
    if a1 == null {
      return;
    }
    root, S := CloseRelation(R, code, a0, a1, reversed, snaplen, l, r, live);
  }

  method CloseRelation(R: Registers, code: JmpOp, a0: Arth, a1: Arth, reversed: bool, snaplen: Word, ghost l: Arith,
                       ghost r: Arith, ghost live: Live)
      returns (root: Block, ghost S: set<Block>)
    requires R.Valid() && a0 != a1 && Holding(a0, l, live) && Holding(a1, r, live[a0.regno := true])
    requires R.Used() == live[a0.regno := true][a1.regno := true]
    modifies R, R.regused
    ensures R.Valid() && R.Used() == live && root in S && fresh(S)
    ensures forall st, p, fuel: nat {:trigger Run(GraphOf(S), root, st, p, fuel)} ::
              fuel >= 2 ==> Run(GraphOf(S), root, st, p, fuel) == RelationVerdict(code, l, r, reversed, snaplen, p)
  {
    hide *;
    var b, f, e, rank := GenRelation(R, code, a0, a1, reversed, l, r, live);
    CompiledParts(f, e, rank);
    ghost var yes, no;
    root, yes, no := FinishParse(b, snaplen, f);
    S := f.g.Keys + {yes, no};
    FilterCorrect(f, e, rank, yes, no, snaplen);
    RelationVerdicts(e, code, l, r, reversed, snaplen);
  }

  lemma RelationVerdicts(e: Expr, code: JmpOp, l: Arith, r: Arith, reversed: bool, snaplen: Word)
    requires WellFormed(e) && Relates(e, code, l, r, reversed)
    ensures forall st, p :: Verdict(Eval(e, st, p), snaplen) == RelationVerdict(code, l, r, reversed, snaplen, p)
  {
    forall st, p
      ensures Verdict(Eval(e, st, p), snaplen) == RelationVerdict(code, l, r, reversed, snaplen, p)
    {
      assert RelatesOn(e, code, l, r, reversed, st, p);
    }
  }
}
