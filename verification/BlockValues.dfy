/** The statement loop of opt_blk: the statements it leaves, and the exit table of the block. */
module BlockValues {
  import opened Bpf
  import opened Atoms
  import opened LiveStmts
  import opened ValueTable
  import opened Symbolic

  // ----- How one statement changes the table -----

  /** No operand of the triple is the unknown number. */
  ghost predicate KnownOperands(key: Key) {
    match key.code
    case LdInd(_) => key.v1 != 0
    case Neg => key.v0 != 0
    case Alu(_, _) => key.v0 != 0 && key.v1 != 0
    case _ => true
  }

  ghost predicate NoUnknownOperand(keys: seq<Key>) {
    forall i {:trigger keys[i]} :: 0 <= i < |keys| ==> KnownOperands(keys[i])
  }

  /** As long as no triple is built from an unknown operand, the known numbers are the nonzero ones. */
  lemma {:induction false} NonzeroIsKnown(keys: seq<Key>, v: nat)
    requires WellKeyed(keys) && NoUnknownOperand(keys) && v <= |keys|
    ensures Clean(keys, v) <==> v != 0
    decreases v
  {
    if v > 0 {
      var key := keys[v - 1];
      assert KeyBelow(key, v) && KnownOperands(key);
      match key.code
      case LdInd(_) => NonzeroIsKnown(keys, key.v1);
      case Neg => NonzeroIsKnown(keys, key.v0);
      case Alu(_, _) =>
        NonzeroIsKnown(keys, key.v0);
        NonzeroIsKnown(keys, key.v1);
      case _ =>
    }
  }

  /** The statement reads no atom whose number is 0. */
  ghost predicate ReadsNumbered(val: Vals, s: Stmt)
    requires MemOk(s)
  {
    forall a :: a in AtomUse(s) ==> val[a] != 0
  }

  /** The table stays well built and takes at most `n` numbers; if `known`, none from an unknown operand. */
  ghost predicate Grown(keys: seq<Key>, known: bool, n: nat, r: Rewrite) {
    r.Rewrite? ==>
      && WellKeyed(r.keys) && keys <= r.keys && Bounded(r.keys, r.val) && |r.keys| <= |keys| + n
      && (known && NoUnknownOperand(keys) ==> NoUnknownOperand(r.keys))
  }

  lemma GrownTwice(keys: seq<Key>, keys1: seq<Key>, known: bool, r: Rewrite)
    requires keys <= keys1 && |keys1| <= |keys| + 1 && (NoUnknownOperand(keys) ==> NoUnknownOperand(keys1))
    requires Grown(keys1, known, 1, r)
    ensures Grown(keys, known, 2, r)
  {
    hide WellKeyed, NoUnknownOperand, Bounded;
  }

  lemma FreshGrown(s: Stmt, val: Vals, a: Atom, keys: seq<Key>, key: Key, alter: bool, n: nat)
    requires WellKeyed(keys) && Bounded(keys, val) && KeyBelow(key, |keys| + 1) && n >= 1
    ensures Grown(keys, KnownOperands(key), n, Fresh(s, val, a, keys, key))
    ensures Grown(keys, KnownOperands(key), n, FreshStore(s, val, a, keys, key, alter))
    ensures Bounded(Extend(keys, key), val)
  {
    ExtendWellKeyed(keys, key);
    ExtendDistinct(keys, key);
    hide WellKeyed;
  }

  lemma VstoreGrown(s: Stmt, val: Vals, a: Atom, v: nat, keys: seq<Key>, alter: bool, known: bool, n: nat)
    requires WellKeyed(keys) && Bounded(keys, val) && v <= |keys|
    ensures Grown(keys, known, n, Vstore(s, val, a, v, keys, alter))
  {
  }

  /** The constant of an operand, numbered first. */
  lemma OperandGrown(keys: seq<Key>, val: Vals, k: Word)
    requires WellKeyed(keys) && Bounded(keys, val)
    ensures var keys1 := Extend(keys, ConstKey(k));
            && WellKeyed(keys1) && keys <= keys1 && |keys1| <= |keys| + 1 && Bounded(keys1, val)
            && 1 <= Number(keys1, ConstKey(k)) <= |keys1| && (NoUnknownOperand(keys) ==> NoUnknownOperand(keys1))
  {
    ExtendWellKeyed(keys, ConstKey(k));
    ExtendDistinct(keys, ConstKey(k));
  }

  /** A constant replaces the operation. */
  lemma FoldedGrown(keys: seq<Key>, keys1: seq<Key>, val: Vals, r: Option<Word>, known: bool)
    requires WellKeyed(keys1) && Bounded(keys1, val)
    requires keys <= keys1 && |keys1| <= |keys| + 1 && (NoUnknownOperand(keys) ==> NoUnknownOperand(keys1))
    ensures Grown(keys, known, 2, match r
                                  case None => DivisionByZero
                                  case Some(w) => Fresh(Stmt(LdImm, w), val, A_ATOM, keys1, ConstKey(w)))
  {
    if r.Some? {
      var q := Fresh(Stmt(LdImm, r.value), val, A_ATOM, keys1, ConstKey(r.value));
      FreshGrown(Stmt(LdImm, r.value), val, A_ATOM, keys1, ConstKey(r.value), false, 1);
      hide *;
      GrownAnyway(keys1, KnownOperands(ConstKey(r.value)), known, 1, q);
      GrownTwice(keys, keys1, known, q);
    }
  }

  lemma OperandsBelow(keys: seq<Key>, keys1: seq<Key>, val: Vals, op: AluOp, v: nat, known: bool)
    requires Bounded(keys, val) && keys <= keys1 && 1 <= v <= |keys1| && (known ==> val[A_ATOM] != 0)
    ensures var key := Key(Alu(op, K), val[A_ATOM], v);
            KeyBelow(key, |keys1| + 1) && (known ==> KnownOperands(key))
  {
    assert val[A_ATOM] <= |keys|;
  }

  /** An operation with a constant operand. */
  lemma OperationGrown(keys: seq<Key>, val: Vals, op: AluOp, x: Word, known: bool)
    requires WellKeyed(keys) && Bounded(keys, val) && (known ==> val[A_ATOM] != 0)
    ensures var keys1 := Extend(keys, ConstKey(x));
            Grown(keys, known, 2, Fresh(Stmt(Alu(op, K), x), val, A_ATOM, keys1,
                                        Key(Alu(op, K), val[A_ATOM], Number(keys1, ConstKey(x)))))
  {
    var a := val[A_ATOM];
    hide *;
    var keys1 := Extend(keys, ConstKey(x));
    OperandGrown(keys, val, x);
    var v := Number(keys1, ConstKey(x));
    var key := Key(Alu(op, K), a, v);
    OperandsBelow(keys, keys1, val, op, v, known);
    FreshGrown(Stmt(Alu(op, K), x), val, A_ATOM, keys1, key, false, 1);
    GrownAnyway(keys1, KnownOperands(key), known, 1, Fresh(Stmt(Alu(op, K), x), val, A_ATOM, keys1, key));
    GrownTwice(keys, keys1, known, Fresh(Stmt(Alu(op, K), x), val, A_ATOM, keys1, key));
  }

  lemma AluKGrown(keys: seq<Key>, val: Vals, s: Stmt, alter: bool)
    requires WellKeyed(keys) && Bounded(keys, val) && s.code.Alu? && s.code.src == K
    ensures Grown(keys, val[A_ATOM] != 0, 2, AluK(s, val, keys, alter))
  {
    var keys1, known := Extend(keys, ConstKey(s.k)), val[A_ATOM] != 0;
    OperandGrown(keys, val, s.k);
    hide FoldOp, Number, Extend, Fresh, WellKeyed, NoUnknownOperand, Grown, Bounded, Const, ConstVal;
    if alter && s.k == 0 && s.code.op in {ADD, LSH, RSH, OR} {
      StillGrown(Stmt(Nop, s.k), val, keys, known, 2);
    } else if alter && s.k == 0 && s.code.op in {MUL, AND} {
      FreshGrown(Stmt(LdImm, s.k), val, A_ATOM, keys, ConstKey(s.k), false, 2);
      GrownAnyway(keys, KnownOperands(ConstKey(s.k)), known, 2, AluK(s, val, keys, alter));
    } else if alter && Const(keys, val[A_ATOM]) {
      FoldedGrown(keys, keys1, val, FoldOp(s.code.op, ConstVal(keys, val[A_ATOM]), s.k), known);
    } else {
      OperationGrown(keys, val, s.code.op, s.k, known);
    }
  }

  lemma StillGrown(s: Stmt, val: Vals, keys: seq<Key>, known: bool, n: nat)
    requires WellKeyed(keys) && Bounded(keys, val)
    ensures Grown(keys, known, n, Rewrite(s, val, keys))
  {
  }

  lemma GrownAnyway(keys: seq<Key>, known: bool, known1: bool, n: nat, r: Rewrite)
    requires Grown(keys, known, n, r) && (known1 ==> known)
    ensures Grown(keys, known1, n, r)
  {
  }

  lemma AluXConstGrown(keys: seq<Key>, val: Vals, s: Stmt, known: bool)
    requires WellKeyed(keys) && Bounded(keys, val) && s.code.Alu? && s.code.src == X && Const(keys, val[X_ATOM])
    requires known ==> val[A_ATOM] != 0
    ensures Grown(keys, known, 2, AluX(s, val, keys, true))
  {
    var x: Word := ConstVal(keys, val[X_ATOM]);
    hide FoldOp, Number, Extend, Fresh, FreshStore, WellKeyed, NoUnknownOperand, Grown, Bounded;
    OperationGrown(keys, val, s.code.op, x, known);
    if Const(keys, val[A_ATOM]) {
      FoldedGrown(keys, keys, val, FoldOp(s.code.op, ConstVal(keys, val[A_ATOM]), x), known);
    }
  }

  lemma AluXGrown(keys: seq<Key>, val: Vals, s: Stmt, alter: bool)
    requires WellKeyed(keys) && Bounded(keys, val) && s.code.Alu? && s.code.src == X
    ensures Grown(keys, val[A_ATOM] != 0 && val[X_ATOM] != 0, 2, AluX(s, val, keys, alter))
  {
    var known, op := val[A_ATOM] != 0 && val[X_ATOM] != 0, s.code.op;
    assert val[A_ATOM] <= |keys| && val[X_ATOM] <= |keys|;
    hide FoldOp, Number, Extend, Fresh, FreshStore, WellKeyed, NoUnknownOperand, Grown, Vstore, Bounded, Const,
        ConstVal;
    if alter && Const(keys, val[X_ATOM]) {
      AluXConstGrown(keys, val, s, known);
    } else if alter && Const(keys, val[A_ATOM]) && ConstVal(keys, val[A_ATOM]) == 0 && op in {ADD, OR} {
      VstoreGrown(Stmt(Txa, s.k), val, A_ATOM, val[X_ATOM], keys, alter, known, 2);
    } else if alter && Const(keys, val[A_ATOM]) && ConstVal(keys, val[A_ATOM]) == 0 && op in {MUL, DIV, AND, LSH, RSH} {
      FreshGrown(Stmt(LdImm, 0), val, A_ATOM, keys, ConstKey(0), alter, 2);
      GrownAnyway(keys, KnownOperands(ConstKey(0)), known, 2, AluX(s, val, keys, alter));
    } else {
      FreshGrown(s, val, A_ATOM, keys, Key(s.code, val[A_ATOM], val[X_ATOM]), alter, 2);
    }
  }

  lemma LdIndGrown(keys: seq<Key>, val: Vals, s: Stmt, alter: bool)
    requires WellKeyed(keys) && Bounded(keys, val) && s.code.LdInd?
    ensures Grown(keys, val[X_ATOM] != 0, 2, Step(keys, val, s, alter))
  {
    hide FreshStore, WellKeyed, NoUnknownOperand, Grown, Wrap;
    if alter && Const(keys, val[X_ATOM]) {
      var key := Key(LdAbs(s.code.size), Wrap(s.k + ConstVal(keys, val[X_ATOM])), 0);
      FreshGrown(Stmt(LdAbs(s.code.size), key.v0), val, A_ATOM, keys, key, alter, 2);
      GrownAnyway(keys, KnownOperands(key), val[X_ATOM] != 0, 2, Step(keys, val, s, alter));
    } else {
      FreshGrown(s, val, A_ATOM, keys, Key(s.code, s.k, val[X_ATOM]), alter, 2);
    }
  }

  /** The tables stay well built, a statement takes at most two numbers, and a statement that reads no
      unknown atom makes no triple of an unknown operand. */
  lemma StepGrown(keys: seq<Key>, val: Vals, s: Stmt, alter: bool)
    requires MemOk(s) && WellKeyed(keys) && Bounded(keys, val)
    ensures Grown(keys, ReadsNumbered(val, s), if s.code == Nop then 0 else 2, Step(keys, val, s, alter))
  {
    hide FreshStore, Vstore, Fresh, AluK, AluX, WellKeyed, NoUnknownOperand, Grown;
    var known, r := ReadsNumbered(val, s), Step(keys, val, s, alter);
    match s.code
    case LdAbs(_) =>
      FreshGrown(s, val, A_ATOM, keys, Key(s.code, s.k, 0), alter, 2);
      GrownAnyway(keys, true, known, 2, r);
    case LdInd(_) => LdIndGrown(keys, val, s, alter); GrownAnyway(keys, val[X_ATOM] != 0, known, 2, r);
    case LdLen => FreshGrown(s, val, A_ATOM, keys, Key(s.code, 0, 0), alter, 2); GrownAnyway(keys, true, known, 2, r);
    case LdImm => FreshGrown(s, val, A_ATOM, keys, ConstKey(s.k), alter, 2); GrownAnyway(keys, true, known, 2, r);
    case LdxImm => FreshGrown(s, val, X_ATOM, keys, ConstKey(s.k), alter, 2); GrownAnyway(keys, true, known, 2, r);
    case LdxMsh =>
      FreshGrown(s, val, X_ATOM, keys, Key(s.code, s.k, 0), alter, 2);
      GrownAnyway(keys, true, known, 2, r);
    case Neg =>
      if alter && Const(keys, val[A_ATOM]) {
        var w := Negate(ConstVal(keys, val[A_ATOM]));
        FreshGrown(Stmt(LdImm, w), val, A_ATOM, keys, ConstKey(w), alter, 2);
        GrownAnyway(keys, true, known, 2, r);
      } else {
        FreshGrown(s, val, A_ATOM, keys, Key(s.code, val[A_ATOM], 0), alter, 2);
        GrownAnyway(keys, val[A_ATOM] != 0, known, 2, r);
      }
    case Alu(_, src) =>
      if src == K {
        AluKGrown(keys, val, s, alter);
        GrownAnyway(keys, val[A_ATOM] != 0, known, 2, r);
      } else {
        AluXGrown(keys, val, s, alter);
        GrownAnyway(keys, val[A_ATOM] != 0 && val[X_ATOM] != 0, known, 2, r);
      }
    case Txa => VstoreGrown(s, val, A_ATOM, val[X_ATOM], keys, alter, known, 2);
    case Tax => VstoreGrown(s, val, X_ATOM, val[A_ATOM], keys, alter, known, 2);
    case LdMem => LoadGrown(keys, val, s, A_ATOM, LdImm, alter, known);
    case LdxMem => LoadGrown(keys, val, s, X_ATOM, LdxImm, alter, known);
    case St => VstoreGrown(s, val, s.k, val[A_ATOM], keys, alter, known, 2);
    case Stx => VstoreGrown(s, val, s.k, val[X_ATOM], keys, alter, known, 2);
    case Nop => StillGrown(s, val, keys, known, 0);
    case _ => StillGrown(s, val, keys, known, 2);
  }

  lemma LoadGrown(keys: seq<Key>, val: Vals, s: Stmt, a: Atom, imm: Code, alter: bool, known: bool)
    requires WellKeyed(keys) && Bounded(keys, val) && s.k < MEMWORDS
    ensures Grown(keys, known, 2, Load(s, val, a, imm, keys, alter))
  {
    var v := val[s.k];
    VstoreGrown(if alter && Const(keys, v) then Stmt(imm, ConstVal(keys, v)) else s, val, a, v, keys, alter, known, 2);
  }

  /** Deleted statements stay deleted; one that is deleted leaves the table as it is; one that is still
      arithmetic leaves a number in A that is not a constant; with `alter` off nothing is rewritten. */
  ghost predicate Shaped(s: Stmt, val: Vals, alter: bool, r: Rewrite)
    requires MemOk(s)
  {
    && (!alter ==> r.Rewrite? && r.s == s)
    && (r.Rewrite? ==> MemOk(r.s) && (s.code == Nop ==> r.s == s) && (r.s.code == Nop ==> r.val == val)
                       && (r.s.code.Alu? ==> !Const(r.keys, r.val[A_ATOM])))
  }

  lemma FreshShaped(s: Stmt, s1: Stmt, val: Vals, a: Atom, keys: seq<Key>, key: Key, alter: bool)
    requires MemOk(s) && s.code != Nop && MemOk(s1) && s1.code != Nop && (!alter ==> s1 == s)
    requires s1.code.Alu? ==> a == A_ATOM && !Immediate(key.code)
    ensures Shaped(s, val, alter, Fresh(s1, val, a, keys, key))
    ensures !s1.code.Alu? ==> Shaped(s, val, alter, FreshStore(s1, val, a, keys, key, alter))
  {
  }

  lemma AluShaped(keys: seq<Key>, val: Vals, s: Stmt, alter: bool)
    requires s.code.Alu?
    ensures Shaped(s, val, alter, Step(keys, val, s, alter))
  {
    hide FoldOp, Extend, ConstVal, Const, Number, Fresh, FreshStore, Vstore, Shaped;
    if s.code.src == K {
      AluKShaped(keys, val, s, alter);
    } else {
      AluXShaped(keys, val, s, alter);
    }
  }

  lemma FoldedShaped(s: Stmt, val: Vals, keys: seq<Key>, r: Option<Word>)
    requires s.code.Alu?
    ensures Shaped(s, val, true, match r
                                 case None => DivisionByZero
                                 case Some(w) => Fresh(Stmt(LdImm, w), val, A_ATOM, keys, ConstKey(w)))
  {
    hide Fresh, Shaped;
    if r.Some? {
      FreshShaped(s, Stmt(LdImm, r.value), val, A_ATOM, keys, ConstKey(r.value), true);
    } else {
      DividedShaped(s, val);
    }
  }

  lemma DividedShaped(s: Stmt, val: Vals)
    requires MemOk(s)
    ensures Shaped(s, val, true, DivisionByZero)
  {
  }

  lemma AluKShaped(keys: seq<Key>, val: Vals, s: Stmt, alter: bool)
    requires s.code.Alu? && s.code.src == K
    ensures Shaped(s, val, alter, AluK(s, val, keys, alter))
  {
    var keys1 := Extend(keys, ConstKey(s.k));
    if alter && s.k == 0 && s.code.op in {ADD, LSH, RSH, OR} {
    } else {
      hide FoldOp, Extend, ConstVal, Const, Number, Fresh, Shaped;
      if alter && s.k == 0 && s.code.op in {MUL, AND} {
        FreshShaped(s, Stmt(LdImm, s.k), val, A_ATOM, keys, ConstKey(s.k), alter);
      } else if alter && Const(keys, val[A_ATOM]) {
        FoldedShaped(s, val, keys1, FoldOp(s.code.op, ConstVal(keys, val[A_ATOM]), s.k));
      } else {
        FreshShaped(s, s, val, A_ATOM, keys1, Key(s.code, val[A_ATOM], Number(keys1, ConstKey(s.k))), alter);
      }
    }
  }

  lemma AluXShaped(keys: seq<Key>, val: Vals, s: Stmt, alter: bool)
    requires s.code.Alu? && s.code.src == X
    ensures Shaped(s, val, alter, AluX(s, val, keys, alter))
  {
    var op := s.code.op;
    if alter && !Const(keys, val[X_ATOM]) && Const(keys, val[A_ATOM]) && ConstVal(keys, val[A_ATOM]) == 0
        && op in {ADD, OR} {
    } else {
      hide FoldOp, Extend, ConstVal, Const, Number, Fresh, FreshStore, Shaped, Vstore;
      if alter && Const(keys, val[X_ATOM]) {
        var x := ConstVal(keys, val[X_ATOM]);
        if Const(keys, val[A_ATOM]) {
          FoldedShaped(s, val, keys, FoldOp(op, ConstVal(keys, val[A_ATOM]), x));
        } else {
          var keys1 := Extend(keys, ConstKey(x));
          FreshShaped(s, Stmt(Alu(op, K), x), val, A_ATOM, keys1,
              Key(Alu(op, K), val[A_ATOM], Number(keys1, ConstKey(x))), alter);
        }
      } else if alter && Const(keys, val[A_ATOM]) && ConstVal(keys, val[A_ATOM]) == 0
          && op in {MUL, DIV, AND, LSH, RSH} {
        FreshShaped(s, Stmt(LdImm, 0), val, A_ATOM, keys, ConstKey(0), alter);
      } else {
        FreshShaped(s, s, val, A_ATOM, keys, Key(s.code, val[A_ATOM], val[X_ATOM]), alter);
      }
    }
  }

  lemma VstoreShaped(s: Stmt, s1: Stmt, val: Vals, a: Atom, v: nat, keys: seq<Key>, alter: bool)
    requires MemOk(s) && s.code != Nop && MemOk(s1) && s1.code != Nop && !s1.code.Alu? && (!alter ==> s1 == s)
    ensures Shaped(s, val, alter, Vstore(s1, val, a, v, keys, alter))
  {
  }

  lemma StepShape(keys: seq<Key>, val: Vals, s: Stmt, alter: bool)
    requires MemOk(s)
    ensures Shaped(s, val, alter, Step(keys, val, s, alter))
  {
    if s.code.Alu? {
      AluShaped(keys, val, s, alter);
    } else if s.code in {LdMem, LdxMem} {
      var c, v := Const(keys, val[s.k]), val[s.k];
      var a, imm := if s.code == LdMem then A_ATOM else X_ATOM, if s.code == LdMem then LdImm else LdxImm;
      VstoreShaped(s, if alter && c then Stmt(imm, ConstVal(keys, v)) else s, val, a, v, keys, alter);
    } else if s.code in {Txa, Tax, St, Stx} {
      var a := match s.code case Txa => A_ATOM case Tax => X_ATOM case _ => s.k;
      VstoreShaped(s, s, val, a, if s.code in {Txa, Stx} then val[X_ATOM] else val[A_ATOM], keys, alter);
    } else {
      LoadShaped(keys, val, s, alter);
    }
  }

  lemma LoadShaped(keys: seq<Key>, val: Vals, s: Stmt, alter: bool)
    requires !s.code.Alu? && s.code !in {LdMem, LdxMem, Txa, Tax, St, Stx}
    ensures Shaped(s, val, alter, Step(keys, val, s, alter))
  {
    assert Const(keys, val[A_ATOM]) ==> ConstVal(keys, val[A_ATOM]) < TWO32;
    if s.code.LdAbs? || s.code.LdInd? || s.code in {LdLen, LdImm, LdxImm, LdxMsh, Neg} {
      hide FreshStore, Fresh, Shaped, Const, ConstVal, Wrap, Negate;
      match s.code
      case LdAbs(_) => FreshShaped(s, s, val, A_ATOM, keys, Key(s.code, s.k, 0), alter);
      case LdInd(size) =>
        if alter && Const(keys, val[X_ATOM]) {
          var k := Wrap(s.k + ConstVal(keys, val[X_ATOM]));
          FreshShaped(s, Stmt(LdAbs(size), k), val, A_ATOM, keys, Key(LdAbs(size), k, 0), alter);
        } else {
          FreshShaped(s, s, val, A_ATOM, keys, Key(s.code, s.k, val[X_ATOM]), alter);
        }
      case LdLen => FreshShaped(s, s, val, A_ATOM, keys, Key(s.code, 0, 0), alter);
      case LdImm => FreshShaped(s, s, val, A_ATOM, keys, ConstKey(s.k), alter);
      case LdxImm => FreshShaped(s, s, val, X_ATOM, keys, ConstKey(s.k), alter);
      case LdxMsh => FreshShaped(s, s, val, X_ATOM, keys, Key(s.code, s.k, 0), alter);
      case Neg =>
        if alter && Const(keys, val[A_ATOM]) {
          var w := Negate(ConstVal(keys, val[A_ATOM]));
          FreshShaped(s, Stmt(LdImm, w), val, A_ATOM, keys, ConstKey(w), alter);
        } else {
          FreshShaped(s, s, val, A_ATOM, keys, Key(s.code, val[A_ATOM], 0), alter);
        }
    }
  }

  /** Later numbers do not make a number a constant. */
  lemma ConstStable(keys: seq<Key>, more: seq<Key>, v: nat)
    requires keys <= more && v <= |keys|
    ensures Const(more, v) == Const(keys, v)
  {
    assert v >= 1 ==> more[v - 1] == keys[v - 1];
  }

  // ----- All statements of a block -----

  /** What the loop leaves of the statements, with the tables at the end; Divided is the error exit of fold_op. */
  datatype Rewrites = Rewrites(ss: seq<Stmt>, val: Vals, keys: seq<Key>) | Divided

  ghost function Steps(keys: seq<Key>, val: Vals, ss: seq<Stmt>, alter: bool): Rewrites
    requires AllMemOk(ss)
    decreases |ss|
  {
    if ss == [] then Rewrites([], val, keys)
    else
      assert ss[|ss| - 1] in ss && forall s :: s in ss[..|ss| - 1] ==> s in ss;
      Then(Steps(keys, val, ss[..|ss| - 1], alter), ss[|ss| - 1], alter)
  }

  ghost function Then(r: Rewrites, s: Stmt, alter: bool): Rewrites
    requires MemOk(s)
  {
    match r
    case Divided => Divided
    case Rewrites(ss1, val1, keys1) =>
      match Step(keys1, val1, s, alter)
      case DivisionByZero => Divided
      case Rewrite(s1, val2, keys2) => Rewrites(ss1 + [s1], val2, keys2)
  }

  lemma SnocMem(ss: seq<Stmt>)
    requires AllMemOk(ss) && ss != []
    ensures AllMemOk(ss[..|ss| - 1]) && MemOk(ss[|ss| - 1]) && ss == ss[..|ss| - 1] + [ss[|ss| - 1]]
  {
    assert ss[|ss| - 1] in ss && forall s :: s in ss[..|ss| - 1] ==> s in ss;
  }

  lemma StepsSnoc(keys: seq<Key>, val: Vals, ss: seq<Stmt>, alter: bool)
    requires AllMemOk(ss) && ss != []
    ensures AllMemOk(ss[..|ss| - 1]) && MemOk(ss[|ss| - 1])
    ensures Steps(keys, val, ss, alter) == Then(Steps(keys, val, ss[..|ss| - 1], alter), ss[|ss| - 1], alter)
  {
    SnocMem(ss);
  }

  /** A property of every step of the loop. */
  ghost predicate KnownReads(keys: seq<Key>, val: Vals, ss: seq<Stmt>, alter: bool)
    requires AllMemOk(ss)
    decreases |ss|
  {
    ss != [] ==>
      assert ss[|ss| - 1] in ss && forall s :: s in ss[..|ss| - 1] ==> s in ss;
      && KnownReads(keys, val, ss[..|ss| - 1], alter)
      && var r := Steps(keys, val, ss[..|ss| - 1], alter);
         r.Rewrites? ==> ReadsNumbered(r.val, ss[|ss| - 1])
  }

  /** No statement is deleted by vstore on account of an unknown number; nothing is deleted with `alter` off. */
  ghost predicate Steady(keys: seq<Key>, val: Vals, ss: seq<Stmt>, alter: bool)
    requires AllMemOk(ss)
    decreases |ss|
  {
    ss != [] && alter ==>
      assert ss[|ss| - 1] in ss && forall s :: s in ss[..|ss| - 1] ==> s in ss;
      && Steady(keys, val, ss[..|ss| - 1], alter)
      && var r := Steps(keys, val, ss[..|ss| - 1], alter);
         r.Rewrites? && WellKeyed(r.keys) ==> !DeletesUnknown(r.keys, r.val, ss[|ss| - 1])
  }

  ghost predicate StepsGrown(keys: seq<Key>, ss: seq<Stmt>, r: Rewrites) {
    r.Rewrites? ==>
      && WellKeyed(r.keys) && keys <= r.keys && Bounded(r.keys, r.val) && |r.keys| <= |keys| + 2 * |Live(ss)|
      && AllMemOk(r.ss) && |r.ss| == |ss| && |Live(r.ss)| <= |Live(ss)|
  }

  /** At most two numbers are issued for each live statement, the tables stay well built, and no
      statement comes back to life. */
  lemma {:induction false} StepsKeys(keys: seq<Key>, val: Vals, ss: seq<Stmt>, alter: bool)
    requires AllMemOk(ss) && WellKeyed(keys) && Bounded(keys, val)
    ensures StepsGrown(keys, ss, Steps(keys, val, ss, alter))
    ensures !alter ==> Steps(keys, val, ss, alter).Rewrites? && Steps(keys, val, ss, alter).ss == ss
    decreases |ss|
  {
    if ss != [] {
      var (init, last) := (ss[..|ss| - 1], ss[|ss| - 1]);
      SnocMem(ss);
      StepsSnoc(keys, val, ss, alter);
      StepsKeys(keys, val, init, alter);
      LiveSnoc(init, last);
      var r := Steps(keys, val, init, alter);
      if r.Rewrites? {
        var q := Step(r.keys, r.val, last, alter);
        StepGrown(r.keys, r.val, last, alter);
        StepShape(r.keys, r.val, last, alter);
        if q.Rewrite? {
          LiveSnoc(r.ss, q.s);
        }
        hide Step, Steps, WellKeyed, Bounded, NoUnknownOperand;
      }
    }
  }

  /** If no statement reads an unknown atom, no triple has an unknown operand, and nothing is deleted wrongly. */
  lemma {:induction false} StepsKnown(keys: seq<Key>, val: Vals, ss: seq<Stmt>, alter: bool)
    requires AllMemOk(ss) && WellKeyed(keys) && Bounded(keys, val) && NoUnknownOperand(keys)
    requires KnownReads(keys, val, ss, alter)
    ensures Steps(keys, val, ss, alter).Rewrites? ==> NoUnknownOperand(Steps(keys, val, ss, alter).keys)
    ensures Steady(keys, val, ss, alter)
    decreases |ss|
  {
    if ss != [] {
      var (init, last) := (ss[..|ss| - 1], ss[|ss| - 1]);
      SnocMem(ss);
      StepsSnoc(keys, val, ss, alter);
      StepsKnown(keys, val, init, alter);
      StepsKeys(keys, val, init, alter);
      var r := Steps(keys, val, init, alter);
      if r.Rewrites? {
        StepGrown(r.keys, r.val, last, alter);
        NumberedIsKnown(r.keys, r.val, last);
        KnownReadsSuffice(r.keys, r.val, last);
        hide Step, Steps, WellKeyed, Bounded, NoUnknownOperand, DeletesUnknown;
      }
    }
  }

  lemma NumberedIsKnown(keys: seq<Key>, val: Vals, s: Stmt)
    requires MemOk(s) && WellKeyed(keys) && Bounded(keys, val) && NoUnknownOperand(keys) && ReadsNumbered(val, s)
    ensures ReadsKnown(keys, val, s)
  {
    forall a | a in AtomUse(s)
      ensures Clean(keys, val[a])
    {
      assert val[a] <= |keys|;
      NonzeroIsKnown(keys, val[a]);
    }
  }

  /** What the loop leaves runs as the block did, from every state that agrees with the entry table and
      on every run that does not fault, and the exit table agrees with the state at the end. In
      particular fold_op's error exit is only taken where every such run faults. */
  lemma {:induction false} StepsSound(keys: seq<Key>, val: Vals, ss: seq<Stmt>, alter: bool, st: State, p: Packet)
    requires AllMemOk(ss) && WellKeyed(keys) && Bounded(keys, val) && Steady(keys, val, ss, alter)
    requires Agrees(keys, val, st, p) && ExecAll(ss, st, p).Some?
    ensures var r := Steps(keys, val, ss, alter);
            && r.Rewrites? && ExecAll(r.ss, st, p) == ExecAll(ss, st, p)
            && WellKeyed(r.keys) && Agrees(r.keys, r.val, ExecAll(ss, st, p).value, p)
    decreases |ss|
  {
    if ss != [] {
      var (init, last) := (ss[..|ss| - 1], ss[|ss| - 1]);
      SnocMem(ss);
      StepsSnoc(keys, val, ss, alter);
      ExecSnoc(init, last, st, p);
      SteadySnoc(keys, val, ss, alter);
      StepsSound(keys, val, init, alter, st, p);
      StepsKeys(keys, val, init, alter);
      var r, st1 := Steps(keys, val, init, alter), ExecAll(init, st, p).value;
      StepSound(r.keys, r.val, last, alter, st1, p);
      ExecSnoc(r.ss, Step(r.keys, r.val, last, alter).s, st, p);
      hide Step, Steps, WellKeyed, Bounded, Agrees, Exec, ExecAll, DeletesUnknown, Steady;
    }
  }

  lemma SteadySnoc(keys: seq<Key>, val: Vals, ss: seq<Stmt>, alter: bool)
    requires AllMemOk(ss) && ss != [] && Steady(keys, val, ss, alter)
    ensures AllMemOk(ss[..|ss| - 1]) && MemOk(ss[|ss| - 1]) && Steady(keys, val, ss[..|ss| - 1], alter)
    ensures var r := Steps(keys, val, ss[..|ss| - 1], alter);
            alter && r.Rewrites? && WellKeyed(r.keys) ==> !DeletesUnknown(r.keys, r.val, ss[|ss| - 1])
  {
    SnocMem(ss);
  }

  lemma ExecSnoc(init: seq<Stmt>, last: Stmt, st: State, p: Packet)
    ensures ExecAll(init + [last], st, p)
         == match ExecAll(init, st, p) case Some(st1) => Exec(last, st1, p) case None => None
  {
    ExecAllConcat(init, [last], st, p);
    if ExecAll(init, st, p).Some? {
      assert [last][1..] == [];
    }
  }

  // ----- Blocks that end in arithmetic -----

  /** A list that ends in arithmetic: its last statement is, or that has been deleted and the rest does. */
  lemma EndsSnoc(init: seq<Stmt>, last: Stmt)
    ensures EndsInAlu(init + [last]) ==> last.code.Alu? || (last.code == Nop && EndsInAlu(init))
  {
    var ss := init + [last];
    if EndsInAlu(ss) {
      var j :| 0 <= j < |ss| && ss[j].code.Alu? && AllNop(ss, j + 1);
      if j < |init| {
        assert ss[|init|].code == Nop;
        assert init[j] == ss[j];
        forall k {:trigger init[k]} | j + 1 <= k < |init|
          ensures init[k].code == Nop
        {
          assert init[k] == ss[k];
        }
      }
    }
  }

  /** One more statement. */
  lemma EndsStep(r: Rewrites, last: Stmt, alter: bool)
    requires MemOk(last) && r.Rewrites? && WellKeyed(r.keys) && Bounded(r.keys, r.val)
    requires EndsInAlu(r.ss) ==> !Const(r.keys, r.val[A_ATOM])
    ensures var r1 := Then(r, last, alter);
            r1.Rewrites? && EndsInAlu(r1.ss) ==> !Const(r1.keys, r1.val[A_ATOM])
  {
    var q := Step(r.keys, r.val, last, alter);
    StepGrown(r.keys, r.val, last, alter);
    StepShape(r.keys, r.val, last, alter);
    assert r.val[A_ATOM] <= |r.keys|;
    hide Step, EndsInAlu, WellKeyed, Bounded, NoUnknownOperand, Const;
    if q.Rewrite? {
      EndsSnoc(r.ss, q.s);
      ConstStable(r.keys, q.keys, r.val[A_ATOM]);
    }
  }

  /** When arithmetic is what the loop leaves at the end, A is not numbered as a constant. */
  lemma {:induction false} EndsOpen(keys: seq<Key>, val: Vals, ss: seq<Stmt>, alter: bool)
    requires AllMemOk(ss) && WellKeyed(keys) && Bounded(keys, val)
    ensures var r := Steps(keys, val, ss, alter);
            r.Rewrites? && EndsInAlu(r.ss) ==> !Const(r.keys, r.val[A_ATOM])
    decreases |ss|
  {
    if ss != [] {
      var (init, last) := (ss[..|ss| - 1], ss[|ss| - 1]);
      SnocMem(ss);
      hide *;
      StepsSnoc(keys, val, ss, alter);
      EndsOpen(keys, val, init, alter);
      StepsKeys(keys, val, init, alter);
      var r := Steps(keys, val, init, alter);
      if r.Rewrites? {
        StepsGrownParts(keys, init, r);
        EndsStep(r, last, alter);
      } else {
        ThenDivided(last, alter);
      }
    }
  }

  lemma ThenDivided(s: Stmt, alter: bool)
    requires MemOk(s)
    ensures Then(Divided, s, alter) == Divided
  {
  }

  lemma StepsGrownParts(keys: seq<Key>, ss: seq<Stmt>, r: Rewrites)
    requires StepsGrown(keys, ss, r) && r.Rewrites?
    ensures WellKeyed(r.keys) && Bounded(r.keys, r.val)
  {
  }

  // ----- The loop itself -----

  /** The statement loop of opt_blk. */
  method NumberStmts(t: Table, e: Vals, ss: seq<Stmt>, alter: bool) returns (ok: bool, ss': seq<Stmt>, val: Vals)
    requires t.Valid() && WellKeyed(t.keys) && Bounded(t.keys, e) && AllMemOk(ss)
    requires t.curval + 2 * |Live(ss)| + 3 <= t.vmap.Length
    modifies t, t.hashtbl, t.vmap
    ensures t.Valid() && ok == Steps(old(t.keys), e, ss, alter).Rewrites?
    ensures ok ==> Rewrites(ss', val, t.keys) == Steps(old(t.keys), e, ss, alter)
  {
    ok, ss', val := true, [], e;
    ghost var keys0 := t.keys;
    for i := 0 to |ss|
      invariant t.Valid() && ok && AllMemOk(ss[..i]) && Rewrites(ss', val, t.keys) == Steps(keys0, e, ss[..i], alter)
    {
      ghost var keys1, val1, ss1 := t.keys, val, ss';
      PrefixRoom(keys0, e, ss, i, alter, t.vmap.Length);
      hide *;
      var s', val';
      ok, s', val' := OptStmt(t, ss[i], val, alter);
      ThenIs(ss1, val1, keys1, ss[i], alter, ok, s', val', t.keys);
      if !ok {
        DividedStays(keys0, e, ss, i + 1, alter);
        return;
      }
      ss', val := ss' + [s'], val';
    }
    assert ss[..|ss|] == ss;
  }

  lemma ThenIs(ss1: seq<Stmt>, val1: Vals, keys1: seq<Key>, s: Stmt, alter: bool, ok: bool, s': Stmt, val': Vals,
               keys': seq<Key>)
    requires MemOk(s) && ok == Step(keys1, val1, s, alter).Rewrite?
    requires ok ==> Rewrite(s', val', keys') == Step(keys1, val1, s, alter)
    ensures Then(Rewrites(ss1, val1, keys1), s, alter) == if ok then Rewrites(ss1 + [s'], val', keys') else Divided
  {
  }

  /** There is room for the next statement, and what the prefix gives. */
  lemma PrefixRoom(keys: seq<Key>, val: Vals, ss: seq<Stmt>, i: nat, alter: bool, room: nat)
    requires AllMemOk(ss) && i < |ss| && WellKeyed(keys) && Bounded(keys, val) && |keys| + 2 * |Live(ss)| + 3 <= room
    ensures AllMemOk(ss[..i]) && AllMemOk(ss[..i + 1]) && MemOk(ss[i])
    ensures StepsGrown(keys, ss[..i], Steps(keys, val, ss[..i], alter))
    ensures Steps(keys, val, ss[..i], alter).Rewrites? ==> |Steps(keys, val, ss[..i], alter).keys| + 2 < room
    ensures Steps(keys, val, ss[..i], alter).Rewrites? ==>
              WellKeyed(Steps(keys, val, ss[..i], alter).keys)
              && Bounded(Steps(keys, val, ss[..i], alter).keys, Steps(keys, val, ss[..i], alter).val)
    ensures Steps(keys, val, ss[..i + 1], alter) == Then(Steps(keys, val, ss[..i], alter), ss[i], alter)
  {
    assert ss[i] in ss && forall s :: s in ss[..i + 1] ==> s in ss;
    assert ss[..i + 1][..i] == ss[..i] && ss[..i + 1][i] == ss[i];
    StepsSnoc(keys, val, ss[..i + 1], alter);
    StepsKeys(keys, val, ss[..i], alter);
    LivePrefix(ss, i);
    hide Steps, Then, WellKeyed, Bounded, Live;
  }

  /** Once the loop has given up, the whole block has. */
  lemma {:induction false} DividedStays(keys: seq<Key>, val: Vals, ss: seq<Stmt>, i: nat, alter: bool)
    requires AllMemOk(ss) && i <= |ss| && AllMemOk(ss[..i]) && Steps(keys, val, ss[..i], alter) == Divided
    ensures Steps(keys, val, ss, alter) == Divided
    decreases |ss| - i
  {
    if i == |ss| {
      assert ss[..i] == ss;
    } else {
      assert ss[i] in ss && forall s :: s in ss[..i + 1] ==> s in ss;
      assert ss[..i + 1][..i] == ss[..i];
      StepsSnoc(keys, val, ss[..i + 1], alter);
      DividedStays(keys, val, ss, i + 1, alter);
    }
  }
}
