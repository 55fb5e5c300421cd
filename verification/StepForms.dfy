/** What opt_stmt leaves of a statement, and which number it gives to the atom that is set: with `alter` on everything
    the table knows is used. */
module StepForms {
  import opened Bpf
  import opened Atoms
  import opened ValueTable
  import opened Symbolic

  /** The operand of arithmetic is known. */
  predicate OperandConst(keys: seq<Key>, val: Vals, s: Stmt) {
    s.code.Alu? && (s.code.src == X ==> Const(keys, val[X_ATOM]))
  }

  function OperandOf(keys: seq<Key>, val: Vals, s: Stmt): Word
    requires OperandConst(keys, val, s)
  {
    if s.code.src == X then ConstVal(keys, val[X_ATOM]) else s.k
  }

  /** Arithmetic on two constants is done: what is left loads the result, or nothing where A holds it already. */
  /** Numbering leaves the statement as it is. */
  lemma FreshStmt(val: Vals)
    ensures forall s1: Stmt, keys1: seq<Key>, key: Key {:trigger Fresh(s1, val, A_ATOM, keys1, key)} ::
              Fresh(s1, val, A_ATOM, keys1, key).Rewrite? && Fresh(s1, val, A_ATOM, keys1, key).s == s1
  {
  }

  lemma AluFolds(keys: seq<Key>, val: Vals, s: Stmt)
    requires MemOk(s) && OperandConst(keys, val, s) && Const(keys, val[A_ATOM])
    ensures var (a, b, r) := (ConstVal(keys, val[A_ATOM]), OperandOf(keys, val, s), Step(keys, val, s, true));
            && (s.code.op == DIV && b == 0 <==> r == DivisionByZero)
            && (AluEval(s.code.op, a, b).Some? ==>
                 var w := AluEval(s.code.op, a, b).value;
                 r.s == Stmt(LdImm, w) || (r.s == Stmt(Nop, 0) && b == 0 && w == a))
            && (r.Rewrite? ==> r.s.code in {LdImm, Nop})
  {
    var a, b := ConstVal(keys, val[A_ATOM]), OperandOf(keys, val, s);
    FoldOpExact(s.code.op, a, b);
    ZeroRules(s.code.op, a);
    hide FoldOp, AluEval, Number, Extend, Const, ConstVal, Fresh;
    FreshStmt(val);
  }

  /** With a constant in X only, the operation is one on that constant, and numbered as such. */
  lemma AluTakesConst(keys: seq<Key>, val: Vals, s: Stmt)
    requires s.code.Alu? && s.code.src == X && Const(keys, val[X_ATOM]) && !Const(keys, val[A_ATOM])
    ensures Step(keys, val, s, true).Rewrite?
    ensures Step(keys, val, s, true).s == Stmt(Alu(s.code.op, K), ConstVal(keys, val[X_ATOM]))
    ensures Step(keys, val, s, true) == Step(keys, val, Step(keys, val, s, true).s, false)
  {
    hide Number, Extend;
  }

  /** With a zero in A only: the sum or disjunction is X, and all but the difference is zero. */
  lemma AluOfZero(keys: seq<Key>, val: Vals, s: Stmt)
    requires s.code.Alu? && s.code.src == X && !Const(keys, val[X_ATOM]) && s.code.op != SUB
    requires Const(keys, val[A_ATOM]) && ConstVal(keys, val[A_ATOM]) == 0
    ensures Step(keys, val, s, true).Rewrite? && Step(keys, val, s, true).s.code in {LdImm, Txa, Nop}
    ensures Step(keys, val, s, true).s.code == Txa ==> s.code.op in {ADD, OR}
    ensures Step(keys, val, s, true).s.code == LdImm ==> s.code.op !in {ADD, OR} && Step(keys, val, s, true).s.k == 0
  {
    hide Number, Extend, Const, ConstVal;
  }

  /** A zero operand: what leaves A alone is deleted, what gives zero loads it. */
  lemma AluWithZero(keys: seq<Key>, val: Vals, s: Stmt)
    requires s.code.Alu? && s.code.src == K && s.k == 0
    ensures s.code.op in {ADD, OR, LSH, RSH} ==> Step(keys, val, s, true) == Rewrite(Stmt(Nop, 0), val, keys)
    ensures s.code.op in {MUL, AND} ==>
              Step(keys, val, s, true).Rewrite? && Step(keys, val, s, true).s == Stmt(LdImm, 0)
  {
    hide Number, Extend, Const, ConstVal, FoldOp;
  }

  /** A negated constant, an indexed load with a constant index, and loads of scratch words that hold constants. */
  lemma LoadsFold(keys: seq<Key>, val: Vals, s: Stmt)
    requires MemOk(s)
    ensures var r := Step(keys, val, s, true);
            && (s.code == Neg && Const(keys, val[A_ATOM]) ==>
                 r.Rewrite? && r.s == Stmt(LdImm, Negate(ConstVal(keys, val[A_ATOM]))))
            && (s.code.LdInd? && Const(keys, val[X_ATOM]) ==>
                 r == Step(keys, val, Stmt(LdAbs(s.code.size), Wrap(s.k + ConstVal(keys, val[X_ATOM]))), true))
            && (s.code.LdAbs? ==> r.Rewrite? && r.s.code in {s.code, Nop} && r.s.k == s.k)
            && (s.code == LdMem && Const(keys, val[s.k]) ==>
                 r.Rewrite? && (r.s == Stmt(LdImm, ConstVal(keys, val[s.k]))
                                || (r.s.code == Nop && val[A_ATOM] == val[s.k])))
            && (s.code == LdxMem && Const(keys, val[s.k]) ==>
                 r.Rewrite? && (r.s == Stmt(LdxImm, ConstVal(keys, val[s.k]))
                                || (r.s.code == Nop && val[X_ATOM] == val[s.k])))
  {
    hide Number, Extend, Const, ConstVal, Negate, Wrap;
  }

  /** A load, move or store is deleted exactly when the atom it sets has the number already. */
  lemma RepeatedDeleted(keys: seq<Key>, val: Vals, s: Stmt)
    requires MemOk(s) && AtomDef(s).Some? && !s.code.Alu? && s.code != Neg
    ensures var (a, r) := (AtomDef(s).value, Step(keys, val, s, true));
            r.Rewrite? && (r.s.code == Nop <==> r.val[a] == val[a])
  {
    hide Number, Extend, Const, ConstVal, Negate, Wrap;
  }

  /** A move, a store or a load of a scratch word copies the number. */
  lemma MovesCopy(keys: seq<Key>, val: Vals, s: Stmt, alter: bool)
    requires MemOk(s) && s.code in {Txa, Tax, LdMem, LdxMem, St, Stx}
    ensures AtomDef(s).Some? && Step(keys, val, s, alter).Rewrite? && Step(keys, val, s, alter).keys == keys
    ensures Step(keys, val, s, alter).val[AtomDef(s).value]
         == val[match s.code case Txa | Stx => X_ATOM case Tax | St => A_ATOM case _ => s.k]
  {
    hide Const, ConstVal;
  }

  /** A constant that is loaded has the number of its triple. */
  ghost predicate Shares(a: Atom, r: Rewrite) {
    r.Rewrite? && r.s.code in {LdImm, LdxImm} ==>
      ConstKey(r.s.k) in r.keys && r.val[a] == Number(r.keys, ConstKey(r.s.k))
  }

  lemma FreshShares(s: Stmt, val: Vals, a: Atom, keys: seq<Key>, key: Key, alter: bool)
    requires s.code in {LdImm, LdxImm} ==> key == ConstKey(s.k)
    ensures Shares(a, Fresh(s, val, a, keys, key)) && Shares(a, FreshStore(s, val, a, keys, key, alter))
  {
    hide Number;
  }

  lemma FoldShares(val: Vals, keys: seq<Key>, r: Option<Word>)
    ensures Shares(A_ATOM, match r
                           case None => DivisionByZero
                           case Some(w) => Fresh(Stmt(LdImm, w), val, A_ATOM, keys, ConstKey(w)))
  {
    hide Fresh;
    if r.Some? {
      FreshShares(Stmt(LdImm, r.value), val, A_ATOM, keys, ConstKey(r.value), false);
    }
  }

  lemma VstoreShares(s: Stmt, val: Vals, a: Atom, v: nat, keys: seq<Key>, alter: bool)
    requires s.code !in {LdImm, LdxImm}
    ensures Shares(a, Vstore(s, val, a, v, keys, alter))
  {
    hide Number;
  }

  lemma AluKShares(keys: seq<Key>, val: Vals, s: Stmt, alter: bool)
    requires s.code.Alu? && s.code.src == K
    ensures Shares(A_ATOM, AluK(s, val, keys, alter))
  {
    var op, keys1 := s.code.op, Extend(keys, ConstKey(s.k));
    hide FoldOp, Number, Extend, Const, ConstVal, Fresh;
    if alter && s.k == 0 && op in {ADD, LSH, RSH, OR} {
    } else {
      hide Shares;
      if alter && s.k == 0 && op in {MUL, AND} {
        FreshShares(Stmt(LdImm, s.k), val, A_ATOM, keys, ConstKey(s.k), alter);
      } else if alter && Const(keys, val[A_ATOM]) {
        FoldShares(val, keys1, FoldOp(op, ConstVal(keys, val[A_ATOM]), s.k));
      } else {
        FreshShares(s, val, A_ATOM, keys1, Key(s.code, val[A_ATOM], Number(keys1, ConstKey(s.k))), alter);
      }
    }
  }

  lemma AluXShares(keys: seq<Key>, val: Vals, s: Stmt, alter: bool)
    requires s.code.Alu? && s.code.src == X
    ensures Shares(A_ATOM, AluX(s, val, keys, alter))
  {
    var op := s.code.op;
    hide FoldOp, Number, Extend, ConstVal, Fresh, FreshStore, Vstore, Shares;
    if alter && Const(keys, val[X_ATOM]) {
      var x: Word := ConstVal(keys, val[X_ATOM]);
      if Const(keys, val[A_ATOM]) {
        FoldShares(val, keys, FoldOp(op, ConstVal(keys, val[A_ATOM]), x));
      } else {
        var keys1 := Extend(keys, ConstKey(x));
        FreshShares(Stmt(Alu(op, K), x), val, A_ATOM, keys1, Key(Alu(op, K), val[A_ATOM], Number(keys1, ConstKey(x))),
                    alter);
      }
    } else if alter && Const(keys, val[A_ATOM]) && ConstVal(keys, val[A_ATOM]) == 0 && op in {ADD, OR} {
      VstoreShares(Stmt(Txa, s.k), val, A_ATOM, val[X_ATOM], keys, alter);
    } else if alter && Const(keys, val[A_ATOM]) && ConstVal(keys, val[A_ATOM]) == 0 && op in {MUL, DIV, AND, LSH, RSH} {
      FreshShares(Stmt(LdImm, 0), val, A_ATOM, keys, ConstKey(0), alter);
    } else {
      FreshShares(s, val, A_ATOM, keys, Key(s.code, val[A_ATOM], val[X_ATOM]), alter);
    }
  }

  lemma NegShares(keys: seq<Key>, val: Vals, s: Stmt, alter: bool)
    requires s.code == Neg
    ensures Shares(A_ATOM, Step(keys, val, s, alter))
  {
    hide Fresh, ConstVal, Negate, Shares;
    if alter && Const(keys, val[A_ATOM]) {
      var w := Negate(ConstVal(keys, val[A_ATOM]));
      FreshShares(Stmt(LdImm, w), val, A_ATOM, keys, ConstKey(w), alter);
    } else {
      FreshShares(s, val, A_ATOM, keys, Key(s.code, val[A_ATOM], 0), alter);
    }
  }

  lemma IndShares(keys: seq<Key>, val: Vals, s: Stmt, alter: bool)
    requires s.code.LdInd?
    ensures Shares(A_ATOM, Step(keys, val, s, alter))
  {
    hide FreshStore, ConstVal, Wrap, Shares;
    if alter && Const(keys, val[X_ATOM]) {
      var k := Wrap(s.k + ConstVal(keys, val[X_ATOM]));
      FreshShares(Stmt(LdAbs(s.code.size), k), val, A_ATOM, keys, Key(LdAbs(s.code.size), k, 0), alter);
    } else {
      FreshShares(s, val, A_ATOM, keys, Key(s.code, s.k, val[X_ATOM]), alter);
    }
  }

  /** Equal constants get equal numbers, whatever makes them. */
  lemma ConstsShare(keys: seq<Key>, val: Vals, s: Stmt, alter: bool)
    requires MemOk(s) && s.code !in {LdMem, LdxMem} && AtomDef(s).Some?
    ensures Shares(AtomDef(s).value, Step(keys, val, s, alter))
  {
    hide Fresh, FreshStore, Vstore, AluK, AluX, Const, Shares;
    match s.code
    case LdAbs(_) => FreshShares(s, val, A_ATOM, keys, Key(s.code, s.k, 0), alter);
    case LdInd(_) => IndShares(keys, val, s, alter);
    case LdLen => FreshShares(s, val, A_ATOM, keys, Key(s.code, 0, 0), alter);
    case LdImm => FreshShares(s, val, A_ATOM, keys, ConstKey(s.k), alter);
    case LdxImm => FreshShares(s, val, X_ATOM, keys, ConstKey(s.k), alter);
    case LdxMsh => FreshShares(s, val, X_ATOM, keys, Key(s.code, s.k, 0), alter);
    case Neg => NegShares(keys, val, s, alter);
    case Alu(_, src) =>
      if src == K {
        AluKShares(keys, val, s, alter);
      } else {
        AluXShares(keys, val, s, alter);
      }
    case Txa => VstoreShares(s, val, A_ATOM, val[X_ATOM], keys, alter);
    case Tax => VstoreShares(s, val, X_ATOM, val[A_ATOM], keys, alter);
    case St => VstoreShares(s, val, s.k, val[A_ATOM], keys, alter);
    case Stx => VstoreShares(s, val, s.k, val[X_ATOM], keys, alter);
  }

  // ----- The number of the atom that is set -----

  /** No other atom has got a new number; that of `a` is known if `known`, and if a constant is loaded it is that
      constant. */
  ghost predicate Numbered(val: Vals, a: Atom, known: bool, r: Rewrite) {
    r.Rewrite? ==>
      && (forall b: Atom {:trigger r.val[b]} :: b != a ==> r.val[b] == val[b])
      && WellKeyed(r.keys) && (known ==> Clean(r.keys, r.val[a]))
      && (r.s.code in {LdImm, LdxImm} ==> Const(r.keys, r.val[a]) && ConstVal(r.keys, r.val[a]) == r.s.k)
  }

  lemma FreshNumbered(s: Stmt, val: Vals, a: Atom, keys: seq<Key>, key: Key, alter: bool, known: bool)
    requires WellKeyed(keys) && Bounded(keys, val) && KeyBelow(key, |keys| + 1)
    requires known ==> KeyClean(keys, key, |keys| + 1)
    requires s.code in {LdImm, LdxImm} ==> key == ConstKey(s.k)
    ensures Numbered(val, a, known, Fresh(s, val, a, keys, key))
    ensures Numbered(val, a, known, FreshStore(s, val, a, keys, key, alter))
  {
    NewNumber(keys, key, Packet([], 0));
    ExtendDistinct(keys, key);
    hide KeyClean, Clean, Denote, KeyValue, KeyBelow;
  }

  lemma VstoreNumbered(s: Stmt, val: Vals, a: Atom, v: nat, keys: seq<Key>, alter: bool, known: bool)
    requires WellKeyed(keys) && (known ==> Clean(keys, v))
    requires s.code in {LdImm, LdxImm} ==> Const(keys, v) && ConstVal(keys, v) == s.k
    ensures Numbered(val, a, known, Vstore(s, val, a, v, keys, alter))
  {
    hide Clean;
  }

  lemma OperandNumbered(keys: seq<Key>, val: Vals, x: Word)
    requires WellKeyed(keys) && Bounded(keys, val)
    ensures var keys1 := Extend(keys, ConstKey(x));
            && WellKeyed(keys1) && Bounded(keys1, val) && keys <= keys1
            && Number(keys1, ConstKey(x)) <= |keys1| && Clean(keys1, Number(keys1, ConstKey(x)))
            && forall a: Atom {:trigger val[a]} :: Clean(keys1, val[a]) == Clean(keys, val[a])
  {
    NewNumber(keys, ConstKey(x), Packet([], 0));
    forall a: Atom {:trigger val[a]}
      ensures Clean(Extend(keys, ConstKey(x)), val[a]) == Clean(keys, val[a])
    {
      DenoteStable(keys, Extend(keys, ConstKey(x)), val[a], Packet([], 0));
    }
    hide Clean, Denote, KeyClean, KeyValue;
  }

  lemma AluKNumbered(keys: seq<Key>, val: Vals, s: Stmt, alter: bool)
    requires WellKeyed(keys) && Bounded(keys, val) && s.code.Alu? && s.code.src == K
    ensures Numbered(val, A_ATOM, Clean(keys, val[A_ATOM]), AluK(s, val, keys, alter))
  {
    var op, keys1, known := s.code.op, Extend(keys, ConstKey(s.k)), Clean(keys, val[A_ATOM]);
    OperandNumbered(keys, val, s.k);
    hide FoldOp, Number, Extend, Const, ConstVal, Clean, WellKeyed, Fresh, Numbered;
    if alter && s.k == 0 && op in {ADD, LSH, RSH, OR} {
      StillNumbered(Stmt(Nop, s.k), val, keys, known);
    } else if alter && s.k == 0 && op in {MUL, AND} {
      FreshNumbered(Stmt(LdImm, s.k), val, A_ATOM, keys, ConstKey(s.k), alter, known);
    } else if alter && Const(keys, val[A_ATOM]) {
      FoldNumbered(val, keys1, FoldOp(op, ConstVal(keys, val[A_ATOM]), s.k), known);
    } else {
      FreshNumbered(s, val, A_ATOM, keys1, Key(s.code, val[A_ATOM], Number(keys1, ConstKey(s.k))), alter, known);
    }
  }

  lemma StillNumbered(s: Stmt, val: Vals, keys: seq<Key>, known: bool)
    requires WellKeyed(keys) && s.code == Nop && (known ==> Clean(keys, val[A_ATOM]))
    ensures Numbered(val, A_ATOM, known, Rewrite(s, val, keys))
  {
    hide Clean, WellKeyed;
  }

  lemma FoldNumbered(val: Vals, keys: seq<Key>, r: Option<Word>, known: bool)
    requires WellKeyed(keys) && Bounded(keys, val)
    ensures Numbered(val, A_ATOM, known, match r
                                         case None => DivisionByZero
                                         case Some(w) => Fresh(Stmt(LdImm, w), val, A_ATOM, keys, ConstKey(w)))
  {
    hide Fresh;
    if r.Some? {
      FreshNumbered(Stmt(LdImm, r.value), val, A_ATOM, keys, ConstKey(r.value), false, known);
    }
  }

  lemma AluXNumbered(keys: seq<Key>, val: Vals, s: Stmt, alter: bool)
    requires WellKeyed(keys) && Bounded(keys, val) && s.code.Alu? && s.code.src == X
    ensures Numbered(val, A_ATOM, Clean(keys, val[A_ATOM]) && Clean(keys, val[X_ATOM]), AluX(s, val, keys, alter))
  {
    var op, known := s.code.op, Clean(keys, val[A_ATOM]) && Clean(keys, val[X_ATOM]);
    hide FoldOp, Number, Extend, ConstVal, Clean, WellKeyed, Fresh, FreshStore, Vstore, Numbered;
    if alter && Const(keys, val[X_ATOM]) {
      var x: Word := ConstVal(keys, val[X_ATOM]);
      if Const(keys, val[A_ATOM]) {
        FoldNumbered(val, keys, FoldOp(op, ConstVal(keys, val[A_ATOM]), x), known);
      } else {
        var keys1 := Extend(keys, ConstKey(x));
        OperandNumbered(keys, val, x);
        FreshNumbered(Stmt(Alu(op, K), x), val, A_ATOM, keys1, Key(Alu(op, K), val[A_ATOM], Number(keys1, ConstKey(x))),
                      alter, known);
      }
    } else if alter && Const(keys, val[A_ATOM]) && ConstVal(keys, val[A_ATOM]) == 0 && op in {ADD, OR} {
      VstoreNumbered(Stmt(Txa, s.k), val, A_ATOM, val[X_ATOM], keys, alter, known);
    } else if alter && Const(keys, val[A_ATOM]) && ConstVal(keys, val[A_ATOM]) == 0 && op in {MUL, DIV, AND, LSH, RSH} {
      FreshNumbered(Stmt(LdImm, 0), val, A_ATOM, keys, ConstKey(0), alter, known);
    } else {
      FreshNumbered(s, val, A_ATOM, keys, Key(s.code, val[A_ATOM], val[X_ATOM]), alter, known);
    }
  }

  lemma LoadNumbered(keys: seq<Key>, val: Vals, s: Stmt, alter: bool)
    requires WellKeyed(keys) && Bounded(keys, val) && MemOk(s) && s.code in {LdMem, LdxMem}
    ensures Numbered(val, AtomDef(s).value, Clean(keys, val[s.k]), Step(keys, val, s, alter))
  {
    var v, imm := val[s.k], if s.code == LdMem then LdImm else LdxImm;
    hide Vstore, Clean, WellKeyed, Numbered, ConstVal;
    VstoreNumbered(if alter && Const(keys, v) then Stmt(imm, ConstVal(keys, v)) else s, val, AtomDef(s).value, v, keys,
                   alter, Clean(keys, v));
  }

  lemma IndNumbered(keys: seq<Key>, val: Vals, s: Stmt, alter: bool)
    requires WellKeyed(keys) && Bounded(keys, val) && s.code.LdInd?
    ensures Numbered(val, A_ATOM, Clean(keys, val[X_ATOM]), Step(keys, val, s, alter))
  {
    hide FreshStore, Clean, WellKeyed, Numbered, ConstVal, Wrap;
    if alter && Const(keys, val[X_ATOM]) {
      var key := Key(LdAbs(s.code.size), Wrap(s.k + ConstVal(keys, val[X_ATOM])), 0);
      FreshNumbered(Stmt(LdAbs(s.code.size), key.v0), val, A_ATOM, keys, key, alter, Clean(keys, val[X_ATOM]));
    } else {
      FreshNumbered(s, val, A_ATOM, keys, Key(s.code, s.k, val[X_ATOM]), alter, Clean(keys, val[X_ATOM]));
    }
  }

  lemma NegNumbered(keys: seq<Key>, val: Vals, s: Stmt, alter: bool)
    requires WellKeyed(keys) && Bounded(keys, val) && s.code == Neg
    ensures Numbered(val, A_ATOM, Clean(keys, val[A_ATOM]), Step(keys, val, s, alter))
  {
    hide Fresh, Clean, WellKeyed, Numbered, ConstVal, Negate;
    if alter && Const(keys, val[A_ATOM]) {
      var w := Negate(ConstVal(keys, val[A_ATOM]));
      FreshNumbered(Stmt(LdImm, w), val, A_ATOM, keys, ConstKey(w), alter, Clean(keys, val[A_ATOM]));
    } else {
      FreshNumbered(s, val, A_ATOM, keys, Key(s.code, val[A_ATOM], 0), alter, Clean(keys, val[A_ATOM]));
    }
  }

  /** No other atom gets a new number; the number is known when all that is read is; and a constant that is loaded is
      known as one. */
  lemma StepNumbered(keys: seq<Key>, val: Vals, s: Stmt, alter: bool)
    requires WellKeyed(keys) && Bounded(keys, val) && MemOk(s) && AtomDef(s).Some?
    ensures Numbered(val, AtomDef(s).value, ReadsKnown(keys, val, s), Step(keys, val, s, alter))
  {
    hide Fresh, FreshStore, Vstore, AluK, AluX, Load, Clean, WellKeyed, Numbered, Const;
    var known := ReadsKnown(keys, val, s);
    match s.code
    case LdAbs(_) => FreshNumbered(s, val, A_ATOM, keys, Key(s.code, s.k, 0), alter, known);
    case LdInd(_) => IndNumbered(keys, val, s, alter);
    case LdLen => FreshNumbered(s, val, A_ATOM, keys, Key(s.code, 0, 0), alter, known);
    case LdImm => FreshNumbered(s, val, A_ATOM, keys, ConstKey(s.k), alter, known);
    case LdxImm => FreshNumbered(s, val, X_ATOM, keys, ConstKey(s.k), alter, known);
    case LdxMsh => FreshNumbered(s, val, X_ATOM, keys, Key(s.code, s.k, 0), alter, known);
    case Neg => NegNumbered(keys, val, s, alter);
    case Alu(_, src) =>
      if src == K {
        AluKNumbered(keys, val, s, alter);
      } else {
        AluXNumbered(keys, val, s, alter);
        assert known == (Clean(keys, val[A_ATOM]) && Clean(keys, val[X_ATOM]));
      }
    case Txa => VstoreNumbered(s, val, A_ATOM, val[X_ATOM], keys, alter, known);
    case Tax => VstoreNumbered(s, val, X_ATOM, val[A_ATOM], keys, alter, known);
    case LdMem | LdxMem => LoadNumbered(keys, val, s, alter);
    case St => VstoreNumbered(s, val, s.k, val[A_ATOM], keys, alter, known);
    case Stx => VstoreNumbered(s, val, s.k, val[X_ATOM], keys, alter, known);
  }

  // ----- The same statement again -----

  /** What stands in `more` is numbered as it was. */
  lemma FreshAgain(s: Stmt, s': Stmt, val: Vals, val': Vals, a: Atom, keys: seq<Key>, more: seq<Key>, key: Key,
                   alter: bool)
    requires Distinct(more) && Distinct(keys) && Extend(keys, key) <= more
    ensures Extend(more, key) == more && Number(more, key) == Number(Extend(keys, key), key)
    ensures Fresh(s', val', a, more, key).keys == more
    ensures Fresh(s', val', a, more, key).val[a] == Fresh(s, val, a, keys, key).val[a]
    ensures FreshStore(s', val', a, more, key, alter).keys == more
    ensures FreshStore(s', val', a, more, key, alter).val[a] == FreshStore(s, val, a, keys, key, alter).val[a]
  {
    ExtendDistinct(keys, key);
    NumberStable(Extend(keys, key), more, key);
  }

  /** A step is taken again, with a longer table, from other numbers but for the atoms it reads. */
  ghost predicate Again(keys: seq<Key>, val: Vals, more: seq<Key>, val': Vals, s: Stmt, alter: bool) {
    && WellKeyed(keys) && WellKeyed(more) && Bounded(keys, val) && MemOk(s) && AtomDef(s).Some?
    && (forall a :: a in AtomUse(s) ==> val'[a] == val[a])
    && Step(keys, val, s, alter).Rewrite? && keys <= Step(keys, val, s, alter).keys <= more
  }

  ghost predicate Repeats(a: Atom, more: seq<Key>, r: Rewrite, r': Rewrite)
    requires r.Rewrite?
  {
    r'.Rewrite? && r'.keys == more && r'.val[a] == r.val[a]
  }

  /** The constants are those they were. */
  lemma AgainConst(keys: seq<Key>, val: Vals, more: seq<Key>, val': Vals, s: Stmt, alter: bool, a: Atom)
    requires Again(keys, val, more, val', s, alter) && a in AtomUse(s)
    ensures val'[a] == val[a] <= |keys| && Const(more, val'[a]) == Const(keys, val[a])
    ensures Const(keys, val[a]) ==> ConstVal(more, val'[a]) == ConstVal(keys, val[a])
  {
    assert keys <= more;
    assert val[a] >= 1 ==> more[val[a] - 1] == keys[val[a] - 1];
    hide Step, WellKeyed;
  }

  lemma AgainParts(keys: seq<Key>, val: Vals, more: seq<Key>, val': Vals, s: Stmt, alter: bool)
    requires Again(keys, val, more, val', s, alter)
    ensures Distinct(keys) && Distinct(more) && keys <= more && WellKeyed(keys) && WellKeyed(more)
    ensures Step(keys, val, s, alter).Rewrite? && Step(keys, val, s, alter).keys <= more
  {
    hide Step;
  }

  lemma AluKAgain(keys: seq<Key>, val: Vals, more: seq<Key>, val': Vals, s: Stmt, alter: bool)
    requires Again(keys, val, more, val', s, alter) && s.code.Alu? && s.code.src == K
    ensures Repeats(A_ATOM, more, Step(keys, val, s, alter), Step(more, val', s, alter))
  {
    var op, keys1 := s.code.op, Extend(keys, ConstKey(s.k));
    AgainConst(keys, val, more, val', s, alter, A_ATOM);
    AgainParts(keys, val, more, val', s, alter);
    ExtendDistinct(keys, ConstKey(s.k));
    hide Again, FoldOp, Number, Const, ConstVal, WellKeyed, Distinct;
    if alter && s.k == 0 && op in {ADD, LSH, RSH, OR} {
    } else if alter && s.k == 0 && op in {MUL, AND} {
      FreshAgain(s, s, val, val', A_ATOM, keys, more, ConstKey(s.k), alter);
    } else if alter && Const(keys, val[A_ATOM]) {
      var w := FoldOp(op, ConstVal(keys, val[A_ATOM]), s.k).value;
      ExtendDistinct(keys1, ConstKey(w));
      FreshAgain(s, s, val, val', A_ATOM, keys, more, ConstKey(s.k), alter);
      FreshAgain(s, s, val, val', A_ATOM, keys1, more, ConstKey(w), alter);
    } else {
      var key := Key(s.code, val[A_ATOM], Number(keys1, ConstKey(s.k)));
      ExtendDistinct(keys1, key);
      FreshAgain(s, s, val, val', A_ATOM, keys, more, ConstKey(s.k), alter);
      FreshAgain(s, s, val, val', A_ATOM, keys1, more, key, alter);
    }
  }

  lemma AluXAgain(keys: seq<Key>, val: Vals, more: seq<Key>, val': Vals, s: Stmt, alter: bool)
    requires Again(keys, val, more, val', s, alter) && s.code.Alu? && s.code.src == X
    ensures Repeats(A_ATOM, more, Step(keys, val, s, alter), Step(more, val', s, alter))
  {
    var op := s.code.op;
    AgainConst(keys, val, more, val', s, alter, A_ATOM);
    AgainConst(keys, val, more, val', s, alter, X_ATOM);
    AgainParts(keys, val, more, val', s, alter);
    hide Again, FoldOp, Number, WellKeyed, Distinct, IsConst, ConstVal;
    if alter && Const(keys, val[X_ATOM]) {
      var x: Word := ConstVal(keys, val[X_ATOM]);
      if Const(keys, val[A_ATOM]) {
        var w := FoldOp(op, ConstVal(keys, val[A_ATOM]), x).value;
        FreshAgain(s, s, val, val', A_ATOM, keys, more, ConstKey(w), alter);
      } else {
        var keys1 := Extend(keys, ConstKey(x));
        var key := Key(Alu(op, K), val[A_ATOM], Number(keys1, ConstKey(x)));
        ExtendDistinct(keys, ConstKey(x));
        ExtendDistinct(keys1, key);
        FreshAgain(s, s, val, val', A_ATOM, keys, more, ConstKey(x), alter);
        FreshAgain(s, s, val, val', A_ATOM, keys1, more, key, alter);
      }
    } else if alter && Const(keys, val[A_ATOM]) && ConstVal(keys, val[A_ATOM]) == 0 && op in {ADD, OR} {
    } else if alter && Const(keys, val[A_ATOM]) && ConstVal(keys, val[A_ATOM]) == 0 && op in {MUL, DIV, AND, LSH, RSH} {
      FreshAgain(s, s, val, val', A_ATOM, keys, more, ConstKey(0), alter);
    } else {
      FreshAgain(s, s, val, val', A_ATOM, keys, more, Key(s.code, val[A_ATOM], val[X_ATOM]), alter);
    }
  }

  lemma StoreAgain(val: Vals, val': Vals, a: Atom, s: Stmt, keys: seq<Key>, more: seq<Key>, key: Key, alter: bool)
    requires Distinct(keys) && Distinct(more) && FreshStore(s, val, a, keys, key, alter).keys <= more
    ensures FreshStore(s, val, a, keys, key, alter).Rewrite?
    ensures Repeats(a, more, FreshStore(s, val, a, keys, key, alter), FreshStore(s, val', a, more, key, alter))
  {
    hide Extend, Number, Distinct;
    FreshAgain(s, s, val, val', a, keys, more, key, alter);
  }

  lemma LoadAgain(keys: seq<Key>, val: Vals, more: seq<Key>, val': Vals, s: Stmt, alter: bool)
    requires Again(keys, val, more, val', s, alter) && (s.code.LdAbs? || s.code in {LdLen, LdImm, LdxImm, LdxMsh})
    ensures Repeats(AtomDef(s).value, more, Step(keys, val, s, alter), Step(more, val', s, alter))
  {
    AgainParts(keys, val, more, val', s, alter);
    hide Again, WellKeyed, Distinct, FreshStore, Repeats;
    match s.code
    case LdAbs(_) => StoreAgain(val, val', A_ATOM, s, keys, more, Key(s.code, s.k, 0), alter);
    case LdLen => StoreAgain(val, val', A_ATOM, s, keys, more, Key(s.code, 0, 0), alter);
    case LdImm => StoreAgain(val, val', A_ATOM, s, keys, more, ConstKey(s.k), alter);
    case LdxImm => StoreAgain(val, val', X_ATOM, s, keys, more, ConstKey(s.k), alter);
    case LdxMsh => StoreAgain(val, val', X_ATOM, s, keys, more, Key(s.code, s.k, 0), alter);
  }

  lemma IndOpen(keys: seq<Key>, val: Vals, s: Stmt, alter: bool)
    requires s.code.LdInd? && !(alter && Const(keys, val[X_ATOM]))
    ensures Step(keys, val, s, alter) == FreshStore(s, val, A_ATOM, keys, Key(s.code, s.k, val[X_ATOM]), alter)
  {
    hide FreshStore, Const;
  }

  lemma IndAgain(keys: seq<Key>, val: Vals, more: seq<Key>, val': Vals, s: Stmt, alter: bool)
    requires Again(keys, val, more, val', s, alter) && s.code.LdInd?
    ensures Repeats(A_ATOM, more, Step(keys, val, s, alter), Step(more, val', s, alter))
  {
    hide Again, Step, WellKeyed, Distinct, FreshStore, Repeats, Bounded;
    AgainParts(keys, val, more, val', s, alter);
    AgainConst(keys, val, more, val', s, alter, X_ATOM);
    var size, x, a := s.code.size, X_ATOM, A_ATOM;
    if alter && Const(keys, val[x]) {
      var k := Wrap(s.k + ConstVal(keys, val[x]));
      hide *;
      IndConst(keys, val, s, k);
      IndConst(more, val', s, k);
      StoreAgain(val, val', a, Stmt(LdAbs(size), k), keys, more, Key(LdAbs(size), k, 0), true);
    } else {
      hide *;
      IndOpen(keys, val, s, alter);
      IndOpen(more, val', s, alter);
      StoreAgain(val, val', a, s, keys, more, Key(s.code, s.k, val[x]), alter);
    }
  }

  lemma NegAgain(keys: seq<Key>, val: Vals, more: seq<Key>, val': Vals, s: Stmt, alter: bool)
    requires Again(keys, val, more, val', s, alter) && s.code == Neg
    ensures Repeats(A_ATOM, more, Step(keys, val, s, alter), Step(more, val', s, alter))
  {
    AgainParts(keys, val, more, val', s, alter);
    AgainConst(keys, val, more, val', s, alter, A_ATOM);
    hide Again, Number, WellKeyed, Distinct, IsConst, ConstVal, Negate, Extend;
    if alter && Const(keys, val[A_ATOM]) {
      FreshAgain(s, s, val, val', A_ATOM, keys, more, ConstKey(Negate(ConstVal(keys, val[A_ATOM]))), alter);
    } else {
      FreshAgain(s, s, val, val', A_ATOM, keys, more, Key(Neg, val[A_ATOM], 0), alter);
    }
  }

  lemma MoveAgain(keys: seq<Key>, val: Vals, more: seq<Key>, val': Vals, s: Stmt, alter: bool)
    requires Again(keys, val, more, val', s, alter) && s.code in {Txa, Tax, LdMem, LdxMem, St, Stx}
    ensures Repeats(AtomDef(s).value, more, Step(keys, val, s, alter), Step(more, val', s, alter))
  {
    AgainParts(keys, val, more, val', s, alter);
    hide WellKeyed, Distinct, Const, ConstVal;
  }

  /** The same statement gets the same number wherever, later on, the atoms it reads have the same numbers; nothing new
      is numbered then. */
  lemma SameAgain(keys: seq<Key>, val: Vals, more: seq<Key>, val': Vals, s: Stmt, alter: bool)
    requires Again(keys, val, more, val', s, alter)
    ensures Repeats(AtomDef(s).value, more, Step(keys, val, s, alter), Step(more, val', s, alter))
  {
    hide Again, Step, Repeats;
    assert MemOk(s) && AtomDef(s).Some? by { AgainMem(keys, val, more, val', s, alter); }
    if s.code.Alu? {
      if s.code.src == K {
        AluKAgain(keys, val, more, val', s, alter);
      } else {
        AluXAgain(keys, val, more, val', s, alter);
      }
    } else if s.code in {Txa, Tax, LdMem, LdxMem, St, Stx} {
      MoveAgain(keys, val, more, val', s, alter);
    } else if s.code.LdInd? {
      IndAgain(keys, val, more, val', s, alter);
    } else if s.code == Neg {
      NegAgain(keys, val, more, val', s, alter);
    } else {
      LoadAgain(keys, val, more, val', s, alter);
    }
  }

  lemma AgainMem(keys: seq<Key>, val: Vals, more: seq<Key>, val': Vals, s: Stmt, alter: bool)
    requires Again(keys, val, more, val', s, alter)
    ensures MemOk(s) && AtomDef(s).Some?
  {
    hide Step, WellKeyed;
  }
}
