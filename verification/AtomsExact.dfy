/** atomuse and atomdef leave nothing out and add nothing: what a statement reads and writes, told by running it. */
module AtomsExact {
  import opened Bpf
  import opened Atoms

  /** Two states that differ in `a` alone, and a packet, on which the statement computes different words (or faults on
      one of them only). */
  ghost predicate Reads(s: Stmt, a: Atom) {
    exists st: State, w: Word, p: Packet {:trigger Result(s, st[a := w], p)} ::
      Result(s, st, p) != Result(s, st[a := w], p)
  }

  /** Two such states on which the branch goes different ways. */
  ghost predicate Tests(t: Stmt, a: Atom)
    requires t.code.Jmp?
  {
    exists st: State, w: Word {:trigger Taken(t, st[a := w])} :: Taken(t, st) != Taken(t, st[a := w])
  }

  /** Arithmetic and comparisons read an atom if they do so with some constant; other statements as they stand. */
  ghost predicate ReadBy(s: Stmt, a: Atom) {
    match s.code
    case Alu(_, _) => exists k: Word :: Reads(Stmt(s.code, k), a)
    case Jmp(_, _) => exists k: Word :: Tests(Stmt(s.code, k), a)
    case _ => Reads(s, a)
  }

  /** On some run the statement leaves another word in `a`; arithmetic with some constant. */
  ghost predicate Writes(s: Stmt, a: Atom) {
    exists st: State, p: Packet {:trigger Exec(s, st, p)} :: Exec(s, st, p).Some? && Exec(s, st, p).value[a] != st[a]
  }

  ghost predicate WrittenBy(s: Stmt, a: Atom) {
    if s.code.Alu? then exists k: Word :: Writes(Stmt(s.code, k), a) else Writes(s, a)
  }

  // ----- Witnesses -----

  function Zeros(): State { seq(N_ATOMS, _ => 0) }

  /** `n` bytes of value 1. */
  function Ones(n: nat): Packet { Packet(seq(n, _ => 1), 1) }

  lemma ReadsAt(s: Stmt, a: Atom, st: State, w: Word, p: Packet)
    requires Result(s, st, p) != Result(s, st[a := w], p)
    ensures Reads(s, a)
  {
    hide Result;
  }

  lemma TestsAt(t: Stmt, a: Atom, st: State, w: Word)
    requires t.code.Jmp? && Taken(t, st) != Taken(t, st[a := w])
    ensures Tests(t, a)
  {
    hide Taken;
  }

  /** With one byte captured, an index of 0 loads and one of 1 does not. */
  lemma IndReads(s: Stmt)
    requires s.code.LdInd?
    ensures Reads(s, X_ATOM)
  {
    var x: Word, y: Word := Wrap(TWO32 - s.k), Wrap(TWO32 - s.k + 4);
    var st := Zeros()[X_ATOM := x];
    assert Wrap(x + s.k) == 0 && Wrap(y + s.k) == 4;
    ReadsAt(s, X_ATOM, st, y, Ones(4));
  }

  /** Two states that differ in A, or in X, on which arithmetic gives different words. */
  lemma AluReads(op: AluOp, src: Src, a: Atom)
    requires a == A_ATOM || (a == X_ATOM && src == X)
    ensures exists k: Word :: Reads(Stmt(Alu(op, src), k), a)
  {
    var one: Word, two: Word := 1, 2;
    var st := Zeros()[A_ATOM := one][X_ATOM := one];
    var s := Stmt(Alu(op, src), one);
    AluWords(op);
    hide AluEval;
    if a == A_ATOM {
      ReadsAt(s, a, st, if op == OR || op == RSH then 2 else 0, Ones(0));
    } else {
      ReadsAt(s, a, st, if op == OR || op == AND then 2 else 0, Ones(0));
    }
  }

  lemma AluWords(op: AluOp)
    ensures AluEval(op, 1, 1) != AluEval(op, if op == OR || op == RSH then 2 else 0, 1)
    ensures AluEval(op, 1, 1) != AluEval(op, 1, if op == OR || op == AND then 2 else 0)
  {
    hide *;
    PlainWords();
    BitWords();
    ShiftWords();
  }

  lemma PlainWords()
    ensures AluEval(ADD, 1, 1) == Some(2) && AluEval(ADD, 0, 1) == Some(1) && AluEval(ADD, 1, 0) == Some(1)
    ensures AluEval(SUB, 1, 1) == Some(0) && AluEval(SUB, 0, 1) != Some(0) && AluEval(SUB, 1, 0) == Some(1)
    ensures AluEval(MUL, 1, 1) == Some(1) && AluEval(MUL, 0, 1) == Some(0) && AluEval(MUL, 1, 0) == Some(0)
    ensures AluEval(DIV, 1, 1) == Some(1) && AluEval(DIV, 0, 1) == Some(0) && AluEval(DIV, 1, 0) == None
    ensures AluEval(MUL, 1, 2) == Some(2) && AluEval(DIV, 1, 2) == Some(0)
  {
    hide BitAnd, BitOr, Pow2;
  }

  lemma BitFacts()
    ensures BitAnd(1, 1) == 1 && BitAnd(2, 1) == 0 && BitAnd(1, 2) == 0 && BitAnd(0, 1) == 0
  {
  }

  lemma OrOf(a: Word, b: Word)
    ensures BitOr(a, b) == a + b - BitAnd(a, b)
  {
    hide BitAnd, Pow2;
  }

  lemma BitWords()
    ensures AluEval(AND, 1, 1) == Some(1) && AluEval(AND, 0, 1) == Some(0) && AluEval(AND, 1, 2) == Some(0)
    ensures AluEval(OR, 1, 1) == Some(1) && AluEval(OR, 2, 1) == Some(3) && AluEval(OR, 1, 2) == Some(3)
  {
    hide BitAnd, BitOr, Pow2;
    BitFacts();
    OrOf(1, 1);
    OrOf(2, 1);
    OrOf(1, 2);
  }

  lemma ShiftWords()
    ensures AluEval(LSH, 1, 1) == Some(2) && AluEval(LSH, 0, 1) == Some(0) && AluEval(LSH, 1, 0) == Some(1)
    ensures AluEval(RSH, 1, 1) == Some(0) && AluEval(RSH, 2, 1) == Some(1) && AluEval(RSH, 1, 0) == Some(1)
  {
    assert Pow2(0) == 1 && Pow2(1) == 2;
    hide Pow2;
  }

  lemma JmpTests(op: JmpOp, src: Src, a: Atom)
    requires a == A_ATOM || (a == X_ATOM && src == X)
    ensures exists k: Word :: Tests(Stmt(Jmp(op, src), k), a)
  {
    var one: Word := 1;
    var st := Zeros()[A_ATOM := one][X_ATOM := one];
    assert BitAnd(1, 1) == 1 && BitAnd(0, 1) == 0 && BitAnd(1, 0) == 0 && BitAnd(2, 1) == 0;
    if a == A_ATOM {
      TestsAt(Stmt(Jmp(op, src), one), a, st, if op == JGT then 2 else 0);
    } else {
      TestsAt(Stmt(Jmp(op, src), one), a, st, if op == JGE then 2 else 0);
    }
  }

  lemma CopyReads(s: Stmt, a: Atom)
    requires MemOk(s) && s.code in {LdMem, LdxMem, St, Stx, Tax, Txa, Neg} && a in AtomUse(s)
    ensures Reads(s, a)
  {
    ReadsAt(s, a, Zeros(), 1, Ones(0));
  }

  lemma UnusedSame(s: Stmt, k: Word, a: Atom, st: State, w: Word, p: Packet)
    requires MemOk(s) && a !in AtomUse(s) && (k == s.k || s.code.Alu?)
    ensures Result(Stmt(s.code, k), st, p) == Result(Stmt(s.code, k), st[a := w], p)
  {
    hide AluEval, LoadAt, Negate, BitAnd;
  }

  lemma UnusedTaken(t: Stmt, k: Word, a: Atom, st: State, w: Word)
    requires t.code.Jmp? && a !in AtomUse(t)
    ensures Taken(Stmt(t.code, k), st) == Taken(Stmt(t.code, k), st[a := w])
  {
  }

  /** What is read is used. */
  lemma ReadIsUsed(s: Stmt, a: Atom)
    requires MemOk(s) && ReadBy(s, a)
    ensures a in AtomUse(s)
  {
    hide Result, Taken, AtomUse;
    if s.code.Jmp? {
      var k: Word :| Tests(Stmt(s.code, k), a);
      var st: State, w: Word :| Taken(Stmt(s.code, k), st) != Taken(Stmt(s.code, k), st[a := w]);
      if a !in AtomUse(s) {
        UnusedTaken(s, k, a, st, w);
      }
    } else {
      var k: Word :| (k == s.k || s.code.Alu?) && Reads(Stmt(s.code, k), a);
      var st: State, w: Word, p: Packet :| Result(Stmt(s.code, k), st, p) != Result(Stmt(s.code, k), st[a := w], p);
      if a !in AtomUse(s) {
        UnusedSame(s, k, a, st, w, p);
      }
    }
  }

  /** atomuse is what is read. The unconditional jump apart: atomuse says A for it, as for any jump. */
  lemma UseIsRead(s: Stmt, a: Atom)
    requires MemOk(s) && s.code != Ja
    ensures a in AtomUse(s) <==> ReadBy(s, a)
  {
    if a in AtomUse(s) {
      match s.code
      case LdInd(_) => IndReads(s);
      case Alu(op, src) => AluReads(op, src, a);
      case Jmp(op, src) => JmpTests(op, src, a);
      case _ => CopyReads(s, a);
    } else if ReadBy(s, a) {
      ReadIsUsed(s, a);
    }
  }

  // ----- What is written -----

  lemma WritesAt(s: Stmt, a: Atom, st: State, p: Packet)
    requires Exec(s, st, p).Some? && Exec(s, st, p).value[a] != st[a]
    ensures Writes(s, a)
  {
    hide Exec;
  }

  /** From a state of ones, or of words that differ from what is loaded. */
  lemma LoadWrites(s: Stmt)
    requires MemOk(s) && (s.code.LdAbs? || s.code.LdInd? || s.code in {LdLen, LdImm, LdxImm, LdxMsh})
    ensures AtomDef(s).Some? && Writes(s, AtomDef(s).value)
  {
    var p := Ones(s.k + 4);
    var x: Word := if s.code.LdInd? then Wrap(TWO32 - s.k) else 0;
    var st := Zeros()[X_ATOM := x];
    assert s.code.LdInd? ==> Wrap(x + s.k) == 0;
    hide LoadAt, BitAnd;
    LoadsSome(s.k, p);
    var w := Result(s, st, p).value;
    var st1 := st[AtomDef(s).value := if w == 0 then 1 else 0];
    if !s.code.LdInd? {
      WritesAt(s, AtomDef(s).value, st1, p);
    } else {
      WritesAt(s, A_ATOM, st1, p);
    }
  }

  lemma LoadsSome(k: Word, p: Packet)
    requires |p.data| >= k + 4
    ensures forall size :: LoadAt(p, k, size).Some? && LoadAt(p, 0, size).Some?
  {
  }

  lemma CopyWrites(s: Stmt)
    requires MemOk(s) && s.code in {LdMem, LdxMem, St, Stx, Tax, Txa, Neg}
    ensures AtomDef(s).Some? && Writes(s, AtomDef(s).value)
  {
    var a := AtomDef(s).value;
    var source := match s.code case LdMem | LdxMem => s.k
                               case Stx | Txa => X_ATOM
                               case _ => A_ATOM;
    assert s.code == Neg ==> Negate(1) != 1;
    WritesAt(s, a, Zeros()[source := 1], Ones(0));
  }

  lemma AluWrites(op: AluOp, src: Src)
    ensures exists k: Word :: Writes(Stmt(Alu(op, src), k), A_ATOM)
  {
    var k: Word := if op in {MUL, DIV, AND, OR} then 2 else 1;
    var st := Zeros()[A_ATOM := 1][X_ATOM := k];
    AluChanges(op);
    hide AluEval;
    WritesAt(Stmt(Alu(op, src), k), A_ATOM, st, Ones(0));
  }

  lemma AluChanges(op: AluOp)
    ensures AluEval(op, 1, if op in {MUL, DIV, AND, OR} then 2 else 1) !in {None, Some(1)}
  {
    hide *;
    PlainWords();
    BitWords();
    ShiftWords();
  }

  lemma WrittenIsDef(s: Stmt, k: Word, a: Atom)
    requires MemOk(s) && (k == s.k || s.code.Alu?) && Writes(Stmt(s.code, k), a)
    ensures AtomDef(s) == Some(a)
  {
    var st: State, p: Packet :| Exec(Stmt(s.code, k), st, p).Some? && Exec(Stmt(s.code, k), st, p).value[a] != st[a];
    UseDefExact(Stmt(s.code, k), st, st, p);
    hide Result, Exec;
  }

  /** atomdef is what is written. */
  lemma DefIsWritten(s: Stmt, a: Atom)
    requires MemOk(s)
    ensures AtomDef(s) == Some(a) <==> WrittenBy(s, a)
  {
    hide Exec, Writes;
    if AtomDef(s) == Some(a) {
      if s.code.Alu? {
        AluWrites(s.code.op, s.code.src);
      } else if s.code in {LdMem, LdxMem, St, Stx, Tax, Txa, Neg} {
        CopyWrites(s);
      } else {
        LoadWrites(s);
      }
    } else if WrittenBy(s, a) {
      var k: Word :| (k == s.k || s.code.Alu?) && Writes(Stmt(s.code, k), a);
      WrittenIsDef(s, k, a);
    }
  }
}
