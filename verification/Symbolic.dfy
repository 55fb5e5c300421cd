/** What value numbers mean, and the symbolic step of one statement. */
module Symbolic {
  import opened Bpf
  import opened Atoms
  import opened ValueTable

  // ----- The value a number denotes -----

  /** A triple whose operands are numbers below `v` and whose constants are words. */
  ghost predicate KeyBelow(key: Key, v: nat) {
    match key.code
    case LdAbs(_) | LdImm | LdxMsh => key.v0 < TWO32
    case LdLen => true
    case LdInd(_) => key.v0 < TWO32 && key.v1 < v
    case Neg => key.v0 < v
    case Alu(_, _) => key.v0 < v && key.v1 < v
    case _ => false
  }

  /** A table in which every triple is built from earlier numbers. */
  ghost predicate WellKeyed(keys: seq<Key>) {
    Distinct(keys) && forall i {:trigger keys[i]} :: 0 <= i < |keys| ==> KeyBelow(keys[i], i + 1)
  }

  /** `v` is known: neither it nor any operand of it is the unknown number 0. */
  ghost predicate Clean(keys: seq<Key>, v: nat)
    requires WellKeyed(keys)
    decreases v, 1
  {
    1 <= v <= |keys| && KeyClean(keys, keys[v - 1], v)
  }

  ghost predicate KeyClean(keys: seq<Key>, key: Key, v: nat)
    requires WellKeyed(keys) && KeyBelow(key, v)
    decreases v, 0
  {
    match key.code
    case LdInd(_) => Clean(keys, key.v1)
    case Neg => Clean(keys, key.v0)
    case Alu(_, _) => Clean(keys, key.v0) && Clean(keys, key.v1)
    case _ => true
  }

  /** The word `v` stands for on packet `p`; None when it is unknown or its computation faults. */
  ghost function Denote(keys: seq<Key>, v: nat, p: Packet): Option<Word>
    requires WellKeyed(keys)
    decreases v, 1
  {
    if v == 0 || v > |keys| then None else KeyValue(keys, keys[v - 1], v, p)
  }

  ghost function KeyValue(keys: seq<Key>, key: Key, v: nat, p: Packet): Option<Word>
    requires WellKeyed(keys) && KeyBelow(key, v)
    decreases v, 0
  {
    match key.code
    case LdAbs(size) => LoadAt(p, key.v0, size)
    case LdLen => Some(p.wireLen)
    case LdImm => Some(key.v0)
    case LdxMsh =>
      (match LoadAt(p, key.v0, B)
       case Some(b) => Some(4 * BitAnd(b, 15))
       case None => None)
    case LdInd(size) =>
      (match Denote(keys, key.v1, p)
       case Some(x) => LoadAt(p, Wrap(x + key.v0), size)
       case None => None)
    case Neg =>
      (match Denote(keys, key.v0, p)
       case Some(a) => Some(Negate(a))
       case None => None)
    case Alu(op, _) =>
      (match Denote(keys, key.v0, p)
       case Some(a) =>
         (match Denote(keys, key.v1, p)
          case Some(b) => AluEval(op, a, b)
          case None => None)
       case None => None)
  }

  /** A number keeps its meaning as the table grows. */
  lemma {:induction false} DenoteStable(keys: seq<Key>, more: seq<Key>, v: nat, p: Packet)
    requires WellKeyed(keys) && WellKeyed(more) && keys <= more && v <= |keys|
    ensures Clean(more, v) == Clean(keys, v)
    ensures Denote(more, v, p) == Denote(keys, v, p)
    decreases v
  {
    if v > 0 {
      var key := keys[v - 1];
      assert more[v - 1] == key;
      match key.code
      case LdInd(_) => DenoteStable(keys, more, key.v1, p);
      case Neg => DenoteStable(keys, more, key.v0, p);
      case Alu(_, _) =>
        DenoteStable(keys, more, key.v0, p);
        DenoteStable(keys, more, key.v1, p);
      case _ =>
    }
  }

  // ----- Value tables -----

  ghost predicate Bounded(keys: seq<Key>, val: Vals) {
    forall a {:trigger val[a]} :: 0 <= a < N_ATOMS ==> val[a] <= |keys|
  }

  /** State `st` agrees with the table: each atom with a known number holds its value. */
  ghost predicate Agrees(keys: seq<Key>, val: Vals, st: State, p: Packet)
    requires WellKeyed(keys)
  {
    forall a {:trigger val[a]} :: 0 <= a < N_ATOMS && Clean(keys, val[a]) ==> Denote(keys, val[a], p) == Some(st[a])
  }

  lemma AgreesStable(keys: seq<Key>, more: seq<Key>, val: Vals, st: State, p: Packet)
    requires WellKeyed(keys) && WellKeyed(more) && keys <= more && Bounded(keys, val)
    requires Agrees(keys, val, st, p)
    ensures Bounded(more, val) && Agrees(more, val, st, p)
  {
    forall a {:trigger val[a]} | 0 <= a < N_ATOMS && Clean(more, val[a])
      ensures Denote(more, val[a], p) == Some(st[a])
    {
      DenoteStable(keys, more, val[a], p);
    }
  }

  lemma AgreesUpdate(keys: seq<Key>, val: Vals, st: State, p: Packet, a: Atom, v: nat, w: Word)
    requires WellKeyed(keys) && Bounded(keys, val) && Agrees(keys, val, st, p)
    requires v <= |keys| && (Clean(keys, v) ==> Denote(keys, v, p) == Some(w))
    ensures Bounded(keys, val[a := v]) && Agrees(keys, val[a := v], st[a := w], p)
  {
  }

  lemma ExtendWellKeyed(keys: seq<Key>, key: Key)
    requires WellKeyed(keys) && KeyBelow(key, |keys| + 1)
    ensures WellKeyed(Extend(keys, key)) && keys <= Extend(keys, key)
  {
    ExtendDistinct(keys, key);
  }

  // ----- The step of one statement -----

  /** What opt_stmt leaves behind; DivisionByZero is its error exit. */
  datatype Rewrite = Rewrite(s: Stmt, val: Vals, keys: seq<Key>) | DivisionByZero

  /** vstore. */
  function Vstore(s: Stmt, val: Vals, a: Atom, newval: nat, keys: seq<Key>, alter: bool): Rewrite {
    if alter && val[a] == newval then Rewrite(Stmt(Nop, s.k), val, keys)
    else Rewrite(s, val[a := newval], keys)
  }

  /** The arithmetic of fold_op; None when the divisor is zero. A shift by 32 or more is
      undefined in C: the low five bits are used here, and nothing is claimed about it. */
  function FoldOp(op: AluOp, a: Word, b: Word): Option<Word> {
    match op
    case ADD => Some((a + b) % TWO32)
    case SUB => Some((a - b) % TWO32)
    case MUL => Some((a * b) % TWO32)
    case DIV => if b == 0 then None else Some(Quotient(a, b))
    case AND => Some(BitAnd(a, b))
    case OR => Some(BitOr(a, b))
    case LSH => Some((a * Pow2(b % 32)) % TWO32)
    case RSH => Some(Quotient(a, Pow2(b % 32)))
  }

  /** fold_op computes what the machine does, wherever the machine has a result, and its
      error exit is taken only for a division that the machine would fault on. */
  lemma FoldOpExact(op: AluOp, a: Word, b: Word)
    ensures AluEval(op, a, b).Some? ==> FoldOp(op, a, b) == AluEval(op, a, b)
    ensures FoldOp(op, a, b) == None <==> op == DIV && b == 0
  {
  }

  /** Numbers the triple `key` and stores it in atom `a`. */
  function Fresh(s: Stmt, val: Vals, a: Atom, keys: seq<Key>, key: Key): Rewrite {
    var keys1 := Extend(keys, key);
    Rewrite(s, val[a := Number(keys1, key)], keys1)
  }

  /** The same through vstore. */
  function FreshStore(s: Stmt, val: Vals, a: Atom, keys: seq<Key>, key: Key, alter: bool): Rewrite {
    var keys1 := Extend(keys, key);
    Vstore(s, val, a, Number(keys1, key), keys1, alter)
  }

  /** A number that is a constant known as a word. */
  predicate Const(keys: seq<Key>, v: nat) {
    IsConst(keys, v) && ConstVal(keys, v) < TWO32
  }

  function AluK(s: Stmt, val: Vals, keys: seq<Key>, alter: bool): Rewrite
    requires s.code.Alu? && s.code.src == K
  {
    var op := s.code.op;
    if alter && s.k == 0 && op in {ADD, LSH, RSH, OR} then
      Rewrite(Stmt(Nop, s.k), val, keys)
    else if alter && s.k == 0 && op in {MUL, AND} then
      Fresh(Stmt(LdImm, s.k), val, A_ATOM, keys, ConstKey(s.k))
    else
      var keys1 := Extend(keys, ConstKey(s.k));
      if alter && Const(keys, val[A_ATOM]) then
        match FoldOp(op, ConstVal(keys, val[A_ATOM]), s.k)
        case None => DivisionByZero
        case Some(w) => Fresh(Stmt(LdImm, w), val, A_ATOM, keys1, ConstKey(w))
      else
        Fresh(s, val, A_ATOM, keys1, Key(s.code, val[A_ATOM], Number(keys1, ConstKey(s.k))))
  }

  function AluX(s: Stmt, val: Vals, keys: seq<Key>, alter: bool): Rewrite
    requires s.code.Alu? && s.code.src == X
  {
    var op := s.code.op;
    if alter && Const(keys, val[X_ATOM]) then
      var x := ConstVal(keys, val[X_ATOM]);
      if Const(keys, val[A_ATOM]) then
        match FoldOp(op, ConstVal(keys, val[A_ATOM]), x)
        case None => DivisionByZero
        case Some(w) => Fresh(Stmt(LdImm, w), val, A_ATOM, keys, ConstKey(w))
      else
        var keys1 := Extend(keys, ConstKey(x));
        Fresh(Stmt(Alu(op, K), x), val, A_ATOM, keys1, Key(Alu(op, K), val[A_ATOM], Number(keys1, ConstKey(x))))
    else if alter && Const(keys, val[A_ATOM]) && ConstVal(keys, val[A_ATOM]) == 0 && op in {ADD, OR} then
      Vstore(Stmt(Txa, s.k), val, A_ATOM, val[X_ATOM], keys, alter)
    else if alter && Const(keys, val[A_ATOM]) && ConstVal(keys, val[A_ATOM]) == 0
        && op in {MUL, DIV, AND, LSH, RSH} then
      FreshStore(Stmt(LdImm, 0), val, A_ATOM, keys, ConstKey(0), alter)
    else
      Fresh(s, val, A_ATOM, keys, Key(s.code, val[A_ATOM], val[X_ATOM]))
  }

  /** ld M[k] and ldx M[k]. */
  function Load(s: Stmt, val: Vals, a: Atom, imm: Code, keys: seq<Key>, alter: bool): Rewrite
    requires s.k < MEMWORDS
  {
    var v := val[s.k];
    Vstore(if alter && Const(keys, v) then Stmt(imm, ConstVal(keys, v)) else s, val, a, v, keys, alter)
  }

  /** opt_stmt. */
  function Step(keys: seq<Key>, val: Vals, s: Stmt, alter: bool): Rewrite
    requires MemOk(s)
  {
    match s.code
    case LdAbs(_) => FreshStore(s, val, A_ATOM, keys, Key(s.code, s.k, 0), alter)
    case LdInd(size) =>
      var v := val[X_ATOM];
      if alter && Const(keys, v) then
        var k := Wrap(s.k + ConstVal(keys, v));
        FreshStore(Stmt(LdAbs(size), k), val, A_ATOM, keys, Key(LdAbs(size), k, 0), alter)
      else
        FreshStore(s, val, A_ATOM, keys, Key(s.code, s.k, v), alter)
    case LdLen => FreshStore(s, val, A_ATOM, keys, Key(s.code, 0, 0), alter)
    case LdImm => FreshStore(s, val, A_ATOM, keys, ConstKey(s.k), alter)
    case LdxImm => FreshStore(s, val, X_ATOM, keys, ConstKey(s.k), alter)
    case LdxMsh => FreshStore(s, val, X_ATOM, keys, Key(s.code, s.k, 0), alter)
    case Neg =>
      if alter && Const(keys, val[A_ATOM]) then
        var w := Negate(ConstVal(keys, val[A_ATOM]));
        Fresh(Stmt(LdImm, w), val, A_ATOM, keys, ConstKey(w))
      else
        Fresh(s, val, A_ATOM, keys, Key(s.code, val[A_ATOM], 0))
    case Alu(_, src) => if src == K then AluK(s, val, keys, alter) else AluX(s, val, keys, alter)
    case Txa => Vstore(s, val, A_ATOM, val[X_ATOM], keys, alter)
    case Tax => Vstore(s, val, X_ATOM, val[A_ATOM], keys, alter)
    case LdMem => Load(s, val, A_ATOM, LdImm, keys, alter)
    case LdxMem => Load(s, val, X_ATOM, LdxImm, keys, alter)
    case St => Vstore(s, val, s.k, val[A_ATOM], keys, alter)
    case Stx => Vstore(s, val, s.k, val[X_ATOM], keys, alter)
    case _ => Rewrite(s, val, keys)
  }

  // ----- Soundness -----

  /** The deleting branch of vstore, taken on account of two equal numbers that are not known: the
      statement goes although the atom it would set need not hold that value. */
  ghost predicate DeletesUnknown(keys: seq<Key>, val: Vals, s: Stmt)
    requires WellKeyed(keys) && MemOk(s)
  {
    && s.code != Nop && !s.code.Alu? && AtomDef(s).Some?
    && Step(keys, val, s, true).Rewrite? && Step(keys, val, s, true).s.code == Nop
    && !Clean(keys, val[AtomDef(s).value])
  }

  /** What a rewrite must keep: it executes like `s`, and the new table agrees with the new state. */
  ghost predicate Sound(keys: seq<Key>, s: Stmt, r: Rewrite, st: State, p: Packet)
    requires Exec(s, st, p).Some?
  {
    && r.Rewrite? && Exec(r.s, st, p) == Exec(s, st, p)
    && keys <= r.keys && WellKeyed(r.keys) && Bounded(r.keys, r.val)
    && Agrees(r.keys, r.val, Exec(s, st, p).value, p)
  }

  lemma VstoreSound(keys0: seq<Key>, s0: Stmt, s: Stmt, val: Vals, a: Atom, v: nat, keys: seq<Key>, alter: bool,
                    st: State, p: Packet, w: Word)
    requires keys0 <= keys && WellKeyed(keys) && Bounded(keys, val) && Agrees(keys, val, st, p)
    requires v <= |keys| && (Clean(keys, v) ==> Denote(keys, v, p) == Some(w))
    requires alter && val[a] == v ==> Clean(keys, v)
    requires Exec(s0, st, p) == Some(st[a := w]) == Exec(s, st, p)
    ensures Sound(keys0, s0, Vstore(s, val, a, v, keys, alter), st, p)
  {
    AgreesUpdate(keys, val, st, p, a, v, w);
    if alter && val[a] == v {
      assert st[a := w] == st;
      assert val[a := v] == val;
    }
  }

  /** A number just issued means what its triple computes. */
  lemma NewNumber(keys: seq<Key>, key: Key, p: Packet)
    requires WellKeyed(keys) && KeyBelow(key, |keys| + 1)
    ensures WellKeyed(Extend(keys, key)) && keys <= Extend(keys, key)
    ensures 1 <= Number(Extend(keys, key), key) <= |Extend(keys, key)|
    ensures Clean(Extend(keys, key), Number(Extend(keys, key), key)) == KeyClean(keys, key, |keys| + 1)
    ensures Denote(Extend(keys, key), Number(Extend(keys, key), key), p) == KeyValue(keys, key, |keys| + 1, p)
  {
    ExtendWellKeyed(keys, key);
    ExtendDistinct(keys, key);
    var more := Extend(keys, key);
    if key.code.LdInd? || key.code.Alu? {
      DenoteStable(keys, more, key.v1, p);
    }
    if key.code.Neg? || key.code.Alu? {
      DenoteStable(keys, more, key.v0, p);
    }
  }

  lemma FreshSound(keys0: seq<Key>, s0: Stmt, s: Stmt, val: Vals, a: Atom, keys: seq<Key>, key: Key, st: State,
                   p: Packet, w: Word)
    requires keys0 <= keys && WellKeyed(keys) && Bounded(keys, val) && Agrees(keys, val, st, p)
    requires KeyBelow(key, |keys| + 1)
    requires Exec(s0, st, p) == Some(st[a := w]) == Exec(s, st, p)
    requires KeyClean(keys, key, |keys| + 1) ==> KeyValue(keys, key, |keys| + 1, p) == Some(w)
    ensures Sound(keys0, s0, Fresh(s, val, a, keys, key), st, p)
    ensures Sound(keys0, s0, FreshStore(s, val, a, keys, key, false), st, p)
    ensures KeyClean(keys, key, |keys| + 1) || val[a] != Number(Extend(keys, key), key) || Clean(keys, val[a]) ==>
              Sound(keys0, s0, FreshStore(s, val, a, keys, key, true), st, p)
  {
    NewNumber(keys, key, p);
    var more := Extend(keys, key);
    AgreesStable(keys, more, val, st, p);
    var v := Number(more, key);
    VstoreSound(keys0, s0, s, val, a, v, more, false, st, p, w);
    DenoteStable(keys, more, val[a], p);
    if Clean(more, v) || val[a] != v {
      VstoreSound(keys0, s0, s, val, a, v, more, true, st, p, w);
    }
  }

  /** The situation every rewriting lemma below starts from. */
  ghost predicate Start(keys: seq<Key>, val: Vals, s: Stmt, alter: bool, st: State, p: Packet) {
    && WellKeyed(keys) && Bounded(keys, val) && Agrees(keys, val, st, p) && MemOk(s)
    && (alter ==> !DeletesUnknown(keys, val, s)) && Exec(s, st, p).Some?
  }

  lemma ConstDenotes(keys: seq<Key>, v: nat, p: Packet)
    requires WellKeyed(keys) && Const(keys, v)
    ensures Clean(keys, v) && Denote(keys, v, p) == Some(ConstVal(keys, v))
  {
    var key := keys[v - 1];
    assert Immediate(key.code) && KeyBelow(key, v);
    assert KeyClean(keys, key, v) && KeyValue(keys, key, v, p) == Some(key.v0);
    hide KeyClean, KeyValue, Immediate, KeyBelow;
  }

  /** An atom with a constant number holds that constant. */
  lemma ConstAgrees(keys: seq<Key>, val: Vals, st: State, p: Packet, a: Atom)
    requires WellKeyed(keys) && Agrees(keys, val, st, p) && Const(keys, val[a])
    ensures st[a] == ConstVal(keys, val[a])
  {
    ConstDenotes(keys, val[a], p);
  }

  lemma LoadSound(keys: seq<Key>, val: Vals, s: Stmt, alter: bool, st: State, p: Packet)
    requires Start(keys, val, s, alter, st, p)
    requires s.code.LdAbs? || s.code in {LdLen, LdImm, LdxImm, LdxMsh}
    ensures Sound(keys, s, Step(keys, val, s, alter), st, p)
  {
    hide LoadAt;
    var w := Result(s, st, p).value;
    match s.code
    case LdAbs(_) => FreshSound(keys, s, s, val, A_ATOM, keys, Key(s.code, s.k, 0), st, p, w);
    case LdLen => FreshSound(keys, s, s, val, A_ATOM, keys, Key(s.code, 0, 0), st, p, w);
    case LdImm => FreshSound(keys, s, s, val, A_ATOM, keys, ConstKey(s.k), st, p, w);
    case LdxImm => FreshSound(keys, s, s, val, X_ATOM, keys, ConstKey(s.k), st, p, w);
    case LdxMsh => FreshSound(keys, s, s, val, X_ATOM, keys, Key(s.code, s.k, 0), st, p, w);
  }

  /** An indexed load with a known index is the absolute load it becomes. */
  lemma IndConst(keys: seq<Key>, val: Vals, s: Stmt, k: Word)
    requires s.code.LdInd? && Const(keys, val[X_ATOM]) && k == Wrap(s.k + ConstVal(keys, val[X_ATOM]))
    ensures Step(keys, val, s, true)
         == FreshStore(Stmt(LdAbs(s.code.size), k), val, A_ATOM, keys, Key(LdAbs(s.code.size), k, 0), true)
  {
    hide FreshStore, Wrap, Const, ConstVal;
  }

  /** Both load the word at `k`. */
  lemma IndLoads(s: Stmt, st: State, p: Packet, k: Word)
    requires s.code.LdInd? && k == Wrap(s.k + st[X_ATOM]) && Exec(s, st, p).Some?
    ensures LoadAt(p, k, s.code.size).Some?
    ensures Exec(s, st, p) == Exec(Stmt(LdAbs(s.code.size), k), st, p)
        == Some(st[A_ATOM := LoadAt(p, k, s.code.size).value])
  {
    assert k == Wrap(st[X_ATOM] + s.k);
    hide LoadAt, Wrap;
  }

  /** What an indexed load does, and what its triple stands for. */
  lemma IndFacts(keys: seq<Key>, val: Vals, s: Stmt, st: State, p: Packet)
    requires WellKeyed(keys) && Bounded(keys, val) && Agrees(keys, val, st, p) && s.code.LdInd? && Exec(s, st, p).Some?
    ensures Exec(s, st, p) == Some(st[A_ATOM := Result(s, st, p).value])
    ensures Result(s, st, p) == LoadAt(p, Wrap(st[X_ATOM] + s.k), s.code.size)
    ensures KeyBelow(Key(s.code, s.k, val[X_ATOM]), |keys| + 1)
    ensures KeyClean(keys, Key(s.code, s.k, val[X_ATOM]), |keys| + 1) ==>
              KeyValue(keys, Key(s.code, s.k, val[X_ATOM]), |keys| + 1, p) == Result(s, st, p)
  {
    assert val[X_ATOM] <= |keys|;
    assert Clean(keys, val[X_ATOM]) ==> Denote(keys, val[X_ATOM], p) == Some(st[X_ATOM]);
    hide LoadAt, Wrap, Clean, Denote;
  }

  lemma AbsFacts(keys: seq<Key>, size: Size, k: Word, p: Packet)
    requires WellKeyed(keys)
    ensures KeyBelow(Key(LdAbs(size), k, 0), |keys| + 1) && KeyClean(keys, Key(LdAbs(size), k, 0), |keys| + 1)
    ensures KeyValue(keys, Key(LdAbs(size), k, 0), |keys| + 1, p) == LoadAt(p, k, size)
  {
  }

  /** A statement that executes like an absolute load may become one. */
  lemma AbsSound(keys: seq<Key>, val: Vals, s: Stmt, st: State, p: Packet, size: Size, k: Word)
    requires WellKeyed(keys) && Bounded(keys, val) && Agrees(keys, val, st, p) && LoadAt(p, k, size).Some?
    requires Exec(s, st, p) == Exec(Stmt(LdAbs(size), k), st, p) == Some(st[A_ATOM := LoadAt(p, k, size).value])
    ensures Sound(keys, s, FreshStore(Stmt(LdAbs(size), k), val, A_ATOM, keys, Key(LdAbs(size), k, 0), true), st, p)
  {
    hide LoadAt, Exec, WellKeyed, Bounded, Agrees, FreshStore, Sound;
    AbsFacts(keys, size, k, p);
    FreshSound(keys, s, Stmt(LdAbs(size), k), val, A_ATOM, keys, Key(LdAbs(size), k, 0), st, p,
        LoadAt(p, k, size).value);
  }

  lemma IndConstSound(keys: seq<Key>, val: Vals, s: Stmt, st: State, p: Packet, k: Word)
    requires Start(keys, val, s, true, st, p) && s.code.LdInd? && Const(keys, val[X_ATOM])
    requires k == Wrap(s.k + ConstVal(keys, val[X_ATOM]))
    ensures Sound(keys, s, Step(keys, val, s, true), st, p)
  {
    hide *;
    StartParts(keys, val, s, true, st, p);
    IndexHolds(keys, val, s, st, p, k);
    IndConst(keys, val, s, k);
    IndLoads(s, st, p, k);
    AbsSound(keys, val, s, st, p, s.code.size, k);
  }

  lemma StartParts(keys: seq<Key>, val: Vals, s: Stmt, alter: bool, st: State, p: Packet)
    requires Start(keys, val, s, alter, st, p)
    ensures WellKeyed(keys) && Bounded(keys, val) && Agrees(keys, val, st, p) && Exec(s, st, p).Some?
  {
  }

  lemma IndexHolds(keys: seq<Key>, val: Vals, s: Stmt, st: State, p: Packet, k: Word)
    requires WellKeyed(keys) && Agrees(keys, val, st, p) && Const(keys, val[X_ATOM])
    requires k == Wrap(s.k + ConstVal(keys, val[X_ATOM]))
    ensures k == Wrap(s.k + st[X_ATOM])
  {
    ConstAgrees(keys, val, st, p, X_ATOM);
  }

  lemma IndOpenSound(keys: seq<Key>, val: Vals, s: Stmt, alter: bool, st: State, p: Packet)
    requires Start(keys, val, s, alter, st, p) && s.code.LdInd? && !(alter && Const(keys, val[X_ATOM]))
    ensures Sound(keys, s, Step(keys, val, s, alter), st, p)
  {
    var key := Key(s.code, s.k, val[X_ATOM]);
    assert Step(keys, val, s, alter) == FreshStore(s, val, A_ATOM, keys, key, alter);
    assert alter && val[A_ATOM] == Number(Extend(keys, key), key) ==> Clean(keys, val[A_ATOM]);
    var a := A_ATOM;
    hide *;
    IndFacts(keys, val, s, st, p);
    FreshSound(keys, s, s, val, a, keys, key, st, p, Result(s, st, p).value);
  }

  lemma IndSound(keys: seq<Key>, val: Vals, s: Stmt, alter: bool, st: State, p: Packet)
    requires Start(keys, val, s, alter, st, p) && s.code.LdInd?
    ensures Sound(keys, s, Step(keys, val, s, alter), st, p)
  {
    hide Step, Sound, Start;
    if alter && Const(keys, val[X_ATOM]) {
      IndConstSound(keys, val, s, st, p, Wrap(s.k + ConstVal(keys, val[X_ATOM])));
    } else {
      IndOpenSound(keys, val, s, alter, st, p);
    }
  }

  lemma MoveSound(keys: seq<Key>, val: Vals, s: Stmt, alter: bool, st: State, p: Packet)
    requires Start(keys, val, s, alter, st, p)
    requires s.code in {Txa, Tax, LdMem, LdxMem, St, Stx}
    ensures Sound(keys, s, Step(keys, val, s, alter), st, p)
  {
    var w := Result(s, st, p).value;
    if s.code in {LdMem, LdxMem} && Const(keys, val[s.k]) {
      ConstAgrees(keys, val, st, p, s.k);
    }
    match s.code
    case Txa => VstoreSound(keys, s, s, val, A_ATOM, val[X_ATOM], keys, alter, st, p, w);
    case Tax => VstoreSound(keys, s, s, val, X_ATOM, val[A_ATOM], keys, alter, st, p, w);
    case LdMem =>
      var s1 := if alter && Const(keys, val[s.k]) then Stmt(LdImm, ConstVal(keys, val[s.k])) else s;
      VstoreSound(keys, s, s1, val, A_ATOM, val[s.k], keys, alter, st, p, w);
    case LdxMem =>
      var s1 := if alter && Const(keys, val[s.k]) then Stmt(LdxImm, ConstVal(keys, val[s.k])) else s;
      VstoreSound(keys, s, s1, val, X_ATOM, val[s.k], keys, alter, st, p, w);
    case St => VstoreSound(keys, s, s, val, s.k, val[A_ATOM], keys, alter, st, p, w);
    case Stx => VstoreSound(keys, s, s, val, s.k, val[X_ATOM], keys, alter, st, p, w);
  }

  lemma NegSound(keys: seq<Key>, val: Vals, s: Stmt, alter: bool, st: State, p: Packet)
    requires Start(keys, val, s, alter, st, p) && s.code == Neg
    ensures Sound(keys, s, Step(keys, val, s, alter), st, p)
  {
    var w := Result(s, st, p).value;
    if alter && Const(keys, val[A_ATOM]) {
      ConstAgrees(keys, val, st, p, A_ATOM);
      FreshSound(keys, s, Stmt(LdImm, w), val, A_ATOM, keys, ConstKey(w), st, p, w);
    } else {
      FreshSound(keys, s, s, val, A_ATOM, keys, Key(s.code, val[A_ATOM], 0), st, p, w);
    }
  }

  /** Arithmetic with zero that leaves the other operand alone, or gives zero. */
  lemma ZeroRules(op: AluOp, a: Word)
    ensures op in {ADD, LSH, RSH, OR} ==> AluEval(op, a, 0) == Some(a)
    ensures op in {MUL, AND} ==> AluEval(op, a, 0) == Some(0)
    ensures op in {ADD, OR} ==> AluEval(op, 0, a) == Some(a)
    ensures op in {MUL, DIV, AND, LSH, RSH} ==> AluEval(op, 0, a) in {None, Some(0)}
  {
    assert BitAnd(a, 0) == 0 && BitAnd(0, a) == 0;
    assert a * 0 == 0 && 0 * a == 0;
  }

  lemma AluKSound(keys: seq<Key>, val: Vals, s: Stmt, alter: bool, st: State, p: Packet)
    requires Start(keys, val, s, alter, st, p) && s.code.Alu? && s.code.src == K
    ensures Sound(keys, s, Step(keys, val, s, alter), st, p)
  {
    var op, w := s.code.op, Result(s, st, p).value;
    ZeroRules(op, st[A_ATOM]);
    FoldOpExact(op, st[A_ATOM], s.k);
    hide AluEval, FoldOp;
    if alter && s.k == 0 && op in {ADD, LSH, RSH, OR} {
      assert st[A_ATOM := w] == st;
    } else if alter && s.k == 0 && op in {MUL, AND} {
      FreshSound(keys, s, Stmt(LdImm, s.k), val, A_ATOM, keys, ConstKey(s.k), st, p, w);
    } else {
      var keys1 := Extend(keys, ConstKey(s.k));
      NewNumber(keys, ConstKey(s.k), p);
      AgreesStable(keys, keys1, val, st, p);
      if alter && Const(keys, val[A_ATOM]) {
        ConstAgrees(keys, val, st, p, A_ATOM);
        FreshSound(keys, s, Stmt(LdImm, w), val, A_ATOM, keys1, ConstKey(w), st, p, w);
      } else {
        FreshSound(keys, s, s, val, A_ATOM, keys1, Key(s.code, val[A_ATOM], Number(keys1, ConstKey(s.k))), st, p, w);
      }
    }
  }

  /** X known: the operation becomes one on a constant, or is folded. */
  lemma AluXConstSound(keys: seq<Key>, val: Vals, s: Stmt, st: State, p: Packet)
    requires Start(keys, val, s, true, st, p) && s.code.Alu? && s.code.src == X && Const(keys, val[X_ATOM])
    ensures Sound(keys, s, Step(keys, val, s, true), st, p)
  {
    var op, w, x := s.code.op, Result(s, st, p).value, ConstVal(keys, val[X_ATOM]);
    FoldOpExact(op, st[A_ATOM], st[X_ATOM]);
    ConstAgrees(keys, val, st, p, X_ATOM);
    hide AluEval, FoldOp;
    if Const(keys, val[A_ATOM]) {
      ConstAgrees(keys, val, st, p, A_ATOM);
      FreshSound(keys, s, Stmt(LdImm, w), val, A_ATOM, keys, ConstKey(w), st, p, w);
    } else {
      var keys1 := Extend(keys, ConstKey(x));
      NewNumber(keys, ConstKey(x), p);
      AgreesStable(keys, keys1, val, st, p);
      FreshSound(keys, s, Stmt(Alu(op, K), x), val, A_ATOM, keys1,
                 Key(Alu(op, K), val[A_ATOM], Number(keys1, ConstKey(x))), st, p, w);
    }
  }

  /** X unknown: only an A known to be 0 helps. */
  lemma AluXOpenSound(keys: seq<Key>, val: Vals, s: Stmt, alter: bool, st: State, p: Packet)
    requires Start(keys, val, s, alter, st, p) && s.code.Alu? && s.code.src == X && !(alter && Const(keys, val[X_ATOM]))
    ensures Sound(keys, s, Step(keys, val, s, alter), st, p)
  {
    var op, w := s.code.op, Result(s, st, p).value;
    ZeroRules(op, st[X_ATOM]);
    hide AluEval, FoldOp;
    if alter && Const(keys, val[A_ATOM]) && ConstVal(keys, val[A_ATOM]) == 0 && op in {ADD, OR} {
      ConstAgrees(keys, val, st, p, A_ATOM);
      VstoreSound(keys, s, Stmt(Txa, s.k), val, A_ATOM, val[X_ATOM], keys, alter, st, p, w);
    } else if alter && Const(keys, val[A_ATOM]) && ConstVal(keys, val[A_ATOM]) == 0 && op in {MUL, DIV, AND, LSH, RSH} {
      ConstAgrees(keys, val, st, p, A_ATOM);
      FreshSound(keys, s, Stmt(LdImm, 0), val, A_ATOM, keys, ConstKey(0), st, p, w);
    } else {
      FreshSound(keys, s, s, val, A_ATOM, keys, Key(s.code, val[A_ATOM], val[X_ATOM]), st, p, w);
    }
  }

  lemma AluXSound(keys: seq<Key>, val: Vals, s: Stmt, alter: bool, st: State, p: Packet)
    requires Start(keys, val, s, alter, st, p) && s.code.Alu? && s.code.src == X
    ensures Sound(keys, s, Step(keys, val, s, alter), st, p)
  {
    hide Step, Sound, Start;
    if alter && Const(keys, val[X_ATOM]) {
      AluXConstSound(keys, val, s, st, p);
    } else {
      AluXOpenSound(keys, val, s, alter, st, p);
    }
  }

  /** Statement rewriting is sound: from any state that agrees with the value table, the statement
      opt_stmt leaves has the same next state as the original one whenever that does not fault,
      and the updated table agrees with this next state. With `alter` off nothing is rewritten. */
  lemma StepSound(keys: seq<Key>, val: Vals, s: Stmt, alter: bool, st: State, p: Packet)
    requires Start(keys, val, s, alter, st, p)
    ensures Sound(keys, s, Step(keys, val, s, alter), st, p)
    ensures !alter ==> Step(keys, val, s, alter).s == s
  {
    match s.code
    case LdAbs(_) | LdLen | LdImm | LdxImm | LdxMsh => LoadSound(keys, val, s, alter, st, p);
    case LdInd(_) => IndSound(keys, val, s, alter, st, p);
    case Txa | Tax | LdMem | LdxMem | St | Stx => MoveSound(keys, val, s, alter, st, p);
    case Neg => NegSound(keys, val, s, alter, st, p);
    case Alu(_, src) =>
      if src == K {
        AluKSound(keys, val, s, alter, st, p);
      } else {
        AluXSound(keys, val, s, alter, st, p);
      }
    case _ =>
  }

  // ----- When the rewriting is right -----

  /** The rewritten statement runs like the original one from every state that agrees with the table. */
  ghost predicate RunsLike(keys: seq<Key>, val: Vals, s: Stmt, s1: Stmt)
    requires WellKeyed(keys)
  {
    forall st, p {:trigger Agrees(keys, val, st, p)} ::
      Agrees(keys, val, st, p) && Exec(s, st, p).Some? ==> Exec(s1, st, p) == Exec(s, st, p)
  }

  /** A deletion on account of an unknown number shows: the table says nothing about the atom the
      statement sets, so that atom may hold another word before. */
  lemma DeletedDiffers(keys: seq<Key>, val: Vals, s: Stmt, st: State, p: Packet) returns (st': State)
    requires WellKeyed(keys) && MemOk(s) && DeletesUnknown(keys, val, s)
    requires Agrees(keys, val, st, p) && Exec(s, st, p).Some?
    ensures Agrees(keys, val, st', p) && Exec(s, st', p).Some?
    ensures Exec(Step(keys, val, s, true).s, st', p) != Exec(s, st', p)
  {
    var a := AtomDef(s).value;
    var w: Word := if Exec(s, st, p).value[a] == 0 then 1 else 0;
    st' := st[a := w];
    assert a !in AtomUse(s);
    UseDefExact(s, st, st', p);
    assert st'[a] == w;
  }

  /** opt_stmt's rewriting is right exactly when vstore does not delete the statement on account of an
      unknown number, for every table that some run from some state agrees with. */
  lemma RewriteExact(keys: seq<Key>, val: Vals, s: Stmt, st0: State, p0: Packet)
    requires WellKeyed(keys) && Bounded(keys, val) && MemOk(s) && Agrees(keys, val, st0, p0) && Exec(s, st0, p0).Some?
    ensures Step(keys, val, s, true).Rewrite?
    ensures RunsLike(keys, val, s, Step(keys, val, s, true).s) <==> !DeletesUnknown(keys, val, s)
  {
    hide Step, Exec, DeletesUnknown;
    if DeletesUnknown(keys, val, s) {
      DeletesIsRewrite(keys, val, s);
      var st' := DeletedDiffers(keys, val, s, st0, p0);
    } else {
      StepSound(keys, val, s, true, st0, p0);
      forall st, p | Agrees(keys, val, st, p) && Exec(s, st, p).Some?
        ensures Exec(Step(keys, val, s, true).s, st, p) == Exec(s, st, p)
      {
        StepSound(keys, val, s, true, st, p);
      }
    }
  }

  lemma DeletesIsRewrite(keys: seq<Key>, val: Vals, s: Stmt)
    requires WellKeyed(keys) && MemOk(s) && DeletesUnknown(keys, val, s)
    ensures Step(keys, val, s, true).Rewrite?
  {
    hide Step, Clean;
  }

  /** The condition fails for `txa` when nothing is known of A and X: both are numbered 0. */
  lemma UnknownComparesEqual(p: Packet)
    ensures
      var val: Vals := seq(N_ATOMS, i => 0);
      var st: State := seq(N_ATOMS, i => if i == X_ATOM then 1 else 0);
      && DeletesUnknown([], val, Stmt(Txa, 0)) && Agrees([], val, st, p)
      && Exec(Stmt(Txa, 0), st, p).Some?
      && Exec(Step([], val, Stmt(Txa, 0), true).s, st, p) != Exec(Stmt(Txa, 0), st, p)
  {
    var st: State := seq(N_ATOMS, i => if i == X_ATOM then 1 else 0);
    assert st[A_ATOM := st[X_ATOM]][A_ATOM] != st[A_ATOM];
  }

  /** Everything the statement reads has a known number. */
  ghost predicate ReadsKnown(keys: seq<Key>, val: Vals, s: Stmt)
    requires WellKeyed(keys) && MemOk(s)
  {
    forall a :: a in AtomUse(s) ==> Clean(keys, val[a])
  }

  /** A number built from known ones is known. */
  lemma FreshIsKnown(keys: seq<Key>, key: Key, v: nat)
    requires WellKeyed(keys) && v <= |keys| && KeyBelow(key, |keys| + 1) && KeyClean(keys, key, |keys| + 1)
    requires v == Number(Extend(keys, key), key)
    ensures Clean(keys, v)
  {
    NewNumber(keys, key, Packet([], 0));
    DenoteStable(keys, Extend(keys, key), v, Packet([], 0));
  }

  lemma StoreDeletes(s: Stmt, val: Vals, a: Atom, keys: seq<Key>, key: Key)
    requires s.code != Nop && FreshStore(s, val, a, keys, key, true).s.code == Nop
    ensures val[a] == Number(Extend(keys, key), key)
  {
  }

  /** An indexed load that vstore deletes. */
  lemma KnownInd(keys: seq<Key>, val: Vals, s: Stmt)
    requires WellKeyed(keys) && Bounded(keys, val) && s.code.LdInd? && ReadsKnown(keys, val, s)
    requires Step(keys, val, s, true).Rewrite? && Step(keys, val, s, true).s.code == Nop
    ensures Clean(keys, val[A_ATOM])
  {
    hide FreshStore, Number, Extend, Wrap, WellKeyed;
    var size, x, a, xn := s.code.size, X_ATOM, A_ATOM, val[X_ATOM];
    assert Clean(keys, xn) && xn <= |keys| && val[a] <= |keys|;
    if Const(keys, xn) {
      var k := Wrap(s.k + ConstVal(keys, xn));
      assert Step(keys, val, s, true) == FreshStore(Stmt(LdAbs(size), k), val, a, keys, Key(LdAbs(size), k, 0), true);
      hide *;
      AbsFacts(keys, size, k, Packet([], 0));
      StoreDeletes(Stmt(LdAbs(size), k), val, a, keys, Key(LdAbs(size), k, 0));
      FreshIsKnown(keys, Key(LdAbs(size), k, 0), val[a]);
    } else {
      var key := Key(s.code, s.k, xn);
      assert Step(keys, val, s, true) == FreshStore(s, val, a, keys, key, true);
      assert KeyBelow(key, |keys| + 1) && KeyClean(keys, key, |keys| + 1);
      hide *;
      StoreDeletes(s, val, a, keys, key);
      FreshIsKnown(keys, key, val[a]);
    }
  }

  /** The rewriting is right for every statement that reads only atoms with known numbers. */
  lemma KnownReadsSuffice(keys: seq<Key>, val: Vals, s: Stmt)
    requires WellKeyed(keys) && Bounded(keys, val) && MemOk(s) && ReadsKnown(keys, val, s)
    ensures !DeletesUnknown(keys, val, s)
  {
    if DeletesUnknown(keys, val, s) {
      hide Number, Extend, Clean, WellKeyed;
      match s.code
      case LdAbs(_) => FreshIsKnown(keys, Key(s.code, s.k, 0), val[A_ATOM]);
      case LdLen => FreshIsKnown(keys, Key(s.code, 0, 0), val[A_ATOM]);
      case LdImm => FreshIsKnown(keys, ConstKey(s.k), val[A_ATOM]);
      case LdxImm => FreshIsKnown(keys, ConstKey(s.k), val[X_ATOM]);
      case LdxMsh => FreshIsKnown(keys, Key(s.code, s.k, 0), val[X_ATOM]);
      case LdInd(_) => KnownInd(keys, val, s);
      case _ =>
    }
  }

  /** Where fold_op's error exit comes from. */
  lemma DivisionFacts(keys: seq<Key>, val: Vals, s: Stmt, alter: bool)
    requires MemOk(s) && Step(keys, val, s, alter) == DivisionByZero
    ensures s.code.Alu? && Const(keys, val[A_ATOM]) && (s.code.src == X ==> Const(keys, val[X_ATOM]))
    ensures FoldOp(s.code.op, ConstVal(keys, val[A_ATOM]), if s.code.src == X then ConstVal(keys, val[X_ATOM])
        else s.k) == None
  {
    hide FoldOp, Const, Number, Extend;
  }

  /** fold_op's error exit is only taken for a statement that would fault on every run. */
  lemma DivisionByZeroFaults(keys: seq<Key>, val: Vals, s: Stmt, alter: bool, st: State, p: Packet)
    requires WellKeyed(keys) && Agrees(keys, val, st, p) && MemOk(s)
    requires Step(keys, val, s, alter) == DivisionByZero
    ensures Exec(s, st, p) == None
  {
    DivisionFacts(keys, val, s, alter);
    ConstAgrees(keys, val, st, p, A_ATOM);
    if s.code.src == X {
      ConstAgrees(keys, val, st, p, X_ATOM);
    }
    hide Step, Const, WellKeyed, Agrees, ConstVal, AluEval, FoldOp;
    FoldOpExact(s.code.op, st[A_ATOM], if s.code.src == X then st[X_ATOM] else s.k);
    DivideByZero(st[A_ATOM]);
  }

  lemma DivideByZero(a: Word)
    ensures AluEval(DIV, a, 0) == None
  {
  }

  // ----- opt_stmt -----

  /** Every constant number of a well-built table is a word. */
  lemma ConstIsWord(keys: seq<Key>, v: nat)
    requires WellKeyed(keys)
    ensures IsConst(keys, v) <==> Const(keys, v)
  {
    if IsConst(keys, v) {
      assert KeyBelow(keys[v - 1], v);
    }
  }

  method VstoreStmt(s: Stmt, val: Vals, a: Atom, newval: nat, alter: bool, ghost keys: seq<Key>)
      returns (s': Stmt, val': Vals)
    ensures Rewrite(s', val', keys) == Vstore(s, val, a, newval, keys, alter)
  {
    s', val' := s, val;
    if alter && val[a] == newval {
      s' := Stmt(Nop, s.k);
    } else {
      val' := val[a := newval];
    }
  }

  /** The statement F(...) followed by vstore. */
  method FStore(t: Table, s: Stmt, val: Vals, a: Atom, code: Code, v0: nat, v1: nat, alter: bool)
      returns (s': Stmt, val': Vals)
    requires t.Valid() && t.curval + 1 < t.vmap.Length
    modifies t, t.hashtbl, t.vmap
    ensures t.Valid()
    ensures Rewrite(s', val', t.keys) == FreshStore(s, val, a, old(t.keys), Key(code, v0, v1), alter)
  {
    var v := t.F(code, v0, v1);
    s', val' := VstoreStmt(s, val, a, v, alter, t.keys);
  }

  /** F(...) stored straight into an atom. */
  method FSet(t: Table, s: Stmt, val: Vals, a: Atom, code: Code, v0: nat, v1: nat) returns (val': Vals)
    requires t.Valid() && t.curval + 1 < t.vmap.Length
    modifies t, t.hashtbl, t.vmap
    ensures t.Valid() && |t.keys| <= |old(t.keys)| + 1
    ensures Rewrite(s, val', t.keys) == Fresh(s, val, a, old(t.keys), Key(code, v0, v1))
  {
    var v := t.F(code, v0, v1);
    val' := val[a := v];
  }

  /** K(i). */
  method NumberK(t: Table, i: nat) returns (v: nat)
    requires t.Valid() && t.curval + 1 < t.vmap.Length
    modifies t, t.hashtbl, t.vmap
    ensures t.Valid() && t.keys == Extend(old(t.keys), ConstKey(i)) && |t.keys| <= |old(t.keys)| + 1
    ensures v == Number(t.keys, ConstKey(i))
  {
    v := t.F(LdImm, i, 0);
  }

  /** The number of an atom as vmap knows it. */
  method IsConstant(t: Table, v: nat) returns (c: bool, k: Word)
    requires t.Valid() && WellKeyed(t.keys) && v <= |t.keys|
    ensures c == Const(t.keys, v) && (c ==> k == ConstVal(t.keys, v))
  {
    ConstIsWord(t.keys, v);
    c, k := t.vmap[v].isConst, 0;
    if c {
      k := t.vmap[v].constVal;
    }
  }

  method OptAluK(t: Table, s: Stmt, val: Vals, alter: bool) returns (ok: bool, s': Stmt, val': Vals)
    requires t.Valid() && WellKeyed(t.keys) && Bounded(t.keys, val) && s.code.Alu? && s.code.src == K
    requires t.curval + 2 < t.vmap.Length
    modifies t, t.hashtbl, t.vmap
    ensures t.Valid() && ok == AluK(s, val, old(t.keys), alter).Rewrite?
    ensures ok ==> Rewrite(s', val', t.keys) == AluK(s, val, old(t.keys), alter)
  {
    var op := s.code.op;
    s', val', ok := s, val, true;
    hide FoldOp, Number, Fresh, Extend, FreshStore, Vstore, Const, ConstVal, WellKeyed;
    if alter {
      if s.k == 0 {
        if op == ADD || op == LSH || op == RSH || op == OR {
          s' := Stmt(Nop, s.k);
          return;
        }
        if op == MUL || op == AND {
          s' := Stmt(LdImm, s.k);
          val' := FSet(t, s', val, A_ATOM, LdImm, s.k, 0);
          return;
        }
      }
      var c, a := IsConstant(t, val[A_ATOM]);
      if c {
        var _ := NumberK(t, s.k);
        var w := FoldOp(op, a, s.k);
        if w == None {
          ok := false;
          return;
        }
        s' := Stmt(LdImm, w.value);
        val' := FSet(t, s', val, A_ATOM, LdImm, w.value, 0);
        return;
      }
    }
    var kv := NumberK(t, s.k);
    val' := FSet(t, s, val, A_ATOM, s.code, val[A_ATOM], kv);
  }

  method OptAluX(t: Table, s: Stmt, val: Vals, alter: bool) returns (ok: bool, s': Stmt, val': Vals)
    requires t.Valid() && WellKeyed(t.keys) && Bounded(t.keys, val) && s.code.Alu? && s.code.src == X
    requires t.curval + 2 < t.vmap.Length
    modifies t, t.hashtbl, t.vmap
    ensures t.Valid() && ok == AluX(s, val, old(t.keys), alter).Rewrite?
    ensures ok ==> Rewrite(s', val', t.keys) == AluX(s, val, old(t.keys), alter)
  {
    var op := s.code.op;
    s', val', ok := s, val, true;
    hide FoldOp, Number, Fresh, Extend, FreshStore, Vstore, Const, ConstVal, WellKeyed;
    var ac, a := IsConstant(t, val[A_ATOM]);
    var xc, x := IsConstant(t, val[X_ATOM]);
    if alter && xc {
      if ac {
        var w := FoldOp(op, a, x);
        if w == None {
          ok := false;
          return;
        }
        s' := Stmt(LdImm, w.value);
        val' := FSet(t, s', val, A_ATOM, LdImm, w.value, 0);
      } else {
        s' := Stmt(Alu(op, K), x);
        var kv := NumberK(t, x);
        val' := FSet(t, s', val, A_ATOM, Alu(op, K), val[A_ATOM], kv);
      }
      return;
    }
    if alter && ac && a == 0 {
      if op == ADD || op == OR {
        s', val' := VstoreStmt(Stmt(Txa, s.k), val, A_ATOM, val[X_ATOM], alter, t.keys);
        return;
      } else if op == MUL || op == DIV || op == AND || op == LSH || op == RSH {
        s', val' := FStore(t, Stmt(LdImm, 0), val, A_ATOM, LdImm, 0, 0, alter);
        return;
      }
    }
    val' := FSet(t, s, val, A_ATOM, s.code, val[A_ATOM], val[X_ATOM]);
  }

  /** ld M[k], ldx M[k]: a known constant replaces the load. */
  method OptLoad(t: Table, s: Stmt, val: Vals, a: Atom, imm: Code, alter: bool) returns (s': Stmt, val': Vals)
    requires t.Valid() && WellKeyed(t.keys) && Bounded(t.keys, val) && s.k < MEMWORDS
    ensures Rewrite(s', val', t.keys) == Load(s, val, a, imm, t.keys, alter)
  {
    var v := val[s.k];
    var c, k := IsConstant(t, v);
    s' := s;
    if alter && c {
      s' := Stmt(imm, k);
    }
    s', val' := VstoreStmt(s', val, a, v, alter, t.keys);
  }

  /** ld [x + k]. */
  method OptLdInd(t: Table, s: Stmt, val: Vals, alter: bool) returns (s': Stmt, val': Vals)
    requires t.Valid() && WellKeyed(t.keys) && Bounded(t.keys, val) && s.code.LdInd?
    requires t.curval + 1 < t.vmap.Length
    modifies t, t.hashtbl, t.vmap
    ensures t.Valid()
    ensures Rewrite(s', val', t.keys) == Step(old(t.keys), val, s, alter)
  {
    hide FreshStore, Const, ConstVal, WellKeyed, Wrap;
    var v := val[X_ATOM];
    var c, x := IsConstant(t, v);
    if alter && c {
      var k := Wrap(s.k + x);
      s', val' := FStore(t, Stmt(LdAbs(s.code.size), k), val, A_ATOM, LdAbs(s.code.size), k, 0, alter);
    } else {
      s', val' := FStore(t, s, val, A_ATOM, s.code, s.k, v, alter);
    }
  }

  method OptNeg(t: Table, s: Stmt, val: Vals, alter: bool) returns (s': Stmt, val': Vals)
    requires t.Valid() && WellKeyed(t.keys) && Bounded(t.keys, val) && s.code == Neg
    requires t.curval + 1 < t.vmap.Length
    modifies t, t.hashtbl, t.vmap
    ensures t.Valid()
    ensures Rewrite(s', val', t.keys) == Step(old(t.keys), val, s, alter)
  {
    NegIs(t.keys, val, s, alter);
    hide Step, WellKeyed, Bounded, Const, ConstVal, IsConst, Number, Extend, Negate, Fresh;
    var c, a := IsConstant(t, val[A_ATOM]);
    s' := s;
    if alter && c {
      s' := Stmt(LdImm, Negate(a));
      val' := FSet(t, s', val, A_ATOM, LdImm, s'.k, 0);
    } else {
      val' := FSet(t, s, val, A_ATOM, Neg, val[A_ATOM], 0);
    }
  }

  lemma NegIs(keys: seq<Key>, val: Vals, s: Stmt, alter: bool)
    requires WellKeyed(keys) && Bounded(keys, val) && s.code == Neg
    ensures val[A_ATOM] <= |keys| && MemOk(s)
    ensures Const(keys, val[A_ATOM]) ==> IsConst(keys, val[A_ATOM]) && ConstVal(keys, val[A_ATOM]) < TWO32
    ensures Step(keys, val, s, alter)
        == if alter && Const(keys, val[A_ATOM]) then
             var w := Negate(ConstVal(keys, val[A_ATOM]));
             Fresh(Stmt(LdImm, w), val, A_ATOM, keys, Key(LdImm, w, 0))
           else Fresh(s, val, A_ATOM, keys, Key(Neg, val[A_ATOM], 0))
  {
  }

  /** opt_stmt on the shared table. `ok` is false when fold_op gives up on a division by zero. */
  method OptStmt(t: Table, s: Stmt, val: Vals, alter: bool) returns (ok: bool, s': Stmt, val': Vals)
    requires t.Valid() && WellKeyed(t.keys) && Bounded(t.keys, val) && MemOk(s)
    requires t.curval + 2 < t.vmap.Length
    modifies t, t.hashtbl, t.vmap
    ensures t.Valid() && ok == Step(old(t.keys), val, s, alter).Rewrite?
    ensures ok ==> Rewrite(s', val', t.keys) == Step(old(t.keys), val, s, alter)
  {
    hide FreshStore, Vstore, AluK, AluX, Load, Fresh, Number, Extend, Const;
    s', val', ok := s, val, true;
    match s.code
    case LdAbs(_) => s', val' := FStore(t, s, val, A_ATOM, s.code, s.k, 0, alter);
    case LdInd(_) => s', val' := OptLdInd(t, s, val, alter);
    case LdLen => s', val' := FStore(t, s, val, A_ATOM, s.code, 0, 0, alter);
    case LdImm => s', val' := FStore(t, s, val, A_ATOM, LdImm, s.k, 0, alter);
    case LdxImm => s', val' := FStore(t, s, val, X_ATOM, LdImm, s.k, 0, alter);
    case LdxMsh => s', val' := FStore(t, s, val, X_ATOM, s.code, s.k, 0, alter);
    case Neg => s', val' := OptNeg(t, s, val, alter);
    case Alu(_, src) =>
      if src == K {
        ok, s', val' := OptAluK(t, s, val, alter);
      } else {
        ok, s', val' := OptAluX(t, s, val, alter);
      }
    case Txa => s', val' := VstoreStmt(s, val, A_ATOM, val[X_ATOM], alter, t.keys);
    case Tax => s', val' := VstoreStmt(s, val, X_ATOM, val[A_ATOM], alter, t.keys);
    case LdMem => s', val' := OptLoad(t, s, val, A_ATOM, LdImm, alter);
    case LdxMem => s', val' := OptLoad(t, s, val, X_ATOM, LdxImm, alter);
    case St => s', val' := VstoreStmt(s, val, s.k, val[A_ATOM], alter, t.keys);
    case Stx => s', val' := VstoreStmt(s, val, s.k, val[X_ATOM], alter, t.keys);
    case _ =>
  }
}
