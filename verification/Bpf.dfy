/** The BPF pseudo-machine (section 3 of "The BSD Packet Filter", USENIX Winter 1993):
    32-bit words, the statements the filter compiler emits, and what one basic block does.

    Registers follow the optimizer's numbering: atoms 0..15 are the scratch words M[0..15],
    atom 16 is the accumulator A and atom 17 the index register X. */
module Bpf {
  const TWO32: int := 0x1_0000_0000
  const MAX_WORD: int := 0xffff_ffff

  type Word = w: int | 0 <= w < TWO32
  type Byte = b: int | 0 <= b < 256

  const MEMWORDS: int := 16
  const A_ATOM: int := 16
  const X_ATOM: int := 17
  const N_ATOMS: int := 18

  type Atom = a: int | 0 <= a < N_ATOMS

  /** One value number per atom. */
  type Vals = v: seq<nat> | |v| == N_ATOMS witness seq(N_ATOMS, i => 0)

  type State = s: seq<Word> | |s| == N_ATOMS witness seq(N_ATOMS, i => 0)

  /** The captured bytes, and the length the packet had on the wire. */
  datatype Packet = Packet(data: seq<Byte>, wireLen: Word)

  datatype Size = W | H | B
  datatype AluOp = ADD | SUB | MUL | DIV | AND | OR | LSH | RSH
  datatype JmpOp = JEQ | JGT | JGE | JSET
  datatype Src = K | X

  datatype Code =
    | Nop
    | LdAbs(size: Size) | LdInd(size: Size) | LdLen | LdImm | LdMem
    | LdxImm | LdxMsh | LdxMem
    | St | Stx
    | Alu(op: AluOp, src: Src) | Neg
    | Tax | Txa
    | Jmp(jop: JmpOp, jsrc: Src) | Ja
    | Ret

  datatype Stmt = Stmt(code: Code, k: Word)

  datatype Option<+T> = None | Some(value: T)

  // ----- 32-bit arithmetic -----

  function Wrap(i: int): Word {
    i % TWO32
  }

  /** Bitwise conjunction, one bit at a time. */
  function BitAnd(a: nat, b: nat): (r: nat)
    ensures r <= a && r <= b
  {
    if a == 0 || b == 0 then 0
    else 2 * BitAnd(a / 2, b / 2) + if a % 2 == 1 && b % 2 == 1 then 1 else 0
  }

  function Pow2(n: nat): (r: nat)
    ensures r > 0
  {
    if n == 0 then 1 else 2 * Pow2(n - 1)
  }

  lemma Pow2At32()
    ensures Pow2(32) == TWO32
  {
    assert Pow2(8) == 256;
    assert Pow2(16) == 65536;
    assert Pow2(24) == 0x100_0000;
  }

  lemma BitOrBound(a: nat, b: nat, n: nat)
    requires a < Pow2(n) && b < Pow2(n)
    ensures a + b - BitAnd(a, b) < Pow2(n)
  {
    if n > 0 && a > 0 && b > 0 {
      BitOrBound(a / 2, b / 2, n - 1);
    }
  }

  lemma BitAndOnes(a: nat, n: nat)
    requires a < Pow2(n)
    ensures BitAnd(a, Pow2(n) - 1) == a
  {
    if n > 0 && a > 0 {
      BitAndOnes(a / 2, n - 1);
    }
  }

  /** Testing against all ones: JSET succeeds exactly on the nonzero words. */
  lemma BitAndMaxWord(a: Word)
    ensures BitAnd(a, MAX_WORD) == a
  {
    Pow2At32();
    BitAndOnes(a, 32);
  }

  /** Bitwise disjunction: a + b counts the common bits twice. */
  function BitOr(a: Word, b: Word): (r: Word)
    ensures a <= r && b <= r
  {
    Pow2At32();
    BitOrBound(a, b, 32);
    a + b - BitAnd(a, b)
  }

  lemma ProductGrows(q: nat, b: nat)
    requires b > 0
    ensures q <= b * q
  {
    if b > 1 {
      ProductGrows(q, b - 1);
      assert b * q == (b - 1) * q + q;
    }
  }

  function Quotient(a: Word, b: nat): Word
    requires b > 0
  {
    ProductGrows(a / b, b);
    a / b
  }

  function Product(a: Word, b: nat): Word {
    (a * b) % TWO32
  }

  /** The value of `a op b`; None where the machine has no result: a zero divisor ends
      the run, and a shift by 32 or more is undefined. */
  function AluEval(op: AluOp, a: Word, b: Word): Option<Word> {
    match op
    case ADD => Some(Wrap(a + b))
    case SUB => Some(Wrap(a - b))
    case MUL => Some(Product(a, b))
    case DIV => if b == 0 then None else Some(Quotient(a, b))
    case AND => Some(BitAnd(a, b))
    case OR => Some(BitOr(a, b))
    case LSH => if b < 32 then Some(Product(a, Pow2(b))) else None
    case RSH => if b < 32 then Some(Quotient(a, Pow2(b))) else None
  }

  function Negate(a: Word): Word {
    Wrap(TWO32 - a)
  }

  predicate Compare(op: JmpOp, a: Word, b: Word) {
    match op
    case JEQ => a == b
    case JGT => a > b
    case JGE => a >= b
    case JSET => BitAnd(a, b) != 0
  }

  // ----- Packet access -----

  function Width(size: Size): nat {
    match size case W => 4 case H => 2 case B => 1
  }

  function BigEndian(b3: Byte, b2: Byte, b1: Byte, b0: Byte): Word {
    0x100_0000 * b3 as int + 0x1_0000 * b2 as int + 0x100 * b1 as int + b0 as int
  }

  /** A big-endian load; None when it reaches past the captured bytes. */
  function LoadAt(p: Packet, addr: Word, size: Size): Option<Word> {
    if addr + Width(size) > |p.data| then None
    else match size
      case B => Some(p.data[addr])
      case H => Some(BigEndian(0, 0, p.data[addr], p.data[addr + 1]))
      case W => Some(BigEndian(p.data[addr], p.data[addr + 1], p.data[addr + 2], p.data[addr + 3]))
  }

  // ----- Statements -----

  /** What statement `s` defines, from state `st`: None is a fault, and also the outcome of a
      scratch-memory index out of range or of a branch in statement position. */
  function Result(s: Stmt, st: State, p: Packet): Option<Word> {
    match s.code
    case LdAbs(size) => LoadAt(p, s.k, size)
    case LdInd(size) => LoadAt(p, Wrap(st[X_ATOM] + s.k), size)
    case LdLen => Some(p.wireLen)
    case LdImm => Some(s.k)
    case LdxImm => Some(s.k)
    case LdMem => if s.k < MEMWORDS then Some(st[s.k]) else None
    case LdxMem => if s.k < MEMWORDS then Some(st[s.k]) else None
    case LdxMsh =>
      (match LoadAt(p, s.k, B)
       case Some(b) => Some(4 * BitAnd(b, 15))
       case None => None)
    case St => if s.k < MEMWORDS then Some(st[A_ATOM]) else None
    case Stx => if s.k < MEMWORDS then Some(st[X_ATOM]) else None
    case Alu(op, K) => AluEval(op, st[A_ATOM], s.k)
    case Alu(op, X) => AluEval(op, st[A_ATOM], st[X_ATOM])
    case Neg => Some(Negate(st[A_ATOM]))
    case Tax => Some(st[A_ATOM])
    case Txa => Some(st[X_ATOM])
    case _ => None
  }

  /** The register a defining statement writes. */
  function Dest(s: Stmt): Atom {
    match s.code
    case LdxImm | LdxMem | LdxMsh | Tax => X_ATOM
    case St | Stx => if s.k < MEMWORDS then s.k else A_ATOM
    case _ => A_ATOM
  }

  function Exec(s: Stmt, st: State, p: Packet): Option<State> {
    if s.code == Nop then Some(st)
    else match Result(s, st, p)
      case Some(w) => Some(st[Dest(s) := w])
      case None => None
  }

  function ExecAll(ss: seq<Stmt>, st: State, p: Packet): Option<State>
    decreases |ss|
  {
    if ss == [] then Some(st)
    else match Exec(ss[0], st, p)
      case Some(st1) => ExecAll(ss[1..], st1, p)
      case None => None
  }

  /** The decision of a conditional branch. */
  predicate Taken(t: Stmt, st: State)
    requires t.code.Jmp?
  {
    Compare(t.code.jop, st[A_ATOM], if t.code.jsrc == X then st[X_ATOM] else t.k)
  }

  lemma {:induction false} ExecAllConcat(a: seq<Stmt>, b: seq<Stmt>, st: State, p: Packet)
    ensures ExecAll(a + b, st, p)
         == match ExecAll(a, st, p) case Some(st1) => ExecAll(b, st1, p) case None => None
    decreases |a|
  {
    if a == [] {
      assert a + b == b;
    } else {
      assert (a + b)[1..] == a[1..] + b;
      match Exec(a[0], st, p)
      case Some(st1) => ExecAllConcat(a[1..], b, st1, p);
      case None =>
    }
  }
}
