/** The registers a statement uses and defines. */
module Atoms {
  import opened Bpf

  /** Scratch-memory statements name one of the 16 words. */
  predicate MemOk(s: Stmt) {
    s.code in {LdMem, LdxMem, St, Stx} ==> s.k < MEMWORDS
  }

  ghost predicate AllMemOk(ss: seq<Stmt>) {
    forall s :: s in ss ==> MemOk(s)
  }

  /** atomuse: no register, one, or both A and X (its AX_ATOM). */
  function AtomUse(s: Stmt): set<Atom>
    requires MemOk(s)
  {
    match s.code
    case LdInd(_) | Txa | Stx => {X_ATOM}
    case Neg | Tax | St | Ja => {A_ATOM}
    case Alu(_, src) => if src == X then {A_ATOM, X_ATOM} else {A_ATOM}
    case Jmp(_, src) => if src == X then {A_ATOM, X_ATOM} else {A_ATOM}
    case LdMem | LdxMem => {s.k}
    case _ => {}
  }

  /** atomdef; None stands for -1. */
  function AtomDef(s: Stmt): Option<Atom>
    requires MemOk(s)
  {
    match s.code
    case LdAbs(_) | LdInd(_) | LdLen | LdImm | LdMem | Alu(_, _) | Neg | Txa => Some(A_ATOM)
    case LdxImm | LdxMsh | LdxMem | Tax => Some(X_ATOM)
    case St | Stx => Some(s.k)
    case _ => None
  }

  ghost predicate AgreeOn(st: State, st': State, Z: set<Atom>) {
    forall a {:trigger st[a]} {:trigger st'[a]} :: a in Z ==> st[a] == st'[a]
  }

  /** atomuse and atomdef are right: what a statement does depends on the atoms it uses only, and
      it changes nothing but the atom it defines. */
  lemma UseDefExact(s: Stmt, st: State, st': State, p: Packet)
    requires MemOk(s) && AgreeOn(st, st', AtomUse(s))
    ensures Exec(s, st, p).Some? == Exec(s, st', p).Some?
    ensures Exec(s, st, p).Some? && AtomDef(s) == None ==> Exec(s, st, p) == Some(st) && Exec(s, st', p) == Some(st')
    ensures Exec(s, st, p).Some? && AtomDef(s).Some? ==>
              var (a, w) := (AtomDef(s).value, Exec(s, st, p).value[AtomDef(s).value]);
              Exec(s, st, p) == Some(st[a := w]) && Exec(s, st', p) == Some(st'[a := w])
  {
    hide AluEval, LoadAt, Negate, BitAnd;
  }

  /** A branch depends on the atoms it uses only. */
  lemma TakenAgree(t: Stmt, st: State, st': State)
    requires t.code.Jmp? && AgreeOn(st, st', AtomUse(t))
    ensures Taken(t, st) == Taken(t, st')
  {
  }
}
