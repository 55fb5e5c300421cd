/** opt_blk, once its entry table is known: numbering and, with `alter` on, rewriting the statements, then deleting
    all of them, or the peephole rules and dead-store removal. */
module OptBlk {
  import opened Bpf
  import opened Cfg
  import opened Atoms
  import opened LiveStmts
  import opened LastDefs
  import opened DeadStores
  import opened ValueTable
  import opened Symbolic
  import opened BlockValues
  import opened ValueFlow
  import opened ValuePass
  import opened Peephole
  import opened PeepBlock

  /** The rule that deletes all statements: nothing is live at the exit and A and X have the numbers they had at
      the entry, or the block returns. */
  predicate DropsAll(test: Stmt, outUse: set<Atom>, e: Vals, val: Vals) {
    || (outUse == {} && e[A_ATOM] != 0 && val[A_ATOM] == e[A_ATOM] && e[X_ATOM] != 0 && val[X_ATOM] == e[X_ATOM])
    || test.code == Ret
  }

  /** What the block must satisfy: right statements, and nothing live at the exit of a return, nor, when they stay
      as they are, any statements in it. */
  ghost predicate BlkReady(n: Node, outUse: set<Atom>, keys: seq<Key>, e: Vals, alter: bool) {
    && AllMemOk(n.stmts) && MemOk(n.test) && WellKeyed(keys) && Bounded(keys, e)
    && (n.test.code.Jmp? || (n.test.code == Ret && outUse == {} && (alter || n.stmts == [])))
  }

  /** What the rules take for granted: no statement is deleted on account of an unknown number, the numbers that let
      all be deleted are known, and no use of X is left behind. */
  ghost predicate BlkSure(n: Node, outUse: set<Atom>, keys: seq<Key>, e: Vals)
    requires AllMemOk(n.stmts) && WellKeyed(keys)
  {
    && Steady(keys, e, n.stmts, true)
    && var r := Steps(keys, e, n.stmts, true);
       r.Rewrites? && WellKeyed(r.keys) ==>
         if DropsAll(n.test, outUse, e, r.val) then
           n.test.code.Jmp? ==> Clean(keys, e[A_ATOM]) && Clean(keys, e[X_ATOM])
         else Asked(n.(stmts := r.ss), outUse).sure
  }

  /** The rule for jset #0xffffffff applies to the statements the numbering leaves. */
  ghost predicate BlkOnes(n: Node, outUse: set<Atom>, keys: seq<Key>, e: Vals)
    requires AllMemOk(n.stmts)
  {
    var r := Steps(keys, e, n.stmts, true);
    r.Rewrites? && !DropsAll(n.test, outUse, e, r.val) && AllOnes(n.(stmts := r.ss), outUse)
  }

  /** The atoms the block gives up, `m` being the statements opt_peep has left and `n` the block in the end: those
      whose last definition has been deleted, by the peephole rules (A where the last statement has been merged into
      the branch, X where an indexed load has been folded) or as a dead store; or, when all statements are dropped,
      all that they define but A and X, which have the values they had. */
  ghost function GivenUp(n0: Node, m: seq<Stmt>, n: Node, outUse: set<Atom>, keys: seq<Key>, e: Vals, alter: bool)
      : set<Atom>
    requires AllMemOk(n0.stmts)
  {
    var r := Steps(keys, e, n0.stmts, alter);
    if !r.Rewrites? then {}
    else if alter && DropsAll(n0.test, outUse, e, r.val) then
      Gone(r.ss, []) - (if n0.test.code.Jmp? then {A_ATOM, X_ATOM} else {})
    else Gone(r.ss, m) + Gone(m, n.stmts)
  }

  /** On every run of `n0` that does not fault, from a state that agrees with the entry table, `n` does not fault
      either, leaves the same live atoms, and goes to the same successor. When `ones` is set, only runs that
      leave a nonzero A are spoken of. */
  ghost predicate BlkKept(n0: Node, n: Node, outUse: set<Atom>, keys: seq<Key>, e: Vals, ones: bool)
    requires WellKeyed(keys)
  {
    forall st, p {:trigger ExecAll(n0.stmts, st, p)} :: Agrees(keys, e, st, p) && ExecAll(n0.stmts, st, p).Some? ==>
      BlkKeptRun(n0, n, outUse, ones, st, p)
  }

  ghost predicate BlkKeptRun(n0: Node, n: Node, outUse: set<Atom>, ones: bool, st: State, p: Packet)
    requires ExecAll(n0.stmts, st, p).Some?
  {
    var st1 := ExecAll(n0.stmts, st, p).value;
    (ones ==> st1[A_ATOM] != 0) ==>
      && ExecAll(n.stmts, st, p).Some?
      && AgreeOn(st1, ExecAll(n.stmts, st, p).value, outUse)
      && Next(n0, st1) == Next(n, ExecAll(n.stmts, st, p).value)
  }

  lemma BlkKeptLess(n0: Node, n: Node, Z: set<Atom>, Z1: set<Atom>, keys: seq<Key>, e: Vals, ones: bool)
    requires WellKeyed(keys) && BlkKept(n0, n, Z, keys, e, ones) && Z1 <= Z
    ensures BlkKept(n0, n, Z1, keys, e, ones)
  {
    forall st, p {:trigger ExecAll(n0.stmts, st, p)} | Agrees(keys, e, st, p) && ExecAll(n0.stmts, st, p).Some?
      ensures BlkKeptRun(n0, n, Z1, ones, st, p)
    {
      assert BlkKeptRun(n0, n, Z, ones, st, p);
      hide Agrees;
    }
  }

  /** What opt_blk makes of block `n0`: no new statements or successors; with `alter` on, what matters is kept from
      the states that agree with the entry table; with it off, from all states the exit table is right about. */
  ghost predicate BlkLeft(n0: Node, m: seq<Stmt>, n: Node, outUse: set<Atom>, keys: seq<Key>, e: Vals, alter: bool) {
    && AllMemOk(n.stmts) && MemOk(n.test) && Onward(n0, n) && |Live(n.stmts)| <= |Live(n0.stmts)|
    && (n0.test.code.Jmp? ==> n.test.code.Jmp?) && (!n0.test.code.Jmp? ==> n == n0.(stmts := []))
    && BlkRight(n0, m, n, outUse, keys, e, alter) && BlkDone(n0, m, n, outUse, keys, e, alter)
  }

  /** What the three parts leave. With `alter` on, no statement of a return, nor of a block at whose exit nothing is
      live and A and X have the known numbers they had; otherwise `m` is what opt_peep leaves of the numbered
      statements, and `n` has them without their dead stores. */
  ghost predicate BlkDone(n0: Node, m: seq<Stmt>, n: Node, outUse: set<Atom>, keys: seq<Key>, e: Vals, alter: bool) {
    AllMemOk(n0.stmts) && Steps(keys, e, n0.stmts, alter).Rewrites? ==>
      var r := Steps(keys, e, n0.stmts, alter);
      if alter && (n0.test.code == Ret
                   || (outUse == {} && e[A_ATOM] == r.val[A_ATOM] && e[A_ATOM] != 0
                       && e[X_ATOM] == r.val[X_ATOM] && e[X_ATOM] != 0))
      then n == n0.(stmts := [])
      else
        && RulesApplied(n0.(stmts := r.ss), n.(stmts := m), outUse, r.keys, r.val)
        && AllMemOk(m) && MemOk(n.test) && n.stmts == Purged(m, n.test, outUse, N_ATOMS)
  }

  /** Nothing that is live is given up, and everything that is not given up is kept. */
  ghost predicate BlkRight(n0: Node, m: seq<Stmt>, n: Node, outUse: set<Atom>, keys: seq<Key>, e: Vals, alter: bool) {
    AllMemOk(n0.stmts) && WellKeyed(keys) && Steps(keys, e, n0.stmts, alter).Rewrites? ==>
      var kept := AllAtoms() - GivenUp(n0, m, n, outUse, keys, e, alter);
      && outUse <= kept
      && if alter then BlkSure(n0, outUse, keys, e) ==> BlkKept(n0, n, kept, keys, e, BlkOnes(n0, outUse, keys, e))
         else var r := Steps(keys, e, n0.stmts, false); Carries(n0, n, kept, r.keys, r.val, Asked(n0, outUse))
  }

  /** Deleting all statements keeps what matters: the branch sees the A and X it saw, and the others are those the
      statements do not define. */
  lemma DropKept(n0: Node, outUse: set<Atom>, keys: seq<Key>, e: Vals)
    requires BlkReady(n0, outUse, keys, e, true) && BlkSure(n0, outUse, keys, e)
    requires Steps(keys, e, n0.stmts, true).Rewrites?
    requires DropsAll(n0.test, outUse, e, Steps(keys, e, n0.stmts, true).val)
    ensures BlkKept(n0, n0.(stmts := []),
                    AllAtoms() - (Gone(Steps(keys, e, n0.stmts, true).ss, [])
                                  - (if n0.test.code.Jmp? then {A_ATOM, X_ATOM} else {})), keys, e, false)
  {
    var r := Steps(keys, e, n0.stmts, true);
    var kept := AllAtoms() - (Gone(r.ss, []) - (if n0.test.code.Jmp? then {A_ATOM, X_ATOM} else {}));
    hide Asked;
    forall st, p {:trigger ExecAll(n0.stmts, st, p)} | Agrees(keys, e, st, p) && ExecAll(n0.stmts, st, p).Some?
      ensures BlkKeptRun(n0, n0.(stmts := []), kept, false, st, p)
    {
      StepsKeys(keys, e, n0.stmts, true);
      StepsSound(keys, e, n0.stmts, true, st, p);
      var st1 := ExecAll(n0.stmts, st, p).value;
      if n0.test.code.Jmp? {
        SameNumber(keys, e, st, r.keys, r.val, st1, p, A_ATOM);
        SameNumber(keys, e, st, r.keys, r.val, st1, p, X_ATOM);
      }
      hide Steps, Agrees, Clean, NoLateX, Steady, Gone;
      forall a: Atom | a in kept
        ensures st1[a] == st[a]
      {
        if a !in Gone(r.ss, []) {
          AllGone(r.ss, st, p, a);
        }
      }
      assert ExecAll([], st, p) == Some(st);
    }
  }

  /** An atom that keeps its known number keeps its word. */
  lemma SameNumber(keys: seq<Key>, e: Vals, st: State, more: seq<Key>, val: Vals, st1: State, p: Packet, a: Atom)
    requires WellKeyed(keys) && WellKeyed(more) && keys <= more && Agrees(keys, e, st, p) && Agrees(more, val, st1, p)
    requires val[a] == e[a] && Clean(keys, e[a])
    ensures st1[a] == st[a]
  {
    DenoteStable(keys, more, e[a], p);
    assert Denote(keys, e[a], p) == Some(st[a]);
  }

  /** The peephole rules and dead-store removal keep what matters of the numbered statements, hence of the original
      ones. */
  lemma PeepKept(n0: Node, n2: Node, outUse: set<Atom>, kept: set<Atom>, keys: seq<Key>, e: Vals, r: Rewrites,
                 q: Premise)
    requires BlkReady(n0, outUse, keys, e, true) && Steady(keys, e, n0.stmts, true)
    requires r == Steps(keys, e, n0.stmts, true) && r.Rewrites? && q.sure
    requires Carries(n0.(stmts := r.ss), n2, kept, r.keys, r.val, q)
    ensures BlkKept(n0, n2, kept, keys, e, q.ones)
  {
    forall st, p {:trigger ExecAll(n0.stmts, st, p)} | Agrees(keys, e, st, p) && ExecAll(n0.stmts, st, p).Some?
      ensures BlkKeptRun(n0, n2, kept, q.ones, st, p)
    {
      StepsKeys(keys, e, n0.stmts, true);
      StepsSound(keys, e, n0.stmts, true, st, p);
      hide Steps, Agrees, NoLateX, Steady, Const, ConstVal;
      var st1 := ExecAll(n0.stmts, st, p).value;
      ExitAgrees(r.keys, r.val, n0.(stmts := r.ss), st1, p);
      assert ExecAll(n0.(stmts := r.ss).stmts, st, p) == Some(st1);
      assert CarriesRun(n0.(stmts := r.ss), n2, kept, r.keys, r.val, q, st, p);
      hide ExitOk, Taken;
    }
  }

  lemma ExitAgrees(keys: seq<Key>, val: Vals, n: Node, st: State, p: Packet)
    requires WellKeyed(keys) && Agrees(keys, val, st, p)
    ensures ExitOk(n, keys, val, st)
  {
    if Const(keys, val[A_ATOM]) {
      ConstAgrees(keys, val, st, p, A_ATOM);
    }
    if Const(keys, val[X_ATOM]) {
      ConstAgrees(keys, val, st, p, X_ATOM);
    }
  }

  /** What the numbering has left meets what opt_peep asks for: arithmetic at the end has a number that is no
      constant. */
  lemma PeepMay(n0: Node, outUse: set<Atom>, keys: seq<Key>, e: Vals, r: Rewrites, alter: bool)
    requires BlkReady(n0, outUse, keys, e, alter) && r == Steps(keys, e, n0.stmts, alter) && r.Rewrites?
    requires n0.test.code.Jmp? || !alter
    ensures PeepReady(n0.(stmts := r.ss), outUse, r.keys, r.val)
  {
    StepsKeys(keys, e, n0.stmts, alter);
    EndsOpen(keys, e, n0.stmts, alter);
    hide Steps, NoLateX, EndsInAlu, WellKeyed, Bounded, Const;
  }

  /** The second half, on the numbered statements. */
  method Cleanup(b: Block, e: Vals, t: Table, alter: bool, ghost n0: Node, ghost keys: seq<Key>, ghost r: Rewrites)
      returns (ghost m: seq<Stmt>)
    requires BlkReady(n0, b.outUse, keys, e, alter) && r == Steps(keys, e, n0.stmts, alter) && r.Rewrites?
    requires t.Valid() && t.keys == r.keys && b.val == r.val && NodeOf(b) == n0.(stmts := r.ss)
    modifies b`stmts, b`s, b`jt, b`jf
    ensures BlkLeft(n0, m, NodeOf(b), b.outUse, keys, e, alter)
  {
    ghost var outUse := b.outUse;
    var aval, xval, val := e[A_ATOM], e[X_ATOM], b.val;
    var same := val[A_ATOM] == aval && val[X_ATOM] == xval;
    hide *;
    NodeIs(b);
    BlkParts(n0, outUse, keys, e, alter);
    if alter && ((b.outUse == {} && aval != 0 && xval != 0 && same) || b.s.code == Ret) {
      b.stmts, m := [], r.ss;
      NodeIs(b);
      Dropped(n0, outUse, keys, e, r);
    } else {
      NotDropped(n0, outUse, keys, e, r, alter);
      m := PeepPart(b, e, t, alter, n0, keys, r);
    }
  }

  lemma Dropped(n0: Node, outUse: set<Atom>, keys: seq<Key>, e: Vals, r: Rewrites)
    requires BlkReady(n0, outUse, keys, e, true) && r == Steps(keys, e, n0.stmts, true) && r.Rewrites?
    requires (outUse == {} && e[A_ATOM] != 0 && r.val[A_ATOM] == e[A_ATOM] && e[X_ATOM] != 0
              && r.val[X_ATOM] == e[X_ATOM])
             || n0.test.code == Ret
    ensures BlkLeft(n0, r.ss, n0.(stmts := []), outUse, keys, e, true)
  {
    hide Steps, BlkKept, Asked, Steady, WellKeyed, Gone;
    assert DropsAll(n0.test, outUse, e, r.val);
    if BlkSure(n0, outUse, keys, e) {
      DropKept(n0, outUse, keys, e);
    }
  }

  lemma NotDropped(n0: Node, outUse: set<Atom>, keys: seq<Key>, e: Vals, r: Rewrites, alter: bool)
    requires BlkReady(n0, outUse, keys, e, alter) && r.Rewrites?
    requires alter ==> n0.test.code != Ret
    requires alter ==> !(outUse == {} && e[A_ATOM] != 0 && r.val[A_ATOM] == e[A_ATOM] && e[X_ATOM] != 0
                         && r.val[X_ATOM] == e[X_ATOM])
    ensures alter ==> n0.test.code.Jmp? && !DropsAll(n0.test, outUse, e, r.val)
  {
    hide WellKeyed;
  }

  method PeepPart(b: Block, ghost e: Vals, t: Table, ghost alter: bool, ghost n0: Node, ghost keys: seq<Key>,
                  ghost r: Rewrites)
      returns (ghost m: seq<Stmt>)
    requires BlkReady(n0, b.outUse, keys, e, alter) && r == Steps(keys, e, n0.stmts, alter) && r.Rewrites?
    requires t.Valid() && t.keys == r.keys && b.val == r.val && NodeOf(b) == n0.(stmts := r.ss)
    requires alter ==> n0.test.code.Jmp? && !DropsAll(n0.test, b.outUse, e, b.val)
    modifies b`stmts, b`s, b`jt, b`jf
    ensures BlkLeft(n0, m, NodeOf(b), b.outUse, keys, e, alter)
  {
    hide *;
    ghost var outUse := b.outUse;
    NodeIs(b);
    PeepMay(n0, outUse, keys, e, r, alter);
    OptPeep(b, t);
    ghost var n1 := NodeOf(b);
    m := b.stmts;
    NodeIs(b);
    PeepedMem(r.ss, b.stmts);
    OptDeadstores(b);
    NodeIs(b);
    PeepedMem(n1.stmts, b.stmts);
    AllLeft(n0, n1, NodeOf(b), outUse, keys, e, r, alter);
  }

  lemma PeepedMem(ss: seq<Stmt>, ss1: seq<Stmt>)
    requires SameMem(ss, ss1)
    ensures AllMemOk(ss1) && |Live(ss1)| <= |Live(ss)| && (ss == [] ==> ss1 == [])
  {
    NoneRevivedLive(ss, ss1);
  }

  lemma AllLeft(n0: Node, n1: Node, n2: Node, outUse: set<Atom>, keys: seq<Key>, e: Vals, r: Rewrites, alter: bool)
    requires BlkReady(n0, outUse, keys, e, alter) && r == Steps(keys, e, n0.stmts, alter) && r.Rewrites?
    requires alter ==> n0.test.code.Jmp? && !DropsAll(n0.test, outUse, e, r.val)
    requires Keeps(n0.(stmts := r.ss), n1, AllAtoms() - Gone(r.ss, n1.stmts), r.keys, r.val,
                   Asked(n0.(stmts := r.ss), outUse))
    requires n2.test == n1.test && n2.jt == n1.jt && n2.jf == n1.jf
    requires KeepsBlock(n1.stmts, n2.stmts, n1.test, AllAtoms() - Gone(n1.stmts, n2.stmts))
    requires RulesApplied(n0.(stmts := r.ss), n1, outUse, r.keys, r.val)
    requires AllMemOk(n1.stmts) && MemOk(n1.test) && n2.stmts == Purged(n1.stmts, n1.test, outUse, N_ATOMS)
    requires Gone(r.ss, n1.stmts) !! outUse && Gone(n1.stmts, n2.stmts) !! outUse
    requires Onward(n0.(stmts := r.ss), n1) && AllMemOk(n2.stmts) && MemOk(n2.test) && |Live(n2.stmts)| <= |Live(r.ss)|
    requires n0.test.code.Jmp? ==> n1.test.code.Jmp?
    requires r.ss == [] ==> n1 == n0.(stmts := r.ss) && n2.stmts == []
    ensures BlkLeft(n0, n1.stmts, n2, outUse, keys, e, alter)
  {
    hide BlkKept, Keeps, Carries, KeepsBlock, NoLateX, AllOnes, Steps, Steady, Asked, Gone, RulesApplied, Purged;
    StepsFacts(n0.stmts, keys, e, r, alter);
    var kept := AllAtoms() - (Gone(r.ss, n1.stmts) + Gone(n1.stmts, n2.stmts));
    KeepsDead(n0.(stmts := r.ss), n1, n2, AllAtoms() - Gone(r.ss, n1.stmts), AllAtoms() - Gone(n1.stmts, n2.stmts),
              kept, r.keys, r.val, Asked(n0.(stmts := r.ss), outUse));
    if alter {
      if BlkSure(n0, outUse, keys, e) {
        AskedOnes(n0.(stmts := r.ss), outUse);
        PeepKept(n0, n2, outUse, kept, keys, e, r, Asked(n0.(stmts := r.ss), outUse));
      }
    }
  }

  lemma AskedOnes(n: Node, outUse: set<Atom>)
    ensures Asked(n, outUse).ones == AllOnes(n, outUse)
  {
    hide AllOnes, NoLateX;
  }

  /** opt_blk: on every run that does not fault, from a state that agrees with the entry table, the block keeps its
      branch decision and every atom but those it gives up, none of which is live (BlkLeft); it takes no more numbers
      than maxval allots it, and no statement comes back to life. It stops only on a division by zero, where every
      such run faults. */
  method OptBlk(b: Block, e: Vals, t: Table, alter: bool) returns (ok: bool, ghost m: seq<Stmt>)
    requires t.Valid() && BlkReady(NodeOf(b), b.outUse, t.keys, e, alter)
    requires t.curval + 2 * |Live(b.stmts)| + 3 <= t.vmap.Length
    modifies b`stmts, b`s, b`jt, b`jf, b`val, b`oval, t, t.hashtbl, t.vmap
    ensures t.Valid() && ok == Steps(old(t.keys), e, old(b.stmts), alter).Rewrites?
    ensures ok ==> var r := Steps(old(t.keys), e, old(b.stmts), alter);
                   b.val == r.val && OvalNumbered(r.keys, b.s, b.val, b.oval, t.keys)
    ensures ok ==> BlkLeft(old(NodeOf(b)), m, NodeOf(b), b.outUse, old(t.keys), e, alter)
    ensures ok ==> t.curval <= old(t.curval) + 2 * |Live(old(b.stmts))| + 1
    ensures !ok && Steady(old(t.keys), e, old(b.stmts), alter) ==>
              forall st, p :: Agrees(old(t.keys), e, st, p) ==> ExecAll(old(b.stmts), st, p) == None
  {
    hide *;
    ghost var n0, keys := NodeOf(b), t.keys;
    NodeIs(b);
    BlkParts(n0, b.outUse, keys, e, alter);
    TableCount(t);
    var ss, val;
    m := [];
    ok, ss, val := NumberStmts(t, e, b.stmts, alter);
    if !ok {
      GivesUp(n0.stmts, keys, e, alter);
      return;
    }
    ghost var r := Rewrites(ss, val, t.keys);
    StepsFacts(n0.stmts, keys, e, r, alter);
    TableCount(t);
    b.stmts, b.val := ss, val;
    NodeIs(b);
    m := Cleanup(b, e, t, alter, n0, keys, r);
    var oval := OvalNumber(t, b.s, val);
    TableCount(t);
    OvalFacts(r.keys, b.s, val, oval, t.keys);
    b.oval := oval;
  }

  lemma NodeIs(b: Block)
    ensures NodeOf(b) == Node(b.stmts, b.s, b.jt, b.jf)
  {
  }

  lemma BlkParts(n: Node, outUse: set<Atom>, keys: seq<Key>, e: Vals, alter: bool)
    requires BlkReady(n, outUse, keys, e, alter)
    ensures AllMemOk(n.stmts) && WellKeyed(keys) && Bounded(keys, e)
  {
  }

  lemma GivesUp(ss: seq<Stmt>, keys: seq<Key>, e: Vals, alter: bool)
    requires AllMemOk(ss) && WellKeyed(keys) && Bounded(keys, e) && !Steps(keys, e, ss, alter).Rewrites?
    ensures Steady(keys, e, ss, alter) ==> forall st, p :: Agrees(keys, e, st, p) ==> ExecAll(ss, st, p) == None
  {
    if Steady(keys, e, ss, alter) {
      forall st, p | Agrees(keys, e, st, p)
        ensures ExecAll(ss, st, p) == None
      {
        if ExecAll(ss, st, p).Some? {
          StepsSound(keys, e, ss, alter, st, p);
        }
      }
    }
  }

  lemma StepsFacts(ss: seq<Stmt>, keys: seq<Key>, e: Vals, r: Rewrites, alter: bool)
    requires AllMemOk(ss) && WellKeyed(keys) && Bounded(keys, e) && r == Steps(keys, e, ss, alter) && r.Rewrites?
    ensures WellKeyed(r.keys) && |r.keys| <= |keys| + 2 * |Live(ss)| && |Live(r.ss)| <= |Live(ss)|
    ensures !alter ==> r.ss == ss
  {
    StepsKeys(keys, e, ss, alter);
  }

  lemma OvalFacts(keys: seq<Key>, test: Stmt, val: Vals, oval: nat, more: seq<Key>)
    requires OvalNumbered(keys, test, val, oval, more)
    ensures OvalIs(more, test, val, oval) && |more| <= |keys| + 1
  {
  }
}
