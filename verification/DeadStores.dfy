/** opt_deadstores: deleting the definitions that nothing reads. */
module DeadStores {
  import opened Bpf
  import opened Cfg
  import opened Atoms
  import opened LiveStmts
  import opened LastDefs
  import opened Liveness

  /** `ss1` gives what `ss0` gives on every run that does not fault, except in the atoms of `dead`. */
  ghost predicate Preserves(ss0: seq<Stmt>, ss1: seq<Stmt>, dead: set<Atom>) {
    forall st, p {:trigger ExecAll(ss0, st, p)} :: ExecAll(ss0, st, p).Some? ==>
      ExecAll(ss1, st, p).Some? && SameBut(ExecAll(ss0, st, p).value, ExecAll(ss1, st, p).value, dead)
  }

  ghost predicate SameBut(st: State, st': State, dead: set<Atom>) {
    forall a {:trigger st[a]} {:trigger st'[a]} :: 0 <= a < N_ATOMS && a !in dead ==> st[a] == st'[a]
  }

  /** No statement of `ss` uses or defines atom `a`. */
  ghost predicate Untouched(ss: seq<Stmt>, a: Atom)
    requires AllMemOk(ss)
  {
    forall s {:trigger s in ss} :: s in ss ==> a !in AtomUse(s) && AtomDef(s) != Some(a)
  }

  lemma UntouchedStep(s: Stmt, a: Atom, st: State, w: Word, p: Packet)
    requires MemOk(s) && a !in AtomUse(s) && AtomDef(s) != Some(a)
    ensures Exec(s, st[a := w], p)
         == match Exec(s, st, p) case Some(st1) => Some(st1[a := w]) case None => None
  {
    UseDefExact(s, st, st[a := w], p);
    if Exec(s, st, p).Some? && AtomDef(s).Some? {
      var b, v := AtomDef(s).value, Exec(s, st, p).value[AtomDef(s).value];
      assert st[a := w][b := v] == st[b := v][a := w];
    }
  }

  lemma {:induction false} UntouchedRun(ss: seq<Stmt>, a: Atom, st: State, w: Word, p: Packet)
    requires AllMemOk(ss) && Untouched(ss, a)
    ensures ExecAll(ss, st[a := w], p)
         == match ExecAll(ss, st, p) case Some(st1) => Some(st1[a := w]) case None => None
    decreases |ss|
  {
    if ss != [] {
      assert ss[0] in ss && forall s :: s in ss[1..] ==> s in ss;
      UntouchedStep(ss[0], a, st, w, p);
      match Exec(ss[0], st, p)
      case Some(st1) => UntouchedRun(ss[1..], a, st1, w, p);
      case None =>
    }
  }

  /** From statement j on: a definition of `a` that is neither read nor replaced afterwards only shows in `a`. */
  lemma DropLast(ss: seq<Stmt>, j: nat, a: Atom)
    requires AllMemOk(ss) && j < |ss| && AtomDef(ss[j]) == Some(a)
    requires AllMemOk(ss[j + 1..]) && Untouched(ss[j + 1..], a)
    ensures Preserves(ss, ss[j := Stmt(Nop, ss[j].k)], {a})
  {
    var ss1, rest := ss[j := Stmt(Nop, ss[j].k)], ss[j + 1..];
    forall st, p {:trigger ExecAll(ss, st, p)} | ExecAll(ss, st, p).Some?
      ensures ExecAll(ss1, st, p).Some? && SameBut(ExecAll(ss, st, p).value, ExecAll(ss1, st, p).value, {a})
    {
      SplitAt(ss, j, st, p);
      SplitAt(ss1, j, st, p);
      assert ss1[..j] == ss[..j] && ss1[j + 1..] == rest;
      var st1 := ExecAll(ss[..j], st, p).value;
      UseDefExact(ss[j], st1, st1, p);
      UntouchedRun(rest, a, st1, Exec(ss[j], st1, p).value[a], p);
    }
  }

  lemma SplitAt(ss: seq<Stmt>, j: nat, st: State, p: Packet)
    requires j < |ss|
    ensures ExecAll(ss, st, p)
         == match ExecAll(ss[..j], st, p)
            case None => None
            case Some(st1) =>
              (match Exec(ss[j], st1, p) case None => None case Some(st2) => ExecAll(ss[j + 1..], st2, p))
  {
    assert ss == ss[..j] + ss[j..];
    ExecAllConcat(ss[..j], ss[j..], st, p);
    assert ss[j..][0] == ss[j] && ss[j..][1..] == ss[j + 1..];
  }

  /** A definition of `a` at j that is replaced at i before anything reads it can go. */
  lemma DropReplaced(ss: seq<Stmt>, j: nat, i: nat, a: Atom)
    requires AllMemOk(ss) && j < i < |ss| && AtomDef(ss[j]) == Some(a) && AtomDef(ss[i]) == Some(a)
    requires a !in AtomUse(ss[i])
    requires AllMemOk(ss[j + 1..i]) && Untouched(ss[j + 1..i], a)
    ensures Preserves(ss, ss[j := Stmt(Nop, ss[j].k)], {})
  {
    forall st, p {:trigger ExecAll(ss, st, p)} | ExecAll(ss, st, p).Some?
      ensures ExecAll(ss[j := Stmt(Nop, ss[j].k)], st, p) == ExecAll(ss, st, p)
    {
      ReplacedRun(ss, j, i, a, st, p);
    }
  }

  lemma ReplacedRun(ss: seq<Stmt>, j: nat, i: nat, a: Atom, st: State, p: Packet)
    requires AllMemOk(ss) && j < i < |ss| && AtomDef(ss[j]) == Some(a) && AtomDef(ss[i]) == Some(a)
    requires a !in AtomUse(ss[i]) && ExecAll(ss, st, p).Some?
    requires AllMemOk(ss[j + 1..i]) && Untouched(ss[j + 1..i], a)
    ensures ExecAll(ss[j := Stmt(Nop, ss[j].k)], st, p) == ExecAll(ss, st, p)
  {
    var ss1, mid, rest := ss[j := Stmt(Nop, ss[j].k)], ss[j + 1..i], ss[j + 1..];
    assert ss[j] in ss && ss[i] in ss;
    hide ExecAll, AtomUse, AtomDef, AllMemOk;
    SplitAt(ss, j, st, p);
    SplitAt(ss1, j, st, p);
    assert ss1[..j] == ss[..j] && ss1[j + 1..] == rest;
    var st1 := ExecAll(ss[..j], st, p).value;
    UseDefExact(ss[j], st1, st1, p);
    var w := Exec(ss[j], st1, p).value[a];
    assert Exec(ss1[j], st1, p) == Some(st1);
    assert rest[..i - j - 1] == mid && rest[i - j - 1] == ss[i];
    hide Exec;
    SplitAt(rest, i - j - 1, st1, p);
    SplitAt(rest, i - j - 1, st1[a := w], p);
    UntouchedRun(mid, a, st1, w, p);
    var st2 := ExecAll(mid, st1, p).value;
    UseDefExact(ss[i], st2[a := w], st2, p);
    var v := Exec(ss[i], st2[a := w], p).value[a];
    assert st2[a := w][a := v] == st2[a := v];
  }

  lemma PreservesTrans(ss0: seq<Stmt>, ss1: seq<Stmt>, ss2: seq<Stmt>, d1: set<Atom>, d2: set<Atom>)
    requires Preserves(ss0, ss1, d1) && Preserves(ss1, ss2, d2)
    ensures Preserves(ss0, ss2, d1 + d2)
  {
    forall st, p {:trigger ExecAll(ss0, st, p)} | ExecAll(ss0, st, p).Some?
      ensures ExecAll(ss2, st, p).Some? && SameBut(ExecAll(ss0, st, p).value, ExecAll(ss2, st, p).value, d1 + d2)
    {
      assert ExecAll(ss1, st, p).Some?;
    }
  }

  // ----- deadstmt -----

  /** last[a]: the statement that defined `a` last, when nothing has used it since; -1 for none. */
  type Last = l: seq<int> | |l| == N_ATOMS witness seq(N_ATOMS, i => -1)

  /** `last` is right about the first `i` statements. */
  ghost predicate LastOk(ss: seq<Stmt>, i: nat, last: Last)
    requires AllMemOk(ss) && i <= |ss|
  {
    forall a {:trigger last[a]} :: 0 <= a < N_ATOMS && last[a] != -1 ==> LastAt(ss, i, last[a], a)
  }

  ghost predicate LastAt(ss: seq<Stmt>, i: nat, j: int, a: Atom)
    requires AllMemOk(ss) && i <= |ss|
  {
    && 0 <= j < i && AtomDef(ss[j]) == Some(a)
    && forall k {:trigger ss[k]} :: j < k < i ==> a !in AtomUse(ss[k]) && AtomDef(ss[k]) != Some(a)
  }

  function Forget(last: Last, used: set<Atom>): Last {
    seq(N_ATOMS, a requires 0 <= a < N_ATOMS => if a in used then -1 else last[a])
  }

  /** The rewritten list has the same places, and nothing that was deleted has come back. */
  ghost predicate SameMem(ss: seq<Stmt>, ss1: seq<Stmt>) {
    NoneRevived(ss, ss1) && AllMemOk(ss) && AllMemOk(ss1)
  }

  lemma Replaced(ss: seq<Stmt>, i: nat, last: Last, a: Atom)
    requires AllMemOk(ss) && i < |ss| && LastOk(ss, i, last) && last[a] != -1
    requires AtomDef(ss[i]) == Some(a) && a !in AtomUse(ss[i])
    ensures Preserves(ss, ss[last[a] := Stmt(Nop, ss[last[a]].k)], {})
  {
    var j := last[a];
    assert LastAt(ss, i, j, a);
    forall s | s in ss[j + 1..i]
      ensures s in ss && a !in AtomUse(s) && AtomDef(s) != Some(a)
    {
      var k :| 0 <= k < |ss[j + 1..i]| && ss[j + 1..i][k] == s;
      assert s == ss[j + 1 + k];
    }
    DropReplaced(ss, j, i, a);
  }

  /** Deleting a statement takes nothing away from what is known of the others. */
  lemma DeleteKeepsLast(ss: seq<Stmt>, i: nat, last: Last, a: Atom)
    requires AllMemOk(ss) && i <= |ss| && LastOk(ss, i, last) && last[a] != -1
    ensures 0 <= last[a] < i && AllMemOk(ss[last[a] := Stmt(Nop, ss[last[a]].k)])
    ensures LastOk(ss[last[a] := Stmt(Nop, ss[last[a]].k)], i, last[a := -1])
  {
    assert LastAt(ss, i, last[a], a);
    var ss1, last1 := ss[last[a] := Stmt(Nop, ss[last[a]].k)], last[a := -1];
    forall b {:trigger last1[b]} | 0 <= b < N_ATOMS && last1[b] != -1
      ensures LastAt(ss1, i, last1[b], b)
    {
      assert LastAt(ss, i, last[b], b);
    }
  }

  // ----- Which statements go -----

  /** What becomes of a value: nothing yet, it is read, or it is overwritten before it is read. */
  datatype Fate = Waiting | Used | Overwritten

  /** What the statements after j and before i do with the value that atom `a` has after statement j. */
  ghost function FateOf(ss: seq<Stmt>, j: nat, i: nat, a: Atom): Fate
    requires AllMemOk(ss) && j < i <= |ss|
    decreases i
  {
    if i == j + 1 then Waiting
    else
      assert ss[i - 1] in ss;
      var f := FateOf(ss, j, i - 1, a);
      if f != Waiting then f
      else if a in AtomUse(ss[i - 1]) then Used
      else if AtomDef(ss[i - 1]) == Some(a) then Overwritten
      else Waiting
  }

  /** The dead stores among the atoms below `n`: what they define is overwritten before it is read, or read by
      no later statement, nor by the test, nor live at the exit. */
  ghost predicate DeadStore(ss: seq<Stmt>, test: Stmt, outUse: set<Atom>, n: nat, j: nat)
    requires AllMemOk(ss) && MemOk(test) && j < |ss|
  {
    assert ss[j] in ss;
    match AtomDef(ss[j])
    case None => false
    case Some(a) =>
      FateOf(ss, j, |ss|, a) == Overwritten
      || (FateOf(ss, j, |ss|, a) == Waiting && a !in AtomUse(test) && a !in outUse && a < n)
  }

  /** The statements without their dead stores. */
  ghost function Purged(ss: seq<Stmt>, test: Stmt, outUse: set<Atom>, n: nat): seq<Stmt>
    requires AllMemOk(ss) && MemOk(test)
  {
    seq(|ss|, j requires 0 <= j < |ss| => if DeadStore(ss, test, outUse, n, j) then Stmt(Nop, ss[j].k) else ss[j])
  }

  /** Where the walk stands after `i` statements of `ss0`: what has been overwritten unread is gone, and last[]
      knows the others that no one has read. */
  ghost predicate Swept(ss0: seq<Stmt>, ss: seq<Stmt>, i: nat, last: Last)
    requires AllMemOk(ss0)
  {
    && |ss| == |ss0| && i <= |ss|
    && (forall j {:trigger ss[j]} :: i <= j < |ss| ==> ss[j] == ss0[j])
    && (forall j {:trigger ss[j]} :: 0 <= j < i ==> SweptAt(ss0, ss[j], i, j, last))
    && (forall a {:trigger last[a]} :: 0 <= a < N_ATOMS && last[a] != -1 ==>
         0 <= last[a] < i && DefinesAt(ss0, last[a], a))
  }

  ghost predicate DefinesAt(ss: seq<Stmt>, j: int, a: Atom)
    requires AllMemOk(ss) && 0 <= j < |ss|
  {
    assert ss[j] in ss;
    AtomDef(ss[j]) == Some(a)
  }

  ghost predicate SweptAt(ss0: seq<Stmt>, s: Stmt, i: nat, j: nat, last: Last)
    requires AllMemOk(ss0) && j < i <= |ss0|
  {
    assert ss0[j] in ss0;
    match AtomDef(ss0[j])
    case None => s == ss0[j]
    case Some(a) =>
      && s == (if FateOf(ss0, j, i, a) == Overwritten then Stmt(Nop, ss0[j].k) else ss0[j])
      && (FateOf(ss0, j, i, a) == Waiting <==> last[a] == j)
  }

  /** Statement j deleted, if there is such a statement. */
  function Dropped(ss: seq<Stmt>, j: int): seq<Stmt> {
    if 0 <= j < |ss| then ss[j := Stmt(Nop, ss[j].k)] else ss
  }

  lemma SweptNext(ss0: seq<Stmt>, ss: seq<Stmt>, i: nat, last: Last, ss1: seq<Stmt>, last1: Last)
    requires AllMemOk(ss0) && AllMemOk(ss) && Swept(ss0, ss, i, last) && i < |ss|
    requires Noted(ss, i, last, ss1, last1)
    ensures Swept(ss0, ss1, i + 1, last1)
  {
    var s := ss0[i];
    assert s in ss0 && ss[i] == s;
    var l := Forget(last, AtomUse(s));
    forall j {:trigger ss1[j]} | 0 <= j < i + 1
      ensures SweptAt(ss0, ss1[j], i + 1, j, last1)
    {
      assert ss0[j] in ss0;
      if j < i {
        assert SweptAt(ss0, ss[j], i, j, last);
        SweptOne(ss0, ss, i, j, last, ss1, last1);
      }
    }
  }

  lemma SweptOne(ss0: seq<Stmt>, ss: seq<Stmt>, i: nat, j: nat, last: Last, ss1: seq<Stmt>, last1: Last)
    requires AllMemOk(ss0) && AllMemOk(ss) && |ss| == |ss0| && j < i < |ss| && ss[i] == ss0[i]
    requires SweptAt(ss0, ss[j], i, j, last) && Noted(ss, i, last, ss1, last1)
    requires forall a {:trigger last[a]} :: 0 <= a < N_ATOMS && last[a] != -1 ==>
               0 <= last[a] < i && DefinesAt(ss0, last[a], a)
    ensures |ss1| == |ss0| && SweptAt(ss0, ss1[j], i + 1, j, last1)
  {
    assert ss0[j] in ss0 && ss0[i] in ss0;
    match AtomDef(ss0[j])
    case None =>
    case Some(a) =>
      var f, f1 := FateOf(ss0, j, i, a), FateOf(ss0, j, i + 1, a);
      hide FateOf;
  }

  /** What deadstmt does at statement i. */
  ghost predicate Noted(ss: seq<Stmt>, i: nat, last: Last, ss1: seq<Stmt>, last1: Last)
    requires AllMemOk(ss) && i < |ss|
  {
    assert ss[i] in ss;
    var l := Forget(last, AtomUse(ss[i]));
    match AtomDef(ss[i])
    case None => ss1 == ss && last1 == l
    case Some(a) => ss1 == Dropped(ss, l[a]) && last1 == l[a := i]
  }

  /** deadstmt on a statement of the block. */
  method DeadStmt(i: nat, ss: seq<Stmt>, last: Last) returns (ss': seq<Stmt>, last': Last)
    requires AllMemOk(ss) && i < |ss| && LastOk(ss, i, last)
    ensures SameMem(ss, ss') && ss'[i..] == ss[i..] && LastOk(ss', i + 1, last') && Preserves(ss, ss', {})
    ensures Noted(ss, i, last, ss', last')
  {
    var s := ss[i];
    assert s in ss;
    ss', last' := ss, Forget(last, AtomUse(s));
    assert LastOk(ss, i, last') by {
      forall a {:trigger last'[a]} | 0 <= a < N_ATOMS && last'[a] != -1
        ensures LastAt(ss, i, last'[a], a)
      {
        assert last[a] != -1 && LastAt(ss, i, last[a], a);
      }
    }
    var atom := AtomDef(s);
    if atom.Some? {
      if last'[atom.value] != -1 {
        var j := last'[atom.value];
        Replaced(ss, i, last', atom.value);
        DeleteKeepsLast(ss, i, last', atom.value);
        ss' := ss[j := Stmt(Nop, ss[j].k)];
        last' := last'[atom.value := -1];
      }
      assert LastOk(ss', i, last') && last'[atom.value] == -1;
      NoteDefinition(ss', i, last', atom.value);
      last' := last'[atom.value := i];
    } else {
      forall a {:trigger last'[a]} | 0 <= a < N_ATOMS && last'[a] != -1
        ensures LastAt(ss', i + 1, last'[a], a)
      {
        assert LastAt(ss', i, last'[a], a);
      }
    }
  }

  lemma NoteDefinition(ss: seq<Stmt>, i: nat, last: Last, d: Atom)
    requires AllMemOk(ss) && i < |ss| && LastOk(ss, i, last) && last[d] == -1
    requires MemOk(ss[i]) && AtomDef(ss[i]) == Some(d) && forall a: Atom :: a in AtomUse(ss[i]) ==> last[a] == -1
    ensures LastOk(ss, i + 1, last[d := i])
  {
    var last1 := last[d := i];
    forall a {:trigger last1[a]} | 0 <= a < N_ATOMS && last1[a] != -1
      ensures LastAt(ss, i + 1, last1[a], a)
    {
      if a != d {
        assert LastAt(ss, i, last[a], a);
      }
    }
  }

  /** The final deletion of an atom's last definition. */
  lemma FinalDrop(ss: seq<Stmt>, last: Last, a: Atom)
    requires AllMemOk(ss) && LastOk(ss, |ss|, last) && last[a] != -1
    ensures Preserves(ss, ss[last[a] := Stmt(Nop, ss[last[a]].k)], {a})
  {
    var j := last[a];
    assert LastAt(ss, |ss|, j, a);
    forall s | s in ss[j + 1..]
      ensures s in ss && a !in AtomUse(s) && AtomDef(s) != Some(a)
    {
      var k :| 0 <= k < |ss[j + 1..]| && ss[j + 1..][k] == s;
      assert s == ss[j + 1 + k];
    }
    DropLast(ss, j, a);
  }

  /** What the block leaves for others is kept: the live atoms and the branch decision. */
  ghost predicate KeepsBlock(ss0: seq<Stmt>, ss1: seq<Stmt>, test: Stmt, outUse: set<Atom>) {
    forall st, p {:trigger ExecAll(ss0, st, p)} :: ExecAll(ss0, st, p).Some? ==>
      && ExecAll(ss1, st, p).Some?
      && AgreeOn(ExecAll(ss0, st, p).value, ExecAll(ss1, st, p).value, outUse)
      && (test.code.Jmp? ==> Taken(test, ExecAll(ss0, st, p).value) == Taken(test, ExecAll(ss1, st, p).value))
  }

  lemma PreservesBlock(ss0: seq<Stmt>, ss1: seq<Stmt>, test: Stmt, outUse: set<Atom>, dead: set<Atom>)
    requires MemOk(test) && Preserves(ss0, ss1, dead) && dead !! outUse && dead !! AtomUse(test)
    ensures KeepsBlock(ss0, ss1, test, outUse)
  {
    forall st, p {:trigger ExecAll(ss0, st, p)} | ExecAll(ss0, st, p).Some? && test.code.Jmp?
      ensures ExecAll(ss1, st, p).Some?
      ensures Taken(test, ExecAll(ss0, st, p).value) == Taken(test, ExecAll(ss1, st, p).value)
    {
      assert SameBut(ExecAll(ss0, st, p).value, ExecAll(ss1, st, p).value, dead);
      TakenAgree(test, ExecAll(ss0, st, p).value, ExecAll(ss1, st, p).value);
    }
  }

  /** The walk of deadstmt over the statements. */
  method DeadStmts(ss: seq<Stmt>) returns (ss': seq<Stmt>, last: Last)
    requires AllMemOk(ss)
    ensures SameMem(ss, ss') && LastOk(ss', |ss'|, last) && Preserves(ss, ss', {})
    ensures Swept(ss, ss', |ss|, last)
  {
    ss', last := ss, seq(N_ATOMS, _ => -1);
    for i := 0 to |ss|
      invariant SameMem(ss, ss') && LastOk(ss', i, last) && Preserves(ss, ss', {}) && Swept(ss, ss', i, last)
    {
      ghost var before, last0 := ss', last;
      ss', last := DeadStmt(i, ss', last);
      SweptNext(ss, before, i, last0, ss', last);
      ghost var none: set<Atom> := {};
      PreservesTrans(ss, before, ss', none, none);
      assert none + none == none;
    }
  }

  /** After the walk and the test nothing else is gone than what was overwritten unread. */
  lemma PurgeStart(ss0: seq<Stmt>, ss: seq<Stmt>, last: Last, test: Stmt, outUse: set<Atom>)
    requires AllMemOk(ss0) && MemOk(test) && Swept(ss0, ss, |ss0|, last)
    ensures ss == Purged(ss0, test, outUse, 0)
  {
    hide FateOf;
    forall j {:trigger ss[j]} | 0 <= j < |ss|
      ensures ss[j] == Purged(ss0, test, outUse, 0)[j]
    {
      assert SweptAt(ss0, ss[j], |ss0|, j, last) && ss0[j] in ss0;
    }
  }

  /** One more atom. */
  lemma PurgeStep(ss0: seq<Stmt>, swept: seq<Stmt>, last0: Last, test: Stmt, outUse: set<Atom>, n: nat, ss: seq<Stmt>)
    requires AllMemOk(ss0) && MemOk(test) && n < N_ATOMS && Swept(ss0, swept, |ss0|, last0)
    requires ss == Purged(ss0, test, outUse, n)
    ensures Purged(ss0, test, outUse, n + 1) ==
        if n !in outUse then Dropped(ss, Forget(last0, AtomUse(test))[n]) else ss
  {
    hide FateOf;
    var ss1 := if n !in outUse then Dropped(ss, Forget(last0, AtomUse(test))[n]) else ss;
    forall j {:trigger ss1[j]} | 0 <= j < |ss0|
      ensures ss1[j] == Purged(ss0, test, outUse, n + 1)[j]
    {
      assert SweptAt(ss0, swept[j], |ss0|, j, last0) && ss0[j] in ss0;
    }
    assert |ss1| == |ss0|;
  }

  /** What is not read until the end is not defined until the end either. */
  lemma {:induction false} WaitingLast(ss: seq<Stmt>, j: nat, i: nat, a: Atom)
    requires AllMemOk(ss) && j < i <= |ss| && FateOf(ss, j, i, a) == Waiting
    ensures forall k {:trigger ss[k]} :: j < k < i ==> !Defines(ss[k], a)
    decreases i
  {
    if i > j + 1 {
      assert ss[i - 1] in ss;
      WaitingLast(ss, j, i - 1, a);
    }
  }

  lemma SweptLast(ss0: seq<Stmt>, ss: seq<Stmt>, last: Last, a: Atom)
    requires AllMemOk(ss0) && Swept(ss0, ss, |ss0|, last) && last[a] != -1
    ensures LastDef(ss0, last[a], a)
  {
    var j := last[a];
    assert 0 <= j < |ss0| && DefinesAt(ss0, j, a) && ss0[j] in ss0;
    assert SweptAt(ss0, ss[j], |ss0|, j, last);
    WaitingLast(ss0, j, |ss0|, a);
  }

  /** A last definition that is deleted is of an atom that is not live. */
  lemma PurgedGone(ss: seq<Stmt>, test: Stmt, outUse: set<Atom>)
    requires AllMemOk(ss) && MemOk(test)
    ensures Gone(ss, Purged(ss, test, outUse, N_ATOMS)) !! outUse
  {
    var ss1 := Purged(ss, test, outUse, N_ATOMS);
    forall a | a in Gone(ss, ss1)
      ensures a !in outUse
    {
      var j: nat :| LastDef(ss, j, a) && Deleted(ss1, j);
      assert ss[j] in ss;
      NotOverwritten(ss, j, |ss|, a);
    }
  }

  lemma {:induction false} NotOverwritten(ss: seq<Stmt>, j: nat, i: nat, a: Atom)
    requires AllMemOk(ss) && j < i <= |ss| && LastDef(ss, j, a)
    ensures FateOf(ss, j, i, a) != Overwritten
    decreases i
  {
    if i > j + 1 {
      assert ss[i - 1] in ss;
      NotOverwritten(ss, j, i - 1, a);
    }
  }

  /** opt_deadstores deletes exactly the dead stores. The atoms it gives up are those whose last definition is deleted;
      none of them is live. The block keeps its branch decision and every other atom on every run that does not
      fault. */
  method OptDeadstores(b: Block)
    requires AllMemOk(b.stmts) && MemOk(b.s)
    modifies b`stmts
    ensures SameMem(old(b.stmts), b.stmts) && KeepsBlock(old(b.stmts), b.stmts, b.s, b.outUse)
    ensures b.stmts == Purged(old(b.stmts), b.s, b.outUse, N_ATOMS)
    ensures KeepsBlock(old(b.stmts), b.stmts, b.s, AllAtoms() - Gone(old(b.stmts), b.stmts))
    ensures Gone(old(b.stmts), b.stmts) !! b.outUse
  {
    var ss0, test, outUse := b.stmts, b.s, b.outUse;
    var ss, last := DeadStmts(ss0);
    ghost var swept, last0 := ss, last;
    PurgeStart(ss0, ss, last, test, outUse);
    last := Forget(last, AtomUse(test));
    assert LastOk(ss, |ss|, last);
    ghost var dead: set<Atom> := {};
    hide Purged, Swept, GoneAt;
    for atom := 0 to N_ATOMS
      invariant SameMem(ss0, ss) && LastOk(ss, |ss|, last) && Preserves(ss0, ss, dead)
      invariant dead !! outUse && dead !! AtomUse(test)
      invariant forall a: Atom :: a in AtomUse(test) ==> last[a] == -1
      invariant forall a: Atom :: atom <= a ==> last[a] == Forget(last0, AtomUse(test))[a]
      invariant ss == Purged(ss0, test, outUse, atom) && dead <= Gone(ss0, ss)
    {
      PurgeStep(ss0, swept, last0, test, outUse, atom, ss);
      if last[atom] != -1 && atom !in outUse {
        var j := last[atom];
        SweptLast(ss0, swept, last0, atom);
        GoneOne(ss0, ss, j, ss[j].k, atom);
        FinalDrop(ss, last, atom);
        DeleteKeepsLast(ss, |ss|, last, atom);
        ghost var before := ss;
        ss := ss[j := Stmt(Nop, ss[j].k)];
        PreservesTrans(ss0, before, ss, dead, {atom});
        dead := dead + {atom};
        last := last[atom := -1];
      }
    }
    PreservesBlock(ss0, ss, test, outUse, dead);
    PreservesBlock(ss0, ss, test, AllAtoms() - Gone(ss0, ss), dead);
    PurgedGone(ss0, test, outUse);
    b.stmts := ss;
  }

  // ----- The whole graph -----

  /** `g1` is `g` after opt_deadstores on its blocks. */
  ghost predicate DeadStoresGone(g: Graph, g1: Graph, rank: map<Block, nat>)
    requires Dag(g, rank) && GraphMemOk(g)
  {
    && g.Keys == g1.Keys
    && forall b {:trigger g1[b]} :: b in g ==>
         && g1[b] == Node(g1[b].stmts, g[b].test, g[b].jt, g[b].jf)
         && KeepsBlock(g[b].stmts, g1[b].stmts, g[b].test, OutUse(g, rank, b))
  }

  /** Dead-store removal keeps the verdict of every run that does not fault. */
  lemma {:induction false} DeadStoresKeepRun(g: Graph, g1: Graph, rank: map<Block, nat>, b: Block, st: State,
                                             st': State, p: Packet, fuel: nat)
    requires Dag(g, rank) && GraphMemOk(g) && b in g && DeadStoresGone(g, g1, rank)
    requires AgreeOn(st, st', InUse(g, rank, b)) && Run(g, b, st, p, fuel) != Faulted
    ensures Run(g1, b, st', p, fuel) == Run(g, b, st, p, fuel)
    decreases fuel
  {
    if fuel > 0 {
      BlockAgree(g, rank, b, st, st', p);
      assert DagNode(g, rank, b);
      assert g1[b].stmts == g1[b].stmts;
      var st1, st1' := ExecAll(g[b].stmts, st, p).value, ExecAll(g[b].stmts, st', p).value;
      var st2 := ExecAll(g1[b].stmts, st', p).value;
      if g[b].test.code.Jmp? {
        var c := Succ(g[b], Taken(g[b].test, st1));
        assert InUse(g, rank, c) <= OutUse(g, rank, b);
        assert AgreeOn(st1, st2, InUse(g, rank, c));
        DeadStoresKeepRun(g, g1, rank, c, st1, st2, p, fuel - 1);
      }
    }
  }
}
