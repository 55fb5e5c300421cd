/** What a block gives up when statements are deleted: the atoms whose last definition is among them. */
module LastDefs {
  import opened Bpf
  import opened Atoms
  import opened LiveStmts

  predicate Defines(s: Stmt, a: Atom) {
    MemOk(s) && AtomDef(s) == Some(a)
  }

  /** Statement j is the last one that defines `a`. */
  ghost predicate LastDef(ss: seq<Stmt>, j: int, a: Atom) {
    && 0 <= j < |ss| && Defines(ss[j], a)
    && forall k {:trigger ss[k]} :: j < k < |ss| ==> !Defines(ss[k], a)
  }

  predicate Deleted(ss: seq<Stmt>, j: nat) {
    j >= |ss| || ss[j].code == Nop
  }

  ghost predicate GoneAt(ss0: seq<Stmt>, ss: seq<Stmt>, a: Atom) {
    exists j: nat {:trigger LastDef(ss0, j, a)} :: LastDef(ss0, j, a) && Deleted(ss, j)
  }

  /** The atoms whose last definition in `ss0` has been deleted in `ss`. */
  ghost function Gone(ss0: seq<Stmt>, ss: seq<Stmt>): (r: set<Atom>)
    ensures forall a: Atom {:trigger a in r} :: a in r <==> GoneAt(ss0, ss, a)
  {
    set a: Atom | 0 <= a < N_ATOMS && GoneAt(ss0, ss, a)
  }

  ghost function AtomsBelow(n: nat): (r: set<Atom>)
    requires n <= N_ATOMS
    ensures forall a: Atom :: a in r <==> a < n
  {
    if n == 0 then {} else AtomsBelow(n - 1) + {n - 1}
  }

  ghost function AllAtoms(): (r: set<Atom>)
    ensures forall a: Atom :: a in r
  {
    AtomsBelow(N_ATOMS)
  }

  /** Nothing is deleted in `ss1` that was not in `ss`. */
  ghost predicate NoneDeleted(ss: seq<Stmt>, ss1: seq<Stmt>) {
    |ss1| == |ss| && forall k {:trigger ss1[k]} :: 0 <= k < |ss| && ss1[k].code == Nop ==> ss[k].code == Nop
  }

  lemma GoneLess(ss0: seq<Stmt>, ss: seq<Stmt>, ss1: seq<Stmt>)
    requires NoneDeleted(ss, ss1)
    ensures Gone(ss0, ss1) <= Gone(ss0, ss)
  {
    forall a | a in Gone(ss0, ss1)
      ensures a in Gone(ss0, ss)
    {
      var j: nat :| LastDef(ss0, j, a) && Deleted(ss1, j);
      assert Deleted(ss, j);
    }
  }

  lemma GoneMore(ss0: seq<Stmt>, ss: seq<Stmt>, ss1: seq<Stmt>)
    requires NoneRevived(ss, ss1)
    ensures Gone(ss0, ss) <= Gone(ss0, ss1)
  {
    forall a | a in Gone(ss0, ss)
      ensures a in Gone(ss0, ss1)
    {
      var j: nat :| LastDef(ss0, j, a) && Deleted(ss, j);
      assert Deleted(ss1, j);
    }
  }

  lemma NothingGone(ss: seq<Stmt>)
    ensures Gone(ss, ss) == {}
  {
    forall a: Atom
      ensures a !in Gone(ss, ss)
    {
    }
  }

  /** Deleting the last definition of `a`. */
  lemma GoneOne(ss0: seq<Stmt>, ss: seq<Stmt>, j: nat, k: Word, a: Atom)
    requires j < |ss| == |ss0| && LastDef(ss0, j, a)
    ensures Gone(ss0, ss[j := Stmt(Nop, k)]) == Gone(ss0, ss) + {a}
  {
    var ss1 := ss[j := Stmt(Nop, k)];
    GoneMore(ss0, ss, ss1);
    assert Deleted(ss1, j);
    forall b | b in Gone(ss0, ss1)
      ensures b in Gone(ss0, ss) + {a}
    {
      var i: nat :| LastDef(ss0, i, b) && Deleted(ss1, i);
      assert i != j ==> Deleted(ss, i);
    }
  }

  /** What is defined at all has a last definition. */
  lemma {:induction false} HasLast(ss: seq<Stmt>, k: nat, a: Atom)
    requires k < |ss| && Defines(ss[k], a)
    ensures a in Gone(ss, [])
    decreases |ss| - k
  {
    if j: nat :| k < j < |ss| && Defines(ss[j], a) {
      HasLast(ss, j, a);
    } else {
      assert LastDef(ss, k, a) && Deleted([], k);
    }
  }

  /** The other atoms the statements leave as they are. */
  lemma {:induction false} OthersStay(ss: seq<Stmt>, st: State, p: Packet, a: Atom)
    requires AllMemOk(ss) && ExecAll(ss, st, p).Some?
    requires forall k {:trigger ss[k]} :: 0 <= k < |ss| ==> !Defines(ss[k], a)
    ensures ExecAll(ss, st, p).value[a] == st[a]
    decreases |ss|
  {
    if ss != [] {
      assert ss[0] in ss && forall s :: s in ss[1..] ==> s in ss;
      UseDefExact(ss[0], st, st, p);
      assert forall k {:trigger ss[1..][k]} :: 0 <= k < |ss| - 1 ==> ss[1..][k] == ss[k + 1];
      OthersStay(ss[1..], Exec(ss[0], st, p).value, p, a);
    }
  }

  lemma AllGone(ss: seq<Stmt>, st: State, p: Packet, a: Atom)
    requires AllMemOk(ss) && ExecAll(ss, st, p).Some? && a !in Gone(ss, [])
    ensures ExecAll(ss, st, p).value[a] == st[a]
  {
    forall k {:trigger ss[k]} | 0 <= k < |ss|
      ensures !Defines(ss[k], a)
    {
      if Defines(ss[k], a) {
        HasLast(ss, k, a);
      }
    }
    hide Gone, ExecAll;
    OthersStay(ss, st, p, a);
  }
}
