/** The indexed-load rule of opt_peep when a later statement of the block copies X: what the copy is worth. */
module LateX {
  import opened Bpf
  import opened Atoms
  import opened DeadStores
  import opened LiveStmts
  import opened PeepStmts

  /** `txa` or `stx`: copies X. */
  predicate Copies(r: Stmt) {
    r.code in {Txa, Stx} && MemOk(r)
  }

  /** Where to. */
  function CopyOf(r: Stmt): Atom
    requires Copies(r)
  {
    if r.code == Txa then A_ATOM else r.k
  }

  /** Statements that do not touch X carry a difference in X along. */
  lemma {:induction false} MidRuns(mid: seq<Stmt>, st: State, st': State, p: Packet)
    requires AllMemOk(mid) && Untouched(mid, X_ATOM) && SameBut(st, st', {X_ATOM}) && ExecAll(mid, st, p).Some?
    ensures ExecAll(mid, st', p).Some?
    ensures var (e, e') := (ExecAll(mid, st, p).value, ExecAll(mid, st', p).value);
            SameBut(e, e', {X_ATOM}) && e[X_ATOM] == st[X_ATOM] && e'[X_ATOM] == st'[X_ATOM]
    decreases |mid|
  {
    if mid != [] {
      assert mid[0] in mid && forall s :: s in mid[1..] ==> s in mid;
      assert forall k {:trigger mid[1..][k]} :: 0 <= k < |mid[1..]| ==> mid[1..][k] == mid[k + 1];
      UseDefExact(mid[0], st, st', p);
      MidRuns(mid[1..], Exec(mid[0], st, p).value, Exec(mid[0], st', p).value, p);
    }
  }

  /** The copy differs unless the constant is 0; nothing else does but X. */
  ghost predicate Apart(e: State, e': State, to: Atom, k: Word) {
    (e[to] == e'[to] <==> k == 0) && SameBut(e, e', {X_ATOM, to})
  }

  lemma CopyDiffers(mid: seq<Stmt>, r: Stmt, st: State, st': State, p: Packet, k: Word)
    requires AllMemOk(mid) && Untouched(mid, X_ATOM) && SameBut(st, st', {X_ATOM}) && Copies(r)
    requires st[X_ATOM] == Wrap(k + st'[X_ATOM]) && ExecAll(mid + [r], st, p).Some?
    ensures ExecAll(mid + [r], st', p).Some?
    ensures Apart(ExecAll(mid + [r], st, p).value, ExecAll(mid + [r], st', p).value, CopyOf(r), k)
  {
    ExecAllConcat(mid, [r], st, p);
    ExecAllConcat(mid, [r], st', p);
    hide ExecAll;
    MidRuns(mid, st, st', p);
    var e, e' := ExecAll(mid, st, p).value, ExecAll(mid, st', p).value;
    ExecLast(r, e, p);
    ExecLast(r, e', p);
    assert Exec(r, e, p) == Some(e[CopyOf(r) := e[X_ATOM]]) && Exec(r, e', p) == Some(e'[CopyOf(r) := e'[X_ATOM]]);
  }

  lemma ExecLast(r: Stmt, st: State, p: Packet)
    ensures ExecAll([r], st, p) == Exec(r, st, p)
  {
    hide Exec;
    assert [r][1..] == [];
  }

  /** The four statements, and the one load they become. */
  lemma HeadCopies(ld: Stmt, add: Stmt, tax: Stmt, ild: Stmt, mid: seq<Stmt>, r: Stmt, st: State, p: Packet)
    requires ld.code == LdImm && add.code == Alu(ADD, X) && tax.code == Tax && ild.code.LdInd?
    requires AllMemOk(mid) && Untouched(mid, X_ATOM) && Copies(r)
    requires ExecAll([ld] + ([add] + ([tax] + ([ild] + (mid + [r])))), st, p).Some?
    ensures var to := [Stmt(ild.code, Wrap(ild.k + ld.k))] + (mid + [r]);
            && ExecAll(to, st, p).Some?
            && Apart(ExecAll([ld] + ([add] + ([tax] + ([ild] + (mid + [r])))), st, p).value, ExecAll(to, st, p).value,
                     CopyOf(r), ld.k)
  {
    var rest, ild1 := mid + [r], Stmt(ild.code, Wrap(ild.k + ld.k));
    var x := Wrap(ld.k + st[X_ATOM]);
    var st1 := st[A_ATOM := ld.k];
    var st2 := st1[A_ATOM := x];
    var st3 := st2[X_ATOM := x];
    assert Exec(ld, st, p) == Some(st1) && Exec(add, st1, p) == Some(st2) && Exec(tax, st2, p) == Some(st3);
    ExecList(ld, [add] + ([tax] + ([ild] + rest)), st, p);
    ExecList(add, [tax] + ([ild] + rest), st1, p);
    ExecList(tax, [ild] + rest, st2, p);
    ExecList(ild, rest, st3, p);
    ExecList(ild1, rest, st, p);
    IndLoads(ld, ild, st, st3, p);
    IndKeepsX(ild, st3, p);
    IndKeepsX(ild1, st, p);
    hide ExecAll, Exec, Apart, Untouched, AllMemOk;
    CopyDiffers(mid, r, Exec(ild, st3, p).value, Exec(ild1, st, p).value, p, ld.k);
  }

  lemma IndKeepsX(ild: Stmt, st: State, p: Packet)
    requires ild.code.LdInd?
    ensures Exec(ild, st, p).Some? ==> Exec(ild, st, p).value[X_ATOM] == st[X_ATOM]
  {
    hide LoadAt;
  }

  /** The same with the header-length load in between. */
  lemma HeadCopiesMsh(ld: Stmt, msh: Stmt, add: Stmt, tax: Stmt, ild: Stmt, mid: seq<Stmt>, r: Stmt, st: State,
                      p: Packet)
    requires ld.code == LdImm && msh.code == LdxMsh && add.code == Alu(ADD, X) && tax.code == Tax && ild.code.LdInd?
    requires AllMemOk(mid) && Untouched(mid, X_ATOM) && Copies(r)
    requires ExecAll([ld] + ([msh] + ([add] + ([tax] + ([ild] + (mid + [r]))))), st, p).Some?
    ensures var to := [msh] + ([Stmt(ild.code, Wrap(ild.k + ld.k))] + (mid + [r]));
            && ExecAll(to, st, p).Some?
            && Apart(ExecAll([ld] + ([msh] + ([add] + ([tax] + ([ild] + (mid + [r]))))), st, p).value,
                     ExecAll(to, st, p).value, CopyOf(r), ld.k)
  {
    var rest, ild1 := mid + [r], Stmt(ild.code, Wrap(ild.k + ld.k));
    var tail := [add] + ([tax] + ([ild] + rest));
    ExecList(ld, [msh] + tail, st, p);
    var st1 := st[A_ATOM := ld.k];
    ExecList(msh, tail, st1, p);
    ExecList(msh, [ild1] + rest, st, p);
    var w := Result(msh, st1, p).value;
    assert Exec(msh, st1, p) == Some(st1[X_ATOM := w]) && Exec(msh, st, p) == Some(st[X_ATOM := w]);
    assert st1[X_ATOM := w] == st[X_ATOM := w][A_ATOM := ld.k];
    ExecList(ld, tail, st[X_ATOM := w], p);
    hide ExecAll, Apart, Untouched, AllMemOk;
    HeadCopies(ld, add, tax, ild, mid, r, st[X_ATOM := w], p);
  }

  /** Up to the first later statement that touches X, if that copies it: the rule leaves the copy as it was if and
      only if the constant that it folds away is 0. */
  lemma LateCopy(ss: seq<Stmt>, i: nat, x: Idx, mid: seq<Stmt>, r: Stmt, st: State, p: Packet)
    requires i < |ss| && Pattern(ss, i) == Some(x) && From(ss, x.ild + 1) == mid + [r]
    requires AllMemOk(mid) && Untouched(mid, X_ATOM) && Copies(r) && ExecAll(ss, st, p).Some?
    ensures ExecAll(Folded(ss, i, x), st, p).Some?
    ensures Apart(ExecAll(ss, st, p).value, ExecAll(Folded(ss, i, x), st, p).value, CopyOf(r), ss[i].k)
  {
    hide *;
    PatternGaps(ss, i, x);
    FoldedAre(ss, i, x);
    PatternLive(ss, i, x);
    PatternFolded(ss, i, x);
    var ss1 := Folded(ss, i, x);
    BySuffix(ss, i, st, p);
    BySuffix(ss1, i, st, p);
    var st0 := ExecAll(ss[..i], st, p).value;
    if x.next < x.add {
      HeadCopiesMsh(ss[i], ss[x.next], ss[x.add], ss[x.tax], ss[x.ild], mid, r, st0, p);
    } else {
      HeadCopies(ss[i], ss[x.add], ss[x.tax], ss[x.ild], mid, r, st0, p);
    }
  }

  lemma BySuffix(ss: seq<Stmt>, i: nat, st: State, p: Packet)
    requires i <= |ss|
    ensures ExecAll(ss, st, p)
        == match ExecAll(ss[..i], st, p) case Some(st1) => ExecAll(From(ss, i), st1, p) case None => None
  {
    assert ss == ss[..i] + ss[i..];
    ExecAllConcat(ss[..i], ss[i..], st, p);
    var st1 := ExecAll(ss[..i], st, p);
    if st1.Some? {
      LiveMeaning(ss[i..], st1.value, p);
    }
  }
}
