/** The statement rewritings of opt_peep. */
module PeepStmts {
  import opened Bpf
  import opened Atoms
  import opened LiveStmts
  import opened DeadStores

  // ----- this_op -----

  function ThisOpAt(ss: seq<Stmt>, i: nat): (r: nat)
    requires i <= |ss|
    ensures i <= r <= |ss| && (r < |ss| ==> ss[r].code != Nop)
    ensures forall k :: i <= k < r ==> ss[k].code == Nop
    decreases |ss| - i
  {
    if i < |ss| && ss[i].code == Nop then ThisOpAt(ss, i + 1) else i
  }

  method ThisOp(ss: seq<Stmt>, i: nat) returns (r: nat)
    requires i <= |ss|
    ensures r == ThisOpAt(ss, i)
  {
    r := i;
    while r < |ss| && ss[r].code == Nop
      invariant i <= r <= |ss| && ThisOpAt(ss, r) == ThisOpAt(ss, i)
    {
      r := r + 1;
    }
  }

  lemma {:induction false} ThisOpSame(ss: seq<Stmt>, ss1: seq<Stmt>, i: nat)
    requires |ss| == |ss1| && i <= |ss| && ss[i..] == ss1[i..]
    ensures ThisOpAt(ss, i) == ThisOpAt(ss1, i)
    decreases |ss| - i
  {
    if i < |ss| {
      assert ss[i] == ss[i..][0] == ss1[i..][0] == ss1[i];
      assert ss[i + 1..] == ss[i..][1..] == ss1[i..][1..] == ss1[i + 1..];
      ThisOpSame(ss, ss1, i + 1);
    }
  }

  // ----- Rewriting a suffix -----

  /** The live statements from `i` on. */
  ghost function From(ss: seq<Stmt>, i: nat): seq<Stmt>
    requires i <= |ss|
  {
    Live(ss[i..])
  }

  function One(s: Stmt): seq<Stmt> {
    if s.code == Nop then [] else [s]
  }

  lemma LiveFrom(ss: seq<Stmt>, i: nat)
    requires i < |ss|
    ensures From(ss, i) == One(ss[i]) + From(ss, i + 1)
  {
    assert ss[i..][0] == ss[i] && ss[i..][1..] == ss[i + 1..];
  }

  lemma {:induction false} LiveNops(ss: seq<Stmt>, i: nat, j: nat)
    requires i <= j <= |ss| && forall k :: i <= k < j ==> ss[k].code == Nop
    ensures From(ss, i) == From(ss, j)
    decreases j - i
  {
    if i < j {
      LiveFrom(ss, i);
      LiveNops(ss, i + 1, j);
    }
  }

  /** What the live statements from i on do, the whole list does. */
  lemma SuffixPreserves(ss: seq<Stmt>, ss1: seq<Stmt>, i: nat, dead: set<Atom>)
    requires i <= |ss| == |ss1| && ss[..i] == ss1[..i] && Preserves(From(ss, i), From(ss1, i), dead)
    ensures Preserves(ss, ss1, dead)
  {
    forall st, p {:trigger ExecAll(ss, st, p)} | ExecAll(ss, st, p).Some?
      ensures ExecAll(ss1, st, p).Some? && SameBut(ExecAll(ss, st, p).value, ExecAll(ss1, st, p).value, dead)
    {
      assert ss == ss[..i] + ss[i..] && ss1 == ss1[..i] + ss1[i..];
      ExecAllConcat(ss[..i], ss[i..], st, p);
      ExecAllConcat(ss1[..i], ss1[i..], st, p);
      var st1 := ExecAll(ss[..i], st, p).value;
      LiveMeaning(ss[i..], st1, p);
      LiveMeaning(ss1[i..], st1, p);
      assert ExecAll(From(ss, i), st1, p).Some?;
    }
  }

  lemma ExecList(s: Stmt, ss: seq<Stmt>, st: State, p: Packet)
    ensures ExecAll([s] + ss, st, p) == match Exec(s, st, p) case Some(st1) => ExecAll(ss, st1, p) case None => None
  {
    assert ([s] + ss)[1..] == ss;
  }

  /** The first two rules: `st M[k]; ldx M[k]` and `ld #k; tax`. */
  ghost predicate PairRule(a: Stmt, b: Stmt, a1: Stmt, b1: Stmt) {
    || (a.code == St && b.code == LdxMem && a.k == b.k && a1 == a && b1 == Stmt(Tax, b.k))
    || (a.code == LdImm && b.code == Tax && a1 == Stmt(LdxImm, a.k) && b1 == Stmt(Txa, b.k))
  }

  lemma PairSound(a: Stmt, b: Stmt, a1: Stmt, b1: Stmt, rest: seq<Stmt>)
    requires PairRule(a, b, a1, b1)
    ensures Preserves([a] + ([b] + rest), [a1] + ([b1] + rest), {})
  {
    forall st, p {:trigger ExecAll([a] + ([b] + rest), st, p)} | ExecAll([a] + ([b] + rest), st, p).Some?
      ensures ExecAll([a1] + ([b1] + rest), st, p) == ExecAll([a] + ([b] + rest), st, p)
    {
      ExecList(a, [b] + rest, st, p);
      ExecList(a1, [b1] + rest, st, p);
      var st1, st2 := Exec(a, st, p).value, Exec(a1, st, p).value;
      ExecList(b, rest, st1, p);
      ExecList(b1, rest, st2, p);
      if a.code == LdImm {
        assert st[A_ATOM := a.k][X_ATOM := a.k] == st[X_ATOM := a.k][A_ATOM := a.k];
      }
    }
  }

  /** `ss1` is the list with a pair replaced, live at i and n with only deleted statements between. */
  ghost predicate PairReplaced(ss: seq<Stmt>, ss1: seq<Stmt>, i: nat, n: nat) {
    && i < n < |ss| == |ss1| && ss1[..i] == ss[..i] && PairRule(ss[i], ss[n], ss1[i], ss1[n])
    && (forall k :: n < k < |ss| ==> ss1[k] == ss[k])
    && (forall k :: i < k < n ==> ss[k].code == Nop && ss1[k].code == Nop)
  }

  lemma PairParts(ss: seq<Stmt>, ss1: seq<Stmt>, i: nat, n: nat)
    requires PairReplaced(ss, ss1, i, n)
    ensures From(ss, i) == [ss[i]] + ([ss[n]] + From(ss, n + 1))
    ensures From(ss1, i) == [ss1[i]] + ([ss1[n]] + From(ss, n + 1))
  {
    FromSame(ss, ss1, n + 1);
    PairLive(ss, i, n);
    PairLive(ss1, i, n);
    hide From;
  }

  lemma PairPreserves(ss: seq<Stmt>, ss1: seq<Stmt>, i: nat, n: nat)
    requires PairReplaced(ss, ss1, i, n)
    ensures Preserves(ss, ss1, {})
  {
    PairParts(ss, ss1, i, n);
    PairSound(ss[i], ss[n], ss1[i], ss1[n], From(ss, n + 1));
    hide From, Preserves;
    SuffixPreserves(ss, ss1, i, {});
  }

  lemma PairAt(ss: seq<Stmt>, i: nat, n: nat, a1: Stmt, b1: Stmt)
    requires i < |ss| && n == ThisOpAt(ss, i + 1) < |ss| && PairRule(ss[i], ss[n], a1, b1)
    ensures Preserves(ss, ss[i := a1][n := b1], {})
  {
    PairPreserves(ss, ss[i := a1][n := b1], i, n);
    hide Preserves;
  }

  lemma FromSame(ss: seq<Stmt>, ss1: seq<Stmt>, i: nat)
    requires i <= |ss| == |ss1| && forall k :: i <= k < |ss| ==> ss[k] == ss1[k]
    ensures From(ss, i) == From(ss1, i)
  {
    assert ss[i..] == ss1[i..];
  }

  lemma PairLive(ss: seq<Stmt>, i: nat, n: nat)
    requires i < n < |ss| && forall k :: i < k < n ==> ss[k].code == Nop
    ensures From(ss, i) == One(ss[i]) + (One(ss[n]) + From(ss, n + 1))
  {
    hide From, One, Live;
    LiveFrom(ss, i);
    LiveNops(ss, i + 1, n);
    LiveFrom(ss, n);
  }

  // ----- The indexed load with a constant offset -----

  /** The four or five statements `ld #k; [ldxms;] add x; tax; ld [x + k']`: where the second,
      the addition, the transfer and the load are. */
  datatype Idx = Idx(next: nat, add: nat, tax: nat, ild: nat)

  function Pattern(ss: seq<Stmt>, i: nat): (r: Option<Idx>)
    requires i < |ss|
    ensures r.Some? ==> i < r.value.next <= r.value.add < r.value.tax < r.value.ild < |ss|
  {
    if ss[i].code != LdImm then None
    else
      var n := ThisOpAt(ss, i + 1);
      if n == |ss| then None
      else AddTaxLoad(ss, n, if ss[n].code == LdxMsh then ThisOpAt(ss, n + 1) else n)
  }

  /** From the addition on. */
  function AddTaxLoad(ss: seq<Stmt>, n: nat, a: nat): (r: Option<Idx>)
    requires n <= a <= |ss|
    ensures r.Some? ==> n == r.value.next && a == r.value.add < r.value.tax < r.value.ild < |ss|
  {
    if a == |ss| || ss[a].code != Alu(ADD, X) then None
    else
      var t := ThisOpAt(ss, a + 1);
      if t == |ss| || ss[t].code != Tax then None
      else
        var m := ThisOpAt(ss, t + 1);
        if m == |ss| || !ss[m].code.LdInd? then None
        else Some(Idx(n, a, t, m))
  }

  function Folded(ss: seq<Stmt>, i: nat, x: Idx): seq<Stmt>
    requires i < x.next <= x.add < x.tax < x.ild < |ss|
  {
    ss[x.ild := Stmt(ss[x.ild].code, Wrap(ss[x.ild].k + ss[i].k))]
      [i := Stmt(Nop, ss[i].k)][x.add := Stmt(Nop, ss[x.add].k)][x.tax := Stmt(Nop, ss[x.tax].k)]
  }

  ghost predicate Gaps(ss: seq<Stmt>, i: nat, x: Idx) {
    && i < x.next <= x.add < x.tax < x.ild < |ss|
    && (forall k :: i < k < x.next || x.next < k < x.add || x.add < k < x.tax || x.tax < k < x.ild ==>
         ss[k].code == Nop)
  }

  /** Where the pattern stands, and what lies between. */
  lemma PatternGaps(ss: seq<Stmt>, i: nat, x: Idx)
    requires i < |ss| && Pattern(ss, i) == Some(x)
    ensures Gaps(ss, i, x) && ss[i].code == LdImm && ss[x.add].code == Alu(ADD, X) && ss[x.tax].code == Tax
    ensures ss[x.ild].code.LdInd?
    ensures x.next < x.add ==> ss[x.next].code == LdxMsh
  {
  }

  ghost function Tail(ss: seq<Stmt>, x: Idx): seq<Stmt>
    requires x.add < |ss| && x.tax < |ss| && x.ild < |ss|
  {
    One(ss[x.add]) + (One(ss[x.tax]) + (One(ss[x.ild]) + From(ss, x.ild + 1)))
  }

  lemma TailChain(ss: seq<Stmt>, i: nat, x: Idx)
    requires Gaps(ss, i, x)
    ensures From(ss, x.add) == Tail(ss, x)
  {
    hide From, One, Live;
    LiveFrom(ss, x.add);
    LiveNops(ss, x.add + 1, x.tax);
    PairLive(ss, x.tax, x.ild);
  }

  lemma Chain(ss: seq<Stmt>, i: nat, x: Idx)
    requires Gaps(ss, i, x)
    ensures x.next == x.add ==> From(ss, i) == One(ss[i]) + Tail(ss, x)
    ensures x.next < x.add ==> From(ss, i) == One(ss[i]) + (One(ss[x.next]) + Tail(ss, x))
  {
    hide Tail, From, One, Live;
    TailChain(ss, i, x);
    if x.next < x.add {
      PairLive(ss, i, x.next);
      LiveNops(ss, x.next + 1, x.add);
    } else {
      LiveFrom(ss, i);
      LiveNops(ss, i + 1, x.add);
    }
  }

  /** X is not read before it is written again, by the statements or else by the branch. */
  ghost predicate XDead(ss: seq<Stmt>, test: Stmt)
    requires AllMemOk(ss) && MemOk(test)
    decreases |ss|
  {
    if ss == [] then X_ATOM !in AtomUse(test)
    else
      assert ss[0] in ss && forall s :: s in ss[1..] ==> s in ss;
      X_ATOM !in AtomUse(ss[0]) && (AtomDef(ss[0]) == Some(X_ATOM) || XDead(ss[1..], test))
  }

  /** The atoms in which a run differs at the end when it starts with another X. */
  ghost function XLeft(ss: seq<Stmt>): set<Atom>
    requires AllMemOk(ss)
    decreases |ss|
  {
    if ss == [] then {X_ATOM}
    else
      assert ss[0] in ss && forall s :: s in ss[1..] ==> s in ss;
      if AtomDef(ss[0]) == Some(X_ATOM) then {} else XLeft(ss[1..])
  }

  lemma {:induction false} XDeadRun(ss: seq<Stmt>, test: Stmt, st: State, st': State, p: Packet)
    requires AllMemOk(ss) && MemOk(test) && XDead(ss, test) && ExecAll(ss, st, p).Some? && SameBut(st, st', {X_ATOM})
    ensures ExecAll(ss, st', p).Some? && SameBut(ExecAll(ss, st, p).value, ExecAll(ss, st', p).value, XLeft(ss))
    decreases |ss|
  {
    if ss != [] {
      assert ss[0] in ss && forall s :: s in ss[1..] ==> s in ss;
      UseDefExact(ss[0], st, st', p);
      var st1, st1' := Exec(ss[0], st, p).value, Exec(ss[0], st', p).value;
      if AtomDef(ss[0]) == Some(X_ATOM) {
        assert st1 == st1';
        assert ss == [ss[0]] + ss[1..];
      } else {
        XDeadRun(ss[1..], test, st1, st1', p);
      }
    }
  }

  /** When the difference survives, nothing after defines X. */
  lemma {:induction false} XLeftUndefined(ss: seq<Stmt>, k: nat)
    requires AllMemOk(ss) && XLeft(ss) != {} && k < |ss|
    ensures MemOk(ss[k]) && AtomDef(ss[k]) != Some(X_ATOM)
    decreases |ss|
  {
    assert ss[0] in ss && forall s :: s in ss[1..] ==> s in ss;
    if k > 0 {
      XLeftUndefined(ss[1..], k - 1);
    }
  }

  /** When the difference survives, nothing after reads X. */
  lemma {:induction false} XLeftUnread(ss: seq<Stmt>, test: Stmt)
    requires AllMemOk(ss) && MemOk(test) && XDead(ss, test) && XLeft(ss) != {}
    ensures X_ATOM !in AtomUse(test) && XLeft(ss) == {X_ATOM}
    ensures forall k {:trigger ss[k]} :: 0 <= k < |ss| ==> X_ATOM !in AtomUse(ss[k])
    decreases |ss|
  {
    if ss != [] {
      assert ss[0] in ss && forall s :: s in ss[1..] ==> s in ss;
      XLeftUnread(ss[1..], test);
      forall k {:trigger ss[k]} | 0 <= k < |ss|
        ensures MemOk(ss[k]) && X_ATOM !in AtomUse(ss[k])
      {
        if k > 0 {
          assert ss[k] == ss[1..][k - 1];
        }
      }
    }
  }

  lemma WrapSum(a: Word, b: Word, c: Word)
    ensures Wrap(Wrap(a + b) + c) == Wrap(b + Wrap(c + a))
  {
  }

  /** The heart of the rule: the folded load reads the same word, and only X is left different,
      which what follows does not read. */
  lemma FoldedHead(ld: Stmt, add: Stmt, tax: Stmt, ild: Stmt, rest: seq<Stmt>, test: Stmt, st: State, p: Packet)
    requires ld.code == LdImm && add.code == Alu(ADD, X) && tax.code == Tax && ild.code.LdInd?
    requires AllMemOk(rest) && MemOk(test) && XDead(rest, test)
    requires ExecAll([ld] + ([add] + ([tax] + ([ild] + rest))), st, p).Some?
    ensures ExecAll([Stmt(ild.code, Wrap(ild.k + ld.k))] + rest, st, p).Some?
    ensures SameBut(ExecAll([ld] + ([add] + ([tax] + ([ild] + rest))), st, p).value,
                    ExecAll([Stmt(ild.code, Wrap(ild.k + ld.k))] + rest, st, p).value, XLeft(rest))
  {
    var ild1 := Stmt(ild.code, Wrap(ild.k + ld.k));
    var x := Wrap(ld.k + st[X_ATOM]);
    var st1 := st[A_ATOM := ld.k];
    var st2 := st1[A_ATOM := x];
    var st3 := st2[X_ATOM := x];
    assert Exec(ld, st, p) == Some(st1) && Exec(add, st1, p) == Some(st2) && Exec(tax, st2, p) == Some(st3);
    ExecList(ld, [add] + ([tax] + ([ild] + rest)), st, p);
    ExecList(add, [tax] + ([ild] + rest), st1, p);
    ExecList(tax, [ild] + rest, st2, p);
    ExecList(ild, rest, st3, p);
    ExecList(ild1, rest, st, p);
    IndLoads(ld, ild, st, st3, p);
    hide *;
    XDeadRun(rest, test, Exec(ild, st3, p).value, Exec(ild1, st, p).value, p);
  }

  lemma IndLoads(ld: Stmt, ild: Stmt, st: State, st3: State, p: Packet)
    requires ild.code.LdInd?
    requires st3 == st[A_ATOM := ld.k][A_ATOM := Wrap(ld.k + st[X_ATOM])][X_ATOM := Wrap(ld.k + st[X_ATOM])]
    ensures var ild1 := Stmt(ild.code, Wrap(ild.k + ld.k));
            && Exec(ild, st3, p).Some? == Exec(ild1, st, p).Some?
            && (Exec(ild, st3, p).Some? ==> SameBut(Exec(ild, st3, p).value, Exec(ild1, st, p).value, {X_ATOM}))
  {
    hide LoadAt;
    WrapSum(ld.k, st[X_ATOM], ild.k);
  }

  /** The same with the header-length load in between, which sets X and needs no A. */
  lemma FoldedHeadMsh(ld: Stmt, msh: Stmt, add: Stmt, tax: Stmt, ild: Stmt, rest: seq<Stmt>, test: Stmt, st: State,
                      p: Packet)
    requires ld.code == LdImm && msh.code == LdxMsh && add.code == Alu(ADD, X) && tax.code == Tax && ild.code.LdInd?
    requires AllMemOk(rest) && MemOk(test) && XDead(rest, test)
    requires ExecAll([ld] + ([msh] + ([add] + ([tax] + ([ild] + rest)))), st, p).Some?
    ensures ExecAll([msh] + ([Stmt(ild.code, Wrap(ild.k + ld.k))] + rest), st, p).Some?
    ensures SameBut(ExecAll([ld] + ([msh] + ([add] + ([tax] + ([ild] + rest)))), st, p).value,
                    ExecAll([msh] + ([Stmt(ild.code, Wrap(ild.k + ld.k))] + rest), st, p).value, XLeft(rest))
  {
    var ild1, tail := Stmt(ild.code, Wrap(ild.k + ld.k)), [add] + ([tax] + ([ild] + rest));
    ExecList(ld, [msh] + tail, st, p);
    var st1 := st[A_ATOM := ld.k];
    ExecList(msh, tail, st1, p);
    ExecList(msh, [ild1] + rest, st, p);
    var w := Result(msh, st1, p).value;
    assert Exec(msh, st1, p) == Some(st1[X_ATOM := w]) && Exec(msh, st, p) == Some(st[X_ATOM := w]);
    assert st1[X_ATOM := w] == st[X_ATOM := w][A_ATOM := ld.k];
    ExecList(ld, tail, st[X_ATOM := w], p);
    hide ExecAll;
    FoldedHead(ld, add, tax, ild, rest, test, st[X_ATOM := w], p);
  }

  /** The live statements of the pattern. */
  lemma PatternLive(ss: seq<Stmt>, i: nat, x: Idx)
    requires i < |ss| && Pattern(ss, i) == Some(x)
    ensures var tail := [ss[x.add]] + ([ss[x.tax]] + ([ss[x.ild]] + From(ss, x.ild + 1)));
            && (x.next < x.add ==> From(ss, i) == [ss[i]] + ([ss[x.next]] + tail))
            && (x.next == x.add ==> From(ss, i) == [ss[i]] + tail)
  {
    PatternGaps(ss, i, x);
    hide Pattern, Live, From, ThisOpAt;
    assert Tail(ss, x) == [ss[x.add]] + ([ss[x.tax]] + ([ss[x.ild]] + From(ss, x.ild + 1)));
    assert One(ss[i]) == [ss[i]] && (x.next < x.add ==> One(ss[x.next]) == [ss[x.next]]);
    hide Tail, Gaps, One;
    Chain(ss, i, x);
  }

  lemma Nil<T>(s: seq<T>)
    ensures [] + s == s
  {
  }

  /** The folded list: three statements deleted, one rewritten, the others as they were. */
  lemma FoldedAre(ss: seq<Stmt>, i: nat, x: Idx)
    requires Gaps(ss, i, x)
    ensures var ss1 := Folded(ss, i, x);
            && |ss1| == |ss| && ss1[..i] == ss[..i] && Gaps(ss1, i, x)
            && (forall k :: x.ild < k < |ss| ==> ss1[k] == ss[k])
            && ss1[i].code == Nop && ss1[x.add].code == Nop && ss1[x.tax].code == Nop
            && ss1[x.ild] == Stmt(ss[x.ild].code, Wrap(ss[x.ild].k + ss[i].k))
            && (x.next < x.add ==> ss1[x.next] == ss[x.next])
  {
  }

  /** The live statements of the folded pattern. */
  lemma PatternFolded(ss: seq<Stmt>, i: nat, x: Idx)
    requires i < |ss| && Pattern(ss, i) == Some(x)
    ensures var tail := [Stmt(ss[x.ild].code, Wrap(ss[x.ild].k + ss[i].k))] + From(ss, x.ild + 1);
            && (x.next < x.add ==> From(Folded(ss, i, x), i) == [ss[x.next]] + tail)
            && (x.next == x.add ==> From(Folded(ss, i, x), i) == tail)
  {
    PatternGaps(ss, i, x);
    hide Pattern, ThisOpAt, Live, From;
    var ss1, tail := Folded(ss, i, x), [Stmt(ss[x.ild].code, Wrap(ss[x.ild].k + ss[i].k))] + From(ss, x.ild + 1);
    FoldedAre(ss, i, x);
    FromSame(ss, ss1, x.ild + 1);
    assert Tail(ss1, x) == [] + ([] + tail);
    assert One(ss1[i]) == [] && (x.next < x.add ==> One(ss1[x.next]) == [ss[x.next]]);
    hide Folded, Gaps, Tail, One;
    Chain(ss1, i, x);
    Nil([] + tail);
    Nil(tail);
    Nil([ss[x.next]] + tail);
  }

  /** What the rule does to the live statements. */
  lemma FoldedList(ld: Stmt, msh: Stmt, add: Stmt, tax: Stmt, ild: Stmt, rest: seq<Stmt>, test: Stmt)
    requires ld.code == LdImm && add.code == Alu(ADD, X) && tax.code == Tax && ild.code.LdInd?
    requires AllMemOk(rest) && MemOk(test) && XDead(rest, test)
    ensures var (tail, ild1) := ([add] + ([tax] + ([ild] + rest)), Stmt(ild.code, Wrap(ild.k + ld.k)));
            && Preserves([ld] + tail, [ild1] + rest, XLeft(rest))
            && (msh.code == LdxMsh ==> Preserves([ld] + ([msh] + tail), [msh] + ([ild1] + rest), XLeft(rest)))
  {
    var tail, ild1 := [add] + ([tax] + ([ild] + rest)), Stmt(ild.code, Wrap(ild.k + ld.k));
    var from, to, from2, to2 := [ld] + tail, [ild1] + rest, [ld] + ([msh] + tail), [msh] + ([ild1] + rest);
    forall st, p {:trigger ExecAll(from, st, p)} | ExecAll(from, st, p).Some?
      ensures ExecAll(to, st, p).Some? && SameBut(ExecAll(from, st, p).value, ExecAll(to, st, p).value, XLeft(rest))
    {
      FoldedHead(ld, add, tax, ild, rest, test, st, p);
    }
    forall st, p {:trigger ExecAll(from2, st, p)} | msh.code == LdxMsh && ExecAll(from2, st, p).Some?
      ensures ExecAll(to2, st, p).Some? && SameBut(ExecAll(from2, st, p).value, ExecAll(to2, st, p).value, XLeft(rest))
    {
      FoldedHeadMsh(ld, msh, add, tax, ild, rest, test, st, p);
    }
    hide ExecAll, XDead, AllMemOk, SameBut, XLeft;
  }

  lemma FoldedFrom(ss: seq<Stmt>, i: nat, x: Idx, test: Stmt)
    requires MemOk(test) && i < |ss| && Pattern(ss, i) == Some(x)
    requires AllMemOk(From(ss, x.ild + 1)) && XDead(From(ss, x.ild + 1), test)
    ensures i <= |Folded(ss, i, x)| && Preserves(From(ss, i), From(Folded(ss, i, x), i), XLeft(From(ss, x.ild + 1)))
  {
    hide *;
    PatternGaps(ss, i, x);
    FoldedAre(ss, i, x);
    PatternLive(ss, i, x);
    PatternFolded(ss, i, x);
    FoldedList(ss[i], ss[x.next], ss[x.add], ss[x.tax], ss[x.ild], From(ss, x.ild + 1), test);
  }

  /** The rule keeps all but X, which is dead where the pattern ends. */
  lemma FoldedAt(ss: seq<Stmt>, i: nat, x: Idx, test: Stmt)
    requires AllMemOk(ss) && MemOk(test) && i < |ss| && Pattern(ss, i) == Some(x)
    requires AllMemOk(From(ss, x.ild + 1)) && XDead(From(ss, x.ild + 1), test)
    ensures Preserves(ss, Folded(ss, i, x), XLeft(From(ss, x.ild + 1)))
  {
    hide *;
    PatternGaps(ss, i, x);
    FoldedAre(ss, i, x);
    FoldedFrom(ss, i, x, test);
    SuffixPreserves(ss, Folded(ss, i, x), i, XLeft(From(ss, x.ild + 1)));
  }
}
