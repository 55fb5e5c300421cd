/** opt_peep: rewriting the statements of a block, merging the last of them into the branch, and
    deciding branches on known values. */
module Peephole {
  import opened Bpf
  import opened Atoms
  import opened LiveStmts
  import opened LastDefs
  import opened DeadStores
  import opened PeepStmts
  import opened PeepRules

  // ----- The loop over the statements -----

  /** The live statements from `i` on. */
  ghost function Later(ss: seq<Stmt>, i: nat): (r: seq<Stmt>)
    requires AllMemOk(ss) && i <= |ss|
    ensures AllMemOk(r)
  {
    LiveMem(ss[i..]);
    assert forall s :: s in ss[i..] ==> s in ss;
    From(ss, i)
  }

  lemma {:induction false} LiveMem(ss: seq<Stmt>)
    ensures forall s :: s in Live(ss) ==> s in ss && s.code != Nop
    decreases |ss|
  {
    if ss != [] {
      LiveMem(ss[1..]);
    }
  }

  /** No use of X is left behind by the indexed-load rule: where the pattern stands and X is not
      live at the exit, X is written again before it is read, or never read. */
  ghost predicate NoLateX(ss: seq<Stmt>, test: Stmt, outUse: set<Atom>)
    requires AllMemOk(ss) && MemOk(test)
  {
    X_ATOM !in outUse ==> forall i {:trigger Pattern(ss, i)} :: 0 <= i < |ss| && Pattern(ss, i).Some? ==>
      XDead(Later(ss, Pattern(ss, i).value.ild + 1), test)
  }

  /** What the rewritings never do: make or change arithmetic, or lose an indexed load; and they delete a
      statement only in front of one. */
  ghost predicate Shape(ss0: seq<Stmt>, ss: seq<Stmt>) {
    && |ss| == |ss0|
    && (forall k {:trigger ss0[k]} :: 0 <= k < |ss| && ss0[k].code.Alu? ==> ss[k] == ss0[k] || ss[k].code == Nop)
    && (forall k {:trigger ss[k]} :: 0 <= k < |ss| && ss[k].code.Alu? ==> ss[k] == ss0[k])
    && (forall k {:trigger ss0[k]} :: 0 <= k < |ss| && ss0[k].code.LdInd? ==> ss[k].code.LdInd?)
    && (forall k {:trigger ss[k]} :: 0 <= k < |ss| && ss[k].code == Nop && ss0[k].code != Nop ==> LaterLoad(ss, k))
  }

  ghost predicate LaterLoad(ss: seq<Stmt>, k: int) {
    exists m :: k < m < |ss| && 0 <= m && ss[m].code.LdInd?
  }

  lemma ShapeTrans(ss0: seq<Stmt>, ss1: seq<Stmt>, ss2: seq<Stmt>)
    requires Shape(ss0, ss1) && Shape(ss1, ss2) && NoneRevived(ss1, ss2)
    ensures Shape(ss0, ss2)
  {
    forall k {:trigger ss2[k]} | 0 <= k < |ss2| && ss2[k].code == Nop && ss0[k].code != Nop
      ensures LaterLoad(ss2, k)
    {
      if ss1[k].code == Nop {
        assert LaterLoad(ss1, k);
        var m :| k < m < |ss1| && ss1[m].code.LdInd?;
        assert ss2[m].code.LdInd?;
      }
    }
  }

  /** X may be left different: it is not live, and after some indexed load nothing subtracts it. */
  ghost predicate XGone(ss: seq<Stmt>, test: Stmt, outUse: set<Atom>)
    requires MemOk(test)
  {
    X_ATOM !in outUse && X_ATOM !in AtomUse(test)
    && exists m :: 0 <= m < |ss| && ss[m].code.LdInd? && NoSubX(ss, m)
  }

  ghost predicate NoSubX(ss: seq<Stmt>, m: int) {
    forall k {:trigger ss[k]} :: m < k < |ss| && 0 <= k ==> ss[k].code != Alu(SUB, X)
  }

  lemma XGoneKept(ss: seq<Stmt>, ss1: seq<Stmt>, test: Stmt, outUse: set<Atom>)
    requires MemOk(test) && Shape(ss, ss1) && XGone(ss, test, outUse)
    ensures XGone(ss1, test, outUse)
  {
    var m :| 0 <= m < |ss| && ss[m].code.LdInd? && NoSubX(ss, m);
    assert ss1[m].code.LdInd? && NoSubX(ss1, m);
  }

  /** Where the loop stands: from `from` on nothing has been changed, and from the next statement up
      to there is no statement, and was none, that a rule is for. */
  ghost predicate Frontier(ss0: seq<Stmt>, ss: seq<Stmt>, next: nat, from: nat) {
    && |ss| == |ss0| && next <= |ss| && from <= |ss| && ss[from..] == ss0[from..]
    && forall k {:trigger ss[k]} {:trigger ss0[k]} :: next <= k < from ==> !Starts(ss[k]) && !Starts(ss0[k])
  }

  lemma SameFrom(ss: seq<Stmt>, ss0: seq<Stmt>, i: nat, j: nat)
    requires |ss| == |ss0| && i <= j <= |ss| && ss[i..] == ss0[i..]
    ensures ss[j..] == ss0[j..] && (j < |ss| ==> ss[j] == ss0[j])
  {
    assert ss[j..] == ss[i..][j - i..] && ss0[j..] == ss0[i..][j - i..];
    if j < |ss| {
      assert ss[j] == ss[i..][j - i] && ss0[j] == ss0[i..][j - i];
    }
  }

  lemma OpSame(ss: seq<Stmt>, ss0: seq<Stmt>, i: nat, j: nat)
    requires |ss| == |ss0| && i <= j <= |ss| && ss[i..] == ss0[i..]
    ensures ThisOpAt(ss, j) == ThisOpAt(ss0, j)
    ensures (ThisOpAt(ss, j) < |ss| ==> ss[ThisOpAt(ss, j)] == ss0[ThisOpAt(ss, j)])
  {
    SameFrom(ss, ss0, i, j);
    ThisOpSame(ss, ss0, j);
    SameFrom(ss, ss0, i, ThisOpAt(ss, j));
  }

  lemma TailSame(ss: seq<Stmt>, ss0: seq<Stmt>, i: nat, n: nat, a: nat)
    requires |ss| == |ss0| && i <= n <= a <= |ss| && ss[i..] == ss0[i..] && (a < |ss| ==> ss[a] == ss0[a])
    ensures AddTaxLoad(ss, n, a) == AddTaxLoad(ss0, n, a)
  {
    hide ThisOpAt;
    if a < |ss| {
      OpSame(ss, ss0, i, a + 1);
      var t := ThisOpAt(ss, a + 1);
      if t < |ss| {
        OpSame(ss, ss0, i, t + 1);
      }
    }
  }

  /** In unchanged statements the pattern is found where it was. */
  lemma PatternSame(ss: seq<Stmt>, ss0: seq<Stmt>, i: nat)
    requires |ss| == |ss0| && i < |ss| && ss[i..] == ss0[i..]
    ensures Pattern(ss, i) == Pattern(ss0, i)
  {
    hide ThisOpAt, AddTaxLoad;
    SameFrom(ss, ss0, i, i);
    OpSame(ss, ss0, i, i + 1);
    var n := ThisOpAt(ss, i + 1);
    if n < |ss| {
      OpSame(ss, ss0, i, n + 1);
      TailSame(ss, ss0, i, n, if ss[n].code == LdxMsh then ThisOpAt(ss, n + 1) else n);
    }
  }

  /** What the first two rules make of statement i and the next one. */
  function Paired(ss: seq<Stmt>, i: nat, next: nat): seq<Stmt>
    requires i < |ss| && next < |ss|
  {
    if ss[i].code == St && ss[next] == Stmt(LdxMem, ss[i].k) then ss[next := Stmt(Tax, ss[i].k)]
    else if ss[i].code == LdImm && ss[next].code == Tax then
      ss[i := Stmt(LdxImm, ss[i].k)][next := Stmt(Txa, ss[next].k)]
    else ss
  }

  /** The first two rules at statement i and the next one. */
  method PairRules(ss: seq<Stmt>, i: nat, next: nat) returns (ss': seq<Stmt>)
    requires AllMemOk(ss) && i < |ss| && next == ThisOpAt(ss, i + 1) < |ss|
    ensures SameMem(ss, ss') && Preserves(ss, ss', {}) && Shape(ss, ss')
    ensures ss'[next + 1..] == ss[next + 1..] && (ss' == ss || (ss'[i].code != LdImm && !Starts(ss'[next])))
    ensures ss'[next].code != Nop && NoneDeleted(ss, ss') && (ss' != ss ==> Starts(ss[i]) && !Starts(ss[next]))
    ensures ss' == Paired(ss, i, next)
  {
    ss' := ss;
    assert ss[i] in ss && ss[next] in ss;
    if ss[i].code == St && ss[next].code == LdxMem && ss[i].k == ss[next].k {
      ss' := ss[next := Stmt(Tax, ss[next].k)];
      assert ss' == ss[i := ss[i]][next := Stmt(Tax, ss[next].k)];
      PairAt(ss, i, next, ss[i], Stmt(Tax, ss[next].k));
    }
    if ss'[i].code == LdImm && ss'[next].code == Tax {
      assert ss' == ss;
      ss' := ss[i := Stmt(LdxImm, ss[i].k)][next := Stmt(Txa, ss[next].k)];
      PairAt(ss, i, next, Stmt(LdxImm, ss[i].k), Stmt(Txa, ss[next].k));
    }
    if ss' == ss {
      NothingChanged(ss);
    }
  }

  lemma NothingChanged(ss: seq<Stmt>)
    ensures Preserves(ss, ss, {}) && Shape(ss, ss)
  {
  }

  /** Where the search for the pattern stands when it has found the place of the addition. */
  ghost predicate AddAt(ss: seq<Stmt>, i: nat, next: nat, add: nat) {
    && i < |ss| && ss[i].code == LdImm && next == ThisOpAt(ss, i + 1) < |ss|
    && next <= add <= |ss| && add == if ss[next].code == LdxMsh then ThisOpAt(ss, next + 1) else next
  }

  lemma PatternFrom(ss: seq<Stmt>, i: nat, next: nat, add: nat)
    requires AddAt(ss, i, next, add)
    ensures Pattern(ss, i) == AddTaxLoad(ss, next, add)
  {
    hide AddTaxLoad, ThisOpAt;
  }

  lemma AddFound(ss: seq<Stmt>, i: nat, next: nat, add: nat)
    requires i < |ss| && ss[i].code == LdImm && next == ThisOpAt(ss, i + 1) < |ss|
    requires add == if ss[next].code == LdxMsh then ThisOpAt(ss, next + 1) else next
    ensures AddAt(ss, i, next, add) && add <= |ss|
  {
    hide ThisOpAt;
  }

  lemma NoAdd(ss: seq<Stmt>, i: nat, next: nat, add: nat)
    requires AddAt(ss, i, next, add) && (add == |ss| || ss[add].code != Alu(ADD, X))
    ensures Pattern(ss, i) == None
  {
    PatternFrom(ss, i, next, add);
    hide Pattern, ThisOpAt, AddAt;
  }

  lemma AfterAdd(ss: seq<Stmt>, i: nat, next: nat, add: nat, tax: nat)
    requires AddAt(ss, i, next, add) && add < |ss| && ss[add].code == Alu(ADD, X) && tax == ThisOpAt(ss, add + 1)
    ensures add < tax <= |ss|
    ensures Pattern(ss, i) == if tax == |ss| || ss[tax].code != Tax then None
                              else if ThisOpAt(ss, tax + 1) == |ss| || !ss[ThisOpAt(ss, tax + 1)].code.LdInd? then None
                              else Some(Idx(next, add, tax, ThisOpAt(ss, tax + 1)))
  {
    PatternFrom(ss, i, next, add);
    hide Pattern, ThisOpAt, AddAt;
  }

  /** Looks for the indexed-load pattern at the immediate load i. */
  method FindPattern(ss: seq<Stmt>, i: nat, next: nat) returns (r: Option<Idx>)
    requires i < |ss| && ss[i].code == LdImm && next == ThisOpAt(ss, i + 1) < |ss|
    ensures r == Pattern(ss, i) && (r.Some? ==> r.value.next == next)
  {
    hide *;
    r := None;
    var add := next;
    if ss[next].code == LdxMsh {
      add := ThisOp(ss, next + 1);
    }
    AddFound(ss, i, next, add);
    if add == |ss| || ss[add].code != Alu(ADD, X) {
      NoAdd(ss, i, next, add);
      return;
    }
    var tax := ThisOp(ss, add + 1);
    AfterAdd(ss, i, next, add, tax);
    if tax == |ss| || ss[tax].code != Tax {
      return;
    }
    var ild := ThisOp(ss, tax + 1);
    if ild == |ss| || !ss[ild].code.LdInd? {
      return;
    }
    r := Some(Idx(next, add, tax, ild));
  }

  /** What stands where afterwards. */
  lemma FoldedWhere(ss: seq<Stmt>, i: nat, x: Idx)
    requires i < x.next <= x.add < x.tax < x.ild < |ss|
    ensures var ss1 := Folded(ss, i, x);
            && |ss1| == |ss| && ss1[..i] == ss[..i]
            && ss1[i].code == ss1[x.add].code == ss1[x.tax].code == Nop
            && ss1[x.ild] == Stmt(ss[x.ild].code, Wrap(ss[x.ild].k + ss[i].k))
            && (forall k :: 0 <= k < |ss| && k !in {i, x.add, x.tax} ==> ss1[k].code == ss[k].code)
            && (forall k :: 0 <= k < |ss| && k !in {i, x.add, x.tax, x.ild} ==> ss1[k] == ss[k])
  {
    hide Wrap;
  }

  lemma FoldedShape(ss: seq<Stmt>, i: nat, x: Idx)
    requires AllMemOk(ss) && i < |ss| && Pattern(ss, i) == Some(x)
    ensures SameMem(ss, Folded(ss, i, x)) && Shape(ss, Folded(ss, i, x))
    ensures Folded(ss, i, x)[x.ild + 1..] == ss[x.ild + 1..] && Folded(ss, i, x)[x.ild].code.LdInd?
  {
    PatternGaps(ss, i, x);
    FoldedWhere(ss, i, x);
    hide Pattern, ThisOpAt, Folded, Wrap, Gaps;
    FoldedMem(ss, Folded(ss, i, x), i, x);
    assert forall k :: 0 <= k < x.ild ==> LaterLoad(Folded(ss, i, x), k);
  }

  lemma FoldedMem(ss: seq<Stmt>, ss1: seq<Stmt>, i: nat, x: Idx)
    requires AllMemOk(ss) && i < x.next <= x.add < x.tax < x.ild < |ss| == |ss1|
    requires ss1[i].code == ss1[x.add].code == ss1[x.tax].code == Nop && ss1[x.ild].code.LdInd?
    requires forall k :: 0 <= k < |ss| && k !in {i, x.add, x.tax, x.ild} ==> ss1[k] == ss[k]
    requires ss[x.ild].code.LdInd?
    ensures SameMem(ss, ss1)
  {
    forall s | s in ss1
      ensures MemOk(s)
    {
      var k :| 0 <= k < |ss1| && ss1[k] == s;
      assert ss[k] in ss;
    }
  }

  /** No rule is for what stands behind the constant. */
  lemma FoldedStarts(ss: seq<Stmt>, i: nat, x: Idx)
    requires i < |ss| && Pattern(ss, i) == Some(x)
    ensures i < x.next <= x.add < x.tax < x.ild < |ss|
    ensures forall k :: i < k <= x.ild ==> !Starts(Folded(ss, i, x)[k]) && !Starts(ss[k])
  {
    PatternGaps(ss, i, x);
    hide Pattern, ThisOpAt;
  }

  /** If the rule leaves X different at the end, nothing reads it. */
  lemma FoldedXGone(ss: seq<Stmt>, ss1: seq<Stmt>, m: nat, test: Stmt, outUse: set<Atom>)
    requires AllMemOk(ss) && MemOk(test) && m < |ss| == |ss1| && ss1[m + 1..] == ss[m + 1..] && ss1[m].code.LdInd?
    requires X_ATOM !in outUse && XDead(Later(ss, m + 1), test) && XLeft(Later(ss, m + 1)) != {}
    ensures XLeft(Later(ss, m + 1)) == {X_ATOM} && XGone(ss1, test, outUse)
  {
    var rest := Later(ss, m + 1);
    XLeftUnread(rest, test);
    forall k {:trigger ss1[k]} | m < k < |ss1|
      ensures ss1[k].code != Alu(SUB, X)
    {
      assert ss1[k] == ss1[m + 1..][k - m - 1] == ss[m + 1..][k - m - 1];
      if ss1[k].code != Nop {
        LiveHas(ss[m + 1..], k - m - 1);
        var j :| 0 <= j < |rest| && rest[j] == ss1[k];
        assert X_ATOM !in AtomUse(rest[j]);
      }
    }
    assert NoSubX(ss1, m);
  }

  lemma {:induction false} LiveHas(ss: seq<Stmt>, k: nat)
    requires k < |ss| && ss[k].code != Nop
    ensures ss[k] in Live(ss)
    decreases |ss|
  {
    if k > 0 {
      LiveHas(ss[1..], k - 1);
    }
  }

  ghost predicate Lost(dead: set<Atom>, ss: seq<Stmt>, test: Stmt, outUse: set<Atom>)
    requires MemOk(test)
  {
    dead == {} || (dead == {X_ATOM} && XGone(ss, test, outUse))
  }

  lemma NoneLost(ss: seq<Stmt>, test: Stmt, outUse: set<Atom>)
    requires MemOk(test)
    ensures Lost({}, ss, test, outUse)
  {
    hide XGone;
  }

  lemma XLost(ss: seq<Stmt>, test: Stmt, outUse: set<Atom>)
    requires MemOk(test) && XGone(ss, test, outUse)
    ensures Lost({X_ATOM}, ss, test, outUse)
  {
    hide XGone;
  }

  predicate XIn(outUse: set<Atom>): (r: bool)
    ensures r == (X_ATOM in outUse)
  {
    X_ATOM in outUse
  }

  lemma NextAfter(ss: seq<Stmt>, i: nat, next: nat)
    requires i < |ss| && next == ThisOpAt(ss, i + 1)
    ensures i < next
  {
  }

  lemma SameLength(ss: seq<Stmt>, ss1: seq<Stmt>)
    requires Shape(ss, ss1)
    ensures |ss1| == |ss|
  {
    hide LaterLoad;
  }

  lemma FrontierMoves(ss0: seq<Stmt>, ss: seq<Stmt>, ss1: seq<Stmt>, i: nat, next: nat, from: nat)
    requires Frontier(ss0, ss, i, from) && i < next < |ss| && |ss1| == |ss| && ss1[next + 1..] == ss[next + 1..]
    requires ss1 == ss || (!Starts(ss1[next]) && !Starts(ss[next]))
    ensures Frontier(ss0, ss1, next, if ss1 == ss || from > next then from else next + 1)
  {
    if ss1 != ss {
      var from1 := if from > next then from else next + 1;
      SameFrom(ss1, ss, next + 1, from1);
      SameFrom(ss, ss0, from, from1);
      forall k {:trigger ss1[k]} {:trigger ss0[k]} | next <= k < from1
        ensures !Starts(ss1[k]) && !Starts(ss0[k])
      {
        if k > next {
          SameFrom(ss1, ss, next + 1, k);
        } else if from <= next {
          SameFrom(ss, ss0, from, k);
        }
      }
    }
  }

  lemma FrontierJumps(ss0: seq<Stmt>, ss: seq<Stmt>, ss1: seq<Stmt>, i: nat, next: nat, from: nat, m: nat)
    requires Frontier(ss0, ss, i, from) && from <= i < next <= m < |ss| && |ss1| == |ss| && ss1[m + 1..] == ss[m + 1..]
    requires forall k :: i < k <= m ==> !Starts(ss1[k]) && !Starts(ss[k])
    ensures Frontier(ss0, ss1, next, m + 1)
  {
    SameFrom(ss, ss0, from, m + 1);
    forall k {:trigger ss1[k]} {:trigger ss0[k]} | next <= k < m + 1
      ensures !Starts(ss1[k]) && !Starts(ss0[k])
    {
      SameFrom(ss, ss0, from, k);
    }
  }

  lemma GoneIs(ss0: seq<Stmt>, ss: seq<Stmt>, a: Atom) returns (j: nat)
    requires a in Gone(ss0, ss)
    ensures LastDef(ss0, j, a) && Deleted(ss, j) && j < |ss0|
  {
    j :| LastDef(ss0, j, a) && Deleted(ss, j);
  }

  lemma IsGone(ss0: seq<Stmt>, ss: seq<Stmt>, j: nat, a: Atom)
    requires LastDef(ss0, j, a) && Deleted(ss, j)
    ensures a in Gone(ss0, ss)
  {
  }

  /** A constant, sum or transfer in front of a load is the last definition of X at most. */
  lemma FoldLater(ss: seq<Stmt>, j: nat, m: nat, a: Atom)
    requires j < m < |ss| && LastDef(ss, j, a) && ss[m].code.LdInd? && ss[j].code in {LdImm, Alu(ADD, X), Tax}
    ensures a == X_ATOM
  {
    assert Defines(ss[m], A_ATOM);
  }

  /** What the rule deletes is no last definition but for that of X. */
  lemma FoldGone(ss0: seq<Stmt>, ss: seq<Stmt>, i: nat, x: Idx)
    requires |ss| == |ss0| && i < |ss| && ss[i..] == ss0[i..] && Pattern(ss, i) == Some(x)
    ensures Gone(ss0, Folded(ss, i, x)) <= Gone(ss0, ss) + {X_ATOM}
  {
    PatternGaps(ss, i, x);
    FoldedWhere(ss, i, x);
    hide Pattern, Gaps, Folded;
    var ss1 := Folded(ss, i, x);
    forall a | a in Gone(ss0, ss1)
      ensures a in Gone(ss0, ss) + {X_ATOM}
    {
      hide GoneAt;
      var j := GoneIs(ss0, ss1, a);
      if !Deleted(ss, j) {
        assert j in {i, x.add, x.tax};
        SameFrom(ss, ss0, i, j);
        SameFrom(ss, ss0, i, x.ild);
        FoldLater(ss0, j, x.ild, a);
      } else {
        IsGone(ss0, ss, j, a);
      }
    }
  }

  /** If X is different at the end, its last definition has been deleted. */
  lemma FoldGoneX(ss0: seq<Stmt>, ss: seq<Stmt>, i: nat, x: Idx)
    requires |ss| == |ss0| && i < |ss| && ss[i..] == ss0[i..] && Pattern(ss, i) == Some(x)
    requires AllMemOk(ss) && XLeft(Later(ss, x.ild + 1)) != {}
    ensures X_ATOM in Gone(ss0, Folded(ss, i, x))
  {
    PatternGaps(ss, i, x);
    hide Pattern, XLeft;
    var ss1, rest := Folded(ss, i, x), Later(ss, x.ild + 1);
    forall k {:trigger ss0[k]} | x.tax < k < |ss0|
      ensures !Defines(ss0[k], X_ATOM)
    {
      SameFrom(ss, ss0, i, k);
      if k > x.ild && ss[k].code != Nop {
        assert ss[x.ild + 1..][k - x.ild - 1] == ss[k];
        LiveHas(ss[x.ild + 1..], k - x.ild - 1);
        var j :| 0 <= j < |rest| && rest[j] == ss[k];
        XLeftUndefined(rest, j);
      }
    }
    SameFrom(ss, ss0, i, x.tax);
    assert LastDef(ss0, x.tax, X_ATOM) && Deleted(ss1, x.tax);
  }

  /** The indexed-load rule at statement i. */
  lemma FoldHere(ss: seq<Stmt>, ss0: seq<Stmt>, i: nat, next: nat, x: Idx, outUse: set<Atom>, test: Stmt, from: nat)
      returns (dead: set<Atom>)
    requires AllMemOk(ss0) && AllMemOk(ss) && MemOk(test) && X_ATOM !in outUse
    requires i < |ss| && ss[i].code == LdImm && i < next && Pattern(ss, i) == Some(x) && next == x.next
    requires Frontier(ss0, ss, i, from)
    ensures SameMem(ss, Folded(ss, i, x)) && Shape(ss, Folded(ss, i, x))
    ensures NoLateX(ss0, test, outUse) ==> Preserves(ss, Folded(ss, i, x), dead)
    ensures Lost(dead, Folded(ss, i, x), test, outUse) && Frontier(ss0, Folded(ss, i, x), next, x.ild + 1)
    ensures dead <= Gone(ss0, Folded(ss, i, x)) && Gone(ss0, Folded(ss, i, x)) <= Gone(ss0, ss) + {X_ATOM}
  {
    hide *;
    FrontierImm(ss0, ss, i, from);
    FoldedShape(ss, i, x);
    SameLength(ss, Folded(ss, i, x));
    FoldGone(ss0, ss, i, x);
    FoldedStarts(ss, i, x);
    FrontierJumps(ss0, ss, Folded(ss, i, x), i, next, from, x.ild);
    dead := {};
    NoneLost(Folded(ss, i, x), test, outUse);
    if NoLateX(ss0, test, outUse) {
      dead := FoldKeeps(ss, ss0, i, next, x, outUse, test, from);
    }
  }

  /** Nothing has been changed from a constant on that a rule may be for. */
  lemma FrontierImm(ss0: seq<Stmt>, ss: seq<Stmt>, i: nat, from: nat)
    requires Frontier(ss0, ss, i, from) && i < |ss| && ss[i].code == LdImm
    ensures from <= i && |ss| == |ss0| && ss[i..] == ss0[i..]
  {
    SameFrom(ss, ss0, from, i);
  }

  lemma LaterDead(ss: seq<Stmt>, ss0: seq<Stmt>, i: nat, x: Idx, outUse: set<Atom>, test: Stmt, from: nat)
    requires AllMemOk(ss0) && AllMemOk(ss) && MemOk(test) && NoLateX(ss0, test, outUse) && X_ATOM !in outUse
    requires i < |ss| && Pattern(ss, i) == Some(x) && Frontier(ss0, ss, i, from) && from <= i
    ensures |ss| == |ss0| && ss[i..] == ss0[i..] && i < x.next <= x.add < x.tax < x.ild < |ss|
    ensures XDead(Later(ss, x.ild + 1), test) && Later(ss, x.ild + 1) == From(ss, x.ild + 1)
  {
    hide XDead, Live, AddTaxLoad, ThisOpAt, Pattern;
    SameFrom(ss, ss0, from, i);
    PatternSame(ss, ss0, i);
    SameFrom(ss, ss0, i, x.ild + 1);
    assert Later(ss, x.ild + 1) == Later(ss0, x.ild + 1);
    assert XDead(Later(ss0, Pattern(ss0, i).value.ild + 1), test);
  }

  lemma FoldKeeps(ss: seq<Stmt>, ss0: seq<Stmt>, i: nat, next: nat, x: Idx, outUse: set<Atom>, test: Stmt, from: nat)
      returns (dead: set<Atom>)
    requires AllMemOk(ss0) && AllMemOk(ss) && MemOk(test) && NoLateX(ss0, test, outUse) && X_ATOM !in outUse
    requires i < |ss| && ss[i].code == LdImm && i < next && Pattern(ss, i) == Some(x) && next == x.next
    requires Frontier(ss0, ss, i, from) && from <= i
    ensures Preserves(ss, Folded(ss, i, x), dead) && Lost(dead, Folded(ss, i, x), test, outUse)
    ensures dead <= Gone(ss0, Folded(ss, i, x))
  {
    hide *;
    var m := x.ild;
    LaterDead(ss, ss0, i, x, outUse, test, from);
    dead := XLeft(Later(ss, m + 1));
    NoneLost(Folded(ss, i, x), test, outUse);
    FoldedAt(ss, i, x, test);
    FoldedShape(ss, i, x);
    SameLength(ss, Folded(ss, i, x));
    if dead != {} {
      FoldedXGone(ss, Folded(ss, i, x), m, test, outUse);
      XLost(Folded(ss, i, x), test, outUse);
      FoldGoneX(ss0, ss, i, x);
    }
  }

  /** In unchanged statements the rules are for what they were for. */
  lemma HereSame(ss0: seq<Stmt>, ss: seq<Stmt>, i: nat)
    requires |ss| == |ss0| && i < |ss| && ss[i..] == ss0[i..]
    ensures ss0[i] == ss[i] && forall n {:trigger Follows(ss0, i, n)} :: Follows(ss0, i, n) ==>
                n == ThisOpAt(ss, i + 1) && ss0[n] == ss[n]
    ensures forall x {:trigger Stands(ss0, i, x)} :: Stands(ss0, i, x) <==> Pattern(ss, i) == Some(x)
  {
    SameFrom(ss, ss0, i, i);
    OpSame(ss, ss0, i, i + 1);
    PatternSame(ss, ss0, i);
    hide Pattern, ThisOpAt, Stands, Follows;
    forall n {:trigger Follows(ss0, i, n)} | Follows(ss0, i, n)
      ensures n == ThisOpAt(ss, i + 1) && ss0[n] == ss[n]
    {
      FollowsBelow(ss0, i, n);
      FollowsIs(ss0, i, n);
    }
    forall x {:trigger Stands(ss0, i, x)}
      ensures Stands(ss0, i, x) <==> Pattern(ss, i) == Some(x)
    {
      PatternStands(ss0, i, x);
    }
  }

  lemma FollowsBelow(ss: seq<Stmt>, i: int, n: int)
    requires Follows(ss, i, n)
    ensures 0 <= i < n < |ss|
  {
  }

  /** The rules for statement i have been applied when the pair rules have, and no indexed load is to be folded. */
  lemma PairApplied(ss0: seq<Stmt>, ss: seq<Stmt>, i: nat, next: nat, outUse: set<Atom>)
    requires |ss| == |ss0| && i < |ss| && ss[i..] == ss0[i..] && next == ThisOpAt(ss, i + 1) < |ss|
    requires Paired(ss, i, next)[i].code != LdImm || X_ATOM in outUse || Pattern(ss, i) == None
    ensures |Paired(ss, i, next)| == |ss0| && Applied(ss0, Paired(ss, i, next), outUse, i)
  {
    HereSame(ss0, ss, i);
    if Pattern(ss, i).Some? {
      StandsPaired(ss, i, next);
    }
    hide Pattern, ThisOpAt, Stands, Follows;
  }

  /** Where the indexed-load rule is for a statement the pair rules are not. */
  lemma StandsPaired(ss: seq<Stmt>, i: nat, next: nat)
    requires i < |ss| && Pattern(ss, i).Some? && next == ThisOpAt(ss, i + 1)
    ensures ss[i].code == LdImm && next == Pattern(ss, i).value.next < |ss| && ss[next].code != Tax
    ensures Paired(ss, i, next) == ss
  {
  }

  lemma FoldApplied(ss0: seq<Stmt>, ss: seq<Stmt>, i: nat, x: Idx, outUse: set<Atom>)
    requires |ss| == |ss0| && i < |ss| && ss[i..] == ss0[i..] && Pattern(ss, i) == Some(x)
    ensures |Folded(ss, i, x)| == |ss0| && Applied(ss0, Folded(ss, i, x), outUse, i)
    ensures Folded(ss, i, x)[..i] == ss[..i]
  {
    hide Pattern, ThisOpAt, Follows, Folded, Wrap, Stands, Applied;
    HereSame(ss0, ss, i);
    StandsPaired(ss, i, ThisOpAt(ss, i + 1));
    SameFrom(ss, ss0, i, x.next);
    SameFrom(ss, ss0, i, x.ild);
    FoldedWhere(ss, i, x);
    FoldMakes(ss0, Folded(ss, i, x), i, x, outUse);
  }

  lemma FoldMakes(ss0: seq<Stmt>, ss1: seq<Stmt>, i: nat, x: Idx, outUse: set<Atom>)
    requires |ss1| == |ss0| && i < |ss0| && ss0[i].code == LdImm && Stands(ss0, i, x)
    requires i < x.next <= x.add < x.tax < x.ild < |ss0| && ss0[x.next].code != Tax
    requires ss1[i].code == ss1[x.add].code == ss1[x.tax].code == Nop
    requires ss1[x.ild] == Stmt(ss0[x.ild].code, Wrap(ss0[x.ild].k + ss0[i].k))
    requires forall n {:trigger Follows(ss0, i, n)} :: Follows(ss0, i, n) ==> n == x.next
    requires forall y {:trigger Stands(ss0, i, y)} :: Stands(ss0, i, y) ==> y == x
    ensures Applied(ss0, ss1, outUse, i)
  {
    hide Follows, Stands, Wrap;
  }

  lemma PairKeeps(ss: seq<Stmt>, i: nat, next: nat)
    requires i < next < |ss|
    ensures Paired(ss, i, next)[..i] == ss[..i]
    ensures Paired(ss, i, next)[i].code == LdImm ==> Paired(ss, i, next) == ss
    ensures !Starts(ss[i]) ==> Paired(ss, i, next) == ss && ss[i].code != LdImm
  {
  }

  /** One turn of the loop, at the live statement i and the one after it. */
  method PeepOne(ss: seq<Stmt>, i: nat, next: nat, outUse: set<Atom>, ghost test: Stmt, ghost ss0: seq<Stmt>,
                 ghost from: nat)
      returns (ss': seq<Stmt>, ghost dead: set<Atom>, ghost from': nat)
    requires AllMemOk(ss0) && AllMemOk(ss) && MemOk(test)
    requires i < |ss| && next == ThisOpAt(ss, i + 1) < |ss| && Frontier(ss0, ss, i, from)
    ensures SameMem(ss, ss') && Shape(ss, ss') && (NoLateX(ss0, test, outUse) ==> Preserves(ss, ss', dead))
    ensures Lost(dead, ss', test, outUse) && Frontier(ss0, ss', next, from')
    ensures dead <= Gone(ss0, ss') && (Gone(ss0, ss) !! outUse ==> Gone(ss0, ss') !! outUse)
    ensures ss'[..i] == ss[..i] && (!Starts(ss[i]) ==> ss' == ss) && (from <= i ==> Applied(ss0, ss', outUse, i))
  {
    hide *;
    FrontierFrom(ss0, ss, i, from);
    ss' := PairRules(ss, i, next);
    NextAfter(ss, i, next);
    PairKeeps(ss, i, next);
    GoneLess(ss0, ss, ss');
    dead := {};
    NoneLost(ss', test, outUse);
    from' := if ss' == ss || from > next then from else next + 1;
    var used := XIn(outUse);
    SameLength(ss, ss');
    FrontierMoves(ss0, ss, ss', i, next, from);
    if ss'[i].code == LdImm {
      if used {
        OneApplied(ss0, ss, i, next, outUse, from);
        return;
      }
      var x := FindPattern(ss, i, next);
      if x == None {
        OneApplied(ss0, ss, i, next, outUse, from);
        return;
      }
      if from <= i {
        FoldApplied(ss0, ss, i, x.value, outUse);
      }
      dead := FoldHere(ss, ss0, i, next, x.value, outUse, test, from);
      ss' := Folded(ss, i, x.value);
      from' := x.value.ild + 1;
    } else {
      OneApplied(ss0, ss, i, next, outUse, from);
    }
  }

  lemma FrontierFrom(ss0: seq<Stmt>, ss: seq<Stmt>, i: nat, from: nat)
    requires Frontier(ss0, ss, i, from)
    ensures |ss| == |ss0| && (from <= i ==> ss[i..] == ss0[i..]) && (from > i && i < |ss| ==> !Starts(ss[i]))
  {
    if from <= i {
      SameFrom(ss, ss0, from, i);
    }
  }

  lemma OneApplied(ss0: seq<Stmt>, ss: seq<Stmt>, i: nat, next: nat, outUse: set<Atom>, from: nat)
    requires |ss| == |ss0| && i < |ss| && next == ThisOpAt(ss, i + 1) < |ss| && (from <= i ==> ss[i..] == ss0[i..])
    requires Paired(ss, i, next)[i].code != LdImm || X_ATOM in outUse || Pattern(ss, i) == None
    ensures |Paired(ss, i, next)| == |ss0| && (from <= i ==> Applied(ss0, Paired(ss, i, next), outUse, i))
  {
    hide Pattern, ThisOpAt, Applied;
    if from <= i {
      PairApplied(ss0, ss, i, next, outUse);
    }
  }

  /** A statement that is deleted now, from the next one on, has no rule for it and had none. */
  lemma NopApplied(ss0: seq<Stmt>, ss: seq<Stmt>, ss1: seq<Stmt>, outUse: set<Atom>, last: nat, from: nat, k: nat)
    requires Frontier(ss0, ss, last, from) && last <= k < |ss| && !Starts(ss[k]) && |ss1| == |ss0|
    ensures Applied(ss0, ss1, outUse, k)
  {
    if from <= k {
      SameFrom(ss, ss0, from, k);
    }
    NoRule(ss0, ss1, outUse, k);
  }

  /** After a turn at s the rules for all statements before the next one have been applied. */
  lemma TurnApplied(ss0: seq<Stmt>, ss: seq<Stmt>, ss1: seq<Stmt>, outUse: set<Atom>, last: nat, s: nat, next: nat,
                    from: nat)
    requires Frontier(ss0, ss, last, from) && AppliedTo(ss0, ss, outUse, last) && |ss1| == |ss|
    requires last <= |ss| && s == ThisOpAt(ss, last) < |ss| && next == ThisOpAt(ss, s + 1) < |ss|
    requires ss1[..s] == ss[..s] && (!Starts(ss[s]) ==> ss1 == ss) && (from <= s ==> Applied(ss0, ss1, outUse, s))
    ensures AppliedTo(ss0, ss1, outUse, next)
  {
    hide Applied;
    forall k {:trigger Applied(ss0, ss1, outUse, k)} | 0 <= k < next && k < |ss0|
      ensures Applied(ss0, ss1, outUse, k)
    {
      if k < last {
        assert Applied(ss0, ss, outUse, k);
        if Starts(ss[s]) {
          SameFrom(ss, ss0, from, s);
          AppliedStays(ss0, ss, ss1, outUse, k, s);
        }
      } else if k != s || from > s {
        NopApplied(ss0, ss, ss1, outUse, last, from, k);
      }
    }
  }

  /** When no two live statements are left, the rules for all have been applied. */
  lemma AllApplied(ss0: seq<Stmt>, ss: seq<Stmt>, outUse: set<Atom>, last: nat, s: nat, from: nat)
    requires Frontier(ss0, ss, last, from) && AppliedTo(ss0, ss, outUse, last)
    requires last <= |ss| && s == ThisOpAt(ss, last) && (s < |ss| ==> ThisOpAt(ss, s + 1) == |ss|)
    ensures AppliedTo(ss0, ss, outUse, |ss0|)
  {
    hide Applied;
    forall k {:trigger Applied(ss0, ss, outUse, k)} | 0 <= k < |ss0|
      ensures Applied(ss0, ss, outUse, k)
    {
      if k < last {
        assert Applied(ss0, ss, outUse, k);
      } else if k == s && from <= s {
        OpSame(ss, ss0, from, s + 1);
        NoneFollows(ss0, ss, outUse, s);
      } else {
        NopApplied(ss0, ss, ss, outUse, last, from, k);
      }
    }
  }

  // ----- The statement the branch is tried with -----

  /** Arithmetic ends the statements, as the only one only if it is the first of the list. */
  ghost predicate AluEnd(ss: seq<Stmt>, j: int) {
    && 0 <= j < |ss| && ss[j].code.Alu? && AllNop(ss, j + 1)
    && (j == 0 || exists i {:trigger ss[i]} :: 0 <= i < j && ss[i].code != Nop)
  }

  /** No rule touches it. */
  lemma AluEndKept(ss0: seq<Stmt>, ss: seq<Stmt>, j: nat)
    requires Shape(ss0, ss) && NoneRevived(ss0, ss) && AluEnd(ss0, j)
    ensures ss[j] == ss0[j] && AllNop(ss, j + 1)
  {
    assert ss[j].code == Nop ==> LaterLoad(ss, j);
  }

  /** `last` is the start of the list, still unchanged, or was live. */
  ghost predicate LastSeen(ss0: seq<Stmt>, ss: seq<Stmt>, last: nat) {
    |ss| == |ss0| && last < |ss| && ((last == 0 && ss == ss0) || ss0[last].code != Nop)
  }

  /** When no two live statements are left, `last` is at the arithmetic that ends the statements. */
  lemma LastFound(ss0: seq<Stmt>, ss: seq<Stmt>, last: nat, s: nat, j: nat)
    requires Shape(ss0, ss) && NoneRevived(ss0, ss) && LastSeen(ss0, ss, last) && AluEnd(ss0, j)
    requires s == ThisOpAt(ss, last) && (s < |ss| ==> ThisOpAt(ss, s + 1) == |ss|)
    ensures last == j && ss[j] == ss0[j]
  {
    AluEndKept(ss0, ss, j);
    assert last <= j;
    assert s == j;
    assert last < j ==> LaterLoad(ss, last);
  }

  lemma LastsFound(ss0: seq<Stmt>, ss: seq<Stmt>, last: nat, s: nat)
    requires Shape(ss0, ss) && NoneRevived(ss0, ss) && LastSeen(ss0, ss, last)
    requires s == ThisOpAt(ss, last) && (s < |ss| ==> ThisOpAt(ss, s + 1) == |ss|)
    ensures forall j {:trigger AluEnd(ss0, j)} :: AluEnd(ss0, j) ==> last == j && ss[j] == ss0[j]
  {
    hide AluEnd;
    forall j {:trigger AluEnd(ss0, j)} | AluEnd(ss0, j)
      ensures last == j && ss[j] == ss0[j]
    {
      assert 0 <= j by { AluEndAt(ss0, j); }
      LastFound(ss0, ss, last, s, j);
    }
  }

  lemma AluEndAt(ss: seq<Stmt>, j: int)
    requires AluEnd(ss, j)
    ensures 0 <= j < |ss|
  {
  }

  lemma SeenNext(ss0: seq<Stmt>, ss: seq<Stmt>, ss1: seq<Stmt>, next: nat)
    requires NoneRevived(ss0, ss) && next < |ss| == |ss1| && ss[next].code != Nop
    ensures LastSeen(ss0, ss1, next)
  {
  }

  /** All turns. Afterwards the rules for all statements have been applied, and `last` is the last live statement, if
      it is live at all; if arithmetic ends the statements, it is there. */
  method PeepLoop(ss0: seq<Stmt>, outUse: set<Atom>, ghost test: Stmt)
      returns (ss: seq<Stmt>, last: nat, ghost dead: set<Atom>)
    requires AllMemOk(ss0) && ss0 != [] && MemOk(test)
    ensures SameMem(ss0, ss) && Shape(ss0, ss) && (NoLateX(ss0, test, outUse) ==> Preserves(ss0, ss, dead))
    ensures Lost(dead, ss, test, outUse) && dead <= Gone(ss0, ss) && Gone(ss0, ss) !! outUse
    ensures last < |ss| && (ss[last].code != Nop ==> AllNop(ss, last + 1)) && AppliedTo(ss0, ss, outUse, |ss0|)
    ensures forall j {:trigger AluEnd(ss0, j)} :: AluEnd(ss0, j) ==> last == j && ss[j] == ss0[j]
  {
    NothingChanged(ss0);
    NothingGone(ss0);
    hide Preserves, ThisOpAt, Shape, XGone, NoLateX, GoneAt, AluEnd, Applied;
    ss, last, dead := ss0, 0, {};
    ghost var from := 0;
    while true
      invariant SameMem(ss0, ss) && Shape(ss0, ss) && (NoLateX(ss0, test, outUse) ==> Preserves(ss0, ss, dead))
      invariant Lost(dead, ss, test, outUse) && dead <= Gone(ss0, ss) && Gone(ss0, ss) !! outUse
      invariant last < |ss| && Frontier(ss0, ss, last, from) && AppliedTo(ss0, ss, outUse, last)
      invariant LastSeen(ss0, ss, last)
      decreases |ss0| - last
    {
      var s := ThisOp(ss, last);
      if s == |ss| {
        AllApplied(ss0, ss, outUse, last, s, from);
        LastsFound(ss0, ss, last, s);
        return;
      }
      var next := ThisOp(ss, s + 1);
      if next == |ss| {
        AllApplied(ss0, ss, outUse, last, s, from);
        LastsFound(ss0, ss, last, s);
        return;
      }
      ghost var from0 := from;
      ghost var before, dead0 := ss, dead;
      ss, dead, from := PeepOne(ss, s, next, outUse, test, ss0, from);
      if NoLateX(ss0, test, outUse) {
        PreservesTrans(ss0, before, ss, dead0, dead);
      }
      ShapeTrans(ss0, before, ss);
      GoneMore(ss0, before, ss);
      if dead0 != {} {
        XGoneKept(before, ss, test, outUse);
      }
      assert dead0 + dead == {} || dead0 + dead == {X_ATOM};
      dead := dead0 + dead;
      TurnApplied(ss0, before, ss, outUse, last, s, next, from0);
      SeenNext(ss0, before, ss, next);
      last := next;
    }
  }

  // ----- A use of X left behind -----

  /** `ld #2; add x; tax; ldb [x + 0]; txa`: the last statement reads the sum from X. */
  const LATE: seq<Stmt> := [Stmt(LdImm, 2), Stmt(Alu(ADD, X), 0), Stmt(Tax, 0), Stmt(LdInd(B), 0), Stmt(Txa, 0)]

  /** What the rule makes of it: `ldb [x + 2]; txa`, which reads X itself. */
  const LATE_FOLDED: seq<Stmt> :=
    [Stmt(Nop, 2), Stmt(Nop, 0), Stmt(Nop, 0), Stmt(LdInd(B), 2), Stmt(Txa, 0)]

  /** The rule asks only whether X is live at the exit. Here it is not, and the branch `jeq #2` changes. */
  lemma LateRead(st: State, p: Packet)
    requires st[X_ATOM] == 0 && |p.data| >= 3
    ensures Pattern(LATE, 0) == Some(Idx(1, 1, 2, 3)) && Folded(LATE, 0, Idx(1, 1, 2, 3)) == LATE_FOLDED
    ensures ExecAll(LATE, st, p).Some? && Taken(Stmt(Jmp(JEQ, K), 2), ExecAll(LATE, st, p).value)
    ensures ExecAll(LATE_FOLDED, st, p).Some? && !Taken(Stmt(Jmp(JEQ, K), 2), ExecAll(LATE_FOLDED, st, p).value)
    ensures AllMemOk(LATE) && !NoLateX(LATE, Stmt(Jmp(JEQ, K), 2), {})
  {
    LatePattern();
    LateRuns(st, p);
    LateNotDead();
  }

  lemma LatePattern()
    ensures Pattern(LATE, 0) == Some(Idx(1, 1, 2, 3)) && Folded(LATE, 0, Idx(1, 1, 2, 3)) == LATE_FOLDED
  {
    assert ThisOpAt(LATE, 1) == 1 && ThisOpAt(LATE, 2) == 2 && ThisOpAt(LATE, 3) == 3;
  }

  lemma LateNotDead()
    ensures AllMemOk(LATE) && !NoLateX(LATE, Stmt(Jmp(JEQ, K), 2), {})
  {
    LatePattern();
    assert LATE[4..] == [Stmt(Txa, 0)] && Live([Stmt(Txa, 0)]) == [Stmt(Txa, 0)];
    assert Later(LATE, 4) == [Stmt(Txa, 0)];
    hide Pattern, ThisOpAt;
    assert !XDead(Later(LATE, 4), Stmt(Jmp(JEQ, K), 2));
    assert Pattern(LATE, 0).Some?;
  }

  lemma LateRuns(st: State, p: Packet)
    requires st[X_ATOM] == 0 && |p.data| >= 3
    ensures ExecAll(LATE, st, p).Some? && ExecAll(LATE, st, p).value[A_ATOM] == 2
    ensures ExecAll(LATE_FOLDED, st, p).Some? && ExecAll(LATE_FOLDED, st, p).value[A_ATOM] == 0
  {
    var s1, s2 := st[A_ATOM := 2], st[A_ATOM := 2][A_ATOM := 2];
    var s3 := s2[X_ATOM := 2];
    var b := p.data[2];
    assert LATE == [LATE[0]] + ([LATE[1]] + ([LATE[2]] + ([LATE[3]] + ([LATE[4]] + []))));
    assert LATE_FOLDED == [Stmt(Nop, 2)] + ([Stmt(Nop, 0)] + ([Stmt(Nop, 0)] + ([LATE_FOLDED[3]] + ([LATE[4]] + []))));
    assert Exec(LATE[0], st, p) == Some(s1) && Exec(LATE[1], s1, p) == Some(s2) && Exec(LATE[2], s2, p) == Some(s3);
    assert Exec(LATE[3], s3, p) == Some(s3[A_ATOM := b]);
    assert Exec(LATE[4], s3[A_ATOM := b], p) == Some(s3[A_ATOM := b][A_ATOM := 2]);
    assert Exec(Stmt(Nop, 2), st, p) == Exec(Stmt(Nop, 0), st, p) == Some(st);
    assert Exec(LATE_FOLDED[3], st, p) == Some(st[A_ATOM := b]);
    assert Exec(LATE[4], st[A_ATOM := b], p) == Some(st[A_ATOM := b][A_ATOM := 0]);
    hide Exec;
    LateChain(LATE[0], LATE[1], LATE[2], LATE[3], LATE[4], st, s1, s2, s3, s3[A_ATOM := b], p);
    LateChain(Stmt(Nop, 2), Stmt(Nop, 0), Stmt(Nop, 0), LATE_FOLDED[3], LATE[4], st, st, st, st, st[A_ATOM := b], p);
  }

  lemma LateChain(a: Stmt, b: Stmt, c: Stmt, d: Stmt, e: Stmt, s0: State, s1: State, s2: State, s3: State, s4: State,
                  p: Packet)
    requires Exec(a, s0, p) == Some(s1) && Exec(b, s1, p) == Some(s2) && Exec(c, s2, p) == Some(s3)
    requires Exec(d, s3, p) == Some(s4)
    ensures ExecAll([a] + ([b] + ([c] + ([d] + ([e] + [])))), s0, p) == Exec(e, s4, p)
  {
    hide Exec;
    ExecList(a, [b] + ([c] + ([d] + ([e] + []))), s0, p);
    ExecList(b, [c] + ([d] + ([e] + [])), s1, p);
    ExecList(c, [d] + ([e] + []), s2, p);
    ExecList(d, [e] + [], s3, p);
    ExecList(e, [], s4, p);
    match Exec(e, s4, p)
    case Some(s5) => assert ExecAll([], s5, p) == Some(s5);
    case None =>
  }
}
