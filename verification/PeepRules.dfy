/** Which statements the rewritings of opt_peep are for, and what they make of them. */
module PeepRules {
  import opened Bpf
  import opened PeepStmts

  /** Statement j is the next live one after i. */
  ghost predicate Follows(ss: seq<Stmt>, i: int, j: int) {
    0 <= i < j < |ss| && ss[j].code != Nop && forall k {:trigger ss[k]} :: i < k < j ==> ss[k].code == Nop
  }

  lemma FollowsIs(ss: seq<Stmt>, i: nat, j: nat)
    requires i < |ss|
    ensures Follows(ss, i, j) <==> j == ThisOpAt(ss, i + 1) && j < |ss|
    ensures Follows(ss, i, j) ==> i < j
  {
    var n := ThisOpAt(ss, i + 1);
    if Follows(ss, i, j) {
      assert n <= j;
      assert n < |ss|;
    }
    hide ThisOpAt;
  }

  /** The statements of the indexed-load rule stand at i: `ld #k; [ldxms;] add x; tax; ld [x + k']`. */
  ghost predicate Stands(ss: seq<Stmt>, i: int, x: Idx) {
    && 0 <= i < |ss| && ss[i].code == LdImm
    && Follows(ss, i, x.next) && (x.add == x.next || (ss[x.next].code == LdxMsh && Follows(ss, x.next, x.add)))
    && x.add < |ss| && ss[x.add].code == Alu(ADD, X)
    && Follows(ss, x.add, x.tax) && ss[x.tax].code == Tax
    && Follows(ss, x.tax, x.ild) && ss[x.ild].code.LdInd?
  }

  lemma PatternStands(ss: seq<Stmt>, i: nat, x: Idx)
    requires i < |ss|
    ensures Pattern(ss, i) == Some(x) <==> Stands(ss, i, x)
  {
    hide Follows, ThisOpAt;
    FollowsIs(ss, i, x.next);
    if x.next < |ss| {
      FollowsIs(ss, x.next, x.add);
    }
    if x.add < |ss| {
      FollowsIs(ss, x.add, x.tax);
    }
    if x.tax < |ss| {
      FollowsIs(ss, x.tax, x.ild);
    }
  }

  /** What the rule makes of them. */
  ghost predicate FoldedIn(ss0: seq<Stmt>, ss: seq<Stmt>, i: int, x: Idx)
    requires Stands(ss0, i, x) && |ss| == |ss0|
  {
    && ss[i].code == ss[x.add].code == ss[x.tax].code == Nop
    && ss[x.ild] == Stmt(ss0[x.ild].code, Wrap(ss0[x.ild].k + ss0[i].k))
  }

  /** The rules that are for statement i of `ss0` have been applied: `st M[k]; ldx M[k]` has become `st M[k]; tax`,
      `ld #k; tax` has become `ldx #k; txa`, and the constant has been moved into an indexed load if X is not live. */
  ghost predicate Applied(ss0: seq<Stmt>, ss: seq<Stmt>, outUse: set<Atom>, i: int)
    requires |ss| == |ss0| && 0 <= i < |ss0|
  {
    && (forall n {:trigger Follows(ss0, i, n)} :: Follows(ss0, i, n) ==>
         && (ss0[i].code == St && ss0[n] == Stmt(LdxMem, ss0[i].k) ==> ss[n] == Stmt(Tax, ss0[i].k))
         && (ss0[i].code == LdImm && ss0[n].code == Tax ==>
              ss[i] == Stmt(LdxImm, ss0[i].k) && ss[n] == Stmt(Txa, ss0[n].k)))
    && (X_ATOM !in outUse ==> forall x {:trigger Stands(ss0, i, x)} :: Stands(ss0, i, x) ==> FoldedIn(ss0, ss, i, x))
  }

  /** Those for the first `n` statements. */
  ghost predicate AppliedTo(ss0: seq<Stmt>, ss: seq<Stmt>, outUse: set<Atom>, n: int)
    requires |ss| == |ss0|
  {
    forall i {:trigger Applied(ss0, ss, outUse, i)} :: 0 <= i < n && i < |ss0| ==> Applied(ss0, ss, outUse, i)
  }

  /** A rule is for a store or the load of a constant. */
  predicate Starts(s: Stmt) {
    s.code == St || s.code == LdImm
  }

  lemma NoRule(ss0: seq<Stmt>, ss: seq<Stmt>, outUse: set<Atom>, i: nat)
    requires |ss| == |ss0| && i < |ss0| && !Starts(ss0[i])
    ensures Applied(ss0, ss, outUse, i)
  {
  }

  /** Nor is one for the last live statement. */
  lemma NoneFollows(ss0: seq<Stmt>, ss: seq<Stmt>, outUse: set<Atom>, i: nat)
    requires |ss| == |ss0| && i < |ss0| && ThisOpAt(ss0, i + 1) == |ss0|
    ensures Applied(ss0, ss, outUse, i)
  {
    assert forall n {:trigger Follows(ss0, i, n)} :: !Follows(ss0, i, n);
    hide ThisOpAt, Follows;
  }

  /** What a rule rewrites lies before the next statement a rule is for. */
  lemma AppliedStays(ss0: seq<Stmt>, ss: seq<Stmt>, ss1: seq<Stmt>, outUse: set<Atom>, i: nat, s: nat)
    requires |ss1| == |ss| == |ss0| && i < s < |ss0| && Starts(ss0[s]) && ss1[..s] == ss[..s]
    requires Applied(ss0, ss, outUse, i)
    ensures Applied(ss0, ss1, outUse, i)
  {
    assert forall k {:trigger ss1[k]} :: 0 <= k < s ==> ss1[k] == ss1[..s][k] == ss[..s][k] == ss[k];
    forall n | Follows(ss0, i, n) && !Starts(ss0[n])
      ensures n < s
    {
    }
    forall x | Stands(ss0, i, x) && X_ATOM !in outUse
      ensures FoldedIn(ss0, ss1, i, x)
    {
      assert x.next < s && x.add < s && x.tax < s && x.ild < s;
    }
  }
}
