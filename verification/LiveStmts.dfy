/** Statement lists without their deleted statements. */
module LiveStmts {
  import opened Bpf

  /** Deleted statements take no space. */
  ghost function Live(ss: seq<Stmt>): (r: seq<Stmt>)
    ensures |r| <= |ss|
  {
    if ss == [] then []
    else (if ss[0].code == Nop then [] else [ss[0]]) + Live(ss[1..])
  }

  lemma LiveSnoc(ss: seq<Stmt>, s: Stmt)
    ensures Live(ss + [s]) == Live(ss) + if s.code == Nop then [] else [s]
    decreases |ss|
  {
    LiveConcat(ss, [s]);
    assert [s][1..] == [];
    assert Live([s]) == if s.code == Nop then [] else [s];
  }

  lemma {:induction false} LiveMeaning(ss: seq<Stmt>, st: State, p: Packet)
    ensures ExecAll(Live(ss), st, p) == ExecAll(ss, st, p)
    decreases |ss|
  {
    hide Result, Dest;
    if ss != [] {
      if ss[0].code == Nop {
        assert Live(ss) == Live(ss[1..]);
        LiveMeaning(ss[1..], st, p);
      } else {
        assert Live(ss)[1..] == Live(ss[1..]);
        match Exec(ss[0], st, p)
        case Some(st1) => LiveMeaning(ss[1..], st1, p);
        case None =>
      }
    }
  }

  lemma {:induction false} LiveConcat(a: seq<Stmt>, b: seq<Stmt>)
    ensures Live(a + b) == Live(a) + Live(b)
    decreases |a|
  {
    if a == [] {
      assert a + b == b;
    } else {
      assert (a + b)[1..] == a[1..] + b && (a + b)[0] == a[0];
      LiveConcat(a[1..], b);
      if a[0].code != Nop {
        assert [a[0]] + (Live(a[1..]) + Live(b)) == ([a[0]] + Live(a[1..])) + Live(b);
      }
    }
  }

  lemma {:induction false} LivePrefix(ss: seq<Stmt>, i: nat)
    requires i <= |ss|
    ensures |Live(ss[..i])| <= |Live(ss)|
    decreases |ss|
  {
    if i > 0 {
      assert ss[..i][1..] == ss[1..][..i - 1];
      LivePrefix(ss[1..], i - 1);
    }
  }

  /** From statement `i` on everything has been deleted. */
  ghost predicate AllNop(ss: seq<Stmt>, i: nat) {
    forall k {:trigger ss[k]} :: i <= k < |ss| ==> ss[k].code == Nop
  }

  /** The last live statement is arithmetic. */
  ghost predicate EndsInAlu(ss: seq<Stmt>) {
    exists j :: 0 <= j < |ss| && ss[j].code.Alu? && AllNop(ss, j + 1)
  }

  /** Statement by statement, nothing that was deleted has come back. */
  ghost predicate NoneRevived(ss0: seq<Stmt>, ss: seq<Stmt>) {
    |ss| == |ss0| && forall k {:trigger ss[k]} :: 0 <= k < |ss| && ss0[k].code == Nop ==> ss[k].code == Nop
  }

  lemma {:induction false} NoneRevivedLive(ss0: seq<Stmt>, ss: seq<Stmt>)
    requires NoneRevived(ss0, ss)
    ensures |Live(ss)| <= |Live(ss0)|
    decreases |ss|
  {
    if ss != [] {
      assert ss[0] == ss[0];
      forall k {:trigger ss[1..][k]} | 0 <= k < |ss| - 1 && ss0[1..][k].code == Nop
        ensures ss[1..][k].code == Nop
      {
        assert ss[1..][k] == ss[k + 1];
      }
      NoneRevivedLive(ss0[1..], ss[1..]);
    }
  }
}
