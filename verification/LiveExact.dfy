/** in_use is exactly what some path reads before it defines it, and a dead store one that nothing reads. */
module LiveExact {
  import opened Bpf
  import opened Cfg
  import opened Atoms
  import opened LastDefs
  import opened Liveness
  import opened DeadStores

  // ----- One block -----

  predicate Uses(s: Stmt, a: Atom) {
    MemOk(s) && a in AtomUse(s)
  }

  /** One of the first `n` statements defines the atom. */
  ghost predicate DefinedBefore(ss: seq<Stmt>, n: int, a: Atom) {
    exists j {:trigger ss[j]} :: 0 <= j < n && j < |ss| && Defines(ss[j], a)
  }

  /** Some statement, or the test of the branch, reads the atom, and none before it defines it. */
  ghost predicate ReadFirst(n: Node, a: Atom) {
    || (exists i {:trigger n.stmts[i]} :: 0 <= i < |n.stmts| && Uses(n.stmts[i], a) && !DefinedBefore(n.stmts, i, a))
    || (n.test.code.Jmp? && Uses(n.test, a) && !DefinedBefore(n.stmts, |n.stmts|, a))
  }

  lemma {:induction false} LocalIs(ss: seq<Stmt>, a: Atom)
    requires AllMemOk(ss)
    ensures a in LocalOf(ss).use <==>
              exists i {:trigger ss[i]} :: 0 <= i < |ss| && Uses(ss[i], a) && !DefinedBefore(ss, i, a)
    ensures a in LocalOf(ss).def <==> DefinedBefore(ss, |ss|, a)
    decreases |ss|
  {
    if ss != [] {
      var n := |ss| - 1;
      var init, last := ss[..n], ss[n];
      assert last in ss && forall s :: s in init ==> s in ss;
      LocalIs(init, a);
      forall i | 0 <= i <= n
        ensures DefinedBefore(ss, i, a) == DefinedBefore(init, i, a)
      {
        PrefixDefines(ss, n, i, a);
      }
      if a in LocalOf(ss).use && a !in LocalOf(init).use {
        assert Uses(ss[n], a) && !DefinedBefore(ss, n, a);
      }
    }
  }

  lemma PrefixDefines(ss: seq<Stmt>, n: nat, i: nat, a: Atom)
    requires i <= n <= |ss|
    ensures DefinedBefore(ss, i, a) == DefinedBefore(ss[..n], i, a)
  {
    if DefinedBefore(ss, i, a) {
      var j :| 0 <= j < i && j < |ss| && Defines(ss[j], a);
      assert ss[..n][j] == ss[j];
    }
  }

  /** What compute_local_ud collects. */
  lemma BlockLocalIs(g: Graph, b: Block, a: Atom)
    requires GraphMemOk(g) && b in g
    ensures a in LocalAt(g, b).use <==> ReadFirst(g[b], a)
    ensures a in LocalAt(g, b).def <==> DefinedBefore(g[b].stmts, |g[b].stmts|, a)
    ensures LocalAt(g, b).kill == LocalAt(g, b).def - LocalAt(g, b).use
  {
    LocalIs(g[b].stmts, a);
    LocalGrows(g[b].stmts, |g[b].stmts|);
    hide LocalOf, DefinedBefore;
  }

  // ----- Paths -----

  /** The decisions `ds` lead from `b` to a block that reads the atom first, and no block on the way defines it. */
  ghost predicate ReadOn(g: Graph, b: Block, ds: seq<bool>, a: Atom)
    decreases |ds|
  {
    b in g && if ds == [] then ReadFirst(g[b], a)
              else !DefinedBefore(g[b].stmts, |g[b].stmts|, a) && Succ(g[b], ds[0]) != null
                   && ReadOn(g, Succ(g[b], ds[0]), ds[1..], a)
  }

  /** What is live on entry some path reads. */
  lemma {:induction false} LiveIsReadOn(g: Graph, rank: map<Block, nat>, b: Block, a: Atom) returns (ds: seq<bool>)
    requires Dag(g, rank) && GraphMemOk(g) && b in g && a in InUse(g, rank, b)
    ensures ReadOn(g, b, ds, a)
    decreases rank[b]
  {
    BlockLocalIs(g, b, a);
    assert DagNode(g, rank, b);
    hide LocalAt, ReadFirst, DefinedBefore, GraphMemOk;
    if a in LocalAt(g, b).use {
      ds := [];
    } else {
      var side := a in InUse(g, rank, g[b].jt);
      var rest := LiveIsReadOn(g, rank, Succ(g[b], side), a);
      ds := [side] + rest;
      assert ds[1..] == rest;
    }
  }

  lemma {:induction false} ReadOnIsLive(g: Graph, rank: map<Block, nat>, b: Block, ds: seq<bool>, a: Atom)
    requires Dag(g, rank) && GraphMemOk(g) && b in g && ReadOn(g, b, ds, a)
    ensures a in InUse(g, rank, b)
    decreases |ds|
  {
    BlockLocalIs(g, b, a);
    LocalGrows(g[b].stmts, |g[b].stmts|);
    assert DagNode(g, rank, b);
    if ds != [] {
      ReadOnIsLive(g, rank, Succ(g[b], ds[0]), ds[1..], a);
      hide LocalOf, ReadFirst, DefinedBefore, GraphMemOk;
      assert a !in LocalAt(g, b).kill;
    }
  }

  /** in_use(b): the atoms that some path from b reads before it defines them. */
  lemma LiveExact(g: Graph, rank: map<Block, nat>, b: Block, a: Atom)
    requires Dag(g, rank) && GraphMemOk(g) && b in g
    ensures a in InUse(g, rank, b) <==> exists ds :: ReadOn(g, b, ds, a)
  {
    if a in InUse(g, rank, b) {
      var ds := LiveIsReadOn(g, rank, b, a);
    }
    hide InUse, Dag, GraphMemOk;
    forall ds | ReadOn(g, b, ds, a)
      ensures a in InUse(g, rank, b)
    {
      ReadOnIsLive(g, rank, b, ds, a);
    }
  }

  // ----- Dead stores -----

  /** Nothing after statement j and before i reads the atom or defines it. */
  ghost predicate Untouched(ss: seq<Stmt>, j: int, i: int, a: Atom) {
    forall k {:trigger ss[k]} :: j < k < i && 0 <= k < |ss| ==> !Uses(ss[k], a) && !Defines(ss[k], a)
  }

  /** The next statement that touches the atom, before i, sets it without reading it. */
  ghost predicate SetAgain(ss: seq<Stmt>, j: nat, i: nat, a: Atom) {
    exists m {:trigger ss[m]} :: j < m < i && m < |ss| && Defines(ss[m], a) && !Uses(ss[m], a) && Untouched(ss, j, m, a)
  }

  lemma {:induction false} FateIs(ss: seq<Stmt>, j: nat, i: nat, a: Atom)
    requires AllMemOk(ss) && j < i <= |ss|
    ensures FateOf(ss, j, i, a) == Waiting <==> Untouched(ss, j, i, a)
    ensures FateOf(ss, j, i, a) == Overwritten <==> SetAgain(ss, j, i, a)
    decreases i
  {
    if i > j + 1 {
      assert ss[i - 1] in ss;
      FateIs(ss, j, i - 1, a);
      if SetAgain(ss, j, i, a) && !SetAgain(ss, j, i - 1, a) {
        assert Untouched(ss, j, i - 1, a);
      }
    }
  }

  /** A dead store: what it sets is set again before it is read, or read by nothing after and not live at the exit. */
  lemma DeadStoreExact(ss: seq<Stmt>, test: Stmt, outUse: set<Atom>, j: nat)
    requires AllMemOk(ss) && MemOk(test) && j < |ss|
    ensures DeadStore(ss, test, outUse, N_ATOMS, j) <==>
              exists a: Atom :: Defines(ss[j], a)
                && (SetAgain(ss, j, |ss|, a) || (Untouched(ss, j, |ss|, a) && !Uses(test, a) && a !in outUse))
  {
    assert ss[j] in ss;
    if AtomDef(ss[j]).Some? {
      FateIs(ss, j, |ss|, AtomDef(ss[j]).value);
    }
    hide FateOf, Untouched, SetAgain;
  }
}
