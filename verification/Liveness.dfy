/** Use and definition of the atoms: compute_local_ud and find_ud. */
module Liveness {
  import opened Bpf
  import opened Cfg
  import opened Atoms
  import opened Levels

  // ----- One block -----

  /** What compute_local_ud collects: the atoms defined, used before being defined, and killed. */
  datatype Local = Local(def: set<Atom>, use: set<Atom>, kill: set<Atom>)

  function UseStep(l: Local, s: Stmt): Local
    requires MemOk(s)
  {
    l.(use := l.use + (AtomUse(s) - l.def))
  }

  function DefStep(l: Local, s: Stmt): Local
    requires MemOk(s)
  {
    match AtomDef(s)
    case None => l
    case Some(a) => Local(l.def + {a}, l.use, if a in l.use then l.kill else l.kill + {a})
  }

  ghost function LocalOf(ss: seq<Stmt>): Local
    requires AllMemOk(ss)
    decreases |ss|
  {
    if ss == [] then Local({}, {}, {})
    else
      var (init, last) := (ss[..|ss| - 1], ss[|ss| - 1]);
      assert last in ss && forall s :: s in init ==> s in ss;
      DefStep(UseStep(LocalOf(init), last), last)
  }

  /** The statements and, for a branch, its test. */
  ghost function BlockLocal(ss: seq<Stmt>, test: Stmt): Local
    requires AllMemOk(ss) && MemOk(test)
  {
    if test.code.Jmp? then UseStep(LocalOf(ss), test) else LocalOf(ss)
  }

  method ComputeLocalUd(ss: seq<Stmt>, test: Stmt) returns (l: Local)
    requires AllMemOk(ss) && MemOk(test)
    ensures l == BlockLocal(ss, test)
  {
    var def, use, kill: set<Atom> := {}, {}, {};
    for i := 0 to |ss|
      invariant AllMemOk(ss[..i]) && Local(def, use, kill) == LocalOf(ss[..i])
    {
      var s := ss[i];
      assert ss[..i + 1][..i] == ss[..i] && s in ss;
      if s.code != Nop {
        use := use + (AtomUse(s) - def);
        var atom := AtomDef(s);
        if atom.Some? {
          if atom.value !in use {
            kill := kill + {atom.value};
          }
          def := def + {atom.value};
        }
      } else {
        assert use + ({} - def) == use;
      }
    }
    assert ss[..|ss|] == ss;
    if test.code.Jmp? {
      use := use + (AtomUse(test) - def);
    }
    return Local(def, use, kill);
  }

  /** The killed atoms are those defined and not used before; uses only grow. */
  lemma {:induction false} LocalGrows(ss: seq<Stmt>, i: nat)
    requires AllMemOk(ss) && i <= |ss|
    ensures AllMemOk(ss[..i]) && LocalOf(ss[..i]).use <= LocalOf(ss).use
    ensures LocalOf(ss).kill == LocalOf(ss).def - LocalOf(ss).use
    decreases |ss|
  {
    if ss != [] {
      var n := |ss| - 1;
      assert forall s :: s in ss[..n] ==> s in ss;
      if i <= n {
        assert ss[..n][..i] == ss[..i];
        LocalGrows(ss[..n], i);
      } else {
        assert ss[..i] == ss;
        LocalGrows(ss[..n], n);
      }
    }
  }

  /** Two entry states that agree on the atoms used: both fault or neither does, and the exit states
      agree on every atom defined in the block and on every atom the entry states agreed on. */
  lemma {:induction false} ExecAgree(ss: seq<Stmt>, st: State, st': State, p: Packet, Z: set<Atom>)
    requires AllMemOk(ss) && AgreeOn(st, st', LocalOf(ss).use + Z)
    ensures ExecAll(ss, st, p).Some? == ExecAll(ss, st', p).Some?
    ensures ExecAll(ss, st, p).Some? ==>
              AgreeOn(ExecAll(ss, st, p).value, ExecAll(ss, st', p).value, LocalOf(ss).def + Z + LocalOf(ss).use)
    decreases |ss|
  {
    if ss != [] {
      var (init, last) := (ss[..|ss| - 1], ss[|ss| - 1]);
      assert ss == init + [last] && last in ss && forall s :: s in init ==> s in ss;
      var l, l0 := LocalOf(ss), LocalOf(init);
      assert l.use == UseStep(l0, last).use;
      ExecAgree(init, st, st', p, Z + l.use);
      ExecAllConcat(init, [last], st, p);
      ExecAllConcat(init, [last], st', p);
      if ExecAll(init, st, p).Some? {
        var st1, st1' := ExecAll(init, st, p).value, ExecAll(init, st', p).value;
        assert AgreeOn(st1, st1', AtomUse(last));
        UseDefExact(last, st1, st1', p);
        ExecOne(last, st1, p);
        ExecOne(last, st1', p);
      }
    }
  }

  lemma ExecOne(s: Stmt, st: State, p: Packet)
    ensures ExecAll([s], st, p) == Exec(s, st, p)
  {
    assert [s][1..] == [];
  }

  /** What a block does not define it leaves alone. */
  lemma {:induction false} UndefinedKept(ss: seq<Stmt>, st: State, p: Packet, a: Atom)
    requires AllMemOk(ss) && ExecAll(ss, st, p).Some? && a !in LocalOf(ss).def
    ensures ExecAll(ss, st, p).value[a] == st[a]
    decreases |ss|
  {
    if ss != [] {
      var (init, last) := (ss[..|ss| - 1], ss[|ss| - 1]);
      assert ss == init + [last] && last in ss && forall s :: s in init ==> s in ss;
      ExecAllConcat(init, [last], st, p);
      UndefinedKept(init, st, p, a);
      var st1 := ExecAll(init, st, p).value;
      ExecOne(last, st1, p);
      UseDefExact(last, st1, st1, p);
    }
  }

  // ----- The whole graph -----

  ghost predicate GraphMemOk(g: Graph) {
    forall b {:trigger g[b]} :: b in g ==> AllMemOk(g[b].stmts) && MemOk(g[b].test)
  }

  ghost function LocalAt(g: Graph, b: Block): Local
    requires GraphMemOk(g) && b in g
  {
    BlockLocal(g[b].stmts, g[b].test)
  }

  ghost function InUse(g: Graph, rank: map<Block, nat>, b: Block): set<Atom>
    requires Dag(g, rank) && GraphMemOk(g) && b in g
    decreases rank[b], 1
  {
    LocalAt(g, b).use + (OutUse(g, rank, b) - LocalAt(g, b).kill)
  }

  ghost function OutUse(g: Graph, rank: map<Block, nat>, b: Block): set<Atom>
    requires Dag(g, rank) && GraphMemOk(g) && b in g
    decreases rank[b], 0
  {
    assert DagNode(g, rank, b);
    if g[b].jt == null then {} else InUse(g, rank, g[b].jt) + InUse(g, rank, g[b].jf)
  }

  /** Two states that agree on in_use(b) leave b with states that agree on out_use(b), by the same
      branch; or both fault. */
  lemma BlockAgree(g: Graph, rank: map<Block, nat>, b: Block, st: State, st': State, p: Packet)
    requires Dag(g, rank) && GraphMemOk(g) && b in g && AgreeOn(st, st', InUse(g, rank, b))
    ensures ExecAll(g[b].stmts, st, p).Some? == ExecAll(g[b].stmts, st', p).Some?
    ensures ExecAll(g[b].stmts, st, p).Some? ==>
              && AgreeOn(ExecAll(g[b].stmts, st, p).value, ExecAll(g[b].stmts, st', p).value, OutUse(g, rank, b))
              && (g[b].test.code.Jmp? ==>
                   Taken(g[b].test, ExecAll(g[b].stmts, st, p).value)
                   == Taken(g[b].test, ExecAll(g[b].stmts, st', p).value))
  {
    var ss, l := g[b].stmts, LocalOf(g[b].stmts);
    LocalGrows(ss, |ss|);
    var Z := InUse(g, rank, b);
    assert l.use <= LocalAt(g, b).use;
    ExecAgree(ss, st, st', p, Z);
    if ExecAll(ss, st, p).Some? && g[b].test.code.Jmp? {
      TakenAgree(g[b].test, ExecAll(ss, st, p).value, ExecAll(ss, st', p).value);
    }
  }

  /** Liveness is sound: states that agree on in_use(b) give the same run from b, faults included. */
  lemma {:induction false} RunAgree(g: Graph, rank: map<Block, nat>, b: Block, st: State, st': State, p: Packet,
                                    fuel: nat)
    requires Dag(g, rank) && GraphMemOk(g) && b in g && AgreeOn(st, st', InUse(g, rank, b))
    ensures Run(g, b, st, p, fuel) == Run(g, b, st', p, fuel)
    decreases fuel
  {
    if fuel > 0 {
      BlockAgree(g, rank, b, st, st', p);
      assert DagNode(g, rank, b);
      var st1 := ExecAll(g[b].stmts, st, p);
      if st1.Some? && g[b].test.code.Jmp? {
        var c := Succ(g[b], Taken(g[b].test, st1.value));
        assert InUse(g, rank, c) <= OutUse(g, rank, b);
        RunAgree(g, rank, c, st1.value, ExecAll(g[b].stmts, st', p).value, p, fuel - 1);
      }
    }
  }

  // ----- find_ud -----

  datatype Ud = Ud(def: set<Atom>, kill: set<Atom>, inUse: set<Atom>, outUse: set<Atom>)

  ghost function UdsOf(S: set<Block>): (r: map<Block, Ud>)
    reads S`def, S`kill, S`inUse, S`outUse
    ensures r.Keys == S
  {
    map b | b in S :: Ud(b.def, b.kill, b.inUse, b.outUse)
  }

  ghost function LocalUd(g: Graph, b: Block): Ud
    requires GraphMemOk(g) && b in g
  {
    Ud(LocalAt(g, b).def, LocalAt(g, b).kill, LocalAt(g, b).use, {})
  }

  ghost function FinalUd(g: Graph, rank: map<Block, nat>, b: Block): Ud
    requires Dag(g, rank) && GraphMemOk(g) && b in g
  {
    Ud(LocalAt(g, b).def, LocalAt(g, b).kill, InUse(g, rank, b), OutUse(g, rank, b))
  }

  /** The blocks below level `l`, and those of `prefix`. */
  ghost function Below(g: Graph, rank: map<Block, nat>, R: set<Block>, l: int, prefix: seq<Block>): set<Block>
    requires Dag(g, rank) && R <= g.Keys
  {
    set b | b in R && (LevelOf(g, rank, b) < l || b in prefix)
  }

  ghost predicate LocalUpTo(g: Graph, R: set<Block>, done: set<Block>, uds: map<Block, Ud>)
    requires GraphMemOk(g) && R <= g.Keys && R <= uds.Keys
  {
    forall b {:trigger uds[b]} :: b in R && b in done ==> uds[b] == LocalUd(g, b)
  }

  ghost predicate FinalUpTo(g: Graph, rank: map<Block, nat>, R: set<Block>, done: set<Block>, uds: map<Block, Ud>)
    requires Dag(g, rank) && GraphMemOk(g) && R <= g.Keys && R <= uds.Keys
  {
    forall b {:trigger uds[b]} :: b in R ==> uds[b] == if b in done then FinalUd(g, rank, b) else LocalUd(g, b)
  }

  /** At the leaves the local sets are final. */
  lemma LeavesFinal(g: Graph, rank: map<Block, nat>, R: set<Block>, uds: map<Block, Ud>)
    requires Dag(g, rank) && GraphMemOk(g) && R <= g.Keys && R <= uds.Keys && LocalUpTo(g, R, R, uds)
    ensures FinalUpTo(g, rank, R, Below(g, rank, R, 1, []), uds)
  {
    forall b {:trigger uds[b]} | b in R && b in Below(g, rank, R, 1, [])
      ensures uds[b] == FinalUd(g, rank, b)
    {
      assert DagNode(g, rank, b);
    }
  }

  /** The next block going up: it has not been handled, and its successors have. */
  ghost predicate UpTurn(g: Graph, R: set<Block>, done: set<Block>, b: Block) {
    && b in R && b in g && b !in done
    && g[b].jt != null && g[b].jf != null && g[b].jt in R && g[b].jf in R && g[b].jt in done && g[b].jf in done
  }

  lemma UpTurnComes(g: Graph, rank: map<Block, nat>, root: Block, levels: seq<seq<Block>>, l: nat, j: nat)
    requires Dag(g, rank) && root in g && Lists(levels, g, rank, Reach(g, rank, root)) && 0 < l < |levels|
    requires j < |levels[l]|
    ensures UpTurn(g, Reach(g, rank, root), Below(g, rank, Reach(g, rank, root), l, levels[l][..j]), levels[l][j])
  {
    var R, b := Reach(g, rank, root), levels[l][j];
    assert b in levels[l];
    assert DagNode(g, rank, b);
    ReachClosed(g, rank, root, b);
    assert g[b].jt in Reach(g, rank, b) && g[b].jf in Reach(g, rank, b);
  }

  lemma BelowNext(g: Graph, rank: map<Block, nat>, R: set<Block>, levels: seq<seq<Block>>, l: nat, j: nat)
    requires Dag(g, rank) && Lists(levels, g, rank, R) && l < |levels| && j < |levels[l]|
    ensures Below(g, rank, R, l, levels[l][..j + 1]) == Below(g, rank, R, l, levels[l][..j]) + {levels[l][j]}
  {
    assert levels[l][j] in levels[l];
    assert levels[l][..j + 1] == levels[l][..j] + [levels[l][j]];
  }

  /** The two assignments of the second phase. */
  ghost function Raised(u: Ud, t: Ud, f: Ud): Ud {
    var out := u.outUse + (t.inUse + f.inUse);
    Ud(u.def, u.kill, u.inUse + (out - u.kill), out)
  }

  /** They are final at a block whose successors are. */
  lemma UpStep(g: Graph, rank: map<Block, nat>, R: set<Block>, done: set<Block>, b: Block, uds: map<Block, Ud>)
    requires Dag(g, rank) && GraphMemOk(g) && R <= g.Keys && R <= uds.Keys && UpTurn(g, R, done, b)
    requires FinalUpTo(g, rank, R, done, uds)
    ensures FinalUpTo(g, rank, R, done + {b}, uds[b := Raised(uds[b], uds[g[b].jt], uds[g[b].jf])])
  {
    assert uds[g[b].jt] == FinalUd(g, rank, g[b].jt) && uds[g[b].jf] == FinalUd(g, rank, g[b].jf);
    assert uds[b] == LocalUd(g, b);
    assert uds[b].outUse + (uds[g[b].jt].inUse + uds[g[b].jf].inUse) == OutUse(g, rank, b);
    hide LocalAt;
  }

  lemma UpNext(g: Graph, rank: map<Block, nat>, R: set<Block>, levels: seq<seq<Block>>, l: nat)
    requires Dag(g, rank) && Lists(levels, g, rank, R) && l < |levels|
    ensures Below(g, rank, R, l, levels[l][..|levels[l]|]) == Below(g, rank, R, l + 1, [])
    ensures Below(g, rank, R, l, levels[l][..0]) == Below(g, rank, R, l, [])
  {
    assert levels[l][..|levels[l]|] == levels[l] && levels[l][..0] == [];
  }

  lemma UpAll(g: Graph, rank: map<Block, nat>, root: Block)
    requires Dag(g, rank) && root in g
    ensures Below(g, rank, Reach(g, rank, root), LevelOf(g, rank, root) + 1, []) == Reach(g, rank, root)
  {
    forall b | b in Reach(g, rank, root)
      ensures LevelOf(g, rank, b) <= LevelOf(g, rank, root)
    {
      LevelsInReach(g, rank, root, b);
    }
  }

  method SetUd(b: Block, ud: Ud, ghost S: set<Block>, ghost g: Graph, ghost rank: map<Block, nat>, ghost root: Block,
               ghost blocks: seq<Block>, ghost levels: seq<seq<Block>>)
    requires b in S && Leveled(S, g, rank, root, blocks, levels)
    modifies S`def, S`kill, S`inUse, S`outUse
    ensures Leveled(S, g, rank, root, blocks, levels) && UdsOf(S) == old(UdsOf(S))[b := ud]
  {
    hide *;
    SetSets(b, ud, S);
  }

  method SetSets(b: Block, ud: Ud, ghost S: set<Block>)
    requires b in S
    modifies S`def, S`kill, S`inUse, S`outUse
    ensures UdsOf(S) == old(UdsOf(S))[b := ud]
  {
    b.def, b.kill, b.inUse, b.outUse := ud.def, ud.kill, ud.inUse, ud.outUse;
  }

  /** First phase at the j-th block of level l. */
  method LocalNext(b: Block, ghost root: Block, ghost blocks: seq<Block>, ghost levels: seq<seq<Block>>, ghost l: nat,
                   ghost j: nat, ghost S: set<Block>, ghost g: Graph, ghost rank: map<Block, nat>)
    requires Leveled(S, g, rank, root, blocks, levels) && GraphMemOk(g) && l < |levels| && j < |levels[l]|
    requires b == levels[l][j]
    requires LocalUpTo(g, Reach(g, rank, root), Done(g, rank, Reach(g, rank, root), l, levels[l][..j]), UdsOf(S))
    modifies S`def, S`kill, S`inUse, S`outUse
    ensures Leveled(S, g, rank, root, blocks, levels)
    ensures LocalUpTo(g, Reach(g, rank, root), Done(g, rank, Reach(g, rank, root), l, levels[l][..j + 1]), UdsOf(S))
  {
    ghost var R := Reach(g, rank, root);
    DoneNext(g, rank, R, levels, l, j);
    assert b in levels[l] && b in R && g[b] == NodeOf(b);
    assert AllMemOk(b.stmts) && MemOk(b.s);
    hide Dag, Lists, Reach, Done, Leveled, LevelOf, BlockLocal;
    var u := ComputeLocalUd(b.stmts, b.s);
    SetUd(b, Ud(u.def, u.kill, u.use, {}), S, g, rank, root, blocks, levels);
  }

  /** Second phase at the j-th block of level l. */
  method FinalNext(b: Block, ghost root: Block, ghost blocks: seq<Block>, ghost levels: seq<seq<Block>>, ghost l: nat,
                   ghost j: nat, ghost S: set<Block>, ghost g: Graph, ghost rank: map<Block, nat>)
    requires Leveled(S, g, rank, root, blocks, levels) && GraphMemOk(g) && 0 < l < |levels| && j < |levels[l]|
    requires b == levels[l][j]
    requires FinalUpTo(g, rank, Reach(g, rank, root), Below(g, rank, Reach(g, rank, root), l, levels[l][..j]), UdsOf(S))
    modifies S`def, S`kill, S`inUse, S`outUse
    ensures Leveled(S, g, rank, root, blocks, levels)
    ensures FinalUpTo(g, rank, Reach(g, rank, root), Below(g, rank, Reach(g, rank, root), l, levels[l][..j + 1]),
        UdsOf(S))
  {
    ghost var uds, R := UdsOf(S), Reach(g, rank, root);
    ghost var done := Below(g, rank, R, l, levels[l][..j]);
    UpTurnComes(g, rank, root, levels, l, j);
    BelowNext(g, rank, R, levels, l, j);
    UpStep(g, rank, R, done, b, uds);
    assert g[b] == NodeOf(b);
    var t, f := b.jt, b.jf;
    assert uds[b] == Ud(b.def, b.kill, b.inUse, b.outUse);
    assert uds[t].inUse == t.inUse && uds[f].inUse == f.inUse;
    var out := b.outUse + (t.inUse + f.inUse);
    assert Raised(uds[b], uds[t], uds[f]) == Ud(b.def, b.kill, b.inUse + (out - b.kill), out);
    hide *;
    SetUd(b, Ud(b.def, b.kill, b.inUse + (out - b.kill), out), S, g, rank, root, blocks, levels);
  }

  /** find_ud. */
  method FindUd(root: Block, levels: seq<seq<Block>>, ghost blocks: seq<Block>, ghost S: set<Block>, ghost g: Graph,
                ghost rank: map<Block, nat>)
    requires Leveled(S, g, rank, root, blocks, levels) && GraphMemOk(g)
    modifies S`def, S`kill, S`inUse, S`outUse
    ensures Leveled(S, g, rank, root, blocks, levels)
    ensures forall b {:trigger UdsOf(S)[b]} :: b in Reach(g, rank, root) ==> UdsOf(S)[b] == FinalUd(g, rank, b)
  {
    hide *;
    LeveledFacts(S, g, rank, root, blocks, levels);
    ghost var R := Reach(g, rank, root);
    var maxlevel := root.level;
    NoneDone(g, rank, root);
    AllDone(g, rank, R);
    UpAll(g, rank, root);
    NoneLocal(g, R, UdsOf(S));
    for l := maxlevel + 1 downto 0
      invariant Leveled(S, g, rank, root, blocks, levels)
      invariant LocalUpTo(g, R, Done(g, rank, R, l - 1, []), UdsOf(S))
    {
      LevelStart(g, rank, R, levels, l);
      for j := 0 to |levels[l]|
        invariant Leveled(S, g, rank, root, blocks, levels)
        invariant LocalUpTo(g, R, Done(g, rank, R, l, levels[l][..j]), UdsOf(S))
      {
        LocalNext(levels[l][j], root, blocks, levels, l, j, S, g, rank);
      }
      NextLevel(g, rank, R, levels, l);
    }
    LeavesFinal(g, rank, R, UdsOf(S));
    for l := 1 to maxlevel + 1
      invariant Leveled(S, g, rank, root, blocks, levels)
      invariant FinalUpTo(g, rank, R, Below(g, rank, R, l, []), UdsOf(S))
    {
      UpNext(g, rank, R, levels, l);
      for j := 0 to |levels[l]|
        invariant Leveled(S, g, rank, root, blocks, levels)
        invariant FinalUpTo(g, rank, R, Below(g, rank, R, l, levels[l][..j]), UdsOf(S))
      {
        FinalNext(levels[l][j], root, blocks, levels, l, j, S, g, rank);
      }
    }
    FinalAll(g, rank, R, UdsOf(S));
  }

  lemma NoneLocal(g: Graph, R: set<Block>, uds: map<Block, Ud>)
    requires GraphMemOk(g) && R <= g.Keys && R <= uds.Keys
    ensures LocalUpTo(g, R, {}, uds)
  {
  }

  lemma FinalAll(g: Graph, rank: map<Block, nat>, R: set<Block>, uds: map<Block, Ud>)
    requires Dag(g, rank) && GraphMemOk(g) && R <= g.Keys && R <= uds.Keys && FinalUpTo(g, rank, R, R, uds)
    ensures forall b {:trigger uds[b]} :: b in R ==> uds[b] == FinalUd(g, rank, b)
  {
  }
}
