/** Two blocks in which dead-store removal and value numbering, each right, together lose a load. */
module StaleTable {
  import opened Bpf
  import opened Cfg
  import opened Atoms
  import opened Runs
  import opened LastDefs
  import opened Liveness
  import opened DeadStores
  import opened ValueTable
  import opened Symbolic
  import opened BlockValues
  import opened ValueFlow
  import opened PeepRules
  import opened Peephole
  import opened PeepBlock
  import opened OptBlk
  import opened BlkFlow
  import opened PullFaults

  /** `ldx 4*([14]&0xf)`, what deletion leaves of it, `ldb [0]`, and `ldb [x + 16]`. */
  const HEADER: Stmt := Stmt(LdxMsh, 14)
  const GONE: Stmt := Stmt(Nop, 14)
  const ZERO: Stmt := Stmt(LdAbs(B), 0)
  const BYTE: Stmt := Stmt(LdInd(B), 16)

  const TEST_A: Stmt := Stmt(Jmp(JEQ, K), 0)
  const TEST_B: Stmt := Stmt(Jmp(JEQ, K), 5)

  /** Both blocks load X from the header; the first does not use it, the second loads the byte X leads to. */
  function StaleGraph(a: Block, b: Block, yes: Block, no: Block): Graph {
    map[a := Node([HEADER, ZERO], TEST_A, b, no), b := Node([HEADER, BYTE], TEST_B, yes, no),
        yes := Returning(1), no := Returning(0)]
  }

  /** What opt_blk leaves: the first load of X is dead, the second has the number X had before. */
  function StaleLeft(a: Block, b: Block, yes: Block, no: Block): Graph {
    map[a := Node([GONE, ZERO], TEST_A, b, no), b := Node([GONE, BYTE], TEST_B, yes, no),
        yes := Returning(1), no := Returning(0)]
  }

  function StaleRank(a: Block, b: Block, yes: Block, no: Block): map<Block, nat> {
    map[a := 2, b := 1, yes := 0, no := 0]
  }

  ghost predicate Four(a: Block, b: Block, yes: Block, no: Block) {
    a !in {b, yes, no} && b !in {yes, no} && yes != no
  }

  // ----- The numbers -----

  const NONE: Vals := seq(N_ATOMS, _ => 0)
  const KEY1: Key := Key(LdxMsh, 14, 0)
  const KEY2: Key := Key(LdAbs(B), 0, 0)
  const KEY4: Key := Key(LdInd(B), 16, 1)

  /** The table when the second block is entered: X has the number of the header, A that of the first byte, and 0 has
      been numbered as what the first test compares with. */
  const KEYS: seq<Key> := [KEY1, KEY2, ConstKey(0)]
  const LEFT: Vals := NONE[X_ATOM := 1][A_ATOM := 2]

  /** Two statements, one after the other. */
  lemma TwoSteps(keys: seq<Key>, val: Vals, s: Stmt, t: Stmt, q: Rewrite, r: Rewrite)
    requires MemOk(s) && MemOk(t) && WellKeyed(keys)
    requires Step(keys, val, s, true) == q && q.Rewrite? && WellKeyed(q.keys)
    requires Step(q.keys, q.val, t, true) == r && r.Rewrite?
    requires !DeletesUnknown(keys, val, s) && !DeletesUnknown(q.keys, q.val, t)
    ensures AllMemOk([s, t]) && Steps(keys, val, [s, t], true) == Rewrites([q.s, r.s], r.val, r.keys)
    ensures Steady(keys, val, [s, t], true)
  {
    var ss := [s, t];
    hide Step, WellKeyed;
    assert AllMemOk([s]) && AllMemOk([s, t]);
    assert ss[..1] == [s] && [s][..0] == [] && [] + [q.s] == [q.s] && [q.s] + [r.s] == [q.s, r.s];
    assert Steps(keys, val, [s][..0], true) == Rewrites([], val, keys) && Steady(keys, val, [s][..0], true);
    StepsSnoc(keys, val, [s], true);
    assert Steps(keys, val, [s], true) == Rewrites([q.s], q.val, q.keys) && Steady(keys, val, [s], true);
    StepsSnoc(keys, val, ss, true);
  }

  lemma HeaderKeys()
    ensures Extend([], KEY1) == [KEY1] && Number([KEY1], KEY1) == 1
    ensures Extend([KEY1], KEY2) == [KEY1, KEY2] && Number([KEY1, KEY2], KEY2) == 2
    ensures WellKeyed([]) && WellKeyed([KEY1])
  {
    assert KEY2 !in [KEY1] && [KEY1] + [KEY2] == [KEY1, KEY2] && [KEY1, KEY2][1..] == [KEY2];
  }

  lemma HeaderSteps()
    ensures WellKeyed([]) && AllMemOk([HEADER, ZERO]) && Steady([], NONE, [HEADER, ZERO], true)
    ensures Steps([], NONE, [HEADER, ZERO], true) == Rewrites([HEADER, ZERO], LEFT, [KEY1, KEY2])
  {
    var e := NONE[X_ATOM := 1];
    HeaderKeys();
    hide Extend, Number, WellKeyed;
    assert Step([], NONE, HEADER, true) == Rewrite(HEADER, e, [KEY1]);
    assert Step([KEY1], e, ZERO, true) == Rewrite(ZERO, LEFT, [KEY1, KEY2]);
    TwoSteps([], NONE, HEADER, ZERO, Rewrite(HEADER, e, [KEY1]), Rewrite(ZERO, LEFT, [KEY1, KEY2]));
  }

  /** The table for the second block numbers the header as before. */
  lemma KeysWell()
    ensures WellKeyed(KEYS) && Extend(KEYS, KEY1) == KEYS && Number(KEYS, KEY1) == 1
    ensures Clean(KEYS, 1) && !Const(KEYS, 1)
  {
    assert KEYS[0] == KEY1 && KEYS[1] == KEY2 && KEYS[2] == ConstKey(0);
  }

  lemma ByteSteps()
    ensures WellKeyed(KEYS) && AllMemOk([HEADER, BYTE]) && Bounded(KEYS, LEFT)
    ensures Steps(KEYS, LEFT, [HEADER, BYTE], true) == Rewrites([GONE, BYTE], LEFT[A_ATOM := 4], KEYS + [KEY4])
    ensures Steady(KEYS, LEFT, [HEADER, BYTE], true)
  {
    KeysWell();
    assert Step(KEYS, LEFT, HEADER, true) == Rewrite(GONE, LEFT, KEYS);
    ByteStep();
    assert !DeletesUnknown(KEYS, LEFT, HEADER) && !DeletesUnknown(KEYS, LEFT, BYTE);
    hide Step, WellKeyed, Const, DeletesUnknown;
    TwoSteps(KEYS, LEFT, HEADER, BYTE, Rewrite(GONE, LEFT, KEYS), Rewrite(BYTE, LEFT[A_ATOM := 4], KEYS + [KEY4]));
  }

  lemma ByteStep()
    ensures Step(KEYS, LEFT, BYTE, true) == Rewrite(BYTE, LEFT[A_ATOM := 4], KEYS + [KEY4])
  {
    KeysWell();
    assert KEY4 !in KEYS && Extend(KEYS, KEY4) == KEYS + [KEY4];
    NumberLast(KEYS, KEY4);
    hide WellKeyed, Const, Extend, Number;
  }

  lemma {:induction false} NumberLast(keys: seq<Key>, key: Key)
    requires key !in keys
    ensures key in keys + [key] && Number(keys + [key], key) == |keys| + 1
    decreases |keys|
  {
    if keys != [] {
      assert (keys + [key])[1..] == keys[1..] + [key];
      NumberLast(keys[1..], key);
    }
  }

  // ----- What is live -----

  lemma StaleLocals()
    ensures AllMemOk([HEADER, ZERO]) && AllMemOk([GONE, ZERO]) && AllMemOk([HEADER, BYTE]) && AllMemOk([GONE, BYTE])
    ensures MemOk(TEST_A) && MemOk(TEST_B)
    ensures BlockLocal([HEADER, ZERO], TEST_A) == Local({X_ATOM, A_ATOM}, {}, {X_ATOM, A_ATOM})
    ensures BlockLocal([GONE, ZERO], TEST_A) == Local({A_ATOM}, {}, {A_ATOM})
    ensures BlockLocal([HEADER, BYTE], TEST_B) == Local({X_ATOM, A_ATOM}, {}, {X_ATOM, A_ATOM})
    ensures BlockLocal([GONE, BYTE], TEST_B) == Local({A_ATOM}, {X_ATOM}, {A_ATOM})
  {
    assert [HEADER, ZERO][..1] == [HEADER] && [GONE, ZERO][..1] == [GONE];
    assert [HEADER, BYTE][..1] == [HEADER] && [GONE, BYTE][..1] == [GONE] && [HEADER][..0] == [] && [GONE][..0] == [];
    assert LocalOf([]) == Local({}, {}, {});
    assert LocalOf([HEADER]) == Local({X_ATOM}, {}, {X_ATOM}) && LocalOf([GONE]) == Local({}, {}, {});
    assert LocalOf([HEADER, ZERO]) == Local({X_ATOM, A_ATOM}, {}, {X_ATOM, A_ATOM});
    assert LocalOf([GONE, ZERO]) == Local({A_ATOM}, {}, {A_ATOM});
    assert LocalOf([HEADER, BYTE]) == Local({X_ATOM, A_ATOM}, {}, {X_ATOM, A_ATOM});
    assert LocalOf([GONE, BYTE]) == Local({A_ATOM}, {X_ATOM}, {A_ATOM});
  }

  lemma StaleNodes(a: Block, b: Block, yes: Block, no: Block)
    requires Four(a, b, yes, no)
    ensures var (g, g1) := (StaleGraph(a, b, yes, no), StaleLeft(a, b, yes, no));
            && g.Keys == g1.Keys == {a, b, yes, no}
            && g[a] == Node([HEADER, ZERO], TEST_A, b, no) && g[b] == Node([HEADER, BYTE], TEST_B, yes, no)
            && g1[a] == Node([GONE, ZERO], TEST_A, b, no) && g1[b] == Node([GONE, BYTE], TEST_B, yes, no)
            && g[yes] == g1[yes] == Returning(1) && g[no] == g1[no] == Returning(0)
  {
  }

  lemma StaleShape(a: Block, b: Block, yes: Block, no: Block)
    requires Four(a, b, yes, no)
    ensures var rank := StaleRank(a, b, yes, no);
            && Dag(StaleGraph(a, b, yes, no), rank) && GraphMemOk(StaleGraph(a, b, yes, no))
            && Dag(StaleLeft(a, b, yes, no), rank) && GraphMemOk(StaleLeft(a, b, yes, no))
  {
    StaleNodes(a, b, yes, no);
    StaleLocals();
    hide StaleGraph, StaleLeft, LocalOf, BlockLocal, StaleRank;
    FourShape(StaleGraph(a, b, yes, no), a, b, yes, no);
    FourShape(StaleLeft(a, b, yes, no), a, b, yes, no);
  }

  /** Two blocks in a row and two returns. */
  lemma FourShape(g: Graph, a: Block, b: Block, yes: Block, no: Block)
    requires Four(a, b, yes, no) && g.Keys == {a, b, yes, no} && g[yes] == Returning(1) && g[no] == Returning(0)
    requires g[a].test.code.Jmp? && g[a].jt in {b, yes, no} && g[a].jf in {b, yes, no} && AllMemOk(g[a].stmts)
    requires g[b].test.code.Jmp? && g[b].jt in {yes, no} && g[b].jf in {yes, no} && AllMemOk(g[b].stmts)
    ensures Dag(g, StaleRank(a, b, yes, no)) && GraphMemOk(g)
  {
    var rank := StaleRank(a, b, yes, no);
    forall x {:trigger DagNode(g, rank, x)} | x in g
      ensures DagNode(g, rank, x)
    {
    }
    hide StaleRank, Dag, AllMemOk;
    assert AllMemOk([]);
  }

  /** X is live nowhere between the blocks. */
  lemma StaleLive(a: Block, b: Block, yes: Block, no: Block)
    requires Four(a, b, yes, no)
    ensures var (g, rank) := (StaleGraph(a, b, yes, no), StaleRank(a, b, yes, no));
            Dag(g, rank) && GraphMemOk(g) && OutUse(g, rank, a) == {} && OutUse(g, rank, b) == {}
  {
    var (g, rank) := (StaleGraph(a, b, yes, no), StaleRank(a, b, yes, no));
    StaleShape(a, b, yes, no);
    StaleNodes(a, b, yes, no);
    StaleLocals();
    UseNothing(g, rank, yes);
    UseNothing(g, rank, no);
    hide BlockLocal, StaleGraph;
    assert OutUse(g, rank, b) == {};
    assert InUse(g, rank, b) == {};
  }

  /** In the graph that is left it is. */
  lemma StaleLiveLeft(a: Block, b: Block, yes: Block, no: Block)
    requires Four(a, b, yes, no)
    ensures var (g1, rank) := (StaleLeft(a, b, yes, no), StaleRank(a, b, yes, no));
            Dag(g1, rank) && GraphMemOk(g1) && X_ATOM in OutUse(g1, rank, a)
  {
    var (g1, rank) := (StaleLeft(a, b, yes, no), StaleRank(a, b, yes, no));
    StaleShape(a, b, yes, no);
    StaleNodes(a, b, yes, no);
    StaleLocals();
    hide BlockLocal, StaleLeft;
    assert X_ATOM in InUse(g1, rank, b);
  }

  /** Dead-store removal deletes the first load of X, and nothing of what the numbering has left of the second block. */
  lemma StalePurged()
    ensures AllMemOk([HEADER, ZERO]) && AllMemOk([GONE, BYTE]) && MemOk(TEST_A) && MemOk(TEST_B)
    ensures Purged([HEADER, ZERO], TEST_A, {}, N_ATOMS) == [GONE, ZERO]
    ensures Purged([GONE, BYTE], TEST_B, {}, N_ATOMS) == [GONE, BYTE]
  {
    StaleLocals();
    assert FateOf([HEADER, ZERO], 0, 2, X_ATOM) == Waiting && FateOf([HEADER, ZERO], 1, 2, A_ATOM) == Waiting;
    assert DeadStore([HEADER, ZERO], TEST_A, {}, N_ATOMS, 0) && !DeadStore([HEADER, ZERO], TEST_A, {}, N_ATOMS, 1);
    assert FateOf([GONE, BYTE], 1, 2, A_ATOM) == Waiting;
    assert !DeadStore([GONE, BYTE], TEST_B, {}, N_ATOMS, 0) && !DeadStore([GONE, BYTE], TEST_B, {}, N_ATOMS, 1);
  }

  // ----- The runs -----

  /** 21 bytes, all 0 but the header byte 1 at 14, which makes X 4, and a 5 at 20. */
  const BYTES: seq<Byte> := seq(21, i => if i == 14 then 1 else if i == 20 then 5 else 0)

  lemma BytesAt(p: Packet)
    requires p == Packet(BYTES, 21)
    ensures LoadAt(p, 14, B) == Some(1) && LoadAt(p, 20, B) == Some(5) && LoadAt(p, 16, B) == Some(0)
    ensures LoadAt(p, 0, B) == Some(0)
  {
    assert |BYTES| == 21 && BYTES[14] == 1 && BYTES[20] == 5 && BYTES[16] == 0 && BYTES[0] == 0;
  }

  lemma StaleSteps(st: State, p: Packet)
    requires p == Packet(BYTES, 21) && st[X_ATOM] == 0
    ensures var (s1, s2) := (st[X_ATOM := 4][A_ATOM := 0], st[A_ATOM := 0]);
            && ExecAll([HEADER, ZERO], st, p) == Some(s1) && ExecAll([GONE, ZERO], st, p) == Some(s2)
            && ExecAll([HEADER, BYTE], s1, p) == Some(s1[A_ATOM := 5])
            && ExecAll([GONE, BYTE], s2, p) == Some(s2)
  {
    var (s1, s2) := (st[X_ATOM := 4][A_ATOM := 0], st[A_ATOM := 0]);
    StaleExecs(st, p);
    hide *;
    ExecPair(HEADER, ZERO, st, p);
    ExecPair(GONE, ZERO, st, p);
    ExecPair(HEADER, BYTE, s1, p);
    ExecPair(GONE, BYTE, s2, p);
  }

  lemma StaleExecs(st: State, p: Packet)
    requires p == Packet(BYTES, 21) && st[X_ATOM] == 0
    ensures var (s1, s2) := (st[X_ATOM := 4][A_ATOM := 0], st[A_ATOM := 0]);
            && Exec(HEADER, st, p) == Some(st[X_ATOM := 4]) && Exec(ZERO, st[X_ATOM := 4], p) == Some(s1)
            && Exec(GONE, st, p) == Some(st) && Exec(ZERO, st, p) == Some(s2)
            && Exec(HEADER, s1, p) == Some(s1) && Exec(BYTE, s1, p) == Some(s1[A_ATOM := 5])
            && Exec(GONE, s2, p) == Some(s2) && Exec(BYTE, s2, p) == Some(s2)
  {
    assert BitAnd(1, 15) == 1;
    BytesAt(p);
    hide BitAnd, LoadAt;
    var (s1, s2) := (st[X_ATOM := 4][A_ATOM := 0], st[A_ATOM := 0]);
    assert s1[X_ATOM := 4] == s1 && s2[A_ATOM := 0] == s2;
  }

  lemma StaleRuns(a: Block, b: Block, yes: Block, no: Block, st: State, p: Packet)
    requires Four(a, b, yes, no) && p == Packet(BYTES, 21) && st[X_ATOM] == 0
    ensures Run(StaleGraph(a, b, yes, no), a, st, p, 3) == Returned(1)
    ensures Run(StaleLeft(a, b, yes, no), a, st, p, 3) == Returned(0)
  {
    var (g, g1) := (StaleGraph(a, b, yes, no), StaleLeft(a, b, yes, no));
    StaleNodes(a, b, yes, no);
    StaleSteps(st, p);
    var s1, s2 := st[X_ATOM := 4][A_ATOM := 0], st[A_ATOM := 0];
    NothingRun(s1[A_ATOM := 5], p);
    NothingRun(s2, p);
    hide ExecAll, Run, StaleGraph, StaleLeft, BYTES;
    RunUnfold(g, At(a, st), p, 3);
    RunUnfold(g, At(b, s1), p, 2);
    RunUnfold(g, At(yes, s1[A_ATOM := 5]), p, 1);
    RunUnfold(g1, At(a, st), p, 3);
    RunUnfold(g1, At(b, s2), p, 2);
    RunUnfold(g1, At(no, s2), p, 1);
  }

  // ----- Each block keeps what it must -----

  /** opt_blk leaves `n` of `n0`, and what its rules take for granted holds: the numbering leaves the statements of `r`,
      and the peephole rules change none of them. */
  ghost predicate BlkDoes(n0: Node, n: Node, Z: set<Atom>, keys: seq<Key>, e: Vals, r: Rewrites) {
    && AllMemOk(n0.stmts) && MemOk(n0.test) && WellKeyed(keys) && BlkSure(n0, Z, keys, e)
    && Steps(keys, e, n0.stmts, true) == r && r.Rewrites? && AllMemOk(r.ss)
    && BlkLeft(n0, r.ss, n, Z, keys, e, true)
  }

  lemma DoesIs(n0: Node, n: Node, Z: set<Atom>, keys: seq<Key>, e: Vals, r: Rewrites)
    requires AllMemOk(n0.stmts) && MemOk(n0.test) && WellKeyed(keys) && BlkSure(n0, Z, keys, e)
    requires Steps(keys, e, n0.stmts, true) == r && r.Rewrites? && AllMemOk(r.ss)
    requires BlkLeft(n0, r.ss, n, Z, keys, e, true)
    ensures BlkDoes(n0, n, Z, keys, e, r)
  {
    hide Steps, WellKeyed, BlkSure, BlkLeft, AllMemOk;
  }

  lemma NoPattern(ss: seq<Stmt>, test: Stmt)
    requires AllMemOk(ss) && MemOk(test) && forall i :: 0 <= i < |ss| ==> ss[i].code != LdImm
    ensures NoLateX(ss, test, {})
  {
  }

  lemma SureA(jt: Block?, jf: Block?)
    ensures WellKeyed([]) && AllMemOk([HEADER, ZERO]) && BlkSure(Node([HEADER, ZERO], TEST_A, jt, jf), {}, [], NONE)
  {
    HeaderSteps();
    NoPattern([HEADER, ZERO], TEST_A);
    hide Steps, Steady, NoLateX, AllOnes;
  }

  lemma SureB(jt: Block?, jf: Block?)
    ensures WellKeyed(KEYS) && AllMemOk([HEADER, BYTE])
    ensures BlkSure(Node([HEADER, BYTE], TEST_B, jt, jf), {}, KEYS, LEFT)
  {
    ByteSteps();
    NoPattern([GONE, BYTE], TEST_B);
    assert AllMemOk([GONE, BYTE]) by { StaleLocals(); }
    hide Steps, Steady, NoLateX, AllOnes, WellKeyed;
  }

  /** The first block gives up X, the second nothing. */
  lemma StaleGone()
    ensures Gone([HEADER, ZERO], [GONE, ZERO]) == {X_ATOM}
    ensures Gone([HEADER, ZERO], [HEADER, ZERO]) == {} && Gone([GONE, BYTE], [GONE, BYTE]) == {}
  {
    var ss := [HEADER, ZERO];
    NothingGone(ss);
    NothingGone([GONE, BYTE]);
    assert LastDef(ss, 0, X_ATOM);
    GoneOne(ss, ss, 0, 14, X_ATOM);
    assert ss[0 := GONE] == [GONE, ZERO];
  }

  lemma GivenUpA(jt: Block?, jf: Block?)
    ensures AllMemOk([HEADER, ZERO])
    ensures GivenUp(Node([HEADER, ZERO], TEST_A, jt, jf), [HEADER, ZERO], Node([GONE, ZERO], TEST_A, jt, jf), {}, [],
                    NONE, true) == {X_ATOM}
  {
    HeaderSteps();
    StaleGone();
    hide Steps, Gone;
  }

  lemma GivenUpB(jt: Block?, jf: Block?)
    ensures AllMemOk([HEADER, BYTE])
    ensures GivenUp(Node([HEADER, BYTE], TEST_B, jt, jf), [GONE, BYTE], Node([GONE, BYTE], TEST_B, jt, jf), {}, KEYS,
                    LEFT, true) == {}
  {
    ByteSteps();
    StaleGone();
    hide Steps, Gone;
  }

  lemma KeptA(jt: Block?, jf: Block?)
    ensures WellKeyed([])
    ensures BlkKept(Node([HEADER, ZERO], TEST_A, jt, jf), Node([GONE, ZERO], TEST_A, jt, jf), AllAtoms() - {X_ATOM}, [],
                    NONE, false)
  {
    var n0, n := Node([HEADER, ZERO], TEST_A, jt, jf), Node([GONE, ZERO], TEST_A, jt, jf);
    forall st, p {:trigger ExecAll(n0.stmts, st, p)} | ExecAll(n0.stmts, st, p).Some?
      ensures BlkKeptRun(n0, n, AllAtoms() - {X_ATOM}, false, st, p)
    {
      ExecPair(HEADER, ZERO, st, p);
      ExecPair(GONE, ZERO, st, p);
      hide ExecAll, LoadAt;
    }
  }

  lemma KeptB(jt: Block?, jf: Block?)
    ensures WellKeyed(KEYS)
    ensures BlkKept(Node([HEADER, BYTE], TEST_B, jt, jf), Node([GONE, BYTE], TEST_B, jt, jf), AllAtoms() - {}, KEYS,
                    LEFT, false)
  {
    KeysWell();
    var n0, n := Node([HEADER, BYTE], TEST_B, jt, jf), Node([GONE, BYTE], TEST_B, jt, jf);
    forall st, p {:trigger ExecAll(n0.stmts, st, p)} | Agrees(KEYS, LEFT, st, p) && ExecAll(n0.stmts, st, p).Some?
      ensures BlkKeptRun(n0, n, AllAtoms() - {}, false, st, p)
    {
      HeaderSame(st, p);
      ExecPair(HEADER, BYTE, st, p);
      ExecPair(GONE, BYTE, st, p);
      hide Agrees, ExecAll, Exec;
    }
  }

  /** From a state that agrees with the table, loading the header changes nothing. */
  lemma HeaderSame(st: State, p: Packet)
    requires WellKeyed(KEYS) && Agrees(KEYS, LEFT, st, p)
    ensures Exec(HEADER, st, p) == Some(st) && Exec(GONE, st, p) == Some(st)
  {
    KeysWell();
    assert LEFT[X_ATOM] == 1;
    assert Denote(KEYS, 1, p) == Some(st[X_ATOM]);
    assert KeyValue(KEYS, KEY1, 1, p) == Some(st[X_ATOM]);
    assert st[X_ATOM := st[X_ATOM]] == st;
  }

  /** Loads of the packet and a comparison of an unknown A leave opt_peep nothing to do. */
  lemma QuietPeeped(n: Node, outUse: set<Atom>, keys: seq<Key>, val: Vals)
    requires n.test.code == Jmp(JEQ, K) && !Const(keys, val[A_ATOM])
    requires forall k {:trigger n.stmts[k]} :: 0 <= k < |n.stmts| ==> !n.stmts[k].code.Alu? && !Starts(n.stmts[k])
    ensures RulesApplied(n, n, outUse, keys, val)
  {
    hide Applied, MergedAt, Sides, Const;
    forall i {:trigger Applied(n.stmts, n.stmts, outUse, i)} | 0 <= i < |n.stmts|
      ensures Applied(n.stmts, n.stmts, outUse, i)
    {
      NoRule(n.stmts, n.stmts, outUse, i);
    }
  }

  /** Then dead-store removal is all that is done after the numbering. */
  lemma QuietDone(n0: Node, n: Node, keys: seq<Key>, e: Vals, r: Rewrites)
    requires AllMemOk(n0.stmts) && Steps(keys, e, n0.stmts, true) == r && r.Rewrites?
    requires n0.test.code == Jmp(JEQ, K) && MemOk(n0.test) && AllMemOk(r.ss)
    requires RulesApplied(n0.(stmts := r.ss), n0.(stmts := r.ss), {}, r.keys, r.val)
    requires r.val[A_ATOM] != e[A_ATOM] || e[A_ATOM] == 0 || e[X_ATOM] == 0
    requires n == n0.(stmts := Purged(r.ss, n0.test, {}, N_ATOMS))
    ensures BlkDone(n0, r.ss, n, {}, keys, e, true)
  {
    hide RulesApplied, Steps, Purged, AllMemOk;
  }

  lemma DoneA(jt: Block?, jf: Block?)
    ensures BlkDone(Node([HEADER, ZERO], TEST_A, jt, jf), [HEADER, ZERO], Node([GONE, ZERO], TEST_A, jt, jf), {}, [],
                    NONE, true)
  {
    HeaderSteps();
    StalePurged();
    hide Steps, Purged, RulesApplied, BlkDone;
    QuietPeeped(Node([HEADER, ZERO], TEST_A, jt, jf), {}, [KEY1, KEY2], LEFT);
    QuietDone(Node([HEADER, ZERO], TEST_A, jt, jf), Node([GONE, ZERO], TEST_A, jt, jf), [], NONE,
              Rewrites([HEADER, ZERO], LEFT, [KEY1, KEY2]));
  }

  lemma DoneB(jt: Block?, jf: Block?)
    ensures BlkDone(Node([HEADER, BYTE], TEST_B, jt, jf), [GONE, BYTE], Node([GONE, BYTE], TEST_B, jt, jf), {}, KEYS,
                    LEFT, true)
  {
    ByteSteps();
    StalePurged();
    var val, more := LEFT[A_ATOM := 4], KEYS + [KEY4];
    assert !Const(more, val[A_ATOM]);
    hide Steps, Purged, RulesApplied, BlkDone;
    QuietPeeped(Node([GONE, BYTE], TEST_B, jt, jf), {}, more, val);
    QuietDone(Node([HEADER, BYTE], TEST_B, jt, jf), Node([GONE, BYTE], TEST_B, jt, jf), KEYS, LEFT,
              Rewrites([GONE, BYTE], val, more));
  }

  lemma LeftA(jt: Block?, jf: Block?)
    ensures BlkLeft(Node([HEADER, ZERO], TEST_A, jt, jf), [HEADER, ZERO], Node([GONE, ZERO], TEST_A, jt, jf), {}, [],
                    NONE, true)
  {
    KeptA(jt, jf);
    HeaderSteps();
    GivenUpA(jt, jf);
    StaleLocals();
    DoneA(jt, jf);
    hide Steps, BlkKept, BlkSure, LocalOf, GivenUp, BlkDone;
    assert !BlkOnes(Node([HEADER, ZERO], TEST_A, jt, jf), {}, [], NONE);
  }

  lemma LeftB(jt: Block?, jf: Block?)
    ensures BlkLeft(Node([HEADER, BYTE], TEST_B, jt, jf), [GONE, BYTE], Node([GONE, BYTE], TEST_B, jt, jf), {}, KEYS,
                    LEFT, true)
  {
    KeptB(jt, jf);
    ByteSteps();
    GivenUpB(jt, jf);
    StaleLocals();
    DoneB(jt, jf);
    hide Steps, BlkKept, BlkSure, LocalOf, WellKeyed, GivenUp, BlkDone;
    assert !BlkOnes(Node([HEADER, BYTE], TEST_B, jt, jf), {}, KEYS, LEFT);
  }

  /** opt_blk leaves g1 of the blocks a and b of g, the second entered over one edge from the first, with the numbers of
      the first one's exit table; `q` and `r` are what the numbering makes of their statements. */
  ghost predicate BothDo(g: Graph, g1: Graph, rank: map<Block, nat>, a: Block, b: Block, sense: bool, P: Pass,
                         q: Rewrites, r: Rewrites)
  {
    && {a, b} <= g.Keys && {a, b} <= g1.Keys && {a, b} <= P.entries.Keys && Dag(g, rank) && GraphMemOk(g)
    && BlkDoes(g[a], g1[a], OutUse(g, rank, a), P.entries[a].keys, P.entries[a].val, q)
    && BlkDoes(g[b], g1[b], OutUse(g, rank, b), P.entries[b].keys, P.entries[b].val, r)
    && (if sense then g[a].jt else g[a].jf) == b && q.keys <= P.entries[b].keys
    && EntryTable([Edge(a, sense)], map[a := q.val], P.entries[b].val)
  }

  /** The numbering enters the second block with the first one's exit table, in which X has the number of a load that
      dead-store removal deletes; so vstore deletes the load in the second block too. In each block everything that is
      taken for granted holds and what is live is kept; but X, which the first block gives up, is live at its exit
      now, and the verdict changes. */
  lemma StaleTable(a: Block, b: Block, yes: Block, no: Block, st: State, P: Pass)
    requires Four(a, b, yes, no) && st[X_ATOM] == 0 && {a, b} <= P.entries.Keys && a in P.peeped
    requires P.entries[a] == Entry([], NONE) && P.entries[b] == Entry(KEYS, LEFT) && P.peeped[a] == [HEADER, ZERO]
    ensures BothDo(StaleGraph(a, b, yes, no), StaleLeft(a, b, yes, no), StaleRank(a, b, yes, no), a, b, true, P,
                   Rewrites([HEADER, ZERO], LEFT, [KEY1, KEY2]),
                   Rewrites([GONE, BYTE], LEFT[A_ATOM := 4], KEYS + [KEY4]))
    ensures Dag(StaleGraph(a, b, yes, no), StaleRank(a, b, yes, no)) && GraphMemOk(StaleGraph(a, b, yes, no))
    ensures Dag(StaleLeft(a, b, yes, no), StaleRank(a, b, yes, no)) && GraphMemOk(StaleLeft(a, b, yes, no))
    ensures !NoneMissed(StaleGraph(a, b, yes, no), StaleLeft(a, b, yes, no), StaleRank(a, b, yes, no),
                        {a, b, yes, no}, P)
    ensures Run(StaleGraph(a, b, yes, no), a, st, Packet(BYTES, 21), 3) == Returned(1)
    ensures Run(StaleLeft(a, b, yes, no), a, st, Packet(BYTES, 21), 3) == Returned(0)
  {
    StaleRuns(a, b, yes, no, st, Packet(BYTES, 21));
    hide *;
    StaleShape(a, b, yes, no);
    StaleBoth(a, b, yes, no, P);
    StaleMissed(a, b, yes, no, P);
  }

  lemma StaleBoth(a: Block, b: Block, yes: Block, no: Block, P: Pass)
    requires Four(a, b, yes, no) && {a, b} <= P.entries.Keys
    requires P.entries[a] == Entry([], NONE) && P.entries[b] == Entry(KEYS, LEFT)
    ensures BothDo(StaleGraph(a, b, yes, no), StaleLeft(a, b, yes, no), StaleRank(a, b, yes, no), a, b, true, P,
                   Rewrites([HEADER, ZERO], LEFT, [KEY1, KEY2]),
                   Rewrites([GONE, BYTE], LEFT[A_ATOM := 4], KEYS + [KEY4]))
  {
    hide BlkDoes, OutUse, StaleGraph, StaleLeft, StaleRank, Dag, GraphMemOk, EntryTable;
    StaleNodes(a, b, yes, no);
    StaleLive(a, b, yes, no);
    FirstDoes(b, no);
    SecondDoes(yes, no);
    EntryIsExit(a, true, LEFT);
  }

  lemma FirstDoes(jt: Block?, jf: Block?)
    ensures BlkDoes(Node([HEADER, ZERO], TEST_A, jt, jf), Node([GONE, ZERO], TEST_A, jt, jf), {}, [], NONE,
                    Rewrites([HEADER, ZERO], LEFT, [KEY1, KEY2]))
  {
    hide *;
    StaleLocals();
    HeaderSteps();
    SureA(jt, jf);
    LeftA(jt, jf);
    DoesIs(Node([HEADER, ZERO], TEST_A, jt, jf), Node([GONE, ZERO], TEST_A, jt, jf), {}, [], NONE,
           Rewrites([HEADER, ZERO], LEFT, [KEY1, KEY2]));
  }

  lemma SecondDoes(jt: Block?, jf: Block?)
    ensures BlkDoes(Node([HEADER, BYTE], TEST_B, jt, jf), Node([GONE, BYTE], TEST_B, jt, jf), {}, KEYS, LEFT,
                    Rewrites([GONE, BYTE], LEFT[A_ATOM := 4], KEYS + [KEY4]))
  {
    var val := LEFT[A_ATOM := 4];
    hide *;
    StaleLocals();
    ByteSteps();
    SureB(jt, jf);
    LeftB(jt, jf);
    DoesIs(Node([HEADER, BYTE], TEST_B, jt, jf), Node([GONE, BYTE], TEST_B, jt, jf), {}, KEYS, LEFT,
           Rewrites([GONE, BYTE], val, KEYS + [KEY4]));
  }

  lemma EntryIsExit(a: Block, sense: bool, e: Vals)
    ensures EntryTable([Edge(a, sense)], map[a := e], e)
  {
  }

  /** X, which the first block gives up, is live at its exit in the graph that is left. */
  lemma StaleMissed(a: Block, b: Block, yes: Block, no: Block, P: Pass)
    requires Four(a, b, yes, no) && a in P.entries && P.entries[a] == Entry([], NONE)
    requires a in P.peeped && P.peeped[a] == [HEADER, ZERO]
    ensures var (g, g1, rank) := (StaleGraph(a, b, yes, no), StaleLeft(a, b, yes, no), StaleRank(a, b, yes, no));
            && Dag(g, rank) && GraphMemOk(g) && Dag(g1, rank) && GraphMemOk(g1)
            && !NoneMissed(g, g1, rank, {a, b, yes, no}, P)
  {
    StaleShape(a, b, yes, no);
    StaleNodes(a, b, yes, no);
    StaleLive(a, b, yes, no);
    StaleLiveLeft(a, b, yes, no);
    GivenUpA(b, no);
    var (g, g1, rank) := (StaleGraph(a, b, yes, no), StaleLeft(a, b, yes, no), StaleRank(a, b, yes, no));
    hide StaleGraph, StaleLeft, StaleRank, OutUse, Dag, GraphMemOk, GivenUp;
    assert P.entries[a] == P.entries[a];
    assert !NotMissed(g, g1, rank, P, a);
  }
}
