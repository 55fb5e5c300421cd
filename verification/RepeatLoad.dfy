/** Two blocks that load the same field, as filters usually do: the second load is deleted, and rightly so. */
module RepeatLoad {
  import opened Bpf
  import opened Cfg
  import opened Atoms
  import opened LastDefs
  import opened Liveness
  import opened DeadStores
  import opened ValueTable
  import opened Symbolic
  import opened BlockValues
  import opened ValueFlow
  import opened Peephole
  import opened PeepBlock
  import opened OptBlk
  import opened BlkFlow
  import opened PullFaults
  import opened StaleTable

  /** `ldh [12]`, and what deletion leaves of it. */
  const TYPE: Stmt := Stmt(LdAbs(H), 12)
  const SPARE: Stmt := Stmt(Nop, 12)

  const TEST_IP: Stmt := Stmt(Jmp(JEQ, K), 0x800)
  const TEST_ARP: Stmt := Stmt(Jmp(JEQ, K), 0x806)

  function TypeGraph(a: Block, b: Block, yes: Block, no: Block): Graph {
    map[a := Node([TYPE], TEST_IP, yes, b), b := Node([TYPE], TEST_ARP, yes, no),
        yes := Returning(1), no := Returning(0)]
  }

  /** What opt_blk leaves. */
  function TypeLeft(a: Block, b: Block, yes: Block, no: Block): Graph {
    map[a := Node([TYPE], TEST_IP, yes, b), b := Node([SPARE], TEST_ARP, yes, no),
        yes := Returning(1), no := Returning(0)]
  }

  const TYPE_KEY: Key := Key(LdAbs(H), 12, 0)

  /** The tables when the second block is entered. */
  const TYPE_KEYS: seq<Key> := [TYPE_KEY, ConstKey(0x800)]
  const TYPE_VALS: Vals := NONE[A_ATOM := 1]

  // ----- The numbers -----

  lemma OneStep(keys: seq<Key>, val: Vals, s: Stmt, q: Rewrite)
    requires MemOk(s) && WellKeyed(keys) && Step(keys, val, s, true) == q && q.Rewrite? && !DeletesUnknown(keys, val, s)
    ensures AllMemOk([s]) && Steady(keys, val, [s], true)
    ensures Steps(keys, val, [s], true) == Rewrites([q.s], q.val, q.keys)
  {
    hide Step, WellKeyed;
    assert AllMemOk([s]) && [s][..0] == [] && [] + [q.s] == [q.s];
    assert Steps(keys, val, [s][..0], true) == Rewrites([], val, keys) && Steady(keys, val, [s][..0], true);
    StepsSnoc(keys, val, [s], true);
  }

  lemma FirstSteps()
    ensures WellKeyed([]) && AllMemOk([TYPE]) && Steady([], NONE, [TYPE], true)
    ensures Steps([], NONE, [TYPE], true) == Rewrites([TYPE], TYPE_VALS, [TYPE_KEY])
  {
    assert Extend([], TYPE_KEY) == [TYPE_KEY] && Number([TYPE_KEY], TYPE_KEY) == 1;
    OneStep([], NONE, TYPE, Rewrite(TYPE, TYPE_VALS, [TYPE_KEY]));
  }

  lemma TypeKeysWell()
    ensures WellKeyed(TYPE_KEYS) && Extend(TYPE_KEYS, TYPE_KEY) == TYPE_KEYS && Number(TYPE_KEYS, TYPE_KEY) == 1
    ensures Clean(TYPE_KEYS, 1) && !Const(TYPE_KEYS, 1)
  {
    assert TYPE_KEYS[0] == TYPE_KEY && TYPE_KEYS[1] == ConstKey(0x800);
  }

  /** The second load has the number A has. */
  lemma SecondSteps()
    ensures WellKeyed(TYPE_KEYS) && AllMemOk([TYPE]) && Steady(TYPE_KEYS, TYPE_VALS, [TYPE], true)
    ensures Steps(TYPE_KEYS, TYPE_VALS, [TYPE], true) == Rewrites([SPARE], TYPE_VALS, TYPE_KEYS)
  {
    TypeKeysWell();
    assert Step(TYPE_KEYS, TYPE_VALS, TYPE, true) == Rewrite(SPARE, TYPE_VALS, TYPE_KEYS);
    assert !DeletesUnknown(TYPE_KEYS, TYPE_VALS, TYPE);
    OneStep(TYPE_KEYS, TYPE_VALS, TYPE, Rewrite(SPARE, TYPE_VALS, TYPE_KEYS));
  }

  // ----- What is live -----

  lemma TypeLocals()
    ensures AllMemOk([TYPE]) && AllMemOk([SPARE])
    ensures MemOk(TEST_IP) && MemOk(TEST_ARP)
    ensures BlockLocal([TYPE], TEST_IP) == Local({A_ATOM}, {}, {A_ATOM})
    ensures BlockLocal([TYPE], TEST_ARP) == Local({A_ATOM}, {}, {A_ATOM})
    ensures BlockLocal([SPARE], TEST_ARP) == Local({}, {A_ATOM}, {})
  {
    assert [TYPE][..0] == [] && [SPARE][..0] == [] && LocalOf([]) == Local({}, {}, {});
    assert LocalOf([TYPE]) == Local({A_ATOM}, {}, {A_ATOM}) && LocalOf([SPARE]) == Local({}, {}, {});
  }

  lemma TypePurged()
    ensures AllMemOk([TYPE]) && AllMemOk([SPARE]) && MemOk(TEST_IP) && MemOk(TEST_ARP)
    ensures Purged([TYPE], TEST_IP, {}, N_ATOMS) == [TYPE] && Purged([SPARE], TEST_ARP, {}, N_ATOMS) == [SPARE]
  {
    TypeLocals();
    assert FateOf([TYPE], 0, 1, A_ATOM) == Waiting;
    assert !DeadStore([TYPE], TEST_IP, {}, N_ATOMS, 0) && !DeadStore([SPARE], TEST_ARP, {}, N_ATOMS, 0);
  }

  lemma TypeNodes(a: Block, b: Block, yes: Block, no: Block)
    requires Four(a, b, yes, no)
    ensures var (g, g1) := (TypeGraph(a, b, yes, no), TypeLeft(a, b, yes, no));
            && g.Keys == g1.Keys == {a, b, yes, no} && g[a] == g1[a] == Node([TYPE], TEST_IP, yes, b)
            && g[b] == Node([TYPE], TEST_ARP, yes, no) && g1[b] == Node([SPARE], TEST_ARP, yes, no)
            && g[yes] == g1[yes] == Returning(1) && g[no] == g1[no] == Returning(0)
  {
  }

  lemma TypeShape(a: Block, b: Block, yes: Block, no: Block)
    requires Four(a, b, yes, no)
    ensures var rank := StaleRank(a, b, yes, no);
            && Dag(TypeGraph(a, b, yes, no), rank) && GraphMemOk(TypeGraph(a, b, yes, no))
            && Dag(TypeLeft(a, b, yes, no), rank) && GraphMemOk(TypeLeft(a, b, yes, no))
  {
    TypeNodes(a, b, yes, no);
    TypeLocals();
    hide TypeGraph, TypeLeft, StaleRank, LocalOf, BlockLocal;
    FourShape(TypeGraph(a, b, yes, no), a, b, yes, no);
    FourShape(TypeLeft(a, b, yes, no), a, b, yes, no);
  }

  /** Nothing is live between the blocks; in the graph that is left A is. */
  lemma TypeLive(a: Block, b: Block, yes: Block, no: Block)
    requires Four(a, b, yes, no)
    ensures var (g, g1, rank) := (TypeGraph(a, b, yes, no), TypeLeft(a, b, yes, no), StaleRank(a, b, yes, no));
            && Dag(g, rank) && GraphMemOk(g) && Dag(g1, rank) && GraphMemOk(g1)
            && OutUse(g, rank, a) == {} && OutUse(g, rank, b) == {} && InUse(g, rank, b) == {}
            && OutUse(g1, rank, a) == {A_ATOM} && OutUse(g1, rank, b) == {}
            && OutUse(g1, rank, yes) == {} && OutUse(g1, rank, no) == {}
  {
    var (g, g1, rank) := (TypeGraph(a, b, yes, no), TypeLeft(a, b, yes, no), StaleRank(a, b, yes, no));
    TypeShape(a, b, yes, no);
    TypeNodes(a, b, yes, no);
    TypeLocals();
    UseNothing(g, rank, yes);
    UseNothing(g, rank, no);
    UseNothing(g1, rank, yes);
    UseNothing(g1, rank, no);
    hide BlockLocal, TypeGraph, TypeLeft, StaleRank;
    assert OutUse(g, rank, b) == {} && OutUse(g1, rank, b) == {};
    assert InUse(g, rank, b) == {} && InUse(g1, rank, b) == {A_ATOM};
  }

  // ----- Each block keeps everything -----

  lemma FirstSure(jt: Block?, jf: Block?)
    ensures WellKeyed([]) && AllMemOk([TYPE]) && BlkSure(Node([TYPE], TEST_IP, jt, jf), {}, [], NONE)
  {
    FirstSteps();
    NoPattern([TYPE], TEST_IP);
    hide Steps, Steady, NoLateX, AllOnes, WellKeyed;
  }

  lemma SecondSure(jt: Block?, jf: Block?)
    ensures WellKeyed(TYPE_KEYS) && AllMemOk([TYPE])
    ensures BlkSure(Node([TYPE], TEST_ARP, jt, jf), {}, TYPE_KEYS, TYPE_VALS)
  {
    SecondSteps();
    NoPattern([SPARE], TEST_ARP);
    hide Steps, Steady, NoLateX, AllOnes, WellKeyed;
  }

  lemma TypeGivenUp(jt: Block?, jf: Block?)
    ensures AllMemOk([TYPE])
    ensures GivenUp(Node([TYPE], TEST_IP, jt, jf), [TYPE], Node([TYPE], TEST_IP, jt, jf), {}, [], NONE, true) == {}
    ensures GivenUp(Node([TYPE], TEST_ARP, jt, jf), [SPARE], Node([SPARE], TEST_ARP, jt, jf), {}, TYPE_KEYS, TYPE_VALS,
                    true) == {}
  {
    FirstSteps();
    SecondSteps();
    NothingGone([TYPE]);
    NothingGone([SPARE]);
    hide Steps, Gone;
  }

  lemma TypeDone(jt: Block?, jf: Block?)
    ensures var n := Node([TYPE], TEST_IP, jt, jf); BlkDone(n, [TYPE], n, {}, [], NONE, true)
    ensures BlkDone(Node([TYPE], TEST_ARP, jt, jf), [SPARE], Node([SPARE], TEST_ARP, jt, jf), {}, TYPE_KEYS, TYPE_VALS,
                    true)
  {
    FirstSteps();
    SecondSteps();
    TypePurged();
    hide Steps, Purged, RulesApplied, BlkDone;
    var n1, n2 := Node([TYPE], TEST_IP, jt, jf), Node([SPARE], TEST_ARP, jt, jf);
    QuietPeeped(n1, {}, [TYPE_KEY], TYPE_VALS);
    QuietPeeped(n2, {}, TYPE_KEYS, TYPE_VALS);
    QuietDone(n1, n1, [], NONE, Rewrites([TYPE], TYPE_VALS, [TYPE_KEY]));
    QuietDone(Node([TYPE], TEST_ARP, jt, jf), n2, TYPE_KEYS, TYPE_VALS, Rewrites([SPARE], TYPE_VALS, TYPE_KEYS));
  }

  lemma TypeLeftA(jt: Block?, jf: Block?)
    ensures var n := Node([TYPE], TEST_IP, jt, jf); BlkLeft(n, [TYPE], n, {}, [], NONE, true)
  {
    var n := Node([TYPE], TEST_IP, jt, jf);
    FirstSteps();
    TypeGivenUp(jt, jf);
    TypeLocals();
    TypeDone(jt, jf);
    hide Steps, BlkSure, BlkOnes, GivenUp, LocalOf, ExecAll, BlkDone;
  }

  lemma TypeLeftB(jt: Block?, jf: Block?)
    ensures BlkLeft(Node([TYPE], TEST_ARP, jt, jf), [SPARE], Node([SPARE], TEST_ARP, jt, jf), {}, TYPE_KEYS, TYPE_VALS,
                    true)
  {
    TypeKept(jt, jf);
    SecondSteps();
    TypeGivenUp(jt, jf);
    TypeLocals();
    TypeDone(jt, jf);
    hide Steps, BlkKept, BlkSure, LocalOf, WellKeyed, GivenUp, BlkDone;
    assert !BlkOnes(Node([TYPE], TEST_ARP, jt, jf), {}, TYPE_KEYS, TYPE_VALS);
  }

  lemma TypeKept(jt: Block?, jf: Block?)
    ensures WellKeyed(TYPE_KEYS)
    ensures BlkKept(Node([TYPE], TEST_ARP, jt, jf), Node([SPARE], TEST_ARP, jt, jf), AllAtoms() - {}, TYPE_KEYS,
                    TYPE_VALS, false)
  {
    TypeKeysWell();
    var n0, n := Node([TYPE], TEST_ARP, jt, jf), Node([SPARE], TEST_ARP, jt, jf);
    forall st, p {:trigger ExecAll(n0.stmts, st, p)} |
        Agrees(TYPE_KEYS, TYPE_VALS, st, p) && ExecAll(n0.stmts, st, p).Some?
      ensures BlkKeptRun(n0, n, AllAtoms() - {}, false, st, p)
    {
      TypeSame(st, p);
      assert [TYPE][1..] == [] && [SPARE][1..] == [];
      hide Agrees, Exec;
    }
  }

  /** From a state that agrees with the table, loading the field again changes nothing. */
  lemma TypeSame(st: State, p: Packet)
    requires WellKeyed(TYPE_KEYS) && Agrees(TYPE_KEYS, TYPE_VALS, st, p)
    ensures Exec(TYPE, st, p) == Some(st) && Exec(SPARE, st, p) == Some(st)
  {
    TypeKeysWell();
    assert TYPE_VALS[A_ATOM] == 1;
    assert Denote(TYPE_KEYS, 1, p) == Some(st[A_ATOM]);
    assert KeyValue(TYPE_KEYS, TYPE_KEY, 1, p) == Some(st[A_ATOM]);
    assert st[A_ATOM := st[A_ATOM]] == st;
  }

  /** A becomes live between the blocks, where it was dead; but the first block keeps it, and nothing is missed. */
  lemma RepeatLoad(a: Block, b: Block, yes: Block, no: Block, P: Pass)
    requires Four(a, b, yes, no) && {a, b} <= P.entries.Keys && {a, b} <= P.peeped.Keys
    requires P.entries[a] == Entry([], NONE) && P.entries[b] == Entry(TYPE_KEYS, TYPE_VALS)
    requires P.peeped[a] == [TYPE] && P.peeped[b] == [SPARE]
    ensures BothDo(TypeGraph(a, b, yes, no), TypeLeft(a, b, yes, no), StaleRank(a, b, yes, no), a, b, false, P,
                   Rewrites([TYPE], TYPE_VALS, [TYPE_KEY]), Rewrites([SPARE], TYPE_VALS, TYPE_KEYS))
    ensures Dag(TypeGraph(a, b, yes, no), StaleRank(a, b, yes, no)) && GraphMemOk(TypeGraph(a, b, yes, no))
    ensures Dag(TypeLeft(a, b, yes, no), StaleRank(a, b, yes, no)) && GraphMemOk(TypeLeft(a, b, yes, no))
    ensures !NoNewUse(TypeGraph(a, b, yes, no), TypeLeft(a, b, yes, no), StaleRank(a, b, yes, no), {a, b, yes, no})
    ensures NoneMissed(TypeGraph(a, b, yes, no), TypeLeft(a, b, yes, no), StaleRank(a, b, yes, no),
                       {a, b, yes, no}, P)
  {
    hide *;
    TypeShape(a, b, yes, no);
    TypeBoth(a, b, yes, no, P);
    TypeNewUse(a, b, yes, no);
    TypeNoneMissed(a, b, yes, no, P);
  }

  lemma TypeBoth(a: Block, b: Block, yes: Block, no: Block, P: Pass)
    requires Four(a, b, yes, no) && {a, b} <= P.entries.Keys
    requires P.entries[a] == Entry([], NONE) && P.entries[b] == Entry(TYPE_KEYS, TYPE_VALS)
    ensures BothDo(TypeGraph(a, b, yes, no), TypeLeft(a, b, yes, no), StaleRank(a, b, yes, no), a, b, false, P,
                   Rewrites([TYPE], TYPE_VALS, [TYPE_KEY]), Rewrites([SPARE], TYPE_VALS, TYPE_KEYS))
  {
    hide BlkDoes, OutUse, TypeGraph, TypeLeft, StaleRank, Dag, GraphMemOk, EntryTable;
    TypeNodes(a, b, yes, no);
    TypeLive(a, b, yes, no);
    FirstType(yes, b);
    SecondType(yes, no);
    EntryIsExit(a, false, TYPE_VALS);
  }

  lemma FirstType(jt: Block?, jf: Block?)
    ensures var n := Node([TYPE], TEST_IP, jt, jf);
            BlkDoes(n, n, {}, [], NONE, Rewrites([TYPE], TYPE_VALS, [TYPE_KEY]))
  {
    hide *;
    var n := Node([TYPE], TEST_IP, jt, jf);
    TypeLocals();
    FirstSteps();
    FirstSure(jt, jf);
    TypeLeftA(jt, jf);
    DoesIs(n, n, {}, [], NONE, Rewrites([TYPE], TYPE_VALS, [TYPE_KEY]));
  }

  lemma SecondType(jt: Block?, jf: Block?)
    ensures BlkDoes(Node([TYPE], TEST_ARP, jt, jf), Node([SPARE], TEST_ARP, jt, jf), {}, TYPE_KEYS, TYPE_VALS,
                    Rewrites([SPARE], TYPE_VALS, TYPE_KEYS))
  {
    hide *;
    TypeLocals();
    SecondSteps();
    SecondSure(jt, jf);
    TypeLeftB(jt, jf);
    DoesIs(Node([TYPE], TEST_ARP, jt, jf), Node([SPARE], TEST_ARP, jt, jf), {}, TYPE_KEYS, TYPE_VALS,
           Rewrites([SPARE], TYPE_VALS, TYPE_KEYS));
  }

  lemma TypeNewUse(a: Block, b: Block, yes: Block, no: Block)
    requires Four(a, b, yes, no)
    ensures var (g, g1, rank) := (TypeGraph(a, b, yes, no), TypeLeft(a, b, yes, no), StaleRank(a, b, yes, no));
            Dag(g, rank) && GraphMemOk(g) && !NoNewUse(g, g1, rank, {a, b, yes, no})
  {
    var (g, g1, rank) := (TypeGraph(a, b, yes, no), TypeLeft(a, b, yes, no), StaleRank(a, b, yes, no));
    TypeNodes(a, b, yes, no);
    TypeLive(a, b, yes, no);
    TypeLocals();
    hide TypeGraph, TypeLeft, StaleRank, BlockLocal, InUse, OutUse, Dag, GraphMemOk;
    assert g1[b].stmts == [SPARE];
    assert A_ATOM in Needed(g1[b], OutUse(g, rank, b)) && A_ATOM !in InUse(g, rank, b);
  }

  lemma TypeNoneMissed(a: Block, b: Block, yes: Block, no: Block, P: Pass)
    requires Four(a, b, yes, no) && {a, b} <= P.entries.Keys && {a, b} <= P.peeped.Keys
    requires P.entries[a] == Entry([], NONE) && P.entries[b] == Entry(TYPE_KEYS, TYPE_VALS)
    requires P.peeped[a] == [TYPE] && P.peeped[b] == [SPARE]
    ensures var (g, g1, rank) := (TypeGraph(a, b, yes, no), TypeLeft(a, b, yes, no), StaleRank(a, b, yes, no));
            && Dag(g, rank) && GraphMemOk(g) && Dag(g1, rank) && GraphMemOk(g1)
            && NoneMissed(g, g1, rank, {a, b, yes, no}, P)
  {
    var (g, g1, rank) := (TypeGraph(a, b, yes, no), TypeLeft(a, b, yes, no), StaleRank(a, b, yes, no));
    TypeNodes(a, b, yes, no);
    TypeLive(a, b, yes, no);
    TypeGivenUp(yes, b);
    TypeGivenUp(yes, no);
    hide TypeGraph, TypeLeft, StaleRank, OutUse, Dag, GraphMemOk, GivenUp;
    forall x {:trigger P.entries[x]} | x in {a, b, yes, no} && x in P.entries
      ensures NotMissed(g, g1, rank, P, x)
    {
    }
  }
}
