/** or_pullup with the dominator sets from before opt_j has moved an edge. */
module StaleDoms {
  import opened Bpf
  import opened Cfg
  import opened Paths
  import opened Runs
  import opened Liveness
  import opened JumpThread
  import opened PullFaults
  import opened PullUp
  import opened PullCurrent
  import Redirect

  /** The blocks of the graph. */
  datatype Cast = Cast(r: Block, k: Block, p: Block, q: Block, b: Block, x: Block, z: Block, yes: Block, no: Block)

  ghost predicate AllApart(c: Cast) {
    && c.r !in {c.k, c.p, c.q, c.b, c.x, c.z, c.yes, c.no} && c.k !in {c.p, c.q, c.b, c.x, c.z, c.yes, c.no}
    && c.p !in {c.q, c.b, c.x, c.z, c.yes, c.no} && c.q !in {c.b, c.x, c.z, c.yes, c.no}
    && c.b !in {c.x, c.z, c.yes, c.no} && c.x !in {c.z, c.yes, c.no} && c.z !in {c.yes, c.no} && c.yes != c.no
  }

  /** Is byte `i` of the packet `v`? */
  function Ask(i: Word, v: Word, jt: Block, jf: Block): Node {
    Node([Stmt(LdAbs(B), i)], Stmt(Jmp(JEQ, K), v), jt, jf)
  }

  /** k, q, b and z ask about byte 1. On the way from k over p to b, b's answer is that of k. */
  function DomGraph(c: Cast): Graph {
    map[c.r := Ask(0, 1, c.k, c.q), c.k := Ask(1, 6, c.yes, c.p), c.p := Ask(2, 3, c.yes, c.b),
        c.q := Node([Stmt(LdAbs(B), 1)], Stmt(Jmp(JGT, K), 20), c.b, c.no), c.b := Ask(1, 6, c.yes, c.x),
        c.x := Ask(3, 1, c.yes, c.z), c.z := Ask(1, 17, c.yes, c.no), c.yes := Returning(1), c.no := Returning(0)]
  }

  function DomRank(c: Cast): map<Block, nat> {
    map[c.r := 6, c.k := 5, c.p := 4, c.q := 4, c.b := 3, c.x := 2, c.z := 1, c.yes := 0, c.no := 0]
  }

  /** The blocks dominated by b. */
  function Below(c: Cast): set<Block> {
    {c.b, c.x, c.z}
  }

  /** The graph when opt_j has led p past b. */
  ghost function DomMoved(c: Cast): Graph
    requires AllApart(c)
  {
    Redirect.Moved(DomGraph(c), Edge(c.p, false), c.x)
  }

  lemma MovedIs(c: Cast)
    requires AllApart(c)
    ensures DomMoved(c) == DomGraph(c)[c.p := Ask(2, 3, c.yes, c.x)]
  {
  }

  /** The graph block by block. */
  lemma DomNodes(c: Cast)
    requires AllApart(c)
    ensures var g := DomGraph(c);
            && g.Keys == {c.r, c.k, c.p, c.q, c.b, c.x, c.z, c.yes, c.no}
            && g[c.r] == Ask(0, 1, c.k, c.q) && g[c.k] == Ask(1, 6, c.yes, c.p) && g[c.p] == Ask(2, 3, c.yes, c.b)
            && g[c.q] == Node([Stmt(LdAbs(B), 1)], Stmt(Jmp(JGT, K), 20), c.b, c.no)
            && g[c.b] == Ask(1, 6, c.yes, c.x) && g[c.x] == Ask(3, 1, c.yes, c.z) && g[c.z] == Ask(1, 17, c.yes, c.no)
            && g[c.yes] == Returning(1) && g[c.no] == Returning(0)
  {
  }

  lemma DomShape(c: Cast)
    requires AllApart(c)
    ensures Dag(DomGraph(c), DomRank(c)) && GraphMemOk(DomGraph(c))
  {
    DomNodes(c);
    var g, rank := DomGraph(c), DomRank(c);
    hide DomGraph, AllApart;
    forall y {:trigger DagNode(g, rank, y)} | y in g
      ensures DagNode(g, rank, y)
    {
    }
  }

  lemma MovedShape(c: Cast)
    requires AllApart(c) && Dag(DomGraph(c), DomRank(c))
    ensures Dag(DomMoved(c), DomRank(c))
  {
    DomNodes(c);
    Redirect.MovedDag(DomGraph(c), DomRank(c), Edge(c.p, false), c.x);
  }

  // ----- Dominators -----

  lemma NotDominated(g: Graph, rank: map<Block, nat>, root: Block, b: Block, c: Block, s: bool, y: Block)
    requires Dag(g, rank) && root in g && c in Reach(g, rank, root) && Enters(g, c, s, y) && y != b
    requires !Dominates(g, root, b, c)
    ensures !Dominates(g, root, b, y) && y in Reach(g, rank, root)
  {
    DominatesStep(g, rank, root, b, y);
    EntersLower(g, rank, root, c, s, y);
  }

  /** Above b and beside it nothing is dominated by b, before and after the move. */
  lemma Beside(c: Cast, g: Graph)
    requires AllApart(c) && Dag(g, DomRank(c)) && g in {DomGraph(c), DomMoved(c)}
    ensures forall y :: y in {c.r, c.k, c.p, c.q, c.yes, c.no} ==> !Dominates(g, c.r, c.b, y)
    ensures c.p in Reach(g, DomRank(c), c.r)
  {
    MovedIs(c);
    var rank := DomRank(c);
    assert g[c.r] == Ask(0, 1, c.k, c.q) && g[c.k] == Ask(1, 6, c.yes, c.p) && g[c.q].jf == c.no;
    hide DomGraph, DomMoved, DomRank, Dominates, Dag, Reach;
    DominatesStep(g, rank, c.r, c.b, c.r);
    NotDominated(g, rank, c.r, c.b, c.r, true, c.k);
    NotDominated(g, rank, c.r, c.b, c.r, false, c.q);
    NotDominated(g, rank, c.r, c.b, c.k, false, c.p);
    NotDominated(g, rank, c.r, c.b, c.k, true, c.yes);
    NotDominated(g, rank, c.r, c.b, c.q, false, c.no);
  }

  lemma BelowDominated(c: Cast)
    requires AllApart(c) && Dag(DomGraph(c), DomRank(c))
    ensures forall y :: y in DomGraph(c) ==> (y in Below(c) <==> Dominates(DomGraph(c), c.r, c.b, y))
  {
    var g, rank := DomGraph(c), DomRank(c);
    Beside(c, g);
    DomNodes(c);
    hide DomGraph;
    assert forall y, s :: Enters(g, y, s, c.x) ==> y == c.b;
    assert forall y, s :: Enters(g, y, s, c.z) ==> y == c.x;
    assert g.Keys == Below(c) + {c.r, c.k, c.p, c.q, c.yes, c.no} && c.r !in Below(c);
    hide DomRank, Dominates, Dag, Reach, AllApart;
    DominatesStep(g, rank, c.r, c.b, c.b);
    DominatesStep(g, rank, c.r, c.b, c.x);
    DominatesStep(g, rank, c.r, c.b, c.z);
  }

  lemma BelowNoMore(c: Cast)
    requires AllApart(c) && Dag(DomMoved(c), DomRank(c))
    ensures !Dominates(DomMoved(c), c.r, c.b, c.x) && !Current(DomMoved(c), c.r, c.b, Below(c))
  {
    var g, rank := DomMoved(c), DomRank(c);
    Beside(c, g);
    MovedIs(c);
    assert Enters(g, c.p, false, c.x) && c.x in g && c.x in Below(c);
    hide DomGraph, DomMoved, DomRank, Dominates, Dag, Reach;
    NotDominated(g, rank, c.r, c.b, c.p, false, c.x);
  }

  lemma EdgeAbove(c: Cast)
    requires AllApart(c) && Dag(DomGraph(c), DomRank(c))
    ensures EdgeDominates(DomGraph(c), c.r, Edge(c.k, false), Edge(c.p, false))
  {
    var g, rank := DomGraph(c), DomRank(c);
    assert forall y, s :: Enters(g, y, s, c.p) ==> y == c.k && s == false;
    assert c.r in g && c.p != c.r;
    hide DomGraph, DomRank, EdgeDominates, Dag, Reach;
    EdgeDominatesStep(g, rank, c.r, Edge(c.k, false), Edge(c.k, false));
    EdgeDominatesStep(g, rank, c.r, Edge(c.k, false), Edge(c.p, false));
  }

  /** Nothing is live behind x, so that the move has no conflict. */
  lemma NoneLive(c: Cast)
    requires AllApart(c) && Dag(DomGraph(c), DomRank(c)) && GraphMemOk(DomGraph(c))
    ensures OutUse(DomGraph(c), DomRank(c), c.x) == {}
  {
    var g, rank := DomGraph(c), DomRank(c);
    UseNothing(g, rank, c.yes);
    UseNothing(g, rank, c.no);
    OneUse(Stmt(LdAbs(B), 1), Stmt(Jmp(JEQ, K), 17));
    assert LocalAt(g, c.z).use == {};
    assert g[c.z].jt == c.yes && g[c.z].jf == c.no && g[c.x].jt == c.yes && g[c.x].jf == c.z;
    hide LocalAt, DomGraph, GraphMemOk, Dag, DomRank;
    assert InUse(g, rank, c.z) == {};
  }

  // ----- The chain or_pullup finds -----

  lemma StillChained(c: Cast, nums: map<Block, nat>)
    requires AllApart(c) && DomGraph(c).Keys <= nums.Keys
    requires nums[c.b] == nums[c.q] == nums[c.z] != nums[c.x]
    ensures Candidate(DomMoved(c), Below(c), c.b, [c.b, c.x, c.z], 1, false, c.yes, nums, nums[c.q])
    ensures InsRight(DomMoved(c), c.b, [Edge(c.q, true)]) && c.q in nums
  {
    MovedIs(c);
    var g, q := DomMoved(c), [c.b, c.x, c.z];
    assert q[..2] == [c.b, c.x];
    assert CheckedAt(g, Below(c), c.b, q, false, c.yes, 0) && CheckedAt(g, Below(c), c.b, q, false, c.yes, 1);
    assert CheckedAt(g, Below(c), c.b, q, false, c.yes, 2);
    assert CheckedAt(g, Below(c), c.b, q[..2], false, c.yes, 0) && CheckedAt(g, Below(c), c.b, q[..2], false, c.yes, 1);
    assert Edge(c.q, true) in [Edge(c.q, true)];
    assert forall y, s :: Enters(g, y, s, c.b) ==> y == c.q && s == true;
  }

  lemma SurgeryIs(c: Cast)
    requires AllApart(c)
    ensures (forall y :: y in [c.b, c.x, c.z] ==> y in DomMoved(c)) && c.q in DomMoved(c)
    ensures Surgery(DomMoved(c), c.b, [c.b, c.x, c.z], 1, false, [Edge(c.q, true)])
        == DomMoved(c)[c.x := Ask(3, 1, c.yes, c.no)][c.z := Ask(1, 17, c.yes, c.x)][c.b := Ask(1, 6, c.yes, c.z)]
  {
    MovedIs(c);
    var g, q := DomMoved(c), [c.b, c.x, c.z];
    assert g[c.x] == Ask(3, 1, c.yes, c.z) && g[c.z] == Ask(1, 17, c.yes, c.no) && g[c.b] == Ask(1, 6, c.yes, c.x);
    assert q[0] == c.b && q[1] == c.x && q[2] == c.z;
    hide DomMoved, DomGraph;
  }

  // ----- The packet -----

  const PACKET := Packet([1, 17, 0, 0], 4)

  lemma RunAsk(g: Graph, y: Block, i: Word, v: Word, jt: Block, jf: Block, st: State, fuel: nat)
    requires y in g && g[y] == Ask(i, v, jt, jf) && i < 4 && fuel > 0
    ensures Run(g, y, st, PACKET, fuel)
        == Run(g, if PACKET.data[i] == v then jt else jf, st[A_ATOM := PACKET.data[i]], PACKET, fuel - 1)
  {
    assert ExecAll([Stmt(LdAbs(B), i)], st, PACKET) == Some(st[A_ATOM := PACKET.data[i]]);
    hide ExecAll, Run;
    RunUnfold(g, At(y, st), PACKET, fuel);
  }

  lemma RunLeaf(g: Graph, y: Block, v: Word, st: State, fuel: nat)
    requires y in g && g[y] == Returning(v) && fuel > 0
    ensures Run(g, y, st, PACKET, fuel) == Returned(v)
  {
    NothingRun(st, PACKET);
  }

  lemma States(st: State)
    ensures var (s0, s1, s2) := (st[A_ATOM := 1], st[A_ATOM := 17], st[A_ATOM := 0]);
            s0[A_ATOM := 17] == s1 && s1[A_ATOM := 0] == s2 && s2[A_ATOM := 17] == s1 && s2[A_ATOM := 0] == s2
  {
  }

  lemma RunBefore(c: Cast, st: State)
    requires AllApart(c)
    ensures Run(DomGraph(c), c.r, st, PACKET, 7) == Returned(1)
  {
    DomNodes(c);
    var g := DomGraph(c);
    var s0, s1, s2 := st[A_ATOM := 1], st[A_ATOM := 17], st[A_ATOM := 0];
    States(st);
    hide Run, DomGraph, AllApart;
    RunAsk(g, c.r, 0, 1, c.k, c.q, st, 7);
    RunAsk(g, c.k, 1, 6, c.yes, c.p, s0, 6);
    RunAsk(g, c.p, 2, 3, c.yes, c.b, s1, 5);
    RunAsk(g, c.b, 1, 6, c.yes, c.x, s2, 4);
    RunAsk(g, c.x, 3, 1, c.yes, c.z, s1, 3);
    RunAsk(g, c.z, 1, 17, c.yes, c.no, s2, 2);
    RunLeaf(g, c.yes, 1, s1, 1);
  }

  lemma RunMoved(c: Cast, st: State)
    requires AllApart(c)
    ensures Run(DomMoved(c), c.r, st, PACKET, 7) == Returned(1)
  {
    MovedIs(c);
    DomNodes(c);
    var g := DomMoved(c);
    var s0, s1, s2 := st[A_ATOM := 1], st[A_ATOM := 17], st[A_ATOM := 0];
    States(st);
    hide Run, DomGraph, DomMoved;
    RunAsk(g, c.r, 0, 1, c.k, c.q, st, 7);
    RunAsk(g, c.k, 1, 6, c.yes, c.p, s0, 6);
    RunAsk(g, c.p, 2, 3, c.yes, c.x, s1, 5);
    RunAsk(g, c.x, 3, 1, c.yes, c.z, s2, 4);
    RunAsk(g, c.z, 1, 17, c.yes, c.no, s2, 3);
    RunLeaf(g, c.yes, 1, s1, 2);
  }

  lemma RunAfter(c: Cast, g: Graph, st: State)
    requires AllApart(c)
    requires g == DomMoved(c)[c.x := Ask(3, 1, c.yes, c.no)][c.z := Ask(1, 17, c.yes, c.x)]
                         [c.b := Ask(1, 6, c.yes, c.z)]
    ensures Run(g, c.r, st, PACKET, 7) == Returned(0)
  {
    MovedIs(c);
    DomNodes(c);
    var s0, s1, s2 := st[A_ATOM := 1], st[A_ATOM := 17], st[A_ATOM := 0];
    States(st);
    hide Run, DomGraph, DomMoved;
    RunAsk(g, c.r, 0, 1, c.k, c.q, st, 7);
    RunAsk(g, c.k, 1, 6, c.yes, c.p, s0, 6);
    RunAsk(g, c.p, 2, 3, c.yes, c.x, s1, 5);
    RunAsk(g, c.x, 3, 1, c.yes, c.no, s2, 4);
    RunLeaf(g, c.no, 0, s2, 3);
  }

  /** opt_j may lead p past b to x, as b repeats k's test. b then no longer dominates x, but its list still says so,
      and or_pullup at b, by whatever numbers tell the loads of byte 1 from the load of byte 3, puts z in front of x
      and leaves p without z: a packet that was accepted is rejected. */
  lemma StaleDoms(c: Cast, nums: map<Block, nat>, st: State)
    requires AllApart(c) && DomGraph(c).Keys <= nums.Keys
    requires nums[c.b] == nums[c.q] == nums[c.z] != nums[c.x]
    ensures var (g, rank) := (DomGraph(c), DomRank(c));
            && Dag(g, rank) && GraphMemOk(g) && OutUse(g, rank, c.x) == {} && Repeats(g, c.k, c.b, c.x)
            && EdgeDominates(g, c.r, Edge(c.k, false), Edge(c.p, false))
            && forall y :: y in g ==> (y in Below(c) <==> Dominates(g, c.r, c.b, y))
    ensures var (g1, q, ins) := (DomMoved(c), [c.b, c.x, c.z], [Edge(c.q, true)]);
            && Dag(g1, DomRank(c)) && !Current(g1, c.r, c.b, Below(c)) && InsRight(g1, c.b, ins) && c.q in nums
            && Candidate(g1, Below(c), c.b, q, 1, false, c.yes, nums, nums[c.q])
            && (forall y :: y in q ==> y in g1) && c.q in g1
            && Run(DomGraph(c), c.r, st, PACKET, 7) == Returned(1) && Run(g1, c.r, st, PACKET, 7) == Returned(1)
            && Run(Surgery(g1, c.b, q, 1, false, ins), c.r, st, PACKET, 7) == Returned(0)
  {
    hide *;
    DomShape(c);
    MovedShape(c);
    NoneLive(c);
    EdgeAbove(c);
    BelowDominated(c);
    BelowNoMore(c);
    Folds(c);
    StillChained(c, nums);
    SurgeryIs(c);
    RunBefore(c, st);
    RunMoved(c, st);
    RunAfter(c, Surgery(DomMoved(c), c.b, [c.b, c.x, c.z], 1, false, [Edge(c.q, true)]), st);
  }

  /** Whenever both have the same number for A, fold_edge takes b to answer as k, on the side that leads to x. */
  ghost predicate Repeats(g: Graph, k: Block, b: Block, x: Block) {
    && k in g && b in g && Succ(g[b], false) == x
    && forall v0: Vals, v1: Vals, o {:trigger FoldSide(g[b].test, v0, o, g[k].test, v1, o, false)} ::
         v0[A_ATOM] == v1[A_ATOM] ==> FoldSide(g[b].test, v0, o, g[k].test, v1, o, false) == Some(false)
  }

  lemma Folds(c: Cast)
    requires AllApart(c)
    ensures Repeats(DomGraph(c), c.k, c.b, c.x)
  {
    DomNodes(c);
    hide DomGraph;
  }
}
