/** Pulling a test to the front of a chain of tests that share one outcome: what or_pullup and
    and_pullup do to the graph. `side` is the outcome on which the chain goes on: false for
    or_pullup, true for and_pullup. */
module PullSpec {
  import opened Bpf
  import opened Cfg
  import opened Atoms
  import opened Paths
  import opened Liveness
  import opened DeadStores
  import opened Runs
  import opened JumpThread

  /** A chain cs[0], ..., cs[n - 1]: on `!side` all go to `common`, on `side` each goes to the next and
      the last to `after`; only the first is entered from outside. */
  datatype Chain = Chain(cs: seq<Block>, side: bool, common: Block, after: Block)

  ghost predicate ChainIn(g: Graph, c: Chain) {
    && |c.cs| >= 2 && c.common in g && c.after in g
    && (forall i {:trigger c.cs[i]} :: 0 <= i < |c.cs| ==> Member(g, c, i))
    && (forall i {:trigger c.cs[i]} :: 0 < i < |c.cs| ==> EnteredAlong(g, c, i))
  }

  ghost predicate Member(g: Graph, c: Chain, i: int)
    requires 0 <= i < |c.cs|
  {
    && c.cs[i] in g && g[c.cs[i]].test.code.Jmp?
    && Succ(g[c.cs[i]], !c.side) == c.common
    && Succ(g[c.cs[i]], c.side) == if i + 1 < |c.cs| then c.cs[i + 1] else c.after
  }

  /** Only the block before it leads to the i-th. */
  ghost predicate EnteredAlong(g: Graph, c: Chain, i: int)
    requires 0 < i < |c.cs|
  {
    forall x, s {:trigger Enters(g, x, s, c.cs[i])} :: x in g && Enters(g, x, s, c.cs[i]) ==>
        x == c.cs[i - 1] && s == c.side
  }

  function First(c: Chain): Block
    requires c.cs != []
  {
    c.cs[0]
  }

  function Last(c: Chain): Block
    requires c.cs != []
  {
    c.cs[|c.cs| - 1]
  }

  function SetSide(n: Node, side: bool, d: Block?): Node {
    if side then n.(jt := d) else n.(jf := d)
  }

  /** Every edge into `from` led to `to`. */
  function Redirected(n: Node, from: Block, to: Block): Node {
    n.(jt := if n.jt == from then to else n.jt, jf := if n.jf == from then to else n.jf)
  }

  /** The last block pulled in front of the first. */
  ghost function Pulled(g: Graph, c: Chain): (g1: Graph)
    requires |c.cs| >= 2
    ensures g1.Keys == g.Keys
  {
    map x | x in g ::
      if x == Last(c) then SetSide(g[x], c.side, First(c))
      else if x == c.cs[|c.cs| - 2] then SetSide(Redirected(g[x], First(c), Last(c)), c.side, c.after)
      else Redirected(g[x], First(c), Last(c))
  }

  // ----- The new graph is acyclic -----

  ghost function PulledRank(g: Graph, rank: map<Block, nat>, c: Chain): (r: map<Block, nat>)
    requires |c.cs| >= 2 && First(c) in rank
    ensures r.Keys == rank.Keys
  {
    map x | x in rank :: if x == Last(c) then 2 * rank[First(c)] + 1 else 2 * rank[x]
  }

  lemma {:induction false} ChainRanks(g: Graph, rank: map<Block, nat>, c: Chain, i: nat, j: nat)
    requires Dag(g, rank) && ChainIn(g, c) && i <= j < |c.cs|
    ensures c.cs[i] in g && c.cs[j] in g && rank[c.cs[j]] + (j - i) <= rank[c.cs[i]]
    ensures rank[c.common] < rank[c.cs[j]] && (j == |c.cs| - 1 ==> rank[c.after] < rank[c.cs[j]])
    decreases j - i
  {
    assert Member(g, c, i) && Member(g, c, j);
    assert DagNode(g, rank, c.cs[i]) && DagNode(g, rank, c.cs[j]);
    if i < j {
      ChainRanks(g, rank, c, i + 1, j);
    }
  }

  lemma PulledDag(g: Graph, rank: map<Block, nat>, c: Chain)
    requires Dag(g, rank) && ChainIn(g, c) && First(c) in rank
    ensures Dag(Pulled(g, c), PulledRank(g, rank, c))
  {
    var g1, rank1, n := Pulled(g, c), PulledRank(g, rank, c), |c.cs|;
    ChainRanks(g, rank, c, 0, n - 1);
    ChainRanks(g, rank, c, 0, n - 2);
    ChainRanks(g, rank, c, n - 2, n - 1);
    assert Member(g, c, n - 1) && Member(g, c, n - 2);
    forall x {:trigger DagNode(g1, rank1, x)} | x in g1
      ensures DagNode(g1, rank1, x)
    {
      assert DagNode(g, rank, x);
      if g[x].jt != null {
        Entering(g, rank, c, x, true);
        Entering(g, rank, c, x, false);
      }
    }
  }

  /** Only the block before it leads to the last one. */
  lemma Entering(g: Graph, rank: map<Block, nat>, c: Chain, x: Block, s: bool)
    requires Dag(g, rank) && ChainIn(g, c) && x in g
    ensures Succ(g[x], s) == Last(c) ==> x == c.cs[|c.cs| - 2] && s == c.side
  {
    assert Member(g, c, |c.cs| - 1);
    if Succ(g[x], s) == Last(c) {
      assert EnteredAlong(g, c, |c.cs| - 1) && Enters(g, x, s, c.cs[|c.cs| - 1]);
    }
  }

  // ----- The outcome of a run, however long it takes -----

  ghost function Final(g: Graph, rank: map<Block, nat>, b: Block, st: State, p: Packet): Outcome
    requires Dag(g, rank) && b in g
  {
    Run(g, b, st, p, rank[b] + 1)
  }

  lemma FinalStep(g: Graph, rank: map<Block, nat>, b: Block, st: State, p: Packet)
    requires Dag(g, rank) && b in g && ExecAll(g[b].stmts, st, p).Some? && g[b].test.code.Jmp?
    ensures var st1 := ExecAll(g[b].stmts, st, p).value;
            var c := Succ(g[b], Taken(g[b].test, st1));
            c != null && c in g && rank[c] < rank[b] && Final(g, rank, b, st, p) == Final(g, rank, c, st1, p)
  {
    assert DagNode(g, rank, b);
    var st1 := ExecAll(g[b].stmts, st, p).value;
    var c := Succ(g[b], Taken(g[b].test, st1));
    RunFinishes(g, rank, c, st1, p, rank[c] + 1);
    RunMoreFuel(g, c, st1, p, rank[c] + 1, rank[b]);
  }

  /** A block that returns, or faults, has the same outcome wherever it stands. */
  lemma FinalStop(g: Graph, rank: map<Block, nat>, g1: Graph, rank1: map<Block, nat>, b: Block, st: State, p: Packet)
    requires Dag(g, rank) && Dag(g1, rank1) && b in g && b in g1 && g1[b].stmts == g[b].stmts && g1[b].test == g[b].test
    requires ExecAll(g[b].stmts, st, p) == None || !g[b].test.code.Jmp?
    ensures Final(g1, rank1, b, st, p) == Final(g, rank, b, st, p)
  {
  }

  // ----- A line of tests -----

  /** The tests of `q` in this order: on `!side` to `common`, on `side` to the next, at last to `after`. */
  ghost predicate Line(h: Graph, g: Graph, q: seq<Block>, side: bool, common: Block, after: Block) {
    common in h && after in h && forall i {:trigger q[i]} :: 0 <= i < |q| ==>
        LineAt(h, g, q[i], side, common, if i + 1 < |q| then q[i + 1] else after)
  }

  /** One test of the line, and the block after it. */
  ghost predicate LineAt(h: Graph, g: Graph, x: Block, side: bool, common: Block, next: Block) {
    && x in h && x in g && h[x].stmts == g[x].stmts && h[x].test == g[x].test && g[x].test.code.Jmp?
    && Succ(h[x], !side) == common && Succ(h[x], side) == next
  }

  /** Test x, run from `st`, goes to the common block. */
  ghost predicate Hits(g: Graph, x: Block, side: bool, st: State, p: Packet) {
    x in g && ExecAll(g[x].stmts, st, p).Some? && g[x].test.code.Jmp?
        && Taken(g[x].test, ExecAll(g[x].stmts, st, p).value) == !side
  }

  ghost function Defs(g: Graph, q: seq<Block>): set<Atom>
    requires GraphMemOk(g) && forall x :: x in q ==> x in g
    decreases |q|
  {
    if q == [] then {} else Defs(g, q[..|q| - 1]) + LocalAt(g, q[|q| - 1]).def
  }

  lemma {:induction false} DefsHas(g: Graph, q: seq<Block>, a: Atom)
    requires GraphMemOk(g) && forall x :: x in q ==> x in g
    ensures a in Defs(g, q) <==> exists i :: 0 <= i < |q| && a in LocalAt(g, q[i]).def
    decreases |q|
  {
    if q != [] {
      var init, n := q[..|q| - 1], |q| - 1;
      DefsHas(g, init, a);
      if a in Defs(g, init) {
        var i :| 0 <= i < |init| && a in LocalAt(g, init[i]).def;
        assert q[i] == init[i];
      } else if exists i :: 0 <= i < |q| && a in LocalAt(g, q[i]).def {
        var i :| 0 <= i < |q| && a in LocalAt(g, q[i]).def;
        if i < n {
          assert init[i] == q[i];
        }
      }
    }
  }

  /** No test defines what another one reads. */
  ghost predicate Independent(g: Graph, q: seq<Block>)
    requires GraphMemOk(g) && forall x :: x in q ==> x in g
  {
    forall i, j {:trigger q[i], q[j]} :: 0 <= i < |q| && 0 <= j < |q| && i != j ==> Unread(g, q[i], q[j])
  }

  /** What x defines, y does not read. */
  ghost predicate Unread(g: Graph, x: Block, y: Block)
    requires GraphMemOk(g) && x in g && y in g
  {
    LocalAt(g, x).def !! LocalAt(g, y).use
  }

  /** A test faults or decides the same way after others have run. */
  lemma SameDecision(g: Graph, q: seq<Block>, m: nat, st0: State, st: State, p: Packet)
    requires GraphMemOk(g) && (forall x :: x in q ==> x in g) && Independent(g, q) && m < |q| && g[q[m]].test.code.Jmp?
    requires SameBut(st0, st, Defs(g, q[..m]))
    ensures ExecAll(g[q[m]].stmts, st, p).Some? == ExecAll(g[q[m]].stmts, st0, p).Some?
    ensures ExecAll(g[q[m]].stmts, st, p).Some? ==>
              Taken(g[q[m]].test, ExecAll(g[q[m]].stmts, st, p).value)
                  == Taken(g[q[m]].test, ExecAll(g[q[m]].stmts, st0, p).value)
              && SameBut(st0, ExecAll(g[q[m]].stmts, st, p).value, Defs(g, q[..m + 1]))
  {
    var x, ss := q[m], g[q[m]].stmts;
    assert forall i {:trigger q[..m][i]} :: 0 <= i < m ==> q[..m][i] == q[i];
    forall a {:trigger st0[a]} | a in LocalAt(g, x).use
      ensures st0[a] == st[a]
    {
      DefsHas(g, q[..m], a);
    }
    LocalGrows(ss, |ss|);
    ExecAgree(ss, st0, st, p, LocalAt(g, x).use);
    if ExecAll(ss, st, p).Some? {
      TakenAgree(g[x].test, ExecAll(ss, st0, p).value, ExecAll(ss, st, p).value);
      assert q[..m + 1][..m] == q[..m] && q[..m + 1][m] == x;
      forall a {:trigger st0[a]} | 0 <= a < N_ATOMS && a !in Defs(g, q[..m + 1])
        ensures st0[a] == ExecAll(ss, st, p).value[a]
      {
        UndefinedKept(ss, st, p, a);
      }
    }
  }

  /** What the tests from the m-th on decide when each is run from `st0`: a fault when one that is come to
      faults, `hit` when one hits, else `miss`. */
  ghost function LineOutcome(g: Graph, q: seq<Block>, m: nat, side: bool, st0: State, p: Packet, hit: Outcome,
                             miss: Outcome): Outcome
    requires forall x :: x in q ==> x in g
    decreases |q| - m
  {
    if m >= |q| then miss
    else if ExecAll(g[q[m]].stmts, st0, p) == None then Faulted
    else if Hits(g, q[m], side, st0, p) then hit
    else LineOutcome(g, q, m + 1, side, st0, p, hit, miss)
  }

  /** What is known of the m-th test. */
  lemma LineParts(h: Graph, g: Graph, q: seq<Block>, m: nat, side: bool, common: Block, after: Block, st0: State,
                  p: Packet)
    requires Line(h, g, q, side, common, after) && m < |q|
    ensures common in h && after in h && q[m] in h && q[m] in g && h[q[m]].stmts == g[q[m]].stmts
    ensures h[q[m]].test == g[q[m]].test && g[q[m]].test.code.Jmp?
    ensures Succ(h[q[m]], !side) == common && Succ(h[q[m]], side) == (if m + 1 < |q| then q[m + 1] else after)
    ensures ExecAll(g[q[m]].stmts, st0, p).Some? ==>
              (Hits(g, q[m], side, st0, p) <==> Taken(g[q[m]].test, ExecAll(g[q[m]].stmts, st0, p).value) == !side)
  {
    assert q[m] in q;
    hide Taken, Succ;
  }

  /** A line of independent tests, run one after the other, decides what they decide one by one. */
  lemma {:induction false} LineFinal(h: Graph, rank: map<Block, nat>, g: Graph, q: seq<Block>, m: nat, side: bool,
                                     common: Block, after: Block, st0: State, st: State, p: Packet, hit: Outcome,
                                     miss: Outcome)
    requires Dag(h, rank) && GraphMemOk(g) && Line(h, g, q, side, common, after) && m < |q|
    requires (forall x :: x in q ==> x in g) && Independent(g, q)
    requires SameBut(st0, st, Defs(g, q[..m]))
    requires forall s: State :: SameBut(st0, s, Defs(g, q)) ==>
        Final(h, rank, common, s, p) == hit && Final(h, rank, after, s, p) == miss
    ensures q[m] in h
    ensures Final(h, rank, q[m], st, p) == LineOutcome(g, q, m, side, st0, p, hit, miss)
    decreases |q| - m
  {
    hide *;
    var x := q[m];
    LineParts(h, g, q, m, side, common, after, st0, p);
    SameDecision(g, q, m, st0, st, p);
    LineHere(g, q, m, side, st0, p, hit, miss);
    if ExecAll(g[x].stmts, st, p) == None {
      FinalFaults(h, rank, x, st, p);
      return;
    }
    FinalStep(h, rank, x, st, p);
    var st1 := ExecAll(g[x].stmts, st, p).value;
    DefsGrow(g, q, m + 1, st0, st1);
    var taken := Taken(g[x].test, st1);
    assert taken == side || taken == !side;
    if taken == side && m + 1 < |q| {
      LineFinal(h, rank, g, q, m + 1, side, common, after, st0, st1, p, hit, miss);
    }
  }

  lemma LineHere(g: Graph, q: seq<Block>, m: nat, side: bool, st0: State, p: Packet, hit: Outcome, miss: Outcome)
    requires (forall x :: x in q ==> x in g) && m < |q|
    ensures LineOutcome(g, q, m, side, st0, p, hit, miss)
        == if ExecAll(g[q[m]].stmts, st0, p) == None then Faulted
           else if Hits(g, q[m], side, st0, p) then hit
           else LineOutcome(g, q, m + 1, side, st0, p, hit, miss)
    ensures m + 1 == |q| ==> LineOutcome(g, q, m + 1, side, st0, p, hit, miss) == miss
  {
    hide Hits;
  }

  lemma FinalFaults(g: Graph, rank: map<Block, nat>, b: Block, st: State, p: Packet)
    requires Dag(g, rank) && b in g && ExecAll(g[b].stmts, st, p) == None
    ensures Final(g, rank, b, st, p) == Faulted
  {
  }

  lemma DefsGrow(g: Graph, q: seq<Block>, m: nat, st0: State, st: State)
    requires GraphMemOk(g) && (forall x :: x in q ==> x in g) && m <= |q| && SameBut(st0, st, Defs(g, q[..m]))
    ensures SameBut(st0, st, Defs(g, q))
  {
    forall a {:trigger st0[a]} | 0 <= a < N_ATOMS && a !in Defs(g, q)
      ensures st0[a] == st[a]
    {
      DefsHas(g, q, a);
      DefsHas(g, q[..m], a);
    }
  }

  // ----- Pulling up keeps the verdict -----

  /** Below the last test nothing has changed. */
  lemma {:induction false} PulledBelow(g: Graph, rank: map<Block, nat>, c: Chain, x: Block, st: State, p: Packet,
                                       fuel: nat)
    requires Dag(g, rank) && ChainIn(g, c) && x in g && Last(c) in g && rank[x] < rank[Last(c)]
    ensures Run(Pulled(g, c), x, st, p, fuel) == Run(g, x, st, p, fuel)
    decreases fuel
  {
    assert DagNode(g, rank, x);
    ChainRanks(g, rank, c, 0, |c.cs| - 1);
    ChainRanks(g, rank, c, |c.cs| - 2, |c.cs| - 1);
    assert Pulled(g, c)[x] == g[x];
    hide Pulled, ChainIn;
    var st1 := ExecAll(g[x].stmts, st, p);
    if fuel > 0 && st1.Some? && g[x].test.code.Jmp? {
      PulledBelow(g, rank, c, Succ(g[x], Taken(g[x].test, st1.value)), st1.value, p, fuel - 1);
    }
  }

  lemma RankBelow(g: Graph, rank: map<Block, nat>, c: Chain, x: Block)
    requires Dag(g, rank) && ChainIn(g, c) && First(c) in rank && x in g && Last(c) in g && rank[x] < rank[Last(c)]
    ensures |c.cs| >= 2 && x in PulledRank(g, rank, c) && PulledRank(g, rank, c)[x] == 2 * rank[x]
  {
    assert |c.cs| >= 2;
    hide ChainIn;
  }

  lemma FinalIs(g: Graph, rank: map<Block, nat>, b: Block, st: State, p: Packet)
    requires Dag(g, rank) && b in g
    ensures b in rank && Final(g, rank, b, st, p) == Run(g, b, st, p, rank[b] + 1)
  {
  }

  lemma FinalBelow(g: Graph, rank: map<Block, nat>, c: Chain, x: Block, st: State, p: Packet)
    requires Dag(g, rank) && ChainIn(g, c) && First(c) in rank && x in g && Last(c) in g && rank[x] < rank[Last(c)]
    ensures Dag(Pulled(g, c), PulledRank(g, rank, c))
    ensures Final(Pulled(g, c), PulledRank(g, rank, c), x, st, p) == Final(g, rank, x, st, p)
  {
    hide *;
    PulledDag(g, rank, c);
    RankBelow(g, rank, c, x);
    var rank1 := PulledRank(g, rank, c);
    FinalIs(g, rank, x, st, p);
    FinalIs(Pulled(g, c), rank1, x, st, p);
    PulledBelow(g, rank, c, x, st, p, rank1[x] + 1);
    RunFinishes(g, rank, x, st, p, rank[x] + 1);
    RunMoreFuel(g, x, st, p, rank[x] + 1, rank1[x] + 1);
  }

  /** The chain's tests define nothing another of them reads, nor anything live behind them. */
  ghost predicate Separate(g: Graph, rank: map<Block, nat>, c: Chain)
    requires Dag(g, rank) && GraphMemOk(g) && ChainIn(g, c)
  {
    && (forall i {:trigger c.cs[i]} :: 0 <= i < |c.cs| ==> Member(g, c, i))
    && Independent(g, c.cs) && Defs(g, c.cs) !! InUse(g, rank, c.common) && Defs(g, c.cs) !! InUse(g, rank, c.after)
  }

  /** The order after the pull. */
  function Order(c: Chain): seq<Block>
    requires c.cs != []
  {
    [Last(c)] + c.cs[..|c.cs| - 1]
  }

  /** Which test of the chain this is shows by the block. */
  lemma ChainApart(g: Graph, rank: map<Block, nat>, c: Chain, k: nat)
    requires Dag(g, rank) && ChainIn(g, c) && k < |c.cs|
    ensures Member(g, c, k) && c.cs[k] in g && (c.cs[k] == First(c) <==> k == 0)
    ensures (c.cs[k] == Last(c) <==> k == |c.cs| - 1) && (c.cs[k] == c.cs[|c.cs| - 2] <==> k == |c.cs| - 2)
  {
    var n := |c.cs|;
    assert Member(g, c, k);
    ChainRanks(g, rank, c, 0, k);
    ChainRanks(g, rank, c, k, n - 1);
    if k <= n - 2 {
      ChainRanks(g, rank, c, k, n - 2);
    } else {
      ChainRanks(g, rank, c, n - 2, k);
    }
    hide Dag, ChainIn, Member;
  }

  /** A test of the chain after the pull. */
  lemma PulledAt(g: Graph, rank: map<Block, nat>, c: Chain, k: nat)
    requires Dag(g, rank) && ChainIn(g, c) && k < |c.cs|
    ensures LineAt(Pulled(g, c), g, c.cs[k], c.side, c.common,
                   if k == |c.cs| - 1 then First(c) else if k == |c.cs| - 2 then c.after else c.cs[k + 1])
  {
    hide *;
    var n := |c.cs|;
    ChainApart(g, rank, c, k);
    ChainApart(g, rank, c, 0);
    if k + 1 < n {
      ChainApart(g, rank, c, k + 1);
    }
    CommonApart(g, rank, c);
    PulledNode(g, c, k);
  }

  lemma PulledNode(g: Graph, c: Chain, k: nat)
    requires |c.cs| >= 2 && k < |c.cs| && c.cs[k] in g && Member(g, c, k) && c.common != First(c) && c.after != First(c)
    requires (c.cs[k] == Last(c) <==> k == |c.cs| - 1) && (c.cs[k] == c.cs[|c.cs| - 2] <==> k == |c.cs| - 2)
    requires k + 1 < |c.cs| ==> c.cs[k + 1] != First(c)
    ensures LineAt(Pulled(g, c), g, c.cs[k], c.side, c.common,
                   if k == |c.cs| - 1 then First(c) else if k == |c.cs| - 2 then c.after else c.cs[k + 1])
  {
  }

  /** The common block and the block after come behind the chain. */
  lemma CommonApart(g: Graph, rank: map<Block, nat>, c: Chain)
    requires Dag(g, rank) && ChainIn(g, c)
    ensures |c.cs| >= 2 && c.common != First(c) && c.after != First(c)
  {
    var n := |c.cs|;
    assert Member(g, c, n - 1);
    ChainRanks(g, rank, c, 0, n - 1);
    assert DagNode(g, rank, c.cs[n - 1]);
  }

  /** The i-th test of the new order. */
  lemma OrderAt(g: Graph, rank: map<Block, nat>, c: Chain, i: nat)
    requires Dag(g, rank) && ChainIn(g, c) && i < |c.cs| == |Order(c)|
    ensures var q := Order(c); LineAt(Pulled(g, c), g, q[i], c.side, c.common, if i + 1 < |q| then q[i + 1]
        else c.after)
  {
    OrderPlaces(g, c, i);
    hide *;
    PulledAt(g, rank, c, if i == 0 then |c.cs| - 1 else i - 1);
  }

  lemma OrderPlaces(g: Graph, c: Chain, i: nat)
    requires ChainIn(g, c) && i < |c.cs| == |Order(c)|
    ensures |c.cs| >= 2 && First(c) == c.cs[0]
    ensures var (q, n) := (Order(c), |c.cs|);
            q[i] == c.cs[if i == 0 then n - 1 else i - 1] && (i + 1 < n ==> q[i + 1] == c.cs[i])
  {
    assert |c.cs| >= 2;
    hide ChainIn;
  }

  lemma OrderLines(g: Graph, rank: map<Block, nat>, c: Chain)
    requires Dag(g, rank) && ChainIn(g, c)
    ensures Line(g, g, c.cs, c.side, c.common, c.after)
    ensures Line(Pulled(g, c), g, Order(c), c.side, c.common, c.after)
  {
    var q, n := Order(c), |c.cs|;
    forall i {:trigger c.cs[i]} | 0 <= i < n
      ensures LineAt(g, g, c.cs[i], c.side, c.common, if i + 1 < n then c.cs[i + 1] else c.after)
    {
      assert Member(g, c, i);
    }
    assert |q| == n && c.common in Pulled(g, c) && c.after in Pulled(g, c);
    hide LineAt, Pulled, Member, Dag, Order, ChainIn;
    forall i {:trigger q[i]} | 0 <= i < n
      ensures LineAt(Pulled(g, c), g, q[i], c.side, c.common, if i + 1 < n then q[i + 1] else c.after)
    {
      OrderAt(g, rank, c, i);
    }
  }

  /** The same tests in another order. */
  lemma OrderIndex(c: Chain, q: seq<Block>)
    requires |c.cs| >= 2 && q == Order(c)
    ensures |q| == |c.cs|
    ensures forall i {:trigger q[i]} :: 0 <= i < |c.cs| ==> q[i] == c.cs[From(|c.cs|, i)] && q[i] in c.cs
    ensures forall i {:trigger c.cs[i]} :: 0 <= i < |c.cs| ==> c.cs[i] == q[Back(|c.cs|, i)] && c.cs[i] in q
  {
    var n := |c.cs|;
    forall i {:trigger q[i]} | 0 <= i < n
      ensures q[i] == c.cs[From(n, i)] && q[i] in c.cs
    {
    }
    forall i {:trigger c.cs[i]} | 0 <= i < n
      ensures c.cs[i] == q[Back(n, i)] && c.cs[i] in q
    {
    }
  }

  lemma OrderIn(g: Graph, c: Chain)
    requires |c.cs| >= 2 && forall x :: x in c.cs ==> x in g
    ensures forall x :: x in Order(c) ==> x in g
  {
    OrderIndex(c, Order(c));
    hide Order;
    forall x | x in Order(c)
      ensures x in c.cs
    {
      var i :| 0 <= i < |Order(c)| && Order(c)[i] == x;
    }
  }

  lemma OrderIndependent(g: Graph, c: Chain, q: seq<Block>)
    requires GraphMemOk(g) && |c.cs| >= 2 && (forall x :: x in c.cs ==> x in g) && q == Order(c)
    requires Independent(g, c.cs)
    ensures (forall x :: x in q ==> x in g) && Independent(g, q)
  {
    hide Order, Unread, GraphMemOk, From, Back, LocalAt;
    OrderIndex(c, q);
    OrderIn(g, c);
    forall i, j {:trigger q[i], q[j]} | 0 <= i < |q| && 0 <= j < |q| && i != j
      ensures Unread(g, q[i], q[j])
    {
      FromApart(|c.cs|, i, j);
      assert q[i] == c.cs[From(|c.cs|, i)] && q[j] == c.cs[From(|c.cs|, j)];
    }
  }

  lemma FromApart(n: nat, i: nat, j: nat)
    requires i < n && j < n && i != j
    ensures 0 <= From(n, i) < n && 0 <= From(n, j) < n && From(n, i) != From(n, j)
  {
  }

  /** An atom is defined by the tests when one of them defines it, in whatever order they stand. */
  lemma OrderDefs(g: Graph, c: Chain, q: seq<Block>)
    requires GraphMemOk(g) && |c.cs| >= 2 && (forall x :: x in c.cs ==> x in g) && q == Order(c)
    requires (forall x :: x in q ==> x in g)
    ensures Defs(g, q) == Defs(g, c.cs)
  {
    OrderIndex(c, q);
    hide Order, LocalAt, Defs, GraphMemOk;
    forall a: Atom
      ensures a in Defs(g, q) <==> a in Defs(g, c.cs)
    {
      if a in Defs(g, q) {
        OrderDef(g, q, c.cs, a);
      }
      if a in Defs(g, c.cs) {
        OrderDef(g, c.cs, q, a);
      }
    }
  }

  lemma OrderDef(g: Graph, q: seq<Block>, q1: seq<Block>, a: Atom)
    requires GraphMemOk(g) && (forall x :: x in q ==> x in g) && (forall x :: x in q1 ==> x in g)
    requires (forall i {:trigger q[i]} :: 0 <= i < |q| ==> q[i] in q1) && a in Defs(g, q)
    ensures a in Defs(g, q1)
  {
    hide LocalAt, Defs, GraphMemOk;
    DefsHas(g, q, a);
    DefsHas(g, q1, a);
    var i :| 0 <= i < |q| && a in LocalAt(g, q[i]).def;
    var j :| 0 <= j < |q1| && q1[j] == q[i];
  }

  /** With the last test first, the others behind it decide what the chain did: all that is new is that the last
      one is always run. */
  lemma {:induction false} OrderBehind(g: Graph, c: Chain, m: nat, st0: State, p: Packet, hit: Outcome, miss: Outcome)
    requires |c.cs| >= 2 && m < |c.cs| && (forall x :: x in c.cs ==> x in g) && (forall x :: x in Order(c) ==> x in g)
    requires g[Last(c)].test.code.Jmp? && ExecAll(g[Last(c)].stmts, st0, p).Some?
    requires LineOutcome(g, c.cs, m, c.side, st0, p, hit, miss) != Faulted
    ensures LineOutcome(g, c.cs, m, c.side, st0, p, hit, miss)
        == if Hits(g, Last(c), c.side, st0, p) then hit else LineOutcome(g, Order(c), m + 1, c.side, st0, p, hit, miss)
    decreases |c.cs| - m
  {
    hide Hits, Taken;
    LineHere(g, c.cs, m, c.side, st0, p, hit, miss);
    if m + 1 < |c.cs| {
      assert Order(c)[m + 1] == c.cs[m];
      LineHere(g, Order(c), m + 1, c.side, st0, p, hit, miss);
      if !Hits(g, c.cs[m], c.side, st0, p) {
        OrderBehind(g, c, m + 1, st0, p, hit, miss);
      }
    }
  }

  /** The new order faults when the last test does, and else decides what the chain decided without a fault. */
  lemma OrderOutcome(g: Graph, c: Chain, st0: State, p: Packet, hit: Outcome, miss: Outcome)
    requires |c.cs| >= 2 && (forall x :: x in c.cs ==> x in g) && (forall x :: x in Order(c) ==> x in g)
    requires g[Last(c)].test.code.Jmp? && LineOutcome(g, c.cs, 0, c.side, st0, p, hit, miss) != Faulted
    ensures LineOutcome(g, Order(c), 0, c.side, st0, p, hit, miss)
        == if ExecAll(g[Last(c)].stmts, st0, p) == None then Faulted
           else LineOutcome(g, c.cs, 0, c.side, st0, p, hit, miss)
  {
    assert Order(c)[0] == Last(c);
    hide Order, Hits, Taken;
    LineHere(g, Order(c), 0, c.side, st0, p, hit, miss);
    if ExecAll(g[Last(c)].stmts, st0, p).Some? {
      OrderBehind(g, c, 0, st0, p, hit, miss);
    }
  }

  function From(n: nat, i: nat): nat
    requires i < n
  {
    if i == 0 then n - 1 else i - 1
  }

  function Back(n: nat, i: nat): nat
    requires i < n
  {
    if i == n - 1 then 0 else i + 1
  }

  /** A whole line from its front. */
  lemma LineAll(h: Graph, rank: map<Block, nat>, g: Graph, q: seq<Block>, side: bool, common: Block, after: Block,
                st0: State, p: Packet, hit: Outcome, miss: Outcome)
    requires Dag(h, rank) && GraphMemOk(g) && Line(h, g, q, side, common, after) && q != []
    requires (forall x :: x in q ==> x in g) && Independent(g, q)
    requires forall s: State :: SameBut(st0, s, Defs(g, q)) ==>
        Final(h, rank, common, s, p) == hit && Final(h, rank, after, s, p) == miss
    ensures q[0] in h && Final(h, rank, q[0], st0, p) == LineOutcome(g, q, 0, side, st0, p, hit, miss)
  {
    assert q[..0] == [];
    LineFinal(h, rank, g, q, 0, side, common, after, st0, st0, p, hit, miss);
  }

  /** Behind the chain both graphs run alike, from any state the chain can leave. */
  lemma BehindChain(g: Graph, rank: map<Block, nat>, c: Chain, st0: State, s: State, p: Packet)
    requires Dag(g, rank) && GraphMemOk(g) && ChainIn(g, c) && Separate(g, rank, c) && SameBut(st0, s, Defs(g, c.cs))
    ensures First(c) in rank && Dag(Pulled(g, c), PulledRank(g, rank, c))
    ensures Final(g, rank, c.common, s, p) == Final(g, rank, c.common, st0, p)
        == Final(Pulled(g, c), PulledRank(g, rank, c), c.common, s, p)
    ensures Final(g, rank, c.after, s, p) == Final(g, rank, c.after, st0, p)
        == Final(Pulled(g, c), PulledRank(g, rank, c), c.after, s, p)
  {
    BehindFacts(g, rank, c, st0, s);
    hide *;
    BehindOne(g, rank, c, c.common, st0, s, p);
    BehindOne(g, rank, c, c.after, st0, s, p);
  }

  lemma BehindFacts(g: Graph, rank: map<Block, nat>, c: Chain, st0: State, s: State)
    requires Dag(g, rank) && GraphMemOk(g) && ChainIn(g, c) && Separate(g, rank, c) && SameBut(st0, s, Defs(g, c.cs))
    ensures First(c) in rank && Last(c) in g && rank[c.common] < rank[Last(c)] && rank[c.after] < rank[Last(c)]
    ensures AgreeOn(st0, s, InUse(g, rank, c.common)) && AgreeOn(st0, s, InUse(g, rank, c.after))
  {
    assert Member(g, c, 0) && Member(g, c, |c.cs| - 1);
    ChainRanks(g, rank, c, |c.cs| - 1, |c.cs| - 1);
    hide Run, ChainIn, InUse, Defs;
  }

  lemma BehindOne(g: Graph, rank: map<Block, nat>, c: Chain, x: Block, st0: State, s: State, p: Packet)
    requires Dag(g, rank) && GraphMemOk(g) && ChainIn(g, c) && First(c) in rank && Last(c) in g && x in g
    requires rank[x] < rank[Last(c)]
    requires AgreeOn(st0, s, InUse(g, rank, x))
    ensures Dag(Pulled(g, c), PulledRank(g, rank, c))
    ensures Final(g, rank, x, s, p) == Final(g, rank, x, st0, p) == Final(Pulled(g, c), PulledRank(g, rank, c), x, s, p)
  {
    hide *;
    FinalAgree(g, rank, x, st0, s, p);
    FinalBelow(g, rank, c, x, s, p);
  }

  lemma FinalAgree(g: Graph, rank: map<Block, nat>, x: Block, st0: State, s: State, p: Packet)
    requires Dag(g, rank) && GraphMemOk(g) && x in g && AgreeOn(st0, s, InUse(g, rank, x))
    ensures Final(g, rank, x, s, p) == Final(g, rank, x, st0, p)
  {
    RunAgree(g, rank, x, st0, s, p, rank[x] + 1);
  }

  lemma ChainMembers(g: Graph, c: Chain)
    requires ChainIn(g, c)
    ensures |c.cs| >= 2 && (forall x :: x in c.cs ==> x in g) && c.common in g && c.after in g
  {
    forall x | x in c.cs
      ensures x in g
    {
      var i :| 0 <= i < |c.cs| && c.cs[i] == x;
      assert Member(g, c, i);
    }
  }

  /** From the front of the chain both graphs give the same verdict, unless the last test faults there. */
  lemma PulledChain(g: Graph, rank: map<Block, nat>, c: Chain, st0: State, p: Packet)
    requires Dag(g, rank) && GraphMemOk(g) && ChainIn(g, c) && Separate(g, rank, c) && First(c) in g && Last(c) in g
    requires Final(g, rank, First(c), st0, p) != Faulted
    ensures Last(c) in Pulled(g, c) && Dag(Pulled(g, c), PulledRank(g, rank, c))
    ensures Final(Pulled(g, c), PulledRank(g, rank, c), Last(c), st0, p)
        == if ExecAll(g[Last(c)].stmts, st0, p) == None then Faulted else Final(g, rank, First(c), st0, p)
  {
    ChainMembers(g, c);
    assert Independent(g, c.cs) && Member(g, c, |c.cs| - 1);
    assert First(c) == c.cs[0] && Order(c)[0] == Last(c) && Order(c) != [] && g[Last(c)].test.code.Jmp?;
    hide *;
    PulledDag(g, rank, c);
    var g1, rank1 := Pulled(g, c), PulledRank(g, rank, c);
    OrderLines(g, rank, c);
    OrderIn(g, c);
    OrderIndependent(g, c, Order(c));
    OrderDefs(g, c, Order(c));
    var hit, miss := Final(g, rank, c.common, st0, p), Final(g, rank, c.after, st0, p);
    forall s: State | SameBut(st0, s, Defs(g, c.cs))
      ensures Final(g, rank, c.common, s, p) == hit && Final(g, rank, c.after, s, p) == miss
      ensures Final(g1, rank1, c.common, s, p) == hit && Final(g1, rank1, c.after, s, p) == miss
    {
      BehindChain(g, rank, c, st0, s, p);
    }
    LineAll(g, rank, g, c.cs, c.side, c.common, c.after, st0, p, hit, miss);
    LineAll(g1, rank1, g, Order(c), c.side, c.common, c.after, st0, p, hit, miss);
    OrderOutcome(g, c, st0, p, hit, miss);
  }

  /** Whenever the run comes to the front of the chain, the test that is pulled there does not fault. */
  ghost predicate PullExecutes(g: Graph, root: Block, c: Chain, st: State, p: Packet)
    requires c.cs != [] && Last(c) in g
  {
    forall n: nat {:trigger RunTo(g, root, st, p, n)} ::
        RunTo(g, root, st, p, n).Some? && RunTo(g, root, st, p, n).value.b == First(c) ==>
      ExecAll(g[Last(c)].stmts, RunTo(g, root, st, p, n).value.st, p).Some?
  }

  /** The first n blocks of the run are not the front of the chain. */
  ghost predicate NotYet(g: Graph, root: Block, c: Chain, st: State, p: Packet, n: nat)
    requires c.cs != []
  {
    forall k: nat {:trigger RunTo(g, root, st, p, k)} :: k < n && RunTo(g, root, st, p, k).Some? ==>
        RunTo(g, root, st, p, k).value.b != First(c)
  }

  /** A run goes down. */
  lemma {:induction false} RunFalls(g: Graph, rank: map<Block, nat>, root: Block, st: State, p: Packet, n: nat, m: nat)
    requires Dag(g, rank) && root in g && n <= m && RunTo(g, root, st, p, m).Some?
    ensures RunTo(g, root, st, p, n).Some?
    ensures RunTo(g, root, st, p, n).value.b in g && RunTo(g, root, st, p, m).value.b in g
    ensures rank[RunTo(g, root, st, p, m).value.b] + (m - n) <= rank[RunTo(g, root, st, p, n).value.b]
    decreases m
  {
    RunToReach(g, rank, root, st, p, m);
    ReachClosed(g, rank, root, root);
    if n < m {
      RunFalls(g, rank, root, st, p, n, m - 1);
      assert DagNode(g, rank, RunTo(g, root, st, p, m - 1).value.b);
    }
  }

  /** The run comes to the front at most once, so what happens there decides. */
  lemma OneFront(g: Graph, rank: map<Block, nat>, root: Block, c: Chain, st: State, p: Packet, n: nat)
    requires Dag(g, rank) && root in g && c.cs != [] && Last(c) in g && NotYet(g, root, c, st, p, n)
    requires RunTo(g, root, st, p, n).Some? ==> RunTo(g, root, st, p, n).value.b == First(c)
    ensures PullExecutes(g, root, c, st, p) <==>
        (RunTo(g, root, st, p, n).Some? ==> ExecAll(g[Last(c)].stmts, RunTo(g, root, st, p, n).value.st, p).Some?)
  {
    hide ExecAll, Dag;
    forall k: nat {:trigger RunTo(g, root, st, p, k)} |
        RunTo(g, root, st, p, k).Some? && RunTo(g, root, st, p, k).value.b == First(c)
      ensures k == n
    {
      if n < k {
        RunFalls(g, rank, root, st, p, n, k);
      }
    }
  }

  /** A run that faults nowhere has no other outcome from where it stands. */
  lemma {:induction false} NeverFaults(g: Graph, root: Block, st: State, p: Packet, n: nat, fuel: nat)
    requires NonFaulting(g, root, st, p) && RunTo(g, root, st, p, n).Some?
    ensures var at := RunTo(g, root, st, p, n).value;
            at.b in g ==> Run(g, at.b, at.st, p, fuel) != Faulted
    decreases fuel
  {
    var at := RunTo(g, root, st, p, n).value;
    if at.b in g && fuel > 0 {
      assert ExecutesAt(g, at, p);
      RunToNext(g, root, st, p, n);
      RunUnfold(g, at, p, fuel);
      if RunTo(g, root, st, p, n + 1).Some? {
        NeverFaults(g, root, st, p, n + 1, fuel - 1);
      }
    }
  }

  /** Outside the chain a block goes where it went, or to the new front instead of the old. */
  lemma OutsideNode(g: Graph, rank: map<Block, nat>, c: Chain, x: Block, side: bool)
    requires Dag(g, rank) && ChainIn(g, c) && x in g && x !in c.cs
    ensures Pulled(g, c)[x].stmts == g[x].stmts && Pulled(g, c)[x].test == g[x].test
    ensures Succ(Pulled(g, c)[x], side) == if Succ(g[x], side) == First(c) then Last(c) else Succ(g[x], side)
    ensures Succ(g[x], side) != First(c) ==> Succ(g[x], side) !in c.cs
  {
    if Succ(g[x], side) in c.cs && Succ(g[x], side) != First(c) {
      var i :| 0 <= i < |c.cs| && c.cs[i] == Succ(g[x], side);
      assert EnteredAlong(g, c, i) && Enters(g, x, side, c.cs[i]);
    }
  }

  /** A run that has not yet come to the front. */
  lemma {:induction false} PulledRun(g: Graph, rank: map<Block, nat>, root: Block, c: Chain, st: State, p: Packet,
                                     n: nat)
    requires Dag(g, rank) && GraphMemOk(g) && ChainIn(g, c) && Separate(g, rank, c) && root in g && Last(c) in g
    requires NonFaulting(g, root, st, p) && NotYet(g, root, c, st, p, n)
    requires RunTo(g, root, st, p, n).Some? && RunTo(g, root, st, p, n).value.b in g
    requires RunTo(g, root, st, p, n).value.b !in c.cs
    ensures First(c) in rank && Dag(Pulled(g, c), PulledRank(g, rank, c))
    ensures var at := RunTo(g, root, st, p, n).value;
            Final(Pulled(g, c), PulledRank(g, rank, c), at.b, at.st, p)
                == if PullExecutes(g, root, c, st, p) then Final(g, rank, at.b, at.st, p) else Faulted
    decreases rank[RunTo(g, root, st, p, n).value.b]
  {
    hide *;
    var at := RunTo(g, root, st, p, n).value;
    ChainEnds(g, rank, c);
    PulledDag(g, rank, c);
    var g1, rank1 := Pulled(g, c), PulledRank(g, rank, c);
    OutsideNode(g, rank, c, at.b, true);
    LeavesBy(g, root, st, p, n);
    StillNotYet(g, root, c, st, p, n);
    if !g[at.b].test.code.Jmp? {
      FinalStop(g, rank, g1, rank1, at.b, at.st, p);
      RunToEnds(g, root, st, p, n);
      OneFront(g, rank, root, c, st, p, n + 1);
      return;
    }
    RunToNext(g, root, st, p, n);
    var st1 := ExecAll(g[at.b].stmts, at.st, p).value;
    var side := Taken(g[at.b].test, st1);
    var d := Succ(g[at.b], side);
    OutsideNode(g, rank, c, at.b, side);
    FinalStep(g, rank, at.b, at.st, p);
    FinalStep(g1, rank1, at.b, at.st, p);
    if d == First(c) {
      OneFront(g, rank, root, c, st, p, n + 1);
      FinalRuns(g, rank, root, st, p, n + 1);
      PulledChain(g, rank, c, st1, p);
    } else {
      PulledRun(g, rank, root, c, st, p, n + 1);
    }
  }

  lemma StillNotYet(g: Graph, root: Block, c: Chain, st: State, p: Packet, n: nat)
    requires c.cs != [] && First(c) in c.cs && NotYet(g, root, c, st, p, n)
    requires RunTo(g, root, st, p, n).Some? && RunTo(g, root, st, p, n).value.b !in c.cs
    ensures NotYet(g, root, c, st, p, n + 1)
  {
    hide RunTo;
  }

  lemma RunToEnds(g: Graph, root: Block, st: State, p: Packet, n: nat)
    requires RunTo(g, root, st, p, n).Some? && RunTo(g, root, st, p, n).value.b in g
    requires !g[RunTo(g, root, st, p, n).value.b].test.code.Jmp?
    ensures RunTo(g, root, st, p, n + 1) == None
  {
  }

  lemma FinalRuns(g: Graph, rank: map<Block, nat>, root: Block, st: State, p: Packet, n: nat)
    requires Dag(g, rank) && NonFaulting(g, root, st, p) && RunTo(g, root, st, p, n).Some?
    requires RunTo(g, root, st, p, n).value.b in g
    ensures Final(g, rank, RunTo(g, root, st, p, n).value.b, RunTo(g, root, st, p, n).value.st, p) != Faulted
  {
    NeverFaults(g, root, st, p, n, rank[RunTo(g, root, st, p, n).value.b] + 1);
  }

  lemma ChainEnds(g: Graph, rank: map<Block, nat>, c: Chain)
    requires Dag(g, rank) && ChainIn(g, c)
    ensures |c.cs| >= 2 && First(c) in c.cs && First(c) in g && First(c) in rank && Last(c) in g
  {
    ChainMembers(g, c);
    assert First(c) in c.cs && Last(c) in c.cs;
  }

  /** Pull-up, exactly: one step keeps the graph acyclic, and the verdict of a run that does not fault just when
      the test that is pulled up does not fault where the run comes to the front of the chain; else the run
      faults now. */
  lemma PulledSound(g: Graph, rank: map<Block, nat>, root: Block, c: Chain, st: State, p: Packet)
    requires Dag(g, rank) && GraphMemOk(g) && ChainIn(g, c) && Separate(g, rank, c) && root in g && root !in c.cs
    requires NonFaulting(g, root, st, p)
    ensures First(c) in rank && Last(c) in g && Dag(Pulled(g, c), PulledRank(g, rank, c))
    ensures Final(Pulled(g, c), PulledRank(g, rank, c), root, st, p) == Final(g, rank, root, st, p) <==>
        PullExecutes(g, root, c, st, p)
    ensures !PullExecutes(g, root, c, st, p) ==> Final(Pulled(g, c), PulledRank(g, rank, c), root, st, p) == Faulted
  {
    hide *;
    RunStarts(g, root, st, p);
    ChainEnds(g, rank, c);
    NothingYet(g, root, c, st, p);
    PulledRun(g, rank, root, c, st, p, 0);
    FinalRuns(g, rank, root, st, p, 0);
  }

  lemma NothingYet(g: Graph, root: Block, c: Chain, st: State, p: Packet)
    requires c.cs != []
    ensures NotYet(g, root, c, st, p, 0)
  {
  }
}
