/** Basic blocks as the compiler keeps them, and what a graph of blocks computes.

    A pass rewrites Block objects in place. Its meaning is stated about the snapshot
    GraphOf(S): an immutable map from blocks to their statements, test and successors. */
module Cfg {
  import opened Bpf

  /** One outgoing edge of a block: its `et` (sense true) or its `ef` (sense false). */
  datatype Edge = Edge(pred: Block, sense: bool)

  class Block {
    var id: nat
    var stmts: seq<Stmt>       // side-effect statements
    var s: Stmt                // branch or return statement
    var mark: nat
    var longjt: nat            // 1 when the true branch needs a long jump
    var longjf: nat
    var level: nat
    var offset: nat
    var sense: bool
    var jt: Block?             // et.succ
    var jf: Block?             // ef.succ
    var head: Block?
    var link: Block?
    var dom: set<nat>
    var etDom: set<nat>        // et.edom
    var efDom: set<nat>        // ef.edom
    var inEdges: seq<Edge>
    var def: set<Atom>
    var kill: set<Atom>
    var inUse: set<Atom>
    var outUse: set<Atom>
    var val: Vals              // exit value number of every atom
    var oval: nat              // value number of the test's operand

    /** new_block: a zeroed block that is its own head. */
    constructor (stmts: seq<Stmt>, s: Stmt)
      ensures this.stmts == stmts && this.s == s
      ensures jt == null && jf == null && !sense && head == this && link == null
      ensures longjt == 0 && longjf == 0 && mark == 0
    {
      this.stmts, this.s := stmts, s;
      id, mark, longjt, longjf, level, offset, sense := 0, 0, 0, 0, 0, 0, false;
      jt, jf, link := null, null, null;
      head := this;
      dom, etDom, efDom, inEdges := {}, {}, {}, [];
      def, kill, inUse, outUse := {}, {}, {}, {};
      val, oval := seq(N_ATOMS, _ => 0), 0;
    }
  }

  // ----- Snapshots -----

  datatype Node = Node(stmts: seq<Stmt>, test: Stmt, jt: Block?, jf: Block?)

  type Graph = map<Block, Node>

  ghost function NodeOf(b: Block): Node
    reads b`stmts, b`s, b`jt, b`jf
  {
    Node(b.stmts, b.s, b.jt, b.jf)
  }

  ghost function GraphOf(S: set<Block>): (g: Graph)
    reads S`stmts, S`s, S`jt, S`jf
    ensures g.Keys == S
  {
    map b | b in S :: NodeOf(b)
  }

  lemma GraphIs(S: set<Block>)
    ensures forall x {:trigger NodeOf(x)} :: x in S ==> GraphOf(S)[x] == NodeOf(x)
  {
  }

  /** When only block b has changed since `g0`. */
  lemma GraphNext(S: set<Block>, b: Block, g0: Graph)
    requires b in S && g0.Keys == S && forall x {:trigger NodeOf(x)} :: x in S && x != b ==> g0[x] == NodeOf(x)
    ensures GraphOf(S) == g0[b := NodeOf(b)]
  {
    hide NodeOf;
    forall x | x in S
      ensures GraphOf(S)[x] == g0[b := NodeOf(b)][x]
    {
      assert GraphOf(S)[x] == NodeOf(x);
    }
  }

  function Succ(n: Node, sense: bool): Block? {
    if sense then n.jt else n.jf
  }

  /** Every edge of `g` stays in `g` and goes strictly down in `rank`; leaves are returns. */
  ghost predicate Dag(g: Graph, rank: map<Block, nat>) {
    && g.Keys <= rank.Keys
    && forall b {:trigger DagNode(g, rank, b)} :: b in g ==> DagNode(g, rank, b)
  }

  ghost predicate DagNode(g: Graph, rank: map<Block, nat>, b: Block)
    requires g.Keys <= rank.Keys && b in g
  {
    if g[b].test.code.Jmp? then
      && (g[b].jt != null && g[b].jt in g && rank[g[b].jt] < rank[b])
      && (g[b].jf != null && g[b].jf in g && rank[g[b].jf] < rank[b])
    else
      g[b].test.code == Ret && g[b].jt == null && g[b].jf == null
  }

  // ----- Running a graph -----

  /** A packet that faults is rejected, but a fault is kept apart from a returned 0. */
  datatype Outcome = Returned(verdict: Word) | Faulted | Unfinished

  /** Runs at most `fuel` blocks of `g` from block `b`. */
  function Run(g: Graph, b: Block?, st: State, p: Packet, fuel: nat): Outcome
    decreases fuel
  {
    if fuel == 0 || b == null || b !in g then Unfinished
    else match ExecAll(g[b].stmts, st, p)
      case None => Faulted
      case Some(st1) =>
        match g[b].test.code
        case Ret => Returned(g[b].test.k)
        case Jmp(_, _) => Run(g, Succ(g[b], Taken(g[b].test, st1)), st1, p, fuel - 1)
        case _ => Unfinished
  }

  /** A finished run is not changed by more fuel. */
  lemma {:induction false} RunMoreFuel(g: Graph, b: Block?, st: State, p: Packet, fuel: nat, more: nat)
    requires fuel <= more
    requires Run(g, b, st, p, fuel) != Unfinished
    ensures Run(g, b, st, p, more) == Run(g, b, st, p, fuel)
    decreases fuel
  {
    var st1 := ExecAll(g[b].stmts, st, p);
    if st1.Some? && g[b].test.code.Jmp? {
      RunMoreFuel(g, Succ(g[b], Taken(g[b].test, st1.value)), st1.value, p, fuel - 1, more - 1);
    }
  }

  /** In an acyclic graph a run never takes more blocks than the rank of its start allows. */
  lemma {:induction false} RunFinishes(g: Graph, rank: map<Block, nat>, b: Block, st: State, p: Packet, fuel: nat)
    requires Dag(g, rank) && b in g && rank[b] < fuel
    ensures Run(g, b, st, p, fuel) != Unfinished
    decreases fuel
  {
    var st1 := ExecAll(g[b].stmts, st, p);
    assert DagNode(g, rank, b);
    if st1.Some? && g[b].test.code.Jmp? {
      RunFinishes(g, rank, Succ(g[b], Taken(g[b].test, st1.value)), st1.value, p, fuel - 1);
    }
  }

  // ----- Reachability -----

  /** The blocks that can be reached from `b`. */
  ghost function Reach(g: Graph, rank: map<Block, nat>, b: Block): (r: set<Block>)
    requires Dag(g, rank) && b in g
    ensures b in r && r <= g.Keys
    decreases rank[b]
  {
    assert DagNode(g, rank, b);
    if g[b].jt == null then {b}
    else {b} + Reach(g, rank, g[b].jt) + Reach(g, rank, g[b].jf)
  }

  lemma {:induction false} ReachBelow(g: Graph, rank: map<Block, nat>, b: Block)
    requires Dag(g, rank) && b in g
    ensures forall c :: c in Reach(g, rank, b) ==> c == b || rank[c] < rank[b]
    decreases rank[b]
  {
    assert DagNode(g, rank, b);
    if g[b].jt != null {
      ReachBelow(g, rank, g[b].jt);
      ReachBelow(g, rank, g[b].jf);
    }
  }

  /** `V` holds the successors of its members of rank at most `k`. */
  ghost predicate ClosedBelow(g: Graph, rank: map<Block, nat>, V: set<Block>, k: int)
    requires g.Keys <= rank.Keys
  {
    forall x {:trigger g[x]} :: x in V && x in g && rank[x] <= k && g[x].jt != null ==> g[x].jt in V && g[x].jf in V
  }

  lemma {:induction false} ReachInClosed(g: Graph, rank: map<Block, nat>, V: set<Block>, b: Block)
    requires Dag(g, rank) && b in g && b in V && ClosedBelow(g, rank, V, rank[b])
    ensures Reach(g, rank, b) <= V
    decreases rank[b]
  {
    assert DagNode(g, rank, b);
    if g[b].jt != null {
      ReachInClosed(g, rank, V, g[b].jt);
      ReachInClosed(g, rank, V, g[b].jf);
    }
  }

  lemma {:induction false} ReachClosed(g: Graph, rank: map<Block, nat>, b: Block, c: Block)
    requires Dag(g, rank) && b in g && c in Reach(g, rank, b)
    ensures c in g && c in rank && (c == b || rank[c] < rank[b]) && Reach(g, rank, c) <= Reach(g, rank, b)
    decreases rank[b]
  {
    assert DagNode(g, rank, b);
    if c != b {
      if c in Reach(g, rank, g[b].jt) {
        ReachClosed(g, rank, g[b].jt, c);
      } else {
        ReachClosed(g, rank, g[b].jf, c);
      }
    }
  }
}
