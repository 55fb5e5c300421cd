/** find_edom: the edge dominators, in one pass from the root down. */
module EdgeDoms {
  import opened Cfg
  import opened Paths
  import opened Levels
  import opened Dominators

  /** The two sets a block carries: et.edom and ef.edom. */
  datatype EDoms = EDoms(et: set<nat>, ef: set<nat>)

  function Get(d: EDoms, s: bool): set<nat> {
    if s then d.et else d.ef
  }

  ghost function EDomsOf(S: set<Block>): (r: map<Block, EDoms>)
    reads S`etDom, S`efDom
    ensures r.Keys == S
  {
    map b | b in S :: EDoms(b.etDom, b.efDom)
  }

  /** et.id is the block's number, ef.id that number plus n_blocks. */
  ghost function EdgeId(ids: map<Block, nat>, n: nat, k: Edge): nat
    requires k.pred in ids
  {
    if k.sense then ids[k.pred] else n + ids[k.pred]
  }

  lemma EdgeIdsApart(ids: map<Block, nat>, R: set<Block>, n: nat, k: Edge, e: Edge)
    requires Numbered(ids, R, n) && k.pred in R && e.pred in R
    ensures EdgeId(ids, n, k) < 2 * n
    ensures EdgeId(ids, n, k) == EdgeId(ids, n, e) <==> k == e
  {
  }

  ghost predicate ESoFar(g: Graph, root: Block, R: set<Block>, done: set<Block>, k: Edge, e: Edge) {
    || (e.pred in done && k == e)
    || (e.pred != root && forall c, s {:trigger Enters(g, c, s, e.pred)} ::
          c in R && c in done && Enters(g, c, s, e.pred) ==> EdgeDominates(g, root, k, Edge(c, s)))
  }

  ghost predicate EInv(g: Graph, root: Block, R: set<Block>, done: set<Block>, ids: map<Block, nat>, n: nat,
                       doms: map<Block, EDoms>)
    requires R <= ids.Keys && R <= doms.Keys
  {
    forall a, sa, b, sb {:trigger Edge(a, sa), Edge(b, sb)} :: a in R && b in R ==>
      (EdgeId(ids, n, Edge(a, sa)) in Get(doms[b], sb) <==> ESoFar(g, root, R, done, Edge(a, sa), Edge(b, sb)))
  }

  /** propedom on both edges of `b`: the edge's own id, then the intersections into its successor's edges. */
  ghost function EHandled(g: Graph, ids: map<Block, nat>, n: nat, doms: map<Block, EDoms>, b: Block): map<Block, EDoms>
    requires b in doms && b in ids && b in g
  {
    var t, f := doms[b].et + {ids[b]}, doms[b].ef + {n + ids[b]};
    map x | x in doms ::
      if x == b then EDoms(t, f)
      else EDoms(Into(g[b], x, doms[x].et, t, f), Into(g[b], x, doms[x].ef, t, f))
  }

  ghost function Into(nd: Node, x: Block, d: set<nat>, t: set<nat>, f: set<nat>): set<nat> {
    var d1 := if x == nd.jt then d * t else d;
    if x == nd.jf then d1 * f else d1
  }

  lemma ETurnExact(g: Graph, rank: map<Block, nat>, root: Block, R: set<Block>, done: set<Block>, k: Edge, e: Edge)
    requires Dag(g, rank) && root in g && R == Reach(g, rank, root) && e.pred in R && AboveDone(g, R, done, e.pred)
    ensures k == e || ESoFar(g, root, R, done, k, e) <==> EdgeDominates(g, root, k, e)
  {
    EdgeDominatesStep(g, rank, root, k, e);
  }

  lemma ESoFarStep(g: Graph, rank: map<Block, nat>, root: Block, R: set<Block>, done: set<Block>, k: Edge, b: Block,
                   e: Edge)
    requires Dag(g, rank) && root in g && R == Reach(g, rank, root) && Turn(g, R, done, b) && AboveDone(g, R, done, b)
    requires e.pred in R
    ensures e.pred == b ==> (ESoFar(g, root, R, done + {b}, k, e) <==> k == e || ESoFar(g, root, R, done, k, e))
    ensures e.pred != b ==>
              (ESoFar(g, root, R, done + {b}, k, e) <==>
                 ESoFar(g, root, R, done, k, e)
                 && (e.pred == g[b].jt ==> EdgeDominates(g, root, k, Edge(b, true)))
                 && (e.pred == g[b].jf ==> EdgeDominates(g, root, k, Edge(b, false))))
  {
    hide EdgeDominates, Reach;
    if e.pred == g[b].jt {
      assert Enters(g, b, true, e.pred);
      EntersLower(g, rank, root, b, true, e.pred);
    } else {
      assert !Enters(g, b, true, e.pred);
    }
    if e.pred == g[b].jf {
      assert Enters(g, b, false, e.pred);
      EntersLower(g, rank, root, b, false, e.pred);
    } else {
      assert !Enters(g, b, false, e.pred);
    }
  }

  /** The membership of `k` in an edge's set after `b` has been handled. */
  lemma EHandleOne(g: Graph, rank: map<Block, nat>, root: Block, R: set<Block>, done: set<Block>, ids: map<Block, nat>,
                   n: nat, doms: map<Block, EDoms>, b: Block, k: Edge, e: Edge)
    requires Dag(g, rank) && root in g && R == Reach(g, rank, root) && Turn(g, R, done, b) && AboveDone(g, R, done, b)
    requires Numbered(ids, R, n) && R <= doms.Keys && EInv(g, root, R, done, ids, n, doms) && k.pred in R && e.pred in R
    ensures EdgeId(ids, n, k) in Get(EHandled(g, ids, n, doms, b)[e.pred], e.sense) <==>
        ESoFar(g, root, R, done + {b}, k, e)
  {
    var i, eT, eF := EdgeId(ids, n, k), Edge(b, true), Edge(b, false);
    ETurnExact(g, rank, root, R, done, k, eT);
    ETurnExact(g, rank, root, R, done, k, eF);
    ESoFarStep(g, rank, root, R, done, k, b, e);
    EdgeIdsApart(ids, R, n, k, eT);
    EdgeIdsApart(ids, R, n, k, eF);
    EdgeIdsApart(ids, R, n, k, e);
    assert k == Edge(k.pred, k.sense) && e == Edge(e.pred, e.sense);
    assert i in Get(doms[b], true) <==> ESoFar(g, root, R, done, k, eT);
    assert i in Get(doms[b], false) <==> ESoFar(g, root, R, done, k, eF);
    assert i in Get(doms[e.pred], e.sense) <==> ESoFar(g, root, R, done, k, e);
    assert EdgeId(ids, n, eT) == ids[b] && EdgeId(ids, n, eF) == n + ids[b];
    hide ESoFar, Turn, EdgeDominates, Dag, Reach, EInv, EdgeId, Numbered, AboveDone;
  }

  lemma EHandleKeeps(g: Graph, rank: map<Block, nat>, root: Block, R: set<Block>, done: set<Block>,
                     ids: map<Block, nat>, n: nat, doms: map<Block, EDoms>, b: Block)
    requires Dag(g, rank) && root in g && R == Reach(g, rank, root) && Turn(g, R, done, b) && AboveDone(g, R, done, b)
    requires Numbered(ids, R, n) && R <= doms.Keys && EInv(g, root, R, done, ids, n, doms)
    ensures EInv(g, root, R, done + {b}, ids, n, EHandled(g, ids, n, doms, b))
  {
    forall a, sa, x, sx {:trigger Edge(a, sa), Edge(x, sx)} | a in R && x in R
      ensures EdgeId(ids, n, Edge(a, sa)) in Get(EHandled(g, ids, n, doms, b)[x], sx)
         <==> ESoFar(g, root, R, done + {b}, Edge(a, sa), Edge(x, sx))
    {
      EHandleOne(g, rank, root, R, done, ids, n, doms, b, Edge(a, sa), Edge(x, sx));
    }
  }

  lemma EDomsExact(g: Graph, rank: map<Block, nat>, root: Block, R: set<Block>, ids: map<Block, nat>, n: nat,
                   doms: map<Block, EDoms>)
    requires Dag(g, rank) && root in g && R == Reach(g, rank, root)
    requires R <= ids.Keys && R <= doms.Keys && EInv(g, root, R, R, ids, n, doms)
    ensures forall a, sa, b, sb {:trigger Edge(a, sa), Edge(b, sb)} :: a in R && b in R ==>
              (EdgeId(ids, n, Edge(a, sa)) in Get(doms[b], sb) <==> EdgeDominates(g, root, Edge(a, sa), Edge(b, sb)))
  {
    forall a, sa, b, sb {:trigger Edge(a, sa), Edge(b, sb)} | a in R && b in R
      ensures EdgeId(ids, n, Edge(a, sa)) in Get(doms[b], sb) <==> EdgeDominates(g, root, Edge(a, sa), Edge(b, sb))
    {
      EdgeDominatesStep(g, rank, root, Edge(a, sa), Edge(b, sb));
    }
  }

  // ----- Nothing but edges -----

  /** Every number of the set is that of an edge of a block of `R`. */
  ghost predicate EdgeIds(ids: map<Block, nat>, R: set<Block>, n: nat, d: set<nat>)
    requires R <= ids.Keys
  {
    forall i :: i in d ==> IsEdgeId(ids, R, n, i)
  }

  ghost predicate IsEdgeId(ids: map<Block, nat>, R: set<Block>, n: nat, i: nat)
    requires R <= ids.Keys
  {
    exists b, s {:trigger Edge(b, s)} :: b in R && i == EdgeId(ids, n, Edge(b, s))
  }

  /** Some block of `done` leads to b. */
  ghost predicate Reaches(g: Graph, R: set<Block>, done: set<Block>, b: Block) {
    exists c, s {:trigger Enters(g, c, s, b)} :: c in R && c in done && Enters(g, c, s, b)
  }

  /** The sets start full; they hold edges only as soon as one intersection, or the root's emptying, has been made. */
  ghost predicate ECovered(g: Graph, root: Block, R: set<Block>, done: set<Block>, ids: map<Block, nat>, n: nat,
                           doms: map<Block, EDoms>)
    requires R <= ids.Keys && R <= doms.Keys
  {
    forall b {:trigger doms[b]} :: b in R && (b == root || Reaches(g, R, done, b)) ==>
        EdgeIds(ids, R, n, doms[b].et) && EdgeIds(ids, R, n, doms[b].ef)
  }

  /** A reachable block other than the root is entered from a reachable block. */
  lemma Entered(g: Graph, rank: map<Block, nat>, root: Block, R: set<Block>, done: set<Block>, b: Block)
    requires Dag(g, rank) && root in g && R == Reach(g, rank, root) && b in R && b != root && AboveDone(g, R, done, b)
    ensures Reaches(g, R, done, b)
  {
    var ds := ReachWalk(g, rank, root, b);
    var init, last := ds[..|ds| - 1], ds[|ds| - 1];
    WalkInReach(g, rank, root, init);
    assert Enters(g, Walk(g, root, init), last, b);
  }

  lemma EdgeIdsOf(ids: map<Block, nat>, R: set<Block>, n: nat, b: Block, s: bool, d: set<nat>)
    requires R <= ids.Keys && b in R && EdgeIds(ids, R, n, d)
    ensures EdgeIds(ids, R, n, d + {EdgeId(ids, n, Edge(b, s))})
  {
    var k := Edge(b, s);
    assert IsEdgeId(ids, R, n, EdgeId(ids, n, k));
  }

  lemma IntoIds(nd: Node, x: Block, d: set<nat>, t: set<nat>, f: set<nat>, ids: map<Block, nat>, R: set<Block>, n: nat)
    requires R <= ids.Keys && EdgeIds(ids, R, n, t) && EdgeIds(ids, R, n, f)
    requires x == nd.jt || x == nd.jf || EdgeIds(ids, R, n, d)
    ensures EdgeIds(ids, R, n, Into(nd, x, d, t, f))
  {
    hide IsEdgeId;
  }

  lemma ECoveredStep(g: Graph, rank: map<Block, nat>, root: Block, R: set<Block>, done: set<Block>,
                     ids: map<Block, nat>, n: nat, doms: map<Block, EDoms>, b: Block)
    requires Dag(g, rank) && root in g && R == Reach(g, rank, root) && Turn(g, R, done, b) && AboveDone(g, R, done, b)
    requires R <= ids.Keys && R <= doms.Keys && ECovered(g, root, R, done, ids, n, doms)
    ensures ECovered(g, root, R, done + {b}, ids, n, EHandled(g, ids, n, doms, b))
  {
    var doms1 := EHandled(g, ids, n, doms, b);
    var t, f := doms[b].et + {ids[b]}, doms[b].ef + {n + ids[b]};
    if b != root {
      Entered(g, rank, root, R, done, b);
    }
    EdgeIdsOf(ids, R, n, b, true, doms[b].et);
    EdgeIdsOf(ids, R, n, b, false, doms[b].ef);
    forall x {:trigger doms1[x]} | x in R && (x == root || Reaches(g, R, done + {b}, x))
      ensures EdgeIds(ids, R, n, doms1[x].et) && EdgeIds(ids, R, n, doms1[x].ef)
    {
      if x != b {
        if x != g[b].jt && x != g[b].jf {
          ReachesBefore(g, root, R, done, b, x);
          assert EdgeIds(ids, R, n, doms[x].et);
        }
        IntoIds(g[b], x, doms[x].et, t, f, ids, R, n);
        IntoIds(g[b], x, doms[x].ef, t, f, ids, R, n);
      }
      hide EdgeIds, Reaches, Dag, Reach;
    }
  }

  lemma ReachesBefore(g: Graph, root: Block, R: set<Block>, done: set<Block>, b: Block, x: Block)
    requires b in g && x != g[b].jt && x != g[b].jf && (x == root || Reaches(g, R, done + {b}, x))
    ensures x == root || Reaches(g, R, done, x)
  {
    if x != root {
      var c, s :| c in R && c in done + {b} && Enters(g, c, s, x);
      assert c != b;
    }
  }

  lemma ECoveredStart(g: Graph, root: Block, R: set<Block>, ids: map<Block, nat>, n: nat, doms: map<Block, EDoms>)
    requires R <= ids.Keys && R <= doms.Keys && (root in R ==> doms[root] == EDoms({}, {}))
    ensures ECovered(g, root, R, {}, ids, n, doms)
  {
  }

  lemma ECoveredEnd(g: Graph, rank: map<Block, nat>, root: Block, R: set<Block>, ids: map<Block, nat>, n: nat,
                    doms: map<Block, EDoms>)
    requires Dag(g, rank) && root in g && R == Reach(g, rank, root)
    requires R <= ids.Keys && R <= doms.Keys && ECovered(g, root, R, R, ids, n, doms)
    ensures forall b, s {:trigger Get(doms[b], s)} :: b in R ==> EdgeIds(ids, R, n, Get(doms[b], s))
  {
    forall b, s {:trigger Get(doms[b], s)} | b in R
      ensures EdgeIds(ids, R, n, Get(doms[b], s))
    {
      if b != root {
        Entered(g, rank, root, R, R, b);
      }
      assert doms[b] == doms[b];
    }
  }

  lemma EDomsStart(g: Graph, rank: map<Block, nat>, root: Block, R: set<Block>, ids: map<Block, nat>, n: nat,
                   doms: map<Block, EDoms>)
    requires Dag(g, rank) && root in g && R == Reach(g, rank, root) && Numbered(ids, R, n) && R <= doms.Keys
    requires forall b {:trigger doms[b]} :: b in R ==>
        doms[b] == if b == root then EDoms({}, {}) else EDoms(Upto(2 * n), Upto(2 * n))
    ensures EInv(g, root, R, {}, ids, n, doms)
  {
    forall a, sa, b, sb {:trigger Edge(a, sa), Edge(b, sb)} | a in R && b in R
      ensures EdgeId(ids, n, Edge(a, sa)) in Get(doms[b], sb) <==> ESoFar(g, root, R, {}, Edge(a, sa), Edge(b, sb))
    {
      EdgeIdsApart(ids, R, n, Edge(a, sa), Edge(b, sb));
    }
  }

  // ----- The pass -----

  method ReadEDoms(b: Block, ghost S: set<Block>) returns (d: EDoms)
    requires b in S
    ensures d == EDomsOf(S)[b]
  {
    d := EDoms(b.etDom, b.efDom);
  }

  method SetEDoms(b: Block, d: EDoms, ghost S: set<Block>, ghost g: Graph, ghost rank: map<Block, nat>,
                  ghost root: Block, ghost blocks: seq<Block>, ghost levels: seq<seq<Block>>)
    requires b in S && Leveled(S, g, rank, root, blocks, levels)
    modifies S`etDom, S`efDom
    ensures Leveled(S, g, rank, root, blocks, levels)
    ensures EDomsOf(S) == old(EDomsOf(S))[b := d] && IdsOf(S) == old(IdsOf(S))
  {
    b.etDom, b.efDom := d.et, d.ef;
  }

  /** propedom. */
  method PropEdom(b: Block, s: bool, succ: Block?, n: nat, ghost S: set<Block>, ghost g: Graph,
                  ghost rank: map<Block, nat>, ghost root: Block, ghost blocks: seq<Block>,
                  ghost levels: seq<seq<Block>>)
    requires b in S && Leveled(S, g, rank, root, blocks, levels) && (succ != null ==> succ in S && succ != b)
    modifies S`etDom, S`efDom
    ensures Leveled(S, g, rank, root, blocks, levels) && IdsOf(S) == old(IdsOf(S))
    ensures EDomsOf(S) == Propagated(b, s, succ, EdgeId(IdsOf(S), n, Edge(b, s)), old(EDomsOf(S)))
  {
    hide *;
    ghost var doms := EDomsOf(S);
    var id := if s then b.id else n + b.id;
    ReadId(b, s, n, S);
    var own := ReadEDoms(b, S);
    var d := Get(own, s) + {id};
    var own' := if s then EDoms(d, own.ef) else EDoms(own.et, d);
    PropagatedSteps(b, s, succ, id, doms, d, doms[b := own']);
    SetEDoms(b, own', S, g, rank, root, blocks, levels);
    if succ != null {
      var next := ReadEDoms(succ, S);
      SetEDoms(succ, EDoms(next.et * d, next.ef * d), S, g, rank, root, blocks, levels);
    }
  }

  lemma ReadId(b: Block, s: bool, n: nat, S: set<Block>)
    requires b in S
    ensures b in IdsOf(S) && EdgeId(IdsOf(S), n, Edge(b, s)) == if s then b.id else n + b.id
  {
    assert IdsOf(S)[b] == b.id;
  }

  lemma PropagatedSteps(b: Block, s: bool, succ: Block?, id: nat, doms: map<Block, EDoms>, d: set<nat>,
                        doms1: map<Block, EDoms>)
    requires b in doms && (succ != null ==> succ in doms)
    requires d == Get(doms[b], s) + {id}
    requires doms1 == doms[b := if s then EDoms(d, doms[b].ef) else EDoms(doms[b].et, d)]
    ensures succ == null ==> Propagated(b, s, succ, id, doms) == doms1
    ensures succ != null ==>
              Propagated(b, s, succ, id, doms) == doms1[succ := EDoms(doms1[succ].et * d, doms1[succ].ef * d)]
  {
  }

  ghost function Propagated(b: Block, s: bool, succ: Block?, id: nat, doms: map<Block, EDoms>): map<Block, EDoms>
    requires b in doms && (succ != null ==> succ in doms)
  {
    var d := Get(doms[b], s) + {id};
    var doms1 := doms[b := if s then EDoms(d, doms[b].ef) else EDoms(doms[b].et, d)];
    if succ == null then doms1 else doms1[succ := EDoms(doms1[succ].et * d, doms1[succ].ef * d)]
  }

  lemma PropagatedBoth(g: Graph, ids: map<Block, nat>, n: nat, doms: map<Block, EDoms>, b: Block)
    requires b in g && b in ids && b in doms
    requires g[b].jt != null ==> g[b].jt in doms && g[b].jt != b
    requires g[b].jf != null ==> g[b].jf in doms && g[b].jf != b
    ensures Propagated(b, false, g[b].jf, EdgeId(ids, n, Edge(b, false)),
        Propagated(b, true, g[b].jt, EdgeId(ids, n, Edge(b, true)), doms))
         == EHandled(g, ids, n, doms, b)
  {
  }

  method EHandle(b: Block, n: nat, ghost S: set<Block>, ghost g: Graph, ghost rank: map<Block, nat>, ghost root: Block,
                 ghost blocks: seq<Block>, ghost levels: seq<seq<Block>>)
    requires b in S && Leveled(S, g, rank, root, blocks, levels) && Turn(g, S, {}, b)
    modifies S`etDom, S`efDom
    ensures Leveled(S, g, rank, root, blocks, levels) && IdsOf(S) == old(IdsOf(S))
    ensures EDomsOf(S) == EHandled(g, IdsOf(S), n, old(EDomsOf(S)), b)
  {
    assert g[b] == NodeOf(b);
    var t, f := b.jt, b.jf;
    PropagatedBoth(g, IdsOf(S), n, EDomsOf(S), b);
    hide Leveled;
    PropEdom(b, true, t, n, S, g, rank, root, blocks, levels);
    PropEdom(b, false, f, n, S, g, rank, root, blocks, levels);
  }

  method InitEDoms(root: Block, blocks: seq<Block>, levels: seq<seq<Block>>, ghost S: set<Block>, ghost g: Graph,
                   ghost rank: map<Block, nat>)
    requires Leveled(S, g, rank, root, blocks, levels)
    modifies S`etDom, S`efDom
    ensures Leveled(S, g, rank, root, blocks, levels)
    ensures EInv(g, root, Reach(g, rank, root), {}, IdsOf(S), |blocks|, EDomsOf(S))
    ensures ECovered(g, root, Reach(g, rank, root), {}, IdsOf(S), |blocks|, EDomsOf(S))
  {
    var all := Upto(2 * |blocks|);
    ghost var R, ids := Reach(g, rank, root), IdsOf(S);
    hide Dag, Lists, Reach, LevelOf, EInv;
    for i := 0 to |blocks|
      invariant Leveled(S, g, rank, root, blocks, levels) && ids == IdsOf(S)
      invariant forall k {:trigger blocks[k]} :: 0 <= k < i ==> EDomsOf(S)[blocks[k]] == EDoms(all, all)
    {
      SetEDoms(blocks[i], EDoms(all, all), S, g, rank, root, blocks, levels);
    }
    assert forall b :: b in R ==> EDomsOf(S)[b] == EDoms(all, all);
    SetEDoms(root, EDoms({}, {}), S, g, rank, root, blocks, levels);
    assert Numbered(ids, R, |blocks|);
    EDomsStart(g, rank, root, R, ids, |blocks|, EDomsOf(S));
    ECoveredStart(g, root, R, ids, |blocks|, EDomsOf(S));
  }

  method EHandleNext(b: Block, root: Block, blocks: seq<Block>, ghost levels: seq<seq<Block>>, ghost l: nat,
                     ghost j: nat, ghost S: set<Block>, ghost g: Graph, ghost rank: map<Block, nat>)
    requires Leveled(S, g, rank, root, blocks, levels) && l < |levels| && j < |levels[l]| && b == levels[l][j]
    requires EInv(g, root, Reach(g, rank, root), Done(g, rank, Reach(g, rank, root), l, levels[l][..j]), IdsOf(S),
        |blocks|, EDomsOf(S))
    requires ECovered(g, root, Reach(g, rank, root), Done(g, rank, Reach(g, rank, root), l, levels[l][..j]), IdsOf(S),
        |blocks|, EDomsOf(S))
    modifies S`etDom, S`efDom
    ensures Leveled(S, g, rank, root, blocks, levels)
    ensures EInv(g, root, Reach(g, rank, root), Done(g, rank, Reach(g, rank, root), l, levels[l][..j + 1]), IdsOf(S),
        |blocks|, EDomsOf(S))
    ensures ECovered(g, root, Reach(g, rank, root), Done(g, rank, Reach(g, rank, root), l, levels[l][..j + 1]),
        IdsOf(S), |blocks|, EDomsOf(S))
  {
    ghost var R, ids, doms := Reach(g, rank, root), IdsOf(S), EDomsOf(S);
    ghost var done := Done(g, rank, R, l, levels[l][..j]);
    TurnComes(g, rank, root, levels, l, j);
    DoneNext(g, rank, R, levels, l, j);
    assert Numbered(ids, R, |blocks|);
    assert Turn(g, S, {}, b) && R <= S;
    hide *;
    EHandleKeeps(g, rank, root, R, done, ids, |blocks|, doms, b);
    ECoveredStep(g, rank, root, R, done, ids, |blocks|, doms, b);
    EHandle(b, |blocks|, S, g, rank, root, blocks, levels);
  }

  /** find_edom is exact: edge k is in the set of edge e just when every path from the root through e takes k;
      and the sets hold numbers of reachable edges only. */
  method FindEdom(root: Block, blocks: seq<Block>, levels: seq<seq<Block>>, ghost S: set<Block>, ghost g: Graph,
                  ghost rank: map<Block, nat>)
    requires Leveled(S, g, rank, root, blocks, levels)
    modifies S`etDom, S`efDom
    ensures Leveled(S, g, rank, root, blocks, levels)
    ensures forall a, sa, b, sb {:trigger Edge(a, sa), Edge(b, sb)} ::
        a in Reach(g, rank, root) && b in Reach(g, rank, root) ==>
              (EdgeId(IdsOf(S), |blocks|, Edge(a, sa)) in Get(EDomsOf(S)[b], sb) <==>
                  EdgeDominates(g, root, Edge(a, sa), Edge(b, sb)))
    ensures forall b, s {:trigger Get(EDomsOf(S)[b], s)} :: b in Reach(g, rank, root) ==>
              EdgeIds(IdsOf(S), Reach(g, rank, root), |blocks|, Get(EDomsOf(S)[b], s))
  {
    hide *;
    LeveledFacts(S, g, rank, root, blocks, levels);
    InitEDoms(root, blocks, levels, S, g, rank);
    ghost var R := Reach(g, rank, root);
    NoneDone(g, rank, root);
    var top := root.level;
    for l := top + 1 downto 0
      invariant Leveled(S, g, rank, root, blocks, levels)
      invariant EInv(g, root, R, Done(g, rank, R, l - 1, []), IdsOf(S), |blocks|, EDomsOf(S))
      invariant ECovered(g, root, R, Done(g, rank, R, l - 1, []), IdsOf(S), |blocks|, EDomsOf(S))
    {
      LevelStart(g, rank, R, levels, l);
      for j := 0 to |levels[l]|
        invariant Leveled(S, g, rank, root, blocks, levels)
        invariant EInv(g, root, R, Done(g, rank, R, l, levels[l][..j]), IdsOf(S), |blocks|, EDomsOf(S))
        invariant ECovered(g, root, R, Done(g, rank, R, l, levels[l][..j]), IdsOf(S), |blocks|, EDomsOf(S))
      {
        EHandleNext(levels[l][j], root, blocks, levels, l, j, S, g, rank);
      }
      NextLevel(g, rank, R, levels, l);
    }
    AllDone(g, rank, R);
    EDomsExact(g, rank, root, R, IdsOf(S), |blocks|, EDomsOf(S));
    ECoveredEnd(g, rank, root, R, IdsOf(S), |blocks|, EDomsOf(S));
  }
}
