/** find_dom and find_edom: one pass over the level lists, from the root down, computes the
    block dominators and the edge dominators exactly. */
module Dominators {
  import opened Cfg
  import opened Paths
  import opened Levels

  // ----- The order of the pass -----

  /** Everything that enters `b` has been handled. */
  ghost predicate AboveDone(g: Graph, R: set<Block>, done: set<Block>, b: Block)
  {
    forall c, s {:trigger Enters(g, c, s, b)} :: c in R && Enters(g, c, s, b) ==> c in done
  }

  /** The next block to handle: neither it nor its successors have been handled. */
  ghost predicate Turn(g: Graph, R: set<Block>, done: set<Block>, b: Block)
  {
    && b in R && b !in done && b in g && g[b].jt !in done && g[b].jf !in done
    && (g[b].jt != null ==> g[b].jt in R && g[b].jf != null && g[b].jf in R && g[b].jt != b && g[b].jf != b)
    && (g[b].jt == null ==> g[b].jf == null)
  }

  lemma TurnComes(g: Graph, rank: map<Block, nat>, root: Block, levels: seq<seq<Block>>, l: nat, j: nat)
    requires Dag(g, rank) && root in g && Lists(levels, g, rank, Reach(g, rank, root)) && l < |levels|
    requires j < |levels[l]|
    ensures Reach(g, rank, root) <= g.Keys
    ensures Turn(g, Reach(g, rank, root), Done(g, rank, Reach(g, rank, root), l, levels[l][..j]), levels[l][j])
    ensures AboveDone(g, Reach(g, rank, root), Done(g, rank, Reach(g, rank, root), l, levels[l][..j]), levels[l][j])
  {
    var R, b := Reach(g, rank, root), levels[l][j];
    var done := Done(g, rank, R, l, levels[l][..j]);
    assert b in levels[l];
    forall c, s {:trigger Enters(g, c, s, b)} | c in R && Enters(g, c, s, b)
      ensures c in done
    {
      LevelDrops(g, rank, c, s);
    }
    assert DagNode(g, rank, b);
    if g[b].jt != null {
      EntersLower(g, rank, root, b, true, g[b].jt);
      EntersLower(g, rank, root, b, false, g[b].jf);
      LevelDrops(g, rank, b, true);
      LevelDrops(g, rank, b, false);
    }
  }

  /** A full set. */
  function Upto(n: nat): (r: set<nat>)
    ensures forall i: nat :: i in r <==> i < n
  {
    if n == 0 then {} else Upto(n - 1) + {n - 1}
  }

  // ----- Block dominators -----

  ghost function DomsOf(S: set<Block>): (r: map<Block, set<nat>>)
    reads S`dom
    ensures r.Keys == S
  {
    map b | b in S :: b.dom
  }

  ghost function IdsOf(S: set<Block>): (r: map<Block, nat>)
    reads S`id
    ensures r.Keys == S
  {
    map b | b in S :: b.id
  }

  ghost predicate Numbered(ids: map<Block, nat>, R: set<Block>, n: nat) {
    && R <= ids.Keys && (forall b :: b in R ==> ids[b] < n)
    && forall a, b :: a in R && b in R && ids[a] == ids[b] ==> a == b
  }

  /** What a's membership in b's set means while the blocks of `done` have been handled. */
  ghost predicate SoFar(g: Graph, root: Block, R: set<Block>, done: set<Block>, a: Block, b: Block) {
    || (b in done && a == b)
    || (b != root && forall c, s {:trigger Enters(g, c, s, b)} :: c in R && c in done && Enters(g, c, s, b) ==>
        Dominates(g, root, a, c))
  }

  ghost predicate DomInv(g: Graph, root: Block, R: set<Block>, done: set<Block>, ids: map<Block, nat>,
                         doms: map<Block, set<nat>>)
    requires R <= ids.Keys && R <= doms.Keys
  {
    forall a, b :: a in R && b in R ==> (ids[a] in doms[b] <==> SoFar(g, root, R, done, a, b))
  }

  /** Handling block `b`: its own id, then the intersections into its successors. */
  ghost function Handled(g: Graph, ids: map<Block, nat>, doms: map<Block, set<nat>>, b: Block): map<Block, set<nat>>
    requires b in doms && b in ids && b in g
  {
    var d := doms[b] + {ids[b]};
    map x | x in doms :: if x == b then d else if x == g[b].jt || x == g[b].jf then doms[x] * d else doms[x]
  }

  /** With everything above b handled, b's own set is exact once its id is in. */
  lemma TurnExact(g: Graph, rank: map<Block, nat>, root: Block, R: set<Block>, done: set<Block>, a: Block, b: Block)
    requires Dag(g, rank) && root in g && R == Reach(g, rank, root) && Turn(g, R, done, b) && AboveDone(g, R, done, b)
    requires a in R
    ensures a == b || SoFar(g, root, R, done, a, b) <==> Dominates(g, root, a, b)
  {
    DominatesStep(g, rank, root, a, b);
  }

  /** Handling b adds it to what has been handled above its successors, and only above them. */
  lemma SoFarStep(g: Graph, rank: map<Block, nat>, root: Block, R: set<Block>, done: set<Block>, a: Block, b: Block,
                  x: Block)
    requires Dag(g, rank) && root in g && R == Reach(g, rank, root) && Turn(g, R, done, b) && AboveDone(g, R, done, b)
    requires a in R && x in R
    ensures x == b ==> (SoFar(g, root, R, done + {b}, a, x) <==> a == b || SoFar(g, root, R, done, a, x))
    ensures x != b && (x == g[b].jt || x == g[b].jf) ==>
              (SoFar(g, root, R, done + {b}, a, x) <==> SoFar(g, root, R, done, a, x) && Dominates(g, root, a, b))
    ensures x != b && x != g[b].jt && x != g[b].jf ==>
              (SoFar(g, root, R, done + {b}, a, x) <==> SoFar(g, root, R, done, a, x))
  {
    hide Dominates, Reach;
    if x == g[b].jt || x == g[b].jf {
      var s := x == g[b].jt;
      assert Enters(g, b, s, x);
      EntersLower(g, rank, root, b, s, x);
    } else {
      assert !Enters(g, b, true, x) && !Enters(g, b, false, x);
    }
  }

  lemma HandleKeeps(g: Graph, rank: map<Block, nat>, root: Block, R: set<Block>, done: set<Block>, ids: map<Block, nat>,
                    doms: map<Block, set<nat>>, b: Block, n: nat)
    requires Dag(g, rank) && root in g && R == Reach(g, rank, root) && Turn(g, R, done, b) && AboveDone(g, R, done, b)
    requires Numbered(ids, R, n) && R <= doms.Keys && DomInv(g, root, R, done, ids, doms)
    ensures DomInv(g, root, R, done + {b}, ids, Handled(g, ids, doms, b))
  {
    var doms' := Handled(g, ids, doms, b);
    assert b in R;
    forall a, x | a in R && x in R
      ensures ids[a] in doms'[x] <==> SoFar(g, root, R, done + {b}, a, x)
    {
      TurnExact(g, rank, root, R, done, a, b);
      SoFarStep(g, rank, root, R, done, a, b, x);
      assert ids[a] in doms[x] <==> SoFar(g, root, R, done, a, x);
      assert ids[a] in doms[b] <==> SoFar(g, root, R, done, a, b);
      hide SoFar, Turn, Dominates, Dag, Reach, DomInv;
    }
  }

  lemma DomsExact(g: Graph, rank: map<Block, nat>, root: Block, R: set<Block>, ids: map<Block, nat>,
                  doms: map<Block, set<nat>>)
    requires Dag(g, rank) && root in g && R == Reach(g, rank, root)
    requires R <= ids.Keys && R <= doms.Keys && DomInv(g, root, R, R, ids, doms)
    ensures forall a, b :: a in R && b in R ==> (ids[a] in doms[b] <==> Dominates(g, root, a, b))
  {
    forall a, b | a in R && b in R
      ensures ids[a] in doms[b] <==> Dominates(g, root, a, b)
    {
      DominatesStep(g, rank, root, a, b);
    }
  }

  /** Before the pass every set but the root's is full. */
  lemma DomsStart(g: Graph, rank: map<Block, nat>, root: Block, R: set<Block>, ids: map<Block, nat>,
                  doms: map<Block, set<nat>>, n: nat)
    requires Dag(g, rank) && root in g && R == Reach(g, rank, root) && Numbered(ids, R, n) && R <= doms.Keys
    requires forall b {:trigger doms[b]} :: b in R ==> doms[b] == if b == root then {} else Upto(n)
    ensures DomInv(g, root, R, {}, ids, doms)
  {
  }

  // ----- find_dom -----

  method SetDom(b: Block, d: set<nat>, ghost S: set<Block>, ghost g: Graph, ghost rank: map<Block, nat>,
                ghost root: Block, ghost blocks: seq<Block>, ghost levels: seq<seq<Block>>)
    requires b in S && Leveled(S, g, rank, root, blocks, levels)
    modifies S`dom
    ensures Leveled(S, g, rank, root, blocks, levels)
    ensures DomsOf(S) == old(DomsOf(S))[b := d] && IdsOf(S) == old(IdsOf(S))
  {
    b.dom := d;
  }

  method Handle(b: Block, ghost S: set<Block>, ghost g: Graph, ghost rank: map<Block, nat>, ghost root: Block,
                ghost blocks: seq<Block>, ghost levels: seq<seq<Block>>)
    requires b in S && Leveled(S, g, rank, root, blocks, levels) && Turn(g, S, {}, b)
    modifies S`dom
    ensures Leveled(S, g, rank, root, blocks, levels)
    ensures DomsOf(S) == Handled(g, IdsOf(S), old(DomsOf(S)), b) && IdsOf(S) == old(IdsOf(S))
  {
    ghost var ids, doms := IdsOf(S), DomsOf(S);
    assert g[b] == NodeOf(b) && ids[b] == b.id;
    var t, f, d := b.jt, b.jf, b.dom + {b.id};
    assert doms[b] == b.dom;
    HandledSteps(g, ids, doms, b);
    hide Leveled;
    SetDom(b, d, S, g, rank, root, blocks, levels);
    if t != null {
      assert t.dom == DomsOf(S)[t];
      SetDom(t, t.dom * d, S, g, rank, root, blocks, levels);
      assert f.dom == DomsOf(S)[f];
      SetDom(f, f.dom * d, S, g, rank, root, blocks, levels);
    }
  }

  lemma HandledSteps(g: Graph, ids: map<Block, nat>, doms: map<Block, set<nat>>, b: Block)
    requires b in g && b in ids && b in doms && (g[b].jt == null ==> g[b].jf == null)
    requires g[b].jt != null ==> g[b].jf != null && g[b].jt in doms && g[b].jf in doms && g[b].jt != b && g[b].jf != b
    ensures var d := doms[b] + {ids[b]};
            var doms1 := doms[b := d];
            if g[b].jt == null then Handled(g, ids, doms, b) == doms1
            else
              var doms2 := doms1[g[b].jt := doms1[g[b].jt] * d];
              Handled(g, ids, doms, b) == doms2[g[b].jf := doms2[g[b].jf] * d]
  {
    var d := doms[b] + {ids[b]};
    assert forall x: set<nat> :: x * d * d == x * d;
  }

  /** Every set full, the root's empty. */
  method InitDoms(root: Block, blocks: seq<Block>, levels: seq<seq<Block>>, ghost S: set<Block>, ghost g: Graph,
                  ghost rank: map<Block, nat>)
    requires Leveled(S, g, rank, root, blocks, levels)
    modifies S`dom
    ensures Leveled(S, g, rank, root, blocks, levels)
    ensures DomInv(g, root, Reach(g, rank, root), {}, IdsOf(S), DomsOf(S))
  {
    hide *;
    var all := Upto(|blocks|);
    LeveledFacts(S, g, rank, root, blocks, levels);
    ghost var R, ids := Reach(g, rank, root), IdsOf(S);
    NoneSet(blocks, DomsOf(S), all);
    for i := 0 to |blocks|
      invariant Leveled(S, g, rank, root, blocks, levels) && ids == IdsOf(S)
      invariant AllSet(blocks[..i], DomsOf(S), all)
    {
      InBlocks(S, g, rank, root, blocks, levels, i);
      ghost var doms := DomsOf(S);
      SetDom(blocks[i], all, S, g, rank, root, blocks, levels);
      AllSetSnoc(blocks, i, doms, all);
    }
    ghost var doms := DomsOf(S);
    SetDom(root, {}, S, g, rank, root, blocks, levels);
    AllSetStart(S, g, rank, root, blocks, levels, doms, all);
    DomsStart(g, rank, root, R, ids, DomsOf(S), |blocks|);
  }

  ghost predicate AllSet(bs: seq<Block>, doms: map<Block, set<nat>>, d: set<nat>) {
    forall b :: b in bs && b in doms ==> doms[b] == d
  }

  lemma NoneSet(blocks: seq<Block>, doms: map<Block, set<nat>>, d: set<nat>)
    ensures AllSet(blocks[..0], doms, d)
  {
  }

  lemma AllSetSnoc(blocks: seq<Block>, i: nat, doms: map<Block, set<nat>>, d: set<nat>)
    requires i < |blocks| && AllSet(blocks[..i], doms, d)
    ensures AllSet(blocks[..i + 1], doms[blocks[i] := d], d)
  {
    assert blocks[..i + 1] == blocks[..i] + [blocks[i]];
  }

  lemma AllSetStart(S: set<Block>, g: Graph, rank: map<Block, nat>, root: Block, blocks: seq<Block>,
                    levels: seq<seq<Block>>, doms: map<Block, set<nat>>, d: set<nat>)
    requires Leveled(S, g, rank, root, blocks, levels) && AllSet(blocks[..|blocks|], doms, d) && doms.Keys == S
    ensures Numbered(IdsOf(S), Reach(g, rank, root), |blocks|) && Reach(g, rank, root) <= S
    ensures forall b {:trigger doms[root := {}][b]} :: b in Reach(g, rank, root) ==>
              doms[root := {}][b] == if b == root then {} else d
  {
    assert blocks[..|blocks|] == blocks;
    forall b | b in Reach(g, rank, root)
      ensures b in blocks
    {
      assert blocks[b.id] == b;
    }
    hide Reach, Dag, Lists, LevelOf;
  }

  lemma InBlocks(S: set<Block>, g: Graph, rank: map<Block, nat>, root: Block, blocks: seq<Block>,
                 levels: seq<seq<Block>>, i: nat)
    requires Leveled(S, g, rank, root, blocks, levels) && i < |blocks|
    ensures blocks[i] in S
  {
  }

  /** The j-th block of level l. */
  method HandleNext(b: Block, root: Block, ghost blocks: seq<Block>, ghost levels: seq<seq<Block>>, ghost l: nat,
                    ghost j: nat, ghost S: set<Block>, ghost g: Graph, ghost rank: map<Block, nat>)
    requires Leveled(S, g, rank, root, blocks, levels) && l < |levels| && j < |levels[l]| && b == levels[l][j]
    requires DomInv(g, root, Reach(g, rank, root), Done(g, rank, Reach(g, rank, root), l, levels[l][..j]), IdsOf(S),
        DomsOf(S))
    modifies S`dom
    ensures Leveled(S, g, rank, root, blocks, levels)
    ensures DomInv(g, root, Reach(g, rank, root), Done(g, rank, Reach(g, rank, root), l, levels[l][..j + 1]), IdsOf(S),
        DomsOf(S))
  {
    ghost var R, ids, doms := Reach(g, rank, root), IdsOf(S), DomsOf(S);
    ghost var done := Done(g, rank, R, l, levels[l][..j]);
    TurnComes(g, rank, root, levels, l, j);
    DoneNext(g, rank, R, levels, l, j);
    assert Numbered(ids, R, |blocks|);
    assert Turn(g, S, {}, b) && R <= S;
    hide *;
    HandleKeeps(g, rank, root, R, done, ids, doms, b, |blocks|);
    Handle(b, S, g, rank, root, blocks, levels);
  }

  method FindDom(root: Block, blocks: seq<Block>, levels: seq<seq<Block>>, ghost S: set<Block>, ghost g: Graph,
                 ghost rank: map<Block, nat>)
    requires Leveled(S, g, rank, root, blocks, levels)
    modifies S`dom
    ensures Leveled(S, g, rank, root, blocks, levels)
    ensures forall a, b :: a in Reach(g, rank, root) && b in Reach(g, rank, root) ==>
        (a.id in b.dom <==> Dominates(g, root, a, b))
  {
    hide *;
    LeveledFacts(S, g, rank, root, blocks, levels);
    InitDoms(root, blocks, levels, S, g, rank);
    ghost var R := Reach(g, rank, root);
    NoneDone(g, rank, root);
    var top := root.level;
    for l := top + 1 downto 0
      invariant Leveled(S, g, rank, root, blocks, levels)
      invariant DomInv(g, root, R, Done(g, rank, R, l - 1, []), IdsOf(S), DomsOf(S))
    {
      LevelStart(g, rank, R, levels, l);
      for j := 0 to |levels[l]|
        invariant Leveled(S, g, rank, root, blocks, levels)
        invariant DomInv(g, root, R, Done(g, rank, R, l, levels[l][..j]), IdsOf(S), DomsOf(S))
      {
        HandleNext(levels[l][j], root, blocks, levels, l, j, S, g, rank);
      }
      NextLevel(g, rank, R, levels, l);
    }
    AllDone(g, rank, R);
    DomsExact(g, rank, root, R, IdsOf(S), DomsOf(S));
    DomsRead(S, R, g, root);
  }

  lemma DomsRead(S: set<Block>, R: set<Block>, g: Graph, root: Block)
    requires R <= S && forall a, b :: a in R && b in R ==> (IdsOf(S)[a] in DomsOf(S)[b] <==> Dominates(g, root, a, b))
    ensures forall a, b :: a in R && b in R ==> (a.id in b.dom <==> Dominates(g, root, a, b))
  {
    forall a, b | a in R && b in R
      ensures a.id in b.dom <==> Dominates(g, root, a, b)
    {
      assert IdsOf(S)[a] == a.id && DomsOf(S)[b] == b.dom;
    }
    hide Dominates;
  }
}
