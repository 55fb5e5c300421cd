/** intern_blocks: equal blocks are shared until no two reachable ones are equal. */
module Intern {
  import opened Bpf
  import opened Cfg
  import opened LiveStmts
  import opened DepthFirst
  import opened InternSpec

  // ----- Comparing blocks -----

  /** eq_slist. */
  method EqSlist(x: seq<Stmt>, y: seq<Stmt>) returns (r: bool)
    ensures r <==> Live(x) == Live(y)
  {
    var i, j := 0, 0;
    assert x[0..] == x && y[0..] == y;
    while true
      invariant i <= |x| && j <= |y|
      invariant Live(x) == Live(y) <==> Live(x[i..]) == Live(y[j..])
      decreases |x| - i
    {
      i := SkipNops(x, i);
      j := SkipNops(y, j);
      if i == |x| {
        assert Live(x[i..]) == [];
        LiveCut(y, j);
        return j == |y|;
      }
      LiveCut(x, i);
      if j == |y| {
        return i == |x|;
      }
      LiveCut(y, j);
      if x[i].code != y[j].code || x[i].k != y[j].k {
        assert Live(x[i..])[0] != Live(y[j..])[0];
        return false;
      }
      HeadTail(x[i], y[j], Live(x[i + 1..]), Live(y[j + 1..]));
      i, j := i + 1, j + 1;
    }
  }

  method SkipNops(ss: seq<Stmt>, i: nat) returns (k: nat)
    requires i <= |ss|
    ensures i <= k <= |ss| && Live(ss[k..]) == Live(ss[i..]) && (k < |ss| ==> ss[k].code != Nop)
  {
    k := i;
    while k < |ss| && ss[k].code == Nop
      invariant i <= k <= |ss| && Live(ss[k..]) == Live(ss[i..])
    {
      assert ss[k..][1..] == ss[k + 1..];
      k := k + 1;
    }
  }

  lemma LiveCut(ss: seq<Stmt>, i: nat)
    requires i <= |ss| && (i < |ss| ==> ss[i].code != Nop)
    ensures if i == |ss| then Live(ss[i..]) == [] else Live(ss[i..]) == [ss[i]] + Live(ss[i + 1..])
  {
    if i < |ss| {
      assert ss[i..][1..] == ss[i + 1..];
    }
  }

  lemma HeadTail<T>(a: T, b: T, s: seq<T>, t: seq<T>)
    ensures [a] + s == [b] + t <==> a == b && s == t
  {
    assert ([a] + s)[0] == a && ([b] + t)[0] == b && ([a] + s)[1..] == s && ([b] + t)[1..] == t;
  }

  /** eq_blk. */
  method EqBlk(b0: Block, b1: Block) returns (r: bool)
    ensures r <==> Same(NodeOf(b0), NodeOf(b1))
  {
    r := false;
    if b0.s.code == b1.s.code && b0.s.k == b1.s.k && b0.jt == b1.jt && b0.jf == b1.jf {
      r := EqSlist(b0.stmts, b1.stmts);
    }
  }

  // ----- One round -----

  ghost function LinksOf(S: set<Block>): (r: map<Block, Block>)
    reads S`link
  {
    map b | b in S && b.link != null :: b.link
  }

  ghost predicate Numbered(S: set<Block>, blocks: seq<Block>) {
    && (forall i {:trigger blocks[i]} :: 0 <= i < |blocks| ==> blocks[i] in S)
    && (forall i, j :: 0 <= i < j < |blocks| ==> blocks[i] != blocks[j])
    && (forall b :: b in S ==> b in blocks)
  }

  ghost predicate RoundReady(S: set<Block>, g: Graph, rank: map<Block, nat>, root: Block, blocks: seq<Block>)
    reads S`stmts, S`s, S`jt, S`jf
    ensures RoundReady(S, g, rank, root, blocks) ==> Dag(g, rank) && root in g
  {
    root in S && g == GraphOf(S) && Dag(g, rank) && Numbered(S, blocks)
  }

  method Mark(b: Block, m: nat, ghost S: set<Block>, ghost g: Graph, ghost rank: map<Block, nat>, ghost root: Block,
              ghost blocks: seq<Block>, ghost seen: set<Block>)
    requires b in S && RoundReady(S, g, rank, root, blocks) && Marks(S, m, seen)
    modifies b`mark
    ensures RoundReady(S, g, rank, root, blocks) && Marks(S, m, seen + {b})
  {
    b.mark := m;
  }

  /** make_marks. */
  method MakeMarks(p: Block, m: nat, ghost S: set<Block>, ghost g: Graph, ghost rank: map<Block, nat>,
                   ghost root: Block, ghost blocks: seq<Block>, ghost seen: set<Block>)
    requires RoundReady(S, g, rank, root, blocks) && Marks(S, m, seen) && p in g && Ready(g, rank, seen, p)
    modifies S`mark
    ensures RoundReady(S, g, rank, root, blocks) && Marks(S, m, seen + Reach(g, rank, p))
    decreases rank[p]
  {
    assert p in S && g[p] == NodeOf(p) && DagNode(g, rank, p);
    if p.mark == m {
      WalkDone(g, rank, p, seen);
      return;
    }
    WalkStep(g, rank, p, p.jt, p.jf, seen);
    if p.s.code != Ret {
      var t, f := p.jt, p.jf;
      ghost var s1 := seen + {p};
      assert rank[t] < rank[p] && rank[f] < rank[p];
      assert ReachFrom(g, rank, t) == Reach(g, rank, t) && ReachFrom(g, rank, f) == Reach(g, rank, f);
      hide *;
      Mark(p, m, S, g, rank, root, blocks, seen);
      MakeMarks(t, m, S, g, rank, root, blocks, s1);
      MakeMarks(f, m, S, g, rank, root, blocks, s1 + Reach(g, rank, t));
    } else {
      assert seen + Reach(g, rank, p) == seen + {p};
      Mark(p, m, S, g, rank, root, blocks, seen);
    }
  }

  /** The links made so far, those of the blocks from number `i` on. */
  ghost predicate LinkInv(g: Graph, R: set<Block>, blocks: seq<Block>, links: map<Block, Block>, i: int) {
    && Links(g, R, links)
    && (forall k {:trigger blocks[k]} :: 0 <= k < |blocks| && k < i ==>
         blocks[k] !in links && blocks[k] !in links.Values)
    && (forall k, j {:trigger blocks[k], blocks[j]} ::
         i <= k < j < |blocks| && 0 <= k && blocks[k] in R && blocks[j] in R ==>
          (Same(g[blocks[k]], g[blocks[j]]) ==> blocks[k] in links))
  }

  /** The first later reachable block equal to number `i`, or n_blocks. */
  method FindTwin(i: nat, blocks: seq<Block>, m: nat, ghost S: set<Block>, ghost g: Graph, ghost rank: map<Block, nat>,
                  ghost root: Block, ghost R: set<Block>)
      returns (j: nat)
    requires RoundReady(S, g, rank, root, blocks) && Marks(S, m, R) && i < |blocks|
    ensures i < j <= |blocks|
    ensures j < |blocks| ==> blocks[j] in R && blocks[i] in g && blocks[j] in g && Same(g[blocks[i]], g[blocks[j]])
    ensures j == |blocks| ==> forall k {:trigger blocks[k]} :: i < k < |blocks| && blocks[k] in R ==>
              blocks[i] in g && blocks[k] in g && !Same(g[blocks[i]], g[blocks[k]])
  {
    assert blocks[i] in S && g[blocks[i]] == NodeOf(blocks[i]);
    hide Same, Dag;
    j := i + 1;
    while j < |blocks|
      invariant i < j <= |blocks|
      invariant forall k {:trigger blocks[k]} :: i < k < j && blocks[k] in R ==>
          blocks[k] in g && !Same(g[blocks[i]], g[blocks[k]])
    {
      assert blocks[j] in S && g[blocks[j]] == NodeOf(blocks[j]);
      if blocks[j].mark == m {
        var eq := EqBlk(blocks[i], blocks[j]);
        if eq {
          return;
        }
      }
      j := j + 1;
    }
  }

  method SetLink(b: Block, r: Block?, ghost m: nat, ghost S: set<Block>, ghost g: Graph, ghost rank: map<Block, nat>,
                 ghost root: Block, ghost blocks: seq<Block>, ghost R: set<Block>)
    requires b in S && RoundReady(S, g, rank, root, blocks) && Marks(S, m, R)
    modifies b`link
    ensures RoundReady(S, g, rank, root, blocks) && Marks(S, m, R)
    ensures LinksOf(S) == if r == null then old(LinksOf(S)) - {b} else old(LinksOf(S))[b := r]
  {
    hide *;
    LinksAre(S, LinksOf(S));
    ghost var links := LinksOf(S);
    b.link := r;
    LinksNext(S, links, b);
  }

  lemma LinksAre(S: set<Block>, links: map<Block, Block>)
    requires links == LinksOf(S)
    ensures links.Keys <= S
    ensures forall x {:trigger x in links} :: x in S ==>
              (x in links <==> x.link != null) && (x in links ==> links[x] == x.link)
  {
  }

  lemma LinksNext(S: set<Block>, links: map<Block, Block>, b: Block)
    requires b in S && links.Keys <= S
    requires forall x {:trigger x in links} :: x in S && x != b ==>
               (x in links <==> x.link != null) && (x in links ==> links[x] == x.link)
    ensures LinksOf(S) == if b.link == null then links - {b} else links[b := b.link]
  {
    var next := if b.link == null then links - {b} else links[b := b.link];
    forall x | x in S
      ensures x in LinksOf(S) <==> x in next
      ensures x in next ==> LinksOf(S)[x] == next[x]
    {
      assert x != b ==> (x in links <==> x.link != null);
    }
    assert LinksOf(S).Keys == next.Keys;
  }

  /** Linking block `i` to its twin `j`, or to what that is linked to. */
  lemma LinkStep(g: Graph, R: set<Block>, blocks: seq<Block>, links: map<Block, Block>, i: nat, j: nat)
    requires forall k, l :: 0 <= k < l < |blocks| ==> blocks[k] != blocks[l]
    requires LinkInv(g, R, blocks, links, i + 1) && i < j < |blocks| && blocks[i] in R && blocks[j] in R
    requires Same(g[blocks[i]], g[blocks[j]])
    ensures var r := if blocks[j] in links then links[blocks[j]] else blocks[j];
            LinkInv(g, R, blocks, links[blocks[i] := r], i)
  {
    var b, r := blocks[i], if blocks[j] in links then links[blocks[j]] else blocks[j];
    var links1 := links[b := r];
    if blocks[j] in links {
      assert LinkOk(g, R, links, blocks[j]);
      assert r in links.Values;
    }
    assert b !in links && b !in links.Values && r != b && r !in links && r in R && Same(g[b], g[r]);
    forall x {:trigger links1[x]} | x in links1
      ensures x in R && LinkOk(g, R, links1, x)
    {
      if x != b {
        assert LinkOk(g, R, links, x);
        assert links[x] in links.Values;
      }
    }
    forall k {:trigger blocks[k]} | 0 <= k < |blocks| && k < i
      ensures blocks[k] !in links1 && blocks[k] !in links1.Values
    {
      assert blocks[k] != b && blocks[k] !in links && blocks[k] !in links.Values;
      if blocks[j] !in links {
        assert blocks[k] != blocks[j];
      }
    }
  }

  /** Block `i` has no twin. */
  lemma NoLinkStep(g: Graph, R: set<Block>, blocks: seq<Block>, links: map<Block, Block>, i: nat)
    requires LinkInv(g, R, blocks, links, i + 1) && i < |blocks|
    requires blocks[i] in R ==> forall k {:trigger blocks[k]} :: i < k < |blocks| && blocks[k] in R ==>
        !Same(g[blocks[i]], g[blocks[k]])
    ensures LinkInv(g, R, blocks, links, i)
  {
  }

  /** The links of the blocks, from the last but one down. */
  method LinkTwins(blocks: seq<Block>, m: nat, ghost S: set<Block>, ghost g: Graph, ghost rank: map<Block, nat>,
                   ghost root: Block, ghost R: set<Block>)
    requires RoundReady(S, g, rank, root, blocks) && Marks(S, m, R) && R <= g.Keys && LinksOf(S) == map[]
    requires blocks != []
    modifies S`link
    ensures RoundReady(S, g, rank, root, blocks) && Links(g, R, LinksOf(S)) && Complete(g, R, blocks, LinksOf(S))
  {
    NoLinks(g, R, blocks, S);
    hide LinkInv, Dag, Marks, Same, GraphOf, LinksOf;
    for i := |blocks| - 1 downto 0
      invariant RoundReady(S, g, rank, root, blocks) && Marks(S, m, R) && LinkInv(g, R, blocks, LinksOf(S), i)
    {
      LinkOne(i, blocks, m, S, g, rank, root, R);
    }
    AllLinked(g, R, blocks, S);
  }

  lemma NoLinks(g: Graph, R: set<Block>, blocks: seq<Block>, S: set<Block>)
    requires R <= g.Keys && LinksOf(S) == map[] && blocks != []
    ensures LinkInv(g, R, blocks, LinksOf(S), |blocks| - 1)
  {
  }

  lemma AllLinked(g: Graph, R: set<Block>, blocks: seq<Block>, S: set<Block>)
    requires LinkInv(g, R, blocks, LinksOf(S), 0)
    ensures Links(g, R, LinksOf(S)) && Complete(g, R, blocks, LinksOf(S))
  {
  }

  method LinkOne(i: nat, blocks: seq<Block>, m: nat, ghost S: set<Block>, ghost g: Graph, ghost rank: map<Block, nat>,
                 ghost root: Block, ghost R: set<Block>)
    requires RoundReady(S, g, rank, root, blocks) && Marks(S, m, R) && R <= g.Keys && i < |blocks|
    requires LinkInv(g, R, blocks, LinksOf(S), i + 1)
    modifies S`link
    ensures RoundReady(S, g, rank, root, blocks) && Marks(S, m, R) && LinkInv(g, R, blocks, LinksOf(S), i)
  {
    var b := blocks[i];
    ghost var links := LinksOf(S);
    assert b in S && (b.mark == m <==> b in R);
    if b.mark != m {
      NoLinkStep(g, R, blocks, links, i);
      return;
    }
    var j := FindTwin(i, blocks, m, S, g, rank, root, R);
    if j == |blocks| {
      NoLinkStep(g, R, blocks, links, i);
      return;
    }
    var c := blocks[j];
    assert c in S && (c in links <==> c.link != null) && (c in links ==> links[c] == c.link);
    LinkStep(g, R, blocks, links, i, j);
    hide *;
    SetLink(b, if c.link != null then c.link else c, m, S, g, rank, root, blocks, R);
  }

  /** All links cleared. */
  method ClearLinks(blocks: seq<Block>, ghost S: set<Block>, ghost g: Graph, ghost rank: map<Block, nat>,
                    ghost root: Block)
    requires RoundReady(S, g, rank, root, blocks)
    modifies S`link
    ensures RoundReady(S, g, rank, root, blocks) && LinksOf(S) == map[]
  {
    forall i | 0 <= i < |blocks| {
      blocks[i].link := null;
    }
    assert forall b :: b in S ==> b.link == null;
  }

  // ----- The edges -----

  /** The graph when the edges of the first `i` blocks have been replaced. */
  ghost function PartShared(g: Graph, links: map<Block, Block>, blocks: seq<Block>, i: nat): Graph
    requires i <= |blocks|
  {
    map b | b in g :: if b in blocks[..i] then Relinked(g[b], links) else g[b]
  }

  lemma PartStart(g: Graph, links: map<Block, Block>, blocks: seq<Block>)
    ensures PartShared(g, links, blocks, 0) == g
  {
  }

  lemma PartEnd(g: Graph, links: map<Block, Block>, blocks: seq<Block>)
    requires forall b :: b in g ==> b in blocks
    ensures PartShared(g, links, blocks, |blocks|) == Shared(g, links)
  {
    assert blocks[..|blocks|] == blocks;
  }

  lemma PartStep(g: Graph, links: map<Block, Block>, blocks: seq<Block>, i: nat)
    requires i < |blocks| && blocks[i] in g && forall k, l :: 0 <= k < l < |blocks| ==> blocks[k] != blocks[l]
    ensures PartShared(g, links, blocks, i)[blocks[i]] == g[blocks[i]]
    ensures PartShared(g, links, blocks, i + 1)
        == PartShared(g, links, blocks, i)[blocks[i] := Relinked(g[blocks[i]], links)]
  {
    assert blocks[..i + 1] == blocks[..i] + [blocks[i]];
  }

  /** The edges of one block; `same` when neither is replaced. */
  method RelinkBlock(p: Block, ghost S: set<Block>, ghost g: Graph, ghost links: map<Block, Block>) returns (same: bool)
    requires p in S && links == LinksOf(S) && g.Keys == S && GraphOf(S)[p] == g[p]
    requires forall x :: x in links ==> links[x] != x
    requires (p.jt != null ==> p.jf != null && p.jt in S && p.jf in S) && (p.jt == null ==> p.jf == null)
    modifies p`jt, p`jf
    ensures GraphOf(S) == old(GraphOf(S))[p := Relinked(g[p], links)] && LinksOf(S) == links
    ensures same <==> Relinked(g[p], links) == g[p]
  {
    hide *;
    same := true;
    ghost var g0 := GraphOf(S);
    GraphIs(S);
    RelinkIs(S, g, links, p);
    if p.jt == null {
      GraphNext(S, p, g0);
      return;
    }
    if p.jt.link != null {
      same := false;
      p.jt := p.jt.link;
    }
    if p.jf.link != null {
      same := false;
      p.jf := p.jf.link;
    }
    NodeIs(p);
    GraphNext(S, p, g0);
  }

  lemma NodeIs(p: Block)
    ensures NodeOf(p) == Node(p.stmts, p.s, p.jt, p.jf)
  {
  }

  lemma RelinkIs(S: set<Block>, g: Graph, links: map<Block, Block>, p: Block)
    requires p in S && links == LinksOf(S) && g.Keys == S && GraphOf(S)[p] == g[p]
    requires forall x :: x in links ==> links[x] != x
    requires (p.jt != null ==> p.jf != null && p.jt in S && p.jf in S) && (p.jt == null ==> p.jf == null)
    ensures p.jt == null ==> Relinked(g[p], links) == g[p] == NodeOf(p)
    ensures p.jt != null ==>
              var t, f := if p.jt.link != null then p.jt.link else p.jt, if p.jf.link != null then p.jf.link else p.jf;
              Relinked(g[p], links) == Node(p.stmts, p.s, t, f)
              && (Relinked(g[p], links) == g[p] <==> p.jt.link == null && p.jf.link == null)
  {
    assert g[p] == NodeOf(p);
    if p.jt != null {
      assert p.jt in links <==> p.jt.link != null;
      assert p.jf in links <==> p.jf.link != null;
    }
  }

  /** The first `i` blocks are what they were. */
  ghost predicate Unchanged(g: Graph, links: map<Block, Block>, blocks: seq<Block>, i: nat) {
    forall k {:trigger blocks[k]} :: 0 <= k < i && k < |blocks| && blocks[k] in g ==>
        Relinked(g[blocks[k]], links) == g[blocks[k]]
  }

  method RelinkNext(i: nat, blocks: seq<Block>, ghost S: set<Block>, ghost g: Graph, ghost rank: map<Block, nat>,
                    ghost R: set<Block>, ghost links: map<Block, Block>)
      returns (same: bool)
    requires Dag(g, rank) && g.Keys == S && Numbered(S, blocks) && Links(g, R, links) && i < |blocks|
    requires GraphOf(S) == PartShared(g, links, blocks, i) && LinksOf(S) == links
    modifies S`jt, S`jf
    ensures GraphOf(S) == PartShared(g, links, blocks, i + 1) && LinksOf(S) == links
    ensures same ==> Unchanged(g, links, blocks, i) ==> Unchanged(g, links, blocks, i + 1)
    ensures !same ==> !Unchanged(g, links, blocks, i + 1)
  {
    var p := blocks[i];
    PartStep(g, links, blocks, i);
    assert DagNode(g, rank, p);
    assert GraphOf(S)[p] == NodeOf(p) == g[p];
    NoSelf(g, R, links);
    hide Dag, Links, PartShared, GraphOf, LinksOf, Numbered, Relinked;
    same := RelinkBlock(p, S, g, links);
  }

  lemma NoSelf(g: Graph, R: set<Block>, links: map<Block, Block>)
    requires Links(g, R, links)
    ensures forall x :: x in links ==> links[x] != x
  {
    forall x | x in links
      ensures links[x] != x
    {
      assert LinkOk(g, R, links, x);
    }
  }

  /** The second loop of a round. */
  method RelinkAll(blocks: seq<Block>, ghost S: set<Block>, ghost g: Graph, ghost rank: map<Block, nat>,
                   ghost root: Block, ghost R: set<Block>, ghost links: map<Block, Block>)
      returns (done: bool)
    requires RoundReady(S, g, rank, root, blocks) && Links(g, R, links) && LinksOf(S) == links
    modifies S`jt, S`jf
    ensures GraphOf(S) == Shared(g, links) && (done <==> Shared(g, links) == g)
  {
    PartStart(g, links, blocks);
    PartEnd(g, links, blocks);
    SharedSame(g, links, blocks);
    assert g.Keys == S && Numbered(S, blocks) && Unchanged(g, links, blocks, 0);
    hide *;
    done := true;
    for i := 0 to |blocks|
      invariant GraphOf(S) == PartShared(g, links, blocks, i) && LinksOf(S) == links
      invariant done ==> Unchanged(g, links, blocks, i)
      invariant !done ==> !Unchanged(g, links, blocks, i)
    {
      ghost var before := done;
      var same := RelinkNext(i, blocks, S, g, rank, R, links);
      done := done && same;
      if !before {
        StillChanged(g, links, blocks, i);
      }
    }
  }

  lemma StillChanged(g: Graph, links: map<Block, Block>, blocks: seq<Block>, i: nat)
    requires !Unchanged(g, links, blocks, i)
    ensures !Unchanged(g, links, blocks, i + 1)
  {
  }

  lemma SharedSame(g: Graph, links: map<Block, Block>, blocks: seq<Block>)
    requires forall b :: b in g ==> b in blocks
    ensures Unchanged(g, links, blocks, |blocks|) <==> Shared(g, links) == g
  {
    if Unchanged(g, links, blocks, |blocks|) {
      forall b | b in g
        ensures Shared(g, links)[b] == g[b]
      {
        var k :| 0 <= k < |blocks| && blocks[k] == b;
      }
    } else {
      var k :| 0 <= k < |blocks| && blocks[k] in g && Relinked(g[blocks[k]], links) != g[blocks[k]];
      assert Shared(g, links)[blocks[k]] != g[blocks[k]];
    }
  }

  // ----- Rounds until nothing changes -----

  /** Every block of `g` runs as it did in `g0`. */
  ghost predicate SameRuns(g0: Graph, g: Graph) {
    forall b, st, p, fuel: nat {:trigger Run(g0, b, st, p, fuel)} :: b in g0 ==>
        Run(g, b, st, p, fuel) == Run(g0, b, st, p, fuel)
  }

  lemma RoundRuns(g0: Graph, g: Graph, rank: map<Block, nat>, R: set<Block>, links: map<Block, Block>)
    requires SameRuns(g0, g) && g0.Keys == g.Keys && Dag(g, rank) && Links(g, R, links)
    ensures SameRuns(g0, Shared(g, links))
  {
    forall b, st, p, fuel: nat {:trigger Run(g0, b, st, p, fuel)} | b in g0
      ensures Run(Shared(g, links), b, st, p, fuel) == Run(g0, b, st, p, fuel)
    {
      SharedRun(g, rank, R, links, b, st, p, fuel);
    }
  }

  class Interner {
    var curMark: nat

    /** One round. */
    method Round(root: Block, blocks: seq<Block>, ghost S: set<Block>, ghost g: Graph, ghost rank: map<Block, nat>)
        returns (done: bool, ghost links: map<Block, Block>)
      requires RoundReady(S, g, rank, root, blocks) && MarksBelow(S, curMark)
      modifies this, S`link, S`mark, S`jt, S`jf
      ensures MarksBelow(S, curMark) && Dag(g, rank) && root in g && GraphOf(S) == Shared(g, links)
      ensures Links(g, Reach(g, rank, root), links) && Complete(g, Reach(g, rank, root), blocks, links)
      ensures done <==> Shared(g, links) == g
    {
      assert blocks != [] && root in g;
      ClearLinks(blocks, S, g, rank, root);
      FreshMark(S, curMark);
      curMark := curMark + 1;
      assert Ready(g, rank, {}, root) && {} + Reach(g, rank, root) == Reach(g, rank, root);
      MakeMarks(root, curMark, S, g, rank, root, blocks, {});
      ghost var R := Reach(g, rank, root);
      LinkTwins(blocks, curMark, S, g, rank, root, R);
      links := LinksOf(S);
      done := RelinkAll(blocks, S, g, rank, root, R, links);
    }

    /** intern_blocks. Every run is kept exactly; the graph stays acyclic; in the end no two different
        reachable blocks are equal. Each repeated round makes a block unreachable. */
    method InternBlocks(root: Block, blocks: seq<Block>, ghost S: set<Block>, ghost g0: Graph,
                        ghost rank0: map<Block, nat>)
        returns (ghost g: Graph, ghost rank: map<Block, nat>)
      requires RoundReady(S, g0, rank0, root, blocks) && MarksBelow(S, curMark)
      modifies this, S`link, S`mark, S`jt, S`jf
      ensures RoundReady(S, g, rank, root, blocks) && SameRuns(g0, g) && NoTwins(g, Reach(g, rank, root))
    {
      g, rank := g0, rank0;
      while true
        invariant RoundReady(S, g, rank, root, blocks) && MarksBelow(S, curMark) && SameRuns(g0, g) && g.Keys == g0.Keys
        decreases Reach(g, rank, root)
      {
        var done;
        ghost var links;
        done, links := Round(root, blocks, S, g, rank);
        RoundRuns(g0, g, rank, Reach(g, rank, root), links);
        if done {
          SharedAll(g, rank, root, blocks, links);
          return;
        }
        SharedShrinks(g, rank, root, links);
        g, rank := Shared(g, links), LevelRank(g, rank);
      }
    }
  }
}
