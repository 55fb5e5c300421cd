/** Walking the block graph under marks: count_stmts, and the order in which convert_code_r
    visits and places blocks. */
module AsmWalk {
  import opened Bpf
  import opened Cfg
  import opened LiveStmts
  import opened BlockSums
  import opened DepthFirst
  import opened AsmSpec
  import opened AsmLayout

  // ----- Snapshots of the fields this pass writes -----

  ghost function LongsOf(S: set<Block>): (r: map<Block, Long>)
    reads S`longjt, S`longjf
    ensures r.Keys == S
  {
    map b | b in S :: Long(b.longjt, b.longjf)
  }

  ghost function OffsOf(S: set<Block>): (r: map<Block, nat>)
    reads S`offset
    ensures r.Keys == S
  {
    map b | b in S :: b.offset
  }

  method SLength(ss: seq<Stmt>) returns (n: nat)
    ensures n == |Live(ss)|
  {
    n := 0;
    for i := 0 to |ss|
      invariant n == |Live(ss[..i])|
    {
      assert ss[..i + 1] == ss[..i] + [ss[i]];
      LiveSnoc(ss[..i], ss[i]);
      if ss[i].code != Nop {
        n := n + 1;
      }
    }
    assert ss[..|ss|] == ss;
  }

  lemma WalkSum(g: Graph, rank: map<Block, nat>, b: Block, c1: Block?, c2: Block?, seen: set<Block>,
                lens: map<Block, nat>)
    requires Dag(g, rank) && b !in seen && b in g && g.Keys == lens.Keys
    requires (c1 == g[b].jt && c2 == g[b].jf) || (c1 == g[b].jf && c2 == g[b].jt)
    requires (c1 == null || c1 in g) && Height(rank, c1) < Height(rank, b)
    requires (c2 == null || c2 in g) && Height(rank, c2) < Height(rank, b)
    ensures SetLen(Reach(g, rank, b) - seen, lens)
         == lens[b] + SetLen(ReachFrom(g, rank, c1) - (seen + {b}), lens)
            + SetLen(ReachFrom(g, rank, c2) - (seen + {b} + ReachFrom(g, rank, c1)), lens)
  {
    assert DagNode(g, rank, b);
    if c1 != null {
      ReachBelow(g, rank, c1);
      ReachBelow(g, rank, c2);
    }
    var all := Reach(g, rank, b) - seen;
    var s1 := ReachFrom(g, rank, c1) - (seen + {b});
    var s2 := ReachFrom(g, rank, c2) - (seen + {b} + ReachFrom(g, rank, c1));
    SetLenRemove(all, lens, b);
    assert all - {b} == s1 + s2;
    SetLenUnion(s1, s2, lens);
  }

  /** What a walk over the blocks of `S` may rely on while it only touches marks. */
  ghost predicate Snapshot(S: set<Block>, g: Graph, rank: map<Block, nat>, longs: map<Block, Long>)
    reads S`stmts, S`s, S`jt, S`jf, S`longjt, S`longjf
    ensures Snapshot(S, g, rank, longs) ==> Dag(g, rank) && g.Keys == longs.Keys
  {
    g == GraphOf(S) && longs == LongsOf(S) && Dag(g, rank)
  }

  method Mark(b: Block, m: nat, ghost S: set<Block>, ghost g: Graph, ghost rank: map<Block, nat>,
              ghost longs: map<Block, Long>, ghost seen: set<Block>)
    requires b in S && Marks(S, m, seen) && Snapshot(S, g, rank, longs)
    modifies b`mark
    ensures Marks(S, m, seen + {b}) && Snapshot(S, g, rank, longs)
  {
    b.mark := m;
  }

  /** The number of instructions of the blocks reachable from `p` and not yet marked. */
  method CountStmts(p: Block?, m: nat, ghost S: set<Block>, ghost g: Graph, ghost rank: map<Block, nat>,
                    ghost longs: map<Block, Long>, ghost seen: set<Block>)
      returns (n: nat)
    requires Snapshot(S, g, rank, longs) && Marks(S, m, seen) && Ready(g, rank, seen, p)
    modifies S`mark
    ensures Marks(S, m, seen + ReachFrom(g, rank, p)) && Snapshot(S, g, rank, longs)
    ensures n == SetLen(ReachFrom(g, rank, p) - seen, Lens(g, longs))
    decreases Height(rank, p), 1
  {
    if p == null {
      assert seen + {} == seen;
      return 0;
    }
    if p.mark == m {
      WalkDone(g, rank, p, seen);
      return 0;
    }
    n := CountUnmarked(p, m, S, g, rank, longs, seen);
  }

  method CountUnmarked(p: Block, m: nat, ghost S: set<Block>, ghost g: Graph, ghost rank: map<Block, nat>,
                       ghost longs: map<Block, Long>, ghost seen: set<Block>)
      returns (n: nat)
    requires Snapshot(S, g, rank, longs) && Marks(S, m, seen) && Ready(g, rank, seen, p)
    requires p in g && p !in seen
    modifies S`mark
    ensures Marks(S, m, seen + Reach(g, rank, p)) && Snapshot(S, g, rank, longs)
    ensures n == SetLen(Reach(g, rank, p) - seen, Lens(g, longs))
    decreases Height(rank, p), 0
  {
    var t, f, ss, long := p.jt, p.jf, p.stmts, p.longjt + p.longjf;
    assert g[p] == NodeOf(p) && g[p].jt == t && g[p].jf == f;
    ghost var lens := Lens(g, longs);
    assert lens[p] == |Live(ss)| + 1 + long;
    assert p in S;
    hide *;
    WalkStep(g, rank, p, t, f, seen);
    Mark(p, m, S, g, rank, longs, seen);
    var nt := CountStmts(t, m, S, g, rank, longs, seen + {p});
    var nf := CountStmts(f, m, S, g, rank, longs, seen + {p} + ReachFrom(g, rank, t));
    var slen := SLength(ss);
    WalkSum(g, rank, p, t, f, seen, lens);
    n := slen + nt + nf + 1 + long;
  }

  // ----- The order of placement, one block at a time -----

  ghost function OrderFrom(g: Graph, rank: map<Block, nat>, b: Block?, seen: set<Block>): seq<Block>
    requires Dag(g, rank) && (b == null || b in g)
  {
    if b == null then [] else PlaceOrder(g, rank, b, seen)
  }

  /** Marked blocks not above `b` have been placed. */
  ghost predicate Settled(rank: map<Block, nat>, seen: set<Block>, placed: seq<Block>, b: Block?) {
    && (forall q :: q in placed ==> q in seen)
    && (forall q :: q in seen ==> q in placed || Height(rank, q) > Height(rank, b))
  }

  lemma OrderStep(g: Graph, rank: map<Block, nat>, b: Block, seen: set<Block>)
    requires Dag(g, rank) && Ready(g, rank, seen, b) && b !in seen && b in g
    ensures (g[b].jt == null || g[b].jt in g) && (g[b].jf == null || g[b].jf in g)
    ensures PlaceOrder(g, rank, b, seen)
         == OrderFrom(g, rank, g[b].jf, seen + {b}) + OrderFrom(g, rank, g[b].jt,
             seen + {b} + ReachFrom(g, rank, g[b].jf)) + [b]
  {
    assert DagNode(g, rank, b);
    if g[b].jt != null {
      var o1 := PlaceOrder(g, rank, g[b].jf, seen + {b});
      PlaceOrderReach(g, rank, g[b].jf, seen + {b});
      assert seen + {b} + Members(o1) == seen + {b} + Reach(g, rank, g[b].jf);
    }
  }

  /** Visiting `c` settles it: its order adds what its reach adds to the marks. */
  lemma SettledStep(g: Graph, rank: map<Block, nat>, c: Block?, c2: Block?, seen: set<Block>, placed: seq<Block>)
    requires Dag(g, rank) && (c == null || c in g) && Ready(g, rank, seen, c)
    requires Settled(rank, seen, placed, c) && Settled(rank, seen, placed, c2)
    ensures Settled(rank, seen + ReachFrom(g, rank, c), placed + OrderFrom(g, rank, c, seen), c2)
    ensures c != null ==> c in placed + OrderFrom(g, rank, c, seen)
    ensures forall q :: q in OrderFrom(g, rank, c, seen) ==> q !in seen
  {
    hide *;
    var o := OrderFrom(g, rank, c, seen);
    OrderMembers(g, rank, c, seen);
    SettledMore(rank, seen, placed, ReachFrom(g, rank, c), o, c2);
    if c != null {
      SettledIn(rank, seen, placed, c);
    }
  }

  lemma SettledMore(rank: map<Block, nat>, seen: set<Block>, placed: seq<Block>, R: set<Block>, o: seq<Block>,
                    c2: Block?)
    requires Settled(rank, seen, placed, c2) && forall q :: q in o <==> q in R && q !in seen
    ensures Settled(rank, seen + R, placed + o, c2)
  {
    hide Height;
    forall q | q in placed + o
      ensures q in seen + R
    {
      assert q in placed || q in o;
    }
    forall q | q in seen + R
      ensures q in placed + o || Height(rank, q) > Height(rank, c2)
    {
      assert q in seen || q in o;
    }
  }

  lemma SettledIn(rank: map<Block, nat>, seen: set<Block>, placed: seq<Block>, c: Block)
    requires Settled(rank, seen, placed, c)
    ensures c in seen ==> c in placed
  {
  }

  /** The order adds exactly the blocks that were not marked. */
  lemma OrderMembers(g: Graph, rank: map<Block, nat>, c: Block?, seen: set<Block>)
    requires Dag(g, rank) && (c == null || c in g) && Ready(g, rank, seen, c)
    ensures forall q :: q in OrderFrom(g, rank, c, seen) <==> q in ReachFrom(g, rank, c) && q !in seen
    ensures c != null ==> c in ReachFrom(g, rank, c)
  {
    var o := OrderFrom(g, rank, c, seen);
    if c != null {
      PlaceOrderReach(g, rank, c, seen);
      assert Members(o) == ReachFrom(g, rank, c) - seen;
      assert c in Reach(g, rank, c);
      hide OrderFrom, PlaceOrder, ReachFrom, Reach;
      forall q
        ensures q in o <==> q in ReachFrom(g, rank, c) && q !in seen
      {
        assert q in o <==> q in Members(o);
      }
    }
  }

  /** Everything convert_code_r relies on when it visits an unmarked block: the false side first,
      then the true side, then the block itself. */
  lemma VisitStep(g: Graph, rank: map<Block, nat>, b: Block, t: Block?, f: Block?, seen: set<Block>, placed: seq<Block>)
    requires Dag(g, rank) && Ready(g, rank, seen, b) && b !in seen && b in g && Settled(rank, seen, placed, b)
    requires t == g[b].jt && f == g[b].jf
    ensures (t == null || t in g) && (f == null || f in g) && Height(rank, t) < Height(rank, b)
    ensures Height(rank, f) < Height(rank, b)
    ensures var s1 := seen + {b};
            var o1 := OrderFrom(g, rank, f, s1);
            var s2 := s1 + ReachFrom(g, rank, f);
            var o2 := OrderFrom(g, rank, t, s2);
            && Ready(g, rank, s1, f) && Settled(rank, s1, placed, f)
            && Ready(g, rank, s2, t) && Settled(rank, s2, placed + o1, t)
            && seen + Reach(g, rank, b) == s2 + ReachFrom(g, rank, t)
            && PlaceOrder(g, rank, b, seen) == o1 + o2 + [b]
            && b !in placed + o1 + o2
            && (t != null ==> f != null && t in placed + o1 + o2 && f in placed + o1 + o2)
  {
    hide Reach, PlaceOrder, ReachFrom, OrderFrom, Ready;
    assert (t == null) == (f == null) by {
      assert DagNode(g, rank, b);
    }
    WalkStep(g, rank, b, f, t, seen);
    OrderStep(g, rank, b, seen);
    var s1 := seen + {b};
    var s2 := s1 + ReachFrom(g, rank, f);
    SettledStep(g, rank, f, t, s1, placed);
    SettledStep(g, rank, t, null, s2, placed + OrderFrom(g, rank, f, s1));
  }

  /** Room for a whole order is room for its parts. */
  lemma Room(placed: seq<Block>, o1: seq<Block>, o2: seq<Block>, b: Block, lens: map<Block, nat>, n: nat)
    requires Members(placed + (o1 + o2 + [b])) <= lens.Keys && LenSum(placed + (o1 + o2 + [b]), lens) <= n
    ensures Members(placed + o1) <= lens.Keys && LenSum(placed + o1, lens) <= n
    ensures Members(placed + o1 + o2) <= lens.Keys && LenSum(placed + o1 + o2, lens) <= n
    ensures b in lens && LenSum(placed + o1 + o2, lens) + lens[b] <= n
    ensures placed + (o1 + o2 + [b]) == placed + o1 + o2 + [b]
    ensures placed + o1 + o2 + [b] == placed + o1 + (o2 + [b])
  {
    assert placed + (o1 + o2 + [b]) == placed + o1 + o2 + [b];
    assert placed + o1 + o2 + [b] == placed + o1 + (o2 + [b]);
    LenSumConcat(placed + o1 + o2, [b], lens);
    assert b in [b] && LenSum([b], lens) == lens[b];
    LenSumConcat(placed + o1, o2, lens);
  }
}
