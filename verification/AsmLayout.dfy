/** Where blocks land: the order in which convert_code_r places them, from the end of the
    array towards its start, and the distances that follow. */
module AsmLayout {
  import opened Bpf
  import opened Cfg
  import opened LiveStmts
  import opened BlockSums
  import opened DepthFirst
  import opened AsmSpec

  ghost function Members(o: seq<Block>): set<Block> {
    set b | b in o
  }

  ghost predicate Distinct(o: seq<Block>) {
    forall i, j :: 0 <= i < j < |o| ==> o[i] != o[j]
  }

  /** The blocks placed by a call on `b` when those of `seen` are already marked. */
  ghost function PlaceOrder(g: Graph, rank: map<Block, nat>, b: Block, seen: set<Block>): seq<Block>
    requires Dag(g, rank) && b in g
    decreases rank[b]
  {
    assert DagNode(g, rank, b);
    if b in seen then []
    else if g[b].jt == null then [b]
    else
      var o1 := PlaceOrder(g, rank, g[b].jf, seen + {b});
      var o2 := PlaceOrder(g, rank, g[b].jt, seen + {b} + Members(o1));
      o1 + o2 + [b]
  }

  lemma MembersConcat(a: seq<Block>, b: seq<Block>)
    ensures Members(a + b) == Members(a) + Members(b)
  {
  }

  lemma DistinctConcat(a: seq<Block>, b: seq<Block>)
    requires Distinct(a) && Distinct(b) && Members(a) !! Members(b)
    ensures Distinct(a + b)
  {
    forall i, j | 0 <= i < j < |a + b|
      ensures (a + b)[i] != (a + b)[j]
    {
      if i < |a| <= j {
        assert a[i] in Members(a) && b[j - |a|] in Members(b);
      }
    }
  }

  /** The call places exactly the blocks reachable from `b` that were not marked, each once. */
  lemma {:induction false} PlaceOrderReach(g: Graph, rank: map<Block, nat>, b: Block, seen: set<Block>)
    requires Dag(g, rank) && b in g && ClosedBelow(g, rank, seen, rank[b])
    ensures Members(PlaceOrder(g, rank, b, seen)) == Reach(g, rank, b) - seen
    ensures Distinct(PlaceOrder(g, rank, b, seen))
    decreases rank[b]
  {
    assert DagNode(g, rank, b);
    if b in seen {
      ReachInClosed(g, rank, seen, b);
    } else if g[b].jt != null {
      ReachBelow(g, rank, g[b].jt);
      ReachBelow(g, rank, g[b].jf);
      var seen1 := seen + {b};
      var o1 := PlaceOrder(g, rank, g[b].jf, seen1);
      PlaceOrderReach(g, rank, g[b].jf, seen1);
      SeenClosed(g, rank, b, g[b].jf, seen, rank[g[b].jt]);
      var seen2 := seen1 + Members(o1);
      assert seen2 == seen1 + Reach(g, rank, g[b].jf);
      var o2 := PlaceOrder(g, rank, g[b].jt, seen2);
      PlaceOrderReach(g, rank, g[b].jt, seen2);
      MembersConcat(o1, o2);
      DistinctConcat(o1, o2);
      MembersConcat(o1 + o2, [b]);
      DistinctConcat(o1 + o2, [b]);
    } else {
      assert Members([b]) == {b};
    }
  }

  // ----- Lengths -----

  ghost function Lens(g: Graph, longs: map<Block, Long>): (r: map<Block, nat>)
    requires g.Keys == longs.Keys
    ensures r.Keys == g.Keys
  {
    map b | b in g :: Len(g[b], longs[b])
  }

  ghost function LenSum(o: seq<Block>, lens: map<Block, nat>): nat
    requires Members(o) <= lens.Keys
  {
    if o == [] then 0
    else
      assert o[|o| - 1] in Members(o);
      assert Members(o[..|o| - 1]) <= Members(o);
      LenSum(o[..|o| - 1], lens) + lens[o[|o| - 1]]
  }

  lemma {:induction false} LenSumConcat(a: seq<Block>, b: seq<Block>, lens: map<Block, nat>)
    requires Members(a + b) <= lens.Keys
    ensures Members(a) <= lens.Keys && Members(b) <= lens.Keys
    ensures LenSum(a + b, lens) == LenSum(a, lens) + LenSum(b, lens)
    decreases |b|
  {
    MembersConcat(a, b);
    if b == [] {
      assert a + b == a;
    } else {
      var b' := b[..|b| - 1];
      assert (a + b)[..|a + b| - 1] == a + b';
      assert Members(a + b') <= Members(a + b);
      LenSumConcat(a, b', lens);
    }
  }

  lemma {:induction false} LenSumIsSetLen(o: seq<Block>, lens: map<Block, nat>)
    requires Members(o) <= lens.Keys && Distinct(o)
    ensures LenSum(o, lens) == SetLen(Members(o), lens)
    decreases |o|
  {
    if o != [] {
      var o', x := o[..|o| - 1], o[|o| - 1];
      assert o == o' + [x];
      MembersConcat(o', [x]);
      assert x in Members(o) && x !in Members(o');
      assert Members(o) - {x} == Members(o');
      SetLenRemove(Members(o), lens, x);
      LenSumIsSetLen(o', lens);
    }
  }

  // ----- Distances -----

  /** How far the code of `c` starts before the end of the array. */
  ghost function FromEnd(o: seq<Block>, lens: map<Block, nat>, c: Block): (r: nat)
    requires Members(o) <= lens.Keys && c in o
    ensures r <= LenSum(o, lens)
  {
    assert o[|o| - 1] in Members(o);
    assert Members(o[..|o| - 1]) <= Members(o);
    if o[|o| - 1] == c then LenSum(o, lens)
    else
      assert c in o[..|o| - 1];
      FromEnd(o[..|o| - 1], lens, c)
  }

  /** The space between the start of the placed code and the code of `c`. */
  ghost function Gap(o: seq<Block>, lens: map<Block, nat>, c: Block): nat
    requires Members(o) <= lens.Keys && c in o
  {
    LenSum(o, lens) - FromEnd(o, lens, c)
  }

  lemma {:induction false} GapGrows(o: seq<Block>, lens: map<Block, nat>, lens': map<Block, nat>, c: Block)
    requires Members(o) <= lens.Keys && Members(o) <= lens'.Keys && c in o
    requires forall b :: b in o ==> lens[b] <= lens'[b]
    ensures Gap(o, lens, c) <= Gap(o, lens', c)
    decreases |o|
  {
    assert Members(o[..|o| - 1]) <= Members(o);
    if o[|o| - 1] != c {
      assert c in o[..|o| - 1];
      GapGrows(o[..|o| - 1], lens, lens', c);
    }
  }

  lemma FromEndSnoc(o: seq<Block>, lens: map<Block, nat>, x: Block, c: Block)
    requires Members(o + [x]) <= lens.Keys && c in o && x != c
    ensures Members(o) <= lens.Keys && FromEnd(o + [x], lens, c) == FromEnd(o, lens, c)
  {
    assert (o + [x])[..|o + [x]| - 1] == o;
    assert Members(o) <= Members(o + [x]);
  }

  // ----- The state of a layout in progress -----

  /** Everything below `ftail` is still zeroed; everything above is the code of `placed`. */
  ghost predicate LaidOut(g: Graph, longs: map<Block, Long>, offs: map<Block, nat>, code: seq<Insn>, ftail: nat,
                          placed: seq<Block>) {
    && g.Keys == longs.Keys == offs.Keys
    && Distinct(placed) && Members(placed) <= g.Keys
    && ftail + LenSum(placed, Lens(g, longs)) == |code|
    && (forall c {:trigger offs[c]} :: c in placed ==> offs[c] + FromEnd(placed, Lens(g, longs), c) == |code|)
    && Zeroed(code, ftail) && AllShort(code)
    && (forall c {:trigger Supported(g, placed, c)} :: c in placed ==> Supported(g, placed, c))
    && Assembled(g, longs, offs, code, Members(placed))
  }

  ghost predicate Zeroed(code: seq<Insn>, n: nat) {
    n <= |code| && forall i {:trigger code[i]} :: 0 <= i < n ==> code[i] == ZERO
  }

  ghost predicate Supported(g: Graph, placed: seq<Block>, c: Block) {
    c in g && (g[c].test.code.Jmp? ==> g[c].jt in placed && g[c].jf in placed)
  }

  /** The offset the next block `b` would need to reach `c`: its own long jumps and the code
      placed since `c`. */
  ghost function Reaching(g: Graph, longs: map<Block, Long>, placed: seq<Block>, b: Block, c: Block): nat
    requires g.Keys == longs.Keys && Members(placed) <= g.Keys && b in g && c in placed
  {
    Gap(placed, Lens(g, longs), c) + longs[b].jt + longs[b].jf
  }

  lemma ReachingIsDistance(g: Graph, longs: map<Block, Long>, offs: map<Block, nat>, code: seq<Insn>, ftail: nat,
                           placed: seq<Block>, b: Block, c: Block)
    requires LaidOut(g, longs, offs, code, ftail, placed) && b in g && b !in placed && c in placed
    requires Len(g[b], longs[b]) <= ftail
    ensures var offs' := offs[b := ftail - Len(g[b], longs[b])];
            Distance(g, offs', b, c) == Reaching(g, longs, placed, b, c)
  {
  }

  /** Placing one more block in front of the code laid out so far. */
  lemma LaidOutOneMore(g: Graph, longs: map<Block, Long>, offs: map<Block, nat>, code: seq<Insn>, ftail: nat,
                       placed: seq<Block>, b: Block, dt: nat, df: nat)
    requires LaidOut(g, longs, offs, code, ftail, placed) && b in g && b !in placed
    requires Len(g[b], longs[b]) <= ftail
    requires if g[b].test.code.Jmp? then
               && g[b].jt != null && g[b].jf != null && g[b].jt in placed && g[b].jf in placed
               && dt == Reaching(g, longs, placed, b, g[b].jt) && df == Reaching(g, longs, placed, b, g[b].jf)
               && Fits(longs[b], dt, df)
             else
               g[b].test.code == Ret && dt == 0 && df == 0
    ensures var at := ftail - Len(g[b], longs[b]);
            LaidOut(g, longs, offs[b := at], Overlay(code, at, CodeOf(g[b], longs[b], dt, df)), at, placed + [b])
  {
    hide FromEnd, Placed, CodeOf, Len, LenSum;
    var at, lens := ftail - Len(g[b], longs[b]), Lens(g, longs);
    var offs', placed' := offs[b := at], placed + [b];
    var code' := Overlay(code, at, CodeOf(g[b], longs[b], dt, df));
    MembersConcat(placed, [b]);
    DistinctConcat(placed, [b]);
    SnocOffsets(placed, lens, b);
    forall c | c in placed
      ensures offs'[c] + FromEnd(placed', lens, c) == |code'|
    {
      FromEndSnoc(placed, lens, b, c);
    }
    NewPlaced(g, longs, offs, code, ftail, placed, b, dt, df);
    CodeOfShort(g[b], longs[b], dt, df);
    forall c | c in placed
      ensures Placed(g, longs, offs', code', c) && Supported(g, placed', c)
    {
      assert Supported(g, placed, c);
      PlacedStays(g, longs, offs, code, ftail, placed, b, code', c);
    }
  }

  lemma SnocOffsets(o: seq<Block>, lens: map<Block, nat>, b: Block)
    requires Members(o + [b]) <= lens.Keys
    ensures Members(o) <= lens.Keys && LenSum(o + [b], lens) == LenSum(o, lens) + lens[b]
    ensures FromEnd(o + [b], lens, b) == LenSum(o + [b], lens)
  {
    assert (o + [b])[..|o + [b]| - 1] == o;
    assert Members(o) <= Members(o + [b]);
  }

  lemma NewPlaced(g: Graph, longs: map<Block, Long>, offs: map<Block, nat>, code: seq<Insn>, ftail: nat,
                  placed: seq<Block>, b: Block, dt: nat, df: nat)
    requires LaidOut(g, longs, offs, code, ftail, placed) && b in g && b !in placed
    requires Len(g[b], longs[b]) <= ftail
    requires if g[b].test.code.Jmp? then
               && g[b].jt != null && g[b].jf != null && g[b].jt in placed && g[b].jf in placed
               && dt == Reaching(g, longs, placed, b, g[b].jt) && df == Reaching(g, longs, placed, b, g[b].jf)
               && Fits(longs[b], dt, df)
             else
               g[b].test.code == Ret && dt == 0 && df == 0
    ensures var at := ftail - Len(g[b], longs[b]);
            Placed(g, longs, offs[b := at], Overlay(code, at, CodeOf(g[b], longs[b], dt, df)), b)
  {
    hide CodeOf, Reaching, FromEnd, LenSum;
    var at := ftail - Len(g[b], longs[b]);
    var c := CodeOf(g[b], longs[b], dt, df);
    var code' := Overlay(code, at, c);
    assert code'[at..at + Len(g[b], longs[b])] == c;
    if g[b].test.code.Jmp? {
      ReachingIsDistance(g, longs, offs, code, ftail, placed, b, g[b].jt);
      ReachingIsDistance(g, longs, offs, code, ftail, placed, b, g[b].jf);
    }
  }

  lemma PlacedStays(g: Graph, longs: map<Block, Long>, offs: map<Block, nat>, code: seq<Insn>, ftail: nat,
                    placed: seq<Block>, b: Block, code': seq<Insn>, c: Block)
    requires LaidOut(g, longs, offs, code, ftail, placed) && b in g && b !in placed && c in placed
    requires |code'| == |code| && code'[ftail..] == code[ftail..] && Len(g[b], longs[b]) <= ftail
    requires Supported(g, placed, c)
    ensures Placed(g, longs, offs[b := ftail - Len(g[b], longs[b])], code', c)
  {
    hide FromEnd, CodeOf, Lens;
    assert Placed(g, longs, offs, code, c);
    var len := Len(g[c], longs[c]);
    assert offs[c] >= ftail;
    SliceFrom(code', ftail, offs[c], len);
    SliceFrom(code, ftail, offs[c], len);
  }

  lemma SliceFrom(code: seq<Insn>, k: nat, i: nat, n: nat)
    requires k <= i && i + n <= |code|
    ensures code[i..i + n] == code[k..][i - k..i - k + n]
  {
  }

  // ----- Retrying with long jumps -----

  function Flag(l: Long, sense: bool): nat {
    if sense then l.jt else l.jf
  }

  /** Placing `o` in order, the branch `sense` of its k-th block cannot do without a long jump. */
  ghost predicate LongNeeded(g: Graph, longs: map<Block, Long>, o: seq<Block>, k: nat, sense: bool)
    requires g.Keys == longs.Keys && Members(o) <= g.Keys && k < |o|
  {
    assert o[k] in Members(o) && Members(o[..k]) <= Members(o);
    var c := Succ(g[o[k]], sense);
    c != null && c in o[..k] && Reaching(g, longs, o[..k], o[k], c) >= 256
  }

  /** Long jumps are given only where they are needed, and at most one to a branch. */
  ghost predicate Justified(g: Graph, longs: map<Block, Long>, o: seq<Block>) {
    && g.Keys == longs.Keys && Members(o) <= g.Keys
    && (forall k, sense {:trigger FlagJustified(g, longs, o, k, sense)} :: 0 <= k < |o| ==>
         FlagJustified(g, longs, o, k, sense))
  }

  ghost predicate FlagJustified(g: Graph, longs: map<Block, Long>, o: seq<Block>, k: nat, sense: bool)
    requires g.Keys == longs.Keys && Members(o) <= g.Keys && k < |o|
  {
    assert o[k] in Members(o);
    var n := Flag(longs[o[k]], sense);
    n == 0 || (n == 1 && LongNeeded(g, longs, o, k, sense))
  }

  /** One more long jump, given to the k-th block of the order. */
  ghost function Bump(longs: map<Block, Long>, b: Block, sense: bool): map<Block, Long>
    requires b in longs
  {
    longs[b := if sense then longs[b].(jt := 1) else longs[b].(jf := 1)]
  }

  lemma BumpJustified(g: Graph, longs: map<Block, Long>, o: seq<Block>, k: nat, sense: bool)
    requires Justified(g, longs, o) && Distinct(o) && k < |o| && o[k] in g && LongNeeded(g, longs, o, k, sense)
    requires Flag(longs[o[k]], sense) == 0
    ensures Justified(g, Bump(longs, o[k], sense), o)
  {
    hide LongNeeded, Members;
    var longs' := Bump(longs, o[k], sense);
    forall i, s | 0 <= i < |o|
      ensures FlagJustified(g, longs', o, i, s)
    {
      assert FlagJustified(g, longs, o, i, s);
      if LongNeeded(g, longs, o, i, s) {
        LongStaysNeeded(g, longs, longs', o, i, s);
      }
    }
  }

  /** The number of long jumps given so far. */
  ghost function FlagSum(longs: map<Block, Long>, o: seq<Block>): nat {
    if o == [] then 0
    else
      var b := o[|o| - 1];
      FlagSum(longs, o[..|o| - 1]) + if b in longs then longs[b].jt + longs[b].jf else 0
  }

  lemma {:induction false} FlagSumBump(longs: map<Block, Long>, o: seq<Block>, b: Block, sense: bool)
    requires Distinct(o) && b in longs && Flag(longs[b], sense) == 0
    ensures FlagSum(Bump(longs, b, sense), o) == FlagSum(longs, o) + if b in o then 1 else 0
    decreases |o|
  {
    if o != [] {
      var o' := o[..|o| - 1];
      FlagSumBump(longs, o', b, sense);
      assert o == o' + [o[|o| - 1]];
      if o[|o| - 1] == b {
        assert b !in o';
      } else {
        assert b in o <==> b in o';
      }
    }
  }

  lemma {:induction false} FlagSumBound(g: Graph, longs: map<Block, Long>, o: seq<Block>, n: nat)
    requires Justified(g, longs, o) && n <= |o|
    ensures FlagSum(longs, o[..n]) <= 2 * n
    decreases n
  {
    if n > 0 {
      assert FlagJustified(g, longs, o, n - 1, true) && FlagJustified(g, longs, o, n - 1, false);
      assert o[..n][..n - 1] == o[..n - 1];
      FlagSumBound(g, longs, o, n - 1);
    }
  }

  /** Distances never shrink: a branch that needed a long jump still does after more are given. */
  lemma LongStaysNeeded(g: Graph, longs: map<Block, Long>, longs': map<Block, Long>, o: seq<Block>, k: nat, sense: bool)
    requires g.Keys == longs.Keys == longs'.Keys && Members(o) <= g.Keys && k < |o|
    requires forall b :: b in g ==> longs[b].jt <= longs'[b].jt && longs[b].jf <= longs'[b].jf
    requires LongNeeded(g, longs, o, k, sense)
    ensures LongNeeded(g, longs', o, k, sense)
  {
    assert o[k] in Members(o);
    assert Members(o[..k]) <= Members(o);
    GapGrows(o[..k], Lens(g, longs), Lens(g, longs'), Succ(g[o[k]], sense));
  }

  /** In the finished layout the distances are those at the time of placement. */
  lemma {:induction false} FromEndPrefix(o: seq<Block>, lens: map<Block, nat>, k: nat, c: Block)
    requires Members(o) <= lens.Keys && Distinct(o) && k <= |o| && c in o[..k]
    ensures Members(o[..k]) <= lens.Keys && FromEnd(o, lens, c) == FromEnd(o[..k], lens, c)
    decreases |o| - k
  {
    assert Members(o[..k]) <= Members(o);
    if k < |o| {
      assert o[..k + 1] == o[..k] + [o[k]];
      var j :| 0 <= j < k && o[..k][j] == c;
      assert c != o[k] && c in o[..k + 1];
      assert Members(o[..k] + [o[k]]) <= Members(o);
      FromEndSnoc(o[..k], lens, o[k], c);
      FromEndPrefix(o, lens, k + 1, c);
    } else {
      assert o[..k] == o;
    }
  }

  lemma FinalDistance(g: Graph, longs: map<Block, Long>, offs: map<Block, nat>, code: seq<Insn>, ftail: nat,
                      o: seq<Block>, k: nat, c: Block)
    requires LaidOut(g, longs, offs, code, ftail, o) && k < |o| && c in o[..k]
    ensures o[k] in g && Members(o[..k]) <= g.Keys && Distance(g, offs, o[k], c) == Reaching(g, longs, o[..k], o[k], c)
  {
    hide Live;
    var lens := Lens(g, longs);
    assert o[k] in Members(o) && o[k] in o && c in o;
    FromEndPrefix(o, lens, k, c);
    assert o[k] == o[..k + 1][k];
    FromEndPrefix(o, lens, k + 1, o[k]);
    assert o[..k + 1] == o[..k] + [o[k]];
    SnocOffsets(o[..k], lens, o[k]);
  }

  lemma FlagSumTotal(g: Graph, longs: map<Block, Long>, o: seq<Block>)
    requires Justified(g, longs, o)
    ensures FlagSum(longs, o) <= 2 * |o|
  {
    FlagSumBound(g, longs, o, |o|);
    assert o[..|o|] == o;
  }
}
