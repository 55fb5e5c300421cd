/** Backpatching: and/or/not over blocks whose unresolved jump fields hold linked lists.

    While an expression is being built, one branch of each unfinished block is resolved and the
    other field is borrowed as the link of a list of exits; `sense` says which. The block that
    stands for the expression has both branches open, so it heads two lists: the true exits,
    followed with its `sense` as it is, and the false exits, followed with it inverted. */
module BoolGen {
  import opened Bpf
  import opened Cfg
  import opened BoolExpr

  // ----- Lists threaded through jump fields -----

  /** The jump fields of a block. */
  datatype Wires = Wires(sense: bool, jt: Block?, jf: Block?)

  ghost function WiresOf(S: set<Block>): (w: map<Block, Wires>)
    reads S`sense, S`jt, S`jf
    ensures w.Keys == S
  {
    map b | b in S :: Wires(b.sense, b.jt, b.jf)
  }

  ghost function LabelsOf(S: set<Block>): map<Block, (seq<Stmt>, Stmt)>
    reads S`stmts, S`s
  {
    map b | b in S :: (b.stmts, b.s)
  }

  function Field(w: Wires, branch: bool): Block? {
    if branch then w.jt else w.jf
  }

  function SetField(w: Wires, branch: bool, target: Block?): Wires {
    if branch then w.(jt := target) else w.(jf := target)
  }

  ghost function NextIn(L: seq<Block>, i: nat): Block? {
    if i + 1 < |L| then L[i + 1] else null
  }

  ghost predicate Distinct(L: seq<Block>) {
    forall i, j :: 0 <= i < j < |L| ==> L[i] != L[j]
  }

  /** Following the branch left open by `sense` from L[0] visits exactly `L` and then null. */
  ghost predicate Threaded(w: map<Block, Wires>, L: seq<Block>) {
    && Distinct(L)
    && forall i {:trigger L[i]} :: 0 <= i < |L| ==> L[i] in w && Field(w[L[i]], !w[L[i]].sense) == NextIn(L, i)
  }

  ghost function Members(L: seq<Block>): set<Block> {
    set b | b in L
  }

  /** Every block of `bs` gets `target` in the field its `sense` leaves open. */
  ghost function PatchAll(w: map<Block, Wires>, bs: set<Block>, target: Block): map<Block, Wires> {
    map b | b in w :: if b in bs then SetField(w[b], !w[b].sense, target) else w[b]
  }

  lemma PatchOneMore(w: map<Block, Wires>, bs: set<Block>, b: Block, target: Block)
    requires b in w && b !in bs
    ensures PatchAll(w, bs + {b}, target) == PatchAll(w, bs, target)[b := SetField(w[b], !w[b].sense, target)]
    ensures PatchAll(w, bs, target)[b] == w[b]
  {
  }

  lemma PatchNone(w: map<Block, Wires>, target: Block)
    ensures PatchAll(w, {}, target) == w
  {
  }

  /** Resolves the open field of `b` to `target` and returns the link it held. */
  method TakeLink(b: Block, target: Block, ghost S: set<Block>) returns (next: Block?)
    requires b in S
    modifies b`jt, b`jf
    ensures next == old(Field(Wires(b.sense, b.jt, b.jf), !b.sense))
    ensures WiresOf(S) == old(WiresOf(S))[b := SetField(old(WiresOf(S))[b], !b.sense, target)]
    ensures LabelsOf(S) == old(LabelsOf(S))
  {
    if !b.sense {
      next := b.jt;
      b.jt := target;
    } else {
      next := b.jf;
      b.jf := target;
    }
  }

  /** backpatch: resolves every exit of the list headed by `list` to `target`. */
  method Backpatch(list: Block?, target: Block, ghost L: seq<Block>, ghost S: set<Block>)
    requires Threaded(WiresOf(S), L) && list == (if L == [] then null else L[0])
    modifies S`jt, S`jf
    ensures WiresOf(S) == PatchAll(old(WiresOf(S)), Members(L), target)
    ensures LabelsOf(S) == old(LabelsOf(S))
  {
    hide *;
    ghost var w, i := WiresOf(S), 0;
    PatchStart(w, L, target);
    var cur := list;
    while cur != null
      invariant 0 <= i <= |L| && cur == (if i < |L| then L[i] else null)
      invariant WiresOf(S) == PatchAll(w, Members(L[..i]), target)
      invariant LabelsOf(S) == old(LabelsOf(S))
      decreases |L| - i
    {
      PatchTurn(w, L, i, S, target);
      cur := TakeLink(cur, target, S);
      i := i + 1;
    }
    assert L[..i] == L;
  }

  lemma PatchStart(w: map<Block, Wires>, L: seq<Block>, target: Block)
    ensures PatchAll(w, Members(L[..0]), target) == w
  {
    assert Members(L[..0]) == {};
    PatchNone(w, target);
  }

  /** One turn of the loop: what the next block of the list holds, and what patching it makes. */
  lemma PatchTurn(w: map<Block, Wires>, L: seq<Block>, i: nat, S: set<Block>, target: Block)
    requires Threaded(w, L) && w.Keys == S && i < |L| && WiresOf(S) == PatchAll(w, Members(L[..i]), target)
    ensures var b := L[i];
            && b in S && Field(Wires(b.sense, b.jt, b.jf), !b.sense) == (if i + 1 < |L| then L[i + 1] else null)
            && PatchAll(w, Members(L[..i + 1]), target)
                 == WiresOf(S)[b := SetField(WiresOf(S)[b], !b.sense, target)]
  {
    var b := L[i];
    assert L[..i + 1] == L[..i] + [b] && Members(L[..i + 1]) == Members(L[..i]) + {b};
    assert forall k :: 0 <= k < i ==> L[..i][k] != b;
    assert b in w && Field(w[b], !w[b].sense) == NextIn(L, i);
    assert WiresOf(S)[b] == Wires(b.sense, b.jt, b.jf);
    hide Threaded, Distinct, PatchAll;
    PatchOneMore(w, Members(L[..i]), b, target);
  }

  /** Appends the list of `b1` to the list of `b0` by linking the last block of `L0`. */
  method Merge(b0: Block, b1: Block, ghost L0: seq<Block>, ghost S: set<Block>)
    requires L0 != [] && Threaded(WiresOf(S), L0) && b0 == L0[0]
    modifies S`jt, S`jf
    ensures WiresOf(S) == PatchAll(old(WiresOf(S)), {L0[|L0| - 1]}, b1)
    ensures LabelsOf(S) == old(LabelsOf(S))
  {
    hide PatchAll, LabelsOf;
    ghost var w := WiresOf(S);
    var p := b0;
    ghost var i := 0;
    assert p in S && w[p] == Wires(p.sense, p.jt, p.jf);
    while (if !p.sense then p.jt else p.jf) != null
      invariant 0 <= i < |L0| && p == L0[i] && p in S
      decreases |L0| - i
    {
      assert w[p] == Wires(p.sense, p.jt, p.jf);
      p := if !p.sense then p.jt else p.jf;
      i := i + 1;
    }
    assert w[p] == Wires(p.sense, p.jt, p.jf);
    if !p.sense {
      p.jt := b1;
    } else {
      p.jf := b1;
    }
    PatchOneMore(w, {}, p, b1);
    PatchNone(w, b1);
    assert {} + {p} == {p};
    assert WiresOf(S) == w[p := SetField(w[p], !w[p].sense, b1)];
  }

  // ----- Fragments -----

  /** What the blocks built so far stand for: an open graph, its entry, and the two exit lists
      headed by `last`, the block the expression is known by. */
  datatype Frag = Frag(g: OpenGraph, head: Block, last: Block, yes: seq<Block>, no: seq<Block>)

  ghost function Exits(f: Frag, v: bool): seq<Block> {
    if v then f.yes else f.no
  }

  /** The branch through which `b` hangs on the list of exits of sense `v`: the one its `sense`
      leaves open, except that the false list starts at the other branch of `last`. */
  function LinkBranch(f: Frag, w: Wires, b: Block, v: bool): bool {
    if b == f.last && !v then w.sense else !w.sense
  }

  ghost predicate ListsOf(f: Frag) {
    && f.head in f.g && f.last in f.g
    && f.yes != [] && f.no != [] && f.yes[0] == f.last == f.no[0]
    && Distinct(f.yes) && Distinct(f.no)
    && (forall b :: b in f.yes ==> b in f.g) && (forall b :: b in f.no ==> b in f.g)
    && (forall b :: b in f.yes && b in f.no ==> b == f.last)
  }

  ghost predicate Pictured(f: Frag, w: map<Block, Wires>) {
    && ListsOf(f)
    && f.g.Keys <= w.Keys
    && (forall b, d {:trigger Branch(f.g[b], d)} :: b in f.g ==> BranchPictured(f, w[b], b, d))
    && (forall v, i {:trigger Exits(f, v)[i]} :: 0 <= i < |Exits(f, v)| ==> ExitLinked(f, w, v, i))
  }

  /** A resolved branch holds its target; the others are exactly the listed exits. */
  ghost predicate BranchPictured(f: Frag, w: Wires, b: Block, d: bool)
    requires b in f.g
  {
    match Branch(f.g[b], d)
    case To(c) =>
      && Field(w, d) == c
      && !(b in f.yes && d == LinkBranch(f, w, b, true))
      && !(b in f.no && d == LinkBranch(f, w, b, false))
    case Exit(v) => b in Exits(f, v) && d == LinkBranch(f, w, b, v)
  }

  ghost predicate ExitLinked(f: Frag, w: map<Block, Wires>, v: bool, i: nat)
    requires i < |Exits(f, v)|
  {
    var b := Exits(f, v)[i];
    b in w && Field(w[b], LinkBranch(f, w[b], b, v)) == NextIn(Exits(f, v), i)
  }

  ghost predicate Represents(f: Frag)
    reads f.g.Keys
  {
    && Pictured(f, WiresOf(f.g.Keys))
    && f.last.head == f.head
    && Labelled(f.g, LabelsOf(f.g.Keys))
  }

  /** Every block holds the statements and the test of its node. */
  ghost predicate Labelled(g: OpenGraph, l: map<Block, (seq<Stmt>, Stmt)>) {
    forall b :: b in g ==> b in l && l[b] == (g[b].stmts, g[b].test)
  }

  // ----- Joining -----

  /** The fragment of `f0 and f1` (sense true) or `f0 or f1` (sense false). */
  ghost function JoinedFrag(f0: Frag, f1: Frag, sense: bool): Frag {
    Frag(Joined(f0.g, f1.g, sense, f1.head), f0.head, f1.last,
         if sense then f1.yes else f1.yes + f0.yes,
         if sense then f1.no + f0.no else f1.no)
  }

  /** How joining rewires one block: exits of `f0` of that sense now lead to `f1.head`, and the
      last exit of `f1` of the other sense is linked to `f0.last`. */
  ghost predicate Rewired(f0: Frag, f1: Frag, sense: bool, b: Block, w: Wires, w': Wires) {
    if b in f0.g then
      && w'.sense == (if b == f0.last && sense then !w.sense else w.sense)
      && (forall d :: Field(w', d) ==
           if b in Exits(f0, sense) && d == LinkBranch(f0, w, b, sense) then f1.head else Field(w, d))
    else
      && w'.sense == w.sense
      && (forall d :: Field(w', d) ==
                      if Exits(f1, !sense) != [] && b == Exits(f1, !sense)[|Exits(f1, !sense)| - 1]
                          && d == LinkBranch(f1, w, b, !sense)
                      then f0.last else Field(w, d))
  }

  lemma DistinctConcat(L0: seq<Block>, L1: seq<Block>)
    requires Distinct(L0) && Distinct(L1)
    requires forall b :: b in L0 ==> b !in L1
    ensures Distinct(L0 + L1)
  {
    forall i, j | 0 <= i < j < |L0 + L1|
      ensures (L0 + L1)[i] != (L0 + L1)[j]
    {
      if i < |L0| <= j {
        assert L0[i] in L0 && L1[j - |L0|] in L1;
      }
    }
  }

  lemma JoinedLists(f0: Frag, f1: Frag, sense: bool)
    requires ListsOf(f0) && ListsOf(f1) && f0.g.Keys !! f1.g.Keys
    ensures ListsOf(JoinedFrag(f0, f1, sense))
  {
    DistinctConcat(Exits(f1, !sense), Exits(f0, !sense));
  }

  lemma JoinedBranch(f0: Frag, f1: Frag, sense: bool, b: Block, d: bool, w: Wires, w': Wires)
    requires ListsOf(f0) && ListsOf(f1) && f0.g.Keys !! f1.g.Keys
    requires b in f0.g || b in f1.g
    requires if b in f0.g then BranchPictured(f0, w, b, d) else BranchPictured(f1, w, b, d)
    requires Rewired(f0, f1, sense, b, w, w')
    ensures BranchPictured(JoinedFrag(f0, f1, sense), w', b, d)
  {
    var other := Exits(f1, !sense);
    assert other[|other| - 1] in other;
  }

  lemma JoinedLinkLeft(f0: Frag, f1: Frag, sense: bool, w: map<Block, Wires>, w': map<Block, Wires>, v: bool, i: nat)
    requires ListsOf(f0) && ListsOf(f1) && f0.g.Keys !! f1.g.Keys
    requires i < |Exits(f1, v)| && ExitLinked(f1, w, v, i) && Exits(f1, v)[i] in w'
    requires var b := Exits(f1, v)[i]; Rewired(f0, f1, sense, b, w[b], w'[b])
    ensures ExitLinked(JoinedFrag(f0, f1, sense), w', v, i)
  {
    var f, b := JoinedFrag(f0, f1, sense), Exits(f1, v)[i];
    var other := Exits(f1, !sense);
    assert b in f1.g && b !in f0.g;
    assert Exits(f, v)[i] == b;
    if v == sense {
      assert other[|other| - 1] in other;
      assert Exits(f, v) == Exits(f1, v);
    } else if i < |other| - 1 {
      assert b != other[|other| - 1];
      assert NextIn(Exits(f, v), i) == NextIn(Exits(f1, v), i);
    }
  }

  lemma JoinedLinkRight(f0: Frag, f1: Frag, sense: bool, w: map<Block, Wires>, w': map<Block, Wires>, i: nat)
    requires ListsOf(f0) && ListsOf(f1) && f0.g.Keys !! f1.g.Keys
    requires i < |Exits(f0, !sense)| && ExitLinked(f0, w, !sense, i) && Exits(f0, !sense)[i] in w'
    requires var b := Exits(f0, !sense)[i]; Rewired(f0, f1, sense, b, w[b], w'[b])
    ensures ExitLinked(JoinedFrag(f0, f1, sense), w', !sense, |Exits(f1, !sense)| + i)
  {
  }

  ghost predicate AllRewired(f0: Frag, f1: Frag, sense: bool, w: map<Block, Wires>, w': map<Block, Wires>) {
    forall b {:trigger w'[b]} :: b in w' && (b in f0.g || b in f1.g) ==>
        b in w && Rewired(f0, f1, sense, b, w[b], w'[b])
  }

  lemma JoinedBranches(f0: Frag, f1: Frag, sense: bool, w: map<Block, Wires>, w': map<Block, Wires>, b: Block, d: bool)
    requires Pictured(f0, w) && Pictured(f1, w) && f0.g.Keys !! f1.g.Keys && AllRewired(f0, f1, sense, w, w')
    requires b in f0.g || b in f1.g
    requires f0.g.Keys + f1.g.Keys <= w'.Keys
    ensures b in JoinedFrag(f0, f1, sense).g && BranchPictured(JoinedFrag(f0, f1, sense), w'[b], b, d)
  {
    assert if b in f0.g then BranchPictured(f0, w[b], b, d) else BranchPictured(f1, w[b], b, d) by {
      var t0 := if b in f0.g then Branch(f0.g[b], d) else Branch(f1.g[b], d);
    }
    assert w'[b] == w'[b];
    hide Pictured, ListsOf, Rewired, BranchPictured, AllRewired;
    ListsIn(f0, w);
    ListsIn(f1, w);
    JoinedBranch(f0, f1, sense, b, d, w[b], w'[b]);
  }

  lemma ListsIn(f: Frag, w: map<Block, Wires>)
    requires Pictured(f, w)
    ensures ListsOf(f)
  {
  }

  lemma JoinedLink(f0: Frag, f1: Frag, sense: bool, w: map<Block, Wires>, w': map<Block, Wires>, v: bool, i: nat)
    requires Pictured(f0, w) && Pictured(f1, w) && f0.g.Keys !! f1.g.Keys && AllRewired(f0, f1, sense, w, w')
    requires f0.g.Keys + f1.g.Keys <= w'.Keys && i < |Exits(JoinedFrag(f0, f1, sense), v)|
    ensures ExitLinked(JoinedFrag(f0, f1, sense), w', v, i)
  {
    hide BranchPictured, Rewired, Joined, LinkBranch, NextIn, Distinct;
    var n := |Exits(f1, v)|;
    if i < n {
      var b := Exits(f1, v)[i];
      assert b in f1.g && w'[b] == w'[b];
      JoinedLinkLeft(f0, f1, sense, w, w', v, i);
    } else {
      var b := Exits(f0, v)[i - n];
      assert b in f0.g && w'[b] == w'[b];
      JoinedLinkRight(f0, f1, sense, w, w', i - n);
    }
  }

  /** The heap after joining pictures the joined graph. */
  lemma JoinedPictured(f0: Frag, f1: Frag, sense: bool, w: map<Block, Wires>, w': map<Block, Wires>)
    requires Pictured(f0, w) && Pictured(f1, w) && f0.g.Keys !! f1.g.Keys
    requires f0.g.Keys + f1.g.Keys <= w'.Keys && AllRewired(f0, f1, sense, w, w')
    ensures Pictured(JoinedFrag(f0, f1, sense), w')
  {
    var f := JoinedFrag(f0, f1, sense);
    JoinedLists(f0, f1, sense);
    assert f.g.Keys == f0.g.Keys + f1.g.Keys;
    hide JoinedFrag, AllRewired, BranchPictured, ExitLinked;
    forall b, d | b in f.g
      ensures BranchPictured(f, w'[b], b, d)
    {
      JoinedBranches(f0, f1, sense, w, w', b, d);
    }
    forall v, i | 0 <= i < |Exits(f, v)|
      ensures ExitLinked(f, w', v, i)
    {
      JoinedLink(f0, f1, sense, w, w', v, i);
    }
  }

  ghost function FlipSense(w: map<Block, Wires>, b: Block): map<Block, Wires>
    requires b in w
  {
    w[b := w[b].(sense := !w[b].sense)]
  }

  /** The four rewirings of gen_and. */
  ghost function AndWires(w: map<Block, Wires>, f0: Frag, f1: Frag): map<Block, Wires>
    requires f0.last in w && f1.last in w && f1.no != []
  {
    var patched := FlipSense(FlipSense(PatchAll(w, Members(f0.yes), f1.head), f0.last), f1.last);
    FlipSense(PatchAll(patched, {f1.no[|f1.no| - 1]}, f0.last), f1.last)
  }

  lemma AndRewires(w: map<Block, Wires>, f0: Frag, f1: Frag)
    requires Pictured(f0, w) && Pictured(f1, w) && f0.g.Keys !! f1.g.Keys
    ensures AllRewired(f0, f1, true, w, AndWires(w, f0, f1))
  {
    assert f1.no[|f1.no| - 1] in f1.no;
  }

  lemma AndKeepsThread(w: map<Block, Wires>, f0: Frag, f1: Frag)
    requires Pictured(f0, w) && Pictured(f1, w) && f0.g.Keys !! f1.g.Keys
    requires Threaded(FlipSense(w, f1.last), f1.no)
    ensures Threaded(FlipSense(FlipSense(PatchAll(w, Members(f0.yes), f1.head), f0.last), f1.last), f1.no)
  {
  }

  ghost function OrWires(w: map<Block, Wires>, f0: Frag, f1: Frag): map<Block, Wires>
    requires f0.last in w && f1.yes != []
  {
    var patched := FlipSense(PatchAll(FlipSense(w, f0.last), Members(f0.no), f1.head), f0.last);
    PatchAll(patched, {f1.yes[|f1.yes| - 1]}, f0.last)
  }

  lemma OrRewires(w: map<Block, Wires>, f0: Frag, f1: Frag)
    requires Pictured(f0, w) && Pictured(f1, w) && f0.g.Keys !! f1.g.Keys
    ensures AllRewired(f0, f1, false, w, OrWires(w, f0, f1))
  {
    assert f1.yes[|f1.yes| - 1] in f1.yes;
  }

  lemma OrKeepsThread(w: map<Block, Wires>, f0: Frag, f1: Frag)
    requires Pictured(f0, w) && Pictured(f1, w) && f0.g.Keys !! f1.g.Keys
    requires Threaded(w, f1.yes)
    ensures Threaded(FlipSense(PatchAll(FlipSense(w, f0.last), Members(f0.no), f1.head), f0.last), f1.yes)
  {
  }

  /** The true exits can be followed as they stand, the false exits once `last` is flipped. */
  lemma ExitsThreaded(f: Frag, w: map<Block, Wires>)
    requires Pictured(f, w)
    ensures Threaded(w, f.yes)
    ensures Threaded(FlipSense(w, f.last), f.no)
  {
    forall v, i | 0 <= i < |Exits(f, v)|
      ensures ExitLinked(f, w, v, i)
    {
      var _ := Exits(f, v)[i];
    }
    forall i | 0 <= i < |f.yes|
      ensures Field(w[f.yes[i]], !w[f.yes[i]].sense) == NextIn(f.yes, i)
    {
      assert ExitLinked(f, w, true, i);
    }
    var w' := FlipSense(w, f.last);
    forall i | 0 <= i < |f.no|
      ensures f.no[i] in w' && Field(w'[f.no[i]], !w'[f.no[i]].sense) == NextIn(f.no, i)
    {
      assert ExitLinked(f, w, false, i);
    }
  }

  lemma PicturedMore(f: Frag, w: map<Block, Wires>, w': map<Block, Wires>)
    requires Pictured(f, w)
    requires forall b :: b in f.g ==> b in w' && w'[b] == w[b]
    ensures Pictured(f, w')
  {
    forall b, d | b in f.g
      ensures BranchPictured(f, w'[b], b, d)
    {
      var _ := Branch(f.g[b], d);
    }
    forall v, i | 0 <= i < |Exits(f, v)|
      ensures ExitLinked(f, w', v, i)
    {
      assert ExitLinked(f, w, v, i) by {
        var _ := Exits(f, v)[i];
      }
    }
  }

  // ----- The operations -----

  /** What Represents gives a caller who need not look into the lists. */
  lemma Heads(f: Frag, S: set<Block>)
    requires Represents(f) && f.g.Keys <= S
    ensures Pictured(f, WiresOf(S)) && Labelled(f.g, LabelsOf(S))
    ensures f.last in f.g && f.head in f.g && f.last.head == f.head
    ensures f.yes != [] && f.no != [] && f.yes[0] == f.last == f.no[0]
    ensures Threaded(WiresOf(S), f.yes)
    ensures Threaded(FlipSense(WiresOf(S), f.last), f.no)
  {
    PicturedMore(f, WiresOf(f.g.Keys), WiresOf(S));
    ExitsThreaded(f, WiresOf(S));
  }

  method Flip(b: Block, ghost S: set<Block>)
    requires b in S
    modifies b`sense
    ensures WiresOf(S) == FlipSense(old(WiresOf(S)), b)
    ensures LabelsOf(S) == old(LabelsOf(S))
  {
    b.sense := !b.sense;
  }

  method SetHead(b: Block, head: Block?, ghost S: set<Block>)
    modifies b`head
    ensures b.head == head && WiresOf(S) == old(WiresOf(S)) && LabelsOf(S) == old(LabelsOf(S))
  {
    b.head := head;
  }

  /** The rewired heap represents the joined fragment. */
  lemma JoinedRepresents(f0: Frag, f1: Frag, sense: bool, w: map<Block, Wires>)
    requires Pictured(f0, w) && Pictured(f1, w) && f0.g.Keys !! f1.g.Keys
    requires f1.last.head == f0.head
    requires var l := LabelsOf(f0.g.Keys + f1.g.Keys); Labelled(f0.g, l) && Labelled(f1.g, l)
    requires AllRewired(f0, f1, sense, w, WiresOf(f0.g.Keys + f1.g.Keys))
    ensures Represents(JoinedFrag(f0, f1, sense))
  {
    assert JoinedFrag(f0, f1, sense).g.Keys == f0.g.Keys + f1.g.Keys;
    hide Pictured, AllRewired;
    JoinedPictured(f0, f1, sense, w, WiresOf(f0.g.Keys + f1.g.Keys));
  }

  method GenAnd(b0: Block, b1: Block, ghost f0: Frag, ghost f1: Frag) returns (ghost f: Frag)
    requires Represents(f0) && f0.last == b0 && Represents(f1) && f1.last == b1
    requires f0.g.Keys !! f1.g.Keys
    modifies f0.g.Keys`jt, f0.g.Keys`jf, f1.g.Keys`jt, f1.g.Keys`jf, b0`sense, b1`sense, b1`head
    ensures f == JoinedFrag(f0, f1, true) && Represents(f)
  {
    hide WiresOf, LabelsOf, Labelled, PatchAll, FlipSense, Pictured, Threaded, Represents, JoinedFrag;
    ghost var S := f0.g.Keys + f1.g.Keys;
    ghost var w := WiresOf(S);
    Heads(f0, S);
    Heads(f1, S);
    Backpatch(b0, b1.head, f0.yes, S);
    Flip(b0, S);
    Flip(b1, S);
    AndKeepsThread(w, f0, f1);
    Merge(b1, b0, f1.no, S);
    Flip(b1, S);
    SetHead(b1, b0.head, S);
    assert WiresOf(S) == AndWires(w, f0, f1);
    AndRewires(w, f0, f1);
    f := JoinedFrag(f0, f1, true);
    JoinedRepresents(f0, f1, true, w);
  }

  method GenOr(b0: Block, b1: Block, ghost f0: Frag, ghost f1: Frag) returns (ghost f: Frag)
    requires Represents(f0) && f0.last == b0 && Represents(f1) && f1.last == b1
    requires f0.g.Keys !! f1.g.Keys
    modifies f0.g.Keys`jt, f0.g.Keys`jf, f1.g.Keys`jt, f1.g.Keys`jf, b0`sense, b1`head
    ensures f == JoinedFrag(f0, f1, false) && Represents(f)
  {
    hide WiresOf, LabelsOf, Labelled, PatchAll, FlipSense, Pictured, Threaded, Represents, JoinedFrag;
    ghost var S := f0.g.Keys + f1.g.Keys;
    ghost var w := WiresOf(S);
    Heads(f0, S);
    Heads(f1, S);
    Flip(b0, S);
    Backpatch(b0, b1.head, f0.no, S);
    Flip(b0, S);
    OrKeepsThread(w, f0, f1);
    Merge(b1, b0, f1.yes, S);
    SetHead(b1, b0.head, S);
    assert WiresOf(S) == OrWires(w, f0, f1);
    OrRewires(w, f0, f1);
    f := JoinedFrag(f0, f1, false);
    JoinedRepresents(f0, f1, false, w);
  }

  /** The fragment of `not f0`: the two lists trade places. */
  ghost function FlippedFrag(f: Frag): Frag {
    Frag(FlipAll(f.g), f.head, f.last, f.no, f.yes)
  }

  lemma FlippedPictured(f: Frag, w: map<Block, Wires>)
    requires Pictured(f, w)
    ensures Pictured(FlippedFrag(f), FlipSense(w, f.last))
  {
    var f', w' := FlippedFrag(f), FlipSense(w, f.last);
    forall b, d | b in f'.g
      ensures BranchPictured(f', w'[b], b, d)
    {
      var _ := Branch(f.g[b], d);
    }
    forall v, i | 0 <= i < |Exits(f', v)|
      ensures ExitLinked(f', w', v, i)
    {
      assert ExitLinked(f, w, !v, i) by {
        var _ := Exits(f, !v)[i];
      }
    }
  }

  method GenNot(b: Block, ghost f0: Frag) returns (ghost f: Frag)
    requires Represents(f0) && f0.last == b
    modifies b`sense
    ensures f == FlippedFrag(f0) && Represents(f)
  {
    ghost var S := f0.g.Keys;
    Heads(f0, S);
    FlippedPictured(f0, WiresOf(S));
    Flip(b, S);
    f := FlippedFrag(f0);
    assert f.g.Keys == S;
  }

  /** The fragment of one fresh block. */
  ghost function PrimFrag(b: Block, stmts: seq<Stmt>, test: Stmt): Frag {
    Frag(map[b := OpenNode(stmts, test, Exit(true), Exit(false))], b, b, [b], [b])
  }

  lemma PrimRepresents(b: Block, stmts: seq<Stmt>, test: Stmt)
    requires b.stmts == stmts && b.s == test && test.code.Jmp?
    requires b.head == b && !b.sense && b.jt == null && b.jf == null
    ensures Represents(PrimFrag(b, stmts, test))
  {
    var f := PrimFrag(b, stmts, test);
    var w := WiresOf(f.g.Keys);
    assert b in f.g;
    assert w[b] == Wires(false, null, null);
    assert LabelsOf(f.g.Keys)[b] == (stmts, test);
    forall c, d | c in f.g
      ensures BranchPictured(f, w[c], c, d)
    {
    }
    forall v, i | 0 <= i < |Exits(f, v)|
      ensures ExitLinked(f, w, v, i)
    {
    }
  }

  method GenPrim(stmts: seq<Stmt>, test: Stmt) returns (b: Block, ghost f: Frag)
    requires test.code.Jmp?
    ensures fresh(b) && f == PrimFrag(b, stmts, test) && Represents(f)
  {
    b := new Block(stmts, test);
    PrimRepresents(b, stmts, test);
    f := PrimFrag(b, stmts, test);
  }
}
