/** icode_to_fcode: the block graph laid out as an array of instructions, retried with long
    jumps until every conditional offset fits in eight bits. */
module Assemble {
  import opened Bpf
  import opened Cfg
  import opened LiveStmts
  import opened BlockSums
  import opened DepthFirst
  import opened AsmSpec
  import opened AsmLayout
  import opened AsmWalk

  lemma OverlayTwice(code: seq<Insn>, at: nat, a: seq<Insn>, b: seq<Insn>)
    requires at + |a| + |b| <= |code|
    ensures Overlay(Overlay(code, at, a), at + |a|, b) == Overlay(code, at, a + b)
  {
    var l, r := Overlay(Overlay(code, at, a), at + |a|, b), Overlay(code, at, a + b);
    assert |l| == |r|;
    forall i | 0 <= i < |l|
      ensures l[i] == r[i]
    {
    }
  }

  method Put(a: array<Insn>, at: nat, i: Insn)
    requires at < a.Length
    modifies a
    ensures a[..] == Overlay(old(a[..]), at, [i])
  {
    a[at] := i;
  }

  /** Copies the statements that are not deleted. */
  method EmitStmts(a: array<Insn>, at: nat, ss: seq<Stmt>) returns (dst: nat)
    requires at + |Live(ss)| <= a.Length
    modifies a
    ensures dst == at + |Live(ss)|
    ensures a[..] == Overlay(old(a[..]), at, Straight(Live(ss)))
  {
    hide Overlay;
    dst := at;
    ghost var code := a[..];
    OverlayNone(code, at);
    for i := 0 to |ss|
      invariant dst == at + |Live(ss[..i])| <= at + |Live(ss)|
      invariant a[..] == Overlay(code, at, Straight(Live(ss[..i])))
    {
      assert ss[..i + 1] == ss[..i] + [ss[i]];
      LiveSnoc(ss[..i], ss[i]);
      LivePrefix(ss, i + 1);
      if ss[i].code != Nop {
        var insn := Insn(ss[i].code, 0, 0, ss[i].k);
        assert Straight(Live(ss[..i + 1])) == Straight(Live(ss[..i])) + [insn];
        OverlayTwice(code, at, Straight(Live(ss[..i])), [insn]);
        Put(a, dst, insn);
        dst := dst + 1;
      } else {
        assert Live(ss[..i + 1]) == Live(ss[..i]);
      }
    }
    assert ss[..|ss|] == ss;
  }

  lemma OverlayNone(code: seq<Insn>, at: nat)
    requires at <= |code|
    ensures Overlay(code, at, Straight(Live([]))) == code
  {
  }

  /** The conditional and the long jumps it needs, over zeroed room for `long.jt + long.jf` jumps. */
  method EmitBranch(a: array<Insn>, dst: nat, test: Stmt, dt: nat, df: nat, long: Long)
    requires Fits(long, dt, df) && dst + 1 + long.jt + long.jf <= a.Length
    requires forall i :: dst <= i < dst + 1 + long.jt + long.jf ==> a[i] == ZERO
    modifies a
    ensures a[..] == Overlay(old(a[..]), dst,
        BranchCode(test, dt, df) + Zeros(1 + long.jt + long.jf - |BranchCode(test, dt, df)|))
  {
    ghost var code := a[..];
    var extrajmps := 0;
    var insn := Insn(test.code, 0, 0, test.k);
    if dt >= 256 {
      insn := insn.(jt := extrajmps);
      extrajmps := extrajmps + 1;
      a[dst + extrajmps] := Insn(Ja, 0, 0, dt - extrajmps);
    } else {
      insn := insn.(jt := dt);
    }
    if df >= 256 {
      insn := insn.(jf := extrajmps);
      extrajmps := extrajmps + 1;
      a[dst + extrajmps] := Insn(Ja, 0, 0, df - extrajmps);
    } else {
      insn := insn.(jf := df);
    }
    a[dst] := insn;
    ghost var part := BranchCode(test, dt, df) + Zeros(1 + long.jt + long.jf - |BranchCode(test, dt, df)|);
    assert forall i :: 0 <= i < |code| ==> a[i] == Overlay(code, dst, part)[i];
  }

  /** The failed attempt stopped at `bad`, whose branch is too long, and gave it a long jump.
      The blocks before it, `before`, start the order in which blocks are placed. */
  ghost predicate Overflowed(S: set<Block>, g: Graph, longs: map<Block, Long>, before: seq<Block>, bad: Edge)
    reads S`stmts, S`s, S`jt, S`jf, S`longjt, S`longjf
  {
    && g == GraphOf(S) && g.Keys == longs.Keys && bad.pred in g
    && var c := Succ(g[bad.pred], bad.sense);
    && Members(before) <= g.Keys && c != null && c in before
    && Reaching(g, longs, before, bad.pred, c) >= 256
    && Flag(longs[bad.pred], bad.sense) == 0
    && LongsOf(S) == Bump(longs, bad.pred, bad.sense)
  }

  /** The attempt overflowed at some block of the order `o`. */
  ghost predicate Overflow(S: set<Block>, g: Graph, longs: map<Block, Long>, o: seq<Block>)
    reads S`stmts, S`s, S`jt, S`jf, S`longjt, S`longjf
  {
    exists k, sense :: 0 <= k < |o| && Overflowed(S, g, longs, o[..k], Edge(o[k], sense))
  }

  lemma OverflowMore(S: set<Block>, g: Graph, longs: map<Block, Long>, o: seq<Block>, more: seq<Block>)
    requires Overflow(S, g, longs, o)
    ensures Overflow(S, g, longs, o + more)
  {
    var k, sense :| 0 <= k < |o| && Overflowed(S, g, longs, o[..k], Edge(o[k], sense));
    assert (o + more)[..k] == o[..k];
    assert Overflowed(S, g, longs, (o + more)[..k], Edge((o + more)[k], sense));
  }

  lemma OverflowHere(S: set<Block>, g: Graph, longs: map<Block, Long>, placed: seq<Block>, b: Block, sense: bool)
    requires Overflowed(S, g, longs, placed, Edge(b, sense))
    ensures Overflow(S, g, longs, placed + [b])
  {
    var o := placed + [b];
    assert o[..|placed|] == placed;
    assert Overflowed(S, g, longs, o[..|placed|], Edge(o[|placed|], sense));
  }

  class Assembler {
    var curMark: nat
    var fstart: array<Insn>
    var ftail: nat

    constructor ()
      ensures curMark == 0 && fresh(fstart)
    {
      curMark, ftail := 0, 0;
      fstart := new Insn[0];
    }

    /** The blocks of `S` are laid out up to `placed`; nothing but offsets and marks has changed. */
    ghost predicate InProgress(a: array<Insn>, S: set<Block>, g: Graph, rank: map<Block, nat>, longs: map<Block, Long>,
                               placed: seq<Block>)
      reads this`fstart, this`ftail, a, S`stmts, S`s, S`jt, S`jf, S`longjt, S`longjf, S`offset
    {
      && fstart == a && g == GraphOf(S) && Dag(g, rank) && longs == LongsOf(S)
      && LaidOut(g, longs, OffsOf(S), a[..], ftail, placed)
    }

    /** Marks one branch of `p` as needing a long jump. */
    method SetLong(p: Block, sense: bool, ghost S: set<Block>)
      requires p in S && (if sense then p.longjt == 0 else p.longjf == 0)
      modifies p`longjt, p`longjf
      ensures LongsOf(S) == Bump(old(LongsOf(S)), p, sense)
      ensures GraphOf(S) == old(GraphOf(S))
    {
      if sense {
        p.longjt := p.longjt + 1;
      } else {
        p.longjf := p.longjf + 1;
      }
    }

    /** Writes the code of `p` from index `base` on, below what is there; `dt` and `df` are its
        branch offsets. */
    method WriteBlock(p: Block, base: nat, dt: nat, df: nat, ghost n: Node, ghost long: Long, ghost S: set<Block>)
      requires p in S && n == NodeOf(p) && long == Long(p.longjt, p.longjf)
      requires base + Len(n, long) == ftail <= fstart.Length
      requires n.test.code.Jmp? ==> Fits(long, dt, df)
      requires Zeroed(fstart[..], ftail)
      modifies this`ftail, fstart, p`offset
      ensures ftail == base && fstart[..] == Overlay(old(fstart[..]), base, CodeOf(n, long, dt, df))
      ensures OffsOf(S) == old(OffsOf(S))[p := base]
      ensures GraphOf(S) == old(GraphOf(S)) && LongsOf(S) == old(LongsOf(S))
    {
      assert forall i :: 0 <= i < ftail ==> fstart[i] == fstart[..][i] == ZERO;
      ftail := base;
      p.offset := base;
      WriteCode(fstart, base, p.stmts, p.s, dt, df, Long(p.longjt, p.longjf), n);
    }

    /** The two branch offsets of `p` when its conditional ends at `next`; a branch that is too
        long and has no long jump yet gets one, and the attempt fails. */
    method BranchOffsets(p: Block, next: nat, ghost a: array<Insn>, ghost S: set<Block>, ghost g: Graph,
                         ghost rank: map<Block, nat>, ghost longs: map<Block, Long>, ghost placed: seq<Block>)
        returns (ok: bool, dt: nat, df: nat)
      requires InProgress(a, S, g, rank, longs, placed) && p in g && p !in placed && Len(g[p], longs[p]) <= ftail
      requires p.jt != null && p.jf != null && p.jt in placed && p.jf in placed
      requires next == ftail - Len(g[p], longs[p]) + |Live(g[p].stmts)| + 1
      modifies p`longjt, p`longjf
      ensures ok ==> InProgress(a, S, g, rank, longs, placed) && Fits(longs[p], dt, df) && g[p].jt in placed
      ensures ok ==> g[p].jf in placed
      ensures ok ==> dt == Reaching(g, longs, placed, p, g[p].jt) && df == Reaching(g, longs, placed, p, g[p].jf)
      ensures !ok ==> Overflow(S, g, longs, placed + [p])
    {
      var t, f := p.jt, p.jf;
      assert g[p] == NodeOf(p) && longs[p] == Long(p.longjt, p.longjf);
      OffsetsFromTail(g, longs, OffsOf(S), fstart[..], ftail, placed, p, S);
      hide LaidOut, GraphOf, LongsOf, Reaching;
      dt, df := t.offset - next, f.offset - next;
      if dt >= 256 && p.longjt == 0 {
        SetLong(p, true, S);
        OverflowHere(S, g, longs, placed, p, true);
        return false, dt, df;
      }
      if df >= 256 && p.longjf == 0 {
        SetLong(p, false, S);
        OverflowHere(S, g, longs, placed, p, false);
        return false, dt, df;
      }
      ok := true;
    }

    /** Writes the code of `p` below what is there, once its branch offsets are known to fit. */
    method PlaceBlock(p: Block, base: nat, dt: nat, df: nat, ghost a: array<Insn>, ghost S: set<Block>, ghost g: Graph,
                      ghost rank: map<Block, nat>, ghost longs: map<Block, Long>, ghost placed: seq<Block>)
      requires InProgress(a, S, g, rank, longs, placed) && p in g && p !in placed && base + Len(g[p], longs[p]) == ftail
      requires if g[p].test.code.Jmp? then
                 && g[p].jt != null && g[p].jf != null && g[p].jt in placed && g[p].jf in placed
                 && dt == Reaching(g, longs, placed, p, g[p].jt) && df == Reaching(g, longs, placed, p, g[p].jf)
                 && Fits(longs[p], dt, df)
               else
                 g[p].test.code == Ret && dt == 0 && df == 0
      modifies this`ftail, a, p`offset
      ensures InProgress(a, S, g, rank, longs, placed + [p])
    {
      ghost var code, offs, tail := fstart[..], OffsOf(S), ftail;
      assert p in S && g[p] == NodeOf(p) && longs[p] == Long(p.longjt, p.longjf) && Zeroed(code, tail);
      hide LaidOut, Live, Reaching, CodeOf, Overlay, GraphOf, LongsOf, OffsOf, Dag, Zeroed;
      LaidOutOneMore(g, longs, offs, code, tail, placed, p, dt, df);
      WriteBlock(p, base, dt, df, g[p], longs[p], S);
    }

    /** The part of convert_code_r after its recursive calls. */
    method EmitBlock(p: Block, ghost a: array<Insn>, ghost S: set<Block>, ghost g: Graph, ghost rank: map<Block, nat>,
                     ghost longs: map<Block, Long>, ghost placed: seq<Block>)
        returns (ok: bool)
      requires InProgress(a, S, g, rank, longs, placed) && p in g && p !in placed
      requires Len(g[p], longs[p]) <= ftail
      requires p.s.code.Jmp? ==> p.jt in placed && p.jf in placed
      modifies this`ftail, a, p`offset, p`longjt, p`longjf
      ensures ok ==> InProgress(a, S, g, rank, longs, placed + [p])
      ensures !ok ==> Overflow(S, g, longs, placed + [p])
    {
      assert p in S && g[p] == NodeOf(p) && longs[p] == Long(p.longjt, p.longjf) && DagNode(g, rank, p);
      hide InProgress;
      var slen := SLength(p.stmts);
      var base := ftail - (slen + 1 + p.longjt + p.longjf);
      var dt, df := 0, 0;
      if p.jt != null {
        ok, dt, df := BranchOffsets(p, base + slen + 1, a, S, g, rank, longs, placed);
        if !ok {
          return;
        }
      }
      PlaceBlock(p, base, dt, df, a, S, g, rank, longs, placed);
      ok := true;
    }

    /** Emitting a block leaves the marks alone. */
    method EmitUnderMarks(p: Block, ghost a: array<Insn>, ghost S: set<Block>, ghost g: Graph,
                          ghost rank: map<Block, nat>, ghost longs: map<Block, Long>, ghost placed: seq<Block>,
                          ghost seen: set<Block>)
        returns (ok: bool)
      requires InProgress(a, S, g, rank, longs, placed) && Marks(S, curMark, seen) && p in g && p !in placed
      requires Len(g[p], longs[p]) <= ftail
      requires p.s.code.Jmp? ==> p.jt in placed && p.jf in placed
      modifies this`ftail, a, p`offset, p`longjt, p`longjf
      ensures ok ==> InProgress(a, S, g, rank, longs, placed + [p])
      ensures Marks(S, curMark, seen)
      ensures !ok ==> Overflow(S, g, longs, placed + [p])
    {
      hide *;
      ok := EmitBlock(p, a, S, g, rank, longs, placed);
    }

    method MarkBlock(b: Block, ghost a: array<Insn>, ghost S: set<Block>, ghost g: Graph, ghost rank: map<Block, nat>,
                     ghost longs: map<Block, Long>, ghost placed: seq<Block>, ghost seen: set<Block>)
      requires b in S && InProgress(a, S, g, rank, longs, placed) && Marks(S, curMark, seen)
      modifies b`mark
      ensures InProgress(a, S, g, rank, longs, placed) && Marks(S, curMark, seen + {b})
    {
      b.mark := curMark;
    }

    /** convert_code_r: lays out what `p` reaches. It fails exactly when some branch needs a long
        jump it has not been given; that branch then gets one. */
    method ConvertCodeR(p: Block?, ghost a: array<Insn>, ghost S: set<Block>, ghost g: Graph,
                        ghost rank: map<Block, nat>, ghost longs: map<Block, Long>, ghost placed: seq<Block>,
                        ghost seen: set<Block>)
        returns (ok: bool)
      requires InProgress(a, S, g, rank, longs, placed) && Marks(S, curMark, seen)
      requires Ready(g, rank, seen, p) && Settled(rank, seen, placed, p)
      requires RoomFor(g, longs, placed + OrderFrom(g, rank, p, seen), a.Length)
      modifies this`ftail, a, S`mark, S`offset, S`longjt, S`longjf
      ensures ok ==> InProgress(a, S, g, rank, longs, placed + OrderFrom(g, rank, p, seen))
      ensures ok ==> Marks(S, curMark, seen + ReachFrom(g, rank, p))
      ensures !ok ==> Overflow(S, g, longs, placed + OrderFrom(g, rank, p, seen)) && MarksBelow(S, curMark)
      decreases Height(rank, p), 1
    {
      ok := true;
      if p == null {
        assert placed + [] == placed && seen + {} == seen;
      } else if p.mark == curMark {
        WalkDone(g, rank, p, seen);
        assert placed + [] == placed;
      } else {
        ok := ConvertUnmarked(p, a, S, g, rank, longs, placed, seen);
      }
    }

    method ConvertUnmarked(p: Block, ghost a: array<Insn>, ghost S: set<Block>, ghost g: Graph,
                           ghost rank: map<Block, nat>, ghost longs: map<Block, Long>, ghost placed: seq<Block>,
                           ghost seen: set<Block>)
        returns (ok: bool)
      requires InProgress(a, S, g, rank, longs, placed) && Marks(S, curMark, seen)
      requires Ready(g, rank, seen, p) && Settled(rank, seen, placed, p) && p in S && p !in seen
      requires RoomFor(g, longs, placed + PlaceOrder(g, rank, p, seen), a.Length)
      modifies this`ftail, a, S`mark, S`offset, S`longjt, S`longjf
      ensures ok ==> InProgress(a, S, g, rank, longs, placed + PlaceOrder(g, rank, p, seen))
      ensures ok ==> Marks(S, curMark, seen + Reach(g, rank, p))
      ensures !ok ==> Overflow(S, g, longs, placed + PlaceOrder(g, rank, p, seen)) && MarksBelow(S, curMark)
      decreases Height(rank, p), 0
    {
      var t, f := p.jt, p.jf;
      assert g == GraphOf(S) && Dag(g, rank);
      ghost var seen1, seen2, o1, o2 := VisitPlan(S, g, rank, longs, p, t, f, seen, placed, a.Length);
      hide *;
      MarkBlock(p, a, S, g, rank, longs, placed, seen);
      ok := ConvertCodeR(f, a, S, g, rank, longs, placed, seen1);
      if !ok {
        OverflowMore(S, g, longs, placed + o1, o2 + [p]);
        return;
      }
      ok := ConvertCodeR(t, a, S, g, rank, longs, placed + o1, seen2);
      if !ok {
        OverflowMore(S, g, longs, placed + o1 + o2, [p]);
        return;
      }
      RoomAtTail(a, S, g, rank, longs, placed + o1 + o2, p);
      ok := EmitUnderMarks(p, a, S, g, rank, longs, placed + o1 + o2, seen2 + ReachFrom(g, rank, t));
    }

    lemma RoomAtTail(a: array<Insn>, S: set<Block>, g: Graph, rank: map<Block, nat>, longs: map<Block, Long>,
                     placed: seq<Block>, p: Block)
      requires InProgress(a, S, g, rank, longs, placed) && p in g && RoomFor(g, longs, placed + [p], a.Length)
      ensures Len(g[p], longs[p]) <= ftail
    {
      LenSumConcat(placed, [p], Lens(g, longs));
      assert p in [p] && LenSum([p], Lens(g, longs)) == Lens(g, longs)[p];
    }

    /** An empty layout over a zeroed array. */
    lemma NothingPlaced(a: array<Insn>, S: set<Block>, g: Graph, rank: map<Block, nat>, longs: map<Block, Long>)
      requires fstart == a && Snapshot(S, g, rank, longs)
      requires ftail == a.Length && forall i :: 0 <= i < a.Length ==> a[i] == ZERO
      ensures InProgress(a, S, g, rank, longs, [])
    {
    }

    method Allocate(n: nat) returns (fp: array<Insn>)
      modifies this`fstart, this`ftail
      ensures fresh(fp) && fstart == fp && fp.Length == n == ftail && forall i :: 0 <= i < n ==> fp[i] == ZERO
    {
      fp := new Insn[n](_ => ZERO);
      fstart := fp;
      ftail := n;
    }

    /** unMarkAll */
    method UnMarkAll(ghost S: set<Block>, ghost g: Graph, ghost rank: map<Block, nat>, ghost longs: map<Block, Long>)
      requires MarksBelow(S, curMark) && Snapshot(S, g, rank, longs)
      modifies this`curMark
      ensures Marks(S, curMark, {}) && Snapshot(S, g, rank, longs)
    {
      FreshMark(S, curMark);
      curMark := curMark + 1;
    }

    /** Counts and allocates the space. */
    method Prepare(root: Block, ghost S: set<Block>, ghost g: Graph, ghost rank: map<Block, nat>,
                   ghost longs: map<Block, Long>)
        returns (fp: array<Insn>)
      requires root in S && MarksBelow(S, curMark) && Snapshot(S, g, rank, longs) && Ready(g, rank, {}, root)
      modifies this, S`mark
      ensures Snapshot(S, g, rank, longs) && Marks(S, curMark, {})
      ensures fresh(fp) && fstart == fp && ftail == fp.Length && forall i :: 0 <= i < fp.Length ==> fp[i] == ZERO
      ensures fp.Length == SetLen(ReachFrom(g, rank, root) - {}, Lens(g, longs))
    {
      hide *;
      UnMarkAll(S, g, rank, longs);
      var n := CountStmts(root, curMark, S, g, rank, longs, {});
      fp := Allocate(n);
      UnMarkAll(S, g, rank, longs);
    }

    /** One round of icode_to_fcode: count, allocate, convert. */
    method Attempt(root: Block, ghost S: set<Block>, ghost g: Graph, ghost rank: map<Block, nat>,
                   ghost longs: map<Block, Long>)
        returns (ok: bool, fp: array<Insn>)
      requires Snapshot(S, g, rank, longs) && root in g && MarksBelow(S, curMark)
      modifies this, S`mark, S`offset, S`longjt, S`longjf
      ensures ok ==> InProgress(fp, S, g, rank, longs, PlaceOrder(g, rank, root, {})) && fresh(fp)
      ensures ok ==> fp.Length == SetLen(Reach(g, rank, root), Lens(g, longs))
      ensures !ok ==> Overflow(S, g, longs, PlaceOrder(g, rank, root, {}))
      ensures MarksBelow(S, curMark)
    {
      assert root in S;
      EntirePlan(g, rank, longs, root);
      hide *;
      fp := Prepare(root, S, g, rank, longs);
      NothingPlaced(fp, S, g, rank, longs);
      ok := ConvertCodeR(root, fp, S, g, rank, longs, [], {});
    }

    /** icode_to_fcode: tries until no branch is too long. Every retry gives one more branch a
        long jump, so there are at most two per reachable block; in the end exactly the branches
        that skip 256 instructions or more have one, and the array behaves as the graph does. */
    method IcodeToFcode(root: Block, ghost S: set<Block>, ghost rank: map<Block, nat>)
        returns (fp: array<Insn>, ghost retries: nat)
      requires root in S && Dag(GraphOf(S), rank) && PlainGraph(GraphOf(S)) && MarksBelow(S, curMark)
      requires forall b :: b in S ==> b.longjt == 0 && b.longjf == 0
      modifies this, S`mark, S`offset, S`longjt, S`longjf
      ensures GraphOf(S) == old(GraphOf(S))
      ensures Equivalent(fp[..], GraphOf(S), rank, root)
      ensures fp.Length == SetLen(Reach(GraphOf(S), rank, root), Lens(GraphOf(S), LongsOf(S)))
      ensures AllShort(fp[..]) && LongJumpsExact(GraphOf(S), LongsOf(S), OffsOf(S), Reach(GraphOf(S), rank, root))
      ensures retries <= 2 * |Reach(GraphOf(S), rank, root)|
    {
      ghost var g, longs := GraphOf(S), LongsOf(S);
      ghost var o := PlaceOrder(g, rank, root, {});
      NoLongJumps(g, rank, root, S);
      assert Snapshot(S, g, rank, longs);
      retries := 0;
      hide *;
      while true
        invariant Snapshot(S, g, rank, longs) && Justified(g, longs, o) && MarksBelow(S, curMark)
        invariant retries == FlagSum(longs, o)
        decreases 2 * |o| - retries
      {
        var ok;
        ok, fp := Attempt(root, S, g, rank, longs);
        if ok {
          FinishedLayout(fp, S, g, rank, longs, root);
          FlagSumTotal(g, longs, o);
          return;
        }
        RetryStep(S, g, rank, longs, o);
        longs := LongsOf(S);
        retries := retries + 1;
        FlagSumTotal(g, longs, o);
      }
    }

    lemma FinishedLayout(fp: array<Insn>, S: set<Block>, g: Graph, rank: map<Block, nat>, longs: map<Block, Long>,
                         root: Block)
      requires Dag(g, rank) && root in g && InProgress(fp, S, g, rank, longs, PlaceOrder(g, rank, root, {}))
      requires PlainGraph(g)
      requires Justified(g, longs, PlaceOrder(g, rank, root, {}))
      requires fp.Length == SetLen(Reach(g, rank, root), Lens(g, longs))
      ensures g == GraphOf(S) && longs == LongsOf(S) && g.Keys == S && Reach(g, rank, root) <= g.Keys
      ensures Equivalent(fp[..], g, rank, root)
      ensures AllShort(fp[..]) && LongJumpsExact(g, longs, OffsOf(S), Reach(g, rank, root))
    {
      hide LaidOut, Equivalent, LongJumpsExact, Justified, Reach, AllShort;
      LayoutEquivalent(g, rank, longs, OffsOf(S), fp[..], ftail, root);
      LayoutExact(g, rank, longs, OffsOf(S), fp[..], ftail, root);
    }
  }

  /** Running the array from its start gives the graph's outcome for every packet. */
  ghost predicate Equivalent(code: seq<Insn>, g: Graph, rank: map<Block, nat>, root: Block)
    requires Dag(g, rank) && root in g
  {
    forall st, p, fuel: nat {:trigger Run(g, root, st, p, fuel)} :: fuel > rank[root] ==>
        RunCode(code, 0, st, p) == Run(g, root, st, p, fuel)
  }

  /** Exactly the branches that skip 256 instructions or more have a long jump. */
  ghost predicate LongJumpsExact(g: Graph, longs: map<Block, Long>, offs: map<Block, nat>, bs: set<Block>)
    requires g.Keys == longs.Keys == offs.Keys && bs <= g.Keys
  {
    forall b, sense {:trigger Succ(g[b], sense)} :: b in bs && Succ(g[b], sense) != null && Succ(g[b], sense) in g ==>
      Flag(longs[b], sense) == if Distance(g, offs, b, Succ(g[b], sense)) >= 256 then 1 else 0
  }

  /** A complete layout starts with the root. */
  lemma LayoutEquivalent(g: Graph, rank: map<Block, nat>, longs: map<Block, Long>, offs: map<Block, nat>,
                         code: seq<Insn>, ftail: nat, root: Block)
    requires Dag(g, rank) && root in g && PlainGraph(g)
    requires LaidOut(g, longs, offs, code, ftail, PlaceOrder(g, rank, root, {}))
    requires |code| == SetLen(Reach(g, rank, root), Lens(g, longs))
    ensures Equivalent(code, g, rank, root) && AllShort(code)
  {
    var o := PlaceOrder(g, rank, root, {});
    EntirePlan(g, rank, longs, root);
    OrderStep(g, rank, root, {});
    assert root == o[|o| - 1] && root in o;
    assert offs[root] == 0;
    hide LaidOut, PlaceOrder, Reach;
    forall st, p, fuel: nat | fuel > rank[root]
      ensures RunCode(code, 0, st, p) == Run(g, root, st, p, fuel)
    {
      CodeSimulatesGraph(g, rank, longs, offs, code, root, root, st, p, fuel);
    }
  }

  lemma LayoutExact(g: Graph, rank: map<Block, nat>, longs: map<Block, Long>, offs: map<Block, nat>, code: seq<Insn>,
                    ftail: nat, root: Block)
    requires Dag(g, rank) && root in g && LaidOut(g, longs, offs, code, ftail, PlaceOrder(g, rank, root, {}))
    requires Justified(g, longs, PlaceOrder(g, rank, root, {}))
    ensures LongJumpsExact(g, longs, offs, Reach(g, rank, root))
  {
    var o := PlaceOrder(g, rank, root, {});
    EntirePlan(g, rank, longs, root);
    hide LaidOut, Justified, PlaceOrder, Reach;
    forall b, sense | b in Reach(g, rank, root) && Succ(g[b], sense) != null && Succ(g[b], sense) in g
      ensures Flag(longs[b], sense) == if Distance(g, offs, b, Succ(g[b], sense)) >= 256 then 1 else 0
    {
      assert b in Members(o);
      var k :| 0 <= k < |o| && o[k] == b;
      BranchExact(g, rank, longs, offs, code, ftail, o, k, sense);
    }
  }

  lemma BranchExact(g: Graph, rank: map<Block, nat>, longs: map<Block, Long>, offs: map<Block, nat>, code: seq<Insn>,
                    ftail: nat, o: seq<Block>, k: nat, sense: bool)
    requires Dag(g, rank) && LaidOut(g, longs, offs, code, ftail, o) && Justified(g, longs, o)
    requires k < |o| && o[k] in g && Succ(g[o[k]], sense) != null && Succ(g[o[k]], sense) in g
    ensures Flag(longs[o[k]], sense) == if Distance(g, offs, o[k], Succ(g[o[k]], sense)) >= 256 then 1 else 0
  {
    var b := o[k];
    assert b in Members(o) && DagNode(g, rank, b);
    assert FlagJustified(g, longs, o, k, sense);
    assert Fits(longs[b], Distance(g, offs, b, g[b].jt), Distance(g, offs, b, g[b].jf)) by {
      assert Placed(g, longs, offs, code, b);
    }
    hide Distance, Placed, Reaching, Assembled, DagNode;
    if Flag(longs[b], sense) > 0 {
      FinalDistance(g, longs, offs, code, ftail, o, k, Succ(g[b], sense));
    }
  }

  lemma NoLongJumps(g: Graph, rank: map<Block, nat>, root: Block, S: set<Block>)
    requires g == GraphOf(S) && Dag(g, rank) && root in S
    requires forall b :: b in S ==> b.longjt == 0 && b.longjf == 0
    ensures var o := PlaceOrder(g, rank, root, {});
            && Justified(g, LongsOf(S), o) && FlagSum(LongsOf(S), o) == 0 && Distinct(o)
            && |o| == |Reach(g, rank, root)|
  {
    var o := PlaceOrder(g, rank, root, {});
    EntirePlan(g, rank, LongsOf(S), root);
    NoFlags(LongsOf(S), o);
    MembersCount(o);
    NoneJustified(g, LongsOf(S), o);
  }

  lemma NoneJustified(g: Graph, longs: map<Block, Long>, o: seq<Block>)
    requires g.Keys == longs.Keys && Members(o) <= g.Keys && forall b :: b in longs ==> longs[b] == Long(0, 0)
    ensures Justified(g, longs, o)
  {
    forall k, sense | 0 <= k < |o|
      ensures FlagJustified(g, longs, o, k, sense)
    {
      assert o[k] in Members(o);
    }
  }

  lemma {:induction false} NoFlags(longs: map<Block, Long>, o: seq<Block>)
    requires forall b :: b in longs ==> longs[b] == Long(0, 0)
    ensures FlagSum(longs, o) == 0
    decreases |o|
  {
    if o != [] {
      NoFlags(longs, o[..|o| - 1]);
    }
  }

  lemma {:induction false} MembersCount(o: seq<Block>)
    requires Distinct(o)
    ensures |Members(o)| == |o|
    decreases |o|
  {
    if o != [] {
      var o', b := o[..|o| - 1], o[|o| - 1];
      assert o == o' + [b];
      MembersConcat(o', [b]);
      assert Members([b]) == {b} && b !in Members(o');
      MembersCount(o');
    }
  }

  lemma RetryStep(S: set<Block>, g: Graph, rank: map<Block, nat>, longs: map<Block, Long>, o: seq<Block>)
    requires Overflow(S, g, longs, o) && Justified(g, longs, o) && Distinct(o) && Dag(g, rank)
    ensures Snapshot(S, g, rank, LongsOf(S)) && Justified(g, LongsOf(S), o)
    ensures FlagSum(LongsOf(S), o) == FlagSum(longs, o) + 1
  {
    var k, sense :| 0 <= k < |o| && Overflowed(S, g, longs, o[..k], Edge(o[k], sense));
    assert LongNeeded(g, longs, o, k, sense);
    BumpJustified(g, longs, o, k, sense);
    FlagSumBump(longs, o, o[k], sense);
  }

  /** The order from the root places every reachable block, and the space counted for them is
      exactly the space it takes. */
  lemma EntirePlan(g: Graph, rank: map<Block, nat>, longs: map<Block, Long>, root: Block)
    requires Dag(g, rank) && root in g && g.Keys == longs.Keys
    ensures Ready(g, rank, {}, root) && Settled(rank, {}, [], root)
    ensures var o := PlaceOrder(g, rank, root, {});
            && Members(o) == Reach(g, rank, root) && Distinct(o)
            && [] + OrderFrom(g, rank, root, {}) == o
            && RoomFor(g, longs, [] + OrderFrom(g, rank, root, {}),
                 SetLen(ReachFrom(g, rank, root) - {}, Lens(g, longs)))
            && SetLen(ReachFrom(g, rank, root) - {}, Lens(g, longs)) == SetLen(Reach(g, rank, root), Lens(g, longs))
                 == LenSum(o, Lens(g, longs))
  {
    hide PlaceOrder, Reach, Lens, LenSum, SetLen, Members;
    var o := PlaceOrder(g, rank, root, {});
    PlaceOrderReach(g, rank, root, {});
    RootReached(g, rank, root);
    assert Reach(g, rank, root) - {} == Reach(g, rank, root);
    LenSumIsSetLen(o, Lens(g, longs));
    assert OrderFrom(g, rank, root, {}) == o && [] + o == o;
  }

  lemma RootReached(g: Graph, rank: map<Block, nat>, root: Block)
    requires Dag(g, rank) && root in g
    ensures root in Reach(g, rank, root) && Reach(g, rank, root) <= g.Keys
  {
  }

  ghost predicate RoomFor(g: Graph, longs: map<Block, Long>, o: seq<Block>, n: nat) {
    g.Keys == longs.Keys && Members(o) <= g.Keys && LenSum(o, Lens(g, longs)) <= n
  }

  /** The two recursive visits of convert_code_r at `p`, and what is known before each of them. */
  lemma VisitPlan(S: set<Block>, g: Graph, rank: map<Block, nat>, longs: map<Block, Long>, p: Block, t: Block?,
                  f: Block?, seen: set<Block>, placed: seq<Block>, n: nat)
      returns (seen1: set<Block>, seen2: set<Block>, o1: seq<Block>, o2: seq<Block>)
    requires g == GraphOf(S) && Dag(g, rank) && p in S && t == p.jt && f == p.jf
    requires Ready(g, rank, seen, p) && Settled(rank, seen, placed, p) && p !in seen
    requires RoomFor(g, longs, placed + PlaceOrder(g, rank, p, seen), n)
    ensures (t == null || t in g) && (f == null || f in g) && Height(rank, t) < Height(rank, p)
    ensures Height(rank, f) < Height(rank, p)
    ensures seen1 == seen + {p} && Ready(g, rank, seen1, f) && Settled(rank, seen1, placed, f)
    ensures o1 == OrderFrom(g, rank, f, seen1) && RoomFor(g, longs, placed + o1, n)
    ensures seen2 == seen1 + ReachFrom(g, rank, f) && Ready(g, rank, seen2, t) && Settled(rank, seen2, placed + o1, t)
    ensures o2 == OrderFrom(g, rank, t, seen2) && RoomFor(g, longs, placed + o1 + o2, n)
    ensures RoomFor(g, longs, placed + o1 + o2 + [p], n)
    ensures placed + PlaceOrder(g, rank, p, seen) == placed + o1 + o2 + [p] == placed + o1 + (o2 + [p])
    ensures seen + Reach(g, rank, p) == seen2 + ReachFrom(g, rank, t)
    ensures p !in placed + o1 + o2 && (p.s.code.Jmp? ==> t in placed + o1 + o2 && f in placed + o1 + o2)
  {
    assert p in g && g[p] == NodeOf(p) && DagNode(g, rank, p);
    hide Reach, PlaceOrder, ReachFrom, OrderFrom, Ready, Settled, LenSum, Lens, Members;
    VisitStep(g, rank, p, t, f, seen, placed);
    seen1 := seen + {p};
    o1 := OrderFrom(g, rank, f, seen1);
    seen2 := seen1 + ReachFrom(g, rank, f);
    o2 := OrderFrom(g, rank, t, seen2);
    Room(placed, o1, o2, p, Lens(g, longs), n);
  }

  lemma OffsetsFromTail(g: Graph, longs: map<Block, Long>, offs: map<Block, nat>, code: seq<Insn>, ftail: nat,
                        placed: seq<Block>, b: Block, S: set<Block>)
    requires LaidOut(g, longs, offs, code, ftail, placed) && b in g && b !in placed && g[b].jt in placed
    requires g[b].jf in placed
    requires Len(g[b], longs[b]) <= ftail && offs == OffsOf(S) && g.Keys == S
    ensures var next := ftail - Len(g[b], longs[b]) + |Live(g[b].stmts)| + 1;
            && g[b].jt.offset == next + Reaching(g, longs, placed, b, g[b].jt)
            && g[b].jf.offset == next + Reaching(g, longs, placed, b, g[b].jf)
  {
    hide Live, Reaching;
    assert g[b].jt in Members(placed) && g[b].jf in Members(placed);
    assert offs[g[b].jt] == g[b].jt.offset && offs[g[b].jf] == g[b].jf.offset;
    ReachingIsDistance(g, longs, offs, code, ftail, placed, b, g[b].jt);
    ReachingIsDistance(g, longs, offs, code, ftail, placed, b, g[b].jf);
  }

  /** Statements, then the conditional or the return, over zeroed room. */
  method WriteCode(a: array<Insn>, at: nat, ss: seq<Stmt>, test: Stmt, dt: nat, df: nat, long: Long, ghost n: Node)
    requires n.stmts == ss && n.test == test && at + Len(n, long) <= a.Length
    requires test.code.Jmp? ==> Fits(long, dt, df)
    requires forall i :: at <= i < at + Len(n, long) ==> a[i] == ZERO
    modifies a
    ensures a[..] == Overlay(old(a[..]), at, CodeOf(n, long, dt, df))
  {
    hide Live, Overlay, Straight, Zeros, BranchCode;
    ghost var code, body := a[..], Straight(Live(ss));
    OverlayKeeps(code, at, body);
    var dst := EmitStmts(a, at, ss);
    assert forall i :: dst <= i < at + Len(n, long) ==> a[i] == a[..][i] == code[i] == ZERO;
    if test.code.Jmp? {
      ghost var jumps := BranchCode(test, dt, df) + Zeros(1 + long.jt + long.jf - |BranchCode(test, dt, df)|);
      OverlayTwice(code, at, body, jumps);
      EmitBranch(a, dst, test, dt, df, long);
      assert CodeOf(n, long, dt, df) == body + jumps;
    } else {
      var ret := Insn(test.code, 0, 0, test.k);
      OverlayTwice(code, at, body, [ret]);
      OverlayZeros(code, at, body + [ret], long.jt + long.jf);
      Put(a, dst, ret);
    }
  }

  lemma OverlayKeeps(code: seq<Insn>, at: nat, part: seq<Insn>)
    requires at + |part| <= |code|
    ensures forall i {:trigger Overlay(code, at, part)[i]} :: at + |part| <= i < |code| ==>
        Overlay(code, at, part)[i] == code[i]
  {
  }

  lemma OverlayZeros(code: seq<Insn>, at: nat, a: seq<Insn>, n: nat)
    requires at + |a| + n <= |code|
    requires forall i :: at + |a| <= i < at + |a| + n ==> code[i] == ZERO
    ensures Overlay(code, at, a) == Overlay(code, at, a + Zeros(n))
  {
  }
}
