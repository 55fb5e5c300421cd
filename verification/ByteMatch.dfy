/** Field comparisons, and the matching of a byte string by word, halfword and byte tests. */
module ByteMatch {
  import opened Bpf
  import opened Cfg
  import opened BoolExpr
  import opened BoolGen
  import opened FilterGen

  // ----- gen_ncmp -----

  ghost function LoadStmts(offset: Word, size: Size, mask: Word): seq<Stmt> {
    [Stmt(LdAbs(size), offset)] + if mask != MAX_WORD then [Stmt(Alu(AND, K), mask)] else []
  }

  /** The expression of a field comparison: `(field & mask) op v`, negated when reversed. */
  ghost function FieldExpr(offset: Word, size: Size, mask: Word, op: JmpOp, reverse: bool, v: Word): Expr {
    TestExpr(LoadStmts(offset, size, mask), Stmt(Jmp(op, K), v), reverse && (op == JGT || op == JGE))
  }

  /** gen_ncmp, for offsets relative to the packet. */
  method GenNcmp(offset: Word, size: Size, mask: Word, op: JmpOp, reverse: bool, v: Word)
    returns (b: Block, ghost f: Frag, ghost rank: map<Block, nat>)
    ensures fresh(f.g.Keys) && f.last == b && Compiled(f, FieldExpr(offset, size, mask, op, reverse, v), rank)
  {
    var stmts := [Stmt(LdAbs(size), offset)];
    if mask != MAX_WORD {
      stmts := stmts + [Stmt(Alu(AND, K), mask)];
    }
    assert stmts == LoadStmts(offset, size, mask);
    hide LoadStmts;
    b, f, rank := GenTest(stmts, Stmt(Jmp(op, K), v), reverse && (op == JGT || op == JGE));
  }

  /** The comparison is of the masked field; a field that is not captured faults. */
  lemma FieldMeaning(offset: Word, size: Size, mask: Word, op: JmpOp, reverse: bool, v: Word, st: State, p: Packet)
    ensures var a := Eval(FieldExpr(offset, size, mask, op, reverse, v), st, p);
            match LoadAt(p, offset, size)
            case None => a == FaultedAt
            case Some(w) =>
              a.Decided?
              && a.holds == (Compare(op, BitAnd(w, mask), v) != (reverse && (op == JGT || op == JGE)))
  {
    hide LoadAt, Compare, BitAnd;
    var stmts := LoadStmts(offset, size, mask);
    match LoadAt(p, offset, size)
    case None =>
    case Some(w) =>
      MaskMeaning(stmts[1..], mask, st[A_ATOM := w], p);
      assert ExecAll(stmts, st, p) == ExecAll(stmts[1..], st[A_ATOM := w], p);
  }

  lemma MaskMeaning(stmts: seq<Stmt>, mask: Word, st: State, p: Packet)
    requires stmts == if mask != MAX_WORD then [Stmt(Alu(AND, K), mask)] else []
    ensures ExecAll(stmts, st, p) == Some(st[A_ATOM := BitAnd(st[A_ATOM], mask)])
  {
    if mask != MAX_WORD {
      assert stmts[1..] == [];
    } else {
      BitAndMaxWord(st[A_ATOM]);
      assert st[A_ATOM := st[A_ATOM]] == st;
    }
  }

  // ----- gen_bcmp -----

  lemma BigEndianInjective(a3: Byte, a2: Byte, a1: Byte, a0: Byte, b3: Byte, b2: Byte, b1: Byte, b0: Byte)
    ensures BigEndian(a3, a2, a1, a0) == BigEndian(b3, b2, b1, b0) <==> a3 == b3 && a2 == b2 && a1 == b1 && a0 == b0
  {
    var (x2, y2) := (256 * a3 + a2, 256 * b3 + b2);
    var (x1, y1) := (256 * x2 + a1, 256 * y2 + b1);
    assert BigEndian(a3, a2, a1, a0) == 256 * x1 + a0 && BigEndian(b3, b2, b1, b0) == 256 * y1 + b0;
    hide BigEndian;
    LastByte(a3, a2, b3, b2);
    LastByte(x2, a1, y2, b1);
    LastByte(x1, a0, y1, b0);
  }

  lemma LastByte(x: int, a: Byte, y: int, b: Byte)
    ensures 256 * x + a == 256 * y + b <==> x == y && a == b
  {
  }

  function Chunk(v: seq<Byte>, size: Size): Word
    requires |v| == Width(size)
  {
    match size
    case B => v[0]
    case H => BigEndian(0, 0, v[0], v[1])
    case W => BigEndian(v[0], v[1], v[2], v[3])
  }

  /** `e` compares the packet's bytes from `offset + from` with `v[from..]`, and faults on
      packets that end before `offset + |v|`. */
  ghost predicate MatchesTail(e: Expr, offset: nat, from: nat, v: seq<Byte>)
    requires WellFormed(e) && from <= |v|
  {
    forall st, p {:trigger Eval(e, st, p)} :: TailAnswer(Eval(e, st, p), offset, from, v, p)
  }

  ghost predicate TailAnswer(a: Answer, offset: nat, from: nat, v: seq<Byte>, p: Packet)
    requires from <= |v|
  {
    if offset + |v| > |p.data| then a == FaultedAt
    else a.Decided? && a.holds == (p.data[offset + from..offset + |v|] == v[from..])
  }

  /** One comparison decides one chunk. */
  lemma ChunkMeaning(offset: Word, size: Size, v: seq<Byte>, st: State, p: Packet)
    requires |v| == Width(size)
    ensures var a := Eval(FieldExpr(offset, size, MAX_WORD, JEQ, false, Chunk(v, size)), st, p);
            if offset + |v| > |p.data| then a == FaultedAt
            else a.Decided? && a.holds == (p.data[offset..offset + |v|] == v)
  {
    FieldMeaning(offset, size, MAX_WORD, JEQ, false, Chunk(v, size), st, p);
    if offset + |v| <= |p.data| {
      hide BitAnd, Eval, FieldExpr;
      var d := p.data[offset..offset + |v|];
      assert forall i :: 0 <= i < |v| ==> d[i] == p.data[offset + i];
      BitAndMaxWord(Chunk(d, size));
      ChunkInjective(d, v, size);
    }
  }

  lemma ChunkInjective(d: seq<Byte>, v: seq<Byte>, size: Size)
    requires |d| == |v| == Width(size)
    ensures Chunk(d, size) == Chunk(v, size) <==> d == v
  {
    match size
    case B =>
      assert d == v <==> d[0] == v[0];
    case H =>
      BigEndianInjective(0, 0, d[0], d[1], 0, 0, v[0], v[1]);
      assert d == v <==> d[0] == v[0] && d[1] == v[1];
    case W =>
      BigEndianInjective(d[0], d[1], d[2], d[3], v[0], v[1], v[2], v[3]);
      assert d == v <==> d[0] == v[0] && d[1] == v[1] && d[2] == v[2] && d[3] == v[3];
  }

  ghost function ChunkExpr(offset: nat, from: nat, size: Size, v: seq<Byte>): Expr
    requires from + Width(size) <= |v| && offset + |v| <= TWO32
  {
    FieldExpr(offset + from, size, MAX_WORD, JEQ, false, Chunk(v[from..from + Width(size)], size))
  }

  lemma FirstChunk(offset: nat, from: nat, size: Size, v: seq<Byte>)
    requires from + Width(size) == |v| && offset + |v| <= TWO32
    ensures MatchesTail(ChunkExpr(offset, from, size, v), offset, from, v)
  {
    forall st, p
      ensures TailAnswer(Eval(ChunkExpr(offset, from, size, v), st, p), offset, from, v, p)
    {
      ChunkMeaning(offset + from, size, v[from..from + Width(size)], st, p);
    }
  }

  /** Two slices are equal when their parts are. */
  lemma SplitEqual(data: seq<Byte>, lo: nat, mid: nat, hi: nat, v: seq<Byte>, from: nat)
    requires lo <= mid <= hi <= |data| && from + (hi - lo) == |v|
    ensures data[lo..hi] == v[from..] <==>
        data[lo..mid] == v[from..from + (mid - lo)] && data[mid..hi] == v[from + (mid - lo)..]
  {
    var d, w, k := data[lo..hi], v[from..], mid - lo;
    assert d[..k] == data[lo..mid] && d[k..] == data[mid..hi];
    assert w[..k] == v[from..from + k] && w[k..] == v[from + k..];
    assert d == d[..k] + d[k..] && w == w[..k] + w[k..];
  }

  /** The tail's answer, and then the chunk's if the tail matches, is the answer for both. */
  lemma TailAnd(a: Answer, b: Answer, offset: nat, from: nat, mid: nat, v: seq<Byte>, p: Packet)
    requires from <= mid <= |v| && TailAnswer(a, offset, mid, v, p)
    requires a.Decided? && offset + mid <= |p.data| ==>
              b.Decided? && b.holds == (p.data[offset + from..offset + mid] == v[from..mid])
    ensures TailAnswer(if a.Decided? && a.holds then b else a, offset, from, v, p)
  {
    if offset + |v| <= |p.data| {
      SplitEqual(p.data, offset + from, offset + mid, offset + |v|, v, from);
      Slices(p.data, offset, from, mid, v);
    }
  }

  lemma Slices(data: seq<Byte>, offset: nat, from: nat, mid: nat, v: seq<Byte>)
    requires from <= mid <= |v| && offset + |v| <= |data|
    ensures v[from..from + (mid - from)] == v[from..mid] && v[from + (mid - from)..] == v[mid..]
  {
  }

  lemma EvalAnd(l: Expr, r: Expr, st: State, p: Packet)
    requires WellFormed(l) && WellFormed(r)
    ensures var a := Eval(l, st, p);
            Eval(And(l, r), st, p) == if a.Decided? && a.holds then Eval(r, a.st, p) else a
  {
  }

  /** A chunk in front of a tail that is already compared. */
  lemma NextChunk(e: Expr, offset: nat, from: nat, size: Size, v: seq<Byte>)
    requires from + Width(size) < |v| && offset + |v| <= TWO32
    requires WellFormed(e) && MatchesTail(e, offset, from + Width(size), v)
    ensures MatchesTail(And(e, ChunkExpr(offset, from, size, v)), offset, from, v)
  {
    var c := ChunkExpr(offset, from, size, v);
    var mid := from + Width(size);
    forall st, p
      ensures TailAnswer(Eval(And(e, c), st, p), offset, from, v, p)
    {
      var a := Eval(e, st, p);
      assert TailAnswer(a, offset, mid, v, p);
      var b := if a.Decided? then Eval(c, a.st, p) else a;
      if a.Decided? {
        ChunkMeaning(offset + from, size, v[from..mid], a.st, p);
      }
      hide Eval, FieldExpr, TailAnswer;
      EvalAnd(e, c, st, p);
      TailAnd(a, b, offset, from, mid, v, p);
    }
  }

  /** How many comparisons `n` bytes take: one for every four, and then one for two and one for the last. */
  function Comparisons(n: nat): nat {
    n / 4 + n % 4 / 2 + n % 2
  }

  ghost function KeysOf(f: Option<Frag>): set<Block> {
    if f.Some? then f.value.g.Keys else {}
  }

  /** The block built so far, if any, compares the string from index `from` on. */
  ghost predicate Matching(b: Block?, f: Option<Frag>, e: Expr, rank: map<Block, nat>, offset: nat, from: nat,
                           v: seq<Byte>)
    reads KeysOf(f)
  {
    && from <= |v| && (f.Some? <==> b != null) && (b == null <==> from == |v|)
    && (b != null ==>
         && f.value.last == b && WellFormed(e) && Compiled(f.value, e, rank) && MatchesTail(e, offset, from, v)
         && Prims(e) + Comparisons(from) == Comparisons(|v|))
  }

  /** gen_bcmp, for offsets relative to the packet: words, then halfwords, then a byte, from the
      end of the string; NULL for the empty string. */
  method GenBcmp(offset: nat, v: seq<Byte>)
      returns (b: Block?, ghost f: Option<Frag>, ghost e: Expr, ghost rank: map<Block, nat>)
    requires offset + |v| <= TWO32
    ensures Matching(b, f, e, rank, offset, 0, v)
    ensures forall x :: x in KeysOf(f) ==> fresh(x)
  {
    hide *;
    var size := |v|;
    b, f, e, rank := MatchStart(offset, v);
    size, b, f, e, rank := ChunkLoop(offset, size, W, v, b, f, e, rank);
    Widths();
    size, b, f, e, rank := ChunkLoop(offset, size, H, v, b, f, e, rank);
    if size > 0 {
      OneMore(B, size);
      b, f, e, rank := AddChunk(offset, 0, B, v, b, f, e, rank);
    }
  }

  lemma OneMore(size: Size, n: nat)
    requires Width(size) <= n && (size == H ==> n < 4) && (size == B ==> n < 2)
    ensures Comparisons(n) == Comparisons(n - Width(size)) + 1
  {
  }

  lemma Widths()
    ensures Width(W) == 4 && Width(H) == 2 && Width(B) == 1
  {
  }

  /** Nothing has been built. */
  method MatchStart(offset: nat, v: seq<Byte>)
      returns (b: Block?, ghost f: Option<Frag>, ghost e: Expr, ghost rank: map<Block, nat>)
    ensures Matching(b, f, e, rank, offset, |v|, v) && KeysOf(f) == {}
  {
    b, f, e, rank := null, None, Prim([], Stmt(Jmp(JEQ, K), 0)), map[];
  }

  /** One loop of gen_bcmp: chunks of one size while the string is long enough. */
  method ChunkLoop(offset: nat, size0: nat, unit: Size, v: seq<Byte>, b0: Block?, ghost f0: Option<Frag>,
                   ghost e0: Expr, ghost rank0: map<Block, nat>)
      returns (size: nat, b: Block?, ghost f: Option<Frag>, ghost e: Expr, ghost rank: map<Block, nat>)
    requires offset + |v| <= TWO32 && size0 <= |v| && Matching(b0, f0, e0, rank0, offset, size0, v)
    requires unit == W || (unit == H && size0 < 4)
    modifies KeysOf(f0)
    ensures size <= size0 && size < Width(unit) && Matching(b, f, e, rank, offset, size, v)
    ensures forall x :: x in KeysOf(f) ==> x in KeysOf(f0) || fresh(x)
  {
    hide Matching, KeysOf;
    size, b, f, e, rank := size0, b0, f0, e0, rank0;
    while size >= Width(unit)
      invariant size <= size0 && Matching(b, f, e, rank, offset, size, v)
      invariant forall x :: x in KeysOf(f) ==> x in KeysOf(f0) || fresh(x)
    {
      OneMore(unit, size);
      b, f, e, rank := AddChunk(offset, size - Width(unit), unit, v, b, f, e, rank);
      size := size - Width(unit);
    }
  }

  /** One step of gen_bcmp: the comparison of the chunk at `from`, and-ed to those behind it. */
  method AddChunk(offset: nat, from: nat, size: Size, v: seq<Byte>, b0: Block?, ghost f0: Option<Frag>, ghost e0: Expr,
                  ghost rank0: map<Block, nat>)
      returns (b: Block, ghost f: Option<Frag>, ghost e: Expr, ghost rank: map<Block, nat>)
    requires from + Width(size) <= |v| && offset + |v| <= TWO32
    requires Matching(b0, f0, e0, rank0, offset, from + Width(size), v)
    requires Comparisons(from + Width(size)) == Comparisons(from) + 1
    modifies KeysOf(f0)
    ensures Matching(b, f, e, rank, offset, from, v)
    ensures forall x :: x in KeysOf(f) ==> x in KeysOf(f0) || fresh(x)
  {
    ghost var f1;
    if b0 == null {
      FirstChunk(offset, from, size, v);
      b, f1, e, rank := GenChunk(offset, from, size, v);
    } else {
      NextChunk(e0, offset, from, size, v);
      b, f1, e, rank := AndChunk(offset, from, size, v, b0, f0.value, e0, rank0);
    }
    f := Some(f1);
  }

  method GenChunk(offset: nat, from: nat, size: Size, v: seq<Byte>)
    returns (b: Block, ghost f: Frag, ghost e: Expr, ghost rank: map<Block, nat>)
    requires from + Width(size) <= |v| && offset + |v| <= TWO32
    ensures fresh(f.g.Keys) && f.last == b && b in f.g && e == ChunkExpr(offset, from, size, v) && WellFormed(e)
    ensures Compiled(f, e, rank)
  {
    e := ChunkExpr(offset, from, size, v);
    b, f, rank := GenNcmp(offset + from, size, MAX_WORD, JEQ, false, Chunk(v[from..from + Width(size)], size));
  }

  method AndChunk(offset: nat, from: nat, size: Size, v: seq<Byte>, b0: Block, ghost f0: Frag, ghost e0: Expr,
                  ghost rank0: map<Block, nat>)
      returns (b: Block, ghost f: Frag, ghost e: Expr, ghost rank: map<Block, nat>)
    requires from + Width(size) <= |v| && offset + |v| <= TWO32
    requires WellFormed(e0) && f0.last == b0 && Compiled(f0, e0, rank0)
    modifies f0.g.Keys
    ensures f.last == b && e == And(e0, ChunkExpr(offset, from, size, v)) && WellFormed(e) && Compiled(f, e, rank)
    ensures forall x :: x in f.g ==> x in f0.g || fresh(x)
  {
    hide *;
    ghost var f1, e1, rank1;
    b, f1, e1, rank1 := GenChunk(offset, from, size, v);
    AndFormed(f0, e0, e1, rank0);
    f, rank := AndCompiled(b0, b, f0, f1, e0, e1, rank0, rank1);
    e := And(e0, e1);
  }

  lemma AndFormed(f: Frag, l: Expr, r: Expr, rank: map<Block, nat>)
    requires WellFormed(l) && WellFormed(r) && Compiled(f, l, rank)
    ensures WellFormed(And(l, r)) && f.last in f.g
  {
  }

  /** What a byte-string filter answers. */
  ghost function ByteVerdict(offset: nat, v: seq<Byte>, snaplen: Word, p: Packet): Outcome {
    if offset + |v| > |p.data| then Faulted
    else Returned(if p.data[offset..offset + |v|] == v then snaplen else 0)
  }

  /** A filter on a byte string returns `snaplen` exactly for the packets that carry it at `offset`; a packet too short
      for it is rejected by a fault. No run passes more blocks than the comparisons there are, and a return. */
  method ByteStringFilter(offset: nat, v: seq<Byte>, snaplen: Word)
      returns (root: Block, ghost S: set<Block>, ghost need: nat)
    requires v != [] && offset + |v| <= TWO32
    ensures fresh(S) && root in S && need == Comparisons(|v|) + 1
    ensures forall st, p, fuel: nat {:trigger Run(GraphOf(S), root, st, p, fuel)} ::
              fuel >= need ==> Run(GraphOf(S), root, st, p, fuel) == ByteVerdict(offset, v, snaplen, p)
  {
    hide *;
    var b, f, e, rank := GenBcmp(offset, v);
    WholeMatch(b, f, e, rank, offset, v);
    ghost var yes, no;
    root, yes, no := FinishParse(b, snaplen, f.value);
    S := f.value.g.Keys + {yes, no};
    need := Prims(e) + 1;
    StringVerdict(f.value, e, rank, yes, no, offset, v, snaplen);
  }

  lemma WholeMatch(b: Block?, f: Option<Frag>, e: Expr, rank: map<Block, nat>, offset: nat, v: seq<Byte>)
    requires Matching(b, f, e, rank, offset, 0, v) && v != []
    ensures b != null && f.Some? && f.value.last == b && WellFormed(e) && MatchesTail(e, offset, 0, v)
    ensures KeysOf(f) == f.value.g.Keys && f.value.last in f.value.g
    ensures Represents(f.value) && f.value.head in f.value.g && Computes(f.value.g, f.value.head, e)
    ensures Layered(f.value.g, rank, Prims(e)) && Prims(e) == Comparisons(|v|)
  {
    hide Compiled, MatchesTail;
    assert Comparisons(0) == 0;
    CompiledParts(f.value, e, rank);
  }

  lemma StringVerdict(f: Frag, e: Expr, rank: map<Block, nat>, yes: Block, no: Block, offset: nat, v: seq<Byte>,
                      snaplen: Word)
    requires WellFormed(e) && f.head in f.g && Computes(f.g, f.head, e) && Layered(f.g, rank, Prims(e))
    requires yes !in f.g && no !in f.g && yes != no && MatchesTail(e, offset, 0, v)
    ensures forall st, p, fuel: nat {:trigger Run(CloseAll(f.g, yes, no, snaplen), f.head, st, p, fuel)} ::
              fuel >= Prims(e) + 1 ==>
                  Run(CloseAll(f.g, yes, no, snaplen), f.head, st, p, fuel) == ByteVerdict(offset, v, snaplen, p)
  {
    hide *;
    FilterCorrect(f, e, rank, yes, no, snaplen);
    MatchVerdicts(e, offset, v, snaplen);
  }

  lemma MatchVerdicts(e: Expr, offset: nat, v: seq<Byte>, snaplen: Word)
    requires WellFormed(e) && MatchesTail(e, offset, 0, v)
    ensures forall st, p :: Verdict(Eval(e, st, p), snaplen) == ByteVerdict(offset, v, snaplen, p)
  {
    forall st, p
      ensures Verdict(Eval(e, st, p), snaplen) == ByteVerdict(offset, v, snaplen, p)
    {
      assert TailAnswer(Eval(e, st, p), offset, 0, v, p);
      assert v[0..] == v;
    }
  }
}
