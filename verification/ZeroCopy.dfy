/** The zero-copy buffer handshake: a kernel that fills two shared buffers in turn, and a reader
    that takes and returns them, with only the two generation counters of each between them.

    The protocol is a state machine whose reader steps are single loads and stores, so that
    kernel steps may fall between any two of them; the capture handle's methods are then shown
    to be sequences of these steps. */
module ZeroCopy {
  import opened Bpf

  datatype Side = First | Second

  function Other(s: Side): Side {
    if s == First then Second else First
  }

  /** The shared header of one buffer. */
  datatype Header = Header(userGen: Word, kernelGen: Word, kernelLen: Word)

  /** One buffer handed over by the kernel. */
  datatype HandOff = HandOff(side: Side, len: Word)

  datatype Phase =
    | Idle                          // no buffer
    | Seen(side: Side)              // generations compared, length not yet read
    | Holding(side: Side)           // p->buffer points into it
    | Acking(side: Side, gen: Word) // kernel generation loaded, user generation not yet stored

  datatype System = System(
    one: Header, two: Header,
    last: Option<Side>,             // md.zbuffer
    phase: Phase,
    kernelNext: Side,
    given: seq<HandOff>, taken: seq<HandOff>)
  {
    function At(s: Side): Header {
      if s == First then one else two
    }

    function With(s: Side, h: Header): System {
      if s == First then this.(one := h) else this.(two := h)
    }

    /** The buffer the reader looks at: zbuf1 first, then the one it did not have last. */
    function Expected(): Side {
      if last == None || last == Some(Second) then First else Second
    }
  }

  const START: System := System(Header(0, 0, 0), Header(0, 0, 0), None, Idle, First, [], [])

  // ----- Steps -----

  datatype Step = KernelFill(len: Word) | LoadGen | LoadLen | LoadAck | StoreAck

  predicate Enabled(s: System, step: Step) {
    match step
    case KernelFill(_) => s.At(s.kernelNext).userGen == s.At(s.kernelNext).kernelGen
    case LoadGen => s.phase == Idle
    case LoadLen => s.phase.Seen?
    case LoadAck => s.phase.Holding?
    case StoreAck => s.phase.Acking?
  }

  function Next(s: System, step: Step): System
    requires Enabled(s, step)
  {
    match step
    case KernelFill(len) =>
      var h := s.At(s.kernelNext);
      s.With(s.kernelNext, h.(kernelGen := Wrap(h.kernelGen + 1), kernelLen := len))
       .(kernelNext := Other(s.kernelNext), given := s.given + [HandOff(s.kernelNext, len)])
    case LoadGen =>
      var side := s.Expected();
      if s.At(side).userGen != s.At(side).kernelGen then s.(phase := Seen(side), last := Some(side)) else s
    case LoadLen =>
      s.(phase := Holding(s.phase.side), taken := s.taken + [HandOff(s.phase.side, s.At(s.phase.side).kernelLen)])
    case LoadAck =>
      s.(phase := Acking(s.phase.side, s.At(s.phase.side).kernelGen))
    case StoreAck =>
      s.With(s.phase.side, s.At(s.phase.side).(userGen := s.phase.gen)).(phase := Idle)
  }

  /** The states some interleaving of steps leads to. */
  ghost predicate RunsTo(s: System, steps: seq<Step>, t: System)
    decreases |steps|
  {
    if steps == [] then s == t
    else Enabled(s, steps[0]) && RunsTo(Next(s, steps[0]), steps[1..], t)
  }

  // ----- The invariant -----

  /** The side of the n-th hand-off. */
  function SideOf(n: nat): Side {
    if n % 2 == 0 then First else Second
  }

  /** How many of the first n hand-offs are on side `s`. */
  function Uses(n: nat, s: Side): nat {
    if s == First then (n + 1) / 2 else n / 2
  }

  /** Hand-offs the reader has returned. */
  function Acked(s: System): int {
    if s.phase.Holding? || s.phase.Acking? then |s.taken| - 1 else |s.taken|
  }

  /** The generations of one side count its hand-offs and its returns, modulo 2^32. */
  predicate Counted(h: Header, acked: int, given: nat, side: Side)
    requires acked >= 0
  {
    h.kernelGen == Uses(given, side) % TWO32 && h.userGen == Uses(acked, side) % TWO32
  }

  lemma ModSucc(n: nat)
    ensures (n + 1) % TWO32 == (n % TWO32 + 1) % TWO32
  {
    if n % TWO32 == TWO32 - 1 {
      assert n + 1 == (n / TWO32 + 1) * TWO32;
    } else {
      assert n + 1 == (n / TWO32) * TWO32 + (n % TWO32 + 1);
    }
  }

  ghost predicate Invariant(s: System) {
    var a := Acked(s);
    && 0 <= a && a <= |s.given| <= a + 2
    && s.taken <= s.given
    && s.kernelNext == SideOf(|s.given|)
    && (forall i {:trigger s.given[i]} :: 0 <= i < |s.given| ==> s.given[i].side == SideOf(i))
    && Counted(s.one, a, |s.given|, First) && Counted(s.two, a, |s.given|, Second)
    && (forall i {:trigger s.given[i]} :: |s.given| - 2 <= i < |s.given| && 0 <= i ==>
         s.At(SideOf(i)).kernelLen == s.given[i].len)
    && match s.phase
       case Idle => s.last == (if a == 0 then None else Some(SideOf(a - 1)))
       case Seen(side) => side == SideOf(a) && a < |s.given| && s.last == Some(side)
       case Holding(side) => side == SideOf(a) && s.last == Some(side)
       case Acking(side, gen) => side == SideOf(a) && s.last == Some(side) && gen == s.At(side).kernelGen
  }

  /** With at most two hand-offs outstanding, one side's generations are equal exactly when none
      of them is on that side, and otherwise differ by one. */
  lemma GenerationsTell(a: nat, n: nat, side: Side)
    requires a <= n <= a + 2
    ensures Uses(a, side) <= Uses(n, side) <= Uses(a, side) + 1
    ensures Uses(a, side) % TWO32 == Uses(n, side) % TWO32 <==> Uses(a, side) == Uses(n, side)
    ensures Uses(a, side) == Uses(n, side) <==> n == a || (n == a + 1 && side != SideOf(a))
  {
    assert Uses(n, side) == Uses(a, side) || Uses(n, side) == Uses(a, side) + 1;
    if Uses(n, side) == Uses(a, side) + 1 {
      assert (Uses(a, side) + 1) % TWO32 != Uses(a, side) % TWO32;
    }
  }

  lemma InvariantStart()
    ensures Invariant(START)
  {
  }

  lemma OneMore(n: nat)
    ensures SideOf(n + 1) == Other(SideOf(n))
    ensures Uses(n + 1, SideOf(n)) == Uses(n, SideOf(n)) + 1
    ensures Uses(n + 1, Other(SideOf(n))) == Uses(n, Other(SideOf(n)))
    ensures Uses(n + 1, SideOf(n)) % TWO32 == (Uses(n, SideOf(n)) % TWO32 + 1) % TWO32
  {
    ModSucc(Uses(n, SideOf(n)));
  }

  /** A fill counts one hand-off more on the kernel's side. */
  lemma FillCounts(s: System, len: Word)
    requires Invariant(s) && Enabled(s, KernelFill(len))
    ensures var (t, a, n) := (Next(s, KernelFill(len)), Acked(s), |s.given|);
            Counted(t.one, a, n + 1, First) && Counted(t.two, a, n + 1, Second) && n + 1 <= a + 2
  {
    var a, n, k := Acked(s), |s.given|, s.kernelNext;
    GenerationsTell(a, n, k);
    OneMore(n);
    hide Uses, SideOf;
    var t := Next(s, KernelFill(len));
    assert t.At(Other(k)) == s.At(Other(k));
    assert Counted(t.At(k), a, n + 1, k) && Counted(t.At(Other(k)), a, n + 1, Other(k));
  }

  lemma FillKeeps(s: System, len: Word)
    requires Invariant(s) && Enabled(s, KernelFill(len))
    ensures Invariant(Next(s, KernelFill(len)))
  {
    var a, n, k, t := Acked(s), |s.given|, s.kernelNext, Next(s, KernelFill(len));
    FillCounts(s, len);
    OneMore(n);
    if n > 0 {
      OneMore(n - 1);
    }
    hide Uses, SideOf, Counted;
    assert t.At(Other(k)) == s.At(Other(k)) && t.given == s.given + [HandOff(k, len)];
    assert Acked(t) == a && t.phase == s.phase && t.last == s.last;
    forall i | 0 <= i < |t.given|
      ensures t.given[i].side == SideOf(i)
      ensures n - 1 <= i ==> t.At(SideOf(i)).kernelLen == t.given[i].len
    {
      if i < n {
        assert t.given[i] == s.given[i];
      }
    }
  }

  /** The generations of the buffer the reader looks at differ just when a hand-off is waiting, and it is the right
      one. */
  lemma LookTells(s: System)
    requires Invariant(s) && s.phase == Idle
    ensures Acked(s) == |s.taken| && s.Expected() == SideOf(|s.taken|)
    ensures s.At(s.Expected()).userGen != s.At(s.Expected()).kernelGen <==> |s.taken| < |s.given|
  {
    hide *;
    IdleFacts(s);
    var a := |s.taken|;
    GenerationsTell(a, |s.given|, SideOf(a));
  }

  lemma IdleFacts(s: System)
    requires Invariant(s) && s.phase == Idle
    ensures Acked(s) == |s.taken| <= |s.given| <= |s.taken| + 2 && s.Expected() == SideOf(|s.taken|)
    ensures s.At(SideOf(|s.taken|)).userGen == Uses(|s.taken|, SideOf(|s.taken|)) % TWO32
    ensures s.At(SideOf(|s.taken|)).kernelGen == Uses(|s.given|, SideOf(|s.taken|)) % TWO32
  {
    hide Uses;
  }

  lemma LoadGenKeeps(s: System)
    requires Invariant(s) && Enabled(s, LoadGen)
    ensures Invariant(Next(s, LoadGen))
  {
    LookTells(s);
    hide Uses, SideOf, Counted;
    var t := Next(s, LoadGen);
    assert Acked(t) == Acked(s);
  }

  lemma LoadLenKeeps(s: System)
    requires Invariant(s) && Enabled(s, LoadLen)
    ensures Invariant(Next(s, LoadLen))
  {
    var a := Acked(s);
    var t := Next(s, LoadLen);
    assert s.given[a].side == SideOf(a);
    assert s.At(SideOf(a)).kernelLen == s.given[a].len;
    assert t.taken == s.taken + [s.given[a]];
  }

  lemma StoreAckKeeps(s: System)
    requires Invariant(s) && Enabled(s, StoreAck)
    ensures Invariant(Next(s, StoreAck))
  {
    var a, n, k := Acked(s), |s.given|, s.phase.side;
    var t := Next(s, StoreAck);
    assert s.At(Other(k)) == t.At(Other(k));
    assert Uses(a + 1, k) == Uses(a, k) + 1 && Uses(a + 1, Other(k)) == Uses(a, Other(k));
    assert Uses(n, k) == Uses(a + 1, k);
  }

  lemma InvariantStep(s: System, step: Step)
    requires Invariant(s) && Enabled(s, step)
    ensures Invariant(Next(s, step))
  {
    match step
    case KernelFill(len) => FillKeeps(s, len);
    case LoadGen => LoadGenKeeps(s);
    case LoadLen => LoadLenKeeps(s);
    case LoadAck =>
    case StoreAck => StoreAckKeeps(s);
  }

  // ----- Safety -----

  /** What the handshake is for. */
  ghost predicate Safe(s: System) {
    // a buffer in the reader's hands is not the kernel's to fill
    && (!s.phase.Idle? ==> s.At(s.phase.side).userGen != s.At(s.phase.side).kernelGen)
    // every buffer is taken in the order it was handed over, with its length, none twice
    && s.taken <= s.given
    // the counters are equal or one apart
    && (forall side {:trigger s.At(side)} ::
          s.At(side).kernelGen == s.At(side).userGen || s.At(side).kernelGen == (s.At(side).userGen + 1) % TWO32)
    // an idle reader that finds nothing has missed nothing
    && (s.phase.Idle? ==> (s.At(s.Expected()).userGen == s.At(s.Expected()).kernelGen <==> s.taken == s.given))
    // the kernel is held up only while both buffers are outstanding
    && (Enabled(s, KernelFill(0)) <==> |s.given| < Acked(s) + 2)
  }

  lemma InvariantSafe(s: System)
    requires Invariant(s)
    ensures Safe(s)
  {
    var a, n := Acked(s), |s.given|;
    GenerationsTell(a, n, s.Expected());
    GenerationsTell(a, n, s.kernelNext);
    forall side
      ensures s.At(side).kernelGen == s.At(side).userGen || s.At(side).kernelGen == (s.At(side).userGen + 1) % TWO32
    {
      OneApart(s, side);
    }
    if !s.phase.Idle? {
      GenerationsTell(a, n, s.phase.side);
    } else {
      assert s.Expected() == SideOf(a);
      assert s.taken == s.given <==> a == n;
    }
  }

  lemma OneApart(s: System, side: Side)
    requires Invariant(s)
    ensures s.At(side).kernelGen == s.At(side).userGen || s.At(side).kernelGen == (s.At(side).userGen + 1) % TWO32
  {
    var a := Acked(s);
    GenerationsTell(a, |s.given|, side);
    ModSucc(Uses(a, side));
  }

  /** On every interleaving of kernel and reader steps. */
  lemma {:induction false} AlwaysSafe(s: System, steps: seq<Step>, t: System)
    requires Invariant(s) && RunsTo(s, steps, t)
    ensures Invariant(t) && Safe(t)
    decreases |steps|
  {
    if steps == [] {
      InvariantSafe(s);
    } else {
      InvariantStep(s, steps[0]);
      AlwaysSafe(Next(s, steps[0]), steps[1..], t);
    }
  }

  lemma SafeFromStart(steps: seq<Step>, t: System)
    requires RunsTo(START, steps, t)
    ensures Safe(t)
  {
    InvariantStart();
    AlwaysSafe(START, steps, t);
  }

  // ----- What one call does -----

  /** Looking for a buffer: the next hand-off is taken, or there is none. */
  lemma LookTakes(s: System)
    requires Invariant(s) && s.phase == Idle
    ensures var t := Next(s, LoadGen);
            && t.phase.Seen? == (|s.taken| < |s.given|) && t.given == s.given && t.taken == s.taken
            && (t.phase.Seen? ==> var u := Next(t, LoadLen);
                                  Invariant(u) && u.taken == s.given[..|s.taken| + 1] && u.given == s.given)
            && (!t.phase.Seen? ==> Invariant(t) && t.taken == t.given)
  {
    LookTells(s);
    LoadGenKeeps(s);
    var t := Next(s, LoadGen);
    assert s.taken <= s.given;
    if t.phase.Seen? {
      LoadLenKeeps(t);
      TakenPrefix(Next(t, LoadLen));
    }
    hide Invariant;
  }

  lemma TakenPrefix(s: System)
    requires Invariant(s)
    ensures s.taken <= s.given
  {
  }

  /** Returning a buffer. */
  lemma ReturnKeeps(s: System)
    requires Invariant(s) && s.phase.Holding?
    ensures var t := Next(Next(s, LoadAck), StoreAck);
            Invariant(t) && t.phase == Idle && t.given == s.given && t.taken == s.taken
  {
    InvariantStep(s, LoadAck);
    InvariantStep(Next(s, LoadAck), StoreAck);
    hide Invariant;
  }

  // ----- The capture handle -----

  class SharedHeader {
    var userGen: Word
    var kernelGen: Word
    var kernelLen: Word
  }

  class Capture {
    const zbuf1: SharedHeader
    const zbuf2: SharedHeader
    var zbuffer: SharedHeader?    // the buffer used last
    var bzh: SharedHeader?        // the header of the buffer in use
    var buffer: SharedHeader?     // p->buffer: the data behind that header
    var kernelNext: Side          // the kernel's own state
    ghost var given: seq<HandOff>
    ghost var taken: seq<HandOff>

    ghost predicate Valid()
      reads this
    {
      && zbuf1 != zbuf2 && (zbuffer == null || zbuffer == zbuf1 || zbuffer == zbuf2)
      && buffer == bzh && (bzh != null ==> zbuffer == bzh)
    }

    ghost function SideFor(h: SharedHeader): Side {
      if h == zbuf1 then First else Second
    }

    static ghost function HeaderOf(h: SharedHeader): Header
      reads h
    {
      Header(h.userGen, h.kernelGen, h.kernelLen)
    }

    /** The protocol state between two calls. */
    ghost function Abstract(): System
      requires Valid()
      reads this, zbuf1, zbuf2
    {
      System(HeaderOf(zbuf1), HeaderOf(zbuf2),
             if zbuffer == null then None else Some(SideFor(zbuffer)),
             if bzh == null then Idle else Holding(SideFor(bzh)),
             kernelNext, given, taken)
    }

    constructor (a: SharedHeader, b: SharedHeader)
      requires a != b && HeaderOf(a) == HeaderOf(b) == Header(0, 0, 0)
      ensures zbuf1 == a && zbuf2 == b && Valid() && Abstract() == START
    {
      zbuf1, zbuf2 := a, b;
      zbuffer, bzh, buffer := null, null, null;
      kernelNext, given, taken := First, [], [];
    }

    /** The kernel rotates: it may, whenever the generations of its next buffer are equal. */
    method KernelRotates(len: Word)
      requires Valid() && Enabled(Abstract(), KernelFill(len))
      modifies zbuf1, zbuf2, `kernelNext, `given
      ensures Valid() && Abstract() == Next(old(Abstract()), KernelFill(len))
    {
      var h := if kernelNext == First then zbuf1 else zbuf2;
      h.kernelGen := Wrap(h.kernelGen + 1);
      h.kernelLen := len;
      given := given + [HandOff(kernelNext, len)];
      kernelNext := Other(kernelNext);
    }

    /** pcap_next_zbuf_shm: two steps of the protocol when there is data, one when there is none. */
    method NextZbufShm() returns (data: bool, cc: Word)
      requires Valid() && bzh == null
      modifies `bzh, `zbuffer, `buffer, `taken
      ensures Valid() && data == Next(old(Abstract()), LoadGen).phase.Seen?
      ensures data ==> Abstract() == Next(Next(old(Abstract()), LoadGen), LoadLen) && cc == taken[|taken| - 1].len
      ensures !data ==> Abstract() == Next(old(Abstract()), LoadGen) && cc == 0
    {
      if zbuffer == zbuf2 || zbuffer == null {
        if zbuf1.userGen != zbuf1.kernelGen {
          bzh, zbuffer, buffer := zbuf1, zbuf1, zbuf1;
          cc := zbuf1.kernelLen;
          taken := taken + [HandOff(First, cc)];
          return true, cc;
        }
      } else if zbuffer == zbuf1 {
        if zbuf2.userGen != zbuf2.kernelGen {
          bzh, zbuffer, buffer := zbuf2, zbuf2, zbuf2;
          cc := zbuf2.kernelLen;
          taken := taken + [HandOff(Second, cc)];
          return true, cc;
        }
      }
      return false, 0;
    }

    /** pcap_ack_zbuf */
    method AckZbuf()
      requires Valid() && bzh != null
      modifies `bzh, `buffer, zbuf1`userGen, zbuf2`userGen
      ensures Valid() && bzh == null && zbuffer == old(zbuffer) && taken == old(taken)
      ensures Abstract() == Next(Next(old(Abstract()), LoadAck), StoreAck)
    {
      bzh.userGen := bzh.kernelGen;
      bzh := null;
      buffer := null;
    }

    /** The part of pcap_read_bpf that returns the finished buffer and looks for the next one.
        After any history of the protocol the new buffer is the next one the kernel handed over. */
    method Acquire() returns (data: bool, cc: Word)
      requires Valid() && Invariant(Abstract())
      modifies `bzh, `zbuffer, `buffer, `taken, zbuf1`userGen, zbuf2`userGen
      ensures Valid() && Invariant(Abstract()) && given == old(given)
      ensures data <==> |old(taken)| < |given|
      ensures taken == if data then given[..|old(taken)| + 1] else old(taken)
      ensures data ==> cc == given[|old(taken)|].len && bzh != null
      ensures !data ==> cc == 0 && bzh == null && taken == given
    {
      if buffer != null {
        ReturnKeeps(Abstract());
        AckZbuf();
      }
      hide Invariant, Next;
      LookTakes(Abstract());
      data, cc := NextZbufShm();
    }
  }
}
