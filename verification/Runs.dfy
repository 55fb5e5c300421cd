/** Runs from the root, block by block. */
module Runs {
  import opened Bpf
  import opened Cfg
  import opened Paths

  datatype At = At(b: Block, st: State)

  /** Where the run from `root` stands after `n` blocks: the next block and its entry state. */
  ghost function RunTo(g: Graph, root: Block, st: State, p: Packet, n: nat): Option<At> {
    if n == 0 then Some(At(root, st))
    else match RunTo(g, root, st, p, n - 1)
      case None => None
      case Some(at) => Advance(g, at, p)
  }

  ghost function Advance(g: Graph, at: At, p: Packet): Option<At> {
    if at.b !in g || !g[at.b].test.code.Jmp? then None
    else match ExecAll(g[at.b].stmts, at.st, p)
      case None => None
      case Some(st1) =>
        var c := Succ(g[at.b], Taken(g[at.b].test, st1));
        if c == null then None else Some(At(c, st1))
  }

  lemma {:induction false} RunToReach(g: Graph, rank: map<Block, nat>, root: Block, st: State, p: Packet, n: nat)
    requires Dag(g, rank) && root in g && RunTo(g, root, st, p, n).Some?
    ensures RunTo(g, root, st, p, n).value.b in Reach(g, rank, root)
    decreases n
  {
    if n > 0 {
      RunToReach(g, rank, root, st, p, n - 1);
      var at := RunTo(g, root, st, p, n - 1).value;
      var s := Taken(g[at.b].test, ExecAll(g[at.b].stmts, at.st, p).value);
      EntersLower(g, rank, root, at.b, s, Succ(g[at.b], s));
    }
  }

  /** A run, one block at a time. */
  lemma RunUnfold(g: Graph, at: At, p: Packet, fuel: nat)
    requires at.b in g
    ensures Run(g, at.b, at.st, p, fuel)
         == if fuel == 0 then Unfinished
            else match ExecAll(g[at.b].stmts, at.st, p)
              case None => Faulted
              case Some(st1) =>
                match g[at.b].test.code
                case Ret => Returned(g[at.b].test.k)
                case Jmp(_, _) => Run(g, Succ(g[at.b], Taken(g[at.b].test, st1)), st1, p, fuel - 1)
                case _ => Unfinished
  {
  }

  lemma RunStarts(g: Graph, root: Block, st: State, p: Packet)
    ensures RunTo(g, root, st, p, 0) == Some(At(root, st))
  {
  }

  lemma RunToNext(g: Graph, root: Block, st: State, p: Packet, n: nat)
    requires RunTo(g, root, st, p, n).Some? && RunTo(g, root, st, p, n).value.b in g
    ensures var at := RunTo(g, root, st, p, n).value;
            g[at.b].test.code.Jmp? && ExecAll(g[at.b].stmts, at.st, p).Some? ==>
              var st1 := ExecAll(g[at.b].stmts, at.st, p).value;
              var c := Succ(g[at.b], Taken(g[at.b].test, st1));
              RunTo(g, root, st, p, n + 1) == if c == null then None else Some(At(c, st1))
  {
  }
}
