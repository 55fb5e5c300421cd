/** Sums of a per-block count over a set of blocks. */
module BlockSums {
  import opened Cfg

  ghost function LenOf(lens: map<Block, nat>, b: Block): nat {
    if b in lens then lens[b] else 0
  }

  ghost function SetLen(s: set<Block>, lens: map<Block, nat>): nat {
    if s == {} then 0 else var x :| x in s; LenOf(lens, x) + SetLen(s - {x}, lens)
  }

  lemma {:induction false} SetLenRemove(s: set<Block>, lens: map<Block, nat>, x: Block)
    requires x in s
    ensures SetLen(s, lens) == LenOf(lens, x) + SetLen(s - {x}, lens)
    decreases s
  {
    var y :| y in s && SetLen(s, lens) == LenOf(lens, y) + SetLen(s - {y}, lens);
    if y != x {
      SetLenRemove(s - {y}, lens, x);
      SetLenRemove(s - {x}, lens, y);
      assert s - {y} - {x} == s - {x} - {y};
    }
  }

  lemma {:induction false} SetLenUnion(s: set<Block>, t: set<Block>, lens: map<Block, nat>)
    requires s !! t
    ensures SetLen(s + t, lens) == SetLen(s, lens) + SetLen(t, lens)
    decreases s
  {
    if s == {} {
      assert s + t == t;
    } else {
      var x :| x in s;
      SetLenRemove(s, lens, x);
      SetLenRemove(s + t, lens, x);
      assert s + t - {x} == (s - {x}) + t;
      SetLenUnion(s - {x}, t, lens);
    }
  }

  lemma {:induction false} SetLenSubset(s: set<Block>, t: set<Block>, lens: map<Block, nat>)
    requires s <= t
    ensures SetLen(s, lens) <= SetLen(t, lens)
  {
    assert s + (t - s) == t;
    SetLenUnion(s, t - s, lens);
  }

  /** Counts compared block by block: one more for each block. */
  lemma {:induction false} SetLenBelow(s: set<Block>, small: map<Block, nat>, large: map<Block, nat>)
    requires s <= small.Keys && s <= large.Keys && forall b :: b in s ==> small[b] < large[b]
    ensures SetLen(s, small) + |s| <= SetLen(s, large)
    decreases s
  {
    if s != {} {
      var x :| x in s;
      SetLenRemove(s, small, x);
      SetLenRemove(s, large, x);
      SetLenBelow(s - {x}, small, large);
      assert |s| == |s - {x}| + 1;
    }
  }
}
