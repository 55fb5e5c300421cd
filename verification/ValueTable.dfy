/** The value-number table: F hands out one number per triple (code, v0, v1), through
    213 hash chains, and vmap remembers which numbers are constants. */
module ValueTable {
  import opened Bpf

  const MODULUS: int := 213

  datatype Key = Key(code: Code, v0: nat, v1: nat)
  datatype ValNode = ValNode(key: Key, val: nat)
  datatype VmapInfo = VmapInfo(isConst: bool, constVal: nat)

  // ----- What the table stands for: the triples in the order of their numbers -----

  ghost predicate Distinct(keys: seq<Key>) {
    forall i, j :: 0 <= i < j < |keys| ==> keys[i] != keys[j]
  }

  /** The number of a triple: numbers start at 1, 0 means "unknown". */
  function Number(keys: seq<Key>, key: Key): (v: nat)
    ensures key in keys ==> 1 <= v <= |keys| && keys[v - 1] == key
    ensures key !in keys ==> v == |keys| + 1
  {
    if keys == [] then 1 else if keys[0] == key then 1 else 1 + Number(keys[1..], key)
  }

  function Extend(keys: seq<Key>, key: Key): seq<Key> {
    if key in keys then keys else keys + [key]
  }

  predicate Immediate(code: Code) {
    code == LdImm || code == LdxImm
  }

  predicate IsConst(keys: seq<Key>, v: nat) {
    1 <= v <= |keys| && Immediate(keys[v - 1].code)
  }

  function ConstVal(keys: seq<Key>, v: nat): nat
    requires IsConst(keys, v)
  {
    keys[v - 1].v0
  }

  /** The triple of a constant: K(i). */
  function ConstKey(i: nat): Key {
    Key(LdImm, i, 0)
  }

  lemma NumberUnique(keys: seq<Key>, v: nat)
    requires Distinct(keys) && 1 <= v <= |keys|
    ensures Number(keys, keys[v - 1]) == v
  {
    var n := Number(keys, keys[v - 1]);
    assert keys[v - 1] in keys;
    assert keys[n - 1] == keys[v - 1];
  }

  lemma ExtendDistinct(keys: seq<Key>, key: Key)
    requires Distinct(keys)
    ensures Distinct(Extend(keys, key)) && keys <= Extend(keys, key) && key in Extend(keys, key)
    ensures |Extend(keys, key)| <= |keys| + 1
  {
  }

  /** Numbers never change as the table grows. */
  lemma NumberStable(keys: seq<Key>, more: seq<Key>, key: Key)
    requires keys <= more && Distinct(more) && key in keys
    ensures key in more && Number(more, key) == Number(keys, key)
  {
    var v := Number(keys, key);
    assert more[v - 1] == key;
    NumberUnique(more, v);
  }

  /** Distinct triples have distinct numbers; in particular distinct constants do. */
  lemma NumbersApart(keys: seq<Key>, k1: Key, k2: Key)
    requires k1 in keys && k2 in keys
    ensures Number(keys, k1) == Number(keys, k2) <==> k1 == k2
  {
    assert keys[Number(keys, k1) - 1] == k1 && keys[Number(keys, k2) - 1] == k2;
  }

  // ----- The hash -----

  function Xor(a: nat, b: nat): nat {
    a + b - 2 * BitAnd(a, b)
  }

  function SizeBits(size: Size): nat {
    match size case W => 0x00 case H => 0x08 case B => 0x10
  }

  function OpBits(op: AluOp): nat {
    match op
    case ADD => 0x00 case SUB => 0x10 case MUL => 0x20 case DIV => 0x30
    case OR => 0x40 case AND => 0x50 case LSH => 0x60 case RSH => 0x70
  }

  function JmpBits(op: JmpOp): nat {
    match op case JEQ => 0x10 case JGT => 0x20 case JGE => 0x30 case JSET => 0x40
  }

  function SrcBits(src: Src): nat {
    match src case K => 0x00 case X => 0x08
  }

  /** The instruction encodings. */
  function Opcode(code: Code): nat {
    match code
    case Nop => MAX_WORD
    case LdAbs(size) => 0x20 + SizeBits(size)
    case LdInd(size) => 0x40 + SizeBits(size)
    case LdLen => 0x80
    case LdImm => 0x00
    case LdMem => 0x60
    case LdxImm => 0x01
    case LdxMsh => 0x01 + 0xa0 + 0x10
    case LdxMem => 0x01 + 0x60
    case St => 0x02
    case Stx => 0x03
    case Alu(op, src) => 0x04 + OpBits(op) + SrcBits(src)
    case Neg => 0x04 + 0x80
    case Tax => 0x07
    case Txa => 0x07 + 0x80
    case Jmp(jop, jsrc) => 0x05 + JmpBits(jop) + SrcBits(jsrc)
    case Ja => 0x05
    case Ret => 0x06
  }

  function Hash(key: Key): (h: nat)
    ensures h < MODULUS
  {
    Xor(Xor(Opcode(key.code), key.v0 * 16 % TWO32), key.v1 * 256 % TWO32) % MODULUS
  }

  // ----- The table -----

  class Table {
    const hashtbl: array<seq<ValNode>>
    const vmap: array<VmapInfo>
    var curval: nat
    ghost var keys: seq<Key>

    /** Every chain holds exactly the triples with its hash. */
    ghost predicate Chained()
      reads this`keys, hashtbl
    {
      && hashtbl.Length == MODULUS
      && (forall h, n :: 0 <= h < MODULUS && n in hashtbl[h] ==>
            1 <= n.val <= |keys| && keys[n.val - 1] == n.key && Hash(n.key) == h)
      && (forall i {:trigger keys[i]} :: 0 <= i < |keys| ==> ValNode(keys[i], i + 1) in hashtbl[Hash(keys[i])])
    }

    /** vmap knows exactly the constants. */
    ghost predicate Mapped()
      reads this`keys, vmap
    {
      forall v {:trigger vmap[v]} :: 0 <= v < vmap.Length ==>
          vmap[v] == if IsConst(keys, v) then VmapInfo(true, ConstVal(keys, v)) else VmapInfo(false, 0)
    }

    ghost predicate Valid()
      reads this`keys, this`curval, hashtbl, vmap
    {
      curval == |keys| < vmap.Length && Distinct(keys) && Chained() && Mapped()
    }

    /** opt_init's allocation, and init_val. */
    constructor (maxval: nat)
      requires maxval > 0
      ensures Valid() && keys == [] && vmap.Length == maxval && fresh(hashtbl) && fresh(vmap)
    {
      hashtbl := new seq<ValNode>[MODULUS](_ => []);
      vmap := new VmapInfo[maxval](_ => VmapInfo(false, 0));
      curval := 0;
      keys := [];
    }

    method InitVal()
      requires hashtbl.Length == MODULUS && vmap.Length > 0
      modifies this, hashtbl, vmap
      ensures Valid() && keys == []
    {
      curval := 0;
      keys := [];
      forall v | 0 <= v < vmap.Length {
        vmap[v] := VmapInfo(false, 0);
      }
      forall h | 0 <= h < hashtbl.Length {
        hashtbl[h] := [];
      }
    }

    /** Walks one chain for the triple. */
    method Lookup(key: Key, hash: nat) returns (val: nat)
      requires Valid() && hash == Hash(key)
      ensures if key in keys then val == Number(keys, key) else val == 0
    {
      var p := hashtbl[hash];
      while p != []
        invariant forall n :: n in p ==> n in hashtbl[hash]
        invariant forall n :: n in hashtbl[hash] && n.key == key ==> n in p
        decreases |p|
      {
        if p[0].key == key {
          assert p[0] in hashtbl[hash];
          NumberUnique(keys, p[0].val);
          return p[0].val;
        }
        assert p == [p[0]] + p[1..];
        p := p[1..];
      }
      val := 0;
    }

    /** Puts a new triple at the head of its chain. */
    method Insert(key: Key, hash: nat) returns (val: nat)
      requires Valid() && hash == Hash(key) && key !in keys && curval + 1 < vmap.Length
      modifies this, hashtbl, vmap
      ensures Valid() && keys == old(keys) + [key] && val == |keys|
    {
      hide Hash, Number;
      curval := curval + 1;
      val := curval;
      if Immediate(key.code) {
        vmap[val] := VmapInfo(true, key.v0);
      }
      hashtbl[hash] := [ValNode(key, val)] + hashtbl[hash];
      keys := keys + [key];
      assert keys[val - 1] == key;
      assert forall h, n :: 0 <= h < MODULUS && n in hashtbl[h] ==> n == ValNode(key, val) || n in old(hashtbl[h]);
    }

    /** F(code, v0, v1). The tables have room for maxval numbers, 0 included. */
    method F(code: Code, v0: nat, v1: nat) returns (val: nat)
      requires Valid() && curval + 1 < vmap.Length
      modifies this, hashtbl, vmap
      ensures Valid() && keys == Extend(old(keys), Key(code, v0, v1))
      ensures val == Number(keys, Key(code, v0, v1))
    {
      var key := Key(code, v0, v1);
      var hash := Hash(key);
      val := Lookup(key, hash);
      if val == 0 {
        val := Insert(key, hash);
        assert keys[val - 1] == key;
        NumberUnique(keys, val);
      }
    }
  }
}
