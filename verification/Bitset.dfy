/**
  The checker's bitset: words of 64 bits, changed in place, standing for a set of
  naturals.  `Canon` is the one array of words that stands for a set; every operation is
  proved to take it to the `Canon` of the new set.
 */
module Bitset {

  function Mask(i: nat): bv64
    requires i < 64
  {
    (1 as bv64) << i
  }

  // The word operations of the source, by name.
  function Or(x: bv64, y: bv64): bv64 { x | y }

  function AndNot(x: bv64, y: bv64): bv64 { x & !y }

  predicate Meets(x: bv64, y: bv64) { x & y != 0 }

  predicate Bit(w: bv64, i: nat)
    requires i < 64
  {
    Meets(w, Mask(i))
  }

  // The word whose first k bits are the members base, base+1, ... of d.
  function WordOf(d: set<int>, base: nat, k: nat): bv64
    requires k <= 64
  {
    if k == 0 then 0
    else if base + k - 1 in d then Or(WordOf(d, base, k - 1), Mask(k - 1))
    else WordOf(d, base, k - 1)
  }

  function Canon(d: set<int>, len: nat): (words: seq<bv64>)
    ensures |words| == len
    ensures forall i :: 0 <= i < len ==> words[i] == WordOf(d, 64 * i, 64)
  {
    seq(len, i requires 0 <= i < len => WordOf(d, 64 * i, 64))
  }

  // ------------------------------------------------------------------ one word

  lemma MasksDiffer(i: nat, j: nat)
    requires i < 64 && j < 64
    ensures Meets(Mask(i), Mask(j)) <==> i == j
  {
  }

  // What the word operations do, mask by mask.
  lemma MeetsOr(x: bv64, y: bv64, m: bv64)
    ensures Meets(Or(x, y), m) <==> Meets(x, m) || Meets(y, m)
    ensures !Meets(0, m)
  {
    calc {
      Meets(Or(x, y), m);
      (x | y) & m != 0;
      { Distribute(x, y, m); }
      (x & m) | (y & m) != 0;
      { NoneIfNeither(x & m, y & m); }
      x & m != 0 || y & m != 0;
    }
  }

  lemma Distribute(x: bv64, y: bv64, m: bv64)
    ensures (x | y) & m == (x & m) | (y & m)
  {
  }

  lemma NoneIfNeither(x: bv64, y: bv64)
    ensures x | y == 0 <==> x == 0 && y == 0
  {
  }

  lemma OrOr(x: bv64, y: bv64, m: bv64)
    ensures Or(Or(x, y), m) == Or(Or(x, m), y)
  {
    OrAssoc(x, y, m);
    OrAssoc(x, m, y);
    assert Or(y, m) == Or(m, y);
    hide Or;
  }

  lemma OrAssoc(x: bv64, y: bv64, z: bv64)
    ensures Or(Or(x, y), z) == Or(x, Or(y, z))
  {
    calc {
      Or(Or(x, y), z);
      (x | y) | z;
      x | (y | z);
    }
  }

  lemma OrTwice(x: bv64, m: bv64)
    ensures Or(Or(x, m), m) == Or(x, m)
  {
  }

  lemma AndNotOr(x: bv64, y: bv64, m: bv64)
    ensures AndNot(Or(x, y), m) == Or(AndNot(x, m), AndNot(y, m))
  {
    calc {
      AndNot(Or(x, y), m);
      (x | y) & !m;
      { Distribute(x, y, !m); }
      (x & !m) | (y & !m);
      Or(AndNot(x, m), AndNot(y, m));
    }
  }

  lemma AndNotSelf(x: bv64, m: bv64)
    ensures Or(x, AndNot(m, m)) == x
    ensures AndNot(0, m) == 0
  {
  }

  lemma AndNotApart(x: bv64, m: bv64)
    requires !Meets(x, m)
    ensures AndNot(x, m) == x
  {
    assert x == (x & m) | (x & !m);
  }

  lemma OrAndNot(x: bv64, y: bv64, m: bv64)
    ensures AndNot(Or(x, m), m) == AndNot(x, m)
    ensures !Meets(y, m) ==> AndNot(Or(x, y), m) == Or(AndNot(x, m), y)
    ensures AndNot(0, m) == 0
  {
    hide Or, AndNot, Meets;
    AndNotOr(x, m, m);
    AndNotOr(x, y, m);
    AndNotSelf(AndNot(x, m), m);
    if !Meets(y, m) { AndNotApart(y, m); }
  }

  lemma {:induction false} WordBit(d: set<int>, base: nat, k: nat, j: nat)
    requires k <= 64 && j < 64
    ensures Bit(WordOf(d, base, k), j) <==> j < k && base + j in d
  {
    hide Mask, Or, Meets;
    MeetsOr(0, 0, Mask(j));
    if k > 0 {
      WordBit(d, base, k - 1, j);
      MeetsOr(WordOf(d, base, k - 1), Mask(k - 1), Mask(j));
      MasksDiffer(k - 1, j);
    }
  }

  lemma {:induction false} WordSet(d: set<int>, base: nat, k: nat, j: nat)
    requires k <= 64 && j < 64
    ensures WordOf(d + {base + j}, base, k) == if j < k then Or(WordOf(d, base, k), Mask(j)) else WordOf(d, base, k)
  {
    hide Mask, Or;
    if k > 0 {
      WordSet(d, base, k - 1, j);
      OrOr(WordOf(d, base, k - 1), Mask(k - 1), Mask(j));
      OrTwice(WordOf(d, base, k - 1), Mask(j));
    }
  }

  lemma {:induction false} WordClear(d: set<int>, base: nat, k: nat, j: nat)
    requires k <= 64 && j < 64
    ensures WordOf(d - {base + j}, base, k) == AndNot(WordOf(d, base, k), Mask(j))
  {
    hide Mask, Or, AndNot, Meets;
    OrAndNot(0, 0, Mask(j));
    if k > 0 {
      WordClear(d, base, k - 1, j);
      OrAndNot(WordOf(d, base, k - 1), Mask(k - 1), Mask(j));
      MasksDiffer(k - 1, j);
    }
  }

  lemma {:induction false} WordElsewhere(d: set<int>, base: nat, k: nat, p: nat)
    requires k <= 64 && !(base <= p < base + 64)
    ensures WordOf(d + {p}, base, k) == WordOf(d, base, k) == WordOf(d - {p}, base, k)
  {
    hide Mask, Or;
    if k > 0 { WordElsewhere(d, base, k - 1, p); }
  }

  // ------------------------------------------------------------- whole bitsets

  lemma CanonSet(d: set<int>, len: nat, p: nat)
    requires p / 64 < len
    ensures Canon(d + {p}, len) == Canon(d, len)[p / 64 := Or(Canon(d, len)[p / 64], Mask(p % 64))]
  {
    hide Mask, WordOf, Or, AndNot;
    forall i | 0 <= i < len
      ensures WordOf(d + {p}, 64 * i, 64) ==
        if i == p / 64 then Or(WordOf(d, 64 * i, 64), Mask(p % 64)) else WordOf(d, 64 * i, 64)
    {
      if i == p / 64 { WordSet(d, 64 * i, 64, p % 64); } else { WordElsewhere(d, 64 * i, 64, p); }
    }
  }

  lemma CanonClear(d: set<int>, len: nat, p: nat)
    requires p / 64 < len
    ensures Canon(d - {p}, len) == Canon(d, len)[p / 64 := AndNot(Canon(d, len)[p / 64], Mask(p % 64))]
  {
    hide Mask, WordOf, Or, AndNot;
    forall i | 0 <= i < len
      ensures WordOf(d - {p}, 64 * i, 64) ==
        if i == p / 64 then AndNot(WordOf(d, 64 * i, 64), Mask(p % 64)) else WordOf(d, 64 * i, 64)
    {
      if i == p / 64 { WordClear(d, 64 * i, 64, p % 64); } else { WordElsewhere(d, 64 * i, 64, p); }
    }
  }

  lemma {:induction false} WordEmpty(base: nat, k: nat)
    requires k <= 64
    ensures WordOf({}, base, k) == 0
  {
    hide Mask, Or;
    if k > 0 { WordEmpty(base, k - 1); }
  }

  // Equal words, equal sets: on sets that fit, Canon loses nothing.
  lemma CanonInjective(d: set<int>, e: set<int>, len: nat)
    requires Canon(d, len) == Canon(e, len)
    requires forall p :: p in d || p in e ==> 0 <= p < 64 * len
    ensures d == e
  {
    hide Bit, WordOf;
    forall p: nat | p < 64 * len ensures p in d <==> p in e {
      var i, j := p / 64, p % 64;
      assert Canon(d, len)[i] == Canon(e, len)[i];
      WordBit(d, 64 * i, 64, j);
      WordBit(e, 64 * i, 64, j);
    }
  }

  // ---------------------------------------------------------------- operations

  method NewBitset(bits: nat) returns (b: array<bv64>)
    ensures fresh(b) && 64 * b.Length >= bits && 64 * b.Length < bits + 64
    ensures b[..] == Canon({}, b.Length)
  {
    var extra := if bits % 64 != 0 then 1 else 0;
    b := new bv64[bits / 64 + extra](_ => 0);
    forall i | 0 <= i < b.Length ensures b[i] == WordOf({}, 64 * i, 64) { WordEmpty(64 * i, 64); }
  }

  method Clone(b: array<bv64>) returns (c: array<bv64>)
    ensures fresh(c) && c[..] == b[..]
  {
    c := new bv64[b.Length](i requires 0 <= i < b.Length reads b => b[i]);
  }

  method Set(b: array<bv64>, p: nat, ghost d: set<int>)
    requires p / 64 < b.Length && b[..] == Canon(d, b.Length)
    modifies b
    ensures b[..] == Canon(d + {p}, b.Length)
  {
    hide Mask, WordOf;
    CanonSet(d, b.Length, p);
    b[p / 64] := b[p / 64] | Mask(p % 64);
  }

  method Clear(b: array<bv64>, p: nat, ghost d: set<int>)
    requires p / 64 < b.Length && b[..] == Canon(d, b.Length)
    modifies b
    ensures b[..] == Canon(d - {p}, b.Length)
  {
    hide Mask, WordOf;
    CanonClear(d, b.Length, p);
    b[p / 64] := b[p / 64] & !Mask(p % 64);
  }

  method Get(b: array<bv64>, p: nat, ghost d: set<int>) returns (r: bool)
    requires p / 64 < b.Length && b[..] == Canon(d, b.Length)
    ensures r <==> p in d
  {
    hide Mask, WordOf;
    r := Meets(b[p / 64], Mask(p % 64));
    hide Meets;
    WordBit(d, 64 * (p / 64), 64, p % 64);
    assert b[..][p / 64] == WordOf(d, 64 * (p / 64), 64);
  }

  // bits.OnesCount64
  function OnesCount(w: bv64, k: nat): nat
    requires k <= 64
  {
    if k == 0 then 0 else OnesCount(w, k - 1) + if Bit(w, k - 1) then 1 else 0
  }

  function PopCount(words: seq<bv64>): nat {
    if words == [] then 0 else PopCount(words[..|words| - 1]) + OnesCount(words[|words| - 1], 64)
  }

  function XorAll(words: seq<bv64>, seed: bv64): bv64 {
    if words == [] then seed else Xor(XorAll(words[..|words| - 1], seed), words[|words| - 1])
  }

  function HashOf(words: seq<bv64>): bv64 {
    XorAll(words, (PopCount(words) % 0x1_0000_0000_0000_0000) as bv64)
  }

  // The members of d from `low` up to, but not including, `high`.
  ghost function Between(d: set<int>, low: int, high: int): set<int> {
    set x | x in d && low <= x < high
  }

  lemma BetweenSplits(d: set<int>, low: int, mid: int, high: int)
    requires low <= mid <= high
    ensures |Between(d, low, high)| == |Between(d, low, mid)| + |Between(d, mid, high)|
  {
    assert Between(d, low, high) == Between(d, low, mid) + Between(d, mid, high);
  }

  lemma BetweenOne(d: set<int>, x: int)
    ensures |Between(d, x, x + 1)| == if x in d then 1 else 0
  {
    assert Between(d, x, x + 1) == if x in d then {x} else {};
  }

  lemma {:induction false} WordCount(d: set<int>, base: nat, k: nat)
    requires k <= 64
    ensures OnesCount(WordOf(d, base, 64), k) == |Between(d, base, base + k)|
  {
    hide Bit, WordOf, Between;
    if k == 0 {
      assert Between(d, base, base) == {} by { BetweenNone(d, base); }
    } else {
      WordCount(d, base, k - 1);
      WordBit(d, base, 64, k - 1);
      BetweenSplits(d, base, base + k - 1, base + k);
      BetweenOne(d, base + k - 1);
    }
  }

  lemma BetweenNone(d: set<int>, x: int)
    ensures Between(d, x, x) == {}
  {
  }

  lemma {:induction false} PrefixCount(d: set<int>, len: nat, k: nat)
    requires k <= len
    ensures PopCount(Canon(d, len)[..k]) == |Between(d, 0, 64 * k)|
  {
    hide OnesCount, WordOf, Between;
    if k == 0 {
      BetweenNone(d, 0);
    } else {
      var words := Canon(d, len);
      PrefixCount(d, len, k - 1);
      assert words[..k][..k - 1] == words[..k - 1];
      WordCount(d, 64 * (k - 1), 64);
      BetweenSplits(d, 0, 64 * (k - 1), 64 * k);
    }
  }

  // The bits set are the members of the set.
  lemma PopCountIsSize(d: set<int>, len: nat)
    requires forall x :: x in d ==> 0 <= x < 64 * len
    ensures PopCount(Canon(d, len)) == |d|
  {
    hide OnesCount, WordOf, PopCount;
    PrefixCount(d, len, len);
    assert Canon(d, len)[..len] == Canon(d, len);
    assert Between(d, 0, 64 * len) == d;
  }

  // ------------------------------------------------------------------ the hash

  // The word operation of the hash, by name.
  function Xor(x: bv64, y: bv64): bv64 { x ^ y }

  lemma OneBit(x: bv64, m: bv64)
    requires m & (m - 1) == 0
    ensures x & m == 0 || x & m == m
  {
  }

  lemma MaskIsPower(i: nat)
    requires i < 64
    ensures Mask(i) != 0 && Mask(i) & (Mask(i) - 1) == 0
  {
  }

  lemma XorMask(x: bv64, y: bv64, m: bv64)
    ensures (x ^ y) & m == (x & m) ^ (y & m)
  {
  }

  lemma XorBit(x: bv64, y: bv64, j: nat)
    requires j < 64
    ensures Bit(Xor(x, y), j) <==> Bit(x, j) != Bit(y, j)
  {
    var m := Mask(j);
    MaskIsPower(j);
    hide Mask;
    OneBit(x, m);
    OneBit(y, m);
    XorMask(x, y, m);
  }

  // How many words have bit j.
  ghost function Ones(words: seq<bv64>, j: nat): nat
    requires j < 64
  {
    if words == [] then 0
    else Ones(words[..|words| - 1], j) + if Bit(words[|words| - 1], j) then 1 else 0
  }

  lemma {:induction false} XorAllBit(words: seq<bv64>, seed: bv64, j: nat)
    requires j < 64
    ensures Bit(XorAll(words, seed), j) <==> Bit(seed, j) != (Ones(words, j) % 2 == 1)
    decreases |words|
  {
    hide Bit, Xor;
    if words != [] {
      var k := |words| - 1;
      XorAllBit(words[..k], seed, j);
      XorBit(XorAll(words[..k], seed), words[k], j);
    }
  }

  // The members of d below `high` that fall on bit j of their word.
  ghost function Column(d: set<int>, j: nat, high: int): set<int> {
    set x | x in d && 0 <= x < high && x % 64 == j
  }

  lemma ColumnMore(d: set<int>, j: nat, k: nat)
    requires j < 64
    ensures Column(d, j, 64 * (k + 1)) == Column(d, j, 64 * k) + if 64 * k + j in d then {64 * k + j} else {}
  {
    forall x | x in d && 64 * k <= x < 64 * (k + 1) && x % 64 == j ensures x == 64 * k + j {}
  }

  lemma {:induction false} OnesCountColumn(d: set<int>, len: nat, k: nat, j: nat)
    requires k <= len && j < 64
    ensures Ones(Canon(d, len)[..k], j) == |Column(d, j, 64 * k)|
  {
    hide Bit, WordOf;
    if k == 0 {
      assert Column(d, j, 0) == {};
    } else {
      var words := Canon(d, len);
      OnesCountColumn(d, len, k - 1, j);
      assert words[..k][..k - 1] == words[..k - 1];
      WordBit(d, 64 * (k - 1), 64, j);
      ColumnMore(d, j, k - 1);
    }
  }

  // The hash of a set, bit by bit: the size of the set, with bit j turned over once for every
  // member that falls on bit j of its word.
  lemma HashMeans(d: set<int>, len: nat, j: nat)
    requires j < 64 && forall x :: x in d ==> 0 <= x < 64 * len
    ensures Bit(HashOf(Canon(d, len)), j) <==>
      Bit((|d| % 0x1_0000_0000_0000_0000) as bv64, j) != (|Column(d, j, 64 * len)| % 2 == 1)
  {
    hide Bit, WordOf, PopCount, Ones, XorAll;
    PopCountIsSize(d, len);
    var words := Canon(d, len);
    XorAllBit(words, (|d| % 0x1_0000_0000_0000_0000) as bv64, j);
    OnesCountColumn(d, len, len, j);
    assert words[..len] == words;
  }

  method CountBits(b: array<bv64>, ghost d: set<int>) returns (total: nat)
    ensures total == PopCount(b[..])
    ensures b[..] == Canon(d, b.Length) && (forall x :: x in d ==> 0 <= x < 64 * b.Length) ==> total == |d|
  {
    hide OnesCount, Canon;
    total := 0;
    for i := 0 to b.Length
      invariant total == PopCount(b[..i])
    {
      assert b[..i + 1][..i] == b[..i];
      total := total + OnesCount(b[i], 64);
    }
    assert b[..b.Length] == b[..];
    hide PopCount;
    if b[..] == Canon(d, b.Length) && (forall x :: x in d ==> 0 <= x < 64 * b.Length) {
      PopCountIsSize(d, b.Length);
    }
  }

  method Hash(b: array<bv64>) returns (hash: bv64)
    ensures hash == HashOf(b[..])
  {
    hide PopCount;
    var total := CountBits(b, {});
    hash := (total % 0x1_0000_0000_0000_0000) as bv64;
    ghost var seed := hash;
    for i := 0 to b.Length
      invariant hash == XorAll(b[..i], seed)
    {
      assert b[..i + 1][..i] == b[..i];
      hash := Xor(hash, b[i]);
    }
    assert b[..b.Length] == b[..];
  }

  method Equals(b: array<bv64>, c: seq<bv64>) returns (r: bool)
    ensures r <==> b[..] == c
  {
    if b.Length != |c| {
      return false;
    }
    for i := 0 to b.Length
      invariant b[..i] == c[..i]
    {
      if b[i] != c[i] {
        assert b[..][i] != c[i];
        return false;
      }
    }
    assert b[..] == b[..b.Length] == c[..b.Length] == c;
    return true;
  }
}
