/** Symbol lookup through the hash tables of an ELF object: core/elf.cc.

    Tables are in the forms of "Hash Table" in chapter 5 of the System V gABI and of the GNU extension. A name is the
    sequence of its bytes without the final zero.
  */
module ElfHash {

  import opened Common

  type Byte = x: int | 0 <= x < 256

  type Name = seq<Byte>

  // ----------------------------------------------------------------------------------------
  // Hash functions
  // ----------------------------------------------------------------------------------------

  const WORD28: nat := 0x1000_0000
  const WORD32: nat := 0x1_0000_0000
  const WORD64: nat := 0x1_0000_0000_0000_0000

  /** Exclusive or of the low bits. */
  function Xor(a: nat, b: nat, bits: nat): (r: nat)
  {
    if bits == 0 then 0 else (a + b) % 2 + 2 * Xor(a / 2, b / 2, bits - 1)
  }

  /** Bits 28 to 31 of a word. */
  function TopNibble(x: nat): (g: nat)
  {
    x / WORD28 % 16
  }

  /** A word with a nibble mixed into its bits 4 to 7. */
  function Mix(x: nat, g: nat): (r: nat)
    ensures r / 256 == x / 256
  {
    var high, n, low := x / 256, x / 16 % 16, x % 16;
    high * 256 + Xor(n, g, 4) % 16 * 16 + low
  }

  /** Bit k of a number. */
  predicate Bit(w: nat, k: nat)
  {
    if k == 0 then w % 2 == 1 else Bit(w / 2, k - 1)
  }

  /** A bit is set exactly when it is set in one of the two. */
  lemma {:induction false} XorBit(a: nat, b: nat, bits: nat, k: nat)
    requires k < bits
    ensures Bit(Xor(a, b, bits), k) <==> Bit(a, k) != Bit(b, k)
    decreases bits
  {
    XorHalves(a, b, bits);
    if k > 0 { XorBit(a / 2, b / 2, bits - 1, k - 1); }
  }

  lemma XorHalves(a: nat, b: nat, bits: nat)
    requires bits > 0
    ensures Xor(a, b, bits) % 2 == (a + b) % 2 && Xor(a, b, bits) / 2 == Xor(a / 2, b / 2, bits - 1)
    ensures (a + b) % 2 == 1 <==> (a % 2 == 1) != (b % 2 == 1)
  {
    Halves((a + b) % 2, Xor(a / 2, b / 2, bits - 1));
    Parity(a, b);
  }

  lemma Halves(b: nat, y: nat)
    requires b < 2
    ensures (b + 2 * y) % 2 == b && (b + 2 * y) / 2 == y
  {
  }

  lemma Parity(a: nat, b: nat)
    ensures (a + b) % 2 == 1 <==> (a % 2 == 1) != (b % 2 == 1)
  {
  }

  lemma ShiftBit(w: nat, k: nat)
    ensures Bit(w, k + 4) <==> Bit(w / 16, k)
  {
    assert Bit(w, k + 4) <==> Bit(w / 2, k + 3);
    assert Bit(w / 2, k + 3) <==> Bit(w / 4, k + 2);
    assert Bit(w / 4, k + 2) <==> Bit(w / 8, k + 1);
  }

  lemma NibbleBit(w: nat, k: nat)
    requires k < 4
    ensures Bit(w, k) <==> Bit(w % 16, k)
  {
    LowBits(w);
    LowBit(w, k);
    LowBit(w % 16, k);
  }

  /** What bit k is, for the low four bits. */
  lemma LowBit(w: nat, k: nat)
    requires k < 4
    ensures Bit(w, k) ==
            ((if k == 0 then w else if k == 1 then w / 2 else if k == 2 then w / 2 / 2 else w / 2 / 2 / 2) % 2 == 1)
  {
    if k > 0 { assert Bit(w, k) == Bit(w / 2, k - 1); }
    if k > 1 { assert Bit(w / 2, k - 1) == Bit(w / 2 / 2, k - 2); }
    if k > 2 { assert Bit(w / 2 / 2, k - 2) == Bit(w / 2 / 2 / 2, k - 3); }
  }

  lemma LowBits(w: nat)
    ensures var r := w % 16;
            && w % 2 == r % 2 && w / 2 % 2 == r / 2 % 2
            && w / 2 / 2 % 2 == r / 2 / 2 % 2 && w / 2 / 2 / 2 % 2 == r / 2 / 2 / 2 % 2
  {
    var q, r := w / 16, w % 16;
    assert w == 16 * q + r;
    assert w / 2 == 8 * q + r / 2;
    assert w / 2 / 2 == 4 * q + r / 2 / 2;
    assert w / 2 / 2 / 2 == 2 * q + r / 2 / 2 / 2;
  }

  lemma TopBit(x: nat, k: nat)
    requires k < 4
    ensures Bit(x, k + 28) <==> Bit(TopNibble(x), k)
  {
    ShiftBit(x, k + 24);
    ShiftBit(x / 0x10, k + 20);
    ShiftBit(x / 0x100, k + 16);
    ShiftBit(x / 0x1000, k + 12);
    ShiftBit(x / 0x1_0000, k + 8);
    ShiftBit(x / 0x10_0000, k + 4);
    ShiftBit(x / 0x100_0000, k);
    NibbleBit(x / WORD28, k);
  }

  /** The mixing is the source's exclusive or: bits 28 to 31 go into bits 4 to 7, and all others stay. */
  lemma MixBits(x: nat, k: nat)
    ensures Bit(Mix(x, TopNibble(x)), k) <==> (Bit(x, k) != (4 <= k < 8 && Bit(x, k + 24)))
  {
    var g, m := TopNibble(x), Mix(x, TopNibble(x));
    var n := Xor(x / 16 % 16, g, 4);
    MixNibbles(x, g);
    if k < 4 {
      NibbleBit(m, k);
      NibbleBit(x, k);
    } else {
      var j := k - 4;
      ShiftBit(m, j);
      ShiftBit(x, j);
      if k < 8 {
        NibbleBit(m / 16, j);
        NibbleBit(x / 16, j);
        NibbleBit(n, j);
        XorBit(x / 16 % 16, g, 4, j);
        TopBit(x, j);
      } else {
        ShiftBit(m / 16, j - 4);
        ShiftBit(x / 16, j - 4);
      }
    }
  }

  lemma MixNibbles(x: nat, g: nat)
    ensures var m := Mix(x, g);
            && m % 16 == x % 16 && m / 16 % 16 == Xor(x / 16 % 16, g, 4) % 16 && m / 16 / 16 == x / 16 / 16
  {
    var n := Xor(x / 16 % 16, g, 4) % 16;
    Nibbles(x / 256, n, x % 16);
    Byte256(x);
    assert Mix(x, g) == x / 256 * 256 + n * 16 + x % 16;
  }

  lemma Byte256(x: nat)
    ensures x / 256 == x / 16 / 16
  {
  }

  lemma Nibbles(h: nat, n: nat, low: nat)
    requires n < 16 && low < 16
    ensures var m := h * 256 + n * 16 + low; m % 16 == low && m / 16 % 16 == n && m / 16 / 16 == h
  {
    var m := h * 256 + n * 16 + low;
    assert m / 16 == h * 16 + n;
  }

  lemma {:induction false} BitAbove(w: nat, k: nat)
    requires Bit(w, k)
    ensures w / Pow2(k) != 0
  {
    if k > 0 {
      BitAbove(w / 2, k - 1);
      DivTwice(w, Pow2(k - 1));
    }
  }

  lemma DivTwice(w: nat, p: nat)
    requires p > 0 && w / 2 / p != 0
    ensures w / (2 * p) != 0
  {
    assert w / 2 >= p;
    NotSmaller(w, 2 * p);
  }

  lemma NotSmaller(w: nat, n: nat)
    requires 0 < n <= w
    ensures w / n != 0
  {
  }

  /** One character of elf64_hash(), in 64-bit arithmetic: nothing is lost before the final mask. */
  function Step(h: nat, c: Byte): (r: nat)
    ensures r < WORD28
  {
    var x := h * 16 + c;
    var g := TopNibble(x);
    (if g != 0 then Mix(x, g) else x) % WORD28
  }

  function Hash(name: Name): (h: nat)
    ensures h < WORD28
  {
    if name == [] then 0 else Step(Hash(name[..|name| - 1]), name[|name| - 1])
  }

  /** Clears bits 28 to 31 of a 32-bit word. */
  function ClearTop(x: nat): (r: nat)
  {
    x - TopNibble(x) * WORD28
  }

  /** One character of the function in the gABI, in 32-bit arithmetic. */
  function GabiStep(h: nat, c: Byte): (r: nat)
  {
    var x := (h * 16 + c) % WORD32;
    var g := TopNibble(x);
    ClearTop(if g != 0 then Mix(x, g) else x)
  }

  function GabiHash(name: Name): (h: nat)
  {
    if name == [] then 0 else GabiStep(GabiHash(name[..|name| - 1]), name[|name| - 1])
  }

  lemma HighPart(q: nat, y: nat)
    ensures (q * WORD28 + y) / 256 == q * 0x10_0000 + y / 256
  {
  }

  lemma Mod16(m: nat, z: nat)
    ensures (16 * m + z) % 16 == z % 16 && (16 * m + z) / 16 == m + z / 16
  {
  }

  lemma LowPart(q: nat, y: nat)
    ensures (q * WORD28 + y) / 16 % 16 == y / 16 % 16 && (q * WORD28 + y) % 16 == y % 16
  {
    Mod16(q * 0x100_0000, y);
    Mod16(q * 0x10_0000, y / 16);
  }

  /** Mixing leaves what is above bit 7 alone. */
  lemma MixParts(q: nat, y: nat, g: nat)
    ensures Mix(q * WORD28 + y, g) == q * WORD28 + Mix(y, g)
  {
    HighPart(q, y);
    LowPart(q, y);
  }

  lemma MixBelow(y: nat, g: nat)
    requires y < WORD28
    ensures Mix(y, g) < WORD28
  {
  }

  lemma RemainderOf(q: nat, y: nat)
    requires y < WORD28
    ensures (q * WORD28 + y) % WORD28 == y && (q * WORD28 + y) / WORD28 == q
  {
  }

  /** What both come to: the low 28 bits, with the nibble mixed in. */
  function Low(x: nat): (r: nat)
  {
    var y, g := x % WORD28, TopNibble(x);
    if g != 0 then Mix(y, g) else y
  }

  lemma WideIsLow(x: nat)
    ensures (if TopNibble(x) != 0 then Mix(x, TopNibble(x)) else x) % WORD28 == Low(x)
  {
    var q, y, g := x / WORD28, x % WORD28, TopNibble(x);
    Words(x);
    MixParts(q, y, g);
    MixBelow(y, g);
    RemainderOf(q, Mix(y, g));
  }

  lemma TopOf(g: nat, y: nat)
    requires g < 16 && y < WORD28
    ensures TopNibble(g * WORD28 + y) == g && ClearTop(g * WORD28 + y) == y
  {
    RemainderOf(g, y);
  }

  lemma NarrowIsLow(g: nat, y: nat)
    requires g < 16 && y < WORD28
    ensures var x := g * WORD28 + y;
            ClearTop(if TopNibble(x) != 0 then Mix(x, TopNibble(x)) else x) == if g != 0 then Mix(y, g) else y
  {
    TopOf(g, y);
    MixParts(g, y, g);
    MixBelow(y, g);
    TopOf(g, Mix(y, g));
  }

  /** The carry out of 32 bits, which only the wider words can hold, does not matter. */
  lemma StepIsGabi(h: nat, c: Byte)
    ensures Step(h, c) == GabiStep(h, c)
  {
    var x := h * 16 + c;
    Words(x);
    WideIsLow(x);
    NarrowIsLow(TopNibble(x), x % WORD28);
  }

  lemma Words(x: nat)
    ensures x == x / WORD28 * WORD28 + x % WORD28 && x % WORD32 == TopNibble(x) * WORD28 + x % WORD28
  {
  }

  /** elf64_hash() stays below 2^28 and is the gABI's function, although it works with wider words. */
  lemma {:induction false} HashIsGabi(name: Name)
    ensures Hash(name) < WORD28 && Hash(name) == GabiHash(name)
  {
    if name != [] {
      HashIsGabi(name[..|name| - 1]);
      StepIsGabi(Hash(name[..|name| - 1]), name[|name| - 1]);
    }
  }

  method Elf64Hash(name: Name) returns (h: nat)
    ensures h == Hash(name)
  {
    h := 0;
    for i := 0 to |name|
      invariant h == Hash(name[..i])
    {
      assert name[..i + 1][..i] == name[..i];
      h := h * 16 + name[i];
      var g := TopNibble(h);
      if g != 0 {
        h := Mix(h, g);
      }
      h := h % WORD28;
    }
    assert name[..|name|] == name;
  }


  /** dl_new_hash() before the final mask: the 32-bit type it names is 64 bits wide. */
  function WideHash(name: Name): (h: nat)
  {
    if name == [] then 5381 else (WideHash(name[..|name| - 1]) * 33 + name[|name| - 1]) % WORD64
  }

  function NewHash(name: Name): (h: nat)
  {
    WideHash(name) % WORD32
  }

  /** The same in 32-bit arithmetic throughout. */
  function NewHash32(name: Name): (h: nat)
  {
    if name == [] then 5381 else (NewHash32(name[..|name| - 1]) * 33 + name[|name| - 1]) % WORD32
  }

  lemma {:induction false} NewHashIs32(name: Name)
    ensures NewHash(name) == NewHash32(name) < WORD32
  {
    if name != [] {
      var n := |name| - 1;
      NewHashIs32(name[..n]);
      WideStep(WideHash(name[..n]), name[n]);
    }
  }

  lemma WideStep(w: nat, c: Byte)
    ensures (w * 33 + c) % WORD64 % WORD32 == (w % WORD32 * 33 + c) % WORD32
  {
    var x, k, y := w * 33 + c, w / WORD32, w % WORD32;
    var z := y * 33 + c;
    assert x == z + 33 * k * WORD32;
    LowWord(x);
    LowWords(33 * k, z);
  }

  lemma LowWord(x: nat)
    ensures x % WORD64 % WORD32 == x % WORD32
  {
  }

  lemma LowWords(k: nat, z: nat)
    ensures (z + k * WORD32) % WORD32 == z % WORD32
  {
  }

  method DlNewHash(name: Name) returns (h: nat)
    ensures h == NewHash(name)
  {
    h := 5381;
    for i := 0 to |name|
      invariant h == WideHash(name[..i])
    {
      assert name[..i + 1][..i] == name[..i];
      h := (h * 33 + name[i]) % WORD64;
    }
    assert name[..|name|] == name;
    h := h % WORD32;
  }

  // ----------------------------------------------------------------------------------------
  // System V tables
  // ----------------------------------------------------------------------------------------

  /** `names[i]` is the name of symbol i; symbol 0 is the undefined symbol. */
  datatype SysvTable = SysvTable(buckets: seq<nat>, chain: seq<nat>, names: seq<Name>)

  function BucketOf(t: SysvTable, name: Name): (b: nat)
    requires |t.buckets| > 0
  {
    Hash(name) % |t.buckets|
  }

  /** Entry k of a chain, or the end mark. */
  function EntryAt(l: seq<nat>, k: nat): (e: nat)
  {
    if k < |l| then l[k] else 0
  }

  /** Entry k of the chain of a bucket leads to entry k + 1. */
  ghost predicate ChainOk(t: SysvTable, l: seq<nat>, k: nat)
  {
    k < |l| ==> 0 < l[k] < |t.chain| && t.chain[l[k]] == EntryAt(l, k + 1)
  }

  /** l is the chain of bucket b and holds every symbol whose name belongs there. */
  ghost predicate BucketOk(t: SysvTable, l: seq<nat>, b: nat)
  {
    && 0 < |t.buckets| && b < |t.buckets| && |t.chain| == |t.names| && t.buckets[b] == EntryAt(l, 0)
    && (forall k: nat {:trigger ChainOk(t, l, k)} :: ChainOk(t, l, k))
    && (forall i: nat :: 0 < i < |t.names| && BucketOf(t, t.names[i]) == b ==> i in l)
  }

  ghost predicate SysvOk(t: SysvTable, lists: seq<seq<nat>>)
  {
    |t.buckets| > 0 && |lists| == |t.buckets| && forall b: nat :: b < |lists| ==> BucketOk(t, lists[b], b)
  }

  /** The walk along a chain: the first entry with this name. */
  method WalkChain(t: SysvTable, name: Name, b: nat, ghost l: seq<nat>) returns (r: Option<nat>)
    requires BucketOk(t, l, b)
    ensures r.Some? ==> 0 < r.value < |t.names| && t.names[r.value] == name
    ensures r.None? ==> forall i: nat :: i in l ==> i < |t.names| && t.names[i] != name
  {
    var ent := t.buckets[b];
    ghost var k := 0;
    while ent != 0
      invariant k <= |l| && ent == EntryAt(l, k)
      invariant forall j: nat :: j < k ==> l[j] < |t.names| && t.names[l[j]] != name
      decreases |l| - k
    {
      assert ChainOk(t, l, k);
      if t.names[ent] == name {
        return Some(ent);
      }
      ent := t.chain[ent];
      k := k + 1;
    }
    assert ChainOk(t, l, k);
    return None;
  }

  /** lookup_symbol_old(): finds a symbol of this name exactly when the table has one. */
  method LookupOld(t: SysvTable, name: Name, ghost lists: seq<seq<nat>>) returns (r: Option<nat>)
    requires SysvOk(t, lists)
    ensures r.Some? ==> 0 < r.value < |t.names| && t.names[r.value] == name
    ensures r.None? ==> forall i: nat :: 0 < i < |t.names| ==> t.names[i] != name
  {
    var h := Elf64Hash(name);
    var b := h % |t.buckets|;
    assert BucketOk(t, lists[b], b);
    r := WalkChain(t, name, b, lists[b]);
  }

  // ----------------------------------------------------------------------------------------
  // GNU tables
  // ----------------------------------------------------------------------------------------

  /** `chains[j]` belongs to symbol symndx + j. */
  datatype GnuTable = GnuTable(
    buckets: seq<nat>, symndx: nat, bloom: seq<nat>, shift2: nat, chains: seq<nat>, names: seq<Name>)

  function BloomWord(t: GnuTable, h: nat): (w: nat)
    requires |t.bloom| > 0
  {
    t.bloom[h / 64 % |t.bloom|]
  }

  /** The chain word of symbol i. */
  function ChainWord(t: GnuTable, i: nat): (w: nat)
  {
    if t.symndx <= i < t.symndx + |t.chains| then t.chains[i - t.symndx] else 1
  }

  /** The run from symbol `from` has not ended before symbol i. */
  ghost predicate RunOpen(t: GnuTable, from: nat, i: nat)
  {
    forall j: nat :: from <= j < i ==> ChainWord(t, j) % 2 == 0
  }

  predicate Shaped(t: GnuTable)
  {
    |t.buckets| > 0 && |t.bloom| > 0 && 0 < t.symndx && |t.names| == t.symndx + |t.chains|
  }

  /** Symbol i is where its name's hash says: in the filter, and in the run of its bucket. */
  ghost predicate HashedOk(t: GnuTable, i: nat)
    requires Shaped(t)
  {
    t.symndx <= i < |t.names| ==>
      var h := NewHash(t.names[i]);
      && Bit(BloomWord(t, h), h % 64) && Bit(BloomWord(t, h), h / Pow2(t.shift2) % 64)
      && ChainWord(t, i) / 2 == h / 2
      && t.symndx <= t.buckets[h % |t.buckets|] <= i && RunOpen(t, t.buckets[h % |t.buckets|], i)
  }

  /** Every bucket that is not empty starts a run of symbols, and ends[b] is its last one. */
  ghost predicate GnuOk(t: GnuTable, ends: seq<nat>)
  {
    && Shaped(t) && |ends| == |t.buckets|
    && (forall b: nat :: b < |t.buckets| && t.buckets[b] != 0 ==>
          t.symndx <= t.buckets[b] <= ends[b] < |t.names| && ChainWord(t, ends[b]) % 2 == 1)
    && (forall i: nat {:trigger HashedOk(t, i)} :: HashedOk(t, i))
  }

  /** The filter test of the source, weaker than a test of the single bits. */
  predicate BloomRejects(t: GnuTable, h: nat)
    requires Shaped(t)
  {
    BloomWord(t, h) / Pow2(h % 64) == 0 || BloomWord(t, h) / Pow2(h / Pow2(t.shift2) % 64) == 0
  }

  /** It never rejects a name that is there. */
  lemma BloomNeverMisses(t: GnuTable, ends: seq<nat>, i: nat)
    requires GnuOk(t, ends) && t.symndx <= i < |t.names|
    ensures !BloomRejects(t, NewHash(t.names[i]))
  {
    assert HashedOk(t, i);
    var h := NewHash(t.names[i]);
    BitAbove(BloomWord(t, h), h % 64);
    BitAbove(BloomWord(t, h), h / Pow2(t.shift2) % 64);
  }

  /** The walk along the run of a bucket: the first symbol with this hash and name. */
  method WalkRun(t: GnuTable, name: Name, h: nat, from: nat, ghost end: nat) returns (r: Option<nat>)
    requires Shaped(t) && t.symndx <= from <= end < |t.names| && ChainWord(t, end) % 2 == 1
    ensures r.Some? ==> t.symndx <= r.value < |t.names| && t.names[r.value] == name
    ensures r.None? ==> forall i: nat :: from <= i < |t.names| && RunOpen(t, from, i) ==>
              t.names[i] != name || ChainWord(t, i) / 2 != h / 2
  {
    var idx := from;
    while true
      invariant from <= idx <= end
      invariant forall j: nat :: from <= j < idx ==> t.names[j] != name || ChainWord(t, j) / 2 != h / 2
      decreases end - idx
    {
      var word := t.chains[idx - t.symndx];
      if word / 2 == h / 2 && t.names[idx] == name {
        return Some(idx);
      }
      if word % 2 != 0 {
        forall i: nat | idx < i ensures !RunOpen(t, from, i) { assert ChainWord(t, idx) % 2 != 0; }
        return None;
      }
      idx := idx + 1;
    }
  }

  /** lookup_symbol_gnu(): finds a hashed symbol of this name exactly when there is one. */
  method LookupGnu(t: GnuTable, name: Name, ghost ends: seq<nat>) returns (r: Option<nat>)
    requires GnuOk(t, ends)
    ensures r.Some? ==> t.symndx <= r.value < |t.names| && t.names[r.value] == name
    ensures r.None? ==> forall i: nat :: t.symndx <= i < |t.names| ==> t.names[i] != name
  {
    var h := DlNewHash(name);
    var b := h % |t.buckets|;
    r := None;
    if !BloomRejects(t, h) && t.buckets[b] != 0 {
      r := WalkRun(t, name, h, t.buckets[b], ends[b]);
    }
    if r.None? {
      forall i: nat | t.symndx <= i < |t.names| ensures t.names[i] != name
      {
        assert HashedOk(t, i);
        if t.names[i] == name { BloomNeverMisses(t, ends, i); }
      }
    }
  }
}
