/** 128-bit rotations: bit by bit, and as the source performs them on four words. */
module CamelliaRotations {
  import opened CamelliaRfc

  function Shl1(x: bv32, y: bv32): (w: bv32) {
    (x << 1) | (y >> 31)
  }

  /** b <<< 1: every word takes the top bit of the word behind it. */
  function Rot1(b: Block): (c: Block) {
    Block(Half(Shl1(b.d1.l, b.d1.r), Shl1(b.d1.r, b.d2.l)), Half(Shl1(b.d2.l, b.d2.r), Shl1(b.d2.r, b.d1.l)))
  }

  /** b <<< n. */
  function Rot(b: Block, n: nat): (c: Block) {
    if n == 0 then b else Rot1(Rot(b, n - 1))
  }

  function Up(x: bv32, n: bv8): (w: bv32)
    requires n <= 32
  {
    x << n
  }

  function Down(y: bv32, n: bv8): (w: bv32)
    requires n <= 32
  {
    y >> (32 - n)
  }

  function Plus(a: bv32, b: bv32): (c: bv32) { a + b }

  function Or(a: bv32, b: bv32): (c: bv32) { a | b }

  function Funnel(x: bv32, y: bv32, n: bv8): (w: bv32)
    requires n <= 32
  {
    Plus(Up(x, n), Down(y, n))
  }

  /** ROLDQ: a rotation by up to a word. */
  function Roldq(b: Block, n: bv8): (c: Block)
    requires n <= 32
  {
    Block(Half(Funnel(b.d1.l, b.d1.r, n), Funnel(b.d1.r, b.d2.l, n)),
          Half(Funnel(b.d2.l, b.d2.r, n), Funnel(b.d2.r, b.d1.l, n)))
  }

  function Union(x: bv32, y: bv32, n: bv8): (w: bv32)
    requires n <= 32
  {
    Or(Up(x, n), Down(y, n))
  }

  lemma ShiftsDisjoint(x: bv32, y: bv32, n: bv8)
    requires n <= 32
    ensures Up(x, n) & Down(y, n) == 0
  {
  }

  lemma NoCarry(a: bv32, b: bv32)
    requires a & b == 0
    ensures a + b == a | b
  {
  }

  lemma SumIsUnion(a: bv32, b: bv32)
    requires a & b == 0
    ensures Plus(a, b) == Or(a, b)
  {
    NoCarry(a, b);
  }

  /** The two shifted words share no bit, so the sum is a union. */
  lemma FunnelIsUnion(x: bv32, y: bv32, n: bv8)
    requires n <= 32
    ensures Funnel(x, y, n) == Union(x, y, n)
  {
    hide Up, Down, Plus, Or;
    ShiftsDisjoint(x, y, n);
    SumIsUnion(Up(x, n), Down(y, n));
  }

  lemma UpStep(x: bv32, n: bv8)
    requires n < 32
    ensures Up(x, n + 1) == Twice(Up(x, n))
  {
  }

  lemma DownStep(y: bv32, n: bv8)
    requires n < 32
    ensures Down(y, n + 1) == Or(Twice(Down(y, n)), Top(Up(y, n)))
  {
  }

  lemma DownIsShort(z: bv32, n: bv8)
    requires n < 32
    ensures Top(Down(z, n)) == 0
  {
  }

  function Twice(a: bv32): (b: bv32) { a << 1 }

  function Top(a: bv32): (b: bv32) { a >> 31 }

  lemma Shl1Of(a: bv32, b: bv32, c: bv32, d: bv32)
    requires Top(d) == 0
    ensures Shl1(Or(a, b), Or(c, d)) == Or(Twice(a), Or(Twice(b), Top(c)))
  {
  }

  lemma UnionStep(x: bv32, y: bv32, z: bv32, n: bv8)
    requires n < 32
    ensures Union(x, y, n + 1) == Shl1(Union(x, y, n), Union(y, z, n))
  {
    hide Up, Down, Or, Twice, Top, Shl1;
    UpStep(x, n);
    DownStep(y, n);
    DownIsShort(z, n);
    Shl1Of(Up(x, n), Down(y, n), Up(y, n), Down(z, n));
  }

  lemma FunnelStep(x: bv32, y: bv32, z: bv32, n: bv8)
    requires n < 32
    ensures Funnel(x, y, n + 1) == Shl1(Funnel(x, y, n), Funnel(y, z, n))
  {
    hide Funnel, Union, Shl1;
    FunnelIsUnion(x, y, n);
    FunnelIsUnion(y, z, n);
    FunnelIsUnion(x, y, n + 1);
    UnionStep(x, y, z, n);
  }

  lemma FunnelEnds(x: bv32, y: bv32)
    ensures Funnel(x, y, 0) == x && Funnel(x, y, 32) == y
  {
  }

  lemma RotNone(b: Block)
    ensures Rot(b, 0) == b
  {
  }

  lemma {:induction false} RotAdds(b: Block, m: nat, n: nat)
    ensures Rot(Rot(b, m), n) == Rot(b, m + n)
  {
    hide Rot1;
    if n != 0 {
      RotAdds(b, m, n - 1);
    }
  }

  /** ROLDQ by n bits is n rotations by one bit. */
  lemma {:induction false} RoldqIsRot(b: Block, n: bv8)
    requires n <= 32
    ensures Roldq(b, n) == Rot(b, n as nat)
    decreases n
  {
    hide Funnel, Shl1;
    if n == 0 {
      FunnelEnds(b.d1.l, b.d1.r); FunnelEnds(b.d1.r, b.d2.l); FunnelEnds(b.d2.l, b.d2.r); FunnelEnds(b.d2.r, b.d1.l);
    } else {
      RoldqIsRot(b, n - 1);
      RoldqStep(b, n - 1);
      assert n - 1 + 1 == n && (n - 1) as nat == n as nat - 1;
    }
  }

  lemma RoldqStep(b: Block, n: bv8)
    requires n < 32
    ensures Roldq(b, n + 1) == Rot1(Roldq(b, n))
  {
    hide Funnel, Shl1;
    FunnelStep(b.d1.l, b.d1.r, b.d2.l, n);
    FunnelStep(b.d1.r, b.d2.l, b.d2.r, n);
    FunnelStep(b.d2.l, b.d2.r, b.d1.l, n);
    FunnelStep(b.d2.r, b.d1.l, b.d1.r, n);
  }

  /** The rotation by 32 bits moves whole words. */
  function NextWord(b: Block): (c: Block) {
    Block(Half(b.d1.r, b.d2.l), Half(b.d2.r, b.d1.l))
  }

  lemma NextWordIsRot(b: Block)
    ensures NextWord(b) == Rot(b, 32)
  {
    hide Funnel, Rot;
    RoldqIsRot(b, 32);
    FunnelEnds(b.d1.l, b.d1.r); FunnelEnds(b.d1.r, b.d2.l); FunnelEnds(b.d2.l, b.d2.r); FunnelEnds(b.d2.r, b.d1.l);
  }

  /** ROLDQo32: a rotation by more than a word. */
  function RoldqO32(b: Block, n: bv8): (c: Block)
    requires 32 <= n <= 64
  {
    Block(Half(Funnel(b.d1.r, b.d2.l, n - 32), Funnel(b.d2.l, b.d2.r, n - 32)),
          Half(Funnel(b.d2.r, b.d1.l, n - 32), Funnel(b.d1.l, b.d1.r, n - 32)))
  }

  lemma RoldqO32IsRot(b: Block, n: bv8)
    requires 32 <= n <= 64
    ensures RoldqO32(b, n) == Rot(b, n as nat)
  {
    hide Funnel, Rot;
    NextWordIsRot(b);
    RoldqIsRot(NextWord(b), n - 32);
    RotAdds(b, 32, (n - 32) as nat);
    assert 32 + (n - 32) as nat == n as nat;
  }

  lemma RoldqAfter(b: Block, m: nat, n: bv8)
    requires n <= 32
    ensures Roldq(Rot(b, m), n) == Rot(b, m + n as nat)
  {
    hide Roldq, Rot;
    RoldqIsRot(Rot(b, m), n);
    RotAdds(b, m, n as nat);
  }

  lemma RoldqO32After(b: Block, m: nat, n: bv8)
    requires 32 <= n <= 64
    ensures RoldqO32(Rot(b, m), n) == Rot(b, m + n as nat)
  {
    hide RoldqO32, Rot;
    RoldqO32IsRot(Rot(b, m), n);
    RotAdds(b, m, n as nat);
  }

  lemma FullTurn(b: Block)
    ensures Rot(b, 128) == b
  {
    hide Rot;
    NextWordIsRot(b);
    NextWordIsRot(NextWord(b));
    NextWordIsRot(NextWord(NextWord(b)));
    NextWordIsRot(NextWord(NextWord(NextWord(b))));
    RotAdds(b, 32, 32);
    RotAdds(b, 64, 32);
    RotAdds(b, 96, 32);
  }
}

/** The key schedule of section 2.2 of RFC 3713. */
module CamelliaSchedule {
  import opened CamelliaWords
  import opened CamelliaRfc
  import opened CamelliaRotations

  const SIGMA1 := Half(0xA09E667F, 0x3BCC908B)
  const SIGMA2 := Half(0xB67AE858, 0x4CAA73B2)
  const SIGMA3 := Half(0xC6EF372F, 0xE94F82BE)
  const SIGMA4 := Half(0x54FF53A5, 0xF1D36F1C)
  const SIGMA5 := Half(0x10E527FA, 0xDE682D1D)
  const SIGMA6 := Half(0xB05688C2, 0xB3E6C1FD)

  /** `h` is the second to the seventeenth hexadecimal place of the square root of p. */
  predicate RootPlaces(h: Half, p: nat, first: nat) {
    var r := first * 0x1_0000_0000_0000_0000 + (h.l as int) * 0x1_0000_0000 + (h.r as int);
    r * r <= p * 0x100_0000_0000_0000_0000_0000_0000_0000_0000 < (r + 1) * (r + 1)
  }

  /** The constants of the key schedule come from the square roots of the first six primes. */
  lemma SigmasAreRoots()
    ensures RootPlaces(SIGMA1, 2, 0x16) && RootPlaces(SIGMA2, 3, 0x1b) && RootPlaces(SIGMA3, 5, 0x23)
    ensures RootPlaces(SIGMA4, 7, 0x2a) && RootPlaces(SIGMA5, 11, 0x35) && RootPlaces(SIGMA6, 13, 0x39)
  {
  }

  function KeyA(sb: SBoxes, kl: Block, kr: Block): (ka: Block) {
    var b := TwoRounds(sb, Block(Xor(kl.d1, kr.d1), Xor(kl.d2, kr.d2)), SIGMA1, SIGMA2);
    TwoRounds(sb, Block(Xor(b.d1, kl.d1), Xor(b.d2, kl.d2)), SIGMA3, SIGMA4)
  }

  function KeyB(sb: SBoxes, ka: Block, kr: Block): (kb: Block) {
    TwoRounds(sb, Block(Xor(ka.d1, kr.d1), Xor(ka.d2, kr.d2)), SIGMA5, SIGMA6)
  }

  /** The left or the right 64 bits. */
  function Side(b: Block, n: nat): (h: Half) {
    if n % 2 == 0 then b.d1 else b.d2
  }

  /** Subkey n of the schedule for 128-bit keys, in the order of use. */
  function Subkey128(kl: Block, ka: Block, n: nat): (h: Half)
    requires n < 26
  {
    if n < 2 then Side(kl, n)                    // kw1 kw2
    else if n < 4 then Side(ka, n)               // k1 k2
    else if n < 6 then Side(Rot(kl, 15), n)      // k3 k4
    else if n < 8 then Side(Rot(ka, 15), n)      // k5 k6
    else if n < 10 then Side(Rot(ka, 30), n)     // ke1 ke2
    else if n < 12 then Side(Rot(kl, 45), n)     // k7 k8
    else if n < 13 then Side(Rot(ka, 45), n)     // k9
    else if n < 14 then Side(Rot(kl, 60), n)     // k10
    else if n < 16 then Side(Rot(ka, 60), n)     // k11 k12
    else if n < 18 then Side(Rot(kl, 77), n)     // ke3 ke4
    else if n < 20 then Side(Rot(kl, 94), n)     // k13 k14
    else if n < 22 then Side(Rot(ka, 94), n)     // k15 k16
    else if n < 24 then Side(Rot(kl, 111), n)    // k17 k18
    else Side(Rot(ka, 111), n)                   // kw3 kw4
  }

  /** Subkey n of the schedule for 192-bit and 256-bit keys. */
  function Subkey256(kl: Block, kr: Block, ka: Block, kb: Block, n: nat): (h: Half)
    requires n < 34
  {
    if n < 2 then Side(kl, n)                    // kw1 kw2
    else if n < 4 then Side(kb, n)               // k1 k2
    else if n < 6 then Side(Rot(kr, 15), n)      // k3 k4
    else if n < 8 then Side(Rot(ka, 15), n)      // k5 k6
    else if n < 10 then Side(Rot(kr, 30), n)     // ke1 ke2
    else if n < 12 then Side(Rot(kb, 30), n)     // k7 k8
    else if n < 14 then Side(Rot(kl, 45), n)     // k9 k10
    else if n < 16 then Side(Rot(ka, 45), n)     // k11 k12
    else if n < 18 then Side(Rot(kl, 60), n)     // ke3 ke4
    else if n < 20 then Side(Rot(kr, 60), n)     // k13 k14
    else if n < 22 then Side(Rot(kb, 60), n)     // k15 k16
    else if n < 24 then Side(Rot(kl, 77), n)     // k17 k18
    else if n < 26 then Side(Rot(ka, 77), n)     // ke5 ke6
    else if n < 28 then Side(Rot(kr, 94), n)     // k19 k20
    else if n < 30 then Side(Rot(ka, 94), n)     // k21 k22
    else if n < 32 then Side(Rot(kl, 111), n)    // k23 k24
    else Side(Rot(kb, 111), n)                   // kw3 kw4
  }

  function ReadHalf(s: seq<bv8>, i: nat): (h: Half)
    requires i + 8 <= |s|
  {
    Half(Word(s[i], s[i + 1], s[i + 2], s[i + 3]), Word(s[i + 4], s[i + 5], s[i + 6], s[i + 7]))
  }

  function ReadBlock(s: seq<bv8>, i: nat): (b: Block)
    requires i + 16 <= |s|
  {
    Block(ReadHalf(s, i), ReadHalf(s, i + 8))
  }

  lemma ByteOfWord(b1: bv8, b2: bv8, b3: bv8, b4: bv8)
    ensures var w := Word(b1, b2, b3, b4);
            Byte(w, 0) == b1 && Byte(w, 1) == b2 && Byte(w, 2) == b3 && Byte(w, 3) == b4
  {
  }

  /** The key is read with the first byte most significant, and no byte is passed over. */
  lemma ReadHalfBytes(s: seq<bv8>, i: nat, n: nat)
    requires i + 8 <= |s| && n < 4
    ensures Byte(ReadHalf(s, i).l, n) == s[i + n] && Byte(ReadHalf(s, i).r, n) == s[i + 4 + n]
  {
    hide Word, Byte;
    ByteOfWord(s[i], s[i + 1], s[i + 2], s[i + 3]);
    ByteOfWord(s[i + 4], s[i + 5], s[i + 6], s[i + 7]);
  }

  lemma NotWord(a: bv8, b: bv8, c: bv8, d: bv8)
    ensures Word(!a, !b, !c, !d) == !Word(a, b, c, d)
  {
  }

  function NotBytes(s: seq<bv8>): (t: seq<bv8>)
    ensures |t| == |s|
  {
    seq(|s|, i requires 0 <= i < |s| => !s[i])
  }

  lemma PaddedKey(key: seq<bv8>)
    requires |key| == 24
    ensures var kk := key + NotBytes(key[16..]);
            ReadBlock(kk, 0) == ReadBlock(key, 0) && ReadBlock(kk, 16) == KeyR(key)
  {
    hide Word;
    NotWord(key[16], key[17], key[18], key[19]);
    NotWord(key[20], key[21], key[22], key[23]);
  }

  /** Byte n of a block, from the most significant one. */
  function BlockByte(b: Block, n: nat): (x: bv8)
    requires n < 16
  {
    var h := if n < 8 then b.d1 else b.d2;
    Byte(if n % 8 < 4 then h.l else h.r, n % 4)
  }

  lemma ReadBlockBytes(s: seq<bv8>, i: nat, n: nat)
    requires i + 16 <= |s| && n < 16
    ensures BlockByte(ReadBlock(s, i), n) == s[i + n]
  {
    hide ReadHalf, Byte;
    ReadHalfBytes(s, if n < 8 then i else i + 8, n % 4);
  }

  /** KL, KR and their padding, byte by byte. */
  lemma KeyBytes(key: seq<bv8>, n: nat)
    requires IsKey(key) && n < 16
    ensures BlockByte(ReadBlock(key, 0), n) == key[n]
    ensures |key| == 32 ==> BlockByte(KeyR(key), n) == key[16 + n]
    ensures |key| == 24 ==> BlockByte(KeyR(key), n) == if n < 8 then key[16 + n] else !key[8 + n]
    ensures |key| == 16 ==> BlockByte(KeyR(key), n) == 0
  {
    hide ReadBlock, ReadHalf, NotHalf, Byte;
    ReadBlockBytes(key, 0, n);
    if |key| == 32 {
      ReadBlockBytes(key, 16, n);
    } else if |key| == 24 {
      PaddedKey(key);
      ReadBlockBytes(key + NotBytes(key[16..]), 16, n);
    } else {
      ByteOfZero(n % 4);
    }
  }

  lemma ByteOfZero(n: nat)
    requires n < 4
    ensures Byte(0, n) == 0
  {
  }

  function NotHalf(h: Half): (g: Half) {
    Half(!h.l, !h.r)
  }

  predicate IsKey(key: seq<bv8>) {
    |key| == 16 || |key| == 24 || |key| == 32
  }

  /** KR: nothing for a 128-bit key; 64 bits and their complement for a 192-bit key. */
  function KeyR(key: seq<bv8>): (kr: Block)
    requires IsKey(key)
  {
    if |key| == 16 then Block(Half(0, 0), Half(0, 0))
    else if |key| == 24 then Block(ReadHalf(key, 16), NotHalf(ReadHalf(key, 16)))
    else ReadBlock(key, 16)
  }

  function SizeOf(key: seq<bv8>): (size: nat)
    ensures IsSize(size)
  {
    if |key| == 16 then 24 else 32
  }

  function Subkeys128(kl: Block, ka: Block): (k: seq<Half>)
    ensures |k| == 26
  {
    seq(26, n requires 0 <= n < 26 => Subkey128(kl, ka, n))
  }

  function Subkeys256(kl: Block, kr: Block, ka: Block, kb: Block): (k: seq<Half>)
    ensures |k| == 34
  {
    seq(34, n requires 0 <= n < 34 => Subkey256(kl, kr, ka, kb, n))
  }

  function Subkeys(sb: SBoxes, key: seq<bv8>): (k: seq<Half>)
    requires IsKey(key)
    ensures |k| == SizeOf(key) + 2
  {
    var kl, kr := ReadBlock(key, 0), KeyR(key);
    var ka := KeyA(sb, kl, kr);
    if |key| == 16 then Subkeys128(kl, ka) else Subkeys256(kl, kr, ka, KeyB(sb, ka, kr))
  }

  /** The cipher of RFC 3713 under a key. */
  function Camellia(sb: SBoxes, key: seq<bv8>, m: Block): (c: Block)
    requires IsKey(key)
  {
    Encrypt(sb, Subkeys(sb, key), SizeOf(key), m)
  }
}
