/**
  The optimised form of Camellia in crypto/camellia.c.  camellia_setup_tail absorbs the
  whitening keys kw2 and kw4 into the round keys, moves the key XOR from the input of F to its
  output, and undoes the last half of P on it; camellia_do_encrypt works on the resulting table.
*/
module CamelliaTable {
  import opened CamelliaWords
  import opened CamelliaRfc
  import opened CamelliaAlgebra

  // ------------------------------------------------------------ the table

  /** A section is six rounds; its subkeys start at i, with the two keys of the layer before it. */
  predicate IsStart(size: nat, i: nat) {
    i == 0 || i == 8 || i == 16 || (i == 24 && size == 32)
  }

  /** The section that subkey n belongs to, and its place there. */
  function Section(n: nat): (i: nat) { n - n % 8 }

  function Place(n: nat): (r: nat)
    ensures r < 8
  {
    n % 8
  }

  lemma SectionOf(size: nat, i: nat)
    requires IsStart(size, i)
    ensures forall n | i <= n < i + 8 :: Section(n) == i && Place(n) == n - i
  {
  }

  /** kw2 as it arrives at section i, carried through the FLInv layers before it. */
  function W(k: seq<Half>, size: nat, i: nat): (w: Half)
    requires IsSize(size) && |k| == size + 2 && IsStart(size, i)
  {
    if i == 0 then k[1] else Lin(W(k, size, i - 8), k[i + 1])
  }

  /** kw4 as it arrives at section i, carried back through the FL layers behind it. */
  function V(k: seq<Half>, size: nat, i: nat): (v: Half)
    requires IsSize(size) && |k| == size + 2 && IsStart(size, i)
    decreases size - i
  {
    if i + 8 == size then k[size + 1] else Lin(V(k, size, i + 8), k[i + 8])
  }

  /** Round key i + r of section i after both whitening keys have been absorbed. */
  function Absorbed(k: seq<Half>, size: nat, i: nat, r: nat): (a: Half)
    requires IsSize(size) && |k| == size + 2 && IsStart(size, i) && 2 <= r < 8
  {
    Xor(k[i + r], if r == 2 || r == 4 || r == 6 then V(k, size, i) else W(k, size, i))
  }

  /** The round key as the table holds it, before the last half of P is undone on it. */
  function RoundKey(k: seq<Half>, size: nat, i: nat, r: nat): (t: Half)
    requires IsSize(size) && |k| == size + 2 && IsStart(size, i) && 2 <= r < 8
  {
    if r == 2 && i == 0 then Absorbed(k, size, 0, 3)
    else if r == 2 then Xor(Lin(Absorbed(k, size, i - 8, 7), k[i + 1]), Absorbed(k, size, i, 3))
    else if r == 7 && i + 8 == size then Absorbed(k, size, i, 6)
    else if r == 7 then Xor(Absorbed(k, size, i, 6), Lin(Absorbed(k, size, i + 8, 2), k[i + 8]))
    else Xor(Absorbed(k, size, i, r - 1), Absorbed(k, size, i, r + 1))
  }

  /** Entry n of the table, before the last half of P is undone on the round keys. */
  function RawEntry(k: seq<Half>, size: nat, n: nat): (t: Half)
    requires IsSize(size) && |k| == size + 2 && n <= size
  {
    if n == 0 then Xor(Xor(k[0], V(k, size, 0)), Absorbed(k, size, 0, 2))
    else if n == size then Xor(Xor(k[size], W(k, size, size - 8)), Absorbed(k, size, size - 8, 7))
    else if Place(n) < 2 then k[n]
    else RoundKey(k, size, Section(n), Place(n))
  }

  function Entry(k: seq<Half>, size: nat, n: nat): (t: Half)
    requires IsSize(size) && |k| == size + 2 && n <= size
  {
    if n < size && 2 <= Place(n) then UnMix(RawEntry(k, size, n)) else RawEntry(k, size, n)
  }

  /** The table camellia_setup_tail fills; entry 1 is never used. */
  function Table(k: seq<Half>, size: nat): (t: seq<Half>)
    requires IsSize(size) && |k| == size + 2
    ensures |t| == size + 1
  {
    seq(size + 1, n requires 0 <= n <= size => Entry(k, size, n))
  }

  // -------------------------------------------------------------- ciphers

  /** CAMELLIA_ROUNDSM: y ^= P-half(lookups(x) ^ k). */
  function RoundSm(sb: SBoxes, x: Half, k: Half, y: Half): (y': Half) {
    Xor(y, Mix(Xor(Lookup(sb, x), k)))
  }

  function TwoRoundsSm(sb: SBoxes, b: Block, k: Half, k': Half): (c: Block) {
    var d2 := RoundSm(sb, b.d1, k, b.d2);
    Block(RoundSm(sb, d2, k', b.d1), d2)
  }

  /** ROUNDS(i) of camellia_do_encrypt uses the entries from i + 2 on. */
  function SixRoundsSm(sb: SBoxes, t: seq<Half>, i: nat, b: Block): (c: Block)
    requires i + 5 < |t|
  {
    TwoRoundsSm(sb, TwoRoundsSm(sb, TwoRoundsSm(sb, b, t[i], t[i + 1]), t[i + 2], t[i + 3]), t[i + 4], t[i + 5])
  }

  /** camellia_do_encrypt; the caller swaps the two halves of the result. */
  function DoEncrypt(sb: SBoxes, t: seq<Half>, size: nat, m: Block): (c: Block)
    requires IsSize(size) && |t| > size
  {
    var b0 := Block(Xor(m.d1, t[0]), m.d2);
    var b1 := SixRoundsSm(sb, t, 2, b0);
    var b2 := SixRoundsSm(sb, t, 10, FLayer(t, 8, b1));
    var b3 := SixRoundsSm(sb, t, 18, FLayer(t, 16, b2));
    var b4 := if size == 24 then b3 else SixRoundsSm(sb, t, 26, FLayer(t, 24, b3));
    Block(b4.d1, Xor(b4.d2, t[size]))
  }

  function Swap(b: Block): (c: Block) {
    Block(b.d2, b.d1)
  }

  // ------------------------------------------- the keys cancel in the table

  /** What the first half is offset by behind section i. */
  function Behind(k: seq<Half>, size: nat, i: nat): (p: Half)
    requires IsSize(size) && |k| == size + 2 && IsStart(size, i)
  {
    if i + 8 == size then k[size + 1] else Lin(k[i + 10], k[i + 8])
  }

  /** What the second half is offset by in front of section i. */
  function Before(k: seq<Half>, i: nat): (q: Half)
    requires 1 <= i + 1 < |k|
  {
    if i == 0 then k[1] else Lin(k[i - 1], k[i + 1])
  }

  lemma XorBoth(a: Half, b: Half, w: Half)
    ensures Xor(Xor(a, w), Xor(b, w)) == Xor(a, b)
  {
    XorCommutes(b, w);
    XorShift(a, w, b);
  }

  /** Neighbouring round keys absorb the same whitening key, which cancels. */
  lemma MiddleKey(k: seq<Half>, size: nat, i: nat, r: nat)
    requires IsSize(size) && |k| == size + 2 && IsStart(size, i) && 3 <= r <= 6
    ensures RoundKey(k, size, i, r) == Xor(k[i + r - 1], k[i + r + 1])
  {
    hide Xor, Lin;
    XorBoth(k[i + r - 1], k[i + r + 1], if r == 3 || r == 5 then V(k, size, i) else W(k, size, i));
  }

  /** In front of an FL layer the key of the round behind it is carried back. */
  lemma LastKey(k: seq<Half>, size: nat, i: nat)
    requires IsSize(size) && |k| == size + 2 && IsStart(size, i) && i + 8 < size
    ensures RoundKey(k, size, i, 7) == Xor(k[i + 6], Behind(k, size, i))
  {
    var e, v, v' := k[i + 8], V(k, size, i), V(k, size, i + 8);
    var a := k[i + 10];
    assert v == Lin(v', e);
    assert Absorbed(k, size, i + 8, 2) == Xor(a, v');
    LinXor(a, v', e);
    XorBoth(k[i + 6], Lin(a, e), v);
  }

  /** Behind the last round the key kw4 takes that place. */
  lemma VeryLastKey(k: seq<Half>, size: nat, i: nat)
    requires IsSize(size) && |k| == size + 2 && IsStart(size, i) && i + 8 == size
    ensures RoundKey(k, size, i, 7) == Xor(k[i + 6], Behind(k, size, i))
  {
    assert V(k, size, i) == k[size + 1];
  }

  /** Behind an FLInv layer the key of the round in front of it is carried on. */
  lemma FirstKey(k: seq<Half>, size: nat, i: nat)
    requires IsSize(size) && |k| == size + 2 && IsStart(size, i)
    ensures RoundKey(k, size, i, 2) ==
            Xor(Before(k, i), k[i + 3])
  {
    hide Xor, Lin;
    if i == 0 {
      XorCommutes(k[3], k[1]);
    } else {
      LinXor(k[i - 1], W(k, size, i - 8), k[i + 1]);
      XorBoth(Lin(k[i - 1], k[i + 1]), k[i + 3], W(k, size, i));
    }
  }

  lemma OuterKeys(k: seq<Half>, size: nat)
    requires IsSize(size) && |k| == size + 2
    ensures Table(k, size)[0] == Xor(k[0], k[2]) && Before(k, 0) == k[1]
    ensures Table(k, size)[size] == Xor(k[size], k[size - 1]) && Behind(k, size, size - 8) == k[size + 1]
  {
    hide Xor, Lin;
    XorBoth(k[0], k[2], V(k, size, 0));
    XorBoth(k[size], k[size - 1], W(k, size, size - 8));
  }

  // ------------------------------------------------------- equivalence

  /** A round on the table: F takes its key from the offset of x, and the offset of y moves on. */
  lemma RoundSmIsRound(sb: SBoxes, x: Half, kx: Half, y: Half, ky: Half, t: Half)
    ensures RoundSm(sb, Xor(x, kx), UnMix(t), Xor(y, ky)) == Xor(Xor(y, F(sb, x, kx)), Xor(ky, t))
  {
    var f := F(sb, x, kx);
    LookupIsF(sb, x, kx);
    MixXor(Lookup(sb, Xor(x, kx)), UnMix(t));
    MixUnMix(t);
    XorFour(y, ky, f, t);
  }

  lemma XorFour(a: Half, b: Half, c: Half, d: Half)
    ensures Xor(Xor(a, b), Xor(c, d)) == Xor(Xor(a, c), Xor(b, d))
  {
    XFour(a.l, b.l, c.l, d.l);
    XFour(a.r, b.r, c.r, d.r);
  }

  /** Two blocks that differ by the offsets p and q. */
  ghost predicate Offset(b: Block, c: Block, p: Half, q: Half) {
    b.d1 == Xor(c.d1, p) && b.d2 == Xor(c.d2, q)
  }

  lemma XorTwice(a: Half, b: Half)
    ensures Xor(a, Xor(a, b)) == b
  {
    XorCommutes(a, b);
    XorCommutes(a, Xor(b, a));
    XorCancel(b, a);
  }

  /** Two rounds, on halves offset by the first key and by q; behind them by p and the second key. */
  lemma TwoRoundsAlike(sb: SBoxes, b: Block, c: Block, k1: Half, k2: Half, q: Half, p: Half)
    requires Offset(b, c, k1, q)
    ensures Offset(TwoRoundsSm(sb, b, UnMix(Xor(q, k2)), UnMix(Xor(k1, p))), TwoRounds(sb, c, k1, k2), p, k2)
  {
    XorTwice(q, k2);
    XorTwice(k1, p);
    RoundSmIsRound(sb, c.d1, k1, c.d2, q, Xor(q, k2));
    var d2 := Xor(c.d2, F(sb, c.d1, k1));
    RoundSmIsRound(sb, d2, k2, c.d1, k1, Xor(k1, p));
  }

  /** Six rounds: p and q are what the data is offset by on both sides of them. */
  lemma SixRoundsAlike(sb: SBoxes, t: seq<Half>, k: seq<Half>, i: nat, b: Block, c: Block, q: Half, p: Half)
    requires i + 5 < |t| && i + 5 < |k|
    requires t[i] == UnMix(Xor(q, k[i + 1])) && t[i + 1] == UnMix(Xor(k[i], k[i + 2]))
    requires t[i + 2] == UnMix(Xor(k[i + 1], k[i + 3])) && t[i + 3] == UnMix(Xor(k[i + 2], k[i + 4]))
    requires t[i + 4] == UnMix(Xor(k[i + 3], k[i + 5])) && t[i + 5] == UnMix(Xor(k[i + 4], p))
    requires Offset(b, c, k[i], q)
    ensures Offset(SixRoundsSm(sb, t, i, b), SixRounds(sb, k, i, c), p, k[i + 5])
  {
    var k0, k1, k2, k3, k4, k5 := k[i], k[i + 1], k[i + 2], k[i + 3], k[i + 4], k[i + 5];
    TwoRoundsAlike(sb, b, c, k0, k1, q, k2);
    var b1, c1 := TwoRoundsSm(sb, b, t[i], t[i + 1]), TwoRounds(sb, c, k0, k1);
    TwoRoundsAlike(sb, b1, c1, k2, k3, k1, k4);
    var b2, c2 := TwoRoundsSm(sb, b1, t[i + 2], t[i + 3]), TwoRounds(sb, c1, k2, k3);
    TwoRoundsAlike(sb, b2, c2, k4, k5, k3, p);
  }

  lemma SectionKeys(k: seq<Half>, size: nat, i: nat)
    requires IsSize(size) && |k| == size + 2 && IsStart(size, i)
    ensures RoundKey(k, size, i, 2) == Xor(Before(k, i), k[i + 3])
    ensures RoundKey(k, size, i, 3) == Xor(k[i + 2], k[i + 4])
    ensures RoundKey(k, size, i, 4) == Xor(k[i + 3], k[i + 5])
    ensures RoundKey(k, size, i, 5) == Xor(k[i + 4], k[i + 6])
    ensures RoundKey(k, size, i, 6) == Xor(k[i + 5], k[i + 7])
    ensures RoundKey(k, size, i, 7) == Xor(k[i + 6], Behind(k, size, i))
  {
    hide Xor, RoundKey, Before, Behind;
    FirstKey(k, size, i);
    MiddleKey(k, size, i, 3);
    MiddleKey(k, size, i, 4);
    MiddleKey(k, size, i, 5);
    MiddleKey(k, size, i, 6);
    if i + 8 == size { VeryLastKey(k, size, i); } else { LastKey(k, size, i); }
  }

  lemma EntryOf(k: seq<Half>, size: nat, i: nat, r: nat)
    requires IsSize(size) && |k| == size + 2 && IsStart(size, i) && 2 <= r < 8
    ensures Table(k, size)[i + r] == UnMix(RoundKey(k, size, i, r))
  {
    SectionOf(size, i);
  }

  /** Six rounds of section i, from the offsets in front of it to the offsets behind it. */
  lemma SectionAlike(sb: SBoxes, k: seq<Half>, size: nat, i: nat, b: Block, c: Block)
    requires IsSize(size) && |k| == size + 2 && IsStart(size, i)
    requires Offset(b, c, k[i + 2], Before(k, i))
    ensures Offset(SixRoundsSm(sb, Table(k, size), i + 2, b), SixRounds(sb, k, i + 2, c),
                   Behind(k, size, i), k[i + 7])
  {
    hide Xor, Table, Offset, SixRounds, SixRoundsSm, Before, Behind, RoundKey, UnMix;
    SectionKeys(k, size, i);
    EntryOf(k, size, i, 2);
    EntryOf(k, size, i, 3);
    EntryOf(k, size, i, 4);
    EntryOf(k, size, i, 5);
    EntryOf(k, size, i, 6);
    EntryOf(k, size, i, 7);
    SixRoundsAlike(sb, Table(k, size), k, i + 2, b, c, Before(k, i), Behind(k, size, i));
  }

  /** An FL layer turns the offsets behind a section into those in front of the next one. */
  lemma FLayerAlike(k: seq<Half>, t: seq<Half>, i: nat, b: Block, c: Block)
    requires 1 <= i && i + 2 < |k| && i + 1 < |t| && t[i] == k[i] && t[i + 1] == k[i + 1]
    requires Offset(b, c, Lin(k[i + 2], k[i]), k[i - 1])
    ensures Offset(FLayer(t, i, b), FLayer(k, i, c), k[i + 2], Lin(k[i - 1], k[i + 1]))
  {
    FLAffine(c.d1, k[i + 2], k[i]);
    FLInvAffine(c.d2, k[i - 1], k[i + 1]);
  }

  /** The FL layer between sections i and i + 8. */
  lemma LayerAlike(k: seq<Half>, size: nat, i: nat, b: Block, c: Block)
    requires IsSize(size) && |k| == size + 2 && IsStart(size, i) && i + 8 < size
    requires Offset(b, c, Behind(k, size, i), k[i + 7])
    ensures Offset(FLayer(Table(k, size), i + 8, b), FLayer(k, i + 8, c), k[i + 10], Before(k, i + 8))
  {
    hide Xor, Offset, FLayer, Lin;
    var t := Table(k, size);
    assert t[i + 8] == k[i + 8] && t[i + 9] == k[i + 9];
    FLayerAlike(k, t, i + 8, b, c);
  }

  lemma XorAssociates(a: Half, b: Half, c: Half)
    ensures Xor(Xor(a, b), c) == Xor(a, Xor(b, c))
  {
    XAssociates(a.l, b.l, c.l);
    XAssociates(a.r, b.r, c.r);
  }

  lemma StartAlike(m: Block, k0: Half, k1: Half, k2: Half)
    ensures Offset(Block(Xor(m.d1, Xor(k0, k2)), m.d2), Block(Xor(m.d1, k0), Xor(m.d2, k1)), k2, k1)
  {
    XorAssociates(m.d1, k0, k2);
    XorCancel(m.d2, k1);
  }

  lemma EndAlike(b: Block, c: Block, last: Half, kw3: Half, kw4: Half)
    requires Offset(b, c, kw4, last)
    ensures Block(Xor(b.d2, Xor(kw3, last)), b.d1) == Block(Xor(c.d2, kw3), Xor(c.d1, kw4))
  {
    XorCommutes(kw3, last);
    XorShift(c.d2, last, kw3);
  }

  /**
    The optimised cipher on the table that the key setup builds is the cipher of RFC 3713 on the
    subkeys it started from, for every S-box content, every key schedule and both table sizes.
  */
  lemma TableComputesCamellia(sb: SBoxes, k: seq<Half>, size: nat, m: Block)
    requires IsSize(size) && |k| == size + 2
    ensures Swap(DoEncrypt(sb, Table(k, size), size, m)) == Encrypt(sb, k, size, m)
  {
    hide Xor, Table, Offset, SixRounds, SixRoundsSm, FLayer, Before, Behind, Entry;
    var t := Table(k, size);
    OuterKeys(k, size);
    var b0, c0 := Block(Xor(m.d1, t[0]), m.d2), Block(Xor(m.d1, k[0]), Xor(m.d2, k[1]));
    StartAlike(m, k[0], k[1], k[2]);
    SectionAlike(sb, k, size, 0, b0, c0);
    var b1, c1 := SixRoundsSm(sb, t, 2, b0), SixRounds(sb, k, 2, c0);
    LayerAlike(k, size, 0, b1, c1);
    var d1, e1 := FLayer(t, 8, b1), FLayer(k, 8, c1);
    SectionAlike(sb, k, size, 8, d1, e1);
    var b2, c2 := SixRoundsSm(sb, t, 10, d1), SixRounds(sb, k, 10, e1);
    LayerAlike(k, size, 8, b2, c2);
    var d2, e2 := FLayer(t, 16, b2), FLayer(k, 16, c2);
    SectionAlike(sb, k, size, 16, d2, e2);
    var b3, c3 := SixRoundsSm(sb, t, 18, d2), SixRounds(sb, k, 18, e2);
    if size == 24 {
      EndAlike(b3, c3, k[23], k[24], k[25]);
    } else {
      LayerAlike(k, size, 16, b3, c3);
      var d3, e3 := FLayer(t, 24, b3), FLayer(k, 24, c3);
      SectionAlike(sb, k, size, 24, d3, e3);
      EndAlike(SixRoundsSm(sb, t, 26, d3), SixRounds(sb, k, 26, e3), k[31], k[32], k[33]);
    }
  }

  // ----------------------------------------------------------- decryption

  /** ROUNDS(i) of camellia_do_decrypt uses the same entries from the far end. */
  function SixRoundsBack(sb: SBoxes, t: seq<Half>, i: nat, b: Block): (c: Block)
    requires i + 5 < |t|
  {
    TwoRoundsSm(sb, TwoRoundsSm(sb, TwoRoundsSm(sb, b, t[i + 5], t[i + 4]), t[i + 3], t[i + 2]), t[i + 1], t[i])
  }

  function FLayerBack(t: seq<Half>, i: nat, b: Block): (c: Block)
    requires i + 1 < |t|
  {
    Block(FL(b.d1, t[i + 1]), FLInv(b.d2, t[i]))
  }

  /** camellia_do_decrypt; again the caller swaps the two halves of the result. */
  function DoDecrypt(sb: SBoxes, t: seq<Half>, size: nat, m: Block): (c: Block)
    requires IsSize(size) && |t| > size
  {
    var b0 := Block(Xor(m.d1, t[size]), m.d2);
    var b1 := if size == 24 then b0 else FLayerBack(t, 24, SixRoundsBack(sb, t, 26, b0));
    var b2 := FLayerBack(t, 16, SixRoundsBack(sb, t, 18, b1));
    var b3 := FLayerBack(t, 8, SixRoundsBack(sb, t, 10, b2));
    var b4 := SixRoundsBack(sb, t, 2, b3);
    Block(b4.d1, Xor(b4.d2, t[0]))
  }

  lemma TwoRoundsUndone(sb: SBoxes, b: Block, k: Half, k': Half)
    ensures TwoRoundsSm(sb, Swap(TwoRoundsSm(sb, b, k, k')), k', k) == Swap(b)
  {
    hide Xor, Mix, Lookup;
    var d2 := RoundSm(sb, b.d1, k, b.d2);
    XorCancel(b.d1, Mix(Xor(Lookup(sb, d2), k')));
    XorCancel(b.d2, Mix(Xor(Lookup(sb, b.d1), k)));
  }

  lemma SixRoundsUndone(sb: SBoxes, t: seq<Half>, i: nat, b: Block)
    requires i + 5 < |t|
    ensures SixRoundsBack(sb, t, i, Swap(SixRoundsSm(sb, t, i, b))) == Swap(b)
  {
    hide TwoRoundsSm;
    var b1 := TwoRoundsSm(sb, b, t[i], t[i + 1]);
    var b2 := TwoRoundsSm(sb, b1, t[i + 2], t[i + 3]);
    TwoRoundsUndone(sb, b2, t[i + 4], t[i + 5]);
    TwoRoundsUndone(sb, b1, t[i + 2], t[i + 3]);
    TwoRoundsUndone(sb, b, t[i], t[i + 1]);
  }

  lemma FLayerUndone(t: seq<Half>, i: nat, b: Block)
    requires i + 1 < |t|
    ensures FLayerBack(t, i, Swap(FLayer(t, i, b))) == Swap(b)
  {
    hide FL, FLInv;
    FLInverse(b.d1, t[i]);
    FLInverse(b.d2, t[i + 1]);
  }

  lemma SixRoundsRedone(sb: SBoxes, t: seq<Half>, i: nat, b: Block)
    requires i + 5 < |t|
    ensures SixRoundsSm(sb, t, i, Swap(SixRoundsBack(sb, t, i, b))) == Swap(b)
  {
    hide TwoRoundsSm;
    var b1 := TwoRoundsSm(sb, b, t[i + 5], t[i + 4]);
    var b2 := TwoRoundsSm(sb, b1, t[i + 3], t[i + 2]);
    TwoRoundsUndone(sb, b2, t[i + 1], t[i]);
    TwoRoundsUndone(sb, b1, t[i + 3], t[i + 2]);
    TwoRoundsUndone(sb, b, t[i + 5], t[i + 4]);
  }

  lemma FLayerRedone(t: seq<Half>, i: nat, b: Block)
    requires i + 1 < |t|
    ensures FLayer(t, i, Swap(FLayerBack(t, i, b))) == Swap(b)
  {
    hide FL, FLInv;
    FLInverse(b.d1, t[i + 1]);
    FLInverse(b.d2, t[i]);
  }

  /** Decryption undoes encryption on every table, whether or not key setup built it. */
  lemma DecryptUndoesEncrypt(sb: SBoxes, t: seq<Half>, size: nat, m: Block)
    requires IsSize(size) && |t| > size
    ensures Swap(DoDecrypt(sb, t, size, Swap(DoEncrypt(sb, t, size, m)))) == m
  {
    hide Xor, SixRoundsSm, SixRoundsBack, FLayer, FLayerBack;
    var b0 := Block(Xor(m.d1, t[0]), m.d2);
    var b1 := SixRoundsSm(sb, t, 2, b0);
    var d1 := FLayer(t, 8, b1);
    var b2 := SixRoundsSm(sb, t, 10, d1);
    var d2 := FLayer(t, 16, b2);
    var b3 := SixRoundsSm(sb, t, 18, d2);
    SixRoundsUndone(sb, t, 2, b0);
    FLayerUndone(t, 8, b1);
    SixRoundsUndone(sb, t, 10, d1);
    FLayerUndone(t, 16, b2);
    SixRoundsUndone(sb, t, 18, d2);
    XorCancel(m.d1, t[0]);
    XorCancel(b3.d2, t[size]);
    if size == 32 {
      var d3 := FLayer(t, 24, b3);
      FLayerUndone(t, 24, b3);
      SixRoundsUndone(sb, t, 26, d3);
      XorCancel(SixRoundsSm(sb, t, 26, d3).d2, t[size]);
    }
  }

  /** And encryption undoes decryption: both are permutations of the blocks. */
  lemma EncryptUndoesDecrypt(sb: SBoxes, t: seq<Half>, size: nat, c: Block)
    requires IsSize(size) && |t| > size
    ensures Swap(DoEncrypt(sb, t, size, Swap(DoDecrypt(sb, t, size, c)))) == c
  {
    hide Xor, SixRoundsSm, SixRoundsBack, FLayer, FLayerBack;
    var b0 := Block(Xor(c.d1, t[size]), c.d2);
    var b1 := b0;
    if size == 32 {
      var d0 := SixRoundsBack(sb, t, 26, b0);
      b1 := FLayerBack(t, 24, d0);
      SixRoundsRedone(sb, t, 26, b0);
      FLayerRedone(t, 24, d0);
    }
    var d1 := SixRoundsBack(sb, t, 18, b1);
    var b2 := FLayerBack(t, 16, d1);
    var d2 := SixRoundsBack(sb, t, 10, b2);
    var b3 := FLayerBack(t, 8, d2);
    SixRoundsRedone(sb, t, 18, b1);
    FLayerRedone(t, 16, d1);
    SixRoundsRedone(sb, t, 10, b2);
    FLayerRedone(t, 8, d2);
    SixRoundsRedone(sb, t, 2, b3);
    XorCancel(c.d1, t[size]);
    XorCancel(SixRoundsBack(sb, t, 2, b3).d2, t[0]);
  }
}
