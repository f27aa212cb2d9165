/** 32-bit words with the operations of crypto/camellia.c, and the laws of XOR on them. */
module CamelliaWords {

  function X(a: bv32, b: bv32): (c: bv32) { a ^ b }

  /** `a & k`, the part of a word that FL rotates. */
  function Masked(a: bv32, k: bv32): (c: bv32) { a & k }

  /** `a & ~k`, what `a | k` depends on beside `k`. */
  function Clear(a: bv32, k: bv32): (c: bv32) { a & !k }

  function Joined(a: bv32, k: bv32): (c: bv32) { a | k }

  function Rol1(a: bv32): (c: bv32) { a.RotateLeft(1) }

  function Rol8(a: bv32): (c: bv32) { a.RotateLeft(8) }

  function Ror8(a: bv32): (c: bv32) { a.RotateRight(8) }

  lemma XSelf(a: bv32, b: bv32)
    ensures X(X(a, b), b) == a
  {
  }

  lemma XCommutes(a: bv32, b: bv32)
    ensures X(a, b) == X(b, a)
  {
  }

  lemma XAssociates(a: bv32, b: bv32, c: bv32)
    ensures X(X(a, b), c) == X(a, X(b, c))
  {
  }

  lemma MaskedX(a: bv32, b: bv32, k: bv32)
    ensures Masked(X(a, b), k) == X(Masked(a, k), Masked(b, k))
  {
  }

  lemma ClearX(a: bv32, b: bv32, k: bv32)
    ensures Clear(X(a, b), k) == X(Clear(a, k), Clear(b, k))
  {
  }

  lemma JoinedClear(a: bv32, k: bv32)
    ensures Joined(a, k) == X(Clear(a, k), k)
  {
  }

  lemma JoinedX(a: bv32, b: bv32, k: bv32)
    ensures Joined(X(a, b), k) == X(Joined(a, k), Clear(b, k))
  {
    hide X, Joined, Clear;
    JoinedClear(X(a, b), k);
    JoinedClear(a, k);
    ClearX(a, b, k);
    XSwap(Clear(a, k), Clear(b, k), k);
  }

  lemma Rol1X(a: bv32, b: bv32)
    ensures Rol1(X(a, b)) == X(Rol1(a), Rol1(b))
  {
  }

  lemma Ror8X(a: bv32, b: bv32)
    ensures Ror8(X(a, b)) == X(Ror8(a), Ror8(b))
  {
  }

  lemma Ror8Rol8(a: bv32)
    ensures Ror8(Rol8(a)) == a
  {
  }

  lemma XSwap(a: bv32, b: bv32, c: bv32)
    ensures X(X(a, b), c) == X(X(a, c), b)
  {
    XAssociates(a, b, c);
    XCommutes(b, c);
    XAssociates(a, c, b);
  }

  lemma XFour(a: bv32, b: bv32, c: bv32, d: bv32)
    ensures X(X(a, b), X(c, d)) == X(X(a, c), X(b, d))
  {
    XAssociates(X(a, b), c, d);
    XSwap(a, b, c);
    XAssociates(X(a, c), b, d);
  }

  lemma XShift(a: bv32, b: bv32, c: bv32)
    ensures X(X(a, b), X(b, c)) == X(a, c)
  {
    XAssociates(X(a, b), b, c);
    XSelf(a, b);
  }

  // Bytes of a word.

  function Xb(a: bv8, b: bv8): (c: bv8) { a ^ b }

  function Sum3(a: bv8, b: bv8, c: bv8): (s: bv8) { a ^ b ^ c }

  function Sum5(a: bv8, b: bv8, c: bv8, d: bv8, e: bv8): (s: bv8) { a ^ b ^ c ^ d ^ e }

  function Sum6(a: bv8, b: bv8, c: bv8, d: bv8, e: bv8, f: bv8): (s: bv8) { a ^ b ^ c ^ d ^ e ^ f }

  /** Byte n of a word, counted from the most significant end. */
  function Byte(x: bv32, n: nat): (b: bv8)
    requires n < 4
  {
    ((if n == 0 then x >> 24 else if n == 1 then x >> 16 else if n == 2 then x >> 8 else x) & 0xff) as bv8
  }

  function Word(b1: bv8, b2: bv8, b3: bv8, b4: bv8): (w: bv32) {
    ((b1 as bv32) << 24) | ((b2 as bv32) << 16) | ((b3 as bv32) << 8) | (b4 as bv32)
  }

  lemma WordX(a1: bv8, a2: bv8, a3: bv8, a4: bv8, b1: bv8, b2: bv8, b3: bv8, b4: bv8)
    ensures X(Word(a1, a2, a3, a4), Word(b1, b2, b3, b4)) == Word(Xb(a1, b1), Xb(a2, b2), Xb(a3, b3), Xb(a4, b4))
  {
  }

  lemma WordRor8(a1: bv8, a2: bv8, a3: bv8, a4: bv8)
    ensures Ror8(Word(a1, a2, a3, a4)) == Word(a4, a1, a2, a3)
  {
  }

  lemma XbZero(a: bv8)
    ensures Xb(a, 0) == a && Xb(0, a) == a
  {
  }

  lemma XbSum3(a: bv8, b: bv8, c: bv8)
    ensures Xb(Xb(a, b), c) == Sum3(a, b, c)
  {
  }

  lemma SumDisjoint(a: bv8, b: bv8, c: bv8, d: bv8, e: bv8, f: bv8)
    ensures Xb(Sum3(a, b, c), Sum3(d, e, f)) == Sum6(a, b, c, d, e, f)
  {
  }
}

/**
  The Camellia block cipher as sections 2.3 and 2.4 of RFC 3713 define it on explicit subkeys.
  A 64-bit half block is a pair of 32-bit words, most significant first.
*/
module CamelliaRfc {
  import opened CamelliaWords

  datatype Half = Half(l: bv32, r: bv32)

  /** The four S-boxes; nothing below depends on their contents. */
  datatype SBoxes = SBoxes(s1: bv8 -> bv8, s2: bv8 -> bv8, s3: bv8 -> bv8, s4: bv8 -> bv8)

  function Xor(a: Half, b: Half): (c: Half) {
    Half(X(a.l, b.l), X(a.r, b.r))
  }

  /** The P-function of section 2.4.1. */
  function P(t1: bv8, t2: bv8, t3: bv8, t4: bv8, t5: bv8, t6: bv8, t7: bv8, t8: bv8): (y: Half) {
    Half(Word(Sum6(t1, t3, t4, t6, t7, t8), Sum6(t1, t2, t4, t5, t7, t8),
              Sum6(t1, t2, t3, t5, t6, t8), Sum6(t2, t3, t4, t5, t6, t7)),
         Word(Sum5(t1, t2, t6, t7, t8), Sum5(t2, t3, t5, t7, t8),
              Sum5(t3, t4, t5, t6, t8), Sum5(t1, t4, t5, t6, t7)))
  }

  /** Section 2.4.1: the key is XORed into the input, then the S-boxes, then P. */
  function F(sb: SBoxes, x: Half, k: Half): (y: Half) {
    var i := Xor(x, k);
    P(sb.s1(Byte(i.l, 0)), sb.s2(Byte(i.l, 1)), sb.s3(Byte(i.l, 2)), sb.s4(Byte(i.l, 3)),
      sb.s2(Byte(i.r, 0)), sb.s3(Byte(i.r, 1)), sb.s4(Byte(i.r, 2)), sb.s1(Byte(i.r, 3)))
  }

  /** Section 2.4.2. */
  function FL(x: Half, k: Half): (y: Half) {
    var x2 := X(x.r, Rol1(Masked(x.l, k.l)));
    Half(X(x.l, Joined(x2, k.r)), x2)
  }

  /** Section 2.4.3. */
  function FLInv(y: Half, k: Half): (x: Half) {
    var y1 := X(y.l, Joined(y.r, k.r));
    Half(y1, X(y.r, Rol1(Masked(y1, k.l))))
  }

  datatype Block = Block(d1: Half, d2: Half)

  /** D2 = D2 ^ F(D1, k), then D1 = D1 ^ F(D2, k'). */
  function TwoRounds(sb: SBoxes, b: Block, k: Half, k': Half): (c: Block) {
    var d2 := Xor(b.d2, F(sb, b.d1, k));
    Block(Xor(b.d1, F(sb, d2, k')), d2)
  }

  /**
    Subkeys are in the order of use: kw1, kw2, k1..k6, ke1, ke2, k7..k12, ke3, ke4, k13..k18, then
    either kw3, kw4 (size 24) or ke5, ke6, k19..k24, kw3, kw4 (size 32).
  */
  function SixRounds(sb: SBoxes, k: seq<Half>, i: nat, b: Block): (c: Block)
    requires i + 5 < |k|
  {
    TwoRounds(sb, TwoRounds(sb, TwoRounds(sb, b, k[i], k[i + 1]), k[i + 2], k[i + 3]), k[i + 4], k[i + 5])
  }

  function FLayer(k: seq<Half>, i: nat, b: Block): (c: Block)
    requires i + 1 < |k|
  {
    Block(FL(b.d1, k[i]), FLInv(b.d2, k[i + 1]))
  }

  predicate IsSize(size: nat) {
    size == 24 || size == 32
  }

  /** Sections 2.3.1 and 2.3.2. */
  function Encrypt(sb: SBoxes, k: seq<Half>, size: nat, m: Block): (c: Block)
    requires IsSize(size) && |k| == size + 2
  {
    var b0 := Block(Xor(m.d1, k[0]), Xor(m.d2, k[1]));
    var b1 := SixRounds(sb, k, 2, b0);
    var b2 := SixRounds(sb, k, 10, FLayer(k, 8, b1));
    var b3 := SixRounds(sb, k, 18, FLayer(k, 16, b2));
    var b4 := if size == 24 then b3 else SixRounds(sb, k, 26, FLayer(k, 24, b3));
    Block(Xor(b4.d2, k[size]), Xor(b4.d1, k[size + 1]))
  }
}

/** The algebra of XOR, FL and P on which the optimised key table rests. */
module CamelliaAlgebra {
  import opened CamelliaWords
  import opened CamelliaRfc

  lemma XorCancel(a: Half, b: Half)
    ensures Xor(Xor(a, b), b) == a
  {
    XSelf(a.l, b.l);
    XSelf(a.r, b.r);
  }

  lemma XorShift(a: Half, b: Half, c: Half)
    ensures Xor(Xor(a, b), Xor(b, c)) == Xor(a, c)
  {
    XShift(a.l, b.l, c.l);
    XShift(a.r, b.r, c.r);
  }

  lemma XorCommutes(a: Half, b: Half)
    ensures Xor(a, b) == Xor(b, a)
  {
    XCommutes(a.l, b.l);
    XCommutes(a.r, b.r);
  }

  /** The last half of P, applied to the sums that the lookups give. */
  function Mix(y: Half): (z: Half) {
    Half(X(y.l, y.r), X(Ror8(y.l), X(y.l, y.r)))
  }

  lemma MixIsP(t1: bv8, t2: bv8, t3: bv8, t4: bv8, t5: bv8, t6: bv8, t7: bv8, t8: bv8)
    ensures Mix(Half(Word(Sum3(t1, t3, t4), Sum3(t1, t2, t4), Sum3(t1, t2, t3), Sum3(t2, t3, t4)),
                     Word(Sum3(t8, t6, t7), Sum3(t8, t5, t7), Sum3(t8, t5, t6), Sum3(t5, t6, t7)))) ==
            P(t1, t2, t3, t4, t5, t6, t7, t8)
  {
    MixLeft(t1, t2, t3, t4, t5, t6, t7, t8);
    WordRor8(Sum3(t1, t3, t4), Sum3(t1, t2, t4), Sum3(t1, t2, t3), Sum3(t2, t3, t4));
    MixRight(t1, t2, t3, t4, t5, t6, t7, t8);
  }

  lemma MixLeft(t1: bv8, t2: bv8, t3: bv8, t4: bv8, t5: bv8, t6: bv8, t7: bv8, t8: bv8)
    ensures X(Word(Sum3(t1, t3, t4), Sum3(t1, t2, t4), Sum3(t1, t2, t3), Sum3(t2, t3, t4)),
              Word(Sum3(t8, t6, t7), Sum3(t8, t5, t7), Sum3(t8, t5, t6), Sum3(t5, t6, t7))) ==
            P(t1, t2, t3, t4, t5, t6, t7, t8).l
  {
    WordX(Sum3(t1, t3, t4), Sum3(t1, t2, t4), Sum3(t1, t2, t3), Sum3(t2, t3, t4),
          Sum3(t8, t6, t7), Sum3(t8, t5, t7), Sum3(t8, t5, t6), Sum3(t5, t6, t7));
    SumsLeft(t1, t3, t4, t6, t7, t8);
    SumsLeft(t1, t2, t4, t5, t7, t8);
    SumsLeft(t1, t2, t3, t5, t6, t8);
    SumDisjoint(t2, t3, t4, t5, t6, t7);
  }

  lemma SumsLeft(a: bv8, b: bv8, c: bv8, d: bv8, e: bv8, f: bv8)
    ensures Xb(Sum3(a, b, c), Sum3(f, d, e)) == Sum6(a, b, c, d, e, f)
  {
  }

  lemma MixRight(t1: bv8, t2: bv8, t3: bv8, t4: bv8, t5: bv8, t6: bv8, t7: bv8, t8: bv8)
    ensures X(Word(Sum3(t2, t3, t4), Sum3(t1, t3, t4), Sum3(t1, t2, t4), Sum3(t1, t2, t3)),
              P(t1, t2, t3, t4, t5, t6, t7, t8).l) ==
            P(t1, t2, t3, t4, t5, t6, t7, t8).r
  {
    WordX(Sum3(t2, t3, t4), Sum3(t1, t3, t4), Sum3(t1, t2, t4), Sum3(t1, t2, t3),
          Sum6(t1, t3, t4, t6, t7, t8), Sum6(t1, t2, t4, t5, t7, t8),
          Sum6(t1, t2, t3, t5, t6, t8), Sum6(t2, t3, t4, t5, t6, t7));
    SumsRight1(t1, t2, t3, t4, t6, t7, t8);
    SumsRight2(t1, t2, t3, t4, t5, t7, t8);
    SumsRight3(t1, t2, t3, t4, t5, t6, t8);
    SumsRight4(t1, t2, t3, t4, t5, t6, t7);
  }

  lemma SumsRight1(t1: bv8, t2: bv8, t3: bv8, t4: bv8, t6: bv8, t7: bv8, t8: bv8)
    ensures Xb(Sum3(t2, t3, t4), Sum6(t1, t3, t4, t6, t7, t8)) == Sum5(t1, t2, t6, t7, t8)
  {
  }

  lemma SumsRight2(t1: bv8, t2: bv8, t3: bv8, t4: bv8, t5: bv8, t7: bv8, t8: bv8)
    ensures Xb(Sum3(t1, t3, t4), Sum6(t1, t2, t4, t5, t7, t8)) == Sum5(t2, t3, t5, t7, t8)
  {
  }

  lemma SumsRight3(t1: bv8, t2: bv8, t3: bv8, t4: bv8, t5: bv8, t6: bv8, t8: bv8)
    ensures Xb(Sum3(t1, t2, t4), Sum6(t1, t2, t3, t5, t6, t8)) == Sum5(t3, t4, t5, t6, t8)
  {
  }

  lemma SumsRight4(t1: bv8, t2: bv8, t3: bv8, t4: bv8, t5: bv8, t6: bv8, t7: bv8)
    ensures Xb(Sum3(t1, t2, t3), Sum6(t2, t3, t4, t5, t6, t7)) == Sum5(t1, t4, t5, t6, t7)
  {
  }

  /** What XOR with `a` becomes behind FLInv under key `k`: FLInv without its constants. */
  function Lin(a: Half, k: Half): (b: Half) {
    var l := X(a.l, Clear(a.r, k.r));
    Half(l, X(a.r, Rol1(Masked(l, k.l))))
  }

  /** FLInv is affine in the data. */
  lemma FLInvAffine(x: Half, a: Half, k: Half)
    ensures FLInv(Xor(x, a), k) == Xor(FLInv(x, k), Lin(a, k))
  {
    var y1 := X(x.l, Joined(x.r, k.r));
    var l := X(a.l, Clear(a.r, k.r));
    JoinedX(x.r, a.r, k.r);
    XFour(x.l, a.l, Joined(x.r, k.r), Clear(a.r, k.r));
    MaskedX(y1, l, k.l);
    Rol1X(Masked(y1, k.l), Masked(l, k.l));
    XFour(x.r, a.r, Rol1(Masked(y1, k.l)), Rol1(Masked(l, k.l)));
  }

  /** FL is affine too, and its linear part is the inverse of Lin. */
  lemma FLAffine(x: Half, a: Half, k: Half)
    ensures FL(Xor(x, Lin(a, k)), k) == Xor(FL(x, k), a)
  {
    var l := X(a.l, Clear(a.r, k.r));
    var rot := Rol1(Masked(l, k.l));
    var x2 := X(x.r, Rol1(Masked(x.l, k.l)));
    MaskedX(x.l, l, k.l);
    Rol1X(Masked(x.l, k.l), Masked(l, k.l));
    XFour(x.r, X(a.r, rot), Rol1(Masked(x.l, k.l)), rot);
    XSelf(a.r, rot);
    JoinedX(x2, a.r, k.r);
    XFour(x.l, l, Joined(x2, k.r), Clear(a.r, k.r));
    XSelf(a.l, Clear(a.r, k.r));
  }

  lemma LinXor(a: Half, b: Half, k: Half)
    ensures Lin(Xor(a, b), k) == Xor(Lin(a, k), Lin(b, k))
  {
    var la, lb := X(a.l, Clear(a.r, k.r)), X(b.l, Clear(b.r, k.r));
    ClearX(a.r, b.r, k.r);
    XFour(a.l, b.l, Clear(a.r, k.r), Clear(b.r, k.r));
    MaskedX(la, lb, k.l);
    Rol1X(Masked(la, k.l), Masked(lb, k.l));
    XFour(a.r, b.r, Rol1(Masked(la, k.l)), Rol1(Masked(lb, k.l)));
  }

  lemma FLInverse(x: Half, k: Half)
    ensures FLInv(FL(x, k), k) == x
    ensures FL(FLInv(x, k), k) == x
  {
    XSelf(x.l, Joined(FL(x, k).r, k.r));
    XSelf(x.r, Rol1(Masked(x.l, k.l)));
    XSelf(x.r, Rol1(Masked(FLInv(x, k).l, k.l)));
    XSelf(x.l, Joined(x.r, k.r));
  }

  lemma MixXor(a: Half, b: Half)
    ensures Mix(Xor(a, b)) == Xor(Mix(a), Mix(b))
  {
    XFour(a.l, b.l, a.r, b.r);
    Ror8X(a.l, b.l);
    XFour(Ror8(a.l), Ror8(b.l), X(a.l, a.r), X(b.l, b.r));
  }

  /** The inverse of the last half of P, as camellia_setup_tail applies it to round keys. */
  function UnMix(z: Half): (y: Half) {
    var dw := Rol8(X(z.l, z.r));
    Half(dw, X(z.l, dw))
  }

  lemma MixUnMix(z: Half)
    ensures Mix(UnMix(z)) == z
  {
    var dw := Rol8(X(z.l, z.r));
    XCommutes(dw, X(z.l, dw));
    XSelf(z.l, dw);
    Ror8Rol8(X(z.l, z.r));
    XCommutes(z.l, z.r);
    XSelf(z.r, z.l);
  }

  // -------------------------------------------------------- table lookups

  // The tables of the source: an S-box combined with its columns of P.
  function Sp1110(sb: SBoxes, b: bv8): (w: bv32) { Word(sb.s1(b), sb.s1(b), sb.s1(b), 0) }
  function Sp0222(sb: SBoxes, b: bv8): (w: bv32) { Word(0, sb.s2(b), sb.s2(b), sb.s2(b)) }
  function Sp3033(sb: SBoxes, b: bv8): (w: bv32) { Word(sb.s3(b), 0, sb.s3(b), sb.s3(b)) }
  function Sp4404(sb: SBoxes, b: bv8): (w: bv32) { Word(sb.s4(b), sb.s4(b), 0, sb.s4(b)) }

  /** The lookups of CAMELLIA_F and CAMELLIA_ROUNDSM: four for each word. */
  function Lookup(sb: SBoxes, x: Half): (y: Half) {
    Half(X(X(X(Sp1110(sb, Byte(x.l, 0)), Sp0222(sb, Byte(x.l, 1))), Sp3033(sb, Byte(x.l, 2))), Sp4404(sb, Byte(x.l, 3))),
         X(X(X(Sp1110(sb, Byte(x.r, 3)), Sp0222(sb, Byte(x.r, 0))), Sp3033(sb, Byte(x.r, 1))), Sp4404(sb, Byte(x.r, 2))))
  }

  lemma LookupWord(a: bv8, b: bv8, c: bv8, d: bv8)
    ensures X(X(X(Word(a, a, a, 0), Word(0, b, b, b)), Word(c, 0, c, c)), Word(d, d, 0, d)) ==
            Word(Sum3(a, c, d), Sum3(a, b, d), Sum3(a, b, c), Sum3(b, c, d))
  {
    XbZero(a); XbZero(b); XbZero(Xb(a, b)); XbZero(Sum3(a, b, c));
    WordX(a, a, a, 0, 0, b, b, b);
    WordX(a, Xb(a, b), Xb(a, b), b, c, 0, c, c);
    XbSum3(a, b, c);
    WordX(Xb(a, c), Xb(a, b), Sum3(a, b, c), Xb(b, c), d, d, 0, d);
    XbSum3(a, c, d); XbSum3(a, b, d); XbSum3(b, c, d);
  }

  /** CAMELLIA_F, where the sums of the lookups are the first half of P, is F. */
  lemma LookupIsF(sb: SBoxes, x: Half, k: Half)
    ensures Mix(Lookup(sb, Xor(x, k))) == F(sb, x, k)
  {
    var i := Xor(x, k);
    var t1, t2, t3, t4 := sb.s1(Byte(i.l, 0)), sb.s2(Byte(i.l, 1)), sb.s3(Byte(i.l, 2)), sb.s4(Byte(i.l, 3));
    var t5, t6, t7, t8 := sb.s2(Byte(i.r, 0)), sb.s3(Byte(i.r, 1)), sb.s4(Byte(i.r, 2)), sb.s1(Byte(i.r, 3));
    LookupWord(t1, t2, t3, t4);
    LookupWord(t8, t5, t6, t7);
    MixIsP(t1, t2, t3, t4, t5, t6, t7, t8);
  }
}
