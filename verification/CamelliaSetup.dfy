/**
  Key setup and the block operations of crypto/camellia.c on mutable arrays.  A pair of words
  that the source keeps at one index of subL and subR, or at 2 * i and 2 * i + 1 of the key
  table, is one element here.
*/
module CamelliaSetup {
  import opened CamelliaWords
  import opened CamelliaRfc
  import opened CamelliaAlgebra
  import opened CamelliaTable
  import opened CamelliaRotations
  import opened CamelliaSchedule

  // ------------------------------------------------- camellia_setup_tail

  /** What element n of section i holds once kw2 has been absorbed up to element m. */
  function OddUpTo(k: seq<Half>, size: nat, m: nat, n: nat): (h: Half)
    requires IsSize(size) && |k| == size + 2 && n < |k|
  {
    if 2 <= n < m && n < size && (Place(n) == 3 || Place(n) == 5 || Place(n) == 7) then Absorbed(k, size, Section(n), Place(n))
    else k[n]
  }

  /** Rounds 2, 4 and 6 of a section take up kw2, which sub[1] carries. */
  method AbsorbOdd(sub: array<Half>, i: nat, ghost k: seq<Half>, ghost max: nat)
    requires IsSize(max) && sub.Length == max + 2 && |k| == max + 2 && IsStart(max, i)
    requires sub[1] == W(k, max, i)
    requires forall n | 0 <= n < max + 2 && n != 1 :: sub[n] == OddUpTo(k, max, i, n)
    modifies sub
    ensures sub[1] == W(k, max, i)
    ensures forall n | 0 <= n < max + 2 && n != 1 :: sub[n] == OddUpTo(k, max, i + 8, n)
  {
    hide Xor, W, V, Section, Place;
    SectionOf(max, i);
    sub[i + 3] := Xor(sub[i + 3], sub[1]);
    sub[i + 5] := Xor(sub[i + 5], sub[1]);
    sub[i + 7] := Xor(sub[i + 7], sub[1]);
  }

  method AbsorbKw2(sub: array<Half>, max: nat)
    requires IsSize(max) && sub.Length == max + 2
    modifies sub
    ensures sub[max] == Xor(old(sub[max]), W(old(sub[..]), max, max - 8))
    ensures forall n | 0 <= n < max + 2 && n != 1 && n != max :: sub[n] == OddUpTo(old(sub[..]), max, max, n)
  {
    hide Xor, Lin;
    ghost var k := sub[..];
    AbsorbOdd(sub, 0, k, max);
    sub[1] := Lin(sub[1], sub[9]);
    AbsorbOdd(sub, 8, k, max);
    sub[1] := Lin(sub[1], sub[17]);
    AbsorbOdd(sub, 16, k, max);
    if max == 32 {
      sub[1] := Lin(sub[1], sub[25]);
      AbsorbOdd(sub, 24, k, max);
    }
    sub[max] := Xor(sub[max], sub[1]);
  }

  /** What element n holds once kw2 has been absorbed, and kw4 down to element m. */
  function EvenDownTo(k: seq<Half>, size: nat, m: nat, n: nat): (h: Half)
    requires IsSize(size) && |k| == size + 2 && n < |k|
  {
    if m <= n < size && (Place(n) == 2 || Place(n) == 4 || Place(n) == 6) then Absorbed(k, size, Section(n), Place(n))
    else OddUpTo(k, size, size, n)
  }

  /** Rounds 5, 3 and 1 of a section take up kw4. */
  method AbsorbEven(sub: array<Half>, i: nat, kw4: Half, ghost k: seq<Half>, ghost max: nat)
    requires IsSize(max) && sub.Length == max + 2 && |k| == max + 2 && IsStart(max, i)
    requires kw4 == V(k, max, i)
    requires forall n | 0 <= n < max + 2 && n != 1 && n != max :: sub[n] == EvenDownTo(k, max, i + 8, n)
    modifies sub
    ensures sub[max] == old(sub[max])
    ensures forall n | 0 <= n < max + 2 && n != 1 && n != max :: sub[n] == EvenDownTo(k, max, i, n)
  {
    hide Xor, W, V, Section, Place;
    SectionOf(max, i);
    assert sub[i + 2] == k[i + 2] && sub[i + 4] == k[i + 4] && sub[i + 6] == k[i + 6];
    hide OddUpTo;
    sub[i + 6] := Xor(sub[i + 6], kw4);
    sub[i + 4] := Xor(sub[i + 4], kw4);
    sub[i + 2] := Xor(sub[i + 2], kw4);
  }

  /** The array holds the subkeys with both whitening keys absorbed; element 1 is spent. */
  ghost predicate IsAbsorbed(sub: seq<Half>, k: seq<Half>, size: nat)
    requires IsSize(size) && |k| == size + 2
  {
    && |sub| == size + 2
    && sub[0] == Xor(k[0], V(k, size, 0))
    && sub[size] == Xor(k[size], W(k, size, size - 8))
    && forall n | 2 <= n < size :: sub[n] == if Place(n) < 2 then k[n] else Absorbed(k, size, Section(n), Place(n))
  }

  lemma BothAbsorbed(sub: seq<Half>, k: seq<Half>, size: nat)
    requires IsSize(size) && |k| == size + 2 && |sub| == size + 2
    requires sub[0] == Xor(k[0], V(k, size, 0)) && sub[size] == Xor(k[size], W(k, size, size - 8))
    requires forall n | 2 <= n < size :: sub[n] == EvenDownTo(k, size, 0, n)
    ensures IsAbsorbed(sub, k, size)
  {
    hide Xor, V, W, Absorbed, Section, Place;
  }

  lemma EvenFromNothing(k: seq<Half>, size: nat)
    requires IsSize(size) && |k| == size + 2
    ensures forall n | 0 <= n < size + 2 :: EvenDownTo(k, size, size, n) == OddUpTo(k, size, size, n)
  {
    hide OddUpTo;
  }

  lemma LayerKeys(k: seq<Half>, size: nat, m: nat)
    requires IsSize(size) && |k| == size + 2
    ensures EvenDownTo(k, size, m, 0) == k[0] && EvenDownTo(k, size, m, size + 1) == k[size + 1]
    ensures EvenDownTo(k, size, m, 8) == k[8] && EvenDownTo(k, size, m, 16) == k[16]
    ensures size == 32 ==> EvenDownTo(k, size, m, 24) == k[24]
  {
  }

  method AbsorbKw4(sub: array<Half>, max: nat, ghost k: seq<Half>)
    requires IsSize(max) && sub.Length == max + 2 && |k| == max + 2
    requires sub[max] == Xor(k[max], W(k, max, max - 8))
    requires forall n | 0 <= n < max + 2 && n != 1 && n != max :: sub[n] == OddUpTo(k, max, max, n)
    modifies sub
    ensures IsAbsorbed(sub[..], k, max)
  {
    hide Xor, Lin, OddUpTo, EvenDownTo, IsAbsorbed;
    EvenFromNothing(k, max);
    var kw4 := sub[max + 1];
    LayerKeys(k, max, max);
    if max == 32 {
      AbsorbEven(sub, 24, kw4, k, max);
      LayerKeys(k, max, 24);
      kw4 := Lin(kw4, sub[24]);
    }
    AbsorbEven(sub, 16, kw4, k, max);
    LayerKeys(k, max, 16);
    kw4 := Lin(kw4, sub[16]);
    AbsorbEven(sub, 8, kw4, k, max);
    LayerKeys(k, max, 8);
    kw4 := Lin(kw4, sub[8]);
    AbsorbEven(sub, 0, kw4, k, max);
    LayerKeys(k, max, 0);
    sub[0] := Xor(sub[0], kw4);
    BothAbsorbed(sub[..], k, max);
  }

  lemma AbsorbedAt(sub: seq<Half>, k: seq<Half>, size: nat, i: nat)
    requires IsSize(size) && |k| == size + 2 && IsStart(size, i) && IsAbsorbed(sub, k, size)
    ensures |sub| == size + 2
    ensures i != 0 ==> sub[i] == k[i] && sub[i + 1] == k[i + 1]
    ensures sub[i + 2] == Absorbed(k, size, i, 2) && sub[i + 3] == Absorbed(k, size, i, 3)
    ensures sub[i + 4] == Absorbed(k, size, i, 4) && sub[i + 5] == Absorbed(k, size, i, 5)
    ensures sub[i + 6] == Absorbed(k, size, i, 6) && sub[i + 7] == Absorbed(k, size, i, 7)
  {
    hide Absorbed, Section, Place;
    SectionOf(size, i);
  }

  /** The four inner rounds of a section: each key is XORed with its second neighbour. */
  method MiddleXors(table: array<Half>, sub: array<Half>, i: nat, ghost k: seq<Half>, ghost max: nat)
    requires IsSize(max) && |k| == max + 2 && IsStart(max, i) && max < table.Length && table != sub
    requires IsAbsorbed(sub[..], k, max)
    modifies table
    ensures forall n | 0 <= n < table.Length ::
              table[n] == if i + 3 <= n < i + 7 then RawEntry(k, max, n) else old(table[n])
  {
    hide Xor, Absorbed, IsAbsorbed, Section, Place;
    SectionOf(max, i);
    AbsorbedAt(sub[..], k, max, i);
    table[i + 3] := Xor(sub[i + 2], sub[i + 4]);
    table[i + 4] := Xor(sub[i + 3], sub[i + 5]);
    table[i + 5] := Xor(sub[i + 4], sub[i + 6]);
    table[i + 6] := Xor(sub[i + 5], sub[i + 7]);
  }

  /** The FL layer in front of section i and the rounds next to it. */
  method LayerXors(table: array<Half>, sub: array<Half>, i: nat, ghost k: seq<Half>, ghost max: nat)
    requires IsSize(max) && |k| == max + 2 && IsStart(max, i) && i != 0 && max < table.Length && table != sub
    requires IsAbsorbed(sub[..], k, max)
    modifies table
    ensures forall n | 0 <= n < table.Length ::
              table[n] == if i - 1 <= n < i + 3 then RawEntry(k, max, n) else old(table[n])
  {
    hide Xor, Lin, Absorbed, IsAbsorbed, Section, Place;
    SectionOf(max, i);
    SectionOf(max, i - 8);
    AbsorbedAt(sub[..], k, max, i);
    AbsorbedAt(sub[..], k, max, i - 8);
    table[i - 1] := Xor(sub[i - 2], Lin(sub[i + 2], sub[i]));
    table[i] := sub[i];
    table[i + 1] := sub[i + 1];
    table[i + 2] := Xor(Lin(sub[i - 1], sub[i + 1]), sub[i + 3]);
  }

  lemma OuterEntries(sub: seq<Half>, k: seq<Half>, size: nat)
    requires IsSize(size) && |k| == size + 2 && IsAbsorbed(sub, k, size)
    ensures |sub| == size + 2
    ensures RawEntry(k, size, 0) == Xor(sub[0], sub[2]) && RawEntry(k, size, 2) == sub[3]
    ensures RawEntry(k, size, size - 1) == sub[size - 2] && RawEntry(k, size, size) == Xor(sub[size], sub[size - 1])
  {
    hide Xor, Lin, Absorbed, Section, Place;
    SectionOf(size, 0);
    SectionOf(size, size - 8);
  }

  /** The key XOR moves to the end of F. */
  method KeyXors(table: array<Half>, sub: array<Half>, max: nat, ghost k: seq<Half>)
    requires IsSize(max) && |k| == max + 2 && max < table.Length && table != sub
    requires IsAbsorbed(sub[..], k, max)
    modifies table
    ensures forall n | 0 <= n <= max && n != 1 :: table[n] == RawEntry(k, max, n)
  {
    hide RawEntry, Xor, IsAbsorbed;
    OuterEntries(sub[..], k, max);
    table[0] := Xor(sub[0], sub[2]);
    table[2] := sub[3];
    MiddleXors(table, sub, 0, k, max);
    LayerXors(table, sub, 8, k, max);
    MiddleXors(table, sub, 8, k, max);
    LayerXors(table, sub, 16, k, max);
    MiddleXors(table, sub, 16, k, max);
    if max == 24 {
      table[23] := sub[22];
      table[24] := Xor(sub[24], sub[23]);
    } else {
      LayerXors(table, sub, 24, k, max);
      MiddleXors(table, sub, 24, k, max);
      table[31] := sub[30];
      table[32] := Xor(sub[32], sub[31]);
    }
  }

  method UnmixAt(table: array<Half>, n: nat)
    requires n < table.Length
    modifies table
    ensures forall m | 0 <= m < table.Length :: table[m] == if m == n then UnMix(old(table[m])) else old(table[m])
  {
    var dw := Rol8(X(table[n].l, table[n].r));
    table[n] := Half(dw, X(table[n].l, dw));
  }

  /** One pass of the loop body. */
  method UnmixSix(table: array<Half>, i: nat)
    requires i + 6 <= table.Length
    modifies table
    ensures forall n | 0 <= n < table.Length :: table[n] == if i <= n < i + 6 then UnMix(old(table[n])) else old(table[n])
  {
    hide UnMix;
    UnmixAt(table, i);
    UnmixAt(table, i + 1);
    UnmixAt(table, i + 2);
    UnmixAt(table, i + 3);
    UnmixAt(table, i + 4);
    UnmixAt(table, i + 5);
  }

  /** The loop that undoes the last half of P on every round key. */
  method UnmixRounds(table: array<Half>, max: nat)
    requires IsSize(max) && max < table.Length
    modifies table
    ensures forall n | 0 <= n < table.Length ::
              table[n] == if n < max && 2 <= Place(n) then UnMix(old(table[n])) else old(table[n])
  {
    hide UnMix, Section, Place;
    SectionOf(max, 0);
    SectionOf(max, 8);
    SectionOf(max, 16);
    SectionOf(max, max - 8);
    var i := 2;
    while i < max
      invariant i == max + 2 || (i >= 2 && IsStart(max, i - 2))
      invariant forall n | 0 <= n < table.Length ::
                  table[n] == if n < i - 2 && 2 <= Place(n) then UnMix(old(table[n])) else old(table[n])
    {
      UnmixSix(table, i);
      i := i + 8;
    }
  }

  /** camellia_setup_tail builds the table of its subkeys. */
  method SetupTail(table: array<Half>, sub: array<Half>, max: nat)
    requires IsSize(max) && sub.Length == max + 2 && max < table.Length && table != sub
    modifies table, sub
    ensures forall n | 0 <= n <= max && n != 1 :: table[n] == Table(old(sub[..]), max)[n]
  {
    hide Xor, Lin, V, W, Absorbed, RawEntry, UnMix, Section, Place, IsAbsorbed;
    ghost var k := sub[..];
    AbsorbKw2(sub, max);
    AbsorbKw4(sub, max, k);
    KeyXors(table, sub, max, k);
    UnmixRounds(table, max);
  }

  // ------------------------------------------------------- key generation

  /** CAMELLIA_F. */
  function LookupF(sb: SBoxes, x: Half, k: Half): (y: Half)
    ensures y == F(sb, x, k)
  {
    hide *;
    LookupIsF(sb, x, k);
    Mix(Lookup(sb, Xor(x, k)))
  }

  predicate FromL128(n: nat) {
    n == 0 || n == 1 || n == 4 || n == 5 || n == 10 || n == 11 || n == 13 ||
    n == 16 || n == 17 || n == 18 || n == 19 || n == 22 || n == 23
  }

  /** The subkeys that camellia_setup128 takes from KL. */
  method SubkeysFromL128(sub: array<Half>, kl: Block, ghost ka: Block)
    requires sub.Length == 26
    modifies sub
    ensures forall n | 0 <= n < 26 :: sub[n] == if FromL128(n) then Subkey128(kl, ka, n) else old(sub[n])
  {
    hide Rot, Roldq, RoldqO32;
    assert Rot(kl, 0) == kl by { RotNone(kl); }
    var k := kl;
    sub[0], sub[1] := k.d1, k.d2;
    k := Roldq(k, 15);
    RoldqAfter(kl, 0, 15);
    sub[4], sub[5] := k.d1, k.d2;
    k := Roldq(k, 30);
    RoldqAfter(kl, 15, 30);
    sub[10], sub[11] := k.d1, k.d2;
    k := Roldq(k, 15);
    RoldqAfter(kl, 45, 15);
    sub[13] := k.d2;
    k := Roldq(k, 17);
    RoldqAfter(kl, 60, 17);
    sub[16], sub[17] := k.d1, k.d2;
    k := Roldq(k, 17);
    RoldqAfter(kl, 77, 17);
    sub[18], sub[19] := k.d1, k.d2;
    k := Roldq(k, 17);
    RoldqAfter(kl, 94, 17);
    sub[22], sub[23] := k.d1, k.d2;
  }

  predicate FromA128(n: nat) {
    n == 2 || n == 3 || n == 6 || n == 7 || n == 8 || n == 9 || n == 12 ||
    n == 14 || n == 15 || n == 20 || n == 21 || n == 24 || n == 25
  }

  /** The subkeys that it takes from KA. */
  method SubkeysFromA128(sub: array<Half>, ka: Block, ghost kl: Block)
    requires sub.Length == 26
    modifies sub
    ensures forall n | 0 <= n < 26 :: sub[n] == if FromA128(n) then Subkey128(kl, ka, n) else old(sub[n])
  {
    hide Rot, Roldq, RoldqO32;
    assert Rot(ka, 0) == ka by { RotNone(ka); }
    var k := ka;
    sub[2], sub[3] := k.d1, k.d2;
    k := Roldq(k, 15);
    RoldqAfter(ka, 0, 15);
    sub[6], sub[7] := k.d1, k.d2;
    k := Roldq(k, 15);
    RoldqAfter(ka, 15, 15);
    sub[8], sub[9] := k.d1, k.d2;
    k := Roldq(k, 15);
    RoldqAfter(ka, 30, 15);
    sub[12] := k.d1;
    k := Roldq(k, 15);
    RoldqAfter(ka, 45, 15);
    sub[14], sub[15] := k.d1, k.d2;
    k := RoldqO32(k, 34);
    RoldqO32After(ka, 60, 34);
    sub[20], sub[21] := k.d1, k.d2;
    k := Roldq(k, 17);
    RoldqAfter(ka, 94, 17);
    sub[24], sub[25] := k.d1, k.d2;
  }

  predicate FromL256(n: nat) {
    n == 0 || n == 1 || n == 12 || n == 13 || n == 16 || n == 17 || n == 22 || n == 23 || n == 30 || n == 31
  }

  /** The subkeys that camellia_setup256 takes from KL. */
  method SubkeysFromL256(sub: array<Half>, kl: Block, ghost kr: Block, ghost ka: Block, ghost kb: Block)
    requires sub.Length == 34
    modifies sub
    ensures forall n | 0 <= n < 34 :: sub[n] == if FromL256(n) then Subkey256(kl, kr, ka, kb, n) else old(sub[n])
  {
    hide Rot, Roldq, RoldqO32;
    assert Rot(kl, 0) == kl by { RotNone(kl); }
    var k := kl;
    sub[0], sub[1] := k.d1, k.d2;
    k := RoldqO32(k, 45);
    RoldqO32After(kl, 0, 45);
    sub[12], sub[13] := k.d1, k.d2;
    k := Roldq(k, 15);
    RoldqAfter(kl, 45, 15);
    sub[16], sub[17] := k.d1, k.d2;
    k := Roldq(k, 17);
    RoldqAfter(kl, 60, 17);
    sub[22], sub[23] := k.d1, k.d2;
    k := RoldqO32(k, 34);
    RoldqO32After(kl, 77, 34);
    sub[30], sub[31] := k.d1, k.d2;
  }

  predicate FromR256(n: nat) {
    n == 4 || n == 5 || n == 8 || n == 9 || n == 18 || n == 19 || n == 26 || n == 27
  }

  /** The subkeys that it takes from KR; the register ends where it started. */
  method SubkeysFromR256(sub: array<Half>, kr: Block, ghost kl: Block, ghost ka: Block, ghost kb: Block) returns (k: Block)
    requires sub.Length == 34
    modifies sub
    ensures forall n | 0 <= n < 34 :: sub[n] == if FromR256(n) then Subkey256(kl, kr, ka, kb, n) else old(sub[n])
    ensures k == kr
  {
    hide Rot, Roldq, RoldqO32;
    assert Rot(kr, 0) == kr by { RotNone(kr); }
    k := kr;
    k := Roldq(k, 15);
    RoldqAfter(kr, 0, 15);
    sub[4], sub[5] := k.d1, k.d2;
    k := Roldq(k, 15);
    RoldqAfter(kr, 15, 15);
    sub[8], sub[9] := k.d1, k.d2;
    k := Roldq(k, 30);
    RoldqAfter(kr, 30, 30);
    sub[18], sub[19] := k.d1, k.d2;
    k := RoldqO32(k, 34);
    RoldqO32After(kr, 60, 34);
    sub[26], sub[27] := k.d1, k.d2;
    k := RoldqO32(k, 34);
    RoldqO32After(kr, 94, 34);
    FullTurn(kr);
  }

  predicate FromA256(n: nat) {
    n == 6 || n == 7 || n == 14 || n == 15 || n == 24 || n == 25 || n == 28 || n == 29
  }

  /** The subkeys that it takes from KA. */
  method SubkeysFromA256(sub: array<Half>, ka: Block, ghost kl: Block, ghost kr: Block, ghost kb: Block)
    requires sub.Length == 34
    modifies sub
    ensures forall n | 0 <= n < 34 :: sub[n] == if FromA256(n) then Subkey256(kl, kr, ka, kb, n) else old(sub[n])
  {
    hide Rot, Roldq, RoldqO32;
    assert Rot(ka, 0) == ka by { RotNone(ka); }
    var k := ka;
    k := Roldq(k, 15);
    RoldqAfter(ka, 0, 15);
    sub[6], sub[7] := k.d1, k.d2;
    k := Roldq(k, 30);
    RoldqAfter(ka, 15, 30);
    sub[14], sub[15] := k.d1, k.d2;
    NextWordIsRot(k);
    RotAdds(ka, 45, 32);
    sub[24], sub[25] := NextWord(k).d1, NextWord(k).d2;
    k := RoldqO32(k, 49);
    RoldqO32After(ka, 45, 49);
    sub[28], sub[29] := k.d1, k.d2;
  }

  predicate FromB256(n: nat) {
    n == 2 || n == 3 || n == 10 || n == 11 || n == 20 || n == 21 || n == 32 || n == 33
  }

  /** The subkeys that it takes from KB. */
  method SubkeysFromB256(sub: array<Half>, kb: Block, ghost kl: Block, ghost kr: Block, ghost ka: Block)
    requires sub.Length == 34
    modifies sub
    ensures forall n | 0 <= n < 34 :: sub[n] == if FromB256(n) then Subkey256(kl, kr, ka, kb, n) else old(sub[n])
  {
    hide Rot, Roldq, RoldqO32;
    assert Rot(kb, 0) == kb by { RotNone(kb); }
    var k := kb;
    sub[2], sub[3] := k.d1, k.d2;
    k := Roldq(k, 30);
    RoldqAfter(kb, 0, 30);
    sub[10], sub[11] := k.d1, k.d2;
    k := Roldq(k, 30);
    RoldqAfter(kb, 30, 30);
    sub[20], sub[21] := k.d1, k.d2;
    k := RoldqO32(k, 51);
    RoldqO32After(kb, 60, 51);
    sub[32], sub[33] := k.d1, k.d2;
  }
  /** KA as camellia_setup128 computes it: KL is XORed out instead of in. */
  method GenerateA128(sb: SBoxes, kl: Block) returns (ka: Block)
    ensures ka == KeyA(sb, kl, Block(Half(0, 0), Half(0, 0)))
  {
    hide Xor, F;
    var z := Half(0, 0);
    XorZero(kl.d1);
    XorZero(kl.d2);
    var w := LookupF(sb, kl.d1, SIGMA1);
    var r := Xor(kl.d2, w);
    var l := LookupF(sb, r, SIGMA2);
    XorOut(kl.d1, l);
    XorOut(kl.d2, w);
    r := LookupF(sb, l, SIGMA3);
    XorCommutes(r, w);
    r := Xor(r, w);
    w := LookupF(sb, r, SIGMA4);
    l := Xor(l, w);
    ka := Block(l, r);
  }

  lemma XorZero(a: Half)
    ensures Xor(a, Half(0, 0)) == a
  {
  }

  lemma XorOut(a: Half, b: Half)
    ensures Xor(Xor(a, b), a) == b
  {
    XorCommutes(a, b);
    XorCancel(b, a);
  }

  /** KA as camellia_setup256 computes it. */
  method GenerateA256(sb: SBoxes, kl: Block, kr: Block) returns (ka: Block)
    ensures ka == KeyA(sb, kl, kr)
  {
    hide Xor, F;
    var l, r := Xor(kl.d1, kr.d1), Xor(kl.d2, kr.d2);
    var w := LookupF(sb, l, SIGMA1);
    XorOutOfThree(kl.d2, kr.d2, w);
    r := Xor(r, w);
    l := LookupF(sb, r, SIGMA2);
    XorOutOfThree(kl.d1, kr.d1, l);
    XorCommutes(kr.d1, l);
    l := Xor(l, kr.d1);
    r := LookupF(sb, l, SIGMA3);
    XorCommutes(kr.d2, w);
    XorCommutes(r, Xor(w, kr.d2));
    r := Xor(r, Xor(w, kr.d2));
    w := LookupF(sb, r, SIGMA4);
    l := Xor(l, w);
    ka := Block(l, r);
  }

  lemma XorOutOfThree(a: Half, b: Half, c: Half)
    ensures Xor(Xor(Xor(a, b), c), a) == Xor(b, c)
  {
    hide Xor;
    XorAssociates(a, b, c);
    XorOut(a, Xor(b, c));
  }

  method GenerateB256(sb: SBoxes, ka: Block, kr: Block) returns (kb: Block)
    ensures kb == KeyB(sb, ka, kr)
  {
    hide Xor, F;
    XorCommutes(kr.d1, ka.d1);
    XorCommutes(kr.d2, ka.d2);
    var l, r := Xor(kr.d1, ka.d1), Xor(kr.d2, ka.d2);
    var w := LookupF(sb, l, SIGMA5);
    r := Xor(r, w);
    w := LookupF(sb, r, SIGMA6);
    l := Xor(l, w);
    kb := Block(l, r);
  }

  // ---------------------------------------------------------- key setup

  /** The table for a key of 16, 24 or 32 bytes; entry 1 is never used. */
  ghost predicate IsTableFor(sb: SBoxes, key: seq<bv8>, t: seq<Half>)
    requires IsKey(key)
  {
    |t| > SizeOf(key) && forall n | 0 <= n <= SizeOf(key) && n != 1 :: t[n] == Table(Subkeys(sb, key), SizeOf(key))[n]
  }

  method Setup128(sb: SBoxes, key: seq<bv8>, table: array<Half>)
    requires |key| == 16 && table.Length == 34
    modifies table
    ensures IsTableFor(sb, key, table[..])
  {
    hide Xor, F, Rot, KeyA, Table, Subkey128;
    var kl := ReadBlock(key, 0);
    var sub := new Half[26];
    SubkeysFromL128(sub, kl, KeyA(sb, kl, KeyR(key)));
    var ka := GenerateA128(sb, kl);
    SubkeysFromA128(sub, ka, kl);
    assert sub[..] == Subkeys128(kl, ka);
    SetupTail(table, sub, 24);
  }

  method Setup256(sb: SBoxes, key: seq<bv8>, table: array<Half>)
    requires |key| == 32 && table.Length == 34
    modifies table
    ensures IsTableFor(sb, key, table[..])
  {
    hide Xor, F, Rot, KeyA, KeyB, Table, Subkey256;
    var kl, kr := ReadBlock(key, 0), ReadBlock(key, 16);
    var sub := new Half[34];
    ghost var ka' := KeyA(sb, kl, kr);
    ghost var kb' := KeyB(sb, ka', kr);
    SubkeysFromL256(sub, kl, kr, ka', kb');
    kr := SubkeysFromR256(sub, kr, kl, ka', kb');
    var ka := GenerateA256(sb, kl, kr);
    var kb := GenerateB256(sb, ka, kr);
    SubkeysFromA256(sub, ka, kl, kr, kb);
    SubkeysFromB256(sub, kb, kl, kr, ka);
    assert sub[..] == Subkeys256(kl, kr, ka, kb);
    SetupTail(table, sub, 32);
  }

  /** A 192-bit key is padded with the complement of its last 64 bits. */
  method Setup192(sb: SBoxes, key: seq<bv8>, table: array<Half>)
    requires |key| == 24 && table.Length == 34
    modifies table
    ensures IsTableFor(sb, key, table[..])
  {
    hide Word, NotHalf, KeyA, KeyB, Table, Subkeys256;
    var kk := key + NotBytes(key[16..]);
    PaddedKey(key);
    Setup256(sb, kk, table);
  }
}
