/** camellia_do_encrypt, camellia_do_decrypt and the context that camellia_set_key fills. */
module CamelliaCipher {
  import opened CamelliaWords
  import opened CamelliaRfc
  import opened CamelliaAlgebra
  import opened CamelliaTable
  import opened CamelliaSchedule
  import opened CamelliaSetup

  /** The two halves of the block that is worked on in place. */
  ghost function Io(io: array<Half>): (b: Block)
    requires io.Length == 2
    reads io
  {
    Block(io[0], io[1])
  }

  /** CAMELLIA_ROUNDSM with x = io[from] and y = io[1 - from]. */
  method Round(sb: SBoxes, io: array<Half>, from: nat, k: Half)
    requires io.Length == 2 && from < 2
    modifies io
    ensures io[from] == old(io[from])
    ensures io[1 - from] == RoundSm(sb, old(io[from]), k, old(io[1 - from]))
  {
    hide X, Lookup;
    var il, ir := Lookup(sb, io[from]).l, Lookup(sb, io[from]).r;
    il := X(il, k.l);
    XFour(Lookup(sb, io[from]).l, Lookup(sb, io[from]).r, k.l, k.r);
    XCommutes(ir, X(il, k.r));
    XAssociates(il, k.r, ir);
    XCommutes(k.r, ir);
    ir := X(ir, X(il, k.r));
    io[1 - from] := Half(X(io[1 - from].l, ir), X(io[1 - from].r, X(Ror8(il), ir)));
  }

  /** ROUNDS(i) of the encryption. */
  method Rounds(sb: SBoxes, table: array<Half>, io: array<Half>, i: nat)
    requires io.Length == 2 && i + 7 < table.Length && table != io
    modifies io
    ensures Io(io) == SixRoundsSm(sb, table[..], i + 2, old(Io(io)))
  {
    hide RoundSm;
    Round(sb, io, 0, table[i + 2]);
    Round(sb, io, 1, table[i + 3]);
    Round(sb, io, 0, table[i + 4]);
    Round(sb, io, 1, table[i + 5]);
    Round(sb, io, 0, table[i + 6]);
    Round(sb, io, 1, table[i + 7]);
  }

  /** ROUNDS(i) of the decryption. */
  method RoundsBack(sb: SBoxes, table: array<Half>, io: array<Half>, i: nat)
    requires io.Length == 2 && i + 7 < table.Length && table != io
    modifies io
    ensures Io(io) == SixRoundsBack(sb, table[..], i + 2, old(Io(io)))
  {
    hide RoundSm;
    Round(sb, io, 0, table[i + 7]);
    Round(sb, io, 1, table[i + 6]);
    Round(sb, io, 0, table[i + 5]);
    Round(sb, io, 1, table[i + 4]);
    Round(sb, io, 0, table[i + 3]);
    Round(sb, io, 1, table[i + 2]);
  }

  /** CAMELLIA_FLS: FL on the first half and FLInv on the second, interleaved. */
  method Fls(io: array<Half>, kl: Half, kr: Half)
    requires io.Length == 2
    modifies io
    ensures Io(io) == Block(FL(old(io[0]), kl), FLInv(old(io[1]), kr))
  {
    hide X, Masked, Joined, Rol1;
    var t0, t2 := Masked(io[0].l, kl.l), Joined(io[1].r, kr.r);
    io[1] := Half(X(io[1].l, t2), io[1].r);
    io[0] := Half(io[0].l, X(io[0].r, Rol1(t0)));
    var t3, t1 := Masked(io[1].l, kr.l), Joined(io[0].r, kl.r);
    io[0] := Half(X(io[0].l, t1), io[0].r);
    io[1] := Half(io[1].l, X(io[1].r, Rol1(t3)));
  }

  method DoEncryptInPlace(sb: SBoxes, table: array<Half>, io: array<Half>, max: nat)
    requires io.Length == 2 && IsSize(max) && table.Length > max && table != io
    modifies io
    ensures Io(io) == DoEncrypt(sb, table[..], max, old(Io(io)))
  {
    hide Xor, SixRoundsSm, FL, FLInv;
    ghost var t := table[..];
    io[0] := Xor(io[0], table[0]);
    Rounds(sb, table, io, 0);
    Fls(io, table[8], table[9]);
    Rounds(sb, table, io, 8);
    Fls(io, table[16], table[17]);
    Rounds(sb, table, io, 16);
    if max == 32 {
      Fls(io, table[24], table[25]);
      Rounds(sb, table, io, 24);
    }
    io[1] := Xor(io[1], table[max]);
  }

  method DoDecryptInPlace(sb: SBoxes, table: array<Half>, io: array<Half>, max: nat)
    requires io.Length == 2 && IsSize(max) && table.Length > max && table != io
    modifies io
    ensures Io(io) == DoDecrypt(sb, table[..], max, old(Io(io)))
  {
    hide Xor, SixRoundsBack, FL, FLInv;
    ghost var t := table[..];
    io[0] := Xor(io[0], table[max]);
    if max == 32 {
      RoundsBack(sb, table, io, 24);
      Fls(io, table[25], table[24]);
    }
    RoundsBack(sb, table, io, 16);
    Fls(io, table[17], table[16]);
    RoundsBack(sb, table, io, 8);
    Fls(io, table[9], table[8]);
    RoundsBack(sb, table, io, 0);
    io[1] := Xor(io[1], table[0]);
  }

  /** The operations never look at entry 1, so they compute what they do on the table of the key. */
  lemma SpareEntry(sb: SBoxes, key: seq<bv8>, t: seq<Half>, m: Block)
    requires IsKey(key) && IsTableFor(sb, key, t)
    ensures Swap(DoEncrypt(sb, t, SizeOf(key), m)) == Camellia(sb, key, m)
    ensures Camellia(sb, key, Swap(DoDecrypt(sb, t, SizeOf(key), m))) == m
  {
    hide Xor, TwoRoundsSm, FL, FLInv, Subkeys, Encrypt, Table;
    var size, k := SizeOf(key), Subkeys(sb, key);
    TableComputesCamellia(sb, k, size, m);
    EncryptIgnoresSpare(sb, t, Table(k, size), size, m);
    EncryptUndoesDecrypt(sb, t, size, m);
    var m' := Swap(DoDecrypt(sb, t, size, m));
    TableComputesCamellia(sb, k, size, m');
    EncryptIgnoresSpare(sb, t, Table(k, size), size, m');
  }

  lemma EncryptIgnoresSpare(sb: SBoxes, t: seq<Half>, u: seq<Half>, size: nat, m: Block)
    requires IsSize(size) && |t| > size && |u| > size
    requires forall n | 0 <= n <= size && n != 1 :: t[n] == u[n]
    ensures DoEncrypt(sb, t, size, m) == DoEncrypt(sb, u, size, m)
  {
    hide Xor, TwoRoundsSm, FL, FLInv;
  }

  /** Under one key Camellia maps different blocks to different blocks. */
  lemma CamelliaInjective(sb: SBoxes, key: seq<bv8>, m: Block, m': Block)
    requires IsKey(key) && Camellia(sb, key, m) == Camellia(sb, key, m')
    ensures m == m'
  {
    hide Xor, DoEncrypt, DoDecrypt, Subkeys, Encrypt, Table;
    var size, k := SizeOf(key), Subkeys(sb, key);
    TableComputesCamellia(sb, k, size, m);
    TableComputesCamellia(sb, k, size, m');
    DecryptUndoesEncrypt(sb, Table(k, size), size, m);
    DecryptUndoesEncrypt(sb, Table(k, size), size, m');
  }

  /** struct camellia_ctx. */
  class Context {
    var keyLength: nat
    const table: array<Half>
    ghost var key: seq<bv8>

    ghost predicate Valid(sb: SBoxes)
      reads this, table
    {
      table.Length == 34 && IsKey(key) && keyLength == |key| && IsTableFor(sb, key, table[..])
    }

    constructor ()
      ensures table.Length == 34 && fresh(table)
    {
      keyLength := 0;
      table := new Half[34];
      key := [];
    }

    /** camellia_set_key: -EINVAL, and nothing changed, exactly for the other lengths. */
    method SetKey(sb: SBoxes, in_key: seq<bv8>) returns (ok: bool)
      requires table.Length == 34
      modifies this, table
      ensures ok == IsKey(in_key)
      ensures ok ==> Valid(sb) && key == in_key
      ensures !ok ==> keyLength == old(keyLength) && key == old(key) && table[..] == old(table[..])
    {
      hide IsTableFor;
      if |in_key| != 16 && |in_key| != 24 && |in_key| != 32 {
        return false;
      }
      keyLength, key := |in_key|, in_key;
      if |in_key| == 16 {
        Setup128(sb, in_key, table);
      } else if |in_key| == 24 {
        Setup192(sb, in_key, table);
      } else {
        Setup256(sb, in_key, table);
      }
      return true;
    }

    /** camellia_encrypt is Camellia under the key that was set. */
    method EncryptBlock(sb: SBoxes, m: Block) returns (c: Block)
      requires Valid(sb)
      ensures c == Camellia(sb, key, m)
    {
      hide DoEncrypt, DoDecrypt, IsTableFor, Camellia;
      var io := new Half[2];
      io[0], io[1] := m.d1, m.d2;
      SpareEntry(sb, key, table[..], m);
      var max := if keyLength == 16 then 24 else 32;
      DoEncryptInPlace(sb, table, io, max);
      c := Block(io[1], io[0]);
    }

    /** camellia_decrypt gives the one block that camellia_encrypt maps to c. */
    method DecryptBlock(sb: SBoxes, c: Block) returns (m: Block)
      requires Valid(sb)
      ensures Camellia(sb, key, m) == c
    {
      hide DoEncrypt, DoDecrypt, IsTableFor, Camellia;
      var io := new Half[2];
      io[0], io[1] := c.d1, c.d2;
      SpareEntry(sb, key, table[..], c);
      var max := if keyLength == 16 then 24 else 32;
      DoDecryptInPlace(sb, table, io, max);
      m := Block(io[1], io[0]);
    }
  }
}
