/**
  Cipher block chaining.  A buffer is an array of whole blocks; what is left over behind the last
  whole block is never touched.  Blocks of any kind B will do, with any block cipher on them and
  any XOR that can be undone.
*/
module Cbc {
  datatype Cipher<!B> = Cipher(e: B -> B, d: B -> B, xor: (B, B) -> B)

  ghost predicate Sound<B(!new)>(c: Cipher<B>) {
    && (forall x: B :: c.d(c.e(x)) == x)
    && (forall a: B, b: B :: c.xor(c.xor(a, b), b) == a)
    && (forall a: B, b: B :: c.xor(a, b) == c.xor(b, a))
  }

  // ------------------------------------------------------------- the mode

  /** Section 6.2 of NIST SP 800-38A: each block is XORed with the ciphertext before it. */
  function Enc<B>(c: Cipher<B>, iv: B, p: seq<B>): (r: seq<B>)
    ensures |r| == |p|
    decreases |p|
  {
    if p == [] then [] else
      var x := c.e(c.xor(iv, p[0]));
      [x] + Enc(c, x, p[1..])
  }

  function Dec<B>(c: Cipher<B>, iv: B, s: seq<B>): (r: seq<B>)
    ensures |r| == |s|
    decreases |s|
  {
    if s == [] then [] else [c.xor(c.d(s[0]), iv)] + Dec(c, s[0], s[1..])
  }

  /** The chaining value behind some ciphertext. */
  function Chain<B>(iv: B, s: seq<B>): (r: B) {
    if s == [] then iv else s[|s| - 1]
  }

  /** Decryption undoes encryption. */
  lemma {:induction false} DecUndoesEnc<B(!new)>(c: Cipher<B>, iv: B, p: seq<B>)
    requires Sound(c)
    ensures Dec(c, iv, Enc(c, iv, p)) == p
    decreases |p|
  {
    if p != [] {
      var x := c.xor(iv, p[0]);
      assert c.xor(x, iv) == p[0] by {
        assert c.xor(p[0], iv) == x;
      }
      DecUndoesEnc(c, c.e(x), p[1..]);
    }
  }

  /** A message may be cut anywhere between blocks if the chaining value is handed on. */
  lemma {:induction false} EncSplit<B>(c: Cipher<B>, iv: B, p: seq<B>, q: seq<B>)
    ensures Enc(c, iv, p + q) == Enc(c, iv, p) + Enc(c, Chain(iv, Enc(c, iv, p)), q)
    decreases |p|
  {
    if p == [] {
      assert p + q == q;
    } else {
      var x := c.e(c.xor(iv, p[0]));
      EncSplit(c, x, p[1..], q);
      assert (p + q)[1..] == p[1..] + q && (p + q)[0] == p[0];
      assert Chain(iv, Enc(c, iv, p)) == Chain(x, Enc(c, x, p[1..]));
    }
  }

  lemma {:induction false} DecSplit<B>(c: Cipher<B>, iv: B, s: seq<B>, t: seq<B>)
    ensures Dec(c, iv, s + t) == Dec(c, iv, s) + Dec(c, Chain(iv, s), t)
    decreases |s|
  {
    if s == [] {
      assert s + t == t;
    } else {
      DecSplit(c, s[0], s[1..], t);
      assert (s + t)[1..] == s[1..] + t;
    }
  }

  lemma EncSnoc<B>(c: Cipher<B>, iv: B, p: seq<B>, x: B)
    ensures Enc(c, iv, p + [x]) == Enc(c, iv, p) + [c.e(c.xor(Chain(iv, Enc(c, iv, p)), x))]
  {
    EncSplit(c, iv, p, [x]);
    assert [x][1..] == [];
  }

  /** A block decrypts by itself and the ciphertext before it. */
  lemma {:induction false} DecAt<B>(c: Cipher<B>, iv: B, s: seq<B>, i: nat)
    requires i < |s|
    ensures Dec(c, iv, s)[i] == c.xor(c.d(s[i]), if i == 0 then iv else s[i - 1])
    decreases |s|
  {
    if i > 0 {
      DecAt(c, s[0], s[1..], i - 1);
    }
  }

  // ---------------------------------------------------- the loops on a chunk

  lemma EncNone<B>(c: Cipher<B>, iv: B)
    ensures Enc(c, iv, []) == []
  {
  }

  /** crypto_cbc_encrypt_segment, between different buffers. */
  method EncryptSegment<B>(c: Cipher<B>, src: array<B>, dst: array<B>, iv: B) returns (iv': B)
    requires src != dst && 0 < src.Length == dst.Length
    modifies dst
    ensures dst[..] == Enc(c, iv, src[..]) && iv' == Chain(iv, dst[..])
  {
    hide Enc;
    iv' := iv;
    var i := 0;
    EncNone(c, iv);
    while i < src.Length
      invariant 0 <= i <= src.Length
      invariant dst[..i] == Enc(c, iv, src[..i]) && iv' == Chain(iv, dst[..i])
    {
      EncSnoc(c, iv, src[..i], src[i]);
      assert src[..i + 1] == src[..i] + [src[i]];
      ghost var done := dst[..i];
      iv' := c.xor(iv', src[i]);
      dst[i] := c.e(iv');
      iv' := dst[i];
      assert dst[..i + 1] == done + [dst[i]];
      i := i + 1;
    }
    assert dst[..i] == dst[..] && src[..i] == src[..];
  }

  /** crypto_cbc_encrypt_inplace: the chaining value is read from the buffer itself. */
  method EncryptInPlace<B(!new)>(c: Cipher<B>, buf: array<B>, iv: B) returns (iv': B)
    requires Sound(c) && 0 < buf.Length
    modifies buf
    ensures buf[..] == Enc(c, iv, old(buf[..])) && iv' == Chain(iv, buf[..])
  {
    hide Enc;
    iv' := iv;
    var i := 0;
    ghost var was := buf[..];
    EncNone(c, iv);
    while i < buf.Length
      invariant 0 <= i <= buf.Length
      invariant buf[..i] == Enc(c, iv, was[..i]) && iv' == Chain(iv, buf[..i])
      invariant forall j | i <= j < buf.Length :: buf[j] == was[j]
    {
      EncSnoc(c, iv, was[..i], was[i]);
      assert was[..i + 1] == was[..i] + [was[i]];
      ghost var done := buf[..i];
      buf[i] := c.xor(buf[i], iv');
      buf[i] := c.e(buf[i]);
      iv' := buf[i];
      assert buf[..i + 1] == done + [buf[i]];
      i := i + 1;
    }
    assert buf[..i] == buf[..] && was[..i] == was;
  }

  /** crypto_cbc_decrypt_segment. */
  method DecryptSegment<B>(c: Cipher<B>, src: array<B>, dst: array<B>, iv: B) returns (iv': B)
    requires src != dst && 0 < src.Length == dst.Length
    modifies dst
    ensures dst[..] == Dec(c, iv, src[..]) && iv' == Chain(iv, src[..])
  {
    hide Dec;
    iv' := iv;
    var i := 0;
    ghost var s := src[..];
    while i < src.Length
      invariant 0 <= i <= src.Length && iv' == Chain(iv, s[..i])
      invariant forall j | 0 <= j < i :: dst[j] == Dec(c, iv, s)[j]
    {
      DecAt(c, iv, s, i);
      dst[i] := c.d(src[i]);
      dst[i] := c.xor(dst[i], iv');
      iv' := src[i];
      i := i + 1;
    }
    assert dst[..] == Dec(c, iv, s) && s[..i] == s;
  }

  /**
    crypto_cbc_decrypt_inplace: from the last block back to the first, as each block needs the
    ciphertext before it.
  */
  method DecryptInPlace<B>(c: Cipher<B>, buf: array<B>, iv: B) returns (iv': B)
    requires 0 < buf.Length
    modifies buf
    ensures buf[..] == Dec(c, iv, old(buf[..])) && iv' == Chain(iv, old(buf[..]))
  {
    hide Dec;
    ghost var s := buf[..];
    var i := buf.Length - 1;
    iv' := buf[i];
    while true
      invariant 0 <= i < buf.Length
      invariant forall j | i < j < buf.Length :: buf[j] == Dec(c, iv, s)[j]
      invariant forall j | 0 <= j <= i :: buf[j] == s[j]
      decreases i
    {
      DecAt(c, iv, s, i);
      buf[i] := c.d(buf[i]);
      if i == 0 {
        break;
      }
      buf[i] := c.xor(buf[i], buf[i - 1]);
      i := i - 1;
    }
    buf[i] := c.xor(buf[i], iv);
    assert buf[..] == Dec(c, iv, s);
  }

  // --------------------------------------------------------- whole messages

  function Joined<B>(texts: seq<seq<B>>): (m: seq<B>) {
    if texts == [] then [] else Joined(texts[..|texts| - 1]) + texts[|texts| - 1]
  }

  lemma JoinedNext<B>(texts: seq<seq<B>>, k: nat)
    requires k < |texts|
    ensures Joined(texts[..k + 1]) == Joined(texts[..k]) + texts[k]
  {
    assert texts[..k + 1][..k] == texts[..k];
  }

  lemma JoinedNone<B>(was: seq<seq<B>>, now: seq<seq<B>>, iv: B)
    ensures Joined(was[..0]) == Joined(now[..0]) == [] && Chain(iv, []) == iv
  {
  }

  /** One more chunk encrypted, from the chaining value behind those before it. */
  lemma EncNext<B>(c: Cipher<B>, iv: B, was: seq<seq<B>>, now: seq<seq<B>>, k: nat)
    requires k < |was| == |now| && Joined(now[..k]) == Enc(c, iv, Joined(was[..k]))
    ensures var x := Enc(c, Chain(iv, Joined(now[..k])), was[k]);
            var next := now[k := x];
            && Joined(next[..k + 1]) == Enc(c, iv, Joined(was[..k + 1]))
            && Chain(Chain(iv, Joined(now[..k])), x) == Chain(iv, Joined(next[..k + 1]))
  {
    hide Enc, Joined;
    var next := now[k := Enc(c, Chain(iv, Joined(now[..k])), was[k])];
    assert next[..k] == now[..k];
    EncSplit(c, iv, Joined(was[..k]), was[k]);
    JoinedNext(was, k);
    JoinedNext(next, k);
  }

  lemma DecNext<B>(c: Cipher<B>, iv: B, was: seq<seq<B>>, now: seq<seq<B>>, k: nat)
    requires k < |was| == |now| && Joined(now[..k]) == Dec(c, iv, Joined(was[..k]))
    ensures var next := now[k := Dec(c, Chain(iv, Joined(was[..k])), was[k])];
            && Joined(next[..k + 1]) == Dec(c, iv, Joined(was[..k + 1]))
            && Chain(Chain(iv, Joined(was[..k])), was[k]) == Chain(iv, Joined(was[..k + 1]))
  {
    hide Dec, Joined;
    var next := now[k := Dec(c, Chain(iv, Joined(was[..k])), was[k])];
    assert next[..k] == now[..k];
    DecSplit(c, iv, Joined(was[..k]), was[k]);
    JoinedNext(was, k);
    JoinedNext(next, k);
  }

  ghost function Texts<B>(bufs: seq<array<B>>): (texts: seq<seq<B>>)
    reads bufs
    ensures |texts| == |bufs| && forall i | 0 <= i < |bufs| :: texts[i] == bufs[i][..]
  {
    if bufs == [] then [] else Texts(bufs[..|bufs| - 1]) + [bufs[|bufs| - 1][..]]
  }

  /** What some buffers hold, one after the other. */
  ghost function Message<B>(bufs: seq<array<B>>): (m: seq<B>)
    reads bufs
  {
    Joined(Texts(bufs))
  }

  /**
    The chunks that a walk over the scatterlists maps: each at least one block, and each with a
    source and a destination that are the same buffer or share nothing with any chunk.
  */
  ghost predicate Chunks<B>(srcs: seq<array<B>>, dsts: seq<array<B>>) {
    && |srcs| == |dsts|
    && (forall i | 0 <= i < |srcs| :: 0 < srcs[i].Length == dsts[i].Length)
    && (forall i, j | 0 <= i < j < |srcs| :: dsts[i] != srcs[j] && dsts[i] != dsts[j])
  }

  /** One chunk, in place if its source and destination are the same. */
  method EncryptChunk<B(!new)>(c: Cipher<B>, src: array<B>, dst: array<B>, iv: B) returns (iv': B)
    requires Sound(c) && 0 < src.Length == dst.Length
    modifies dst
    ensures dst[..] == Enc(c, iv, old(src[..])) && iv' == Chain(iv, dst[..])
  {
    if src == dst {
      iv' := EncryptInPlace(c, src, iv);
    } else {
      iv' := EncryptSegment(c, src, dst, iv);
    }
  }

  /** crypto_cbc_encrypt: however the message is cut, and wherever it is in place, the result is that of one piece. */
  method Encrypt<B(!new)>(c: Cipher<B>, srcs: seq<array<B>>, dsts: seq<array<B>>, iv: B) returns (iv': B)
    requires Sound(c) && Chunks(srcs, dsts)
    modifies dsts
    ensures Message(dsts) == Enc(c, iv, old(Message(srcs))) && iv' == Chain(iv, Message(dsts))
  {
    hide Enc, Sound, Joined, Chain;
    var k := 0;
    iv' := iv;
    EncNone(c, iv);
    JoinedNone(Texts(srcs), Texts(dsts), iv);
    ghost var was, now := Texts(srcs), Texts(dsts);
    while k < |srcs|
      invariant 0 <= k <= |srcs| && |now| == |dsts|
      invariant forall j | k <= j < |srcs| :: srcs[j][..] == was[j]
      invariant forall j | 0 <= j < k :: dsts[j][..] == now[j]
      invariant Joined(now[..k]) == Enc(c, iv, Joined(was[..k])) && iv' == Chain(iv, Joined(now[..k]))
    {
      EncNext(c, iv, was, now, k);
      iv' := EncryptChunk(c, srcs[k], dsts[k], iv');
      now := now[k := dsts[k][..]];
      k := k + 1;
    }
    assert was[..k] == was && now[..k] == Texts(dsts);
  }

  method DecryptChunk<B(!new)>(c: Cipher<B>, src: array<B>, dst: array<B>, iv: B) returns (iv': B)
    requires 0 < src.Length == dst.Length
    modifies dst
    ensures dst[..] == Dec(c, iv, old(src[..])) && iv' == Chain(iv, old(src[..]))
  {
    if src == dst {
      iv' := DecryptInPlace(c, src, iv);
    } else {
      iv' := DecryptSegment(c, src, dst, iv);
    }
  }

  /** crypto_cbc_decrypt. */
  method Decrypt<B(!new)>(c: Cipher<B>, srcs: seq<array<B>>, dsts: seq<array<B>>, iv: B) returns (iv': B)
    requires Chunks(srcs, dsts)
    modifies dsts
    ensures Message(dsts) == Dec(c, iv, old(Message(srcs))) && iv' == Chain(iv, old(Message(srcs)))
  {
    hide Dec, Joined, Chain;
    var k := 0;
    iv' := iv;
    DecNone(c, iv);
    JoinedNone(Texts(srcs), Texts(dsts), iv);
    ghost var was, now := Texts(srcs), Texts(dsts);
    while k < |srcs|
      invariant 0 <= k <= |srcs| && |now| == |dsts|
      invariant forall j | k <= j < |srcs| :: srcs[j][..] == was[j]
      invariant forall j | 0 <= j < k :: dsts[j][..] == now[j]
      invariant Joined(now[..k]) == Dec(c, iv, Joined(was[..k])) && iv' == Chain(iv, Joined(was[..k]))
    {
      DecNext(c, iv, was, now, k);
      iv' := DecryptChunk(c, srcs[k], dsts[k], iv');
      now := now[k := dsts[k][..]];
      k := k + 1;
    }
    assert was[..k] == was && now[..k] == Texts(dsts);
  }

  lemma DecNone<B>(c: Cipher<B>, iv: B)
    ensures Dec(c, iv, []) == []
  {
  }

  /** Buffers that hold an encrypted message, cut in any way, are decrypted to that message. */
  method DecryptBack<B(!new)>(c: Cipher<B>, srcs: seq<array<B>>, dsts: seq<array<B>>, iv: B, ghost p: seq<B>)
    requires Sound(c) && Chunks(srcs, dsts) && Message(srcs) == Enc(c, iv, p)
    modifies dsts
    ensures Message(dsts) == p
  {
    DecUndoesEnc(c, iv, p);
    var _ := Decrypt(c, srcs, dsts, iv);
  }

  /** A message encrypted, and decrypted where it was put, comes back. */
  method RoundTrip<B(!new)>(c: Cipher<B>, srcs: seq<array<B>>, dsts: seq<array<B>>, iv: B)
    requires Sound(c) && Chunks(srcs, dsts)
    modifies dsts
    ensures Message(dsts) == old(Message(srcs))
  {
    ghost var p := Message(srcs);
    var _ := Encrypt(c, srcs, dsts, iv);
    DecryptBack(c, dsts, dsts, iv, p);
  }
}

/** Camellia in this mode. */
module CbcCamellia {
  import opened CamelliaRfc
  import opened CamelliaAlgebra
  import opened CamelliaTable
  import opened CamelliaSchedule
  import Cbc

  function XorBlock(a: Block, b: Block): (c: Block) {
    Block(Xor(a.d1, b.d1), Xor(a.d2, b.d2))
  }

  function Decipher(sb: SBoxes, key: seq<bv8>, c: Block): (m: Block)
    requires IsKey(key)
  {
    Swap(DoDecrypt(sb, Table(Subkeys(sb, key), SizeOf(key)), SizeOf(key), c))
  }

  lemma DecipherUndoes(sb: SBoxes, key: seq<bv8>, m: Block)
    requires IsKey(key)
    ensures Decipher(sb, key, Camellia(sb, key, m)) == m
  {
    hide DoEncrypt, DoDecrypt, Encrypt, Subkeys, Table;
    var k, size := Subkeys(sb, key), SizeOf(key);
    TableComputesCamellia(sb, k, size, m);
    DecryptUndoesEncrypt(sb, Table(k, size), size, m);
  }

  lemma XorBlockLaws(a: Block, b: Block)
    ensures XorBlock(XorBlock(a, b), b) == a && XorBlock(a, b) == XorBlock(b, a)
  {
    hide Xor;
    XorCancel(a.d1, b.d1);
    XorCancel(a.d2, b.d2);
    XorCommutes(a.d1, b.d1);
    XorCommutes(a.d2, b.d2);
  }

  function CamelliaCipher(sb: SBoxes, key: seq<bv8>): (c: Cbc.Cipher<Block>)
    requires IsKey(key)
  {
    Cbc.Cipher(m => Camellia(sb, key, m), m => Decipher(sb, key, m), (a, b) => XorBlock(a, b))
  }

  /** Everything above holds of Camellia under any key. */
  lemma CamelliaIsSound(sb: SBoxes, key: seq<bv8>)
    requires IsKey(key)
    ensures Cbc.Sound(CamelliaCipher(sb, key))
  {
    hide Camellia, Decipher, XorBlock;
    var c := CamelliaCipher(sb, key);
    forall x: Block
      ensures c.d(c.e(x)) == x
    {
      DecipherUndoes(sb, key, x);
    }
    forall a: Block, b: Block
      ensures c.xor(c.xor(a, b), b) == a && c.xor(a, b) == c.xor(b, a)
    {
      XorBlockLaws(a, b);
    }
  }
}
