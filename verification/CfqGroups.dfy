/**
  Fair sharing of the disk among CFQ groups.  Each group has a virtual disk time; the one that
  is least far ahead is picked and charged for what it uses, scaled by its weight.
*/
module CfqGroups {
  type Id = nat

  // -------------------------------------------------- 64-bit virtual times

  const W64: int := 0x1_0000_0000_0000_0000
  const HALF: int := 0x8000_0000_0000_0000

  type u64 = x: int | 0 <= x < 0x1_0000_0000_0000_0000

  function Wrap(x: int): (y: u64) { x % W64 }

  /** (s64)(a - b). */
  function Delta(a: u64, b: u64): (d: int) {
    var x := Wrap(a - b);
    if x < HALF then x else x - W64
  }

  /** The difference of two wrapped times is exact as long as they are less than 2^63 apart. */
  lemma DeltaExact(x: int, y: int)
    requires -HALF <= x - y < HALF
    ensures Delta(Wrap(x), Wrap(y)) == x - y
  {
    var k, l := x / W64, y / W64;
    assert x == k * W64 + Wrap(x) && y == l * W64 + Wrap(y);
    assert Wrap(x) - Wrap(y) == (x - y) - (k - l) * W64;
    WrapShift(x - y, k - l);
  }

  lemma WrapShift(d: int, n: int)
    ensures Wrap(d - n * W64) == Wrap(d)
  {
    var q := d / W64;
    assert d - n * W64 == (q - n) * W64 + Wrap(d);
    WrapUnique(d - n * W64, q - n, Wrap(d));
  }

  lemma WrapUnique(x: int, q: int, r: int)
    requires x == q * W64 + r && 0 <= r < W64
    ensures Wrap(x) == r
  {
  }

  lemma WrapPlus(x: int, c: int)
    ensures Wrap(Wrap(x) + c) == Wrap(x + c)
  {
    WrapShift(x + c, x / W64);
    assert x + c - x / W64 * W64 == Wrap(x) + c;
  }

  function MaxVdisktime(a: u64, b: u64): (m: u64) {
    if Delta(b, a) > 0 then b else a
  }

  function MinVdisktime(a: u64, b: u64): (m: u64) {
    if Delta(b, a) < 0 then b else a
  }

  /** The sizes of unsigned long. */
  const WORD32: int := 0x1_0000_0000
  const WORD64: int := 0x1_0000_0000_0000_0000

  /** cfq_scale_slice: the shift is done in an unsigned long, the rest in 64 bits. */
  function ScaleSlice(slice: nat, weight: nat, word: int): (d: nat)
    requires weight > 0 && word > 0
  {
    Wrap(slice * 4096 % word * 500) / weight
  }

  /**
    For any weight a group can have, the charge is the true share exactly when the shift loses no
    bit: always with 64-bit words, and below 2^20 jiffies with 32-bit words.
  */
  lemma ScaleSliceExact(slice: nat, weight: nat, word: int)
    requires 0 < weight <= 1000 && slice < WORD32 && (word == WORD32 || word == WORD64)
    ensures ScaleSlice(slice, weight, word) == slice * 2048000 / weight <==> slice * 4096 < word
    ensures word == WORD64 ==> slice * 4096 < word
    ensures word == WORD32 ==> (slice * 4096 < word <==> slice < 0x10_0000)
  {
    hide Wrap;
    var low := slice * 4096 % word;
    WrapUnique(low * 500, 0, low * 500);
    if slice * 4096 >= word {
      assert low + word <= slice * 4096;
      LessShare(low * 500, slice * 2048000, weight);
    }
  }

  lemma LessShare(a: nat, b: nat, weight: nat)
    requires 0 < weight && a + weight <= b
    ensures a / weight < b / weight
  {
    var q, r := a / weight, b / weight;
    assert a == q * weight + a % weight && b == r * weight + b % weight;
    assert q * weight < r * weight;
  }

  // -------------------------------------------------------------- fairness

  ghost predicate IsLeast(v: map<Id, nat>, g: Id) {
    g in v && forall x | x in v :: v[g] <= v[x]
  }

  /** No two groups are more than d apart. */
  ghost predicate Within(v: map<Id, nat>, d: nat) {
    forall x, y | x in v && y in v :: v[x] - v[y] <= d
  }

  /** The group picked is charged c. */
  ghost predicate Round(v: map<Id, nat>, g: Id, c: nat, v': map<Id, nat>) {
    IsLeast(v, g) && v' == v[g := v[g] + c]
  }

  ghost predicate Rounds(vs: seq<map<Id, nat>>, gs: seq<Id>, cs: seq<nat>) {
    && |gs| == |cs| && |vs| == |gs| + 1
    && forall i | 0 <= i < |gs| :: Round(vs[i], gs[i], cs[i], vs[i + 1])
  }

  lemma RoundWithin(v: map<Id, nat>, g: Id, c: nat, v': map<Id, nat>, d: nat)
    requires Round(v, g, c, v') && Within(v, d) && c <= d
    ensures Within(v', d) && v'.Keys == v.Keys
    ensures forall x | x in v :: v[g] <= v'[x]
  {
  }

  /** Through any number of rounds the groups stay as close as the largest charge, or as they were. */
  lemma {:induction false} GroupsStayClose(vs: seq<map<Id, nat>>, gs: seq<Id>, cs: seq<nat>, d: nat)
    requires Rounds(vs, gs, cs) && Within(vs[0], d) && forall i | 0 <= i < |cs| :: cs[i] <= d
    ensures forall i | 0 <= i < |vs| :: Within(vs[i], d) && vs[i].Keys == vs[0].Keys
    decreases |gs|
  {
    if gs != [] {
      var n := |gs| - 1;
      GroupsStayClose(vs[..n + 1], gs[..n], cs[..n], d);
      assert Within(vs[..n + 1][n], d) && vs[..n + 1][n].Keys == vs[0].Keys;
      RoundWithin(vs[n], gs[n], cs[n], vs[n + 1], d);
    }
  }

  /** The least virtual time never goes back. */
  lemma LeastAdvances(v: map<Id, nat>, g: Id, c: nat, v': map<Id, nat>, h: Id)
    requires Round(v, g, c, v') && IsLeast(v', h)
    ensures v[g] <= v'[h]
  {
  }

  /** What a group was charged in all. */
  function Charged(gs: seq<Id>, cs: seq<nat>, g: Id): (n: nat)
    requires |gs| == |cs|
  {
    if gs == [] then 0
    else Charged(gs[..|gs| - 1], cs[..|cs| - 1], g) + if gs[|gs| - 1] == g then cs[|cs| - 1] else 0
  }

  lemma {:induction false} ChargedAdds(vs: seq<map<Id, nat>>, gs: seq<Id>, cs: seq<nat>, g: Id)
    requires Rounds(vs, gs, cs) && g in vs[0]
    ensures g in vs[|gs|] && vs[|gs|][g] == vs[0][g] + Charged(gs, cs, g)
    decreases |gs|
  {
    if gs != [] {
      var n := |gs| - 1;
      ChargedAdds(vs[..n + 1], gs[..n], cs[..n], g);
      assert vs[..n + 1][n] == vs[n];
    }
  }

  /** Two groups that stay backlogged are charged the same, up to the two spreads. */
  lemma ServiceIsFair(vs: seq<map<Id, nat>>, gs: seq<Id>, cs: seq<nat>, d: nat, x: Id, y: Id)
    requires Rounds(vs, gs, cs) && Within(vs[0], d) && (forall i | 0 <= i < |cs| :: cs[i] <= d)
    requires x in vs[0] && y in vs[0]
    ensures Charged(gs, cs, x) - Charged(gs, cs, y) <= 2 * d
  {
    GroupsStayClose(vs, gs, cs, d);
    ChargedAdds(vs, gs, cs, x);
    ChargedAdds(vs, gs, cs, y);
    assert Within(vs[0], d) && Within(vs[|gs|], d);
  }
}
