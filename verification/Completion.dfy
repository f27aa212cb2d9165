/** struct bio_vec: a stretch of a page. */
module BioVecs {
  datatype Vec = Vec(page: nat, offset: nat, len: nat)

  function Bytes(vecs: seq<Vec>): (n: nat) {
    if vecs == [] then 0 else vecs[0].len + Bytes(vecs[1..])
  }

  lemma {:induction false} BytesSplit(vecs: seq<Vec>, k: nat)
    requires k <= |vecs|
    ensures Bytes(vecs) == Bytes(vecs[..k]) + Bytes(vecs[k..])
    decreases vecs
  {
    if k == 0 {
      assert vecs[0..] == vecs;
    } else {
      assert vecs[..k][1..] == vecs[1..][..k - 1] && vecs[k..] == vecs[1..][k - 1..];
      BytesSplit(vecs[1..], k - 1);
    }
  }

  lemma BytesNext(vecs: seq<Vec>, k: nat)
    requires k < |vecs|
    ensures Bytes(vecs[..k + 1]) == Bytes(vecs[..k]) + vecs[k].len
  {
    BytesSplit(vecs[..k + 1], k);
    assert vecs[..k + 1][..k] == vecs[..k] && vecs[..k + 1][k..] == [vecs[k]];
    assert [vecs[k]][1..] == [];
  }
}

/**
  Partial completion of a request: what blk_update_request leaves of a chain of bios.  A bio is
  seen here through the bvecs it still has to transfer.
*/
module Completion {
  import opened BioVecs

  type Flags = bv8

  datatype Piece = Piece(id: nat, vecs: seq<Vec>, uptodate: bool, ff: Flags)

  /** A bio that has ended, with the error its owner is told. */
  datatype End = End(id: nat, error: int)

  const EIO := -5

  ghost predicate Solid(vecs: seq<Vec>) {
    vecs != [] && forall v | v in vecs :: v.len > 0
  }

  ghost predicate AllSolid(ps: seq<Piece>) {
    forall p | p in ps :: Solid(p.vecs)
  }

  function Total(ps: seq<Piece>): (n: nat) {
    if ps == [] then 0 else Bytes(ps[0].vecs) + Total(ps[1..])
  }

  lemma SolidBytes(vecs: seq<Vec>)
    requires Solid(vecs)
    ensures Bytes(vecs) >= vecs[0].len > 0
  {
    assert vecs[0] in vecs;
  }

  /** The bvecs behind the first n bytes. */
  function Skip(vecs: seq<Vec>, n: nat): (r: seq<Vec>)
    requires n < Bytes(vecs)
  {
    if n < vecs[0].len then [Vec(vecs[0].page, vecs[0].offset + n, vecs[0].len - n)] + vecs[1..]
    else Skip(vecs[1..], n - vecs[0].len)
  }

  /** The error that req_bio_endio passes on. */
  function Reported(p: Piece, error: int): (e: int) {
    if error == 0 && !p.uptodate then EIO else error
  }

  /** n bytes of a bio done, but not all of it. */
  function Advance(p: Piece, error: int, n: nat): (r: Piece)
    requires n < Bytes(p.vecs)
  {
    if n == 0 then p else Piece(p.id, Skip(p.vecs, n), p.uptodate && error == 0, p.ff)
  }

  datatype Done = Done(left: seq<Piece>, ended: seq<End>)

  /** n bytes done: whole bios end in order, the next one advances. */
  function Complete(ps: seq<Piece>, error: int, n: nat): (d: Done) {
    if ps == [] then Done([], [])
    else if n < Bytes(ps[0].vecs) then Done([Advance(ps[0], error, n)] + ps[1..], [])
    else
      var d := Complete(ps[1..], error, n - Bytes(ps[0].vecs));
      Done(d.left, [End(ps[0].id, Reported(ps[0], error))] + d.ended)
  }

  lemma {:induction false} SkipSolid(vecs: seq<Vec>, n: nat)
    requires Solid(vecs) && n < Bytes(vecs)
    ensures Solid(Skip(vecs, n)) && Bytes(Skip(vecs, n)) == Bytes(vecs) - n
    decreases vecs
  {
    if n < vecs[0].len {
      assert Skip(vecs, n)[1..] == vecs[1..];
    } else {
      SkipSolid(vecs[1..], n - vecs[0].len);
    }
  }

  lemma {:induction false} SkipTwice(vecs: seq<Vec>, a: nat, b: nat)
    requires Solid(vecs) && a + b < Bytes(vecs)
    ensures Bytes(Skip(vecs, a)) == Bytes(vecs) - a && Skip(Skip(vecs, a), b) == Skip(vecs, a + b)
    decreases vecs
  {
    SkipSolid(vecs, a);
    if a < vecs[0].len {
      var v := Skip(vecs, a);
      assert v[1..] == vecs[1..];
    } else {
      SkipTwice(vecs[1..], a - vecs[0].len, b);
    }
  }

  lemma AdvanceTwice(p: Piece, error: int, a: nat, b: nat)
    requires Solid(p.vecs) && a + b < Bytes(p.vecs)
    ensures Bytes(Advance(p, error, a).vecs) == Bytes(p.vecs) - a
    ensures Advance(Advance(p, error, a), error, b) == Advance(p, error, a + b)
  {
    SkipTwice(p.vecs, a, b);
    SkipSolid(p.vecs, a);
  }

  lemma {:induction false} CompleteSolid(ps: seq<Piece>, error: int, n: nat)
    requires AllSolid(ps)
    ensures AllSolid(Complete(ps, error, n).left)
    ensures Total(Complete(ps, error, n).left) == if n < Total(ps) then Total(ps) - n else 0
    ensures Complete(ps, error, n).left == [] <==> Total(ps) <= n
    decreases ps
  {
    if ps != [] {
      SolidBytes(ps[0].vecs);
      if n < Bytes(ps[0].vecs) {
        if n > 0 { SkipSolid(ps[0].vecs, n); }
        var left := Complete(ps, error, n).left;
        assert left[1..] == ps[1..];
      } else {
        CompleteSolid(ps[1..], error, n - Bytes(ps[0].vecs));
      }
    }
  }

  /** Completing a bytes and then b bytes is completing a + b bytes. */
  lemma {:induction false} CompleteTwice(ps: seq<Piece>, error: int, a: nat, b: nat)
    requires AllSolid(ps)
    ensures var d := Complete(ps, error, a);
            var e := Complete(d.left, error, b);
            Complete(ps, error, a + b) == Done(e.left, d.ended + e.ended)
    decreases ps
  {
    if ps != [] {
      var p := ps[0];
      var size := Bytes(p.vecs);
      if a < size {
        var q := Advance(p, error, a);
        assert Complete(ps, error, a).left[1..] == ps[1..];
        SkipSolid(p.vecs, a);
        if a + b < size {
          AdvanceTwice(p, error, a, b);
        } else {
          assert Bytes(q.vecs) == size - a;
        }
      } else {
        CompleteTwice(ps[1..], error, a - size, b);
      }
    }
  }

  function SumOf(chunks: seq<nat>): (n: nat) {
    if chunks == [] then 0 else chunks[0] + SumOf(chunks[1..])
  }

  function CompleteAll(ps: seq<Piece>, error: int, chunks: seq<nat>): (d: Done)
    decreases chunks
  {
    if chunks == [] then Done(ps, [])
    else
      var d := Complete(ps, error, chunks[0]);
      var e := CompleteAll(d.left, error, chunks[1..]);
      Done(e.left, d.ended + e.ended)
  }

  lemma CompleteNone(ps: seq<Piece>, error: int)
    requires AllSolid(ps)
    ensures Complete(ps, error, 0) == Done(ps, [])
  {
    if ps != [] {
      SolidBytes(ps[0].vecs);
      assert [ps[0]] + ps[1..] == ps;
    }
  }

  /** However a transfer is cut into partial completions, the outcome is that of one completion. */
  lemma {:induction false} ChunksDoNotMatter(ps: seq<Piece>, error: int, chunks: seq<nat>)
    requires AllSolid(ps)
    ensures CompleteAll(ps, error, chunks) == Complete(ps, error, SumOf(chunks))
    decreases chunks
  {
    hide Complete, AllSolid;
    if chunks == [] {
      CompleteNone(ps, error);
    } else {
      CompleteSolid(ps, error, chunks[0]);
      ChunksDoNotMatter(Complete(ps, error, chunks[0]).left, error, chunks[1..]);
      CompleteTwice(ps, error, chunks[0], SumOf(chunks[1..]));
    }
  }

  /** Every bio ends exactly once, in order, or is still there: none is lost or ended twice. */
  lemma {:induction false} EndedThenLeft(ps: seq<Piece>, error: int, n: nat)
    ensures var d := Complete(ps, error, n);
            && |d.ended| + |d.left| == |ps|
            && (forall i | 0 <= i < |d.ended| :: d.ended[i] == End(ps[i].id, Reported(ps[i], error)))
            && (forall i | 0 <= i < |d.left| :: d.left[i].id == ps[|d.ended| + i].id)
    decreases ps
  {
    if ps != [] && n >= Bytes(ps[0].vecs) {
      EndedThenLeft(ps[1..], error, n - Bytes(ps[0].vecs));
    }
  }

  // -------------------------------------------------- the bytes that are left

  /** Where the bytes of a bvec are. */
  function Places(v: Vec): (r: seq<(nat, nat)>)
    ensures |r| == v.len
  {
    seq(v.len, i requires 0 <= i < v.len => (v.page, v.offset + i))
  }

  function VecPlaces(vecs: seq<Vec>): (r: seq<(nat, nat)>)
    ensures |r| == Bytes(vecs)
  {
    if vecs == [] then [] else Places(vecs[0]) + VecPlaces(vecs[1..])
  }

  function AllPlaces(ps: seq<Piece>): (r: seq<(nat, nat)>)
    ensures |r| == Total(ps)
  {
    if ps == [] then [] else VecPlaces(ps[0].vecs) + AllPlaces(ps[1..])
  }

  lemma {:induction false} SkipPlaces(vecs: seq<Vec>, n: nat)
    requires n < Bytes(vecs)
    ensures VecPlaces(Skip(vecs, n)) == VecPlaces(vecs)[n..]
    decreases vecs
  {
    var v := vecs[0];
    if n < v.len {
      var w := Vec(v.page, v.offset + n, v.len - n);
      assert Skip(vecs, n)[1..] == vecs[1..] && Skip(vecs, n)[0] == w;
      assert Places(w) == Places(v)[n..];
    } else {
      SkipPlaces(vecs[1..], n - v.len);
    }
  }

  lemma AdvancePlaces(p: Piece, error: int, n: nat)
    requires n < Bytes(p.vecs)
    ensures VecPlaces(Advance(p, error, n).vecs) == VecPlaces(p.vecs)[n..]
  {
    hide VecPlaces, Skip;
    if n > 0 { SkipPlaces(p.vecs, n); }
  }

  lemma PlacesCons(p: Piece, ps: seq<Piece>)
    ensures AllPlaces([p] + ps) == VecPlaces(p.vecs) + AllPlaces(ps)
  {
    assert ([p] + ps)[1..] == ps;
  }

  /** What is left is the data behind the bytes completed, all of it and in place. */
  lemma {:induction false} CompleteLeavesRest(ps: seq<Piece>, error: int, n: nat)
    ensures AllPlaces(Complete(ps, error, n).left) == if n < Total(ps) then AllPlaces(ps)[n..] else []
    decreases ps
  {
    hide VecPlaces, AllPlaces, Advance;
    if ps == [] {
      NoPlaces();
    } else {
      var p := ps[0];
      assert ps == [p] + ps[1..];
      PlacesCons(p, ps[1..]);
      if n < Bytes(p.vecs) {
        AdvancePlaces(p, error, n);
        PlacesCons(Advance(p, error, n), ps[1..]);
      } else {
        CompleteLeavesRest(ps[1..], error, n - Bytes(p.vecs));
      }
    }
  }

  lemma NoPlaces()
    ensures AllPlaces([]) == []
  {
  }

  /** A bio of which a part has failed ends with an error, also if the rest succeeds: -EIO. */
  lemma FailureIsKept(ps: seq<Piece>, first: int, a: nat, second: int, b: nat)
    requires AllSolid(ps) && ps != [] && 0 < a < Bytes(ps[0].vecs) <= a + b
    ensures var d := Complete(Complete(ps, first, a).left, second, b);
            d.ended != [] && d.ended[0].id == ps[0].id &&
            d.ended[0].error == if second != 0 then second else if first != 0 || !ps[0].uptodate then -5 else 0
  {
    SkipSolid(ps[0].vecs, a);
  }
}

/** Requests whose bios differ in how eager they are to fail. */
module MixedMerge {
  import opened BioVecs
  import opened Completion

  /** A chain of bios with the failfast bits that the request carries for it. */
  datatype Chain = Chain(pieces: seq<Piece>, mixed: bool, ff: Flags)

  /** All the bits of ff are among those of a. */
  predicate Has(a: Flags, ff: Flags) {
    a & ff == ff
  }

  function Both(a: Flags, b: Flags): (c: Flags) { a | b }

  lemma HasBoth(a: Flags, ff: Flags)
    ensures Has(Both(a, ff), ff) && Has(ff, ff)
  {
  }

  /** Every bio takes over the bits that the request stood for. */
  function Spread(ps: seq<Piece>, ff: Flags): (qs: seq<Piece>)
    ensures |qs| == |ps|
  {
    seq(|ps|, i requires 0 <= i < |ps| => ps[i].(ff := Both(ps[i].ff, ff)))
  }

  /** blk_rq_set_mixed_merge. */
  function SetMixed(c: Chain): (d: Chain) {
    if c.mixed then c else Chain(Spread(c.pieces, c.ff), true, c.ff)
  }

  function BackMerged(c: Chain, p: Piece): (d: Chain) {
    var d := if c.ff != p.ff then SetMixed(c) else c;
    d.(pieces := d.pieces + [p])
  }

  function FrontMerged(c: Chain, p: Piece): (d: Chain) {
    var d := if c.ff != p.ff then SetMixed(c).(ff := p.ff) else c;
    d.(pieces := [p] + d.pieces)
  }

  /** attempt_merge: a mixed merge as soon as either was one or the bits differ. */
  function Joined(c: Chain, n: Chain): (d: Chain) {
    if c.mixed || n.mixed || c.ff != n.ff then
      SetMixed(c).(pieces := SetMixed(c).pieces + SetMixed(n).pieces)
    else c.(pieces := c.pieces + n.pieces)
  }

  /** The mixed attributes follow the first bio. */
  function Updated(c: Chain, error: int, n: nat): (d: Chain) {
    var left := Complete(c.pieces, error, n).left;
    Chain(left, c.mixed, if c.mixed && left != [] then left[0].ff else c.ff)
  }

  /** The bytes of the leading bios that are at least as eager to fail as ff. */
  function Eager(ps: seq<Piece>, ff: Flags): (n: nat) {
    if ps == [] || !Has(ps[0].ff, ff) then 0 else Bytes(ps[0].vecs) + Eager(ps[1..], ff)
  }

  /** blk_rq_err_bytes. */
  function ErrBytes(c: Chain): (n: nat) {
    if c.mixed then Eager(c.pieces, c.ff) else Total(c.pieces)
  }

  ghost predicate Led(c: Chain) {
    AllSolid(c.pieces) && (c.mixed && c.pieces != [] ==> Has(c.pieces[0].ff, c.ff))
  }

  /** The test of the WARN_ON_ONCE that comes with spreading the bits: a bio has others of its own. */
  ghost predicate Warns(c: Chain) {
    !c.mixed && exists p :: p in c.pieces && !Inherited(p.ff, c.ff)
  }

  /** A bio without bits, or with those of its request. */
  predicate Inherited(bio: Flags, rq: Flags) {
    bio == 0 || bio == rq
  }

  /** How a request came about: bios merged into it, requests merged with it, bytes completed. */
  datatype History =
    | Fresh(p: Piece, ff: Flags)
    | BackMerge(h: History, p: Piece)
    | FrontMerge(h: History, p: Piece)
    | Join(h: History, next: History)
    | Update(h: History, error: int, n: nat)

  function Build(h: History): (c: Chain) {
    match h
    case Fresh(p, ff) => Chain([p], false, ff)
    case BackMerge(h', p) => BackMerged(Build(h'), p)
    case FrontMerge(h', p) => FrontMerged(Build(h'), p)
    case Join(h', next) => Joined(Build(h'), Build(next))
    case Update(h', error, n) => Updated(Build(h'), error, n)
  }

  /** Bios and bvecs are not empty, and a finished request is not merged into. */
  ghost predicate Possible(h: History) {
    match h
    case Fresh(p, _) => Solid(p.vecs)
    case BackMerge(h', p) => Possible(h') && Solid(p.vecs) && Build(h').pieces != []
    case FrontMerge(h', p) => Possible(h') && Solid(p.vecs) && Build(h').pieces != []
    case Join(h', next) => Possible(h') && Possible(next) && Build(h').pieces != []
    case Update(h', _, _) => Possible(h')
  }

  lemma SetMixedLed(c: Chain)
    requires Led(c)
    ensures Led(SetMixed(c)) && SetMixed(c).mixed
    ensures |SetMixed(c).pieces| == |c.pieces| && Total(SetMixed(c).pieces) == Total(c.pieces)
  {
    hide Has, Both;
    if !c.mixed && c.pieces != [] { HasBoth(c.pieces[0].ff, c.ff); }
    SpreadTotal(c.pieces, c.ff);
  }

  lemma {:induction false} SpreadTotal(ps: seq<Piece>, ff: Flags)
    ensures Total(Spread(ps, ff)) == Total(ps)
    decreases ps
  {
    if ps != [] {
      assert Spread(ps, ff)[1..] == Spread(ps[1..], ff);
      SpreadTotal(ps[1..], ff);
    }
  }

  /** The failfast bits of a mixed merge are always among those of its first bio. */
  lemma {:induction false} HistoryLed(h: History)
    requires Possible(h)
    ensures Led(Build(h))
  {
    hide Has, Both, Spread;
    match h
    case Fresh(_, _) =>
    case BackMerge(h', p) =>
      HistoryLed(h');
      SetMixedLed(Build(h'));
    case FrontMerge(h', p) =>
      HistoryLed(h');
      SetMixedLed(Build(h'));
      HasBoth(p.ff, p.ff);
    case Join(h', next) =>
      HistoryLed(h');
      HistoryLed(next);
      SetMixedLed(Build(h'));
      SetMixedLed(Build(next));
    case Update(h', error, n) =>
      HistoryLed(h');
      CompleteSolid(Build(h').pieces, error, n);
      var left := Complete(Build(h').pieces, error, n).left;
      if left != [] { HasBoth(left[0].ff, left[0].ff); }
  }

  lemma {:induction false} EagerBounded(ps: seq<Piece>, ff: Flags)
    ensures Eager(ps, ff) <= Total(ps)
    decreases ps
  {
    if ps != [] { EagerBounded(ps[1..], ff); }
  }

  lemma LedMakesProgress(c: Chain)
    requires Led(c) && c.pieces != []
    ensures 0 < ErrBytes(c) <= Total(c.pieces)
  {
    EagerBounded(c.pieces, c.ff);
    SolidBytes(c.pieces[0].vecs);
  }

  /** Failing a request always makes progress: the BUG_ON of blk_rq_err_bytes cannot fire. */
  lemma ErrorRetryProgresses(h: History)
    requires Possible(h) && Build(h).pieces != []
    ensures 0 < ErrBytes(Build(h)) <= Total(Build(h).pieces)
  {
    HistoryLed(h);
    LedMakesProgress(Build(h));
  }

  /** What is failed is a run of whole bios: they end, and those behind are untouched. */
  lemma {:induction false} EagerEndsWholeBios(ps: seq<Piece>, ff: Flags, error: int)
    requires AllSolid(ps)
    ensures var d := Complete(ps, error, Eager(ps, ff));
            && |d.ended| + |d.left| == |ps| && d.left == ps[|d.ended|..]
            && (forall i | 0 <= i < |d.ended| :: Has(ps[i].ff, ff))
            && (d.left != [] ==> !Has(d.left[0].ff, ff))
    decreases ps
  {
    hide Has;
    if ps != [] {
      SolidBytes(ps[0].vecs);
      if Has(ps[0].ff, ff) {
        EagerEndsWholeBios(ps[1..], ff, error);
      } else {
        CompleteNone(ps, error);
      }
    }
  }

  /**
    blk_rq_err_bytes of a mixed merge covers exactly the leading bios that have all the failfast bits
    of the request, and that of any other request covers everything.
  */
  lemma ErrBytesEnds(c: Chain, error: int)
    requires AllSolid(c.pieces)
    ensures var d := Complete(c.pieces, error, ErrBytes(c));
            if c.mixed then
              && |d.ended| + |d.left| == |c.pieces| && d.left == c.pieces[|d.ended|..]
              && (forall i | 0 <= i < |d.ended| :: c.pieces[i].ff & c.ff == c.ff)
              && (d.left != [] ==> d.left[0].ff & c.ff != c.ff)
            else d.left == []
  {
    if c.mixed {
      EagerEndsWholeBios(c.pieces, c.ff, error);
    } else {
      CompleteSolid(c.pieces, error, ErrBytes(c));
    }
  }

  // ------------------------------------------------- the bits a bio came with

  /** The failfast bits that the bios of a request have, as they were when each entered it. */
  ghost function Bits(h: History): (b: seq<Flags>) {
    match h
    case Fresh(_, ff) => [ff]
    case BackMerge(h', p) => Bits(h') + [p.ff]
    case FrontMerge(h', p) => [p.ff] + Bits(h')
    case Join(h', next) => Bits(h') + Bits(next)
    case Update(h', error, n) =>
      var k := |Complete(Build(h').pieces, error, n).ended|;
      if k <= |Bits(h')| then Bits(h')[k..] else []
  }

  /** The bits of a bio that a request is made from are among those of the request. */
  ghost predicate Proper(h: History) {
    match h
    case Fresh(p, ff) => Has(ff, p.ff)
    case BackMerge(h', _) => Proper(h')
    case FrontMerge(h', _) => Proper(h')
    case Join(h', next) => Proper(h') && Proper(next)
    case Update(h', _, _) => Proper(h')
  }

  /** The request stands for its bios as long as it is not mixed; then each stands for itself, and it for the first. */
  ghost predicate Stands(c: Chain, b: seq<Flags>) {
    && |b| == |c.pieces|
    && (c.pieces != [] ==> b[0] == c.ff)
    && (forall i | 0 <= i < |b| ::
          if c.mixed then c.pieces[i].ff == b[i] else b[i] == c.ff && Has(c.ff, c.pieces[i].ff))
  }

  lemma BothHas(a: Flags, ff: Flags)
    requires Has(ff, a)
    ensures Both(a, ff) == ff
  {
  }

  lemma SetMixedStands(c: Chain, b: seq<Flags>)
    requires Stands(c, b)
    ensures Stands(SetMixed(c), b)
  {
    hide Has, Both;
    if !c.mixed {
      forall i | 0 <= i < |b| ensures SetMixed(c).pieces[i].ff == b[i] {
        BothHas(c.pieces[i].ff, c.ff);
      }
    }
  }

  lemma UpdateStands(c: Chain, b: seq<Flags>, error: int, n: nat)
    requires Stands(c, b)
    ensures var k := |Complete(c.pieces, error, n).ended|;
            k <= |b| && Stands(Updated(c, error, n), b[k..])
  {
    hide Has;
    var d := Complete(c.pieces, error, n);
    EndedThenLeft(c.pieces, error, n);
    CompleteFlags(c.pieces, error, n);
  }

  lemma {:induction false} CompleteFlags(ps: seq<Piece>, error: int, n: nat)
    ensures var d := Complete(ps, error, n);
            |d.ended| + |d.left| == |ps| && forall i | 0 <= i < |d.left| :: d.left[i].ff == ps[|d.ended| + i].ff
    decreases ps
  {
    if ps != [] && n >= Bytes(ps[0].vecs) {
      CompleteFlags(ps[1..], error, n - Bytes(ps[0].vecs));
    }
  }

  lemma SetMixedShape(c: Chain)
    ensures SetMixed(c).mixed && SetMixed(c).ff == c.ff && |SetMixed(c).pieces| == |c.pieces|
  {
  }

  lemma BackStands(c: Chain, b: seq<Flags>, p: Piece)
    requires Stands(c, b) && c.pieces != []
    ensures Stands(BackMerged(c, p), b + [p.ff])
  {
    hide Has, SetMixed;
    SetMixedStands(c, b);
    SetMixedShape(c);
    HasBoth(p.ff, p.ff);
  }

  lemma FrontStands(c: Chain, b: seq<Flags>, p: Piece)
    requires Stands(c, b) && c.pieces != []
    ensures Stands(FrontMerged(c, p), [p.ff] + b)
  {
    hide Has, SetMixed;
    SetMixedStands(c, b);
    SetMixedShape(c);
    HasBoth(p.ff, p.ff);
  }

  lemma JoinStands(c: Chain, b: seq<Flags>, n: Chain, m: seq<Flags>)
    requires Stands(c, b) && Stands(n, m) && c.pieces != []
    ensures Stands(Joined(c, n), b + m)
  {
    hide Has, SetMixed;
    SetMixedStands(c, b);
    SetMixedStands(n, m);
    SetMixedShape(c);
    SetMixedShape(n);
  }

  /** No merge and no completion loses or adds a failfast bit of any bio. */
  lemma {:induction false} BitsAreKept(h: History)
    requires Possible(h) && Proper(h)
    ensures Stands(Build(h), Bits(h))
  {
    match h
    case Fresh(p, ff) =>
    case BackMerge(h', p) =>
      BitsAreKept(h');
      BackStands(Build(h'), Bits(h'), p);
    case FrontMerge(h', p) =>
      BitsAreKept(h');
      FrontStands(Build(h'), Bits(h'), p);
    case Join(h', next) =>
      BitsAreKept(h');
      BitsAreKept(next);
      JoinStands(Build(h'), Bits(h'), Build(next), Bits(next));
    case Update(h', error, n) =>
      BitsAreKept(h');
      UpdateStands(Build(h'), Bits(h'), error, n);
  }

  /** What failing a request does to its bios, by the bits they came with. */
  ghost predicate FailsEager(c: Chain, b: seq<Flags>, d: Done) {
    && |b| == |c.pieces| && |d.ended| + |d.left| == |b| && d.left == c.pieces[|d.ended|..]
    && (forall i | 0 <= i < |d.ended| :: b[i] & b[0] == b[0])
    && (d.left != [] ==> b[|d.ended|] & b[0] != b[0])
  }

  lemma MixedFails(c: Chain, b: seq<Flags>, error: int)
    requires Stands(c, b) && AllSolid(c.pieces) && c.mixed
    ensures FailsEager(c, b, Complete(c.pieces, error, ErrBytes(c)))
  {
    hide Complete, ErrBytes, Has;
    ErrBytesEnds(c, error);
  }

  lemma UnmixedFails(c: Chain, b: seq<Flags>, error: int)
    requires Stands(c, b) && AllSolid(c.pieces) && !c.mixed
    ensures FailsEager(c, b, Complete(c.pieces, error, ErrBytes(c)))
  {
    hide Complete, ErrBytes, Has;
    ErrBytesEnds(c, error);
    EndedThenLeft(c.pieces, error, ErrBytes(c));
    SameBits(c.ff);
  }

  lemma SameBits(ff: Flags)
    ensures ff & ff == ff
  {
  }

  /**
    Whatever merges and completions made a request, failing it fails exactly its leading bios that
    came with all the bits of the first one.
  */
  lemma FailsTheEager(h: History, error: int)
    requires Possible(h) && Proper(h)
    ensures FailsEager(Build(h), Bits(h), Complete(Build(h).pieces, error, ErrBytes(Build(h))))
  {
    hide FailsEager, Complete, ErrBytes, Bits, Build, Stands;
    BitsAreKept(h);
    HistoryLed(h);
    if Build(h).mixed { MixedFails(Build(h), Bits(h), error); } else { UnmixedFails(Build(h), Bits(h), error); }
  }

  // ---------------------------------------------------------- the warning

  /** The requests that a history starts from are among `starts`. */
  ghost predicate BuiltFrom(h: History, starts: iset<History>) {
    match h
    case Fresh(_, _) => h in starts
    case BackMerge(h', _) => BuiltFrom(h', starts)
    case FrontMerge(h', _) => BuiltFrom(h', starts)
    case Join(h', next) => BuiltFrom(h', starts) && BuiltFrom(next, starts)
    case Update(h', _, _) => BuiltFrom(h', starts)
  }

  lemma {:induction false} CompleteKeepsFlags(ps: seq<Piece>, error: int, n: nat, q: Piece)
    requires q in Complete(ps, error, n).left
    ensures exists p :: p in ps && p.ff == q.ff
    decreases ps
  {
    if n < Bytes(ps[0].vecs) {
      assert q == Advance(ps[0], error, n) || q in ps[1..];
      assert ps[0] in ps && forall p | p in ps[1..] :: p in ps;
    } else {
      CompleteKeepsFlags(ps[1..], error, n - Bytes(ps[0].vecs), q);
      assert forall p | p in ps[1..] :: p in ps;
    }
  }

  lemma {:induction false} InheritedStays(h: History, starts: iset<History>)
    requires BuiltFrom(h, starts) && forall l: History | l in starts && l.Fresh? :: Inherited(l.p.ff, l.ff)
    ensures !Warns(Build(h))
  {
    match h
    case Fresh(p, ff) =>
    case BackMerge(h', p) => InheritedStays(h', starts);
    case FrontMerge(h', p) => InheritedStays(h', starts);
    case Join(h', next) =>
      InheritedStays(h', starts);
      InheritedStays(next, starts);
    case Update(h', error, n) =>
      InheritedStays(h', starts);
      forall q | q in Build(h).pieces && !Build(h).mixed ensures Inherited(q.ff, Build(h).ff) {
        CompleteKeepsFlags(Build(h').pieces, error, n, q);
      }
  }

  /** Whatever is made of some requests, the warning does not fire. */
  ghost predicate Silent(starts: iset<History>) {
    forall h: History | Possible(h) && BuiltFrom(h, starts) :: !Warns(Build(h))
  }

  lemma StrangeWarns(l: History, starts: iset<History>)
    requires l.Fresh? && Possible(l) && l in starts && !Inherited(l.p.ff, l.ff)
    ensures !Silent(starts)
  {
    assert Build(l).pieces == [l.p];
    assert BuiltFrom(l, starts) && Warns(Build(l));
  }

  /**
    The warning is out of reach of all merges and completions of some requests exactly when each
    of these was made from a bio without failfast bits or with those of the request.
  */
  lemma NoWarningIff(starts: iset<History>)
    requires forall l: History | l in starts :: l.Fresh? && Possible(l)
    ensures Silent(starts) <==> forall l: History | l in starts :: Inherited(l.p.ff, l.ff)
  {
    hide Inherited, Warns;
    if l: History :| l in starts && !Inherited(l.p.ff, l.ff) {
      StrangeWarns(l, starts);
    } else {
      forall h: History | Possible(h) && BuiltFrom(h, starts) ensures !Warns(Build(h)) {
        InheritedStays(h, starts);
      }
    }
  }

  /** REQ_FAILFAST_MASK. */
  const FAILFAST_MASK: Flags := 0x0e

  /** init_request_from_bio: read-ahead is as eager to fail as can be. */
  function FromBio(p: Piece, ahead: bool): (h: History) {
    Fresh(p, if ahead then FAILFAST_MASK else p.ff)
  }

  /** A read-ahead bio with some of the bits, but not all, makes a request that warns when it is merged. */
  lemma FromBioWarns(p: Piece, ahead: bool)
    ensures Warns(Build(FromBio(p, ahead))) <==> ahead && p.ff != 0 && p.ff != FAILFAST_MASK
  {
    assert Build(FromBio(p, ahead)).pieces == [p];
  }

  /** init_request_from_bio gives a request bits that include those of its bio. */
  lemma FromBioProper(p: Piece, ahead: bool)
    requires Has(FAILFAST_MASK, p.ff)
    ensures Proper(FromBio(p, ahead)) && Bits(FromBio(p, ahead)) == [if ahead then 0x0e else p.ff]
  {
    HasBoth(p.ff, p.ff);
  }
}
