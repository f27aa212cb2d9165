/** struct request with its chain of bios: completion, failfast merging and the bytes to fail. */
module CompletionRequest {
  import opened BioVecs
  import opened Completion
  import M = MixedMerge

  datatype Bio = Bio(id: nat, vecs: seq<Vec>, idx: nat, size: nat, sector: nat, uptodate: bool, ff: Flags)

  /** What a bio still has to transfer. */
  function View(b: Bio): (p: Piece) {
    Piece(b.id, if b.idx <= |b.vecs| then b.vecs[b.idx..] else [], b.uptodate, b.ff)
  }

  /** Positive bvecs, and bi_size counts what is left of them. */
  ghost predicate GoodBio(b: Bio) {
    b.idx < |b.vecs| && Solid(b.vecs[b.idx..]) && b.size == Bytes(b.vecs[b.idx..])
  }

  ghost predicate Good(bs: seq<Bio>) {
    forall i | 0 <= i < |bs| :: GoodBio(bs[i])
  }

  ghost function Views(bs: seq<Bio>): (ps: seq<Piece>)
    ensures |ps| == |bs|
  {
    seq(|bs|, i requires 0 <= i < |bs| => View(bs[i]))
  }

  // ---------------------------------------------------------------- bvecs

  /** k whole bvecs and r bytes of the next. */
  lemma {:induction false} SkipAt(vecs: seq<Vec>, k: nat, r: nat)
    requires k < |vecs| && r < vecs[k].len
    ensures Bytes(vecs[..k]) + r < Bytes(vecs)
    ensures Skip(vecs, Bytes(vecs[..k]) + r) ==
            [Vec(vecs[k].page, vecs[k].offset + r, vecs[k].len - r)] + vecs[k + 1..]
    decreases vecs
  {
    BytesSplit(vecs, k);
    if k > 0 {
      assert vecs[..k][1..] == vecs[1..][..k - 1] && vecs[1..][k - 1 + 1..] == vecs[k + 1..];
      SkipAt(vecs[1..], k - 1, r);
    }
  }

  // -------------------------------------------------------------- requests

  lemma ViewsTail(bs: seq<Bio>)
    requires Good(bs) && bs != []
    ensures Good(bs[1..]) && Views(bs)[1..] == Views(bs[1..]) && Views(bs)[0] == View(bs[0])
    ensures AllSolid(Views(bs))
  {
  }

  lemma ViewsSolid(bs: seq<Bio>)
    requires Good(bs)
    ensures AllSolid(Views(bs))
  {
    if bs != [] { ViewsTail(bs); }
  }

  /** The bio at the head, advanced by n bytes as the source does it in place. */
  function AdvanceBio(b: Bio, error: int, k: nat, r: nat, n: nat): (c: Bio)
    requires b.idx + k < |b.vecs| && n <= b.size && r <= b.vecs[b.idx + k].len
  {
    var v := b.vecs[b.idx + k];
    b.(idx := b.idx + k, vecs := b.vecs[b.idx + k := Vec(v.page, v.offset + r, v.len - r)],
       size := b.size - n, sector := b.sector + n / 512, uptodate := b.uptodate && error == 0)
  }

  lemma AdvanceBioRight(b: Bio, error: int, k: nat, r: nat, n: nat)
    requires GoodBio(b) && b.idx + k < |b.vecs| && r < b.vecs[b.idx + k].len
    requires n == Bytes(b.vecs[b.idx..][..k]) + r && n > 0
    ensures n < b.size
    ensures GoodBio(AdvanceBio(b, error, k, r, n)) && View(AdvanceBio(b, error, k, r, n)) == Advance(View(b), error, n)
  {
    hide Bytes, Skip, Solid;
    var vecs := b.vecs[b.idx..];
    SkipAt(vecs, k, r);
    SkipSolid(vecs, n);
    var c := AdvanceBio(b, error, k, r, n);
    assert c.vecs[c.idx..] == [Vec(vecs[k].page, vecs[k].offset + r, vecs[k].len - r)] + vecs[k + 1..];
  }

  /** __sector and __data_len. */
  datatype Position = Position(sector: nat, left: nat)

  /** A partial completion moves a file system request on by whole sectors; the last one leaves it where it is. */
  function Moved(p: Position, fs: bool, n: nat): (q: Position) {
    if n < p.left then Position(p.sector + if fs then n / 512 else 0, p.left - n)
    else Position(p.sector, 0)
  }

  class Request {
    var bios: seq<Bio>
    var dataLen: nat
    var sector: nat
    var errors: int
    var fs: bool
    var mixed: bool
    var ff: Flags
    ghost var ended: seq<End>

    ghost function Snap(): (c: M.Chain)
      reads this
    {
      M.Chain(Views(bios), mixed, ff)
    }

    /** __data_len is what the bios have left, and a mixed merge is no more eager than its first bio. */
    ghost predicate Valid()
      reads this
    {
      Good(bios) && dataLen == Total(Views(bios)) && M.Led(Snap())
    }

    /** Where the request stands on the disk, and how much of it is left. */
    function Place(): (p: Position)
      reads this
    {
      Position(sector, dataLen)
    }

    /** A request made from one bio. */
    constructor (bio: Bio, fs: bool, ff: Flags)
      requires GoodBio(bio)
      ensures Valid() && Snap() == M.Chain([View(bio)], false, ff) && this.fs == fs && sector == bio.sector && ended == []
    {
      bios, dataLen, sector, errors := [bio], bio.size, bio.sector, 0;
      this.fs, mixed, this.ff := fs, false, ff;
      ended := [];
      new;
      OneBio(bio);
    }

    /** req_bio_endio for a request other than the barrier proxy. */
    method EndIo(b: Bio, want: nat, error: int) returns (c: Bio)
      modifies this`ended
      ensures var nbytes := if want > b.size then b.size else want;
              c == b.(size := b.size - nbytes, sector := b.sector + nbytes / 512, uptodate := b.uptodate && error == 0)
      ensures ended == old(ended) + if want < b.size then [] else [End(b.id, if error == 0 && !b.uptodate then EIO else error)]
    {
      var e, nbytes := error, want;
      c := b;
      if error != 0 {
        c := c.(uptodate := false);
      } else if !c.uptodate {
        e := EIO;
      }
      if nbytes > c.size {
        nbytes := c.size;
      }
      c := c.(size := c.size - nbytes, sector := c.sector + nbytes / 512);
      if c.size == 0 {
        ended := ended + [End(b.id, e)];
      }
    }

    /** How the loop of blk_update_request stands: k bvecs of the first bio, m bytes, are behind it. */
    ghost predicate Underway(ps: seq<Piece>, before: seq<End>, error: int, n: nat, k: nat, m: nat, nr: nat)
      reads this
    {
      && Good(bios)
      && (bios != [] ==> bios[0].idx + k < |bios[0].vecs| && m == Bytes(bios[0].vecs[bios[0].idx..][..k]))
      && (k > 0 ==> bios != [] && m + nr < bios[0].size)
      && (k == 0 ==> m == 0)
      && Complete(ps, error, n).left == Complete(Views(bios), error, m + nr).left
      && before + Complete(ps, error, n).ended == ended + Complete(Views(bios), error, m + nr).ended
    }

    /** The branch of the loop that ends the first bio. */
    method EndFirst(error: int, nr: nat, ghost ps: seq<Piece>, ghost before: seq<End>, ghost n: nat)
      requires bios != [] && bios[0].size <= nr && Underway(ps, before, error, n, 0, 0, nr)
      modifies this`bios, this`ended
      ensures bios == old(bios)[1..]
      ensures Underway(ps, before, error, n, 0, 0, nr - old(bios)[0].size)
    {
      hide Bytes, Views, Solid, Skip;
      var bio := bios[0];
      ViewsTail(bios);
      EndedFirst(bios, error, nr);
      bios := bios[1..];
      var _ := EndIo(bio, bio.size, error);
      if bios != [] { HeadUnderway(bios[0]); }
    }

    /** The part behind the loop: the first bio takes what was done of it. */
    method Settle(error: int, k: nat, nr: nat, bioBytes: nat, ghost ps: seq<Piece>, ghost before: seq<End>, ghost n: nat)
      requires bios != [] && bioBytes >= nr && Underway(ps, before, error, n, k, bioBytes - nr, nr)
      requires nr < bios[0].vecs[bios[0].idx + k].len
      modifies this`bios, this`ended
      ensures Good(bios) && Views(bios) == Complete(ps, error, n).left && bios != []
      ensures ended == before + Complete(ps, error, n).ended
    {
      hide Complete, Views, View, GoodBio, Bytes, Advance;
      BioBytes(bios[0]);
      SkipAt(bios[0].vecs[bios[0].idx..], k, nr);
      ViewsTail(bios);
      ghost var vs := Views(bios);
      CompleteHead(vs, error, bioBytes);
      if bioBytes == 0 {
        ViewsSolid(bios);
        CompleteNone(vs, error);
      } else {
        var bio := bios[0];
        AdvanceBioRight(bio, error, k, nr, bioBytes);
        var c := EndIo(bio, bioBytes, error);
        c := c.(idx := c.idx + k);
        var v := c.vecs[c.idx];
        c := c.(vecs := c.vecs[c.idx := Vec(v.page, v.offset + nr, v.len - nr)]);
        assert c == AdvanceBio(bio, error, k, nr, bioBytes);
        bios := [c] + bios[1..];
        ViewsHead(c, old(bios));
      }
    }

    /** The loop of blk_update_request; bioBytes and nr say how far it got in the first bio. */
    method Consume(error: int, nrBytes: nat, ghost ps: seq<Piece>, ghost before: seq<End>)
      returns (k: nat, nr: nat, bioBytes: nat, total: nat)
      requires Underway(ps, before, error, nrBytes, 0, 0, nrBytes)
      modifies this`bios, this`ended
      ensures bios == [] ==> Underway(ps, before, error, nrBytes, 0, 0, nr)
      ensures bios != [] ==>
                && bioBytes >= nr && Underway(ps, before, error, nrBytes, k, bioBytes - nr, nr)
                && nr < bios[0].vecs[bios[0].idx + k].len && total == nrBytes
    {
      hide Complete, Skip, Views, Bytes;
      k, nr, bioBytes, total := 0, nrBytes, 0, 0;
      while bios != []
        invariant Underway(ps, before, error, nrBytes, k, bioBytes, nr) && total + nr == nrBytes
        decreases |bios|, if bios == [] then 0 else |bios[0].vecs| - bios[0].idx - k
      {
        var bio := bios[0];
        var nbytes: nat;
        if nr >= bio.size {
          EndFirst(error, nr, ps, before, nrBytes);
          nbytes, k, bioBytes := bio.size, 0, 0;
        } else {
          nbytes := bio.vecs[bio.idx + k].len;
          VecFits(bio, k);
          assert nbytes <= bio.size;
          if nbytes > nr {
            bioBytes, total := bioBytes + nr, total + nr;
            break;
          }
          NextVec(bio, k, bioBytes, nr);
          k, bioBytes := k + 1, bioBytes + nbytes;
        }
        total, nr := total + nbytes, nr - nbytes;
        if bios != [] && nr <= 0 {
          HeadVec(bios[0], k);
          break;
        }
      }
    }

    /**
      blk_update_request.  The bios that end, the error each reports, what is left of the others
      and __data_len are those of Complete; a request that is not finished moves its sector on
      and, after a mixed merge, takes over the failfast bits of its new first bio.
    */
    method Update(error: int, nrBytes: nat) returns (more: bool)
      requires Valid()
      modifies this
      ensures Valid()
      ensures Views(bios) == Complete(old(Views(bios)), error, nrBytes).left
      ensures ended == old(ended) + Complete(old(Views(bios)), error, nrBytes).ended
      ensures more == (bios != []) == (nrBytes < old(dataLen))
      ensures Place() == Moved(old(Place()), fs, nrBytes)
      ensures fs == old(fs) && Snap() == M.Updated(old(Snap()), error, nrBytes)
    {
      hide Complete, Skip, Bytes, Views, Total, Underway, M.Has;
      ghost var ps, before := Views(bios), ended;
      ViewsSolid(bios);
      CompleteSolid(ps, error, nrBytes);
      NothingLeft(error, nrBytes);
      if bios == [] {
        return false;
      }
      if fs {
        errors := 0;
      }
      StartUnderway(ps, before, error, nrBytes);
      var k, nr, bioBytes, total := Consume(error, nrBytes, ps, before);
      if bios == [] {
        AllEnded(ps, before, error, nrBytes, nr);
        dataLen := 0;
        return false;
      }
      Settle(error, k, nr, bioBytes, ps, before, nrBytes);
      dataLen := dataLen - total;
      if fs {
        sector := sector + total / 512;
      }
      if mixed {
        ff := bios[0].ff;
        M.HasBoth(ff, ff);
      }
      FirstView(bios);
      ViewsSolid(bios);
      CurrentBytes(bios);
      assert dataLen >= bios[0].vecs[bios[0].idx].len;
      return true;
    }

    /** blk_rq_set_mixed_merge; `warn` says whether its WARN_ON_ONCE fires. */
    method SetMixedMerge() returns (warn: bool)
      requires Valid()
      modifies this`bios, this`mixed
      ensures Valid() && Snap() == M.SetMixed(old(Snap()))
      ensures warn <==> M.Warns(old(Snap()))
    {
      hide M.Has, M.Both, Views, Total;
      M.SetMixedLed(Snap());
      warn := false;
      if mixed {
        return;
      }
      ghost var bs := bios;
      var i := 0;
      while i < |bios|
        invariant 0 <= i <= |bios| == |bs|
        invariant forall j | 0 <= j < |bs| :: bios[j] == if j < i then bs[j].(ff := M.Both(bs[j].ff, ff)) else bs[j]
        invariant warn <==> exists j | 0 <= j < i :: !M.Inherited(bs[j].ff, ff)
      {
        if bios[i].ff != 0 && bios[i].ff != ff {
          warn := true;
        }
        bios := bios[i := bios[i].(ff := M.Both(bios[i].ff, ff))];
        i := i + 1;
      }
      SpreadViews(bs, bios, ff);
      WarnViews(bs, ff);
      mixed := true;
    }

    /** The back merge of __make_request. */
    method BackMerge(bio: Bio) returns (warn: bool)
      requires Valid() && bios != [] && GoodBio(bio)
      modifies this
      ensures warn <==> old(ff) != bio.ff && M.Warns(old(Snap()))
      ensures Valid() && Snap() == M.BackMerged(old(Snap()), View(bio)) && dataLen == old(dataLen) + bio.size
      ensures sector == old(sector) && fs == old(fs) && ended == old(ended)
    {
      hide M.Has, M.Both, M.SetMixed, M.Warns, Total, Views;
      M.SetMixedLed(Snap());
      warn := false;
      if ff != bio.ff {
        warn := SetMixedMerge();
      }
      OneBio(bio);
      AppendGood(bios, [bio]);
      bios := bios + [bio];
      dataLen := dataLen + bio.size;
    }

    /** The front merge of __make_request. */
    method FrontMerge(bio: Bio) returns (warn: bool)
      requires Valid() && bios != [] && GoodBio(bio)
      modifies this
      ensures warn <==> old(ff) != bio.ff && M.Warns(old(Snap()))
      ensures Valid() && Snap() == M.FrontMerged(old(Snap()), View(bio)) && dataLen == old(dataLen) + bio.size
      ensures sector == bio.sector && fs == old(fs) && ended == old(ended)
    {
      hide M.Has, M.Both, M.SetMixed, M.Warns, Total, Views;
      warn := false;
      if ff != bio.ff {
        warn := SetMixedMerge();
        ff := bio.ff;
      }
      M.HasBoth(ff, ff);
      OneBio(bio);
      AppendGood([bio], bios);
      bios := [bio] + bios;
      sector := bio.sector;
      dataLen := dataLen + bio.size;
    }

    /** The merge of two requests in attempt_merge. */
    method MergeNext(next: Request) returns (warn: bool)
      requires Valid() && next.Valid() && next != this && bios != []
      modifies this, next
      ensures Valid() && Snap() == M.Joined(old(Snap()), old(next.Snap()))
      ensures warn <==> (old(mixed) || old(next.mixed) || old(ff) != old(next.ff)) &&
                        (M.Warns(old(Snap())) || M.Warns(old(next.Snap())))
      ensures dataLen == old(dataLen) + old(next.dataLen) && next.bios == []
      ensures sector == old(sector) && fs == old(fs) && ended == old(ended)
    {
      hide M.Has, M.Both, M.SetMixed, M.Warns, Total, Views;
      M.SetMixedLed(Snap());
      warn := false;
      if mixed || next.mixed || ff != next.ff {
        warn := SetMixedMerge();
        var again := next.SetMixedMerge();
        warn := warn || again;
      }
      AppendGood(bios, next.bios);
      bios := bios + next.bios;
      dataLen := dataLen + next.dataLen;
      next.bios, next.dataLen := [], 0;
    }

    /** blk_rq_err_bytes: the BUG_ON cannot fire. */
    method ErrBytes() returns (bytes: nat)
      requires Valid()
      ensures bytes == M.ErrBytes(Snap())
      ensures bios != [] ==> 0 < bytes <= dataLen
    {
      hide M.Has, Total;
      if bios != [] { M.LedMakesProgress(Snap()); }
      if !mixed {
        return dataLen;
      }
      bytes := 0;
      var i := 0;
      while i < |bios|
        invariant 0 <= i <= |bios|
        invariant bytes + M.Eager(Views(bios)[i..], ff) == M.Eager(Views(bios), ff)
      {
        assert Views(bios)[i..][1..] == Views(bios)[i + 1..];
        if !M.Has(bios[i].ff, ff) {
          break;
        }
        assert GoodBio(bios[i]);
        bytes := bytes + bios[i].size;
        i := i + 1;
      }
    }

    /**
      A driver that keeps failing what blk_rq_err_bytes reports: every call ends at least one
      bio, so the request comes to an end, and each bio is told once, in order.
    */
    method FailAll(error: int)
      requires Valid()
      modifies this
      ensures bios == [] && ended == old(ended) + Complete(old(Views(bios)), error, old(dataLen)).ended
    {
      hide Complete, Total, Views, M.ErrBytes, M.Led;
      ghost var ps, before, all := Views(bios), ended, dataLen;
      ghost var n := 0;
      ViewsSolid(bios);
      CompleteNone(ps, error);
      CompleteSolid(ps, error, all);
      while bios != []
        invariant Valid() && n + dataLen == all
        invariant Views(bios) == Complete(ps, error, n).left && ended == before + Complete(ps, error, n).ended
        decreases dataLen
      {
        var bytes := ErrBytes();
        CompleteTwice(ps, error, n, bytes);
        var _ := Update(error, bytes);
        n := n + bytes;
      }
    }

    lemma AllEnded(ps: seq<Piece>, before: seq<End>, error: int, n: nat, nr: nat)
      requires bios == [] && Underway(ps, before, error, n, 0, 0, nr)
      ensures Complete(ps, error, n).left == [] && ended == before + Complete(ps, error, n).ended
    {
    }

    lemma StartUnderway(ps: seq<Piece>, before: seq<End>, error: int, n: nat)
      requires Good(bios) && ps == Views(bios) && before == ended
      ensures Underway(ps, before, error, n, 0, 0, n)
    {
    }
  }

  /** A completion that covers the first bio ends it and goes on behind it. */
  lemma EndedFirst(bs: seq<Bio>, error: int, n: nat)
    requires Good(bs) && bs != [] && bs[0].size <= n
    ensures var d := Complete(Views(bs[1..]), error, n - bs[0].size);
            Complete(Views(bs), error, n) ==
            Done(d.left, [End(bs[0].id, if error == 0 && !bs[0].uptodate then EIO else error)] + d.ended)
  {
    ViewsTail(bs);
    BioBytes(bs[0]);
  }

  lemma HeadUnderway(b: Bio)
    requires GoodBio(b)
    ensures b.idx < |b.vecs| && Bytes(b.vecs[b.idx..][..0]) == 0
  {
  }

  lemma NothingLeft(error: int, n: nat)
    ensures Complete([], error, n) == Done([], []) && Views([]) == [] && Total([]) == 0
  {
  }

  lemma {:induction false} TotalAppend(ps: seq<Piece>, qs: seq<Piece>)
    ensures Total(ps + qs) == Total(ps) + Total(qs)
    decreases ps
  {
    if ps == [] {
      assert ps + qs == qs;
    } else {
      assert (ps + qs)[1..] == ps[1..] + qs;
      TotalAppend(ps[1..], qs);
    }
  }

  lemma AppendGood(bs: seq<Bio>, cs: seq<Bio>)
    requires Good(bs) && Good(cs)
    ensures Good(bs + cs) && Views(bs + cs) == Views(bs) + Views(cs)
    ensures Total(Views(bs + cs)) == Total(Views(bs)) + Total(Views(cs))
    ensures AllSolid(Views(bs) + Views(cs))
  {
    TotalAppend(Views(bs), Views(cs));
    assert Views(bs + cs) == Views(bs) + Views(cs);
  }

  lemma SpreadViews(bs: seq<Bio>, cs: seq<Bio>, ff: Flags)
    requires Good(bs) && |cs| == |bs|
    requires forall j | 0 <= j < |bs| :: cs[j] == bs[j].(ff := M.Both(bs[j].ff, ff))
    ensures Good(cs) && Views(cs) == M.Spread(Views(bs), ff)
  {
    hide M.Both;
  }

  lemma WarnViews(bs: seq<Bio>, ff: Flags)
    ensures M.Warns(M.Chain(Views(bs), false, ff)) <==> exists j | 0 <= j < |bs| :: !M.Inherited(bs[j].ff, ff)
  {
    assert forall j | 0 <= j < |bs| :: Views(bs)[j] in Views(bs) && Views(bs)[j].ff == bs[j].ff;
  }

  lemma OneBio(b: Bio)
    requires GoodBio(b)
    ensures Good([b]) && Views([b]) == [View(b)] && Total([View(b)]) == b.size && AllSolid([View(b)])
  {
    assert [View(b)][1..] == [];
  }

  lemma FirstView(bs: seq<Bio>)
    requires bs != []
    ensures Views(bs)[0] == View(bs[0])
  {
  }

  lemma BioBytes(b: Bio)
    requires GoodBio(b)
    ensures b.idx < |b.vecs| && b.size == Bytes(b.vecs[b.idx..]) && View(b).vecs == b.vecs[b.idx..]
  {
  }

  lemma VecFits(b: Bio, k: nat)
    requires GoodBio(b) && b.idx + k < |b.vecs|
    ensures b.vecs[b.idx + k].len <= b.size
  {
    var vecs := b.vecs[b.idx..];
    BytesNext(vecs, k);
    BytesSplit(vecs, k + 1);
  }

  /** A bvec that is done leaves another in the bio, if the bio is not done. */
  lemma NextVec(b: Bio, k: nat, m: nat, nr: nat)
    requires GoodBio(b) && b.idx + k < |b.vecs| && m == Bytes(b.vecs[b.idx..][..k]) && m + nr < b.size
    requires b.vecs[b.idx + k].len <= nr
    ensures b.idx + k + 1 < |b.vecs|
    ensures m + b.vecs[b.idx + k].len == Bytes(b.vecs[b.idx..][..k + 1])
  {
    var vecs := b.vecs[b.idx..];
    BytesNext(vecs, k);
    BytesSplit(vecs, k + 1);
    assert vecs[k + 1..] != [];
  }

  lemma HeadVec(b: Bio, k: nat)
    requires GoodBio(b) && b.idx + k < |b.vecs|
    ensures b.vecs[b.idx + k].len > 0
  {
    assert b.vecs[b.idx..][k] in b.vecs[b.idx..];
  }

  lemma CompleteHead(ps: seq<Piece>, error: int, n: nat)
    requires ps != [] && n < Bytes(ps[0].vecs)
    ensures Complete(ps, error, n) == Done([Advance(ps[0], error, n)] + ps[1..], [])
  {
  }

  lemma ViewsHead(c: Bio, bs: seq<Bio>)
    requires Good(bs) && bs != [] && GoodBio(c)
    ensures Good([c] + bs[1..]) && Views([c] + bs[1..]) == [View(c)] + Views(bs)[1..]
  {
  }

  /** blk_rq_cur_bytes never exceeds blk_rq_bytes: a request cannot be botched. */
  lemma CurrentBytes(bs: seq<Bio>)
    requires Good(bs) && bs != []
    ensures bs[0].vecs[bs[0].idx].len <= Total(Views(bs))
  {
    SolidBytes(bs[0].vecs[bs[0].idx..]);
  }

  /**
    The sector is the one thing that does not compose.  Short of the end of the request each
    completion drops the part of a sector it ends in, and the completion that ends the request
    leaves the sector alone, so that a second completion may end what the first one has moved on.
  */
  predicate PlaceComposes(p: Position, a: nat, b: nat) {
    if a + b < p.left then a % 512 + b % 512 < 512 else a < p.left ==> a < 512
  }

  lemma SectorComposes(p: Position, a: nat, b: nat)
    ensures Moved(Moved(p, true, a), true, b) == Moved(p, true, a + b) <==> PlaceComposes(p, a, b)
    ensures Moved(Moved(p, false, a), false, b) == Moved(p, false, a + b)
  {
    assert a + b == 512 * (a / 512 + b / 512) + (a % 512 + b % 512);
  }

  /** Two calls of blk_update_request leave a request where one call would exactly under that condition. */
  method UpdateTwice(rq: Request, error: int, a: nat, b: nat)
    requires rq.Valid()
    modifies rq
    ensures rq.Valid()
    ensures rq.Place() == Moved(old(rq.Place()), rq.fs, a + b) <==> !rq.fs || PlaceComposes(old(rq.Place()), a, b)
    ensures Views(rq.bios) == Complete(old(Views(rq.bios)), error, a + b).left
    ensures rq.ended == old(rq.ended) + Complete(old(Views(rq.bios)), error, a + b).ended
  {
    hide Complete, Views, Total, Good;
    ViewsSolid(rq.bios);
    CompleteTwice(Views(rq.bios), error, a, b);
    SectorComposes(rq.Place(), a, b);
    var _ := rq.Update(error, a);
    var _ := rq.Update(error, b);
  }

  /** A request of one bvec of 1024 bytes at sector 0, after completions of a and b bytes. */
  method SectorAfterTwo(a: nat, b: nat) returns (sector: nat)
    ensures sector == Moved(Moved(Position(0, 1024), true, a), true, b).sector
  {
    var bio := Bio(0, [Vec(0, 0, 1024)], 0, 1024, 0, true, 0);
    OneVec(bio);
    var rq := new Request(bio, true, 0);
    var _ := rq.Update(0, a);
    var _ := rq.Update(0, b);
    sector := rq.sector;
  }

  lemma OneVec(b: Bio)
    requires b.vecs == [Vec(0, 0, 1024)] && b.idx == 0 && b.size == 1024
    ensures GoodBio(b) && Total([View(b)]) == 1024
  {
    assert b.vecs[0..] == b.vecs && b.vecs[1..] == [] && [View(b)][1..] == [];
  }

  /** Two half sectors are lost, and the last sector of a request counts for one cut and not for another. */
  method SectorsDiffer() returns (halves: nat, whole: nat, ended: nat, atOnce: nat)
    ensures halves == 0 && whole == 1
    ensures ended == 1 && atOnce == 0
  {
    halves := SectorAfterTwo(256, 256);
    whole := SectorAfterTwo(512, 0);
    ended := SectorAfterTwo(512, 512);
    atOnce := SectorAfterTwo(1024, 0);
  }
}
