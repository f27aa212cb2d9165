/** The loops of __blk_recalc_rq_segments and blk_rq_map_sg. */
module SegmentLoops {
  import opened BioVecs
  import opened Segments
  import opened SegmentMerge

  /** The counters of the recount behind the bvecs vs, with the front size of the first bio. */
  ghost predicate Recounted(q: Queue, vs: seq<Vec>, front0: nat, nr: nat, size: nat, high: bool, front: nat) {
    && Recalc(q, vs) == Run(nr, size, high)
    && front == if nr >= 2 then Max(front0, RecalcParts(q, vs).first) else front0
  }

  lemma RecountStep(q: Queue, vs: seq<Vec>, v: Vec)
    ensures var ws := vs + [v];
            && Recalc(q, ws) == (if vs == [] || RecalcStarts(q, Recalc(q, vs), Last(vs), v) then
                                   Run(Recalc(q, vs).n + 1, v.len, High(q, v))
                                 else Run(Recalc(q, vs).n, Recalc(q, vs).len + v.len, Recalc(q, vs).high))
            && (Recalc(q, vs).n == 1 ==> RecalcParts(q, vs).first == Recalc(q, vs).len)
            && (Recalc(q, vs).n >= 2 ==> RecalcParts(q, ws).first == RecalcParts(q, vs).first)
            && (Recalc(q, vs).n == 1 && Recalc(q, ws).n == 2 ==> RecalcParts(q, ws).first == RecalcParts(q, vs).first)
  {
    var ws := vs + [v];
    assert Front(ws) == vs && Last(ws) == v;
    assert vs != [] ==> ws[|ws| - 2] == Last(vs);
    assert Front(RecalcSplit(q, ws)) == RecalcSplit(q, vs);
    RecalcMeasure(q, vs);
    if vs != [] { SomeSegment(q, vs, RecalcSplit(q, vs)); }
  }

  /** One bvec of the recount. */
  method RecountVec(q: Queue, prev: Vec, v: Vec, nr: nat, size: nat, high: bool, front: nat,
                    ghost vs: seq<Vec>, ghost front0: nat)
    returns (nr': nat, size': nat, high': bool, front': nat)
    requires Recounted(q, vs, front0, nr, size, high, front) && (vs != [] ==> prev == Last(vs))
    ensures Recounted(q, vs + [v], front0, nr', size', high', front')
  {
    hide RecalcParts, Recalc, Joins;
    RecountStep(q, vs, v);
    RecalcEmpty(q);
    nr', size', high', front' := nr, size, high, front;
    if !High(q, v) && !high && size + v.len <= q.maxSize && Joins(q, prev, v) {
      size' := size + v.len;
      return;
    }
    if nr == 1 && size > front {
      front' := size;
    }
    nr', size', high' := nr + 1, v.len, High(q, v);
  }

  lemma RecalcEmpty(q: Queue)
    ensures Recalc(q, []) == Run(0, 0, true)
  {
  }

  lemma FlatNext(bios: seq<Bio>, i: nat)
    requires i < |bios|
    ensures Flat(bios[..i + 1]) == Flat(bios[..i]) + bios[i].vecs
  {
    assert Front(bios[..i + 1]) == bios[..i];
  }

  /** __blk_recalc_rq_segments: the count, and the sizes it records in the first and the last bio. */
  method RecalcRqSegments(q: Queue, bios: seq<Bio>) returns (nr: nat, bios': seq<Bio>)
    requires forall i | 0 <= i < |bios| :: bios[i].vecs != []
    ensures bios == [] ==> nr == 0 && bios' == []
    ensures bios != [] ==> Recalced(q, bios) == Rq(bios', nr)
    ensures exists gs :: Flatten(gs) == Flat(bios) && Segmented(q, gs, true) && |gs| == nr
  {
    hide Recalc, RecalcParts, Flat, Segmented, Flatten;
    ghost var gs := RecalcHolds(q, Flat(bios));
    bios' := bios;
    RecalcEmpty(q);
    FlatEmpty();
    if bios == [] {
      return 0, [];
    }
    var front: nat := bios[0].front;
    var size: nat := 0;
    var high, prev := true, bios[0].vecs[0];
    nr := 0;
    ghost var vs: seq<Vec> := [];
    var i := 0;
    FlatStart(bios);
    while i < |bios|
      invariant 0 <= i <= |bios| && vs == Flat(bios[..i])
      invariant Recounted(q, vs, bios[0].front, nr, size, high, front) && (vs != [] ==> prev == Last(vs))
    {
      var vecs := bios[i].vecs;
      var j := 0;
      ghost var us := vs;
      while j < |vecs|
        invariant 0 <= j <= |vecs| && vs == us + vecs[..j]
        invariant Recounted(q, vs, bios[0].front, nr, size, high, front) && (vs != [] ==> prev == Last(vs))
      {
        nr, size, high, front := RecountVec(q, prev, vecs[j], nr, size, high, front, vs, bios[0].front);
        vs, prev := vs + [vecs[j]], vecs[j];
        assert vecs[..j + 1] == vecs[..j] + [vecs[j]];
        j := j + 1;
      }
      FlatNext(bios, i);
      assert vecs[..j] == vecs;
      i := i + 1;
    }
    assert bios[..i] == bios;
    RecountEnd(q, bios);
    if nr == 1 && size > front {
      front := size;
    }
    bios' := bios'[0 := bios'[0].(front := front)];
    if size > Last(bios').back {
      bios' := bios'[|bios'| - 1 := Last(bios').(back := size)];
    }
    assert Last(bios').back == Max(Last(bios).back, size);
  }

  lemma FlatEmpty()
    ensures Flat([]) == []
  {
  }

  lemma FlatStart(bios: seq<Bio>)
    ensures Flat(bios[..0]) == []
  {
  }

  lemma RecountEnd(q: Queue, bios: seq<Bio>)
    requires bios != [] && forall i | 0 <= i < |bios| :: bios[i].vecs != []
    ensures var r, p := Recalc(q, Flat(bios)), RecalcParts(q, Flat(bios));
            p.n == r.n >= 1 && p.last == r.len && (r.n == 1 ==> p.first == r.len)
  {
    FlatNotEmpty(bios);
    RecalcMeasure(q, Flat(bios));
    SomeSegment(q, Flat(bios), RecalcSplit(q, Flat(bios)));
  }

  /** blk_rq_map_sg, up to padding and drain. */
  method RqMapSg(q: Queue, vs: seq<Vec>) returns (sg: seq<Sg>)
    ensures sg == MapSg(q, vs)
    ensures exists gs :: Flatten(gs) == vs && Segmented(q, gs, false) && EntriesOf(gs, sg)
    ensures SgAddrs(sg) == VecAddrs(vs) && SgBytes(sg) == Bytes(vs)
  {
    hide Joins, MapSg;
    NothingMapped(q);
    sg := [];
    var i := 0;
    while i < |vs|
      invariant 0 <= i <= |vs| && sg == MapSg(q, vs[..i])
    {
      var v := vs[i];
      MapSgOne(q, vs, i);
      if i > 0 && Last(sg).len + v.len <= q.maxSize && Joins(q, vs[i - 1], v) {
        sg := sg[|sg| - 1 := Last(sg).(len := Last(sg).len + v.len)];
      } else {
        sg := sg + [Sg(v.page, v.offset, v.len)];
      }
      i := i + 1;
    }
    assert vs[..i] == vs;
    MapSgAddrs(q, vs);
    MapSgBytes(q, vs);
    ghost var gs := MapSgHolds(q, vs);
  }

  lemma NothingMapped(q: Queue)
    ensures MapSg(q, []) == []
  {
  }

  /** What one more bvec does to the map, as the loop does it in place. */
  lemma MapSgOne(q: Queue, vs: seq<Vec>, i: nat)
    requires i < |vs|
    ensures var sg, v := MapSg(q, vs[..i]), vs[i];
            && (i > 0 ==> sg != [])
            && MapSg(q, vs[..i + 1]) ==
               if i > 0 && Last(sg).len + v.len <= q.maxSize && Joins(q, vs[i - 1], v)
               then sg[|sg| - 1 := Last(sg).(len := Last(sg).len + v.len)]
               else sg + [Sg(v.page, v.offset, v.len)]
  {
    hide Joins;
    var ws := vs[..i + 1];
    assert Front(ws) == vs[..i] && Last(ws) == vs[i];
    assert i > 0 ==> ws[|ws| - 2] == vs[i - 1];
  }
}
