/** How nr_phys_segments of a request is kept up to date by merges, without recounting. */
module SegmentMerge {
  import opened BioVecs
  import opened Segments

  /** bi_seg_front_size, bi_seg_back_size, and bi_phys_segments once BIO_SEG_VALID is set. */
  datatype Bio = Bio(vecs: seq<Vec>, front: nat, back: nat, valid: bool, segs: nat)

  datatype Rq = Rq(bios: seq<Bio>, nr: nat)

  function Max(a: nat, b: nat): (c: nat) { if a < b then b else a }

  function Flat(bios: seq<Bio>): (vs: seq<Vec>) {
    if bios == [] then [] else Flat(Front(bios)) + Last(bios).vecs
  }

  function RecalcParts(q: Queue, vs: seq<Vec>): (p: Parts) {
    Measure(vs, RecalcSplit(q, vs))
  }

  /** blk_recount_segments. */
  function Recount(q: Queue, b: Bio): (c: Bio) {
    var p := RecalcParts(q, b.vecs);
    b.(front := Max(b.front, p.first), back := Max(b.back, p.last), valid := true, segs := p.n)
  }

  function Ready(q: Queue, b: Bio): (c: Bio) {
    if b.valid then b else Recount(q, b)
  }

  /** blk_recalc_rq_segments on a chain. */
  function Recalced(q: Queue, bios: seq<Bio>): (r: Rq)
    requires bios != []
  {
    var p := RecalcParts(q, Flat(bios));
    var first := bios[0 := bios[0].(front := Max(bios[0].front, p.first))];
    Rq(first[|bios| - 1 := Last(first).(back := Max(Last(first).back, p.last))], p.n)
  }

  /** ll_back_merge_fn; `fits` is the test of the sector limit. */
  function BackMerge(q: Queue, r: Rq, b: Bio, fits: bool): (s: Rq)
    requires r.bios != []
  {
    if !fits then r
    else
      var tail, c := Ready(q, Last(r.bios)), Ready(q, b);
      var bios := r.bios[|r.bios| - 1 := tail];
      if r.nr + c.segs > q.maxSegments then Rq(bios, r.nr) else Rq(bios + [c], r.nr + c.segs)
  }

  /** ll_front_merge_fn. */
  function FrontMerge(q: Queue, r: Rq, b: Bio, fits: bool): (s: Rq)
    requires r.bios != []
  {
    if !fits then r
    else
      var head, c := Ready(q, r.bios[0]), Ready(q, b);
      var bios := r.bios[0 := head];
      if r.nr + c.segs > q.maxSegments then Rq(bios, r.nr) else Rq([c] + bios, r.nr + c.segs)
  }

  /** blk_phys_contig_segment, for bios with data. */
  predicate Contiguous(q: Queue, b: Bio, c: Bio)
    requires b.vecs != [] && c.vecs != []
  {
    q.cluster && b.back + c.front <= q.maxSize && Joins(q, Last(b.vecs), c.vecs[0])
  }

  /** ll_merge_requests_fn; the sizes are updated even if the merge is then refused. */
  function Join(q: Queue, r: Rq, n: Rq, fits: bool): (s: Rq)
    requires r.bios != [] && n.bios != [] && Last(r.bios).vecs != [] && n.bios[0].vecs != [] && r.nr > 0
  {
    if !fits then r
    else
      var size := Last(r.bios).back + n.bios[0].front;
      var contiguous := Contiguous(q, Last(r.bios), n.bios[0]);
      var bios := if contiguous && r.nr == 1 then r.bios[0 := r.bios[0].(front := size)] else r.bios;
      var more := if contiguous && n.nr == 1 then n.bios[|n.bios| - 1 := Last(n.bios).(back := size)] else n.bios;
      var total := if contiguous then r.nr + n.nr - 1 else r.nr + n.nr;
      if total > q.maxSegments then Rq(bios, r.nr) else Rq(bios + more, total)
  }

  // ------------------------------------------------------------ invariant

  ghost predicate CountedBio(q: Queue, b: Bio) {
    && b.vecs != []
    && (b.valid ==> var p := RecalcParts(q, b.vecs); b.segs == p.n && p.first <= b.front && p.last <= b.back)
  }

  /** Some segmentation has as many segments as were counted; its ends are within the recorded sizes. */
  ghost predicate Fits(q: Queue, r: Rq, starts: seq<bool>) {
    && r.bios != [] && |starts| == |Flat(r.bios)| && Feasible(q, Flat(r.bios), starts)
    && var p := Measure(Flat(r.bios), starts);
       p.n == r.nr && p.first <= r.bios[0].front && p.last <= Last(r.bios).back
  }

  ghost predicate Counted(q: Queue, r: Rq) {
    && r.bios != []
    && (forall i | 0 <= i < |r.bios| :: r.bios[i].vecs != [])
    && exists starts :: Fits(q, r, starts)
  }

  /** The scatterlist of a counted request has at most nr_phys_segments entries. */
  lemma CountedMaps(q: Queue, r: Rq)
    requires Counted(q, r)
    ensures |MapSg(q, Flat(r.bios))| <= r.nr
  {
    var starts :| Fits(q, r, starts);
    FlatNotEmpty(r.bios);
    GreedyIsBest(q, Flat(r.bios), starts);
  }

  lemma {:induction false} FlatNotEmpty(bios: seq<Bio>)
    requires bios != [] && forall i | 0 <= i < |bios| :: bios[i].vecs != []
    ensures Flat(bios) != [] && Flat(bios)[0] == bios[0].vecs[0] && Last(Flat(bios)) == Last(Last(bios).vecs)
    decreases |bios|
  {
    if |bios| > 1 {
      FlatNotEmpty(Front(bios));
    } else {
      assert Front(bios) == [];
    }
  }

  lemma {:induction false} FlatPlus(bios: seq<Bio>, more: seq<Bio>)
    ensures Flat(bios + more) == Flat(bios) + Flat(more)
    decreases |more|
  {
    if more == [] {
      assert bios + more == bios;
    } else {
      FrontPlus(bios, more);
      FlatPlus(bios, Front(more));
    }
  }

  lemma FlatOne(b: Bio)
    ensures Flat([b]) == b.vecs
  {
    assert Front([b]) == [];
    assert [] + b.vecs == b.vecs;
  }

  /** The recorded sizes do not matter to the data. */
  lemma {:induction false} FlatAlike(bios: seq<Bio>, more: seq<Bio>)
    requires |bios| == |more| && forall i | 0 <= i < |bios| :: bios[i].vecs == more[i].vecs
    ensures Flat(bios) == Flat(more)
    decreases |bios|
  {
    if bios != [] {
      FlatAlike(Front(bios), Front(more));
    }
  }

  /** Sizes may grow. */
  lemma CountedGrows(q: Queue, r: Rq, bios: seq<Bio>)
    requires Counted(q, r) && |bios| == |r.bios|
    requires forall i | 0 <= i < |bios| ::
               bios[i].vecs == r.bios[i].vecs && r.bios[i].front <= bios[i].front && r.bios[i].back <= bios[i].back
    ensures Counted(q, Rq(bios, r.nr))
  {
    FlatAlike(bios, r.bios);
    var starts :| Fits(q, r, starts);
    assert Fits(q, Rq(bios, r.nr), starts);
  }

  lemma ReadyGrows(q: Queue, b: Bio)
    ensures Ready(q, b).vecs == b.vecs && b.front <= Ready(q, b).front && b.back <= Ready(q, b).back
    ensures CountedBio(q, b) ==> CountedBio(q, Ready(q, b)) && Ready(q, b).valid
  {
    hide RecalcParts;
  }

  lemma ReadyCounted(q: Queue, b: Bio)
    requires CountedBio(q, b) && b.valid
    ensures Counted(q, Rq([b], b.segs))
  {
    FlatOne(b);
    RecalcMeasure(q, b.vecs);
    assert Fits(q, Rq([b], b.segs), RecalcSplit(q, b.vecs));
  }

  lemma RecalcedCounted(q: Queue, bios: seq<Bio>)
    requires bios != [] && forall i | 0 <= i < |bios| :: bios[i].vecs != []
    ensures Counted(q, Recalced(q, bios))
  {
    var r := Recalced(q, bios);
    FlatAlike(bios, r.bios);
    RecalcMeasure(q, Flat(bios));
    assert Fits(q, r, RecalcSplit(q, Flat(bios)));
  }

  /** Two chains, with a segment starting between them. */
  lemma Chained(q: Queue, r: Rq, n: Rq)
    requires Counted(q, r) && Counted(q, n)
    ensures Counted(q, Rq(r.bios + n.bios, r.nr + n.nr))
  {
    var a :| Fits(q, r, a);
    var b :| Fits(q, n, b);
    FlatPlus(r.bios, n.bios);
    FlatNotEmpty(r.bios);
    FlatNotEmpty(n.bios);
    SomeSegment(q, Flat(n.bios), b);
    Separate(q, Flat(r.bios), a, Flat(n.bios), b);
    assert Fits(q, Rq(r.bios + n.bios, r.nr + n.nr), a + b);
  }

  lemma CountedPositive(q: Queue, r: Rq)
    requires Counted(q, r)
    ensures r.nr > 0
  {
    var a :| Fits(q, r, a);
    FlatNotEmpty(r.bios);
    SomeSegment(q, Flat(r.bios), a);
  }

  /** The end of a merge that found the requests contiguous. */
  ghost predicate Adjoined(r: Rq, n: Rq, bios: seq<Bio>, more: seq<Bio>)
    requires r.bios != [] && n.bios != []
  {
    var size := Last(r.bios).back + n.bios[0].front;
    && bios == (if r.nr == 1 then r.bios[0 := r.bios[0].(front := size)] else r.bios)
    && more == (if n.nr == 1 then n.bios[|n.bios| - 1 := Last(n.bios).(back := size)] else n.bios)
  }

  /** Two chains whose neighbouring segments become one. */
  lemma ChainedAsOne(q: Queue, r: Rq, n: Rq, bios: seq<Bio>, more: seq<Bio>)
    requires Counted(q, r) && Counted(q, n) && Contiguous(q, Last(r.bios), n.bios[0])
    requires Adjoined(r, n, bios, more)
    ensures r.nr + n.nr >= 1 && Counted(q, Rq(bios + more, r.nr + n.nr - 1))
  {
    hide Flat, Measure, Feasible;
    var a :| Fits(q, r, a);
    var b :| Fits(q, n, b);
    FlatAlike(bios, r.bios);
    FlatAlike(more, n.bios);
    FlatPlus(bios, more);
    FlatNotEmpty(r.bios);
    FlatNotEmpty(n.bios);
    SomeSegment(q, Flat(r.bios), a);
    SomeSegment(q, Flat(n.bios), b);
    Adjoin(q, Flat(r.bios), a, Flat(n.bios), b);
    assert Fits(q, Rq(bios + more, r.nr + n.nr - 1), a + b[0 := false]);
  }

  lemma BackMergeCounted(q: Queue, r: Rq, b: Bio, fits: bool)
    requires Counted(q, r) && CountedBio(q, b)
    ensures Counted(q, BackMerge(q, r, b, fits))
    ensures r.nr <= q.maxSegments ==> BackMerge(q, r, b, fits).nr <= q.maxSegments
  {
    hide Fits, CountedBio, Recount;
    var bios := r.bios[|r.bios| - 1 := Ready(q, Last(r.bios))];
    ReadyGrows(q, Last(r.bios));
    CountedGrows(q, r, bios);
    ReadyGrows(q, b);
    ReadyCounted(q, Ready(q, b));
    Chained(q, Rq(bios, r.nr), Rq([Ready(q, b)], Ready(q, b).segs));
  }

  lemma FrontMergeCounted(q: Queue, r: Rq, b: Bio, fits: bool)
    requires Counted(q, r) && CountedBio(q, b)
    ensures Counted(q, FrontMerge(q, r, b, fits))
    ensures r.nr <= q.maxSegments ==> FrontMerge(q, r, b, fits).nr <= q.maxSegments
  {
    hide Fits, CountedBio, Recount;
    var bios := r.bios[0 := Ready(q, r.bios[0])];
    ReadyGrows(q, r.bios[0]);
    CountedGrows(q, r, bios);
    ReadyGrows(q, b);
    ReadyCounted(q, Ready(q, b));
    Chained(q, Rq([Ready(q, b)], Ready(q, b).segs), Rq(bios, r.nr));
  }

  /** When only one segment was counted, the size recorded for the back covers the front too. */
  lemma RefusedCounted(q: Queue, r: Rq, size: nat)
    requires Counted(q, r) && (r.nr == 1 ==> Last(r.bios).back <= size)
    ensures Counted(q, Rq(if r.nr == 1 then r.bios[0 := r.bios[0].(front := size)] else r.bios, r.nr))
  {
    hide Flat, Measure, Feasible;
    if r.nr == 1 {
      var bios := r.bios[0 := r.bios[0].(front := size)];
      var a :| Fits(q, r, a);
      FlatAlike(bios, r.bios);
      FlatNotEmpty(r.bios);
      SomeSegment(q, Flat(r.bios), a);
      assert Fits(q, Rq(bios, r.nr), a);
    }
  }

  lemma JoinCounted(q: Queue, r: Rq, n: Rq, fits: bool)
    requires Counted(q, r) && Counted(q, n)
    ensures r.nr > 0 && Counted(q, Join(q, r, n, fits))
    ensures r.nr <= q.maxSegments ==> Join(q, r, n, fits).nr <= q.maxSegments
  {
    hide Fits, Joins;
    CountedPositive(q, r);
    var size := Last(r.bios).back + n.bios[0].front;
    if fits {
      if Contiguous(q, Last(r.bios), n.bios[0]) {
        var bios := if r.nr == 1 then r.bios[0 := r.bios[0].(front := size)] else r.bios;
        var more := if n.nr == 1 then n.bios[|n.bios| - 1 := Last(n.bios).(back := size)] else n.bios;
        ChainedAsOne(q, r, n, bios, more);
        RefusedCounted(q, r, size);
      } else {
        Chained(q, r, n);
      }
    }
  }

  // -------------------------------------------------------------- history

  /** How a request came about; a partial completion leaves some chain and recounts it. */
  datatype History =
    | Fresh(b: Bio)
    | Back(h: History, b: Bio, fits: bool)
    | Ahead(h: History, b: Bio, fits: bool)
    | Joined(h: History, next: History, fits: bool)
    | Completed(h: History, left: seq<Bio>)

  ghost predicate Possible(q: Queue, h: History) {
    match h
    case Fresh(b) => CountedBio(q, b)
    case Back(h', b, _) => Possible(q, h') && CountedBio(q, b)
    case Ahead(h', b, _) => Possible(q, h') && CountedBio(q, b)
    case Joined(h', next, _) => Possible(q, h') && Possible(q, next)
    case Completed(h', left) => Possible(q, h') && left != [] && forall i | 0 <= i < |left| :: left[i].vecs != []
  }

  ghost function Build(q: Queue, h: History): (r: Rq)
    requires Possible(q, h)
    ensures Counted(q, r)
  {
    match h
    case Fresh(b) =>
      ReadyGrows(q, b);
      ReadyCounted(q, Ready(q, b));
      Rq([Ready(q, b)], Ready(q, b).segs)
    case Back(h', b, fits) =>
      BackMergeCounted(q, Build(q, h'), b, fits);
      BackMerge(q, Build(q, h'), b, fits)
    case Ahead(h', b, fits) =>
      FrontMergeCounted(q, Build(q, h'), b, fits);
      FrontMerge(q, Build(q, h'), b, fits)
    case Joined(h', next, fits) =>
      JoinCounted(q, Build(q, h'), Build(q, next), fits);
      Join(q, Build(q, h'), Build(q, next), fits)
    case Completed(_, left) =>
      RecalcedCounted(q, left);
      Recalced(q, left)
  }

  /**
    The scatterlist never overflows its estimate: whatever merges and partial completions a
    request has been through, mapping it takes at most nr_phys_segments entries.
  */
  lemma EstimateHolds(q: Queue, h: History)
    requires Possible(q, h)
    ensures |MapSg(q, Flat(Build(q, h).bios))| <= Build(q, h).nr
  {
    CountedMaps(q, Build(q, h));
  }

  /** Merged from bios that are within the limit, and not recounted since. */
  ghost predicate OnlyMerged(q: Queue, h: History) {
    match h
    case Fresh(b) => Ready(q, b).segs <= q.maxSegments
    case Back(h', _, _) => OnlyMerged(q, h')
    case Ahead(h', _, _) => OnlyMerged(q, h')
    case Joined(h', _, _) => OnlyMerged(q, h')
    case Completed(_, _) => false
  }

  /** Merges stay within the hardware limit of the queue. */
  lemma {:induction false} MergesStayWithinLimit(q: Queue, h: History)
    requires Possible(q, h) && OnlyMerged(q, h)
    ensures |MapSg(q, Flat(Build(q, h).bios))| <= Build(q, h).nr <= q.maxSegments
    decreases h
  {
    hide Flat, MapSg, Recount;
    EstimateHolds(q, h);
    match h
    case Fresh(_) =>
    case Back(h', b, fits) =>
      MergesStayWithinLimit(q, h');
      BackMergeCounted(q, Build(q, h'), b, fits);
    case Ahead(h', b, fits) =>
      MergesStayWithinLimit(q, h');
      FrontMergeCounted(q, Build(q, h'), b, fits);
    case Joined(h', next, fits) =>
      MergesStayWithinLimit(q, h');
      JoinCounted(q, Build(q, h'), Build(q, next), fits);
  }

  // ------------------------------------------------------ refused or not

  /** What becomes of the data and the count of a request that `more` may be merged into or not. */
  ghost predicate MergedIf(merged: bool, r: Rq, s: Rq, data: seq<Vec>, nr: nat) {
    if merged then Flat(s.bios) == data && s.nr == nr else Flat(s.bios) == Flat(r.bios) && s.nr == r.nr
  }

  /** A bio is merged exactly when the request, with the segments counted for the bio, stays within the limits. */
  lemma BioMergedIff(q: Queue, r: Rq, b: Bio, fits: bool)
    requires r.bios != [] && CountedBio(q, b)
    ensures var nr := r.nr + Recalc(q, b.vecs).n;
            && MergedIf(fits && nr <= q.maxSegments, r, BackMerge(q, r, b, fits), Flat(r.bios) + b.vecs, nr)
            && MergedIf(fits && nr <= q.maxSegments, r, FrontMerge(q, r, b, fits), b.vecs + Flat(r.bios), nr)
  {
    hide Flat, Recalc, RecalcSplit, Measure;
    var c := Ready(q, b);
    ReadyGrows(q, b);
    ReadyGrows(q, Last(r.bios));
    ReadyGrows(q, r.bios[0]);
    RecalcMeasure(q, b.vecs);
    var back, front := r.bios[|r.bios| - 1 := Ready(q, Last(r.bios))], r.bios[0 := Ready(q, r.bios[0])];
    FlatAlike(back, r.bios);
    FlatAlike(front, r.bios);
    FlatPlus(back, [c]);
    FlatPlus([c], front);
    FlatOne(c);
  }

  /**
    Two requests become one exactly when their segments stay within the limits; their neighbouring
    segments count as one if these join up, stay within the boundary and are not too long together.
  */
  lemma RequestsMergedIff(q: Queue, r: Rq, n: Rq, fits: bool)
    requires r.bios != [] && n.bios != [] && Last(r.bios).vecs != [] && n.bios[0].vecs != [] && r.nr > 0
    ensures var b, c := Last(r.bios), n.bios[0];
            var u, v := Last(b.vecs), c.vecs[0];
            var one := q.cluster && b.back + c.front <= q.maxSize &&
                       Addr(u) + u.len == Addr(v) && q.window(Addr(u), Addr(v) + v.len);
            var nr := if one then r.nr + n.nr - 1 else r.nr + n.nr;
            MergedIf(fits && nr <= q.maxSegments, r, Join(q, r, n, fits), Flat(r.bios) + Flat(n.bios), nr)
  {
    hide Flat;
    var size := Last(r.bios).back + n.bios[0].front;
    var bios, more := r.bios[0 := r.bios[0].(front := size)], n.bios[|n.bios| - 1 := Last(n.bios).(back := size)];
    FlatAlike(bios, r.bios);
    FlatAlike(more, n.bios);
    FlatPlus(bios, more);
    FlatPlus(bios, n.bios);
    FlatPlus(r.bios, more);
    FlatPlus(r.bios, n.bios);
  }
}
