/**
  Counting the physical segments of a request, and mapping it to a scatterlist.  A segmentation
  of a chain of bvecs says for each bvec whether it starts a segment.
*/
module Segments {
  import opened BioVecs

  /**
    The limits of a queue.  `window(a, b)` says that the bytes from a up to b do not cross a
    segment boundary.
  */
  datatype Queue = Queue(cluster: bool, maxSize: nat, maxSegments: nat, bounce: nat, window: (nat, nat) -> bool)

  function Addr(v: Vec): (a: nat) { 4096 * v.page + v.offset }

  predicate High(q: Queue, v: Vec) { v.page > q.bounce }

  /** BIOVEC_PHYS_MERGEABLE and BIOVEC_SEG_BOUNDARY on a queue that clusters. */
  predicate Joins(q: Queue, u: Vec, v: Vec) {
    q.cluster && Addr(u) + u.len == Addr(v) && q.window(Addr(u), Addr(v) + v.len)
  }

  function Last<T>(s: seq<T>): (x: T)
    requires s != []
  {
    s[|s| - 1]
  }

  function Front<T>(s: seq<T>): (t: seq<T>)
    requires s != []
  {
    s[..|s| - 1]
  }

  // -------------------------------------------------------- segmentations

  /** The number of segments, and the lengths of the first and the last. */
  datatype Parts = Parts(n: nat, first: nat, last: nat)

  function Measure(vs: seq<Vec>, starts: seq<bool>): (p: Parts)
    requires |starts| == |vs|
  {
    if vs == [] then Parts(0, 0, 0)
    else
      var p, len := Measure(Front(vs), Front(starts)), Last(vs).len;
      if Last(starts) then Parts(p.n + 1, if p.n == 0 then len else p.first, len)
      else Parts(p.n, if p.n <= 1 then p.first + len else p.first, p.last + len)
  }

  /** Bvecs share a segment only if they join up and the segment is not too long. */
  ghost predicate Feasible(q: Queue, vs: seq<Vec>, starts: seq<bool>)
    requires |starts| == |vs|
  {
    vs != [] ==>
      && Feasible(q, Front(vs), Front(starts))
      && (Last(starts) ||
          (|vs| > 1 && Joins(q, vs[|vs| - 2], Last(vs)) &&
           Measure(Front(vs), Front(starts)).last + Last(vs).len <= q.maxSize))
  }

  /** A run of one of the counting loops: segments so far, length of the current one, and highprv. */
  datatype Run = Run(n: nat, len: nat, high: bool)

  /** One bvec of __blk_recalc_rq_segments starts a segment. */
  predicate RecalcStarts(q: Queue, r: Run, prev: Vec, v: Vec) {
    High(q, v) || r.high || r.len + v.len > q.maxSize || !Joins(q, prev, v)
  }

  function Recalc(q: Queue, vs: seq<Vec>): (r: Run) {
    if vs == [] then Run(0, 0, true)
    else
      var r, v := Recalc(q, Front(vs)), Last(vs);
      if |vs| == 1 || RecalcStarts(q, r, vs[|vs| - 2], v) then Run(r.n + 1, v.len, High(q, v))
      else Run(r.n, r.len + v.len, r.high)
  }

  /** The segmentation that it counts. */
  function RecalcSplit(q: Queue, vs: seq<Vec>): (starts: seq<bool>)
    ensures |starts| == |vs|
  {
    if vs == [] then []
    else RecalcSplit(q, Front(vs)) + [|vs| == 1 || RecalcStarts(q, Recalc(q, Front(vs)), vs[|vs| - 2], Last(vs))]
  }

  /** The entries of blk_rq_map_sg. */
  datatype Sg = Sg(page: nat, offset: nat, len: nat)

  function MapSg(q: Queue, vs: seq<Vec>): (sg: seq<Sg>)
    ensures vs != [] ==> sg != []
  {
    if vs == [] then []
    else
      var sg, v := MapSg(q, Front(vs)), Last(vs);
      if |vs| == 1 || Last(sg).len + v.len > q.maxSize || !Joins(q, vs[|vs| - 2], v) then
        sg + [Sg(v.page, v.offset, v.len)]
      else Front(sg) + [Last(sg).(len := Last(sg).len + v.len)]
  }

  function SgBytes(sg: seq<Sg>): (n: nat) {
    if sg == [] then 0 else SgBytes(Front(sg)) + Last(sg).len
  }

  // --------------------------------------------------------------- greedy

  lemma SgBytesSnoc(sg: seq<Sg>, e: Sg)
    ensures SgBytes(sg + [e]) == SgBytes(sg) + e.len
  {
    assert Front(sg + [e]) == sg;
  }

  /** One more bvec makes the entries longer by its length. */
  lemma MapSgNext(q: Queue, vs: seq<Vec>)
    requires vs != []
    ensures SgBytes(MapSg(q, vs)) == SgBytes(MapSg(q, Front(vs))) + Last(vs).len
  {
    hide Joins, SgBytes;
    var sg, v := MapSg(q, Front(vs)), Last(vs);
    SgBytesSnoc(sg, Sg(v.page, v.offset, v.len));
    if sg != [] {
      SgBytesSnoc(Front(sg), Last(sg).(len := Last(sg).len + v.len));
      SgBytesSnoc(Front(sg), Last(sg));
      assert Front(sg) + [Last(sg)] == sg;
    }
  }

  /** The entries add up to the data. */
  lemma {:induction false} MapSgBytes(q: Queue, vs: seq<Vec>)
    ensures SgBytes(MapSg(q, vs)) == Bytes(vs)
    decreases |vs|
  {
    if vs != [] {
      MapSgBytes(q, Front(vs));
      MapSgNext(q, vs);
      BytesNext(vs, |vs| - 1);
      assert vs[..|vs|] == vs;
    }
  }

  /** After every bvec the greedy map has fewer segments, or as many and a shorter last one. */
  lemma {:induction false} GreedyIsBest(q: Queue, vs: seq<Vec>, starts: seq<bool>)
    requires |starts| == |vs| && Feasible(q, vs, starts) && vs != []
    ensures var sg, p := MapSg(q, vs), Measure(vs, starts);
            |sg| < p.n || (|sg| == p.n && Last(sg).len <= p.last)
    decreases |vs|
  {
    if |vs| > 1 {
      GreedyIsBest(q, Front(vs), Front(starts));
    } else {
      assert Front(vs) == [] && Front(starts) == [];
    }
  }

  lemma {:induction false} RecalcMeasure(q: Queue, vs: seq<Vec>)
    ensures Feasible(q, vs, RecalcSplit(q, vs))
    ensures Measure(vs, RecalcSplit(q, vs)).n == Recalc(q, vs).n && Measure(vs, RecalcSplit(q, vs)).last == Recalc(q, vs).len
    decreases |vs|
  {
    if vs != [] {
      RecalcMeasure(q, Front(vs));
      assert Front(RecalcSplit(q, vs)) == RecalcSplit(q, Front(vs));
    }
  }

  /** The scatterlist has at most as many entries as segments were counted. */
  lemma MapFitsRecalc(q: Queue, vs: seq<Vec>)
    ensures |MapSg(q, vs)| <= Recalc(q, vs).n
  {
    if vs != [] {
      RecalcMeasure(q, vs);
      GreedyIsBest(q, vs, RecalcSplit(q, vs));
    }
  }

  // ---------------------------------------------------- the bytes mapped

  /** The addresses of n bytes from a on. */
  function Range(a: nat, n: nat): (r: seq<nat>) {
    seq(n, i requires 0 <= i < n => a + i)
  }

  function VecAddrs(vs: seq<Vec>): (r: seq<nat>) {
    if vs == [] then [] else VecAddrs(Front(vs)) + Range(Addr(Last(vs)), Last(vs).len)
  }

  function SgAddr(e: Sg): (a: nat) { 4096 * e.page + e.offset }

  function SgAddrs(sg: seq<Sg>): (r: seq<nat>) {
    if sg == [] then [] else SgAddrs(Front(sg)) + Range(SgAddr(Last(sg)), Last(sg).len)
  }

  lemma RangeJoin(a: nat, m: nat, n: nat)
    ensures Range(a, m) + Range(a + m, n) == Range(a, m + n)
  {
  }

  lemma SgAddrsAppend(sg: seq<Sg>, e: Sg)
    ensures SgAddrs(sg + [e]) == SgAddrs(sg) + Range(SgAddr(e), e.len)
  {
    assert Front(sg + [e]) == sg;
  }

  /** An entry that grows by n bytes. */
  lemma SgAddrsGrow(sg: seq<Sg>, n: nat)
    requires sg != []
    ensures var e := Last(sg);
            SgAddrs(Front(sg) + [e.(len := e.len + n)]) == SgAddrs(sg) + Range(SgAddr(e) + e.len, n)
  {
    hide Range, SgAddrs;
    var e := Last(sg);
    SgAddrsAppend(Front(sg), e.(len := e.len + n));
    SgAddrsAppend(Front(sg), e);
    assert Front(sg) + [e] == sg;
    RangeJoin(SgAddr(e), e.len, n);
    var a, b, c := SgAddrs(Front(sg)), Range(SgAddr(e), e.len), Range(SgAddr(e) + e.len, n);
    assert (a + b) + c == a + (b + c);
  }

  /** The scatterlist names the bytes of the request, all of them and in their order. */
  lemma {:induction false} MapSgAddrs(q: Queue, vs: seq<Vec>)
    ensures SgAddrs(MapSg(q, vs)) == VecAddrs(vs)
    ensures vs != [] ==> SgAddr(Last(MapSg(q, vs))) + Last(MapSg(q, vs)).len == Addr(Last(vs)) + Last(vs).len
    decreases |vs|
  {
    hide Range, SgAddrs;
    if vs == [] {
      NothingMapped();
    } else {
      MapSgAddrs(q, Front(vs));
      var sg, v := MapSg(q, Front(vs)), Last(vs);
      SgAddrsAppend(sg, Sg(v.page, v.offset, v.len));
      if |vs| > 1 {
        SgAddrsGrow(sg, v.len);
      }
    }
  }

  lemma NothingMapped()
    ensures SgAddrs([]) == []
  {
  }

  // --------------------------------------------------- what is in a segment

  /** Bvecs that one segment holds: they follow each other within the boundary, and are not too many bytes. */
  ghost predicate OneSegment(q: Queue, g: seq<Vec>) {
    && g != []
    && (forall i, j | 0 <= i < |g| && j == i + 1 < |g| ::
          q.cluster && Addr(g[i]) + g[i].len == Addr(g[j]) && q.window(Addr(g[i]), Addr(g[j]) + g[j].len))
    && (|g| > 1 ==> Bytes(g) <= q.maxSize)
  }

  /** One of the limits keeps v out of the segment in front of it. */
  predicate Breaks(q: Queue, g: seq<Vec>, v: Vec)
    requires g != []
  {
    || !q.cluster || Addr(Last(g)) + Last(g).len != Addr(v)
    || !q.window(Addr(Last(g)), Addr(v) + v.len) || Bytes(g) + v.len > q.maxSize
  }

  function Flatten(gs: seq<seq<Vec>>): (vs: seq<Vec>) {
    if gs == [] then [] else Flatten(Front(gs)) + Last(gs)
  }

  /** A segment ends only where a limit makes it end or, if `high` says so, at a page that may be bounced. */
  ghost predicate Segmented(q: Queue, gs: seq<seq<Vec>>, high: bool) {
    gs != [] ==>
      && Segmented(q, Front(gs), high)
      && OneSegment(q, Last(gs))
      && (high && |Last(gs)| > 1 ==> forall v | v in Last(gs) :: !High(q, v))
      && (|gs| > 1 ==> gs[|gs| - 2] != [] && EndsHere(q, gs[|gs| - 2], Last(gs)[0], high))
  }

  predicate EndsHere(q: Queue, g: seq<Vec>, v: Vec, high: bool)
    requires g != []
  {
    Breaks(q, g, v) || (high && (High(q, g[0]) || High(q, v)))
  }

  function EntryOf(g: seq<Vec>): (e: Sg)
    requires g != []
  {
    Sg(g[0].page, g[0].offset, Bytes(g))
  }

  ghost predicate EntriesOf(gs: seq<seq<Vec>>, sg: seq<Sg>) {
    |sg| == |gs| && forall i | 0 <= i < |gs| :: gs[i] != [] && sg[i] == EntryOf(gs[i])
  }

  lemma BytesSnoc(g: seq<Vec>, v: Vec)
    ensures Bytes(g + [v]) == Bytes(g) + v.len
  {
    BytesNext(g + [v], |g|);
    assert (g + [v])[..|g|] == g && (g + [v])[..|g| + 1] == g + [v];
  }

  lemma FlattenSnoc(gs: seq<seq<Vec>>, g: seq<Vec>)
    ensures Flatten(gs + [g]) == Flatten(gs) + g && Flatten([]) == []
  {
    assert Front(gs + [g]) == gs;
  }

  /** A bvec that starts a segment. */
  lemma SegmentStarts(q: Queue, gs: seq<seq<Vec>>, high: bool, v: Vec)
    requires Segmented(q, gs, high)
    requires gs != [] ==> EndsHere(q, Last(gs), v, high)
    ensures Segmented(q, gs + [[v]], high) && Flatten(gs + [[v]]) == Flatten(gs) + [v]
    ensures Bytes([v]) == v.len
  {
    hide EndsHere;
    FlattenSnoc(gs, [v]);
    assert [v][1..] == [] && Front(gs + [[v]]) == gs;
  }

  /** A bvec that goes on with the last one. */
  lemma SegmentGrows(q: Queue, gs: seq<seq<Vec>>, high: bool, v: Vec)
    requires Segmented(q, gs, high) && gs != [] && !EndsHere(q, Last(gs), v, high)
    ensures var g := Last(gs) + [v];
            && Segmented(q, Front(gs) + [g], high) && Flatten(Front(gs) + [g]) == Flatten(gs) + [v]
            && Bytes(g) == Bytes(Last(gs)) + v.len
  {
    hide Breaks, OneSegment;
    var g, hs := Last(gs), Front(gs) + [Last(gs) + [v]];
    SegmentNotEmpty(q, g);
    BytesSnoc(g, v);
    FlattenSnoc(Front(gs), g + [v]);
    GrownSegment(q, g, v);
    assert Front(hs) == Front(gs) && Last(hs) == g + [v] && (g + [v])[0] == g[0];
  }

  lemma SegmentNotEmpty(q: Queue, g: seq<Vec>)
    requires OneSegment(q, g)
    ensures g != []
  {
  }

  lemma GrownSegment(q: Queue, g: seq<Vec>, v: Vec)
    requires OneSegment(q, g) && !Breaks(q, g, v)
    ensures OneSegment(q, g + [v])
  {
    hide Addr, Bytes;
    BytesSnoc(g, v);
    var h := g + [v];
    forall i, j | 0 <= i < |h| && j == i + 1 < |h|
      ensures q.cluster && Addr(h[i]) + h[i].len == Addr(h[j]) && q.window(Addr(h[i]), Addr(h[j]) + h[j].len)
    {
      if j < |g| { assert h[i] == g[i] && h[j] == g[j]; } else { assert h[i] == Last(g) && h[j] == v; }
    }
  }

  lemma LastOfFlatten(gs: seq<seq<Vec>>)
    requires gs != [] && Last(gs) != []
    ensures Flatten(gs) != [] && Last(Flatten(gs)) == Last(Last(gs))
  {
  }

  /** The test of the mapping loop is that the segment ends. */
  lemma MapEnds(q: Queue, g: seq<Vec>, e: Sg, v: Vec)
    requires g != [] && e == EntryOf(g)
    ensures e.len + v.len > q.maxSize || !Joins(q, Last(g), v) <==> EndsHere(q, g, v, false)
  {
  }

  lemma EntriesGrow(gs: seq<seq<Vec>>, sg: seq<Sg>, v: Vec)
    requires EntriesOf(gs, sg)
    ensures EntriesOf(gs + [[v]], sg + [Sg(v.page, v.offset, v.len)])
    ensures gs != [] ==>
              EntriesOf(Front(gs) + [Last(gs) + [v]], Front(sg) + [Last(sg).(len := Last(sg).len + v.len)])
  {
    hide Bytes;
    OneBytes(v);
    if gs != [] {
      BytesSnoc(Last(gs), v);
      var hs, tg := Front(gs) + [Last(gs) + [v]], Front(sg) + [Last(sg).(len := Last(sg).len + v.len)];
      assert |tg| == |hs| == |gs| && forall i | 0 <= i < |hs| - 1 :: hs[i] == gs[i] && tg[i] == sg[i];
    }
  }

  /** What the entries of the scatterlist hold: the limits, the boundary among them, decide where each ends. */
  lemma {:induction false} MapSgHolds(q: Queue, vs: seq<Vec>) returns (gs: seq<seq<Vec>>)
    ensures Flatten(gs) == vs && Segmented(q, gs, false) && EntriesOf(gs, MapSg(q, vs))
    decreases |vs|
  {
    hide Bytes, Joins, EndsHere, Segmented, Flatten, EntryOf;
    gs := [];
    if vs == [] {
      NoSegments(q, false);
    } else {
      gs := MapSgHolds(q, Front(vs));
      var sg, v := MapSg(q, Front(vs)), Last(vs);
      assert vs == Front(vs) + [v];
      EntriesGrow(gs, sg, v);
      if gs == [] {
        NoSegments(q, false);
      } else {
        LastOfFlatten(gs);
        MapEnds(q, Last(gs), Last(sg), v);
        FrontHasLast(vs);
      }
      if gs == [] || EndsHere(q, Last(gs), v, false) {
        SegmentStarts(q, gs, false, v);
        gs := gs + [[v]];
      } else {
        SegmentGrows(q, gs, false, v);
        gs := Front(gs) + [Last(gs) + [v]];
      }
    }
  }

  /** The test of the recount is that the segment ends. */
  lemma RecalcEnds(q: Queue, g: seq<Vec>, r: Run, v: Vec)
    requires g != [] && r.len == Bytes(g) && r.high == High(q, g[0])
    ensures RecalcStarts(q, r, Last(g), v) <==> EndsHere(q, g, v, true)
  {
  }

  /** The run of the recount behind some segments. */
  ghost predicate RunBehind(q: Queue, gs: seq<seq<Vec>>, r: Run) {
    && r.n == |gs|
    && (gs != [] ==> Last(gs) != [] && r.len == Bytes(Last(gs)) && r.high == High(q, Last(gs)[0]))
  }

  /** What the counted segments hold: they also end at pages that may be bounced. */
  lemma {:induction false} RecalcHolds(q: Queue, vs: seq<Vec>) returns (gs: seq<seq<Vec>>)
    ensures Flatten(gs) == vs && Segmented(q, gs, true) && RunBehind(q, gs, Recalc(q, vs))
    decreases |vs|
  {
    hide Bytes, RecalcStarts, EndsHere, Segmented, Flatten, High;
    gs := [];
    if vs == [] {
      NoSegments(q, true);
    } else {
      gs := RecalcHolds(q, Front(vs));
      var v := Last(vs);
      assert vs == Front(vs) + [v];
      if gs == [] {
        NoSegments(q, true);
      } else {
        LastOfFlatten(gs);
        RecalcEnds(q, Last(gs), Recalc(q, Front(vs)), v);
        FrontHasLast(vs);
      }
      if gs == [] || EndsHere(q, Last(gs), v, true) {
        SegmentStarts(q, gs, true, v);
        gs := gs + [[v]];
      } else {
        SegmentGrows(q, gs, true, v);
        gs := Front(gs) + [Last(gs) + [v]];
      }
    }
  }

  lemma NoSegments(q: Queue, high: bool)
    ensures Flatten([]) == [] && Segmented(q, [], high)
  {
  }

  lemma FrontHasLast(vs: seq<Vec>)
    requires vs != [] && Front(vs) != []
    ensures |vs| > 1 && Last(Front(vs)) == vs[|vs| - 2]
  {
  }

  /** The segments without the last bvec. */
  function Shortened(gs: seq<seq<Vec>>): (hs: seq<seq<Vec>>)
    requires gs != [] && Last(gs) != []
  {
    if |Last(gs)| == 1 then Front(gs) else Front(gs) + [Front(Last(gs))]
  }

  lemma ShorterSegment(q: Queue, g: seq<Vec>)
    requires OneSegment(q, g) && |g| > 1
    ensures OneSegment(q, Front(g)) && !Breaks(q, Front(g), Last(g)) && Front(g)[0] == g[0]
  {
    hide Addr, Bytes;
    BytesSnoc(Front(g), Last(g));
    assert Front(g) + [Last(g)] == g;
    assert Last(Front(g)) == g[|g| - 2];
  }

  lemma ShortenedFlat(gs: seq<seq<Vec>>)
    requires gs != [] && Last(gs) != []
    ensures Flatten(gs) != [] && Flatten(Shortened(gs)) == Front(Flatten(gs)) && Last(Flatten(gs)) == Last(Last(gs))
  {
    LastOfFlatten(gs);
    var g := Last(gs);
    if |g| > 1 {
      FlattenSnoc(Front(gs), Front(g));
      assert Flatten(Front(gs)) + g == Flatten(gs);
    }
  }

  lemma ShortenedSegmented(q: Queue, gs: seq<seq<Vec>>, high: bool)
    requires Segmented(q, gs, high) && gs != [] && Last(gs) != []
    ensures Segmented(q, Shortened(gs), high)
  {
    hide OneSegment, EndsHere;
    var g, hs := Last(gs), Shortened(gs);
    if |g| > 1 {
      ShorterSegment(q, g);
      assert Front(hs) == Front(gs) && Last(hs) == Front(g);
      assert forall v | v in Front(g) :: v in g;
    }
  }

  /** Where the last bvec went was decided by the limits. */
  lemma ShortenedEnds(q: Queue, gs: seq<seq<Vec>>, high: bool)
    requires Segmented(q, gs, high) && gs != [] && Last(gs) != []
    ensures var us, v := Shortened(gs), Last(Last(gs));
            if |Last(gs)| == 1 then us != [] ==> Last(us) != [] && EndsHere(q, Last(us), v, high)
            else us != [] && Last(us) != [] && !EndsHere(q, Last(us), v, high)
  {
    hide OneSegment, Breaks;
    var g := Last(gs);
    if |g| > 1 {
      ShorterSegment(q, g);
      assert g[0] in g && Last(g) in g;
    } else if |gs| > 1 {
      assert Last(Front(gs)) == gs[|gs| - 2] && Last(g) == g[0];
    }
  }

  /** There is only one way to do it: the limits determine the segments. */
  lemma {:induction false} SegmentsAreUnique(q: Queue, gs: seq<seq<Vec>>, hs: seq<seq<Vec>>, high: bool)
    requires Segmented(q, gs, high) && Segmented(q, hs, high) && Flatten(gs) == Flatten(hs)
    ensures gs == hs
    decreases |Flatten(gs)|
  {
    hide OneSegment, EndsHere, Flatten;
    if gs == [] || hs == [] {
      OnlyEmpty(q, gs, high);
      OnlyEmpty(q, hs, high);
    } else {
      SegmentNotEmpty(q, Last(gs));
      SegmentNotEmpty(q, Last(hs));
      ShortenedFlat(gs);
      ShortenedFlat(hs);
      ShortenedSegmented(q, gs, high);
      ShortenedSegmented(q, hs, high);
      ShortenedEnds(q, gs, high);
      ShortenedEnds(q, hs, high);
      SegmentsAreUnique(q, Shortened(gs), Shortened(hs), high);
      Lengthened(gs);
      Lengthened(hs);
    }
  }

  lemma OnlyEmpty(q: Queue, gs: seq<seq<Vec>>, high: bool)
    requires Segmented(q, gs, high)
    ensures gs == [] <==> Flatten(gs) == []
  {
  }

  lemma Lengthened(gs: seq<seq<Vec>>)
    requires gs != [] && Last(gs) != []
    ensures var us, v := Shortened(gs), Last(Last(gs));
            gs == if |Last(gs)| == 1 then us + [[v]] else Front(us) + [Last(us) + [v]]
  {
    var g := Last(gs);
    assert gs == Front(gs) + [g] && g == Front(g) + [Last(g)];
    if |g| > 1 { assert Front(Shortened(gs)) == Front(gs) && Last(Shortened(gs)) == Front(g); }
  }

  // ------------------------------------------------------------ boundaries

  /** The stretch between two multiples of b that an address is in. */
  function Slot(a: nat, b: nat): (k: nat)
    requires b > 0
  {
    a / b
  }

  /** Segments must not cross multiples of b. */
  ghost predicate Bounded(q: Queue, b: nat) {
    b > 0 && forall a: nat, e: nat | a < e :: q.window(a, e) ==> Slot(a, b) == Slot(e - 1, b)
  }

  lemma BetweenSlots(a: nat, x: nat, e: nat, b: nat)
    requires b > 0 && a <= x <= e && Slot(a, b) == Slot(e, b)
    ensures Slot(x, b) == Slot(a, b)
  {
    assert a / b * b <= a && e < e / b * b + b;
    assert x / b * b <= x < x / b * b + b;
    SameQuotient(x / b, a / b, b);
  }

  lemma SameQuotient(x: nat, y: nat, b: nat)
    requires b > 0 && x * b < y * b + b && y * b < x * b + b
    ensures x == y
  {
    assert x * b < (y + 1) * b && y * b < (x + 1) * b;
  }

  /** A stretch of n bytes from a on within one slot goes on with m bytes in the slot of its byte u. */
  lemma StretchGrows(a: nat, n: nat, u: nat, m: nat, b: nat)
    requires b > 0 && n > 0 && a <= u < a + n && Slot(a, b) == Slot(a + n - 1, b) && Slot(u, b) == Slot(a + n + m - 1, b)
    ensures Slot(a, b) == Slot(a + n + m - 1, b)
  {
    hide Slot;
    BetweenSlots(u, a + n - 1, a + n + m - 1, b);
  }

  /** The last two bvecs of a segment. */
  lemma LastTwo(q: Queue, b: nat, g: seq<Vec>)
    requires OneSegment(q, g) && Bounded(q, b) && |g| > 1 && Last(g).len > 0
    ensures var u, v := Last(Front(g)), Last(g);
            Addr(u) + u.len == Addr(v) && Slot(Addr(u), b) == Slot(Addr(v) + v.len - 1, b)
  {
    assert Last(Front(g)) == g[|g| - 2];
  }

  /** Although only neighbours are compared, no segment of several bvecs crosses a boundary anywhere. */
  lemma {:induction false} SegmentWithinBoundary(q: Queue, b: nat, g: seq<Vec>)
    requires OneSegment(q, g) && Bounded(q, b) && |g| > 1 && forall v | v in g :: v.len > 0
    ensures Addr(Last(g)) + Last(g).len == Addr(g[0]) + Bytes(g)
    ensures b > 0 && Bytes(g) > 0 && Slot(Addr(g[0]), b) == Slot(Addr(g[0]) + Bytes(g) - 1, b)
    decreases |g|
  {
    hide Bounded, Addr, Bytes, OneSegment, Slot;
    ShorterSegment(q, g);
    IsBounded(q, b);
    var f, v := Front(g), Last(g);
    var u := Last(f);
    assert f + [v] == g && v in g && u in f && forall w | w in f :: w in g;
    BytesSnoc(f, v);
    LastTwo(q, b, g);
    if |f| > 1 {
      SegmentWithinBoundary(q, b, f);
      LastBytes(f);
      StretchGrows(Addr(g[0]), Bytes(f), Addr(u), v.len, b);
    } else {
      OneBytes(u);
      assert f == [u];
    }
  }

  lemma IsBounded(q: Queue, b: nat)
    requires Bounded(q, b)
    ensures b > 0
  {
  }

  lemma OneBytes(v: Vec)
    ensures Bytes([v]) == v.len
  {
    assert [v][1..] == [];
  }

  lemma LastBytes(g: seq<Vec>)
    requires g != []
    ensures Bytes(g) >= Last(g).len
  {
    BytesSnoc(Front(g), Last(g));
    assert Front(g) + [Last(g)] == g;
  }

  // ------------------------------------------------- joining segmentations

  lemma FrontPlus<T>(s: seq<T>, t: seq<T>)
    requires t != []
    ensures Front(s + t) == s + Front(t) && Last(s + t) == Last(t)
  {
  }

  /** A segment starts between two chains: their segments add up. */
  lemma {:induction false} Separate(q: Queue, vs: seq<Vec>, a: seq<bool>, ws: seq<Vec>, b: seq<bool>)
    requires |a| == |vs| && |b| == |ws| && vs != [] && ws != []
    requires Feasible(q, vs, a) && Feasible(q, ws, b) && b[0]
    ensures Feasible(q, vs + ws, a + b)
    ensures var p, r, m := Measure(vs, a), Measure(ws, b), Measure(vs + ws, a + b);
            m == Parts(p.n + r.n, p.first, r.last) && p.n >= 1 && r.n >= 1
    decreases |ws|
  {
    FrontPlus(vs, ws);
    FrontPlus(a, b);
    SomeSegment(q, vs, a);
    if |ws| == 1 {
      assert vs + Front(ws) == vs && a + Front(b) == a;
      assert Front(ws) == [] && Front(b) == [];
    } else {
      Separate(q, vs, a, Front(ws), Front(b));
    }
  }

  lemma {:induction false} SomeSegment(q: Queue, vs: seq<Vec>, a: seq<bool>)
    requires |a| == |vs| && vs != [] && Feasible(q, vs, a)
    ensures a[0] && Measure(vs, a).n >= 1 && Measure(vs, a).first >= 0
    ensures Measure(vs, a).n == 1 ==> Measure(vs, a).first == Measure(vs, a).last
    decreases |vs|
  {
    if |vs| > 1 {
      SomeSegment(q, Front(vs), Front(a));
    } else {
      assert Front(vs) == [] && Front(a) == [];
    }
  }

  /** No segment starts between them: the last of one and the first of the other become one. */
  lemma {:induction false} Adjoin(q: Queue, vs: seq<Vec>, a: seq<bool>, ws: seq<Vec>, b: seq<bool>)
    requires |a| == |vs| && |b| == |ws| && vs != [] && ws != []
    requires Feasible(q, vs, a) && Feasible(q, ws, b) && b[0]
    requires Joins(q, Last(vs), ws[0]) && Measure(vs, a).last + Measure(ws, b).first <= q.maxSize
    ensures Feasible(q, vs + ws, a + b[0 := false])
    ensures var p, r, m := Measure(vs, a), Measure(ws, b), Measure(vs + ws, a + b[0 := false]);
            && p.n >= 1 && r.n >= 1 && m.n == p.n + r.n - 1
            && m.first == (if p.n == 1 then p.first + r.first else p.first)
            && m.last == (if r.n == 1 then p.last + r.last else r.last)
    decreases |ws|
  {
    var c := b[0 := false];
    FrontPlus(vs, ws);
    FrontPlus(a, c);
    SomeSegment(q, vs, a);
    SomeSegment(q, ws, b);
    if |ws| == 1 {
      assert vs + Front(ws) == vs && a + Front(c) == a;
      assert Front(ws) == [] && Front(b) == [];
      assert (vs + ws)[|vs + ws| - 2] == Last(vs);
    } else {
      FirstGrows(ws, b);
      SomeSegment(q, Front(ws), Front(b));
      assert Front(c) == Front(b)[0 := false];
      Adjoin(q, vs, a, Front(ws), Front(b));
      assert (vs + ws)[|vs + ws| - 2] == ws[|ws| - 2];
    }
  }

  lemma FirstGrows(vs: seq<Vec>, a: seq<bool>)
    requires |a| == |vs| && |vs| > 1
    ensures Measure(Front(vs), Front(a)).n >= 1 ==> Measure(Front(vs), Front(a)).first <= Measure(vs, a).first
  {
  }
}
