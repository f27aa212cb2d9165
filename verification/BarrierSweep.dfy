/**
  The sector order that elv_dispatch_sort gives to the end of the dispatch queue: the requests
  that a head passes on one sweep, which starts at the boundary and begins again at sector 0.
*/
module BarrierSweep {
  import opened NumberLists
  import opened Barrier

  /** How far a head at `boundary` has to go up to reach a sector of a disk with `size` sectors. */
  function Travel(sector: nat, boundary: nat, size: nat): (d: nat)
    requires sector < size && boundary <= size
  {
    if sector >= boundary then sector - boundary else size - boundary + sector
  }

  /** A request that is sorted with x: of the same kind and direction, without a stop flag. */
  predicate Alike(m: Store, y: Id, x: Id) {
    var a, b := At(m, y), At(m, x);
    a.discard == b.discard && a.write == b.write && !a.soft && !a.hard && !a.started
  }

  predicate OnDisk(m: Store, queue: seq<Id>, size: nat) {
    forall i | 0 <= i < |queue| :: At(m, queue[i]).sector < size
  }

  /** The requests from position k on are in the order of the sweep. */
  ghost predicate Swept(m: Store, queue: seq<Id>, k: nat, boundary: nat, size: nat)
    requires boundary <= size && OnDisk(m, queue, size)
  {
    forall i, j | k <= i < j < |queue| ::
      Travel(At(m, queue[i]).sector, boundary, size) <= Travel(At(m, queue[j]).sector, boundary, size)
  }

  /** Position k begins the requests at the end of the queue that x is sorted with. */
  ghost predicate Begins(m: Store, queue: seq<Id>, k: nat, x: Id) {
    && k <= |queue|
    && (forall i | k <= i < |queue| :: Alike(m, queue[i], x))
    && (k > 0 ==> !Alike(m, queue[k - 1], x))
  }

  lemma StopsIffPassed(m: Store, y: Id, x: Id, boundary: nat, size: nat)
    requires boundary <= size && At(m, y).sector < size && At(m, x).sector < size
    requires Alike(m, y, x)
    ensures SortStop(At(m, y), At(m, x), boundary) <==>
            Travel(At(m, y).sector, boundary, size) <= Travel(At(m, x).sector, boundary, size)
  {
  }

  lemma NotAlikeStops(m: Store, y: Id, x: Id, boundary: nat)
    requires !Alike(m, y, x)
    ensures SortStop(At(m, y), At(m, x), boundary)
  {
  }

  /** A request goes behind exactly those the sweep passes no later than it. */
  lemma SortPosIsExact(m: Store, queue: seq<Id>, k: nat, x: Id, boundary: nat, size: nat)
    requires boundary <= size && OnDisk(m, queue, size) && At(m, x).sector < size
    requires Begins(m, queue, k, x) && Swept(m, queue, k, boundary, size)
    ensures k <= SortPos(m, queue, x, boundary)
    ensures forall i | k <= i < |queue| ::
              i < SortPos(m, queue, x, boundary) <==>
              Travel(At(m, queue[i]).sector, boundary, size) <= Travel(At(m, x).sector, boundary, size)
  {
    hide SortPos, SortStop, Travel, Alike, At;
    var p := SortPos(m, queue, x, boundary);
    if k > 0 { NotAlikeStops(m, queue[k - 1], x, boundary); }
    forall i | k <= i < |queue|
      ensures i < p <==> Travel(At(m, queue[i]).sector, boundary, size) <= Travel(At(m, x).sector, boundary, size)
    {
      StopsIffPassed(m, queue[i], x, boundary, size);
      if i < p { StopsIffPassed(m, queue[p - 1], x, boundary, size); }
    }
  }

  lemma SortInSweeps(m: Store, queue: seq<Id>, k: nat, x: Id, boundary: nat, size: nat)
    requires boundary <= size && OnDisk(m, queue, size) && At(m, x).sector < size
    requires Begins(m, queue, k, x) && Swept(m, queue, k, boundary, size)
    ensures var q := InsertAt(queue, SortPos(m, queue, x, boundary), x);
            k <= |q| && q[..k] == queue[..k] && OnDisk(m, q, size) && Swept(m, q, k, boundary, size)
  {
    hide SortPos, SortStop, Travel;
    SortPosIsExact(m, queue, k, x, boundary, size);
  }

  /** Every request of the order is sorted in with one boundary, and all are of one kind. */
  ghost predicate OneSweep(m: Store, order: seq<Dispatch>, boundary: nat, size: nat) {
    && (forall i | 0 <= i < |order| ::
          order[i].SortIn? && order[i].boundary == boundary && At(m, order[i].rq).sector < size)
    && (forall i, j | 0 <= i < |order| && 0 <= j < |order| :: Alike(m, order[i].rq, order[j].rq))
  }

  /**
    Requests that are sorted in one by one, in any order, leave what was in the queue before
    alone and end up behind it in the order of the sweep.
  */
  lemma {:induction false} DrainSweeps(s: QState, order: seq<Dispatch>, k: nat, boundary: nat, size: nat)
    requires boundary <= size && OnDisk(s.rq, s.queue, size) && OneSweep(s.rq, order, boundary, size)
    requires k <= |s.queue| && forall i | 0 <= i < |order| :: Begins(s.rq, s.queue, k, order[i].rq)
    requires Swept(s.rq, s.queue, k, boundary, size)
    ensures var t := Drain(s, order);
            && t.rq == s.rq && |t.queue| == |s.queue| + |order| && t.queue[..k] == s.queue[..k]
            && OnDisk(s.rq, t.queue, size) && Swept(s.rq, t.queue, k, boundary, size)
    decreases |order|
  {
    hide SortPos, SortStop, Travel;
    if order != [] {
      var x := order[0].rq;
      var t := DispatchOne(s, order[0]);
      SortInSweeps(s.rq, s.queue, k, x, boundary, size);
      SortPosIsExact(s.rq, s.queue, k, x, boundary, size);
      forall i | 0 <= i < |order[1..]| ensures Begins(t.rq, t.queue, k, order[1..][i].rq) {
        InsertAlike(s.rq, s.queue, SortPos(s.rq, s.queue, x, boundary), k, x, order[1..][i].rq);
      }
      DrainSweeps(t, order[1..], k, boundary, size);
    }
  }

  lemma InsertAlike(m: Store, queue: seq<Id>, p: nat, k: nat, x: Id, y: Id)
    requires k <= p <= |queue| && Begins(m, queue, k, y) && Alike(m, x, y)
    ensures Begins(m, InsertAt(queue, p, x), k, y)
  {
    hide Alike;
  }
}
