/**
  The ordered (barrier) sequence of a request queue: block/blk-barrier.c and the
  parts of block/elevator.c and block/blk-core.c that it works together with.

  Everything here runs under the queue lock, so every operation is one step of
  a state machine over `QState`.  The class in BarrierQueue.dfy carries out the
  same steps in place.  What every run keeps is proved in BarrierInvariants.dfy,
  BarrierOrder.dfy, BarrierLog.dfy and BarrierFence.dfy, and when barriers end in
  BarrierProgress.dfy and BarrierStuck.dfy.  The order by sectors is in BarrierSweep.dfy.
*/
module OrderedBits {

  // include/linux/blkdev.h: how a barrier is ordered ...
  const BY_DRAIN: bv8 := 0x01
  const BY_TAG: bv8 := 0x02
  const DO_PREFLUSH: bv8 := 0x10
  const DO_BAR: bv8 := 0x20
  const DO_POSTFLUSH: bv8 := 0x40
  const DO_FUA: bv8 := 0x80

  const ORDERED_NONE: bv8 := 0x00
  const ORDERED_DRAIN: bv8 := BY_DRAIN | DO_BAR
  const ORDERED_DRAIN_FLUSH: bv8 := ORDERED_DRAIN | DO_PREFLUSH | DO_POSTFLUSH
  const ORDERED_DRAIN_FUA: bv8 := ORDERED_DRAIN | DO_PREFLUSH | DO_FUA
  const ORDERED_TAG: bv8 := BY_TAG | DO_BAR
  const ORDERED_TAG_FLUSH: bv8 := ORDERED_TAG | DO_PREFLUSH | DO_POSTFLUSH
  const ORDERED_TAG_FUA: bv8 := ORDERED_TAG | DO_PREFLUSH | DO_FUA

  // ... and the phases of a sequence in progress.
  const SEQ_STARTED: bv8 := 0x01
  const SEQ_DRAIN: bv8 := 0x02
  const SEQ_PREFLUSH: bv8 := 0x04
  const SEQ_BAR: bv8 := 0x08
  const SEQ_POSTFLUSH: bv8 := 0x10
  const SEQ_DONE: bv8 := 0x20

  /** The modes blk_queue_ordered accepts. */
  predicate DrainMode(mode: bv8) {
    mode == ORDERED_DRAIN || mode == ORDERED_DRAIN_FLUSH || mode == ORDERED_DRAIN_FUA
  }

  predicate KnownMode(mode: bv8) {
    DrainMode(mode) || mode == ORDERED_NONE ||
    mode == ORDERED_TAG || mode == ORDERED_TAG_FLUSH || mode == ORDERED_TAG_FUA
  }

  /** blk_ordered_cur_seq: `1 << ffz(ordseq)`, the lowest phase not yet reached. */
  function CurSeq(ordseq: bv8): (cur: bv8) {
    if ordseq == 0 then 0 else !ordseq & (ordseq + 1)
  }

  /** The mode start_ordered runs a barrier in: an empty barrier writes no data. */
  function Masked(mode: bv8, empty: bool): (m: bv8)
    ensures !empty ==> m == mode
    ensures m & DO_PREFLUSH == mode & DO_PREFLUSH
    ensures empty ==> m & DO_BAR == 0 && m & DO_POSTFLUSH == 0
    ensures DrainMode(mode) ==> m & BY_DRAIN != 0 && m & BY_TAG == 0
  {
    if !empty then mode
    else
      var m := mode & !(DO_BAR | DO_POSTFLUSH);
      if m & BY_TAG != 0 && m & DO_PREFLUSH == 0 then (m & !BY_TAG) | BY_DRAIN else m
  }
}

module Barrier {
  import opened NumberLists
  import opened OrderedBits

  /** A request: one of the file system, or one of the three proxies in the queue. */
  datatype Id = Rq(n: nat) | PreFlush | Bar | PostFlush

  /**
    The fields of a request that the barrier code reads.  `epoch` is history: the
    number of hard barriers added before the request.  No operation reads it.
  */
  datatype Attr = Attr(
    epoch: nat,
    sector: nat,
    write: bool,
    discard: bool,
    empty: bool,      // blk_rq_sectors(rq) == 0
    hard: bool,       // REQ_HARDBARRIER
    soft: bool,       // REQ_SOFTBARRIER
    started: bool,    // REQ_STARTED
    color: bool       // REQ_ORDERED_COLOR
  )

  const NO_ATTR := Attr(0, 0, false, false, true, false, false, false, false)

  /**
    What a run has done so far, oldest entry first.  `n` numbers a request; the entries
    of a proxy carry the number of the barrier it works for.
  */
  datatype Entry =
    | Added(n: nat, hard: bool)
    | Began(n: nat, mode: bv8)
    | Handed(id: Id, n: nat)
    | Requeued(id: Id, n: nat)
    | Finished(id: Id, n: nat)
    | Failed(n: nat, error: int)
    | Ended(n: nat, error: int)

  datatype Store = Store(
    rqs: seq<Attr>,           // file system requests, in the order of addition
    pre: Attr,                // q->pre_flush_rq
    bar: Attr,                // q->bar_rq
    post: Attr                // q->post_flush_rq
  )

  /** The past of a run, read by no operation. */
  datatype History = History(
    ended: nat,               // hard barriers ended
    done: set<nat>,           // completed requests and ended barriers
    begun: bv8,               // the mode the last sequence began with
    finished: set<Id>,        // proxies finished since then
    log: seq<Entry>
  )

  datatype QState = QState(
    queue: seq<Id>,           // q->queue_head
    sched: set<Id>,           // requests held by the I/O scheduler
    driver: set<Id>,          // dequeued and not yet completed or requeued
    inFlight: int,            // queue_in_flight(q)
    ordcolor: bool,
    nextOrdered: bv8,
    ordered: bv8,
    ordseq: bv8,
    orderr: int,
    orig: nat,                // q->orig_bar_rq
    rq: Store,                // the fields of all requests
    barriers: nat,            // history: hard barriers added
    h: History
  )

  const EOPNOTSUPP: int := 95

  function At(m: Store, x: Id): (a: Attr) {
    match x
    case Rq(n) => if n < |m.rqs| then m.rqs[n] else NO_ATTR
    case PreFlush => m.pre
    case Bar => m.bar
    case PostFlush => m.post
  }

  function SetAt(m: Store, x: Id, a: Attr): (m': Store)
    ensures |m'.rqs| == |m.rqs|
    ensures (x.Rq? ==> x.n < |m.rqs|) ==> At(m', x) == a
    ensures forall y | y != x :: At(m', y) == At(m, y)
  {
    match x
    case Rq(n) => if n < |m.rqs| then m.(rqs := m.rqs[n := a]) else m
    case PreFlush => m.(pre := a)
    case Bar => m.(bar := a)
    case PostFlush => m.(post := a)
  }

  function Number(s: QState, x: Id): (n: nat) {
    if x.Rq? then x.n else s.orig
  }

  // ---------------------------------------------------------------- phases

  /** The bit of ordseq that the completion of a proxy sets. */
  function Phase(x: Id): (p: bv8)
    requires !x.Rq?
    ensures p == SEQ_PREFLUSH || p == SEQ_BAR || p == SEQ_POSTFLUSH
  {
    match x
    case PreFlush => SEQ_PREFLUSH
    case Bar => SEQ_BAR
    case PostFlush => SEQ_POSTFLUSH
  }

  /** The bit of the ordered mode that asks for a proxy. */
  function Wanted(x: Id): (p: bv8)
    requires !x.Rq?
  {
    match x
    case PreFlush => DO_PREFLUSH
    case Bar => DO_BAR
    case PostFlush => DO_POSTFLUSH
  }

  /** blk_ordered_req_seq, for a queue of file system requests and proxies. */
  function ReqSeq(s: QState, x: Id): (p: bv8) {
    if !x.Rq? then Phase(x)
    else if At(s.rq, x).color == At(s.rq, Rq(s.orig)).color then SEQ_DRAIN
    else SEQ_DONE
  }

  /** blk_account_rq: flushes are not file system requests and are not counted. */
  predicate Accounted(m: Store, x: Id) {
    At(m, x).started && (x.Rq? || x.Bar?)
  }

  predicate IsBarrier(m: Store, x: Id) {
    (x.Rq? || x.Bar?) && At(m, x).hard
  }

  // ------------------------------------------------------------- insertion

  /** The break conditions of the backward walk in elv_dispatch_sort. */
  predicate SortStop(pos: Attr, rq: Attr, boundary: nat) {
    || rq.discard != pos.discard
    || rq.write != pos.write
    || pos.soft || pos.hard || pos.started
    || (if rq.sector >= boundary then pos.sector >= boundary && rq.sector >= pos.sector
        else pos.sector >= boundary || rq.sector >= pos.sector)
  }

  /** Where elv_dispatch_sort puts a request: never in front of a stop flag. */
  function SortPos(m: Store, queue: seq<Id>, x: Id, boundary: nat): (p: nat)
    ensures p <= |queue|
    ensures forall i | p <= i < |queue| :: !SortStop(At(m, queue[i]), At(m, x), boundary)
    ensures p > 0 ==> SortStop(At(m, queue[p - 1]), At(m, x), boundary)
    decreases |queue|
  {
    if queue == [] then 0
    else if SortStop(At(m, queue[|queue| - 1]), At(m, x), boundary) then |queue|
    else SortPos(m, queue[..|queue| - 1], x, boundary)
  }

  /** Where ELEVATOR_INSERT_REQUEUE puts a request while a sequence is in progress. */
  function RequeuePos(s: QState, queue: seq<Id>, x: Id): (p: nat)
    ensures p <= |queue|
    ensures forall i | 0 <= i < p :: ReqSeq(s, queue[i]) < ReqSeq(s, x)
    ensures p < |queue| ==> ReqSeq(s, x) <= ReqSeq(s, queue[p])
    decreases |queue|
  {
    if queue == [] || ReqSeq(s, x) <= ReqSeq(s, queue[0]) then 0
    else 1 + RequeuePos(s, queue[1..], x)
  }

  /** One request leaving the scheduler: elv_dispatch_add_tail or elv_dispatch_sort. */
  datatype Dispatch = AtTail(rq: Id) | SortIn(rq: Id, boundary: nat)

  function DispatchPos(m: Store, queue: seq<Id>, d: Dispatch): (p: nat)
    ensures p <= |queue|
    ensures forall i | p <= i < |queue| ::
              var a := At(m, queue[i]); !a.soft && !a.hard && !a.started
  {
    if d.AtTail? then |queue| else SortPos(m, queue, d.rq, d.boundary)
  }

  function DispatchOne(s: QState, d: Dispatch): (t: QState) {
    s.(queue := InsertAt(s.queue, DispatchPos(s.rq, s.queue, d), d.rq), sched := s.sched - {d.rq})
  }

  /** elv_drain_elevator: the scheduler gives up its requests in an order of its own. */
  function Drain(s: QState, order: seq<Dispatch>): (t: QState)
    decreases |order|
  {
    if order == [] then s else Drain(DispatchOne(s, order[0]), order[1..])
  }

  /** Dispatching in this order leaves `rest` with the scheduler. */
  predicate DrainsTo(sched: set<Id>, order: seq<Dispatch>, rest: set<Id>)
    decreases |order|
  {
    if order == [] then sched == rest
    else order[0].rq in sched && DrainsTo(sched - {order[0].rq}, order[1..], rest)
  }

  datatype NewRequest = NewRequest(
    sector: nat, write: bool, discard: bool, empty: bool, hard: bool, soft: bool, elvpriv: bool)

  predicate GoesBack(a: NewRequest) {
    a.hard || a.soft || !a.elvpriv
  }

  /** elv_insert of the request numbered |s.rq.rqs|, once the scheduler has been drained if it must. */
  function Insert(s: QState, a: NewRequest): (t: QState) {
    var x := Rq(|s.rq.rqs|);
    var attr := Attr(s.barriers, a.sector, a.write, a.discard, a.empty,
                     a.hard, GoesBack(a), false, s.ordcolor);
    s.(rq := s.rq.(rqs := s.rq.rqs + [attr]),
       queue := if GoesBack(a) then s.queue + [x] else s.queue,
       sched := if GoesBack(a) then s.sched else s.sched + {x},
       ordcolor := if a.hard then !s.ordcolor else s.ordcolor,
       barriers := if a.hard then s.barriers + 1 else s.barriers,
       h := s.h.(log := s.h.log + [Added(x.n, a.hard)]))
  }

  /** __elv_add_request of a file system request with ELEVATOR_INSERT_SORT. */
  function AddRequest(s: QState, a: NewRequest, order: seq<Dispatch>): (t: QState) {
    Insert(if GoesBack(a) then Drain(s, order) else s, a)
  }

  /** A request goes from the driver back into the dispatch queue. */
  function TakeBack(s: QState, x: Id): (t: QState) {
    s.(driver := s.driver - {x},
       inFlight := if Accounted(s.rq, x) then s.inFlight - 1 else s.inFlight,
       queue := InsertAt(s.queue, if s.ordseq == 0 then 0 else RequeuePos(s, s.queue, x), x),
       h := s.h.(log := s.h.log + [Requeued(x, Number(s, x))]))
  }

  /** elv_requeue_request, ELEVATOR_INSERT_REQUEUE. */
  function Requeue(s: QState, x: Id): (t: QState) {
    TakeBack(s, x).(rq := SetAt(s.rq, x, At(s.rq, x).(started := false, soft := true)))
  }

  // -------------------------------------------------------------- sequence

  /** q->orderr keeps the first error of the sequence. */
  function RecordError(s: QState, error: int): (t: QState)
    ensures t.queue == s.queue && t.sched == s.sched && t.driver == s.driver && t.inFlight == s.inFlight
    ensures t.rq == s.rq && t.orig == s.orig && t.h.begun == s.h.begun && t.h.finished == s.h.finished
    ensures t.ordcolor == s.ordcolor && t.nextOrdered == s.nextOrdered && t.ordered == s.ordered
    ensures t.barriers == s.barriers
    ensures t.ordseq == s.ordseq && t.h.ended == s.h.ended && t.h.done == s.h.done
  {
    s.(orderr := if error != 0 && s.orderr == 0 then error else s.orderr,
       h := if error != 0 then s.h.(log := s.h.log + [Failed(s.orig, error)]) else s.h)
  }

  function EndBarrier(h: History, n: nat, error: int): (h': History) {
    h.(ended := h.ended + 1, done := h.done + {n}, log := h.log + [Ended(n, error)])
  }

  /** Set the bits of completed phases; with the last one the original barrier is ended. */
  function Advance(s: QState, bits: bv8): (t: QState)
    ensures t.queue == s.queue && t.sched == s.sched && t.driver == s.driver && t.inFlight == s.inFlight
    ensures t.rq == s.rq && t.orig == s.orig && t.h.begun == s.h.begun && t.h.finished == s.h.finished
    ensures t.ordcolor == s.ordcolor && t.nextOrdered == s.nextOrdered && t.ordered == s.ordered
    ensures t.barriers == s.barriers
    ensures t.orderr == s.orderr
  {
    if CurSeq(s.ordseq | bits) != SEQ_DONE then s.(ordseq := s.ordseq | bits)
    else s.(ordseq := 0, h := EndBarrier(s.h, s.orig, s.orderr))
  }

  /** blk_ordered_complete_seq; the sequence is complete when ordseq ends up 0. */
  function CompleteSeq(s: QState, bits: bv8, error: int): (t: QState)
    ensures t.queue == s.queue && t.sched == s.sched && t.driver == s.driver && t.inFlight == s.inFlight
    ensures t.rq == s.rq && t.orig == s.orig && t.h.begun == s.h.begun && t.h.finished == s.h.finished
    ensures t.ordcolor == s.ordcolor && t.nextOrdered == s.nextOrdered && t.ordered == s.ordered
    ensures t.barriers == s.barriers
  {
    Advance(RecordError(s, error), bits)
  }

  /** The test by which elv_completed_request ends the drain phase. */
  predicate Drained(s: QState) {
    && s.ordseq != 0 && s.inFlight == 0 && CurSeq(s.ordseq) == SEQ_DRAIN
    && (s.queue == [] || ReqSeq(s, s.queue[0]) > SEQ_DRAIN)
  }

  /** elv_completed_request, second half: is the queue waiting for this drain? */
  function CheckDrained(s: QState): (t: QState) {
    if Drained(s) then CompleteSeq(s, SEQ_DRAIN, 0) else s
  }

  /** A flush has only REQ_HARDBARRIER; bar_rq is set up from the bio of the barrier. */
  function ProxyAttr(x: Id, orig: Attr): (a: Attr) {
    Attr(orig.epoch, orig.sector, x == Bar && orig.write, false, false, true, true, false, false)
  }

  /** The proxies start_ordered stacks at the head of the queue, in queue order. */
  function Proxies(mode: bv8): (p: seq<Id>) {
    (if mode & DO_PREFLUSH != 0 then [PreFlush] else []) +
    (if mode & DO_BAR != 0 then [Bar] else []) +
    (if mode & DO_POSTFLUSH != 0 then [PostFlush] else [])
  }

  /** The phases that start_ordered completes at once. */
  function Skip(mode: bv8, inFlight: int): (skip: bv8) {
    (if mode & DO_POSTFLUSH != 0 then 0 else SEQ_POSTFLUSH) |
    (if mode & DO_BAR != 0 then 0 else SEQ_BAR) |
    (if mode & DO_PREFLUSH != 0 then 0 else SEQ_PREFLUSH) |
    (if mode & BY_DRAIN != 0 && inFlight != 0 then 0 else SEQ_DRAIN)
  }

  /** start_ordered on the barrier at the head of the queue, up to the completion of `skip`. */
  function BeginOrdered(s: QState): (t: QState)
    requires s.queue != [] && s.queue[0].Rq?
  {
    var x := s.queue[0];
    var a := At(s.rq, x);
    var mode := Masked(s.nextOrdered, a.empty);
    s.(orderr := 0, ordered := mode, ordseq := s.ordseq | SEQ_STARTED, orig := x.n,
       inFlight := if Accounted(s.rq, x) then s.inFlight + 1 else s.inFlight,
       queue := Proxies(mode) + s.queue[1..],
       rq := s.rq.(pre := if mode & DO_PREFLUSH != 0 then ProxyAttr(PreFlush, a) else s.rq.pre,
                   bar := if mode & DO_BAR != 0 then ProxyAttr(Bar, a) else s.rq.bar,
                   post := if mode & DO_POSTFLUSH != 0 then ProxyAttr(PostFlush, a) else s.rq.post),
       h := s.h.(begun := mode, finished := {}, log := s.h.log + [Began(x.n, mode)]))
  }

  function StartOrdered(s: QState): (t: QState)
    requires s.queue != [] && s.queue[0].Rq?
  {
    var s1 := BeginOrdered(s);
    CompleteSeq(s1, Skip(s1.ordered, s1.inFlight), 0)
  }

  /** blk_do_ordered with ordseq == 0 on a barrier and no ordering support. */
  function Reject(s: QState): (t: QState)
    requires s.queue != [] && s.queue[0].Rq?
  {
    var n := s.queue[0].n;
    s.(queue := s.queue[1..], h := EndBarrier(s.h, n, -EOPNOTSUPP))
  }

  datatype Verdict = Gone | Wait | Serve

  /** start_ordered's *rqp: the first proxy, unless there is a drain to wait for. */
  function StartVerdict(s: QState): (v: Verdict)
    requires s.queue != [] && s.queue[0].Rq?
  {
    var s1 := BeginOrdered(s);
    if StartOrdered(s).ordseq == 0 then Gone
    else if (s1.ordered & BY_DRAIN != 0 && s1.inFlight != 0) || Proxies(s1.ordered) == [] then Wait
    else Serve
  }

  /**
    blk_do_ordered on the head of the queue.  `Gone` is its `false`, `Wait` a NULL *rqp,
    and `Serve` hands out what is now the head of the queue.
  */
  function DoOrdered(s: QState): (r: (QState, Verdict))
    requires s.queue != []
    ensures r.1 == Serve ==> r.0.queue != []
  {
    var x := s.queue[0];
    if s.ordseq == 0 then
      if !x.Rq? || !IsBarrier(s.rq, x) then (s, Serve)
      else if s.nextOrdered != ORDERED_NONE then (StartOrdered(s), StartVerdict(s))
      else (Reject(s), Gone)
    else if s.ordered & BY_TAG != 0 then
      (s, if IsBarrier(s.rq, x) && x != Bar then Wait else Serve)
    else
      (s, if ReqSeq(s, x) > CurSeq(s.ordseq) then Wait else Serve)
  }

  function MarkStarted(s: QState, x: Id): (t: QState) {
    s.(rq := SetAt(s.rq, x, At(s.rq, x).(started := true)))
  }

  /** One pass of __elv_next_request over the head; blk_peek_request marks it started. */
  function Peek(s: QState): (t: QState)
    requires s.queue != []
  {
    var (s1, v) := DoOrdered(s);
    if v == Serve then MarkStarted(s1, s1.queue[0]) else s1
  }

  /** blk_start_request: the driver takes a request that a peek has shown it. */
  function Start(s: QState, p: nat): (t: QState)
    requires p < |s.queue|
  {
    var x := s.queue[p];
    s.(queue := s.queue[..p] + s.queue[p + 1..],
       driver := s.driver + {x},
       inFlight := if Accounted(s.rq, x) then s.inFlight + 1 else s.inFlight,
       h := s.h.(log := s.h.log + [Handed(x, Number(s, x))]))
  }

  /** elv_completed_request, first half: the request is released from the driver. */
  function Release(s: QState, x: Id): (t: QState) {
    s.(driver := s.driver - {x},
       inFlight := if Accounted(s.rq, x) then s.inFlight - 1 else s.inFlight,
       h := s.h.(done := if x.Rq? then s.h.done + {x.n} else s.h.done,
                 finished := if x.Rq? then s.h.finished else s.h.finished + {x},
                 log := s.h.log + [Finished(x, Number(s, x))]))
  }

  /** The end of a request: __blk_put_request, or the end_io of a proxy. */
  function Finish(s: QState, x: Id, error: int): (t: QState) {
    var s1 := CheckDrained(Release(s, x));
    if x.Rq? then s1 else CompleteSeq(s1, Phase(x), error)
  }

  // ------------------------------------------------------------------ runs

  datatype Event =
    | Add(a: NewRequest, order: seq<Dispatch>)
    | Dispatching(d: Dispatch)
    | Peeking
    | Starting(p: nat)
    | Requeueing(rq: Id)
    | Finishing(rq: Id, error: int)
    | BarPart(error: int)
    | SetOrdered(mode: bv8)

  /** What the scheduler and the driver may do next. */
  predicate Enabled(s: QState, e: Event) {
    match e
    case Add(a, order) => GoesBack(a) ==> DrainsTo(s.sched, order, {})
    case Dispatching(d) => d.rq in s.sched
    case Peeking => s.queue != []
    case Starting(p) => p < |s.queue| && At(s.rq, s.queue[p]).started
    case Requeueing(x) => x in s.driver
    case Finishing(x, _) => x in s.driver
    case BarPart(_) => Bar in s.driver
    case SetOrdered(mode) => KnownMode(mode)
  }

  function Step(s: QState, e: Event): (t: QState)
    requires Enabled(s, e)
  {
    match e
    case Add(a, order) => AddRequest(s, a, order)
    case Dispatching(d) => DispatchOne(s, d)
    case Peeking => Peek(s)
    case Starting(p) => Start(s, p)
    case Requeueing(x) => Requeue(s, x)
    case Finishing(x, error) => Finish(s, x, error)
    case BarPart(error) => RecordError(s, error)  // req_bio_endio on a part of bar_rq
    case SetOrdered(mode) => s.(ordered := mode, nextOrdered := mode)
  }

  function Init(mode: bv8): (s: QState) {
    QState([], {}, {}, 0, false, mode, mode, 0, 0, 0,
           Store([], NO_ATTR, NO_ATTR, NO_ATTR), 0, History(0, {}, 0, {}, []))
  }

  /** `events` can be taken one after the other from `s`. */
  predicate Run(s: QState, events: seq<Event>)
    decreases |events|
  {
    events == [] || (Enabled(s, events[0]) && Run(Step(s, events[0]), events[1..]))
  }

  function After(s: QState, events: seq<Event>): (t: QState)
    requires Run(s, events)
    decreases |events|
  {
    if events == [] then s else After(Step(s, events[0]), events[1..])
  }
}
