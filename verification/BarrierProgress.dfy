/**
  When barriers end.  A driver that goes on finishing what it holds and taking what it is
  offered comes to rest, and then every barrier has been ended, unless a sequence is stuck: its
  drain waits for a completion, but nothing is in flight and nothing may be handed out.
*/
module BarrierProgress {
  import opened OrderedBits
  import opened Barrier
  import opened BarrierInvariants
  import opened BarrierOrder
  import opened BarrierLog
  import opened BarrierFence

  // ----------------------------------------------------------------- work

  /** The driver finishes a request, takes one that it was shown, or is shown something new. */
  predicate Works(s: QState, e: Event) {
    Enabled(s, e) && (e.Finishing? || e.Starting? || (e.Peeking? && Peek(s) != s))
  }

  /** There is nothing for the driver to do. */
  ghost predicate Idle(s: QState) {
    forall e: Event :: !Works(s, e)
  }

  predicate WorkRun(s: QState, work: seq<Event>)
    decreases |work|
  {
    work == [] || (Works(s, work[0]) && WorkRun(Step(s, work[0]), work[1..]))
  }

  /** A request is shown, taken and finished; a hard barrier becomes up to three proxies. */
  function Cost(m: Store, x: Id): (c: nat) {
    if IsHard(m.rqs, x) then 10 else if At(m, x).started then 2 else 3
  }

  function Load(m: Store, queue: seq<Id>): (l: nat)
    decreases |queue|
  {
    if queue == [] then 0 else Cost(m, queue[0]) + Load(m, queue[1..])
  }

  /** A bound on the steps the driver can still take. */
  function Work(s: QState): (w: nat) {
    Load(s.rq, s.queue) + |s.driver|
  }

  lemma {:induction false} LoadConcat(m: Store, p: seq<Id>, q: seq<Id>)
    ensures Load(m, p + q) == Load(m, p) + Load(m, q)
    decreases |p|
  {
    if p == [] {
      assert p + q == q;
    } else {
      assert (p + q)[1..] == p[1..] + q;
      LoadConcat(m, p[1..], q);
    }
  }

  lemma {:induction false} LoadSame(m: Store, m': Store, queue: seq<Id>)
    requires forall x | x in queue :: Cost(m', x) == Cost(m, x)
    ensures Load(m', queue) == Load(m, queue)
    decreases |queue|
  {
    if queue != [] {
      assert queue[0] in queue && forall x | x in queue[1..] :: x in queue;
      LoadSame(m, m', queue[1..]);
    }
  }

  lemma {:induction false} LoadProxies(m: Store, queue: seq<Id>)
    requires forall x | x in queue :: !x.Rq?
    ensures Load(m, queue) <= 3 * |queue|
    decreases |queue|
  {
    if queue != [] {
      assert queue[0] in queue && forall x | x in queue[1..] :: x in queue;
      LoadProxies(m, queue[1..]);
    }
  }

  lemma StartedCost(s: QState, x: Id)
    requires Places(s) && x in s.queue && At(s.rq, x).started
    ensures Cost(s.rq, x) == 2
  {
  }

  lemma StartWorks(s: QState, p: nat)
    requires Core(s) && p < |s.queue| && At(s.rq, s.queue[p]).started
    ensures Work(Start(s, p)) < Work(s)
  {
    hide Book, Cost;
    var x := s.queue[p];
    assert x in s.queue;
    assert s.queue == s.queue[..p] + ([x] + s.queue[p + 1..]);
    LoadConcat(s.rq, s.queue[..p], [x] + s.queue[p + 1..]);
    LoadConcat(s.rq, s.queue[..p], s.queue[p + 1..]);
    assert ([x] + s.queue[p + 1..])[1..] == s.queue[p + 1..];
    StartedCost(s, x);
  }

  lemma FinishWorks(s: QState, x: Id, error: int)
    requires Core(s) && x in s.driver
    ensures Work(Finish(s, x, error)) < Work(s)
  {
    hide Core, Finish;
    if x.Rq? { FinishRqCompletes(s, x, error); } else { FinishProxyCompletes(s, x, error); }
  }

  lemma MarkWorks(s: QState, x: Id)
    requires Core(s) && s.queue != [] && x == s.queue[0] && !IsHard(s.rq.rqs, x)
    ensures if At(s.rq, x).started then MarkStarted(s, x) == s
            else Work(MarkStarted(s, x)) == Work(s) - 1
  {
    BookBounds(s);
    var t := MarkStarted(s, x);
    FlagsAttrs(s.rq, x, At(s.rq, x).(started := true));
    AttrsAt(s.rq, t.rq);
    forall y | y in s.queue[1..] ensures Cost(t.rq, y) == Cost(s.rq, y) {
      var i :| 0 <= i < |s.queue[1..]| && s.queue[1..][i] == y;
      assert s.queue[i + 1] != s.queue[0];
    }
    LoadSame(s.rq, t.rq, s.queue[1..]);
    if At(s.rq, x).started { SameMark(s, x); }
  }

  lemma SameMark(s: QState, x: Id)
    requires At(s.rq, x).started
    ensures MarkStarted(s, x) == s
  {
    assert At(s.rq, x).(started := true) == At(s.rq, x);
  }

  lemma BeginWorks(s: QState)
    requires Core(s) && AtHead(s)
    ensures Work(StartOrdered(s)) < Work(s)
  {
    hide Core, Masked, ProxyAttr, Proxies, Hards, StartOrdered;
    var b, t := BeginOrdered(s), StartOrdered(s);
    HeadFacts(s);
    ProxiesFacts([], b.h.begun, []);
    LoadConcat(b.rq, Proxies(b.h.begun), s.queue[1..]);
    LoadProxies(b.rq, Proxies(b.h.begun));
    forall x | x in s.queue[1..] ensures Cost(b.rq, x) == Cost(s.rq, x) {
      assert x in Items(s);
    }
    LoadSame(s.rq, b.rq, s.queue[1..]);
    BeginSkips(s);
  }

  /** A pass over the head does something: a barrier begins, or a request is shown. */
  ghost predicate Shown(s: QState)
    requires s.queue != []
  {
    AtHead(s) || (DoOrdered(s).1 == Serve && !At(s.rq, s.queue[0]).started)
  }

  lemma PeekWorks(s: QState)
    requires Core(s) && s.queue != []
    ensures if Shown(s) then Work(Peek(s)) < Work(s) else Peek(s) == s
  {
    hide Core, Work, StartOrdered, BeginOrdered;
    HeadKinds(s);
    if !AtHead(s) {
      if DoOrdered(s).1 == Serve {
        ServedNotHard(s);
        MarkWorks(s, s.queue[0]);
      }
    } else if s.nextOrdered == ORDERED_NONE {
      RejectWorks(s);
    } else {
      StartOrderedCore(s);
      BeginWorks(s);
      if StartVerdict(s) == Serve {
        ServedNotHard(s);
        MarkWorks(StartOrdered(s), StartOrdered(s).queue[0]);
      }
    }
  }

  lemma RejectWorks(s: QState)
    requires AtHead(s)
    ensures Work(Reject(s)) < Work(s)
  {
  }

  /** A hard barrier is served nowhere but at the head of an idle sequence. */
  lemma HeadKinds(s: QState)
    requires Core(s) && s.queue != []
    ensures AtHead(s) <==> s.ordseq == 0 && s.queue[0].Rq? && IsBarrier(s.rq, s.queue[0])
    ensures !AtHead(s) ==> DoOrdered(s).0 == s
  {
    assert s.queue[0] in Items(s);
  }

  /** Whatever the driver does brings it nearer to having nothing to do. */
  lemma WorkDecreases(s: QState, e: Event)
    requires Core(s) && Works(s, e)
    ensures Work(Step(s, e)) < Work(s)
  {
    hide Core, Work, Peek, Start, Finish;
    match e {
      case Peeking => PeekWorks(s);
      case Starting(p) => StartWorks(s, p);
      case Finishing(x, error) => FinishWorks(s, x, error);
    }
  }

  // ------------------------------------------------------------- at rest

  /**
    The drain of the sequence in progress waits for a completion, but nothing is in flight and
    what is at the head must wait for the end of the drain.
  */
  ghost predicate Stuck(s: QState) {
    && s.ordseq != 0 && !ByTag(s.ordered) && !IsDrained(s)
    && s.driver == {} && s.queue != [] && ReqSeq(s, s.queue[0]) > SEQ_DRAIN
    && forall x | x in s.queue :: !At(s.rq, x).started
  }

  lemma IdleFacts(s: QState)
    requires Idle(s)
    ensures s.driver == {} && (forall x | x in s.queue :: !At(s.rq, x).started)
    ensures s.queue != [] ==> Peek(s) == s
  {
    forall x | x in s.driver ensures false { assert Works(s, Finishing(x, 0)); }
    forall x | x in s.queue ensures !At(s.rq, x).started {
      var i: nat :| i < |s.queue| && s.queue[i] == x;
      assert !Works(s, Starting(i));
    }
    assert !Works(s, Peeking);
  }

  lemma IdleWaits(s: QState)
    requires Core(s) && Idle(s) && s.queue != []
    ensures s.ordseq != 0 && DoOrdered(s).1 == Wait
  {
    hide Core, Work, Peek;
    IdleFacts(s);
    PeekWorks(s);
    assert s.queue[0] in s.queue;
    HeadKinds(s);
  }

  /** Once drained, a sequence in progress waits for the proxy of its current phase. */
  lemma TurnOf(s: QState) returns (x: Id)
    requires Core(s) && s.ordseq != 0 && IsDrained(s)
    ensures !x.Rq? && Phase(x) == CurSeq(s.ordseq) && (x in s.queue || x in s.driver)
  {
    CurCases(s.ordseq);
    x := if s.ordseq & SEQ_PREFLUSH == 0 then PreFlush
         else if s.ordseq & SEQ_BAR == 0 then Bar else PostFlush;
    assert s.ordseq & Phase(x) == 0;
    assert x in Outstanding(s);
  }

  lemma IdleEmpty(s: QState)
    requires Core(s) && Fence(s) && s.driver == {} && s.queue == []
    ensures s.ordseq == 0
  {
    if s.ordseq != 0 { var x := TurnOf(s); }
  }

  lemma WaitingHead(s: QState)
    requires Core(s) && Fence(s) && s.driver == {} && s.queue != [] && s.ordseq != 0 && IsDrained(s)
    ensures DoOrdered(s).1 == Serve
  {
    hide Hards, Places;
    var x := TurnOf(s);
    var j :| 0 <= j < |s.queue| && s.queue[j] == x;
    assert s.queue[0] in Items(s);
    if j > 0 {
      assert Apart(s.rq, s.queue[0], x);
      assert Before(s, s.queue[0], x);
    }
  }

  lemma IdleStuck(s: QState)
    requires Core(s) && Fence(s) && Idle(s)
    ensures s.driver == {}
    ensures (s.queue == [] && s.ordseq == 0) || Stuck(s)
  {
    hide Core, Fence, Idle, DoOrdered;
    IdleFacts(s);
    if s.queue == [] {
      IdleEmpty(s);
    } else {
      IdleWaits(s);
      if IsDrained(s) { WaitingHead(s); } else { WaitsDrain(s); }
    }
  }

  lemma WaitsDrain(s: QState)
    requires Core(s) && Fence(s) && s.ordseq != 0 && !IsDrained(s) && s.queue != [] && DoOrdered(s).1 == Wait
    requires s.driver == {}
    ensures !ByTag(s.ordered) && ReqSeq(s, s.queue[0]) > SEQ_DRAIN
  {
    CurCases(s.ordseq);
    HeadKinds(s);
    assert s.queue[0] in Items(s);
  }

  // ------------------------------------------------------------ every run

  /** A run of work is a run, it keeps the invariants, and it is as short as `Work` says. */
  lemma {:induction false} WorkKeeps(s: QState, work: seq<Event>)
    requires Core(s) && Fence(s) && Logged(s) && WorkRun(s, work)
    ensures Run(s, work)
    ensures var t := After(s, work);
            Core(t) && Fence(t) && Logged(t) && |work| + Work(t) <= Work(s)
    decreases |work|
  {
    hide Core, Fence, Logged, Work;
    if work != [] {
      StepCore(s, work[0]);
      StepFence(s, work[0]);
      StepLogged(s, work[0]);
      WorkDecreases(s, work[0]);
      WorkKeeps(Step(s, work[0]), work[1..]);
    }
  }

  /** As long as it does what it can, the driver comes to rest. */
  lemma {:induction false} WorkEnds(s: QState) returns (work: seq<Event>)
    requires Core(s) && Fence(s) && Logged(s)
    ensures WorkRun(s, work) && Run(s, work) && Idle(After(s, work))
    decreases Work(s)
  {
    hide Core, Fence, Logged, Work, Works;
    if Idle(s) {
      work := [];
    } else {
      var e: Event :| Works(s, e);
      EnabledWork(s, e);
      StepCore(s, e);
      StepFence(s, e);
      StepLogged(s, e);
      WorkDecreases(s, e);
      var rest := WorkEnds(Step(s, e));
      work := [e] + rest;
      assert work[1..] == rest;
    }
  }

  lemma EnabledWork(s: QState, e: Event)
    requires Works(s, e)
    ensures Enabled(s, e) && DrainEvent(e)
  {
  }

  ghost predicate AllEnded(log: seq<Entry>) {
    forall n: nat | Added(n, true) in log :: EndedIn(log, n)
  }

  lemma RestEnded(s: QState)
    requires Core(s) && Logged(s) && s.driver == {} && s.queue == [] && s.ordseq == 0
    ensures AllEnded(s.h.log)
  {
    forall n: nat | Added(n, true) in s.h.log ensures EndedIn(s.h.log, n) {
      assert At(s.rq, Rq(n)) == s.rq.rqs[n];
      assert n in s.h.done;
    }
  }

  lemma InitFence(mode: bv8)
    ensures Fence(Init(mode))
  {
  }

  lemma {:induction false} FenceKeeps(s: QState, events: seq<Event>)
    requires Core(s) && Fence(s) && Logged(s) && Run(s, events)
    ensures Core(After(s, events)) && Fence(After(s, events)) && Logged(After(s, events))
    decreases |events|
  {
    hide Core, Fence, Logged;
    if events != [] {
      StepCore(s, events[0]);
      StepFence(s, events[0]);
      StepLogged(s, events[0]);
      FenceKeeps(Step(s, events[0]), events[1..]);
    }
  }

  /**
    In every run, in every mode: the driver comes to rest after at most `Work` steps of its own,
    and then every barrier has been ended, unless a drain is stuck.
  */
  lemma BarriersEndUnlessStuck(mode: bv8, events: seq<Event>, work: seq<Event>)
    requires KnownMode(mode) && Run(Init(mode), events)
    requires WorkRun(After(Init(mode), events), work)
    ensures Run(After(Init(mode), events), work)
    ensures var s := After(Init(mode), events);
            var t := After(s, work);
            && |work| <= Work(s)
            && (Idle(t) ==> AllEnded(t.h.log) || Stuck(t))
  {
    hide Core, Fence, Logged, Work, Idle, Stuck, AllEnded;
    InitGood(mode);
    InitFence(mode);
    FenceKeeps(Init(mode), events);
    var s := After(Init(mode), events);
    WorkKeeps(s, work);
    var t := After(s, work);
    if Idle(t) {
      IdleStuck(t);
      if !Stuck(t) { RestEnded(t); }
    }
  }

  // --------------------------------------------------------- drain modes

  lemma OrderNotStuck(s: QState)
    requires Core(s) && Order(s)
    ensures !Stuck(s)
  {
    if Stuck(s) {
      assert Acc(s.driver) == {};
      HeadSeq(s);
    }
  }

  lemma {:induction false} WorkOrder(s: QState, work: seq<Event>)
    requires Core(s) && Order(s) && Run(s, work) && WorkRun(s, work)
    ensures Order(After(s, work))
    decreases |work|
  {
    hide Core, Order;
    if work != [] {
      EnabledWork(s, work[0]);
      StepCore(s, work[0]);
      StepOrder(s, work[0]);
      WorkOrder(Step(s, work[0]), work[1..]);
    }
  }

  /**
    A drain-ordered queue ends every barrier: whatever has happened, a driver that finishes what
    it holds and takes what it is offered comes to rest after at most `Work` steps, and by then
    every barrier that was added has been ended.
  */
  lemma EveryBarrierEnds(mode: bv8, events: seq<Event>, work: seq<Event>)
    requires DrainMode(mode) && Run(Init(mode), events) && forall e | e in events :: DrainEvent(e)
    requires WorkRun(After(Init(mode), events), work)
    ensures Run(After(Init(mode), events), work)
    ensures var s := After(Init(mode), events);
            var t := After(s, work);
            |work| <= Work(s) && (Idle(t) ==> AllEnded(t.h.log))
  {
    hide Core, Order, Fence, Logged, Work, Idle, Stuck, AllEnded;
    InitGood(mode);
    InitFence(mode);
    BarriersEndUnlessStuck(mode, events, work);
    EveryRequestHandedRight(mode, events);
    var s := After(Init(mode), events);
    WorkOrder(s, work);
    FenceKeeps(Init(mode), events);
    WorkKeeps(s, work);
    OrderNotStuck(After(s, work));
  }

  /** What the driver may be given next while a drain-ordered sequence is in progress. */
  ghost predicate Offered(s: QState) {
    && s.queue != [] && DoOrdered(s).1 == Serve
    && if IsDrained(s)
       then !s.queue[0].Rq? && Phase(s.queue[0]) == CurSeq(s.ordseq) &&
            Due(s.h.log, s.orig, s.queue[0]) && Finished(s.queue[0], s.orig) !in s.h.log
       else Early(s, s.queue[0])
  }

  lemma OfferedDue(s: QState, x: Id)
    requires Core(s) && Logged(s) && s.ordseq != 0 && x in s.queue && !x.Rq?
    ensures Due(s.h.log, s.orig, x) && Finished(x, s.orig) !in s.h.log
  {
    assert x in Outstanding(s);
    assert Began(s.orig, s.h.begun) in s.h.log;
  }

  /**
    In every run of a drain-ordered queue, a sequence in progress has something with the driver,
    or offers it the head of the queue: while it drains a request of its own epoch, and then the
    proxy whose turn it is.
  */
  lemma DrainGoesOn(mode: bv8, events: seq<Event>)
    requires DrainMode(mode) && Run(Init(mode), events) && forall e | e in events :: DrainEvent(e)
    ensures var s := After(Init(mode), events);
            s.ordseq != 0 ==> s.driver != {} || Offered(s)
  {
    hide Core, Order, Fence, Logged, Offered;
    InitGood(mode);
    InitFence(mode);
    EveryRequestHandedRight(mode, events);
    FenceKeeps(Init(mode), events);
    var s := After(Init(mode), events);
    if s.ordseq != 0 && s.driver == {} { DrainOffers(s); }
  }

  lemma DrainOffers(s: QState)
    requires Core(s) && Order(s) && Fence(s) && Logged(s) && s.ordseq != 0 && s.driver == {}
    ensures Offered(s)
  {
    hide Fence, Logged;
    assert Acc(s.driver) == {};
    if s.queue == [] {
      IdleEmpty(s);
    } else {
      CurCases(s.ordseq);
      if IsDrained(s) { WaitingHead(s); } else { HeadSeq(s); }
      ServedInTurn(s);
      if !s.queue[0].Rq? { OfferedDue(s, s.queue[0]); }
    }
  }

  // ------------------------------------------------------ ended exactly when

  lemma EndedExactly(s: QState, n: nat)
    requires Core(s) && Logged(s) && BegunIn(s.h.log, n)
    ensures EndedIn(s.h.log, n) <==>
            (forall x: Id | Due(s.h.log, n, x) :: Finished(x, n) in s.h.log) && !(Current(s, n) && !IsDrained(s))
  {
    if EndedIn(s.h.log, n) {
      EndedDue(s.h.log, n);
    } else if IsDrained(s) {
      BegunStays(s, n);
      var x := StillDue(s);
    } else {
      BegunStays(s, n);
    }
  }

  /**
    In every run and mode: a sequence that began is over exactly when every phase that was not
    skipped has completed, that is, every proxy due has finished and no drain is in progress.
  */
  lemma EndedExactlyWhen(mode: bv8, events: seq<Event>, n: nat)
    requires KnownMode(mode) && Run(Init(mode), events) && BegunIn(After(Init(mode), events).h.log, n)
    ensures var s := After(Init(mode), events);
            EndedIn(s.h.log, n) <==>
            (forall x: Id | Due(s.h.log, n, x) :: Finished(x, n) in s.h.log) && !(Current(s, n) && !IsDrained(s))
  {
    hide Core, Logged, BegunIn, EndedIn, Due;
    InitGood(mode);
    RunKeeps(Init(mode), events);
    EndedExactly(After(Init(mode), events), n);
  }

  lemma BegunStays(s: QState, n: nat)
    requires Core(s) && Logged(s) && BegunIn(s.h.log, n)
    ensures EndedIn(s.h.log, n) <==> !Current(s, n)
  {
    var mode: bv8 :| Began(n, mode) in s.h.log;
    var k :| 0 <= k < |s.h.log| && s.h.log[k] == Began(n, mode);
    assert EndsRight(s.h.log[..k], s.h.log[k]);
    assert Added(n, true) in s.h.log;
    assert Current(s, n) ==> n !in s.h.done;
  }

  /** A sequence does not begin after its end. */
  lemma BegunBefore(log: seq<Entry>, n: nat, mode: bv8, error: int, j: nat, k: nat)
    requires AllEndRight(log) && j < |log| && k < |log| && log[j] == Ended(n, error) && log[k] == Began(n, mode)
    ensures k < j
  {
    hide FirstError, Due;
    forall i | 0 <= i < k ensures log[i] in log[..k] {
      assert log[i] == log[..k][i];
    }
    assert EndsRight(log[..k], log[k]);
  }

  lemma EndedDue(log: seq<Entry>, n: nat)
    requires AllEndRight(log) && EndedIn(log, n)
    ensures forall x: Id | Due(log, n, x) :: Finished(x, n) in log
  {
    hide FirstError, Wanted;
    var error: int :| Ended(n, error) in log;
    var j: nat :| j < |log| && log[j] == Ended(n, error);
    forall x: Id | Due(log, n, x) ensures Finished(x, n) in log {
      var mode: bv8 :| Began(n, mode) in log && mode & Wanted(x) != 0;
      var k: nat :| k < |log| && log[k] == Began(n, mode);
      BegunBefore(log, n, mode, error, j, k);
      assert EndsRight(log[..j], log[j]);
      assert log[..j][k] == Began(n, mode);
      assert Due(log[..j], n, x);
    }
  }
}
