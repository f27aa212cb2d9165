/**
  The allocator of request structures with its sleepers, as a state machine: each event is what
  one task does under the queue lock.  Between the two halves of an allocation the lock is
  dropped, so other events come in between.
*/
module RequestPool {
  type Task = nat

  /** One direction, synchronous or not. */
  datatype Pool = Pool(count: int, starved: bool, full: bool, sleepers: seq<Task>, woken: set<Task>,
                       allocating: set<Task>, used: nat)

  datatype State = State(sync: Pool, other: Pool)

  datatype May = No | May | Must

  function Side(s: State, sync: bool): (p: Pool) {
    if sync then s.sync else s.other
  }

  function With(s: State, sync: bool, p: Pool): (t: State) {
    if sync then s.(sync := p) else s.(other := p)
  }

  /** __freed_request: below the limit a sleeper is woken, if there is one. */
  function Notify(p: Pool, nr: nat): (r: Pool) {
    if p.count + 1 <= nr then
      if p.sleepers != [] then
        p.(full := false, sleepers := p.sleepers[1..], woken := p.woken + {p.sleepers[0]})
      else p.(full := false)
    else p
  }

  /** freed_request. */
  function Freed(s: State, sync: bool, nr: nat): (t: State) {
    var p := Side(s, sync);
    var t := With(s, sync, Notify(p.(count := p.count - 1), nr));
    var o := Side(t, !sync);
    if o.starved then With(t, !sync, Notify(o, nr)) else t
  }

  /** Whether get_request gives up before it counts the request; `batching` is what ioc_batching says. */
  predicate Refused(p: Pool, nr: nat, on: nat, may: May, batching: bool) {
    || may.No?
    || (p.count + 1 >= on && p.count + 1 >= nr && p.full && !may.Must? && !batching)
    || p.count >= 3 * nr / 2
  }

  /** rq_starved. */
  function Starve(p: Pool): (r: Pool) {
    if p.count == 0 then p.(starved := true) else p
  }

  /** The queue is marked full by the allocation that fills it, even if the hard limit then stops it. */
  function Fill(p: Pool, nr: nat, on: nat, may: May): (r: Pool) {
    if !may.No? && p.count + 1 >= on && p.count + 1 >= nr then p.(full := true) else p
  }

  function GoToSleep(p: Pool, t: Task): (r: Pool) {
    p.(sleepers := p.sleepers + [t])
  }

  /** The first half of get_request, up to dropping the lock; a task that waits goes to sleep on refusal. */
  function Try(p: Pool, t: Task, nr: nat, on: nat, may: May, batching: bool, wait: bool): (r: Pool) {
    var p' := p.(woken := p.woken - {t});
    if may.No? then (if wait then GoToSleep(Starve(p'), t) else Starve(p'))
    else if Refused(p', nr, on, may, batching) then
      var f := Fill(p', nr, on, may);
      if wait then GoToSleep(f, t) else f
    else Fill(p', nr, on, may).(count := p.count + 1, starved := false, allocating := p.allocating + {t})
  }

  /** The second half: the memory was there. */
  function Granted(p: Pool, t: Task): (r: Pool) {
    p.(allocating := p.allocating - {t}, used := p.used + 1)
  }

  /** Or it was not: everything is undone, and the task may go to sleep. */
  function Failed(s: State, sync: bool, t: Task, nr: nat, wait: bool): (u: State) {
    var p := Side(s, sync);
    var v := Freed(With(s, sync, p.(allocating := p.allocating - {t})), sync, nr);
    var q := Starve(Side(v, sync));
    With(v, sync, if wait then GoToSleep(q, t) else q)
  }

  /** A request is put back. */
  function Put(s: State, sync: bool, nr: nat): (t: State)
    requires Side(s, sync).used > 0
  {
    var p := Side(s, sync);
    Freed(With(s, sync, p.(used := p.used - 1)), sync, nr)
  }

  // ----------------------------------------------------------------- runs

  datatype Event =
    | Trying(sync: bool, t: Task, may: May, batching: bool, wait: bool)
    | Granting(sync: bool, t: Task)
    | Failing(sync: bool, t: Task, wait: bool)
    | Putting(sync: bool)

  /** A task asks only when it neither sleeps nor is in the middle of an allocation. */
  predicate Enabled(s: State, e: Event) {
    match e
    case Trying(sync, t, _, _, _) => t !in Side(s, sync).sleepers && t !in Side(s, sync).allocating
    case Granting(sync, t) => t in Side(s, sync).allocating
    case Failing(sync, t, _) => t in Side(s, sync).allocating
    case Putting(sync) => Side(s, sync).used > 0
  }

  function Step(s: State, e: Event, nr: nat, on: nat): (t: State)
    requires Enabled(s, e)
  {
    match e
    case Trying(sync, t, may, batching, wait) => With(s, sync, Try(Side(s, sync), t, nr, on, may, batching, wait))
    case Granting(sync, t) => With(s, sync, Granted(Side(s, sync), t))
    case Failing(sync, t, wait) => Failed(s, sync, t, nr, wait)
    case Putting(sync) => Put(s, sync, nr)
  }

  const EMPTY := Pool(0, false, false, [], {}, {}, 0)

  function Init(): (s: State) { State(EMPTY, EMPTY) }

  // ------------------------------------------------------------ invariant

  /** Somebody will look at the sleepers of this direction again. */
  ghost predicate NotForgotten(p: Pool) {
    p.sleepers != [] ==> p.count > 0 || p.starved || p.woken != {}
  }

  /** The queue is marked full only while it is. */
  ghost predicate Sound(p: Pool, nr: nat) {
    p.count == |p.allocating| + p.used && p.count <= 3 * nr / 2 && (p.full ==> p.count >= nr) && NotForgotten(p)
  }

  lemma NotifySound(p: Pool, nr: nat)
    requires p.count == |p.allocating| + p.used && p.count <= 3 * nr / 2 && nr >= 1
    requires (p.count > 0 ==> NotForgotten(p)) && (p.full ==> p.count + 1 >= nr)
    ensures Sound(Notify(p, nr), nr)
  {
  }

  lemma TrySound(p: Pool, t: Task, nr: nat, on: nat, may: May, batching: bool, wait: bool)
    requires Sound(p, nr) && nr >= 1 && t !in p.allocating
    ensures Sound(Try(p, t, nr, on, may, batching, wait), nr)
  {
  }

  lemma FreedSound(s: State, sync: bool, nr: nat)
    requires nr >= 1 && Sound(Side(s, !sync), nr)
    requires var p := Side(s, sync);
             && p.count - 1 == |p.allocating| + p.used && p.count <= 3 * nr / 2
             && (p.full ==> p.count >= nr) && NotForgotten(p)
    ensures Sound(Side(Freed(s, sync, nr), sync), nr) && Sound(Side(Freed(s, sync, nr), !sync), nr)
  {
    var p := Side(s, sync);
    NotifySound(p.(count := p.count - 1), nr);
    NotifySound(Side(s, !sync), nr);
  }

  lemma FailedSound(s: State, sync: bool, t: Task, nr: nat, wait: bool)
    requires nr >= 1 && Sound(s.sync, nr) && Sound(s.other, nr) && t in Side(s, sync).allocating
    ensures Sound(Failed(s, sync, t, nr, wait).sync, nr) && Sound(Failed(s, sync, t, nr, wait).other, nr)
  {
    hide Freed;
    var p := Side(s, sync);
    FreedSound(With(s, sync, p.(allocating := p.allocating - {t})), sync, nr);
  }

  lemma PutSound(s: State, sync: bool, nr: nat)
    requires nr >= 1 && Sound(s.sync, nr) && Sound(s.other, nr) && Side(s, sync).used > 0
    ensures Sound(Put(s, sync, nr).sync, nr) && Sound(Put(s, sync, nr).other, nr)
  {
    hide Freed;
    var p := Side(s, sync);
    FreedSound(With(s, sync, p.(used := p.used - 1)), sync, nr);
  }

  lemma StepSound(s: State, e: Event, nr: nat, on: nat)
    requires Enabled(s, e) && nr >= 1 && Sound(s.sync, nr) && Sound(s.other, nr)
    ensures Sound(Step(s, e, nr, on).sync, nr) && Sound(Step(s, e, nr, on).other, nr)
  {
    hide Try, Failed, Put;
    match e
    case Trying(sync, t, may, batching, wait) => TrySound(Side(s, sync), t, nr, on, may, batching, wait);
    case Granting(sync, t) =>
    case Failing(sync, t, wait) => FailedSound(s, sync, t, nr, wait);
    case Putting(sync) => PutSound(s, sync, nr);
  }

  ghost predicate Feasible(s: State, events: seq<Event>, nr: nat, on: nat)
    decreases events
  {
    events != [] ==> Enabled(s, events[0]) && Feasible(Step(s, events[0], nr, on), events[1..], nr, on)
  }

  ghost function Run(s: State, events: seq<Event>, nr: nat, on: nat): (t: State)
    requires Feasible(s, events, nr, on)
    decreases events
  {
    if events == [] then s else Run(Step(s, events[0], nr, on), events[1..], nr, on)
  }

  lemma {:induction false} RunSound(s: State, events: seq<Event>, nr: nat, on: nat)
    requires Feasible(s, events, nr, on) && nr >= 1 && Sound(s.sync, nr) && Sound(s.other, nr)
    ensures var t := Run(s, events, nr, on); Sound(t.sync, nr) && Sound(t.other, nr)
    decreases events
  {
    if events != [] {
      StepSound(s, events[0], nr, on);
      RunSound(Step(s, events[0], nr, on), events[1..], nr, on);
    }
  }

  /**
    No wakeup is lost, and the limit is hard: in every reachable state a direction holds at most
    half again as many requests as nr_requests, and a task that sleeps there un-woken has a
    request, the starved mark or a woken task to thank for its next chance.
  */
  lemma NoLostWakeup(events: seq<Event>, nr: nat, on: nat, sync: bool)
    requires Feasible(Init(), events, nr, on) && nr >= 1
    ensures var p := Side(Run(Init(), events, nr, on), sync);
            && 0 <= p.count <= 3 * nr / 2
            && (p.sleepers != [] ==> p.count > 0 || p.starved || p.woken != {})
  {
    RunSound(Init(), events, nr, on);
  }

  /** The condition on nr_requests is exact: with none at all the first task sleeps forever. */
  lemma NoRequestsForgetsSleepers(t: Task, on: nat, sync: bool)
    ensures var e := Trying(sync, t, May, false, true);
            && Feasible(Init(), [e], 0, on)
            && var p := Side(Run(Init(), [e], 0, on), sync);
               p.sleepers == [t] && p.count == 0 && !p.starved && p.woken == {}
  {
    var e := Trying(sync, t, May, false, true);
    assert [e][1..] == [];
  }

  /** A request that comes back is noticed by the sleepers of its direction, and by a starved other one. */
  lemma FreeingWakes(s: State, sync: bool, nr: nat)
    requires nr >= 1
    ensures var p, t := Side(s, sync), Freed(s, sync, nr);
            && (p.count <= nr && p.sleepers != [] ==> p.sleepers[0] in Side(t, sync).woken && !Side(t, sync).full)
            && (var o := Side(s, !sync);
                o.starved && o.count == 0 && o.sleepers != [] ==> o.sleepers[0] in Side(t, !sync).woken)
  {
  }

  // ---------------------------------------------------------- who is refused

  /** At the limit the queue is marked full. */
  ghost predicate Marked(p: Pool, nr: nat) {
    p.count >= nr ==> p.full
  }

  lemma FreedMarked(s: State, sync: bool, nr: nat)
    requires Marked(Side(s, sync), nr) && Marked(Side(s, !sync), nr)
    ensures Marked(Side(Freed(s, sync, nr), sync), nr) && Marked(Side(Freed(s, sync, nr), !sync), nr)
  {
  }

  lemma TryMarked(p: Pool, t: Task, nr: nat, on: nat, may: May, batching: bool, wait: bool)
    requires Marked(p, nr) && on <= nr
    ensures Marked(Try(p, t, nr, on, may, batching, wait), nr)
  {
  }

  lemma StepMarked(s: State, e: Event, nr: nat, on: nat)
    requires Enabled(s, e) && on <= nr && Marked(s.sync, nr) && Marked(s.other, nr)
    ensures Marked(Step(s, e, nr, on).sync, nr) && Marked(Step(s, e, nr, on).other, nr)
  {
    hide Try, Freed;
    match e
    case Trying(sync, t, may, batching, wait) => TryMarked(Side(s, sync), t, nr, on, may, batching, wait);
    case Granting(sync, t) =>
    case Failing(sync, t, wait) =>
      var p := Side(s, sync);
      FreedMarked(With(s, sync, p.(allocating := p.allocating - {t})), sync, nr);
    case Putting(sync) =>
      var p := Side(s, sync);
      FreedMarked(With(s, sync, p.(used := p.used - 1)), sync, nr);
  }

  lemma {:induction false} RunMarked(s: State, events: seq<Event>, nr: nat, on: nat)
    requires Feasible(s, events, nr, on) && on <= nr && Marked(s.sync, nr) && Marked(s.other, nr)
    ensures var t := Run(s, events, nr, on); Marked(t.sync, nr) && Marked(t.other, nr)
    decreases events
  {
    if events != [] {
      StepMarked(s, events[0], nr, on);
      RunMarked(Step(s, events[0], nr, on), events[1..], nr, on);
    }
  }

  /**
    In every reachable state a direction is marked full exactly when at least nr_requests are out, and
    a caller is refused exactly when the scheduler says no, or the direction is full and that caller is
    neither batching nor exempt, or half again as many requests are out.  The congestion threshold is
    at most nr_requests.
  */
  lemma RefusedIff(events: seq<Event>, nr: nat, on: nat, sync: bool, may: May, batching: bool)
    requires Feasible(Init(), events, nr, on) && on <= nr && nr >= 1
    ensures var p := Side(Run(Init(), events, nr, on), sync);
            && (p.full <==> p.count >= nr)
            && (Refused(p, nr, on, may, batching) <==>
                may.No? || (p.count >= nr && !may.Must? && !batching) || 2 * p.count >= 3 * nr - 1)
  {
    RunSound(Init(), events, nr, on);
    RunMarked(Init(), events, nr, on);
  }

  // ------------------------------------------------------ the request list

  /** struct request_list of a queue; the waitqueues are part of it. */
  class RequestList {
    const nr: nat
    const on: nat
    var sync: Pool
    var other: Pool

    function S(): (s: State)
      reads this
    {
      State(sync, other)
    }

    ghost predicate Valid()
      reads this
    {
      Sound(sync, nr) && Sound(other, nr)
    }

    constructor (nr: nat, on: nat)
      ensures S() == Init() && this.nr == nr && this.on == on && Valid()
    {
      this.nr, this.on := nr, on;
      sync, other := EMPTY, EMPTY;
    }

    method Set(d: bool, p: Pool)
      modifies this
      ensures S() == With(old(S()), d, p)
    {
      if d { sync := p; } else { other := p; }
    }

    /** __freed_request. */
    method NotifyFreed(d: bool)
      modifies this
      ensures S() == With(old(S()), d, Notify(Side(old(S()), d), nr))
    {
      var p := Side(S(), d);
      if p.count + 1 <= nr {
        if p.sleepers != [] {
          p := p.(sleepers := p.sleepers[1..], woken := p.woken + {p.sleepers[0]});
        }
        p := p.(full := false);
      }
      Set(d, p);
    }

    /** freed_request. */
    method FreedRequest(d: bool)
      modifies this
      ensures S() == Freed(old(S()), d, nr)
    {
      var p := Side(S(), d);
      Set(d, p.(count := p.count - 1));
      NotifyFreed(d);
      if Side(S(), !d).starved {
        NotifyFreed(!d);
      }
    }

    /** The tests of get_request on one direction. */
    method Attempt(q: Pool, t: Task, may: May, batching: bool, wait: bool) returns (p: Pool, counted: bool)
      ensures p == Try(q, t, nr, on, may, batching, wait)
      ensures counted == !Refused(q, nr, on, may, batching)
    {
      p := q.(woken := q.woken - {t});
      counted := false;
      if may.No? {
        if p.count == 0 {
          p := p.(starved := true);
        }
      } else {
        var refused := false;
        if p.count + 1 >= on && p.count + 1 >= nr {
          if !p.full {
            p := p.(full := true);
          } else if !may.Must? && !batching {
            refused := true;
          }
        }
        if !refused && p.count < 3 * nr / 2 {
          p := p.(count := p.count + 1, starved := false, allocating := p.allocating + {t});
          counted := true;
        }
      }
      if !counted && wait {
        p := p.(sleepers := p.sleepers + [t]);
      }
    }

    /** get_request up to dropping the lock, and the sleep of get_request_wait on refusal. */
    method GetRequest(d: bool, t: Task, may: May, batching: bool, wait: bool) returns (counted: bool)
      requires nr >= 1 && Valid() && Enabled(S(), Trying(d, t, may, batching, wait))
      modifies this
      ensures Valid() && S() == Step(old(S()), Trying(d, t, may, batching, wait), nr, on)
      ensures counted == !Refused(Side(old(S()), d), nr, on, may, batching)
    {
      hide Try, Refused, Sound;
      StepSound(S(), Trying(d, t, may, batching, wait), nr, on);
      var p: Pool;
      p, counted := Attempt(Side(S(), d), t, may, batching, wait);
      Set(d, p);
    }

    /** The rest of get_request, with the lock held again if the allocation failed. */
    method Allocated(d: bool, t: Task, memory: bool, wait: bool)
      requires nr >= 1 && Valid() && t in Side(S(), d).allocating
      modifies this
      ensures Valid() && S() == Step(old(S()), if memory then Granting(d, t) else Failing(d, t, wait), nr, on)
    {
      hide Freed, Notify;
      StepSound(S(), if memory then Granting(d, t) else Failing(d, t, wait), nr, on);
      var p := Side(S(), d);
      p := p.(allocating := p.allocating - {t});
      if memory {
        Set(d, p.(used := p.used + 1));
      } else {
        Set(d, p);
        FreedRequest(d);
        p := Side(S(), d);
        if p.count == 0 {
          p := p.(starved := true);
        }
        Set(d, if wait then p.(sleepers := p.sleepers + [t]) else p);
      }
    }

    /** __blk_put_request: the last reference to a request of the pool gives it back. */
    method PutRequest(d: bool, refs: nat, alloced: bool) returns (left: nat)
      requires nr >= 1 && Valid() && refs > 0 && (refs == 1 && alloced ==> Side(S(), d).used > 0)
      modifies this
      ensures left == refs - 1 && Valid()
      ensures S() == if refs == 1 && alloced then Step(old(S()), Putting(d), nr, on) else old(S())
    {
      hide Freed, Notify;
      left := refs - 1;
      if left > 0 || !alloced {
        return;
      }
      StepSound(S(), Putting(d), nr, on);
      var p := Side(S(), d);
      Set(d, p.(used := p.used - 1));
      FreedRequest(d);
    }
  }
}
