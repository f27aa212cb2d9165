/** Expiry times: each FIFO is ordered by them, so looking at its head finds every expired request. */
module DeadlineTimes {
  import opened NumberLists
  import opened Deadline
  import opened DeadlineInvariants

  ghost predicate Due(m: map<Id, Req>, q: seq<Id>, limit: nat) {
    && (forall x | x in q :: x in m && m[x].expires <= limit)
    && (forall i, j | 0 <= i < j < |q| :: m[q[i]].expires <= m[q[j]].expires)
  }

  ghost predicate Timely(c: Tunables, s: State) {
    Due(s.rq, s.read.fifo, s.now + c.readExpire) && Due(s.rq, s.write.fifo, s.now + c.writeExpire)
  }

  ghost predicate SameTimes(m: map<Id, Req>, m': map<Id, Req>, q: seq<Id>) {
    forall x | x in q :: x in m && x in m' && m[x].expires == m'[x].expires
  }

  lemma DueAlike(m: map<Id, Req>, m': map<Id, Req>, q: seq<Id>, limit: nat, limit': nat)
    requires Due(m, q, limit) && SameTimes(m, m', q) && limit <= limit'
    ensures Due(m', q, limit')
  {
  }

  lemma DueRemoved(m: map<Id, Req>, q: seq<Id>, limit: nat, x: Id)
    requires Due(m, q, limit) && x in q
    ensures Due(m, Without(q, x), limit)
  {
    var r := Without(q, x);
    forall y | y in r
      ensures y in m && m[y].expires <= limit
    {
      assert y in q;
    }
  }

  lemma DueAppended(m: map<Id, Req>, q: seq<Id>, limit: nat, x: Id)
    requires Due(m, q, limit) && x in m && m[x].expires == limit
    ensures Due(m, q + [x], limit)
  {
  }

  /** x takes the place of n together with its expiry time. */
  lemma DueReplaced(m: map<Id, Req>, m': map<Id, Req>, q: seq<Id>, limit: nat, i: nat, x: Id)
    requires Due(m, q, limit) && i < |q| && x !in q && x in m'
    requires SameTimes(m, m', q) && m'[x].expires == m[q[i]].expires
    ensures Due(m', q[i := x], limit)
  {
    var r := q[i := x];
    forall y | y in r
      ensures y in m' && m'[y].expires <= limit
    {
      assert y in q || y == x;
    }
    forall a, b | 0 <= a < b < |r|
      ensures m'[r[a]].expires <= m'[r[b]].expires
    {
      assert m'[r[a]].expires == m[q[a]].expires && m'[r[b]].expires == m[q[b]].expires;
    }
  }

  /** The FIFOs that deadline_add_rq_rb leaves. */
  lemma AddRbFifo(s: State, x: Id)
    requires Open(s, x)
    ensures var w := s.rq[x].write;
            var a := Alias(s.rq, Side(s, w).tree, s.rq[x].pos);
            && Side(AddRb(s, x), w).fifo == (if a.None? then Side(s, w).fifo else Without(Side(s, w).fifo, a.value))
            && Side(AddRb(s, x), !w).fifo == Side(s, !w).fifo
    ensures AddRb(s, x).rq == s.rq && AddRb(s, x).now == s.now
  {
    hide Without, Place, Latter;
  }

  lemma AddRbTimely(c: Tunables, s: State, x: Id)
    requires Open(s, x) && Timely(c, s)
    ensures Timely(c, AddRb(s, x))
  {
    hide Due, AddRb, Without;
    AddRbFifo(s, x);
    var w := s.rq[x].write;
    var a := Alias(s.rq, Side(s, w).tree, s.rq[x].pos);
    if a.Some? {
      DueRemoved(s.rq, Side(s, w).fifo, s.now + Expire(c, w), a.value);
    }
  }

  /** A request that is not queued can be described anew. */
  lemma Described(c: Tunables, s: State, x: Id, req: Req)
    requires Valid(s) && Timely(c, s) && !Holds(s, x)
    ensures var s0 := s.(rq := s.rq[x := req], sorted := s.sorted + 1); Open(s0, x) && Timely(c, s0)
  {
    hide Due, Tree, Valid, Good, Holds;
    ValidKnows(s);
    var m := s.rq[x := req];
    TreeAlike(s.rq, m, Side(s, req.write).tree, req.write);
    DueAlike(s.rq, m, s.read.fifo, s.now + c.readExpire, s.now + c.readExpire);
    DueAlike(s.rq, m, s.write.fifo, s.now + c.writeExpire, s.now + c.writeExpire);
  }

  lemma AddTimely(c: Tunables, s: State, x: Id, write: bool, pos: nat, end: nat)
    requires Valid(s) && Timely(c, s) && !Holds(s, x)
    ensures Timely(c, Add(c, s, x, write, pos, end))
  {
    hide Due, AddRb, Valid, Open, Holds;
    var req := Req(write, pos, end, s.now + Expire(c, write));
    Described(c, s, x, req);
    var s0 := s.(rq := s.rq[x := req], sorted := s.sorted + 1);
    AddRbTimely(c, s0, x);
    AddRbClock(s0, x);
    DueAppended(s0.rq, Side(AddRb(s0, x), write).fifo, s.now + Expire(c, write), x);
  }

  lemma AddRbClock(s: State, x: Id)
    requires Open(s, x)
    ensures AddRb(s, x).rq == s.rq && AddRb(s, x).now == s.now
  {
    AddRbFifo(s, x);
  }

  lemma FrontMergedTimely(c: Tunables, s: State, x: Id, pos: nat)
    requires Valid(s) && Timely(c, s) && Holds(s, x)
    ensures Timely(c, FrontMerged(s, x, pos))
  {
    hide Due, AddRb, Tree, Valid, Good;
    ValidKnows(s);
    var w := s.rq[x].write;
    var l := Side(s, w);
    TreeRemoved(s.rq, l.tree, w, x);
    var m := s.rq[x := s.rq[x].(pos := pos)];
    var l' := l.(tree := Without(l.tree, x));
    TreeAlike(s.rq, m, l'.tree, w);
    DueAlike(s.rq, m, s.read.fifo, s.now + c.readExpire, s.now + c.readExpire);
    DueAlike(s.rq, m, s.write.fifo, s.now + c.writeExpire, s.now + c.writeExpire);
    AddRbTimely(c, WithSide(s, w, l').(rq := m), x);
  }

  lemma BackMergedTimely(c: Tunables, s: State, x: Id, end: nat)
    requires Valid(s) && Timely(c, s) && Holds(s, x)
    ensures Timely(c, BackMerged(s, x, end))
  {
    hide Due, Tree, Valid, Good;
    ValidKnows(s);
    var m := BackMerged(s, x, end).rq;
    DueAlike(s.rq, m, s.read.fifo, s.now + c.readExpire, s.now + c.readExpire);
    DueAlike(s.rq, m, s.write.fifo, s.now + c.writeExpire, s.now + c.writeExpire);
  }

  lemma TakenOverDue(m: map<Id, Req>, m': map<Id, Req>, q: seq<Id>, limit: nat, x: Id, n: Id)
    requires Due(m, q, limit) && Distinct(q) && x in q && n in q && x != n
    requires x in m' && m' == m[x := m'[x]] && x in m && n in m
    requires m'[x].expires == if m[n].expires < m[x].expires then m[n].expires else m[x].expires
    ensures n in Without(q, x)
    ensures var q' := if m[n].expires < m[x].expires then MoveBehind(q, x, n) else q;
            n in q' && Due(m', Without(q', n), limit)
  {
    TakesPlace(q, x, n);
    hide Due, MoveBehind;
    if m[n].expires < m[x].expires {
      var q' := Without(q, x);
      DueRemoved(m, q, limit, x);
      DueReplaced(m, m', q', limit, Index(q', n), x);
    } else {
      DueRemoved(m, q, limit, n);
      Removed(q, Index(q, n));
      DueAlike(m, m', Without(q, n), limit, limit);
    }
  }

  lemma MergedParts(s: State, x: Id, n: Id)
    requires Valid(s) && Enabled(s, Merging(x, n))
    ensures var t, w := MergedRequests(s, x, n), s.rq[x].write;
            && x in t.rq && t.rq == s.rq[x := t.rq[x]] && t.now == s.now && Side(t, !w) == Side(s, !w)
            && t.rq[x].expires == (if s.rq[n].expires < s.rq[x].expires then s.rq[n].expires else s.rq[x].expires)
            && n in Without(Side(s, w).fifo, x)
            && var q := if s.rq[n].expires < s.rq[x].expires then MoveBehind(Side(s, w).fifo, x, n) else Side(s, w).fifo;
               n in q && Side(t, w).fifo == Without(q, n)
  {
    TakesPlace(Side(s, s.rq[x].write).fifo, x, n);
  }

  lemma MergedRequestsTimely(c: Tunables, s: State, x: Id, n: Id)
    requires Valid(s) && Timely(c, s) && Enabled(s, Merging(x, n))
    ensures Timely(c, MergedRequests(s, x, n))
  {
    hide Due, MoveBehind, Valid, Good, Tree, Without, MergedRequests, Distinct;
    ValidKnows(s);
    MergedParts(s, x, n);
    var w := s.rq[x].write;
    var m' := MergedRequests(s, x, n).rq;
    TakenOverDue(s.rq, m', Side(s, w).fifo, s.now + Expire(c, w), x, n);
    DueAlike(s.rq, m', Side(s, !w).fifo, s.now + Expire(c, !w), s.now + Expire(c, !w));
  }

  lemma DispatchTimely(c: Tunables, s: State)
    requires Valid(s) && Timely(c, s)
    ensures Timely(c, Dispatch(c, s))
  {
    hide Due, Tree, Valid, Good, Choose, Without;
    ValidKnows(s);
    ChosenIsHeld(c, s);
    var d := Choose(c, s);
    if d.Choice? {
      var w := s.rq[d.x].write;
      DueRemoved(s.rq, Side(s, w).fifo, s.now + Expire(c, w), d.x);
    }
  }

  lemma StepTimely(c: Tunables, s: State, e: Event)
    requires Valid(s) && Timely(c, s) && Enabled(s, e)
    ensures Timely(c, Step(c, s, e))
  {
    match e
    case Adding(x, write, pos, end) => AddTimely(c, s, x, write, pos, end);
    case FrontMerging(x, pos) => FrontMergedTimely(c, s, x, pos);
    case BackMerging(x, end) => BackMergedTimely(c, s, x, end);
    case Merging(x, n) => MergedRequestsTimely(c, s, x, n);
    case Dispatching => DispatchTimely(c, s);
    case Ticking(now) =>
      DueAlike(s.rq, s.rq, s.read.fifo, s.now + c.readExpire, now + c.readExpire);
      DueAlike(s.rq, s.rq, s.write.fifo, s.now + c.writeExpire, now + c.writeExpire);
  }

  lemma {:induction false} RunTimely(c: Tunables, s: State, events: seq<Event>)
    requires Valid(s) && Timely(c, s) && Feasible(c, s, events)
    ensures Timely(c, Run(c, s, events))
    decreases events
  {
    if events != [] {
      StepTimely(c, s, events[0]);
      StepValid(c, s, events[0]);
      RunTimely(c, Step(c, s, events[0]), events[1..]);
    }
  }

  /**
    In every reachable state, a dispatch that starts a new batch takes the request with the
    earliest expiry time of the direction it serves whenever any request there has expired.
  */
  lemma ExpiredServedFirst(c: Tunables, events: seq<Event>)
    requires Valid(Init()) && Feasible(c, Init(), events)
    ensures var s := Run(c, Init(), events);
            var d := Choose(c, s);
            d.Choice? && !Continues(c, s) ==>
              d.x in s.rq &&
              var l := Side(s, s.rq[d.x].write);
              forall y | y in l.fifo && s.rq[y].expires < s.now ::
                forall z | z in l.fifo :: s.rq[d.x].expires <= s.rq[z].expires
  {
    var s := Run(c, Init(), events);
    RunTimely(c, Init(), events);
    var d := Choose(c, s);
    if d.Choice? && !Continues(c, s) {
      ChosenIsHeld(c, s);
      var l := Side(s, s.rq[d.x].write);
      HeadEarliest(s.rq, l.fifo, s.now + Expire(c, s.rq[d.x].write));
    }
  }

  lemma HeadEarliest(m: map<Id, Req>, q: seq<Id>, limit: nat)
    requires Due(m, q, limit) && q != []
    ensures forall z | z in q :: m[q[0]].expires <= m[z].expires
  {
    forall z | z in q
      ensures m[q[0]].expires <= m[z].expires
    {
      var i :| 0 <= i < |q| && q[i] == z;
    }
  }
}
