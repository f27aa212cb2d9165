/**
  The main results about barriers, stated on the history of a run: how sequences end
  in every mode, and the order in which a drain-ordered queue hands requests out.
*/
module BarrierLog {
  import opened OrderedBits
  import opened Barrier
  import opened BarrierInvariants
  import opened BarrierOrder

  ghost predicate EndedIn(log: seq<Entry>, n: nat) {
    exists error: int :: Ended(n, error) in log
  }

  ghost predicate BegunIn(log: seq<Entry>, n: nat) {
    exists mode: bv8 :: Began(n, mode) in log
  }

  ghost predicate CompletedIn(log: seq<Entry>, n: nat) {
    Finished(Rq(n), n) in log || EndedIn(log, n)
  }

  /** A sequence that began for barrier `n` includes the proxy `x`. */
  ghost predicate Due(log: seq<Entry>, n: nat, x: Id) {
    !x.Rq? && exists mode: bv8 :: Began(n, mode) in log && mode & Wanted(x) != 0
  }

  /** The first error of the sequence of barrier `n`. */
  function FirstError(log: seq<Entry>, n: nat): (error: int) {
    if log == [] then 0
    else
      var first := FirstError(log[..|log| - 1], n);
      if first != 0 then first
      else if log[|log| - 1].Failed? && log[|log| - 1].n == n then log[|log| - 1].error
      else 0
  }

  /**
    The sequence of a barrier begins once and the barrier is ended once.  If its sequence began,
    every proxy due has finished and the first error is reported; otherwise ordering is not supported.
  */
  ghost predicate EndsRight(past: seq<Entry>, e: Entry) {
    && (e.Began? ==> Added(e.n, true) in past && !BegunIn(past, e.n) && !CompletedIn(past, e.n))
    && (e.Ended? ==>
          && !CompletedIn(past, e.n)
          && Added(e.n, true) in past
          && (if BegunIn(past, e.n)
              then e.error == FirstError(past, e.n) && forall x: Id | Due(past, e.n, x) :: Finished(x, e.n) in past
              else e.error == -EOPNOTSUPP))
  }

  /**
    A request is handed out only after the end of every barrier added before it and after the
    completion of everything added before such a barrier; a proxy only after the completion of
    every request added before its barrier and of the earlier phases.
  */
  ghost predicate HandsRight(past: seq<Entry>, e: Entry) {
    e.Handed? ==>
      if e.id.Rq? then
        && (forall b: nat | b < e.n && Added(b, true) in past :: EndedIn(past, b))
        && (forall m: nat, b: nat | m < b < e.n && Added(b, true) in past :: CompletedIn(past, m))
      else
        && (forall n: nat, hard: bool | n < e.n && Added(n, hard) in past :: CompletedIn(past, n))
        && (forall x: Id | Due(past, e.n, x) && Phase(x) < Phase(e.id) :: Finished(x, e.n) in past)
        && !EndedIn(past, e.n)
  }

  ghost predicate AllEndRight(log: seq<Entry>) {
    forall j | 0 <= j < |log| :: EndsRight(log[..j], log[j])
  }

  ghost predicate AllHandedRight(log: seq<Entry>) {
    forall j | 0 <= j < |log| :: HandsRight(log[..j], log[j])
  }

  lemma AppendEnds(log: seq<Entry>, e: Entry)
    requires AllEndRight(log) && EndsRight(log, e)
    ensures AllEndRight(log + [e])
  {
    var l := log + [e];
    forall j | 0 <= j < |l| ensures EndsRight(l[..j], l[j]) {
      assert l[..j] == if j < |log| then log[..j] else log;
    }
  }

  lemma AppendHands(log: seq<Entry>, e: Entry)
    requires AllHandedRight(log) && HandsRight(log, e)
    ensures AllHandedRight(log + [e])
  {
    var l := log + [e];
    forall j | 0 <= j < |l| ensures HandsRight(l[..j], l[j]) {
      assert l[..j] == if j < |log| then log[..j] else log;
    }
  }

  lemma AppendError(log: seq<Entry>, e: Entry, n: nat)
    ensures FirstError(log + [e], n) ==
            if FirstError(log, n) != 0 then FirstError(log, n)
            else if e.Failed? && e.n == n then e.error else 0
  {
    assert (log + [e])[..|log|] == log;
  }

  // ------------------------------------------------- the log and the state

  ghost predicate LogAdded(s: QState) {
    forall n: nat, hard: bool :: Added(n, hard) in s.h.log <==> n < |s.rq.rqs| && s.rq.rqs[n].hard == hard
  }

  ghost predicate LogDone(s: QState) {
    && (forall n: nat | n < |s.rq.rqs| ::
          n in s.h.done <==> if s.rq.rqs[n].hard then EndedIn(s.h.log, n) else Finished(Rq(n), n) in s.h.log)
    && (forall n: nat | CompletedIn(s.h.log, n) :: n in s.h.done)
  }

  ghost predicate LogBegan(s: QState) {
    && (forall n: nat, mode: bv8 | Began(n, mode) in s.h.log :: n in s.h.done || (Current(s, n) && mode == s.h.begun))
    && (s.ordseq != 0 ==> Began(s.orig, s.h.begun) in s.h.log)
  }

  ghost predicate LogFinished(s: QState) {
    && (forall x: Id, n: nat | !x.Rq? && Finished(x, n) in s.h.log :: n in s.h.done || (Current(s, n) && x in s.h.finished))
    && (s.ordseq != 0 ==> forall x | x in s.h.finished :: Finished(x, s.orig) in s.h.log)
  }

  ghost predicate LogErrors(s: QState) {
    && (forall n: nat, error: int | Failed(n, error) in s.h.log :: n in s.h.done || Current(s, n))
    && (s.ordseq != 0 ==> s.orderr == FirstError(s.h.log, s.orig))
  }

  ghost predicate Logged(s: QState) {
    && LogAdded(s) && LogDone(s) && LogBegan(s) && LogFinished(s) && LogErrors(s)
    && AllEndRight(s.h.log)
  }

  /** Entries that no part of the invariant speaks of. */
  lemma LogQuiet(s: QState, t: QState, e: Entry)
    requires Logged(s) && (e.Handed? || e.Requeued?)
    requires t.h.log == s.h.log + [e]
    requires t.h.done == s.h.done && t.ordseq == s.ordseq && t.orig == s.orig && t.h.begun == s.h.begun
    requires t.h.finished == s.h.finished && t.orderr == s.orderr && SameAttrs(s.rq, t.rq)
    ensures Logged(t)
  {
    AttrsAt(s.rq, t.rq);
    AppendEnds(s.h.log, e);
    AppendError(s.h.log, e, s.orig);
    EndedAppend(s.h.log, e);
  }

  lemma EndedAppend(log: seq<Entry>, e: Entry)
    ensures forall n: nat :: EndedIn(log + [e], n) <==> EndedIn(log, n) || (e.Ended? && e.n == n)
  {
    forall n: nat ensures EndedIn(log + [e], n) <==> EndedIn(log, n) || (e.Ended? && e.n == n) {
      if EndedIn(log, n) {
        var error: int :| Ended(n, error) in log;
        assert Ended(n, error) in log + [e];
      }
      if e.Ended? && e.n == n {
        assert Ended(n, e.error) in log + [e];
      }
    }
  }

  /** One more request is done, and the log says so. */
  lemma DoneAdd(s: QState, t: QState, n: nat, e: Entry)
    requires LogDone(s) && n < |s.rq.rqs|
    requires t.rq == s.rq && t.h.done == s.h.done + {n} && t.h.log == s.h.log + [e]
    requires if s.rq.rqs[n].hard then e.Ended? && e.n == n else e == Finished(Rq(n), n)
    ensures LogDone(t)
  {
    EndedAppend(s.h.log, e);
  }

  /** An entry that completes nothing. */
  lemma DoneSame(s: QState, t: QState, e: Entry)
    requires LogDone(s) && t.h.done == s.h.done && t.h.log == s.h.log + [e]
    requires !e.Ended? && !(e.Finished? && e.id.Rq?)
    requires |s.rq.rqs| <= |t.rq.rqs| && forall n: nat | n < |s.rq.rqs| :: t.rq.rqs[n].hard == s.rq.rqs[n].hard
    requires forall n | n in s.h.done :: n < |s.rq.rqs|
    ensures LogDone(t)
  {
    EndedAppend(s.h.log, e);
  }

  lemma InsertAdded(s: QState, a: NewRequest)
    requires LogAdded(s)
    ensures LogAdded(Insert(s, a))
  {
    var t := Insert(s, a);
    forall n: nat, hard: bool
      ensures Added(n, hard) in t.h.log <==> n < |t.rq.rqs| && t.rq.rqs[n].hard == hard
    {
      assert Added(n, hard) in t.h.log <==> Added(n, hard) in s.h.log || Added(n, hard) == Added(|s.rq.rqs|, a.hard);
    }
  }

  lemma InsertSequence(s: QState, a: NewRequest)
    requires LogBegan(s) && LogFinished(s) && LogErrors(s)
    ensures LogBegan(Insert(s, a)) && LogFinished(Insert(s, a)) && LogErrors(Insert(s, a))
  {
    AppendError(s.h.log, Added(|s.rq.rqs|, a.hard), s.orig);
  }

  lemma LogInsert(s: QState, a: NewRequest)
    requires Logged(s) && Conserved(s)
    ensures Logged(Insert(s, a))
  {
    var e := Added(|s.rq.rqs|, a.hard);
    AppendEnds(s.h.log, e);
    InsertAdded(s, a);
    InsertSequence(s, a);
    DoneSame(s, Insert(s, a), e);
  }

  lemma LogReleaseRq(s: QState, x: Id)
    requires Logged(s) && Core(s) && x in s.driver && x.Rq?
    ensures Logged(Release(s, x))
  {
    var t := Release(s, x);
    assert x in Items(s);
    var e := Finished(x, x.n);
    AppendEnds(s.h.log, e);
    AppendError(s.h.log, e, s.orig);
    DoneAdd(s, t, x.n, e);
  }

  /** A proxy in the driver belongs to the sequence in progress. */
  lemma ProxyOfSequence(s: QState, x: Id)
    requires Core(s) && x in s.driver && !x.Rq?
    ensures s.ordseq != 0 && forall n | n in s.h.done :: n < |s.rq.rqs|
  {
    assert x in Items(s);
  }

  /** What the log says of barriers once the end of a proxy is added to it. */
  lemma ProxyEntry(s: QState, t: QState, x: Id)
    requires LogBegan(s) && LogFinished(s) && LogErrors(s) && s.ordseq != 0 && !x.Rq?
    requires t.h.log == s.h.log + [Finished(x, s.orig)] && t.h.done == s.h.done && t.h.begun == s.h.begun
    requires t.h.finished == s.h.finished + {x} && t.ordseq == s.ordseq && t.orig == s.orig && t.orderr == s.orderr
    ensures LogBegan(t) && LogFinished(t) && LogErrors(t)
  {
    AppendError(s.h.log, Finished(x, s.orig), s.orig);
  }

  lemma LogReleaseProxy(s: QState, x: Id)
    requires Logged(s) && Core(s) && x in s.driver && !x.Rq?
    ensures Logged(Release(s, x))
  {
    hide Core, LogBegan, LogFinished, LogErrors, LogDone, AllEndRight;
    var t := Release(s, x);
    ProxyOfSequence(s, x);
    AppendEnds(s.h.log, Finished(x, s.orig));
    ProxyEntry(s, t, x);
    DoneSame(s, t, Finished(x, s.orig));
  }

  lemma LogRecord(s: QState, error: int)
    requires Logged(s) && s.ordseq != 0
    ensures Logged(RecordError(s, error))
  {
    if error != 0 {
      var t := RecordError(s, error);
      var e := Failed(s.orig, error);
      AppendEnds(s.h.log, e);
      AppendError(s.h.log, e, s.orig);
      EndedAppend(s.h.log, e);
    }
  }

  lemma EndOfSequence(s: QState, ordseq: bv8)
    requires Logged(s) && InProgress(s, ordseq) && CurSeq(ordseq) == SEQ_DONE
    ensures EndsRight(s.h.log, Ended(s.orig, s.orderr))
  {
    CurCases(ordseq);
    forall x: Id | Due(s.h.log, s.orig, x) ensures Finished(x, s.orig) in s.h.log {
      var mode: bv8 :| Began(s.orig, mode) in s.h.log && mode & Wanted(x) != 0;
      assert ordseq & Phase(x) != 0;
      assert x in s.h.finished;
    }
  }

  /** Once a barrier is done, its entries are those of a done barrier. */
  lemma PastSequence(s: QState, t: QState, e: Entry)
    requires LogBegan(s) && LogFinished(s) && LogErrors(s)
    requires t.ordseq == 0 && t.h.done == s.h.done + {s.orig} && t.h.log == s.h.log + [e] && e.Ended?
    ensures LogBegan(t) && LogFinished(t) && LogErrors(t)
  {
  }

  lemma LogEnd(s: QState, t: QState)
    requires Logged(s) && s.ordseq != 0 && s.orig < |s.rq.rqs| && s.rq.rqs[s.orig].hard
    requires EndsRight(s.h.log, Ended(s.orig, s.orderr))
    requires t.ordseq == 0 && t.h.done == s.h.done + {s.orig} && t.orig == s.orig
    requires t.h.log == s.h.log + [Ended(s.orig, s.orderr)] && t.rq == s.rq
    ensures Logged(t)
  {
    AppendEnds(s.h.log, Ended(s.orig, s.orderr));
    DoneAdd(s, t, s.orig, Ended(s.orig, s.orderr));
    PastSequence(s, t, Ended(s.orig, s.orderr));
  }

  lemma LogComplete(s: QState, bits: bv8, error: int)
    requires Logged(s) && InProgress(s, s.ordseq | bits)
    ensures Logged(CompleteSeq(s, bits, error))
  {
    var s1 := RecordError(s, error);
    LogRecord(s, error);
    assert Outstanding(s1) == Outstanding(s);
    if CurSeq(s.ordseq | bits) == SEQ_DONE {
      EndOfSequence(s1, s.ordseq | bits);
      LogEnd(s1, CompleteSeq(s, bits, error));
    } else {
      LogPhase(s1, CompleteSeq(s, bits, error));
    }
  }

  /** A phase that is not the last one. */
  lemma LogPhase(s: QState, t: QState)
    requires Logged(s) && s.ordseq != 0 && t.ordseq != 0
    requires t.h == s.h && t.orig == s.orig && t.orderr == s.orderr && t.rq == s.rq
    ensures Logged(t)
  {
  }

  lemma {:induction false} NoError(log: seq<Entry>, n: nat)
    requires forall error: int :: Failed(n, error) !in log
    ensures FirstError(log, n) == 0
  {
    if log != [] {
      var last := log[|log| - 1];
      assert last in log && forall e | e in log[..|log| - 1] :: e in log;
      assert last.Failed? ==> last == Failed(last.n, last.error);
      NoError(log[..|log| - 1], n);
    }
  }

  /** The barrier at the head of the queue has no entry but that of its addition. */
  lemma HeadEntries(s: QState)
    requires Logged(s) && Core(s) && AtHead(s)
    ensures EndsRight(s.h.log, Began(s.queue[0].n, BeginOrdered(s).h.begun))
    ensures FirstError(s.h.log, s.queue[0].n) == 0
  {
    hide AllEndRight, FirstError, Items, Hards, Proxies, Masked, ProxyAttr, LogFinished;
    HeadFacts(s);
    NoError(s.h.log, s.queue[0].n);
  }

  lemma BeginSequenceLog(s: QState)
    requires LogBegan(s) && LogFinished(s) && LogErrors(s) && AtHead(s)
    requires FirstError(s.h.log, s.queue[0].n) == 0
    ensures LogBegan(BeginOrdered(s)) && LogFinished(BeginOrdered(s)) && LogErrors(BeginOrdered(s))
  {
    hide FirstError, Hards, Proxies, Masked, ProxyAttr;
    AppendError(s.h.log, Began(s.queue[0].n, BeginOrdered(s).h.begun), s.queue[0].n);
    assert SEQ_STARTED != 0;
  }

  lemma LogBegin(s: QState)
    requires Logged(s) && Core(s) && AtHead(s)
    ensures Logged(BeginOrdered(s))
  {
    hide Core, Hards, Proxies, Masked, ProxyAttr, AllEndRight, LogDone, LogBegan, LogFinished, LogErrors, EndsRight;
    var e := Began(s.queue[0].n, BeginOrdered(s).h.begun);
    HeadEntries(s);
    BeginSequenceLog(s);
    AppendEnds(s.h.log, e);
    DoneBounds(s);
    DoneSame(s, BeginOrdered(s), e);
  }

  lemma DoneBounds(s: QState)
    requires Core(s)
    ensures forall n | n in s.h.done :: n < |s.rq.rqs|
  {
  }

  lemma RejectSequence(s: QState)
    requires LogBegan(s) && LogFinished(s) && LogErrors(s) && AtHead(s)
    ensures LogBegan(Reject(s)) && LogFinished(Reject(s)) && LogErrors(Reject(s))
  {
  }

  lemma LogReject(s: QState)
    requires Logged(s) && Core(s) && AtHead(s)
    ensures Logged(Reject(s))
  {
    HeadFacts(s);
    var t := Reject(s);
    var n := s.queue[0].n;
    AppendEnds(s.h.log, Ended(n, -EOPNOTSUPP));
    DoneAdd(s, t, n, Ended(n, -EOPNOTSUPP));
    RejectSequence(s);
  }

  // ---------------------------------------------------------------- steps

  lemma {:induction false} LogDrain(s: QState, order: seq<Dispatch>)
    requires Logged(s)
    ensures Logged(Drain(s, order)) && Drain(s, order).h.log == s.h.log
    decreases |order|
  {
    if order != [] {
      LogDrain(DispatchOne(s, order[0]), order[1..]);
    }
  }

  lemma LogAdd(s: QState, a: NewRequest, order: seq<Dispatch>)
    requires Logged(s) && Core(s) && Enabled(s, Add(a, order))
    ensures Logged(AddRequest(s, a, order))
  {
    if GoesBack(a) {
      LogDrain(s, order);
      DrainCore(s, order, {});
    }
    LogInsert(if GoesBack(a) then Drain(s, order) else s, a);
  }

  lemma LogPeek(s: QState)
    requires Logged(s) && Core(s) && s.queue != []
    ensures Logged(Peek(s))
  {
    var (t, v) := DoOrdered(s);
    assert s.queue[0] in Items(s);
    if AtHead(s) && s.nextOrdered != ORDERED_NONE {
      LogBegin(s);
      BeginInProgress(s);
      LogComplete(BeginOrdered(s), Skip(BeginOrdered(s).ordered, BeginOrdered(s).inFlight), 0);
    } else if AtHead(s) {
      LogReject(s);
    }
    if v == Serve {
      LogMark(t, t.queue[0]);
    }
  }

  lemma LogMark(s: QState, x: Id)
    requires Logged(s)
    ensures Logged(MarkStarted(s, x))
  {
    FlagsAttrs(s.rq, x, At(s.rq, x).(started := true));
    AttrsAt(s.rq, MarkStarted(s, x).rq);
  }

  lemma LogFinishRq(s: QState, x: Id, error: int)
    requires Logged(s) && Core(s) && x in s.driver && x.Rq?
    ensures Logged(Finish(s, x, error))
  {
    var t := Release(s, x);
    LogReleaseRq(s, x);
    ReleasedPlaces(s, x);
    ReleasedRq(s, x);
    if Drained(t) {
      DrainBits(t.ordseq, t.h.begun, t.h.finished, Outstanding(t));
      LogComplete(t, SEQ_DRAIN, 0);
    }
  }

  lemma LogFinishProxy(s: QState, x: Id, error: int)
    requires Logged(s) && Core(s) && x in s.driver && !x.Rq?
    ensures Logged(Finish(s, x, error))
  {
    var t := Release(s, x);
    LogReleaseProxy(s, x);
    ReleasedPlaces(s, x);
    ReleasedProxy(s, x);
    ProxyCompleted(t, x);
    LogComplete(CheckDrained(t), Phase(x), error);
  }

  /** Steps that change neither the log nor what it is about. */
  lemma LogSame(s: QState, t: QState)
    requires Logged(s)
    requires t.h.log == s.h.log && t.h.done == s.h.done && t.ordseq == s.ordseq && t.orig == s.orig
    requires t.h.begun == s.h.begun && t.h.finished == s.h.finished && t.orderr == s.orderr && t.rq == s.rq
    ensures Logged(t)
  {
  }

  lemma LogMove(s: QState, e: Event)
    requires Logged(s) && Core(s) && Enabled(s, e) && (e.Starting? || e.Requeueing?)
    ensures Logged(Step(s, e))
  {
    if e.Starting? {
      LogQuiet(s, Start(s, e.p), Handed(s.queue[e.p], Number(s, s.queue[e.p])));
    } else {
      RequeueSame(s, e.rq);
      LogQuiet(s, Requeue(s, e.rq), Requeued(e.rq, Number(s, e.rq)));
    }
  }

  lemma LogOther(s: QState, e: Event)
    requires Logged(s) && Core(s) && Enabled(s, e) && (e.Dispatching? || e.BarPart? || e.SetOrdered?)
    ensures Logged(Step(s, e))
  {
    if e.BarPart? {
      assert Bar in Items(s);
      LogRecord(s, e.error);
    } else {
      LogSame(s, Step(s, e));
    }
  }

  lemma LogFinish(s: QState, x: Id, error: int)
    requires Logged(s) && Core(s) && x in s.driver
    ensures Logged(Finish(s, x, error))
  {
    if x.Rq? { LogFinishRq(s, x, error); } else { LogFinishProxy(s, x, error); }
  }

  lemma StepLogged(s: QState, e: Event)
    requires Logged(s) && Core(s) && Enabled(s, e)
    ensures Logged(Step(s, e))
  {
    match e {
      case Add(a, order) => LogAdd(s, a, order);
      case Peeking => LogPeek(s);
      case Starting(_) => LogMove(s, e);
      case Requeueing(_) => LogMove(s, e);
      case Finishing(x, error) => LogFinish(s, x, error);
      case _ => LogOther(s, e);
    }
  }

  /** The bits that are left say what a sequence in progress is still waiting for. */
  lemma StillDue(s: QState) returns (x: Id)
    requires Core(s) && Logged(s) && s.ordseq != 0 && s.ordseq & SEQ_DRAIN != 0
    ensures Due(s.h.log, s.orig, x) && Finished(x, s.orig) !in s.h.log
  {
    CurCases(s.ordseq);
    x := if s.ordseq & SEQ_PREFLUSH == 0 then PreFlush
         else if s.ordseq & SEQ_BAR == 0 then Bar else PostFlush;
    assert s.ordseq & Phase(x) == 0;
  }

  // ------------------------------------------------- what is handed out

  /** In a drain-ordered queue, what was added before the current epoch has completed. */
  lemma PastEpochs(s: QState, n: nat)
    requires Core(s) && Order(s) && n < |s.rq.rqs| && s.rq.rqs[n].epoch < s.h.ended
    ensures n in s.h.done
  {
    assert At(s.rq, Rq(n)) == s.rq.rqs[n];
    assert s.ordseq != 0 && s.orig == n ==> false;
  }

  lemma HandRq(s: QState, p: nat)
    requires Core(s) && Order(s) && Logged(s) && p < |s.queue| && At(s.rq, s.queue[p]).started && s.queue[p].Rq?
    ensures HandsRight(s.h.log, Handed(s.queue[p], s.queue[p].n))
  {
    var x := s.queue[p];
    assert x in Items(s) && x in s.queue;
    assert At(s.rq, x) == s.rq.rqs[x.n];
    forall b: nat | b < x.n && Added(b, true) in s.h.log ensures EndedIn(s.h.log, b) {
      PastEpochs(s, b);
    }
    forall m: nat, b: nat | m < b < x.n && Added(b, true) in s.h.log ensures CompletedIn(s.h.log, m) {
      PastEpochs(s, m);
    }
  }

  /** Once the drain phase is over, everything added before the barrier has completed. */
  lemma DrainedPast(s: QState, n: nat)
    requires Core(s) && Order(s) && s.ordseq != 0 && IsDrained(s) && n < s.orig
    ensures n in s.h.done
  {
    assert At(s.rq, Rq(s.orig)) == s.rq.rqs[s.orig] && At(s.rq, Rq(n)) == s.rq.rqs[n];
    if s.rq.rqs[n].epoch < s.h.ended {
      PastEpochs(s, n);
    }
  }

  lemma HandProxy(s: QState, p: nat)
    requires Core(s) && Order(s) && Logged(s) && p < |s.queue| && At(s.rq, s.queue[p]).started && !s.queue[p].Rq?
    ensures HandsRight(s.h.log, Handed(s.queue[p], s.orig))
  {
    var x := s.queue[p];
    assert x in Items(s) && x in s.queue;
    CurCases(s.ordseq);
    forall n: nat, hard: bool | n < s.orig && Added(n, hard) in s.h.log ensures CompletedIn(s.h.log, n) {
      DrainedPast(s, n);
    }
    forall y: Id | Due(s.h.log, s.orig, y) && Phase(y) < Phase(x) ensures Finished(y, s.orig) in s.h.log {
      var mode: bv8 :| Began(s.orig, mode) in s.h.log && mode & Wanted(y) != 0;
      assert s.ordseq & Phase(y) != 0;
      assert y in s.h.finished;
    }
  }

  // ------------------------------------------------------- main results

  lemma CompleteHands(s: QState, bits: bv8, error: int)
    requires AllHandedRight(s.h.log)
    ensures AllHandedRight(CompleteSeq(s, bits, error).h.log)
  {
    var s1 := RecordError(s, error);
    if error != 0 { AppendHands(s.h.log, Failed(s.orig, error)); }
    AppendHands(s1.h.log, Ended(s.orig, s1.orderr));
  }

  lemma StartOrderedHands(s: QState)
    requires AllHandedRight(s.h.log) && s.queue != [] && s.queue[0].Rq?
    ensures AllHandedRight(StartOrdered(s).h.log)
  {
    var b := BeginOrdered(s);
    AppendHands(s.h.log, Began(s.queue[0].n, b.h.begun));
    CompleteHands(b, Skip(b.ordered, b.inFlight), 0);
  }

  lemma PeekHands(s: QState)
    requires AllHandedRight(s.h.log) && s.queue != []
    ensures AllHandedRight(Peek(s).h.log)
  {
    var t := DoOrdered(s).0;
    assert Peek(s).h.log == t.h.log;
    if s.queue[0].Rq? {
      StartOrderedHands(s);
      AppendHands(s.h.log, Ended(s.queue[0].n, -EOPNOTSUPP));
    }
    assert t.h.log == s.h.log || (s.queue[0].Rq? && (t == StartOrdered(s) || t == Reject(s)));
  }

  lemma FinishHands(s: QState, x: Id, error: int)
    requires AllHandedRight(s.h.log)
    ensures AllHandedRight(Finish(s, x, error).h.log)
  {
    var t := Release(s, x);
    AppendHands(s.h.log, Finished(x, Number(s, x)));
    CompleteHands(t, SEQ_DRAIN, 0);
    if !x.Rq? { CompleteHands(CheckDrained(t), Phase(x), error); }
  }

  lemma OtherHandsRight(past: seq<Entry>, e: Entry)
    requires !e.Handed?
    ensures HandsRight(past, e)
  {
  }

  lemma StepHands(s: QState, e: Event)
    requires Core(s) && Order(s) && Logged(s) && Enabled(s, e)
    requires AllHandedRight(s.h.log)
    ensures AllHandedRight(Step(s, e).h.log)
  {
    hide Core, Order, Logged, AllHandedRight, Peek, Finish, HandsRight;
    match e {
      case Add(a, order) =>
        LogDrain(s, order);
        OtherHandsRight(s.h.log, Added(|(if GoesBack(a) then Drain(s, order) else s).rq.rqs|, a.hard));
        AppendHands(s.h.log, Added(|(if GoesBack(a) then Drain(s, order) else s).rq.rqs|, a.hard));
      case Dispatching(_) =>
      case Peeking => PeekHands(s);
      case Starting(p) =>
        if s.queue[p].Rq? { HandRq(s, p); } else { HandProxy(s, p); }
        AppendHands(s.h.log, Handed(s.queue[p], Number(s, s.queue[p])));
      case Requeueing(x) =>
        OtherHandsRight(s.h.log, Requeued(x, Number(s, x)));
        AppendHands(s.h.log, Requeued(x, Number(s, x)));
      case Finishing(x, error) => FinishHands(s, x, error);
      case BarPart(error) =>
        OtherHandsRight(s.h.log, Failed(s.orig, error));
        AppendHands(s.h.log, Failed(s.orig, error));
      case SetOrdered(_) =>
    }
  }

  lemma InitGood(mode: bv8)
    requires KnownMode(mode)
    ensures Core(Init(mode)) && Logged(Init(mode)) && AllHandedRight(Init(mode).h.log)
    ensures DrainMode(mode) ==> Order(Init(mode))
  {
    InitCore(mode);
  }

  lemma {:induction false} RunKeeps(s: QState, events: seq<Event>)
    requires Core(s) && Logged(s) && Run(s, events)
    ensures Core(After(s, events)) && Logged(After(s, events))
    decreases |events|
  {
    if events != [] {
      StepCore(s, events[0]);
      StepLogged(s, events[0]);
      RunKeeps(Step(s, events[0]), events[1..]);
    }
  }

  lemma {:induction false} DrainRunKeeps(s: QState, events: seq<Event>)
    requires Core(s) && Logged(s) && Order(s) && AllHandedRight(s.h.log) && Run(s, events)
    requires forall e | e in events :: DrainEvent(e)
    ensures Core(After(s, events)) && Logged(After(s, events))
    ensures Order(After(s, events)) && AllHandedRight(After(s, events).h.log)
    decreases |events|
  {
    if events != [] {
      StepCore(s, events[0]);
      StepLogged(s, events[0]);
      StepOrder(s, events[0]);
      StepHands(s, events[0]);
      DrainRunKeeps(Step(s, events[0]), events[1..]);
    }
  }

  /**
    In every run, in every mode and for empty and non-empty barriers: each barrier is ended at
    most once, when every proxy of its sequence has finished, with the first error of the sequence.
  */
  lemma EveryBarrierEndsRight(mode: bv8, events: seq<Event>)
    requires KnownMode(mode) && Run(Init(mode), events)
    ensures AllEndRight(After(Init(mode), events).h.log)
    ensures Core(After(Init(mode), events))
  {
    InitGood(mode);
    RunKeeps(Init(mode), events);
  }

  /**
    In every run of a drain-ordered queue: proxies are handed to the driver in the order of their
    phases and only after all requests added before the barrier have completed, and no request
    added after a barrier is handed over until its sequence is done and everything added before
    the barrier has completed.
  */
  lemma EveryRequestHandedRight(mode: bv8, events: seq<Event>)
    requires DrainMode(mode) && Run(Init(mode), events)
    requires forall e | e in events :: DrainEvent(e)
    ensures AllHandedRight(After(Init(mode), events).h.log)
    ensures Core(After(Init(mode), events)) && Order(After(Init(mode), events))
  {
    InitGood(mode);
    DrainRunKeeps(Init(mode), events);
  }

  /** The colour that blk_do_ordered sees at the head says on which side of the barrier it was added. */
  lemma ColorTellsSide(s: QState)
    requires Core(s) && Order(s) && s.ordseq != 0 && s.queue != [] && s.queue[0].Rq?
    ensures At(s.rq, s.queue[0]).color == At(s.rq, Rq(s.orig)).color <==> s.queue[0].n < s.orig
  {
    HeadSeq(s);
    var x := s.queue[0];
    assert x in Items(s);
    assert At(s.rq, Rq(s.orig)) == s.rq.rqs[s.orig];
    assert At(s.rq, x) == s.rq.rqs[x.n];
  }

  /** blk_do_ordered never meets a request whose phase has passed: its WARN_ON is unreachable. */
  lemma NoPhasePassed(s: QState)
    requires Core(s) && Order(s) && s.ordseq != 0 && s.queue != []
    ensures ReqSeq(s, s.queue[0]) >= CurSeq(s.ordseq)
  {
    var x := s.queue[0];
    assert x in Items(s) && x in s.queue;
    CurCases(s.ordseq);
    if x.Rq? { HeadSeq(s); } else { assert x in Outstanding(s); }
  }

  /** Up to the next pending hard barrier the queue is sorted by the phases the code computes. */
  lemma PhasesSorted(s: QState, i: nat, j: nat)
    requires Core(s) && Order(s) && s.ordseq != 0 && i < j < |s.queue|
    requires forall k | 0 <= k < j :: !IsHard(s.rq.rqs, s.queue[k])
    ensures ReqSeq(s, s.queue[i]) <= ReqSeq(s, s.queue[j])
  {
    assert s.queue[i] in Items(s) && s.queue[j] in Items(s);
    assert Key(s.rq, s.queue[i]) <= Key(s.rq, s.queue[j]);
    if s.queue[i].Rq? { PhaseOf(s, i); }
    if s.queue[j].Rq? { PhaseOf(s, j); }
  }

  /** In front of the next pending hard barrier there is nothing beyond its epoch. */
  lemma EpochBound(s: QState, j: nat)
    requires Core(s) && Sorted(s.rq, s.queue) && j < |s.queue| && s.queue[j].Rq?
    requires forall k | 0 <= k < j :: !IsHard(s.rq.rqs, s.queue[k])
    ensures At(s.rq, s.queue[j]).epoch <= NextBarrier(s)
  {
    var x := s.queue[j];
    assert x in Items(s);
    assert s.rq.rqs[x.n].epoch <= s.barriers;
    if NextBarrier(s) < s.barriers {
      var i := HardsAt(s.rq.rqs, s.queue, 0);
      assert i == j || Key(s.rq, x) <= Key(s.rq, s.queue[i]);
    }
  }

  lemma PhaseOf(s: QState, j: nat)
    requires Core(s) && Order(s) && s.ordseq != 0 && j < |s.queue| && s.queue[j].Rq?
    requires forall k | 0 <= k < j :: !IsHard(s.rq.rqs, s.queue[k])
    ensures if Early(s, s.queue[j]) then ReqSeq(s, s.queue[j]) == SEQ_DRAIN
            else ReqSeq(s, s.queue[j]) == SEQ_DONE && At(s.rq, s.queue[j]).epoch == s.h.ended + 1
  {
    EpochBound(s, j);
    var x := s.queue[j];
    assert x in Items(s) && x in s.queue;
    assert At(s.rq, Rq(s.orig)) == s.rq.rqs[s.orig];
    assert At(s.rq, x) == s.rq.rqs[x.n];
  }
}
