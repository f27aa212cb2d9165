/**
  The hash of the elevator core that finds a request by the sector behind its end.  Requests
  that may no longer be merged stay on it until a lookup meets them.
*/
module MergeHash {
  import opened NumberLists

  type Id = nat

  datatype Req = Req(pos: nat, len: nat, mergeable: bool)

  /** Any hash function onto `size` buckets. */
  datatype Hash = Hash(size: nat, of: nat -> nat)

  ghost predicate Proper(h: Hash) {
    forall k :: h.of(k) < h.size
  }

  /** The requests that the scheduler holds, the buckets, and the bucket of each request on the hash. */
  datatype State = State(rq: map<Id, Req>, buckets: seq<seq<Id>>, at: map<Id, nat>)

  /** rq_hash_key. */
  function Key(r: Req): (k: nat) { r.pos + r.len }

  // ----------------------------------------------------------- operations

  /** hlist_del_init: nothing happens to a request that is not on the hash. */
  function Unlink(s: State, x: Id): (t: State) {
    if x in s.at && s.at[x] < |s.buckets| && x in s.buckets[s.at[x]] then
      s.(buckets := s.buckets[s.at[x] := Without(s.buckets[s.at[x]], x)], at := s.at - {x})
    else s
  }

  /** elv_rqhash_add. */
  function Link(h: Hash, s: State, x: Id): (t: State)
    requires x in s.rq && h.of(Key(s.rq[x])) < |s.buckets|
  {
    var b := h.of(Key(s.rq[x]));
    s.(buckets := s.buckets[b := [x] + s.buckets[b]], at := s.at[x := b])
  }

  /** A request that enters the scheduler. */
  function Enter(h: Hash, s: State, x: Id, r: Req): (t: State)
    requires h.of(Key(r)) < |s.buckets|
  {
    var s' := s.(rq := s.rq[x := r]);
    if r.mergeable then Link(h, s', x) else s'
  }

  /** elv_rqhash_reposition after the request has changed. */
  function Reposition(h: Hash, s: State, x: Id, r: Req): (t: State)
    requires h.of(Key(r)) < |s.buckets|
  {
    Link(h, Unlink(s, x).(rq := s.rq[x := r]), x)
  }

  /** A request that leaves the scheduler: dispatched, or merged into another. */
  function Leave(s: State, x: Id): (t: State) {
    Unlink(s, x).(rq := s.rq - {x})
  }

  /** What a lookup takes off the hash: requests met on the way that may no longer be merged. */
  function Sweep(s: State, l: seq<Id>, offset: nat): (t: State)
    decreases l
  {
    if l == [] || l[0] !in s.rq then s
    else if !s.rq[l[0]].mergeable then Sweep(Unlink(s, l[0]), l[1..], offset)
    else if Key(s.rq[l[0]]) == offset then s
    else Sweep(s, l[1..], offset)
  }

  // ------------------------------------------------------------ invariant

  /** The buckets say where each request on the hash is, and it is there once. */
  ghost predicate Linked(s: State) {
    && (forall b | 0 <= b < |s.buckets| :: Distinct(s.buckets[b]))
    && (forall b, x | 0 <= b < |s.buckets| && x in s.buckets[b] :: x in s.at && s.at[x] == b)
    && (forall x | x in s.at :: s.at[x] < |s.buckets| && x in s.buckets[s.at[x]])
  }

  /** What is on the hash is held, under its key; and every mergeable request is on it. */
  ghost predicate Keyed(h: Hash, s: State) {
    && (forall x | x in s.at :: x in s.rq && s.at[x] == h.of(Key(s.rq[x])))
    && (forall x | x in s.rq && s.rq[x].mergeable :: x in s.at)
  }

  ghost predicate Valid(h: Hash, s: State) {
    Proper(h) && |s.buckets| == h.size && Linked(s) && Keyed(h, s)
  }

  lemma UnlinkLinked(s: State, x: Id)
    requires Linked(s)
    ensures Linked(Unlink(s, x)) && Unlink(s, x).at == s.at - {x} && Unlink(s, x).rq == s.rq
  {
    if x in s.at {
      var b := s.at[x];
      WithoutMembers(s.buckets[b], x);
    }
  }

  lemma LinkLinked(h: Hash, s: State, x: Id)
    requires Linked(s) && x !in s.at && x in s.rq && h.of(Key(s.rq[x])) < |s.buckets|
    ensures Linked(Link(h, s, x))
  {
  }

  // ----------------------------------------------------------------- runs

  datatype Event =
    | Inserting(x: Id, r: Req)
    | BackMerging(x: Id, sectors: nat)
    | FrontMerging(x: Id, sectors: nat)
    | Joining(x: Id, next: Id)
    | Forbidding(x: Id)
    | Leaving(x: Id)
    | Finding(offset: nat)

  /** Only mergeable requests are merged; a front merge extends to lower sectors, joined requests touch. */
  ghost predicate Enabled(s: State, e: Event) {
    match e
    case Inserting(x, _) => x !in s.rq
    case BackMerging(x, _) => x in s.rq && s.rq[x].mergeable
    case FrontMerging(x, n) => x in s.rq && s.rq[x].mergeable && n <= s.rq[x].pos
    case Joining(x, next) =>
      x in s.rq && next in s.rq && x != next && s.rq[x].mergeable && s.rq[next].mergeable && Key(s.rq[x]) == s.rq[next].pos
    case Forbidding(x) => x in s.rq
    case Leaving(x) => x in s.rq
    case Finding(_) => true
  }

  ghost function Step(h: Hash, s: State, e: Event): (t: State)
    requires Valid(h, s) && Enabled(s, e)
  {
    match e
    case Inserting(x, r) => Enter(h, s, x, r)
    case BackMerging(x, n) => Reposition(h, s, x, s.rq[x].(len := s.rq[x].len + n))
    case FrontMerging(x, n) => s.(rq := s.rq[x := s.rq[x].(pos := s.rq[x].pos - n, len := s.rq[x].len + n)])
    case Joining(x, next) => Leave(Reposition(h, s, x, s.rq[x].(len := s.rq[x].len + s.rq[next].len)), next)
    case Forbidding(x) => s.(rq := s.rq[x := s.rq[x].(mergeable := false)])
    case Leaving(x) => Leave(s, x)
    case Finding(offset) => Sweep(s, s.buckets[h.of(offset)], offset)
  }

  lemma EnterValid(h: Hash, s: State, x: Id, r: Req)
    requires Valid(h, s) && x !in s.rq
    ensures Valid(h, Enter(h, s, x, r))
  {
    var s' := s.(rq := s.rq[x := r]);
    assert Linked(s');
    if r.mergeable { LinkLinked(h, s', x); }
  }

  lemma RepositionValid(h: Hash, s: State, x: Id, r: Req)
    requires Valid(h, s) && x in s.rq && r.mergeable
    ensures Valid(h, Reposition(h, s, x, r))
  {
    hide Linked, Unlink;
    UnlinkLinked(s, x);
    var u := Unlink(s, x).(rq := s.rq[x := r]);
    SameLinks(Unlink(s, x), u);
    UnlinkSize(s, x);
    LinkLinked(h, u, x);
  }

  lemma SameLinks(s: State, t: State)
    requires Linked(s) && s.buckets == t.buckets && s.at == t.at
    ensures Linked(t)
  {
  }

  lemma UnlinkSize(s: State, x: Id)
    ensures |Unlink(s, x).buckets| == |s.buckets|
  {
  }

  lemma LeaveValid(h: Hash, s: State, x: Id)
    requires Valid(h, s) && x in s.rq
    ensures Valid(h, Leave(s, x))
  {
    hide Linked, Unlink;
    UnlinkLinked(s, x);
    UnlinkSize(s, x);
    SameLinks(Unlink(s, x), Leave(s, x));
  }

  /** A front merge moves the start and leaves the end, so it needs no rehash. */
  lemma ChangedValid(h: Hash, s: State, x: Id, r: Req)
    requires Valid(h, s) && x in s.rq && Key(r) == Key(s.rq[x]) && (r.mergeable ==> s.rq[x].mergeable)
    ensures Valid(h, s.(rq := s.rq[x := r]))
  {
    hide Linked;
    SameLinks(s, s.(rq := s.rq[x := r]));
  }

  lemma {:induction false} SweepValid(h: Hash, s: State, l: seq<Id>, offset: nat)
    requires Valid(h, s) && forall j | 0 <= j < |l| :: l[j] in s.rq
    ensures Valid(h, Sweep(s, l, offset)) && Sweep(s, l, offset).rq == s.rq
    decreases l
  {
    hide Linked, Keyed, Unlink;
    if l != [] {
      if !s.rq[l[0]].mergeable {
        UnlinkedValid(h, s, l[0]);
        SweepValid(h, Unlink(s, l[0]), l[1..], offset);
      } else {
        SweepValid(h, s, l[1..], offset);
      }
    }
  }

  lemma StepValid(h: Hash, s: State, e: Event)
    requires Valid(h, s) && Enabled(s, e)
    ensures Valid(h, Step(h, s, e))
  {
    hide Linked, Keyed, Unlink, Link, Enter, Reposition;
    match e
    case Inserting(x, r) => EnterValid(h, s, x, r);
    case BackMerging(x, n) => RepositionValid(h, s, x, s.rq[x].(len := s.rq[x].len + n));
    case FrontMerging(x, n) => ChangedValid(h, s, x, s.rq[x].(pos := s.rq[x].pos - n, len := s.rq[x].len + n));
    case Joining(x, next) =>
      var r := s.rq[x].(len := s.rq[x].len + s.rq[next].len);
      RepositionValid(h, s, x, r);
      RepositionHeld(h, s, x, r);
      LeaveValid(h, Reposition(h, s, x, r), next);
    case Forbidding(x) => ChangedValid(h, s, x, s.rq[x].(mergeable := false));
    case Leaving(x) => LeaveValid(h, s, x);
    case Finding(offset) =>
      BucketOnHash(h, s, h.of(offset));
      SweepValid(h, s, s.buckets[h.of(offset)], offset);
  }

  lemma EnterHeld(h: Hash, s: State, x: Id, r: Req)
    requires h.of(Key(r)) < |s.buckets|
    ensures Enter(h, s, x, r).rq == s.rq[x := r]
  {
  }

  lemma RepositionHeld(h: Hash, s: State, x: Id, r: Req)
    requires h.of(Key(r)) < |s.buckets|
    ensures Reposition(h, s, x, r).rq == s.rq[x := r]
  {
  }

  // -------------------------------------------------------------- sectors

  /** Request x is on sector n. */
  predicate Spans(s: State, x: Id, n: nat) {
    x in s.rq && s.rq[x].pos <= n < s.rq[x].pos + s.rq[x].len
  }

  ghost predicate Covered(s: State, n: nat) {
    exists x :: Spans(s, x, n)
  }

  /** A joined request begins where it began and ends where the other one ended. */
  lemma JoinedSpan(h: Hash, s: State, x: Id, next: Id)
    requires Valid(h, s) && Enabled(s, Joining(x, next))
    ensures var t := Step(h, s, Joining(x, next));
            && t.rq.Keys == s.rq.Keys - {next} && (forall y | y in t.rq && y != x :: t.rq[y] == s.rq[y])
            && t.rq[x].pos == s.rq[x].pos && t.rq[x].mergeable
            && t.rq[x].pos + t.rq[x].len == s.rq[next].pos + s.rq[next].len
  {
    RepositionHeld(h, s, x, s.rq[x].(len := s.rq[x].len + s.rq[next].len));
  }

  lemma JoiningCovers(h: Hash, s: State, x: Id, next: Id, n: nat)
    requires Valid(h, s) && Enabled(s, Joining(x, next))
    ensures Covered(Step(h, s, Joining(x, next)), n) <==> Covered(s, n)
  {
    hide Valid, Step;
    var t := Step(h, s, Joining(x, next));
    JoinedSpan(h, s, x, next);
    if y :| Spans(s, y, n) {
      assert Spans(t, if y == next then x else y, n);
    }
    if y :| Spans(t, y, n) {
      assert Spans(s, y, n) || Spans(s, next, n);
    }
  }

  lemma GrowingCovers(s: State, t: State, x: Id, r: Req, lo: nat, hi: nat, n: nat)
    requires x in s.rq && t.rq == s.rq[x := r]
    requires forall k: nat :: r.pos <= k < r.pos + r.len <==> Spans(s, x, k) || lo <= k < hi
    ensures Covered(t, n) <==> Covered(s, n) || lo <= n < hi
  {
    if y :| Spans(s, y, n) { assert Spans(t, y, n); }
    assert r.pos <= n < r.pos + r.len <==> Spans(s, x, n) || lo <= n < hi;
    if lo <= n < hi { assert Spans(t, x, n); }
    if y :| Spans(t, y, n) { assert Spans(s, y, n) || lo <= n < hi; }
  }

  /** What each event does to the sectors that the requests held are on. */
  lemma StepCovers(h: Hash, s: State, e: Event, n: nat)
    requires Valid(h, s) && Enabled(s, e)
    ensures var t := Step(h, s, e);
            match e
            case Inserting(x, r) => Covered(t, n) <==> Covered(s, n) || r.pos <= n < r.pos + r.len
            case BackMerging(x, k) =>
              Covered(t, n) <==> Covered(s, n) || 0 <= n - (s.rq[x].pos + s.rq[x].len) < k
            case FrontMerging(x, k) => Covered(t, n) <==> Covered(s, n) || 0 < s.rq[x].pos - n <= k
            case Leaving(x) => Covered(s, n) <==> Covered(t, n) || Spans(s, x, n)
            case _ => Covered(t, n) <==> Covered(s, n)
  {
    hide Linked, Keyed, Unlink, Link, Enter, Reposition, Sweep;
    var t := Step(h, s, e);
    match e
    case Inserting(x, r) =>
      EnterHeld(h, s, x, r);
      if y :| Spans(s, y, n) { assert Spans(t, y, n); }
      if r.pos <= n < r.pos + r.len { assert Spans(t, x, n); }
      if y :| Spans(t, y, n) { assert Spans(s, y, n) || y == x; }
    case BackMerging(x, k) =>
      var r := s.rq[x].(len := s.rq[x].len + k);
      RepositionHeld(h, s, x, r);
      GrowingCovers(s, t, x, r, Key(s.rq[x]), Key(s.rq[x]) + k, n);
    case FrontMerging(x, k) =>
      var r := s.rq[x].(pos := s.rq[x].pos - k, len := s.rq[x].len + k);
      GrowingCovers(s, t, x, r, r.pos, s.rq[x].pos, n);
    case Joining(x, next) => JoiningCovers(h, s, x, next, n);
    case Forbidding(x) => GrowingCovers(s, t, x, s.rq[x].(mergeable := false), 0, 0, n);
    case Leaving(x) =>
      if y :| Spans(s, y, n) { assert y == x || Spans(t, y, n); }
      if y :| Spans(t, y, n) { assert Spans(s, y, n); }
    case Finding(offset) =>
      BucketOnHash(h, s, h.of(offset));
      SweepValid(h, s, s.buckets[h.of(offset)], offset);
      if y :| Spans(s, y, n) { assert Spans(t, y, n); }
      if y :| Spans(t, y, n) { assert Spans(s, y, n); }
  }

  // --------------------------------------------------------------- lookup

  /** The first mergeable request on a list that ends at the offset. */
  function FindIn(rq: map<Id, Req>, l: seq<Id>, offset: nat): (r: Option<Id>) {
    if l == [] then None
    else if l[0] in rq && rq[l[0]].mergeable && Key(rq[l[0]]) == offset then Some(l[0])
    else FindIn(rq, l[1..], offset)
  }

  lemma {:induction false} FindInRight(rq: map<Id, Req>, l: seq<Id>, offset: nat)
    ensures var r := FindIn(rq, l, offset);
            if r.Some? then r.value in l && r.value in rq && rq[r.value].mergeable && Key(rq[r.value]) == offset
            else forall x | x in l && x in rq && rq[x].mergeable :: Key(rq[x]) != offset
    decreases l
  {
    if l != [] {
      FindInRight(rq, l[1..], offset);
      assert forall x | x in l :: x == l[0] || x in l[1..];
    }
  }

  ghost predicate Feasible(h: Hash, s: State, events: seq<Event>)
    requires Valid(h, s)
    decreases events
  {
    events != [] ==>
      Enabled(s, events[0]) && (StepValid(h, s, events[0]); Feasible(h, Step(h, s, events[0]), events[1..]))
  }

  ghost function Run(h: Hash, s: State, events: seq<Event>): (t: State)
    requires Valid(h, s) && Feasible(h, s, events)
    ensures Valid(h, t)
    decreases events
  {
    if events == [] then s else StepValid(h, s, events[0]); Run(h, Step(h, s, events[0]), events[1..])
  }

  function Init(h: Hash): (s: State) {
    State(map[], seq(h.size, _ => []), map[])
  }

  lemma InitValid(h: Hash)
    requires Proper(h)
    ensures Valid(h, Init(h))
  {
  }

  lemma HashAgrees(h: Hash, s: State, offset: nat)
    requires Valid(h, s)
    ensures h.of(offset) < |s.buckets|
    ensures var r := FindIn(s.rq, s.buckets[h.of(offset)], offset);
            if r.Some? then r.value in s.rq && s.rq[r.value].mergeable && Key(s.rq[r.value]) == offset
            else forall x | x in s.rq && s.rq[x].mergeable :: Key(s.rq[x]) != offset
  {
    FindInRight(s.rq, s.buckets[h.of(offset)], offset);
  }

  /**
    The hash agrees with a scan of everything held: after any insertions, merges, dispatches and
    lookups the bucket of an offset yields a request exactly when some mergeable request ends there.
  */
  lemma LookupIsComplete(h: Hash, events: seq<Event>, offset: nat)
    requires Proper(h) && Valid(h, Init(h)) && Feasible(h, Init(h), events)
    ensures var s := Run(h, Init(h), events);
            && h.of(offset) < |s.buckets|
            && (FindIn(s.rq, s.buckets[h.of(offset)], offset).Some? <==>
                exists x :: x in s.rq && s.rq[x].mergeable && s.rq[x].pos + s.rq[x].len == offset)
  {
    HashAgrees(h, Run(h, Init(h), events), offset);
  }

  // --------------------------------------------------------- the elevator

  class Elevator {
    const h: Hash
    var rq: map<Id, Req>
    var buckets: seq<seq<Id>>
    var at: map<Id, nat>

    function S(): (s: State)
      reads this
    {
      State(rq, buckets, at)
    }

    constructor (h: Hash)
      requires Proper(h)
      ensures this.h == h && S() == Init(h) && Valid(h, S())
    {
      this.h := h;
      rq, buckets, at := map[], seq(h.size, _ => []), map[];
    }

    /** __elv_rqhash_del. */
    method HashDel(x: Id)
      requires Linked(S())
      modifies this`buckets, this`at
      ensures S() == Unlink(old(S()), x)
    {
      if x in at {
        var b := at[x];
        buckets := buckets[b := Without(buckets[b], x)];
        at := at - {x};
      }
    }

    /** elv_rqhash_add; it must not be given a request that is on the hash. */
    method HashAdd(x: Id)
      requires x in rq && x !in at && h.of(Key(rq[x])) < |buckets|
      modifies this`buckets, this`at
      ensures S() == Link(h, old(S()), x)
    {
      var b := h.of(Key(rq[x]));
      buckets := buckets[b := [x] + buckets[b]];
      at := at[x := b];
    }

    /** elv_insert: a mergeable request goes on the hash. */
    method Add(x: Id, r: Req)
      requires Valid(h, S()) && x !in rq
      modifies this
      ensures Valid(h, S()) && S() == Step(h, old(S()), Inserting(x, r))
    {
      StepValid(h, S(), Inserting(x, r));
      rq := rq[x := r];
      if r.mergeable {
        HashAdd(x);
      }
    }

    /** elv_merged_request after a bio was merged: only a back merge moves the end. */
    method Merged(x: Id, back: bool, sectors: nat)
      requires Valid(h, S()) && Enabled(S(), if back then BackMerging(x, sectors) else FrontMerging(x, sectors))
      modifies this
      ensures Valid(h, S()) && S() == Step(h, old(S()), if back then BackMerging(x, sectors) else FrontMerging(x, sectors))
    {
      hide Linked, Keyed;
      LinkedOf(h, S(), x);
      StepValid(h, S(), if back then BackMerging(x, sectors) else FrontMerging(x, sectors));
      if back {
        HashDel(x);
        rq := rq[x := rq[x].(len := rq[x].len + sectors)];
        HashAdd(x);
      } else {
        rq := rq[x := rq[x].(pos := rq[x].pos - sectors, len := rq[x].len + sectors)];
      }
    }

    /** elv_merge_requests. */
    method MergeRequests(x: Id, next: Id)
      requires Valid(h, S()) && Enabled(S(), Joining(x, next))
      modifies this
      ensures Valid(h, S()) && S() == Step(h, old(S()), Joining(x, next))
    {
      hide Linked, Keyed;
      LinkedOf(h, S(), x);
      StepValid(h, S(), Joining(x, next));
      RepositionValid(h, S(), x, rq[x].(len := rq[x].len + rq[next].len));
      HashDel(x);
      rq := rq[x := rq[x].(len := rq[x].len + rq[next].len)];
      HashAdd(x);
      HashDel(next);
      rq := rq - {next};
    }

    /** A request is dispatched. */
    method Dispatch(x: Id)
      requires Valid(h, S()) && x in rq
      modifies this
      ensures Valid(h, S()) && S() == Step(h, old(S()), Leaving(x))
    {
      StepValid(h, S(), Leaving(x));
      HashDel(x);
      rq := rq - {x};
    }

    /**
      elv_rqhash_find: what the bucket yields, while the requests met on the way that may no
      longer be merged are taken off it.
    */
    method Find(offset: nat) returns (r: Option<Id>)
      requires Valid(h, S())
      modifies this`buckets, this`at
      ensures Valid(h, S()) && S() == Step(h, old(S()), Finding(offset))
      ensures h.of(offset) < |old(buckets)| && r == FindIn(rq, old(buckets)[h.of(offset)], offset)
      ensures r.Some? ==> r.value in rq && rq[r.value].mergeable && Key(rq[r.value]) == offset
      ensures r.None? ==> forall x | x in rq && rq[x].mergeable :: Key(rq[x]) != offset
    {
      hide Linked, Keyed, Unlink, Link, Enter, Reposition, Leave;
      HashAgrees(h, S(), offset);
      BucketOnHash(h, S(), h.of(offset));
      var l := buckets[h.of(offset)];
      var i := 0;
      while i < |l|
        invariant 0 <= i <= |l| && Valid(h, S())
        invariant FindIn(rq, l[i..], offset) == FindIn(rq, l, offset)
        invariant Sweep(S(), l[i..], offset) == Sweep(old(S()), l, offset)
        invariant forall j | i <= j < |l| :: l[j] in at && l[j] in rq
        invariant Distinct(l)
      {
        var x := l[i];
        assert l[i..][1..] == l[i + 1..];
        if !rq[x].mergeable {
          UnlinkedValid(h, S(), x);
          HashDel(x);
          i := i + 1;
          continue;
        }
        if Key(rq[x]) == offset {
          return Some(x);
        }
        i := i + 1;
      }
      return None;
    }
  }

  lemma LinkedOf(h: Hash, s: State, x: Id)
    requires Valid(h, s)
    ensures Linked(s) && |Unlink(s, x).buckets| == h.size && x !in Unlink(s, x).at && Unlink(s, x).rq == s.rq
  {
    UnlinkLinked(s, x);
  }

  lemma BucketOnHash(h: Hash, s: State, b: nat)
    requires Valid(h, s) && b < |s.buckets|
    ensures Distinct(s.buckets[b]) && forall j | 0 <= j < |s.buckets[b]| :: s.buckets[b][j] in s.at && s.buckets[b][j] in s.rq
  {
  }

  lemma UnlinkedValid(h: Hash, s: State, x: Id)
    requires Valid(h, s) && x in s.rq && !s.rq[x].mergeable
    ensures Linked(s) && Valid(h, Unlink(s, x)) && Unlink(s, x).rq == s.rq && Unlink(s, x).at == s.at - {x}
  {
    hide Linked, Unlink;
    UnlinkLinked(s, x);
    UnlinkSize(s, x);
  }
}
