/**
  Command tags: a bit map of the tags in use with the request that holds each, shared by several
  queues.  A request is known by a number; it has a tag while it is in `tags`.
*/
module TagMap {
  import opened NumberLists

  type Rq = nat
  type Queue = nat

  type Slots = seq<Option<Rq>>

  /** Overrun is no return value: the old map is copied past the end of the new one. */
  datatype Outcome = Done | Busy | NoMemory | Overrun

  /** Bit t is set exactly when tag_index[t] holds a request, and that request has tag t. */
  ghost predicate Agree(bits: seq<bool>, index: Slots, tags: map<Rq, nat>) {
    && |bits| == |index|
    && (forall t | 0 <= t < |bits| :: bits[t] <==> index[t].Some?)
    && (forall t | 0 <= t < |index| && index[t].Some? :: index[t].value in tags && tags[index[t].value] == t)
    && (forall r | r in tags :: tags[r] < |index| && index[tags[r]] == Some(r))
  }

  /** Every tagged request is on the busy list of one queue, once. */
  ghost predicate Listed(busy: map<Queue, seq<Rq>>, tags: map<Rq, nat>) {
    && (forall q | q in busy :: Distinct(busy[q]) && forall r | r in busy[q] :: r in tags)
    && (forall q, p | q in busy && p in busy && q != p :: forall r | r in busy[q] :: r !in busy[p])
    && (forall r | r in tags :: exists q :: q in busy && r in busy[q])
  }

  /** Tags are never shared. */
  lemma TagsAreUnique(bits: seq<bool>, index: Slots, tags: map<Rq, nat>, r: Rq, s: Rq)
    requires Agree(bits, index, tags) && r in tags && s in tags && tags[r] == tags[s]
    ensures r == s
  {
    assert index[tags[r]] == Some(r) && index[tags[s]] == Some(s);
  }

  lemma AgreeAdded(bits: seq<bool>, index: Slots, tags: map<Rq, nat>, t: nat, r: Rq)
    requires Agree(bits, index, tags) && t < |bits| && !bits[t] && r !in tags
    ensures Agree(bits[t := true], index[t := Some(r)], tags[r := t])
  {
  }

  lemma AgreeRemoved(bits: seq<bool>, index: Slots, tags: map<Rq, nat>, r: Rq)
    requires Agree(bits, index, tags) && r in tags
    ensures tags[r] < |bits| && Agree(bits[tags[r] := false], index[tags[r] := None], tags - {r})
  {
  }

  /** A map copied into one of another depth. */
  function Grown<T>(s: seq<T>, depth: nat, free: T): (r: seq<T>)
    ensures |r| == depth
  {
    seq(depth, t requires 0 <= t < depth => if t < |s| then s[t] else free)
  }

  lemma AgreeGrown(bits: seq<bool>, index: Slots, tags: map<Rq, nat>, depth: nat)
    requires Agree(bits, index, tags) && |bits| <= depth
    ensures Agree(Grown(bits, depth, false), Grown(index, depth, None), tags)
  {
  }

  function Clamp(depth: nat, limit: nat): (d: nat) {
    if depth > limit then limit else depth
  }

  // ----------------------------------------------------------------- lists

  lemma ListedAdded(busy: map<Queue, seq<Rq>>, tags: map<Rq, nat>, q: Queue, r: Rq, t: nat)
    requires Listed(busy, tags) && q in busy && r !in tags
    ensures Listed(busy[q := [r] + busy[q]], tags[r := t])
  {
    var b := busy[q := [r] + busy[q]];
    assert r in b[q];
    forall x | x in tags
      ensures exists p :: p in b && x in b[p]
    {
      var p :| p in busy && x in busy[p];
      assert p in b && x in b[p];
    }
  }

  lemma ListedRemoved(busy: map<Queue, seq<Rq>>, tags: map<Rq, nat>, q: Queue, r: Rq)
    requires Listed(busy, tags) && q in busy && r in busy[q]
    ensures Listed(busy[q := Without(busy[q], r)], tags - {r})
  {
    hide Without, Distinct;
    WithoutMembers(busy[q], r);
    var b, u := busy[q := Without(busy[q], r)], tags - {r};
    forall x | x in u
      ensures exists p :: p in b && x in b[p]
    {
      var p :| p in busy && x in busy[p];
      assert p in b && x in b[p];
    }
  }

  // ------------------------------------------------------------- the map

  function Reversed(s: seq<Rq>): (r: seq<Rq>) {
    if s == [] then [] else Reversed(s[1..]) + [s[0]]
  }

  function Members(s: seq<Rq>): (m: set<Rq>) {
    set r | r in s
  }

  /** The tags that an asynchronous request leaves to synchronous ones. */
  function Depth(maxDepth: nat, sync: bool): (d: nat) {
    if sync || maxDepth <= 1 then maxDepth else if maxDepth == 2 then 1 else maxDepth - 2
  }

  /** How many tags are kept back for synchronous requests. */
  function KeptBack(maxDepth: nat): (n: nat) {
    if maxDepth >= 3 then 2 else if maxDepth == 2 then 1 else 0
  }

  /** While fewer synchronous requests have a tag than are kept back, the next one finds a tag. */
  lemma SyncFindsTag(bits: seq<bool>, index: Slots, tags: map<Rq, nat>, others: set<Rq>, maxDepth: nat)
    requires Agree(bits, index, tags) && maxDepth <= |bits|
    requires forall r | r in others && r in tags :: tags[r] < Depth(maxDepth, false)
    requires |tags.Keys - others| < KeptBack(maxDepth)
    ensures exists t :: 0 <= t < Depth(maxDepth, true) && !bits[t]
  {
    var held := tags.Keys - others;
    if bits[maxDepth - 1] {
      var r := index[maxDepth - 1].value;
      assert {r} <= held && |{r}| <= |held| by { Smaller({r}, held); }
      if bits[maxDepth - 2] {
        var p := index[maxDepth - 2].value;
        Smaller({p, r}, held);
      }
    }
  }

  lemma Smaller(a: set<Rq>, b: set<Rq>)
    requires a <= b
    ensures |a| <= |b|
  {
    assert |b| == |a| + |b - a| by { assert b == a + (b - a); }
  }

  /** struct blk_queue_tag, the busy lists of the queues that share it, and their dispatch queues. */
  class Tags {
    var bits: seq<bool>
    var index: Slots
    var maxDepth: nat
    var refs: nat
    var tags: map<Rq, nat>
    var busy: map<Queue, seq<Rq>>
    var dispatch: map<Queue, seq<Rq>>

    /** real_max_depth is the length of the arrays. */
    ghost predicate Valid()
      reads this
    {
      && Agree(bits, index, tags) && Listed(busy, tags) && maxDepth <= |bits|
      && busy.Keys == dispatch.Keys
    }

    constructor (depth: nat, queues: set<Queue>)
      ensures Valid() && tags == map[] && maxDepth == |bits| == depth && busy.Keys == queues && refs == |queues|
    {
      bits, index := seq(depth, _ => false), seq(depth, _ => None);
      maxDepth, refs, tags := depth, |queues|, map[];
      busy, dispatch := map q | q in queues :: [], map q | q in queues :: [];
    }

    /** blk_queue_find_tag, on tags of requests that are in flight. */
    method FindTag(tag: nat) returns (r: Option<Rq>)
      requires Valid()
      ensures forall x :: r == Some(x) <==> x in tags && tags[x] == tag
    {
      r := if tag >= |index| then None else index[tag];
    }

    /** find_first_zero_bit. */
    method FindFirstZero(depth: nat) returns (tag: nat)
      requires depth <= |bits|
      ensures tag <= depth && (forall t | 0 <= t < tag :: bits[t]) && (tag < depth ==> !bits[tag])
    {
      tag := 0;
      while tag < depth && bits[tag]
        invariant tag <= depth && forall t | 0 <= t < tag :: bits[t]
      {
        tag := tag + 1;
      }
    }

    /**
      blk_queue_start_tag: the lowest free tag below the depth, or none and nothing changed.  The
      request must not have a tag yet.
    */
    method StartTag(q: Queue, r: Rq, sync: bool, asyncInFlight: nat) returns (ok: bool)
      requires Valid() && q in busy && r !in tags
      modifies this
      ensures Valid() && maxDepth == old(maxDepth) && |bits| == |old(bits)| && dispatch == old(dispatch)
      ensures ok ==> exists t :: && 0 <= t < Depth(maxDepth, sync) && !old(bits)[t] && (forall u | 0 <= u < t :: old(bits)[u])
                                 && tags == old(tags)[r := t] && busy == old(busy)[q := [r] + old(busy)[q]]
      ensures ok && !sync ==> r in tags && tags[r] + KeptBack(maxDepth) < maxDepth
      ensures !ok ==> tags == old(tags) && busy == old(busy) &&
                      ((!sync && maxDepth > 1 && asyncInFlight > Depth(maxDepth, sync)) ||
                       forall t | 0 <= t < Depth(maxDepth, sync) :: bits[t])
    {
      hide Agree, Listed;
      AgreeLengths(bits, index, tags);
      var depth := maxDepth;
      if !sync && depth > 1 {
        depth := depth - 2;
        if depth == 0 {
          depth := 1;
        }
        if asyncInFlight > depth {
          return false;
        }
      }
      var tag := FindFirstZero(depth);
      if tag >= depth {
        return false;
      }
      AgreeAdded(bits, index, tags, tag, r);
      ListedAdded(busy, tags, q, r, tag);
      bits := bits[tag := true];
      tags := tags[r := tag];
      index := index[tag := Some(r)];
      busy := busy[q := [r] + busy[q]];
      return true;
    }

    /** blk_queue_end_tag of a tagged request: the tag is free again, and no other is touched. */
    method EndTag(q: Queue, r: Rq)
      requires Valid() && q in busy && r in busy[q]
      modifies this
      ensures Valid() && maxDepth == old(maxDepth) && |bits| == |old(bits)| && dispatch == old(dispatch)
      ensures r in old(tags) && tags == old(tags) - {r} && busy == old(busy)[q := Without(old(busy)[q], r)]
    {
      hide Agree, Listed, Without;
      ListedTagged(busy, tags, q, r);
      AgreeRemoved(bits, index, tags, r);
      AgreeLengths(bits, index, tags);
      ListedRemoved(busy, tags, q, r);
      var tag := tags[r];
      busy := busy[q := Without(busy[q], r)];
      tags := tags - {r};
      index := index[tag := None];
      bits := bits[tag := false];
    }

    /**
      blk_queue_resize_tags.  Shrinking only lowers the limit for new tags, so that the requests
      in flight keep theirs.  Growing limits the new depth to twice nr_requests and then copies as
      many entries as the old map had: it keeps every tag, unless the limited depth is below the
      old one.
    */
    method Resize(depth: nat, nrRequests: nat, memory: bool) returns (rc: Outcome)
      requires Valid()
      modifies this
      ensures rc == Overrun <==>
              depth > |old(bits)| && old(refs) == 1 && memory && Clamp(depth, 2 * nrRequests) < |old(bits)|
      ensures rc != Overrun ==> Valid() && tags == old(tags) && busy == old(busy) && dispatch == old(dispatch)
      ensures refs == old(refs)
      ensures depth <= |old(bits)| ==> rc == Done && maxDepth == depth && |bits| == |old(bits)|
      ensures rc == Busy <==> depth > |old(bits)| && refs != 1
      ensures rc == NoMemory <==> depth > |old(bits)| && refs == 1 && !memory
      ensures depth > |old(bits)| && rc == Done ==> maxDepth == |bits| == Clamp(depth, 2 * nrRequests)
      ensures rc == Busy || rc == NoMemory ==> bits == old(bits) && index == old(index) && maxDepth == old(maxDepth)
    {
      hide Agree, Listed;
      if depth <= |bits| {
        maxDepth := depth;
        return Done;
      }
      if refs != 1 {
        return Busy;
      }
      if !memory {
        return NoMemory;
      }
      var d := Clamp(depth, 2 * nrRequests);
      if d < |bits| {
        return Overrun;
      }
      AgreeGrown(bits, index, tags, d);
      bits, index, maxDepth := Grown(bits, d, false), Grown(index, d, None), d;
      return Done;
    }

    /**
      blk_queue_invalidate_tags: every tag of the queue is freed, no tag of another queue is, and
      the requests are put back in front of the dispatch queue in the order they were started.
    */
    method Invalidate(q: Queue)
      requires Valid() && q in busy
      modifies this
      ensures Valid() && busy == old(busy)[q := []]
      ensures tags == old(tags) - Members(old(busy)[q])
      ensures dispatch == old(dispatch)[q := Reversed(old(busy)[q]) + old(dispatch)[q]]
    {
      hide Agree, Listed, Without;
      ghost var list, tags0, busy0, back := busy[q], tags, busy, dispatch[q];
      ghost var i := 0;
      NoneGone(list, tags0);
      assert Reversed(list[..i]) + back == back;
      assert busy0[q := list] == busy0 && dispatch[q := back] == dispatch;
      while busy[q] != []
        invariant Valid() && 0 <= i <= |list|
        invariant busy == busy0[q := list[i..]]
        invariant tags == tags0 - Members(list[..i])
        invariant dispatch == old(dispatch)[q := Reversed(list[..i]) + back]
        decreases |list| - i
      {
        var r := busy[q][0];
        FirstGone(busy[q], r);
        EndTag(q, r);
        dispatch := dispatch[q := [r] + dispatch[q]];
        NextGone(list, i, tags0);
        assert [r] + (Reversed(list[..i]) + back) == Reversed(list[..i + 1]) + back;
        i := i + 1;
      }
      assert list[..i] == list;
    }
  }

  /** A map of ten tags, as an external one may be, that grows to twelve on a queue of four requests. */
  method ResizeOverruns() returns (rc: Outcome)
    ensures rc == Overrun
  {
    var t := new Tags(10, {0});
    rc := t.Resize(12, 4, true);
  }

  lemma AgreeLengths(bits: seq<bool>, index: Slots, tags: map<Rq, nat>)
    requires Agree(bits, index, tags)
    ensures |bits| == |index|
  {
  }

  lemma ListedTagged(busy: map<Queue, seq<Rq>>, tags: map<Rq, nat>, q: Queue, r: Rq)
    requires Listed(busy, tags) && q in busy && r in busy[q]
    ensures r in tags
  {
  }

  lemma FirstGone(s: seq<Rq>, r: Rq)
    requires s != [] && r == s[0]
    ensures r in s && Without(s, r) == s[1..]
  {
    assert s[..0] + s[1..] == s[1..];
  }

  lemma ReversedSnoc(s: seq<Rq>, r: Rq)
    ensures Reversed(s + [r]) == [r] + Reversed(s)
    decreases s
  {
    if s == [] {
      assert s + [r] == [r];
    } else {
      assert (s + [r])[1..] == s[1..] + [r] && (s + [r])[0] == s[0];
      ReversedSnoc(s[1..], r);
    }
  }

  lemma NoneGone(list: seq<Rq>, tags: map<Rq, nat>)
    ensures list[0..] == list && tags - Members(list[..0]) == tags && Reversed(list[..0]) == []
  {
  }

  lemma NextGone(list: seq<Rq>, i: nat, tags: map<Rq, nat>)
    requires i < |list|
    ensures list[i..][1..] == list[i + 1..]
    ensures tags - Members(list[..i]) - {list[i]} == tags - Members(list[..i + 1])
    ensures Reversed(list[..i + 1]) == [list[i]] + Reversed(list[..i])
  {
    assert list[..i + 1] == list[..i] + [list[i]];
    assert Members(list[..i + 1]) == Members(list[..i]) + {list[i]};
    ReversedSnoc(list[..i], list[i]);
  }
}

/**
  Queues that share a tag map hold different locks, so their steps interleave.  A tag is claimed
  by an atomic test-and-set of its bit before tag_index is written, and given up by clearing
  tag_index before the bit.
*/
module TagSteps {
  type Rq = nat

  datatype State = State(bits: set<nat>, index: map<nat, Rq>, claimed: map<nat, Rq>, releasing: set<nat>, tags: map<Rq, nat>)

  datatype Event =
    | Claim(r: Rq, t: nat)    // test_and_set_bit_lock; it changes nothing if the bit was set
    | Record(t: nat)          // tag_index[t] = rq
    | Drop(r: Rq)             // rq->tag = -1, tag_index[t] = NULL
    | Release(t: nat)         // clear_bit_unlock

  predicate Enabled(s: State, e: Event) {
    match e
    case Claim(r, _) => r !in s.tags
    case Record(t) => t in s.claimed
    case Drop(r) => r in s.tags && s.tags[r] in s.index
    case Release(t) => t in s.releasing
  }

  function Step(s: State, e: Event): (u: State)
    requires Enabled(s, e)
  {
    match e
    case Claim(r, t) =>
      if t in s.bits then s
      else s.(bits := s.bits + {t}, claimed := s.claimed[t := r], tags := s.tags[r := t])
    case Record(t) => s.(index := s.index[t := s.claimed[t]], claimed := s.claimed - {t})
    case Drop(r) =>
      var t := s.tags[r];
      s.(index := s.index - {t}, tags := s.tags - {r}, releasing := s.releasing + {t})
    case Release(t) => s.(bits := s.bits - {t}, releasing := s.releasing - {t})
  }

  /** A set bit is a tag that is recorded, about to be, or about to be given up: one of the three. */
  ghost predicate Locked(s: State) {
    && s.bits == s.index.Keys + s.claimed.Keys + s.releasing
    && s.index.Keys !! s.claimed.Keys && s.index.Keys !! s.releasing && s.claimed.Keys !! s.releasing
    && (forall t | t in s.index :: s.index[t] in s.tags && s.tags[s.index[t]] == t)
    && (forall t | t in s.claimed :: s.claimed[t] in s.tags && s.tags[s.claimed[t]] == t)
    && (forall r | r in s.tags ::
          var t := s.tags[r]; (t in s.index && s.index[t] == r) || (t in s.claimed && s.claimed[t] == r))
  }

  ghost predicate Feasible(s: State, events: seq<Event>)
    decreases events
  {
    events != [] ==> Enabled(s, events[0]) && Feasible(Step(s, events[0]), events[1..])
  }

  ghost function Run(s: State, events: seq<Event>): (t: State)
    requires Feasible(s, events)
    decreases events
  {
    if events == [] then s else Run(Step(s, events[0]), events[1..])
  }

  function Init(): (s: State) { State({}, map[], map[], {}, map[]) }

  lemma StepLocked(s: State, e: Event)
    requires Locked(s) && Enabled(s, e)
    ensures Locked(Step(s, e))
  {
  }

  lemma {:induction false} RunLocked(s: State, events: seq<Event>)
    requires Locked(s) && Feasible(s, events)
    ensures Locked(Run(s, events))
    decreases events
  {
    if events != [] {
      StepLocked(s, events[0]);
      RunLocked(Step(s, events[0]), events[1..]);
    }
  }

  /**
    In every interleaving two requests never have the same tag, and whenever no operation is in
    the middle a bit is set exactly when tag_index holds a request with that tag.
  */
  lemma TagsNeverShared(events: seq<Event>)
    requires Feasible(Init(), events)
    ensures var s := Run(Init(), events);
            && (forall r, q | r in s.tags && q in s.tags && s.tags[r] == s.tags[q] :: r == q)
            && (s.claimed == map[] && s.releasing == {} ==>
                  s.bits == s.index.Keys && forall t | t in s.bits :: s.index[t] in s.tags && s.tags[s.index[t]] == t)
  {
    RunLocked(Init(), events);
  }
}
