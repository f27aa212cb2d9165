/** Which request CFQ serves next within a queue: cfq_choose_req and cfq_find_next_rq. */
module CfqChoose {
  import opened NumberLists

  datatype Req = Req(id: nat, sector: nat, sync: bool, meta: bool)

  /** cfq_back_max in KiB and cfq_back_penalty. */
  datatype Tunables = Tunables(backMax: nat, penalty: nat)

  /** A request too far behind the head. */
  predicate Wraps(c: Tunables, r: Req, head: nat) {
    r.sector + 2 * c.backMax < head
  }

  function Distance(c: Tunables, r: Req, head: nat): (d: nat) {
    if r.sector >= head then r.sector - head else (head - r.sector) * c.penalty
  }

  /** cfq_choose_req. */
  function Choose(c: Tunables, r1: Option<Req>, r2: Option<Req>, head: nat): (r: Option<Req>) {
    if r1.None? || r1 == r2 then r2
    else if r2.None? then r1
    else
      var a, b := r1.value, r2.value;
      if a.sync && !b.sync then r1
      else if b.sync && !a.sync then r2
      else if a.meta && !b.meta then r1
      else if b.meta && !a.meta then r2
      else if !Wraps(c, a, head) && !Wraps(c, b, head) then
        var d1, d2 := Distance(c, a, head), Distance(c, b, head);
        if d1 < d2 then r1
        else if d2 < d1 then r2
        else if a.sector >= b.sector then r1
        else r2
      else if !Wraps(c, a, head) then r1
      else if !Wraps(c, b, head) then r2
      else if a.sector <= b.sector then r1
      else r2
  }

  // ------------------------------------------------------------ the order

  /** Synchronous requests come first, then metadata. */
  function Class(r: Req): (k: nat) {
    (if r.sync then 2 else 0) + (if r.meta then 1 else 0)
  }

  /**
    a is served before b or they tie: a higher class; then not wrapping; then the shorter way,
    and of two equally long ways the one ahead; and of two that wrap the one further behind.
  */
  predicate Precedes(c: Tunables, a: Req, b: Req, head: nat) {
    if Class(a) != Class(b) then Class(a) > Class(b)
    else if Wraps(c, a, head) != Wraps(c, b, head) then Wraps(c, b, head)
    else if Wraps(c, a, head) then a.sector <= b.sector
    else if Distance(c, a, head) != Distance(c, b, head) then Distance(c, a, head) < Distance(c, b, head)
    else a.sector >= b.sector
  }

  lemma PrecedesIsTotalOrder(c: Tunables, x: Req, y: Req, z: Req, head: nat)
    ensures Precedes(c, x, y, head) || Precedes(c, y, x, head)
    ensures Precedes(c, x, y, head) && Precedes(c, y, z, head) ==> Precedes(c, x, z, head)
    ensures Precedes(c, x, y, head) && Precedes(c, y, x, head) ==> x.sector == y.sector
  {
    hide Distance;
  }

  /** cfq_choose_req returns one of its arguments, and the one that precedes the other. */
  lemma ChooseTakesFirst(c: Tunables, a: Req, b: Req, head: nat)
    ensures var r := Choose(c, Some(a), Some(b), head);
            r.Some? && (r.value == a || r.value == b) &&
            Precedes(c, r.value, a, head) && Precedes(c, r.value, b, head)
  {
    hide Distance;
  }

  /** An asynchronous request does not win against a synchronous one, nor data against metadata. */
  lemma FlagsGoFirst(c: Tunables, a: Req, b: Req, head: nat)
    ensures var r := Choose(c, Some(a), Some(b), head);
            && r.Some? && (a.sector != b.sector ==> r == Choose(c, Some(b), Some(a), head))
            && (r.value.sync <==> a.sync || b.sync)
            && (a.sync == b.sync ==> (r.value.meta <==> a.meta || b.meta))
  {
    hide Distance, Wraps;
  }

  /**
    Going back to a instead of on to b, of the same flags: only over cfq_back_max KiB, in sectors
    of 512 bytes, and only if the way back, at cfq_back_penalty times its length, is the shorter.
  */
  lemma GoesBackIff(c: Tunables, a: Req, b: Req, head: nat)
    requires a.sync == b.sync && a.meta == b.meta && a.sector < head <= b.sector
    ensures Choose(c, Some(a), Some(b), head) == Some(a) <==>
            512 * (head - a.sector) <= 1024 * c.backMax && c.penalty * (head - a.sector) < b.sector - head
  {
    assert (head - a.sector) * c.penalty == c.penalty * (head - a.sector);
  }

  /** Of two requests behind the head, neither within reach, the one further behind. */
  lemma BothOutOfReach(c: Tunables, a: Req, b: Req, head: nat)
    requires a.sync == b.sync && a.meta == b.meta && a.sector <= b.sector < head
    requires 512 * (head - b.sector) > 1024 * c.backMax
    ensures Choose(c, Some(a), Some(b), head) == Some(a)
  {
  }

  // ------------------------------------------------------------ neighbours

  /** The sort_list of a queue: distinct sectors in ascending order. */
  ghost predicate Sorted(list: seq<Req>) {
    forall i, j | 0 <= i < j < |list| :: list[i].sector < list[j].sector
  }

  function Next(list: seq<Req>, i: nat): (r: Option<Req>)
    requires i < |list|
  {
    if i + 1 < |list| then Some(list[i + 1]) else if i > 0 then Some(list[0]) else None
  }

  function Prev(list: seq<Req>, i: nat): (r: Option<Req>)
    requires i < |list|
  {
    if i > 0 then Some(list[i - 1]) else None
  }

  /** cfq_find_next_rq looks only at the neighbours of the last request, and at the first of all. */
  function FindNext(c: Tunables, list: seq<Req>, i: nat): (r: Option<Req>)
    requires i < |list|
  {
    Choose(c, Next(list, i), Prev(list, i), list[i].sector)
  }

  lemma FartherCostsMore(d: nat, e: nat, p: nat)
    requires d <= e
    ensures d * p <= e * p
  {
  }

  /** Every other request is preceded by a neighbour, unless its class is higher. */
  lemma NeighbourPrecedes(c: Tunables, list: seq<Req>, i: nat, j: nat)
    requires Sorted(list) && i < |list| && j < |list| && j != i
    requires Next(list, i).Some? ==> Class(list[j]) <= Class(Next(list, i).value)
    requires Prev(list, i).Some? ==> Class(list[j]) <= Class(Prev(list, i).value)
    ensures var n, p, head := Next(list, i), Prev(list, i), list[i].sector;
            || (n.Some? && Precedes(c, n.value, list[j], head))
            || (p.Some? && Precedes(c, p.value, list[j], head))
  {
    var head, r := list[i].sector, list[j];
    if j > i {
      assert list[i + 1].sector <= r.sector;
    } else {
      var p := list[i - 1];
      assert r.sector <= p.sector < head;
      FartherCostsMore(head - p.sector, head - r.sector, c.penalty);
      if Wraps(c, r, head) && Wraps(c, p, head) {
        assert list[0].sector <= r.sector;
      }
    }
  }

  /** cfq_find_next_rq beats every other request whose class is not above that of a neighbour. */
  lemma FindNextBeats(c: Tunables, list: seq<Req>, i: nat, j: nat)
    requires Sorted(list) && i < |list| && j < |list| && j != i
    requires Next(list, i).Some? ==> Class(list[j]) <= Class(Next(list, i).value)
    requires Prev(list, i).Some? ==> Class(list[j]) <= Class(Prev(list, i).value)
    ensures FindNext(c, list, i).Some? && Precedes(c, FindNext(c, list, i).value, list[j], list[i].sector)
  {
    hide Precedes;
    NeighbourPrecedes(c, list, i, j);
    var n, p, head := Next(list, i), Prev(list, i), list[i].sector;
    if n.Some? && p.Some? {
      ChooseTakesFirst(c, n.value, p.value, head);
      var r := FindNext(c, list, i).value;
      PrecedesIsTotalOrder(c, r, n.value, list[j], head);
      PrecedesIsTotalOrder(c, r, p.value, list[j], head);
    }
  }

  /**
    With equal flags, looking at the neighbours finds the best of all other requests in the
    queue; a lone request has no successor.
  */
  lemma FindNextIsBest(c: Tunables, list: seq<Req>, i: nat)
    requires Sorted(list) && i < |list|
    requires forall j | 0 <= j < |list| :: Class(list[j]) == Class(list[i])
    ensures FindNext(c, list, i).None? <==> |list| == 1
    ensures FindNext(c, list, i).Some? ==>
              && FindNext(c, list, i).value in list && FindNext(c, list, i).value != list[i]
              && forall j | 0 <= j < |list| && j != i ::
                   Precedes(c, FindNext(c, list, i).value, list[j], list[i].sector)
  {
    hide Precedes, Distance, Class;
    forall j | 0 <= j < |list| && j != i
      ensures FindNext(c, list, i).Some? && Precedes(c, FindNext(c, list, i).value, list[j], list[i].sector)
    {
      FindNextBeats(c, list, i, j);
    }
    assert |list| > 1 ==> 0 <= (if i == 0 then 1 else 0) < |list|;
  }

  // ------------------------------------------------------- different flags

  /** The winner precedes all other requests of the queue. */
  ghost predicate BestOfAll(c: Tunables, list: seq<Req>, i: nat)
    requires i < |list|
  {
    FindNext(c, list, i).Some? &&
    forall j | 0 <= j < |list| && j != i :: Precedes(c, FindNext(c, list, i).value, list[j], list[i].sector)
  }

  /** There are two neighbours, and one wins because of its flags. */
  predicate FlagsDecide(list: seq<Req>, i: nat)
    requires i < |list|
  {
    Next(list, i).Some? && Prev(list, i).Some? && Class(Next(list, i).value) != Class(Prev(list, i).value)
  }

  /**
    The way to r, which has the flags of the winner w and is no neighbour, against the way to w: a
    winner ahead is beaten by shorter ways back; a winner just behind by ways ahead that are no
    longer and, if it is too far behind, by all others; the first request of all by every request
    that is not too far behind.
  */
  predicate Overlooked(c: Tunables, list: seq<Req>, i: nat, w: Req, r: Req)
    requires i < |list|
  {
    var head := list[i].sector;
    if w.sector > head then r.sector < head && !Wraps(c, r, head) && (head - r.sector) * c.penalty < w.sector - head
    else if Prev(list, i) == Some(w) then
      Wraps(c, w, head) || (r.sector > head && r.sector - head <= (head - w.sector) * c.penalty)
    else !Wraps(c, r, head)
  }

  /** What the neighbours hide: a higher class, or a better way when the flags have decided. */
  predicate Hidden(c: Tunables, list: seq<Req>, i: nat, w: Req, r: Req)
    requires i < |list|
  {
    Class(r) > Class(w) || (Class(r) == Class(w) && FlagsDecide(list, i) && Overlooked(c, list, i, w, r))
  }

  lemma WinnerIsNeighbour(c: Tunables, list: seq<Req>, i: nat)
    requires Sorted(list) && i < |list| && |list| > 1
    ensures var n, p, w := Next(list, i), Prev(list, i), FindNext(c, list, i);
            && w.Some? && (w == n || w == p) && w.value in list && w.value != list[i]
            && (n.Some? ==> Class(n.value) <= Class(w.value)) && (p.Some? ==> Class(p.value) <= Class(w.value))
  {
    hide Distance, Wraps;
  }

  lemma AheadAgainst(c: Tunables, list: seq<Req>, i: nat, w: Req, r: Req)
    requires i < |list| && w.sector > list[i].sector && r.sector != list[i].sector && Class(r) == Class(w)
    requires r.sector > list[i].sector ==> r.sector > w.sector
    ensures Precedes(c, w, r, list[i].sector) <==> !Overlooked(c, list, i, w, r)
  {
  }

  lemma BehindAgainst(c: Tunables, list: seq<Req>, i: nat, w: Req, r: Req)
    requires i < |list| && w.sector < list[i].sector && r.sector != list[i].sector && Class(r) == Class(w)
    requires Prev(list, i) == Some(w) && (r.sector < list[i].sector ==> r.sector < w.sector)
    ensures Precedes(c, w, r, list[i].sector) <==> !Overlooked(c, list, i, w, r)
  {
    var head := list[i].sector;
    if r.sector < head { FartherCostsMore(head - w.sector, head - r.sector, c.penalty); }
  }

  lemma FirstAgainst(c: Tunables, list: seq<Req>, i: nat, w: Req, r: Req)
    requires i < |list| && w.sector < r.sector < list[i].sector && Class(r) == Class(w) && Prev(list, i) != Some(w)
    ensures Precedes(c, w, r, list[i].sector) <==> !Overlooked(c, list, i, w, r)
  {
    var head := list[i].sector;
    FartherCostsMore(head - r.sector, head - w.sector, c.penalty);
  }

  /** Against a request of its own class, the winner by flags is beaten exactly by a better way. */
  lemma OverlookedPrecedes(c: Tunables, list: seq<Req>, i: nat, j: nat)
    requires Sorted(list) && i < |list| && j < |list| && j != i && FlagsDecide(list, i)
    requires var w := FindNext(c, list, i); w.Some? && w.value != list[j] && Class(w.value) == Class(list[j])
    ensures var w := FindNext(c, list, i).value;
            Precedes(c, w, list[j], list[i].sector) <==> !Overlooked(c, list, i, w, list[j])
  {
    hide Precedes, Overlooked, Choose, Class;
    WinnerIsNeighbour(c, list, i);
    var w, r, head := FindNext(c, list, i).value, list[j], list[i].sector;
    if Prev(list, i) == Some(w) {
      assert j < i ==> r.sector < w.sector;
      BehindAgainst(c, list, i, w, r);
    } else if i + 1 < |list| {
      assert j > i ==> r.sector > w.sector;
      AheadAgainst(c, list, i, w, r);
    } else {
      assert w.sector < r.sector < head;
      FirstAgainst(c, list, i, w, r);
    }
  }

  lemma HiddenPrecedes(c: Tunables, list: seq<Req>, i: nat, j: nat)
    requires Sorted(list) && i < |list| && j < |list| && j != i
    requires FindNext(c, list, i).Some? && FindNext(c, list, i).value != list[j]
    ensures var w := FindNext(c, list, i).value;
            Precedes(c, w, list[j], list[i].sector) <==> !Hidden(c, list, i, w, list[j])
  {
    hide Choose, Overlooked, Next, Prev;
    WinnerIsNeighbour(c, list, i);
    var w := FindNext(c, list, i).value;
    if Class(list[j]) == Class(w) {
      if FlagsDecide(list, i) { OverlookedPrecedes(c, list, i, j); } else { FindNextBeats(c, list, i, j); }
    }
  }

  /**
    With any flags, looking at the neighbours finds the best of all other requests exactly when
    none of them is hidden.
  */
  lemma FindNextIsBestIff(c: Tunables, list: seq<Req>, i: nat)
    requires Sorted(list) && i < |list| && |list| > 1
    ensures var w := FindNext(c, list, i);
            w.Some? && (BestOfAll(c, list, i) <==>
                        forall j | 0 <= j < |list| && j != i && list[j] != w.value :: !Hidden(c, list, i, w.value, list[j]))
  {
    hide Hidden, Precedes, FindNext;
    WinnerIsNeighbour(c, list, i);
    var w := FindNext(c, list, i).value;
    forall j | 0 <= j < |list| && j != i && list[j] != w
      ensures Precedes(c, w, list[j], list[i].sector) <==> !Hidden(c, list, i, w, list[j])
    {
      HiddenPrecedes(c, list, i, j);
    }
    PrecedesIsTotalOrder(c, w, w, w, list[i].sector);
  }

  /** A synchronous request one place further is missed. */
  lemma FlagsHideTheBest()
    ensures var c := Tunables(16 * 1024, 2);
            var list := [Req(0, 100, true, false), Req(1, 110, false, false), Req(2, 120, true, false)];
            Sorted(list) && FindNext(c, list, 0) == Some(list[1]) && !Precedes(c, list[1], list[2], 100)
  {
  }

  /** A short way back is missed, as the neighbour on that side lost for its flags. */
  lemma FlagsHideTheShortWay()
    ensures var c := Tunables(16 * 1024, 2);
            var list := [Req(0, 95, true, false), Req(1, 99, false, false), Req(2, 100, true, false), Req(3, 300, true, false)];
            Sorted(list) && FindNext(c, list, 2) == Some(list[3]) && !Precedes(c, list[3], list[0], 100)
  {
  }
}
