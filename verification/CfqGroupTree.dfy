/** The group service tree of CFQ: an rb-tree with a cached leftmost node, and min_vdisktime. */
module CfqGroupTree {
  import opened NumberLists
  import opened CfqGroups

  /** rb-tree order is by time, as far as it is before wrapping. */
  ghost predicate Ordered(tree: seq<Id>, time: map<Id, nat>) {
    && (forall x | x in tree :: x in time)
    && (forall i, j | 0 <= i < j < |tree| :: tree[i] != tree[j] && time[tree[i]] <= time[tree[j]])
  }

  /** Times that wrapped arithmetic can tell apart: all within 2^63 above the minimum. */
  ghost predicate Representable(tree: seq<Id>, time: map<Id, nat>, min: nat, v: map<Id, u64>, minV: u64) {
    && minV == Wrap(min)
    && (forall x | x in tree :: x in time && x in v && v[x] == Wrap(time[x]) && min <= time[x] < min + HALF)
  }

  /** Where a group is linked: behind all that are not later. */
  function PlaceFrom(tree: seq<Id>, v: map<Id, u64>, minV: u64, key: int, i: nat): (p: nat)
    requires i <= |tree| && forall x | x in tree :: x in v
    ensures i <= p <= |tree|
    decreases |tree| - i
  {
    if i < |tree| && key >= Delta(v[tree[i]], minV) then PlaceFrom(tree, v, minV, key, i + 1) else i
  }

  lemma {:induction false} PlaceRight(tree: seq<Id>, time: map<Id, nat>, min: nat, v: map<Id, u64>, minV: u64, t: nat, i: nat)
    requires Ordered(tree, time) && Representable(tree, time, min, v, minV) && min <= t < min + HALF && i <= |tree|
    requires forall j | 0 <= j < i :: time[tree[j]] <= t
    ensures var p := PlaceFrom(tree, v, minV, Delta(Wrap(t), minV), i);
            (forall j | 0 <= j < p :: time[tree[j]] <= t) && (forall j | p <= j < |tree| :: t < time[tree[j]])
    decreases |tree| - i
  {
    hide Wrap, Delta;
    DeltaExact(t, min);
    if i < |tree| {
      DeltaExact(time[tree[i]], min);
      if t >= time[tree[i]] {
        PlaceRight(tree, time, min, v, minV, t, i + 1);
      }
    }
  }

  lemma InsertOrdered(tree: seq<Id>, time: map<Id, nat>, p: nat, x: Id)
    requires Ordered(tree, time) && p <= |tree| && x !in tree && x in time
    requires forall j | 0 <= j < p :: time[tree[j]] <= time[x]
    requires forall j | p <= j < |tree| :: time[x] <= time[tree[j]]
    ensures Ordered(InsertAt(tree, p, x), time)
    ensures forall y :: y in InsertAt(tree, p, x) <==> y in tree || y == x
  {
    var r := InsertAt(tree, p, x);
    Inserted(tree, p, x);
    forall i, j | 0 <= i < j < |r|
      ensures r[i] != r[j] && time[r[i]] <= time[r[j]]
    {
      assert r[i] == if i < p then tree[i] else if i == p then x else tree[i - 1];
      assert r[j] == if j < p then tree[j] else if j == p then x else tree[j - 1];
    }
  }

  lemma RemoveOrdered(tree: seq<Id>, time: map<Id, nat>, x: Id)
    requires Ordered(tree, time) && x in tree
    ensures Ordered(Without(tree, x), time)
    ensures forall y :: y in Without(tree, x) <==> y in tree && y != x
    ensures tree[0] != x ==> Without(tree, x) != [] && Without(tree, x)[0] == tree[0]
  {
    WithoutMembers(tree, x);
  }

  /** struct cfq_rb_root for groups; `time` and `min` are the times that never wrapped. */
  class ServiceTree {
    const delay: nat  // CFQ_IDLE_DELAY
    var tree: seq<Id>
    var left: Option<Id>
    var active: Option<Id>
    var v: map<Id, u64>
    var minV: u64
    ghost var time: map<Id, nat>
    ghost var min: nat

    /** The cached leftmost is missing or the true minimum; min_vdisktime is at most every time. */
    ghost predicate Valid()
      reads this
    {
      && Ordered(tree, time)
      && Representable(tree, time, min, v, minV)
      && (left.Some? ==> tree != [] && tree[0] == left.value)
    }

    constructor (delay: nat)
      ensures Valid() && tree == [] && this.delay == delay
    {
      this.delay := delay;
      tree, left, active, v, minV := [], None, None, map[], 0;
      time, min := map[], 0;
    }

    /** __cfq_group_service_tree_add. */
    method Link(x: Id)
      requires Valid() && x !in tree && x in v && x in time && v[x] == Wrap(time[x]) && min <= time[x] < min + HALF
      modifies this`tree, this`left
      ensures Valid() && forall y :: y in tree <==> y in old(tree) || y == x
    {
      hide Wrap, Delta;
      ghost var t := time[x];
      PlaceRight(tree, time, min, v, minV, t, 0);
      var p := PlaceFrom(tree, v, minV, Delta(v[x], minV), 0);
      InsertOrdered(tree, time, p, x);
      if p == 0 {
        left := Some(x);
      }
      tree := InsertAt(tree, p, x);
    }

    /** cfq_rb_erase. */
    method Erase(x: Id)
      requires Valid() && x in tree
      modifies this`tree, this`left
      ensures Valid() && (forall y :: y in tree <==> y in old(tree) && y != x)
    {
      hide Wrap, Delta;
      RemoveOrdered(tree, time, x);
      if left == Some(x) {
        left := None;
      }
      tree := Without(tree, x);
    }

    /** cfq_group_service_tree_del of a group whose last queue is gone. */
    method Leave(x: Id)
      requires Valid() && x in tree
      modifies this`tree, this`left, this`active
      ensures Valid() && (forall y :: y in tree <==> y in old(tree) && y != x) && active != Some(x)
    {
      if active == Some(x) {
        active := None;
      }
      Erase(x);
    }

    /** cfq_group_service_tree_add of a group that was not backlogged: it joins at the end. */
    method Join(x: Id)
      requires Valid() && x !in tree
      requires tree != [] ==> time[tree[|tree| - 1]] + delay < min + HALF
      modifies this
      ensures Valid() && min == old(min) && forall y :: y in tree <==> y in old(tree) || y == x
      ensures time == old(time)[x := if old(tree) == [] then min else old(time)[old(tree)[|old(tree)| - 1]] + delay]
    {
      hide Wrap, Delta;
      if tree != [] {
        var last := tree[|tree| - 1];
        WrapPlus(time[last], delay);
        v := v[x := Wrap(v[last] + delay)];
        time := time[x := time[last] + delay];
      } else {
        v := v[x := minV];
        time := time[x := min];
      }
      Link(x);
    }

    /** cfq_get_next_cfqg: the least group, and min_vdisktime follows it. */
    method GetNext() returns (g: Option<Id>)
      requires Valid()
      modifies this`left, this`active, this`minV, this`min
      ensures Valid() && tree == old(tree) && time == old(time)
      ensures g.None? <==> tree == []
      ensures g.Some? ==> g.value in tree && active == g && (forall x | x in tree :: time[g.value] <= time[x])
      ensures g.Some? ==> min == time[g.value] && old(min) <= min
    {
      hide Wrap, Delta;
      if tree == [] {
        return None;
      }
      if left.None? {
        left := Some(tree[0]);
      }
      g := left;
      active := g;
      UpdateMin();
    }

    /**
      update_min_vdisktime: min_vdisktime moves on to the active group, but not beyond the leftmost
      one.  With the leftmost unknown it may pass other groups, which no caller lets happen.
    */
    method UpdateMin()
      requires Valid() && (active.Some? ==> active.value in tree)
      modifies this`minV, this`min
      ensures old(min) <= min && minV == Wrap(min)
      ensures min == if active.None? then old(min) else if left.Some? then time[left.value] else time[active.value]
      ensures active.None? || left.Some? ==> Valid()
    {
      hide Wrap, Delta;
      ghost var t: nat := min;
      var vdisktime := minV;
      if active.Some? {
        vdisktime := v[active.value];
        t := time[active.value];
      }
      if left.Some? {
        DeltaExact(time[left.value], t);
        vdisktime := MinVdisktime(vdisktime, v[left.value]);
        if time[left.value] < t { t := time[left.value]; }
      }
      DeltaExact(t, min);
      minV := MaxVdisktime(minV, vdisktime);
      min := t;
    }

    /** cfq_group_served: the group is charged off the tree, as its key must not change in it. */
    method Served(x: Id, charge: nat)
      requires Valid() && x in tree && time[x] + charge < min + HALF
      modifies this
      ensures Valid() && min == old(min) && (forall y :: y in tree <==> y in old(tree))
      ensures time == old(time)[x := old(time)[x] + charge]
    {
      hide Wrap, Delta;
      Erase(x);
      WrapPlus(time[x], charge);
      v := v[x := Wrap(v[x] + charge)];
      time := time[x := time[x] + charge];
      Link(x);
    }

    /**
      A pick and the charge that follows it: as long as the groups are within d of each other,
      and d fits into 63 bits, they stay within d and no comparison is upset by wrapping.
    */
    method PickAndCharge(slice: nat, weight: nat, word: int, ghost d: nat) returns (g: Id)
      requires Valid() && tree != [] && weight > 0 && word > 0
      requires d < HALF && ScaleSlice(slice, weight, word) <= d && Close(tree, time, d)
      modifies this
      ensures Valid() && (forall y :: y in tree <==> y in old(tree)) && Close(tree, time, d) && old(min) <= min
      ensures g in old(tree) && (forall x | x in tree :: old(time)[g] <= old(time)[x])
      ensures time == old(time)[g := old(time)[g] + ScaleSlice(slice, weight, word)]
    {
      hide Wrap, Delta, ScaleSlice;
      var p := GetNext();
      g := p.value;
      Served(g, ScaleSlice(slice, weight, word));
    }
  }

  ghost predicate Close(tree: seq<Id>, time: map<Id, nat>, d: nat) {
    forall x, y | x in tree && y in tree && x in time && y in time :: time[x] - time[y] <= d
  }
}
