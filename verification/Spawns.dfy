/**
  Tearing down what was built on an algorithm: crypto_remove_spawns without a replacement.  A
  spawn stands for the use of an algorithm by an instance, which is itself an algorithm.
*/
module Spawns {
  import opened NumberLists

  type Alg = nat
  type Spawn = nat

  /** cra_users of every algorithm; the algorithm and the instance of every spawn. */
  datatype Graph = Graph(users: map<Alg, seq<Spawn>>, on: map<Spawn, Alg>, inst: map<Spawn, Alg>)

  /** Every spawn that has an algorithm is once on its list, and on no other. */
  ghost predicate Formed(g: Graph) {
    && g.on.Keys <= g.inst.Keys
    && (forall a | a in g.users :: Distinct(g.users[a]))
    && (forall a, s | a in g.users && s in g.users[a] :: s in g.on && g.on[s] == a)
    && (forall s | s in g.on :: g.on[s] in g.users && g.inst[s] in g.users && s in g.users[g.on[s]])
  }

  // --------------------------------------------------- what is built on alg

  /** A chain of spawns: the first is on alg, each other on the instance of the one before. */
  ghost predicate Path(g: Graph, alg: Alg, p: seq<Spawn>) {
    && p != []
    && (forall i | 0 <= i < |p| :: p[i] in g.on && p[i] in g.inst)
    && g.on[p[0]] == alg
    && (forall i | 0 < i < |p| :: g.on[p[i]] == g.inst[p[i - 1]])
  }

  /** The spawns of what is built on alg, at any remove. */
  ghost function Led(g: Graph, alg: Alg): (l: set<Spawn>) {
    set s | s in g.on && exists p :: Path(g, alg, p) && p[|p| - 1] == s
  }

  /** The instances built on alg, at any remove. */
  ghost function Built(g: Graph, alg: Alg): (b: set<Alg>) {
    set s | s in Led(g, alg) && s in g.inst :: g.inst[s]
  }

  /** With the spawns on alg, and with a spawn those on its instance. */
  ghost predicate Closed(g: Graph, alg: Alg, c: set<Spawn>) {
    forall s | s in g.on && (g.on[s] == alg || exists t :: t in c && t in g.inst && g.inst[t] == g.on[s]) :: s in c
  }

  lemma LedFirst(g: Graph, alg: Alg, s: Spawn)
    requires g.on.Keys <= g.inst.Keys && s in g.on && g.on[s] == alg
    ensures s in Led(g, alg)
  {
    assert Path(g, alg, [s]);
  }

  lemma LedOn(g: Graph, alg: Alg, s: Spawn, t: Spawn)
    requires g.on.Keys <= g.inst.Keys && s in Led(g, alg) && t in g.on && g.on[t] == g.inst[s]
    ensures t in Led(g, alg)
  {
    var p :| Path(g, alg, p) && p[|p| - 1] == s;
    assert Path(g, alg, p + [t]);
  }

  lemma {:induction false} PathStaysInside(g: Graph, alg: Alg, c: set<Spawn>, p: seq<Spawn>)
    requires Closed(g, alg, c) && Path(g, alg, p)
    ensures p[|p| - 1] in c
    decreases |p|
  {
    if |p| > 1 {
      assert Path(g, alg, p[..|p| - 1]);
      PathStaysInside(g, alg, c, p[..|p| - 1]);
    }
  }

  /** Led is the least closed set. */
  lemma LedIsLeast(g: Graph, alg: Alg, c: set<Spawn>)
    requires Closed(g, alg, c)
    ensures Led(g, alg) <= c
  {
    forall s | s in Led(g, alg)
      ensures s in c
    {
      var p :| Path(g, alg, p) && p[|p| - 1] == s;
      PathStaysInside(g, alg, c, p);
    }
  }

  // --------------------------------------------------------------- the walk

  /** Where the spawns are during the walk: still on a list, on the stack, or done with. */
  datatype Walk = Walk(users: map<Alg, seq<Spawn>>, top: seq<Spawn>, stack: seq<Spawn>, done: seq<Spawn>)

  ghost function Moved(w: Walk): (m: set<Spawn>) {
    (set s | s in w.stack) + (set s | s in w.done)
  }

  /** The list of an algorithm as it is now; that of alg itself has become the top list. */
  ghost function Now(w: Walk, alg: Alg, a: Alg): (l: seq<Spawn>) {
    if a == alg then w.top else if a in w.users then w.users[a] else []
  }

  /** A list holds the spawns of its algorithm that have not been moved. */
  ghost predicate Holds(g: Graph, a: Alg, l: seq<Spawn>, moved: set<Spawn>) {
    && Distinct(l)
    && (forall s | s in l :: s in g.on && g.on[s] == a && s !in moved)
    && (forall s | s in g.on && g.on[s] == a && s !in moved :: s in l)
  }

  ghost predicate Placed(g: Graph, alg: Alg, w: Walk) {
    && w.users.Keys == g.users.Keys && alg in w.users && w.users[alg] == []
    && forall a | a in g.users :: Holds(g, a, Now(w, alg, a), Moved(w))
  }

  lemma HoldsPushed(g: Graph, a: Alg, l: seq<Spawn>, moved: set<Spawn>)
    requires Holds(g, a, l, moved) && l != []
    ensures Holds(g, a, l[1..], moved + {l[0]})
  {
    assert forall s | s in l :: s == l[0] || s in l[1..];
  }

  lemma HoldsOther(g: Graph, a: Alg, l: seq<Spawn>, moved: set<Spawn>, s: Spawn)
    requires Holds(g, a, l, moved) && s in g.on && g.on[s] != a
    ensures Holds(g, a, l, moved + {s})
  {
  }

  /** Moving the first spawn of the list of a to the stack. */
  lemma PushPlaced(g: Graph, alg: Alg, w: Walk, v: Walk, a: Alg)
    requires Placed(g, alg, w) && a in g.users && Now(w, alg, a) != []
    requires v.users.Keys == w.users.Keys && v.users[alg] == [] && Now(v, alg, a) == Now(w, alg, a)[1..]
    requires forall b | b in g.users && b != a :: Now(v, alg, b) == Now(w, alg, b)
    requires v.stack == [Now(w, alg, a)[0]] + w.stack && v.done == w.done
    ensures Placed(g, alg, v) && Moved(v) == Moved(w) + {Now(w, alg, a)[0]}
    ensures Now(w, alg, a)[0] in g.on && g.on[Now(w, alg, a)[0]] == a && Now(w, alg, a)[0] !in Moved(w)
  {
    var l := Now(w, alg, a);
    var s := l[0];
    assert Moved(v) == Moved(w) + {s};
    assert s in l;
    forall b | b in g.users
      ensures Holds(g, b, Now(v, alg, b), Moved(v))
    {
      if b == a {
        HoldsPushed(g, a, l, Moved(w));
      } else {
        HoldsOther(g, b, Now(w, alg, b), Moved(w), s);
      }
    }
  }

  /** What has been moved is built on alg; the instances done with have no users left. */
  ghost predicate Justified(g: Graph, alg: Alg, w: Walk) {
    && Moved(w) <= Led(g, alg)
    && (forall s | s in w.done && s in g.inst :: Now(w, alg, g.inst[s]) == [])
    && (forall a | a in g.users && a != alg && a !in Built(g, alg) :: Now(w, alg, a) == g.users[a])
  }

  /** No spawn of alg itself has been moved. */
  ghost predicate Away(g: Graph, alg: Alg, w: Walk) {
    forall s | s in Moved(w) && s in g.inst :: g.inst[s] != alg
  }

  ghost predicate Walking(g: Graph, alg: Alg, w: Walk) {
    Formed(g) && alg in g.users && Placed(g, alg, w) && Justified(g, alg, w) && Away(g, alg, w)
  }

  lemma LedIsBuilt(g: Graph, alg: Alg, s: Spawn)
    requires s in Led(g, alg) && s in g.inst
    ensures g.inst[s] in Built(g, alg) && s in g.on
  {
  }

  /** What the walk finds on its way is built on alg. */
  lemma FoundIsLed(g: Graph, alg: Alg, w: Walk, a: Alg)
    requires Walking(g, alg, w) && a in g.users && Now(w, alg, a) != []
    requires a == alg || (w.stack != [] && w.stack[0] in g.inst && a == g.inst[w.stack[0]])
    ensures var s := Now(w, alg, a)[0];
            s in Led(g, alg) && s in g.on && s in g.inst && g.inst[s] in Built(g, alg) && g.inst[s] in g.users
  {
    hide Led, Built, Now;
    var s := Now(w, alg, a)[0];
    assert Holds(g, a, Now(w, alg, a), Moved(w));
    assert s in Now(w, alg, a);
    if a == alg { LedFirst(g, alg, s); } else { LedOn(g, alg, w.stack[0], s); }
    LedIsBuilt(g, alg, s);
  }

  /** A spawn moved from the list of a to the stack; a is alg, or the instance on top of the stack. */
  lemma PushWalks(g: Graph, alg: Alg, w: Walk, v: Walk, a: Alg)
    requires Walking(g, alg, w) && a in g.users && Now(w, alg, a) != []
    requires a == alg || (w.stack != [] && w.stack[0] in g.inst && a == g.inst[w.stack[0]])
    requires v.users.Keys == w.users.Keys && v.users[alg] == [] && Now(v, alg, a) == Now(w, alg, a)[1..]
    requires forall b | b in g.users && b != a :: Now(v, alg, b) == Now(w, alg, b)
    requires v.stack == [Now(w, alg, a)[0]] + w.stack && v.done == w.done
    requires Now(w, alg, a)[0] in g.inst && g.inst[Now(w, alg, a)[0]] != alg
    ensures Walking(g, alg, v) && Moved(v) == Moved(w) + {Now(w, alg, a)[0]} && Now(w, alg, a)[0] !in Moved(w)
  {
    hide Led, Built, Now, Placed, Formed;
    FoundIsLed(g, alg, w, a);
    PushPlaced(g, alg, w, v, a);
    if a != alg {
      assert w.stack[0] in Moved(w);
      LedIsBuilt(g, alg, w.stack[0]);
    }
    forall t | t in v.done && t in g.inst
      ensures Now(v, alg, g.inst[t]) == []
    {
      assert t in Moved(w);
      LedIsBuilt(g, alg, t);
      FormedInst(g, t);
    }
  }

  lemma FormedInst(g: Graph, s: Spawn)
    requires Formed(g) && s in g.on
    ensures g.inst[s] in g.users
  {
  }

  function Popped(w: Walk): (v: Walk)
    requires w.stack != []
  {
    w.(stack := w.stack[1..], done := [w.stack[0]] + w.done)
  }

  /** crypto_more_spawns moves a spawn on once its instance has no users left. */
  lemma PopWalks(g: Graph, alg: Alg, w: Walk)
    requires Walking(g, alg, w) && w.stack != []
    requires w.stack[0] in g.inst && Now(w, alg, g.inst[w.stack[0]]) == []
    ensures Walking(g, alg, Popped(w)) && Moved(Popped(w)) == Moved(w)
  {
    hide Led, Built, Formed, Holds;
    var v := Popped(w);
    assert Moved(v) == Moved(w);
    assert forall a :: Now(v, alg, a) == Now(w, alg, a);
  }

  /** With the top list and the stack empty, exactly the spawns built on alg have been done with. */
  lemma WalkEnds(g: Graph, alg: Alg, w: Walk)
    requires Walking(g, alg, w) && w.top == [] && w.stack == []
    ensures (set s | s in w.done) == Led(g, alg) && alg !in Built(g, alg)
    ensures forall a | a in g.users ::
              w.users[a] == if a == alg || a in Built(g, alg) then [] else g.users[a]
  {
    hide Led, Built;
    var c := set s | s in w.done;
    assert Moved(w) == c;
    forall s | s in g.on && (g.on[s] == alg || exists t :: t in c && t in g.inst && g.inst[t] == g.on[s])
      ensures s in c
    {
      assert Holds(g, g.on[s], Now(w, alg, g.on[s]), c);
      assert Now(w, alg, g.on[s]) == [];
    }
    LedIsLeast(g, alg, c);
    if alg in Built(g, alg) { BuiltHasSpawn(g, alg, alg); }
    forall a | a in g.users && a != alg && a in Built(g, alg)
      ensures w.users[a] == []
    {
      BuiltHasSpawn(g, alg, a);
    }
  }

  lemma BuiltHasSpawn(g: Graph, alg: Alg, a: Alg)
    requires a in Built(g, alg)
    ensures exists s :: s in Led(g, alg) && s in g.inst && g.inst[s] == a
  {
  }

  // ----------------------------------------------------------- the registry

  lemma StartWalks(g: Graph, alg: Alg, top: seq<Spawn>)
    requires Formed(g) && alg in g.users
    requires Distinct(top) && forall s :: s in top <==> s in g.users[alg]
    ensures Walking(g, alg, Walk(g.users[alg := []], top, [], []))
    ensures Moved(Walk(g.users[alg := []], top, [], [])) == {}
  {
    hide Led, Built;
    var w := Walk(g.users[alg := []], top, [], []);
    assert Moved(w) == {};
  }

  /** The list that the walk looks at: the users of the instance on top of the stack, or the top list. */
  ghost function Current(g: Graph, alg: Alg, w: Walk): (a: Alg) {
    if w.stack != [] && w.stack[0] in g.inst then g.inst[w.stack[0]] else alg
  }

  lemma CurrentUsed(g: Graph, alg: Alg, w: Walk)
    requires Walking(g, alg, w)
    ensures Current(g, alg, w) in g.users && Current(g, alg, w) in w.users
    ensures w.stack != [] ==> w.stack[0] in g.inst && Current(g, alg, w) == g.inst[w.stack[0]] != alg
    ensures Moved(w) <= g.inst.Keys
  {
    hide Built, Holds;
    if w.stack != [] {
      assert w.stack[0] in Moved(w);
      LedIsBuilt(g, alg, w.stack[0]);
    }
  }

  /** The lists and flags that crypto_remove_spawns works on. */
  class Registry {
    var users: map<Alg, seq<Spawn>>
    var on: map<Spawn, Alg>
    const inst: map<Spawn, Alg>
    var dead: set<Alg>
    var hashed: set<Alg>

    ghost function G(): (g: Graph)
      reads this
    {
      Graph(users, on, inst)
    }

    /** The users of alg, moved to a list of their own; list_move puts each in front. */
    method TakeUsers(alg: Alg) returns (top: seq<Spawn>)
      requires Formed(G()) && alg in users
      modifies this`users
      ensures users == old(users)[alg := []]
      ensures Distinct(top) && forall s :: s in top <==> s in old(users)[alg]
    {
      top := [];
      ghost var l := users[alg];
      ghost var i := 0;
      while users[alg] != []
        invariant 0 <= i <= |l| && alg in users && users == old(users)[alg := l[i..]]
        invariant |top| == i && forall j | 0 <= j < i :: top[j] == l[i - 1 - j]
        decreases |l| - i
      {
        top := [users[alg][0]] + top;
        users := users[alg := users[alg][1..]];
        i := i + 1;
      }
      forall s | s in l
        ensures s in top
      {
        var j :| 0 <= j < |l| && l[j] == s;
        assert top[i - 1 - j] == s;
      }
    }

    /** Moves the first spawn of the current list to the stack, unless its instance is alg: the BUG_ON. */
    method Push(alg: Alg, a: Alg, top: seq<Spawn>, stack: seq<Spawn>, done: seq<Spawn>, ghost g: Graph)
      returns (top': seq<Spawn>, stack': seq<Spawn>, next: Alg, bug: bool)
      requires Walking(g, alg, Walk(users, top, stack, done)) && a == Current(g, alg, Walk(users, top, stack, done))
      requires Now(Walk(users, top, stack, done), alg, a) != [] && g.inst == inst
      requires on == g.on - Moved(Walk(users, top, stack, done))
      modifies this`users, this`on
      ensures bug ==> alg in Built(g, alg)
      ensures !bug ==>
                && Walking(g, alg, Walk(users, top', stack', done))
                && next == Current(g, alg, Walk(users, top', stack', done))
                && Moved(Walk(old(users), top, stack, done)) < Moved(Walk(users, top', stack', done)) <= inst.Keys
                && on == g.on - Moved(Walk(users, top', stack', done))
    {
      hide Walking, Moved, Built, Led;
      ghost var w := Walk(users, top, stack, done);
      CurrentUsed(g, alg, w);
      WalkingShape(g, alg, w);
      FoundIsLed(g, alg, w, a);
      var s := if stack == [] then top[0] else users[a][0];
      top', stack', next, bug := top, stack, inst[s], inst[s] == alg;
      if bug {
        return;
      }
      if stack == [] {
        top' := top[1..];
      } else {
        users := users[a := users[a][1..]];
      }
      stack' := [s] + stack;
      ghost var v := Walk(users, top', stack', done);
      PushWalks(g, alg, w, v, a);
      on := on - {s};
      CurrentUsed(g, alg, v);
    }

    /** The descent: down to an instance that has no users left. */
    method Descend(alg: Alg, top: seq<Spawn>, stack: seq<Spawn>, done: seq<Spawn>, ghost g: Graph)
      returns (top': seq<Spawn>, stack': seq<Spawn>, bug: bool)
      requires Walking(g, alg, Walk(users, top, stack, done)) && g.inst == inst
      requires on == g.on - Moved(Walk(users, top, stack, done))
      modifies this`users, this`on
      ensures bug ==> alg in Built(g, alg)
      ensures !bug ==>
                && Walking(g, alg, Walk(users, top', stack', done))
                && on == g.on - Moved(Walk(users, top', stack', done))
                && var v, w := Walk(old(users), top, stack, done), Walk(users, top', stack', done);
                   Now(w, alg, Current(g, alg, w)) == [] && (Moved(v) < Moved(w) <= inst.Keys || w == v)
    {
      hide Walking, Moved, Built, Led;
      top', stack', bug := top, stack, false;
      ghost var w := Walk(users, top', stack', done);
      CurrentUsed(g, alg, w);
      var a := if stack == [] then alg else inst[stack[0]];
      WalkingShape(g, alg, w);
      while (if a == alg then top' else users[a]) != []
        invariant Walking(g, alg, Walk(users, top', stack', done)) && a == Current(g, alg, Walk(users, top', stack', done))
        invariant a in users && Moved(w) <= Moved(Walk(users, top', stack', done)) <= inst.Keys
        invariant Walk(users, top', stack', done) == w || Moved(w) < Moved(Walk(users, top', stack', done))
        invariant on == g.on - Moved(Walk(users, top', stack', done)) && !bug
        decreases inst.Keys - Moved(Walk(users, top', stack', done))
      {
        top', stack', a, bug := Push(alg, a, top', stack', done, g);
        if bug {
          return;
        }
        CurrentUsed(g, alg, Walk(users, top', stack', done));
      }
    }

    /**
      The walk ends on every graph.  It runs into its BUG_ON exactly when alg is built on itself, and
      otherwise finds just what is built on alg.
    */
    method WalkAll(alg: Alg, ghost g: Graph) returns (done: seq<Spawn>, bug: bool)
      requires g == G() && Formed(g) && alg in users
      modifies this`users, this`on
      ensures bug <==> alg in Built(g, alg)
      ensures !bug ==>
                && (set s | s in done) == Led(g, alg) && Led(g, alg) <= inst.Keys
                && users.Keys == old(users.Keys) && on == old(on) - Led(g, alg)
                && forall a | a in users :: users[a] == if a == alg || a in Built(g, alg) then [] else old(users)[a]
    {
      hide Walking, Moved, Built, Led;
      var top := TakeUsers(alg);
      var stack: seq<Spawn>;
      stack, done, bug := [], [], false;
      StartWalks(g, alg, top);
      assert g.on - {} == g.on;
      CurrentUsed(g, alg, Walk(users, top, stack, done));
      var more := true;
      while more
        invariant Walking(g, alg, Walk(users, top, stack, done)) && !bug
        invariant Moved(Walk(users, top, stack, done)) <= inst.Keys
        invariant on == g.on - Moved(Walk(users, top, stack, done))
        invariant !more ==> stack == [] && top == []
        decreases inst.Keys - Moved(Walk(users, top, stack, done)), |stack|, more
      {
        top, stack, bug := Descend(alg, top, stack, done, g);
        if bug {
          return;
        }
        CurrentUsed(g, alg, Walk(users, top, stack, done));
        if stack == [] {
          more := false;
        } else {
          PopWalks(g, alg, Walk(users, top, stack, done));
          stack, done := stack[1..], [stack[0]] + done;
        }
      }
      WalkEnds(g, alg, Walk(users, top, stack, done));
      WalkKeys(g, alg, Walk(users, top, stack, done));
      DoneIsMoved(Walk(users, top, stack, done));
    }

    /** crypto_remove_spawn: the instance dies, and is put on the removal list if its template can be held. */
    method RemoveSpawn(s: Spawn, templates: set<Alg>, list: seq<Alg>) returns (list': seq<Alg>)
      requires s in inst && inst[s] in users && users[inst[s]] == []
      modifies this`dead, this`hashed
      ensures dead == old(dead) + {inst[s]}
      ensures var a := inst[s];
              if a !in old(dead) && a in old(hashed) && a in templates
              then list' == [a] + list && hashed == old(hashed) - {a} else list' == list && hashed == old(hashed)
    {
      var a := inst[s];
      list' := list;
      if a in dead {
        assert dead == old(dead) + {a};
        return;
      }
      dead := dead + {a};
      if a !in hashed {
        return;
      }
      if a !in templates {
        return;
      }
      list' := [a] + list;
      hashed := hashed - {a};
      assert users[a] == [];
    }

    /**
      crypto_remove_spawns: of all algorithms exactly the instances built on alg, at any remove,
      die; each of them that was alive, registered and has its template is put on the removal
      list once, and nothing else is.  What is left can be torn down in the same way.
    */
    method RemoveSpawns(alg: Alg, templates: set<Alg>) returns (list: seq<Alg>, bug: bool)
      requires Formed(G()) && alg in users
      modifies this
      ensures bug <==> alg in Built(old(G()), alg)
      ensures !bug ==>
                && Formed(G()) && users.Keys == old(users.Keys)
                && dead == old(dead) + Built(old(G()), alg)
                && Distinct(list)
                && (forall a :: a in list <==> a in Built(old(G()), alg) && a !in old(dead) && a in old(hashed) && a in templates)
                && (forall a | a in users :: users[a] == if a == alg || a in Built(old(G()), alg) then [] else old(users)[a])
    {
      hide Led, Built, Formed;
      ghost var g := G();
      list := [];
      var done;
      done, bug := WalkAll(alg, g);
      if bug {
        return;
      }
      StillFormed(g, alg, G());
      ghost var after := users;
      var i := 0;
      while i < |done|
        invariant 0 <= i <= |done| && users == after && Formed(G())
        invariant dead == old(dead) + Insts(inst, done[..i])
        invariant Distinct(list) && (forall a | a in list :: a !in hashed)
        invariant forall a :: a in list <==> a in Insts(inst, done[..i]) && a !in old(dead) && a in old(hashed) && a in templates
        invariant forall a :: a in hashed <==> a in old(hashed) && a !in list
      {
        LedUsers(g, alg, done, i);
        InstsNext(inst, done, i);
        list := RemoveSpawn(done[i], templates, list);
        i := i + 1;
      }
      assert done[..i] == done;
      InstsBuilt(g, alg, done);
    }
  }

  ghost function Insts(inst: map<Spawn, Alg>, done: seq<Spawn>): (a: set<Alg>) {
    set s | s in done && s in inst :: inst[s]
  }

  lemma InstsNext(inst: map<Spawn, Alg>, done: seq<Spawn>, i: nat)
    requires i < |done| && done[i] in inst
    ensures Insts(inst, done[..i + 1]) == Insts(inst, done[..i]) + {inst[done[i]]}
  {
    assert done[..i + 1] == done[..i] + [done[i]];
    assert done[i] in done[..i + 1];
  }

  lemma InstsBuilt(g: Graph, alg: Alg, done: seq<Spawn>)
    requires (set s | s in done) == Led(g, alg)
    ensures Insts(g.inst, done) == Built(g, alg)
  {
    hide Led;
    assert forall s :: s in done <==> s in Led(g, alg);
  }

  lemma LedUsers(g: Graph, alg: Alg, done: seq<Spawn>, i: nat)
    requires Formed(g) && (set s | s in done) == Led(g, alg) && i < |done|
    ensures done[i] in g.inst && g.inst[done[i]] in g.users && g.inst[done[i]] in Built(g, alg)
  {
    assert done[i] in (set s | s in done);
    LedIsBuilt(g, alg, done[i]);
  }

  lemma WalkKeys(g: Graph, alg: Alg, w: Walk)
    requires Walking(g, alg, w)
    ensures w.users.Keys == g.users.Keys && Led(g, alg) <= g.inst.Keys
  {
  }

  lemma WalkingShape(g: Graph, alg: Alg, w: Walk)
    requires Walking(g, alg, w)
    ensures alg in w.users && w.users[alg] == []
  {
  }

  lemma DoneIsMoved(w: Walk)
    requires w.stack == []
    ensures Moved(w) == set s | s in w.done
  {
  }

  /** A spawn of what is built on alg is on alg, or on something built on alg. */
  lemma LedSource(g: Graph, alg: Alg, s: Spawn)
    requires s in Led(g, alg)
    ensures g.on[s] == alg || g.on[s] in Built(g, alg)
  {
    var p :| Path(g, alg, p) && p[|p| - 1] == s;
    if |p| > 1 {
      var q := p[..|p| - 1];
      assert Path(g, alg, q) && q[|q| - 1] == p[|p| - 2];
      assert p[|p| - 2] in Led(g, alg);
    }
  }

  /** Without what is built on alg the lists are in order. */
  lemma StillFormed(g: Graph, alg: Alg, f: Graph)
    requires Formed(g) && alg in g.users
    requires f.inst == g.inst && f.on == g.on - Led(g, alg) && f.users.Keys == g.users.Keys
    requires forall a | a in f.users :: f.users[a] == if a == alg || a in Built(g, alg) then [] else g.users[a]
    ensures Formed(f)
  {
    hide Led, Built;
    forall a, s | a in f.users && s in f.users[a] ensures s in f.on && f.on[s] == a {
      if s in Led(g, alg) { LedSource(g, alg, s); }
    }
    forall s | s in f.on ensures f.on[s] in f.users && f.inst[s] in f.users && s in f.users[f.on[s]] {
      if g.on[s] == alg {
        LedFirst(g, alg, s);
      } else if g.on[s] in Built(g, alg) {
        BuiltHasSpawn(g, alg, g.on[s]);
        var t :| t in Led(g, alg) && t in g.inst && g.inst[t] == g.on[s];
        LedOn(g, alg, t, s);
      }
    }
  }
}
