/** Lists, mostly of things known by number, and taking one off or putting one in. */
module NumberLists {
  datatype Option<T> = None | Some(value: T)

  ghost predicate Distinct<T>(q: seq<T>) {
    forall i, j | 0 <= i < j < |q| :: q[i] != q[j]
  }

  function Index(q: seq<nat>, x: nat): (i: nat)
    requires x in q
    ensures i < |q| && q[i] == x
  {
    if q[0] == x then 0 else 1 + Index(q[1..], x)
  }

  lemma IndexAt(q: seq<nat>, i: nat)
    requires Distinct(q) && i < |q|
    ensures Index(q, q[i]) == i
  {
    hide Index;
    var j := Index(q, q[i]);
    assert q[j] == q[i];
  }

  function Remove(q: seq<nat>, i: nat): (r: seq<nat>)
    requires i < |q|
  {
    q[..i] + q[i + 1..]
  }

  function Without(q: seq<nat>, x: nat): (r: seq<nat>)
    requires x in q
  {
    Remove(q, Index(q, x))
  }

  function InsertAt<T>(q: seq<T>, i: nat, x: T): (r: seq<T>)
    requires i <= |q|
  {
    q[..i] + [x] + q[i..]
  }

  lemma Removed(q: seq<nat>, i: nat)
    requires Distinct(q) && i < |q|
    ensures Distinct(Remove(q, i))
    ensures forall y :: y in Remove(q, i) <==> y in q && y != q[i]
  {
    var r := Remove(q, i);
    forall y | y in q && y != q[i]
      ensures y in r
    {
      var j :| 0 <= j < |q| && q[j] == y;
      assert r[if j < i then j else j - 1] == y;
    }
  }

  lemma WithoutMembers(q: seq<nat>, x: nat)
    requires Distinct(q) && x in q
    ensures Distinct(Without(q, x))
    ensures forall y :: y in Without(q, x) <==> y in q && y != x
  {
    hide Remove;
    Removed(q, Index(q, x));
  }

  lemma Inserted(q: seq<nat>, i: nat, x: nat)
    requires i <= |q|
    ensures forall y :: y in InsertAt(q, i, x) <==> y in q || y == x
    ensures Distinct(q) && x !in q ==> Distinct(InsertAt(q, i, x))
  {
    var r := InsertAt(q, i, x);
    assert r[i] == x;
    forall y | y in q
      ensures y in r
    {
      var j :| 0 <= j < |q| && q[j] == y;
      assert r[if j < i then j else j + 1] == y;
    }
  }
}
