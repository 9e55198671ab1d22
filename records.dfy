/** The list updates the CRUD pages apply after a successful request:
    `[...xs, d]`, `xs.map(x => x.id === d.id ? d : x)` and `xs.filter(x => x.id !== id)`. */
module Records {

  function Append<T>(xs: seq<T>, d: T): (r: seq<T>)
    ensures |r| == |xs| + 1 && r[..|xs|] == xs && r[|xs|] == d
  {
    xs + [d]
  }

  /** Every entry with `d`'s id becomes `d`; the rest, and the length, stay. */
  function ReplaceById<T>(xs: seq<T>, idOf: T -> int, d: T): (r: seq<T>)
    ensures |r| == |xs|
    ensures forall i :: 0 <= i < |xs| ==> r[i] == if idOf(xs[i]) == idOf(d) then d else xs[i]
  {
    seq(|xs|, i requires 0 <= i < |xs| => if idOf(xs[i]) == idOf(d) then d else xs[i])
  }

  /** The entries whose id is not `id`, in their order. */
  function RemoveById<T>(xs: seq<T>, idOf: T -> int, id: int): (r: seq<T>)
    ensures forall i :: 0 <= i < |r| ==> r[i] in xs && idOf(r[i]) != id
    ensures forall i :: 0 <= i < |xs| && idOf(xs[i]) != id ==> xs[i] in r
    ensures |r| <= |xs|
  {
    if xs == [] then []
    else (if idOf(xs[0]) != id then [xs[0]] else []) + RemoveById(xs[1..], idOf, id)
  }

  /** Removal works piecewise, so the kept entries stay in their order. */
  lemma {:induction false} RemoveConcat<T>(a: seq<T>, b: seq<T>, idOf: T -> int, id: int)
    ensures RemoveById(a + b, idOf, id) == RemoveById(a, idOf, id) + RemoveById(b, idOf, id)
    decreases |a|
  {
    if a == [] {
      assert a + b == b;
    } else {
      assert (a + b)[1..] == a[1..] + b;
      RemoveConcat(a[1..], b, idOf, id);
    }
  }

  /** Removing an id no entry has changes nothing. */
  lemma {:induction false} RemoveAbsent<T>(xs: seq<T>, idOf: T -> int, id: int)
    requires forall i :: 0 <= i < |xs| ==> idOf(xs[i]) != id
    ensures RemoveById(xs, idOf, id) == xs
    decreases |xs|
  {
    if xs != [] {
      RemoveAbsent(xs[1..], idOf, id);
      assert xs == [xs[0]] + xs[1..];
    }
  }

  /** Creating an entry with a fresh id and deleting it again gives the list back. */
  lemma CreateThenDelete<T>(xs: seq<T>, idOf: T -> int, d: T)
    requires forall i :: 0 <= i < |xs| ==> idOf(xs[i]) != idOf(d)
    ensures RemoveById(Append(xs, d), idOf, idOf(d)) == xs
  {
    RemoveConcat(xs, [d], idOf, idOf(d));
    RemoveAbsent(xs, idOf, idOf(d));
    assert RemoveById([d], idOf, idOf(d)) == [];
  }

  /** After a replace, a delete of the same id removes the new entry and keeps the rest. */
  lemma {:induction false} ReplaceThenDelete<T>(xs: seq<T>, idOf: T -> int, d: T)
    ensures RemoveById(ReplaceById(xs, idOf, d), idOf, idOf(d)) == RemoveById(xs, idOf, idOf(d))
    decreases |xs|
  {
    if xs != [] {
      var r := ReplaceById(xs, idOf, d);
      assert r[1..] == ReplaceById(xs[1..], idOf, d);
      ReplaceThenDelete(xs[1..], idOf, d);
    }
  }
}
