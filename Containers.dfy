/**
 * The per-position container registry, as values.
 *
 * `body` lists the positions whose `suiAlert__<position>` container has been appended
 * to the document body, in the order they were created; `children` gives, for each
 * such position, the ids of the alert boxes the container holds, in document order.
 * Alert ids are handed out in call order, so "appended in call order" reads as
 * "each container's ids are strictly increasing".
 */
module Containers {

  datatype Registry = Registry(body: seq<string>, children: map<string, seq<nat>>)

  /** The document before the first alert. */
  const Empty: Registry := Registry([], map[])

  predicate NoDuplicates(s: seq<string>)
  {
    forall i, j | 0 <= i < j < |s| :: s[i] != s[j]
  }

  predicate Increasing(s: seq<nat>)
  {
    forall i, j | 0 <= i < j < |s| :: s[i] < s[j]
  }

  /**
   * The registry's invariant, for alert ids below `bound`: one container per
   * position, each created container known by its position, and every container's
   * alerts in call order.
   */
  ghost predicate Valid(r: Registry, bound: nat)
  {
    && NoDuplicates(r.body)
    && (forall p :: p in r.children <==> p in r.body)
    && (forall p | p in r.children :: Increasing(r.children[p]))
    && (forall p, x | p in r.children && x in r.children[p] :: x < bound)
  }

  /** The container for `position` holds the box `id`. */
  predicate Holds(r: Registry, position: string, id: nat)
  {
    position in r.children && id in r.children[position]
  }

  /** semanticui.alert.js:122-134: reuse the container for `position`, or append a new empty one. */
  function GetOrCreate(r: Registry, position: string): (r': Registry)
    ensures position in r'.children
    ensures r.body <= r'.body && |r'.body| <= |r.body| + 1
    ensures forall p | p in r.children :: p in r'.children && r'.children[p] == r.children[p]
  {
    if position in r.children then r
    else Registry(r.body + [position], r.children[position := []])
  }

  /** semanticui.alert.js:171: `alertBox.appendTo(gAlertContainer)`. */
  function Append(r: Registry, position: string, id: nat): (r': Registry)
    requires position in r.children
    ensures r'.body == r.body && r'.children.Keys == r.children.Keys
    ensures |r'.children[position]| == |r.children[position]| + 1
    ensures r'.children[position][|r.children[position]|] == id
  {
    r.(children := r.children[position := r.children[position] + [id]])
  }

  /** `alertBox.remove()`: the box leaves its container; the container stays. */
  function Detach(r: Registry, position: string, id: nat): (r': Registry)
    ensures r'.body == r.body && r'.children.Keys == r.children.Keys
    ensures position in r.children ==> id !in r'.children[position]
  {
    if position in r.children
    then r.(children := r.children[position := Without(r.children[position], id)])
    else r
  }

  /** `s` without `x`, the others kept in their order. */
  function Without(s: seq<nat>, x: nat): (r: seq<nat>)
    ensures forall y :: y in r <==> y in s && y != x
    ensures |r| <= |s|
    ensures multiset(r) == multiset(s)[x := 0]
    ensures Increasing(s) ==> Increasing(r)
  {
    if s == [] then []
    else
      assert s == [s[0]] + s[1..];
      var rest := Without(s[1..], x);
      if s[0] == x then rest
      else
        assert Increasing(s) ==> Increasing([s[0]] + rest) by {
          if Increasing(s) {
            assert Increasing(s[1..]);
            assert forall k | 0 <= k < |s[1..]| :: s[0] < s[1..][k];
            PrependIncreasing(s[0], rest);
          }
        }
        [s[0]] + rest
  }

  lemma PrependIncreasing(x: nat, s: seq<nat>)
    requires Increasing(s) && forall y | y in s :: x < y
    ensures Increasing([x] + s)
  {
    forall i, j | 0 <= i < j < |[x] + s| ensures ([x] + s)[i] < ([x] + s)[j] {
      if i == 0 {
        assert ([x] + s)[j] == s[j - 1];
        assert s[j - 1] in s;
      } else {
        assert ([x] + s)[i] == s[i - 1] && ([x] + s)[j] == s[j - 1];
      }
    }
  }

  /** Containers are never removed, and the body's order of containers never changes. */
  predicate Grows(r: Registry, r': Registry)
  {
    && r.body <= r'.body
    && r.children.Keys <= r'.children.Keys
  }

  lemma GetOrCreateValid(r: Registry, bound: nat, position: string)
    requires Valid(r, bound)
    ensures Valid(GetOrCreate(r, position), bound)
    ensures Grows(r, GetOrCreate(r, position))
    ensures position in GetOrCreate(r, position).children
    ensures position in r.children <==> GetOrCreate(r, position) == r
    ensures position !in r.children ==>
      && GetOrCreate(r, position).body == r.body + [position]
      && GetOrCreate(r, position).children[position] == []
      && forall p | p in r.children :: GetOrCreate(r, position).children[p] == r.children[p]
    ensures GetOrCreate(r, position).children.Keys == r.children.Keys + {position}
  {
  }

  /** Asking twice for the same position's container creates it at most once. */
  lemma GetOrCreateIdempotent(r: Registry, position: string)
    ensures GetOrCreate(GetOrCreate(r, position), position) == GetOrCreate(r, position)
  {
  }

  /** A fresh id lands at the end of its container, and call order is kept. */
  lemma AppendValid(r: Registry, bound: nat, position: string, id: nat)
    requires Valid(r, bound) && position in r.children && bound <= id
    ensures Valid(Append(r, position, id), id + 1)
    ensures Grows(r, Append(r, position, id))
    ensures Append(r, position, id).body == r.body
    ensures Append(r, position, id).children.Keys == r.children.Keys
    ensures Append(r, position, id).children[position] == r.children[position] + [id]
    ensures forall p | p in r.children && p != position ::
      Append(r, position, id).children[p] == r.children[p]
  {
    var r' := Append(r, position, id);
    var s := r.children[position];
    forall i, j | 0 <= i < j < |s + [id]| ensures (s + [id])[i] < (s + [id])[j] {
      if j == |s| {
        assert s[i] in r.children[position];
      }
    }
  }

  lemma DetachValid(r: Registry, bound: nat, position: string, id: nat)
    requires Valid(r, bound)
    ensures Valid(Detach(r, position, id), bound)
    ensures Grows(r, Detach(r, position, id))
    ensures Detach(r, position, id).body == r.body
    ensures Detach(r, position, id).children.Keys == r.children.Keys
    ensures forall p | p in r.children && p != position ::
      Detach(r, position, id).children[p] == r.children[p]
    ensures position in r.children ==> forall y ::
      y in Detach(r, position, id).children[position] <==> y in r.children[position] && y != id
  {
  }

  /** semanticui.alert.js:121-134 and :171 twice for one position: one container, both alerts, in call order. */
  lemma TwoAlertsOnePosition(position: string)
    ensures
      var once := Append(GetOrCreate(Empty, position), position, 0);
      var twice := Append(GetOrCreate(once, position), position, 1);
      twice == Registry([position], map[position := [0, 1]])
  {
    var created := GetOrCreate(Empty, position);
    assert created.body == [position];
    assert created.children == map[position := []];
    var once := Append(created, position, 0);
    assert once.children[position] == [0];
    assert once.children == map[position := [0]];
    assert once == Registry([position], map[position := [0]]);
    assert GetOrCreate(once, position) == once;
    assert [0] + [1] == [0, 1];
  }
}
