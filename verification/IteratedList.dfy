/**
 The cursor-carrying linked list of Collections/IteratedList*.c on real heap nodes.  The ghost
 fields give the list its meaning: the sequence of payloads and the index of the cursor.
 A null payload pointer is None.
 */
module IteratedLists {
  import opened Wrappers

  // ----- the list as a sequence with a cursor -----

  /** The position after c in a list of n nodes, wrapping to the first. */
  function Next(n: nat, c: nat): nat
    requires c < n
  {
    if c + 1 == n then 0 else c + 1
  }

  function InsertCursor(n: nat, c: nat): nat {
    if n == 0 then 0 else c + 1
  }

  /** The cursor after the node at k has gone: on the same node, or on the successor of the removed one. */
  function RemoveCursor(n: nat, c: nat, k: nat): nat
    requires c < n && k < n
  {
    if c < k then c else if c > k then c - 1 else if k + 1 == n then 0 else k
  }

  /** The first position of x in s, or |s|. */
  function IndexOf<T(==)>(s: seq<T>, x: T): (k: nat)
    ensures k <= |s| && x !in s[..k] && (k < |s| ==> s[k] == x)
  {
    if s == [] then 0 else if s[0] == x then 0 else
      assert s == [s[0]] + s[1..];
      IndexOf(s[1..], x) + 1
  }

  function RemoveAt<T>(s: seq<T>, k: nat): seq<T>
    requires k < |s|
  {
    s[..k] + s[k + 1..]
  }

  lemma RemoveAtIndex<T>(s: seq<T>, k: nat, j: nat)
    requires k < |s| && j < |s| - 1
    ensures |RemoveAt(s, k)| == |s| - 1 && RemoveAt(s, k)[j] == s[if j < k then j else j + 1]
  {
  }

  /** The list read cyclically from position c. */
  function Rotation<T>(s: seq<T>, c: nat): seq<T>
    requires c <= |s|
  {
    s[c..] + s[..c]
  }

  lemma {:induction false} IndexUnique<T>(s: seq<T>, x: T, k: nat)
    requires k < |s| && s[k] == x && x !in s[..k]
    ensures IndexOf(s, x) == k
  {
    if k > 0 {
      assert s[..k][0] == s[0] && s[..k][1..] == s[1..][..k - 1];
      IndexUnique(s[1..], x, k - 1);
    }
  }

  lemma HeadIndex<T>(s: seq<T>, x: T)
    requires s != []
    ensures IndexOf(s, x) == 0 <==> s[0] == x
  {
  }

  lemma RotationAt<T>(s: seq<T>, c: nat, j: nat)
    requires c < |s| && j < |s|
    ensures |Rotation(s, c)| == |s| && Rotation(s, c)[j] == s[if c + j < |s| then c + j else c + j - |s|]
  {
  }

  /** Removal keeps the cursor on its node, or moves it to the cyclic successor of the removed node. */
  lemma RemoveKeepsCursor<T>(s: seq<T>, c: nat, k: nat)
    requires c < |s| && k < |s| && |s| > 1
    ensures RemoveCursor(|s|, c, k) < |s| - 1
    ensures var r := RemoveAt(s, k);
            r[RemoveCursor(|s|, c, k)] == if c == k then s[Next(|s|, k)] else s[c]
  {
  }

  /** The payloads of n consecutive calls for the next element, and the cursor after them. */
  function Drain<T>(s: seq<T>, c: nat, n: nat): (seq<T>, nat)
    requires c < |s|
    ensures Drain(s, c, n).1 < |s|
    decreases n
  {
    if n == 0 then ([], c) else
      var (rest, d) := Drain(s, Next(|s|, c), n - 1);
      ([s[c]] + rest, d)
  }

  lemma {:induction false} DrainPrefix<T>(s: seq<T>, c: nat, n: nat)
    requires c < |s| && n <= |s| - c
    decreases n
    ensures Drain(s, c, n) == (s[c..c + n], if c + n == |s| && n > 0 then 0 else c + n)
  {
    if n > 0 {
      var d := Next(|s|, c);
      if n > 1 { DrainPrefix(s, d, n - 1); }
      var (rest, e) := Drain(s, d, n - 1);
      assert s[c..c + n] == [s[c]] + rest;
    } else {
      assert s[c..c + n] == [];
    }
  }

  lemma {:induction false} DrainSplit<T>(s: seq<T>, c: nat, m: nat, n: nat)
    requires c < |s|
    decreases m
    ensures var (a, d) := Drain(s, c, m);
            var (b, e) := Drain(s, d, n);
            Drain(s, c, m + n) == (a + b, e)
  {
    if m > 0 {
      DrainSplit(s, Next(|s|, c), m - 1, n);
      var (a, d) := Drain(s, Next(|s|, c), m - 1);
      assert [s[c]] + (a + Drain(s, d, n).0) == ([s[c]] + a) + Drain(s, d, n).0;
    } else {
      assert [] + Drain(s, c, n).0 == Drain(s, c, n).0;
    }
  }

  /** A full cycle of next calls reads every payload once, from the cursor on, and restores the cursor. */
  lemma FullCycle<T>(s: seq<T>, c: nat)
    requires c < |s|
    ensures Drain(s, c, |s|) == (Rotation(s, c), c)
  {
    DrainPrefix(s, c, |s| - c);
    DrainPrefix(s, 0, c);
    DrainSplit(s, c, |s| - c, c);
    assert s[c..|s|] == s[c..] && s[0..c] == s[..c];
  }

  // ----- the heap list -----

  class Node<T> {
    const payload: T
    var tail: Node?<T>

    constructor (payload: T, tail: Node?<T>)
      ensures this.payload == payload && this.tail == tail
    {
      this.payload, this.tail := payload, tail;
    }
  }

  /** The element and the node at k are gone, and the cursor is repaired. */
  ghost predicate CutAt<T>(m: seq<T>, ns: seq<Node<T>>, c: nat, m': seq<T>, ns': seq<Node<T>>, c': nat, k: nat) {
    && k < |m| && |ns| == |m| && c < |m|
    && m' == RemoveAt(m, k) && ns' == RemoveAt(ns, k)
    && c' == if |m| == 1 then 0 else RemoveCursor(|m|, c, k)
  }

  lemma CutHead<T>(m: seq<T>, ns: seq<Node<T>>, c: nat)
    requires m != [] && |ns| == |m| && c < |m|
    ensures CutAt(m, ns, c, m[1..], ns[1..], if |m| == 1 then 0 else RemoveCursor(|m|, c, 0), 0)
  {
  }

  lemma CutTail<T>(m: seq<T>, ns: seq<Node<T>>, c: nat, m': seq<T>, ns': seq<Node<T>>, c': nat)
    requires CutAt(m, ns, c, m', ns', c', 0)
    ensures m' == m[1..] && ns' == ns[1..]
    ensures (forall x | x in m' :: x in m) && (forall n | n in ns' :: n in ns)
  {
  }

  class IteratedList<T(==)> {
    var first: Node?<T>
    var next: Node?<T>
    ghost var nodes: seq<Node<T>>
    ghost var model: seq<T>
    ghost var at: nat

    ghost predicate Valid()
      reads this, nodes
    {
      && |nodes| == |model|
      && (forall k | 0 <= k < |nodes| :: nodes[k].payload == model[k])
      && (forall k | 0 <= k < |nodes| - 1 :: nodes[k].tail == nodes[k + 1])
      && (forall j, k | 0 <= j < k < |nodes| :: nodes[j] != nodes[k])
      && (if nodes == [] then first == null && next == null && at == 0
          else nodes[|nodes| - 1].tail == null && first == nodes[0] && at < |nodes| && next == nodes[at])
    }

    constructor ()
      ensures Valid() && model == [] && nodes == []
    {
      first, next := null, null;
      nodes, model, at := [], [], 0;
    }

    method Insert(element: Option<T>)
      requires Valid()
      modifies this
      ensures Valid()
      ensures element.None? ==> model == old(model) && at == old(at) && nodes == old(nodes)
      ensures element.Some? ==>
                model == [element.value] + old(model) && at == InsertCursor(|old(model)|, old(at)) &&
                |nodes| > 0 && fresh(nodes[0]) && nodes[1..] == old(nodes)
    {
      if element.None? { return; }
      var node := new Node(element.value, null);
      if first == null { next := node; }
      node.tail := first;
      at := InsertCursor(|model|, at);
      first := node;
      nodes, model := [node] + nodes, [element.value] + model;
    }

    method NextElement() returns (r: Option<T>)
      requires Valid()
      modifies this
      ensures Valid() && model == old(model) && nodes == old(nodes) && first == old(first)
      ensures model == [] ==> r == None && at == old(at)
      ensures model != [] ==> r == Some(model[old(at)]) && at == Next(|model|, old(at))
    {
      if first == null { return None; }
      r := Some(next.payload);
      at := Next(|nodes|, at);
      next := next.tail;
      if next == null { next := first; }
    }

    method Length() returns (count: nat)
      requires Valid()
      ensures count == |model|
    {
      count := 0;
      var current := first;
      while current != null
        invariant count <= |nodes|
        invariant current == if count < |nodes| then nodes[count] else null
        decreases |nodes| - count
      {
        current := current.tail;
        count := count + 1;
      }
    }

    method ElementN(index: nat) returns (r: Option<T>)
      requires Valid()
      ensures r == if index < |model| then Some(model[index]) else None
    {
      if first == null { return None; }
      var count := 0;
      var current := first;
      while current != null && count < index
        invariant count <= |nodes| && count <= index
        invariant current == if count < |nodes| then nodes[count] else null
        decreases |nodes| - count
      {
        current := current.tail;
        count := count + 1;
      }
      if current == null { return None; }
      r := Some(current.payload);
    }

    method Contains(element: Option<T>) returns (b: bool)
      requires Valid()
      ensures b <==> element.Some? && element.value in model
    {
      if first == null { return false; }
      var current := first;
      ghost var k := 0;
      while current != null
        invariant k <= |nodes|
        invariant current == if k < |nodes| then nodes[k] else null
        invariant element.Some? ==> element.value !in model[..k]
        decreases |nodes| - k
      {
        if Some(current.payload) == element { return true; }
        current := current.tail;
        k := k + 1;
      }
      b := false;
    }

    /** Removes the first node holding the element; the cursor stays on its node or moves to the successor. */
    method Remove(element: Option<T>)
      requires Valid()
      modifies this, nodes
      ensures Valid()
      ensures element.None? || IndexOf(old(model), element.value) == |old(model)| ==>
                model == old(model) && nodes == old(nodes) && at == old(at)
      ensures element.Some? && IndexOf(old(model), element.value) < |old(model)| ==>
                CutAt(old(model), old(nodes), old(at), model, nodes, at, IndexOf(old(model), element.value))
    {
      hide Valid, CutAt, IndexOf;
      HeadFacts();
      if first != null && element.Some? {
        HeadIndex(model, element.value);
        if first.payload == element.value {
          RemoveFirst();
          CutHead(old(model), old(nodes), old(at));
        } else {
          var previous, current, k := FindLater(element.value);
          if current != null { Unlink(previous, current, k); }
        }
      }
    }

    method RemoveFirst()
      requires Valid() && first != null
      modifies this
      ensures Valid() && old(model) != [] && model == old(model)[1..] && nodes == old(nodes)[1..]
      ensures at == if |old(model)| == 1 then 0 else RemoveCursor(|old(model)|, old(at), 0)
    {
      var oldFirst := first;
      first := oldFirst.tail;
      at := if |nodes| == 1 then 0 else RemoveCursor(|nodes|, at, 0);
      if next == oldFirst { next := first; }
      nodes, model := nodes[1..], model[1..];
    }

    /** The node holding x and the one before it, when x is not at the head. */
    method FindLater(x: T) returns (previous: Node<T>, current: Node?<T>, ghost k: nat)
      requires Valid() && first != null && first.payload != x
      ensures k == IndexOf(model, x) && 1 <= k <= |nodes| && previous == nodes[k - 1]
      ensures current == if k < |nodes| then nodes[k] else null
    {
      previous, current, k := first, first.tail, 1;
      while current != null && current.payload != x
        invariant 1 <= k <= |nodes| && previous == nodes[k - 1]
        invariant current == if k < |nodes| then nodes[k] else null
        invariant x !in model[..k]
        decreases |nodes| - k
      {
        previous := current;
        current := current.tail;
        k := k + 1;
      }
      if k < |nodes| { IndexUnique(model, x, k); }
      else { assert model[..k] == model; }
    }

    /** Moves the cursor on, if it stands on the node about to go. */
    method StepOff(current: Node<T>, ghost k: nat)
      requires Valid() && 1 <= k < |nodes| && current == nodes[k]
      modifies this
      ensures Valid() && model == old(model) && nodes == old(nodes)
      ensures at == if old(at) == k then Next(|nodes|, k) else old(at)
    {
      if next == current { next := current.tail; }
      if next == null { next := first; }
      at := if at == k then Next(|nodes|, k) else at;
    }

    /** The cursor repair and the unlinking of a node that is not the first. */
    method Unlink(previous: Node<T>, current: Node<T>, ghost k: nat)
      requires Valid() && 1 <= k < |nodes| && previous == nodes[k - 1] && current == nodes[k]
      modifies this, previous
      ensures Valid() && CutAt(old(model), old(nodes), old(at), model, nodes, at, k)
    {
      StepOff(current, k);
      ghost var ns, ms := nodes, model;
      previous.tail := current.tail;
      at := if at < k then at else at - 1;
      nodes, model := RemoveAt(ns, k), RemoveAt(ms, k);
      assert |nodes| == |ns| - 1 && |model| == |ms| - 1;
      hide RemoveAt;
      forall j | 0 <= j < |nodes| ensures nodes[j].payload == model[j] {
        RemoveAtIndex(ns, k, j);
        RemoveAtIndex(ms, k, j);
      }
      forall j | 0 <= j < |nodes|
        ensures nodes[j].tail == if j == |nodes| - 1 then null else nodes[j + 1]
      {
        RemoveAtIndex(ns, k, j);
        if j < |nodes| - 1 { RemoveAtIndex(ns, k, j + 1); }
      }
      forall i, j | 0 <= i < j < |nodes| ensures nodes[i] != nodes[j] {
        RemoveAtIndex(ns, k, i);
        RemoveAtIndex(ns, k, j);
      }
      RemoveAtIndex(ns, k, 0);
      RemoveAtIndex(ns, k, at);
    }

    lemma HeadFacts()
      requires Valid()
      ensures |nodes| == |model| && (first == null <==> model == [])
      ensures model != [] ==> first.payload == model[0] && at < |model|
    {
    }

    /** Examines payloads cyclically from the cursor until f holds or the starting payload comes round
        again.  `seen` is the number of payloads examined. */
    method Search(f: T -> bool) returns (r: Option<T>, ghost seen: nat)
      requires Valid()
      modifies this
      ensures Valid() && model == old(model) && nodes == old(nodes) && first == old(first)
      ensures model == [] ==> r == None && seen == 0 && at == old(at)
      ensures model != [] ==>
                var c := Rotation(model, old(at));
                && 0 < seen <= |model|
                && (forall j | 0 < j < seen :: c[j] != c[0])
                && (forall j | 0 <= j < seen - 1 :: !f(c[j]))
                && (r.Some? ==> r.value == c[seen - 1] && f(r.value) && at == Wrapped(|model|, old(at) + seen))
                && (r.None? ==> !f(c[seen - 1]) && (seen == |model| || c[seen] == c[0]) &&
                                at == Wrapped(|model|, old(at) + seen + 1))
    {
      hide Valid, Rotation, Next, Wrapped;
      seen := 0;
      HeadFacts();
      if model != [] { WrappedStep(|model|, at, 0); }
      var start := NextElement();
      var current := start;
      if current.Some? {
        ghost var c := Rotation(model, old(at));
        HeadFacts();
        RotationAt(model, old(at), 0);
        seen := 1;
        while true
          invariant Valid() && model == old(model) && nodes == old(nodes) && first == old(first) && model != []
          invariant 1 <= seen <= |model| && start == Some(c[0]) && current == Some(c[seen - 1])
          invariant forall j | 0 < j < seen :: c[j] != c[0]
          invariant forall j | 0 <= j < seen - 1 :: !f(c[j])
          invariant at == Wrapped(|model|, old(at) + seen)
          decreases |model| - seen
        {
          if f(current.value) { return current, seen; }
          WrappedStep(|model|, old(at), seen);
          current := NextElement();
          RotationAt(model, old(at), if seen == |model| then 0 else seen);
          assert current == if seen == |model| then Some(c[0]) else Some(c[seen]);
          if current == start { break; }
          seen := seen + 1;
        }
      }
      r := None;
    }
  }

  /** A position counted past the end of the list once or twice. */
  function Wrapped(n: nat, p: nat): nat {
    if p < n then p else if p < 2 * n then p - n else p - 2 * n
  }

  lemma WrappedStep(n: nat, a: nat, s: nat)
    requires a < n && s <= n
    ensures Wrapped(n, a + s) == (if a + s < n then a + s else a + s - n) < n
    ensures Next(n, Wrapped(n, a + s)) == Wrapped(n, a + s + 1)
  {
  }
}
