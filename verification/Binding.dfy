/**
 Connecting and disconnecting half-channels (Channels/channel.c), with no send or receive in
 progress.  The connection list of a half is its meaning as a sequence with a cursor
 (IteratedList.dfy); mutexes are shown by whether a call leaves them locked.
 */
module Binding {
  import opened IteratedLists
  import opened Wrappers

  datatype Direction = ChanIn | ChanOut

  class Channel {
    const direction: Direction
    const typesize: nat
    var connections: seq<Channel>
    var cursor: nat
    var token: bool      // conns_sem
    var locked: bool     // mutex

    constructor (direction: Direction, typesize: nat)
      ensures this.direction == direction && this.typesize == typesize
      ensures connections == [] && cursor == 0 && !token && !locked
    {
      this.direction, this.typesize := direction, typesize;
      connections, cursor, token, locked := [], 0, false, false;
    }
  }

  predicate Compatible(a: Channel, b: Channel) {
    a.direction != b.direction && a.typesize == b.typesize
  }

  predicate Distinct<T(==)>(s: seq<T>) {
    forall j, k | 0 <= j < k < |s| :: s[j] != s[k]
  }

  ghost predicate Has(c: Channel, d: Channel)
    reads c`connections
  {
    d in c.connections
  }

  /** One half: no duplicate links, links inside the world, and a token exactly when it is connected
      and unoccupied. */
  ghost predicate Sound(world: set<Channel>, c: Channel)
    reads c`connections, c`cursor, c`token
  {
    && Distinct(c.connections) && (forall d | d in c.connections :: d in world)
    && (c.token <==> c.connections != [])
    && (c.connections != [] ==> c.cursor < |c.connections|)
  }

  /** Links stay inside the world, join compatible halves and are symmetric. */
  ghost predicate Wired(world: set<Channel>)
    reads world`connections, world`cursor, world`token
  {
    && (forall c | c in world :: Sound(world, c))
    && (forall c, d | c in world && d in world && Has(c, d) :: Compatible(c, d) && Has(d, c))
  }

  ghost predicate Unlocked(world: set<Channel>)
    reads world`locked
  {
    forall c | c in world :: !c.locked
  }

  /** channel_bind.  Binding a pair a second time is refused with both channel mutexes still locked. */
  method Bind(ghost world: set<Channel>, a: Channel, b: Channel) returns (ok: bool)
    requires Wired(world) && Unlocked(world) && a in world && b in world
    modifies a, b
    ensures Wired(world)
    ensures ok <==> Compatible(a, b) && b !in old(a.connections)
    ensures ok ==> a.connections == [b] + old(a.connections) && b.connections == [a] + old(b.connections)
    ensures ok ==> a.cursor == InsertCursor(|old(a.connections)|, old(a.cursor))
    ensures ok ==> b.cursor == InsertCursor(|old(b.connections)|, old(b.cursor))
    ensures !ok ==> a.connections == old(a.connections) && b.connections == old(b.connections)
    ensures !ok ==> a.cursor == old(a.cursor) && b.cursor == old(b.cursor)
    ensures Unlocked(world) <==> !(Compatible(a, b) && b in old(a.connections))
    ensures a.locked == b.locked
  {
    hide Wired, Distinct;
    if a.direction == b.direction { return false; }
    if a.typesize != b.typesize { return false; }
    var first, second := if a.direction == ChanIn then a else b, if a.direction == ChanIn then b else a;
    first.locked := true;
    second.locked := true;
    if b in a.connections { return false; }
    Link(world, a, b);
    a.locked := false;
    b.locked := false;
    ok := true;
  }

  method Link(ghost world: set<Channel>, a: Channel, b: Channel)
    requires Wired(world) && a in world && b in world && Compatible(a, b) && b !in a.connections
    modifies a`connections, a`cursor, a`token, b`connections, b`cursor, b`token
    ensures Wired(world)
    ensures a.connections == [b] + old(a.connections) && b.connections == [a] + old(b.connections)
    ensures a.cursor == InsertCursor(|old(a.connections)|, old(a.cursor))
    ensures b.cursor == InsertCursor(|old(b.connections)|, old(b.cursor))
  {
    assert !Has(a, b) && !Has(b, a) && Sound(world, a) && Sound(world, b);
    a.cursor, a.connections := InsertCursor(|a.connections|, a.cursor), [b] + a.connections;
    b.cursor, b.connections := InsertCursor(|b.connections|, b.cursor), [a] + b.connections;
    a.token := true;
    b.token := true;
    assert Sound(world, a) && Sound(world, b);
    forall c, d | c in world && d in world && Has(c, d) ensures Compatible(c, d) && Has(d, c) {
      if old(Has(c, d)) { assert old(Has(d, c)); }
    }
  }

  // ----- unbind -----

  function Odds<T>(s: seq<T>): seq<T> {
    if |s| < 2 then [] else [s[1]] + Odds(s[2..])
  }

  function Evens<T>(s: seq<T>): seq<T> {
    if s == [] then [] else if |s| == 1 then s else [s[0]] + Evens(s[2..])
  }

  /** The connection list after t rounds of unbind's loop. */
  function Thinned<T>(s: seq<T>, t: nat): seq<T> {
    if t == 0 || s == [] then s else if |s| == 1 then [] else [s[1]] + Thinned(s[2..], t - 1)
  }

  /** Round t removes position t of what is left, which is position 2t of the original. */
  lemma {:induction false} ThinnedStep<T>(s: seq<T>, t: nat)
    requires 2 * t < |s|
    ensures |Thinned(s, t)| == |s| - t && Thinned(s, t)[t] == s[2 * t]
    ensures RemoveAt(Thinned(s, t), t) == Thinned(s, t + 1)
    ensures |Evens(s)| == (|s| + 1) / 2 && Evens(s)[t] == s[2 * t]
    decreases s
  {
    if t == 0 {
      if |s| > 2 { ThinnedStep(s[2..], 0); }
      assert Thinned(s, 1) == s[1..];
    } else {
      ThinnedStep(s[2..], t - 1);
      assert RemoveAt(Thinned(s, t), t) == [s[1]] + RemoveAt(Thinned(s[2..], t - 1), t - 1);
    }
  }

  lemma {:induction false} ThinnedEnd<T>(s: seq<T>, t: nat)
    requires 2 * t >= |s|
    ensures Thinned(s, t) == Odds(s) && |Odds(s)| == |s| / 2 && |Evens(s)| <= t
    decreases s
  {
    if |s| > 1 { ThinnedEnd(s[2..], t - 1); }
  }

  /** Unbinding is complete exactly when there was at most one link. */
  lemma OddsEmpty<T>(s: seq<T>)
    ensures Odds(s) == [] <==> |s| <= 1
  {
  }

  function Minus<T(==)>(s: seq<T>, x: T): seq<T> {
    if IndexOf(s, x) < |s| then RemoveAt(s, IndexOf(s, x)) else s
  }

  lemma RemoveDistinct<T>(s: seq<T>, k: nat)
    requires Distinct(s) && k < |s|
    ensures var r := RemoveAt(s, k);
      && Distinct(r) && |r| == |s| - 1
      && (forall y | y in r :: y in s && y != s[k]) && (forall y | y in s && y != s[k] :: y in r)
    ensures IndexOf(s, s[k]) == k
  {
    var r := RemoveAt(s, k);
    forall y | y in s && y != s[k] ensures y in r {
      var j :| 0 <= j < |s| && s[j] == y;
      assert r[if j < k then j else j - 1] == y;
    }
    var i := IndexOf(s, s[k]);
    assert s[i] == s[k];
  }

  function DropCursor(n: nat, c: nat, k: nat): nat
    requires c < n && k < n
  {
    if n == 1 then 0 else RemoveCursor(n, c, k)
  }

  /** binary_sem_wait on a free token; with none the caller would sleep. */
  method WaitToken(c: Channel)
    requires c.token
    modifies c`token
    ensures !c.token
  {
    c.token := false;
  }

  /** One round: takes both tokens and both mutexes, IN half first, and removes the link on both sides. */
  method Drop(ghost world: set<Channel>, id: Channel, i: nat) returns (opposite: Channel)
    requires Wired(world) && Unlocked(world) && id in world && i < |id.connections|
    modifies world`connections, world`cursor, world`token, world`locked
    ensures Wired(world) && Unlocked(world)
    ensures opposite == old(id.connections)[i] && opposite in world && opposite != id
    ensures id.connections == RemoveAt(old(id.connections), i)
    ensures opposite.connections == Minus(old(opposite.connections), id)
    ensures forall c | c in world && c != id && c != opposite :: c.connections == old(c.connections)
  {
    hide RemoveAt, Minus, IndexOf, Distinct, DropCursor, RemoveCursor;
    opposite := id.connections[i];
    assert Sound(world, id) && Has(id, opposite) && Has(opposite, id) && Sound(world, opposite);
    var cin := if id.direction == ChanIn then id else opposite;
    var cout := if id.direction == ChanIn then opposite else id;
    WaitToken(cin);
    WaitToken(cout);
    cin.locked := true;
    cout.locked := true;
    Cut(world, id, opposite, i);
    id.locked := false;
    opposite.locked := false;
  }

  method Cut(ghost world: set<Channel>, id: Channel, opposite: Channel, ghost i: nat)
    requires id in world && opposite in world && i < |id.connections| && opposite == id.connections[i]
    requires Compatible(id, opposite) && Has(opposite, id) && !id.token && !opposite.token
    requires forall c | c in world && c != id && c != opposite :: Sound(world, c)
    requires forall c | c in {id, opposite} :: Distinct(c.connections) && c.cursor < |c.connections|
    requires forall c, d | c in world && d in c.connections :: d in world
    requires forall c, d | c in world && d in world && Has(c, d) :: Compatible(c, d) && Has(d, c)
    modifies id`connections, id`cursor, id`token, opposite`connections, opposite`cursor, opposite`token
    ensures Wired(world)
    ensures id.connections == RemoveAt(old(id.connections), i)
    ensures opposite.connections == Minus(old(opposite.connections), id)
  {
    var k := IndexOf(id.connections, opposite);
    var m := IndexOf(opposite.connections, id);
    assert id in {id, opposite} && opposite in {id, opposite};
    RemoveDistinct(id.connections, i);
    RemoveDistinct(opposite.connections, m);
    hide RemoveAt, IndexOf, Distinct;
    id.cursor := DropCursor(|id.connections|, id.cursor, k);
    id.connections := RemoveAt(id.connections, k);
    opposite.cursor := DropCursor(|opposite.connections|, opposite.cursor, m);
    opposite.connections := RemoveAt(opposite.connections, m);
    if id.connections != [] { id.token := true; }
    if opposite.connections != [] { opposite.token := true; }
    assert Sound(world, id) && Sound(world, opposite);
    forall c, d | c in world && d in world && Has(c, d) ensures Compatible(c, d) && Has(d, c) {
      assert old(Has(c, d)) && old(Has(d, c));
    }
  }

  /** channel_unbind.  The index advances while the list shrinks, so exactly the links at even positions go. */
  method Unbind(ghost world: set<Channel>, id: Channel)
    requires Wired(world) && Unlocked(world) && id in world
    modifies world`connections, world`cursor, world`token, world`locked
    ensures Wired(world) && Unlocked(world)
    ensures id.connections == Odds(old(id.connections))
    ensures forall c | c in world && c != id ::
              c.connections == if c in Evens(old(id.connections)) then Minus(old(c.connections), id)
                  else old(c.connections)
  {
    hide *;
    ghost var l := id.connections;
    ghost var e := Evens(l);
    var length := |id.connections|;
    var i := 0;
    SelfFree(world, id);
    ThinnedStart(l);
    while i < length
      invariant Wired(world) && Unlocked(world)
      invariant length == |id.connections| && id.connections == Thinned(l, i) && i <= |e|
      invariant forall c | c in world && c != id ::
                  c.connections == if c in e[..i] then Minus(old(c.connections), id) else old(c.connections)
      decreases |l| - 2 * i
    {
      if 2 * i >= |l| { ThinnedEnd(l, i); }
      ThinnedStep(l, i);
      var opposite := Drop(world, id, i);
      FreshPartner(l, i);
      length := |id.connections|;
      i := i + 1;
      assert e[..i] == e[..i - 1] + [opposite];
    }
    if 2 * i < |l| { ThinnedStep(l, i); }
    ThinnedEnd(l, i);
    assert e[..i] == e;
  }

  lemma ThinnedStart<T>(s: seq<T>)
    ensures Thinned(s, 0) == s
  {
  }

  lemma SelfFree(world: set<Channel>, id: Channel)
    requires Wired(world) && id in world
    ensures Distinct(id.connections)
  {
    assert Sound(world, id);
  }

  lemma {:induction false} EvensIn<T>(s: seq<T>)
    ensures |Evens(s)| == (|s| + 1) / 2
    ensures forall j | 0 <= j < |Evens(s)| :: 2 * j < |s| && Evens(s)[j] == s[2 * j]
    decreases s
  {
    if |s| > 1 { EvensIn(s[2..]); }
  }

  /** The partner removed in round i was not removed before. */
  lemma FreshPartner<T>(l: seq<T>, i: nat)
    requires Distinct(l) && 2 * i < |l|
    ensures i < |Evens(l)| && Evens(l)[i] == l[2 * i] && l[2 * i] !in Evens(l)[..i]
  {
    EvensIn(l);
  }
}
