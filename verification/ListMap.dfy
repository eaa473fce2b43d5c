/**
 The list map of Collections/ListMap.c: entries with a key and a value that may be null, found by
 a search that starts wherever the list's cursor happens to stand.
 */
module ListMaps {
  import opened IteratedLists
  import opened Wrappers

  type Pairs<V> = seq<(string, Option<V>)>

  // ----- what the entries mean as a map -----

  ghost predicate UniqueKeys<V>(p: Pairs<V>) {
    forall j, k | 0 <= j < k < |p| :: p[j].0 != p[k].0
  }

  function AsMap<V>(p: Pairs<V>): map<string, Option<V>> {
    if p == [] then map[] else AsMap(p[1..])[p[0].0 := p[0].1]
  }

  /** An undeclared key and a key declared without a value both read as null. */
  function Lookup<V>(m: map<string, Option<V>>, key: string): Option<V> {
    if key in m then m[key] else None
  }

  lemma {:induction false} AsMapKeys<V>(p: Pairs<V>, key: string)
    ensures key in AsMap(p) <==> exists k :: 0 <= k < |p| && p[k].0 == key
  {
    if p != [] {
      AsMapKeys(p[1..], key);
      if k :| 0 <= k < |p| && p[k].0 == key {
        if k > 0 { assert p[1..][k - 1].0 == key; }
      }
      if key in AsMap(p[1..]) {
        var k :| 0 <= k < |p[1..]| && p[1..][k].0 == key;
        assert p[k + 1].0 == key;
      }
    }
  }

  /** With unique keys every entry is what the map says. */
  lemma {:induction false} AsMapAt<V>(p: Pairs<V>, k: nat)
    requires UniqueKeys(p) && k < |p|
    ensures p[k].0 in AsMap(p) && AsMap(p)[p[k].0] == p[k].1
  {
    if k > 0 {
      AsMapAt(p[1..], k - 1);
      assert p[1..][k - 1] == p[k];
    }
  }

  /** Writing one entry updates the map at that entry's key and nowhere else. */
  lemma {:induction false} AsMapUpdate<V>(p: Pairs<V>, k: nat, v: Option<V>)
    requires UniqueKeys(p) && k < |p|
    ensures UniqueKeys(p[k := (p[k].0, v)])
    ensures AsMap(p[k := (p[k].0, v)]) == AsMap(p)[p[k].0 := v]
  {
    var q := p[k := (p[k].0, v)];
    if k == 0 {
      assert q[1..] == p[1..];
    } else {
      AsMapUpdate(p[1..], k - 1, v);
      assert q[1..] == p[1..][k - 1 := (p[1..][k - 1].0, v)];
    }
  }

  function Turn(n: nat, c: nat, i: nat): nat
    requires c < n && i < n
  {
    if c + i < n then c + i else c + i - n
  }

  /** The first position with the key in the cyclic order that starts at c, skipping i positions. */
  function FirstFrom<V>(p: Pairs<V>, c: nat, key: string, i: nat): (r: Option<nat>)
    requires c < |p| && i <= |p|
    ensures r.Some? ==> r.value < |p| && p[r.value].0 == key
    decreases |p| - i
  {
    if i == |p| then None
    else if p[Turn(|p|, c, i)].0 == key then Some(Turn(|p|, c, i))
    else FirstFrom(p, c, key, i + 1)
  }

  lemma {:induction false} FirstFromSkips<V>(p: Pairs<V>, c: nat, key: string, i: nat, s: nat)
    requires c < |p| && i <= s <= |p|
    requires forall j | i <= j < s :: p[Turn(|p|, c, j)].0 != key
    ensures FirstFrom(p, c, key, i) == FirstFrom(p, c, key, s)
    decreases s - i
  {
    if i < s { FirstFromSkips(p, c, key, i + 1, s); }
  }

  /** With unique keys the cursor does not matter. */
  lemma FirstFromUnique<V>(p: Pairs<V>, c: nat, key: string)
    requires c < |p| && UniqueKeys(p)
    ensures match FirstFrom(p, c, key, 0)
            case None => key !in AsMap(p)
            case Some(k) => key in AsMap(p) && AsMap(p)[key] == p[k].1
  {
    AsMapKeys(p, key);
    match FirstFrom(p, c, key, 0)
    case Some(k) => AsMapAt(p, k);
    case None =>
      forall k | 0 <= k < |p| ensures p[k].0 != key {
        var i := if k >= c then k - c else k + |p| - c;
        MissedAll(p, c, key, 0, i);
      }
  }

  lemma {:induction false} MissedAll<V>(p: Pairs<V>, c: nat, key: string, i: nat, j: nat)
    requires c < |p| && i <= j < |p| && FirstFrom(p, c, key, i).None?
    ensures p[Turn(|p|, c, j)].0 != key
    decreases j - i
  {
    if i < j { MissedAll(p, c, key, i + 1, j); }
  }

  // ----- entries with the cursor of their list -----

  /** Everything a list map holds: its entries, and where the next search starts. */
  datatype Chain<V> = Chain(entries: Pairs<V>, at: nat)

  predicate Sane<V>(c: Chain<V>) {
    if c.entries == [] then c.at == 0 else c.at < |c.entries|
  }

  /** The search: the position found, and the cursor moved just past it, or by one when there is none. */
  function Located<V>(c: Chain<V>, key: string): (r: (Option<nat>, Chain<V>))
    ensures r.1.entries == c.entries && (Sane(c) ==> Sane(r.1)) && (r.0.Some? ==> r.0.value < |c.entries|)
  {
    if c.entries == [] || c.at >= |c.entries| then (None, c) else
      match FirstFrom(c.entries, c.at, key, 0)
      case None => (None, c.(at := Next(|c.entries|, c.at)))
      case Some(k) => (Some(k), c.(at := Next(|c.entries|, k)))
  }

  function Fetched<V>(c: Chain<V>, key: string): (r: (Option<V>, Chain<V>))
    ensures r.1.entries == c.entries && (Sane(c) ==> Sane(r.1))
  {
    var (k, c') := Located(c, key);
    (if k.Some? then c.entries[k.value].1 else None, c')
  }

  /** A key that reads as null is entered at the head, whether or not it was entered before. */
  function Registered<V>(c: Chain<V>, key: string): (r: Chain<V>)
    ensures Sane(c) ==> Sane(r)
  {
    var (v, c') := Fetched(c, key);
    if v.Some? then c' else Chain([(key, None)] + c'.entries, InsertCursor(|c'.entries|, c'.at))
  }

  function Written<V>(c: Chain<V>, key: string, value: Option<V>): (r: (bool, Chain<V>))
    ensures |r.1.entries| == |c.entries| && (Sane(c) ==> Sane(r.1)) && (!r.0 ==> r.1.entries == c.entries)
  {
    var (k, c') := Located(c, key);
    if k.Some? then (true, c'.(entries := c.entries[k.value := (c.entries[k.value].0, value)])) else (false, c')
  }

  /** With unique keys what is read is the map's value, whatever the cursor. */
  lemma FetchedIs<V>(c: Chain<V>, key: string)
    requires Sane(c) && UniqueKeys(c.entries)
    ensures Fetched(c, key).0 == Lookup(AsMap(c.entries), key)
  {
    if c.entries != [] { FirstFromUnique(c.entries, c.at, key); }
  }

  lemma RegisteredIs<V>(c: Chain<V>, key: string)
    requires Sane(c)
    ensures Declares(c.entries, Registered(c, key).entries, key)
  {
    var q := Registered(c, key).entries;
    if UniqueKeys(c.entries) {
      FetchedIs(c, key);
      if q != c.entries {
        assert q[1..] == c.entries;
        DeclareUnique(q);
      }
    }
  }

  /** Keys stay unique exactly when the key had a value or was not there: registering again a key without a value
      enters it twice, and nothing afterwards takes an entry out. */
  lemma RegisteredUnique<V>(c: Chain<V>, key: string)
    requires Sane(c) && UniqueKeys(c.entries)
    ensures var m := AsMap(c.entries); UniqueKeys(Registered(c, key).entries) <==> key !in m || m[key].Some?
  {
    RegisteredIs(c, key);
  }

  lemma WrittenIs<V>(c: Chain<V>, key: string, value: Option<V>)
    requires Sane(c)
    ensures var (ok, c') := Written(c, key, value); Assigns(c.entries, c'.entries, key, value, ok)
  {
    var p := c.entries;
    if p != [] && UniqueKeys(p) {
      FirstFromUnique(p, c.at, key);
      var k := FirstFrom(p, c.at, key, 0);
      if k.Some? { AsMapUpdate(p, k.value, value); }
    }
  }

  /** Keys that occur twice still do after a registration or an assignment. */
  lemma StaysDouble<V>(c: Chain<V>, key: string, value: Option<V>)
    requires !UniqueKeys(c.entries)
    ensures !UniqueKeys(Registered(c, key).entries) && !UniqueKeys(Written(c, key, value).1.entries)
  {
    var p := c.entries;
    var j, k :| 0 <= j < k < |p| && p[j].0 == p[k].0;
    var q, r := Registered(c, key).entries, Written(c, key, value).1.entries;
    if q != p { assert q[j + 1] == p[j] && q[k + 1] == p[k]; }
    assert r[j].0 == r[k].0;
  }

  class Entry<!V> {
    const key: string
    var value: Option<V>

    constructor (key: string)
      ensures this.key == key && value == None
    {
      this.key, value := key, None;
    }
  }

  /** From p to q the key was declared: the map gains it, and keys stay unique unless it was already there
      without a value. */
  ghost predicate Declares<V>(p: Pairs<V>, q: Pairs<V>, key: string) {
    && (q == p || q == [(key, None)] + p)
    && (UniqueKeys(p) ==>
          var m := AsMap(p);
          && AsMap(q) == (if Lookup(m, key).Some? then m else m[key := None])
          && (UniqueKeys(q) <==> key !in m || m[key].Some?))
  }

  /** From p to q the value was put at the key, or nothing changed because the key is undeclared. */
  ghost predicate Assigns<V>(p: Pairs<V>, q: Pairs<V>, key: string, value: Option<V>, ok: bool) {
    && (!ok ==> q == p)
    && (UniqueKeys(p) ==>
          var m := AsMap(p);
          && UniqueKeys(q)
          && (ok <==> key in m)
          && AsMap(q) == if ok then m[key := value] else m)
  }

  class ListMap<!V> {
    const list: IteratedList<Entry<V>>
    ghost var pairs: Pairs<V>

    ghost var Repr: set<object>

    ghost predicate Valid()
      reads this, Repr
      ensures Valid() ==> this in Repr && list in Repr
    {
      && this in Repr && list in Repr && (set n | n in list.nodes) <= Repr && (set e | e in list.model) <= Repr
      && list.Valid()
      && |pairs| == |list.model|
      && (forall k | 0 <= k < |pairs| :: pairs[k] == (list.model[k].key, list.model[k].value))
      && (forall j, k | 0 <= j < k < |pairs| :: list.model[j] != list.model[k])
    }

    ghost function Now(): Chain<V>
      reads this, list
    {
      Chain(pairs, list.at)
    }

    lemma SaneNow()
      requires Valid()
      ensures Sane(Now())
    {
    }

    constructor ()
      ensures Valid() && pairs == [] && Now() == Chain([], 0) && fresh(Repr)
    {
      list := new IteratedList();
      pairs := [];
      new;
      Repr := {this, list};
    }

    /** The shared search: the first entry with the key in cyclic order from the cursor, which ends
        just past it; after a full cycle without one the cursor has moved on by one. */
    method Find(key: string) returns (r: Option<Entry<V>>)
      requires Valid()
      modifies list
      ensures Valid() && Repr == old(Repr) && list.model == old(list.model) && list.nodes == old(list.nodes)
      ensures pairs == [] ==> r == None && list.at == old(list.at)
      ensures pairs != [] ==> old(list.at) < |pairs|
      ensures pairs != [] ==>
                match FirstFrom(pairs, old(list.at), key, 0)
                case None => r == None && list.at == Next(|pairs|, old(list.at))
                case Some(k) => r == Some(list.model[k]) && list.at == Next(|pairs|, k)
      ensures var (k, c) := Located(old(Now()), key);
        Now() == c && r == if k.Some? then Some(list.model[k.value]) else None
    {
      ghost var seen;
      ghost var at, n := list.at, |pairs|;
      r, seen := list.Search((e: Entry<V>) => e.key == key);
      if n > 0 {
        SearchResult(list.model, at, seen, key, r);
      }
    }

    lemma SearchResult(m: seq<Entry<V>>, at: nat, seen: nat, key: string, r: Option<Entry<V>>)
      requires Valid() && m == list.model && at < |m| && 0 < seen <= |m|
      requires var c := Rotation(m, at);
        && (forall j | 0 <= j < seen - 1 :: c[j].key != key)
        && (r.Some? ==> r.value == c[seen - 1] && r.value.key == key)
        && (r.None? ==> c[seen - 1].key != key && (seen == |m| || c[seen] == c[0]))
      ensures r.Some? ==> FirstFrom(pairs, at, key, 0) == Some(Turn(|m|, at, seen - 1)) &&
                          r.value == m[Turn(|m|, at, seen - 1)]
      ensures r.None? ==> FirstFrom(pairs, at, key, 0) == None && seen == |m|
    {
      var c := Rotation(m, at);
      forall j | 0 <= j < |m| ensures c[j] == m[Turn(|m|, at, j)] { RotationAt(m, at, j); }
      hide Rotation;
      FirstFromSkips(pairs, at, key, 0, seen - 1);
      if r.None? {
        FirstFromSkips(pairs, at, key, 0, seen);
      }
    }
 
    /** The value of the first entry found; null when there is none. */
    method Get(key: string) returns (r: Option<V>)
      requires Valid()
      modifies list
      ensures Valid() && pairs == old(pairs) && Repr == old(Repr)
      ensures pairs == [] ==> r == None
      ensures pairs != [] ==> old(list.at) < |pairs|
      ensures pairs != [] ==>
                r == match FirstFrom(pairs, old(list.at), key, 0) case None => None case Some(k) => pairs[k].1
      ensures UniqueKeys(pairs) ==> r == Lookup(AsMap(pairs), key)
      ensures (r, Now()) == Fetched(old(Now()), key)
    {
      var e := Find(key);
      r := if e.None? then None else e.value.value;
      if pairs != [] && UniqueKeys(pairs) { FirstFromUnique(pairs, old(list.at), key); }
    }

    /** Registers a key, unless it already reads as a value: a key declared without a value is entered twice. */
    method Declare(key: string)
      requires Valid()
      modifies this, list
      ensures Valid() && fresh(Repr - old(Repr))
      ensures Declares(old(pairs), pairs, key)
      ensures Now() == Registered(old(Now()), key)
    {
      hide Valid, FirstFrom, IteratedList.Valid, Declares;
      SaneNow();
      RegisteredIs(Now(), key);
      var known := Get(key);
      if known.None? { AddEntry(key); }
    }

    method AddEntry(key: string)
      requires Valid()
      modifies this, list
      ensures Valid() && fresh(Repr - old(Repr)) && pairs == [(key, None)] + old(pairs)
      ensures list.at == InsertCursor(|old(pairs)|, old(list.at))
    {
      hide IteratedList.Valid;
      var entry := new Entry(key);
      list.Insert(Some(entry));
      pairs := [(key, None)] + pairs;
      Repr := Repr + {entry, list.nodes[0]};
    }

    /** Assigns in place; false when the key was never declared. */
    method Put(key: string, value: Option<V>) returns (ok: bool)
      requires Valid()
      modifies this, list, list.model
      ensures Valid() && Repr == old(Repr)
      ensures Assigns(old(pairs), pairs, key, value, ok)
      ensures (ok, Now()) == Written(old(Now()), key, value)
    {
      hide IteratedList.Valid, FirstFrom, Assigns;
      SaneNow();
      WrittenIs(Now(), key, value);
      var e := Find(key);
      ok := e.Some?;
      if ok {
        ghost var k := FirstFrom(pairs, old(list.at), key, 0).value;
        e.value.value := value;
        pairs := pairs[k := (pairs[k].0, value)];
      }
    }
  }

  lemma DeclareUnique<V>(p: Pairs<V>)
    requires p != []
    ensures UniqueKeys(p) <==> UniqueKeys(p[1..]) && p[0].0 !in AsMap(p[1..])
    ensures AsMap(p) == AsMap(p[1..])[p[0].0 := p[0].1]
  {
    AsMapKeys(p[1..], p[0].0);
    if UniqueKeys(p) {
      assert forall k | 0 <= k < |p[1..]| :: p[1..][k] == p[k + 1];
    } else {
      var j, k :| 0 <= j < k < |p| && p[j].0 == p[k].0;
      assert p[1..][k - 1] == p[k];
      if j > 0 { assert p[1..][j - 1] == p[j]; }
    }
  }

  // ----- a key registered again before its first value -----

  /** The position found is the first with the key in cyclic order. */
  lemma FirstFromIs<V>(p: Pairs<V>, c: nat, key: string, d: nat)
    requires c < |p| && d < |p| && p[Turn(|p|, c, d)].0 == key
    requires forall j | 0 <= j < d :: p[Turn(|p|, c, j)].0 != key
    ensures FirstFrom(p, c, key, 0) == Some(Turn(|p|, c, d))
  {
    FirstFromSkips(p, c, key, 0, d);
  }

  /** Two entries have the key; a search finds whichever comes first from the cursor. */
  lemma FirstOfTwo<V>(p: Pairs<V>, c: nat, key: string, k: nat)
    requires 0 < k < |p| && c < |p| && p[0].0 == key && p[k].0 == key
    requires forall j | 0 < j < |p| && j != k :: p[j].0 != key
    ensures FirstFrom(p, c, key, 0) == Some(if 0 < c <= k then k else 0)
  {
    if 0 < c <= k { FirstFromIs(p, c, key, k - c); }
    else if c == 0 { FirstFromIs(p, c, key, 0); }
    else { FirstFromIs(p, c, key, |p| - c); }
  }

  /** A key that is there without a value and is registered again is entered twice, and the value stored next is
      not the one read next: wherever the cursor stands, it has moved past the entry that was written. */
  lemma RedeclaredKeyIsLost<V>(c: Chain<V>, key: string, v: V)
    requires Sane(c) && UniqueKeys(c.entries) && key in AsMap(c.entries) && AsMap(c.entries)[key].None?
    ensures var (ok, written) := Written(Registered(c, key), key, Some(v));
      ok && Fetched(written, key).0 == None
  {
    var p := c.entries;
    AsMapKeys(p, key);
    var k: nat :| k < |p| && p[k].0 == key;
    AsMapAt(p, k);
    FirstFromIs(p, c.at, key, if k >= c.at then k - c.at else k + |p| - c.at);
    var q := [(key, None)] + p;
    var at := Next(|p|, k) + 1;
    assert Registered(c, key) == Chain(q, at);
    forall j | 0 < j < |q| && j != k + 1 ensures q[j].0 != key { assert q[j] == p[j - 1]; }
    FirstOfTwo(q, at, key, k + 1);
    var w := if k + 1 == |p| then k + 1 else 0;
    var r := q[w := (key, Some(v))];
    assert Written(Registered(c, key), key, Some(v)) == (true, Chain(r, Next(|q|, w)));
    FirstOfTwo(r, Next(|q|, w), key, k + 1);
  }
}
