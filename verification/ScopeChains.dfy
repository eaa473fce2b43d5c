/**
 The scope stack entry by entry: a list of list maps, innermost first, each with the cursor where its next
 search starts.  What the operations do to entries and cursors, and that they mean the operations on maps
 as long as no level holds a key twice.
 */
module ScopeChains {
  import opened Wrappers
  import opened ListMaps
  import S = Scoping

  type Chains<V> = seq<Chain<V>>

  // ----- the operations -----

  /** Depth of the first level that reads as a value, the value, and the levels with the cursors moved. */
  function LoadFrom<V>(s: Chains<V>, name: string): (r: (nat, Option<V>, Chains<V>))
    ensures r.0 <= |s| && |r.2| == |s| && (r.0 == |s| <==> r.1.None?)
  {
    if s == [] then (0, None, []) else
      var (v, c) := Fetched(s[0], name);
      if v.Some? then (0, v, [c] + s[1..]) else
        var (d, w, t) := LoadFrom(s[1..], name);
        (d + 1, w, [c] + t)
  }

  /** None when no level has the key: the search runs off the end of the list. */
  function StoreTo<V>(s: Chains<V>, name: string, value: Option<V>): (r: Option<Chains<V>>)
    ensures r.Some? ==> |r.value| == |s|
  {
    if s == [] then None else
      var (ok, c) := Written(s[0], name, value);
      if ok then Some([c] + s[1..]) else
        match StoreTo(s[1..], name, value)
        case None => None
        case Some(t) => Some([c] + t)
  }

  function DeclareTop<V>(s: Chains<V>, name: string): Option<Chains<V>> {
    if s == [] then None else Some([Registered(s[0], name)] + s[1..])
  }

  function Enter<V>(s: Chains<V>): Chains<V> {
    [Chain([], 0)] + s
  }

  function Leave<V>(s: Chains<V>): Chains<V> {
    if s == [] then [] else s[1..]
  }

  /** exitTo walks as load does; of the levels it walked past, all but one go. */
  function LeaveTo<V>(s: Chains<V>, name: string): Chains<V> {
    var (d, _, t) := LoadFrom(s, name);
    if d == 0 then t else t[d - 1..]
  }

  // ----- what they mean -----

  /** Level by level, the entries have unique keys and are the map. */
  ghost predicate Shows<V>(e: Chains<V>, s: S.Scopes<V>) {
    |e| == |s| && forall k | 0 <= k < |s| :: ShowsLevel(e[k], s[k])
  }

  ghost predicate ShowsLevel<V>(c: Chain<V>, m: S.Level<V>) {
    Sane(c) && UniqueKeys(c.entries) && AsMap(c.entries) == m
  }

  ghost predicate Unambiguous<V>(e: Chains<V>) {
    forall k | 0 <= k < |e| :: UniqueKeys(e[k].entries)
  }

  ghost predicate AllSane<V>(e: Chains<V>) {
    forall k | 0 <= k < |e| :: Sane(e[k])
  }

  /** The name is in the innermost level, without a value: the source enters it a second time. */
  predicate Clashes<V>(s: S.Scopes<V>, name: string) {
    s != [] && name in s[0] && s[0][name].None?
  }

  lemma ShowsTail<V>(e: Chains<V>, s: S.Scopes<V>)
    requires Shows(e, s) && s != []
    ensures ShowsLevel(e[0], s[0]) && Shows(e[1..], s[1..])
  {
  }

  lemma ShowsCons<V>(c: Chain<V>, m: S.Level<V>, e: Chains<V>, s: S.Scopes<V>)
    requires ShowsLevel(c, m) && Shows(e, s)
    ensures Shows([c] + e, [m] + s)
  {
  }

  lemma ShowsUnique<V>(e: Chains<V>, s: S.Scopes<V>)
    requires Shows(e, s)
    ensures Unambiguous(e) && AllSane(e)
  {
    forall k | 0 <= k < |e| ensures UniqueKeys(e[k].entries) && Sane(e[k]) { assert ShowsLevel(e[k], s[k]); }
  }

  lemma FetchedShows<V>(c: Chain<V>, m: S.Level<V>, name: string)
    requires ShowsLevel(c, m)
    ensures Fetched(c, name).0 == Lookup(m, name) && ShowsLevel(Fetched(c, name).1, m)
  {
    FetchedIs(c, name);
  }

  lemma HolderStep<V>(s: S.Scopes<V>, name: string)
    requires s != []
    ensures S.Holder(s, name) == if Lookup(s[0], name).Some? then 0 else S.Holder(s[1..], name) + 1
  {
  }

  /** Loading reads the innermost value and leaves the maps as they were. */
  lemma {:induction false} LoadShows<V>(e: Chains<V>, s: S.Scopes<V>, name: string)
    requires Shows(e, s)
    ensures var (d, v, t) := LoadFrom(e, name);
      d == S.Holder(s, name) && v == S.Load(s, name) && Shows(t, s)
  {
    hide ShowsLevel, Fetched, Lookup;
    if s != [] {
      ShowsTail(e, s);
      FetchedShows(e[0], s[0], name);
      HolderStep(s, name);
      LoadStep(s, name);
      var c := Fetched(e[0], name).1;
      assert [s[0]] + s[1..] == s;
      if Fetched(e[0], name).0.Some? {
        ShowsCons(c, s[0], e[1..], s[1..]);
      } else {
        LoadShows(e[1..], s[1..], name);
        ShowsCons(c, s[0], LoadFrom(e[1..], name).2, s[1..]);
      }
    }
  }

  lemma LoadStep<V>(s: S.Scopes<V>, name: string)
    requires s != []
    ensures S.Load(s, name) == if Lookup(s[0], name).Some? then Lookup(s[0], name) else S.Load(s[1..], name)
  {
  }

  lemma WrittenShows<V>(c: Chain<V>, m: S.Level<V>, name: string, value: Option<V>)
    requires ShowsLevel(c, m)
    ensures var (ok, c') := Written(c, name, value);
      (ok <==> name in m) && ShowsLevel(c', if ok then m[name := value] else m)
  {
    WrittenIs(c, name, value);
  }

  lemma StoreStep<V>(s: S.Scopes<V>, name: string, value: Option<V>)
    requires s != []
    ensures S.Store(s, name, value) ==
      if name in s[0] then Some([s[0][name := value]] + s[1..])
      else match S.Store(s[1..], name, value) case None => None case Some(t) => Some([s[0]] + t)
  {
    var d := S.Declarer(s, name);
    if name in s[0] {
      assert s[0 := s[0][name := value]] == [s[0][name := value]] + s[1..];
    } else if d < |s| {
      assert S.Declarer(s[1..], name) == d - 1;
      assert s[d := s[d][name := value]] == [s[0]] + s[1..][d - 1 := s[1..][d - 1][name := value]];
    }
  }

  /** Storing fails and succeeds together, and writes the same level. */
  lemma {:induction false} StoreShows<V>(e: Chains<V>, s: S.Scopes<V>, name: string, value: Option<V>)
    requires Shows(e, s)
    ensures match S.Store(s, name, value)
            case None => StoreTo(e, name, value).None?
            case Some(t) => StoreTo(e, name, value).Some? && Shows(StoreTo(e, name, value).value, t)
  {
    hide ShowsLevel, Written, S.Store;
    if s != [] {
      ShowsTail(e, s);
      WrittenShows(e[0], s[0], name, value);
      StoreStep(s, name, value);
      var c := Written(e[0], name, value).1;
      if name in s[0] {
        ShowsCons(c, s[0][name := value], e[1..], s[1..]);
      } else {
        StoreShows(e[1..], s[1..], name, value);
        if S.Store(s[1..], name, value).Some? {
          ShowsCons(c, s[0], StoreTo(e[1..], name, value).value, S.Store(s[1..], name, value).value);
        }
      }
    } else {
      assert S.Store(s, name, value).None? by { StoreNone(name, value, s); }
    }
  }

  lemma StoreNone<V>(name: string, value: Option<V>, s: S.Scopes<V>)
    requires s == []
    ensures S.Store(s, name, value).None?
  {
  }

  /** Declaring means the same until a name clashes, and then some level holds a key twice. */
  lemma DeclareShows<V>(e: Chains<V>, s: S.Scopes<V>, name: string)
    requires Shows(e, s)
    ensures DeclareTop(e, name).None? <==> S.Declare(s, name).None?
    ensures s != [] && !Clashes(s, name) ==> Shows(DeclareTop(e, name).value, S.Declare(s, name).value)
    ensures s != [] ==>
        (Unambiguous(DeclareTop(e, name).value) <==> !Clashes(s, name)) && AllSane(DeclareTop(e, name).value)
  {
    hide Registered;
    if s != [] {
      ShowsTail(e, s);
      RegisteredIs(e[0], name);
      RegisteredUnique(e[0], name);
      var r := DeclareTop(e, name).value;
      assert forall k | 0 < k < |r| :: r[k] == e[k];
      forall k | 0 < k < |r| ensures ShowsLevel(r[k], s[k]) {
        assert ShowsLevel(e[k], s[k]);
      }
      assert r[0] == Registered(e[0], name);
      assert Sane(r[0]);
    }
  }

  lemma LeaveShows<V>(e: Chains<V>, s: S.Scopes<V>)
    requires Shows(e, s)
    ensures Shows(Leave(e), S.Exit(s)) && Shows(Enter(e), [map[]] + s)
  {
  }

  lemma ShowsDrop<V>(e: Chains<V>, s: S.Scopes<V>, d: nat)
    requires Shows(e, s) && d <= |s|
    ensures Shows(e[d..], s[d..])
  {
    hide ShowsLevel;
    forall k | 0 <= k < |s| - d ensures ShowsLevel(e[d..][k], s[d..][k]) {
      assert ShowsLevel(e[k + d], s[k + d]);
    }
  }

  lemma LeaveToShows<V>(e: Chains<V>, s: S.Scopes<V>, name: string)
    requires Shows(e, s)
    ensures Shows(LeaveTo(e, name), S.ExitTo(s, name))
  {
    hide ShowsLevel;
    LoadShows(e, s, name);
    var d, t := S.Holder(s, name), LoadFrom(e, name).2;
    if d > 0 { ShowsDrop(t, s, d - 1); }
  }

  // ----- a level that holds a key twice -----

  lemma KeyFound<V>(c: Chain<V>, name: string, value: Option<V>)
    requires Sane(c) && exists k :: 0 <= k < |c.entries| && c.entries[k].0 == name
    ensures Written(c, name, value).0
  {
    var k :| 0 <= k < |c.entries| && c.entries[k].0 == name;
    var n := |c.entries|;
    if FirstFrom(c.entries, c.at, name, 0).None? {
      MissedAll(c.entries, c.at, name, 0, if k >= c.at then k - c.at else k + n - c.at);
    }
  }

  lemma RegisteredFinds<V>(c: Chain<V>, name: string, value: Option<V>)
    requires Sane(c)
    ensures Written(Registered(c, name), name, value).0
  {
    var r := Registered(c, name);
    if Fetched(c, name).0.Some? {
      var k := FirstFrom(c.entries, c.at, name, 0).value;
      assert r.entries[k].0 == name;
    } else {
      assert r.entries[0].0 == name;
    }
    KeyFound(r, name, value);
  }

  /** A name just declared is stored at the top level. */
  lemma StoreAfterDeclare<V>(e: Chains<V>, name: string, value: Option<V>)
    requires e != [] && AllSane(e)
    ensures var d := DeclareTop(e, name).value;
      StoreTo(d, name, value) == Some([Written(d[0], name, value).1] + d[1..]) && AllSane(StoreTo(d, name, value).value)
  {
    hide Registered, Written, Sane;
    var d := DeclareTop(e, name).value;
    assert d[1..] == e[1..];
    RegisteredFinds(e[0], name, value);
    StoredSane(d, name, value);
  }

  lemma StoredSane<V>(d: Chains<V>, name: string, value: Option<V>)
    requires d != [] && Sane(d[0]) && Written(d[0], name, value).0 && forall k | 0 < k < |d| :: Sane(d[k])
    ensures AllSane([Written(d[0], name, value).1] + d[1..])
  {
    hide Written, Sane;
  }

  /** A level that holds a key twice keeps doing so while names are declared there and stored. */
  lemma StaysAmbiguous<V>(e: Chains<V>, name: string, value: Option<V>)
    requires e != [] && AllSane(e) && !UniqueKeys(e[0].entries)
    ensures DeclareTop(e, name).Some?
    ensures var d := DeclareTop(e, name).value; d != [] && !UniqueKeys(d[0].entries)
    ensures var t := StoreTo(DeclareTop(e, name).value, name, value);
      t.Some? && t.value != [] && !UniqueKeys(t.value[0].entries)
  {
    hide Registered, Written, Sane, UniqueKeys;
    StoreAfterDeclare(e, name, value);
    StaysDouble(e[0], name, value);
    StaysDouble(Registered(e[0], name), name, value);
  }

  // ----- walking level by level -----

  /** The levels once the first d have been asked for the name. */
  function Asked<V>(s: Chains<V>, d: nat, name: string): (r: Chains<V>)
    ensures |r| == |s|
  {
    seq(|s|, k requires 0 <= k < |s| => if k < d then Fetched(s[k], name).1 else s[k])
  }

  /** The levels once a store has been refused by the first d. */
  function Refused<V>(s: Chains<V>, d: nat, name: string, value: Option<V>): (r: Chains<V>)
    ensures |r| == |s|
  {
    seq(|s|, k requires 0 <= k < |s| => if k < d then Written(s[k], name, value).1 else s[k])
  }

  lemma AskedNext<V>(s: Chains<V>, d: nat, name: string)
    requires d < |s|
    ensures Asked(s, d, name)[d] == s[d]
    ensures Asked(s, d, name)[d := Fetched(s[d], name).1] == Asked(s, d + 1, name) && Asked(s, 0, name) == s
  {
  }

  lemma RefusedNext<V>(s: Chains<V>, d: nat, name: string, value: Option<V>)
    requires d < |s|
    ensures Refused(s, d, name, value)[d] == s[d] && Refused(s, 0, name, value) == s
    ensures Refused(s, d, name, value)[d := Written(s[d], name, value).1] == Refused(s, d + 1, name, value)
  {
  }

  /** The walk stops at the first level that reads as a value, or after the last. */
  lemma {:induction false} LoadFromAt<V>(s: Chains<V>, name: string, d: nat)
    requires d <= |s| && forall j | 0 <= j < d :: Fetched(s[j], name).0.None?
    requires d < |s| ==> Fetched(s[d], name).0.Some?
    ensures LoadFrom(s, name) ==
      (d, if d < |s| then Fetched(s[d], name).0 else None, Asked(s, if d < |s| then d + 1 else d, name))
    decreases |s|
  {
    hide Fetched;
    if s == [] {
    } else if d == 0 {
      assert Asked(s, 1, name) == [Fetched(s[0], name).1] + s[1..];
    } else {
      assert forall j | 0 <= j < |s| - 1 :: s[1..][j] == s[j + 1];
      LoadFromAt(s[1..], name, d - 1);
      var k := if d < |s| then d + 1 else d;
      assert Asked(s, k, name) == [Fetched(s[0], name).1] + Asked(s[1..], k - 1, name);
    }
  }

  lemma {:induction false} StoreToAt<V>(s: Chains<V>, name: string, value: Option<V>, d: nat)
    requires d <= |s| && forall j | 0 <= j < d :: !Written(s[j], name, value).0
    requires d < |s| ==> Written(s[d], name, value).0
    ensures StoreTo(s, name, value) == if d < |s| then Some(Refused(s, d + 1, name, value)) else None
    decreases |s|
  {
    hide Written;
    if s == [] {
    } else if d == 0 {
      assert Refused(s, 1, name, value) == [Written(s[0], name, value).1] + s[1..];
    } else {
      assert forall j | 0 <= j < |s| - 1 :: s[1..][j] == s[j + 1];
      StoreToAt(s[1..], name, value, d - 1);
      if d < |s| {
        assert Refused(s, d + 1, name, value) == [Written(s[0], name, value).1] + Refused(s[1..], d, name, value);
      }
    }
  }
}
