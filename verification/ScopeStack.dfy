/**
 The scope stack of ScopeStack/ScopeStack.c: a heap list of list maps, walked node by node.
 Running off the list dereferences a null node in the source; here that outcome is Fault.
 */
module ScopeStacks {
  import opened IteratedLists
  import opened Wrappers
  import opened ListMaps
  import opened Scoping
  import C = ScopeChains

  datatype Outcome = Done | Fault

  /** The levels as maps. */
  ghost function Maps<V>(p: seq<Pairs<V>>): (r: Scopes<V>)
    ensures |r| == |p|
  {
    seq(|p|, k requires 0 <= k < |p| => AsMap(p[k]))
  }

  ghost predicate AllUnique<V>(p: seq<Pairs<V>>) {
    forall k | 0 <= k < |p| :: UniqueKeys(p[k])
  }

  class ScopeStack<!V> {
    const levels: IteratedList<ListMap<V>>
    ghost var Repr: set<object>

    /** A level that keeps to itself: its objects are apart from the spine of the stack. */
    ghost predicate LevelOk(m: ListMap<V>)
      reads this, Repr, levels, m, m.Repr
    {
      && m in Repr && m.Repr <= Repr && m.Valid()
      && this !in m.Repr && levels !in m.Repr && (forall n | n in levels.nodes :: n !in m.Repr)
    }

    ghost predicate Valid()
      reads this, Repr
    {
      && this in Repr && levels in Repr && (set n | n in levels.nodes) <= Repr
      && levels.Valid()
      && (forall m | m in levels.model :: m in Repr && m.Repr <= Repr)
      && (forall m | m in levels.model :: LevelOk(m))
      && (forall j, k | 0 <= j < k < |levels.model| :: levels.model[j].Repr !! levels.model[k].Repr)
    }

    ghost function Pairs(): (r: seq<Pairs<V>>)
      requires Valid()
      reads this, Repr
      ensures |r| == |levels.model|
    {
      seq(|levels.model|, k requires 0 <= k < |levels.model| reads levels, levels.model => levels.model[k].pairs)
    }

    /** The levels with the cursors of their lists. */
    ghost function Chains(): (r: C.Chains<V>)
      requires Valid()
      reads this, Repr
      ensures |r| == |levels.model| && |r| == |Pairs()| && forall k | 0 <= k < |r| :: r[k].entries == Pairs()[k]
    {
      assert forall k | 0 <= k < |levels.model| :: levels.model[k] in levels.model && LevelOk(levels.model[k]);
      seq(|levels.model|, k requires 0 <= k < |levels.model| && levels.model[k] in Repr && levels.model[k].list in Repr
                            reads this, levels, Repr => levels.model[k].Now())
    }

    constructor ()
      ensures Valid() && fresh(Repr) && Pairs() == [] && Chains() == []
    {
      levels := new IteratedList();
      new;
      Repr := {this, levels};
    }

    method EnterScope()
      requires Valid()
      modifies Repr
      ensures Valid() && fresh(Repr - old(Repr))
      ensures Pairs() == [[]] + old(Pairs()) && Chains() == C.Enter(old(Chains()))
    {
      hide Pairs, Chains, LevelOk, IteratedList.Valid, ListMap.Valid;
      var level := new ListMap();
      PushChain(level);
    }

    method PushChain(level: ListMap<V>)
      requires Valid() && level.Valid() && level in level.Repr && level.Repr !! Repr
      modifies this, levels
      ensures Valid() && fresh(Repr - old(Repr) - level.Repr)
      ensures Pairs() == [level.pairs] + old(Pairs()) && Chains() == [old(level.Now())] + old(Chains())
    {
      hide Pairs, Chains, LevelOk, IteratedList.Valid, ListMap.Valid;
      ghost var m, c := levels.model, Chains();
      ChainsAre();
      LevelsApart();
      Push(level);
      assert forall k | 0 <= k < |m| :: m[k].Now() == c[k];
      NowChains([level.Now()] + c);
    }

    method Push(level: ListMap<V>)
      requires Valid() && level.Valid() && level in level.Repr && level.Repr !! Repr
      modifies this, levels
      ensures Valid() && fresh(Repr - old(Repr) - level.Repr)
      ensures levels.model == [level] + old(levels.model)
      ensures Pairs() == [level.pairs] + old(Pairs())
    {
      hide IteratedList.Valid, ListMap.Valid, CutAt, InsertCursor, Chains;
      levels.Insert(Some(level));
      Repr := Repr + level.Repr + {levels.nodes[0]};
    }

    lemma ChainsAre()
      requires Valid()
      ensures |Chains()| == |Pairs()| == |levels.model|
      ensures forall k | 0 <= k < |levels.model| ::
          Chains()[k] == levels.model[k].Now() && Pairs()[k] == levels.model[k].pairs
    {
      hide IteratedList.Valid, ListMap.Valid, LevelOk;
    }

    /** No level's objects are part of the spine. */
    lemma LevelsApart()
      requires Valid()
      ensures forall k | 0 <= k < |levels.model| ::
                && levels.model[k] in levels.model && LevelOk(levels.model[k])
                && levels.model[k].list in levels.model[k].Repr
    {
      hide IteratedList.Valid, ListMap.Valid;
      forall k | 0 <= k < |levels.model| ensures levels.model[k] in levels.model && LevelOk(levels.model[k]) {
      }
    }

    lemma NowChains(c: C.Chains<V>)
      requires Valid() && |c| == |levels.model| && forall k | 0 <= k < |c| :: levels.model[k].Now() == c[k]
      ensures Chains() == c && |Pairs()| == |c| && forall k | 0 <= k < |c| :: Pairs()[k] == c[k].entries
    {
      hide IteratedList.Valid, ListMap.Valid;
      ChainsAre();
    }

    method ExitScope()
      requires Valid()
      modifies Repr
      ensures Valid() && Repr == old(Repr)
      ensures Pairs() == if old(Pairs()) == [] then [] else old(Pairs())[1..]
      ensures Chains() == C.Leave(old(Chains()))
    {
      hide IteratedList.Valid, ListMap.Valid;
      SpineFacts();
      if levels.first != null { Pop(); }
    }

    method Pop()
      requires Valid() && levels.first != null && levels.model != [] && levels.first.payload == levels.model[0]
      modifies levels, levels.nodes
      ensures Valid() && Pairs() == old(Pairs())[1..] && Chains() == old(Chains())[1..]
    {
      hide IteratedList.Valid, ListMap.Valid, CutAt, RemoveAt, RemoveCursor, IndexOf;
      ghost var m, ns := levels.model, levels.nodes;
      HeadIndex(m, levels.first.payload);
      levels.Remove(Some(levels.first.payload));
      CutTail(m, ns, old(levels.at), levels.model, levels.nodes, levels.at);
      forall x | x in levels.model ensures LevelOk(x) {
        assert x in m && old(LevelOk(x));
      }
    }

    lemma SpineFacts()
      requires Valid()
      ensures (levels.first == null <==> levels.model == [])
      ensures |levels.nodes| == |levels.model|
      ensures levels.model != [] ==> levels.first == levels.nodes[0]
      ensures forall k | 0 <= k < |levels.nodes| ::
                levels.nodes[k].payload == levels.model[k] &&
                levels.nodes[k].tail == if k + 1 < |levels.nodes| then levels.nodes[k + 1] else null
      ensures forall j, k | 0 <= j < k < |levels.nodes| :: levels.nodes[j] != levels.nodes[k]
    {
    }

    lemma TailOf(n: Node<ListMap<V>>, k: nat)
      requires Valid() && k < |levels.nodes| && n == levels.nodes[k]
      ensures n.tail == if k + 1 < |levels.nodes| then levels.nodes[k + 1] else null
      ensures |levels.nodes| == |levels.model|
    {
    }

    lemma LevelInRepr(m: ListMap<V>)
      requires Valid() && m in levels.model
      ensures m in Repr && m.list in Repr && m.Valid() && forall e | e in m.list.model :: e in Repr
    {
      assert LevelOk(m);
    }

    lemma ShownMaps()
      requires Valid()
      ensures AllUnique(Pairs()) ==> C.Shows(Chains(), Maps(Pairs()))
    {
      hide IteratedList.Valid, ListMap.Valid, LevelOk, UniqueKeys, AsMap, Sane, Chains, Pairs;
      ChainsAre();
      LevelsApart();
      forall k | 0 <= k < |levels.model| ensures Sane(Chains()[k]) {
        LevelInRepr(levels.model[k]);
        levels.model[k].SaneNow();
      }
    }

    /** Looks the name up at one level; only that level's cursor moves. */
    method LookAt(level: ListMap<V>, ghost k: nat, name: string) returns (r: Option<V>)
      requires Valid() && k < |levels.model| && level == levels.model[k]
      modifies level.list
      ensures Valid() && levels.model == old(levels.model) && levels.nodes == old(levels.nodes)
      ensures levels.first == old(levels.first) && Pairs() == old(Pairs()) && Repr == old(Repr)
      ensures var (v, c) := Fetched(old(Chains())[k], name); r == v && Chains() == old(Chains())[k := c]
    {
      hide IteratedList.Valid, FirstFrom, UniqueKeys, AsMap, Fetched;
      assert forall j | 0 <= j < |levels.model| :: levels.model[j] in levels.model && LevelOk(levels.model[j]);
      r := level.Get(name);
    }

    /** The innermost value for the name. */
    method LoadName(name: string) returns (r: Option<V>)
      requires Valid()
      modifies Repr
      ensures Valid() && Pairs() == old(Pairs()) && Repr == old(Repr)
      ensures var (_, v, t) := C.LoadFrom(old(Chains()), name); r == v && Chains() == t
      ensures AllUnique(Pairs()) ==> r == Load(Maps(Pairs()), name)
    {
      hide IteratedList.Valid, ListMap.Valid, LevelOk, UniqueKeys, AsMap, Valid, Pairs, Chains, C.LoadFrom, C.Shows;
      hide Load;
      ShownMaps();
      if AllUnique(Pairs()) { C.LoadShows(Chains(), Maps(Pairs()), name); }
      ghost var d;
      r, d := Walk(name);
    }

    /** The walk shared by load and exitTo: to the first level that has a value for the name. */
    method Walk(name: string) returns (r: Option<V>, ghost d: nat)
      requires Valid()
      modifies Repr
      ensures Valid() && Pairs() == old(Pairs()) && Repr == old(Repr) && levels.nodes == old(levels.nodes)
      ensures (d, r, Chains()) == C.LoadFrom(old(Chains()), name)
    {
      hide IteratedList.Valid, ListMap.Valid, LevelOk, Fetched, Chains, Pairs, C.LoadFrom, C.Asked;
      SpineFacts();
      ChainsAre();
      ghost var ns, n, s := levels.nodes, |levels.model|, Chains();
      var first := levels.first;
      var thisLevel := first;
      d := 0;
      if first == null { C.LoadFromAt(s, name, 0); return None, n; }
      LevelInRepr(thisLevel.payload);
      C.AskedNext(s, 0, name);
      r := LookAt(thisLevel.payload, 0, name);
      if r.Some? { C.LoadFromAt(s, name, 0); return; }
      TailOf(thisLevel, 0);
      thisLevel := thisLevel.tail;
      d := 1;
      while thisLevel != first && thisLevel != null
        invariant Valid() && Pairs() == old(Pairs()) && Repr == old(Repr) && levels.nodes == ns && levels.first == first
        invariant 1 <= d <= n == |ns| == |levels.model| == |s| && thisLevel == if d < n then ns[d] else null
        invariant Chains() == C.Asked(s, d, name) && forall j | 0 <= j < d :: Fetched(s[j], name).0.None?
        decreases n - d
      {
        SpineFacts();
        LevelInRepr(thisLevel.payload);
        C.AskedNext(s, d, name);
        r := LookAt(thisLevel.payload, d, name);
        if r.Some? { C.LoadFromAt(s, name, d); return; }
        TailOf(thisLevel, d);
        thisLevel := thisLevel.tail;
        d := d + 1;
      }
      SpineFacts();
      r := None;
      C.LoadFromAt(s, name, d);
    }

    /** Clears the levels between the top level and the first level with a value for the name. */
    method ExitUpTo(name: string)
      requires Valid()
      modifies Repr
      ensures Valid() && Repr == old(Repr)
      ensures Chains() == C.LeaveTo(old(Chains()), name)
      ensures AllUnique(old(Pairs())) ==> AllUnique(Pairs()) && Maps(Pairs()) == ExitTo(Maps(old(Pairs())), name)
    {
      hide IteratedList.Valid, ListMap.Valid, LevelOk, UniqueKeys, AsMap, Valid, Pairs, Chains, C.Shows, C.LoadFrom;
      hide ExitTo;
      ShownMaps();
      if AllUnique(Pairs()) { C.LeaveToShows(Chains(), Maps(Pairs()), name); }
      var r, levelsToClear := CountLevels(name);
      ghost var t := Chains();
      var i := 0;
      while i < levelsToClear
        invariant Valid() && Repr == old(Repr) && i <= levelsToClear <= |t| && Chains() == t[i..]
      {
        ExitScope();
        i := i + 1;
      }
      if AllUnique(old(Pairs())) { MapsShown(ExitTo(Maps(old(Pairs())), name)); }
    }

    /** exitTo's two searches: the top level is looked at but never counted. */
    method CountLevels(name: string) returns (found: bool, count: nat)
      requires Valid()
      modifies Repr
      ensures Valid() && Repr == old(Repr) && Pairs() == old(Pairs()) && count <= |Chains()|
      ensures var (d, _, t) := C.LoadFrom(old(Chains()), name); count == (if d == 0 then 0 else d - 1) && Chains() == t
    {
      hide IteratedList.Valid, ListMap.Valid, LevelOk, Fetched, Chains, Pairs, C.LoadFrom, C.Asked;
      SpineFacts();
      ChainsAre();
      ghost var ns, n, s := levels.nodes, |levels.model|, Chains();
      var first := levels.first;
      var thisLevel := first;
      count, found := 0, false;
      if first == null { C.LoadFromAt(s, name, 0); return; }
      LevelInRepr(thisLevel.payload);
      C.AskedNext(s, 0, name);
      var r := LookAt(thisLevel.payload, 0, name);
      if r.Some? { C.LoadFromAt(s, name, 0); return true, 0; }
      TailOf(thisLevel, 0);
      thisLevel := thisLevel.tail;
      ghost var d := 1;
      while thisLevel != first && thisLevel != null
        invariant Valid() && Pairs() == old(Pairs()) && Repr == old(Repr) && levels.nodes == ns && levels.first == first
        invariant 1 <= d <= n == |ns| == |levels.model| == |s| && thisLevel == if d < n then ns[d] else null
        invariant count == d - 1
        invariant Chains() == C.Asked(s, d, name) && forall j | 0 <= j < d :: Fetched(s[j], name).0.None?
        decreases n - d
      {
        SpineFacts();
        LevelInRepr(thisLevel.payload);
        C.AskedNext(s, d, name);
        r := LookAt(thisLevel.payload, d, name);
        if r.Some? {
          C.LoadFromAt(s, name, d);
          return true, count;
        }
        TailOf(thisLevel, d);
        thisLevel := thisLevel.tail;
        count := count + 1;
        d := d + 1;
      }
      SpineFacts();
      C.LoadFromAt(s, name, d);
    }

    lemma MapsShown(s: Scopes<V>)
      requires Valid()
      ensures C.Shows(Chains(), s) ==> AllUnique(Pairs()) && Maps(Pairs()) == s
    {
      hide IteratedList.Valid, ListMap.Valid, LevelOk, UniqueKeys, AsMap, Sane, Chains, Pairs;
      ChainsAre();
      if C.Shows(Chains(), s) {
        forall k | 0 <= k < |s| ensures UniqueKeys(Pairs()[k]) && AsMap(Pairs()[k]) == s[k] {
          assert C.ShowsLevel(Chains()[k], s[k]);
        }
      }
    }

    /** Declares at the top level; the stack stays unambiguous unless the name was there without a value. */
    method DeclareName(name: string) returns (o: Outcome)
      requires Valid()
      modifies Repr
      ensures Valid() && fresh(Repr - old(Repr))
      ensures o == Fault <==> old(Pairs()) == []
      ensures o == Fault ==> Pairs() == old(Pairs())
      ensures o == Done ==> C.DeclareTop(old(Chains()), name) == Some(Chains())
      ensures o == Done && AllUnique(old(Pairs())) ==>
                var s := Maps(old(Pairs()));
                && Declare(s, name) == Some(Maps(Pairs()))
                && (AllUnique(Pairs()) <==> name !in s[0] || s[0][name].Some?)
    {
      hide IteratedList.Valid, ListMap.Valid, UniqueKeys, AsMap, Lookup, LevelOk, Chains, Pairs, Registered, Declares;
      hide Declare;
      SpineFacts();
      ChainsAre();
      if levels.first == null { return Fault; }
      ghost var p, c := Pairs(), Chains();
      LevelInRepr(levels.first.payload);
      DeclareIn(levels.first.payload, name);
      o := Done;
      assert c[0 := Registered(c[0], name)] == [Registered(c[0], name)] + c[1..];
      if AllUnique(p) { DeclaredMaps(p, Pairs(), name); }
    }

    method DeclareIn(level: ListMap<V>, name: string)
      requires Valid() && levels.model != [] && level == levels.model[0]
      modifies this, level, level.list
      ensures Valid() && fresh(Repr - old(Repr)) && |Pairs()| == |old(Pairs())|
      ensures levels.model == old(levels.model)
      ensures Declares(old(Pairs())[0], Pairs()[0], name)
      ensures forall k | 0 < k < |Pairs()| :: Pairs()[k] == old(Pairs())[k]
      ensures Chains() == old(Chains())[0 := Registered(old(Chains())[0], name)]
    {
      hide IteratedList.Valid, ListMap.Valid, Declares, Chains, Pairs, Registered;
      ghost var ms, p, c := levels.model, Pairs(), Chains();
      ChainsAre();
      LevelsApart();
      assert forall k | 0 < k < |ms| :: ms[k].Repr !! ms[0].Repr;
      level.Declare(name);
      Repr := Repr + level.Repr;
      forall k | 0 < k < |ms| ensures ms[k] != level && LevelOk(ms[k]) {
        assert ms[k] in ms && ms[k] in ms[k].Repr;
      }
      assert LevelOk(level);
      assert forall k | 0 < k < |ms| :: ms[k].Now() == c[k];
      NowChains(c[0 := Registered(c[0], name)]);
    }

    /** Assigns at the innermost level that declares the name; if none does, the walk runs off the list. */
    method StoreName(name: string, value: Option<V>) returns (o: Outcome)
      requires Valid()
      modifies Repr
      ensures Valid() && Repr == old(Repr)
      ensures o == Fault ==> Pairs() == old(Pairs())
      ensures match C.StoreTo(old(Chains()), name, value)
              case None => o == Fault
              case Some(t) => o == Done && Chains() == t
      ensures AllUnique(old(Pairs())) ==>
                match Store(Maps(old(Pairs())), name, value)
                case None => o == Fault
                case Some(s) => o == Done && AllUnique(Pairs()) && Maps(Pairs()) == s
    {
      hide IteratedList.Valid, ListMap.Valid, LevelOk, UniqueKeys, AsMap, Valid, Pairs, Chains, C.Shows, C.StoreTo;
      hide Store;
      ShownMaps();
      if AllUnique(Pairs()) { C.StoreShows(Chains(), Maps(Pairs()), name, value); }
      ghost var before := Store(Maps(Pairs()), name, value);
      o := StoreWalk(name, value);
      if AllUnique(old(Pairs())) && before.Some? { MapsShown(before.value); }
    }

    method StoreWalk(name: string, value: Option<V>) returns (o: Outcome)
      requires Valid()
      modifies Repr
      ensures Valid() && Repr == old(Repr)
      ensures o == Fault ==> Pairs() == old(Pairs())
      ensures match C.StoreTo(old(Chains()), name, value)
              case None => o == Fault
              case Some(t) => o == Done && Chains() == t
    {
      hide IteratedList.Valid, ListMap.Valid, LevelOk, Valid, Pairs, Chains, ListMaps.Written, C.StoreTo, C.Refused;
      SpineFacts();
      ChainsAre();
      ghost var s, ns, n := Chains(), levels.nodes, |levels.model|;
      var first := levels.first;
      var thisLevel := first;
      if thisLevel == null { C.StoreToAt(s, name, value, 0); return Fault; }
      ghost var d := 0;
      LevelInRepr(thisLevel.payload);
      C.RefusedNext(s, 0, name, value);
      var ok := PutAt(thisLevel.payload, 0, name, value);
      if ok { C.StoreToAt(s, name, value, 0); return Done; }
      TailOf(thisLevel, 0);
      thisLevel := thisLevel.tail;
      d := 1;
      while thisLevel != first
        invariant Valid() && Pairs() == old(Pairs()) && Repr == old(Repr) && levels.nodes == ns && levels.first == first
        invariant 1 <= d <= n == |ns| == |levels.model| == |s| && thisLevel == if d < n then ns[d] else null
        invariant Chains() == C.Refused(s, d, name, value) && forall j | 0 <= j < d ::
            !ListMaps.Written(s[j], name, value).0
        decreases n - d
      {
        if thisLevel == null { C.StoreToAt(s, name, value, d); return Fault; }
        SpineFacts();
        LevelInRepr(thisLevel.payload);
        C.RefusedNext(s, d, name, value);
        ok := PutAt(thisLevel.payload, d, name, value);
        if ok { C.StoreToAt(s, name, value, d); return Done; }
        TailOf(thisLevel, d);
        thisLevel := thisLevel.tail;
        d := d + 1;
      }
      SpineFacts();
      o := Fault;
      assert false;
    }

    /** ListMap_put at one level; the other levels keep their entries. */
    method PutAt(level: ListMap<V>, ghost k: nat, name: string, value: Option<V>) returns (ok: bool)
      requires Valid() && k < |levels.model| && level == levels.model[k]
      modifies level, level.list, level.list.model
      ensures Valid() && levels.model == old(levels.model) && levels.nodes == old(levels.nodes)
      ensures levels.first == old(levels.first) && Repr == old(Repr)
      ensures !ok ==> Pairs() == old(Pairs())
      ensures var (found, c) := ListMaps.Written(old(Chains())[k], name, value);
        ok == found && Chains() == old(Chains())[k := c]
    {
      hide IteratedList.Valid, UniqueKeys, AsMap, ListMaps.Written;
      assert forall j | 0 <= j < |levels.model| :: levels.model[j] in levels.model && LevelOk(levels.model[j]);
      ok := level.Put(name, value);
    }
  }

  lemma DeclaredMaps<V>(p: seq<Pairs<V>>, q: seq<Pairs<V>>, name: string)
    requires AllUnique(p) && p != [] && |q| == |p| && Declares(p[0], q[0], name)
    requires forall k | 0 < k < |q| :: q[k] == p[k]
    ensures var s := Maps(p);
      && Declare(s, name) == Some(Maps(q))
      && (AllUnique(q) <==> name !in s[0] || s[0][name].Some?)
  {
    hide UniqueKeys, AsMap;
    assert Maps(q) == Maps(p)[0 := AsMap(q[0])];
    assert AllUnique(q) <==> UniqueKeys(q[0]);
  }
}
