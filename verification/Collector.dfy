/**
 The reference-counting collector (GC/GC_mem_common.c) over an arbitrary object graph, used by one
 thread at a time.  An address is an index; freed memory is never reused here.  Touching an object
 whose count is gone, which in the source is a use after free, is the result None.
 */
module Collector {
  import opened Wrappers

  datatype Obj = Obj(live: bool, rc: nat, pointers: bool, fields: seq<Option<nat>>)

  type Heap = seq<Obj>

  /** A field that holds an address but is not counted: the one GC_assign is about to overwrite. */
  type Hole = Option<(nat, nat)>

  // ----- counting -----

  function Single(v: Option<nat>): multiset<nat> {
    if v.None? then multiset{} else multiset{v.value}
  }

  function Targets(f: seq<Option<nat>>): multiset<nat> {
    if f == [] then multiset{} else Targets(f[1..]) + Single(f[0])
  }

  function Counted(h: Heap, hole: Hole, i: nat): seq<Option<nat>>
    requires i < |h|
  {
    if hole.Some? && hole.value.0 == i && hole.value.1 < |h[i].fields| then h[i].fields[hole.value.1 := None]
    else h[i].fields
  }

  /** References to q that object i gives; a dying object's fields no longer count. */
  function Gives(h: Heap, hole: Hole, i: nat, q: nat): nat
    requires i < |h|
  {
    if h[i].rc > 0 then Targets(Counted(h, hole, i))[q] else 0
  }

  /** References to q held in the fields of the first n objects. */
  function Refs(h: Heap, hole: Hole, n: nat, q: nat): nat
    requires n <= |h|
  {
    if n == 0 then 0 else Refs(h, hole, n - 1, q) + Gives(h, hole, n - 1, q)
  }

  /** Every count is the number of counted references: from the program (handles) and from fields. */
  ghost predicate Exact(h: Heap, handles: multiset<nat>, hole: Hole) {
    && (forall q | 0 <= q < |h| :: h[q].rc == handles[q] + Refs(h, hole, |h|, q))
    && (forall q: nat | q >= |h| :: handles[q] + Refs(h, hole, |h|, q) == 0)
    && (forall q | 0 <= q < |h| ::
        (h[q].rc > 0 ==> h[q].live) && (!h[q].pointers ==> Targets(h[q].fields) == multiset{}))
  }

  function Total(h: Heap): nat {
    if h == [] then 0 else h[0].rc + Total(h[1..])
  }

  lemma {:induction false} TotalUpdate(h: Heap, i: nat, o: Obj)
    requires i < |h|
    ensures Total(h[i := o]) == Total(h) - h[i].rc + o.rc
    ensures Total(h) >= h[i].rc
  {
    if i > 0 {
      TotalUpdate(h[1..], i - 1, o);
      assert h[i := o][1..] == h[1..][i - 1 := o];
    } else {
      assert h[i := o][1..] == h[1..];
    }
  }

  // ----- GC_decRef as a function -----

  function Drop1(h: Heap, p: nat): (r: Heap)
    requires p < |h| && h[p].rc > 0
    ensures |r| == |h| && Total(r) < Total(h)
  {
    TotalUpdate(h, p, h[p].(rc := h[p].rc - 1));
    h[p := h[p].(rc := h[p].rc - 1)]
  }

  /** GC_free: refused while the object is still counted. */
  function Free(h: Heap, p: nat): (r: Heap)
    requires p < |h|
    ensures |r| == |h| && Total(r) == Total(h)
  {
    TotalUpdate(h, p, h[p].(live := false));
    if h[p].rc > 0 then h else h[p := h[p].(live := false)]
  }

  /** Drop one reference; at zero, drop every contained pointer, then free. */
  function DecRef(h: Heap, p: nat): (r: Option<Heap>)
    ensures r.Some? ==> |r.value| == |h| && Total(r.value) < Total(h)
    decreases Total(h), 0
  {
    if p >= |h| || h[p].rc == 0 then None else
      var h1 := Drop1(h, p);
      if h1[p].rc > 0 then Some(h1) else
        var h2 := if h[p].pointers then DecAll(h1, h[p].fields) else Some(h1);
        if h2.None? then None else Some(Free(h2.value, p))
  }

  function DecAll(h: Heap, f: seq<Option<nat>>): (r: Option<Heap>)
    ensures r.Some? ==> |r.value| == |h| && Total(r.value) <= Total(h)
    decreases Total(h), |f| + 1
  {
    if f == [] then Some(h)
    else if f[0].None? then DecAll(h, f[1..])
    else
      var h1 := DecRef(h, f[0].value);
      if h1.None? then None else DecAll(h1.value, f[1..])
  }

  // ----- counting lemmas -----

  lemma TargetsNone()
    ensures Targets([]) == multiset{}
  {
  }

  lemma TargetsStep(f: seq<Option<nat>>, q: nat)
    requires f != []
    ensures Targets(f) == Targets(f[1..]) + Single(f[0])
    ensures Targets(f)[q] == Targets(f[1..])[q] + Single(f[0])[q]
  {
  }

  lemma {:induction false} TargetsUpdate(f: seq<Option<nat>>, k: nat, v: Option<nat>, q: nat)
    requires k < |f|
    ensures Targets(f[k := v])[q] + Single(f[k])[q] == Targets(f)[q] + Single(v)[q]
  {
    hide Targets, Single;
    TargetsStep(f, q);
    TargetsStep(f[k := v], q);
    if k == 0 {
      assert f[k := v][1..] == f[1..];
    } else {
      TargetsUpdate(f[1..], k - 1, v, q);
      assert f[k := v][1..] == f[1..][k - 1 := v];
    }
  }

  lemma {:induction false} TargetsIn(f: seq<Option<nat>>, q: nat)
    ensures q in Targets(f) <==> Some(q) in f
  {
    if f != [] { TargetsIn(f[1..], q); }
  }

  lemma GivesSame(h: Heap, h': Heap, hole: Hole, i: nat, q: nat)
    requires i < |h| == |h'| && h'[i].fields == h[i].fields && (h'[i].rc > 0 <==> h[i].rc > 0)
    ensures Gives(h', hole, i, q) == Gives(h, hole, i, q)
  {
  }

  lemma {:induction false} RefsSame(h: Heap, h': Heap, hole: Hole, n: nat, q: nat)
    requires n <= |h| == |h'|
    requires forall i | 0 <= i < n :: h'[i].fields == h[i].fields && (h'[i].rc > 0 <==> h[i].rc > 0)
    ensures Refs(h', hole, n, q) == Refs(h, hole, n, q)
  {
    hide Gives;
    if n > 0 {
      RefsSame(h, h', hole, n - 1, q);
      GivesSame(h, h', hole, n - 1, q);
    }
  }

  /** When the count of p reaches zero its fields stop counting. */
  lemma {:induction false} RefsDying(h: Heap, h': Heap, hole: Hole, p: nat, n: nat, q: nat)
    requires n <= |h| && p < |h| && h[p].rc > 0 && h' == h[p := h[p].(rc := 0)]
    ensures Refs(h, hole, n, q) == Refs(h', hole, n, q) + (if p < n then Gives(h, hole, p, q) else 0)
  {
    hide Refs, Targets, Counted;
    if n == 0 {
      RefsNone(h, hole, q);
      RefsNone(h', hole, q);
    } else {
      RefsDying(h, h', hole, p, n - 1, q);
      RefsStep(h, hole, n, q);
      RefsStep(h', hole, n, q);
      if p == n - 1 {
        assert Gives(h', hole, p, q) == 0;
      } else {
        GivesSame(h, h', hole, n - 1, q);
      }
    }
  }

  lemma RefsNone(h: Heap, hole: Hole, q: nat)
    ensures Refs(h, hole, 0, q) == 0
  {
  }

  lemma RefsStep(h: Heap, hole: Hole, n: nat, q: nat)
    requires 0 < n <= |h|
    ensures Refs(h, hole, n, q) == Refs(h, hole, n - 1, q) + Gives(h, hole, n - 1, q)
  {
  }

  /** A counted reference comes from a field of some object that is not dying. */
  lemma {:induction false} RefsSource(h: Heap, hole: Hole, n: nat, q: nat) returns (i: nat)
    requires n <= |h| && Refs(h, hole, n, q) > 0
    ensures i < n && h[i].rc > 0 && Some(q) in Counted(h, hole, i)
  {
    hide Targets, Counted;
    if Gives(h, hole, n - 1, q) > 0 {
      TargetsIn(Counted(h, hole, n - 1), q);
      i := n - 1;
    } else {
      i := RefsSource(h, hole, n - 1, q);
    }
  }

  lemma {:induction false} RefsTarget(h: Heap, hole: Hole, n: nat, i: nat, q: nat)
    requires n <= |h| && i < n && h[i].rc > 0 && Some(q) in Counted(h, hole, i)
    ensures Refs(h, hole, n, q) > 0
  {
    hide Targets, Counted;
    if i == n - 1 { TargetsIn(Counted(h, hole, i), q); } else { RefsTarget(h, hole, n - 1, i, q); }
  }

  // ----- what survives -----

  /** Every member is held by the program or by a member of the set, through a counted field. */
  ghost predicate Supported(s: set<nat>, h: Heap, handles: multiset<nat>, hole: Hole)
    ensures Supported(s, h, handles, hole) ==> Alive(s, h)
  {
    forall x | x in s :: x < |h| && h[x].rc > 0 &&
      (handles[x] > 0 || exists y :: y in s && y < |h| && Some(x) in Counted(h, hole, y))
  }

  /** A member of a supported set is referred to whatever else is dropped. */
  lemma SupportedCount(s: set<nat>, h: Heap, handles: multiset<nat>, hole: Hole, x: nat)
    requires Supported(s, h, handles, hole) && x in s
    ensures handles[x] + Refs(h, hole, |h|, x) > 0
  {
    if handles[x] == 0 {
      var y :| y in s && y < |h| && Some(x) in Counted(h, hole, y);
      RefsTarget(h, hole, |h|, y, x);
    }
  }

  /** Dropping references changes nothing but counts, downwards, and frees exactly what reaches zero. */
  ghost predicate Frame(h: Heap, r: Heap) {
    |r| == |h| && forall q | 0 <= q < |h| ::
      && r[q].fields == h[q].fields && r[q].pointers == h[q].pointers && r[q].rc <= h[q].rc
      && (h[q].rc == 0 ==> r[q] == h[q])
      && (h[q].rc > 0 ==> r[q].live == (h[q].live && r[q].rc > 0))
  }

  ghost predicate Alive(s: set<nat>, h: Heap) {
    forall x | x in s :: x < |h| && h[x].rc > 0
  }

  ghost predicate HoleIn(hole: Hole, s: set<nat>) {
    hole.Some? ==> hole.value.0 in s
  }

  lemma StillSupported(h: Heap, r: Heap, handles: multiset<nat>, hole: Hole, s: set<nat>)
    requires Supported(s, h, handles, hole) && |r| == |h| && Alive(s, r)
    requires forall q | 0 <= q < |h| :: r[q].fields == h[q].fields
    ensures Supported(s, r, handles, hole)
  {
    forall x | x in s
      ensures x < |r| && r[x].rc > 0
      ensures (handles[x] > 0 || exists y :: y in s && y < |r| && Some(x) in Counted(r, hole, y))
    {
      if handles[x] == 0 {
        var y :| y in s && y < |h| && Some(x) in Counted(h, hole, y);
        assert Counted(r, hole, y) == Counted(h, hole, y);
      }
    }
  }

  lemma MoreHandles(s: set<nat>, h: Heap, handles: multiset<nat>, more: multiset<nat>, hole: Hole)
    requires Supported(s, h, handles, hole)
    ensures Supported(s, h, handles + more, hole)
  {
    hide Counted;
  }

  /** One reference fewer, to an object that keeps others. */
  lemma LivingExact(h: Heap, h1: Heap, handles: multiset<nat>, hole: Hole, p: nat)
    requires Exact(h, handles + multiset{p}, hole) && p < |h| && h[p].rc > 1 && h1 == h[p := h[p].(rc := h[p].rc - 1)]
    ensures Exact(h1, handles, hole) && Frame(h, h1)
  {
    hide Refs, Targets;
    forall q: nat
      ensures Refs(h1, hole, |h|, q) == Refs(h, hole, |h|, q)
    {
      RefsSame(h, h1, hole, |h|, q);
    }
  }

  /** The fields of an object that has just died are references the collector now owes. */
  lemma DyingExact(h: Heap, h1: Heap, handles: multiset<nat>, hole: Hole, p: nat)
    requires Exact(h, handles + multiset{p}, hole) && p < |h| && h[p].rc == 1 && h1 == h[p := h[p].(rc := 0)]
    requires hole.Some? ==> hole.value.0 != p
    ensures Exact(h1, handles + Targets(h[p].fields), hole)
  {
    hide Refs, Targets;
    forall q: nat
      ensures Refs(h, hole, |h|, q) == Refs(h1, hole, |h|, q) + Targets(h[p].fields)[q]
    {
      RefsDying(h, h1, hole, p, |h|, q);
    }
  }

  lemma FreedExact(h: Heap, handles: multiset<nat>, hole: Hole, p: nat)
    requires Exact(h, handles, hole) && p < |h| && h[p].rc == 0
    ensures Exact(Free(h, p), handles, hole)
  {
    hide Refs, Targets;
    forall q: nat
      ensures Refs(Free(h, p), hole, |h|, q) == Refs(h, hole, |h|, q)
    {
      RefsSame(h, Free(h, p), hole, |h|, q);
    }
  }

  lemma FreedFrame(h: Heap, h1: Heap, h2: Heap, p: nat)
    requires p < |h| && h[p].rc == 1 && h1 == h[p := h[p].(rc := 0)] && Frame(h1, h2)
    ensures Frame(h, Free(h2, p)) && h2[p].rc == 0
  {
    hide Total;
  }

  lemma HeldCount(h: Heap, handles: multiset<nat>, hole: Hole, p: nat)
    requires Exact(h, handles + multiset{p}, hole)
    ensures p < |h| && h[p].rc > 0
  {
    hide Refs, Targets;
    assert (handles + multiset{p})[p] + Refs(h, hole, |h|, p) > 0;
  }

  /** The last reference to an object is not one that a supported set provides. */
  lemma NotSpared(h: Heap, handles: multiset<nat>, hole: Hole, p: nat, s: set<nat>)
    requires Exact(h, handles + multiset{p}, hole) && p < |h| && h[p].rc == 1 && Supported(s, h, handles, hole)
    ensures p !in s
  {
    hide Refs, Targets, Counted;
    if p in s {
      SupportedCount(s, h, handles, hole, p);
    }
  }

  lemma DecRefStep(h: Heap, p: nat)
    requires p < |h| && h[p].rc > 0
    ensures Drop1(h, p) == h[p := h[p].(rc := h[p].rc - 1)]
    ensures h[p].rc > 1 ==> DecRef(h, p) == Some(Drop1(h, p))
    ensures h[p].rc == 1 ==>
      var h2 := if h[p].pointers then DecAll(Drop1(h, p), h[p].fields) else Some(Drop1(h, p));
      DecRef(h, p) == if h2.None? then None else Some(Free(h2.value, p))
  {
  }

  /** GC_decRef of a held reference never touches a dead object, keeps every count exact, and spares
      every supported set. */
  lemma {:induction false} DecRefExact(h: Heap, handles: multiset<nat>, hole: Hole, p: nat, s: set<nat>)
    requires Exact(h, handles + multiset{p}, hole) && Supported(s, h, handles, hole) && HoleIn(hole, s)
    ensures DecRef(h, p).Some?
    ensures var r := DecRef(h, p).value;
            Exact(r, handles, hole) && Frame(h, r) && Supported(s, r, handles, hole)
    decreases Total(h), 0
  {
    HeldCount(h, handles, hole, p);
    DecRefStep(h, p);
    hide DecRef, DecAll, Drop1, Targets, Refs, Counted, Total, Exact, Supported;
    if h[p].rc > 1 {
      LivingExact(h, Drop1(h, p), handles, hole, p);
      StillSupported(h, Drop1(h, p), handles, hole, s);
    } else {
      NotSpared(h, handles, hole, p, s);
      DyingExact(h, Drop1(h, p), handles, hole, p);
      DyingStep(h, Drop1(h, p), handles, hole, p, s);
    }
  }

  lemma {:induction false} DyingStep(h: Heap, h1: Heap, handles: multiset<nat>, hole: Hole, p: nat, s: set<nat>)
    requires p < |h| && h[p].rc == 1 && h1 == h[p := h[p].(rc := 0)]
    requires (!h[p].pointers ==> Targets(h[p].fields) == multiset{})
    requires Exact(h1, handles + Targets(h[p].fields), hole) && p !in s && Supported(s, h, handles, hole)
    requires HoleIn(hole, s)
    ensures var h2 := if h[p].pointers then DecAll(h1, h[p].fields) else Some(h1);
            && h2.Some?
            && Exact(Free(h2.value, p), handles, hole) && Frame(h, Free(h2.value, p))
            && Supported(s, Free(h2.value, p), handles, hole)
    decreases Total(h1), |h[p].fields| + 2
  {
    hide Targets, Refs, Counted, Total, Supported, DecAll, Exact;
    StillSupported(h, h1, handles, hole, s);
    var h2: Heap;
    if h[p].pointers {
      DecAllExact(h1, handles, hole, h[p].fields, s);
      h2 := DecAll(h1, h[p].fields).value;
    } else {
      assert handles + Targets(h[p].fields) == handles;
      h2 := h1;
    }
    FreedFrame(h, h1, h2, p);
    FreedExact(h2, handles, hole, p);
    StillSupported(h2, Free(h2, p), handles, hole, s);
  }

  lemma {:induction false} DecAllExact(h: Heap, handles: multiset<nat>, hole: Hole, f: seq<Option<nat>>, s: set<nat>)
    requires Exact(h, handles + Targets(f), hole) && Supported(s, h, handles, hole) && HoleIn(hole, s)
    ensures DecAll(h, f).Some?
    ensures var r := DecAll(h, f).value;
            Exact(r, handles, hole) && Frame(h, r) && Supported(s, r, handles, hole)
    decreases Total(h), |f| + 1
  {
    hide *;
    DecAllStep(h, f);
    TargetsNone();
    if f == [] {
      FrameSelf(h);
      assert handles + multiset{} == handles;
    } else {
      TargetsStep(f, 0);
      SingleIs(f[0]);
      var rest := handles + Targets(f[1..]);
      if f[0].None? {
        assert handles + Targets(f) == rest;
        DecAllExact(h, handles, hole, f[1..], s);
      } else {
        assert handles + Targets(f) == rest + multiset{f[0].value};
        MoreHandles(s, h, handles, Targets(f[1..]), hole);
        DecRefExact(h, rest, hole, f[0].value, s);
        var h1 := DecRef(h, f[0].value).value;
        FrameFields(h, h1);
        StillSupported(h, h1, handles, hole, s);
        DecAllExact(h1, handles, hole, f[1..], s);
        FrameTrans(h, h1, DecAll(h1, f[1..]).value);
      }
    }
  }

  lemma DecAllStep(h: Heap, f: seq<Option<nat>>)
    ensures f == [] ==> DecAll(h, f) == Some(h)
    ensures f != [] && f[0].None? ==> DecAll(h, f) == DecAll(h, f[1..])
    ensures f != [] && f[0].Some? && DecRef(h, f[0].value).Some? ==>
            DecAll(h, f) == DecAll(DecRef(h, f[0].value).value, f[1..])
  {
    hide DecRef;
  }

  lemma SingleIs(v: Option<nat>)
    ensures Single(v) == if v.None? then multiset{} else multiset{v.value}
  {
  }

  lemma FrameSelf(h: Heap)
    ensures Frame(h, h)
  {
  }

  lemma FrameFields(h: Heap, r: Heap)
    requires Frame(h, r)
    ensures |r| == |h| && forall q | 0 <= q < |h| :: r[q].fields == h[q].fields
  {
  }

  lemma FrameTrans(h: Heap, h1: Heap, r: Heap)
    requires Frame(h, h1) && Frame(h1, r)
    ensures Frame(h, r)
  {
  }

  // ----- which objects a release frees -----

  lemma Together(s: set<nat>, t: set<nat>, h: Heap, handles: multiset<nat>, hole: Hole)
    requires Supported(s, h, handles, hole) && Supported(t, h, handles, hole)
    ensures Supported(s + t, h, handles, hole)
  {
    hide Counted;
  }

  ghost function Survivors(h: Heap): (s: set<nat>)
    ensures forall x :: x in s <==> 0 <= x < |h| && h[x].rc > 0
  {
    set x: nat | x < |h| && h[x].rc > 0
  }

  /** Whatever has a positive exact count is held by the program or by another such object. */
  lemma SurvivorsSupported(h: Heap, handles: multiset<nat>, hole: Hole)
    requires Exact(h, handles, hole)
    ensures Supported(Survivors(h), h, handles, hole)
  {
    hide Counted, Targets, Refs;
    forall x | x in Survivors(h) && handles[x] == 0
      ensures exists y :: y in Survivors(h) && y < |h| && Some(x) in Counted(h, hole, y)
    {
      var y := RefsSource(h, hole, |h|, x);
    }
  }

  /** Dropping a reference spares x exactly when some set of objects, none of which needs the dropped
      reference, supports itself and contains x. */
  lemma {:induction false} SurvivesExactly(h: Heap, handles: multiset<nat>, hole: Hole, p: nat, s: set<nat>, x: nat)
    requires Exact(h, handles + multiset{p}, hole) && Supported(s, h, handles, hole) && HoleIn(hole, s) && x < |h|
    ensures DecRef(h, p).Some?
    ensures DecRef(h, p).value[x].rc > 0 <==> exists t: set<nat> :: x in t && Supported(t, h, handles, hole)
  {
    DecRefExact(h, handles, hole, p, s);
    var r := DecRef(h, p).value;
    hide DecRef, Exact, Supported;
    if r[x].rc > 0 {
      SurvivorsSupported(r, handles, hole);
      StillSupported(r, h, handles, hole, Survivors(r));
    }
    forall t: set<nat> | x in t && Supported(t, h, handles, hole)
      ensures r[x].rc > 0
    {
      Together(s, t, h, handles, hole);
      DecRefExact(h, handles, hole, p, s + t);
    }
  }

  // ----- reachability -----

  /** A chain of counted fields from an object that the program holds. */
  ghost predicate Chain(h: Heap, handles: multiset<nat>, hole: Hole, path: seq<nat>) {
    && |path| > 0 && handles[path[0]] > 0
    && (forall i | 0 <= i < |path| :: path[i] < |h|)
    && (forall i | 0 < i < |path| :: Some(path[i]) in Counted(h, hole, path[i - 1]))
  }

  /** Reachable without the field that is the hole. */
  ghost predicate ReachableBut(h: Heap, handles: multiset<nat>, hole: Hole, x: nat) {
    exists path :: Chain(h, handles, hole, path) && path[|path| - 1] == x
  }

  ghost predicate Reachable(h: Heap, handles: multiset<nat>, x: nat) {
    ReachableBut(h, handles, None, x)
  }

  lemma {:induction false} ChainSupported(h: Heap, all: multiset<nat>, handles: multiset<nat>, hole: Hole,
                                          path: seq<nat>)
    requires Exact(h, all, hole) && handles <= all && Chain(h, handles, hole, path)
    ensures Supported((set x | x in path), h, handles, hole)
    decreases |path|
  {
    hide Refs, Targets, Counted, Exact;
    var last := path[|path| - 1];
    if |path| == 1 {
      assert handles[last] <= all[last];
      ReferredAlive(h, all, hole, last);
      assert (set x | x in path) == {last};
    } else {
      var prior := path[..|path| - 1];
      ChainSupported(h, all, handles, hole, prior);
      var before := path[|path| - 2];
      assert before == prior[|prior| - 1];
      RefsTarget(h, hole, |h|, before, last);
      ReferredAlive(h, all, hole, last);
      assert (set x | x in path) == (set x | x in prior) + {last};
      assert Supported((set x | x in prior) + {last}, h, handles, hole);
    }
  }

  /** What is reachable around the hole lies in a set that supports itself. */
  lemma ReachableSupported(h: Heap, all: multiset<nat>, handles: multiset<nat>, hole: Hole,
                           x: nat) returns (s: set<nat>)
    requires Exact(h, all, hole) && handles <= all && ReachableBut(h, handles, hole, x)
    ensures x in s && Supported(s, h, handles, hole) && x < |h| && h[x].rc > 0
  {
    hide Exact, Counted;
    var path :| Chain(h, handles, hole, path) && path[|path| - 1] == x;
    assert x in path;
    ChainSupported(h, all, handles, hole, path);
    s := set y | y in path;
  }

  lemma HandleReachable(h: Heap, handles: multiset<nat>, hole: Hole, x: nat)
    requires handles[x] > 0 && x < |h|
    ensures ReachableBut(h, handles, hole, x)
  {
    hide Counted;
    assert Chain(h, handles, hole, [x]) && [x][|[x]| - 1] == x;
  }

  lemma ReachableThrough(h: Heap, handles: multiset<nat>, hole: Hole, i: nat, x: nat)
    requires ReachableBut(h, handles, hole, i) && x < |h| && Some(x) in Counted(h, hole, i)
    ensures ReachableBut(h, handles, hole, x)
  {
    hide Counted;
    var path :| Chain(h, handles, hole, path) && path[|path| - 1] == i;
    assert Chain(h, handles, hole, path + [x]) && (path + [x])[|path + [x]| - 1] == x;
  }

  lemma CountedElsewhere(h: Heap, o: nat, k: nat, i: nat)
    requires i < |h| && i != o
    ensures Counted(h, Some((o, k)), i) == Counted(h, None, i)
  {
  }

  /** An object is reached without its own fields: cut the chain where it first comes to the object. */
  lemma {:induction false} ReachedFromOutside(h: Heap, handles: multiset<nat>, o: nat, k: nat, path: seq<nat>)
    requires Chain(h, handles, None, path) && path[|path| - 1] == o
    ensures ReachableBut(h, handles, Some((o, k)), o)
    decreases |path|
  {
    hide Counted;
    if j :| 0 <= j < |path| - 1 && path[j] == o {
      ReachedFromOutside(h, handles, o, k, path[..j + 1]);
    } else {
      forall i | 0 < i < |path|
        ensures Some(path[i]) in Counted(h, Some((o, k)), path[i - 1])
      {
        CountedElsewhere(h, o, k, path[i - 1]);
      }
      assert Chain(h, handles, Some((o, k)), path);
    }
  }

  lemma ReferredAlive(h: Heap, handles: multiset<nat>, hole: Hole, x: nat)
    requires Exact(h, handles, hole) && (handles[x] > 0 || Refs(h, hole, |h|, x) > 0)
    ensures x < |h| && h[x].rc > 0
  {
    hide Refs, Targets;
  }

  lemma CountedAll(h: Heap, i: nat)
    requires i < |h|
    ensures Counted(h, None, i) == h[i].fields
  {
  }

  /** Nothing that the program can still reach is freed. */
  lemma {:induction false} ReleaseKeepsReachable(h: Heap, handles: multiset<nat>, p: nat, x: nat)
    requires Exact(h, handles + multiset{p}, None) && Reachable(h, handles, x)
    ensures DecRef(h, p).Some? && x < |h| && DecRef(h, p).value[x].rc > 0 && DecRef(h, p).value[x].live
  {
    hide DecRef, Refs, Targets;
    var s := ReachableSupported(h, handles + multiset{p}, handles, None, x);
    DecRefExact(h, handles, None, p, s);
  }

  /** Fields always point from a smaller rank to a larger one, so there is no cycle. */
  ghost predicate Ranked(h: Heap, rank: nat -> nat) {
    forall i, q | 0 <= i < |h| && 0 <= q && Some(q) in h[i].fields :: rank(i) < rank(q)
  }

  lemma CountedField(h: Heap, hole: Hole, i: nat, x: nat)
    requires i < |h| && Some(x) in Counted(h, hole, i)
    ensures Some(x) in h[i].fields
  {
  }

  /** On an acyclic heap a self-supporting set is reachable. */
  lemma {:induction false} SupportedReachable(s: set<nat>, h: Heap, handles: multiset<nat>, hole: Hole,
                                              rank: nat -> nat, x: nat)
    requires Supported(s, h, handles, hole) && Ranked(h, rank) && x in s
    ensures ReachableBut(h, handles, hole, x)
    decreases rank(x)
  {
    hide Counted;
    if handles[x] > 0 {
      HandleReachable(h, handles, hole, x);
    } else {
      var y :| y in s && y < |h| && Some(x) in Counted(h, hole, y);
      CountedField(h, hole, y, x);
      SupportedReachable(s, h, handles, hole, rank, y);
      ReachableThrough(h, handles, hole, y, x);
    }
  }

  lemma CountedReachable(h: Heap, handles: multiset<nat>, rank: nat -> nat, x: nat)
    requires Exact(h, handles, None) && Ranked(h, rank) && x < |h| && h[x].rc > 0
    ensures Reachable(h, handles, x)
  {
    hide Exact, Supported;
    SurvivorsSupported(h, handles, None);
    SupportedReachable(Survivors(h), h, handles, None, rank, x);
  }

  lemma SameReachable(h: Heap, r: Heap, handles: multiset<nat>, x: nat)
    requires Frame(h, r) && Reachable(r, handles, x)
    ensures Reachable(h, handles, x)
  {
    var path :| Chain(r, handles, None, path) && path[|path| - 1] == x;
    assert Chain(h, handles, None, path);
  }

  /** On an acyclic heap a release frees exactly the objects that became unreachable. */
  lemma {:induction false} FreesExactlyTheUnreachable(h: Heap, handles: multiset<nat>, rank: nat -> nat, p: nat, x: nat)
    requires Exact(h, handles + multiset{p}, None) && Ranked(h, rank) && x < |h| && h[x].rc > 0
    ensures DecRef(h, p).Some?
    ensures DecRef(h, p).value[x].live <==> Reachable(h, handles, x)
  {
    DecRefExact(h, handles, None, p, {});
    var r := DecRef(h, p).value;
    if Reachable(h, handles, x) {
      ReleaseKeepsReachable(h, handles, p, x);
    } else {
      hide DecRef, Exact;
      if r[x].rc > 0 {
        CountedReachable(r, handles, rank, x);
        SameReachable(h, r, handles, x);
      }
    }
  }

  lemma CycleCounts(h: Heap, q: nat)
    requires |h| == 2 && h[0].fields == [Some(1)] && h[1].fields == [Some(0)] && h[0].rc > 0 && h[1].rc > 0
    ensures Refs(h, None, 2, q) == if q < 2 then 1 else 0
  {
    assert Targets([Some(1)]) == multiset{1} && Targets([Some(0)]) == multiset{0};
    hide Targets;
    assert Refs(h, None, 1, q) == Gives(h, None, 0, q);
    assert Refs(h, None, 2, q) == Refs(h, None, 1, q) + Gives(h, None, 1, q);
  }

  /** Without that assumption it need not: two objects that point at each other outlive every handle. */
  lemma CycleLeaks()
    ensures var h := [Obj(true, 2, true, [Some(1)]), Obj(true, 1, true, [Some(0)])];
            && Exact(h, multiset{0}, None)
            && DecRef(h, 0) == Some([Obj(true, 1, true, [Some(1)]), Obj(true, 1, true, [Some(0)])])
            && forall x :: !Reachable(h, multiset{}, x)
  {
    var h := [Obj(true, 2, true, [Some(1)]), Obj(true, 1, true, [Some(0)])];
    hide Refs, Targets, DecAll, DecRef;
    forall q: nat
      ensures Refs(h, None, 2, q) == (if q < 2 then 1 else 0)
    {
      CycleCounts(h, q);
    }
    DecRefStep(h, 0);
    assert Drop1(h, 0) == [Obj(true, 1, true, [Some(1)]), Obj(true, 1, true, [Some(0)])];
  }

  // ----- the other operations -----

  function Nulls(n: nat): (f: seq<Option<nat>>)
    ensures |f| == n && forall i | 0 <= i < n :: f[i] == None
  {
    seq(n, _ => None)
  }

  function Alloc(h: Heap, n: nat, pointers: bool): Heap {
    h + [Obj(true, 1, pointers, Nulls(n))]
  }

  function IncRef(h: Heap, p: nat): Option<Heap> {
    if p >= |h| || h[p].rc == 0 then None else Some(h[p := h[p].(rc := h[p].rc + 1)])
  }

  function Write(h: Heap, o: nat, k: nat, v: Option<nat>): Heap
    requires o < |h| && k < |h[o].fields|
  {
    h[o := h[o].(fields := h[o].fields[k := v])]
  }

  function DecRefAny(h: Heap, p: Option<nat>): Option<Heap> {
    if p.None? then Some(h) else DecRef(h, p.value)
  }

  function IncRefAny(h: Heap, p: Option<nat>): (r: Option<Heap>)
    ensures r.Some? ==> |r.value| == |h|
  {
    if p.None? then Some(h) else IncRef(h, p.value)
  }

  /** GC_assign on field k of object o: nothing if the value is there already, else drop the old target,
      count the new one and write. */
  function Assign(h: Heap, o: nat, k: nat, v: Option<nat>): Option<Heap>
    requires o < |h| && k < |h[o].fields|
  {
    if h[o].fields[k] == v then Some(h) else
      var h1 := DecRefAny(h, h[o].fields[k]);
      var h2 := if h1.None? then None else IncRefAny(h1.value, v);
      if h2.None? || |h2.value| != |h| || k >= |h2.value[o].fields| then None else Some(Write(h2.value, o, k, v))
  }

  /** GC_assign on a variable of the program. */
  function AssignVar(h: Heap, was: Option<nat>, v: Option<nat>): Option<Heap> {
    if was == v then Some(h) else
      var h1 := DecRefAny(h, was);
      if h1.None? then None else IncRefAny(h1.value, v)
  }

  // ----- a field leaving and entering the count -----

  /** Two heaps that count the same references except in object o. */
  lemma {:induction false} RefsExcept(h: Heap, g: Heap, hole: Hole, hole': Hole, o: nat, n: nat, q: nat)
    requires n <= |h| == |g| && o < |h|
    requires forall i | 0 <= i < |h| && i != o :: Gives(h, hole, i, q) == Gives(g, hole', i, q)
    ensures Refs(h, hole, n, q) + (if o < n then Gives(g, hole', o, q) else 0)
         == Refs(g, hole', n, q) + (if o < n then Gives(h, hole, o, q) else 0)
  {
    hide Gives;
    if n > 0 { RefsExcept(h, g, hole, hole', o, n - 1, q); }
  }

  lemma GivesHole(h: Heap, o: nat, k: nat, i: nat, q: nat)
    requires o < |h| && k < |h[o].fields| && h[o].rc > 0 && i < |h|
    ensures Gives(h, None, i, q) == Gives(h, Some((o, k)), i, q) + (if i == o then Single(h[o].fields[k])[q] else 0)
  {
    hide Targets;
    if i == o { TargetsUpdate(h[o].fields, k, None, q); }
  }

  lemma {:induction false} RefsHole(h: Heap, o: nat, k: nat, q: nat)
    requires o < |h| && k < |h[o].fields| && h[o].rc > 0
    ensures Refs(h, None, |h|, q) == Refs(h, Some((o, k)), |h|, q) + Single(h[o].fields[k])[q]
  {
    hide Refs, Gives, Single;
    forall i | 0 <= i < |h|
      ensures Gives(h, None, i, q) == Gives(h, Some((o, k)), i, q) + (if i == o then Single(h[o].fields[k])[q] else 0)
    {
      GivesHole(h, o, k, i, q);
    }
    RefsExcept(h, h, None, Some((o, k)), o, |h|, q);
  }

  /** A live object's field k taken out of the count becomes a reference that is owed. */
  lemma HoleOpens(h: Heap, handles: multiset<nat>, o: nat, k: nat)
    requires o < |h| && k < |h[o].fields| && h[o].rc > 0
    ensures Exact(h, handles, None) <==> Exact(h, handles + Single(h[o].fields[k]), Some((o, k)))
  {
    hide Refs, Targets, Single;
    forall q: nat
      ensures Refs(h, None, |h|, q) == Refs(h, Some((o, k)), |h|, q) + Single(h[o].fields[k])[q]
    {
      RefsHole(h, o, k, q);
    }
  }

  /** While it is out of the count, what the field holds does not matter. */
  lemma {:induction false} HoleWrite(h: Heap, handles: multiset<nat>, o: nat, k: nat, v: Option<nat>)
    requires o < |h| && k < |h[o].fields| && h[o].pointers && Exact(h, handles, Some((o, k)))
    ensures Exact(Write(h, o, k, v), handles, Some((o, k)))
  {
    hide Refs, Targets;
    var h' := Write(h, o, k, v);
    forall q: nat
      ensures Refs(h', Some((o, k)), |h|, q) == Refs(h, Some((o, k)), |h|, q)
    {
      assert Counted(h', Some((o, k)), o) == Counted(h, Some((o, k)), o);
      RefsExcept(h', h, Some((o, k)), Some((o, k)), o, |h|, q);
    }
  }

  lemma IncExact(h: Heap, handles: multiset<nat>, hole: Hole, p: nat)
    requires Exact(h, handles, hole) && p < |h| && h[p].rc > 0
    ensures IncRef(h, p).Some? && Exact(IncRef(h, p).value, handles + multiset{p}, hole)
  {
    hide Refs, Targets;
    forall q: nat
      ensures Refs(IncRef(h, p).value, hole, |h|, q) == Refs(h, hole, |h|, q)
    {
      RefsSame(h, IncRef(h, p).value, hole, |h|, q);
    }
  }

  // ----- GC_assign -----

  /** The new value is held without the help of the reference that the assignment drops. */
  ghost predicate Independent(h: Heap, handles: multiset<nat>, hole: Hole, v: Option<nat>) {
    v.Some? ==> exists t: set<nat> :: v.value in t && Supported(t, h, handles, hole)
  }

  /** Dropping the old target spares the new one exactly when it is held independently. */
  lemma {:induction false} DropOld(h: Heap, handles: multiset<nat>, hole: Hole, was: Option<nat>, s: set<nat>,
                                   v: Option<nat>)
    requires Exact(h, handles + Single(was), hole) && Supported(s, h, handles, hole) && HoleIn(hole, s)
    ensures DecRefAny(h, was).Some?
    ensures var r := DecRefAny(h, was).value;
            && Exact(r, handles, hole) && Frame(h, r) && Supported(s, r, handles, hole)
            && (IncRefAny(r, v).Some? <==> Independent(h, handles, hole, v))
  {
    hide DecRef, Refs, Targets, Counted;
    if was.Some? {
      DecRefExact(h, handles, hole, was.value, s);
      if v.Some? && v.value < |h| { SurvivesExactly(h, handles, hole, was.value, s, v.value); }
    } else {
      assert handles + Single(was) == handles;
      if v.Some? && v.value < |h| { SurvivorsSupported(h, handles, hole); }
    }
  }

  lemma IncAnyExact(h: Heap, handles: multiset<nat>, hole: Hole, v: Option<nat>)
    requires Exact(h, handles, hole) && IncRefAny(h, v).Some?
    ensures Exact(IncRefAny(h, v).value, handles + Single(v), hole)
    ensures forall q | 0 <= q < |h| :: IncRefAny(h, v).value[q] == h[q].(rc := IncRefAny(h, v).value[q].rc)
    ensures forall q | 0 <= q < |h| ::
        h[q].rc <= IncRefAny(h, v).value[q].rc && (h[q].rc == 0 ==> IncRefAny(h, v).value[q].rc == 0)
  {
    hide Refs, Targets, Exact;
    if v.Some? { IncExact(h, handles, hole, v.value); } else { assert handles + Single(v) == handles; }
  }

  /** A count is positive exactly while the object is allocated. */
  ghost predicate AtRest(h: Heap) {
    forall q | 0 <= q < |h| :: h[q].live <==> h[q].rc > 0
  }

  lemma HandlesKnown(h: Heap, handles: multiset<nat>, was: Option<nat>)
    ensures handles <= handles + Single(was)
  {
  }

  /** What the program reaches without the hole is held independently; on an acyclic heap nothing else is. */
  lemma IndependentReachable(h: Heap, all: multiset<nat>, handles: multiset<nat>, hole: Hole, v: nat)
    requires Exact(h, all, hole) && handles <= all
    ensures ReachableBut(h, handles, hole, v) ==> Independent(h, handles, hole, Some(v))
    ensures forall rank | Ranked(h, rank) :: Independent(h, handles, hole, Some(v)) <==>
        ReachableBut(h, handles, hole, v)
  {
    hide Exact, Supported, ReachableBut, Ranked;
    if ReachableBut(h, handles, hole, v) { var s := ReachableSupported(h, all, handles, hole, v); }
    forall rank | Ranked(h, rank) && Independent(h, handles, hole, Some(v))
      ensures ReachableBut(h, handles, hole, v)
    {
      var t: set<nat> :| v in t && Supported(t, h, handles, hole);
      SupportedReachable(t, h, handles, hole, rank, v);
    }
  }

  /** A container the program can reach survives the loss of any one of its own fields. */
  lemma ContainerSupported(h: Heap, handles: multiset<nat>, o: nat, k: nat) returns (s: set<nat>)
    requires Exact(h, handles, None) && Reachable(h, handles, o) && o < |h| && k < |h[o].fields|
    ensures h[o].rc > 0 && o in s && Supported(s, h, handles, Some((o, k)))
  {
    hide *;
    s := ReachableSupported(h, handles, handles, None, o) by { ReachableIs(h, handles, o); }
    HoleOpens(h, handles, o, k);
    HandlesKnown(h, handles, h[o].fields[k]);
    ReachableIs(h, handles, o);
    CutChain(h, handles, o, k);
    s := ReachableSupported(h, handles + Single(h[o].fields[k]), handles, Some((o, k)), o);
  }

  lemma ReachableIs(h: Heap, handles: multiset<nat>, o: nat)
    ensures Reachable(h, handles, o) <==> ReachableBut(h, handles, None, o)
  {
  }

  lemma CutChain(h: Heap, handles: multiset<nat>, o: nat, k: nat)
    requires ReachableBut(h, handles, None, o)
    ensures ReachableBut(h, handles, Some((o, k)), o)
  {
    hide Counted;
    var path :| Chain(h, handles, None, path) && path[|path| - 1] == o;
    ReachedFromOutside(h, handles, o, k, path);
  }

  /** GC_assign to a field of an object the program can reach touches no dead object exactly when the new
      value is the old one or is held independently; then every count stays exact. */
  lemma {:induction false} AssignExact(h: Heap, handles: multiset<nat>, o: nat, k: nat, v: Option<nat>)
    requires Exact(h, handles, None) && AtRest(h) && Reachable(h, handles, o) && o < |h| && h[o].pointers
    requires k < |h[o].fields|
    ensures Assign(h, o, k, v).Some? <==> v == h[o].fields[k] || Independent(h, handles, Some((o, k)), v)
    ensures Assign(h, o, k, v).Some? ==>
      var r := Assign(h, o, k, v).value;
      && Exact(r, handles, None) && AtRest(r) && |r| == |h| && r[o].fields == h[o].fields[k := v]
      && forall q | 0 <= q < |h| && q != o :: r[q].fields == h[q].fields
  {
    hide *;
    var hole := Some((o, k));
    var was := h[o].fields[k];
    AssignSame(h, o, k);
    if v != was {
      var s := ContainerSupported(h, handles, o, k);
      HoleOpens(h, handles, o, k);
      OwnHole(o, k, s);
      DropOld(h, handles, hole, was, s, v);
      var h1 := DecRefAny(h, was).value;
      FrameFields(h, h1);
      SupportedIn(s, h1, handles, hole, o);
      AssignMoves(h, o, k, v, h1);
      if IncRefAny(h1, v).Some? { AssignWrites(h, h1, handles, o, k, v); }
    }
  }

  lemma OwnHole(o: nat, k: nat, s: set<nat>)
    requires o in s
    ensures HoleIn(Some((o, k)), s)
  {
  }

  lemma SupportedIn(s: set<nat>, h: Heap, handles: multiset<nat>, hole: Hole, x: nat)
    requires Supported(s, h, handles, hole) && x in s
    ensures x < |h| && h[x].rc > 0
  {
  }

  lemma AssignSame(h: Heap, o: nat, k: nat)
    requires o < |h| && k < |h[o].fields|
    ensures Assign(h, o, k, h[o].fields[k]) == Some(h) && h[o := h[o].(fields := h[o].fields[k := h[o].fields[k]])] == h
  {
    assert h[o].fields[k := h[o].fields[k]] == h[o].fields;
  }

  lemma AssignMoves(h: Heap, o: nat, k: nat, v: Option<nat>, h1: Heap)
    requires o < |h| && k < |h[o].fields| && v != h[o].fields[k] && DecRefAny(h, h[o].fields[k]) == Some(h1)
    requires |h1| == |h| && h1[o].fields == h[o].fields
    ensures IncRefAny(h1, v).None? ==> Assign(h, o, k, v).None?
    ensures IncRefAny(h1, v).Some? && k < |IncRefAny(h1, v).value[o].fields| ==>
      Assign(h, o, k, v) == Some(Write(IncRefAny(h1, v).value, o, k, v))
  {
    hide DecRefAny;
  }

  /** The second half of GC_assign: count the new value and write it. */
  lemma {:induction false} AssignWrites(h: Heap, h1: Heap, handles: multiset<nat>, o: nat, k: nat, v: Option<nat>)
    requires o < |h| && k < |h[o].fields| && h[o].pointers && AtRest(h) && Frame(h, h1) && h1[o].rc > 0
    requires Exact(h1, handles, Some((o, k))) && IncRefAny(h1, v).Some?
    ensures k < |IncRefAny(h1, v).value[o].fields|
    ensures var r := Write(IncRefAny(h1, v).value, o, k, v);
      && Exact(r, handles, None) && AtRest(r) && |r| == |h| && r[o].fields == h[o].fields[k := v]
      && forall q | 0 <= q < |h| && q != o :: r[q].fields == h[q].fields
  {
    hide DecRef, Refs, Targets, Counted, Supported, Single, IncRefAny, DecRefAny, Exact;
    IncAnyExact(h1, handles, Some((o, k)), v);
    var h2 := IncRefAny(h1, v).value;
    assert h2[o] == h1[o].(rc := h2[o].rc);
    HoleWrite(h2, handles + Single(v), o, k, v);
    HoleOpens(Write(h2, o, k, v), handles, o, k);
  }

  /** GC_assign to a variable: the same, with the variable itself counted as a handle. */
  lemma {:induction false} AssignVarExact(h: Heap, handles: multiset<nat>, was: Option<nat>, v: Option<nat>)
    requires Exact(h, handles + Single(was), None) && AtRest(h)
    ensures AssignVar(h, was, v).Some? <==> v == was || Independent(h, handles, None, v)
    ensures AssignVar(h, was, v).Some? ==>
      var r := AssignVar(h, was, v).value;
      Exact(r, handles + Single(v), None) && AtRest(r)
  {
    hide DecRef, Refs, Targets, Counted, Single, Independent, IncRefAny, DecRefAny;
    if v != was {
      DropOld(h, handles, None, was, {}, v);
      var h1 := DecRefAny(h, was).value;
      if IncRefAny(h1, v).Some? { IncAnyExact(h1, handles, None, v); }
    }
  }

  lemma {:induction false} NoTargets(f: seq<Option<nat>>)
    requires forall i | 0 <= i < |f| :: f[i] == None
    ensures Targets(f) == multiset{}
  {
    if f != [] { NoTargets(f[1..]); }
  }

  lemma {:induction false} RefsPrefix(h: Heap, o: Obj, n: nat, q: nat)
    requires n <= |h|
    ensures Refs(h + [o], None, n, q) == Refs(h, None, n, q)
  {
    hide Targets;
    if n > 0 { RefsPrefix(h, o, n - 1, q); }
  }

  lemma AllocRefs(h: Heap, n: nat, pointers: bool, q: nat)
    ensures Refs(Alloc(h, n, pointers), None, |h| + 1, q) == Refs(h, None, |h|, q)
  {
    var r := Alloc(h, n, pointers);
    NoTargets(Nulls(n));
    RefsPrefix(h, r[|h|], |h|, q);
    RefsStep(r, None, |r|, q);
    hide Refs, Targets;
    CountedAll(r, |h|);
  }

  lemma AllocExact(h: Heap, handles: multiset<nat>, n: nat, pointers: bool)
    requires Exact(h, handles, None) && AtRest(h)
    ensures Exact(Alloc(h, n, pointers), handles + multiset{|h|}, None) && AtRest(Alloc(h, n, pointers))
  {
    hide Refs, Targets;
    var r := Alloc(h, n, pointers);
    NoTargets(Nulls(n));
    forall q: nat
      ensures Refs(r, None, |r|, q) == Refs(h, None, |h|, q)
    {
      AllocRefs(h, n, pointers, q);
    }
  }

  // ----- whole runs -----

  datatype Op =
    | NewObject(fields: nat, pointers: bool)
    | Retain(p: nat)
    | Release(p: nat)
    | SetField(o: nat, k: nat, v: Option<nat>)
    | SetVariable(was: Option<nat>, v: Option<nat>)

  /** What the collector asks of its callers: release and overwrite only what you hold, write only to
      what you can reach, and store only what you reach without the reference being overwritten. */
  ghost predicate Allowed(op: Op, h: Heap, handles: multiset<nat>) {
    match op
    case NewObject(_, _) => true
    case Retain(p) => p < |h| && h[p].live
    case Release(p) => p in handles
    case SetField(o, k, v) =>
      && Reachable(h, handles, o) && o < |h| && h[o].pointers && k < |h[o].fields|
      && (v == h[o].fields[k] || v.None? || ReachableBut(h, handles, Some((o, k)), v.value))
    case SetVariable(was, v) =>
      && Single(was) <= handles
      && (v == was || v.None? || ReachableBut(h, handles - Single(was), None, v.value))
  }

  ghost function Do(op: Op, h: Heap): Option<Heap> {
    match op
    case NewObject(n, pointers) => Some(Alloc(h, n, pointers))
    case Retain(p) => IncRef(h, p)
    case Release(p) => DecRef(h, p)
    case SetField(o, k, v) => if o < |h| && k < |h[o].fields| then Assign(h, o, k, v) else None
    case SetVariable(was, v) => AssignVar(h, was, v)
  }

  ghost function Holding(op: Op, h: Heap, handles: multiset<nat>): multiset<nat> {
    match op
    case NewObject(_, _) => handles + multiset{|h|}
    case Retain(p) => handles + multiset{p}
    case Release(p) => handles - multiset{p}
    case SetField(_, _, _) => handles
    case SetVariable(was, v) => handles - Single(was) + Single(v)
  }

  /** One operation of a well-behaved program. */
  ghost predicate Sound(op: Op, h: Heap, handles: multiset<nat>) {
    && Do(op, h).Some?
    && Exact(Do(op, h).value, Holding(op, h, handles), None) && AtRest(Do(op, h).value)
  }

  lemma SoundRetain(h: Heap, handles: multiset<nat>, p: nat)
    requires Exact(h, handles, None) && AtRest(h) && Allowed(Retain(p), h, handles)
    ensures Sound(Retain(p), h, handles)
  {
    hide Exact;
    IncExact(h, handles, None, p);
  }

  lemma SoundRelease(h: Heap, handles: multiset<nat>, p: nat)
    requires Exact(h, handles, None) && AtRest(h) && Allowed(Release(p), h, handles)
    ensures Sound(Release(p), h, handles)
  {
    hide Exact, DecRef;
    assert handles == handles - multiset{p} + multiset{p};
    EmptySupported(h, handles - multiset{p});
    DecRefExact(h, handles - multiset{p}, None, p, {});
  }

  lemma SoundSetField(h: Heap, handles: multiset<nat>, o: nat, k: nat, v: Option<nat>)
    requires Exact(h, handles, None) && AtRest(h) && Allowed(SetField(o, k, v), h, handles)
    ensures Sound(SetField(o, k, v), h, handles)
  {
    hide Exact, Assign, Independent, Reachable, ReachableBut, AtRest, Single;
    var was := h[o].fields[k];
    if v != was {
      var _ := ContainerSupported(h, handles, o, k);
      HoleOpens(h, handles, o, k);
      HandlesKnown(h, handles, was);
      IndependentAny(h, handles + Single(was), handles, Some((o, k)), v);
    }
    AssignExact(h, handles, o, k, v);
  }

  lemma IndependentAny(h: Heap, all: multiset<nat>, handles: multiset<nat>, hole: Hole, v: Option<nat>)
    requires Exact(h, all, hole) && handles <= all && (v.None? || ReachableBut(h, handles, hole, v.value))
    ensures Independent(h, handles, hole, v)
  {
    hide Exact, Supported, ReachableBut;
    if v.Some? { IndependentReachable(h, all, handles, hole, v.value); }
  }

  lemma SoundSetVariable(h: Heap, handles: multiset<nat>, was: Option<nat>, v: Option<nat>)
    requires Exact(h, handles, None) && AtRest(h) && Allowed(SetVariable(was, v), h, handles)
    ensures Sound(SetVariable(was, v), h, handles)
  {
    hide Exact, AssignVar, Independent, ReachableBut, AtRest;
    var rest := handles - Single(was);
    assert handles == rest + Single(was);
    if v != was { IndependentAny(h, handles, rest, None, v); }
    AssignVarExact(h, rest, was, v);
  }

  lemma {:induction false} DoExact(op: Op, h: Heap, handles: multiset<nat>)
    requires Exact(h, handles, None) && AtRest(h) && Allowed(op, h, handles)
    ensures Do(op, h).Some?
    ensures Exact(Do(op, h).value, Holding(op, h, handles), None) && AtRest(Do(op, h).value)
  {
    hide Exact, Allowed, Do, Holding, AtRest;
    match op
    case NewObject(n, pointers) => SoundNew(h, handles, n, pointers);
    case Retain(p) => SoundRetain(h, handles, p);
    case Release(p) => SoundRelease(h, handles, p);
    case SetField(o, k, v) => SoundSetField(h, handles, o, k, v);
    case SetVariable(was, v) => SoundSetVariable(h, handles, was, v);
  }

  lemma SoundNew(h: Heap, handles: multiset<nat>, n: nat, pointers: bool)
    requires Exact(h, handles, None) && AtRest(h)
    ensures Sound(NewObject(n, pointers), h, handles)
  {
    hide Exact, Alloc;
    AllocExact(h, handles, n, pointers);
  }

  lemma EmptySupported(h: Heap, handles: multiset<nat>)
    ensures Supported({}, h, handles, None)
  {
  }

  /** The heap and the handles after a run, if no step touched a dead object. */
  ghost function RunAll(ops: seq<Op>, h: Heap, handles: multiset<nat>): Option<(Heap, multiset<nat>)> {
    if ops == [] then Some((h, handles)) else
      var r := Do(ops[0], h);
      if r.None? then None else RunAll(ops[1..], r.value, Holding(ops[0], h, handles))
  }

  ghost predicate AllAllowed(ops: seq<Op>, h: Heap, handles: multiset<nat>) {
    ops == [] || (Allowed(ops[0], h, handles) &&
      (Do(ops[0], h).Some? ==> AllAllowed(ops[1..], Do(ops[0], h).value, Holding(ops[0], h, handles))))
  }

  /** Any run of a well-behaved program, of any length and over any graph, cyclic or not: no step touches
      a freed object, every count stays exact, and an object is freed exactly when its count is zero. */
  lemma {:induction false} RunExact(ops: seq<Op>, h: Heap, handles: multiset<nat>)
    requires Exact(h, handles, None) && AtRest(h) && AllAllowed(ops, h, handles)
    ensures RunAll(ops, h, handles).Some?
    ensures var (g, held) := RunAll(ops, h, handles).value; Exact(g, held, None) && AtRest(g)
  {
    hide Exact, AtRest, Do, Holding, Allowed;
    if ops != [] {
      DoExact(ops[0], h, handles);
      RunExact(ops[1..], Do(ops[0], h).value, Holding(ops[0], h, handles));
    }
  }

  lemma NothingExact()
    ensures Exact([], multiset{}, None) && AtRest([])
  {
  }

  /** After any such run from an empty heap that left no cycle, what is allocated is what the program can
      reach. */
  lemma LiveIffReachable(ops: seq<Op>, rank: nat -> nat, x: nat)
    requires AllAllowed(ops, [], multiset{})
    ensures RunAll(ops, [], multiset{}).Some?
    ensures var (g, held) := RunAll(ops, [], multiset{}).value;
            Ranked(g, rank) ==> ((x < |g| && g[x].live) <==> Reachable(g, held, x))
  {
    NothingExact();
    RunExact(ops, [], multiset{});
    var (g, held) := RunAll(ops, [], multiset{}).value;
    hide RunAll, AllAllowed, Refs, Targets, Counted;
    if Ranked(g, rank) {
      if x < |g| && g[x].live {
        CountedReachable(g, held, rank, x);
      } else if Reachable(g, held, x) {
        var s := ReachableSupported(g, held, held, None, x);
      }
    }
  }

  // ----- the collector as a class -----

  class Memory {
    var objs: Heap

    constructor ()
      ensures objs == []
    {
      objs := [];
    }

    /** GC_alloc: zeroed memory, count one. */
    method Allocate(n: nat, pointers: bool) returns (p: nat)
      modifies this
      ensures p == |old(objs)| && objs == Alloc(old(objs), n, pointers)
    {
      p := |objs|;
      objs := objs + [Obj(true, 1, pointers, Nulls(n))];
    }

    /** GC_incRef; a null pointer is ignored. */
    method Retain(p: Option<nat>)
      requires IncRefAny(objs, p).Some?
      modifies this
      ensures objs == IncRefAny(old(objs), p).value
    {
      if p.Some? { objs := objs[p.value := objs[p.value].(rc := objs[p.value].rc + 1)]; }
    }

    /** GC_free. */
    method Dispose(p: nat) returns (ok: bool)
      requires p < |objs|
      modifies this
      ensures ok == (old(objs)[p].rc == 0) && objs == Free(old(objs), p)
    {
      if objs[p].rc > 0 { return false; }
      objs := objs[p := objs[p].(live := false)];
      return true;
    }

    /** GC_decRef; a null pointer is ignored. */
    method Release(p: Option<nat>)
      requires DecRefAny(objs, p).Some?
      modifies this
      ensures objs == DecRefAny(old(objs), p).value
      decreases Total(objs), 0
    {
      if p.None? { return; }
      var q := p.value;
      objs := Drop1(objs, q);
      if objs[q].rc <= 0 {
        if objs[q].pointers { ReleaseFields(objs[q].fields); }
        var _ := Dispose(q);
      }
    }

    /** The decRef routine of a container: every pointer it holds is released. */
    method ReleaseFields(fields: seq<Option<nat>>)
      requires DecAll(objs, fields).Some?
      modifies this
      ensures objs == DecAll(old(objs), fields).value
      decreases Total(objs), |fields| + 1
    {
      for i := 0 to |fields|
        invariant Total(objs) <= old(Total(objs))
        invariant DecAll(objs, fields[i..]) == DecAll(old(objs), fields)
      {
        assert fields[i..][0] == fields[i] && fields[i..][1..] == fields[i + 1..];
        if fields[i].Some? { Release(fields[i]); }
      }
    }

    /** GC_assign to field k of object o. */
    method SetField(o: nat, k: nat, v: Option<nat>)
      requires o < |objs| && k < |objs[o].fields| && Assign(objs, o, k, v).Some?
      modifies this
      ensures objs == Assign(old(objs), o, k, v).value
    {
      var was := objs[o].fields[k];
      if was == v { return; }
      if was.Some? { Release(was); }
      if v.Some? { Retain(v); }
      objs := objs[o := objs[o].(fields := objs[o].fields[k := v])];
    }

    /** GC_assign to a variable of the program. */
    method SetVariable(was: Option<nat>, v: Option<nat>) returns (variable: Option<nat>)
      requires AssignVar(objs, was, v).Some?
      modifies this
      ensures objs == AssignVar(old(objs), was, v).value && variable == v
    {
      variable := was;
      if was == v { return; }
      if was.Some? { Release(was); }
      if v.Some? { Retain(v); }
      variable := v;
    }
  }
}
