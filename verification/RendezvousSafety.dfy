/**
 The inductive invariant of the rendezvous protocol, and what it gives over every run: mutual
 exclusion, no lost rendezvous, exactly-once delivery in order.
 */
module RendezvousSafety {
  import opened Rendezvous

  // ----- the invariant, one conjunct per concern -----

  function Wrap(p: nat, n: nat): nat
    requires p < 2 * n
    ensures Wrap(p, n) < n
  {
    if p < n then p else p - n
  }

  /** The j-th half probed by a scan that started at `start`. */
  function Probed(l: seq<nat>, start: nat, j: nat): nat
    requires start < |l| && j <= |l|
  {
    l[Wrap(start + j, |l|)]
  }

  /** No operation has announced this half, or it was already matched and served. */
  predicate Quiet(x: Half) {
    !x.ready && x.blocked == 0
  }

  /** Announced: still ready, or matched by a partner and owed one wake-up. */
  predicate Announced(x: Half) {
    0 <= x.blocked <= 1 && (x.ready <==> x.blocked == 0)
  }

  /** The first k probes of the scan are in `seen`. */
  ghost predicate Covered(l: seq<nat>, x: Half, k: nat) {
    x.start < |l| && k <= |l| && forall j | 0 <= j < k :: Probed(l, x.start, j) in x.seen
  }

  /** Flags, wake-ups and partners, by program point; nothing here depends on what the scan has seen. */
  predicate Steady(l: seq<nat>, x: Half) {
    match x.pc
    case Idle => Quiet(x)
    case Start(_) => Quiet(x)
    case Announce => Quiet(x) && |l| > 0
    case Raised => Announced(x) && |l| > 0
    case Scan(_) => Announced(x) && |l| > 0
    case WantIn(_, m) => Announced(x) && m in l
    case WantOut(_, m) => Announced(x) && m in l
    case Both(_, m) => Announced(x) && m in l
    case Commit(_, m) => Announced(x) && m in l
    case AckWait(m, _) => Quiet(x) && m in l
    case Release => Quiet(x) && |l| > 0
    case Park(w) => Announced(x) && (w == Asleep ==> x.ready) && (w == Woken ==> !x.ready)
    case Copy => Quiet(x)
  }

  ghost predicate Probing(l: seq<nat>, x: Half, k: nat, m: nat) {
    !x.token && Covered(l, x, k) && k < |l| == x.length && m == Probed(l, x.start, k) &&
    x.cursor == Wrap(Wrap(x.start + k, |l|) + 1, |l|)
  }

  /** The token, and the scan's progress, while nobody binds or unbinds. */
  ghost predicate Swept(l: seq<nat>, x: Half) {
    (|l| > 0 ==> x.cursor < |l|) &&
    match x.pc
    case Idle => x.token <==> |l| > 0
    case Start(w) => (x.token <==> |l| > 0) && (w == Asleep ==> |l| == 0) && w != Woken
    case Announce => !x.token
    case Raised => !x.token && x.cursor == x.start && |l| > 0
    case Scan(k) => !x.token && Covered(l, x, k) && x.length == |l| && x.cursor == Wrap(x.start + k, |l|)
    case WantIn(k, m) => Probing(l, x, k, m)
    case WantOut(k, m) => Probing(l, x, k, m)
    case Both(k, m) => Probing(l, x, k, m)
    case Commit(k, m) => Probing(l, x, k, m)
    case AckWait(_, _) => !x.token
    case Release => !x.token
    case Park(w) => x.token && |l| > 0 && forall m | m in l :: m in x.seen
    case Copy => x.token && |l| > 0
  }

  ghost predicate Control(l: seq<nat>, x: Half) {
    Steady(l, x) && Swept(l, x)
  }

  predicate Active(pc: PC) {
    pc == Raised || pc.Scan? || pc.WantIn? || pc.WantOut? || pc.Both? || pc.Commit? || pc.Park?
  }

  /** Matched by an active sender, payload not copied yet. */
  predicate Pending(x: Half) {
    (Active(x.pc) && !x.ready) || x.pc == Copy
  }

  /** How many operations were begun, matched and completed. */
  predicate Counts(d: Dir, x: Half) {
    match d
    case Out =>
      && x.from == [] && x.got == [] && x.pc != Copy
      && |x.sent| == |x.to| + (if x.pc.Start? || x.pc == Announce || x.ready then 1 else 0)
      && (x.ready ==> x.buffer == x.sent[|x.sent| - 1])
    case In =>
      && x.to == [] && x.sent == [] && !x.pc.AckWait?
      && |x.from| == |x.got| + (if Pending(x) || x.pc == Release then 1 else 0)
  }

  ghost predicate HalfOk(g: Graph, h: nat, x: Half)
    requires h in g.dir && h in g.conns
  {
    Control(g.conns[h], x) && Counts(g.dir[h], x)
  }

  predicate HalfSteady(g: Graph, h: nat, x: Half)
    requires h in g.dir && h in g.conns
  {
    Steady(g.conns[h], x) && Counts(g.dir[h], x)
  }

  ghost predicate Settled(g: Graph, s: State) {
    && g.conns.Keys == g.dir.Keys == s.Keys
    && (forall h | h in s :: HalfSteady(g, h, s[h]))
  }

  ghost predicate Local(g: Graph, s: State)
    ensures Local(g, s) ==> Settled(g, s)
  {
    && g.conns.Keys == g.dir.Keys == s.Keys
    && (forall h | h in s :: HalfOk(g, h, s[h]))
  }

  ghost predicate Exclusion(g: Graph, s: State) {
    forall p, q, x: nat | Holds(g, s, p, x) && Holds(g, s, q, x) :: p == q
  }

  ghost predicate Committed(s: State) {
    forall h | h in s && s[h].pc.Commit? :: s[h].pc.m in s && s[h].ready && s[s[h].pc.m].ready
  }

  /** Two ready halves cannot both have missed each other. */
  ghost predicate NotMissed(g: Graph, s: State) {
    forall o, i | Bound(g, o, i) && o in s && i in s && s[o].ready && s[i].ready ::
      !(i in s[o].seen && o in s[i].seen)
  }

  /** Where the payload of receive r of half x is. */
  predicate Carries(x: Half, r: nat, v: Payload) {
    && (r < |x.got| ==> x.got[r] == v)
    && (r == |x.got| && Pending(x) ==> x.buffer == v)
    && (r == |x.got| && x.pc == Release ==> x.data == v)
  }

  /** Sends and receives are matched one to one, along links. */
  ghost predicate Forward(g: Graph, s: State) {
    forall o, k | o in s && 0 <= k < |s[o].to| ::
      var (i, r) := s[o].to[k]; Bound(g, o, i) && i in s && r < |s[i].from| && s[i].from[r] == (o, k)
  }

  ghost predicate Backward(g: Graph, s: State) {
    forall i, r | i in s && 0 <= r < |s[i].from| ::
      var (o, k) := s[i].from[r];
      Bound(g, o, i) && o in s && k < |s[o].to| && s[o].to[k] == (i, r) && k < |s[o].sent| &&
      Carries(s[i], r, s[o].sent[k])
  }

  /** On each link, receives take the sends in order. */
  ghost predicate InOrder(s: State) {
    forall i, p, q | i in s && 0 <= p < q < |s[i].from| && s[i].from[p].0 == s[i].from[q].0 ::
      s[i].from[p].1 < s[i].from[q].1
  }

  ghost predicate Inv(g: Graph, s: State) {
    Local(g, s) && Exclusion(g, s) && Committed(s) && NotMissed(g, s) &&
    Forward(g, s) && Backward(g, s) && InOrder(s)
  }

  // ----- preservation, record by record -----

  /** n cyclic steps from any start reach every position. */
  lemma FullCycle(l: seq<nat>, start: nat, m: nat) returns (j: nat)
    requires start < |l| && m in l
    ensures j < |l| && Probed(l, start, j) == m
  {
    var x: nat :| x < |l| && l[x] == m;
    j := if x >= start then x - start else x + |l| - start;
  }

  lemma OwnSteady(d: Dir, l: seq<nat>, x: Half, y: Half, a: Step)
    requires Steady(l, x) && Guard(l, x, y, a)
    requires (a.Hit? ==> x.ready) && (a.TokenTake? ==> |l| > 0)
    ensures Steady(l, Own(d, l, x, y, a))
  {
  }

  lemma OwnSwept(d: Dir, l: seq<nat>, x: Half, y: Half, a: Step)
    requires Control(l, x) && Guard(l, x, y, a)
    ensures Swept(l, Own(d, l, x, y, a))
  {
    hide Swept, Steady, Guard, Own, Control;
    if a.Measure? || a.Fetch? || a.Miss? { ScanSwept(d, l, x, y, a); }
    else if a.LockIn? || a.LockOut? || a.Match? { ProbeSwept(d, l, x, y, a); }
    else if a.ScanEnd? { EndSwept(d, l, x, y, a); }
    else { PlainSwept(d, l, x, y, a); }
  }

  /** The steps of the scan itself. */
  lemma ScanSwept(d: Dir, l: seq<nat>, x: Half, y: Half, a: Step)
    requires Control(l, x) && Guard(l, x, y, a) && (a.Measure? || a.Fetch? || a.Miss?)
    ensures Swept(l, Own(d, l, x, y, a))
  {
  }

  lemma ProbeSwept(d: Dir, l: seq<nat>, x: Half, y: Half, a: Step)
    requires Control(l, x) && Guard(l, x, y, a) && (a.LockIn? || a.LockOut? || a.Match?)
    ensures Swept(l, Own(d, l, x, y, a))
  {
  }

  lemma EndSwept(d: Dir, l: seq<nat>, x: Half, y: Half, a: Step)
    requires Control(l, x) && Guard(l, x, y, a) && a.ScanEnd?
    ensures Swept(l, Own(d, l, x, y, a))
  {
    forall m | m in l ensures m in x.seen {
      var j := FullCycle(l, x.start, m);
    }
  }

  lemma PlainSwept(d: Dir, l: seq<nat>, x: Half, y: Half, a: Step)
    requires Control(l, x) && Guard(l, x, y, a) && !a.Measure? && !a.Fetch? && !a.Miss? && !a.ScanEnd?
    requires !a.LockIn? && !a.LockOut? && !a.Match?
    ensures Swept(l, Own(d, l, x, y, a))
  {
    hide Covered;
  }

  lemma OwnCounts(d: Dir, l: seq<nat>, x: Half, y: Half, a: Step)
    requires Steady(l, x) && Counts(d, x) && Guard(l, x, y, a)
    requires a.Hit? ==> x.ready
    ensures Counts(d, Own(d, l, x, y, a))
  {
    hide Steady, Counts, Guard, Own;
    if d == Out { SenderCounts(l, x, y, a); } else { ReceiverCounts(l, x, y, a); }
  }

  lemma SenderCounts(l: seq<nat>, x: Half, y: Half, a: Step)
    requires Steady(l, x) && Counts(Out, x) && Guard(l, x, y, a) && (a.Hit? ==> x.ready)
    ensures Counts(Out, Own(Out, l, x, y, a))
  {
  }

  lemma ReceiverCounts(l: seq<nat>, x: Half, y: Half, a: Step)
    requires Steady(l, x) && Counts(In, x) && Guard(l, x, y, a) && (a.Hit? ==> x.ready)
    ensures Counts(In, Own(In, l, x, y, a))
  {
  }

  lemma OtherSteady(d: Dir, l: seq<nat>, x: Half, e: Dir, r: seq<nat>, y: Half, a: Step)
    requires Steady(r, y) && Counts(e, y) && Guard(l, x, y, a) && d != e
    requires a.Hit? ==> y.ready && Active(y.pc)
    ensures Steady(r, Other(d, x, y, a)) && Counts(e, Other(d, x, y, a))
  {
  }

  lemma SweptSame(l: seq<nat>, x: Half, y: Half)
    requires Swept(l, x) && y.token == x.token && y.start == x.start && y.seen == x.seen && y.cursor == x.cursor
    requires y.length == x.length
    requires y.pc == x.pc || (x.pc.Park? && y.pc.Park?) || (x.pc.AckWait? && y.pc.AckWait?)
    ensures Swept(l, y)
  {
  }

  lemma OtherSwept(d: Dir, l: seq<nat>, x: Half, r: seq<nat>, y: Half, a: Step)
    requires Swept(r, y) && Guard(l, x, y, a)
    ensures Swept(r, Other(d, x, y, a))
  {
    hide Swept;
    SweptSame(r, y, Other(d, x, y, a));
  }

  lemma ReadyIsActive(l: seq<nat>, y: Half)
    requires Steady(l, y) && y.ready
    ensures Active(y.pc)
  {
  }

  lemma LinkedPartner(g: Graph, s: State, a: Step)
    requires WellFormed(g) && Settled(g, s) && Enabled(g, s, a) && Partner(s[a.h], a) != a.h
    ensures Linked(g, a.h, Partner(s[a.h], a))
  {
    var m := Partner(s[a.h], a);
    assert HalfSteady(g, a.h, s[a.h]) && HalfSteady(g, m, s[m]);
    if a.Take? { assert Linked(g, m, a.h); }
  }

  lemma SettledStep(g: Graph, s: State, a: Step)
    requires WellFormed(g) && Settled(g, s) && Committed(s) && Enabled(g, s, a) && (a.TokenTake? ==> |g.conns[a.h]| > 0)
    ensures Settled(g, Apply(g, s, a))
  {
    hide Own, Other, Steady, Counts, Active;
    var h, d, l := a.h, g.dir[a.h], g.conns[a.h];
    var x, m := s[h], Partner(s[h], a);
    var y := s[m];
    assert HalfSteady(g, h, x) && HalfSteady(g, m, y);
    assert a.Hit? ==> x.pc.Commit? && x.ready && y.ready;
    hide Guard;
    OwnSteady(d, l, x, y, a);
    OwnCounts(d, l, x, y, a);
    if m != h {
      LinkedPartner(g, s, a);
      if a.Hit? { ReadyIsActive(g.conns[m], y); }
      OtherSteady(d, l, x, g.dir[m], g.conns[m], y, a);
    }
  }

  lemma SweptTake(g: Graph, s: State, a: Step)
    requires Local(g, s) && Enabled(g, s, a) && a.TokenTake?
    ensures |g.conns[a.h]| > 0
  {
    assert HalfOk(g, a.h, s[a.h]);
  }

  lemma LocalStep(g: Graph, s: State, a: Step)
    requires WellFormed(g) && Local(g, s) && Committed(s) && Enabled(g, s, a)
    ensures Local(g, Apply(g, s, a))
  {
    hide Own, Other, Steady, Swept, Counts, Guard;
    var h, d, l := a.h, g.dir[a.h], g.conns[a.h];
    var x, m := s[h], Partner(s[h], a);
    assert HalfOk(g, h, x) && HalfOk(g, m, s[m]);
    if a.TokenTake? { SweptTake(g, s, a); }
    SettledStep(g, s, a);
    OwnSwept(d, l, x, s[m], a);
    if m != h { OtherSwept(d, l, x, g.conns[m], s[m], a); }
    forall q | q in s ensures HalfOk(g, q, Apply(g, s, a)[q]) {
      assert HalfOk(g, q, s[q]) && HalfSteady(g, q, Apply(g, s, a)[q]);
    }
  }

  // ----- mutual exclusion and the committed test -----

  /** A thread enters a mutex only through LockIn and LockOut. */
  lemma OwnInside(d: Dir, l: seq<nat>, x: Half, y: Half, a: Step, z: nat)
    requires Guard(l, x, y, a) && Inside(d, a.h, Own(d, l, x, y, a).pc, z) && !Inside(d, a.h, x.pc, z)
    ensures (a.LockIn? && z == InSide(d, a.h, x.pc.m)) || (a.LockOut? && z == OutSide(d, a.h, x.pc.m))
  {
  }

  lemma OtherInside(d: Dir, l: seq<nat>, x: Half, e: Dir, y: Half, a: Step, q: nat, z: nat)
    requires Guard(l, x, y, a)
    ensures Inside(e, q, Other(d, x, y, a).pc, z) <==> Inside(e, q, y.pc, z)
    ensures Other(d, x, y, a).pc.Commit? <==> y.pc.Commit?
  {
  }

  lemma ExclusionStep(g: Graph, s: State, a: Step)
    requires Exclusion(g, s) && Enabled(g, s, a)
    ensures Exclusion(g, Apply(g, s, a))
  {
    hide Guard, Own, Other, Inside;
    var s' := Apply(g, s, a);
    var h, d, l, m := a.h, g.dir[a.h], g.conns[a.h], Partner(s[a.h], a);
    forall p, z: nat | Holds(g, s', p, z) && !Holds(g, s, p, z)
      ensures p == h && Free(g, s, z)
    {
      if p == h { OwnInside(d, l, s[h], s[m], a, z); }
      else if p == m { OtherInside(d, l, s[h], g.dir[m], s[m], a, m, z); }
    }
    forall p, q, z: nat | Holds(g, s', p, z) && Holds(g, s', q, z) ensures p == q {
      if !Holds(g, s, p, z) || !Holds(g, s, q, z) {
        assert Holds(g, s, p, z) || p == h;
        assert Holds(g, s, q, z) || q == h;
      }
    }
  }

  /** `ready` is dropped only by a thread inside the mutex of that half. */
  lemma OwnReady(d: Dir, l: seq<nat>, x: Half, y: Half, a: Step)
    requires Guard(l, x, y, a)
    ensures x.ready && !Own(d, l, x, y, a).ready ==> a.Hit?
    ensures y.ready && !Other(d, x, y, a).ready ==> a.Hit?
    ensures Own(d, l, x, y, a).pc.Commit? ==> a.Match? && Own(d, l, x, y, a).pc.m == Partner(x, a)
    ensures Other(d, x, y, a).pc.Commit? ==> Other(d, x, y, a).pc == y.pc
    ensures a.Hit? ==> x.pc.Commit?
    ensures a.Match? ==> x.ready && y.ready
  {
  }

  /** Two threads that have both committed, or one that holds its pair, work on disjoint pairs. */
  lemma CommittedDisjoint(g: Graph, s: State, p: nat, h: nat)
    requires Exclusion(g, s) && p in s && h in s && p in g.dir && h in g.dir && p != h
    requires s[p].pc.Commit? && s[h].pc.Commit?
    ensures p != s[h].pc.m && s[p].pc.m != h && s[p].pc.m != s[h].pc.m
  {
    assert Holds(g, s, p, p) && Holds(g, s, p, s[p].pc.m);
    assert Holds(g, s, h, h) && Holds(g, s, h, s[h].pc.m);
  }

  lemma CommittedStep(g: Graph, s: State, a: Step)
    requires Exclusion(g, s) && Committed(s) && Enabled(g, s, a)
    ensures Committed(Apply(g, s, a))
  {
    hide Guard, Own, Other, HalfOk, Holds;
    var s' := Apply(g, s, a);
    var h, d, l, m := a.h, g.dir[a.h], g.conns[a.h], Partner(s[a.h], a);
    OwnReady(d, l, s[h], s[m], a);
    forall p | p in s' && s'[p].pc.Commit?
      ensures s'[p].pc.m in s' && s'[p].ready && s'[s'[p].pc.m].ready
    {
      if p != h {
        assert s[p].pc == s'[p].pc;
        if a.Hit? { CommittedDisjoint(g, s, p, h); }
      }
    }
  }

  // ----- no lost rendezvous -----

  lemma SeenEffect(d: Dir, l: seq<nat>, x: Half, y: Half, a: Step)
    requires Guard(l, x, y, a)
    ensures var x' := Own(d, l, x, y, a);
            x'.ready ==> (x.ready && x'.seen == x.seen) || x'.seen == {} ||
                         (a.Miss? && x.ready && x'.seen == x.seen + {x.pc.m} && x.pc.Both?)
    ensures var y' := Other(d, x, y, a); y'.ready ==> y.ready && y'.seen == y.seen
    ensures a.Miss? ==> x.pc.Both? && !(x.ready && y.ready) && Other(d, x, y, a) == y
  {
  }

  /** What a step does to the probes recorded by half q, if q is ready afterwards. */
  ghost predicate SeenKept(x: Half, x': Half, missed: bool, m: nat) {
    x'.ready ==>
      || (x.ready && x'.seen == x.seen) || x'.seen == {}
      || (missed && x.ready && x'.seen == x.seen + {m})
  }

  lemma SeenStep(g: Graph, s: State, a: Step, q: nat)
    requires Enabled(g, s, a) && q in s
    ensures Apply(g, s, a).Keys == s.Keys
    ensures SeenKept(s[q], Apply(g, s, a)[q], a.Miss? && q == a.h, Partner(s[a.h], a))
  {
    hide Guard, Own, Other, Free;
    SeenEffect(g.dir[a.h], g.conns[a.h], s[a.h], s[Partner(s[a.h], a)], a);
  }

  lemma MissOne(g: Graph, s: State, a: Step)
    requires Enabled(g, s, a) && a.Miss?
    ensures a.h in s && Partner(s[a.h], a) in s && !(s[a.h].ready && s[Partner(s[a.h], a)].ready)
    ensures Apply(g, s, a)[Partner(s[a.h], a)].ready ==> s[Partner(s[a.h], a)].ready || Partner(s[a.h], a) == a.h
  {
    hide Free;
  }

  lemma PairNotMissed(g: Graph, s: State, a: Step, o: nat, i: nat)
    requires NotMissed(g, s) && Enabled(g, s, a) && Bound(g, o, i) && o in s && i in s && o != i
    requires Apply(g, s, a).Keys == s.Keys && Apply(g, s, a)[o].ready && Apply(g, s, a)[i].ready
    ensures !(i in Apply(g, s, a)[o].seen && o in Apply(g, s, a)[i].seen)
  {
    SeenStep(g, s, a, o);
    SeenStep(g, s, a, i);
    if a.Miss? { MissOne(g, s, a); }
    hide Enabled, Apply, Bound;
  }

  lemma NotMissedStep(g: Graph, s: State, a: Step)
    requires WellFormed(g) && Local(g, s) && NotMissed(g, s) && Enabled(g, s, a)
    ensures NotMissed(g, Apply(g, s, a))
  {
    hide Enabled, Apply, Local;
    SeenStep(g, s, a, a.h) by { EnabledIn(g, s, a); }
    forall o, i | Bound(g, o, i) && o in Apply(g, s, a) && i in Apply(g, s, a) && Apply(g, s, a)[o].ready &&
        Apply(g, s, a)[i].ready
      ensures !(i in Apply(g, s, a)[o].seen && o in Apply(g, s, a)[i].seen)
    {
      assert o != i;
      PairNotMissed(g, s, a, o, i);
    }
  }

  lemma EnabledIn(g: Graph, s: State, a: Step)
    requires Enabled(g, s, a)
    ensures a.h in s
  {
  }

  // ----- delivery -----

  lemma HistoryEffect(d: Dir, l: seq<nat>, x: Half, y: Half, a: Step)
    requires Guard(l, x, y, a) && !a.Hit?
    ensures var x' := Own(d, l, x, y, a);
            x'.to == x.to && x'.from == x.from && x.sent <= x'.sent
    ensures var y' := Other(d, x, y, a);
            y'.to == y.to && y'.from == y.from && y'.sent == y.sent
  {
  }

  lemma OwnCarries(d: Dir, l: seq<nat>, x: Half, y: Half, a: Step, r: nat, v: Payload)
    requires Steady(l, x) && Counts(d, x) && Guard(l, x, y, a) && !a.Hit?
    requires r < |x.from| && Carries(x, r, v)
    ensures Carries(Own(d, l, x, y, a), r, v)
  {
  }

  lemma OtherCarries(d: Dir, x: Half, y: Half, a: Step, r: nat, v: Payload)
    requires (a.Take? ==> y.pc.AckWait?) && !a.Hit? && Carries(y, r, v)
    ensures Carries(Other(d, x, y, a), r, v)
  {
  }

  lemma TakeFromSleeper(l: seq<nat>, x: Half, y: Half, a: Step)
    requires Guard(l, x, y, a) && a.Take?
    ensures y.pc.AckWait?
  {
  }

  lemma QuietHistory(g: Graph, s: State, a: Step)
    requires Enabled(g, s, a) && !a.Hit?
    ensures var s' := Apply(g, s, a);
            s'.Keys == s.Keys &&
            forall q | q in s :: s'[q].to == s[q].to && s'[q].from == s[q].from && s[q].sent <= s'[q].sent
  {
    hide Guard, Own, Other, Free;
    HistoryEffect(g.dir[a.h], g.conns[a.h], s[a.h], s[Partner(s[a.h], a)], a);
  }

  lemma QuietCarries(g: Graph, s: State, a: Step, i: nat, r: nat, v: Payload)
    requires Settled(g, s) && Enabled(g, s, a) && !a.Hit? && i in s && r < |s[i].from| && Carries(s[i], r, v)
    ensures Carries(Apply(g, s, a)[i], r, v)
  {
    hide Guard, Own, Other, Free, Steady, Counts, Carries;
    var h, d, l, m := a.h, g.dir[a.h], g.conns[a.h], Partner(s[a.h], a);
    assert HalfSteady(g, h, s[h]);
    if a.Take? { TakeFromSleeper(l, s[h], s[m], a); }
    if i == h { OwnCarries(d, l, s[h], s[m], a, r, v); }
    else if i == m { OtherCarries(d, s[h], s[m], a, r, v); }
  }

  lemma QuietDelivery(g: Graph, s: State, a: Step)
    requires Settled(g, s) && Forward(g, s) && Backward(g, s) && InOrder(s) && Enabled(g, s, a) && !a.Hit?
    ensures var s' := Apply(g, s, a); Forward(g, s') && Backward(g, s') && InOrder(s')
  {
    hide Apply, Carries, Enabled, Settled, Bound;
    var s' := Apply(g, s, a);
    QuietHistory(g, s, a);
    forall i, r | i in s' && 0 <= r < |s'[i].from|
      ensures var (o, k) := s'[i].from[r];
              Bound(g, o, i) && o in s' && k < |s'[o].to| && s'[o].to[k] == (i, r) && k < |s'[o].sent| &&
              Carries(s'[i], r, s'[o].sent[k])
    {
      QuietCarries(g, s, a, i, r, s[s[i].from[r].0].sent[s[i].from[r].1]);
    }
  }

  // A match: the receiver's next receive takes the sender's current send.

  /** The sender's and the receiver's record before (o, i) and after (o', i') a match of halves p and q. */
  ghost predicate Matched(p: nat, o: Half, o': Half, q: nat, i: Half, i': Half) {
    && |o.sent| == |o.to| + 1 && o'.sent == o.sent && o'.got == o.got
    && i'.sent == i.sent && |i.from| == |i.got| && i'.got == i.got
    && o'.to == o.to + [(q, |i.from|)] && o'.from == o.from == []
    && i'.from == i.from + [(p, |o.to|)] && i'.to == i.to == []
    && Carries(i', |i.from|, o.sent[|o.to|])
  }

  lemma SenderHits(l: seq<nat>, x: Half, y: Half, a: Step)
    requires Guard(l, x, y, a) && a.Hit? && Counts(Out, x) && Counts(In, y) && x.ready && y.ready && Active(y.pc)
    ensures Matched(a.h, x, Own(Out, l, x, y, a), x.pc.m, y, Other(Out, x, y, a))
  {
  }

  lemma ReceiverHits(l: seq<nat>, x: Half, y: Half, a: Step)
    requires Guard(l, x, y, a) && a.Hit? && Counts(In, x) && Counts(Out, y) && x.ready && y.ready
    ensures Matched(x.pc.m, y, Other(In, x, y, a), a.h, x, Own(In, l, x, y, a))
  {
  }

  lemma HitEffect(g: Graph, s: State, a: Step) returns (o: nat, i: nat)
    requires WellFormed(g) && Settled(g, s) && Committed(s) && Enabled(g, s, a) && a.Hit?
    ensures Bound(g, o, i) && o in s && i in s && o != i
    ensures var s' := Apply(g, s, a);
      && s'.Keys == s.Keys
      && (forall q | q in s && q != o && q != i :: s'[q] == s[q])
      && Matched(o, s[o], s'[o], i, s[i], s'[i])
  {
    hide Own, Other, Steady, Counts, Active, Matched;
    var m := Partner(s[a.h], a);
    LinkedPartner(g, s, a);
    assert HalfSteady(g, a.h, s[a.h]) && HalfSteady(g, m, s[m]);
    ReadyIsActive(g.conns[m], s[m]);
    if g.dir[a.h] == Out {
      o, i := a.h, m;
      SenderHits(g.conns[a.h], s[a.h], s[m], a);
    } else {
      o, i := m, a.h;
      ReceiverHits(g.conns[a.h], s[a.h], s[m], a);
    }
  }

  lemma HitDelivery(g: Graph, s: State, a: Step)
    requires WellFormed(g) && Settled(g, s) && Committed(s) && Enabled(g, s, a) && a.Hit?
    requires Forward(g, s) && Backward(g, s) && InOrder(s)
    ensures var s' := Apply(g, s, a); Forward(g, s') && Backward(g, s') && InOrder(s')
  {
    hide *;
    var o, i := HitEffect(g, s, a);
    HitForward(g, s, Apply(g, s, a), o, i);
    HitBackward(g, s, Apply(g, s, a), o, i);
    HitInOrder(g, s, Apply(g, s, a), o, i);
  }

  lemma HitBackward(g: Graph, s: State, s': State, o: nat, i: nat)
    requires o in s && i in s && o != i && Bound(g, o, i) && s'.Keys == s.Keys && Backward(g, s)
    requires forall q | q in s && q != o && q != i :: s'[q] == s[q]
    requires Matched(o, s[o], s'[o], i, s[i], s'[i])
    ensures Backward(g, s')
  {
    hide Bound;
    forall j, r | j in s' && 0 <= r < |s'[j].from|
      ensures var (p, k) := s'[j].from[r];
              Bound(g, p, j) && p in s' && k < |s'[p].to| && s'[p].to[k] == (j, r) && k < |s'[p].sent| &&
              Carries(s'[j], r, s'[p].sent[k])
    {
      if r < |s[j].from| {
        var (p, k) := s[j].from[r];
        assert s'[j].from[r] == (p, k) && s'[p].to[k] == s[p].to[k];
      }
    }
  }

  /** The new receive takes a send beyond every send taken before on that link. */
  lemma HitInOrder(g: Graph, s: State, s': State, o: nat, i: nat)
    requires o in s && i in s && o != i && s'.Keys == s.Keys && Backward(g, s) && InOrder(s)
    requires forall q | q in s && q != o && q != i :: s'[q] == s[q]
    requires Matched(o, s[o], s'[o], i, s[i], s'[i])
    ensures InOrder(s')
  {
    hide Bound, Carries;
    forall j, p, q | j in s' && 0 <= p < q < |s'[j].from| && s'[j].from[p].0 == s'[j].from[q].0
      ensures s'[j].from[p].1 < s'[j].from[q].1
    {
      assert p < |s[j].from| && s'[j].from[p] == s[j].from[p];
      if q < |s[j].from| { assert s'[j].from[q] == s[j].from[q]; }
    }
  }

  lemma HitForward(g: Graph, s: State, s': State, o: nat, i: nat)
    requires o in s && i in s && o != i && Bound(g, o, i) && s'.Keys == s.Keys && Forward(g, s)
    requires forall q | q in s && q != o && q != i :: s'[q] == s[q]
    requires Matched(o, s[o], s'[o], i, s[i], s'[i])
    ensures Forward(g, s')
  {
    hide Bound;
    forall q, k | q in s' && 0 <= k < |s'[q].to|
      ensures var (j, r) := s'[q].to[k];
              Bound(g, q, j) && j in s' && r < |s'[j].from| && s'[j].from[r] == (q, k)
    {
      if k < |s[q].to| {
        var (j, r) := s[q].to[k];
        assert s'[q].to[k] == (j, r) && s'[j].from[r] == s[j].from[r];
      }
    }
  }

  // ----- every run -----

  lemma InitInv(g: Graph, s: State)
    requires WellFormed(g) && Init(g, s)
    ensures Inv(g, s)
  {
  }

  lemma InvStep(g: Graph, s: State, a: Step)
    requires WellFormed(g) && Inv(g, s) && Enabled(g, s, a)
    ensures Inv(g, Apply(g, s, a))
  {
    hide Local, Exclusion, Committed, NotMissed, Forward, Backward, InOrder, Enabled, Apply, WellFormed;
    LocalStep(g, s, a);
    ExclusionStep(g, s, a);
    CommittedStep(g, s, a);
    NotMissedStep(g, s, a);
    if a.Hit? { HitDelivery(g, s, a); } else { QuietDelivery(g, s, a); }
  }

  lemma {:induction false} RunInv(g: Graph, b: seq<State>, steps: seq<Step>, j: nat)
    requires WellFormed(g) && Run(g, b, steps) && Init(g, b[0]) && j < |b|
    ensures Inv(g, b[j])
  {
    hide Inv, Init, Enabled, Apply, WellFormed;
    if j == 0 {
      InitInv(g, b[0]);
    } else {
      RunInv(g, b, steps, j - 1);
      assert Moves(g, b[j - 1], steps[j - 1], b[j]);
      InvStep(g, b[j - 1], steps[j - 1]);
    }
  }
}
