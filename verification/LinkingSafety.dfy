/**
 What sending, receiving, binding and unbinding keep together, in every run: links stay symmetric, one thread
 is inside conn_op_mutex, mutexes exclude, acknowledgements balance, every connected half's token is somewhere,
 and deliveries are matched one to one.
 */
module LinkingSafety {
  import opened Rendezvous
  import opened RendezvousSafety
  import opened RendezvousProgress
  import opened Wrappers
  import opened Linking
  import L = IteratedLists
  import B = Binding

  // ----- every opposite half as a neighbour -----

  function Opposites(dir: map<nat, Dir>, h: nat): set<nat> {
    set m | m in dir && h in dir && dir[m] != dir[h]
  }

  ghost function Listed(s: set<nat>): (l: seq<nat>)
    ensures (forall x :: x in l <==> x in s) && B.Distinct(l)
  {
    if s == {} then [] else
      var x :| x in s;
      [x] + Listed(s - {x})
  }

  /** The largest graph on the same halves.  Links come and go, but a half in the middle of an operation still
      works with a half of the other direction. */
  ghost function Everyone(dir: map<nat, Dir>): Graph {
    Graph(dir, map h | h in dir :: Listed(Opposites(dir, h)))
  }

  lemma EveryoneIs(dir: map<nat, Dir>)
    ensures var k := Everyone(dir);
      && WellFormed(k) && k.dir == dir && k.conns.Keys == dir.Keys
      && (forall h: nat, m: nat :: Linked(k, h, m) <==> h in dir && m in dir && dir[m] != dir[h])
      && (forall h | h in dir :: k.conns[h] != [] <==> exists m :: m in dir && dir[m] != dir[h])
  {
    var k := Everyone(dir);
    forall h | h in dir ensures B.Distinct(k.conns[h]) && forall m :: m in k.conns[h] <==> m in Opposites(dir, h) {
    }
    forall h | h in dir ensures k.conns[h] != [] <==> exists m :: m in dir && dir[m] != dir[h] {
      if k.conns[h] != [] { assert k.conns[h][0] in Opposites(dir, h); }
      if m :| m in dir && dir[m] != dir[h] { assert m in Opposites(dir, h); }
    }
  }

  // ----- the invariant -----

  predicate Operating(pc: LinkPC) {
    !pc.Away? && !pc.Want? && !pc.Left?
  }

  /** Whoever has conn_op_mutex, and only that thread, is inside bind or unbind. */
  ghost predicate OneOperator(n: Net) {
    && (forall t | t in n.links :: Operating(n.links[t]) <==> n.op == Some(t))
    && (n.op.Some? ==> n.op.value in n.links)
  }

  function Operator(n: Net): LinkPC {
    if n.op.Some? && n.op.value in n.links then n.links[n.op.value] else Away
  }

  predicate Ends(dir: map<nat, Dir>, j: Job) {
    j.one in dir && j.two in dir && dir[j.one] != dir[j.two]
  }

  /** Jobs join or part halves of opposite direction; an unbind's link is there until it is cut, a bind's
      from when it is made. */
  ghost predicate JobOk(g: Graph, pc: LinkPC) {
    match pc
    case Away => true
    case Want(a, b) => a in g.dir && (b.Some? ==> b.value in g.dir)
    case Head(id, _) => id in g.dir
    case TokenIn(j, _) => Ends(g.dir, j) && j.ToUnbind? && Linked(g, j.one, j.two)
    case TokenOut(j, _) => Ends(g.dir, j) && j.ToUnbind? && Linked(g, j.one, j.two)
    case LinkIn(j) => Ends(g.dir, j) && (j.ToUnbind? ==> Linked(g, j.one, j.two))
    case LinkOut(j) => Ends(g.dir, j) && (j.ToUnbind? ==> Linked(g, j.one, j.two))
    case LinkBoth(j) => Ends(g.dir, j) && (j.ToUnbind? ==> Linked(g, j.one, j.two))
    case PostOne(j) => Ends(g.dir, j) && (j.ToBind? ==> Linked(g, j.one, j.two))
    case PostTwo(j) => Ends(g.dir, j) && (j.ToBind? ==> Linked(g, j.one, j.two))
    case Leave => true
    case Left(_) => true
  }

  ghost predicate Jobs(n: Net) {
    forall t | t in n.links :: JobOk(n.g, n.links[t])
  }

  /** The token of half h with list l, opposite halves r, owner x and operator pc: somewhere while the half is
      connected, absent while somebody sleeps on it. */
  predicate SupplyOk(dir: map<nat, Dir>, l: seq<nat>, r: seq<nat>, x: Half, h: nat, pc: LinkPC) {
    && (l != [] ==> x.token || OwnerHas(x.pc) || LinkerHas(dir, pc, h) || Owes(pc, h))
    && (x.pc == Start(Asleep) || WaitsOn(dir, pc, Asleep, h) ==> !x.token)
    && (x.token || OwnerHas(x.pc) || x.pc == Start(Woken) ==> r != [])
  }

  ghost predicate Supplied(n: Net)
    requires n.g.conns.Keys == n.s.Keys == n.g.dir.Keys
  {
    var k := Everyone(n.g.dir);
    forall h | h in n.s :: SupplyOk(n.g.dir, n.g.conns[h], k.conns[h], n.s[h], h, Operator(n))
  }

  /** No sender or receiver is inside a mutex together with a thread that binds or unbinds. */
  ghost predicate Apart(n: Net) {
    forall h, x: nat, t | t in n.links && Holds(n.g, n.s, h, x) :: !LinkerInside(n.g.dir, n.links[t], x)
  }

  ghost predicate Cursors(n: Net)
    requires n.g.conns.Keys == n.s.Keys
  {
    forall h | h in n.s && n.g.conns[h] != [] :: n.s[h].cursor < |n.g.conns[h]|
  }

  /** What the halves and their histories satisfy whatever the links are. */
  ghost predicate HalvesOk(k: Graph, s: State)
    ensures HalvesOk(k, s) ==> Settled(k, s) && k.conns.Keys == k.dir.Keys == s.Keys
  {
    && Settled(k, s) && Exclusion(k, s) && Committed(s) && Balanced(k, s) && SleepsAlone(s)
    && Forward(k, s) && Backward(k, s) && InOrder(s)
  }

  ghost predicate Base(n: Net)
    ensures Base(n) ==> n.g.conns.Keys == n.g.dir.Keys == n.s.Keys
  {
    && WellFormed(n.g) && HalvesOk(Everyone(n.g.dir), n.s) && n.g.conns.Keys == n.g.dir.Keys == n.s.Keys && Cursors(n)
  }

  ghost predicate NetInv(n: Net) {
    Base(n) && OneOperator(n) && Jobs(n) && Supplied(n) && Apart(n)
  }

  lemma BaseIs(n: Net)
    requires Base(n)
    ensures WellFormed(n.g) && n.g.conns.Keys == n.g.dir.Keys == n.s.Keys
    ensures HalvesOk(Everyone(n.g.dir), n.s) && Settled(Everyone(n.g.dir), n.s) && Everyone(n.g.dir).dir == n.g.dir
  {
  }

  lemma HalfIn(n: Net, h: nat)
    requires Base(n) && h in n.s
    ensures h in n.g.dir && h in n.g.conns && h in Everyone(n.g.dir).conns
    ensures Steady(Everyone(n.g.dir).conns[h], n.s[h]) && Counts(n.g.dir[h], n.s[h])
  {
    hide Base, Everyone, WellFormed, Steady, Counts;
    BaseIs(n);
    assert HalfSteady(Everyone(n.g.dir), h, n.s[h]);
  }

  lemma EveryoneKeys(n: Net)
    requires Base(n)
    ensures Everyone(n.g.dir).conns.Keys == n.g.dir.Keys == n.g.conns.Keys == n.s.Keys
  {
    hide Base, Everyone, WellFormed, Settled, HalvesOk;
    BaseIs(n);
    EveryoneIs(n.g.dir);
  }

  lemma LinkEnds(g: Graph, a: nat, b: nat)
    requires WellFormed(g) && Linked(g, a, b)
    ensures a in g.conns && b in g.conns && b in g.conns[a] && a in g.conns[b] && a in g.dir && b in g.dir
    ensures g.dir[a] != g.dir[b]
  {
    assert Linked(g, b, a);
  }

  // ----- what touches only the semaphore, the cursor and the way to the next probe -----

  /** Points of a thread that is inside no mutex and owes no acknowledgement, between which a step may move it without
      anybody else noticing. */
  predicate SamePlace(a: PC, b: PC) {
    a == b || (a.Start? && b.Start?) || (Roaming(a) && Roaming(b))
  }

  predicate Roaming(pc: PC) {
    pc == Raised || pc.Scan? || pc.WantIn?
  }

  predicate Akin(x: Half, x': Half) {
    x' == x.(token := x'.token, cursor := x'.cursor, length := x'.length, pc := x'.pc) && SamePlace(x.pc, x'.pc)
  }

  ghost predicate Kin(s: State, s': State) {
    s'.Keys == s.Keys && forall h | h in s :: Akin(s[h], s'[h])
  }

  lemma AkinHalf(x: Half, x': Half)
    requires Akin(x, x')
    ensures x'.to == x.to && x'.from == x.from && x'.sent == x.sent && x'.got == x.got && x'.ready == x.ready
    ensures x'.acks == x.acks
    ensures (Pending(x') <==> Pending(x))
    ensures (x'.pc.Commit? || x.pc.Commit? || x'.pc.AckWait? || x.pc.AckWait? ==> x'.pc == x.pc)
    ensures forall r: nat, v :: Carries(x', r, v) <==> Carries(x, r, v)
    ensures forall d, h: nat, z: nat :: Inside(d, h, x'.pc, z) <==> Inside(d, h, x.pc, z)
  {
  }

  lemma KinHalves(s: State, s': State)
    requires Kin(s, s')
    ensures s'.Keys == s.Keys && forall h | h in s ::
      && s'[h].to == s[h].to && s'[h].from == s[h].from && s'[h].sent == s[h].sent && s'[h].got == s[h].got
      && s'[h].ready == s[h].ready && s'[h].acks == s[h].acks && (Pending(s'[h]) <==> Pending(s[h]))
      && (s'[h].pc.Commit? || s[h].pc.Commit? || s'[h].pc.AckWait? || s[h].pc.AckWait? ==> s'[h].pc == s[h].pc)
  {
    hide Akin, Pending;
    forall h | h in s ensures Akin(s[h], s'[h]) { }
    forall h | h in s ensures (Pending(s'[h]) <==> Pending(s[h])) && s'[h].to == s[h].to { AkinHalf(s[h], s'[h]); }
    forall h | h in s
      ensures s'[h].from == s[h].from && s'[h].sent == s[h].sent && s'[h].got == s[h].got
      ensures s'[h].ready == s[h].ready && s'[h].acks == s[h].acks
      ensures s'[h].pc.Commit? || s[h].pc.Commit? || s'[h].pc.AckWait? || s[h].pc.AckWait? ==> s'[h].pc == s[h].pc
    { AkinHalf(s[h], s'[h]); }
  }

  lemma KinHolds(g: Graph, s: State, g': Graph, s': State)
    requires Kin(s, s') && g'.dir == g.dir
    ensures forall h, x: nat :: Holds(g', s', h, x) <==> Holds(g, s, h, x)
  {
    hide Akin, Inside;
    forall h, x: nat ensures Holds(g', s', h, x) <==> Holds(g, s, h, x) {
      if h in s { AkinHalf(s[h], s'[h]); }
    }
  }

  lemma KinAckers(s: State, s': State)
    requires Kin(s, s')
    ensures forall i :: Ackers(s', i) == Ackers(s, i)
  {
    hide Kin;
    KinHalves(s, s');
    forall i ensures Ackers(s', i) == Ackers(s, i) {
    }
  }

  lemma KinExclusion(k: Graph, s: State, s': State)
    requires Kin(s, s') && Exclusion(k, s) && Committed(s)
    ensures Exclusion(k, s') && Committed(s')
  {
    KinHolds(k, s, k, s');
    KinHalves(s, s');
    hide Kin, Holds;
  }

  lemma KinAcks(k: Graph, s: State, s': State)
    requires Kin(s, s') && Balanced(k, s) && SleepsAlone(s)
    ensures Balanced(k, s') && SleepsAlone(s')
  {
    KinHalves(s, s');
    KinAckers(s, s');
    hide Kin, Ackers, Pending;
  }

  lemma KinDelivery(k: Graph, s: State, s': State)
    requires Kin(s, s') && Forward(k, s) && Backward(k, s) && InOrder(s)
    ensures Forward(k, s') && Backward(k, s') && InOrder(s')
  {
    KinHalves(s, s');
    hide Akin, Bound, Carries;
    forall i, r | i in s' && 0 <= r < |s'[i].from|
      ensures var (o, q) := s'[i].from[r];
        Bound(k, o, i) && o in s' && q < |s'[o].to| && s'[o].to[q] == (i, r) && q < |s'[o].sent| &&
        Carries(s'[i], r, s'[o].sent[q])
    {
      AkinHalf(s[i], s'[i]);
    }
  }

  lemma KinSteady(d: Dir, l: seq<nat>, x: Half, x': Half)
    requires Steady(l, x) && Counts(d, x) && Akin(x, x') && (x'.pc.WantIn? ==> x'.pc == x.pc || x'.pc.m in l)
    ensures Steady(l, x') && Counts(d, x')
  {
  }

  lemma KinSound(k: Graph, s: State, s': State)
    requires HalvesOk(k, s) && Kin(s, s')
    requires forall h | h in s && s'[h].pc.WantIn? :: s'[h].pc == s[h].pc || s'[h].pc.m in k.conns[h]
    ensures HalvesOk(k, s')
  {
    hide Steady, Counts, Exclusion, Committed, Balanced, SleepsAlone, Forward, Backward, InOrder, Akin;
    KinExclusion(k, s, s');
    KinAcks(k, s, s');
    KinDelivery(k, s, s');
    forall h | h in s' ensures HalfSteady(k, h, s'[h]) {
      assert HalfSteady(k, h, s[h]) && Akin(s[h], s'[h]);
      KinSteady(k.dir[h], k.conns[h], s[h], s'[h]);
    }
  }

  // ----- a step of send or receive -----

  /** Every step but those that read the connection list is the same in every graph. */
  lemma AnyList(d: Dir, l: seq<nat>, r: seq<nat>, x: Half, y: Half, a: Step)
    requires Guard(l, x, y, a) && !a.Fetch? && !a.Measure?
    ensures Guard(r, x, y, a) && Own(d, r, x, y, a) == Own(d, l, x, y, a)
  {
  }

  lemma SameHolds(g: Graph, k: Graph, s: State)
    requires k.dir == g.dir
    ensures forall h, x: nat :: Holds(k, s, h, x) <==> Holds(g, s, h, x)
    ensures forall x: nat :: Free(k, s, x) <==> Free(g, s, x)
  {
  }

  lemma AnyGraph(g: Graph, k: Graph, s: State, a: Step)
    requires k.dir == g.dir && k.conns.Keys == k.dir.Keys && Enabled(g, s, a) && !a.Fetch? && !a.Measure?
    ensures Enabled(k, s, a) && Apply(k, s, a) == Apply(g, s, a)
  {
    hide Guard, Own, Other, Free;
    SameHolds(g, k, s);
    AnyList(g.dir[a.h], g.conns[a.h], k.conns[a.h], s[a.h], s[Partner(s[a.h], a)], a);
  }

  lemma BaseStep(k: Graph, s: State, a: Step)
    requires WellFormed(k) && HalvesOk(k, s) && Enabled(k, s, a) && (a.TokenTake? ==> |k.conns[a.h]| > 0)
    ensures HalvesOk(k, Apply(k, s, a))
  {
    hide Settled, Exclusion, Committed, Balanced, SleepsAlone, Forward, Backward, InOrder, Enabled, Apply, WellFormed;
    SettledStep(k, s, a);
    ExclusionStep(k, s, a);
    CommittedStep(k, s, a);
    BalancedStep(k, s, a);
    SleepsAloneStep(k, s, a);
    if a.Hit? { HitDelivery(k, s, a); } else { QuietDelivery(k, s, a); }
  }

  /** Reading the list's length or its next element. */
  lemma LookKin(g: Graph, s: State, a: Step)
    requires Enabled(g, s, a) && (a.Fetch? || a.Measure?)
    ensures Kin(s, Apply(g, s, a)) && a.h in s && a.h in g.conns
    ensures forall h | h in s && h != a.h :: Apply(g, s, a)[h] == s[h]
    ensures Apply(g, s, a)[a.h].pc.WantIn? ==> Linked(g, a.h, Apply(g, s, a)[a.h].pc.m)
  {
  }

  lemma LookFaces(g: Graph, s: State, a: Step)
    requires WellFormed(g) && Enabled(g, s, a) && (a.Fetch? || a.Measure?) && s.Keys == g.dir.Keys
    ensures var k, s' := Everyone(g.dir), Apply(g, s, a);
      && k.conns.Keys == s.Keys == s'.Keys
      && forall h | h in s && s'[h].pc.WantIn? :: s'[h].pc == s[h].pc || s'[h].pc.m in k.conns[h]
  {
    hide Everyone, Enabled, Apply, WellFormed, Kin;
    EveryoneIs(g.dir);
    LookKin(g, s, a);
    KinKeys(s, Apply(g, s, a));
    if Apply(g, s, a)[a.h].pc.WantIn? { LinkEnds(g, a.h, Apply(g, s, a)[a.h].pc.m); }
    assert Apply(g, s, a)[a.h].pc.WantIn? ==> Linked(Everyone(g.dir), a.h, Apply(g, s, a)[a.h].pc.m);
  }

  lemma SoundLook(n: Net, a: Step)
    requires Base(n) && TalkReady(n, a) && (a.Fetch? || a.Measure?)
    ensures HalvesOk(Everyone(n.g.dir), Talked(n, a).s)
  {
    hide *;
    BaseIs(n);
    TalkEnabled(n, a);
    LookKin(n.g, n.s, a);
    LookFaces(n.g, n.s, a);
    KinSound(Everyone(n.g.dir), n.s, Talked(n, a).s);
  }

  lemma SoundPlain(n: Net, a: Step)
    requires Base(n) && Supplied(n) && TalkReady(n, a) && !a.Fetch? && !a.Measure?
    ensures HalvesOk(Everyone(n.g.dir), Talked(n, a).s)
  {
    hide Base, Supplied, TalkReady, Talked, Enabled, Apply, HalvesOk, WellFormed, Everyone;
    BaseIs(n);
    EveryoneIs(n.g.dir);
    TalkEnabled(n, a);
    AnyGraph(n.g, Everyone(n.g.dir), n.s, a);
    TakeConnected(n, a);
    BaseStep(Everyone(n.g.dir), n.s, a);
  }

  lemma SoundTalk(n: Net, a: Step)
    requires Base(n) && Supplied(n) && TalkReady(n, a)
    ensures HalvesOk(Everyone(n.g.dir), Talked(n, a).s) && Talked(n, a).s.Keys == n.s.Keys
  {
    hide Base, Supplied, TalkReady, Talked, HalvesOk, Everyone, WellFormed;
    BaseIs(n);
    EveryoneIs(n.g.dir);
    if a.Fetch? || a.Measure? { SoundLook(n, a); } else { SoundPlain(n, a); }
    SoundKeys(Everyone(n.g.dir), Talked(n, a).s);
  }

  lemma SoundKeys(k: Graph, s: State)
    requires HalvesOk(k, s)
    ensures s.Keys == k.dir.Keys
  {
  }

  lemma KinKeys(s: State, s': State)
    requires Kin(s, s')
    ensures s'.Keys == s.Keys
  {
  }

  lemma TalkEnabled(n: Net, a: Step)
    requires TalkReady(n, a)
    ensures Enabled(n.g, n.s, a) && a.h in n.s && a.h in n.g.dir && a.h in n.g.conns
    ensures n.g.conns.Keys == n.g.dir.Keys == n.s.Keys
    ensures Talked(n, a).s == Apply(n.g, n.s, a) && Talked(n, a).g == n.g
  {
    hide Guard, Own, Other, Free, Unlinked;
  }

  /** A step changes its own half, and its partner if that is another one. */
  lemma TalkHalves(n: Net, a: Step)
    requires TalkReady(n, a)
    ensures a.h in n.s && a.h in n.g.conns && a.h in n.g.dir && Partner(n.s[a.h], a) in n.s
    ensures var h, d, l, m, s' := a.h, n.g.dir[a.h], n.g.conns[a.h], Partner(n.s[a.h], a), Talked(n, a).s;
      && Guard(l, n.s[h], n.s[m], a) && s'.Keys == n.s.Keys && s'[h] == Own(d, l, n.s[h], n.s[m], a)
      && forall q | q in n.s && q != h :: q in s' && s'[q] == if q == m then Other(d, n.s[h], n.s[m], a) else n.s[q]
  {
    hide Guard, Own, Other, Free, Unlinked;
  }

  lemma SupplyRoom(dir: map<nat, Dir>, l: seq<nat>, r: seq<nat>, x: Half, y: Half, a: Step, pc: LinkPC)
    requires Guard(l, x, y, a)
    ensures SupplyOk(dir, l, r, x, a.h, pc) && a.TokenTake? ==> |r| > 0
  {
  }

  lemma TakeConnected(n: Net, a: Step)
    requires Base(n) && Supplied(n) && TalkReady(n, a)
    ensures a.TokenTake? ==> |Everyone(n.g.dir).conns[a.h]| > 0
  {
    hide Base, Everyone, Free, Unlinked, SupplyOk;
    BaseIs(n);
    EveryoneIs(n.g.dir);
    TalkEnabled(n, a);
    SupplyRoom(n.g.dir, n.g.conns[a.h], Everyone(n.g.dir).conns[a.h], n.s[a.h], n.s[Partner(n.s[a.h], a)], a,
        Operator(n));
    assert SupplyOk(n.g.dir, n.g.conns[a.h], Everyone(n.g.dir).conns[a.h], n.s[a.h], a.h, Operator(n));
  }

  lemma OwnCursor(d: Dir, l: seq<nat>, x: Half, y: Half, a: Step)
    requires Guard(l, x, y, a) && (l != [] ==> x.cursor < |l|)
    ensures l != [] ==> Own(d, l, x, y, a).cursor < |l|
    ensures Other(d, x, y, a).cursor == y.cursor
  {
  }

  lemma CursorsTalk(n: Net, a: Step)
    requires n.g.conns.Keys == n.s.Keys && Cursors(n) && TalkReady(n, a)
    ensures Talked(n, a).g.conns.Keys == Talked(n, a).s.Keys && Cursors(Talked(n, a))
  {
    hide Guard, Own, Other, Free, Unlinked, Woke;
    OwnCursor(n.g.dir[a.h], n.g.conns[a.h], n.s[a.h], n.s[Partner(n.s[a.h], a)], a);
  }

  lemma BaseTalk(n: Net, a: Step)
    requires Base(n) && Supplied(n) && TalkReady(n, a)
    ensures Base(Talked(n, a))
  {
    hide HalvesOk, WellFormed, Everyone, Supplied, TalkReady, Talked, Cursors;
    SoundTalk(n, a);
    TalkEnabled(n, a);
    CursorsTalk(n, a);
  }

  /** What a step of its own does to the token's whereabouts; r are the opposite halves. */
  lemma OwnToken(d: Dir, l: seq<nat>, r: seq<nat>, x: Half, y: Half, a: Step)
    requires Guard(l, x, y, a) && Steady(r, x)
    ensures var x' := Own(d, l, x, y, a);
      if a.TokenTake? then x.pc.Start? && !x'.token && OwnerHas(x'.pc) && !OwnerHas(x.pc) && !x'.pc.Start?
      else if a.ScanEnd? || a.GiveBack? then x'.token && !OwnerHas(x'.pc) && OwnerHas(x.pc) && !x'.pc.Start? && r != []
      else x'.token == x.token && (OwnerHas(x'.pc) <==> OwnerHas(x.pc)) && x'.pc != Start(Woken) &&
           (x'.pc == Start(Asleep) ==> !x.token)
    ensures a.TokenTake? ==> x.pc == Start(Woken) || (x.pc == Start(Testing) && x.token)
  {
  }

  lemma OtherToken(d: Dir, l: seq<nat>, x: Half, y: Half, a: Step)
    requires Guard(l, x, y, a)
    ensures var y' := Other(d, x, y, a);
      y'.token == y.token && (OwnerHas(y'.pc) <==> OwnerHas(y.pc)) && (y'.pc == y.pc || (!y'.pc.Start? && !y.pc.Start?))
  {
  }

  lemma WokeToken(dir: map<nat, Dir>, pc: LinkPC, x: nat, h: nat)
    ensures var pc' := Woke(dir, pc, x);
      && (LinkerHas(dir, pc', h) <==> LinkerHas(dir, pc, h)) && (Owes(pc', h) <==> Owes(pc, h))
      && (WaitsOn(dir, pc', Asleep, h) <==> WaitsOn(dir, pc, Asleep, h) && h != x)
      && (WaitsOn(dir, pc', Woken, h) <==> WaitsOn(dir, pc, Woken, h) || (WaitsOn(dir, pc, Asleep, h) && h == x))
      && (LinkerInside(dir, pc', h) <==> LinkerInside(dir, pc, h))
      && (Operating(pc') <==> Operating(pc))
  {
  }

  lemma WokeJob(g: Graph, pc: LinkPC, x: nat)
    requires JobOk(g, pc)
    ensures JobOk(g, Woke(g.dir, pc, x))
  {
  }

  lemma OperatorTalk(n: Net, a: Step)
    requires TalkReady(n, a) && OneOperator(n)
    ensures OneOperator(Talked(n, a))
    ensures Operator(Talked(n, a)) == if a.ScanEnd? || a.GiveBack? then Woke(n.g.dir, Operator(n), a.h) else Operator(n)
  {
    hide TalkReady, Operating, Woke;
    forall t | t in n.links ensures Operating(Woke(n.g.dir, n.links[t], a.h)) <==> Operating(n.links[t]) {
      WokeToken(n.g.dir, n.links[t], a.h, 0);
    }
    assert Woke(n.g.dir, Away, a.h) == Away by { AwayWoke(n.g.dir, a.h); }
  }

  lemma AwayWoke(dir: map<nat, Dir>, x: nat)
    ensures Woke(dir, Away, x) == Away
  {
  }

  lemma JobsTalk(n: Net, a: Step)
    requires TalkReady(n, a) && Jobs(n)
    ensures Jobs(Talked(n, a))
  {
    hide TalkReady, JobOk, Woke;
    forall t | t in n.links ensures JobOk(n.g, Woke(n.g.dir, n.links[t], a.h)) {
      WokeJob(n.g, n.links[t], a.h);
    }
  }

  lemma SupplyOwn(d: Dir, l: seq<nat>, r: seq<nat>, x: Half, y: Half, a: Step, dir: map<nat, Dir>, pc: LinkPC)
    requires Guard(l, x, y, a) && Steady(r, x) && SupplyOk(dir, l, r, x, a.h, pc)
    ensures SupplyOk(dir, l, r, Own(d, l, x, y, a), a.h, if a.ScanEnd? || a.GiveBack? then Woke(dir, pc, a.h) else pc)
  {
    hide Guard, Own, Steady, Woke, LinkerHas, Owes, WaitsOn, OwnerHas;
    OwnToken(d, l, r, x, y, a);
    WokeToken(dir, pc, a.h, a.h);
  }

  lemma SupplyAside(dir: map<nat, Dir>, l: seq<nat>, r: seq<nat>, x: Half, x': Half, h: nat, pc: LinkPC, z: nat)
    requires SupplyOk(dir, l, r, x, h, pc) && h != z && x'.token == x.token && (OwnerHas(x'.pc) <==> OwnerHas(x.pc))
    requires x'.pc == x.pc || (!x'.pc.Start? && !x.pc.Start?)
    ensures SupplyOk(dir, l, r, x', h, pc) && SupplyOk(dir, l, r, x', h, Woke(dir, pc, z))
  {
    hide Woke, LinkerHas, Owes, WaitsOn, OwnerHas;
    WokeToken(dir, pc, z, h);
  }

  lemma SuppliedTalk(n: Net, a: Step)
    requires Base(n) && OneOperator(n) && Supplied(n) && TalkReady(n, a)
    ensures Talked(n, a).g == n.g && Talked(n, a).s.Keys == n.s.Keys && Supplied(Talked(n, a))
  {
    hide Operator, Base, OneOperator, Steady, Counts, SupplyOk, Guard, Own, Other, Partner, Woke, OwnerHas, Everyone;
    hide TalkReady, Talked, Enabled, Apply;
    var n', k := Talked(n, a), Everyone(n.g.dir);
    EveryoneKeys(n);
    TalkEnabled(n, a);
    TalkHalves(n, a);
    OperatorTalk(n, a);
    var h, d, l, m := a.h, n.g.dir[a.h], n.g.conns[a.h], Partner(n.s[a.h], a);
    HalfIn(n, h);
    SupplyOwn(d, l, k.conns[h], n.s[h], n.s[m], a, n.g.dir, Operator(n));
    OtherToken(d, l, n.s[h], n.s[m], a);
    forall q | q in n.s ensures SupplyOk(n.g.dir, n.g.conns[q], k.conns[q], n'.s[q], q, Operator(n')) {
      if q != h { SupplyAside(n.g.dir, n.g.conns[q], k.conns[q], n.s[q], n'.s[q], q, Operator(n), h); }
    }
  }

  lemma ApartTalk(n: Net, a: Step)
    requires Apart(n) && TalkReady(n, a)
    ensures Apart(Talked(n, a))
  {
    hide Guard, Own, Other, Inside, LinkerInside, Woke;
    var n' := Talked(n, a);
    var h, d, l, m := a.h, n.g.dir[a.h], n.g.conns[a.h], Partner(n.s[a.h], a);
    forall q, x: nat, t | t in n'.links && Holds(n'.g, n'.s, q, x) ensures !LinkerInside(n.g.dir, n'.links[t], x) {
      WokeToken(n.g.dir, n.links[t], a.h, x);
      if !Holds(n.g, n.s, q, x) {
        if q == h {
          OwnInside(d, l, n.s[h], n.s[m], a, x);
          LockedIs(d, l, n.s[h], n.s[m], a);
        } else { OtherInside(d, l, n.s[h], n.g.dir[m], n.s[m], a, m, x); }
      }
    }
  }

  lemma LockedIs(d: Dir, l: seq<nat>, x: Half, y: Half, a: Step)
    requires Guard(l, x, y, a)
    ensures a.LockIn? ==> Locked(d, x, a) == Some(InSide(d, a.h, x.pc.m))
    ensures a.LockOut? ==> Locked(d, x, a) == Some(OutSide(d, a.h, x.pc.m))
  {
  }

  // ----- a step of bind or unbind -----

  lemma OperatorLink(n: Net, t: nat, act: Act)
    requires Ready(n, Link(t, act)) && OneOperator(n)
    ensures var n' := After(n, Link(t, act));
      && OneOperator(n') && n'.links.Keys == n.links.Keys
      && if act.Call? then Operator(n') == Operator(n)
         else if act.Enter? then Operator(n) == Away && Operator(n') == n'.links[t]
         else Operator(n) == n.links[t] &&
              Operator(n') == if act.Return? || n'.links[t].Left? then Away else n'.links[t]
  {
    hide Woke, Given;
    var n' := After(n, Link(t, act));
    assert Operating(n.links[t]) <==> n.op == Some(t);
    if act.Post? {
      OperatorPost(n, t, act);
    }
  }

  lemma OperatorPost(n: Net, t: nat, act: Act)
    requires Ready(n, Link(t, act)) && OneOperator(n) && act.Post?
    ensures var n' := After(n, Link(t, act));
      && OneOperator(n') && n'.links.Keys == n.links.Keys
      && Operator(n) == n.links[t] && Operator(n') == n'.links[t] && !n'.links[t].Left?
  {
    hide Ready, After, Woke, Operating, GivenPC;
    PostIs(n, t, act);
    PostOperating(n.links[t]);
    var n' := After(n, Link(t, act));
    forall u | u in n.links ensures Operating(n'.links[u]) <==> n.op == Some(u) {
      if u != t { WokeToken(n.g.dir, n.links[u], Receiver(n.links[t]), 0); }
    }
  }

  lemma PostOperating(pc: LinkPC)
    requires pc.PostOne? || pc.PostTwo?
    ensures Operating(pc) && Operating(GivenPC(pc)) && !GivenPC(pc).Left?
  {
  }

  /** The program point after a step that touches neither lists nor tokens. */
  lemma QuietMove(n: Net, t: nat, act: Act)
    requires Ready(n, Link(t, act)) && !act.Take? && !act.Change? && !act.Post? && !act.Call?
    ensures var pc, pc' := n.links[t], After(n, Link(t, act)).links[t];
      forall h: nat ::
        && (LinkerHas(n.g.dir, pc', h) <==> LinkerHas(n.g.dir, pc, h)) && !WaitsOn(n.g.dir, pc', Woken, h)
        && !Owes(pc', h) && !Owes(pc, h)
        && (WaitsOn(n.g.dir, pc', Asleep, h) ==> h in n.s && !n.s[h].token)
    ensures After(n, Link(t, act)).s == n.s && After(n, Link(t, act)).g == n.g && After(n, Link(t, act)).size == n.size
  {
  }

  lemma SupplyQuiet(dir: map<nat, Dir>, l: seq<nat>, r: seq<nat>, x: Half, h: nat, pc: LinkPC, pc': LinkPC)
    requires SupplyOk(dir, l, r, x, h, pc) && (LinkerHas(dir, pc', h) <==> LinkerHas(dir, pc, h))
    requires Owes(pc', h) == Owes(pc, h) && (WaitsOn(dir, pc', Asleep, h) ==> !x.token)
    ensures SupplyOk(dir, l, r, x, h, pc')
  {
  }

  lemma AwayHas(dir: map<nat, Dir>, h: nat)
    ensures !LinkerHas(dir, Away, h) && !Owes(Away, h) && !WaitsOn(dir, Away, Woken, h)
    ensures !WaitsOn(dir, Away, Asleep, h)
  {
  }

  lemma WantHas(dir: map<nat, Dir>, pc: LinkPC, h: nat)
    requires pc.Want? || pc == Leave
    ensures !LinkerHas(dir, pc, h) && !Owes(pc, h)
  {
  }

  lemma ReturnFrom(n: Net, t: nat, act: Act)
    requires Ready(n, Link(t, act))
    ensures act.Return? ==> n.links[t] == Leave && After(n, Link(t, act)).links[t] == Away
    ensures act.Enter? ==> n.links[t].Want?
    ensures After(n, Link(t, act)).links.Keys == n.links.Keys && t in n.links
    ensures After(n, Link(t, act)).links[t].Left? ==> act.Change?
  {
  }

  lemma SuppliedQuiet(n: Net, t: nat, act: Act)
    requires Base(n) && OneOperator(n) && Supplied(n) && Ready(n, Link(t, act))
    requires !act.Take? && !act.Change? && !act.Post?
    ensures var n' := After(n, Link(t, act)); n'.g == n.g && n'.s == n.s && Supplied(n')
  {
    hide Base, OneOperator, Operator, Ready, After, SupplyOk, LinkerHas, Owes, WaitsOn, Everyone;
    var n', k := After(n, Link(t, act)), Everyone(n.g.dir);
    EveryoneIs(n.g.dir);
    OperatorLink(n, t, act);
    ReturnFrom(n, t, act);
    StateKept(n, t, act);
    if !act.Call? {
      QuietMove(n, t, act);
      forall h | h in n.s ensures SupplyOk(n.g.dir, n.g.conns[h], k.conns[h], n.s[h], h, Operator(n')) {
        AwayHas(n.g.dir, h);
        if act.Enter? { WantHas(n.g.dir, n.links[t], h); }
        SupplyQuiet(n.g.dir, n.g.conns[h], k.conns[h], n.s[h], h, Operator(n), Operator(n'));
      }
    }
  }

  lemma StateKept(n: Net, t: nat, act: Act)
    requires Ready(n, Link(t, act)) && !act.Change? && !act.Post? && !act.Take?
    ensures After(n, Link(t, act)).g == n.g && After(n, Link(t, act)).s == n.s
  {
  }

  lemma EndsAre(dir: map<nat, Dir>, j: Job)
    requires Ends(dir, j)
    ensures {InEnd(dir, j), OutEnd(dir, j)} == {j.one, j.two} && InEnd(dir, j) != OutEnd(dir, j) && j.one != j.two
    ensures dir[InEnd(dir, j)] == In && dir[OutEnd(dir, j)] == Out
  {
  }

  function TakenPC(pc: LinkPC): LinkPC
    requires Waiting(pc)
  {
    if pc.TokenIn? then TokenOut(pc.j, Testing) else LinkIn(pc.j)
  }

  lemma SupplyTaken(dir: map<nat, Dir>, l: seq<nat>, r: seq<nat>, x: Half, h: nat, pc: LinkPC)
    requires SupplyOk(dir, l, r, x, h, pc) && Waiting(pc) && pc.j.ToUnbind? && Ends(dir, pc.j)
    ensures SupplyOk(dir, l, r, if h == Target(dir, pc) then x.(token := false) else x, h, TakenPC(pc))
  {
    EndsAre(dir, pc.j);
  }

  lemma TakeIs(n: Net, t: nat, act: Act)
    requires Ready(n, Link(t, act)) && act.Take?
    ensures var pc := n.links[t];
      && Waiting(pc) && pc.w != Asleep && var h := Target(n.g.dir, pc);
      && h in n.s && (pc.w == Testing ==> n.s[h].token)
      && After(n, Link(t, act)) == n.(s := n.s[h := n.s[h].(token := false)], links := n.links[t := TakenPC(pc)])
      && (Steals(n, Link(t, act)) <==> pc.w == Testing && n.s[h].pc == Start(Woken))
  {
  }

  lemma WaitJob(n: Net, t: nat)
    requires Jobs(n) && t in n.links && Waiting(n.links[t])
    ensures Ends(n.g.dir, n.links[t].j) && n.links[t].j.ToUnbind?
  {
    assert JobOk(n.g, n.links[t]);
  }

  lemma TakenNotLeft(pc: LinkPC)
    requires Waiting(pc)
    ensures !TakenPC(pc).Left?
  {
  }

  lemma SuppliedTake(n: Net, t: nat, act: Act)
    requires Base(n) && OneOperator(n) && Jobs(n) && Supplied(n) && Ready(n, Link(t, act)) && act.Take?
    ensures var n' := After(n, Link(t, act)); n'.g == n.g && n'.s.Keys == n.s.Keys && Supplied(n')
  {
    hide Base, OneOperator, Jobs, Operator, Ready, After, SupplyOk, Target, Waiting, TakenPC, Everyone;
    var n', k := After(n, Link(t, act)), Everyone(n.g.dir);
    EveryoneIs(n.g.dir);
    OperatorLink(n, t, act);
    TakeIs(n, t, act);
    WaitJob(n, t);
    TakenNotLeft(n.links[t]);
    forall h | h in n.s ensures SupplyOk(n.g.dir, n.g.conns[h], k.conns[h], n'.s[h], h, Operator(n')) {
      SupplyTaken(n.g.dir, n.g.conns[h], k.conns[h], n.s[h], h, n.links[t]);
    }
  }

  // ----- the lists change -----

  lemma SupplyChanged(dir: map<nat, Dir>, l: seq<nat>, r: seq<nat>, x: Half, h: nat, j: Job, l': seq<nat>, x': Half)
    requires SupplyOk(dir, l, r, x, h, LinkBoth(j)) && x'.token == x.token && x'.pc == x.pc
    requires h != j.one && h != j.two ==> l' == l
    ensures SupplyOk(dir, l', r, x', h, PostOne(j))
  {
  }

  lemma ChangeIs(n: Net, t: nat, act: Act)
    requires Ready(n, Link(t, act)) && act.Change? && !Rebinds(n, Link(t, act))
    ensures t in n.links && n.links[t].LinkBoth? && Paired(n, n.links[t].j)
    ensures var j, n' := n.links[t].j, After(n, Link(t, act));
      && n'.links == n.links[t := PostOne(j)] && n'.op == n.op && n'.size == n.size
      && n'.g == (if j.ToBind? then Joined(n.g, j.one, j.two) else Parted(n.g, j.one, j.two))
      && (j.ToBind? ==> j.two !in n.g.conns[j.one])
      && n'.s.Keys == n.s.Keys
      && forall h | h in n.s ::
           h in n'.s && n'.s[h] ==
             if h != j.one && h != j.two then n.s[h]
             else if j.ToBind? then Grown(n.g.conns[h], n.s[h])
             else Shrunk(n.g.conns[h], n.s[h], if h == j.two then j.one else j.two)
  {
  }

  /** A refused bind leaves everything but its own thread, which keeps the two mutexes, and conn_op_mutex. */
  lemma RebindIs(n: Net, e: Event)
    requires Ready(n, e) && Rebinds(n, e)
    ensures e.Link? && e.act.Change? && e.t in n.links && n.links[e.t].LinkBoth? && n.links[e.t].j.ToBind?
    ensures After(n, e) == n.(op := None, links := n.links[e.t := Left(n.links[e.t].j)])
  {
  }

  lemma ListsChanged(g: Graph, a: nat, b: nat)
    requires a in g.conns && b in g.conns && a != b
    ensures var g' := Joined(g, a, b);
      g'.dir == g.dir && g'.conns.Keys == g.conns.Keys && forall h | h in g.conns ::
        g'.conns[h] == if h == a then [b] + g.conns[a] else if h == b then [a] + g.conns[b] else g.conns[h]
    ensures var g' := Parted(g, a, b);
      g'.dir == g.dir && g'.conns.Keys == g.conns.Keys && forall h | h in g.conns ::
        g'.conns[h] == if h == a then B.Minus(g.conns[a], b) else if h == b then B.Minus(g.conns[b], a) else g.conns[h]
  {
  }

  lemma BothJob(n: Net, t: nat)
    requires Jobs(n) && t in n.links && n.links[t].LinkBoth?
    ensures var j := n.links[t].j; Ends(n.g.dir, j) && j.one != j.two && (j.ToUnbind? ==> Linked(n.g, j.one, j.two))
  {
    assert JobOk(n.g, n.links[t]);
  }

  lemma CursorOnly(l: seq<nat>, x: Half, m: nat)
    ensures Grown(l, x) == x.(cursor := Grown(l, x).cursor) && Shrunk(l, x, m) == x.(cursor := Shrunk(l, x, m).cursor)
  {
  }

  lemma SuppliedChange(n: Net, t: nat, act: Act)
    requires Base(n) && OneOperator(n) && Jobs(n) && Supplied(n) && Ready(n, Link(t, act)) && act.Change?
    requires !Rebinds(n, Link(t, act))
    ensures var n' := After(n, Link(t, act)); n'.g.conns.Keys == n'.s.Keys == n'.g.dir.Keys && Supplied(n')
  {
    hide Base, OneOperator, Jobs, Operator, Ready, After, SupplyOk, Rebinds, Joined, Parted, Grown, Shrunk, B.Minus;
    hide Everyone;
    var n', k := After(n, Link(t, act)), Everyone(n.g.dir);
    EveryoneIs(n.g.dir);
    OperatorLink(n, t, act);
    ChangeIs(n, t, act);
    BothJob(n, t);
    var j := n.links[t].j;
    ListsChanged(n.g, j.one, j.two);
    forall h | h in n'.s ensures SupplyOk(n'.g.dir, n'.g.conns[h], k.conns[h], n'.s[h], h, Operator(n')) {
      CursorOnly(n.g.conns[h], n.s[h], j.one);
      CursorOnly(n.g.conns[h], n.s[h], j.two);
      SupplyChanged(n.g.dir, n.g.conns[h], k.conns[h], n.s[h], h, j, n'.g.conns[h], n'.s[h]);
    }
  }

  lemma SuppliedRebind(n: Net, e: Event)
    requires Base(n) && OneOperator(n) && Supplied(n) && Ready(n, e) && Rebinds(n, e)
    ensures After(n, e).g == n.g && After(n, e).s == n.s && Supplied(After(n, e))
  {
    hide Base, OneOperator, Operator, Ready, After, Rebinds, SupplyOk, Everyone, LinkerHas, Owes, WaitsOn;
    var n', k := After(n, e), Everyone(n.g.dir);
    EveryoneIs(n.g.dir);
    RebindIs(n, e);
    OperatorLink(n, e.t, e.act);
    forall h | h in n.s ensures SupplyOk(n.g.dir, n.g.conns[h], k.conns[h], n.s[h], h, Operator(n')) {
      AwayHas(n.g.dir, h);
      BothHas(n.g.dir, n.links[e.t], h);
      SupplyQuiet(n.g.dir, n.g.conns[h], k.conns[h], n.s[h], h, Operator(n), Away);
    }
  }

  lemma BothHas(dir: map<nat, Dir>, pc: LinkPC, h: nat)
    requires pc.LinkBoth? && pc.j.ToBind?
    ensures !LinkerHas(dir, pc, h) && !Owes(pc, h)
  {
  }

  // ----- the tokens are given back -----

  function GivenPC(pc: LinkPC): LinkPC
    requires pc.PostOne? || pc.PostTwo?
  {
    if pc.PostOne? then PostTwo(pc.j) else if pc.j.ToBind? then Leave else Head(pc.j.one, pc.j.i + 1)
  }

  function Receiver(pc: LinkPC): nat
    requires pc.PostOne? || pc.PostTwo?
  {
    if pc.PostOne? then pc.j.one else pc.j.two
  }

  lemma SupplyGiven(dir: map<nat, Dir>, l: seq<nat>, r: seq<nat>, x: Half, h: nat, pc: LinkPC)
    requires SupplyOk(dir, l, r, x, h, pc) && (pc.PostOne? || pc.PostTwo?) && pc.j.one != pc.j.two
    requires h == Receiver(pc) ==> r != []
    ensures var x' := if h == Receiver(pc) && (pc.j.ToBind? || l != []) then PostToken(x) else x;
      SupplyOk(dir, l, r, x', h, GivenPC(pc))
  {
  }

  lemma PostIs(n: Net, t: nat, act: Act)
    requires Ready(n, Link(t, act)) && act.Post?
    ensures t in n.links
    ensures var pc := n.links[t];
      && (pc.PostOne? || pc.PostTwo?) && Paired(n, pc.j) && Receiver(pc) in n.s && Receiver(pc) in n.g.conns
      && var n', h := After(n, Link(t, act)), Receiver(pc);
      && n'.g == n.g && n'.op == n.op && n'.size == n.size
      && n'.s == (if pc.j.ToBind? || n.g.conns[h] != [] then n.s[h := PostToken(n.s[h])] else n.s)
      && n'.links.Keys == n.links.Keys && n'.links[t] == GivenPC(pc)
      && (forall u | u in n.links && u != t :: n'.links[u] == n.links[u] || n'.links[u] == Woke(n.g.dir, n.links[u], h))
      && (PostsHeld(n, Link(t, act)) <==> pc.j.ToBind? && OwnerHas(n.s[h].pc))
  {
  }

  lemma PostJob(n: Net, t: nat)
    requires Jobs(n) && t in n.links && (n.links[t].PostOne? || n.links[t].PostTwo?)
    ensures Ends(n.g.dir, n.links[t].j) && n.links[t].j.one != n.links[t].j.two
    ensures n.links[t].j.ToBind? ==> Linked(n.g, n.links[t].j.one, n.links[t].j.two)
  {
    assert JobOk(n.g, n.links[t]);
  }

  lemma GivenNotLeft(pc: LinkPC)
    requires pc.PostOne? || pc.PostTwo?
    ensures !GivenPC(pc).Left?
  {
  }

  lemma ReceiverFaces(dir: map<nat, Dir>, pc: LinkPC)
    requires (pc.PostOne? || pc.PostTwo?) && Ends(dir, pc.j)
    ensures Everyone(dir).conns.Keys == dir.Keys && Receiver(pc) in dir && Everyone(dir).conns[Receiver(pc)] != []
  {
    EveryoneIs(dir);
    hide Everyone;
    var m := if pc.PostOne? then pc.j.two else pc.j.one;
    assert m in dir && dir[m] != dir[Receiver(pc)];
  }

  lemma SuppliedPost(n: Net, t: nat, act: Act)
    requires Base(n) && OneOperator(n) && Jobs(n) && Supplied(n) && Ready(n, Link(t, act)) && act.Post?
    ensures var n' := After(n, Link(t, act)); n'.g == n.g && n'.s.Keys == n.s.Keys && Supplied(n')
  {
    hide Base, OneOperator, Jobs, Operator, Ready, After, SupplyOk, Receiver, GivenPC, PostToken, Woke, OwnerHas;
    hide Everyone, Ends;
    var n', k := After(n, Link(t, act)), Everyone(n.g.dir);
    EveryoneIs(n.g.dir);
    OperatorLink(n, t, act);
    PostIs(n, t, act);
    PostJob(n, t);
    var pc := n.links[t];
    GivenNotLeft(pc);
    ReceiverFaces(n.g.dir, pc);
    forall h | h in n.s ensures SupplyOk(n.g.dir, n.g.conns[h], k.conns[h], n'.s[h], h, Operator(n')) {
      SupplyGiven(n.g.dir, n.g.conns[h], k.conns[h], n.s[h], h, pc);
    }
  }

  // ----- the rest of the invariant -----

  lemma GrownFits(l: seq<nat>, x: Half, m: nat)
    requires l != [] ==> x.cursor < |l|
    ensures Grown(l, x).cursor < |[m] + l|
  {
  }

  lemma ShrunkFits(l: seq<nat>, x: Half, m: nat)
    requires x.cursor < |l| && m in l
    ensures B.Minus(l, m) != [] ==> Shrunk(l, x, m).cursor < |B.Minus(l, m)|
  {
  }

  lemma {:induction false} MinusIs(l: seq<nat>, m: nat)
    requires m in l && B.Distinct(l)
    ensures var r := B.Minus(l, m); B.Distinct(r) && forall y :: y in r <==> y in l && y != m
  {
    var k := L.IndexOf(l, m);
    assert k < |l|;
    B.RemoveDistinct(l, k);
  }

  lemma ListDistinct(g: Graph, h: nat)
    requires WellFormed(g) && h in g.dir
    ensures h in g.conns && B.Distinct(g.conns[h])
  {
  }

  lemma JoinedWell(g: Graph, a: nat, b: nat)
    requires WellFormed(g) && a in g.dir && b in g.dir && a in g.conns && g.dir[a] != g.dir[b] && b !in g.conns[a]
    ensures b in g.conns
    ensures WellFormed(Joined(g, a, b)) && Linked(Joined(g, a, b), a, b)
  {
    var g' := Joined(g, a, b);
    assert Linked(g, b, a) ==> Linked(g, a, b);
    forall h, m | Linked(g', h, m) ensures m in g.dir && h in g.dir && g.dir[m] != g.dir[h] && Linked(g', m, h) {
      if Linked(g, h, m) { assert Linked(g, m, h); }
    }
  }

  lemma PartedWell(g: Graph, a: nat, b: nat)
    requires WellFormed(g) && a in g.dir && b in g.dir && a != b && Linked(g, a, b)
    ensures a in g.conns && b in g.conns && WellFormed(Parted(g, a, b))
  {
    hide B.Minus, B.Distinct, Parted;
    LinkEnds(g, a, b);
    var g' := Parted(g, a, b);
    PartedLinks(g, a, b);
    forall h, m | Linked(g', h, m) ensures m in g.dir && h in g.dir && g.dir[m] != g.dir[h] && Linked(g', m, h) {
      assert Linked(g, h, m) && Linked(g, m, h);
    }
    DistinctAll(g');
  }

  lemma PartedLinks(g: Graph, a: nat, b: nat)
    requires WellFormed(g) && a in g.conns && b in g.conns && a != b && b in g.conns[a] && a in g.conns[b]
    ensures var g' := Parted(g, a, b);
      && g'.dir == g.dir && g'.conns.Keys == g.dir.Keys
      && (forall h: nat, m: nat :: Linked(g', h, m) <==> Linked(g, h, m) && (h, m) != (a, b) && (h, m) != (b, a))
      && (forall h | h in g'.dir :: B.Distinct(g'.conns[h]))
  {
    hide B.Minus, B.Distinct, Parted;
    ListDistinct(g, a);
    ListDistinct(g, b);
    MinusIs(g.conns[a], b);
    MinusIs(g.conns[b], a);
    ListsChanged(g, a, b);
    forall h | h in g.dir ensures B.Distinct(Parted(g, a, b).conns[h]) { ListDistinct(g, h); }
  }

  lemma DistinctAll(g: Graph)
    requires g.conns.Keys == g.dir.Keys && forall h | h in g.dir :: B.Distinct(g.conns[h])
    ensures forall h, j, k | h in g.dir && 0 <= j < k < |g.conns[h]| :: g.conns[h][j] != g.conns[h][k]
  {
  }

  lemma DirKept(g: Graph, a: nat, b: nat)
    requires a in g.conns && b in g.conns
    ensures Joined(g, a, b).dir == g.dir && Parted(g, a, b).dir == g.dir
  {
  }

  lemma CursorsChange(n: Net, t: nat, act: Act)
    requires Base(n) && Jobs(n) && Ready(n, Link(t, act)) && act.Change? && !Rebinds(n, Link(t, act))
    ensures var n' := After(n, Link(t, act)); n'.g.conns.Keys == n'.s.Keys && Cursors(n')
  {
    hide Jobs, Ready, After, Rebinds, Joined, Parted, Grown, Shrunk, B.Minus, HalvesOk, WellFormed, Everyone;
    ChangeIs(n, t, act);
    BothJob(n, t);
    var j, n' := n.links[t].j, After(n, Link(t, act));
    ListsChanged(n.g, j.one, j.two);
    if j.ToUnbind? { LinkEnds(n.g, j.one, j.two); }
    forall h | h in n'.s && n'.g.conns[h] != [] ensures n'.s[h].cursor < |n'.g.conns[h]| {
      if h == j.one || h == j.two {
        var m := if h == j.one then j.two else j.one;
        if j.ToBind? { GrownFits(n.g.conns[h], n.s[h], m); } else { ShrunkFits(n.g.conns[h], n.s[h], m); }
      }
    }
  }

  lemma KinChange(n: Net, t: nat, act: Act)
    requires Ready(n, Link(t, act)) && act.Change? && !Rebinds(n, Link(t, act))
    ensures Kin(n.s, After(n, Link(t, act)).s) && After(n, Link(t, act)).g.dir == n.g.dir
    ensures forall h | h in n.s :: h in After(n, Link(t, act)).s && After(n, Link(t, act)).s[h].pc == n.s[h].pc
  {
    hide Ready, After, Rebinds, Grown, Shrunk, Joined, Parted;
    ChangeIs(n, t, act);
    var j := n.links[t].j;
    forall h | h in n.s
      ensures Akin(n.s[h], After(n, Link(t, act)).s[h]) && After(n, Link(t, act)).s[h].pc == n.s[h].pc
    {
      if h == j.one || h == j.two {
        CursorOnly(n.g.conns[h], n.s[h], j.one);
        CursorOnly(n.g.conns[h], n.s[h], j.two);
      }
    }
    DirKept(n.g, j.one, j.two);
  }

  lemma BaseChange(n: Net, t: nat, act: Act)
    requires Base(n) && Jobs(n) && Ready(n, Link(t, act)) && act.Change? && !Rebinds(n, Link(t, act))
    ensures Base(After(n, Link(t, act)))
  {
    hide Jobs, Ready, After, Rebinds, Joined, Parted, HalvesOk, WellFormed, Everyone, Kin, Cursors;
    var n' := After(n, Link(t, act));
    CursorsChange(n, t, act);
    ChangeIs(n, t, act);
    BothJob(n, t);
    var j := n.links[t].j;
    if j.ToBind? { JoinedWell(n.g, j.one, j.two); } else { PartedWell(n.g, j.one, j.two); }
    KinChange(n, t, act);
    KinSound(Everyone(n.g.dir), n.s, n'.s);
  }

  lemma KinPost(n: Net, t: nat, act: Act)
    requires Ready(n, Link(t, act)) && (act.Post? || act.Take?)
    ensures Kin(n.s, After(n, Link(t, act)).s) && After(n, Link(t, act)).g == n.g
    ensures forall h | h in n.s :: h in After(n, Link(t, act)).s &&
              After(n, Link(t, act)).s[h].cursor == n.s[h].cursor &&
              (After(n, Link(t, act)).s[h].pc == n.s[h].pc || !After(n, Link(t, act)).s[h].pc.WantIn?)
  {
    hide Ready, After, OwnerHas, GivenPC, TakenPC, Target, Woke;
    if act.Post? { PostIs(n, t, act); } else { TakeIs(n, t, act); }
  }

  lemma BasePost(n: Net, t: nat, act: Act)
    requires Base(n) && Ready(n, Link(t, act)) && (act.Post? || act.Take?)
    ensures Base(After(n, Link(t, act)))
  {
    hide Ready, After, HalvesOk, WellFormed, Everyone, Kin;
    KinPost(n, t, act);
    KinKeys(n.s, After(n, Link(t, act)).s);
    BaseIs(n);
    KinSound(Everyone(n.g.dir), n.s, After(n, Link(t, act)).s);
  }

  /** A linker's program point after its step still has a good job. */
  lemma JobNext(n: Net, t: nat, act: Act)
    requires WellFormed(n.g) && n.g.conns.Keys == n.g.dir.Keys == n.s.Keys
    requires Ready(n, Link(t, act)) && JobOk(n.g, n.links[t]) && !act.Change?
    ensures JobOk(n.g, After(n, Link(t, act)).links[t])
  {
    hide Posted;
    if act.Pick? && n.links[t].i < |n.g.conns[n.links[t].id]| {
      assert Linked(n.g, n.links[t].id, n.g.conns[n.links[t].id][n.links[t].i]);
    }
  }

  lemma JobsOther(g: Graph, g': Graph, pc: LinkPC, pc': LinkPC, x: nat)
    requires JobOk(g, pc) && g'.dir == g.dir && (g' == g || !Operating(pc)) && (pc' == pc || pc' == Woke(g.dir, pc, x))
    ensures JobOk(g', pc')
  {
  }

  lemma OthersStay(n: Net, t: nat, act: Act, u: nat) returns (x: nat)
    requires Ready(n, Link(t, act)) && u in n.links && u != t
    ensures var n' := After(n, Link(t, act));
      u in n'.links && (n'.links[u] == n.links[u] || n'.links[u] == Woke(n.g.dir, n.links[u], x))
  {
    hide Woke;
    x := if act.Post? then Receiver(n.links[t]) else 0;
  }

  lemma JobsLink(n: Net, t: nat, act: Act)
    requires Base(n) && OneOperator(n) && Jobs(n) && Ready(n, Link(t, act)) && !Rebinds(n, Link(t, act))
    ensures Jobs(After(n, Link(t, act)))
  {
    hide Base, Ready, After, Woke, JobOk, Rebinds, Joined, Parted, Grown, Shrunk, Operating;
    var n' := After(n, Link(t, act));
    BaseIs(n);
    OperatorLink(n, t, act);
    forall u | u in n'.links ensures JobOk(n'.g, n'.links[u]) {
      if u == t {
        assert JobOk(n.g, n.links[t]);
        if act.Change? { JobChanged(n, t, act); } else { GraphKept(n, t, act); JobNext(n, t, act); }
      } else {
        var x := OthersStay(n, t, act, u);
        if act.Change? {
          ChangeIs(n, t, act);
          BothJob(n, t);
          ListsChanged(n.g, n.links[t].j.one, n.links[t].j.two);
          ChangeOperates(n, t, act);
        } else { GraphKept(n, t, act); }
        JobsOther(n.g, n'.g, n.links[u], n'.links[u], x);
      }
    }
  }

  lemma JobsRebind(n: Net, e: Event)
    requires Jobs(n) && Ready(n, e) && Rebinds(n, e)
    ensures Jobs(After(n, e))
  {
    hide Ready, After, Rebinds;
    RebindIs(n, e);
  }

  lemma ChangeOperates(n: Net, t: nat, act: Act)
    requires Ready(n, Link(t, act)) && act.Change?
    ensures Operating(n.links[t])
  {
  }

  lemma GraphKept(n: Net, t: nat, act: Act)
    requires Ready(n, Link(t, act)) && !act.Change?
    ensures After(n, Link(t, act)).g == n.g
  {
    hide Woke;
  }

  lemma JobChanged(n: Net, t: nat, act: Act)
    requires Base(n) && Jobs(n) && Ready(n, Link(t, act)) && act.Change? && !Rebinds(n, Link(t, act))
    ensures var n' := After(n, Link(t, act)); t in n'.links && JobOk(n'.g, n'.links[t])
  {
    hide *;
    BaseIs(n);
    ChangeIs(n, t, act);
    BothJob(n, t);
    var j := n.links[t].j;
    DirKept(n.g, j.one, j.two);
    if j.ToBind? { JoinedWell(n.g, j.one, j.two); }
    PostOneOk(n.g, After(n, Link(t, act)).g, j);
  }

  lemma PostOneOk(g: Graph, g': Graph, j: Job)
    requires Ends(g.dir, j) && g'.dir == g.dir && (j.ToBind? ==> Linked(g', j.one, j.two))
    ensures JobOk(g', PostOne(j))
  {
  }

  lemma KinLink(n: Net, t: nat, act: Act)
    requires Ready(n, Link(t, act))
    ensures Kin(n.s, After(n, Link(t, act)).s) && After(n, Link(t, act)).g.dir == n.g.dir
  {
    hide Ready, After, Rebinds, Kin;
    if Rebinds(n, Link(t, act)) { RebindIs(n, Link(t, act)); KinSelf(n.s); }
    else if act.Change? { KinChange(n, t, act); }
    else if act.Post? || act.Take? { KinPost(n, t, act); }
    else { StateKept(n, t, act); KinSelf(n.s); }
  }

  lemma KinSelf(s: State)
    ensures Kin(s, s)
  {
  }

  /** A linker enters a mutex only by locking it when it is free. */
  lemma LinkerEnters(n: Net, t: nat, act: Act, x: nat)
    requires Ready(n, Link(t, act))
    requires LinkerInside(n.g.dir, After(n, Link(t, act)).links[t], x)
    ensures LinkerInside(n.g.dir, n.links[t], x) || Free(n.g, n.s, x)
  {
    hide Posted, Free, Unlinked;
  }

  lemma ApartLink(n: Net, t: nat, act: Act)
    requires Apart(n) && Ready(n, Link(t, act))
    ensures Apart(After(n, Link(t, act)))
  {
    hide Ready, After, LinkerInside, Holds, Kin, Woke;
    var n' := After(n, Link(t, act));
    KinLink(n, t, act);
    KinHolds(n.g, n.s, n'.g, n'.s);
    LinksKept(n, t, act);
    forall h, x: nat, u | u in n'.links && Holds(n'.g, n'.s, h, x) ensures !LinkerInside(n'.g.dir, n'.links[u], x) {
      assert Holds(n.g, n.s, h, x);
      if u == t {
        if LinkerInside(n'.g.dir, n'.links[t], x) {
          LinkerEnters(n, t, act, x);
          FreeOf(n.g, n.s, h, x);
        }
      } else {
        var z := OthersStay(n, t, act, u);
        WokeToken(n.g.dir, n.links[u], z, x);
      }
    }
  }

  lemma LinksKept(n: Net, t: nat, act: Act)
    requires Ready(n, Link(t, act))
    ensures After(n, Link(t, act)).links.Keys == n.links.Keys && t in n.links
  {
    hide Woke;
  }

  lemma FreeOf(g: Graph, s: State, h: nat, x: nat)
    requires Holds(g, s, h, x)
    ensures !Free(g, s, x)
  {
  }

  // ----- every step, every run -----

  lemma BaseQuiet(n: Net, n': Net)
    requires Base(n) && n'.g == n.g && n'.s == n.s
    ensures Base(n')
  {
  }

  lemma TalkIs(n: Net, a: Step)
    requires Ready(n, Talk(a))
    ensures TalkReady(n, a) && After(n, Talk(a)) == Talked(n, a) && Talked(n, a).g == n.g
  {
  }

  lemma FaultIs(n: Net, e: Event)
    requires Ready(n, e) && e.Fault?
    ensures After(n, e) == n.(crashed := true)
  {
  }

  lemma InvTalk(n: Net, a: Step)
    requires NetInv(n) && Ready(n, Talk(a))
    ensures NetInv(After(n, Talk(a)))
  {
    hide Base, OneOperator, Jobs, Supplied, Apart, Ready, After;
    BaseIs(n);
    TalkIs(n, a);
    BaseTalk(n, a);
    OperatorTalk(n, a);
    JobsTalk(n, a);
    SuppliedTalk(n, a);
    ApartTalk(n, a);
  }

  lemma InvLink(n: Net, t: nat, act: Act)
    requires NetInv(n) && Ready(n, Link(t, act)) && !Rebinds(n, Link(t, act))
    ensures NetInv(After(n, Link(t, act)))
  {
    hide Base, OneOperator, Jobs, Supplied, Apart, Ready, After, Rebinds;
    BaseIs(n);
    OperatorLink(n, t, act);
    JobsLink(n, t, act);
    ApartLink(n, t, act);
    if act.Change? { BaseChange(n, t, act); SuppliedChange(n, t, act); }
    else if act.Post? { BasePost(n, t, act); SuppliedPost(n, t, act); }
    else if act.Take? { BasePost(n, t, act); SuppliedTake(n, t, act); }
    else { SuppliedQuiet(n, t, act); BaseQuiet(n, After(n, Link(t, act))); }
  }

  lemma InvRebind(n: Net, e: Event)
    requires NetInv(n) && Ready(n, e) && Rebinds(n, e)
    ensures NetInv(After(n, e))
  {
    hide Base, OneOperator, Jobs, Supplied, Apart, Ready, After, Rebinds;
    BaseIs(n);
    RebindIs(n, e);
    OperatorLink(n, e.t, e.act);
    JobsRebind(n, e);
    ApartLink(n, e.t, e.act);
    SuppliedRebind(n, e);
    BaseQuiet(n, After(n, e));
  }

  lemma InvFault(n: Net, e: Event)
    requires NetInv(n) && Ready(n, e) && e.Fault?
    ensures NetInv(After(n, e))
  {
    hide Base, Ready, After;
    FaultIs(n, e);
    BaseQuiet(n, After(n, e));
  }

  /** Main result: every step whatever keeps the invariant. */
  lemma NetInvStep(n: Net, e: Event)
    requires NetInv(n) && Ready(n, e)
    ensures NetInv(After(n, e))
  {
    hide NetInv, Ready, After, Rebinds;
    if Rebinds(n, e) { InvRebind(n, e); }
    else if e.Talk? { InvTalk(n, e.a); }
    else if e.Link? { InvLink(n, e.t, e.act); }
    else { InvFault(n, e); }
  }

  lemma InitKeys(n: Net)
    requires NetInit(n)
    ensures WellFormed(n.g) && Init(n.g, n.s) && n.g.conns.Keys == n.g.dir.Keys == n.s.Keys
  {
  }

  /** Every half is idle and has no history. */
  lemma InitHalf(n: Net, h: nat)
    requires NetInit(n) && h in n.s
    ensures h in n.g.conns && n.s[h] == Fresh(|n.g.conns[h]|).(cursor := n.s[h].cursor)
    ensures n.g.conns[h] != [] ==> n.s[h].cursor < |n.g.conns[h]|
  {
  }

  lemma FreshSteady(d: Dir, l: seq<nat>, n: nat, c: nat)
    ensures Steady(l, Fresh(n).(cursor := c)) && Counts(d, Fresh(n).(cursor := c))
  {
  }

  lemma InitSettled(n: Net)
    requires NetInit(n)
    ensures Settled(Everyone(n.g.dir), n.s)
  {
    hide NetInit, Everyone, Steady, Counts;
    InitKeys(n);
    EveryoneIs(n.g.dir);
    forall h | h in n.s ensures HalfSteady(Everyone(n.g.dir), h, n.s[h]) {
      InitHalf(n, h);
      FreshSteady(n.g.dir[h], Everyone(n.g.dir).conns[h], |n.g.conns[h]|, n.s[h].cursor);
    }
  }

  lemma InitIdle(n: Net)
    requires NetInit(n)
    ensures forall h | h in n.s :: n.s[h].pc == Idle && n.s[h].to == [] && n.s[h].from == [] && n.s[h].acks == 0
    ensures forall h | h in n.s :: !Pending(n.s[h])
  {
    hide NetInit;
    forall h | h in n.s ensures n.s[h].pc == Idle && n.s[h].to == [] && n.s[h].from == [] && n.s[h].acks == 0 {
      InitHalf(n, h);
    }
    forall h | h in n.s ensures !Pending(n.s[h]) { InitHalf(n, h); }
  }

  lemma InitSound(n: Net)
    requires NetInit(n)
    ensures HalvesOk(Everyone(n.g.dir), n.s)
  {
    hide NetInit, Everyone, Settled;
    InitSettled(n);
    InitIdle(n);
    forall i ensures Ackers(n.s, i) == {} {
    }
  }

  lemma FreshSupply(dir: map<nat, Dir>, l: seq<nat>, r: seq<nat>, h: nat, c: nat)
    requires l != [] ==> r != []
    ensures SupplyOk(dir, l, r, Fresh(|l|).(cursor := c), h, Away)
  {
  }

  lemma InitSupplied(n: Net)
    requires NetInit(n)
    ensures n.g.conns.Keys == n.s.Keys == n.g.dir.Keys && Supplied(n)
  {
    hide NetInit, Everyone, SupplyOk, WellFormed, OneOperator, Jobs, Apart, Operator;
    InitKeys(n);
    EveryoneIs(n.g.dir);
    InitLinks(n);
    forall h | h in n.s
      ensures SupplyOk(n.g.dir, n.g.conns[h], Everyone(n.g.dir).conns[h], n.s[h], h, Operator(n))
    {
      InitHalf(n, h);
      if n.g.conns[h] != [] { LinkEnds(n.g, h, n.g.conns[h][0]); }
      FreshSupply(n.g.dir, n.g.conns[h], Everyone(n.g.dir).conns[h], h, n.s[h].cursor);
    }
  }

  lemma InitLinks(n: Net)
    requires NetInit(n)
    ensures n.op == None && OneOperator(n) && Jobs(n) && Operator(n) == Away && Apart(n)
  {
    hide Init, WellFormed, Holds;
  }

  lemma InitCursors(n: Net)
    requires NetInit(n)
    ensures n.g.conns.Keys == n.s.Keys && Cursors(n)
  {
    hide NetInit;
    InitKeys(n);
    forall h | h in n.s && n.g.conns[h] != [] ensures n.s[h].cursor < |n.g.conns[h]| { InitHalf(n, h); }
  }

  lemma NetInvInit(n: Net)
    requires NetInit(n)
    ensures NetInv(n)
  {
    hide NetInit, Everyone, HalvesOk, Cursors, OneOperator, Jobs, Supplied, Apart;
    InitKeys(n);
    InitSound(n);
    InitSupplied(n);
    InitLinks(n);
    InitCursors(n);
  }

  lemma {:induction false} NetRunInv(b: seq<Net>, events: seq<Event>, k: nat)
    requires NetRun(b, events) && NetInit(b[0]) && k < |b|
    ensures NetInv(b[k])
  {
    hide NetInv, Ready, After, NetInit;
    if k == 0 {
      NetInvInit(b[0]);
    } else {
      NetRunInv(b, events, k - 1);
      assert Goes(b[k - 1], events[k - 1], b[k]);
      NetInvStep(b[k - 1], events[k - 1]);
    }
  }

  lemma PossibleInv(n: Net)
    requires Possible(n)
    ensures NetInv(n)
  {
    hide NetInv, NetInit;
    var b, events :| PossibleBy(b, events, n);
    NetRunInv(b, events, |events|);
  }
}
