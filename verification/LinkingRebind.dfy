/**
 What a bind of a pair that is linked already does: it returns with the pair's two mutexes locked, and in every
 continuation they stay locked and whoever waits for one of them waits forever.  Every linked pair can be made to.
 */
module LinkingRebind {
  import opened Rendezvous
  import opened RendezvousSafety
  import opened RendezvousProgress
  import opened RendezvousResults
  import opened RendezvousRuns
  import opened Wrappers
  import opened Linking
  import opened LinkingSafety
  import opened LinkingProgress
  import opened LinkingRuns
  import B = Binding

  // ----- the two mutexes -----

  lemma LeftStep(n: Net, t: nat, e: Event)
    requires Ready(n, e) && t in n.links && n.links[t].Left?
    ensures t in After(n, e).links && After(n, e).links[t] == n.links[t]
  {
    hide Ready, After, Woke, Changed, Given;
    match e
    case Talk(a) => TalkIs(n, a); LeftWoke(n.g.dir, n.links[t], a.h);
    case Link(u, act) =>
      LeftActs(n, u, act);
      var x := OthersStay(n, u, act, t);
      LeftWoke(n.g.dir, n.links[t], x);
    case Fault(_) => FaultIs(n, e);
  }

  lemma LeftWoke(dir: map<nat, Dir>, pc: LinkPC, x: nat)
    requires pc.Left?
    ensures Woke(dir, pc, x) == pc
  {
  }

  lemma LeftActs(n: Net, u: nat, act: Act)
    requires Ready(n, Link(u, act))
    ensures u in n.links && !n.links[u].Left?
  {
  }

  lemma {:induction false} LeftForever(b: seq<Net>, events: seq<Event>, t: nat, k: nat)
    requires NetRun(b, events) && t in b[0].links && b[0].links[t].Left? && k < |b|
    ensures t in b[k].links && b[k].links[t] == b[0].links[t]
    ensures !Clear(b[k], b[0].links[t].j.one) && !Clear(b[k], b[0].links[t].j.two)
  {
    hide Ready, After, Free;
    if k > 0 {
      LeftForever(b, events, t, k - 1);
      assert Goes(b[k - 1], events[k - 1], b[k]);
      LeftStep(b[k - 1], t, events[k - 1]);
    }
  }

  /** After a step that binds a linked pair again neither of its two mutexes is ever free, whatever is done next. */
  lemma RebindBlocks(n: Net, e: Event, b: seq<Net>, events: seq<Event>, k: nat)
    requires Ready(n, e) && Rebinds(n, e) && NetRun(b, events) && b[0] == After(n, e) && k < |b|
    ensures e.Link? && e.t in n.links && n.links[e.t].LinkBoth?
    ensures !Clear(b[k], n.links[e.t].j.one) && !Clear(b[k], n.links[e.t].j.two)
    ensures Known(b[k], Linker(e.t)) && Gone(b[k], Linker(e.t))
  {
    hide Ready, After, Rebinds, Clear;
    RebindIs(n, e);
    LeftForever(b, events, e.t, k);
  }

  // ----- whoever waits for one of them -----

  /** Thread p stands where it stood. */
  predicate Stays(n: Net, n': Net, p: Thread)
    requires Known(n, p)
  {
    Known(n', p) &&
    match p
    case Owner(h) => n'.s[h].pc == n.s[h].pc
    case Linker(u) => n'.links[u] == n.links[u]
  }

  lemma LeftHas(n: Net, t: nat, x: nat)
    requires t in n.links && n.links[t].Left?
    ensures !HasToken(n, Linker(t), x)
  {
  }

  lemma LeftOut(n: Net, t: nat)
    requires OneOperator(n) && t in n.links && n.links[t].Left?
    ensures n.op != Some(t)
  {
  }

  /** The mutex waited for. */
  function Wanted(n: Net, p: Thread): Option<nat>
    requires Known(n, p)
  {
    match p
    case Owner(h) =>
      (match n.s[h].pc
       case Announce => Some(h)
       case WantIn(_, m) => Some(InSide(n.g.dir[h], h, m))
       case WantOut(_, m) => Some(OutSide(n.g.dir[h], h, m))
       case _ => None)
    case Linker(u) =>
      (match n.links[u]
       case LinkIn(j) => Some(InEnd(n.g.dir, j))
       case LinkOut(j) => Some(OutEnd(n.g.dir, j))
       case _ => None)
  }

  /** A thread that waits for one that has left waits for a mutex. */
  lemma WaitsForLeft(n: Net, p: Thread, t: nat)
    requires NetInv(n) && Known(n, p) && t in n.links && n.links[t].Left?
    ensures WaitsFor(n, p, Linker(t)) <==> Wanted(n, p).Some? && InMutex(n, Linker(t), Wanted(n, p).value)
  {
    hide NetInv, Base, OneOperator, Jobs, Settled, Balanced, SleepsAlone, WellFormed, HasToken, InMutex, Everyone;
    SafetyIs(n);
    LeftOut(n, t);
    forall x ensures !HasToken(n, Linker(t), x) { LeftHas(n, t, x); }
  }

  lemma NotClear(n: Net, t: nat, x: nat)
    requires InMutex(n, Linker(t), x)
    ensures !Clear(n, x)
  {
    hide Free;
  }

  /** A step by a thread that wants a mutex finds it free. */
  lemma WantsClear(n: Net, p: Thread, e: Event)
    requires Known(n, p) && Ready(n, e) && By(p, e) && Wanted(n, p).Some?
    ensures Clear(n, Wanted(n, p).value)
  {
    hide Free, Unlinked;
  }

  lemma OtherStays(d: Dir, l: seq<nat>, x: Half, y: Half, a: Step)
    requires Guard(l, x, y, a) && (y.pc == Announce || y.pc.WantIn? || y.pc.WantOut?)
    ensures Other(d, x, y, a).pc == y.pc
  {
  }

  /** A step by another thread leaves one that wants a mutex where it is. */
  lemma OthersLeave(n: Net, p: Thread, e: Event)
    requires Known(n, p) && Ready(n, e) && !By(p, e) && Wanted(n, p).Some?
    ensures Stays(n, After(n, e), p) && After(n, e).g.dir == n.g.dir
  {
    match p
    case Owner(h) => OwnersStay(n, h, e);
    case Linker(u) => LinkersStay(n, u, e);
  }

  lemma LinkKeepsPoint(n: Net, t: nat, act: Act, h: nat)
    requires Ready(n, Link(t, act)) && h in n.s && !n.s[h].pc.Start?
    ensures h in After(n, Link(t, act)).s && After(n, Link(t, act)).s[h].pc == n.s[h].pc
    ensures After(n, Link(t, act)).g.dir == n.g.dir && After(n, Link(t, act)).g.conns.Keys == n.g.conns.Keys
  {
    hide Woke, Clear, B.Minus;
  }

  lemma OwnersStay(n: Net, h: nat, e: Event)
    requires Known(n, Owner(h)) && Ready(n, e) && !By(Owner(h), e) && Wanted(n, Owner(h)).Some?
    ensures Stays(n, After(n, e), Owner(h)) && After(n, e).g.dir == n.g.dir
  {
    hide Guard, Own, Other, Partner, Woke, Ready, After, Talked;
    match e
    case Talk(a) =>
      TalkIs(n, a);
      TalkHalves(n, a);
      if h == Partner(n.s[a.h], a) { OtherStays(n.g.dir[a.h], n.g.conns[a.h], n.s[a.h], n.s[h], a); }
    case Link(t, act) => LinkKeepsPoint(n, t, act, h);
    case Fault(_) => FaultIs(n, e);
  }

  lemma WokeWants(dir: map<nat, Dir>, pc: LinkPC, x: nat)
    requires pc.LinkIn? || pc.LinkOut?
    ensures Woke(dir, pc, x) == pc
  {
  }

  lemma LinkersStay(n: Net, u: nat, e: Event)
    requires Known(n, Linker(u)) && Ready(n, e) && !By(Linker(u), e) && Wanted(n, Linker(u)).Some?
    ensures Stays(n, After(n, e), Linker(u)) && After(n, e).g.dir == n.g.dir
  {
    hide Ready, After, Woke, Kin;
    match e
    case Talk(a) => TalkIs(n, a); WokeWants(n.g.dir, n.links[u], a.h);
    case Link(t, act) =>
      KinLink(n, t, act);
      var x := OthersStay(n, t, act, u);
      WokeWants(n.g.dir, n.links[u], x);
    case Fault(_) => FaultIs(n, e);
  }

  lemma SameWish(n: Net, n': Net, p: Thread, t: nat)
    requires Known(n, p) && Stays(n, n', p) && n'.g.dir == n.g.dir && t in n.links && t in n'.links
    requires n'.links[t] == n.links[t] && n.links[t].Left?
    ensures Wanted(n', p) == Wanted(n, p)
    ensures forall x: nat :: InMutex(n', Linker(t), x) <==> InMutex(n, Linker(t), x)
  {
  }

  lemma StuckStep(n: Net, e: Event, p: Thread, t: nat)
    requires NetInv(n) && Ready(n, e) && Known(n, p) && t in n.links && n.links[t].Left?
    requires WaitsFor(n, p, Linker(t))
    ensures Stays(n, After(n, e), p) && t in After(n, e).links && After(n, e).links[t] == n.links[t]
    ensures WaitsFor(After(n, e), p, Linker(t))
  {
    hide *;
    var n' := After(n, e);
    WaitsForLeft(n, p, t);
    NotClear(n, t, Wanted(n, p).value);
    if By(p, e) { WantsClear(n, p, e); }
    OthersLeave(n, p, e);
    LeftStep(n, t, e);
    StaysKnown(n, n', p);
    SameWish(n, n', p, t);
    NetInvStep(n, e);
    WaitsForLeft(n', p, t);
  }

  lemma StaysKnown(n: Net, n': Net, p: Thread)
    requires Known(n, p) && Stays(n, n', p)
    ensures Known(n', p)
  {
  }

  /** A thread that waits for one that a refused bind has sent home is there in every continuation, at the same
      point and still waiting for it. */
  lemma {:induction false} StuckForever(b: seq<Net>, events: seq<Event>, p: Thread, t: nat, k: nat)
    requires NetRun(b, events) && Possible(b[0]) && Known(b[0], p) && Gone(b[0], Linker(t)) && k < |b|
    requires WaitsFor(b[0], p, Linker(t))
    ensures Possible(b[k]) && Gone(b[k], Linker(t)) && Stays(b[0], b[k], p) && WaitsFor(b[k], p, Linker(t))
  {
    hide Ready, After, Possible, WaitsFor;
    if k > 0 {
      StuckForever(b, events, p, t, k - 1);
      assert Goes(b[k - 1], events[k - 1], b[k]);
      PossibleInv(b[k - 1]) by { hide *; }
      StuckStep(b[k - 1], events[k - 1], p, t) by { hide NetInv; }
      PossibleStep(b[k - 1], events[k - 1], b[k]);
    }
  }

  // ----- every linked pair can be bound again -----

  lemma AnnouncesOutside(g: Graph, s: State, s': State, a: nat)
    requires (forall h | h in s :: s[h].pc == Idle) && Leads(g, s, s', {a}) && a in s && s'.Keys == s.Keys
    requires s'[a].pc == Announce
    ensures AllOutside(s')
  {
    hide Leads;
    LeadsKeys(g, s, s', {a});
  }

  /** Half a in front of its own mutex, everybody else idle. */
  lemma Announces(g: Graph, a: nat, b: nat) returns (s: State)
    requires WellFormed(g) && Linked(g, a, b)
    ensures Reachable(g, s) && a in s && s[a].pc == Announce && AllOutside(s) && s.Keys == g.dir.Keys
  {
    hide Reachable, Leads, WellFormed, Linked, AllOutside;
    LinkEnds(g, a, b);
    var s0 := Start0(g);
    IdleToken(g, s0, a);
    var s1 := Begins(g, s0, a, 0);
    LeadsKeys(g, s0, s1, {a});
    s := TakesToken(g, s1, a);
    LeadsKeys(g, s1, s, {a});
    LeadsTrans(g, s0, s1, s, {a});
    AnnouncesOutside(g, s0, s, a);
  }

  lemma ChangeRebinds(g: Graph, size: map<nat, nat>, s: State, a: nat, b: nat)
    requires s.Keys == g.dir.Keys == g.conns.Keys && a in s && b in s && b in g.conns[a] && s[a].pc == Announce
    ensures var n, e := One(g, size, s, Some(9), LinkBoth(ToBind(a, b))), Link(9, Change);
      Ready(n, e) && Rebinds(n, e) && After(n, e) == One(g, size, s, None, Left(ToBind(a, b)))
    ensures var n := One(g, size, s, None, Left(ToBind(a, b)));
      Known(n, Owner(a)) && Gone(n, Linker(9)) && WaitsFor(n, Owner(a), Linker(9))
  {
  }

  /** In any graph, for any two linked halves of the same size: a run whose last step binds them again, with a thread
      that from then on waits for the mutex. */
  lemma RebindHappens(g: Graph, size: map<nat, nat>, a: nat, b: nat) returns (n: Net, e: Event)
    requires WellFormed(g) && Linked(g, a, b) && a in size && b in size && size[a] == size[b]
    ensures Possible(n) && Ready(n, e) && Rebinds(n, e) && e.Link? && n.g == g
    ensures Known(After(n, e), Owner(a)) && Gone(After(n, e), Linker(e.t))
    ensures WaitsFor(After(n, e), Owner(a), Linker(e.t))
  {
    hide Possible, Reachable, Ready, After, Rebinds, WellFormed, AllOutside, WaitsFor, Gone;
    LinkEnds(g, a, b);
    var s := Announces(g, a, b);
    Domains(g, s);
    FixedPossible(g, size, s);
    n := BindLocks(g, size, s, a, b);
    ChangeRebinds(g, size, s, a, b);
    e := Link(9, Change);
  }
}
