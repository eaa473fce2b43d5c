/**
 No lost rendezvous while threads bind and unbind: in runs that keep the tokens exclusive and insert into no list
 in mid-scan, exactly one kind of step leaves a linked pair parked and ready, the bind of two halves that are
 parked and ready already.  Such a bind exists in every graph.
 */
module LinkingRendezvous {
  import opened Rendezvous
  import opened RendezvousSafety
  import opened RendezvousProgress
  import opened RendezvousResults
  import opened RendezvousRuns
  import opened Wrappers
  import opened Linking
  import opened LinkingSafety
  import opened LinkingTokens
  import opened LinkingRuns
  import B = Binding

  /** Linked, parked, and still ready for each other. */
  ghost predicate Lost(n: Net, o: nat, i: nat) {
    && Bound(n.g, o, i) && o in n.s && i in n.s
    && n.s[o].pc.Park? && n.s[i].pc.Park? && n.s[o].ready && n.s[i].ready
  }

  /** A bind inserts into the list of a half whose owner has the token. */
  predicate JoinsBusy(n: Net, e: Event) {
    e.Link? && e.act.Change? && e.t in n.links && n.links[e.t].LinkBoth? && n.links[e.t].j.ToBind? &&
    (Busy(n, n.links[e.t].j.one) || Busy(n, n.links[e.t].j.two))
  }

  /** A bind joins sender half o and receiver half i when both are parked and ready. */
  predicate JoinsParked(n: Net, e: Event, o: nat, i: nat) {
    e.Link? && e.act.Change? && e.t in n.links && n.links[e.t].LinkBoth? && n.links[e.t].j.ToBind? &&
    var j := n.links[e.t].j;
    && o == OutEnd(n.g.dir, j) && i == InEnd(n.g.dir, j) && o in n.s && i in n.s
    && j.one in n.g.conns && j.two !in n.g.conns[j.one]
    && n.s[o].pc.Park? && n.s[i].pc.Park? && n.s[o].ready && n.s[i].ready
  }

  predicate Tidy(n: Net, e: Event) {
    Orderly(n, e) && !JoinsBusy(n, e)
  }

  ghost predicate TidyRun(b: seq<Net>, events: seq<Event>) {
    NetRun(b, events) && NetInit(b[0]) && forall k | 0 <= k < |events| :: Tidy(b[k], events[k])
  }

  // ----- the invariant -----

  /** Has probed m since it was announced, or is past its scan. */
  predicate Past(x: Half, m: nat) {
    m in x.seen || x.pc.Park?
  }

  /** Two linked halves that are ready and done with each other are both parked. */
  ghost predicate Pairs(n: Net) {
    forall o, i | Bound(n.g, o, i) && o in n.s && i in n.s && BothPast(n.s[o], n.s[i], o, i) ::
      n.s[o].pc.Park? && n.s[i].pc.Park?
  }

  predicate BothPast(x: Half, y: Half, o: nat, i: nat) {
    x.ready && y.ready && Past(x, i) && Past(y, o)
  }

  /** While an owner has its token, its list is as it was when it took it. */
  ghost predicate Undisturbed(n: Net) {
    forall h | Busy(n, h) :: h in n.g.dir && h in n.g.conns && HalfOk(n.g, h, n.s[h])
  }

  ghost predicate TidyInv(n: Net)
    ensures TidyInv(n) ==> NetInv(n) && n.g.conns.Keys == n.s.Keys && Tokens(n)
  {
    NetInv(n) && n.g.conns.Keys == n.s.Keys && Tokens(n) && Undisturbed(n) && Pairs(n)
  }

  // ----- the lists of busy owners -----

  lemma Taken(d: Dir, l: seq<nat>, r: seq<nat>, x: Half, y: Half, a: Step)
    requires Guard(l, x, y, a) && a.TokenTake? && Steady(r, x) && l != [] && x.cursor < |l|
    ensures Control(l, Own(d, l, x, y, a))
  {
  }

  lemma OwnBusy(d: Dir, l: seq<nat>, x: Half, y: Half, a: Step)
    requires Guard(l, x, y, a) && OwnerHas(Own(d, l, x, y, a).pc)
    ensures a.TokenTake? || OwnerHas(x.pc)
  {
  }

  lemma OwnControl(d: Dir, l: seq<nat>, x: Half, y: Half, a: Step)
    requires Guard(l, x, y, a) && Control(l, x) && !a.TokenTake? && (a.Hit? ==> x.ready)
    ensures Control(l, Own(d, l, x, y, a))
  {
    hide Guard, Own, Steady, Swept;
    OwnSteady(d, l, x, y, a);
    OwnSwept(d, l, x, y, a);
  }

  lemma OtherControl(d: Dir, l: seq<nat>, x: Half, e: Dir, r: seq<nat>, y: Half, a: Step)
    requires Guard(l, x, y, a) && Control(r, y) && Counts(e, y) && d != e && (a.Hit? ==> y.ready)
    ensures Control(r, Other(d, x, y, a))
  {
    hide Guard, Other, Steady, Swept, Counts, Active;
    if a.Hit? { ReadyIsActive(r, y); }
    OtherSteady(d, l, x, e, r, y, a);
    OtherSwept(d, l, x, r, y, a);
  }

  lemma TokenList(n: Net, a: Step)
    requires NetInv(n) && n.g.conns.Keys == n.s.Keys && Tokens(n) && TalkReady(n, a) && a.TokenTake?
    ensures a.h in n.s && n.g.conns[a.h] != [] && n.s[a.h].cursor < |n.g.conns[a.h]|
  {
    hide NetInv, LinkerHas, WaitsOn, Operator, Free, Unlinked, HalvesOk, OwnerHas;
    TalkEnabled(n, a);
    assert TokenOk(n.g.dir, n.g.conns[a.h], n.s[a.h], a.h, Operator(n));
    NetCursors(n);
  }

  lemma NetCursors(n: Net)
    requires NetInv(n)
    ensures Base(n) && Cursors(n) && OneOperator(n) && Jobs(n) && Supplied(n)
  {
    hide OneOperator, Jobs, Supplied, Apart, HalvesOk, WellFormed, Cursors;
  }

  /** A hit's two halves are ready, and two different halves have different directions. */
  lemma Parties(n: Net, a: Step)
    requires NetInv(n) && TalkReady(n, a)
    ensures var h, m := a.h, Partner(n.s[a.h], a);
      && h in n.s && m in n.s && h in n.g.dir && m in n.g.dir && (m != h ==> n.g.dir[m] != n.g.dir[h])
      && (a.Hit? ==> n.s[h].ready && n.s[m].ready)
  {
    hide NetInv, Base, OneOperator, Jobs, Supplied, Enabled, Apply, TalkReady, Talked, Everyone, WellFormed, Settled;
    hide Exclusion, Committed, Balanced, SleepsAlone, Forward, Backward, InOrder;
    NetCursors(n);
    BaseIs(n);
    EveryoneIs(n.g.dir);
    TalkEnabled(n, a);
    TalkHalves(n, a);
    var k := Everyone(n.g.dir);
    if a.Fetch? || a.Measure? { LooksAlone(n.g.conns[a.h], n.s[a.h], a); }
    else {
      AnyGraph(n.g, k, n.s, a);
      HitReady(k, n.s, a);
    }
  }

  lemma LooksAlone(l: seq<nat>, x: Half, a: Step)
    requires a.Fetch? || a.Measure?
    ensures Partner(x, a) == a.h && !a.Hit?
  {
  }

  lemma BusyIs(n: Net, h: nat)
    requires Undisturbed(n) && h in n.s && OwnerHas(n.s[h].pc)
    ensures h in n.g.dir && h in n.g.conns && HalfOk(n.g, h, n.s[h])
  {
    assert Busy(n, h);
  }

  lemma UndisturbedTalk(n: Net, a: Step)
    requires TidyInv(n) && TalkReady(n, a) && NetInv(Talked(n, a))
    ensures Undisturbed(Talked(n, a))
  {
    hide TidyInv, NetInv, Base, Jobs, Supplied, OneOperator, Cursors;
    hide Tokens, Undisturbed, TalkReady, Talked, Everyone, Guard, Own, Other, Partner, OwnerHas;
    hide Control, Counts, Steady;
    TidyIs(n);
    var n' := Talked(n, a);
    NetCursors(n);
    NetCursors(n');
    TalkEnabled(n, a);
    TalkHalves(n, a);
    Parties(n, a);
    var h, d, l, m := a.h, n.g.dir[a.h], n.g.conns[a.h], Partner(n.s[a.h], a);
    forall q | q in n'.s && OwnerHas(n'.s[q].pc) ensures HalfOk(n'.g, q, n'.s[q]) {
      HalfIn(n', q);
      HalfIn(n, q);
      if q == h {
        OwnBusy(d, l, n.s[h], n.s[m], a);
        if a.TokenTake? { TokenList(n, a); Taken(d, l, Everyone(n.g.dir).conns[h], n.s[h], n.s[m], a); }
        else { BusyIs(n, h); OwnControl(d, l, n.s[h], n.s[m], a); }
      } else {
        OtherToken(d, l, n.s[h], n.s[m], a);
        BusyIs(n, q);
        if q == m { OtherControl(d, l, n.s[h], n.g.dir[m], n.g.conns[m], n.s[m], a); }
      }
    }
    UndisturbedIf(n');
  }

  lemma UndisturbedIf(n: Net)
    requires n.g.conns.Keys == n.g.dir.Keys == n.s.Keys
    requires forall q | q in n.s && OwnerHas(n.s[q].pc) :: HalfOk(n.g, q, n.s[q])
    ensures Undisturbed(n)
  {
  }

  lemma TidyIs(n: Net)
    requires TidyInv(n)
    ensures NetInv(n) && n.g.conns.Keys == n.g.dir.Keys == n.s.Keys && Tokens(n) && Undisturbed(n) && Pairs(n)
  {
    hide NetInv, Tokens, Undisturbed, Pairs;
    NetInvKeys(n);
  }

  /** The half whose token the operator has is not busy. */
  lemma OperatorTokenIdle(n: Net, t: nat, h: nat)
    requires NetInv(n) && n.g.conns.Keys == n.s.Keys && Tokens(n) && t in n.links && Operating(n.links[t])
    requires h in n.s
    requires LinkerHas(n.g.dir, n.links[t], h) || (Waiting(n.links[t]) && Target(n.g.dir, n.links[t]) == h &&
               (n.links[t].w == Woken || n.s[h].token))
    ensures !OwnerHas(n.s[h].pc)
  {
    hide NetInv, LinkerHas, OwnerHas, Operating;
    NetInvKeys(n);
    assert Operator(n) == n.links[t];
    assert TokenOk(n.g.dir, n.g.conns[h], n.s[h], h, Operator(n));
  }

  lemma TakesIdle(n: Net, t: nat, act: Act)
    requires NetInv(n) && n.g.conns.Keys == n.s.Keys && Tokens(n) && Ready(n, Link(t, act)) && act.Take?
    ensures Waiting(n.links[t]) && Target(n.g.dir, n.links[t]) in n.s
    ensures !OwnerHas(n.s[Target(n.g.dir, n.links[t])].pc)
  {
    hide NetInv, Tokens, LinkerHas, OwnerHas;
    OperatorTokenIdle(n, t, Target(n.g.dir, n.links[t]));
  }

  lemma UnbindHas(dir: map<nat, Dir>, pc: LinkPC, h: nat)
    requires pc.LinkBoth? || pc.PostOne? || pc.PostTwo?
    requires pc.j.ToUnbind? && if pc.LinkBoth? then h == pc.j.one || h == pc.j.two else h == Receiver(pc)
    ensures LinkerHas(dir, pc, h) && Operating(pc)
  {
  }

  lemma PostsIdle(n: Net, t: nat, act: Act)
    requires NetInv(n) && n.g.conns.Keys == n.s.Keys && Tokens(n) && Ready(n, Link(t, act)) && act.Post?
    requires !PostsHeld(n, Link(t, act))
    ensures (n.links[t].PostOne? || n.links[t].PostTwo?) && Receiver(n.links[t]) in n.s
    ensures !OwnerHas(n.s[Receiver(n.links[t])].pc)
  {
    hide NetInv, Tokens, LinkerHas, OwnerHas, Ready, After, PostsHeld, Receiver, Operating, Woke, PostToken;
    PostIs(n, t, act);
    if n.links[t].j.ToUnbind? {
      UnbindHas(n.g.dir, n.links[t], Receiver(n.links[t]));
      OperatorTokenIdle(n, t, Receiver(n.links[t]));
    }
  }

  lemma ChangesIdle(n: Net, t: nat, act: Act, h: nat)
    requires NetInv(n) && n.g.conns.Keys == n.s.Keys && Tokens(n) && act.Change?
    requires t in n.links && n.links[t].LinkBoth? && (h == n.links[t].j.one || h == n.links[t].j.two)
    requires !JoinsBusy(n, Link(t, act)) && h in n.s
    ensures !OwnerHas(n.s[h].pc)
  {
    hide NetInv, Tokens, LinkerHas, OwnerHas, Operating;
    if n.links[t].j.ToUnbind? {
      UnbindHas(n.g.dir, n.links[t], h);
      OperatorTokenIdle(n, t, h);
    } else { assert !Busy(n, h); }
  }

  lemma PostTokenBusy(x: Half)
    ensures OwnerHas(PostToken(x).pc) <==> OwnerHas(x.pc)
  {
  }

  /** A step of bind or unbind touches neither the record nor the list of a busy half. */
  lemma BusyUntouched(n: Net, t: nat, act: Act, h: nat)
    requires NetInv(n) && n.g.conns.Keys == n.g.dir.Keys == n.s.Keys && Tokens(n) && Ready(n, Link(t, act))
    requires Tidy(n, Link(t, act)) && h in After(n, Link(t, act)).s && OwnerHas(After(n, Link(t, act)).s[h].pc)
    ensures var n' := After(n, Link(t, act));
      h in n.s && n'.s[h] == n.s[h] && h in n.g.conns && h in n'.g.conns && n'.g.conns[h] == n.g.conns[h]
  {
    hide NetInv, Base, Jobs, OneOperator, Supplied, Tokens, Ready, After, OwnerHas, Rebinds, PostsHeld, Steals;
    hide JoinsBusy;
    hide Receiver, GivenPC, PostToken, TakenPC, Woke, Target, Waiting, Joined, Parted, Grown, Shrunk;
    var n' := After(n, Link(t, act));
    NetCursors(n);
    if Rebinds(n, Link(t, act)) { RebindIs(n, Link(t, act)); }
    else if act.Change? {
      ChangeIs(n, t, act);
      BothJob(n, t);
      ListsChanged(n.g, n.links[t].j.one, n.links[t].j.two);
      ChangePoints(n, t, act, h);
      if h == n.links[t].j.one || h == n.links[t].j.two { ChangesIdle(n, t, act, h); }
    } else if act.Post? {
      PostIs(n, t, act);
      PostsIdle(n, t, act);
      PostTokenBusy(n.s[Receiver(n.links[t])]);
    } else if act.Take? {
      TakeIs(n, t, act);
      TakesIdle(n, t, act);
    } else { StateKept(n, t, act); }
  }

  /** A bind or unbind moves cursors only. */
  lemma ChangePoints(n: Net, t: nat, act: Act, h: nat)
    requires Ready(n, Link(t, act)) && act.Change? && h in After(n, Link(t, act)).s
    ensures h in n.s
    ensures var x, x' := n.s[h], After(n, Link(t, act)).s[h];
      x'.pc == x.pc && x'.ready == x.ready && x'.seen == x.seen
  {
    hide Joined, Parted, B.Minus;
  }

  lemma UndisturbedLink(n: Net, t: nat, act: Act)
    requires TidyInv(n) && Ready(n, Link(t, act)) && Tidy(n, Link(t, act)) && NetInv(After(n, Link(t, act)))
    ensures Undisturbed(After(n, Link(t, act)))
  {
    hide TidyInv, NetInv, Tokens, Undisturbed, Ready, After, Tidy, OwnerHas, Control, Counts, Kin;
    TidyIs(n);
    var n' := After(n, Link(t, act));
    NetInvKeys(n');
    KinLink(n, t, act);
    forall q | q in n'.s && OwnerHas(n'.s[q].pc) ensures HalfOk(n'.g, q, n'.s[q]) {
      BusyUntouched(n, t, act, q);
      BusyIs(n, q);
    }
    UndisturbedIf(n');
  }

  // ----- pairs -----

  /** What a step does to the probes of the stepping half, and to whether it is parked. */
  lemma OwnPast(d: Dir, l: seq<nat>, r: seq<nat>, x: Half, y: Half, a: Step, q: nat)
    requires Guard(l, x, y, a) && Steady(r, x) && (a.ScanEnd? ==> Control(l, x)) && q in l
    requires Own(d, l, x, y, a).ready && Past(Own(d, l, x, y, a), q)
    ensures x.ready && (Past(x, q) || (a.Miss? && x.pc.Both? && q == x.pc.m))
  {
    hide Covered;
    if a.ScanEnd? { EndSwept(d, l, x, y, a); }
  }

  lemma OwnParked(d: Dir, l: seq<nat>, r: seq<nat>, x: Half, y: Half, a: Step)
    requires Guard(l, x, y, a) && Steady(r, x) && x.pc.Park? && Own(d, l, x, y, a).ready
    ensures Own(d, l, x, y, a).pc.Park?
  {
  }

  lemma OtherPast(d: Dir, l: seq<nat>, x: Half, y: Half, a: Step)
    requires Guard(l, x, y, a)
    ensures var y' := Other(d, x, y, a); y'.ready ==> y.ready && y'.seen == y.seen && (y'.pc.Park? <==> y.pc.Park?)
    ensures a.Miss? ==> x.pc.Both? && !(x.ready && y.ready) && y == Other(d, x, y, a) && Partner(x, a) == x.pc.m
    ensures a.Miss? ==> Own(d, l, x, y, a).ready == x.ready
  {
  }

  lemma PastIs(x: Half, x': Half, q: nat)
    requires x'.seen == x.seen && (x'.pc.Park? <==> x.pc.Park?)
    ensures Past(x', q) <==> Past(x, q)
  {
  }

  /** A half of a linked pair before a step, given that it is ready and done afterwards. */
  lemma HalfPast(n: Net, a: Step, q: nat, m: nat)
    requires TidyInv(n) && TalkReady(n, a) && Linked(n.g, q, m) && q in n.s && q in Talked(n, a).s
    requires Talked(n, a).s[q].ready && Past(Talked(n, a).s[q], m)
    ensures n.s[q].ready
    ensures Past(n.s[q], m) ||
            (a.Miss? && q == a.h && m in n.s && m in Talked(n, a).s && (m == q || Talked(n, a).s[m] == n.s[m]) &&
             !(n.s[q].ready && n.s[m].ready))
    ensures n.s[q].pc.Park? ==> Talked(n, a).s[q].pc.Park?
  {
    hide TidyInv, NetInv, Tokens, Undisturbed, Pairs, TalkReady, Talked, Guard, Own, Other, Partner, Steady, Control;
    hide Past, Counts, Everyone, Base, Jobs, Supplied, OneOperator, Cursors;
    TidyIs(n);
    NetCursors(n);
    TalkEnabled(n, a);
    TalkHalves(n, a);
    var h, d, l, p := a.h, n.g.dir[a.h], n.g.conns[a.h], Partner(n.s[a.h], a);
    HalfIn(n, h);
    var r := Everyone(n.g.dir).conns[h];
    OtherPast(d, l, n.s[h], n.s[p], a);
    if q == h {
      if a.ScanEnd? { ScansBusy(n.s[h], l, n.s[p], a); BusyIs(n, h); }
      OwnPast(d, l, r, n.s[h], n.s[p], a, m);
      if n.s[h].pc.Park? { OwnParked(d, l, r, n.s[h], n.s[p], a); }
    } else if q == p {
      PastIs(n.s[q], Talked(n, a).s[q], m);
    }
  }

  lemma ScansBusy(x: Half, l: seq<nat>, y: Half, a: Step)
    requires Guard(l, x, y, a) && a.ScanEnd?
    ensures OwnerHas(x.pc)
  {
  }

  /** A pair linked before and after a step of send or receive. */
  lemma PairTalk(n: Net, a: Step, o: nat, i: nat)
    requires TidyInv(n) && TalkReady(n, a) && Linked(n.g, o, i) && Linked(n.g, i, o) && o in n.s && i in n.s
    requires o in Talked(n, a).s && i in Talked(n, a).s && BothPast(Talked(n, a).s[o], Talked(n, a).s[i], o, i)
    ensures BothPast(n.s[o], n.s[i], o, i)
    ensures n.s[o].pc.Park? && n.s[i].pc.Park? ==> Talked(n, a).s[o].pc.Park? && Talked(n, a).s[i].pc.Park?
  {
    hide TidyInv, TalkReady, Talked, Past, Linked;
    HalfPast(n, a, o, i);
    HalfPast(n, a, i, o);
  }

  lemma KinPast(s: State, s': State, h: nat)
    requires Kin(s, s') && h in s
    ensures h in s' && s'[h].ready == s[h].ready && s'[h].seen == s[h].seen && (s'[h].pc.Park? <==> s[h].pc.Park?)
  {
    assert Akin(s[h], s'[h]);
  }

  /** A step of bind or unbind leaves every half as ready, as parked and as far in its probes as it was. */
  lemma PairLink(n: Net, t: nat, act: Act, o: nat, i: nat)
    requires Ready(n, Link(t, act)) && o in n.s && i in n.s
    ensures var s' := After(n, Link(t, act)).s;
      && o in s' && i in s' && (BothPast(s'[o], s'[i], o, i) <==> BothPast(n.s[o], n.s[i], o, i))
      && (s'[o].pc.Park? <==> n.s[o].pc.Park?) && (s'[i].pc.Park? <==> n.s[i].pc.Park?)
      && s'[o].ready == n.s[o].ready && s'[i].ready == n.s[i].ready
  {
    hide Ready, After, Kin;
    KinLink(n, t, act);
    KinPast(n.s, After(n, Link(t, act)).s, o);
    KinPast(n.s, After(n, Link(t, act)).s, i);
  }

  lemma JoinedLinks(g: Graph, a: nat, b: nat, o: nat, i: nat)
    requires WellFormed(g) && a in g.conns && b in g.conns && a != b
    ensures Linked(Joined(g, a, b), o, i) <==> Linked(g, o, i) || (o == a && i == b) || (o == b && i == a)
  {
    ListsChanged(g, a, b);
  }

  /** The link that a bind makes. */
  predicate Makes(n: Net, e: Event, o: nat, i: nat) {
    e.Link? && e.act.Change? && e.t in n.links && n.links[e.t].LinkBoth? && n.links[e.t].j.ToBind? &&
    var j := n.links[e.t].j;
    o == OutEnd(n.g.dir, j) && i == InEnd(n.g.dir, j) && j.one in n.g.conns && j.two !in n.g.conns[j.one]
  }

  /** A link is new exactly when the step is the bind that makes it. */
  lemma BoundAfter(n: Net, t: nat, act: Act, o: nat, i: nat)
    requires NetInv(n) && Ready(n, Link(t, act))
    ensures Bound(After(n, Link(t, act)).g, o, i) && !Bound(n.g, o, i) ==> Makes(n, Link(t, act), o, i)
    ensures Makes(n, Link(t, act), o, i) ==> Bound(After(n, Link(t, act)).g, o, i) && !Bound(n.g, o, i)
  {
    hide NetInv, Base, Jobs, OneOperator, Supplied, Ready, After, Rebinds, Joined, Parted, Grown, Shrunk, WellFormed;
    NetCursors(n);
    BaseIs(n);
    RebindMakes(n, Link(t, act), o, i);
    if Rebinds(n, Link(t, act)) { RebindIs(n, Link(t, act)); }
    else if act.Change? {
      ChangeIs(n, t, act);
      BothJob(n, t);
      var j := n.links[t].j;
      EndsAre(n.g.dir, j);
      DirKept(n.g, j.one, j.two);
      if j.ToBind? {
        JoinedLinks(n.g, j.one, j.two, o, i);
        if Linked(n.g, j.two, j.one) { LinkEnds(n.g, j.two, j.one); }
      }
      else { LinkEnds(n.g, j.one, j.two); PartedLinks(n.g, j.one, j.two); }
    } else { GraphKept(n, t, act); }
  }

  lemma RebindMakes(n: Net, e: Event, o: nat, i: nat)
    ensures Rebinds(n, e) ==> !Makes(n, e, o, i)
  {
  }

  lemma LinkedBoth(n: Net, o: nat, i: nat)
    requires NetInv(n) && Bound(n.g, o, i)
    ensures Linked(n.g, o, i) && Linked(n.g, i, o) && o in n.s && i in n.s && o in n.g.dir && i in n.g.dir
  {
    hide NetInv, WellFormed;
    NetCursors(n);
    BaseIs(n);
    LinkEnds(n.g, o, i);
  }

  /** A linked pair that is done after a step was done before it, unless the step is the bind that links it, and two
      parked halves stay parked. */
  lemma PairBefore(n: Net, e: Event, o: nat, i: nat)
    requires TidyInv(n) && Ready(n, e) && Bound(After(n, e).g, o, i) && !Makes(n, e, o, i)
    requires o in After(n, e).s && i in After(n, e).s && BothPast(After(n, e).s[o], After(n, e).s[i], o, i)
    ensures Bound(n.g, o, i) && o in n.s && i in n.s && BothPast(n.s[o], n.s[i], o, i)
    ensures n.s[o].pc.Park? && n.s[i].pc.Park? ==> After(n, e).s[o].pc.Park? && After(n, e).s[i].pc.Park?
  {
    hide TidyInv, NetInv, Tokens, Undisturbed, Pairs, Ready, After, Bound, Makes, BothPast, Linked;
    TidyIs(n);
    match e
    case Talk(a) =>
      TalkIs(n, a);
      LinkedBoth(n, o, i);
      PairTalk(n, a, o, i);
    case Link(t, act) =>
      BoundAfter(n, t, act, o, i);
      LinkedBoth(n, o, i);
      PairLink(n, t, act, o, i);
    case Fault(_) => FaultIs(n, e); LinkedBoth(n, o, i);
  }

  lemma RaisedPark(r: seq<nat>, x: Half)
    requires Steady(r, x) && x.ready && !OwnerHas(x.pc)
    ensures x.pc.Park?
  {
  }

  /** A tidy bind joins halves that are idle or parked. */
  lemma MakesParked(n: Net, e: Event, o: nat, i: nat)
    requires TidyInv(n) && Ready(n, e) && !JoinsBusy(n, e) && Makes(n, e, o, i)
    ensures o in n.s && i in n.s && (n.s[o].ready ==> n.s[o].pc.Park?) && (n.s[i].ready ==> n.s[i].pc.Park?)
  {
    hide TidyInv, NetInv, Tokens, Undisturbed, Pairs, Ready, Steady, Counts, Everyone, OwnerHas, JoinsBusy, Base;
    hide Supplied, OneOperator, Cursors;
    TidyIs(n);
    NetCursors(n);
    BothJob(n, e.t);
    EndsAre(n.g.dir, n.links[e.t].j);
    JoinsIdle(n, e, o);
    JoinsIdle(n, e, i);
    HalfIn(n, o);
    HalfIn(n, i);
    if n.s[o].ready { RaisedPark(Everyone(n.g.dir).conns[o], n.s[o]); }
    if n.s[i].ready { RaisedPark(Everyone(n.g.dir).conns[i], n.s[i]); }
  }

  lemma JoinsIdle(n: Net, e: Event, h: nat)
    requires e.Link? && e.act.Change? && e.t in n.links && n.links[e.t].LinkBoth? && n.links[e.t].j.ToBind?
    requires !JoinsBusy(n, e) && (h == n.links[e.t].j.one || h == n.links[e.t].j.two) && h in n.s
    ensures !OwnerHas(n.s[h].pc)
  {
  }

  lemma PairsStep(n: Net, e: Event)
    requires TidyInv(n) && Ready(n, e) && Tidy(n, e)
    ensures Pairs(After(n, e))
  {
    hide TidyInv, NetInv, Tokens, Undisturbed, Ready, After, Bound, Makes, BothPast, JoinsBusy;
    TidyIs(n);
    var n' := After(n, e);
    forall o, i | Bound(n'.g, o, i) && o in n'.s && i in n'.s && BothPast(n'.s[o], n'.s[i], o, i)
      ensures n'.s[o].pc.Park? && n'.s[i].pc.Park?
    {
      if Makes(n, e, o, i) {
        MakesParked(n, e, o, i);
        ReadyBoth(n'.s[o], n'.s[i], o, i);
        PairLink(n, e.t, e.act, o, i) by { MakesLinks(n, e, o, i); }
      } else {
        PairBefore(n, e, o, i);
      }
    }
  }

  lemma ReadyBoth(x: Half, y: Half, o: nat, i: nat)
    requires BothPast(x, y, o, i)
    ensures x.ready && y.ready
  {
  }

  lemma MakesLinks(n: Net, e: Event, o: nat, i: nat)
    requires Makes(n, e, o, i)
    ensures e == Link(e.t, e.act)
  {
  }

  lemma TidyInvStep(n: Net, e: Event)
    requires TidyInv(n) && Ready(n, e) && Tidy(n, e)
    ensures TidyInv(After(n, e))
  {
    hide NetInv, Tokens, Undisturbed, Pairs, Ready, After, Steals, PostsHeld, JoinsBusy;
    NetInvStep(n, e);
    NetInvKeys(n);
    TokensKeptExactly(n, e);
    PairsStep(n, e);
    TokensFault(n, e);
    if e.Talk? { TalkIs(n, e.a); UndisturbedTalk(n, e.a); } else { UndisturbedLink(n, e.t, e.act); }
  }

  /** Main result: in a tidy run a step loses a rendezvous exactly if it is a bind of two halves that are parked and
      ready. */
  lemma LostExactly(n: Net, e: Event, o: nat, i: nat)
    requires TidyInv(n) && Ready(n, e) && Tidy(n, e) && !Lost(n, o, i)
    ensures Lost(After(n, e), o, i) <==> JoinsParked(n, e, o, i)
  {
    hide TidyInv, NetInv, Ready, After, Bound, JoinsBusy;
    TidyIs(n);
    if Lost(After(n, e), o, i) {
      if Makes(n, e, o, i) {
        MakesParked(n, e, o, i);
        PairLink(n, e.t, e.act, o, i);
      } else {
        PairBefore(n, e, o, i);
      }
    }
    if JoinsParked(n, e, o, i) {
      BoundAfter(n, e.t, e.act, o, i);
      PairLink(n, e.t, e.act, o, i);
    }
  }

  // ----- every tidy run -----

  lemma InitTidy(n: Net)
    requires NetInit(n)
    ensures TidyInv(n) && (forall o, i :: !Lost(n, o, i))
  {
    hide NetInit, NetInv, Tokens;
    NetInvInit(n);
    InitTokens(n);
    NetInvKeys(n);
    forall h | h in n.s ensures n.s[h].pc == Idle && !n.s[h].ready { InitHalf(n, h); }
  }

  lemma {:induction false} TidyRunInv(b: seq<Net>, events: seq<Event>, k: nat)
    requires TidyRun(b, events) && k < |b|
    ensures TidyInv(b[k])
  {
    hide TidyInv, Ready, After, NetInit, Tidy;
    if k == 0 {
      InitTidy(b[0]);
    } else {
      TidyRunInv(b, events, k - 1);
      assert Goes(b[k - 1], events[k - 1], b[k]);
      TidyInvStep(b[k - 1], events[k - 1]);
    }
  }

  /** A linked pair parked and ready at the end of a tidy run was joined in that condition, and has been in it since. */
  lemma {:induction false} LostSince(b: seq<Net>, events: seq<Event>, o: nat, i: nat, k: nat) returns (j: nat)
    requires TidyRun(b, events) && k < |b| && Lost(b[k], o, i)
    ensures j < k && JoinsParked(b[j], events[j], o, i) && forall q | j < q <= k :: Lost(b[q], o, i)
  {
    hide TidyInv, Ready, After, NetInit, Tidy, Lost, JoinsParked;
    if k == 0 {
      InitTidy(b[0]);
      assert false;
    } else if Lost(b[k - 1], o, i) {
      j := LostSince(b, events, o, i, k - 1);
    } else {
      TidyRunInv(b, events, k - 1);
      assert Goes(b[k - 1], events[k - 1], b[k]) && Tidy(b[k - 1], events[k - 1]);
      LostExactly(b[k - 1], events[k - 1], o, i);
      j := k - 1;
    }
  }

  // ----- a lost rendezvous in every graph -----

  /** Half h announces itself, finds nobody ready, and parks. */
  lemma ParksReady(g: Graph, s: State, h: nat, v: Payload) returns (s': State)
    requires Reachable(g, s) && Calm(s, h) && h in s && s[h].pc == Idle && h in g.conns && h in g.dir
    requires g.conns[h] != []
    requires forall m | Linked(g, h, m) && m in s :: m != h && !s[m].ready
    ensures Reachable(g, s') && Leads(g, s, s', {h}) && h in s' && s'[h].pc == Park(Testing) && s'[h].ready
  {
    hide Reachable, Leads, Calm, Linked;
    var s1 := Opens(g, s, h, v);
    LeadsKeys(g, s, s1, {h});
    StillCalm(g, s, s1, h);
    var s2 := ScansOut(g, s1, h);
    LeadsKeys(g, s1, s2, {h});
    s' := EndsScan(g, s2, h);
    LeadsKeys(g, s2, s', {h});
    LeadsTrans(g, s, s1, s2, {h});
    LeadsTrans(g, s, s2, s', {h});
  }

  lemma StartCalm(s: State, h: nat)
    requires forall q | q in s && q != h :: s[q].pc == Idle || s[q].pc.Park?
    ensures Calm(s, h)
    ensures h in s && (s[h].pc == Idle || s[h].pc.Park?) ==> AllOutside(s)
  {
  }

  lemma Strangers(g: Graph, o: nat, i: nat, m: nat)
    requires WellFormed(g) && Linked(g, o, m)
    ensures m != o && (m == i ==> Linked(g, i, o))
  {
  }

  /** Two unlinked halves, each linked to others, both parked and ready. */
  lemma BothPark(g: Graph, o: nat, i: nat) returns (s: State)
    requires WellFormed(g) && o in g.dir && i in g.dir && o in g.conns && i in g.conns && o != i
    requires g.conns[o] != [] && g.conns[i] != [] && !Linked(g, o, i)
    ensures Reachable(g, s) && AllOutside(s) && o in s && i in s
    ensures s[o].pc.Park? && s[o].ready && s[i].pc.Park? && s[i].ready
  {
    hide *;
    var s0 := Start0(g);
    StartCalm(s0, o);
    forall m | Linked(g, o, m) && m in s0 ensures m != o && !s0[m].ready { Strangers(g, o, i, m); }
    var s1 := ParksReady(g, s0, o, 0);
    LeadsKeys(g, s0, s1, {o});
    StartCalm(s1, i);
    forall m | Linked(g, i, m) && m in s1 ensures m != i && !s1[m].ready { Strangers(g, i, o, m); }
    s := ParksReady(g, s1, i, 0);
    LeadsKeys(g, s1, s, {i});
    StartCalm(s, o);
  }

  lemma JoinLoses(g: Graph, size: map<nat, nat>, s: State, o: nat, i: nat)
    requires WellFormed(g) && o in g.conns && i in g.conns && o in s && i in s && o in g.dir && i in g.dir
    requires g.dir[o] == Out && g.dir[i] == In && !Linked(g, o, i)
    requires s[o].pc.Park? && s[o].ready && s[i].pc.Park? && s[i].ready
    ensures var n, e := One(g, size, s, Some(9), LinkBoth(ToBind(o, i))), Link(9, Change);
      Ready(n, e) && JoinsParked(n, e, o, i) && Lost(After(n, e), o, i)
  {
    hide WellFormed, Grown;
    ListsChanged(g, o, i);
    CursorOnly(g.conns[o], s[o], i);
    CursorOnly(g.conns[i], s[i], o);
  }

  /** In any graph, for any two unlinked halves of opposite direction that each have a connection: a run whose last
      step links them while both are parked and ready. */
  lemma RendezvousCanBeLost(g: Graph, size: map<nat, nat>, o: nat, i: nat) returns (n: Net, e: Event)
    requires WellFormed(g) && o in g.dir && i in g.dir && o in g.conns && i in g.conns
    requires g.dir[o] == Out && g.dir[i] == In && o in size && i in size && size[o] == size[i]
    requires g.conns[o] != [] && g.conns[i] != [] && !Linked(g, o, i)
    ensures Possible(n) && n.g == g && Ready(n, e) && JoinsParked(n, e, o, i) && Lost(After(n, e), o, i)
  {
    hide Possible, Reachable, Ready, After, JoinsParked, Lost, WellFormed, AllOutside, Linked;
    var s := BothPark(g, o, i);
    FixedPossible(g, size, s);
    n := BindLocks(g, size, s, o, i);
    JoinLoses(g, size, s, o, i);
    e := Link(9, Change);
  }
}
