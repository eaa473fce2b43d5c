/**
 The conns_sem tokens as locks: had by one thread at a time, which is what keeps unbind away from a half in the
 middle of an operation.  Exactly two kinds of step break this; a run without them never finds a list emptied in
 mid-scan.
 */
module LinkingTokens {
  import opened Rendezvous
  import opened RendezvousSafety
  import opened RendezvousProgress
  import opened Wrappers
  import opened Linking
  import opened LinkingSafety
  import B = Binding

  /** The token of half h with list l, owner x and operator pc: it is there for at most one of them, only a
      connected half's owner has it, and a woken thread finds it. */
  predicate TokenOk(dir: map<nat, Dir>, l: seq<nat>, x: Half, h: nat, pc: LinkPC) {
    && !(OwnerHas(x.pc) && LinkerHas(dir, pc, h))
    && (x.token ==> !OwnerHas(x.pc) && !LinkerHas(dir, pc, h))
    && (x.token || OwnerHas(x.pc) ==> l != [])
    && (x.pc == Start(Woken) || WaitsOn(dir, pc, Woken, h) ==> x.token)
    && !(x.pc == Start(Woken) && WaitsOn(dir, pc, Woken, h))
  }

  ghost predicate Tokens(n: Net)
    requires n.g.conns.Keys == n.s.Keys
  {
    forall h | h in n.s :: TokenOk(n.g.dir, n.g.conns[h], n.s[h], h, Operator(n))
  }

  // ----- a step of send or receive -----

  lemma TokenOwn(d: Dir, l: seq<nat>, r: seq<nat>, x: Half, y: Half, a: Step, dir: map<nat, Dir>, pc: LinkPC)
    requires Guard(l, x, y, a) && Steady(r, x) && TokenOk(dir, l, x, a.h, pc)
    ensures var pc' := if a.ScanEnd? || a.GiveBack? then Woke(dir, pc, a.h) else pc;
      TokenOk(dir, l, Own(d, l, x, y, a), a.h, pc')
      <==> !(a.TokenTake? && x.pc == Start(Testing) && WaitsOn(dir, pc, Woken, a.h))
  {
    hide Guard, Own, Steady, Woke, LinkerHas, Owes, WaitsOn, OwnerHas;
    OwnToken(d, l, r, x, y, a);
    WokeToken(dir, pc, a.h, a.h);
  }

  lemma TokenAside(dir: map<nat, Dir>, l: seq<nat>, x: Half, x': Half, h: nat, pc: LinkPC, z: nat)
    requires TokenOk(dir, l, x, h, pc) && h != z && x'.token == x.token && (OwnerHas(x'.pc) <==> OwnerHas(x.pc))
    requires x'.pc == x.pc || (!x'.pc.Start? && !x.pc.Start?)
    ensures TokenOk(dir, l, x', h, pc) && TokenOk(dir, l, x', h, Woke(dir, pc, z))
  {
    hide Woke, LinkerHas, Owes, WaitsOn, OwnerHas;
    WokeToken(dir, pc, z, h);
  }

  lemma StealsTalk(n: Net, a: Step)
    requires TalkReady(n, a) && OneOperator(n)
    ensures Steals(n, Talk(a)) <==>
              a.TokenTake? && n.s[a.h].pc == Start(Testing) && WaitsOn(n.g.dir, Operator(n), Woken, a.h)
  {
    if t :| t in n.links && WaitsOn(n.g.dir, n.links[t], Woken, a.h) {
      assert Operating(n.links[t]);
    }
  }

  lemma TokensTalk(n: Net, a: Step)
    requires Base(n) && OneOperator(n) && Tokens(n) && TalkReady(n, a)
    ensures Talked(n, a).s.Keys == n.s.Keys
    ensures Tokens(Talked(n, a)) <==> !Steals(n, Talk(a))
  {
    hide Operator, Base, OneOperator, Steals, Steady, Counts, TokenOk, Guard, Own, Other, Partner, Woke, WaitsOn;
    hide OwnerHas, Everyone, TalkReady, Talked, Enabled, Apply;
    var n', k := Talked(n, a), Everyone(n.g.dir);
    EveryoneKeys(n);
    TalkEnabled(n, a);
    TalkHalves(n, a);
    OperatorTalk(n, a);
    StealsTalk(n, a);
    var h, d, l, m := a.h, n.g.dir[a.h], n.g.conns[a.h], Partner(n.s[a.h], a);
    HalfIn(n, h);
    TokenOwn(d, l, k.conns[h], n.s[h], n.s[m], a, n.g.dir, Operator(n));
    OtherToken(d, l, n.s[h], n.s[m], a);
    forall q | q in n.s && q != h ensures TokenOk(n.g.dir, n.g.conns[q], n'.s[q], q, Operator(n')) {
      TokenAside(n.g.dir, n.g.conns[q], n.s[q], n'.s[q], q, Operator(n), h);
    }
  }

  // ----- a step of bind or unbind -----

  lemma TokenQuiet(dir: map<nat, Dir>, l: seq<nat>, x: Half, h: nat, pc: LinkPC, pc': LinkPC)
    requires TokenOk(dir, l, x, h, pc) && (LinkerHas(dir, pc', h) <==> LinkerHas(dir, pc, h))
    requires !WaitsOn(dir, pc', Woken, h)
    ensures TokenOk(dir, l, x, h, pc')
  {
  }

  lemma TokensQuiet(n: Net, t: nat, act: Act)
    requires Base(n) && OneOperator(n) && Tokens(n) && Ready(n, Link(t, act))
    requires !act.Take? && !act.Change? && !act.Post?
    ensures var n' := After(n, Link(t, act)); n'.g == n.g && n'.s == n.s && Tokens(n')
  {
    hide Base, OneOperator, Operator, Ready, After, TokenOk, LinkerHas, Owes, WaitsOn;
    var n' := After(n, Link(t, act));
    OperatorLink(n, t, act);
    ReturnFrom(n, t, act);
    StateKept(n, t, act);
    if !act.Call? {
      QuietMove(n, t, act);
      forall h | h in n.s ensures TokenOk(n.g.dir, n.g.conns[h], n.s[h], h, Operator(n')) {
        AwayHas(n.g.dir, h);
        if act.Enter? { WantHas(n.g.dir, n.links[t], h); }
        TokenQuiet(n.g.dir, n.g.conns[h], n.s[h], h, Operator(n), Operator(n'));
      }
    }
  }

  lemma TokenTaken(dir: map<nat, Dir>, l: seq<nat>, x: Half, h: nat, pc: LinkPC)
    requires TokenOk(dir, l, x, h, pc) && Waiting(pc) && pc.j.ToUnbind? && Ends(dir, pc.j) && pc.w != Asleep
    requires h == Target(dir, pc) && pc.w == Testing ==> x.token
    ensures var x' := if h == Target(dir, pc) then x.(token := false) else x;
      TokenOk(dir, l, x', h, TakenPC(pc)) <==> !(h == Target(dir, pc) && pc.w == Testing && x.pc == Start(Woken))
  {
    EndsAre(dir, pc.j);
  }

  lemma TokensTake(n: Net, t: nat, act: Act)
    requires Base(n) && OneOperator(n) && Jobs(n) && Tokens(n) && Ready(n, Link(t, act)) && act.Take?
    ensures var n' := After(n, Link(t, act)); n'.g == n.g && n'.s.Keys == n.s.Keys
    ensures Tokens(After(n, Link(t, act))) <==> !Steals(n, Link(t, act))
  {
    hide Base, OneOperator, Jobs, Operator, Ready, After, TokenOk, Steals, Target, Waiting, TakenPC;
    var n' := After(n, Link(t, act));
    OperatorLink(n, t, act);
    TakeIs(n, t, act);
    WaitJob(n, t);
    TakenNotLeft(n.links[t]);
    assert Operator(n') == TakenPC(n.links[t]);
    var z := Target(n.g.dir, n.links[t]);
    forall h | h in n.s
      ensures TokenOk(n.g.dir, n.g.conns[h], n'.s[h], h, Operator(n')) <==> !(h == z && Steals(n, Link(t, act)))
    {
      TokenTaken(n.g.dir, n.g.conns[h], n.s[h], h, n.links[t]);
    }
  }

  lemma TokenChanged(dir: map<nat, Dir>, l: seq<nat>, x: Half, h: nat, j: Job, l': seq<nat>, x': Half)
    requires TokenOk(dir, l, x, h, LinkBoth(j)) && x'.token == x.token && x'.pc == x.pc
    requires if h == j.one || h == j.two then j.ToBind? ==> l' != [] else l' == l
    ensures TokenOk(dir, l', x', h, PostOne(j))
  {
  }

  lemma TokensChange(n: Net, t: nat, act: Act)
    requires Base(n) && OneOperator(n) && Jobs(n) && Tokens(n) && Ready(n, Link(t, act)) && act.Change?
    requires !Rebinds(n, Link(t, act))
    ensures var n' := After(n, Link(t, act)); n'.g.conns.Keys == n'.s.Keys && Tokens(n')
  {
    hide Base, OneOperator, Jobs, Operator, Ready, After, TokenOk, Rebinds, Joined, Parted, Grown, Shrunk, B.Minus;
    var n' := After(n, Link(t, act));
    OperatorLink(n, t, act);
    ChangeIs(n, t, act);
    BothJob(n, t);
    var j := n.links[t].j;
    ListsChanged(n.g, j.one, j.two);
    forall h | h in n'.s ensures TokenOk(n'.g.dir, n'.g.conns[h], n'.s[h], h, Operator(n')) {
      CursorOnly(n.g.conns[h], n.s[h], j.one);
      CursorOnly(n.g.conns[h], n.s[h], j.two);
      TokenChanged(n.g.dir, n.g.conns[h], n.s[h], h, j, n'.g.conns[h], n'.s[h]);
    }
  }

  lemma TokensRebind(n: Net, e: Event)
    requires Base(n) && OneOperator(n) && Tokens(n) && Ready(n, e) && Rebinds(n, e)
    ensures After(n, e).g == n.g && After(n, e).s == n.s && Tokens(After(n, e))
  {
    hide Base, OneOperator, Operator, Ready, After, Rebinds, TokenOk, LinkerHas, Owes, WaitsOn;
    var n' := After(n, e);
    RebindIs(n, e);
    OperatorLink(n, e.t, e.act);
    forall h | h in n.s ensures TokenOk(n.g.dir, n.g.conns[h], n.s[h], h, Operator(n')) {
      AwayHas(n.g.dir, h);
      BothHas(n.g.dir, n.links[e.t], h);
      TokenQuiet(n.g.dir, n.g.conns[h], n.s[h], h, Operator(n), Away);
    }
  }

  lemma TokenGiven(dir: map<nat, Dir>, l: seq<nat>, x: Half, h: nat, pc: LinkPC)
    requires TokenOk(dir, l, x, h, pc) && (pc.PostOne? || pc.PostTwo?) && pc.j.one != pc.j.two
    requires pc.j.ToBind? && h == Receiver(pc) ==> l != []
    ensures var x' := if h == Receiver(pc) && (pc.j.ToBind? || l != []) then PostToken(x) else x;
      TokenOk(dir, l, x', h, GivenPC(pc)) <==> !(pc.j.ToBind? && h == Receiver(pc) && OwnerHas(x.pc))
  {
  }

  lemma PostConnected(g: Graph, pc: LinkPC)
    requires WellFormed(g) && (pc.PostOne? || pc.PostTwo?) && pc.j.ToBind? && Linked(g, pc.j.one, pc.j.two)
    ensures Receiver(pc) in g.conns && g.conns[Receiver(pc)] != []
  {
    LinkEnds(g, pc.j.one, pc.j.two);
  }

  lemma TokensPost(n: Net, t: nat, act: Act)
    requires Base(n) && OneOperator(n) && Jobs(n) && Tokens(n) && Ready(n, Link(t, act)) && act.Post?
    ensures var n' := After(n, Link(t, act)); n'.g == n.g && n'.s.Keys == n.s.Keys
    ensures Tokens(After(n, Link(t, act))) <==> !PostsHeld(n, Link(t, act))
  {
    hide Base, OneOperator, Jobs, Operator, Ready, After, TokenOk, PostsHeld, Receiver, GivenPC, PostToken, Woke;
    hide OwnerHas, WellFormed, Ends, Linked;
    var n' := After(n, Link(t, act));
    BaseIs(n);
    OperatorLink(n, t, act);
    PostIs(n, t, act);
    PostJob(n, t);
    var pc := n.links[t];
    GivenNotLeft(pc);
    if pc.j.ToBind? { PostConnected(n.g, pc); }
    forall h | h in n.s
      ensures TokenOk(n.g.dir, n.g.conns[h], n'.s[h], h, Operator(n')) <==>
              !(h == Receiver(pc) && PostsHeld(n, Link(t, act)))
    {
      TokenGiven(n.g.dir, n.g.conns[h], n.s[h], h, pc);
    }
  }

  // ----- every step, every orderly run -----

  lemma BusyConnected(n: Net, h: nat)
    requires n.g.conns.Keys == n.s.Keys && Tokens(n) && Busy(n, h)
    ensures n.g.conns[h] != []
  {
    assert TokenOk(n.g.dir, n.g.conns[h], n.s[h], h, Operator(n));
  }

  lemma EmptiedBusy(n: Net, h: nat)
    requires Emptied(n, h)
    ensures Busy(n, h) && h in n.g.conns && n.g.conns[h] == []
  {
  }

  lemma TokensFault(n: Net, e: Event)
    requires NetInv(n) && Tokens(n) && Ready(n, e)
    ensures !e.Fault?
  {
    hide NetInv, Tokens, Emptied, Busy;
    NetInvKeys(n);
    if e.Fault? {
      EmptiedBusy(n, e.h);
      BusyConnected(n, e.h);
    }
  }

  lemma WhoBreaks(n: Net, e: Event)
    ensures PostsHeld(n, e) ==> e.Link? && e.act.Post?
    ensures e.Link? && Steals(n, e) ==> e.act.Take?
    ensures Rebinds(n, e) ==> e.Link? && e.act.Change?
  {
  }

  /** The exclusion of the tokens survives a step exactly when the step neither takes a token promised to a woken
      thread nor posts one that is held. */
  lemma TokensKeptExactly(n: Net, e: Event)
    requires NetInv(n) && Tokens(n) && Ready(n, e)
    ensures After(n, e).g.conns.Keys == After(n, e).s.Keys
    ensures Tokens(After(n, e)) <==> !Steals(n, e) && !PostsHeld(n, e)
  {
    hide Base, OneOperator, Jobs, Supplied, Tokens, Apart, Ready, After, Rebinds, Steals, PostsHeld;
    BaseIs(n);
    WhoBreaks(n, e);
    TokensFault(n, e);
    if e.Talk? { TalkIs(n, e.a); TokensTalk(n, e.a); }
    else if Rebinds(n, e) { TokensRebind(n, e); }
    else if e.act.Take? { TokensTake(n, e.t, e.act); }
    else if e.act.Post? { TokensPost(n, e.t, e.act); }
    else if e.act.Change? { TokensChange(n, e.t, e.act); }
    else { TokensQuiet(n, e.t, e.act); }
  }

  lemma FreshToken(dir: map<nat, Dir>, l: seq<nat>, h: nat, c: nat)
    ensures TokenOk(dir, l, Fresh(|l|).(cursor := c), h, Away)
  {
  }

  lemma InitTokens(n: Net)
    requires NetInit(n)
    ensures n.g.conns.Keys == n.s.Keys && Tokens(n)
  {
    hide NetInit, Init, WellFormed, OneOperator, Jobs, Apart, Operator, TokenOk;
    InitKeys(n);
    InitLinks(n);
    forall h | h in n.s ensures TokenOk(n.g.dir, n.g.conns[h], n.s[h], h, Operator(n)) {
      InitHalf(n, h);
      FreshToken(n.g.dir, n.g.conns[h], h, n.s[h].cursor);
    }
  }

  lemma Crashes(n: Net, e: Event)
    requires Ready(n, e) && !e.Fault?
    ensures !After(n, e).crashed
  {
    hide Woke;
  }

  lemma {:induction false} OrderlyTokens(b: seq<Net>, events: seq<Event>, k: nat)
    requires NetRun(b, events) && NetInit(b[0]) && k < |b|
    requires forall i | 0 <= i < |events| :: Orderly(b[i], events[i])
    ensures b[k].g.conns.Keys == b[k].s.Keys && Tokens(b[k]) && !b[k].crashed
  {
    hide NetInv, Ready, After, NetInit, Steals, PostsHeld, Tokens;
    if k == 0 {
      InitTokens(b[0]);
      InitRuns(b[0]);
    } else {
      OrderlyTokens(b, events, k - 1);
      NetRunInv(b, events, k - 1);
      assert Goes(b[k - 1], events[k - 1], b[k]) && Orderly(b[k - 1], events[k - 1]);
      TokensKeptExactly(b[k - 1], events[k - 1]);
      TokensFault(b[k - 1], events[k - 1]);
      Crashes(b[k - 1], events[k - 1]);
    }
  }

  lemma InitRuns(n: Net)
    requires NetInit(n)
    ensures !n.crashed
  {
  }

  lemma AttainedTokens(n: Net)
    requires Attained(n)
    ensures NetInv(n) && n.g.conns.Keys == n.s.Keys && Tokens(n) && !n.crashed
  {
    hide NetInv, NetInit, Orderly, Tokens;
    var b, events :| OrderlyBy(b, events, n);
    NetRunInv(b, events, |events|);
    OrderlyTokens(b, events, |events|);
  }

  lemma NetInvKeys(n: Net)
    requires NetInv(n)
    ensures n.g.conns.Keys == n.g.dir.Keys == n.s.Keys && OneOperator(n)
  {
    hide OneOperator, Jobs, Supplied, Apart;
  }

  /** In every state of every run the token of a connected half is there, had or owed. */
  lemma TokenSomewhere(n: Net, h: nat)
    requires Possible(n) && h in n.s && h in n.g.conns && n.g.conns[h] != []
    ensures n.s[h].token || Busy(n, h) ||
            exists t :: t in n.links && (LinkerHas(n.g.dir, n.links[t], h) || Owes(n.links[t], h))
  {
    hide Possible, Base, Jobs, Apart, Everyone, OneOperator;
    PossibleInv(n);
    BaseIs(n);
    EveryoneIs(n.g.dir);
    assert SupplyOk(n.g.dir, n.g.conns[h], Everyone(n.g.dir).conns[h], n.s[h], h, Operator(n));
    AwayHas(n.g.dir, h);
  }

  /** In every state of an orderly run a conns_sem token is with one thread at most, and is there only when nobody
      has it. */
  lemma TokenExclusive(n: Net, h: nat)
    requires Attained(n) && h in n.s && h in n.g.conns
    ensures Busy(n, h) ==> !n.s[h].token && forall t | t in n.links :: !LinkerHas(n.g.dir, n.links[t], h)
    ensures forall t, u | t in n.links && u in n.links && LinkerHas(n.g.dir, n.links[t], h) ::
              !n.s[h].token && (LinkerHas(n.g.dir, n.links[u], h) ==> t == u)
  {
    hide Attained, NetInv;
    AttainedTokens(n);
    NetInvKeys(n);
    assert TokenOk(n.g.dir, n.g.conns[h], n.s[h], h, Operator(n));
    forall t | t in n.links && LinkerHas(n.g.dir, n.links[t], h) ensures n.op == Some(t) {
      assert Operating(n.links[t]);
    }
  }

  /** So no orderly run dies of a list emptied under a scan, and none is about to. */
  lemma OrderlyNeverCrashes(n: Net, h: nat)
    requires Attained(n)
    ensures !n.crashed && !Ready(n, Fault(h))
  {
    hide Attained, Ready, NetInv;
    AttainedTokens(n);
    if Ready(n, Fault(h)) { TokensFault(n, Fault(h)); }
  }
}
