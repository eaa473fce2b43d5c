/**
 The conns_sem token does not exclude: a run, with one sender half, one receiver half and one thread that
 binds and unbinds, after which the receiver and that thread have the same token.  Going on, the unbind empties
 the receiver's list in the middle of its scan, and the process dies.
 */
module LinkingRace {
  import opened Rendezvous
  import opened Wrappers
  import opened Linking
  import opened LinkingSafety
  import opened LinkingRuns

  /** Both thread of half h and thread t have the token of half h. */
  predicate Shared(n: Net, h: nat, t: nat) {
    Busy(n, h) && t in n.links && LinkerHas(n.g.dir, n.links[t], h)
  }

  lemma TakeReady(n: Net, t: nat, h: nat)
    requires !n.crashed && t in n.links && WaitsOn(n.g.dir, n.links[t], Woken, h) && h in n.s && Busy(n, h)
    ensures Ready(n, Link(t, Act.Take)) && Busy(After(n, Link(t, Act.Take)), h)
    ensures t in After(n, Link(t, Act.Take)).links && After(n, Link(t, Act.Take)).links[t] == TakenPC(n.links[t])
    ensures After(n, Link(t, Act.Take)).g == n.g
  {
  }

  lemma TakenHas(dir: map<nat, Dir>, pc: LinkPC)
    requires Waiting(pc) && pc.j.ToUnbind? && Ends(dir, pc.j)
    ensures LinkerHas(dir, TakenPC(pc), Target(dir, pc))
  {
    EndsAre(dir, pc.j);
  }

  lemma OwnerSteals(n: Net, a: Step)
    requires Ready(n, Talk(a)) && Steals(n, Talk(a))
    ensures var n' := After(n, Talk(a));
      n'.g == n.g && n'.links == n.links && a.h in n'.s && Busy(n', a.h) && !n'.crashed
    ensures exists t :: t in n.links && WaitsOn(n.g.dir, n.links[t], Woken, a.h)
  {
    hide WaitsOn, Free;
  }

  lemma OwnerTakes(n: Net, h: nat)
    requires h in n.s && n.s[h].pc == Start(Woken) && n.g.conns.Keys == n.g.dir.Keys == n.s.Keys && !n.crashed
    ensures Ready(n, Talk(TokenTake(h))) && var n' := After(n, Talk(TokenTake(h)));
            n'.g == n.g && n'.links == n.links && Busy(n', h)
  {
  }

  lemma LinkerSteals(n: Net, t: nat, act: Act)
    requires Ready(n, Link(t, act)) && Steals(n, Link(t, act))
    ensures Waiting(n.links[t])
    ensures var n', h := After(n, Link(t, act)), Target(n.g.dir, n.links[t]);
      && n'.g == n.g && n'.s.Keys == n.s.Keys && t in n'.links && n'.links[t] == TakenPC(n.links[t])
      && h in n'.s && n'.s[h].pc == Start(Woken) && !n'.crashed
  {
  }

  lemma FaultsNever(n: Net, e: Event)
    ensures Steals(n, e) ==> !e.Fault?
  {
  }

  lemma WaitsOnIs(dir: map<nat, Dir>, pc: LinkPC, w: Wait, h: nat)
    requires WaitsOn(dir, pc, w, h)
    ensures Waiting(pc) && Target(dir, pc) == h
  {
  }

  /** A token taken from under a woken thread is had by two as soon as that thread goes on. */
  lemma StolenIsShared(n: Net, e: Event) returns (e': Event, h: nat, t: nat)
    requires NetInv(n) && Ready(n, e) && Steals(n, e)
    ensures Ready(After(n, e), e') && Shared(After(After(n, e), e'), h, t)
  {
    hide Base, Jobs, Apart, OneOperator, Supplied, Ready, After, Steals, WaitsOn, Waiting, Target, LinkerHas, TakenPC;
    hide Busy, Ends;
    BaseIs(n);
    match e
    case Talk(a) =>
      OwnerSteals(n, a);
      h := a.h;
      t :| t in n.links && WaitsOn(n.g.dir, n.links[t], Woken, h);
      WaitsOnIs(n.g.dir, n.links[t], Woken, h);
      WaitJob(n, t);
      TakenHas(n.g.dir, n.links[t]);
      TakeReady(After(n, e), t, h);
      e' := Link(t, Act.Take);
    case Link(u, act) =>
      LinkerSteals(n, u, act);
      ReturnFrom(n, u, act);
      WaitJob(n, u);
      TakenHas(n.g.dir, n.links[u]);
      t, h := u, Target(n.g.dir, n.links[u]);
      OwnerTakes(After(n, e), h);
      e' := Talk(TokenTake(h));
    case Fault(_) => assert false by { FaultsNever(n, e); }
  }

  // ----- the run: half 0 receives, half 1 sends, thread 9 binds and unbinds -----

  /** Half 0 is a receiver with list l and record x, half 1 a sender with list m and record y, thread 9 stands
      at pc. */
  function Two(l: seq<nat>, x: Half, m: seq<nat>, y: Half, op: Option<nat>, pc: LinkPC): Net {
    One(Graph(map[0 := In, 1 := Out], map[0 := l, 1 := m]), map[0 := 8, 1 := 8], map[0 := x, 1 := y], op, pc)
  }

  lemma Starts()
    ensures Possible(Two([], Fresh(0), [], Fresh(0), None, Away))
  {
    hide Possible;
    var g := Graph(map[0 := In, 1 := Out], map[0 := [], 1 := []]);
    var s := map[0 := Fresh(0), 1 := Fresh(0)];
    forall h | h in g.dir ensures s[h] == Fresh(|g.conns[h]|).(cursor := 0) {
    }
    FixedStart(g, map[0 := 8, 1 := 8], s);
  }

  /** A step of half 0 while half 1 is idle and thread 9 is in no mutex. */
  lemma Receives(l: seq<nat>, x: Half, m: seq<nat>, y: Half, op: Option<nat>, pc: LinkPC, a: Step)
    requires Possible(Two(l, x, m, y, op, pc)) && a.h == 0 && y.pc == Idle
    requires !LinkerInside(map[0 := In, 1 := Out], pc, 0)
    requires a.Begin? || a.TokenSleep? || a.TokenTake? || a.Raise? || a.Measure?
    requires Guard(l, x, x, a) && (a.Raise? ==> x.pc == Announce)
    ensures Possible(Two(l, Own(In, l, x, x, a), m, y, op, pc))
  {
    hide Possible, Guard, Own, LinkerInside, Ready, After;
    var n := Two(l, x, m, y, op, pc);
    ReceiveReady(l, x, m, y, op, pc, a);
    ReceiveEffect(l, x, m, y, op, pc, a);
    PossibleStep(n, Talk(a), Two(l, Own(In, l, x, x, a), m, y, op, pc));
  }

  lemma ReceiveReady(l: seq<nat>, x: Half, m: seq<nat>, y: Half, op: Option<nat>, pc: LinkPC, a: Step)
    requires a.h == 0 && y.pc == Idle && !LinkerInside(map[0 := In, 1 := Out], pc, 0)
    requires a.Begin? || a.TokenSleep? || a.TokenTake? || a.Raise? || a.Measure?
    requires Guard(l, x, x, a) && (a.Raise? ==> x.pc == Announce)
    ensures Ready(Two(l, x, m, y, op, pc), Talk(a))
  {
    hide Guard, LinkerInside, Free;
    if a.Raise? { ReceiverFree(Two(l, x, m, y, op, pc), x); }
  }

  lemma ReceiveEffect(l: seq<nat>, x: Half, m: seq<nat>, y: Half, op: Option<nat>, pc: LinkPC, a: Step)
    requires a.h == 0 && Ready(Two(l, x, m, y, op, pc), Talk(a)) && Guard(l, x, x, a)
    requires a.Begin? || a.TokenSleep? || a.TokenTake? || a.Raise? || a.Measure?
    ensures After(Two(l, x, m, y, op, pc), Talk(a)) == Two(l, Own(In, l, x, x, a), m, y, op, pc)
  {
    hide Guard, Own, Other, LinkerInside, Free, Unlinked, WokeAll;
    var n := Two(l, x, m, y, op, pc);
    TalkIs(n, a);
    TalkHalves(n, a);
    assert Talked(n, a).s == map[0 := Own(In, l, x, x, a), 1 := y];
  }

  lemma ReceiverFree(n: Net, x: Half)
    requires n.s.Keys == {0, 1} && n.s[0] == x && x.pc == Announce && n.s[1].pc == Idle
    ensures Free(n.g, n.s, 0)
  {
  }

  /** A step of thread 9, from program point pc to pc'. */
  lemma Links(n: Net, act: Act, n': Net)
    requires Possible(n) && Ready(n, Link(9, act)) && n' == After(n, Link(9, act))
    ensures Possible(n')
  {
    hide Possible, Ready, After;
    PossibleStep(n, Link(9, act), n');
  }

  /** Nobody but thread 9 is inside a mutex. */
  predicate Quiescent(x: Half, y: Half) {
    (x.pc.Start? || x.pc.Scan?) && y.pc == Idle
  }

  lemma QuiescentClear(l: seq<nat>, x: Half, m: seq<nat>, y: Half, op: Option<nat>, pc: LinkPC)
    requires Quiescent(x, y)
    ensures pc.LinkIn? ==> Clear(Two(l, x, m, y, op, pc), 0)
    ensures pc.LinkOut? && pc.j.one == 0 && pc.j.two == 1 ==> Clear(Two(l, x, m, y, op, pc), 1)
  {
  }

  /** From the lock of the first mutex to that of the second. */
  lemma LocksBoth(l: seq<nat>, x: Half, m: seq<nat>, y: Half, j: Job)
    requires Possible(Two(l, x, m, y, Some(9), LinkIn(j))) && Quiescent(x, y) && j.one == 0 && j.two == 1
    ensures Possible(Two(l, x, m, y, Some(9), LinkBoth(j)))
  {
    hide Possible, Clear;
    QuiescentClear(l, x, m, y, Some(9), LinkIn(j));
    Links(Two(l, x, m, y, Some(9), LinkIn(j)), LockFirst, Two(l, x, m, y, Some(9), LinkOut(j)));
    QuiescentClear(l, x, m, y, Some(9), LinkOut(j));
    Links(Two(l, x, m, y, Some(9), LinkOut(j)), LockSecond, Two(l, x, m, y, Some(9), LinkBoth(j)));
  }

  lemma Joins(x: Half, y: Half)
    ensures var n := Two([], x, [], y, Some(9), LinkBoth(ToBind(0, 1)));
      Ready(n, Link(9, Change)) &&
      After(n, Link(9, Change)) == Two([1], Grown([], x), [0], Grown([], y), Some(9), PostOne(ToBind(0, 1)))
  {
    hide Grown;
    assert [1] + [] == [1] && [0] + [] == [0];
    var c := map[0 := [], 1 := []];
    assert c[0 := [1]][1 := [0]] == map[0 := [1], 1 := [0]];
  }

  lemma Enters(x: Half, y: Half)
    requires Possible(Two([], x, [], y, None, Away))
    ensures Possible(Two([], x, [], y, Some(9), LinkIn(ToBind(0, 1))))
  {
    hide Possible;
    Links(Two([], x, [], y, None, Away), Call(0, Some(1)), Two([], x, [], y, None, Want(0, Some(1))));
    Links(Two([], x, [], y, None, Want(0, Some(1))), Enter, Two([], x, [], y, Some(9), LinkIn(ToBind(0, 1))));
  }

  lemma Changes(x: Half, y: Half)
    requires Possible(Two([], x, [], y, Some(9), LinkIn(ToBind(0, 1)))) && Quiescent(x, y)
    ensures Possible(Two([1], Grown([], x), [0], Grown([], y), Some(9), PostOne(ToBind(0, 1))))
  {
    hide *;
    var j := ToBind(0, 1);
    LocksBoth([], x, [], y, j);
    Joins(x, y);
    Links(Two([], x, [], y, Some(9), LinkBoth(j)), Change,
          Two([1], Grown([], x), [0], Grown([], y), Some(9), PostOne(j)));
  }

  lemma Leaves(l: seq<nat>, x: Half, m: seq<nat>, y: Half)
    requires Possible(Two(l, x, m, y, Some(9), Leave))
    ensures Possible(Two(l, x, m, y, None, Away))
  {
    hide Possible;
    Links(Two(l, x, m, y, Some(9), Leave), Return, Two(l, x, m, y, None, Away));
  }

  lemma Binds(x: Half, y: Half)
    requires Possible(Two([], x, [], y, None, Away)) && Quiescent(x, y)
    ensures Possible(Two([1], PostToken(Grown([], x)), [0], PostToken(Grown([], y)), None, Away))
  {
    hide *;
    Enters(x, y);
    Changes(x, y);
    PostsBoth([1], Grown([], x), [0], Grown([], y), ToBind(0, 1));
    Leaves([1], PostToken(Grown([], x)), [0], PostToken(Grown([], y)));
  }

  lemma PostsBoth(l: seq<nat>, x: Half, m: seq<nat>, y: Half, j: Job)
    requires Possible(Two(l, x, m, y, Some(9), PostOne(j))) && j == ToBind(0, 1)
    ensures Possible(Two(l, PostToken(x), m, PostToken(y), Some(9), Leave))
  {
    hide Possible, PostToken;
    Links(Two(l, x, m, y, Some(9), PostOne(j)), Post, Two(l, PostToken(x), m, y, Some(9), PostTwo(j)));
    Links(Two(l, PostToken(x), m, y, Some(9), PostTwo(j)), Post, Two(l, PostToken(x), m, PostToken(y), Some(9), Leave));
  }

  /** The receiver goes to sleep for want of a connection, and the bind that gives it one wakes it ... */
  lemma WokenReceiver() returns (x: Half, y: Half)
    ensures Possible(Two([1], x, [0], y, None, Away)) && x.pc == Start(Woken) && x.token && y.pc == Idle && y.token
  {
    hide Possible;
    Starts();
    x, y := Fresh(0), Fresh(0);
    Receives([], x, [], y, None, Away, Begin(0, 0));
    x := x.(pc := Start(Testing));
    Receives([], x, [], y, None, Away, TokenSleep(0));
    x := x.(pc := Start(Asleep));
    Binds(x, y);
    x, y := PostToken(Grown([], x)), PostToken(Grown([], y));
  }

  /** An unbind of half 0, up to its first wait. */
  lemma Picks(x: Half, y: Half)
    requires Possible(Two([1], x, [0], y, None, Away))
    ensures Possible(Two([1], x, [0], y, Some(9), TokenIn(ToUnbind(0, 1, 0), Testing)))
  {
    hide Possible;
    Links(Two([1], x, [0], y, None, Away), Call(0, None), Two([1], x, [0], y, None, Want(0, None)));
    Links(Two([1], x, [0], y, None, Want(0, None)), Enter, Two([1], x, [0], y, Some(9), Head(0, 0)));
    Links(Two([1], x, [0], y, Some(9), Head(0, 0)), Pick,
          Two([1], x, [0], y, Some(9), TokenIn(ToUnbind(0, 1, 0), Testing)));
  }

  /** ... but an unbind takes the token first, and the woken receiver takes it without looking. */
  lemma Steal() returns (x: Half, y: Half)
    ensures Possible(Two([1], x, [0], y, Some(9), TokenOut(ToUnbind(0, 1, 0), Testing)))
    ensures x.pc == Announce && y.pc == Idle && y.token
  {
    hide Possible;
    x, y := WokenReceiver();
    var j := ToUnbind(0, 1, 0);
    Picks(x, y);
    var x' := x.(token := false);
    Links(Two([1], x, [0], y, Some(9), TokenIn(j, Testing)), Act.Take,
          Two([1], x', [0], y, Some(9), TokenOut(j, Testing)));
    Receives([1], x', [0], y, Some(9), TokenOut(j, Testing), TokenTake(0));
    x := x'.(pc := Announce);
  }

  lemma TokenShared() returns (n: Net)
    ensures Possible(n) && Shared(n, 0, 9)
  {
    hide Possible;
    var x, y := Steal();
    n := Two([1], x, [0], y, Some(9), TokenOut(ToUnbind(0, 1, 0), Testing));
  }

  /** The receiver has read that it has one connection ... */
  lemma Measured() returns (x: Half, y: Half)
    ensures Possible(Two([1], x, [0], y, Some(9), TokenOut(ToUnbind(0, 1, 0), Testing)))
    ensures x.pc == Scan(0) && x.length == 1 && y.pc == Idle && y.token
  {
    hide Possible;
    x, y := Steal();
    var pc := TokenOut(ToUnbind(0, 1, 0), Testing);
    Receives([1], x, [0], y, Some(9), pc, Raise(0));
    x := x.(pc := Raised, ready := true, start := x.cursor, seen := {});
    Receives([1], x, [0], y, Some(9), pc, Measure(0));
    x := x.(pc := Scan(0), length := 1);
  }

  /** ... the unbind removes it, and the scan asks for it. */
  lemma ListEmptied() returns (n: Net)
    ensures Possible(n) && Ready(n, Fault(0)) && After(n, Fault(0)).crashed
  {
    hide Possible;
    var x, y := Measured();
    var j := ToUnbind(0, 1, 0);
    var y' := y.(token := false);
    Links(Two([1], x, [0], y, Some(9), TokenOut(j, Testing)), Act.Take, Two([1], x, [0], y', Some(9), LinkIn(j)));
    LocksBoth([1], x, [0], y', j);
    n := After(Two([1], x, [0], y', Some(9), LinkBoth(j)), Link(9, Change));
    Links(Two([1], x, [0], y', Some(9), LinkBoth(j)), Change, n);
    Unlinks(x, y', j);
  }

  lemma Unlinks(x: Half, y: Half, j: Job)
    requires x.pc == Scan(0) && x.length == 1 && j == ToUnbind(0, 1, 0)
    ensures var n, e := Two([1], x, [0], y, Some(9), LinkBoth(j)), Link(9, Change);
      Ready(n, e) && Ready(After(n, e), Fault(0)) && After(After(n, e), Fault(0)).crashed
  {
  }
}
