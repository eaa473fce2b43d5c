/**
 Deadlock freedom of sending, receiving, binding and unbinding together: the wait-for relation over owners
 and linkers strictly climbs the order conn_op_mutex, IN token, OUT token, acknowledgement, IN mutex, OUT
 mutex, in every run.  Only a bind of a pair that is linked already can leave threads waiting for nobody.
 */
module LinkingProgress {
  import opened Rendezvous
  import opened RendezvousSafety
  import opened RendezvousProgress
  import opened Wrappers
  import opened Linking
  import opened LinkingSafety

  /** The thread of half h, and a thread that binds and unbinds. */
  datatype Thread = Owner(h: nat) | Linker(t: nat)

  predicate Known(n: Net, p: Thread) {
    match p case Owner(h) => h in n.s && h in n.g.dir && h in n.g.conns case Linker(t) => t in n.links
  }

  /** Inside the mutex of half x. */
  predicate InMutex(n: Net, p: Thread, x: nat) {
    match p
    case Owner(h) => Holds(n.g, n.s, h, x)
    case Linker(t) => t in n.links && LinkerInside(n.g.dir, n.links[t], x)
  }

  /** Has the token of half x, or has yet to give it. */
  predicate HasToken(n: Net, p: Thread, x: nat) {
    match p
    case Owner(h) => h == x && Busy(n, h)
    case Linker(t) => t in n.links && (LinkerHas(n.g.dir, n.links[t], x) || Owes(n.links[t], x))
  }

  /** Without a connection and without a token: only a bind can help.  Parked, unmatched: only a partner's arrival
      can.  Outside every operation: only its own next call. */
  predicate AwaitsOthers(n: Net, p: Thread)
    requires Known(n, p)
  {
    match p
    case Owner(h) =>
      var x := n.s[h];
      || x.pc == Idle || (x.pc.Park? && x.pc.w != Woken && x.blocked <= 0)
      || (x.pc.Start? && n.g.conns[h] == [])
    case Linker(t) => n.links[t] == Away
  }

  predicate Blocked(w: Wait, token: bool) {
    w == Asleep || (w == Testing && !token)
  }

  /** Thread p cannot go on before thread q has moved. */
  predicate WaitsFor(n: Net, p: Thread, q: Thread)
    requires Known(n, p)
  {
    Known(n, q) &&
    match p
    case Owner(h) =>
      var x := n.s[h];
      (match x.pc
       case Start(w) => Blocked(w, x.token) && HasToken(n, q, h)
       case Announce => InMutex(n, q, h)
       case WantIn(_, m) => InMutex(n, q, InSide(n.g.dir[h], h, m))
       case WantOut(_, m) => InMutex(n, q, OutSide(n.g.dir[h], h, m))
       case AckWait(m, w) => q == Owner(m) && (w == Asleep || (w == Testing && n.s[m].acks <= 0))
       case _ => false)
    case Linker(t) =>
      var pc := n.links[t];
      (match pc
       case Want(_, _) => q.Linker? && n.op == Some(q.t)
       case TokenIn(j, w) =>
         var x := InEnd(n.g.dir, j); x in n.s && Blocked(w, n.s[x].token) && HasToken(n, q, x)
       case TokenOut(j, w) =>
         var x := OutEnd(n.g.dir, j); x in n.s && Blocked(w, n.s[x].token) && HasToken(n, q, x)
       case LinkIn(j) => InMutex(n, q, InEnd(n.g.dir, j))
       case LinkOut(j) => InMutex(n, q, OutEnd(n.g.dir, j))
       case _ => false)
  }

  function OwnerRank(d: Dir, pc: PC): nat {
    match pc
    case Start(_) => if d == In then 1 else 2
    case AckWait(_, _) => 3
    case Announce => 4
    case WantIn(_, _) => 4
    case WantOut(_, _) => 5
    case _ => 6
  }

  function LinkerRank(pc: LinkPC): nat {
    match pc
    case Want(_, _) => 0
    case TokenIn(_, _) => 1
    case TokenOut(_, _) => 2
    case LinkIn(_) => 4
    case LinkOut(_) => 5
    case _ => 6
  }

  function Rank(n: Net, p: Thread): nat
    requires Known(n, p)
  {
    match p case Owner(h) => OwnerRank(n.g.dir[h], n.s[h].pc) case Linker(t) => LinkerRank(n.links[t])
  }

  /** Going to sleep on a semaphore. */
  predicate Sleeps(e: Event) {
    match e
    case Talk(a) => a.TokenSleep? || a.AckSleep? || a.ParkSleep?
    case Link(_, act) => act.Doze?
    case Fault(_) => false
  }

  predicate By(p: Thread, e: Event) {
    match e case Talk(a) => p == Owner(a.h) case Link(t, _) => p == Linker(t) case Fault(h) => p == Owner(h)
  }

  /** Thread p has a step other than going to sleep; the step may be the one the process dies of. */
  ghost predicate CanMove(n: Net, p: Thread) {
    exists e: Event :: By(p, e) && Ready(n, e) && !Sleeps(e)
  }

  /** A thread that a refused bind has sent home with the pair's two mutexes locked. */
  predicate Gone(n: Net, p: Thread) {
    p.Linker? && p.t in n.links && n.links[p.t].Left?
  }

  // ----- whoever is waited for stands higher -----

  lemma SafetyIs(n: Net)
    requires NetInv(n)
    ensures Base(n) && Jobs(n) && OneOperator(n) && n.g.conns.Keys == n.g.dir.Keys == n.s.Keys
    ensures var k := Everyone(n.g.dir);
      WellFormed(k) && Settled(k, n.s) && Balanced(k, n.s) && SleepsAlone(n.s) && k.dir == n.g.dir
  {
    hide OneOperator, Jobs, Supplied, Apart, Everyone, Settled, Balanced, SleepsAlone, WellFormed;
    EveryoneIs(n.g.dir);
  }

  /** A thread inside the mutex of half x stands above any that waits for that mutex. */
  lemma OwnerMutexRank(g: Graph, s: State, u: nat, x: nat)
    requires WellFormed(g) && Settled(g, s) && u in s && x in g.dir && Holds(g, s, u, x)
    ensures OwnerRank(g.dir[u], s[u].pc) >= 5 && (g.dir[x] == Out ==> OwnerRank(g.dir[u], s[u].pc) == 6)
    ensures !(s[u].pc == Idle || s[u].pc.Park? || s[u].pc.Start?)
  {
    assert HalfSteady(g, u, s[u]);
    if s[u].pc.WantOut? { assert Linked(g, u, s[u].pc.m); }
  }

  lemma LinkerMutexRank(g: Graph, pc: LinkPC, x: nat)
    requires JobOk(g, pc) && x in g.dir && LinkerInside(g.dir, pc, x)
    ensures LinkerRank(pc) >= 5 && (g.dir[x] == Out ==> LinkerRank(pc) == 6) && pc != Away
  {
    if pc.LinkOut? { EndsAre(g.dir, pc.j); }
  }

  lemma MutexRank(n: Net, q: Thread, x: nat)
    requires NetInv(n) && Known(n, q) && x in n.g.dir && InMutex(n, q, x)
    ensures Rank(n, q) >= 5 && (n.g.dir[x] == Out ==> Rank(n, q) == 6) && !AwaitsOthers(n, q)
  {
    hide NetInv, Everyone, WellFormed, HalvesOk, JobOk, LinkerInside, Holds, OwnerRank, LinkerRank;
    SafetyIs(n);
    EveryoneIs(n.g.dir);
    match q
    case Owner(u) => SameHolds(n.g, Everyone(n.g.dir), n.s); OwnerMutexRank(Everyone(n.g.dir), n.s, u, x);
    case Linker(t) => assert JobOk(n.g, n.links[t]); LinkerMutexRank(n.g, n.links[t], x);
  }

  lemma LinkerTokenRank(g: Graph, pc: LinkPC, x: nat)
    requires JobOk(g, pc) && x in g.dir && (LinkerHas(g.dir, pc, x) || Owes(pc, x))
    ensures LinkerRank(pc) >= 2 && (g.dir[x] == Out ==> LinkerRank(pc) >= 4) && pc != Away
  {
    if pc.TokenOut? { EndsAre(g.dir, pc.j); }
  }

  lemma OwnerTokenRank(d: Dir, pc: PC)
    requires OwnerHas(pc)
    ensures OwnerRank(d, pc) >= 3 && !(pc == Idle || pc.Park? || pc.Start?)
  {
  }

  /** So does a thread that has a token. */
  lemma TokenRank(n: Net, q: Thread, x: nat)
    requires NetInv(n) && Known(n, q) && x in n.g.dir && HasToken(n, q, x)
    ensures Rank(n, q) >= 2 && (n.g.dir[x] == Out ==> Rank(n, q) >= 3) && !AwaitsOthers(n, q)
  {
    hide NetInv, Everyone, WellFormed, HalvesOk, JobOk, LinkerHas, Owes, OwnerHas, OwnerRank, LinkerRank;
    SafetyIs(n);
    match q
    case Owner(u) => OwnerTokenRank(n.g.dir[u], n.s[u].pc);
    case Linker(t) => assert JobOk(n.g, n.links[t]); LinkerTokenRank(n.g, n.links[t], x);
  }

  lemma OperatorRank(n: Net, t: nat)
    requires OneOperator(n) && n.op == Some(t)
    ensures t in n.links && LinkerRank(n.links[t]) >= 1 && n.links[t] != Away
  {
  }

  lemma PendingRank(d: Dir, l: seq<nat>, x: Half)
    requires Steady(l, x) && Pending(x)
    ensures OwnerRank(d, x.pc) > 3 && x.pc != Idle && !x.pc.Start? && !(x.pc.Park? && x.pc.w != Woken && x.blocked <= 0)
  {
  }

  /** The receiver a sender waits for is awake. */
  lemma AckRank(g: Graph, s: State, h: nat, m: nat)
    requires WellFormed(g) && Settled(g, s) && Balanced(g, s) && SleepsAlone(s)
    requires h in s && s[h].pc.AckWait? && s[h].pc.m == m && m in s
    requires s[h].pc.w == Asleep || (s[h].pc.w == Testing && s[m].acks <= 0)
    ensures OwnerRank(g.dir[m], s[m].pc) > 3 && s[m].pc != Idle && !s[m].pc.Start?
    ensures !(s[m].pc.Park? && s[m].pc.w != Woken && s[m].blocked <= 0)
  {
    hide Steady, Counts, Pending, Balanced, WellFormed, OwnerRank;
    if s[h].pc.w == Testing { FallsAsleep(g, s, h, m); }
    assert HalfSteady(g, m, s[m]);
    PendingRank(g.dir[m], g.conns[m], s[m]);
  }

  lemma Sides(g: Graph, s: State, h: nat)
    requires WellFormed(g) && Settled(g, s) && h in s && (s[h].pc.WantIn? || s[h].pc.WantOut?)
    ensures h in g.dir && InSide(g.dir[h], h, s[h].pc.m) in g.dir && OutSide(g.dir[h], h, s[h].pc.m) in g.dir
    ensures g.dir[OutSide(g.dir[h], h, s[h].pc.m)] == Out
  {
    assert HalfSteady(g, h, s[h]);
    assert Linked(g, h, s[h].pc.m);
  }

  lemma OwnerClimbs(n: Net, h: nat, q: Thread)
    requires NetInv(n) && Known(n, Owner(h)) && WaitsFor(n, Owner(h), q)
    ensures Rank(n, Owner(h)) < Rank(n, q) && !AwaitsOthers(n, q)
  {
    hide NetInv, Base, OneOperator, Jobs, WellFormed, Settled, Balanced, SleepsAlone, InMutex, HasToken, Everyone;
    SafetyIs(n);
    var k := Everyone(n.g.dir);
    match n.s[h].pc
    case Start(_) => TokenRank(n, q, h);
    case Announce => MutexRank(n, q, h);
    case WantIn(_, m) => Sides(k, n.s, h); MutexRank(n, q, InSide(n.g.dir[h], h, m));
    case WantOut(_, m) => Sides(k, n.s, h); MutexRank(n, q, OutSide(n.g.dir[h], h, m));
    case AckWait(m, _) => AckRank(k, n.s, h, m);
    case _ =>
  }

  lemma JobEnds(n: Net, t: nat)
    requires Jobs(n) && t in n.links && (Waiting(n.links[t]) || n.links[t].LinkIn? || n.links[t].LinkOut?)
    ensures var j, dir := n.links[t].j, n.g.dir;
      InEnd(dir, j) in dir && OutEnd(dir, j) in dir && dir[OutEnd(dir, j)] == Out && dir[InEnd(dir, j)] == In
  {
    assert JobOk(n.g, n.links[t]);
    EndsAre(n.g.dir, n.links[t].j);
  }

  lemma LinkerClimbs(n: Net, t: nat, q: Thread)
    requires NetInv(n) && Known(n, Linker(t)) && WaitsFor(n, Linker(t), q)
    ensures Rank(n, Linker(t)) < Rank(n, q) && !AwaitsOthers(n, q)
  {
    hide NetInv, Base, OneOperator, Jobs, WellFormed, Settled, Balanced, SleepsAlone, InMutex, HasToken, InEnd, OutEnd;
    hide Everyone;
    SafetyIs(n);
    match n.links[t]
    case Want(_, _) => OperatorRank(n, q.t);
    case TokenIn(j, _) => JobEnds(n, t); TokenRank(n, q, InEnd(n.g.dir, j));
    case TokenOut(j, _) => JobEnds(n, t); TokenRank(n, q, OutEnd(n.g.dir, j));
    case LinkIn(j) => JobEnds(n, t); MutexRank(n, q, InEnd(n.g.dir, j));
    case LinkOut(j) => JobEnds(n, t); MutexRank(n, q, OutEnd(n.g.dir, j));
    case _ =>
  }

  /** In every state of every run the wait-for relation climbs the six levels: it has no cycle. */
  lemma WaitsClimb(n: Net, p: Thread, q: Thread)
    requires Possible(n) && Known(n, p) && WaitsFor(n, p, q)
    ensures Rank(n, p) < Rank(n, q) && !AwaitsOthers(n, q)
  {
    hide *;
    PossibleInv(n);
    match p
    case Owner(h) => OwnerClimbs(n, h, q);
    case Linker(t) => LinkerClimbs(n, t, q);
  }

  // ----- whoever does not wait can move -----

  lemma Moving(n: Net, p: Thread, e: Event)
    requires By(p, e) && Ready(n, e) && !Sleeps(e)
    ensures CanMove(n, p)
  {
  }

  /** A step that needs no mutex, no token and no sleeper. */
  lemma PlainMove(l: seq<nat>, r: seq<nat>, x: Half, y: Half, h: nat) returns (a: Step)
    requires Steady(r, x) && x.pc != Idle && !(x.pc.Park? && x.pc.w != Woken && x.blocked <= 0)
    requires !x.pc.Start? && x.pc != Announce && !x.pc.WantIn? && !x.pc.WantOut? && x.pc != Copy
    requires x.pc.AckWait? ==> !(x.pc.w == Asleep || (x.pc.w == Testing && y.acks <= 0))
    requires x.pc.Scan? && x.pc.k < x.length ==> x.cursor < |l|
    ensures a.h == h && Guard(l, x, y, a) && !a.Raise? && !a.LockIn? && !a.LockOut? && !a.Take? && !a.TakeQuiet?
    ensures Partner(x, a) == Peer(h, x.pc) && !Sleeps(Talk(a))
    ensures a.Hit? || a.AckPass? ==> x.pc.Commit? || x.pc.AckWait?
  {
    match x.pc
    case Raised => a := Measure(h);
    case Scan(k) => a := if k < x.length then Fetch(h) else ScanEnd(h);
    case Both(_, _) => a := if x.ready && y.ready then Match(h) else Miss(h);
    case Commit(_, _) => a := Hit(h);
    case AckWait(_, _) => a := AckPass(h);
    case Release => a := GiveBack(h);
    case Park(_) => a := ParkPass(h);
  }

  /** The half the program point mentions, or the half itself. */
  function Peer(h: nat, pc: PC): nat {
    match pc case Both(_, m) => m case Commit(_, m) => m case AckWait(m, _) => m case _ => h
  }

  lemma PeerLinked(g: Graph, s: State, h: nat)
    requires WellFormed(g) && Settled(g, s) && h in s
    ensures var m := Peer(h, s[h].pc); m in s && (s[h].pc.Both? || s[h].pc.Commit? || s[h].pc.AckWait? ==> m != h)
  {
    assert HalfSteady(g, h, s[h]);
    if s[h].pc.Both? || s[h].pc.Commit? || s[h].pc.AckWait? { assert Linked(g, h, s[h].pc.m); }
  }

  lemma PlainReady(n: Net, a: Step)
    requires n.g.conns.Keys == n.g.dir.Keys == n.s.Keys && !n.crashed
    requires a.h in n.s && !a.Raise? && !a.LockIn? && !a.LockOut? && !a.Take? && !a.TakeQuiet?
    requires Partner(n.s[a.h], a) in n.s && Guard(n.g.conns[a.h], n.s[a.h], n.s[Partner(n.s[a.h], a)], a)
    requires a.Hit? || a.AckPass? ==> Partner(n.s[a.h], a) != a.h
    ensures Ready(n, Talk(a))
  {
    hide Guard, Partner;
  }

  /** The next element is there unless the list is empty. */
  lemma CursorIn(n: Net, h: nat)
    requires Base(n) && h in n.s && h in n.g.conns && !Emptied(n, h)
    ensures n.s[h].pc.Scan? && n.s[h].pc.k < n.s[h].length ==> n.s[h].cursor < |n.g.conns[h]|
  {
    hide HalvesOk, WellFormed;
  }

  lemma FaultReady(n: Net, h: nat)
    requires Emptied(n, h) && !n.crashed
    ensures Ready(n, Fault(h))
  {
  }

  lemma PeerMoves(n: Net, h: nat)
    requires NetInv(n) && !n.crashed && h in n.s && h in n.g.dir && h in n.g.conns && !AwaitsOthers(n, Owner(h))
    requires var pc := n.s[h].pc; !pc.Start? && pc != Announce && !pc.WantIn? && !pc.WantOut? && pc != Copy
    ensures CanMove(n, Owner(h)) || exists q :: WaitsFor(n, Owner(h), q)
  {
    hide NetInv, Base, OneOperator, Jobs, Steady, Counts, Guard, WellFormed, Balanced, SleepsAlone, Ready, CanMove;
    hide Partner, Sleeps, HasToken, InMutex, Everyone, Emptied;
    SafetyIs(n);
    var k, x, m := Everyone(n.g.dir), n.s[h], Peer(h, n.s[h].pc);
    assert HalfSteady(k, h, x);
    PeerLinked(k, n.s, h);
    if Emptied(n, h) {
      FaultReady(n, h);
      assert !Sleeps(Fault(h)) by { Wakeful(h); }
      Moving(n, Owner(h), Fault(h));
    } else if x.pc.AckWait? && (x.pc.w == Asleep || (x.pc.w == Testing && n.s[m].acks <= 0)) {
      assert WaitsFor(n, Owner(h), Owner(m));
    } else {
      CursorIn(n, h);
      var a := PlainMove(n.g.conns[h], k.conns[h], x, n.s[m], h);
      PlainReady(n, a);
      Moving(n, Owner(h), Talk(a));
    }
  }

  lemma Wakeful(h: nat)
    ensures !Sleeps(Fault(h))
  {
  }

  lemma CopyReady(n: Net, h: nat)
    requires n.g.conns.Keys == n.g.dir.Keys == n.s.Keys && !n.crashed && h in n.s && n.s[h].pc == Copy
    requires forall o | o in n.s :: n.s[o].pc != AckWait(h, Asleep)
    ensures Ready(n, Talk(TakeQuiet(h)))
  {
    hide Own, Other, Free, Unlinked;
  }

  lemma CopyWakes(n: Net, h: nat, o: nat)
    requires n.g.conns.Keys == n.g.dir.Keys == n.s.Keys && !n.crashed && h in n.s && n.s[h].pc == Copy
    requires o in n.s && n.s[o].pc == AckWait(h, Asleep)
    ensures Ready(n, Talk(Step.Take(h, o)))
  {
    hide Own, Other, Free, Unlinked;
  }

  lemma Wakes(h: nat, o: nat)
    ensures By(Owner(h), Talk(TakeQuiet(h))) && !Sleeps(Talk(TakeQuiet(h)))
    ensures By(Owner(h), Talk(Step.Take(h, o))) && !Sleeps(Talk(Step.Take(h, o)))
  {
  }

  lemma CopyMoves(n: Net, h: nat)
    requires Base(n) && !n.crashed && h in n.s && n.s[h].pc == Copy
    ensures CanMove(n, Owner(h))
  {
    hide *;
    BaseIs(n);
    Wakes(h, h);
    if o :| o in n.s && n.s[o].pc == AckWait(h, Asleep) {
      Wakes(h, o);
      CopyWakes(n, h, o);
      Moving(n, Owner(h), Talk(Step.Take(h, o)));
    } else {
      CopyReady(n, h);
      Moving(n, Owner(h), Talk(TakeQuiet(h)));
    }
  }

  lemma TakeReady(n: Net, h: nat)
    requires n.g.conns.Keys == n.g.dir.Keys == n.s.Keys && !n.crashed
    requires h in n.s && n.s[h].pc.Start? && !Blocked(n.s[h].pc.w, n.s[h].token)
    ensures Ready(n, Talk(TokenTake(h)))
  {
    hide Free, Unlinked;
  }

  /** The token of a connected half is there, or its owner or the operator has it; a sleeper sees none. */
  lemma SupplyIs(n: Net, h: nat)
    requires NetInv(n) && h in n.s && h in n.g.conns
    ensures n.g.conns[h] != [] ==>
              n.s[h].token || OwnerHas(n.s[h].pc) || LinkerHas(n.g.dir, Operator(n), h) || Owes(Operator(n), h)
    ensures n.s[h].pc == Start(Asleep) || WaitsOn(n.g.dir, Operator(n), Asleep, h) ==> !n.s[h].token
  {
    hide Base, OneOperator, Jobs, Apart, LinkerHas, Owes, WaitsOn, Everyone, Operator;
    BaseIs(n);
    EveryoneIs(n.g.dir);
    assert SupplyOk(n.g.dir, n.g.conns[h], Everyone(n.g.dir).conns[h], n.s[h], h, Operator(n));
  }

  lemma OperatorHas(n: Net, h: nat)
    requires LinkerHas(n.g.dir, Operator(n), h) || Owes(Operator(n), h)
    ensures n.op.Some? && n.op.value in n.links && HasToken(n, Linker(n.op.value), h)
  {
    AwayHas(n.g.dir, h);
    hide LinkerHas, Owes;
  }

  lemma StartMoves(n: Net, h: nat)
    requires NetInv(n) && !n.crashed && h in n.s && h in n.g.dir && h in n.g.conns
    requires n.s[h].pc.Start? && !AwaitsOthers(n, Owner(h))
    ensures CanMove(n, Owner(h)) || exists q :: WaitsFor(n, Owner(h), q)
  {
    hide NetInv, CanMove, LinkerHas, Owes, HasToken, Operator, WaitsOn, Ready, Everyone, Settled, Balanced, SleepsAlone;
    hide Base, Jobs, OneOperator, WellFormed;
    SafetyIs(n);
    SupplyIs(n, h);
    if Blocked(n.s[h].pc.w, n.s[h].token) {
      OperatorHas(n, h);
      assert WaitsFor(n, Owner(h), Linker(n.op.value));
    } else {
      TakeReady(n, h);
      Moving(n, Owner(h), Talk(TokenTake(h)));
    }
  }

  lemma MutexHolder(n: Net, x: nat) returns (q: Thread)
    requires Base(n) && !Clear(n, x)
    ensures Known(n, q) && InMutex(n, q, x)
  {
    hide Base, Holds, LinkerInside;
    if u :| u in n.s && Holds(n.g, n.s, u, x) {
      q := Owner(u);
    } else {
      assert Free(n.g, n.s, x);
      var t :| t in n.links && LinkerInside(n.g.dir, n.links[t], x);
      q := Linker(t);
    }
  }

  lemma LockReady(n: Net, h: nat)
    requires Base(n) && !n.crashed && h in n.s
    ensures n.s[h].pc == Announce && Clear(n, h) ==> Ready(n, Talk(Raise(h)))
    ensures n.s[h].pc.WantIn? && Clear(n, InSide(n.g.dir[h], h, n.s[h].pc.m)) ==> Ready(n, Talk(LockIn(h)))
    ensures n.s[h].pc.WantOut? && Clear(n, OutSide(n.g.dir[h], h, n.s[h].pc.m)) ==> Ready(n, Talk(LockOut(h)))
  {
    hide Base, Ready, Clear;
    BaseIs(n);
    if n.s[h].pc == Announce { RaiseReady(n, h); }
    if n.s[h].pc.WantIn? { LockInReady(n, h); }
    if n.s[h].pc.WantOut? { LockOutReady(n, h); }
  }

  lemma RaiseReady(n: Net, h: nat)
    requires n.g.conns.Keys == n.g.dir.Keys == n.s.Keys && !n.crashed && h in n.s && n.s[h].pc == Announce
    ensures Clear(n, h) ==> Ready(n, Talk(Raise(h)))
  {
    hide Free, Unlinked;
  }

  lemma LockInReady(n: Net, h: nat)
    requires n.g.conns.Keys == n.g.dir.Keys == n.s.Keys && !n.crashed && h in n.s && n.s[h].pc.WantIn?
    ensures Clear(n, InSide(n.g.dir[h], h, n.s[h].pc.m)) ==> Ready(n, Talk(LockIn(h)))
  {
    hide Free, Unlinked;
  }

  lemma LockOutReady(n: Net, h: nat)
    requires n.g.conns.Keys == n.g.dir.Keys == n.s.Keys && !n.crashed && h in n.s && n.s[h].pc.WantOut?
    ensures Clear(n, OutSide(n.g.dir[h], h, n.s[h].pc.m)) ==> Ready(n, Talk(LockOut(h)))
  {
    hide Free, Unlinked;
  }

  lemma OwnerMovesOrWaits(n: Net, h: nat)
    requires NetInv(n) && !n.crashed && h in n.s && h in n.g.dir && h in n.g.conns && !AwaitsOthers(n, Owner(h))
    ensures CanMove(n, Owner(h)) || exists q :: WaitsFor(n, Owner(h), q)
  {
    hide NetInv, Base, OneOperator, Jobs, Settled, Balanced, SleepsAlone, Everyone, WellFormed, Ready, CanMove;
    hide InMutex, HasToken, Clear;
    SafetyIs(n);
    LockReady(n, h);
    var p, d := Owner(h), n.g.dir[h];
    match n.s[h].pc
    case Start(_) => StartMoves(n, h);
    case Announce =>
      if Clear(n, h) { Moving(n, p, Talk(Raise(h))); }
      else { var q := MutexHolder(n, h); assert WaitsFor(n, p, q); }
    case WantIn(_, m) =>
      if Clear(n, InSide(d, h, m)) { Moving(n, p, Talk(LockIn(h))); }
      else { var q := MutexHolder(n, InSide(d, h, m)); assert WaitsFor(n, p, q); }
    case WantOut(_, m) =>
      if Clear(n, OutSide(d, h, m)) { Moving(n, p, Talk(LockOut(h))); }
      else { var q := MutexHolder(n, OutSide(d, h, m)); assert WaitsFor(n, p, q); }
    case Copy => CopyMoves(n, h);
    case _ => PeerMoves(n, h);
  }

  /** A linker that waits for a token waits for the owner of the half. */
  lemma TokenMoves(n: Net, t: nat)
    requires NetInv(n) && !n.crashed && t in n.links && Waiting(n.links[t])
    ensures CanMove(n, Linker(t)) || exists q :: WaitsFor(n, Linker(t), q)
  {
    hide NetInv, Base, Jobs, OneOperator, Settled, Balanced, SleepsAlone, WellFormed, CanMove, Ready, Everyone;
    hide Operator, InEnd, OutEnd;
    SafetyIs(n);
    TargetLinked(n, t, Target(n.g.dir, n.links[t]));
    TargetHas(n, t, Target(n.g.dir, n.links[t]));
    SupplyIs(n, Target(n.g.dir, n.links[t]));
    var pc, h := n.links[t], Target(n.g.dir, n.links[t]);
    if Blocked(pc.w, n.s[h].token) {
      assert HasToken(n, Owner(h), h);
      assert WaitsFor(n, Linker(t), Owner(h));
    } else {
      LinkerTakes(n, t);
      Moving(n, Linker(t), Link(t, Act.Take));
    }
  }

  lemma LinkerTakes(n: Net, t: nat)
    requires !n.crashed && t in n.links && Waiting(n.links[t]) && Target(n.g.dir, n.links[t]) in n.s
    requires !Blocked(n.links[t].w, n.s[Target(n.g.dir, n.links[t])].token)
    ensures Ready(n, Link(t, Act.Take))
  {
  }

  /** The operator has not got the token it waits for. */
  lemma TargetHas(n: Net, t: nat, h: nat)
    requires Jobs(n) && OneOperator(n) && t in n.links && Waiting(n.links[t]) && h == Target(n.g.dir, n.links[t])
    ensures Operator(n) == n.links[t] && !LinkerHas(n.g.dir, n.links[t], h) && !Owes(n.links[t], h)
    ensures n.links[t].w == Asleep ==> WaitsOn(n.g.dir, n.links[t], Asleep, h)
  {
    assert JobOk(n.g, n.links[t]) && Operating(n.links[t]);
    EndsAre(n.g.dir, n.links[t].j);
  }

  lemma TargetLinked(n: Net, t: nat, h: nat)
    requires Base(n) && Jobs(n) && t in n.links && Waiting(n.links[t]) && h == Target(n.g.dir, n.links[t])
    ensures h in n.g.conns && n.g.conns[h] != []
  {
    hide Base, WellFormed, Linked, Everyone;
    BaseIs(n);
    assert JobOk(n.g, n.links[t]);
    var j := n.links[t].j;
    LinkEnds(n.g, j.one, j.two);
  }

  lemma JobPaired(n: Net, t: nat)
    requires Base(n) && Jobs(n) && t in n.links
    ensures var pc := n.links[t]; pc.LinkBoth? || pc.PostOne? || pc.PostTwo? ==> Paired(n, pc.j)
    ensures n.links[t].Head? ==> n.links[t].id in n.g.conns
  {
    hide Base;
    assert JobOk(n.g, n.links[t]);
  }

  lemma LinkerMovesOrWaits(n: Net, t: nat)
    requires NetInv(n) && !n.crashed && t in n.links && n.links[t] != Away && !n.links[t].Left?
    ensures CanMove(n, Linker(t)) || exists q :: WaitsFor(n, Linker(t), q)
  {
    hide Base, Jobs, Supplied, Apart, CanMove, InMutex, HasToken, Clear, InEnd, OutEnd;
    JobPaired(n, t);
    var p, pc, dir := Linker(t), n.links[t], n.g.dir;
    match pc
    case Want(_, _) =>
      if n.op == None { Moving(n, p, Link(t, Enter)); }
      else { assert WaitsFor(n, p, Linker(n.op.value)); }
    case Head(_, _) => Moving(n, p, Link(t, Pick));
    case TokenIn(_, _) => TokenMoves(n, t);
    case TokenOut(_, _) => TokenMoves(n, t);
    case LinkIn(j) =>
      if Clear(n, InEnd(dir, j)) { Moving(n, p, Link(t, LockFirst)); }
      else { var q := MutexHolder(n, InEnd(dir, j)); assert WaitsFor(n, p, q); }
    case LinkOut(j) =>
      if Clear(n, OutEnd(dir, j)) { Moving(n, p, Link(t, LockSecond)); }
      else { var q := MutexHolder(n, OutEnd(dir, j)); assert WaitsFor(n, p, q); }
    case LinkBoth(_) => Moving(n, p, Link(t, Change));
    case PostOne(_) => Moving(n, p, Link(t, Post));
    case PostTwo(_) => Moving(n, p, Link(t, Post));
    case Leave => Moving(n, p, Link(t, Return));
  }

  /** In every state of every run a thread inside an operation can move, or waits for another thread, or awaits
      a partner or a connection. */
  lemma MovesOrWaits(n: Net, p: Thread)
    requires Possible(n) && !n.crashed && Known(n, p) && !AwaitsOthers(n, p) && !Gone(n, p)
    ensures CanMove(n, p) || exists q :: WaitsFor(n, p, q)
  {
    hide Possible, NetInv, CanMove, WaitsFor;
    PossibleInv(n);
    match p
    case Owner(h) => OwnerMovesOrWaits(n, h);
    case Linker(t) => LinkerMovesOrWaits(n, t);
  }

  /** Every thread of the path but the last waits for the next. */
  ghost predicate WaitPath(n: Net, path: seq<Thread>) {
    |path| > 0 && forall k | 0 <= k < |path| - 1 :: Known(n, path[k]) && WaitsFor(n, path[k], path[k + 1])
  }

  /** In every state of every run a thread that does not await a partner, a connection or its own next call is at
      most six waits away from a thread that can move, or from one that a refused bind has sent home. */
  lemma {:induction false} WaitsEnd(n: Net, p: Thread) returns (path: seq<Thread>)
    requires Possible(n) && !n.crashed && Known(n, p) && !AwaitsOthers(n, p)
    ensures |path| > 0 && WaitPath(n, path) && path[0] == p && |path| <= 7 - Rank(n, p)
    ensures CanMove(n, path[|path| - 1]) || Gone(n, path[|path| - 1])
    decreases 6 - Rank(n, p)
  {
    hide Possible, CanMove, Gone, WaitsFor, AwaitsOthers, OwnerRank, LinkerRank;
    RankBound(n, p);
    if CanMove(n, p) || Gone(n, p) {
      path := [p];
    } else {
      MovesOrWaits(n, p);
      var q :| WaitsFor(n, p, q);
      IsKnown(n, p, q);
      WaitsClimb(n, p, q);
      RankBound(n, q);
      var rest := WaitsEnd(n, q);
      path := [p] + rest;
    }
  }

  lemma RankBound(n: Net, p: Thread)
    requires Known(n, p)
    ensures Rank(n, p) <= 6
  {
  }

  lemma IsKnown(n: Net, p: Thread, q: Thread)
    requires Known(n, p) && WaitsFor(n, p, q)
    ensures Known(n, q)
  {
  }

  // ----- runs that bind no linked pair again -----

  ghost predicate CarefulBy(b: seq<Net>, events: seq<Event>, n: Net) {
    PossibleBy(b, events, n) && forall k | 0 <= k < |events| :: !Rebinds(b[k], events[k])
  }

  /** Reached by a run in which every bind that is carried out is of an unlinked pair. */
  ghost predicate Careful(n: Net) {
    exists b, events :: CarefulBy(b, events, n)
  }

  lemma NoneLeftStep(n: Net, e: Event, t: nat)
    requires Ready(n, e) && !Rebinds(n, e) && t in After(n, e).links && After(n, e).links[t].Left?
    ensures t in n.links && n.links[t].Left?
  {
    hide Ready, After, Rebinds, Woke, Kin;
    match e
    case Talk(a) => TalkIs(n, a); WokeLeft(n.g.dir, n.links[t], a.h);
    case Link(u, act) =>
      LinksKept(n, u, act);
      if u == t {
        ReturnFrom(n, t, act);
        ChangeIs(n, t, act);
      } else {
        var x := OthersStay(n, u, act, t);
        WokeLeft(n.g.dir, n.links[t], x);
      }
    case Fault(_) => FaultIs(n, e);
  }

  lemma WokeLeft(dir: map<nat, Dir>, pc: LinkPC, x: nat)
    ensures Woke(dir, pc, x).Left? <==> pc.Left?
  {
  }

  lemma {:induction false} NoneLeft(b: seq<Net>, events: seq<Event>, k: nat, t: nat)
    requires NetRun(b, events) && NetInit(b[0]) && k < |b| && t in b[k].links
    requires forall i | 0 <= i < |events| :: !Rebinds(b[i], events[i])
    ensures !b[k].links[t].Left?
  {
    hide Ready, After, Rebinds, Init, WellFormed;
    if k > 0 && b[k].links[t].Left? {
      assert Goes(b[k - 1], events[k - 1], b[k]) && !Rebinds(b[k - 1], events[k - 1]);
      NoneLeftStep(b[k - 1], events[k - 1], t);
      NoneLeft(b, events, k - 1, t);
    }
  }

  /** Deadlock freedom, thread by thread: whatever the schedule, as long as no linked pair is bound again, a thread
      that does not await a partner, a connection or its own next call is at most six waits away from a thread that
      can move. */
  lemma NoDeadlock(n: Net, p: Thread) returns (path: seq<Thread>)
    requires Careful(n) && !n.crashed && Known(n, p) && !AwaitsOthers(n, p)
    ensures |path| > 0 && WaitPath(n, path) && path[0] == p && |path| <= 7 - Rank(n, p)
    ensures CanMove(n, path[|path| - 1])
  {
    hide WaitPath, CanMove, Rank, AwaitsOthers, Ready, After, NetInit, Known, Rebinds;
    var b, events :| CarefulBy(b, events, n);
    assert PossibleBy(b, events, n);
    path := WaitsEnd(n, p);
    var q := path[|path| - 1];
    if Gone(n, q) { NoneLeft(b, events, |events|, q.t); }
  }
}
