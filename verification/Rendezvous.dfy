/**
 The send and receive protocol of half-channels (Channels/channel.c), as a step machine over a
 fixed connection graph.  One thread owns each half.  A step is one shared access, or one critical
 section that takes no further lock; the two nested mutexes of a probe are taken in separate
 steps, and testing the two `ready` flags is a different step from acting on the test, so the
 mutexes carry the proof.  Semaphores are those of Channels/my_semaphore.c: the test is an `if`,
 a sleeper is woken by one signal, and a woken thread decrements without testing again.
 */
module Rendezvous {

  type Payload = int

  datatype Dir = In | Out

  /** Where a thread stands inside `my_sem_wait`. */
  datatype Wait = Testing | Asleep | Woken

  /** The halves, their directions, and each half's connection list. */
  datatype Graph = Graph(dir: map<nat, Dir>, conns: map<nat, seq<nat>>)

  ghost predicate Linked(g: Graph, h: nat, m: nat) {
    h in g.conns && m in g.conns[h]
  }

  /** Links are symmetric, duplicate-free and join opposite directions. */
  ghost predicate WellFormed(g: Graph) {
    && g.conns.Keys == g.dir.Keys
    && (forall h, m :: Linked(g, h, m) ==> m in g.dir && h in g.dir && g.dir[m] != g.dir[h] && Linked(g, m, h))
    && (forall h, j, k | h in g.dir && 0 <= j < k < |g.conns[h]| :: g.conns[h][j] != g.conns[h][k])
  }

  ghost predicate Bound(g: Graph, o: nat, i: nat) {
    o in g.dir && i in g.dir && g.dir[o] == Out && g.dir[i] == In && Linked(g, o, i)
  }

  datatype PC =
    | Idle                           // outside send and receive
    | Start(w: Wait)                 // waiting for the conns_sem token
    | Announce                       // about to lock its own mutex and raise `ready`
    | Raised                         // `ready` is up, about to read how long its connection list is
    | Scan(k: nat)                   // loop head, k connections probed
    | WantIn(k: nat, m: nat)         // fetched m, waiting for the mutex of the IN half
    | WantOut(k: nat, m: nat)        // holds the IN mutex, waiting for the OUT mutex
    | Both(k: nat, m: nat)           // holds both mutexes
    | Commit(k: nat, m: nat)         // holds both mutexes, has seen both halves ready
    | AckWait(m: nat, w: Wait)       // active sender waiting for the receiver's acknowledgement
    | Release                        // about to give the conns_sem token back and return
    | Park(w: Wait)                  // scan found nobody: waiting on `blocked`
    | Copy                           // woken receiver, about to copy the buffer and acknowledge

  /** One half-channel with its thread.  The last six fields are history: they record what happened
      and no step's guard or effect on the other fields looks at them, except that `sent` also
      holds the argument of the send in progress. */
  datatype Half = Half(
    pc: PC, ready: bool, buffer: Payload, data: Payload,
    blocked: int, token: bool, acks: int, cursor: nat,
    length: nat,             // of the connection list, as last read before a scan
    start: nat,              // cursor when `ready` was last raised
    seen: set<nat>,          // halves probed without success since then
    sent: seq<Payload>,      // arguments of the sends begun
    got: seq<Payload>,       // results of the receives completed
    to: seq<(nat, nat)>,     // k-th matched send went to (half, number of its receive)
    from: seq<(nat, nat)>)   // k-th matched receive came from (half, number of its send)

  type State = map<nat, Half>

  function Fresh(n: nat): Half {
    Half(Idle, false, 0, 0, 0, n > 0, 0, 0, 0, 0, {}, [], [], [], [])
  }

  ghost predicate Init(g: Graph, s: State)
    requires WellFormed(g)
  {
    s.Keys == g.dir.Keys &&
    forall h | h in g.dir ::
      exists c: nat {:trigger Fresh(|g.conns[h]|).(cursor := c)} ::
        (c < |g.conns[h]| || c == 0) && s[h] == Fresh(|g.conns[h]|).(cursor := c)
  }

  datatype Step =
    | Begin(h: nat, v: Payload) | TokenSleep(h: nat) | TokenTake(h: nat) | Raise(h: nat) | Measure(h: nat)
    | Fetch(h: nat) | ScanEnd(h: nat) | LockIn(h: nat) | LockOut(h: nat) | Miss(h: nat)
    | Match(h: nat) | Hit(h: nat) | AckSleep(h: nat) | AckPass(h: nat) | GiveBack(h: nat)
    | ParkSleep(h: nat) | ParkPass(h: nat) | Take(h: nat, wake: nat) | TakeQuiet(h: nat)

  // ----- mutexes -----

  function InSide(d: Dir, h: nat, m: nat): nat { if d == In then h else m }

  function OutSide(d: Dir, h: nat, m: nat): nat { if d == In then m else h }

  /** The thread of half h, at this program point, is inside the mutex of half x. */
  predicate Inside(d: Dir, h: nat, pc: PC, x: nat) {
    match pc
    case WantOut(_, m) => x == InSide(d, h, m)
    case Both(_, m) => x == h || x == m
    case Commit(_, m) => x == h || x == m
    case _ => false
  }

  predicate Holds(g: Graph, s: State, h: nat, x: nat) {
    h in g.dir && h in s && Inside(g.dir[h], h, s[h].pc, x)
  }

  predicate Free(g: Graph, s: State, x: nat) {
    forall h | h in s :: !Holds(g, s, h, x)
  }

  // ----- steps -----

  /** The other half that the step reads or writes; the stepping half itself when there is none. */
  function Partner(x: Half, a: Step): nat {
    match a
    case Miss(_) => if x.pc.Both? then x.pc.m else a.h
    case Match(_) => if x.pc.Both? then x.pc.m else a.h
    case Hit(_) => if x.pc.Commit? then x.pc.m else a.h
    case AckSleep(_) => if x.pc.AckWait? then x.pc.m else a.h
    case AckPass(_) => if x.pc.AckWait? then x.pc.m else a.h
    case Take(_, wake) => wake
    case _ => a.h
  }

  /** The part of a step's guard that looks at the stepping half x and its partner y. */
  predicate Guard(l: seq<nat>, x: Half, y: Half, a: Step) {
    match a
    case Begin(_, _) => x.pc == Idle
    case TokenSleep(_) => x.pc == Start(Testing) && !x.token
    case TokenTake(_) => x.pc == Start(Woken) || (x.pc == Start(Testing) && x.token)
    case Raise(h) => x.pc == Announce
    case Measure(h) => x.pc == Raised
    case Fetch(h) => x.pc.Scan? && x.pc.k < x.length && x.cursor < |l|
    case ScanEnd(h) => x.pc.Scan? && x.pc.k >= x.length
    case LockIn(h) => x.pc.WantIn?
    case LockOut(h) => x.pc.WantOut?
    case Miss(_) => x.pc.Both? && !(y.ready && x.ready)
    case Match(_) => x.pc.Both? && y.ready && x.ready
    case Hit(h) => x.pc.Commit?
    case AckSleep(_) => x.pc.AckWait? && x.pc.w == Testing && y.acks <= 0
    case AckPass(h) => x.pc.AckWait? && (x.pc.w == Woken || (x.pc.w == Testing && y.acks > 0))
    case GiveBack(_) => x.pc == Release
    case ParkSleep(_) => x.pc == Park(Testing) && x.blocked <= 0
    case ParkPass(_) => x.pc == Park(Woken) || (x.pc == Park(Testing) && x.blocked > 0)
    case Take(h, wake) => x.pc == Copy && y.pc == AckWait(h, Asleep)
    case TakeQuiet(h) => x.pc == Copy
  }

  predicate Enabled(g: Graph, s: State, a: Step) {
    && g.conns.Keys == g.dir.Keys == s.Keys
    && a.h in s
    && var x := s[a.h];
    && var m := Partner(x, a);
    && m in s
    && Guard(g.conns[a.h], x, s[m], a)
    && (a.Raise? ==> Free(g, s, a.h))
    && (a.LockIn? ==> Free(g, s, InSide(g.dir[a.h], a.h, x.pc.m)))
    && (a.LockOut? ==> Free(g, s, OutSide(g.dir[a.h], a.h, x.pc.m)))
    && (a.Hit? || a.AckPass? || a.Take? ==> m != a.h)
    && (a.TakeQuiet? ==> forall o | o in s :: s[o].pc != AckWait(a.h, Asleep))
  }

  /** The stepping half after the step. */
  function Own(d: Dir, l: seq<nat>, x: Half, y: Half, a: Step): Half
    requires Guard(l, x, y, a)
  {
    match a
    case Begin(_, v) => x.(pc := Start(Testing), sent := if d == Out then x.sent + [v] else x.sent)
    case TokenSleep(_) => x.(pc := Start(Asleep))
    case TokenTake(_) => x.(pc := Announce, token := false)
    case Raise(_) =>
      x.(pc := Raised, ready := true, start := x.cursor, seen := {},
         buffer := if d == Out && |x.sent| > 0 then x.sent[|x.sent| - 1] else x.buffer)
    case Measure(_) => x.(pc := Scan(0), length := |l|)
    case Fetch(_) =>
      x.(pc := WantIn(x.pc.k, l[x.cursor]), cursor := if x.cursor + 1 == |l| then 0 else x.cursor + 1)
    case ScanEnd(_) => x.(pc := Park(Testing), token := true)
    case LockIn(_) => x.(pc := WantOut(x.pc.k, x.pc.m))
    case LockOut(_) => x.(pc := Both(x.pc.k, x.pc.m))
    case Miss(_) => x.(pc := Scan(x.pc.k + 1), seen := x.seen + {x.pc.m})
    case Match(_) => x.(pc := Commit(x.pc.k, x.pc.m))
    case Hit(_) =>
      if d == Out then
        x.(pc := AckWait(x.pc.m, Testing), ready := false, to := x.to + [(x.pc.m, |y.from|)])
      else
        x.(pc := Release, ready := false, buffer := y.buffer, data := y.buffer,
           from := x.from + [(x.pc.m, |y.to|)])
    case AckSleep(_) => x.(pc := AckWait(x.pc.m, Asleep))
    case AckPass(_) => x.(pc := Release)
    case GiveBack(_) => x.(pc := Idle, token := true, got := if d == In then x.got + [x.data] else x.got)
    case ParkSleep(_) => x.(pc := Park(Asleep))
    case ParkPass(_) => x.(pc := if d == In then Copy else Idle, blocked := x.blocked - 1)
    case Take(_, _) => x.(pc := Idle, data := x.buffer, got := x.got + [x.buffer], acks := x.acks + 1)
    case TakeQuiet(_) => x.(pc := Idle, data := x.buffer, got := x.got + [x.buffer], acks := x.acks + 1)
  }

  /** `my_sem_post(&y->blocked)`: the owner, if asleep, is signalled. */
  function PostBlocked(y: Half): Half {
    y.(blocked := y.blocked + 1, pc := if y.pc == Park(Asleep) then Park(Woken) else y.pc)
  }

  /** The partner after the step, when it is another half. */
  function Other(d: Dir, x: Half, y: Half, a: Step): Half {
    match a
    case Hit(h) =>
      if d == Out then
        PostBlocked(y.(ready := false, buffer := x.buffer, from := y.from + [(h, |x.to|)]))
      else
        PostBlocked(y.(ready := false, to := y.to + [(h, |x.from|)]))
    case AckPass(_) => y.(acks := y.acks - 1)
    case Take(h, _) => y.(pc := AckWait(h, Woken))
    case _ => y
  }

  function Apply(g: Graph, s: State, a: Step): State
    requires Enabled(g, s, a)
  {
    var h, d := a.h, g.dir[a.h];
    var x, m := s[h], Partner(s[h], a);
    s[m := Other(d, x, s[m], a)][h := Own(d, g.conns[h], x, s[m], a)]
  }

  ghost predicate Moves(g: Graph, s: State, a: Step, s': State) {
    Enabled(g, s, a) && s' == Apply(g, s, a)
  }

  /** A run: every step is enabled where it is taken. */
  ghost predicate Run(g: Graph, b: seq<State>, steps: seq<Step>) {
    |b| == |steps| + 1 && forall j | 0 <= j < |steps| :: Moves(g, b[j], steps[j], b[j + 1])
  }
}
