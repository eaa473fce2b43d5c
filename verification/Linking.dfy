/**
 Binding and unbinding while sends and receives run (Channels/channel.c): the step machine of
 Rendezvous.dfy with its graph in the state, and any number of threads that bind and unbind.  Such a
 thread takes conn_op_mutex, then for an unbind the two conns_sem tokens of a link, then the two
 mutexes of the pair, IN half first; each of these waits is a state of its own.
 */
module Linking {
  import opened Rendezvous
  import opened Wrappers
  import L = IteratedLists
  import B = Binding

  /** The pair worked on, in the order of the call; an unbind is in its round i. */
  datatype Job =
    | ToBind(one: nat, two: nat)
    | ToUnbind(one: nat, two: nat, i: nat)

  /** Where a thread stands in bind or unbind. */
  datatype LinkPC =
    | Away                               // outside both
    | Want(a: nat, b: Option<nat>)       // waiting for conn_op_mutex, to bind a and b or to unbind a
    | Head(id: nat, i: nat)              // loop head of unbind, i rounds done
    | TokenIn(j: Job, w: Wait)           // waiting for the token of the IN half
    | TokenOut(j: Job, w: Wait)          // has it, waiting for the token of the OUT half
    | LinkIn(j: Job)                     // waiting for the mutex of the IN half
    | LinkOut(j: Job)                    // holds it, waiting for the mutex of the OUT half
    | LinkBoth(j: Job)                   // holds both mutexes
    | PostOne(j: Job)                    // lists changed, both tokens still to be given
    | PostTwo(j: Job)                    // the second token still to be given
    | Leave                              // about to release conn_op_mutex and return
    | Left(j: Job)                       // has returned from a refused bind with both mutexes locked

  /** A connection list that is found empty in mid-scan gives a null partner, and the process dies of it. */
  datatype Net = Net(g: Graph, size: map<nat, nat>, s: State, op: Option<nat>, links: map<nat, LinkPC>, crashed: bool)

  datatype Act =
    | Call(a: nat, b: Option<nat>) | Enter | Pick | Doze | Take | LockFirst | LockSecond | Change | Post | Return

  datatype Event = Talk(a: Step) | Link(t: nat, act: Act) | Fault(h: nat)

  function InEnd(dir: map<nat, Dir>, j: Job): nat {
    if j.one in dir && dir[j.one] == In then j.one else j.two
  }

  function OutEnd(dir: map<nat, Dir>, j: Job): nat {
    if j.one in dir && dir[j.one] == In then j.two else j.one
  }

  /** Inside the mutex of half x. */
  predicate LinkerInside(dir: map<nat, Dir>, pc: LinkPC, x: nat) {
    match pc
    case LinkOut(j) => x == InEnd(dir, j)
    case LinkBoth(j) => x == j.one || x == j.two
    case PostOne(j) => j.ToBind? && (x == j.one || x == j.two)
    case PostTwo(j) => j.ToBind? && (x == j.one || x == j.two)
    case Left(j) => x == j.one || x == j.two
    case _ => false
  }

  predicate Waiting(pc: LinkPC) {
    pc.TokenIn? || pc.TokenOut?
  }

  /** The half whose token is waited for. */
  function Target(dir: map<nat, Dir>, pc: LinkPC): nat
    requires Waiting(pc)
  {
    if pc.TokenIn? then InEnd(dir, pc.j) else OutEnd(dir, pc.j)
  }

  predicate WaitsOn(dir: map<nat, Dir>, pc: LinkPC, w: Wait, x: nat) {
    Waiting(pc) && pc.w == w && Target(dir, pc) == x
  }

  /** No thread that binds or unbinds is inside the mutex of half x. */
  predicate Unlinked(n: Net, x: nat) {
    forall t | t in n.links :: !LinkerInside(n.g.dir, n.links[t], x)
  }

  predicate Clear(n: Net, x: nat) {
    Free(n.g, n.s, x) && Unlinked(n, x)
  }

  /** The mutex that a step of send or receive locks. */
  function Locked(d: Dir, x: Half, a: Step): Option<nat> {
    match a
    case Raise(h) => Some(h)
    case LockIn(h) => if x.pc.WantIn? then Some(InSide(d, h, x.pc.m)) else None
    case LockOut(h) => if x.pc.WantOut? then Some(OutSide(d, h, x.pc.m)) else None
    case _ => None
  }

  predicate TalkReady(n: Net, a: Step) {
    && Enabled(n.g, n.s, a)
    && var x := Locked(n.g.dir[a.h], n.s[a.h], a);
    && (x.Some? ==> Unlinked(n, x.value))
  }

  predicate LinkReady(n: Net, pc: LinkPC, act: Act) {
    match act
    case Call(a, b) => pc == Away && a in n.g.dir && (b.Some? ==> b.value in n.g.dir)
    case Enter => pc.Want? && n.op == None
    case Pick => pc.Head? && pc.id in n.g.conns
    case Doze => Waiting(pc) && pc.w == Testing && Target(n.g.dir, pc) in n.s && !n.s[Target(n.g.dir, pc)].token
    case Take => Waiting(pc) && Target(n.g.dir, pc) in n.s &&
      (pc.w == Woken || (pc.w == Testing && n.s[Target(n.g.dir, pc)].token))
    case LockFirst => pc.LinkIn? && Clear(n, InEnd(n.g.dir, pc.j))
    case LockSecond => pc.LinkOut? && Clear(n, OutEnd(n.g.dir, pc.j))
    case Change => pc.LinkBoth? && Paired(n, pc.j)
    case Post => (pc.PostOne? || pc.PostTwo?) && Paired(n, pc.j)
    case Return => pc == Leave
  }

  predicate Paired(n: Net, j: Job) {
    && j.one in n.s && j.two in n.s && j.one in n.g.conns && j.two in n.g.conns
  }

  /** The scan has probes left, but an unbind has taken the last connection. */
  predicate Emptied(n: Net, h: nat) {
    h in n.s && h in n.g.conns && n.s[h].pc.Scan? && n.s[h].pc.k < n.s[h].length && n.g.conns[h] == []
  }

  predicate Ready(n: Net, e: Event) {
    !n.crashed &&
    match e
    case Talk(a) => TalkReady(n, a)
    case Link(t, act) => t in n.links && LinkReady(n, n.links[t], act)
    case Fault(h) => Emptied(n, h)
  }

  // ----- effects -----

  /** The signal of binary_sem_post, as one of the waiting threads sees it. */
  function Woke(dir: map<nat, Dir>, pc: LinkPC, x: nat): LinkPC {
    if !WaitsOn(dir, pc, Asleep, x) then pc
    else if pc.TokenIn? then TokenIn(pc.j, Woken) else TokenOut(pc.j, Woken)
  }

  function WokeAll(dir: map<nat, Dir>, links: map<nat, LinkPC>, x: nat): map<nat, LinkPC> {
    map t | t in links :: Woke(dir, links[t], x)
  }

  function PostToken(x: Half): Half {
    x.(token := true, pc := if x.pc == Start(Asleep) then Start(Woken) else x.pc)
  }

  /** binary_sem_post on the token of half h: the owner is signalled if it sleeps there. */
  function Posted(n: Net, h: nat): Net
    requires h in n.s
  {
    n.(s := n.s[h := PostToken(n.s[h])],
       links := if n.s[h].pc == Start(Asleep) then n.links else WokeAll(n.g.dir, n.links, h))
  }

  function Joined(g: Graph, a: nat, b: nat): Graph
    requires a in g.conns && b in g.conns
  {
    g.(conns := g.conns[a := [b] + g.conns[a]][b := [a] + g.conns[b]])
  }

  function Parted(g: Graph, a: nat, b: nat): Graph
    requires a in g.conns && b in g.conns
  {
    g.(conns := g.conns[a := B.Minus(g.conns[a], b)][b := B.Minus(g.conns[b], a)])
  }

  /** The cursor of list l after m is inserted at its head, or removed. */
  function Grown(l: seq<nat>, x: Half): Half {
    x.(cursor := L.InsertCursor(|l|, x.cursor))
  }

  function Shrunk(l: seq<nat>, x: Half, m: nat): Half {
    var k := L.IndexOf(l, m);
    if k < |l| && x.cursor < |l| then x.(cursor := B.DropCursor(|l|, x.cursor, k)) else x
  }

  function Entered(n: Net, t: nat, pc: LinkPC): LinkPC
    requires pc.Want?
  {
    match pc.b
    case None => Head(pc.a, 0)
    case Some(b) =>
      if pc.a in n.g.dir && b in n.g.dir && n.g.dir[pc.a] != n.g.dir[b] &&
         pc.a in n.size && b in n.size && n.size[pc.a] == n.size[b]
      then LinkIn(ToBind(pc.a, b)) else Leave
  }

  function Changed(n: Net, t: nat, j: Job): Net
    requires Paired(n, j)
  {
    var a, b := j.one, j.two;
    if j.ToBind? then
      if b in n.g.conns[a] then n.(op := None, links := n.links[t := Left(j)])
      else n.(g := Joined(n.g, a, b), links := n.links[t := PostOne(j)],
              s := n.s[a := Grown(n.g.conns[a], n.s[a])][b := Grown(n.g.conns[b], n.s[b])])
    else n.(g := Parted(n.g, a, b), links := n.links[t := PostOne(j)],
            s := n.s[a := Shrunk(n.g.conns[a], n.s[a], b)][b := Shrunk(n.g.conns[b], n.s[b], a)])
  }

  /** An unbind gives a token back only to a half that still has a connection. */
  function Given(n: Net, t: nat, pc: LinkPC): Net
    requires (pc.PostOne? || pc.PostTwo?) && Paired(n, pc.j) && t in n.links
  {
    var j := pc.j;
    var h := if pc.PostOne? then j.one else j.two;
    var p := if j.ToBind? || n.g.conns[h] != [] then Posted(n, h) else n;
    p.(links := p.links[t := if pc.PostOne? then PostTwo(j) else if j.ToBind? then Leave else Head(j.one, j.i + 1)])
  }

  function LinkStep(n: Net, t: nat, act: Act): Net
    requires t in n.links && LinkReady(n, n.links[t], act)
  {
    var pc := n.links[t];
    match act
    case Call(a, b) => n.(links := n.links[t := Want(a, b)])
    case Enter => n.(op := Some(t), links := n.links[t := Entered(n, t, pc)])
    case Pick =>
      var l := n.g.conns[pc.id];
      n.(links := n.links[t := if pc.i < |l| then TokenIn(ToUnbind(pc.id, l[pc.i], pc.i), Testing) else Leave])
    case Doze => n.(links := n.links[t := if pc.TokenIn? then TokenIn(pc.j, Asleep) else TokenOut(pc.j, Asleep)])
    case Take =>
      var h := Target(n.g.dir, pc);
      n.(s := n.s[h := n.s[h].(token := false)],
         links := n.links[t := if pc.TokenIn? then TokenOut(pc.j, Testing) else LinkIn(pc.j)])
    case LockFirst => n.(links := n.links[t := LinkOut(pc.j)])
    case LockSecond => n.(links := n.links[t := LinkBoth(pc.j)])
    case Change => Changed(n, t, pc.j)
    case Post => Given(n, t, pc)
    case Return => n.(op := None, links := n.links[t := Away])
  }

  function Talked(n: Net, a: Step): Net
    requires TalkReady(n, a)
  {
    n.(s := Apply(n.g, n.s, a),
       links := if a.ScanEnd? || a.GiveBack? then WokeAll(n.g.dir, n.links, a.h) else n.links)
  }

  function After(n: Net, e: Event): Net
    requires Ready(n, e)
  {
    match e
    case Talk(a) => Talked(n, a)
    case Link(t, act) => LinkStep(n, t, act)
    case Fault(_) => n.(crashed := true)
  }

  // ----- tokens -----

  /** Between its semaphore wait and its post. */
  predicate OwnerHas(pc: PC) {
    pc == Announce || pc == Raised || pc.Scan? || pc.WantIn? || pc.WantOut? || pc.Both? || pc.Commit? || pc.AckWait? ||
        pc == Release
  }

  /** Holds the token of half x. */
  predicate LinkerHas(dir: map<nat, Dir>, pc: LinkPC, x: nat) {
    match pc
    case TokenOut(j, _) => x == InEnd(dir, j)
    case LinkIn(j) => j.ToUnbind? && (x == j.one || x == j.two)
    case LinkOut(j) => j.ToUnbind? && (x == j.one || x == j.two)
    case LinkBoth(j) => j.ToUnbind? && (x == j.one || x == j.two)
    case PostOne(j) => j.ToUnbind? && (x == j.one || x == j.two)
    case PostTwo(j) => j.ToUnbind? && x == j.two
    case _ => false
  }

  /** Has linked half x and not yet given it its token. */
  predicate Owes(pc: LinkPC, x: nat) {
    (pc.PostOne? && pc.j.ToBind? && (x == pc.j.one || x == pc.j.two)) || (pc.PostTwo? && pc.j.ToBind? && x == pc.j.two)
  }

  /** The step takes a token that has been promised to a woken sleeper: the `if` of binary_sem_wait does not
      make the sleeper look again. */
  predicate Steals(n: Net, e: Event) {
    match e
    case Talk(a) =>
      && a.TokenTake? && a.h in n.s && n.s[a.h].pc == Start(Testing)
      && exists t | t in n.links :: WaitsOn(n.g.dir, n.links[t], Woken, a.h)
    case Link(t, act) =>
      && act.Take? && t in n.links && Waiting(n.links[t]) && n.links[t].w == Testing
      && Target(n.g.dir, n.links[t]) in n.s && n.s[Target(n.g.dir, n.links[t])].pc == Start(Woken)
    case Fault(_) => false
  }

  predicate Busy(n: Net, h: nat) {
    h in n.s && OwnerHas(n.s[h].pc)
  }

  /** A bind posts the token of a half whose owner has it. */
  predicate PostsHeld(n: Net, e: Event) {
    e.Link? && e.act.Post? && e.t in n.links &&
    var pc := n.links[e.t];
    (pc.PostOne? && pc.j.ToBind? && Busy(n, pc.j.one)) || (pc.PostTwo? && pc.j.ToBind? && Busy(n, pc.j.two))
  }

  /** A bind of a pair that is linked already, which returns with both mutexes locked. */
  predicate Rebinds(n: Net, e: Event) {
    e.Link? && e.act.Change? && e.t in n.links && n.links[e.t].LinkBoth? &&
    var j := n.links[e.t].j; j.ToBind? && j.one in n.g.conns && j.two in n.g.conns[j.one]
  }

  predicate Orderly(n: Net, e: Event) {
    !Steals(n, e) && !PostsHeld(n, e)
  }

  // ----- runs -----

  ghost predicate NetInit(n: Net) {
    WellFormed(n.g) && Init(n.g, n.s) && !n.crashed && n.op == None && forall t | t in n.links :: n.links[t] == Away
  }

  ghost predicate Goes(n: Net, e: Event, n': Net) {
    Ready(n, e) && n' == After(n, e)
  }

  ghost predicate NetRun(b: seq<Net>, events: seq<Event>) {
    |b| == |events| + 1 && forall k | 0 <= k < |events| :: Goes(b[k], events[k], b[k + 1])
  }

  ghost predicate PossibleBy(b: seq<Net>, events: seq<Event>, n: Net) {
    NetRun(b, events) && NetInit(b[0]) && b[|events|] == n
  }

  /** Reached by some run. */
  ghost predicate Possible(n: Net) {
    exists b, events :: PossibleBy(b, events, n)
  }

  ghost predicate OrderlyBy(b: seq<Net>, events: seq<Event>, n: Net) {
    PossibleBy(b, events, n) && forall k | 0 <= k < |events| :: Orderly(b[k], events[k])
  }

  /** Reached by a run in which no step breaks the exclusion of a token. */
  ghost predicate Attained(n: Net) {
    exists b, events :: OrderlyBy(b, events, n)
  }
}
