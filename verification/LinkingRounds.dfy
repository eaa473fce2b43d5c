/**
 What a whole call of bind or unbind leaves of the connection lists, while anything else goes on: conn_op_mutex
 shuts every other binder out, and sends and receives change no list.
 */
module LinkingRounds {
  import opened Rendezvous
  import opened RendezvousSafety
  import opened Wrappers
  import opened Linking
  import opened LinkingSafety
  import opened LinkingProgress
  import opened LinkingRuns
  import L = IteratedLists
  import B = Binding

  type Lists = map<nat, seq<nat>>

  /** The lists now, after i rounds of an unbind of id that began with c0. */
  ghost predicate Round(c0: Lists, id: nat, i: nat, c: Lists) {
    && c.Keys == c0.Keys && id in c0 && i <= |B.Evens(c0[id])| && c[id] == B.Thinned(c0[id], i)
    && forall h | h in c0 && h != id ::
         c[h] == if h in B.Evens(c0[id])[..i] then B.Minus(c0[h], id) else c0[h]
  }

  /** The lists after a whole unbind: the links at even positions are gone, on both sides. */
  ghost predicate Halved(c0: Lists, id: nat, c: Lists) {
    && c.Keys == c0.Keys && id in c0 && c[id] == B.Odds(c0[id])
    && forall h | h in c0 && h != id :: c[h] == if h in B.Evens(c0[id]) then B.Minus(c0[h], id) else c0[h]
  }

  /** How far thread t has got with the unbind of id. */
  ghost predicate Unbinding(c0: Lists, id: nat, pc: LinkPC, c: Lists) {
    match pc
    case Head(x, i) => x == id && Round(c0, id, i, c)
    case TokenIn(j, _) => Removing(c0, id, j, c)
    case TokenOut(j, _) => Removing(c0, id, j, c)
    case LinkIn(j) => Removing(c0, id, j, c)
    case LinkOut(j) => Removing(c0, id, j, c)
    case LinkBoth(j) => Removing(c0, id, j, c)
    case PostOne(j) => j.ToUnbind? && j.one == id && Round(c0, id, j.i + 1, c)
    case PostTwo(j) => j.ToUnbind? && j.one == id && Round(c0, id, j.i + 1, c)
    case Leave => Halved(c0, id, c)
    case _ => false
  }

  /** About to remove the link at position i of what is left. */
  ghost predicate Removing(c0: Lists, id: nat, j: Job, c: Lists) {
    j.ToUnbind? && j.one == id && Round(c0, id, j.i, c) && j.i < |c[id]| && j.two == c[id][j.i]
  }

  // ----- the rounds -----

  lemma RoundEnd(c0: Lists, id: nat, i: nat, c: Lists)
    requires Round(c0, id, i, c) && i >= |c[id]|
    ensures Halved(c0, id, c)
  {
    var l := c0[id];
    B.EvensIn(l);
    if 2 * i < |l| { B.ThinnedStep(l, i); }
    B.ThinnedEnd(l, i);
    assert B.Evens(l)[..i] == B.Evens(l);
  }

  lemma RoundInside(c0: Lists, id: nat, i: nat, c: Lists)
    requires Round(c0, id, i, c) && i < |c[id]|
    ensures 2 * i < |c0[id]| && c[id][i] == c0[id][2 * i] && i < |B.Evens(c0[id])|
    ensures B.Evens(c0[id])[i] == c0[id][2 * i]
    ensures L.RemoveAt(c[id], i) == B.Thinned(c0[id], i + 1)
  {
    var l := c0[id];
    if 2 * i >= |l| { B.ThinnedEnd(l, i); }
    B.ThinnedStep(l, i);
  }

  lemma MinusAt(l: seq<nat>, i: nat)
    requires B.Distinct(l) && i < |l|
    ensures B.Minus(l, l[i]) == L.RemoveAt(l, i)
  {
    B.RemoveDistinct(l, i);
  }

  /** The removal of one link is one round. */
  lemma RoundNext(c0: Lists, id: nat, j: Job, c: Lists, c': Lists)
    requires Removing(c0, id, j, c) && B.Distinct(c0[id]) && B.Distinct(c[id]) && j.two in c0 && j.two != id
    requires c'.Keys == c.Keys && c'[id] == B.Minus(c[id], j.two) && c'[j.two] == B.Minus(c[j.two], id)
    requires forall h | h in c && h != id && h != j.two :: c'[h] == c[h]
    ensures Round(c0, id, j.i + 1, c')
  {
    hide B.Minus, B.Thinned, B.Distinct, B.Evens, L.RemoveAt;
    RoundInside(c0, id, j.i, c);
    MinusAt(c[id], j.i);
    B.FreshPartner(c0[id], j.i);
    assert B.Evens(c0[id])[..j.i + 1] == B.Evens(c0[id])[..j.i] + [j.two];
  }

  lemma RoundChange(n: Net, t: nat, act: Act, c0: Lists, id: nat)
    requires Base(n) && Jobs(n) && Ready(n, Link(t, act)) && act.Change? && (id in c0 ==> B.Distinct(c0[id]))
    requires Unbinding(c0, id, n.links[t], n.g.conns)
    ensures var n' := After(n, Link(t, act)); t in n'.links && Unbinding(c0, id, n'.links[t], n'.g.conns)
  {
    hide *;
    var n' := After(n, Link(t, act));
    BaseIs(n);
    LinksKept(n, t, act);
    NotRebind(n, t, act, c0, id);
    ChangeIs(n, t, act);
    BothJob(n, t);
    var j := n.links[t].j;
    EndsIn(n.g.dir, j);
    ListsChanged(n.g, j.one, j.two);
    RemovingIs(c0, id, j, n.g.conns);
    ListDistinct(n.g, id);
    RoundNext(c0, id, j, n.g.conns, n'.g.conns);
    PostingIs(c0, id, j, n'.g.conns);
  }

  lemma EndsIn(dir: map<nat, Dir>, j: Job)
    requires Ends(dir, j)
    ensures j.one in dir && j.two in dir
  {
  }

  lemma PostingIs(c0: Lists, id: nat, j: Job, c: Lists)
    requires j.ToUnbind? && j.one == id && Round(c0, id, j.i + 1, c)
    ensures Unbinding(c0, id, PostOne(j), c)
  {
  }

  /** A step of thread t itself, short of its return. */
  lemma OwnRound(n: Net, t: nat, act: Act, c0: Lists, id: nat)
    requires NetInv(n) && Ready(n, Link(t, act)) && act != Return && (id in c0 ==> B.Distinct(c0[id]))
    requires Unbinding(c0, id, n.links[t], n.g.conns)
    ensures var n' := After(n, Link(t, act)); t in n'.links && Unbinding(c0, id, n'.links[t], n'.g.conns)
  {
    hide *;
    SafetyIs(n);
    if act.Change? {
      RoundChange(n, t, act, c0, id);
    } else {
      GraphKept(n, t, act);
      OwnPoint(n, t, act, c0, id);
    }
  }

  lemma NotRebind(n: Net, t: nat, act: Act, c0: Lists, id: nat)
    requires Ready(n, Link(t, act)) && act.Change? && Unbinding(c0, id, n.links[t], n.g.conns)
    ensures !Rebinds(n, Link(t, act)) && n.links[t].LinkBoth? && n.links[t].j.ToUnbind?
    ensures Removing(c0, id, n.links[t].j, n.g.conns)
  {
    hide Round;
  }

  lemma RemovingIs(c0: Lists, id: nat, j: Job, c: Lists)
    requires Removing(c0, id, j, c)
    ensures j.one == id && id in c0 && id in c && c.Keys == c0.Keys
  {
  }

  /** The steps that leave the lists alone. */
  lemma OwnPoint(n: Net, t: nat, act: Act, c0: Lists, id: nat)
    requires Ready(n, Link(t, act)) && act != Return && !act.Change?
    requires Unbinding(c0, id, n.links[t], n.g.conns)
    ensures var n' := After(n, Link(t, act)); t in n'.links && Unbinding(c0, id, n'.links[t], n.g.conns)
  {
    hide Round, Halved, Woke;
    if act.Pick? {
      RoundKeys(c0, id, n.links[t].i, n.g.conns);
      if n.links[t].i >= |n.g.conns[id]| { RoundEnd(c0, id, n.links[t].i, n.g.conns); }
    }
  }

  lemma RoundKeys(c0: Lists, id: nat, i: nat, c: Lists)
    requires Round(c0, id, i, c)
    ensures id in c && c.Keys == c0.Keys
  {
  }

  // ----- a bind -----

  predicate Fitting(n: Net, a: nat, b: nat) {
    && a in n.g.dir && b in n.g.dir && n.g.dir[a] != n.g.dir[b]
    && a in n.size && b in n.size && n.size[a] == n.size[b]
  }

  /** Each half at the head of the other's list. */
  ghost predicate Coupled(c0: Lists, a: nat, b: nat, c: Lists) {
    && c.Keys == c0.Keys && a in c0 && b in c0 && a != b && b !in c0[a]
    && c[a] == [b] + c0[a] && c[b] == [a] + c0[b] && forall h | h in c0 && h != a && h != b :: c[h] == c0[h]
  }

  /** How far a thread has got with the bind of a and b; fit says whether they are of different direction and the
      same size. */
  ghost predicate Joining(c0: Lists, a: nat, b: nat, fit: bool, pc: LinkPC, c: Lists) {
    match pc
    case LinkIn(j) => j == ToBind(a, b) && fit && c == c0
    case LinkOut(j) => j == ToBind(a, b) && fit && c == c0
    case LinkBoth(j) => j == ToBind(a, b) && fit && c == c0
    case PostOne(j) => j == ToBind(a, b) && fit && Coupled(c0, a, b, c)
    case PostTwo(j) => j == ToBind(a, b) && fit && Coupled(c0, a, b, c)
    case Leave => if fit then Coupled(c0, a, b, c) else c == c0
    case _ => false
  }

  lemma JoinChange(n: Net, t: nat, act: Act, c0: Lists, a: nat, b: nat, fit: bool)
    requires Jobs(n) && Ready(n, Link(t, act)) && act.Change? && !Rebinds(n, Link(t, act))
    requires n.g.conns.Keys == n.g.dir.Keys && Joining(c0, a, b, fit, n.links[t], n.g.conns)
    ensures var n' := After(n, Link(t, act)); t in n'.links && Joining(c0, a, b, fit, n'.links[t], n'.g.conns)
  {
    hide *;
    LinksKept(n, t, act);
    ChangeIs(n, t, act);
    BothJob(n, t);
    var j := n.links[t].j;
    EndsIn(n.g.dir, j);
    JoiningIs(c0, a, b, fit, n.links[t], n.g.conns);
    ListsChanged(n.g, a, b);
    CoupledIs(c0, a, b, After(n, Link(t, act)).g.conns);
    JoinedIs(c0, a, b, fit, After(n, Link(t, act)).g.conns);
  }

  lemma JoiningIs(c0: Lists, a: nat, b: nat, fit: bool, pc: LinkPC, c: Lists)
    requires Joining(c0, a, b, fit, pc, c) && pc.LinkBoth?
    ensures pc.j == ToBind(a, b) && fit && c == c0
  {
    hide Coupled;
  }

  lemma JoinedIs(c0: Lists, a: nat, b: nat, fit: bool, c: Lists)
    requires fit && Coupled(c0, a, b, c)
    ensures Joining(c0, a, b, fit, PostOne(ToBind(a, b)), c)
  {
    hide Coupled;
  }

  /** A step of thread t itself, short of its return and of a refusal. */
  lemma OwnJoin(n: Net, t: nat, act: Act, c0: Lists, a: nat, b: nat, fit: bool)
    requires NetInv(n) && Ready(n, Link(t, act)) && act != Return && !Rebinds(n, Link(t, act))
    requires Joining(c0, a, b, fit, n.links[t], n.g.conns)
    ensures var n' := After(n, Link(t, act)); t in n'.links && Joining(c0, a, b, fit, n'.links[t], n'.g.conns)
  {
    hide *;
    SafetyIs(n);
    if act.Change? {
      JoinChange(n, t, act, c0, a, b, fit);
    } else {
      GraphKept(n, t, act);
      JoinPoint(n, t, act, c0, a, b, fit);
    }
  }

  lemma CoupledIs(c0: Lists, a: nat, b: nat, c: Lists)
    requires c.Keys == c0.Keys && a in c0 && b in c0 && a != b && b !in c0[a]
    requires forall h | h in c0 :: c[h] == if h == a then [b] + c0[a] else if h == b then [a] + c0[b] else c0[h]
    ensures Coupled(c0, a, b, c)
  {
  }

  lemma JoinPoint(n: Net, t: nat, act: Act, c0: Lists, a: nat, b: nat, fit: bool)
    requires Ready(n, Link(t, act)) && act != Return && !act.Change?
    requires Joining(c0, a, b, fit, n.links[t], n.g.conns)
    ensures var n' := After(n, Link(t, act)); t in n'.links && Joining(c0, a, b, fit, n'.links[t], n.g.conns)
  {
    hide Coupled, Woke;
  }

  /** A refusal finds the pair linked and leaves the lists alone. */
  lemma JoinRefused(n: Net, t: nat, act: Act, c0: Lists, a: nat, b: nat, fit: bool)
    requires Ready(n, Link(t, act)) && Rebinds(n, Link(t, act)) && Joining(c0, a, b, fit, n.links[t], n.g.conns)
    ensures fit && a in c0 && b in c0[a] && After(n, Link(t, act)).g.conns == c0
    ensures t in After(n, Link(t, act)).links && After(n, Link(t, act)).links[t] == Left(ToBind(a, b))
  {
    hide After, Ready;
    RebindIs(n, Link(t, act));
  }

  // ----- either call -----

  /** The call of bind or unbind that thread t has asked for and how far it is, given the net it entered in. */
  ghost predicate Doing(n0: Net, a: nat, b: Option<nat>, pc: LinkPC, c: Lists) {
    match b
    case None => Unbinding(n0.g.conns, a, pc, c)
    case Some(m) => Joining(n0.g.conns, a, m, Fitting(n0, a, m), pc, c)
  }

  lemma WokeUnbinding(c0: Lists, id: nat, dir: map<nat, Dir>, pc: LinkPC, x: nat, c: Lists)
    requires Unbinding(c0, id, pc, c)
    ensures Unbinding(c0, id, Woke(dir, pc, x), c)
  {
    hide Removing, Round, Halved;
  }

  lemma WokeDoing(n0: Net, a: nat, b: Option<nat>, dir: map<nat, Dir>, pc: LinkPC, x: nat, c: Lists)
    requires Doing(n0, a, b, pc, c)
    ensures Doing(n0, a, b, Woke(dir, pc, x), c)
  {
    hide Unbinding, Coupled, Fitting;
    if b.None? { WokeUnbinding(n0.g.conns, a, dir, pc, x, c); }
  }

  /** While thread t is inside, no other step changes a list, or its program point but to wake it. */
  lemma OthersDoing(n: Net, e: Event, t: nat, n0: Net, a: nat, b: Option<nat>)
    requires NetInv(n) && Ready(n, e) && n.op == Some(t) && t in n.links && !(e.Link? && e.t == t)
    requires Doing(n0, a, b, n.links[t], n.g.conns)
    ensures var n' := After(n, e);
      && n'.g.conns == n.g.conns && n'.op == Some(t) && t in n'.links && Doing(n0, a, b, n'.links[t], n.g.conns)
  {
    hide NetInv, Ready, After, Doing, Base, Jobs, OneOperator, Woke, Operating;
    SafetyIs(n);
    match e
    case Talk(s) => TalkIs(n, s); WokeDoing(n0, a, b, n.g.dir, n.links[t], s.h, n.g.conns);
    case Link(u, act) =>
      OtherActs(n, t, u, act);
      LinksKept(n, u, act);
      GraphKept(n, u, act);
      var x := OthersStay(n, u, act, t);
      WokeDoing(n0, a, b, n.g.dir, n.links[t], x, n.g.conns);
    case Fault(_) => FaultIs(n, e);
  }

  lemma OtherActs(n: Net, t: nat, u: nat, act: Act)
    requires OneOperator(n) && n.op == Some(t) && Ready(n, Link(u, act)) && u != t
    ensures act.Call? && After(n, Link(u, act)).op == n.op
  {
    assert Operating(n.links[u]) <==> n.op == Some(u);
  }

  lemma OwnOp(n: Net, t: nat, act: Act)
    requires Ready(n, Link(t, act)) && n.op == Some(t) && act != Return && !Rebinds(n, Link(t, act))
    requires !n.links[t].Want?
    ensures After(n, Link(t, act)).op == Some(t)
  {
    hide Woke, Joined, Parted, Grown, Shrunk;
  }

  lemma OwnDoing(n: Net, t: nat, act: Act, n0: Net, a: nat, b: Option<nat>)
    requires NetInv(n) && Ready(n, Link(t, act)) && act != Return && !Rebinds(n, Link(t, act)) && n.op == Some(t)
    requires Doing(n0, a, b, n.links[t], n.g.conns) && (a in n0.g.conns ==> B.Distinct(n0.g.conns[a]))
    ensures var n' := After(n, Link(t, act));
      n'.op == Some(t) && t in n'.links && Doing(n0, a, b, n'.links[t], n'.g.conns)
  {
    hide NetInv, Ready, After, Unbinding, Joining, Fitting, Rebinds, B.Distinct;
    LinksKept(n, t, act);
    DoingPoint(n0, a, b, n.links[t], n.g.conns);
    OwnOp(n, t, act);
    match b
    case None => OwnRound(n, t, act, n0.g.conns, a);
    case Some(m) => OwnJoin(n, t, act, n0.g.conns, a, m, Fitting(n0, a, m));
  }

  lemma DoingPoint(n0: Net, a: nat, b: Option<nat>, pc: LinkPC, c: Lists)
    requires Doing(n0, a, b, pc, c)
    ensures !pc.Want? && !pc.Left?
  {
    hide Round, Halved, Coupled, Fitting;
  }

  lemma EnterIs(n: Net, t: nat)
    requires Ready(n, Link(t, Enter))
    ensures t in n.links && n.links[t].Want?
    ensures After(n, Link(t, Enter)) == n.(op := Some(t), links := n.links[t := Entered(n, t, n.links[t])])
  {
    hide Entered;
  }

  lemma EnteredDoing(n: Net, t: nat, a: nat, b: Option<nat>)
    requires a in n.g.conns
    ensures Doing(n, a, b, Entered(n, t, Want(a, b)), n.g.conns)
  {
    RoundStart(n.g.conns, a);
    hide Round;
  }

  lemma WantKnown(n: Net, t: nat, a: nat, b: Option<nat>)
    requires Jobs(n) && t in n.links && n.links[t] == Want(a, b)
    ensures a in n.g.dir
  {
    assert JobOk(n.g, n.links[t]);
  }

  lemma EntersDoing(n: Net, t: nat, a: nat, b: Option<nat>)
    requires NetInv(n) && Ready(n, Link(t, Enter)) && t in n.links && n.links[t] == Want(a, b)
    ensures a in n.g.conns && B.Distinct(n.g.conns[a])
    ensures var n' := After(n, Link(t, Enter));
      && n'.op == Some(t) && t in n'.links && n'.g.conns == n.g.conns && Doing(n, a, b, n'.links[t], n.g.conns)
  {
    hide *;
    SafetyIs(n);
    BaseIs(n);
    WantKnown(n, t, a, b);
    ListDistinct(n.g, a);
    EnterIs(n, t);
    EnteredDoing(n, t, a, b);
  }

  lemma RoundStart(c0: Lists, id: nat)
    requires id in c0
    ensures Round(c0, id, 0, c0)
  {
  }

  // ----- whole calls -----

  /** Thread t enters bind or unbind with the first event, and neither returns nor is refused before the last. */
  ghost predicate OneCall(b: seq<Net>, events: seq<Event>, t: nat, one: nat, two: Option<nat>) {
    && NetRun(b, events) && |events| > 0 && Possible(b[0]) && events[0] == Link(t, Enter)
    && t in b[0].links && b[0].links[t] == Want(one, two)
    && forall k | 0 < k < |events| - 1 :: !Quits(b[k], events[k], t)
  }

  /** Thread t returns, or is refused. */
  predicate Quits(n: Net, e: Event, t: nat) {
    e.Link? && e.t == t && (e.act == Return || Rebinds(n, e))
  }

  lemma CallPossible(b: seq<Net>, events: seq<Event>, k: nat)
    requires NetRun(b, events) && Possible(b[0]) && k < |b|
    ensures Possible(b[k])
  {
    hide Ready, After, Possible;
    if k > 0 {
      CallPossible(b, events, k - 1);
      assert Goes(b[k - 1], events[k - 1], b[k]);
      PossibleStep(b[k - 1], events[k - 1], b[k]);
    }
  }

  lemma {:induction false} CallDoing(b: seq<Net>, events: seq<Event>, t: nat, one: nat, two: Option<nat>, k: nat)
    requires OneCall(b, events, t, one, two) && 0 < k < |b|
    requires k == |events| ==> !Quits(b[k - 1], events[k - 1], t)
    ensures b[k].op == Some(t) && t in b[k].links && Doing(b[0], one, two, b[k].links[t], b[k].g.conns)
    ensures one in b[0].g.conns && B.Distinct(b[0].g.conns[one])
  {
    hide NetInv, Ready, After, Possible, Doing, Rebinds, B.Distinct;
    var n, e := b[k - 1], events[k - 1];
    assert Goes(n, e, b[k]);
    CallPossible(b, events, k - 1);
    PossibleInv(n);
    if k == 1 {
      EntersDoing(n, t, one, two);
    } else {
      CallDoing(b, events, t, one, two, k - 1);
      if e.Link? && e.t == t { OwnDoing(n, t, e.act, b[0], one, two); }
      else { OthersDoing(n, e, t, b[0], one, two); }
    }
  }

  /** At the head of round i of an unbind, whatever else goes on, the list is what i rounds leave of it. */
  lemma UnbindRounds(b: seq<Net>, events: seq<Event>, t: nat, id: nat, k: nat)
    requires OneCall(b, events, t, id, None) && 0 < k < |b| && t in b[k].links && b[k].links[t].Head?
    requires k == |events| ==> !Quits(b[k - 1], events[k - 1], t)
    ensures b[k].links[t].id == id && id in b[0].g.conns && id in b[k].g.conns
    ensures b[k].g.conns[id] == B.Thinned(b[0].g.conns[id], b[k].links[t].i)
  {
    hide OneCall, Quits;
    CallDoing(b, events, t, id, None, k);
  }

  lemma LastQuits(b: seq<Net>, events: seq<Event>, t: nat, one: nat, two: Option<nat>)
    requires OneCall(b, events, t, one, two) && |events| > 1 && Quits(b[|events| - 1], events[|events| - 1], t)
    ensures |b| == |events| + 1
    ensures var n, e := b[|events| - 1], events[|events| - 1];
      && t in n.links && Doing(b[0], one, two, n.links[t], n.g.conns) && e.Link? && e.t == t
      && Ready(n, e) && After(n, e) == b[|events|]
  {
    hide NetInv, Ready, After, Possible, Doing, Rebinds, B.Distinct;
    CallDoing(b, events, t, one, two, |events| - 1);
    assert Goes(b[|events| - 1], events[|events| - 1], b[|events|]);
  }

  /** A whole unbind takes the links at even positions, on both sides, and touches no other list. */
  lemma UnbindLeaves(b: seq<Net>, events: seq<Event>, t: nat, id: nat)
    requires OneCall(b, events, t, id, None) && |events| > 1 && Quits(b[|events| - 1], events[|events| - 1], t)
    ensures events[|events| - 1] == Link(t, Return)
    ensures var c0, c := b[0].g.conns, b[|events|].g.conns;
      && c.Keys == c0.Keys && id in c0 && c[id] == B.Odds(c0[id])
      && forall h | h in c0 && h != id :: c[h] == if h in B.Evens(c0[id]) then B.Minus(c0[h], id) else c0[h]
  {
    hide OneCall, Round, Ready, After, B.Odds, B.Evens, B.Minus;
    LastQuits(b, events, t, id, None);
    var n, e := b[|events| - 1], events[|events| - 1];
    QuitPoint(n, t, e.act);
    if e.act == Return { GraphKept(n, t, e.act); }
  }

  lemma QuitPoint(n: Net, t: nat, act: Act)
    requires Ready(n, Link(t, act))
    ensures act == Return ==> n.links[t] == Leave
    ensures Rebinds(n, Link(t, act)) ==> n.links[t].LinkBoth? && n.links[t].j.ToBind?
  {
  }

  /** A whole bind puts each half at the head of the other's list if they are of opposite direction, of the same size
      and not linked; it changes no list otherwise, and is refused exactly if they fit and are linked. */
  lemma BindLeaves(b: seq<Net>, events: seq<Event>, t: nat, one: nat, two: nat)
    requires OneCall(b, events, t, one, Some(two)) && |events| > 1
    requires Quits(b[|events| - 1], events[|events| - 1], t)
    ensures one in b[0].g.conns
    ensures var c0, c, fit := b[0].g.conns, b[|events|].g.conns, Fitting(b[0], one, two);
      if !fit then c == c0
      else if two in c0[one] then c == c0 && b[|events|].links[t] == Left(ToBind(one, two))
      else Coupled(c0, one, two, c) && events[|events| - 1] == Link(t, Return)
  {
    hide OneCall, Ready, After, Coupled, Fitting;
    LastQuits(b, events, t, one, Some(two));
    CallKnown(b, events, t, one, Some(two));
    var n, e := b[|events| - 1], events[|events| - 1];
    QuitPoint(n, t, e.act);
    if e.act == Return {
      GraphKept(n, t, e.act);
      if Fitting(b[0], one, two) { NotLinked(b[0].g.conns, one, two, n.g.conns); }
    } else {
      JoinRefused(n, t, e.act, b[0].g.conns, one, two, Fitting(b[0], one, two));
    }
  }

  lemma CallKnown(b: seq<Net>, events: seq<Event>, t: nat, one: nat, two: Option<nat>)
    requires OneCall(b, events, t, one, two) && |events| > 1
    ensures one in b[0].g.conns
  {
    hide NetInv, Ready, After, Possible, Doing, Rebinds, B.Distinct, Quits;
    CallDoing(b, events, t, one, two, 1);
  }

  lemma NotLinked(c0: Lists, a: nat, b: nat, c: Lists)
    requires Coupled(c0, a, b, c)
    ensures a in c0 && b !in c0[a]
  {
  }

  // ----- whom a scan comes to next -----

  function Following(l: seq<nat>, c: nat): nat
    requires c < |l|
  {
    if c + 1 < |l| then l[c + 1] else l[0]
  }

  /** From list l with the cursor at c to list k with the cursor at d: the cursor is on the same partner, or on the
      following one if that partner has been fetched or has gone. */
  predicate Onward(l: seq<nat>, c: nat, k: seq<nat>, d: nat, fetched: bool) {
    c < |l| && (k != [] ==> d < |k| && k[d] == if fetched || l[c] !in k then Following(l, c) else l[c])
  }

  lemma SameOnward(l: seq<nat>, c: nat)
    requires c < |l|
    ensures Onward(l, c, l, c, false)
  {
  }

  lemma GrownOnward(l: seq<nat>, x: Half, m: nat)
    requires x.cursor < |l|
    ensures Onward(l, x.cursor, [m] + l, Grown(l, x).cursor, false)
  {
  }

  lemma ShrunkOnward(l: seq<nat>, x: Half, m: nat)
    requires x.cursor < |l| && m in l && B.Distinct(l)
    ensures Onward(l, x.cursor, B.Minus(l, m), Shrunk(l, x, m).cursor, false)
  {
    var k := L.IndexOf(l, m);
    MinusIs(l, m);
    if |l| > 1 { L.RemoveKeepsCursor(l, x.cursor, k); }
  }

  lemma ChangeOnward(n: Net, t: nat, act: Act, h: nat)
    requires Base(n) && Jobs(n) && Ready(n, Link(t, act)) && act.Change? && !Rebinds(n, Link(t, act))
    requires h in n.s && h in n.g.conns && n.g.conns[h] != []
    ensures var n' := After(n, Link(t, act));
      && h in n'.s && h in n'.g.conns
      && Onward(n.g.conns[h], n.s[h].cursor, n'.g.conns[h], n'.s[h].cursor, false)
  {
    hide *;
    BaseIs(n);
    var l, x := n.g.conns[h], n.s[h];
    CursorsHere(n, h);
    ChangeIs(n, t, act);
    BothJob(n, t);
    var j := n.links[t].j;
    ListsChanged(n.g, j.one, j.two);
    if j.ToUnbind? { LinkEnds(n.g, j.one, j.two); }
    SameOnward(l, x.cursor);
    if h == j.one || h == j.two {
      var m := if h == j.one then j.two else j.one;
      ListDistinct(n.g, h);
      if j.ToBind? { GrownOnward(l, x, m); } else { ShrunkOnward(l, x, m); }
    }
  }

  lemma CursorsHere(n: Net, h: nat)
    requires Base(n) && h in n.s && h in n.g.conns && n.g.conns[h] != []
    ensures n.s[h].cursor < |n.g.conns[h]|
  {
    hide HalvesOk, WellFormed;
  }

  lemma OwnOnward(d: Dir, l: seq<nat>, x: Half, y: Half, a: Step)
    requires Guard(l, x, y, a) && x.cursor < |l|
    ensures Onward(l, x.cursor, l, Own(d, l, x, y, a).cursor, a.Fetch?)
  {
  }

  lemma OtherCursor(d: Dir, x: Half, y: Half, a: Step)
    ensures Other(d, x, y, a).cursor == y.cursor
  {
  }

  lemma TalkOnward(n: Net, a: Step, h: nat)
    requires Base(n) && TalkReady(n, a) && h in n.s && h in n.g.conns && n.g.conns[h] != []
    ensures var n' := Talked(n, a);
      n'.g == n.g && h in n'.s &&
      Onward(n.g.conns[h], n.s[h].cursor, n.g.conns[h], n'.s[h].cursor, a == Step.Fetch(h))
  {
    hide *;
    TalkEnabled(n, a);
    TalkHalves(n, a);
    CursorsHere(n, h);
    SameOnward(n.g.conns[h], n.s[h].cursor);
    var d, l, m := n.g.dir[a.h], n.g.conns[a.h], Partner(n.s[a.h], a);
    if h == a.h { OwnOnward(d, l, n.s[h], n.s[m], a); } else if h == m { OtherCursor(d, n.s[a.h], n.s[h], a); }
    assert a == Step.Fetch(h) <==> a.Fetch? && a.h == h;
  }

  lemma PlainOnward(n: Net, t: nat, act: Act, h: nat)
    requires Base(n) && Ready(n, Link(t, act)) && !act.Change? && h in n.s
    ensures var n' := After(n, Link(t, act)); n'.g == n.g && h in n'.s && n'.s[h].cursor == n.s[h].cursor
  {
    hide Ready, After, Base;
    if act.Post? || act.Take? { KinPost(n, t, act); KinKeys(n.s, After(n, Link(t, act)).s); }
    else { StateKept(n, t, act); }
    GraphKept(n, t, act);
  }

  /** The scan of a half goes round its list whatever is bound and unbound meanwhile: a step leaves the partner it comes
      to next, or goes on to the following one when the step fetches it or cuts its link. */
  lemma NextKept(n: Net, e: Event, h: nat)
    requires Possible(n) && Ready(n, e) && h in n.s && h in n.g.conns && n.g.conns[h] != []
    ensures var n' := After(n, e);
      && h in n'.s && h in n'.g.conns
      && Onward(n.g.conns[h], n.s[h].cursor, n'.g.conns[h], n'.s[h].cursor, e == Talk(Step.Fetch(h)))
  {
    hide *;
    PossibleInv(n);
    SafetyIs(n);
    CursorsHere(n, h);
    SameOnward(n.g.conns[h], n.s[h].cursor);
    match e
    case Talk(a) => TalkIs(n, a); TalkOnward(n, a, h);
    case Link(t, act) =>
      if Rebinds(n, e) { RebindIs(n, e); }
      else if act.Change? { ChangeOnward(n, t, act, h); }
      else { PlainOnward(n, t, act, h); }
    case Fault(_) => FaultIs(n, e);
  }
}
