/**
 What sends and receives still promise while threads bind and unbind, in every state of every run: one thread at
 a time in a mutex, and sends matched one to one, in order, with receives of halves of the other direction.
 */
module LinkingResults {
  import opened Rendezvous
  import opened RendezvousSafety
  import opened RendezvousResults
  import opened Wrappers
  import opened Linking
  import opened LinkingSafety
  import opened LinkingProgress

  // ----- mutual exclusion -----

  /** No two threads that bind and unbind are inside one half's mutex, those that have left included. */
  ghost predicate LinkersApart(n: Net) {
    forall t, u, x: nat | t in n.links && u in n.links &&
      LinkerInside(n.g.dir, n.links[t], x) && LinkerInside(n.g.dir, n.links[u], x) :: t == u
  }

  lemma LinkerLocks(n: Net, t: nat, act: Act, x: nat)
    requires Ready(n, Link(t, act))
    requires LinkerInside(n.g.dir, After(n, Link(t, act)).links[t], x)
    ensures LinkerInside(n.g.dir, n.links[t], x) || Unlinked(n, x)
  {
    hide Posted, Free, Unlinked;
  }

  lemma OneMoves(n: Net, e: Event, t: nat)
    requires Ready(n, e) && t in After(n, e).links && !(e.Link? && e.t == t)
    ensures After(n, e).g.dir == n.g.dir && t in n.links
    ensures forall x: nat :: LinkerInside(n.g.dir, After(n, e).links[t], x) <==> LinkerInside(n.g.dir, n.links[t], x)
  {
    hide Ready, After, LinkerInside, Woke, Kin;
    match e
    case Talk(a) =>
      TalkIs(n, a);
      forall x: nat { WokeToken(n.g.dir, n.links[t], a.h, x); }
    case Link(u, act) =>
      KinLink(n, u, act);
      LinksKept(n, u, act);
      var z := OthersStay(n, u, act, t);
      forall x: nat { WokeToken(n.g.dir, n.links[t], z, x); }
    case Fault(_) => FaultIs(n, e);
  }

  lemma LinkersApartStep(n: Net, e: Event)
    requires LinkersApart(n) && Ready(n, e)
    ensures LinkersApart(After(n, e))
  {
    hide Ready, After, LinkerInside;
    var n' := After(n, e);
    forall t, u, x: nat | t in n'.links && u in n'.links && t != u &&
      LinkerInside(n'.g.dir, n'.links[t], x) && LinkerInside(n'.g.dir, n'.links[u], x)
      ensures false
    {
      if e.Link? && e.t == t { EntersAlone(n, e, t, u, x); }
      else if e.Link? && e.t == u { EntersAlone(n, e, u, t, x); }
      else { OneMoves(n, e, t); OneMoves(n, e, u); }
    }
  }

  lemma EntersAlone(n: Net, e: Event, t: nat, u: nat, x: nat)
    requires LinkersApart(n) && Ready(n, e) && e.Link? && e.t == t && u != t
    requires t in After(n, e).links && u in After(n, e).links
    requires LinkerInside(After(n, e).g.dir, After(n, e).links[t], x)
    ensures !LinkerInside(After(n, e).g.dir, After(n, e).links[u], x)
  {
    hide Ready, After, LinkerInside;
    OneMoves(n, e, u);
    LinksKept(n, t, e.act);
    LinkerLocks(n, t, e.act, x);
  }

  lemma {:induction false} LinkersApartRun(b: seq<Net>, events: seq<Event>, k: nat)
    requires NetRun(b, events) && NetInit(b[0]) && k < |b|
    ensures LinkersApart(b[k])
  {
    hide Ready, After, Init, WellFormed;
    if k > 0 {
      LinkersApartRun(b, events, k - 1);
      assert Goes(b[k - 1], events[k - 1], b[k]);
      LinkersApartStep(b[k - 1], events[k - 1]);
    }
  }

  lemma PossibleApart(n: Net)
    requires Possible(n)
    ensures LinkersApart(n)
  {
    hide NetInit, LinkersApart;
    var b, events :| PossibleBy(b, events, n);
    LinkersApartRun(b, events, |events|);
  }

  lemma HoldersAgree(n: Net)
    requires NetInv(n)
    ensures Exclusion(n.g, n.s) && Apart(n)
  {
    hide OneOperator, Jobs, Supplied, Apart, Everyone, Settled, Committed, Holds, WellFormed;
    EveryoneIs(n.g.dir);
    SameHolds(n.g, Everyone(n.g.dir), n.s);
  }

  /** In every state of every run one thread at most, of whatever kind, is inside the mutex of a half. */
  lemma MutexHeldOnce(n: Net, p: Thread, q: Thread, x: nat)
    requires Possible(n) && Known(n, p) && Known(n, q) && InMutex(n, p, x) && InMutex(n, q, x)
    ensures p == q
  {
    hide Possible, NetInv, Holds, LinkerInside;
    PossibleInv(n);
    PossibleApart(n);
    HoldersAgree(n);
  }

  // ----- delivery -----

  lemma PossibleSound(n: Net)
    requires Possible(n)
    ensures var k := Everyone(n.g.dir);
      && Settled(k, n.s) && Forward(k, n.s) && Backward(k, n.s) && InOrder(n.s) && k.dir == n.g.dir
      && n.s.Keys == n.g.dir.Keys
  {
    hide Possible, OneOperator, Jobs, Supplied, Apart, Everyone, Settled, Forward, Backward, InOrder;
    PossibleInv(n);
    BaseIs(n);
  }

  lemma Facing(n: Net, o: nat, i: nat)
    requires Bound(Everyone(n.g.dir), o, i)
    ensures o in n.g.dir && i in n.g.dir && n.g.dir[o] == Out && n.g.dir[i] == In
  {
    hide Linked;
  }

  lemma GotFrom(k: Graph, s: State, i: nat)
    requires Settled(k, s) && i in s
    ensures |s[i].got| <= |s[i].from|
  {
    assert HalfSteady(k, i, s[i]);
  }

  /** Every completed receive of every run returned the value of a send of another half, and that send is no
      other's. */
  lemma NetReceivesAreSends(n: Net, i: nat, r: nat)
    requires Possible(n) && i in n.s && r < |n.s[i].got|
    ensures r < |n.s[i].from|
    ensures var (o, q) := n.s[i].from[r];
      && o in n.s && o in n.g.dir && i in n.g.dir && n.g.dir[o] == Out && n.g.dir[i] == In
      && q < |n.s[o].sent| && n.s[i].got[r] == n.s[o].sent[q]
      && forall j, p | j in n.s && 0 <= p < |n.s[j].from| && n.s[j].from[p] == (o, q) :: (j, p) == (i, r)
  {
    hide Possible, Settled, Everyone, Bound, InOrder, Forward;
    PossibleSound(n);
    GotFrom(Everyone(n.g.dir), n.s, i);
    Facing(n, n.s[i].from[r].0, i);
  }

  lemma SentTo(k: Graph, s: State, o: nat)
    requires Settled(k, s) && o in s && k.dir[o] == Out
    ensures CompletedSends(s[o]) <= |s[o].to| <= |s[o].sent|
  {
    assert HalfSteady(k, o, s[o]);
  }

  lemma StillHeld(k: Graph, s: State, i: nat, r: nat)
    requires Settled(k, s) && i in s && k.dir[i] == In && |s[i].got| <= r < |s[i].from|
    ensures r == |s[i].got| && s[i].pc != Idle
  {
    assert HalfSteady(k, i, s[i]);
  }

  /** Every completed send of every run was taken by one receive of another half, which has returned its value or
      still has it, and that receive is no other's. */
  lemma NetSendsAreReceived(n: Net, o: nat, q: nat)
    requires Possible(n) && o in n.s && o in n.g.dir && n.g.dir[o] == Out && q < CompletedSends(n.s[o])
    ensures q < |n.s[o].to| && q < |n.s[o].sent|
    ensures var (i, r) := n.s[o].to[q];
      && i in n.s && i in n.g.dir && n.g.dir[i] == In && r < |n.s[i].from|
      && (r < |n.s[i].got| ==> n.s[i].got[r] == n.s[o].sent[q])
      && (r >= |n.s[i].got| ==> r == |n.s[i].got| && Carries(n.s[i], r, n.s[o].sent[q]) && n.s[i].pc != Idle)
      && forall j, p | j in n.s && 0 <= p < |n.s[j].to| && n.s[j].to[p] == (i, r) :: (j, p) == (o, q)
  {
    hide Possible, Settled, Everyone, Bound, InOrder;
    PossibleSound(n);
    SentTo(Everyone(n.g.dir), n.s, o);
    var (i, r) := n.s[o].to[q];
    Facing(n, o, i);
    if r >= |n.s[i].got| { StillHeld(Everyone(n.g.dir), n.s, i, r); }
  }

  /** Between one sender and one receiver the values arrive in the order they were sent, whatever is bound and
      unbound in between. */
  lemma NetLinkOrder(n: Net, i: nat, p: nat, q: nat)
    requires Possible(n) && i in n.s && p < q < |n.s[i].from| && n.s[i].from[p].0 == n.s[i].from[q].0
    ensures n.s[i].from[p].1 < n.s[i].from[q].1
  {
    hide Possible, Settled, Everyone, Forward, Backward;
    PossibleSound(n);
  }
}
