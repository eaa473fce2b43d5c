/**
 What the acknowledgement is for: the sender's data may not change before the receiver has copied
 it (Channels/channel.h:47).  It holds in every run exactly when no IN half has two OUT partners.
 */
module RendezvousAck {
  import opened Rendezvous
  import opened RendezvousSafety
  import opened RendezvousResults
  import opened RendezvousProgress

  /** A payload waiting at receiver i belongs to a send that has not returned. */
  ghost predicate SenderHeld(s: State, i: nat) {
    i in s && (Pending(s[i]) ==>
      |s[i].from| > 0 &&
      var (o, k) := s[i].from[|s[i].from| - 1];
      o in s && s[o].pc.AckWait? && s[o].pc.m == i && k == |s[o].sent| - 1)
  }

  ghost predicate AckProtects(g: Graph, i: nat) {
    forall s :: Reachable(g, s) ==> SenderHeld(s, i)
  }

  // ----- one sender: protected -----

  /** While a sender waits for receiver i, its last match is with i. */
  ghost predicate LastMatch(s: State) {
    forall o | o in s && s[o].pc.AckWait? :: |s[o].to| > 0 && s[o].to[|s[o].to| - 1].0 == s[o].pc.m
  }

  /** With one sender the semaphore is never negative and a signalled sender finds it positive. */
  ghost predicate SoleAck(g: Graph, s: State) {
    forall i | i in s && i in g.dir && i in g.conns && g.dir[i] == In && |g.conns[i]| <= 1 ::
      s[i].acks >= 0 && forall o | o in s && s[o].pc == AckWait(i, Woken) :: s[i].acks >= 1
  }

  lemma AckerPC(d: Dir, l: seq<nat>, x: Half, y: Half, a: Step)
    requires Control(l, x) && Guard(l, x, y, a)
    requires x.pc.AckWait? ==> |x.to| > 0 && x.to[|x.to| - 1].0 == x.pc.m
    ensures var x' := Own(d, l, x, y, a);
      x'.pc.AckWait? ==> |x'.to| > 0 && x'.to[|x'.to| - 1].0 == x'.pc.m && x'.pc.w != Woken
    ensures Own(d, l, x, y, a).acks == x.acks + (if a.Take? || a.TakeQuiet? then 1 else 0)
    ensures a.AckPass? ==> x.pc.AckWait? && x.pc.m == Partner(x, a) && (x.pc.w == Woken || y.acks > 0)
  {
  }

  lemma AckerPeer(d: Dir, l: seq<nat>, x: Half, r: seq<nat>, y: Half, a: Step)
    requires Control(r, y) && Guard(l, x, y, a) && (a.Hit? ==> y.ready)
    requires y.pc.AckWait? ==> |y.to| > 0 && y.to[|y.to| - 1].0 == y.pc.m
    ensures var y' := Other(d, x, y, a);
      y'.pc.AckWait? ==> |y'.to| > 0 && y'.to[|y'.to| - 1].0 == y'.pc.m && y.pc.AckWait? && y'.pc.m == y.pc.m
    ensures var y' := Other(d, x, y, a);
      y'.pc.AckWait? && y'.pc.w == Woken && y.pc != y'.pc ==> a.Take? && y'.pc.m == a.h
    ensures Other(d, x, y, a).acks == y.acks - (if a.AckPass? then 1 else 0)
  {
  }

  lemma LocalHalf(g: Graph, s: State, h: nat)
    requires Local(g, s) && h in s
    ensures h in g.dir && h in g.conns && HalfOk(g, h, s[h])
  {
  }

  lemma LastMatchStep(g: Graph, s: State, a: Step)
    requires WellFormed(g) && Local(g, s) && Committed(s) && LastMatch(s) && Enabled(g, s, a)
    ensures LastMatch(Apply(g, s, a))
  {
    hide Guard, Own, Other, Control, Counts, WellFormed, Local, Committed, Free;
    var h, d, l, m := a.h, g.dir[a.h], g.conns[a.h], Partner(s[a.h], a);
    LocalHalf(g, s, h);
    LocalHalf(g, s, m);
    HitReady(g, s, a);
    AckerPC(d, l, s[h], s[m], a);
    if m != h { AckerPeer(d, l, s[h], g.conns[m], s[m], a); }
  }

  lemma SolePartner(g: Graph, i: nat, p: nat, q: nat)
    requires WellFormed(g) && Bound(g, p, i) && Bound(g, q, i) && |g.conns[i]| <= 1
    ensures p == q
  {
    assert Linked(g, i, p) && Linked(g, i, q);
  }

  /** Two senders waiting for one receiver are two partners of it. */
  lemma SoleSender(g: Graph, s: State, i: nat, p: nat, q: nat)
    requires WellFormed(g) && Local(g, s) && i in g.conns && |g.conns[i]| <= 1
    requires p in s && q in s && s[p].pc.AckWait? && s[q].pc.AckWait? && s[p].pc.m == s[q].pc.m == i
    ensures p == q
  {
    AckDirections(g, s, p);
    AckDirections(g, s, q);
    SolePartner(g, i, p, q);
  }

  /** What a step does to the acknowledgements and to the senders signalled. */
  ghost predicate AckEffect(s: State, a: Step, m: nat, s': State) {
    && s'.Keys == s.Keys && a.h in s && m in s
    && (forall q | q in s :: s'[q].acks == s[q].acks + (if q == a.h && (a.Take? || a.TakeQuiet?) then 1 else 0)
                                                       - (if q == m && a.AckPass? then 1 else 0))
    && (forall o | o in s && s'[o].pc.AckWait? && s'[o].pc.w == Woken ::
          s'[o].pc == s[o].pc || (a.Take? && s'[o].pc.m == a.h))
    && (a.AckPass? ==> s[a.h].pc.AckWait? && s[a.h].pc.m == m && m != a.h && !s'[a.h].pc.AckWait? &&
                       (s[a.h].pc.w == Woken || s[m].acks > 0))
  }

  /** From the two records to the state. */
  lemma AckSpread(s: State, a: Step, m: nat, x': Half, y': Half)
    requires a.h in s && m in s && (a.AckPass? ==> m != a.h)
    requires x'.acks == s[a.h].acks + (if a.Take? || a.TakeQuiet? then 1 else 0)
    requires x'.pc.AckWait? ==> x'.pc.w != Woken && !a.AckPass?
    requires m != a.h ==> y'.acks == s[m].acks - (if a.AckPass? then 1 else 0)
    requires m != a.h && y'.pc.AckWait? && y'.pc.w == Woken ==> y'.pc == s[m].pc || (a.Take? && y'.pc.m == a.h)
    requires a.AckPass? ==> s[a.h].pc.AckWait? && s[a.h].pc.m == m && (s[a.h].pc.w == Woken || s[m].acks > 0)
    ensures AckEffect(s, a, m, s[m := y'][a.h := x'])
  {
  }

  lemma StepAckEffect(g: Graph, s: State, a: Step)
    requires WellFormed(g) && Local(g, s) && Committed(s) && LastMatch(s) && Enabled(g, s, a)
    ensures AckEffect(s, a, Partner(s[a.h], a), Apply(g, s, a))
  {
    hide Guard, Own, Other, Control, Counts, WellFormed, Local, Committed, Free, AckEffect;
    var h, d, l, m := a.h, g.dir[a.h], g.conns[a.h], Partner(s[a.h], a);
    LocalHalf(g, s, h);
    LocalHalf(g, s, m);
    HitReady(g, s, a);
    PassOther(g, s, a);
    AckerPC(d, l, s[h], s[m], a);
    if m != h { AckerPeer(d, l, s[h], g.conns[m], s[m], a); }
    PassEnds(d, l, s[h], s[m], a);
    AckSpread(s, a, m, Own(d, l, s[h], s[m], a), Other(d, s[h], s[m], a));
  }

  lemma PassEnds(d: Dir, l: seq<nat>, x: Half, y: Half, a: Step)
    requires Guard(l, x, y, a)
    ensures a.AckPass? ==> !Own(d, l, x, y, a).pc.AckWait?
  {
  }

  lemma PassOther(g: Graph, s: State, a: Step)
    requires Enabled(g, s, a)
    ensures a.AckPass? ==> Partner(s[a.h], a) != a.h
  {
  }

  lemma SoleAckStep(g: Graph, s: State, a: Step)
    requires WellFormed(g) && Local(g, s) && Committed(s) && LastMatch(s) && SoleAck(g, s) && Enabled(g, s, a)
    ensures SoleAck(g, Apply(g, s, a))
  {
    hide Enabled, Apply, WellFormed, Local, Committed, LastMatch, Partner;
    var s' := Apply(g, s, a);
    StepAckEffect(g, s, a) by { EnabledIn(g, s, a); }
    var m := Partner(s[a.h], a);
    forall i | i in s' && i in g.dir && i in g.conns && g.dir[i] == In && |g.conns[i]| <= 1
      ensures s'[i].acks >= 0 && forall o | o in s' && s'[o].pc == AckWait(i, Woken) :: s'[i].acks >= 1
    {
      forall o | o in s' && s'[o].pc == AckWait(i, Woken) ensures s'[i].acks >= 1 {
        if a.AckPass? && i == m { SoleSender(g, s, i, o, a.h); }
      }
    }
  }

  lemma {:induction false} RunSole(g: Graph, b: seq<State>, steps: seq<Step>, j: nat)
    requires WellFormed(g) && Run(g, b, steps) && Init(g, b[0]) && j < |b|
    ensures Inv(g, b[j]) && LastMatch(b[j]) && SoleAck(g, b[j])
  {
    hide Inv, LastMatch, SoleAck, Moves, Init, WellFormed;
    RunInv(g, b, steps, j);
    if j == 0 {
      InitSole(g, b[0]);
    } else {
      RunSole(g, b, steps, j - 1);
      assert Moves(g, b[j - 1], steps[j - 1], b[j]);
      MovesSole(g, b[j - 1], steps[j - 1], b[j]);
    }
  }

  lemma InitSole(g: Graph, s: State)
    requires WellFormed(g) && Init(g, s)
    ensures LastMatch(s) && SoleAck(g, s)
  {
  }

  lemma MovesSole(g: Graph, s: State, a: Step, s': State)
    requires WellFormed(g) && Inv(g, s) && LastMatch(s) && SoleAck(g, s) && Moves(g, s, a, s')
    ensures LastMatch(s') && SoleAck(g, s')
  {
    hide Local, Committed, LastMatch, SoleAck, Enabled, Apply, WellFormed, Forward, Backward;
    LastMatchStep(g, s, a);
    SoleAckStep(g, s, a);
  }

  /** With at most one partner, a receiver's pending payload is that of the send still waiting for it. */
  lemma SoleSenderHeld(g: Graph, s: State, i: nat)
    requires Reachable(g, s) && i in g.dir && g.dir[i] == In && |g.conns[i]| <= 1
    ensures SenderHeld(s, i)
  {
    hide Control, Reaches, Init, Pending;
    AcknowledgementsBalance(g, s);
    ReachableInv(g, s);
    ReachableHalf(g, s, i);
    var b, steps :| Reaches(g, b, steps, s);
    assert LastMatch(s) && SoleAck(g, s) by { ReachesSole(g, b, steps, s); }
    if Pending(s[i]) {
      assert Ackers(s, i) != {};
      var o :| o in Ackers(s, i);
      PendingHead(g, s, i, o);
    }
  }

  lemma ReachesSole(g: Graph, b: seq<State>, steps: seq<Step>, s: State)
    requires Reaches(g, b, steps, s)
    ensures LastMatch(s) && SoleAck(g, s)
  {
    RunSole(g, b, steps, |steps|);
  }

  /** The pending payload is the last send of the sender that waits. */
  lemma PendingHead(g: Graph, s: State, i: nat, o: nat)
    requires WellFormed(g) && Local(g, s) && Forward(g, s) && Backward(g, s) && InOrder(s) && LastMatch(s)
    requires i in s && i in g.dir && g.dir[i] == In && |g.conns[i]| <= 1 && Pending(s[i])
    requires o in s && s[o].pc.AckWait? && s[o].pc.m == i
    ensures SenderHeld(s, i)
  {
    hide Control, Counts, WellFormed, Bound, Carries, Pending, Local, Forward, Backward, InOrder, LastMatch;
    PendingCounts(g, s, i, o);
    AckDirections(g, s, o);
    var last := |s[i].from| - 1;
    var p, k := s[i].from[last].0, s[i].from[last].1;
    SentAt(g, s, i, last);
    SolePartner(g, i, p, o);
    var top := |s[o].to| - 1;
    var r := TakenAt(g, s, i, o);
    if r < last { OrderAt(s, i, r, last); }
  }

  lemma SentAt(g: Graph, s: State, i: nat, r: nat)
    requires Backward(g, s) && i in s && r < |s[i].from|
    ensures var (o, k) := s[i].from[r]; Bound(g, o, i) && o in s && k < |s[o].to|
  {
  }

  lemma TakenAt(g: Graph, s: State, i: nat, o: nat) returns (r: nat)
    requires Forward(g, s) && LastMatch(s) && o in s && s[o].pc.AckWait? && s[o].pc.m == i
    ensures i in s && r < |s[i].from| && |s[o].to| > 0 && s[i].from[r] == (o, |s[o].to| - 1)
  {
    r := s[o].to[|s[o].to| - 1].1;
  }

  lemma OrderAt(s: State, i: nat, p: nat, q: nat)
    requires InOrder(s) && i in s && p < q < |s[i].from| && s[i].from[p].0 == s[i].from[q].0
    ensures s[i].from[p].1 < s[i].from[q].1
  {
  }

  lemma PendingCounts(g: Graph, s: State, i: nat, o: nat)
    requires Local(g, s) && i in s && i in g.dir && g.dir[i] == In && Pending(s[i])
    requires o in s && s[o].pc.AckWait?
    ensures |s[i].from| > 0 && |s[o].sent| == |s[o].to|
  {
    assert HalfOk(g, i, s[i]) && HalfOk(g, o, s[o]);
  }
}
