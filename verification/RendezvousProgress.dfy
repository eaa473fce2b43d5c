/**
 The acknowledgement semaphore of the rendezvous protocol is balanced and never loses a wake-up.  What this
 gives for progress, with binding and unbinding going on, is in LinkingProgress.dfy.
 */
module RendezvousProgress {
  import opened Rendezvous
  import opened RendezvousSafety
  import opened RendezvousResults

  // ----- the acknowledgement semaphore -----

  /** The senders inside their acknowledgement wait on half i. */
  function Ackers(s: State, i: nat): set<nat> {
    set o | o in s && s[o].pc.AckWait? && s[o].pc.m == i
  }

  function Owed(x: Half): int {
    if Pending(x) then 1 else 0
  }

  /** Acknowledgements given and still to come are exactly the senders waiting for one. */
  ghost predicate Balanced(g: Graph, s: State) {
    forall i | i in s && i in g.dir && g.dir[i] == In :: |Ackers(s, i)| == s[i].acks + Owed(s[i])
  }

  /** A sender asleep on its acknowledgement is alone there, and its receiver has yet to acknowledge. */
  ghost predicate SleepsAlone(s: State) {
    forall o | o in s && s[o].pc.AckWait? && s[o].pc.w == Asleep ::
      s[o].pc.m in s && Pending(s[s[o].pc.m]) && Ackers(s, s[o].pc.m) == {o}
  }

  lemma OwnBalance(l: seq<nat>, x: Half, y: Half, a: Step)
    requires Steady(l, x) && Guard(l, x, y, a) && (a.Hit? ==> x.ready)
    ensures var x' := Own(In, l, x, y, a); x'.acks + Owed(x') == x.acks + Owed(x)
    ensures a.Take? || a.TakeQuiet? <==> Pending(x) && !Pending(Own(In, l, x, y, a))
  {
  }

  lemma OtherBalance(d: Dir, l: seq<nat>, x: Half, r: seq<nat>, y: Half, a: Step)
    requires Steady(r, y) && Guard(l, x, y, a) && (a.Hit? ==> y.ready)
    ensures var y' := Other(d, x, y, a);
            y'.acks + Owed(y') == y.acks + Owed(y) + (if a.Hit? then 1 else if a.AckPass? then -1 else 0)
    ensures Pending(y) && !a.Take? ==> Pending(Other(d, x, y, a))
  {
  }

  /** A sender joins the acknowledgement wait by a Hit and leaves it by passing. */
  lemma OwnAcker(d: Dir, l: seq<nat>, x: Half, y: Half, a: Step)
    requires Guard(l, x, y, a)
    ensures var x' := Own(d, l, x, y, a);
      && (x'.pc.AckWait? && !x.pc.AckWait? ==> a.Hit? && d == Out && x'.pc == AckWait(Partner(x, a), Testing))
      && (x.pc.AckWait? && !x'.pc.AckWait? ==> a.AckPass? && x.pc.m == Partner(x, a))
      && (x.pc.AckWait? && x'.pc.AckWait? ==> x'.pc.m == x.pc.m)
      && (x'.pc.AckWait? && x'.pc.w == Asleep ==>
          a.AckSleep? && x.pc.AckWait? && x.pc.m == Partner(x, a) && y.acks <= 0)
    ensures a.Hit? && d == Out ==> !x.pc.AckWait? && Own(d, l, x, y, a).pc.AckWait?
    ensures a.AckPass? ==> x.pc.AckWait? && !Own(d, l, x, y, a).pc.AckWait?
  {
  }

  lemma OtherAcker(d: Dir, l: seq<nat>, x: Half, y: Half, a: Step)
    requires Guard(l, x, y, a)
    ensures var y' := Other(d, x, y, a);
      && (y'.pc.AckWait? <==> y.pc.AckWait?)
      && (y.pc.AckWait? ==> y'.pc.m == y.pc.m && (y'.pc.w == Asleep ==> y.pc.w == Asleep && !a.Take?))
  {
  }

  lemma AckersStep(g: Graph, s: State, a: Step, i: nat)
    requires Enabled(g, s, a)
    ensures var m := Partner(s[a.h], a);
            Ackers(Apply(g, s, a), i) ==
            if a.Hit? && g.dir[a.h] == Out && i == m then Ackers(s, i) + {a.h}
            else if a.AckPass? && i == m then Ackers(s, i) - {a.h}
            else Ackers(s, i)
    ensures a.Hit? && g.dir[a.h] == Out ==> a.h !in Ackers(s, i)
    ensures a.AckPass? ==> a.h in Ackers(s, Partner(s[a.h], a))
  {
    hide Guard, Own, Other;
    var h, d, l, m := a.h, g.dir[a.h], g.conns[a.h], Partner(s[a.h], a);
    OwnAcker(d, l, s[h], s[m], a);
    OtherAcker(d, l, s[h], s[m], a);
  }

  lemma BalancedStep(g: Graph, s: State, a: Step)
    requires WellFormed(g) && Settled(g, s) && Committed(s) && Balanced(g, s) && Enabled(g, s, a)
    ensures Balanced(g, Apply(g, s, a))
  {
    hide Guard, Own, Other, Steady, Counts, Pending, Ackers;
    var s' := Apply(g, s, a);
    var h, d, l, m := a.h, g.dir[a.h], g.conns[a.h], Partner(s[a.h], a);
    assert HalfSteady(g, h, s[h]) && HalfSteady(g, m, s[m]);
    HitReady(g, s, a);
    forall i | i in s' && i in g.dir && g.dir[i] == In
      ensures |Ackers(s', i)| == s'[i].acks + Owed(s'[i])
    {
      AckersStep(g, s, a, i);
      if i == h { OwnBalance(l, s[h], s[m], a); }
      else if i == m { OtherBalance(d, l, s[h], g.conns[m], s[m], a); }
    }
  }

  lemma HitReady(g: Graph, s: State, a: Step)
    requires WellFormed(g) && Settled(g, s) && Committed(s) && Enabled(g, s, a)
    ensures a.Hit? ==> s[a.h].ready && s[Partner(s[a.h], a)].ready && Partner(s[a.h], a) != a.h
    ensures Partner(s[a.h], a) != a.h ==> g.dir[Partner(s[a.h], a)] != g.dir[a.h]
  {
    if Partner(s[a.h], a) != a.h { LinkedPartner(g, s, a); }
  }

  lemma SleepsAloneStep(g: Graph, s: State, a: Step)
    requires WellFormed(g) && Settled(g, s) && Committed(s) && Balanced(g, s) && SleepsAlone(s) && Enabled(g, s, a)
    ensures SleepsAlone(Apply(g, s, a))
  {
    hide Guard, Own, Other, Steady, Counts, Pending, Ackers;
    var s' := Apply(g, s, a);
    var h, d, l, m := a.h, g.dir[a.h], g.conns[a.h], Partner(s[a.h], a);
    assert HalfSteady(g, h, s[h]) && HalfSteady(g, m, s[m]);
    HitReady(g, s, a);
    OwnAcker(d, l, s[h], s[m], a);
    OtherAcker(d, l, s[h], s[m], a);
    forall o | o in s' && s'[o].pc.AckWait? && s'[o].pc.w == Asleep
      ensures var i := s'[o].pc.m; i in s' && Pending(s'[i]) && Ackers(s', i) == {o}
    {
      var i := s'[o].pc.m;
      AckersStep(g, s, a, i);
      if o == h {
        FallsAsleep(g, s, o, i);
      }
      StaysPending(g, s, a, o, i);
    }
  }

  /** A sender that finds no acknowledgement is the only one waiting, and its receiver owes one. */
  lemma FallsAsleep(g: Graph, s: State, o: nat, i: nat)
    requires Settled(g, s) && WellFormed(g) && Balanced(g, s) && o in s && i in s
    requires s[o].pc.AckWait? && s[o].pc.m == i && s[i].acks <= 0
    ensures Pending(s[i]) && Ackers(s, i) == {o}
  {
    assert HalfSteady(g, o, s[o]) && Linked(g, o, i);
    assert o in Ackers(s, i);
    Singleton(Ackers(s, i), o);
  }

  lemma Singleton(a: set<nat>, o: nat)
    requires o in a && |a| <= 1
    ensures a == {o}
  {
    assert |a - {o}| == 0;
  }

  lemma TakeFacts(g: Graph, s: State, a: Step)
    requires Enabled(g, s, a)
    ensures a.Take? ==> s[Partner(s[a.h], a)].pc == AckWait(a.h, Asleep)
    ensures a.TakeQuiet? ==> forall o | o in s :: s[o].pc != AckWait(a.h, Asleep)
  {
  }

  lemma PendingNotReady(l: seq<nat>, x: Half)
    requires Steady(l, x) && Pending(x)
    ensures !x.ready && !x.pc.AckWait?
  {
  }

  lemma StaysPending(g: Graph, s: State, a: Step, o: nat, i: nat)
    requires WellFormed(g) && Settled(g, s) && Committed(s) && Enabled(g, s, a) && o in s && i in s
    requires Apply(g, s, a)[o].pc == AckWait(i, Asleep) && s[o].pc.AckWait? && s[o].pc.m == i
    requires Pending(s[i]) && Ackers(s, i) == {o}
    ensures Pending(Apply(g, s, a)[i]) && Ackers(Apply(g, s, a), i) == {o}
  {
    hide Guard, Own, Other, Steady, Counts;
    var h, d, l, m := a.h, g.dir[a.h], g.conns[a.h], Partner(s[a.h], a);
    assert HalfSteady(g, h, s[h]) && HalfSteady(g, m, s[m]) && HalfSteady(g, o, s[o]);
    HitReady(g, s, a);
    AckersStep(g, s, a, i);
    OwnAcker(d, l, s[h], s[m], a);
    OtherAcker(d, l, s[h], s[m], a);
    TakeFacts(g, s, a);
    assert HalfSteady(g, i, s[i]);
    PendingNotReady(g.conns[i], s[i]);
    AckDirections(g, s, o);
    if i == h {
      if a.Take? { assert m in Ackers(s, i) by { AckersMember(s, m, i); } }
      OwnBalance(l, s[h], s[m], a);
    } else if i == m {
      OtherBalance(d, l, s[h], g.conns[m], s[m], a);
    }
  }

  lemma AckDirections(g: Graph, s: State, o: nat)
    requires WellFormed(g) && Settled(g, s) && o in s && s[o].pc.AckWait?
    ensures Bound(g, o, s[o].pc.m)
  {
    assert HalfSteady(g, o, s[o]);
    assert Linked(g, o, s[o].pc.m);
  }

  lemma AckersMember(s: State, o: nat, i: nat)
    requires o in s && s[o].pc.AckWait? && s[o].pc.m == i
    ensures o in Ackers(s, i)
  {
  }

  lemma {:induction false} RunAcks(g: Graph, b: seq<State>, steps: seq<Step>, j: nat)
    requires WellFormed(g) && Run(g, b, steps) && Init(g, b[0]) && j < |b|
    ensures Inv(g, b[j]) && Balanced(g, b[j]) && SleepsAlone(b[j])
  {
    hide Inv, Balanced, SleepsAlone, Moves, Init;
    RunInv(g, b, steps, j);
    if j == 0 {
      InitAcks(g, b[0]);
    } else {
      RunAcks(g, b, steps, j - 1);
      assert Moves(g, b[j - 1], steps[j - 1], b[j]);
      MovesAcks(g, b[j - 1], steps[j - 1], b[j]);
    }
  }

  lemma InitAcks(g: Graph, s: State)
    requires WellFormed(g) && Init(g, s)
    ensures Balanced(g, s) && SleepsAlone(s)
  {
    forall i | i in s ensures Ackers(s, i) == {} {
    }
  }

  lemma MovesAcks(g: Graph, s: State, a: Step, s': State)
    requires WellFormed(g) && Inv(g, s) && Balanced(g, s) && SleepsAlone(s) && Moves(g, s, a, s')
    ensures Balanced(g, s') && SleepsAlone(s')
  {
    hide Balanced, SleepsAlone, Enabled, Apply, Local, Settled, Exclusion, NotMissed, Forward, Backward, InOrder;
    hide Committed;
    BalancedStep(g, s, a);
    SleepsAloneStep(g, s, a);
  }

  /** In every reachable state the acknowledgements balance, and a sleeping sender's receiver still owes its one. */
  lemma AcknowledgementsBalance(g: Graph, s: State)
    requires Reachable(g, s)
    ensures Balanced(g, s) && SleepsAlone(s)
  {
    hide Balanced, SleepsAlone, Init, Inv;
    var b, steps :| Reaches(g, b, steps, s);
    RunAcks(g, b, steps, |steps|);
  }
}
