/**
 Two senders on one receiver: a run, in any graph that has them, in which a send returns before
 its data is copied.  Together with SoleSenderHeld this is the exact condition.
 */
module RendezvousRace {
  import opened Rendezvous
  import opened RendezvousSafety
  import opened RendezvousResults
  import opened RendezvousAck
  import opened RendezvousRuns

  /** From s to s' sender o served receiver i. */
  ghost predicate Served(s: State, s': State, o: nat, i: nat) {
    && s'.Keys == s.Keys && o in s && i in s
    && (forall q | q in s && q != o && q != i :: s'[q] == s[q])
    && s'[o].pc == AckWait(i, Testing) && !s'[o].ready
    && s'[i] == s[i].(ready := false, blocked := s[i].blocked + 1, buffer := s'[i].buffer, from := s'[i].from)
    && |s'[i].from| > 0 && s'[i].from[|s'[i].from| - 1].0 == o
  }

  lemma ServedLater(g: Graph, s: State, s1: State, s': State, o: nat, i: nat)
    requires Leads(g, s, s1, {o}) && Served(s1, s', o, i) && o != i
    ensures Served(s, s', o, i)
  {
    hide Leads;
    LeadsKeys(g, s, s1, {o});
  }

  /** A ready pair is committed to ... */
  lemma Matches(g: Graph, s: State, o: nat, i: nat) returns (s': State)
    requires Reachable(g, s) && o in s && i in s && Bound(g, o, i) && s[o].pc.Both? && s[o].pc.m == i
    requires s[o].ready && s[i].ready && o != i
    ensures Reachable(g, s') && Leads(g, s, s', {o}) && s'[o] == s[o].(pc := Commit(s[o].pc.k, i))
  {
    hide Reachable, Free, Leads;
    Domains(g, s);
    s' := Alone(g, s, Match(o));
  }

  /** ... and served. */
  lemma Hits(g: Graph, s: State, o: nat, i: nat) returns (s': State)
    requires Reachable(g, s) && o in s && i in s && Bound(g, o, i) && s[o].pc.Commit? && s[o].pc.m == i && o != i
    requires s[i].pc.Scan?
    ensures Reachable(g, s') && Served(s, s', o, i)
  {
    hide Reachable, Free, Leads;
    Domains(g, s);
    s' := Apply(g, s, Hit(o));
    ReachableStep(g, s, Hit(o));
  }

  /** The probe of a ready receiver by a ready sender. */
  lemma ServesFound(g: Graph, s: State, o: nat, i: nat) returns (s': State)
    requires Reachable(g, s) && o in s && i in s && Bound(g, o, i) && s[o].pc.Both? && s[o].pc.m == i
    requires s[o].ready && s[i].ready && s[i].pc.Scan?
    ensures Reachable(g, s') && Served(s, s', o, i)
  {
    hide *;
    BoundApart(g, s, o, i);
    var s1 := Matches(g, s, o, i);
    LeadsKeys(g, s, s1, {o});
    s' := Hits(g, s1, o, i);
    ServedLater(g, s, s1, s', o, i);
  }

  /** A sender scanning among partners of which only receiver i is ready serves i. */
  lemma {:induction false} Finds(g: Graph, s: State, o: nat, i: nat) returns (s': State)
    requires Reachable(g, s) && Calm(s, o) && o in s && i in s && Bound(g, o, i)
    requires o in g.conns && s[o].pc.Scan? && s[o].pc.k <= |g.conns[o]| && s[o].ready && i !in s[o].seen
    requires s[i].ready && s[i].pc.Scan?
    requires forall m | Linked(g, o, m) && m in s && m != i :: !s[m].ready
    ensures Reachable(g, s') && Served(s, s', o, i)
    decreases |g.conns[o]| - s[o].pc.k
  {
    hide *;
    BoundLinked(g, o, i);
    BoundApart(g, s, o, i);
    NotAllProbed(g, s, o, i);
    var s1, m := Locks(g, s, o);
    LeadsKeys(g, s, s1, {o});
    StillCalm(g, s, s1, o);
    if m == i {
      s' := ServesFound(g, s1, o, i);
      ServedLater(g, s, s1, s', o, i);
    } else {
      KnownDirs(g, s, o);
      var s2 := Misses(g, s1, o, m);
      LeadsKeys(g, s1, s2, {o});
      StillCalm(g, s1, s2, o);
      LeadsTrans(g, s, s1, s2, {o});
      s' := Finds(g, s2, o, i);
      ServedLater(g, s, s2, s', o, i);
    }
  }

  lemma Copies(g: Graph, s: State, i: nat) returns (s': State)
    requires Reachable(g, s) && i in s && i in g.dir && i in g.conns && s[i].pc == Copy
    requires forall o | o in s :: s[o].pc != AckWait(i, Asleep)
    ensures Reachable(g, s') && Leads(g, s, s', {i})
    ensures s'[i].pc == Idle && s'[i].acks == s[i].acks + 1 && s'[i].ready == s[i].ready
  {
    hide Reachable, Free, Leads;
    Domains(g, s);
    s' := Alone(g, s, TakeQuiet(i));
  }

  /** A matched receiver at the end of its scan copies, acknowledges and returns. */
  lemma Returns(g: Graph, s: State, i: nat) returns (s': State)
    requires Reachable(g, s) && i in s && i in g.dir && g.dir[i] == In && i in g.conns
    requires s[i].pc == Scan(|g.conns[i]|) && s[i].blocked == 1
    requires forall o | o in s :: s[o].pc != AckWait(i, Asleep)
    ensures Reachable(g, s') && Leads(g, s, s', {i})
    ensures s'[i].pc == Idle && s'[i].acks == s[i].acks + 1 && s'[i].ready == s[i].ready
  {
    hide *;
    var s1 := EndsScan(g, s, i);
    LeadsKeys(g, s, s1, {i});
    var s2 := Wakes(g, s1, i);
    LeadsKeys(g, s1, s2, {i});
    s' := Copies(g, s2, i);
    LeadsTrans(g, s, s1, s2, {i});
    LeadsTrans(g, s, s2, s', {i});
  }

  lemma Passes(g: Graph, s: State, o: nat, i: nat) returns (s': State)
    requires Reachable(g, s) && o in s && i in s && o != i && s[o].pc == AckWait(i, Testing) && s[i].acks > 0
    ensures Reachable(g, s') && s'.Keys == s.Keys && s'[o].pc == Release
    ensures s'[i] == s[i].(acks := s[i].acks - 1)
  {
    hide Reachable, Free, Leads;
    Domains(g, s);
    s' := Apply(g, s, AckPass(o));
    ReachableStep(g, s, AckPass(o));
  }

  /** A sender that finds an acknowledgement takes it and returns. */
  lemma TakesAck(g: Graph, s: State, o: nat, i: nat) returns (s': State)
    requires Reachable(g, s) && o in s && i in s && o != i && s[o].pc == AckWait(i, Testing) && s[i].acks > 0
    ensures Reachable(g, s') && s'.Keys == s.Keys && s'[o].pc == Idle
    ensures s'[i] == s[i].(acks := s[i].acks - 1)
  {
    hide *;
    var s1 := Passes(g, s, o, i);
    s' := GivesBack(g, s1, o);
    LeadsKeys(g, s1, s', {o});
  }

  /** Receiver i and sender o have both begun. */
  lemma BothOpen(g: Graph, i: nat, o: nat) returns (s: State)
    requires WellFormed(g) && Bound(g, o, i)
    ensures Reachable(g, s) && s.Keys == g.dir.Keys && i in s && o in s && i != o && i in g.conns && o in g.conns
    ensures s[i].pc == s[o].pc == Scan(0) && s[i].ready && s[o].ready && s[o].seen == {} && s[i].acks == 0
    ensures forall h | h in s && h != i && h != o :: s[h].pc == Idle && !s[h].ready
    ensures !Linked(g, o, o)
  {
    hide *;
    BothWays(g, o, i);
    EndsIn(g, o, i);
    var s0 := Start0(g);
    QuietCalm(s0, i);
    var s1 := Opens(g, s0, i, 0);
    LeadsKeys(g, s0, s1, {i});
    QuietCalm(s1, o);
    s := Opens(g, s1, o, 0);
    LeadsKeys(g, s1, s, {o});
  }

  /** Receiver i waits, sender o serves it, and everyone else is idle. */
  lemma FirstServed(g: Graph, i: nat, o: nat) returns (s: State)
    requires WellFormed(g) && Bound(g, o, i)
    ensures Reachable(g, s) && s.Keys == g.dir.Keys && i in s && o in s && i != o && i in g.conns
    ensures s[i].pc == Scan(0) && !s[i].ready && s[i].acks == 0
    ensures s[o].pc == AckWait(i, Testing) && !s[o].ready
    ensures forall h | h in s && h != i && h != o :: s[h].pc == Idle && !s[h].ready
  {
    hide *;
    var s2 := BothOpen(g, i, o);
    QuietCalm(s2, o);
    s := Finds(g, s2, o, i);
    ServedFacts(s2, s, o, i);
  }

  lemma QuietOutside(s: State)
    requires forall q | q in s :: s[q].pc == Idle || s[q].pc.Scan? || s[q].pc.AckWait?
    ensures forall q | q in s :: Outside(s[q].pc)
  {
  }

  /** A matched receiver scans to the end, copies, acknowledges and returns. */
  lemma ReceiveEnds(g: Graph, s: State, i: nat) returns (s': State)
    requires Reachable(g, s) && Calm(s, i) && i in s && i in g.dir && g.dir[i] == In && i in g.conns
    requires s[i].pc == Scan(0) && !s[i].ready && s[i].blocked == 1
    requires forall o | o in s :: s[o].pc != AckWait(i, Asleep)
    ensures Reachable(g, s') && Leads(g, s, s', {i})
    ensures i in s' && s'[i].pc == Idle && s'[i].acks == s[i].acks + 1 && !s'[i].ready
  {
    hide *;
    var s1 := ScansOut(g, s, i);
    LeadsKeys(g, s, s1, {i});
    s' := Returns(g, s1, i);
    LeadsKeys(g, s1, s', {i});
    LeadsTrans(g, s, s1, s', {i});
  }

  /** The first half of the race: a receive of i completes and leaves its acknowledgement behind. */
  lemma LeavesAck(g: Graph, i: nat, o: nat, p: nat) returns (s: State)
    requires WellFormed(g) && Bound(g, o, i) && Bound(g, p, i) && o != p
    ensures Reachable(g, s) && s.Keys == g.dir.Keys
    ensures s[i].pc == Idle && s[i].acks == 1 && s[p].pc == Idle
    ensures s[o].pc == AckWait(i, Testing)
    ensures forall h | h in s :: !s[h].ready && Outside(s[h].pc)
  {
    hide *;
    EndsIn(g, p, i);
    BothWays(g, p, i);
    ReceiverDir(g, o, i);
    var s3 := FirstServed(g, i, o);
    ReadyOrWokenOnce(g, s3, i);
    QuietCalm(s3, i);
    s := ReceiveEnds(g, s3, i);
    LeadsKeys(g, s3, s, {i});
    QuietOutside(s);
  }

  lemma ServedFacts(s: State, s': State, o: nat, i: nat)
    requires Served(s, s', o, i) && o != i
    ensures s'.Keys == s.Keys && (forall q | q in s && q != o && q != i :: s'[q] == s[q])
    ensures o in s && i in s && s'[o].pc == AckWait(i, Testing) && !s'[o].ready && !s'[i].ready
    ensures s'[i].pc == s[i].pc && s'[i].acks == s[i].acks
    ensures |s'[i].from| > 0 && s'[i].from[|s'[i].from| - 1].0 == o
  {
  }

  lemma ReadyOrWokenOnce(g: Graph, s: State, i: nat)
    requires Reachable(g, s) && i in s && s[i].pc.Scan? && !s[i].ready
    ensures s[i].blocked == 1 && Pending(s[i])
  {
    ReadyOrWoken(g, s, i);
  }

  lemma CalmOutside(s: State, h: nat)
    requires forall q | q in s && q != h :: Outside(s[q].pc) || s[q].pc.Scan?
    ensures Calm(s, h)
  {
  }

  /** Receiver i waits once more and sender p begins; the acknowledgement is still there. */
  lemma OpensAgain(g: Graph, s: State, i: nat, p: nat) returns (s': State)
    requires WellFormed(g) && Reachable(g, s) && s.Keys == g.dir.Keys && Bound(g, p, i)
    requires i in s && p in s && s[i].pc == Idle && s[i].acks == 1 && s[p].pc == Idle
    requires forall h | h in s :: !s[h].ready && Outside(s[h].pc)
    ensures Reachable(g, s') && Calm(s', p) && s'.Keys == s.Keys && i != p && p in g.conns
    ensures s'[i].pc == s'[p].pc == Scan(0) && s'[i].ready && s'[p].ready && s'[p].seen == {} && s'[i].acks == 1
    ensures forall m | Linked(g, p, m) && m in s' && m != i :: !s'[m].ready
  {
    hide *;
    BothWays(g, p, i);
    CalmOutside(s, i);
    var s1 := Opens(g, s, i, 0);
    LeadsKeys(g, s, s1, {i});
    CalmOutside(s1, p);
    s' := Opens(g, s1, p, 0);
    LeadsKeys(g, s1, s', {p});
    CalmOutside(s', p);
  }

  /** A second sender takes that acknowledgement for its own and returns while its data is uncopied. */
  lemma TwoSendersUnprotected(g: Graph, i: nat, o: nat, p: nat)
    requires WellFormed(g) && Bound(g, o, i) && Bound(g, p, i) && o != p
    ensures !AckProtects(g, i)
  {
    hide *;
    EndsIn(g, p, i);
    var s0 := LeavesAck(g, i, o, p);
    var s2 := OpensAgain(g, s0, i, p);
    var s3 := Finds(g, s2, p, i);
    ServedFacts(s2, s3, p, i);
    ReadyOrWokenOnce(g, s3, i);
    var s4 := TakesAck(g, s3, p, i);
    ReadyOrWokenOnce(g, s4, i);
    IdleUnheld(g, s4, i, p);
  }

  lemma IdleUnheld(g: Graph, s: State, i: nat, p: nat)
    requires Reachable(g, s) && i in s && p in s && Pending(s[i]) && s[p].pc == Idle
    requires |s[i].from| > 0 && s[i].from[|s[i].from| - 1].0 == p
    ensures !AckProtects(g, i)
  {
    hide Reachable, Pending;
    assert !SenderHeld(s, i);
  }

  /** A send's data is copied before the send returns, in every run, exactly when its receiver has no
      second sender. */
  lemma AckProtectsExactly(g: Graph, i: nat)
    requires WellFormed(g) && i in g.dir && g.dir[i] == In
    ensures AckProtects(g, i) <==> |g.conns[i]| <= 1
  {
    hide Reachable;
    if |g.conns[i]| <= 1 {
      forall s | Reachable(g, s) ensures SenderHeld(s, i) { SoleSenderHeld(g, s, i); }
    } else {
      var o, p := g.conns[i][0], g.conns[i][1];
      assert Linked(g, i, o) && Linked(g, i, p);
      TwoSendersUnprotected(g, i, o, p);
    }
  }
}
