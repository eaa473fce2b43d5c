/**
 What the rendezvous protocol guarantees in every reachable state of every connection graph.
 */
module RendezvousResults {
  import opened Rendezvous
  import opened RendezvousSafety

  ghost predicate Reaches(g: Graph, b: seq<State>, steps: seq<Step>, s: State) {
    WellFormed(g) && Run(g, b, steps) && Init(g, b[0]) && b[|steps|] == s
  }

  ghost predicate Reachable(g: Graph, s: State) {
    exists b, steps :: Reaches(g, b, steps, s)
  }

  lemma ReachableInv(g: Graph, s: State)
    requires Reachable(g, s)
    ensures WellFormed(g) && Inv(g, s)
  {
    var b, steps :| Reaches(g, b, steps, s);
    RunInv(g, b, steps, |steps|);
  }

  lemma MovesTo(g: Graph, s: State, a: Step)
    requires Enabled(g, s, a)
    ensures Moves(g, s, a, Apply(g, s, a))
  {
    hide Enabled, Apply;
  }

  lemma ReachableStep(g: Graph, s: State, a: Step)
    requires Reachable(g, s) && Enabled(g, s, a)
    ensures Reachable(g, Apply(g, s, a))
  {
    hide Moves, Init, WellFormed, Enabled, Apply;
    var s' := Apply(g, s, a);
    MovesTo(g, s, a);
    var b, steps :| Reaches(g, b, steps, s);
    var b', steps' := b + [s'], steps + [a];
    forall j | 0 <= j < |steps'| ensures Moves(g, b'[j], steps'[j], b'[j + 1]) {
      if j < |steps| { assert b'[j] == b[j] && b'[j + 1] == b[j + 1] && steps'[j] == steps[j]; }
    }
    assert Reaches(g, b', steps', s');
  }

  lemma ReachableHalf(g: Graph, s: State, h: nat)
    requires Reachable(g, s) && (h in s || h in g.dir)
    ensures h in s && h in g.dir && h in g.conns && HalfOk(g, h, s[h])
  {
    hide Reachable, Exclusion, NotMissed, Committed, Forward, Backward, InOrder, Control, Counts;
    ReachableInv(g, s);
  }

  // ----- safety -----

  /** No two threads are inside one half's mutex, and a committed pair is still ready. */
  lemma MutualExclusion(g: Graph, s: State, p: nat, q: nat, x: nat)
    requires Reachable(g, s) && Holds(g, s, p, x) && Holds(g, s, q, x)
    ensures p == q
    ensures s[p].pc.Commit? ==> s[p].pc.m in s && s[p].ready && s[s[p].pc.m].ready
  {
    ReachableInv(g, s);
  }

  /** An announced half is either still ready or owed exactly one wake-up; any other half is neither. */
  lemma ReadyOrWoken(g: Graph, s: State, h: nat)
    requires Reachable(g, s) && h in s
    ensures Active(s[h].pc) ==> (s[h].ready && s[h].blocked == 0) || (!s[h].ready && s[h].blocked == 1)
    ensures !Active(s[h].pc) ==> !s[h].ready && s[h].blocked == 0
    ensures s[h].pc == Park(Asleep) ==> s[h].blocked == 0
  {
    hide Reachable;
    ReachableHalf(g, s, h);
  }

  /** No bound pair of halves is ever parked with both still ready for each other. */
  lemma NoLostRendezvous(g: Graph, s: State, o: nat, i: nat)
    requires Reachable(g, s) && Bound(g, o, i) && o in s && i in s && s[o].pc.Park? && s[i].pc.Park?
    ensures !(s[o].ready && s[i].ready)
  {
    hide Reachable, Local, Exclusion, Committed, Forward, Backward, InOrder;
    ReachableInv(g, s);
    ReachableHalf(g, s, o);
    ReachableHalf(g, s, i);
    assert Linked(g, i, o);
  }

  function CompletedSends(x: Half): int {
    if x.pc == Idle then |x.sent| else |x.sent| - 1
  }

  /** Every completed receive returned the value of a send on a bound half, and that send is no other's. */
  lemma ReceivesAreSends(g: Graph, s: State, i: nat, r: nat)
    requires Reachable(g, s) && i in s && r < |s[i].got|
    ensures r < |s[i].from|
    ensures var (o, k) := s[i].from[r];
      && Bound(g, o, i) && o in s && k < |s[o].sent| && s[i].got[r] == s[o].sent[k]
      && forall j, q | j in s && 0 <= q < |s[j].from| && s[j].from[q] == (o, k) :: (j, q) == (i, r)
  {
    hide Reachable, Exclusion, NotMissed, Committed, Bound, Control;
    ReachableInv(g, s);
    ReachableHalf(g, s, i);
  }

  /** A completed send has been matched, and the receiver of a match is done with it or still has it. */
  lemma SendMatched(g: Graph, s: State, o: nat, k: nat)
    requires Reachable(g, s) && o in s && o in g.dir && g.dir[o] == Out && k < CompletedSends(s[o])
    ensures k < |s[o].to| && |s[o].to| <= |s[o].sent|
  {
    hide Reachable, Swept;
    ReachableHalf(g, s, o);
  }

  lemma MatchHeld(g: Graph, s: State, i: nat, r: nat)
    requires Reachable(g, s) && i in s && i in g.dir && g.dir[i] == In && |s[i].got| <= r < |s[i].from|
    ensures r == |s[i].got| && s[i].pc != Idle
  {
    hide Reachable, Swept;
    ReachableHalf(g, s, i);
  }

  /** Every completed send was taken by one receive on a bound half, and that receive is no other's. */
  lemma SendsAreReceived(g: Graph, s: State, o: nat, k: nat)
    requires Reachable(g, s) && o in s && o in g.dir && g.dir[o] == Out && k < CompletedSends(s[o])
    ensures k < |s[o].to|
    ensures var (i, r) := s[o].to[k];
      && Bound(g, o, i) && i in s && r < |s[i].from|
      && (r < |s[i].got| ==> s[i].got[r] == s[o].sent[k])
      && (r >= |s[i].got| ==> r == |s[i].got| && Carries(s[i], r, s[o].sent[k]) && s[i].pc != Idle)
      && forall j, q | j in s && 0 <= q < |s[j].to| && s[j].to[q] == (i, r) :: (j, q) == (o, k)
  {
    hide Reachable, Exclusion, NotMissed, Committed, Local, InOrder;
    ReachableInv(g, s);
    SendMatched(g, s, o, k);
    var (i, r) := s[o].to[k];
    if r >= |s[i].got| { MatchHeld(g, s, i, r); }
  }

  /** On one link the values arrive in the order they were sent. */
  lemma LinkOrder(g: Graph, s: State, i: nat, p: nat, q: nat)
    requires Reachable(g, s) && i in s && p < q < |s[i].from| && s[i].from[p].0 == s[i].from[q].0
    ensures s[i].from[p].1 < s[i].from[q].1
  {
    ReachableInv(g, s);
  }
}
