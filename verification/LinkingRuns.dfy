/**
 Building runs of sending, receiving, binding and unbinding: one step more, and the runs of a fixed graph, in
 which the one thread that could bind stays away.
 */
module LinkingRuns {
  import opened Rendezvous
  import opened RendezvousResults
  import opened RendezvousRuns
  import opened Wrappers
  import opened Linking

  lemma PossibleStep(n: Net, e: Event, n': Net)
    requires Possible(n) && Ready(n, e) && n' == After(n, e)
    ensures Possible(n')
  {
    hide Ready, After, NetInit;
    var b, events :| PossibleBy(b, events, n);
    var b', events' := b + [n'], events + [e];
    forall k | 0 <= k < |events'| ensures Goes(b'[k], events'[k], b'[k + 1]) {
      if k < |events| { assert Goes(b[k], events[k], b[k + 1]); }
    }
    assert PossibleBy(b', events', n');
  }

  /** The halves at s, and one thread, 9, that binds and unbinds. */
  function One(g: Graph, size: map<nat, nat>, s: State, op: Option<nat>, pc: LinkPC): Net {
    Net(g, size, s, op, map[9 := pc], false)
  }

  lemma NobodyWakes(dir: map<nat, Dir>, x: nat)
    ensures WokeAll(dir, map[9 := Away], x) == map[9 := Away]
  {
    assert Woke(dir, Away, x) == Away;
  }

  lemma FixedStep(g: Graph, size: map<nat, nat>, s: State, a: Step)
    requires Enabled(g, s, a)
    ensures Ready(One(g, size, s, None, Away), Talk(a))
    ensures After(One(g, size, s, None, Away), Talk(a)) == One(g, size, Apply(g, s, a), None, Away)
  {
    hide Enabled, Apply, WokeAll;
    EnabledHalf(g, s, a);
    NobodyWakes(g.dir, a.h);
  }

  lemma EnabledHalf(g: Graph, s: State, a: Step)
    requires Enabled(g, s, a)
    ensures a.h in s && a.h in g.dir && a.h in g.conns
  {
  }

  lemma {:induction false} FixedRun(g: Graph, size: map<nat, nat>, b: seq<State>, steps: seq<Step>, k: nat)
    requires WellFormed(g) && Run(g, b, steps) && Init(g, b[0]) && k < |b|
    ensures Possible(One(g, size, b[k], None, Away))
  {
    hide Enabled, Apply, Ready, After, Init, WellFormed, Possible;
    if k == 0 {
      FixedStart(g, size, b[0]);
    } else {
      FixedRun(g, size, b, steps, k - 1);
      assert Moves(g, b[k - 1], steps[k - 1], b[k]);
      FixedStep(g, size, b[k - 1], steps[k - 1]);
      PossibleStep(One(g, size, b[k - 1], None, Away), Talk(steps[k - 1]), One(g, size, b[k], None, Away));
    }
  }

  lemma FixedStart(g: Graph, size: map<nat, nat>, s: State)
    requires WellFormed(g) && Init(g, s)
    ensures Possible(One(g, size, s, None, Away))
  {
    hide WellFormed, Init;
    var n := One(g, size, s, None, Away);
    assert PossibleBy([n], [], n);
  }

  /** Every state reachable on a fixed graph is reachable with a thread present that does nothing. */
  lemma FixedPossible(g: Graph, size: map<nat, nat>, s: State)
    requires Reachable(g, s)
    ensures Possible(One(g, size, s, None, Away))
  {
    hide Run, Init, WellFormed, Possible;
    var b, steps :| Reaches(g, b, steps, s);
    RunLength(g, b, steps);
    FixedRun(g, size, b, steps, |steps|);
  }

  ghost predicate AllOutside(s: State) {
    forall q | q in s :: Outside(s[q].pc)
  }

  lemma OutsideFree(g: Graph, s: State, x: nat)
    requires AllOutside(s)
    ensures Free(g, s, x)
  {
  }

  /** A bind of two halves that are not in the middle of a probe, up to where it has locked both. */
  lemma BindLocks(g: Graph, size: map<nat, nat>, s: State, a: nat, b: nat) returns (n: Net)
    requires Possible(One(g, size, s, None, Away)) && AllOutside(s)
    requires a in g.dir && b in g.dir && g.dir[a] != g.dir[b] && a in size && b in size && size[a] == size[b]
    ensures Possible(n) && n == One(g, size, s, Some(9), LinkBoth(ToBind(a, b)))
  {
    hide Possible, Free, AllOutside;
    var j := ToBind(a, b);
    OutsideFree(g, s, InEnd(g.dir, j));
    OutsideFree(g, s, OutEnd(g.dir, j));
    BindMoves(g, size, s, None, Away, Call(a, Some(b)), None, Want(a, Some(b)));
    BindMoves(g, size, s, None, Want(a, Some(b)), Enter, Some(9), LinkIn(j));
    BindMoves(g, size, s, Some(9), LinkIn(j), LockFirst, Some(9), LinkOut(j));
    BindMoves(g, size, s, Some(9), LinkOut(j), LockSecond, Some(9), LinkBoth(j));
    n := One(g, size, s, Some(9), LinkBoth(j));
  }

  lemma BindMoves(g: Graph, size: map<nat, nat>, s: State, op: Option<nat>, pc: LinkPC, act: Act,
                  op': Option<nat>, pc': LinkPC)
    requires Possible(One(g, size, s, op, pc))
    requires LinkReady(One(g, size, s, op, pc), pc, act) && !act.Post? && !act.Take? && !act.Change?
    requires LinkStep(One(g, size, s, op, pc), 9, act).op == op'
    requires LinkStep(One(g, size, s, op, pc), 9, act).links[9] == pc'
    ensures Possible(One(g, size, s, op', pc'))
  {
    hide Possible, Clear;
    assert After(One(g, size, s, op, pc), Link(9, act)) == One(g, size, s, op', pc');
    PossibleStep(One(g, size, s, op, pc), Link(9, act), One(g, size, s, op', pc'));
  }
}
