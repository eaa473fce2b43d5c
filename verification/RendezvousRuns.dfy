/**
 Building runs of the rendezvous protocol step by step, in any connection graph: what one thread does
 while the others stay where they are.
 */
module RendezvousRuns {
  import opened Rendezvous
  import opened RendezvousSafety
  import opened RendezvousResults

  predicate Outside(pc: PC) {
    !pc.WantOut? && !pc.Both? && !pc.Commit?
  }

  /** No half but possibly h is inside a mutex. */
  ghost predicate Calm(s: State, h: nat) {
    forall q | q in s && q != h :: Outside(s[q].pc)
  }

  /** A run leads from s to s', and in every state on the way all halves but those named are as they were. */
  ghost predicate Leads(g: Graph, s: State, s': State, moving: set<nat>) {
    exists b, steps :: Path(g, s, s', moving, b, steps)
  }

  ghost predicate Path(g: Graph, s: State, s': State, moving: set<nat>, b: seq<State>, steps: seq<Step>) {
    && Run(g, b, steps) && b[0] == s && b[|steps|] == s'
    && forall j | 0 <= j < |b| :: Still(s, b[j], moving)
  }

  ghost predicate Still(s: State, t: State, moving: set<nat>) {
    t.Keys == s.Keys && forall q | q in s && q !in moving :: t[q] == s[q]
  }

  lemma LeadsKeys(g: Graph, s: State, s': State, moving: set<nat>)
    requires Leads(g, s, s', moving)
    ensures s'.Keys == s.Keys && forall q | q in s && q !in moving :: s'[q] == s[q]
  {
    hide Run;
    var b, steps :| Path(g, s, s', moving, b, steps);
    assert |b| == |steps| + 1 by { RunLength(g, b, steps); }
    assert Still(s, b[|steps|], moving);
  }

  lemma RunLength(g: Graph, b: seq<State>, steps: seq<Step>)
    requires Run(g, b, steps)
    ensures |b| == |steps| + 1
  {
    hide Moves;
  }

  lemma LeadsSelf(g: Graph, s: State, moving: set<nat>)
    ensures Leads(g, s, s, moving)
  {
    hide Moves;
    assert Path(g, s, s, moving, [s], []);
  }

  lemma LeadsStep(g: Graph, s: State, a: Step, moving: set<nat>)
    requires Enabled(g, s, a) && Still(s, Apply(g, s, a), moving)
    ensures Leads(g, s, Apply(g, s, a), moving)
  {
    hide Enabled, Apply;
    var s' := Apply(g, s, a);
    assert Path(g, s, s', moving, [s, s'], [a]) by { assert Moves(g, s, a, s'); assert Still(s, s, moving); }
  }

  lemma LeadsTrans(g: Graph, s: State, t: State, u: State, moving: set<nat>)
    requires Leads(g, s, t, moving) && Leads(g, t, u, moving)
    ensures Leads(g, s, u, moving)
  {
    hide Moves;
    var b, steps :| Path(g, s, t, moving, b, steps);
    var c, more :| Path(g, t, u, moving, c, more);
    var d, all := b + c[1..], steps + more;
    forall j | 0 <= j < |all| ensures Moves(g, d[j], all[j], d[j + 1]) {
      if j < |steps| { assert Moves(g, b[j], steps[j], b[j + 1]); }
      else { assert Moves(g, c[j - |steps|], more[j - |steps|], c[j - |steps| + 1]); }
    }
    forall j | 0 <= j < |d| ensures Still(s, d[j], moving) {
      if j < |b| { assert Still(s, b[j], moving); }
      else { assert Still(t, c[j - |b| + 1], moving) && Still(s, b[|steps|], moving); }
    }
    assert Path(g, s, u, moving, d, all);
  }

  lemma LeadsMore(g: Graph, s: State, t: State, moving: set<nat>, more: set<nat>)
    requires Leads(g, s, t, moving) && moving <= more
    ensures Leads(g, s, t, more)
  {
    hide Run;
    var b, steps :| Path(g, s, t, moving, b, steps);
    forall j | 0 <= j < |b| ensures Still(s, b[j], more) { assert Still(s, b[j], moving); }
    assert Path(g, s, t, more, b, steps);
  }

  lemma CalmFree(g: Graph, s: State, h: nat, x: nat)
    requires Calm(s, h) && h in s && Outside(s[h].pc)
    ensures Free(g, s, x)
  {
  }

  lemma CalmFreeOut(g: Graph, s: State, h: nat, k: nat, m: nat)
    requires Calm(s, h) && h in s && h in g.dir && s[h].pc == WantOut(k, m) && m != h
    ensures Free(g, s, OutSide(g.dir[h], h, m))
  {
  }

  /** A step that writes only the stepping half. */
  lemma Alone(g: Graph, s: State, a: Step) returns (s': State)
    requires Reachable(g, s) && Enabled(g, s, a) && !a.Hit? && !a.AckPass? && !a.Take?
    ensures Reachable(g, s') && Leads(g, s, s', {a.h})
    ensures s'[a.h] == Own(g.dir[a.h], g.conns[a.h], s[a.h], s[Partner(s[a.h], a)], a)
  {
    hide Guard, Own, Reachable, Leads;
    s' := Apply(g, s, a);
    ReachableStep(g, s, a);
    LeadsStep(g, s, a, {a.h});
  }

  lemma Begins(g: Graph, s: State, h: nat, v: Payload) returns (s': State)
    requires Reachable(g, s) && h in s && s[h].pc == Idle && h in g.conns && h in g.dir
    ensures Reachable(g, s') && Leads(g, s, s', {h})
    ensures s'[h].pc == Start(Testing) && s'[h].token == s[h].token && s'[h].acks == s[h].acks
    ensures |s'[h].sent| == |s[h].sent| + (if g.dir[h] == Out then 1 else 0)
  {
    hide Reachable, Free, Leads;
    Domains(g, s);
    s' := Alone(g, s, Begin(h, v));
  }

  lemma TakesToken(g: Graph, s: State, h: nat) returns (s': State)
    requires Reachable(g, s) && h in s && s[h].pc == Start(Testing) && s[h].token && h in g.conns && h in g.dir
    ensures Reachable(g, s') && Leads(g, s, s', {h}) && s'[h].pc == Announce && s'[h].acks == s[h].acks
    ensures s'[h].sent == s[h].sent
  {
    hide Reachable, Free, Leads;
    Domains(g, s);
    s' := Alone(g, s, TokenTake(h));
  }

  lemma Raises(g: Graph, s: State, h: nat) returns (s': State)
    requires Reachable(g, s) && h in s && s[h].pc == Announce && Free(g, s, h) && h in g.conns && h in g.dir
    ensures Reachable(g, s') && Leads(g, s, s', {h})
    ensures s'[h].pc == Raised && s'[h].ready && s'[h].seen == {} && s'[h].acks == s[h].acks && s'[h].sent == s[h].sent
  {
    hide Reachable, Free, Leads;
    Domains(g, s);
    s' := Alone(g, s, Raise(h));
  }

  lemma Measures(g: Graph, s: State, h: nat) returns (s': State)
    requires Reachable(g, s) && h in s && s[h].pc == Raised && h in g.conns && h in g.dir
    ensures Reachable(g, s') && Leads(g, s, s', {h})
    ensures s'[h] == s[h].(pc := Scan(0), length := |g.conns[h]|)
  {
    hide Reachable, Free, Leads;
    Domains(g, s);
    s' := Alone(g, s, Measure(h));
  }

  lemma IdleToken(g: Graph, s: State, h: nat)
    requires Reachable(g, s) && h in s && s[h].pc == Idle && h in g.conns && |g.conns[h]| > 0
    ensures h in g.dir && s[h].token
  {
    hide Reachable, Counts;
    ReachableHalf(g, s, h);
  }

  lemma StillCalm(g: Graph, s: State, s': State, h: nat)
    requires Calm(s, h) && Leads(g, s, s', {h})
    ensures Calm(s', h)
  {
    hide Leads, Outside;
    LeadsKeys(g, s, s', {h});
  }

  lemma AnnounceOutside(s: State, h: nat)
    requires h in s && s[h].pc == Announce
    ensures Outside(s[h].pc)
  {
  }

  /** The beginning of an operation, up to the first probe. */
  lemma Opens(g: Graph, s: State, h: nat, v: Payload) returns (s': State)
    requires Reachable(g, s) && Calm(s, h) && h in s && s[h].pc == Idle && h in g.conns && h in g.dir
    requires |g.conns[h]| > 0
    ensures Reachable(g, s') && Leads(g, s, s', {h})
    ensures s'[h].pc == Scan(0) && s'[h].ready && s'[h].seen == {} && s'[h].acks == s[h].acks
    ensures |s'[h].sent| == |s[h].sent| + (if g.dir[h] == Out then 1 else 0)
  {
    hide *;
    IdleToken(g, s, h);
    var s1 := Begins(g, s, h, v);
    StillCalm(g, s, s1, h);
    LeadsKeys(g, s, s1, {h});
    var s2 := TakesToken(g, s1, h);
    StillCalm(g, s1, s2, h);
    LeadsKeys(g, s1, s2, {h});
    AnnounceOutside(s2, h);
    CalmFree(g, s2, h, h);
    var s3 := Raises(g, s2, h);
    LeadsKeys(g, s2, s3, {h});
    s' := Measures(g, s3, h);
    LeadsTrans(g, s, s1, s2, {h});
    LeadsTrans(g, s, s2, s3, {h});
    LeadsTrans(g, s, s3, s', {h});
  }

  lemma Fetches(g: Graph, s: State, h: nat) returns (s': State, m: nat)
    requires Reachable(g, s) && h in s && h in g.conns && s[h].pc.Scan? && s[h].pc.k < |g.conns[h]|
    ensures Reachable(g, s') && Leads(g, s, s', {h}) && Linked(g, h, m) && m in s && m != h
    ensures s'[h] == s[h].(pc := WantIn(s[h].pc.k, m), cursor := s'[h].cursor)
  {
    hide Reachable, Counts;
    ReachableHalf(g, s, h);
    Domains(g, s);
    m := g.conns[h][s[h].cursor];
    s' := Alone(g, s, Fetch(h));
    hide Control;
    PartnerOf(g, s, h, m);
  }

  lemma PartnerOf(g: Graph, s: State, h: nat, m: nat)
    requires Reachable(g, s) && h in g.conns && m in g.conns[h]
    ensures Linked(g, h, m) && m in s && m != h
  {
    hide Local, Exclusion, Committed, NotMissed, Forward, Backward, InOrder;
    ReachableInv(g, s);
    Domains(g, s);
    assert Linked(g, h, m);
  }

  lemma LocksIn(g: Graph, s: State, h: nat, k: nat, m: nat) returns (s': State)
    requires Reachable(g, s) && Calm(s, h) && h in s && h in g.conns && h in g.dir && s[h].pc == WantIn(k, m) && m in s
    ensures Reachable(g, s') && Leads(g, s, s', {h}) && s'[h] == s[h].(pc := WantOut(k, m))
  {
    hide Reachable, Free, Leads;
    Domains(g, s);
    CalmFree(g, s, h, InSide(g.dir[h], h, m));
    s' := Alone(g, s, LockIn(h));
  }

  lemma LocksOut(g: Graph, s: State, h: nat, k: nat, m: nat) returns (s': State)
    requires Reachable(g, s) && Calm(s, h) && h in s && h in g.conns && h in g.dir && s[h].pc == WantOut(k, m)
    requires m in s && m != h
    ensures Reachable(g, s') && Leads(g, s, s', {h}) && s'[h] == s[h].(pc := Both(k, m))
  {
    hide Reachable, Free, Leads;
    Domains(g, s);
    CalmFreeOut(g, s, h, k, m);
    s' := Alone(g, s, LockOut(h));
  }

  /** Fetch the next partner and lock the pair. */
  lemma Locks(g: Graph, s: State, h: nat) returns (s': State, m: nat)
    requires Reachable(g, s) && Calm(s, h) && h in s && h in g.conns && s[h].pc.Scan? && s[h].pc.k < |g.conns[h]|
    ensures Reachable(g, s') && Leads(g, s, s', {h}) && Linked(g, h, m) && m in s && m != h
    ensures s'[h] == s[h].(pc := Both(s[h].pc.k, m), cursor := s'[h].cursor)
  {
    hide *;
    Domains(g, s);
    var s1, s2;
    s1, m := Fetches(g, s, h);
    StillCalm(g, s, s1, h);
    LeadsKeys(g, s, s1, {h});
    s2 := LocksIn(g, s1, h, s[h].pc.k, m);
    StillCalm(g, s1, s2, h);
    LeadsKeys(g, s1, s2, {h});
    s' := LocksOut(g, s2, h, s[h].pc.k, m);
    LeadsTrans(g, s, s1, s2, {h});
    LeadsTrans(g, s, s2, s', {h});
  }

  lemma Misses(g: Graph, s: State, h: nat, m: nat) returns (s': State)
    requires Reachable(g, s) && h in s && h in g.dir && s[h].pc.Both? && s[h].pc.m == m && m in s
    requires !(s[m].ready && s[h].ready)
    ensures Reachable(g, s') && Leads(g, s, s', {h})
    ensures s'[h] == s[h].(pc := Scan(s[h].pc.k + 1), seen := s[h].seen + {m})
  {
    hide Reachable, Leads, Free;
    ReachableHalf(g, s, h);
    assert Enabled(g, s, Miss(h)) by { Domains(g, s); }
    s' := Alone(g, s, Miss(h));
  }

  lemma Domains(g: Graph, s: State)
    requires Reachable(g, s)
    ensures g.conns.Keys == g.dir.Keys == s.Keys
  {
    ReachableInv(g, s);
  }

  /** A scan that cannot match anyone, its own half or no partner being ready, runs to its end. */
  lemma {:induction false} ScansOut(g: Graph, s: State, h: nat) returns (s': State)
    requires Reachable(g, s) && Calm(s, h) && h in s && h in g.conns && s[h].pc.Scan? && s[h].pc.k <= |g.conns[h]|
    requires !s[h].ready || forall m | Linked(g, h, m) && m in s :: !s[m].ready
    ensures Reachable(g, s') && Leads(g, s, s', {h})
    ensures s'[h] == s[h].(pc := Scan(|g.conns[h]|), cursor := s'[h].cursor, seen := s'[h].seen)
    decreases |g.conns[h]| - s[h].pc.k
  {
    hide *;
    Domains(g, s);
    if s[h].pc.k == |g.conns[h]| {
      s' := s;
      LeadsSelf(g, s, {h});
    } else {
      var s1, m := Locks(g, s, h);
      LeadsKeys(g, s, s1, {h});
      StillCalm(g, s, s1, h);
      var s2 := Misses(g, s1, h, m);
      LeadsKeys(g, s1, s2, {h});
      StillCalm(g, s1, s2, h);
      LeadsTrans(g, s, s1, s2, {h});
      s' := ScansOut(g, s2, h);
      LeadsTrans(g, s, s2, s', {h});
    }
  }

  lemma BoundLinked(g: Graph, o: nat, i: nat)
    requires Bound(g, o, i)
    ensures Linked(g, o, i)
  {
  }

  lemma KnownDirs(g: Graph, s: State, o: nat)
    requires Reachable(g, s) && o in s
    ensures o in g.dir && o in g.conns
  {
    Domains(g, s);
  }

  lemma NotAllProbed(g: Graph, s: State, o: nat, i: nat)
    requires Reachable(g, s) && o in s && Linked(g, o, i) && s[o].pc.Scan? && i !in s[o].seen
    ensures s[o].pc.k < |g.conns[o]|
  {
    hide Reachable, Counts;
    ReachableHalf(g, s, o);
    if s[o].pc.k >= |g.conns[o]| {
      var j := FullCycle(g.conns[o], s[o].start, i);
    }
  }

  lemma Start0(g: Graph) returns (s: State)
    requires WellFormed(g)
    ensures Reachable(g, s) && s.Keys == g.dir.Keys
    ensures forall h | h in s :: s[h].pc == Idle && !s[h].ready && s[h].acks == 0
  {
    s := map h | h in g.dir :: Fresh(|g.conns[h]|);
    forall h | h in g.dir ensures s[h] == Fresh(|g.conns[h]|).(cursor := 0) {
    }
    assert Init(g, s);
    assert Reaches(g, [s], [], s);
  }

  /** Nobody but h is doing anything beyond waiting to probe. */
  lemma QuietCalm(s: State, h: nat)
    requires forall q | q in s && q != h :: s[q].pc == Idle || s[q].pc.Scan? || s[q].pc.AckWait?
    ensures Calm(s, h)
  {
  }

  lemma EndsIn(g: Graph, o: nat, i: nat)
    requires Bound(g, o, i)
    ensures o in g.dir && i in g.dir
  {
  }

  lemma BothWays(g: Graph, o: nat, i: nat)
    requires WellFormed(g) && Bound(g, o, i)
    ensures o in g.conns && i in g.conns && |g.conns[o]| > 0 && |g.conns[i]| > 0 && Linked(g, i, o)
    ensures !Linked(g, i, i) && !Linked(g, o, o) && o != i
  {
  }

  lemma GivesBack(g: Graph, s: State, o: nat) returns (s': State)
    requires Reachable(g, s) && o in s && s[o].pc == Release
    ensures Reachable(g, s') && Leads(g, s, s', {o}) && s'[o].pc == Idle
  {
    hide Reachable, Free, Leads;
    Domains(g, s);
    s' := Alone(g, s, GiveBack(o));
  }

  lemma ReceiverDir(g: Graph, o: nat, i: nat)
    requires Bound(g, o, i) && WellFormed(g)
    ensures g.dir[i] == In && i in g.dir && !Linked(g, i, i)
  {
  }

  lemma BoundApart(g: Graph, s: State, o: nat, i: nat)
    requires Reachable(g, s) && Bound(g, o, i)
    ensures o != i
  {
  }

  lemma EndsScan(g: Graph, s: State, i: nat) returns (s': State)
    requires Reachable(g, s) && i in s && i in g.dir && i in g.conns && s[i].pc == Scan(|g.conns[i]|)
    ensures Reachable(g, s') && Leads(g, s, s', {i}) && s'[i] == s[i].(pc := Park(Testing), token := true)
  {
    hide Reachable, Free, Leads, Counts;
    Domains(g, s);
    ReachableHalf(g, s, i);
    s' := Alone(g, s, ScanEnd(i));
  }

  lemma Wakes(g: Graph, s: State, i: nat) returns (s': State)
    requires Reachable(g, s) && i in s && i in g.dir && i in g.conns && s[i].pc == Park(Testing) && s[i].blocked > 0
    ensures Reachable(g, s') && Leads(g, s, s', {i})
    ensures s'[i] == s[i].(pc := if g.dir[i] == In then Copy else Idle, blocked := s[i].blocked - 1)
  {
    hide Reachable, Free, Leads;
    Domains(g, s);
    s' := Alone(g, s, ParkPass(i));
  }
}
