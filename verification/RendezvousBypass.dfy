/**
 How often a waiting receiver can be passed over.  A sender that finds its partners itself passes a
 ready receiver at most n times; sends that other receivers take from it pass it without bound.
 */
module RendezvousBypass {
  import opened Rendezvous
  import opened RendezvousSafety
  import opened RendezvousResults
  import opened RendezvousRuns

  // ----- what one sender's scans use up -----

  /** Cyclic distance from position c to position p. */
  function Distance(n: nat, c: nat, p: nat): int {
    if c <= p then p - c else p + n - c
  }

  predicate Scanning(pc: PC) {
    pc == Raised || pc.Scan? || pc.WantIn? || pc.WantOut? || pc.Both? || pc.Commit?
  }

  /** Services of others that the sender has left before it must come to position p: from where its scan
      started, or from its cursor between scans.  A scan that has passed p already may use up all n. */
  function Potential(l: seq<nat>, p: nat, x: Half): int
    requires p < |l|
  {
    if Scanning(x.pc) then
      if x.ready && l[p] in x.seen then |l| else Distance(|l|, x.start, p)
    else Distance(|l|, x.cursor, p)
  }

  lemma PotentialBounds(l: seq<nat>, p: nat, x: Half)
    requires p < |l| && Control(l, x)
    ensures 0 <= Potential(l, p, x) <= |l|
  {
  }

  /** The probe in hand is not of p, and p was not probed before: the cursor has not come to p. */
  lemma NotPassed(l: seq<nat>, p: nat, x: Half)
    requires p < |l| && Control(l, x) && x.pc.Commit? && x.pc.m != l[p] && l[p] !in x.seen
    ensures Distance(|l|, x.cursor, p) == Distance(|l|, x.start, p) - (x.pc.k + 1)
  {
    var d := Distance(|l|, x.start, p);
    assert Probed(l, x.start, d) == l[p];
  }

  /** A service of another partner uses some of the potential; no other step of the sender adds to it while
      it does not find the half at p ready in vain. */
  lemma OwnPotential(d: Dir, l: seq<nat>, x: Half, y: Half, a: Step, p: nat)
    requires Control(l, x) && Guard(l, x, y, a) && p < |l|
    requires a.Hit? ==> x.pc.m != l[p] && x.ready && d == Out
    requires a.Miss? && x.pc.m == l[p] ==> !x.ready
    ensures Potential(l, p, Own(d, l, x, y, a)) <= Potential(l, p, x) - (if a.Hit? then 1 else 0)
  {
    if a.Hit? && l[p] !in x.seen { NotPassed(l, p, x); }
  }

  lemma OtherPotential(d: Dir, l: seq<nat>, x: Half, r: seq<nat>, y: Half, a: Step, p: nat)
    requires Control(r, y) && Guard(l, x, y, a) && p < |r|
    ensures Potential(r, p, Other(d, x, y, a)) <= Potential(r, p, y)
  {
  }

  // ----- whole runs -----

  /** Services by half o itself, of partners it has found ready. */
  function Serves(o: nat, steps: seq<Step>): nat {
    if steps == [] then 0 else Serves(o, steps[..|steps| - 1]) + (if steps[|steps| - 1] == Hit(o) then 1 else 0)
  }

  /** Times another half took what o was offering. */
  function Taken(o: nat, b: seq<State>, steps: seq<Step>): nat
    requires |b| == |steps| + 1
  {
    if steps == [] then 0
    else Taken(o, b[..|steps|], steps[..|steps| - 1]) + (if Takes(o, b[|steps| - 1], steps[|steps| - 1]) then 1 else 0)
  }

  predicate Takes(o: nat, s: State, a: Step) {
    a.Hit? && a.h != o && a.h in s && Partner(s[a.h], a) == o
  }

  /** Half i is ready in every state of the run. */
  predicate StaysReady(b: seq<State>, i: nat) {
    forall j | 0 <= j < |b| :: i in b[j] && b[j][i].ready
  }

  lemma BypassStep(g: Graph, s: State, a: Step, o: nat, p: nat)
    requires WellFormed(g) && Inv(g, s) && Enabled(g, s, a) && o in s && o in g.dir && o in g.conns && g.dir[o] == Out
    requires p < |g.conns[o]|
    requires var i := g.conns[o][p]; i in s && s[i].ready && Apply(g, s, a)[i].ready
    ensures Apply(g, s, a).Keys == s.Keys
    ensures Potential(g.conns[o], p, Apply(g, s, a)[o]) <=
        Potential(g.conns[o], p, s[o]) - (if a == Hit(o) then 1 else 0)
    ensures |Apply(g, s, a)[o].to| == |s[o].to| + (if a == Hit(o) then 1 else 0) + (if Takes(o, s, a) then 1 else 0)
  {
    hide Own, Other, Swept, Steady, Counts, Potential, Exclusion, NotMissed, Forward, Backward, InOrder;
    var h, d, l, m := a.h, g.dir[a.h], g.conns[a.h], Partner(s[a.h], a);
    assert HalfOk(g, h, s[h]) && HalfOk(g, m, s[m]);
    HitEnds(d, l, s[h], s[m], a);
    if m != h { LinkedPartner(g, s, a); }
    hide Guard;
    if o == h { OwnPotential(d, l, s[h], s[m], a, p); }
    else if o == m { OtherPotential(d, l, s[h], g.conns[m], s[m], a, p); }
    MatchCount(d, l, s[h], s[m], a);
  }

  /** A match takes both ready flags; a miss means one was down. */
  lemma HitEnds(d: Dir, l: seq<nat>, x: Half, y: Half, a: Step)
    requires Guard(l, x, y, a)
    ensures a.Hit? ==> !Other(d, x, y, a).ready && !Own(d, l, x, y, a).ready && x.pc.Commit? && Partner(x, a) == x.pc.m
    ensures a.Miss? ==> x.pc.Both? && Partner(x, a) == x.pc.m && !(x.ready && y.ready)
  {
  }

  lemma MatchCount(d: Dir, l: seq<nat>, x: Half, y: Half, a: Step)
    requires Guard(l, x, y, a)
    ensures d == Out ==> |Own(d, l, x, y, a).to| == |x.to| + (if a.Hit? then 1 else 0)
    ensures d == In ==> |Other(d, x, y, a).to| == |y.to| + (if a.Hit? then 1 else 0)
    ensures d == Out ==> Other(d, x, y, a).to == y.to
  {
  }

  /** Over any run in which receiver i stays ready, its sender serves others at most n times; every further
      match of the sender is one that another receiver took. */
  lemma {:induction false} BoundedBypass(g: Graph, b: seq<State>, steps: seq<Step>, o: nat, i: nat, p: nat)
    requires WellFormed(g) && Run(g, b, steps) && Inv(g, b[0]) && Bound(g, o, i) && o in b[0]
    requires p < |g.conns[o]| && g.conns[o][p] == i && StaysReady(b, i)
    ensures Inv(g, b[|steps|]) && o in b[|steps|]
    ensures Serves(o, steps) + Potential(g.conns[o], p, b[|steps|][o]) <= Potential(g.conns[o], p, b[0][o])
    ensures |b[|steps|][o].to| - |b[0][o].to| == Serves(o, steps) + Taken(o, b, steps)
    decreases |steps|
  {
    hide Potential, Inv, WellFormed, Enabled, Apply, Takes;
    if steps != [] {
      var k := |steps| - 1;
      assert Moves(g, b[k], steps[k], b[k + 1]);
      assert b[..|steps|][k] == b[k];
      BoundedBypass(g, b[..|steps|], steps[..k], o, i, p);
      InvStep(g, b[k], steps[k]);
      BypassStep(g, b[k], steps[k], o, p);
    }
  }

  lemma SendsMatched(g: Graph, s: State, o: nat)
    requires Inv(g, s) && o in s && o in g.dir && g.dir[o] == Out
    ensures |s[o].to| - 1 <= CompletedSends(s[o]) <= |s[o].to|
    ensures s[o].pc == Idle ==> CompletedSends(s[o]) == |s[o].to|
  {
    hide Exclusion, Committed, NotMissed, Forward, Backward, InOrder, Swept;
    assert HalfOk(g, o, s[o]);
  }

  lemma InvPotential(g: Graph, s: State, o: nat, p: nat)
    requires Inv(g, s) && o in s && o in g.conns && p < |g.conns[o]|
    ensures 0 <= Potential(g.conns[o], p, s[o]) <= |g.conns[o]|
  {
    hide Exclusion, Committed, NotMissed, Forward, Backward, InOrder, Potential, Control;
    assert HalfOk(g, o, s[o]);
    PotentialBounds(g.conns[o], p, s[o]);
  }

  /** As numbers: at most n services of others, and at most n completed sends besides those that others took
      and one that was matched before. */
  lemma BypassBound(g: Graph, b: seq<State>, steps: seq<Step>, o: nat, i: nat)
    requires WellFormed(g) && Run(g, b, steps) && Reachable(g, b[0]) && Bound(g, o, i) && o in b[0] && StaysReady(b, i)
    ensures o in b[|steps|] && Serves(o, steps) <= |g.conns[o]|
    ensures var done := CompletedSends(b[|steps|][o]) - CompletedSends(b[0][o]);
      && done <= |g.conns[o]| + Taken(o, b, steps) + 1
      && (b[0][o].pc == Idle ==> done <= |g.conns[o]| + Taken(o, b, steps))
  {
    hide Inv, Moves, Reachable, Potential, StaysReady, CompletedSends;
    ReachableInv(g, b[0]);
    var p: nat :| p < |g.conns[o]| && g.conns[o][p] == i;
    BoundedBypass(g, b, steps, o, i, p);
    InvPotential(g, b[0], o, p);
    InvPotential(g, b[|steps|], o, p);
    SendsMatched(g, b[0], o);
    SendsMatched(g, b[|steps|], o);
  }

  // ----- a sender with no other partner -----

  lemma SoleStep(g: Graph, s: State, a: Step, o: nat, i: nat)
    requires WellFormed(g) && Inv(g, s) && Enabled(g, s, a) && Bound(g, o, i) && |g.conns[o]| == 1 && o in s && i in s
    requires s[i].ready && Apply(g, s, a)[i].ready
    ensures a != Hit(o) && !Takes(o, s, a)
  {
    hide Own, Other, Swept, Counts, Exclusion, NotMissed, Forward, Backward, InOrder;
    var h, d, l, m := a.h, g.dir[a.h], g.conns[a.h], Partner(s[a.h], a);
    assert HalfOk(g, h, s[h]) && HalfOk(g, m, s[m]);
    HitEnds(d, l, s[h], s[m], a);
    if a.Hit? {
      LinkedPartner(g, s, a);
      assert Linked(g, m, h);
    }
  }

  lemma {:induction false} SoleMatches(g: Graph, b: seq<State>, steps: seq<Step>, o: nat, i: nat)
    requires WellFormed(g) && Run(g, b, steps) && Inv(g, b[0]) && Bound(g, o, i) && o in b[0]
    requires |g.conns[o]| == 1 && StaysReady(b, i)
    ensures Serves(o, steps) == 0 && Taken(o, b, steps) == 0 && Inv(g, b[|steps|]) && b[|steps|].Keys == b[0].Keys
    decreases |steps|
  {
    hide Inv, WellFormed, Enabled, Apply, Takes, Bound;
    if steps != [] {
      var k := |steps| - 1;
      assert Moves(g, b[k], steps[k], b[k + 1]);
      assert b[..|steps|][k] == b[k];
      SoleMatches(g, b[..|steps|], steps[..k], o, i);
      InvStep(g, b[k], steps[k]);
      SoleStep(g, b[k], steps[k], o, i);
      SameKeys(g, b[k], steps[k]);
    }
  }

  lemma SameKeys(g: Graph, s: State, a: Step)
    requires Enabled(g, s, a)
    ensures Apply(g, s, a).Keys == s.Keys
  {
  }

  // ----- a sender with another partner: starvation -----

  /** Receiver i is parked and ready, and everybody else is between operations. */
  ghost predicate Parked(s: State, i: nat) {
    && i in s && s[i].ready && s[i].pc == Park(Asleep)
    && forall q | q in s && q != i :: s[q].pc == Idle && !s[q].ready
  }

  lemma Sleeps(g: Graph, s: State, i: nat) returns (s': State)
    requires Reachable(g, s) && i in s && i in g.dir && i in g.conns && s[i].pc == Park(Testing) && s[i].blocked == 0
    ensures Reachable(g, s') && Leads(g, s, s', {i}) && s'[i] == s[i].(pc := Park(Asleep))
  {
    hide Reachable, Free, Leads;
    Domains(g, s);
    s' := Alone(g, s, ParkSleep(i));
  }

  lemma ReadyOwedNothing(g: Graph, s: State, i: nat)
    requires Reachable(g, s) && i in s && s[i].ready
    ensures s[i].blocked == 0
  {
    hide Reachable;
    ReadyOrWoken(g, s, i);
  }

  /** A receive that finds nobody parks. */
  lemma Waits(g: Graph, i: nat, o: nat) returns (s: State)
    requires WellFormed(g) && Bound(g, o, i)
    ensures Reachable(g, s) && s.Keys == g.dir.Keys && Parked(s, i)
  {
    hide *;
    BothWays(g, o, i);
    EndsIn(g, o, i);
    var s0 := Start0(g);
    QuietCalm(s0, i);
    var s1 := Opens(g, s0, i, 0);
    LeadsKeys(g, s0, s1, {i});
    StillCalm(g, s0, s1, i);
    var s2 := ScansOut(g, s1, i);
    LeadsKeys(g, s1, s2, {i});
    var s3 := EndsScan(g, s2, i);
    LeadsKeys(g, s2, s3, {i});
    ReadyOwedNothing(g, s3, i);
    s := Sleeps(g, s3, i);
    LeadsKeys(g, s3, s, {i});
    ParkedIs(s, i);
  }

  lemma ParkedIs(s: State, i: nat)
    ensures Parked(s, i) <==>
      && i in s && s[i].ready && s[i].pc == Park(Asleep)
      && forall q | q in s && q != i :: s[q].pc == Idle && !s[q].ready
  {
  }

  /** From s to s' receiver j took what sender o was offering. */
  ghost predicate Took(s: State, s': State, j: nat, o: nat) {
    && s'.Keys == s.Keys && o in s && j in s
    && s'[o] == s[o].(ready := false, blocked := s[o].blocked + 1, to := s'[o].to)
    && s'[j].pc == Release && !s'[j].ready
  }

  lemma CommitsTo(g: Graph, s: State, j: nat, o: nat) returns (s': State)
    requires Reachable(g, s) && o in s && j in s && j in g.dir && j in g.conns && s[j].pc.Both? && s[j].pc.m == o
    requires s[o].ready && s[j].ready && o != j
    ensures Reachable(g, s') && Leads(g, s, s', {j}) && s'[j] == s[j].(pc := Commit(s[j].pc.k, o))
  {
    hide Reachable, Free, Leads;
    Domains(g, s);
    s' := Alone(g, s, Match(j));
  }

  lemma TakesFrom(g: Graph, s: State, j: nat, o: nat) returns (s': State)
    requires Reachable(g, s) && o in s && j in s && Bound(g, o, j) && s[j].pc.Commit? && s[j].pc.m == o && o != j
    requires s[o].pc.Scan?
    ensures Reachable(g, s') && Leads(g, s, s', {j, o}) && Took(s, s', j, o)
  {
    hide Reachable, Free, Leads;
    Domains(g, s);
    s' := Apply(g, s, Hit(j));
    ReachableStep(g, s, Hit(j));
    LeadsStep(g, s, Hit(j), {j, o});
  }

  lemma TookLater(g: Graph, s: State, s1: State, s': State, j: nat, o: nat)
    requires Leads(g, s, s1, {j}) && Took(s1, s', j, o) && o != j && o in s && j in s
    ensures Took(s, s', j, o)
  {
    hide Leads;
    LeadsKeys(g, s, s1, {j});
  }

  lemma Both2(j: nat, o: nat)
    ensures {j} <= {j, o} && {o} <= {j, o}
  {
  }

  /** A receiver scanning among senders of which only o is ready takes from o. */
  lemma {:induction false} TakesOne(g: Graph, s: State, j: nat, o: nat) returns (s': State)
    requires Reachable(g, s) && Calm(s, j) && o in s && j in s && Bound(g, o, j) && Linked(g, j, o) && o != j
    requires s[o].pc.Scan?
    requires j in g.conns && j in g.dir && s[j].pc.Scan? && s[j].pc.k <= |g.conns[j]| && s[j].ready && s[o].ready
    requires o !in s[j].seen
    requires forall m | Linked(g, j, m) && m in s && m != o :: !s[m].ready
    ensures Reachable(g, s') && Leads(g, s, s', {j, o}) && Took(s, s', j, o)
    decreases |g.conns[j]| - s[j].pc.k
  {
    hide *;
    Both2(j, o);
    NotAllProbed(g, s, j, o);
    var s1, m := Locks(g, s, j);
    LeadsKeys(g, s, s1, {j});
    StillCalm(g, s, s1, j);
    LeadsMore(g, s, s1, {j}, {j, o});
    if m == o {
      var s2 := CommitsTo(g, s1, j, o);
      LeadsKeys(g, s1, s2, {j});
      LeadsMore(g, s1, s2, {j}, {j, o});
      s' := TakesFrom(g, s2, j, o);
      TookLater(g, s1, s2, s', j, o);
      TookLater(g, s, s1, s', j, o);
      LeadsTrans(g, s, s1, s2, {j, o});
      LeadsTrans(g, s, s2, s', {j, o});
    } else {
      var s2 := Misses(g, s1, j, m);
      LeadsKeys(g, s1, s2, {j});
      StillCalm(g, s1, s2, j);
      LeadsMore(g, s1, s2, {j}, {j, o});
      s' := TakesOne(g, s2, j, o);
      TookLater(g, s1, s2, s', j, o);
      TookLater(g, s, s1, s', j, o);
      LeadsTrans(g, s, s1, s2, {j, o});
      LeadsTrans(g, s, s2, s', {j, o});
    }
  }

  lemma ParkedCalm(s: State, i: nat, h: nat)
    requires Parked(s, i)
    ensures Calm(s, h)
  {
  }

  lemma CalmTwo(s: State, h: nat)
    requires forall q | q in s && q != h ::
        s[q].pc == Idle || s[q].pc.Scan? || s[q].pc == Release || s[q].pc == Park(Asleep)
    ensures Calm(s, h)
  {
  }

  lemma OthersQuiet(g: Graph, s: State, j: nat, o: nat, i: nat)
    requires WellFormed(g) && Bound(g, o, i) && Bound(g, o, j) && j != i
    requires forall q | q in s && q != i && q != o && q != j :: !s[q].ready
    ensures forall m | Linked(g, j, m) && m in s && m != o :: !s[m].ready
  {
  }

  lemma TookFacts(s: State, s': State, j: nat, o: nat)
    requires Took(s, s', j, o)
    ensures s'.Keys == s.Keys && o in s && j in s && s'[j].pc == Release
    ensures s'[o].pc == s[o].pc && !s'[o].ready && s'[o].sent == s[o].sent
  {
  }

  lemma IdleNotReady(g: Graph, s: State, h: nat)
    requires Reachable(g, s) && h in s && s[h].pc == Idle
    ensures !s[h].ready
  {
    hide Reachable;
    ReadyOrWoken(g, s, h);
  }

  lemma OwedOnce(g: Graph, s: State, h: nat)
    requires Reachable(g, s) && h in s && s[h].pc.Scan? && !s[h].ready
    ensures s[h].blocked == 1 && h in g.conns && h in g.dir && s[h].pc.k <= |g.conns[h]|
  {
    hide Reachable, Counts;
    ReadyOrWoken(g, s, h);
    ReachableHalf(g, s, h);
  }

  lemma SenderDir(g: Graph, o: nat, i: nat)
    requires Bound(g, o, i)
    ensures o in g.dir && g.dir[o] == Out
  {
  }

  /** A send that has been taken ends: the scan finds nobody, the park does not sleep. */
  lemma Finishes(g: Graph, s: State, o: nat, i: nat) returns (s': State)
    requires Reachable(g, s) && Calm(s, o) && Bound(g, o, i) && o in s && s[o].pc.Scan? && !s[o].ready
    ensures Reachable(g, s') && Leads(g, s, s', {o}) && s'[o].pc == Idle && s'[o].sent == s[o].sent
  {
    hide *;
    SenderDir(g, o, i);
    OwedOnce(g, s, o);
    var s1 := ScansOut(g, s, o);
    LeadsKeys(g, s, s1, {o});
    var s2 := EndsScan(g, s1, o);
    LeadsKeys(g, s1, s2, {o});
    s' := Wakes(g, s2, o);
    LeadsTrans(g, s, s1, s2, {o});
    LeadsTrans(g, s, s2, s', {o});
  }

  /** Sender o and receiver j have both begun. */
  lemma BothBegin(g: Graph, s: State, i: nat, o: nat, j: nat) returns (s': State)
    requires WellFormed(g) && Reachable(g, s) && Parked(s, i) && Bound(g, o, i) && Bound(g, o, j) && j != i && o in s
    requires j in s
    ensures Reachable(g, s') && Leads(g, s, s', {j, o}) && s'[o].pc == s'[j].pc == Scan(0) && s'[o].ready && s'[j].ready
    ensures s'[j].seen == {} && |s'[o].sent| == |s[o].sent| + 1 && j != o && o != i && j in g.dir && j in g.conns
    ensures Linked(g, j, o)
  {
    hide *;
    ParkedIs(s, i);
    BothWays(g, o, i);
    BothWays(g, o, j);
    EndsIn(g, o, j);
    SenderDir(g, o, j);
    Both2(j, o);
    ParkedCalm(s, i, o);
    var s1 := Opens(g, s, o, 0);
    LeadsKeys(g, s, s1, {o});
    CalmTwo(s1, j);
    s' := Opens(g, s1, j, 0);
    LeadsKeys(g, s1, s', {j});
    LeadsMore(g, s, s1, {o}, {j, o});
    LeadsMore(g, s1, s', {j}, {j, o});
    LeadsTrans(g, s, s1, s', {j, o});
  }

  /** Sender o has begun, and receiver j has taken what it offers. */
  lemma TakenNow(g: Graph, s: State, i: nat, o: nat, j: nat) returns (s': State)
    requires WellFormed(g) && Reachable(g, s) && Parked(s, i) && Bound(g, o, i) && Bound(g, o, j) && j != i && o in s
    requires j in s
    ensures Reachable(g, s') && Leads(g, s, s', {j, o}) && o != i && o != j
    ensures o in s' && s'[o].pc == Scan(0) && !s'[o].ready && |s'[o].sent| == |s[o].sent| + 1
    ensures j in s' && s'[j].pc == Release
  {
    hide *;
    ParkedIs(s, i);
    var s2 := BothBegin(g, s, i, o, j);
    LeadsKeys(g, s, s2, {j, o});
    CalmTwo(s2, j);
    OthersQuiet(g, s2, j, o, i);
    s' := TakesOne(g, s2, j, o);
    LeadsKeys(g, s2, s', {j, o});
    TookFacts(s2, s', j, o);
    LeadsTrans(g, s, s2, s', {j, o});
  }

  /** Sender o has begun, receiver j has taken what it offers and returned. */
  lemma TakenByOther(g: Graph, s: State, i: nat, o: nat, j: nat) returns (s': State)
    requires WellFormed(g) && Reachable(g, s) && Parked(s, i) && Bound(g, o, i) && Bound(g, o, j) && j != i && o in s
    requires j in s
    ensures Reachable(g, s') && Leads(g, s, s', {j, o}) && Calm(s', o) && o != i && o != j
    ensures o in s' && s'[o].pc == Scan(0) && !s'[o].ready && |s'[o].sent| == |s[o].sent| + 1
    ensures j in s' && s'[j].pc == Idle && !s'[j].ready
  {
    hide *;
    ParkedIs(s, i);
    Both2(j, o);
    var s3 := TakenNow(g, s, i, o, j);
    LeadsKeys(g, s, s3, {j, o});
    s' := GivesBack(g, s3, j);
    LeadsKeys(g, s3, s', {j});
    IdleNotReady(g, s', j);
    CalmTwo(s', o);
    LeadsMore(g, s3, s', {j}, {j, o});
    LeadsTrans(g, s, s3, s', {j, o});
  }

  /** One send of o that receiver j takes, while receiver i stays parked and ready. */
  lemma Round(g: Graph, s: State, i: nat, o: nat, j: nat) returns (s': State)
    requires WellFormed(g) && Reachable(g, s) && Parked(s, i) && Bound(g, o, i) && Bound(g, o, j) && j != i && o in s
    requires j in s
    ensures Reachable(g, s') && Leads(g, s, s', {j, o}) && Parked(s', i)
    ensures s'.Keys == s.Keys && CompletedSends(s'[o]) == CompletedSends(s[o]) + 1
  {
    hide *;
    ParkedIs(s, i);
    Both2(j, o);
    var s4 := TakenByOther(g, s, i, o, j);
    LeadsKeys(g, s, s4, {j, o});
    s' := Finishes(g, s4, o, i);
    LeadsKeys(g, s4, s', {o});
    IdleNotReady(g, s', o);
    LeadsMore(g, s4, s', {o}, {j, o});
    LeadsTrans(g, s, s4, s', {j, o});
    ParkedIs(s', i);
    DoneIdle(s[o]);
    DoneIdle(s'[o]);
  }

  lemma DoneIdle(x: Half)
    requires x.pc == Idle
    ensures CompletedSends(x) == |x.sent|
  {
  }

  lemma {:induction false} Rounds(g: Graph, s: State, i: nat, o: nat, j: nat, n: nat) returns (s': State)
    requires WellFormed(g) && Reachable(g, s) && Parked(s, i) && Bound(g, o, i) && Bound(g, o, j) && j != i && o in s
    requires j in s
    ensures Leads(g, s, s', {j, o}) && s'.Keys == s.Keys && CompletedSends(s'[o]) == CompletedSends(s[o]) + n
  {
    hide *;
    if n == 0 {
      s' := s;
      LeadsSelf(g, s, {j, o});
    } else {
      var s1 := Round(g, s, i, o, j);
      s' := Rounds(g, s1, i, o, j, n - 1);
      LeadsTrans(g, s, s1, s', {j, o});
    }
  }

  /** Along the run receiver i is parked and ready throughout, and its record never changes. */
  ghost predicate Starved(g: Graph, b: seq<State>, steps: seq<Step>, i: nat) {
    && Run(g, b, steps) && Reachable(g, b[0])
    && i in b[0] && forall k | 0 <= k < |b| ::
        i in b[k] && b[k][i] == b[0][i] && b[k][i].ready && b[k][i].pc == Park(Asleep)
  }

  /** With a second receiver on its sender, a waiting receiver can be passed over for ever: for every n a run in
      which the sender completes n sends while the receiver stays parked and ready. */
  lemma Starves(g: Graph, o: nat, i: nat, j: nat, n: nat) returns (b: seq<State>, steps: seq<Step>)
    requires WellFormed(g) && Bound(g, o, i) && Bound(g, o, j) && i != j
    ensures Starved(g, b, steps, i) && o in b[0] && o in b[|steps|] && b[0][o].pc == Idle
    ensures CompletedSends(b[|steps|][o]) == CompletedSends(b[0][o]) + n
  {
    hide Run, Reachable, Moves, WellFormed, CompletedSends;
    var s := Waits(g, i, o);
    EndsIn(g, o, i);
    EndsIn(g, o, j);
    BothWays(g, o, i);
    var s' := Rounds(g, s, i, o, j, n);
    b, steps :| Path(g, s, s', {j, o}, b, steps);
    RunLength(g, b, steps);
    forall k | 0 <= k < |b| ensures i in b[k] && b[k][i] == s[i] {
      assert Still(s, b[k], {j, o});
    }
  }

  /** However long receiver i stays ready, sender o completes at most n sends. */
  ghost predicate PassesAtMost(g: Graph, o: nat, i: nat, n: nat) {
    forall b, steps :: Run(g, b, steps) && Reachable(g, b[0]) && o in b[0] && StaysReady(b, i) ==>
      o in b[|steps|] && CompletedSends(b[|steps|][o]) - CompletedSends(b[0][o]) <= n
  }

  /** The waiting of a receiver is bounded in every run exactly when it is its sender's only partner. */
  lemma BoundedExactly(g: Graph, o: nat, i: nat)
    requires WellFormed(g) && Bound(g, o, i)
    ensures (exists n: nat :: PassesAtMost(g, o, i, n)) <==> |g.conns[o]| == 1
  {
    hide *;
    BothWays(g, o, i);
    if |g.conns[o]| == 1 {
      SolePasses(g, o, i);
    } else {
      var j := OtherPartner(g, o, i);
      forall n: nat ensures !PassesAtMost(g, o, i, n) {
        var b, steps := Starves(g, o, i, j, n + 1);
        Exceeds(g, b, steps, o, i, n);
      }
    }
  }

  lemma Exceeds(g: Graph, b: seq<State>, steps: seq<Step>, o: nat, i: nat, n: nat)
    requires Starved(g, b, steps, i) && o in b[0] && o in b[|steps|]
    requires CompletedSends(b[|steps|][o]) == CompletedSends(b[0][o]) + n + 1
    ensures !PassesAtMost(g, o, i, n)
  {
    hide Moves, Reachable, CompletedSends;
    assert Run(g, b, steps) && StaysReady(b, i);
  }

  lemma OtherPartner(g: Graph, o: nat, i: nat) returns (j: nat)
    requires WellFormed(g) && Bound(g, o, i) && |g.conns[o]| != 1
    ensures Bound(g, o, j) && j != i
  {
    j := if g.conns[o][0] == i then g.conns[o][1] else g.conns[o][0];
    assert Linked(g, o, j);
  }

  lemma SolePasses(g: Graph, o: nat, i: nat)
    requires WellFormed(g) && Bound(g, o, i) && |g.conns[o]| == 1
    ensures PassesAtMost(g, o, i, 1)
  {
    hide Inv, Moves, Reachable, CompletedSends, Bound, Potential;
    forall b, steps | Run(g, b, steps) && Reachable(g, b[0]) && o in b[0] && StaysReady(b, i)
      ensures o in b[|steps|] && CompletedSends(b[|steps|][o]) - CompletedSends(b[0][o]) <= 1
    {
      ReachableInv(g, b[0]);
      SoleMatches(g, b, steps, o, i);
      SoleDone(g, b, steps, o, i);
    }
  }

  lemma SoleDone(g: Graph, b: seq<State>, steps: seq<Step>, o: nat, i: nat)
    requires WellFormed(g) && Run(g, b, steps) && Reachable(g, b[0]) && Bound(g, o, i) && o in b[0] && StaysReady(b, i)
    requires Serves(o, steps) == 0 && Taken(o, b, steps) == 0
    ensures o in b[|steps|] && CompletedSends(b[|steps|][o]) - CompletedSends(b[0][o]) <= 1
  {
    hide Inv, Moves, Reachable, Potential, StaysReady, CompletedSends, Serves, Taken;
    ReachableInv(g, b[0]);
    var p: nat :| p < |g.conns[o]| && g.conns[o][p] == i;
    BoundedBypass(g, b, steps, o, i, p);
    SendsMatched(g, b[0], o);
    SendsMatched(g, b[|steps|], o);
  }
}
