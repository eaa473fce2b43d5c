/**
 The recursive mutex of Channels/my_mutex.c, used by any number of threads.  Every read and write of
 a shared field is one step; the operating system's mutex is a lock with an owner.  The fast path
 reads both fields without holding it.
 */
module RecursiveMutex {
  import opened Wrappers

  const UINT_MAX: nat := 0xFFFF_FFFF

  /** Where a thread is: between calls, at a read or write of my_mutex_lock, or at one of my_mutex_unlock. */
  datatype PC =
    | Outside
    | LockReadCount | LockReadThread | LockFastRead | LockFastWrite
    | LockAcquire | LockWriteThread | LockRead | LockWrite
    | UnlockReadCount | UnlockReadThread | UnlockFastRead | UnlockFastWrite
    | UnlockWriteThread | UnlockRead | UnlockWrite | UnlockRelease

  /** seen is the value a split increment or decrement has read; depth counts completed locks less
      completed unlocks. */
  datatype Local = Local(pc: PC, seen: nat, depth: nat)

  /** thread is 0 when no thread is recorded; thread identifiers are positive. */
  datatype State = State(owner: Option<nat>, thread: nat, count: nat, threads: map<nat, Local>)

  function Init(ids: set<nat>): State {
    State(None, 0, 0, map t | t in ids :: Local(Outside, 0, 0))
  }

  datatype Call = Lock | Unlock | Continue

  function Inc(n: nat): nat { if n == UINT_MAX then 0 else n + 1 }
  function Dec(n: nat): nat { if n == 0 then UINT_MAX else n - 1 }

  /** A thread unlocks only what it has locked, and stops nesting short of the counter's width. */
  predicate Enabled(s: State, t: nat, c: Call) {
    && t in s.threads
    && var l := s.threads[t];
       match c
       case Lock => l.pc == Outside && l.depth < UINT_MAX
       case Unlock => l.pc == Outside && l.depth > 0
       case Continue => l.pc != Outside && (l.pc == LockAcquire ==> s.owner.None?)
  }

  function Goto(s: State, t: nat, l: Local): State {
    s.(threads := s.threads[t := l])
  }

  function Step(s: State, t: nat, c: Call): State
    requires Enabled(s, t, c)
  {
    var l := s.threads[t];
    match l.pc
    case Outside => Goto(s, t, l.(pc := if c == Lock then LockReadCount else UnlockReadCount))
    case LockReadCount => Goto(s, t, l.(pc := if s.count > 0 then LockReadThread else LockAcquire))
    case LockReadThread => Goto(s, t, l.(pc := if s.thread == t then LockFastRead else LockAcquire))
    case LockFastRead => Goto(s, t, l.(pc := LockFastWrite, seen := s.count))
    case LockFastWrite => Goto(s, t, l.(pc := Outside, depth := l.depth + 1)).(count := Inc(l.seen))
    case LockAcquire => Goto(s, t, l.(pc := LockWriteThread)).(owner := Some(t))
    case LockWriteThread => Goto(s, t, l.(pc := LockRead)).(thread := t)
    case LockRead => Goto(s, t, l.(pc := LockWrite, seen := s.count))
    case LockWrite => Goto(s, t, l.(pc := Outside, depth := l.depth + 1)).(count := Inc(l.seen))
    case UnlockReadCount => Goto(s, t, l.(pc := if s.count > 1 then UnlockReadThread else UnlockWriteThread))
    case UnlockReadThread => Goto(s, t, l.(pc := if s.thread == t then UnlockFastRead else UnlockWriteThread))
    case UnlockFastRead => Goto(s, t, l.(pc := UnlockFastWrite, seen := s.count))
    case UnlockFastWrite => Goto(s, t, l.(pc := Outside, depth := Less(l.depth))).(count := Dec(l.seen))
    case UnlockWriteThread => Goto(s, t, l.(pc := UnlockRead)).(thread := 0)
    case UnlockRead => Goto(s, t, l.(pc := UnlockWrite, seen := s.count))
    case UnlockWrite => Goto(s, t, l.(pc := UnlockRelease)).(count := Dec(l.seen))
    case UnlockRelease => Goto(s, t, l.(pc := Outside, depth := Less(l.depth))).(owner := None)
  }

  function Less(n: nat): nat { if n == 0 then 0 else n - 1 }

  // ----- the invariant -----

  predicate Waiting(pc: PC) {
    pc == Outside || pc == LockReadCount || pc == LockReadThread || pc == LockAcquire
  }

  /** What the owner's position says about the two fields. */
  predicate Holds(t: nat, l: Local, thread: nat, count: nat) {
    match l.pc
    case Outside => thread == t && count == l.depth > 0
    case LockReadCount | LockReadThread | LockFastRead => thread == t && count == l.depth > 0 && l.depth < UINT_MAX
    case LockFastWrite => thread == t && count == l.depth == l.seen > 0 && l.depth < UINT_MAX
    case LockAcquire => false
    case LockWriteThread => thread == 0 && count == l.depth == 0
    case LockRead => thread == t && count == l.depth == 0
    case LockWrite => thread == t && count == l.depth == l.seen == 0
    case UnlockReadCount => thread == t && count == l.depth > 0
    case UnlockReadThread | UnlockFastRead => thread == t && count == l.depth > 1
    case UnlockFastWrite => thread == t && count == l.depth == l.seen > 1
    case UnlockWriteThread => thread == t && count == l.depth == 1
    case UnlockRead => thread == 0 && count == l.depth == 1
    case UnlockWrite => thread == 0 && count == l.depth == l.seen == 1
    case UnlockRelease => thread == 0 && count == 0 && l.depth == 1
  }

  predicate Fits(s: State, t: nat, l: Local) {
    l.depth <= UINT_MAX && if s.owner == Some(t) then Holds(t, l, s.thread, s.count) else l.depth == 0 && Waiting(l.pc)
  }

  ghost predicate Inv(s: State) {
    && 0 !in s.threads
    && (s.owner.Some? ==> s.owner.value in s.threads)
    && (s.owner.None? ==> s.thread == 0 && s.count == 0)
    && forall t | t in s.threads :: Fits(s, t, s.threads[t])
  }

  /** Only the owner is ever recorded. */
  predicate Recorded(s: State) {
    && (s.owner.None? ==> s.thread == 0 && s.count == 0)
    && (s.thread > 0 ==> s.owner == Some(s.thread))
  }

  lemma OwnerRecorded(s: State)
    requires Inv(s)
    ensures Recorded(s)
  {
    if s.owner.Some? { assert Fits(s, s.owner.value, s.threads[s.owner.value]); }
  }

  /** The thread that moves still fits, and only it or nobody can own the lock that changed. */
  lemma FitsSelf(s: State, t: nat, c: Call)
    requires Enabled(s, t, c) && t > 0 && Fits(s, t, s.threads[t]) && Recorded(s)
    ensures var r := Step(s, t, c);
      && r.threads == s.threads[t := r.threads[t]] && Fits(r, t, r.threads[t])
      && (if s.owner.Some? && s.owner != Some(t) then r.owner == s.owner && r.thread == s.thread && r.count == s.count
          else r.owner == Some(t) || (r.owner.None? && r.thread == 0 && r.count == 0))
  {
  }

  lemma FitsOther(s: State, r: State, t: nat, u: nat, l: Local)
    requires Fits(s, u, l) && u != t
    requires if s.owner.Some? && s.owner != Some(t)
      then r.owner == s.owner && r.thread == s.thread && r.count == s.count
      else r.owner == Some(t) || r.owner.None?
    ensures Fits(r, u, l)
  {
  }

  lemma InvStep(s: State, t: nat, c: Call)
    requires Inv(s) && Enabled(s, t, c)
    ensures Inv(Step(s, t, c))
  {
    OwnerRecorded(s);
    hide Fits, Step;
    FitsSelf(s, t, c);
    var r := Step(s, t, c);
    forall u | u in r.threads && u != t
      ensures Fits(r, u, r.threads[u])
    {
      FitsOther(s, r, t, u, s.threads[u]);
    }
  }

  // ----- runs -----

  type Schedule = seq<(nat, Call)>

  /** The state after a schedule, if every step in it was enabled. */
  function Run(s: State, sched: Schedule): Option<State>
    decreases |sched|
  {
    if sched == [] then Some(s)
    else if !Enabled(s, sched[0].0, sched[0].1) then None
    else Run(Step(s, sched[0].0, sched[0].1), sched[1..])
  }

  ghost predicate Reachable(s: State) {
    exists ids: set<nat>, sched :: 0 !in ids && Run(Init(ids), sched) == Some(s)
  }

  lemma {:induction false} RunInv(s: State, sched: Schedule)
    requires Inv(s) && Run(s, sched).Some?
    ensures Inv(Run(s, sched).value)
    decreases |sched|
  {
    hide Inv, Step, Enabled;
    if sched != [] {
      InvStep(s, sched[0].0, sched[0].1);
      RunInv(Step(s, sched[0].0, sched[0].1), sched[1..]);
    }
  }

  lemma ReachableInv(s: State)
    requires Reachable(s)
    ensures Inv(s)
  {
    var ids: set<nat>, sched :| 0 !in ids && Run(Init(ids), sched) == Some(s);
    assert Inv(Init(ids));
    RunInv(Init(ids), sched);
  }

  // ----- main results -----

  /** The unlocked read can only name the true owner: a thread that finds itself recorded holds the lock. */
  lemma FastPathIsSafe(s: State, t: nat)
    requires Reachable(s) && t in s.threads && s.thread == t
    ensures s.owner == Some(t)
  {
    ReachableInv(s);
    OwnerRecorded(s);
  }

  /** At most one thread is inside, and nobody is when the fields say so. */
  lemma MutualExclusion(s: State, t: nat, u: nat)
    requires Reachable(s) && t in s.threads && u in s.threads
    ensures s.threads[t].depth > 0 && s.threads[u].depth > 0 ==> t == u
    ensures s.threads[t].depth > 0 ==> s.owner == Some(t)
  {
    ReachableInv(s);
    assert Fits(s, t, s.threads[t]) && Fits(s, u, s.threads[u]);
  }

  /** Between calls, the counter is the holder's nesting depth and the recorded thread is the holder. */
  lemma CountIsDepth(s: State, t: nat)
    requires Reachable(s) && t in s.threads && s.threads[t].pc == Outside
    ensures s.threads[t].depth > 0 <==> s.owner == Some(t)
    ensures s.threads[t].depth > 0 ==> s.count == s.threads[t].depth && s.thread == t
  {
    ReachableInv(s);
    assert Fits(s, t, s.threads[t]);
  }

  lemma FreeIsClear(s: State)
    requires Reachable(s) && s.owner.None?
    ensures s.count == 0 && s.thread == 0 && forall t | t in s.threads :: s.threads[t].depth == 0
  {
    ReachableInv(s);
    forall t | t in s.threads ensures s.threads[t].depth == 0 { assert Fits(s, t, s.threads[t]); }
  }

  /** A thread that already holds the lock never blocks on it, and whoever does block waits for a thread
      that is either between calls or able to move. */
  lemma OnlyOthersBlock(s: State, t: nat)
    requires Reachable(s) && t in s.threads && s.threads[t].pc == LockAcquire && s.owner.Some?
    ensures s.threads[t].depth == 0 && s.owner.value != t && s.owner.value in s.threads
    ensures s.threads[s.owner.value].pc == Outside || Enabled(s, s.owner.value, Continue)
  {
    ReachableInv(s);
    assert Fits(s, t, s.threads[t]);
    assert Fits(s, s.owner.value, s.threads[s.owner.value]);
  }

  // ----- refinement of an atomic reentrant lock -----

  function Depths(s: State): map<nat, nat> {
    map t | t in s.threads :: s.threads[t].depth
  }

  /** One atomic step of a reentrant lock: enter when no one else is inside, or leave. */
  ghost predicate Atomic(d: map<nat, nat>, e: map<nat, nat>, t: nat) {
    && t in d
    && (|| (e == d[t := d[t] + 1] && forall u | u in d && u != t :: d[u] == 0)
        || (d[t] > 0 && e == d[t := d[t] - 1]))
  }

  /** Only the owner's depth can change, by one. */
  lemma DepthChange(s: State, t: nat, c: Call)
    requires Enabled(s, t, c) && Fits(s, t, s.threads[t])
    ensures var d, e := s.threads[t].depth, Step(s, t, c).threads[t].depth;
      && Step(s, t, c).threads == s.threads[t := Step(s, t, c).threads[t]]
      && (e == d || ((e == d + 1 || (d > 0 && e == d - 1)) && s.owner == Some(t)))
  {
  }

  lemma OthersOut(s: State, t: nat, u: nat)
    requires Inv(s) && s.owner == Some(t) && u in s.threads && u != t
    ensures s.threads[u].depth == 0
  {
    assert Fits(s, u, s.threads[u]);
  }

  /** Every step of every run either changes nobody's depth or is one atomic step of a reentrant lock. */
  lemma RefinesReentrantLock(s: State, t: nat, c: Call)
    requires Reachable(s) && Enabled(s, t, c)
    ensures Depths(Step(s, t, c)) == Depths(s) || Atomic(Depths(s), Depths(Step(s, t, c)), t)
  {
    ReachableInv(s);
    assert Fits(s, t, s.threads[t]);
    DepthChange(s, t, c);
    hide Step, Fits, Enabled;
    var d, e := s.threads[t].depth, Step(s, t, c).threads[t].depth;
    assert Depths(Step(s, t, c)) == Depths(s)[t := e];
    if e != d {
      forall u | u in s.threads && u != t ensures s.threads[u].depth == 0 { OthersOut(s, t, u); }
    }
  }

  // ----- what a call does to its caller's depth -----

  predicate Locking(pc: PC) {
    || pc == LockReadCount || pc == LockReadThread || pc == LockFastRead || pc == LockFastWrite
    || pc == LockAcquire || pc == LockWriteThread || pc == LockRead || pc == LockWrite
  }

  /** Thread t is in a call, which returns with the last step of the schedule. */
  predicate Returns(s: State, sched: Schedule, t: nat)
    decreases |sched|
  {
    t in s.threads &&
    if sched == [] then s.threads[t].pc == Outside
    else
      && s.threads[t].pc != Outside && Enabled(s, sched[0].0, sched[0].1)
      && Returns(Step(s, sched[0].0, sched[0].1), sched[1..], t)
  }

  lemma StepInCall(s: State, t: nat, u: nat, c: Call)
    requires t in s.threads && Enabled(s, u, c) && s.threads[t].pc != Outside
    ensures var l, r := s.threads[t], Step(s, u, c);
      && t in r.threads
      && if r.threads[t].pc == Outside
         then r.threads[t].depth == if Locking(l.pc) then l.depth + 1 else Less(l.depth)
         else r.threads[t].depth == l.depth && (Locking(r.threads[t].pc) <==> Locking(l.pc))
  {
  }

  lemma {:induction false} CallEnds(s: State, sched: Schedule, t: nat)
    requires Returns(s, sched, t) && sched != []
    ensures Run(s, sched).Some? && t in Run(s, sched).value.threads
    ensures var l, m := s.threads[t], Run(s, sched).value.threads[t];
      m.pc == Outside && m.depth == if Locking(l.pc) then l.depth + 1 else Less(l.depth)
    decreases |sched|
  {
    hide Step, Enabled, Locking;
    StepInCall(s, t, sched[0].0, sched[0].1);
    var r := Step(s, sched[0].0, sched[0].1);
    if |sched| > 1 { CallEnds(r, sched[1..], t); }
  }

  /** However the threads interleave, a Lock that has returned has taken its caller one level deeper, and an Unlock one
      level back. */
  lemma CallCounts(s: State, t: nat, c: Call, sched: Schedule)
    requires Enabled(s, t, c) && s.threads[t].pc == Outside && Returns(Step(s, t, c), sched, t)
    ensures Run(Step(s, t, c), sched).Some? && t in Run(Step(s, t, c), sched).value.threads
    ensures var d, e := s.threads[t].depth, Run(Step(s, t, c), sched).value.threads[t].depth;
      (c.Lock? ==> e == d + 1) && (c.Unlock? ==> d > 0 && e == d - 1) && !c.Continue?
  {
    CallEnds(Step(s, t, c), sched, t);
  }
}
