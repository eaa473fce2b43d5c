/**
 Programs on the interpreter as it is, cursors included: structured control flow, whole files, calls and
 returns, and exactly when a file ends, exits, or runs for ever.
 */
module Execution {
  import opened Wrappers
  import S = Scoping
  import C = ScopeChains
  import opened Decoding
  import opened Bytecode
  import opened Machines
  import opened Structured
  import opened Simulation
  import D = Declarations
  import opened Programs
  import opened Interpreter

  /** What the loop does with a program that ends at the given byte, started in image e with this much fuel. */
  ghost predicate Performs(w: World, e: Image, end: nat, m: Meaning, fuel: nat) {
    match m
    case Done(t) => Gets(w, e, State(end, t.stack, t.scopes, w.procs, false))
    case Left(_) => false
    case Halted(t) => exists q: nat, under: seq<Option<nat>> :: |under| == |t.scopes| && GetsStopped(w, e, t, q, under)
    case Wrong => exists n: nat :: Turns(w.file, w.self, e, n) == Exits
    case Open => exists n: nat :: Turns(w.file, w.self, e, n) == Beyond
    case Clash => exists n: nat ::
        Turns(w.file, w.self, e, n).Next? && !C.Unambiguous(Turns(w.file, w.self, e, n).state.scopes)
    case Unfinished => Turns(w.file, w.self, e, fuel).Next?
  }

  /** The loop comes to a STOP with this stack and these scopes, some of them frames of procedures. */
  ghost predicate GetsStopped(w: World, e: Image, t: St, q: nat, under: seq<Option<nat>>)
    requires |under| == |t.scopes|
  {
    Gets(w, e, State(q, t.stack, Embed(t.scopes, under), w.procs, true))
  }

  /** The loop comes to an image of the state. */
  ghost predicate Gets(w: World, e: Image, t: State) {
    exists n: nat :: Turns(w.file, w.self, e, n).Next? && Depicts(Turns(w.file, w.self, e, n).state, t)
  }

  lemma GetsReached(w: World, e: Image, s: State, t: State)
    requires Depicts(e, s) && Reaches(w.file, w.self, s, t)
    ensures Gets(w, e, t)
  {
    hide Steps, Turns, Depicts;
    var n: nat :| Steps(w.file, w.self, s, n) == Next(t);
    TurnsFollow(w.file, w.self, e, s, n);
    FollowsNext(Turns(w.file, w.self, e, n), t);
  }

  lemma FollowsNext(o: Turnout, t: State)
    requires Follows(o, Next(t))
    ensures o.Next? && Depicts(o.state, t)
  {
  }

  lemma FollowsHalt(o: Turnout)
    ensures Follows(o, Exits) ==> o == Exits
    ensures Follows(o, Beyond) ==> o == Beyond
    ensures Follows(o, Ended) ==> o == Ended
  {
  }

  lemma PerformsAs(w: World, e: Image, s: State, end: nat, m: Meaning, fuel: nat)
    requires Depicts(e, s) && Behaves(w, s, end, m, fuel)
    ensures Performs(w, e, end, m, fuel)
  {
    hide Steps, Turns, Depicts, Follows, C.Unambiguous, Reaches, Gets, StopsIn, Embed;
    match m
    case Done(t) => GetsReached(w, e, s, State(end, t.stack, t.scopes, w.procs, false));
    case Halted(t) => StopReached(w, e, s, t);
    case Left(_) => assert false;
    case Wrong => HaltFollows(w, e, s, Exits);
    case Open => HaltFollows(w, e, s, Beyond);
    case Clash =>
      var n: nat :| Steps(w.file, w.self, s, n) == Doubles;
      TurnsFollow(w.file, w.self, e, s, n);
    case Unfinished =>
      TurnsFollow(w.file, w.self, e, s, fuel);
      FollowsNext(Turns(w.file, w.self, e, fuel), Steps(w.file, w.self, s, fuel).state);
  }

  lemma StopReached(w: World, e: Image, s: State, t: St)
    requires Depicts(e, s) && StopsIn(w, s, t)
    ensures exists q: nat, under: seq<Option<nat>> :: |under| == |t.scopes| && GetsStopped(w, e, t, q, under)
  {
    hide Reaches, Depicts, Gets, Embed;
    var q: nat, under: seq<Option<nat>> :| |under| == |t.scopes| && StopsAt(w, s, t, q, under);
    GetsReached(w, e, s, State(q, t.stack, Embed(t.scopes, under), w.procs, true));
    assert GetsStopped(w, e, t, q, under);
  }

  lemma HaltFollows(w: World, e: Image, s: State, o: Outcome)
    requires Depicts(e, s) && Halts(w, s, o) && (o == Exits || o == Beyond)
    ensures exists n: nat :: Turns(w.file, w.self, e, n) == if o == Exits then Exits else Beyond
  {
    hide Steps, Turns, Depicts, Follows;
    var n: nat :| Steps(w.file, w.self, s, n) == o;
    TurnsFollow(w.file, w.self, e, s, n);
    FollowsHalt(Turns(w.file, w.self, e, n));
  }

  /** A turn at a primitive instruction. */
  lemma PrimTurn(f: Bytes, self: string, e: Image, i: Prim)
    requires PlainPrim(i) && At(f, e.pos, PrimBytes(i)) && !e.stop
    ensures Turn(f, self, e) == Going(e, e.pos + |PrimBytes(i)|, Perform(i, e.stack, e.scopes))
  {
    hide At, Perform, ReadPrim, PrimBytes, Going;
    PrimAt(f, e.pos, i);
  }

  // ----- programs -----

  /** Structured control flow is preserved: the loop started on the first byte of a laid-out program ends on the byte
      after it with the stack and the scopes that the program means, or exits, or goes on, as the program means;
      and where a name is declared again before its first value a scope comes to hold it twice. */
  lemma StructureIsPreserved(w: World, c: Cmd, p: nat, st: St, e: Image, follow: Option<Byte>, fuel: nat)
    requires Loaded(w) && Placed(w, c, p, follow, None) && Clean(st.scopes)
    requires Depicts(e, State(p, st.stack, st.scopes, w.procs, false))
    ensures Performs(w, e, p + |Code(c)|, Exec(c, w.env, st, fuel), fuel)
  {
    hide *;
    StructureOnMaps(w, c, p, st, follow, fuel);
    PerformsAs(w, e, State(p, st.stack, st.scopes, w.procs, false), p + |Code(c)|, Exec(c, w.env, st, fuel), fuel);
  }

  /** A file of declarations and a main part, run from its first byte, does what its main part means, calls
      included. */
  lemma ProgramRuns(f: Bytes, self: string, ds: seq<D.Decl>, main: Cmd, follow: Option<Byte>, st: St, e: Image,
                    fuel: nat)
    requires GoodDecls(ds) && Clean(st.scopes) && Holds(f, ds, main, follow)
    requires Depicts(e, State(0, st.stack, st.scopes, map[], false))
    ensures var w := WorldOf(f, self, ds);
      Performs(w, e, |DeclsBytes(ds) + Code(main)|, Exec(main, w.env, st, fuel), fuel)
  {
    hide *;
    var w := WorldOf(f, self, ds);
    ProgramOnMaps(f, self, ds, main, follow, st, fuel);
    PerformsAs(w, e, State(0, st.stack, st.scopes, map[], false), |DeclsBytes(ds) + Code(main)|,
        Exec(main, w.env, st, fuel), fuel);
  }

  // ----- how a file ends -----

  /** The image is at the end of the file. */
  lemma AtEnd(w: World, e: Image, t: St)
    requires Gets(w, e, State(|w.file|, t.stack, t.scopes, w.procs, false))
    ensures exists n: nat :: Turns(w.file, w.self, e, n) == Ended
  {
    hide Turns, C.Shows;
    var n: nat :| Turns(w.file, w.self, e, n).Next? &&
        Depicts(Turns(w.file, w.self, e, n).state, State(|w.file|, t.stack, t.scopes, w.procs, false));
    var u := Turns(w.file, w.self, e, n).state;
    TurnsAdd(w.file, w.self, e, n, u, 1);
    TurnsOne(w.file, w.self, u);
    assert Turn(w.file, w.self, u) == Ended;
  }

  /** The image has the stop flag up. */
  lemma AtStop(w: World, e: Image, t: State)
    requires Gets(w, e, t) && t.stop
    ensures exists n: nat :: Turns(w.file, w.self, e, n) == Ended
  {
    hide Turns, C.Shows;
    var n: nat :| Turns(w.file, w.self, e, n).Next? && Depicts(Turns(w.file, w.self, e, n).state, t);
    var u := Turns(w.file, w.self, e, n).state;
    TurnsAdd(w.file, w.self, e, n, u, 1);
    TurnsOne(w.file, w.self, u);
    assert Turn(w.file, w.self, u) == Ended;
  }

  lemma AtHalt(w: World, e: Image, end: nat, t: St, fuel: nat)
    requires Performs(w, e, end, Halted(t), fuel)
    ensures exists n: nat :: Turns(w.file, w.self, e, n) == Ended
  {
    hide Turns, Gets, Embed;
    var q: nat, under: seq<Option<nat>> :| |under| == |t.scopes| && GetsStopped(w, e, t, q, under);
    AtStop(w, e, State(q, t.stack, Embed(t.scopes, under), w.procs, true));
  }

  /** The loop stops in one way at most. */
  lemma OneStop(f: Bytes, self: string, e: Image, n: nat, m: nat)
    requires !Turns(f, self, e, n).Next?
    ensures Turns(f, self, e, m).Next? || Turns(f, self, e, m) == Turns(f, self, e, n)
  {
    hide Turns;
    if n <= m { TurnsStay(f, self, e, n, m); }
    else if !Turns(f, self, e, m).Next? { TurnsStay(f, self, e, m, n); }
  }

  /** How the loop stops, if it does. */
  ghost predicate StopsWith(w: World, e: Image, o: Turnout) {
    exists n: nat :: Turns(w.file, w.self, e, n) == o
  }

  lemma StopsOnce(w: World, e: Image, o: Turnout, q: Turnout)
    requires StopsWith(w, e, o) && StopsWith(w, e, q) && !o.Next? && !q.Next?
    ensures o == q
  {
    hide Turns;
    var n: nat :| Turns(w.file, w.self, e, n) == o;
    var m: nat :| Turns(w.file, w.self, e, m) == q;
    OneStop(w.file, w.self, e, n, m);
  }

  /** The outcome that a meaning settles. */
  function Settles(m: Meaning): Option<Turnout> {
    match m
    case Done(_) => Some(Ended)
    case Left(_) => None
    case Halted(_) => Some(Ended)
    case Wrong => Some(Exits)
    case Open => Some(Beyond)
    case Clash => None
    case Unfinished => None
  }

  lemma SettlesStop(w: World, e: Image, m: Meaning, fuel: nat)
    requires Performs(w, e, |w.file|, m, fuel) && Settles(m).Some?
    ensures StopsWith(w, e, Settles(m).value)
  {
    hide Turns, Depicts, C.Unambiguous;
    if m.Done? { AtEnd(w, e, m.st); }
    if m.Halted? { AtHalt(w, e, |w.file|, m.st, fuel); }
  }

  lemma Unsettled(w: World, e: Image, end: nat, m: Meaning, fuel: nat)
    requires Performs(w, e, end, m, fuel) && !m.Clash? && Settles(m).None?
    ensures m.Unfinished? && Turns(w.file, w.self, e, fuel).Next?
  {
    hide Turns;
  }

  /** The program gets to its end, or to a STOP. */
  predicate Finished(m: Meaning) {
    m.Done? || m.Halted?
  }

  /** A file whose main part is its end: the loop ends, exits, or gets beyond this model exactly when the main part
      is done or halted, is wrong, or is beyond it with some fuel, and it runs for ever exactly when no fuel finishes
      it. */
  lemma EndsExactly(f: Bytes, self: string, ds: seq<D.Decl>, main: Cmd, st: St, e: Image)
    requires GoodDecls(ds) && Clean(st.scopes) && Holds(f, ds, main, None) && |f| == |DeclsBytes(ds) + Code(main)|
    requires Depicts(e, State(0, st.stack, st.scopes, map[], false))
    requires forall fuel: nat :: !Exec(main, WorldOf(f, self, ds).env, st, fuel).Clash?
    ensures var w := WorldOf(f, self, ds);
      && (StopsWith(w, e, Ended) <==> exists fuel: nat :: Finished(Exec(main, w.env, st, fuel)))
      && (StopsWith(w, e, Exits) <==> exists fuel: nat :: Exec(main, w.env, st, fuel).Wrong?)
      && (StopsWith(w, e, Beyond) <==> exists fuel: nat :: Exec(main, w.env, st, fuel).Open?)
      && ((forall n: nat :: Turns(w.file, w.self, e, n).Next?) <==>
          forall fuel: nat :: Exec(main, w.env, st, fuel).Unfinished?)
  {
    hide *;
    var w := WorldOf(f, self, ds);
    WorldIs(f, self, ds);
    forall fuel: nat ensures Performs(w, e, |f|, Exec(main, w.env, st, fuel), fuel) {
      ProgramRuns(f, self, ds, main, None, st, e, fuel);
    }
    Ends(w, e, main, st);
  }

  lemma Ends(w: World, e: Image, c: Cmd, st: St)
    requires forall fuel: nat ::
        Performs(w, e, |w.file|, Exec(c, w.env, st, fuel), fuel) && !Exec(c, w.env, st, fuel).Clash?
    ensures (StopsWith(w, e, Ended) <==> exists fuel: nat :: Finished(Exec(c, w.env, st, fuel)))
    ensures (StopsWith(w, e, Exits) <==> exists fuel: nat :: Exec(c, w.env, st, fuel).Wrong?)
    ensures (StopsWith(w, e, Beyond) <==> exists fuel: nat :: Exec(c, w.env, st, fuel).Open?)
    ensures (forall n: nat :: Turns(w.file, w.self, e, n).Next?) <==>
            forall fuel: nat :: Exec(c, w.env, st, fuel).Unfinished?
  {
    hide Turns, Exec, Performs, StopsWith;
    forall fuel: nat ensures SettledAt(w, e, Exec(c, w.env, st, fuel), fuel) {
      IsSettled(w, e, Exec(c, w.env, st, fuel), fuel);
    }
    if fuel: nat :| Settles(Exec(c, w.env, st, fuel)).Some? {
      var o := Settles(Exec(c, w.env, st, fuel)).value;
      assert SettledAt(w, e, Exec(c, w.env, st, fuel), fuel);
      OnlyStop(w, e, o);
      forall k: nat ensures Meets(Exec(c, w.env, st, k), o) {
        assert SettledAt(w, e, Exec(c, w.env, st, k), k);
      }
      assert Meets(Exec(c, w.env, st, fuel), o);
    } else {
      forall n: nat ensures Turns(w.file, w.self, e, n).Next? {
        assert SettledAt(w, e, Exec(c, w.env, st, n), n);
      }
      NoStop(w, e);
    }
  }

  /** A meaning settles this outcome, or nothing yet. */
  predicate Meets(m: Meaning, o: Turnout) {
    && (Finished(m) ==> o == Ended) && (m.Wrong? ==> o == Exits) && (m.Open? ==> o == Beyond)
    && !m.Left? && !m.Clash?
  }

  ghost predicate SettledAt(w: World, e: Image, m: Meaning, fuel: nat) {
    match Settles(m)
    case Some(o) => !o.Next? && StopsWith(w, e, o)
    case None => m.Unfinished? && Turns(w.file, w.self, e, fuel).Next?
  }

  lemma IsSettled(w: World, e: Image, m: Meaning, fuel: nat)
    requires Performs(w, e, |w.file|, m, fuel) && !m.Clash?
    ensures SettledAt(w, e, m, fuel)
  {
    hide Turns, Performs, StopsWith;
    if Settles(m).Some? { SettlesStop(w, e, m, fuel); } else { Unsettled(w, e, |w.file|, m, fuel); }
  }

  lemma OnlyStop(w: World, e: Image, o: Turnout)
    requires StopsWith(w, e, o) && !o.Next?
    ensures forall q: Turnout :: StopsWith(w, e, q) && !q.Next? ==> q == o
    ensures exists n: nat :: !Turns(w.file, w.self, e, n).Next?
  {
    hide Turns;
    forall q: Turnout | StopsWith(w, e, q) && !q.Next? ensures q == o { StopsOnce(w, e, o, q); }
  }

  lemma NoStop(w: World, e: Image)
    requires forall n: nat :: Turns(w.file, w.self, e, n).Next?
    ensures !StopsWith(w, e, Ended) && !StopsWith(w, e, Exits) && !StopsWith(w, e, Beyond)
  {
    hide Turns;
  }

  /** The loop is at its end in one state only. */
  lemma OneEnd(f: Bytes, self: string, e: Image, n: nat, t: Image, m: nat, u: Image)
    requires Turns(f, self, e, n) == Next(t) && Turn(f, self, t) == Ended
    requires Turns(f, self, e, m) == Next(u) && Turn(f, self, u) == Ended
    ensures t == u
  {
    hide Turns, Turn;
    TurnsOne(f, self, t);
    TurnsOne(f, self, u);
    TurnsAdd(f, self, e, n, t, 1);
    TurnsAdd(f, self, e, m, u, 1);
    if n < m { TurnsStay(f, self, e, n + 1, m); }
    if m < n { TurnsStay(f, self, e, m + 1, n); }
  }

  /** A number of turns after which the loop has stopped. */
  ghost function StopTime(f: Bytes, self: string, e: Image): (n: nat)
    requires exists n: nat :: !Turns(f, self, e, n).Next?
    ensures !Turns(f, self, e, n).Next?
  {
    var n: nat :| !Turns(f, self, e, n).Next?;
    n
  }

  /** A main part that is done, wrong or beyond stops the loop. */
  lemma Finishes(w: World, e: Image, m: Meaning, fuel: nat)
    requires Performs(w, e, |w.file|, m, fuel) && Settles(m).Some?
    ensures exists n: nat :: !Turns(w.file, w.self, e, n).Next?
    ensures forall n: nat :: !Turns(w.file, w.self, e, n).Next? ==> Turns(w.file, w.self, e, n) == Settles(m).value
  {
    hide Turns, Performs;
    SettlesStop(w, e, m, fuel);
    var n: nat :| Turns(w.file, w.self, e, n) == Settles(m).value;
    forall k: nat | !Turns(w.file, w.self, e, k).Next? ensures Turns(w.file, w.self, e, k) == Settles(m).value {
      OneStop(w.file, w.self, e, n, k);
    }
  }

  /** Whatever state the loop ends in is what the main part means. */
  lemma EndsAs(w: World, e: Image, t: St, fuel: nat, n: nat, u: Image)
    requires Performs(w, e, |w.file|, Done(t), fuel)
    requires Turns(w.file, w.self, e, n) == Next(u) && Turn(w.file, w.self, u) == Ended
    ensures Depicts(u, State(|w.file|, t.stack, t.scopes, w.procs, false))
  {
    hide Turns, C.Shows;
    var k: nat :| Turns(w.file, w.self, e, k).Next? &&
        Depicts(Turns(w.file, w.self, e, k).state, State(|w.file|, t.stack, t.scopes, w.procs, false));
    OneEnd(w.file, w.self, e, k, Turns(w.file, w.self, e, k).state, n, u);
  }

  /** And whatever state it ends in, when the main part halts, is that of the STOP. */
  lemma HaltsAs(w: World, e: Image, t: St, fuel: nat, n: nat, u: Image)
    requires Performs(w, e, |w.file|, Halted(t), fuel)
    requires Turns(w.file, w.self, e, n) == Next(u) && Turn(w.file, w.self, u) == Ended
    ensures exists q: nat, under: seq<Option<nat>> ::
      |under| == |t.scopes| && Depicts(u, State(q, t.stack, Embed(t.scopes, under), w.procs, true))
  {
    hide Turns, C.Shows, Embed;
    var q: nat, under: seq<Option<nat>> :| |under| == |t.scopes| && GetsStopped(w, e, t, q, under);
    var s := State(q, t.stack, Embed(t.scopes, under), w.procs, true);
    var k: nat :| Turns(w.file, w.self, e, k).Next? && Depicts(Turns(w.file, w.self, e, k).state, s);
    OneEnd(w.file, w.self, e, k, Turns(w.file, w.self, e, k).state, n, u);
    assert Depicts(u, State(q, t.stack, Embed(t.scopes, under), w.procs, true));
  }

  // ----- behaviours -----

  /** A behaviour has no end of its own: it comes to a STOP, to an exit, or to nothing. */
  lemma {:induction false} BehaviourNeverDone(c: Cmd, env: Procs, st: St, fuel: nat)
    requires c.Behaviour?
    ensures !Exec(c, env, st, fuel).Done?
    decreases fuel
  {
    ExecBehaviour(c, env, st, fuel);
    hide Exec;
    if Exec(c.body, env, st, fuel).Done? && fuel > 0 {
      BehaviourNeverDone(c, env, Exec(c.body, env, st, fuel).st, fuel - 1);
    }
  }

  /** The body gets through from every state, with whatever fuel it needs. */
  ghost predicate GetsThrough(c: Cmd, env: Procs) {
    forall st, fuel: nat :: Exec(c, env, st, fuel).Done? || Exec(c, env, st, fuel).Unfinished?
  }

  lemma {:induction false} BehaviourGoesOn(c: Cmd, env: Procs, st: St, fuel: nat)
    requires c.Behaviour? && GetsThrough(c.body, env)
    ensures Exec(c, env, st, fuel) == Unfinished
    decreases fuel
  {
    ExecBehaviour(c, env, st, fuel);
    hide Exec;
    if Exec(c.body, env, st, fuel).Done? && fuel > 0 {
      BehaviourGoesOn(c, env, Exec(c.body, env, st, fuel).st, fuel - 1);
    }
  }

  /** A file that is a behaviour whose body always gets through runs for ever; one whose behaviour halts with some fuel
      ends, in the state of the STOP. */
  lemma BehaviourRuns(f: Bytes, self: string, ds: seq<D.Decl>, body: Cmd, st: St, e: Image, fuel: nat, n: nat)
    requires GoodDecls(ds) && Clean(st.scopes) && Holds(f, ds, Behaviour(body), None)
    requires Depicts(e, State(0, st.stack, st.scopes, map[], false))
    ensures GetsThrough(body, WorldOf(f, self, ds).env) ==> Turns(f, self, e, n).Next?
    ensures var m := Exec(Behaviour(body), WorldOf(f, self, ds).env, st, fuel);
      m.Halted? ==> exists k: nat, u: Image ::
        Turns(f, self, e, k) == Next(u) && Turn(f, self, u) == Ended && u.stop && u.stack == m.st.stack
  {
    hide *;
    var w := WorldOf(f, self, ds);
    WorldIs(f, self, ds);
    ProgramRuns(f, self, ds, Behaviour(body), None, st, e, n);
    ProgramRuns(f, self, ds, Behaviour(body), None, st, e, fuel);
    var m := Exec(Behaviour(body), w.env, st, fuel);
    if GetsThrough(body, w.env) {
      BehaviourGoesOn(Behaviour(body), w.env, st, n);
      PerformsOn(w, e, |DeclsBytes(ds) + Code(Behaviour(body))|, n);
    }
    if m.Halted? { StoppedImage(w, e, |DeclsBytes(ds) + Code(Behaviour(body))|, m.st, fuel); }
  }

  lemma PerformsOn(w: World, e: Image, end: nat, fuel: nat)
    requires Performs(w, e, end, Unfinished, fuel)
    ensures Turns(w.file, w.self, e, fuel).Next?
  {
  }

  lemma StoppedImage(w: World, e: Image, end: nat, t: St, fuel: nat)
    requires Performs(w, e, end, Halted(t), fuel)
    ensures exists k: nat, u: Image ::
      Turns(w.file, w.self, e, k) == Next(u) && Turn(w.file, w.self, u) == Ended && u.stop && u.stack == t.stack
  {
    hide Turns, C.Shows, Embed;
    var q: nat, under: seq<Option<nat>> :| |under| == |t.scopes| && GetsStopped(w, e, t, q, under);
    var s := State(q, t.stack, Embed(t.scopes, under), w.procs, true);
    var k: nat :| Turns(w.file, w.self, e, k).Next? && Depicts(Turns(w.file, w.self, e, k).state, s);
    var u := Turns(w.file, w.self, e, k).state;
    assert Turn(w.file, w.self, u) == Ended;
  }

  // ----- calls and returns -----

  /** A call of any depth of nesting comes back to the byte after PROCCALL and gives its caller the same scopes
      back: the same levels and names, the caller's own return address, and the same value for every name that no
      procedure stores to. */
  lemma CallRestoresCaller(w: World, name: Bytes, p: nat, st: St, addresses: seq<Option<nat>>, depth: Option<nat>,
                           e: Image, names: set<string>, fuel: nat)
    requires Loaded(w) && Disciplined(w.env, names) && Placed(w, Invoke(name), p, None, depth)
    requires Fits(st, addresses, depth)
    requires Depicts(e, Conc(w, p, st, addresses)) && Exec(Invoke(name), w.env, st, fuel).Done?
    ensures var t := Exec(Invoke(name), w.env, st, fuel).st;
      && Kept(st.scopes, t.scopes, 0, names) && |t.scopes| == |addresses|
      && Gets(w, e, Conc(w, p + 1 + |StringBytes(name)|, t, addresses))
  {
    hide *;
    var c := Invoke(name);
    var m := Exec(c, w.env, st, fuel);
    CallKeeps(w.env, name, st, names, fuel);
    KeptLength(st.scopes, m.st.scopes, 0, names);
    Runs(w, c, p, st, addresses, None, depth, fuel);
    InvokePlaced(w, c, p, None, depth);
    Arrived(w, Conc(w, p, st, addresses), addresses, depth, p + |Code(c)|, m, fuel);
    GetsReached(w, e, Conc(w, p, st, addresses), Conc(w, p + 1 + |StringBytes(name)|, m.st, addresses));
  }

  /** A RETURN from k > 0 scopes inside its procedure goes to the right byte but leaves the frame on the scope
      stack; it restores the caller's scopes exactly when the frame is the top level. */
  lemma ReturnRestoresExactly(e: Image, s: State, frame: nat)
    requires Depicts(e, s) && S.Load(s.scopes, RETURN_SOURCE) == None && frame < |s.scopes|
    requires S.Holder(s.scopes, RETURN_ADDRESS) == frame && s.scopes[frame][RETURN_ADDRESS].value.Address?
    ensures Return(e).Next? && Return(e).state.pos == s.scopes[frame][RETURN_ADDRESS].value.pos
    ensures C.Shows(Return(e).state.scopes, s.scopes[frame + 1..]) <==> frame == 0
    ensures frame > 0 ==> C.Shows(Return(e).state.scopes, s.scopes[frame..])
  {
    hide Return, Returned, C.Unambiguous;
    ReturnOnMaps(s, frame);
    ReturnFollows(e, s);
    hide C.ShowsLevel;
  }
}
