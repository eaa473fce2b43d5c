/**
 A component object run over a whole file: what it leaves is what the file's main part means.
 */
module FileRuns {
  import opened Wrappers
  import opened Decoding
  import opened Bytecode
  import opened Machines
  import opened Structured
  import S = Simulation
  import D = Declarations
  import P = Programs
  import opened Interpreter
  import X = Execution
  import R = Redeclaration
  import Components

  /** The image a component starts from. */
  const START: Image := State(0, [], [], map[], false)

  /** What is known of a run of at most limit turns over a file whose main part means m with this fuel. */
  ghost predicate Meant(w: S.World, m: Meaning, fuel: nat, limit: nat, ok: bool, beyond: bool, done: bool, now: Image) {
    match m
    case Done(t) =>
      && ok && (done ==> Depicts(now, State(|w.file|, t.stack, t.scopes, w.procs, false)))
      && (Stopped(w, limit) ==> done)
    case Halted(t) => ok && (done ==> StoppedAs(w, t, now)) && (Stopped(w, limit) ==> done)
    case Wrong => !done && if ok then !Stopped(w, limit) else !beyond
    case Open => !done && if ok then !Stopped(w, limit) else beyond
    case Unfinished => limit <= fuel ==> ok && !done
    case Clash => true
    case Left(_) => false
  }

  /** At a STOP with the stack and the scopes of t, some of which are frames of procedures. */
  ghost predicate StoppedAs(w: S.World, t: St, now: Image) {
    exists q: nat, under: seq<Option<nat>> ::
      |under| == |t.scopes| && Depicts(now, State(q, t.stack, Embed(t.scopes, under), w.procs, true))
  }

  ghost predicate Stopped(w: S.World, limit: nat) {
    (exists n: nat :: !Turns(w.file, w.self, START, n).Next?) && limit >= X.StopTime(w.file, w.self, START)
  }

  /** A component made for a file and run: when the main part is done or halts with some fuel, the run ends given enough
      turns, and whenever it ends, the stack, the scopes on the heap and the procedures are those the main part means;
      when it is wrong the component exits; and it is not done before the main part is. */
  method RunFile(self: string, file: Bytes, limit: nat, ghost ds: seq<D.Decl>, ghost main: Cmd, ghost fuel: nat)
    returns (c: Components.Component, ok: bool, beyond: bool, done: bool)
    requires P.GoodDecls(ds) && P.Holds(file, ds, main, None) && |file| == |P.DeclsBytes(ds) + Code(main)|
    ensures fresh(c) && c.Valid()
    ensures var w := P.WorldOf(file, self, ds);
      Meant(w, Exec(main, w.env, St([], []), fuel), fuel, limit, ok, beyond, done, c.Now())
  {
    hide *;
    c := new Components.Component(self, file);
    ghost var w := P.WorldOf(file, self, ds);
    ghost var m := Exec(main, w.env, St([], []), fuel);
    P.WorldIs(file, self, ds);
    R.NothingDepicted();
    StartIs();
    X.ProgramRuns(file, self, ds, main, None, St([], []), START, fuel);
    ok, beyond, done := c.Run(limit);
    RunMeans(w, m, fuel, limit, ok, beyond, done, c.Now());
  }

  lemma StartIs()
    ensures START == State(0, [], [], map[], false)
  {
  }

  lemma RunMeans(w: S.World, m: Meaning, fuel: nat, limit: nat, ok: bool, beyond: bool, done: bool, now: Image)
    requires X.Performs(w, START, |w.file|, m, fuel)
    requires match Turns(w.file, w.self, START, limit)
             case Next(s) => ok && !done && now == s
             case Ended => ok && done
             case Exits => !ok && !beyond
             case Beyond => !ok && beyond
             case Doubles => false
    requires ok ==> exists n: nat :: n <= limit && Turns(w.file, w.self, START, n) == Next(now)
    requires ok && done ==> Interpreter.Turn(w.file, w.self, now) == Ended
    requires !ok ==> !done
    ensures Meant(w, m, fuel, limit, ok, beyond, done, now)
  {
    hide Turns, Interpreter.Turn, X.Performs, Depicts, START, Embed;
    if X.Settles(m).Some? {
      X.Finishes(w, START, m, fuel);
      if limit >= X.StopTime(w.file, w.self, START) {
        TurnsStay(w.file, w.self, START, X.StopTime(w.file, w.self, START), limit);
      }
      if m.Done? && ok && done {
        var n: nat :| n <= limit && Turns(w.file, w.self, START, n) == Next(now);
        X.EndsAs(w, START, m.st, fuel, n, now);
      }
      if m.Halted? && ok && done {
        var n: nat :| n <= limit && Turns(w.file, w.self, START, n) == Next(now);
        X.HaltsAs(w, START, m.st, fuel, n, now);
      }
    } else if !m.Clash? {
      X.Unsettled(w, START, |w.file|, m, fuel);
      if limit <= fuel && !Turns(w.file, w.self, START, limit).Next? {
        TurnsStay(w.file, w.self, START, limit, fuel);
      }
    }
  }
}
