/**
 Recursion in files that can be loaded: a procedure with a conditional or a loop exits at its declaration, so
 bodies are straight, and a call that comes round to itself never comes back.
 */
module Recursion {
  import opened Wrappers
  import opened Bytecode
  import opened Decoding
  import opened Machines
  import opened Structured
  import opened Simulation
  import D = Declarations
  import opened Programs

  /** The procedures that straight code calls, in order, up to its first RETURN or STOP, and whether it has one. */
  function Callees(c: Cmd): (seq<string>, bool) {
    match c
    case Then(a, b) =>
      var (x, left) := Callees(a);
      if left then (x, true) else (x + Callees(b).0, Callees(b).1)
    case Block(a) => Callees(a)
    case Invoke(name) => ([Key(name)], false)
    case Leave => ([], true)
    case Halt => ([], true)
    case _ => ([], false)
  }

  /** Some call of the procedure comes back with this much fuel. */
  ghost predicate Returns(env: Procs, key: string, fuel: nat) {
    exists name, st :: Key(name) == key && Exec(Invoke(name), env, st, fuel).Done?
  }

  ghost predicate AllReturn(env: Procs, keys: seq<string>, fuel: nat) {
    forall k | 0 <= k < |keys| :: Returns(env, keys[k], fuel)
  }

  lemma AllReturnMore(env: Procs, x: seq<string>, y: seq<string>, fuel: nat)
    requires AllReturn(env, x, fuel) && AllReturn(env, y, fuel)
    ensures AllReturn(env, x + y, fuel)
  {
    hide Returns;
  }

  lemma ReturnsOne(env: Procs, name: Bytes, st: St, fuel: nat)
    requires Exec(Invoke(name), env, st, fuel).Done?
    ensures AllReturn(env, [Key(name)], fuel)
  {
    hide Exec, Key;
    assert Returns(env, Key(name), fuel);
  }

  /** Straight code that gets through has made all its calls, and every one came back. */
  lemma {:induction false} StraightCalls(c: Cmd, env: Procs, st: St, fuel: nat)
    requires D.Straight(c)
    ensures var m := Exec(c, env, st, fuel);
      && (m.Done? ==> !Callees(c).1 && AllReturn(env, Callees(c).0, fuel))
      && (m.Left? ==> Callees(c).1 && AllReturn(env, Callees(c).0, fuel))
    decreases c
  {
    hide AllReturn, Exec, Key;
    match c
    case Nop => ExecNop(env, st, fuel); NoneReturn(env, fuel);
    case Then(a, b) =>
      ExecThen(c, env, st, fuel);
      StraightCalls(a, env, st, fuel);
      var m := Exec(a, env, st, fuel);
      if m.Done? {
        StraightCalls(b, env, m.st, fuel);
        if !Exec(c, env, st, fuel).Wrong? && (Exec(c, env, st, fuel).Done? || Exec(c, env, st, fuel).Left?) {
          AllReturnMore(env, Callees(a).0, Callees(b).0, fuel);
        }
      }
    case Basic(i) => ExecBasic(i, env, st, fuel); BasicStays(i, st); NoneReturn(env, fuel);
    case Block(a) => ExecBlock(c, env, st, fuel); StraightCalls(a, env, Opened(st, map[]), fuel);
    case Invoke(name) =>
      InvokeStays(c, env, st, fuel);
      if Exec(c, env, st, fuel).Done? { ReturnsOne(env, name, st, fuel); }
    case Leave => ExecLeave(env, st, fuel); NoneReturn(env, fuel);
    case Halt => ExecHalt(env, st, fuel);
  }

  lemma NoneReturn(env: Procs, fuel: nat)
    ensures AllReturn(env, [], fuel)
  {
  }

  lemma BasicStays(i: Prim, st: St)
    ensures !DoBasic(i, st).Left?
  {
    hide DoPrim;
  }

  lemma InvokeStays(c: Cmd, env: Procs, st: St, fuel: nat)
    requires c.Invoke?
    ensures !Exec(c, env, st, fuel).Left?
  {
    hide Exec, Key;
    ExecInvoke(c, env, st, fuel);
  }

  /** Procedure a, whose body is straight, calls procedure b on its way. */
  predicate CallsInto(env: Procs, a: string, b: string) {
    a in env && D.Straight(env[a].body) && b in Callees(env[a].body).0
  }

  lemma CallReturns(env: Procs, a: string, b: string, fuel: nat)
    requires CallsInto(env, a, b) && Returns(env, a, fuel)
    ensures fuel > 0 && Returns(env, b, fuel - 1)
  {
    hide Exec, D.Straight, Callees, Entered, Clashing;
    var name, st :| Key(name) == a && Exec(Invoke(name), env, st, fuel).Done?;
    ExecInvoke(Invoke(name), env, st, fuel);
    StraightCalls(env[a].body, env, Entered(env[a], st), fuel - 1);
    var keys := Callees(env[a].body).0;
    var k :| 0 <= k < |keys| && keys[k] == b;
    assert Returns(env, keys[k], fuel - 1);
  }

  /** Each procedure calls the next. */
  predicate CallChain(env: Procs, path: seq<string>) {
    |path| > 0 && forall k | 0 <= k < |path| - 1 :: CallsInto(env, path[k], path[k + 1])
  }

  lemma {:induction false} ChainReturns(env: Procs, path: seq<string>, fuel: nat)
    requires CallChain(env, path) && Returns(env, path[0], fuel)
    ensures |path| - 1 <= fuel && Returns(env, path[|path| - 1], fuel - (|path| - 1))
    decreases |path|
  {
    hide Returns, CallsInto;
    if |path| > 1 {
      CallReturns(env, path[0], path[1], fuel);
      ChainReturns(env, path[1..], fuel - 1);
    }
  }

  /** Main result: a procedure that calls itself, directly or through others, never comes back, whatever its
      arguments. */
  lemma {:induction false} RecursionNeverReturns(env: Procs, path: seq<string>, fuel: nat)
    requires CallChain(env, path) && |path| > 1 && path[|path| - 1] == path[0]
    ensures !Returns(env, path[0], fuel)
    decreases fuel
  {
    hide Returns, CallsInto;
    if Returns(env, path[0], fuel) {
      ChainReturns(env, path, fuel);
      RecursionNeverReturns(env, path, fuel - (|path| - 1));
    }
  }

  /** In a loaded file every procedure is straight, so this holds of every recursive procedure of every file. */
  lemma {:induction false} LoadedIsStraight(ds: seq<D.Decl>, env: Procs, key: string)
    requires GoodDecls(ds) && key in EnvOf(ds, env) && (key in env ==> D.Straight(env[key].body))
    ensures D.Straight(EnvOf(ds, env)[key].body)
    decreases |ds|
  {
    hide D.Straight, Key;
    if ds != [] {
      DeclsMore(ds, 0, env, map[]);
      LoadedIsStraight(ds[1..], env[Key(ds[0].name) := ProcOf(ds[0])], key);
    }
  }

  /** A main part that reaches such a call is never done. */
  lemma RecursiveFileNeverDone(ds: seq<D.Decl>, path: seq<string>, main: Cmd, st: St, fuel: nat)
    requires GoodDecls(ds) && CallChain(EnvOf(ds, map[]), path) && |path| > 1 && path[|path| - 1] == path[0]
    requires D.Straight(main) && path[0] in Callees(main).0
    ensures !Exec(main, EnvOf(ds, map[]), st, fuel).Done?
  {
    hide Exec, D.Straight, Callees, Returns, CallsInto;
    var env, keys := EnvOf(ds, map[]), Callees(main).0;
    StraightCalls(main, env, st, fuel);
    RecursionNeverReturns(env, path, fuel);
    NotAllReturn(env, keys, fuel, path[0]);
  }

  lemma NotAllReturn(env: Procs, keys: seq<string>, fuel: nat, key: string)
    requires key in keys && !Returns(env, key, fuel)
    ensures !AllReturn(env, keys, fuel)
  {
    hide Returns;
  }
}
