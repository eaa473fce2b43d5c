/**
 A name declared again before its first value is entered twice, and the value stored next is lost.  A program
 that declares each name at most once at its level, and not in a loop, never does this.
 */
module Redeclaration {
  import opened Wrappers
  import opened ListMaps
  import S = Scoping
  import C = ScopeChains
  import opened Decoding
  import opened Bytecode
  import opened Machines
  import opened Structured
  import opened Simulation
  import D = Declarations
  import opened Programs
  import I = Interpreter
  import opened Execution

  // ----- the program that loses a value -----

  /** DECLARE, DECLARE, PUSH, STORE, LOAD of one name. */
  function Twice(name: Bytes, kind: Byte, again: Byte, d: Datum): Cmd {
    Cmd.Then(Basic(Decl(name, kind)), Cmd.Then(Basic(Decl(name, again)), Single(name, d)))
  }

  /** PUSH, STORE, LOAD. */
  function Single(name: Bytes, d: Datum): Cmd {
    Cmd.Then(Basic(Lit(d)), Cmd.Then(Basic(Put(name)), Basic(Fetch(name))))
  }

  lemma TwiceAt(f: Bytes, p: nat, name: Bytes, kind: Byte, again: Byte, d: Datum)
    requires At(f, p, Code(Twice(name, kind, again, d)))
    ensures var a, b, x, y := PrimBytes(Decl(name, kind)), PrimBytes(Decl(name, again)), PrimBytes(Lit(d)),
        PrimBytes(Put(name));
      && At(f, p, a) && At(f, p + |a|, b) && At(f, p + |a| + |b|, x)
      && At(f, p + |a| + |b| + |x|, y) && At(f, p + |a| + |b| + |x| + |y|, PrimBytes(Fetch(name)))
  {
    hide At, PrimBytes;
    var a, b, x, y, z := PrimBytes(Decl(name, kind)), PrimBytes(Decl(name, again)), PrimBytes(Lit(d)),
        PrimBytes(Put(name)), PrimBytes(Fetch(name));
    assert Code(Cmd.Then(Basic(Put(name)), Basic(Fetch(name)))) == y + z;
    assert Code(Single(name, d)) == x + (y + z);
    assert Code(Cmd.Then(Basic(Decl(name, again)), Single(name, d))) == b + Code(Single(name, d));
    assert Code(Twice(name, kind, again, d)) == a + (b + (x + (y + z)));
    AtSplit(f, p, a, b + (x + (y + z)));
    AtSplit(f, p + |a|, b, x + (y + z));
    AtSplit(f, p + |a| + |b|, x, y + z);
    AtSplit(f, p + |a| + |b| + |x|, y, z);
  }

  /** The level after the second declaration and the store, from one that did not hold the name. */
  lemma LostAtLevel(c: Chain<Cell>, name: string, v: Cell)
    requires Sane(c) && UniqueKeys(c.entries) && name !in AsMap(c.entries)
    ensures var (ok, w) := ListMaps.Written(Registered(Registered(c, name), name), name, Some(v));
      ok && Fetched(w, name).0 == None
  {
    RegisteredIs(c, name);
    RegisteredUnique(c, name);
    FetchedIs(c, name);
    hide Registered, ListMaps.Written, Fetched;
    var d := Registered(c, name);
    assert Sane(d) && UniqueKeys(d.entries) && AsMap(d.entries) == AsMap(c.entries)[name := None];
    RedeclaredKeyIsLost(d, name, v);
  }

  /** At a level that does not hold the name, and with no value for it further out, the five instructions make
      the component exit: the value stored is not found. */
  lemma RedeclarationExits(f: Bytes, self: string, e: I.Image, s: State, name: Bytes, kind: Byte, again: Byte, d: Datum)
    requires PlainName(name) && ProperDatum(d) && At(f, e.pos, Code(Twice(name, kind, again, d))) && !e.stop
    requires I.Depicts(e, s) && s.scopes != [] && Key(name) !in s.scopes[0] && S.Load(s.scopes[1..], Key(name)) == None
    ensures I.Turns(f, self, e, 5) == Exits
    ensures forall fuel :: Exec(Twice(name, kind, again, d), map[], St(s.stack, s.scopes), fuel) == Clash
  {
    hide *;
    TwiceMeans(name, kind, again, d, St(s.stack, s.scopes));
    var e1, q1 := TwiceDeclared(f, self, e, s, name, kind, again, d);
    StoredAndLost(f, self, e1, s, e, q1, name, d);
    TwiceTurns(f, self, e, e1);
  }

  lemma TwiceTurns(f: Bytes, self: string, e: I.Image, e1: I.Image)
    requires I.Turns(f, self, e, 2) == Next(e1) && I.Turns(f, self, e1, 3) == Exits
    ensures I.Turns(f, self, e, 5) == Exits
  {
    hide *;
    I.TurnsAdd(f, self, e, 2, e1, 3);
  }

  lemma TwiceMeans(name: Bytes, kind: Byte, again: Byte, d: Datum, st: St)
    requires PlainName(name) && st.scopes != [] && Key(name) !in st.scopes[0]
    ensures forall fuel :: Exec(Twice(name, kind, again, d), map[], st, fuel) == Clash
  {
    hide Key;
    forall fuel ensures Exec(Twice(name, kind, again, d), map[], st, fuel) == Clash {
      var a, b := Basic(Decl(name, kind)), Basic(Decl(name, again));
      ExecThen(Twice(name, kind, again, d), map[], st, fuel);
      ExecBasic(Decl(name, kind), map[], st, fuel);
      var m := DoBasic(Decl(name, kind), st);
      ExecThen(Cmd.Then(b, Single(name, d)), map[], m.st, fuel);
      ExecBasic(Decl(name, again), map[], m.st, fuel);
    }
  }

  lemma TwoTurns(f: Bytes, self: string, e: I.Image, e1: I.Image, e2: I.Image)
    requires I.Turn(f, self, e) == Next(e1) && I.Turn(f, self, e1) == Next(e2)
    ensures I.Turns(f, self, e, 2) == Next(e2)
  {
    hide *;
    I.TurnsOne(f, self, e);
    I.TurnsOne(f, self, e1);
    I.TurnsAdd(f, self, e, 1, e1, 1);
  }

  lemma ProperLiteral(d: Datum)
    requires ProperDatum(d)
    ensures Literate(Lit(d)) && (d.Fixed? ==> |d.bytes| == Width(d.kind) > 0)
  {
  }

  /** After the two declarations. */
  lemma TwiceDeclared(f: Bytes, self: string, e: I.Image, s: State, name: Bytes, kind: Byte, again: Byte, d: Datum)
    returns (e2: I.Image, q: nat)
    requires PlainName(name) && At(f, e.pos, Code(Twice(name, kind, again, d))) && !e.stop
    requires I.Depicts(e, s) && s.scopes != []
    ensures I.Turns(f, self, e, 2) == Next(e2) && e2.pos == q && !e2.stop && e2.stack == e.stack
    ensures e.scopes != [] && e2.scopes == [Registered(Registered(e.scopes[0], Key(name)), Key(name))] + e.scopes[1..]
    ensures At(f, q, PrimBytes(Lit(d))) && At(f, q + |PrimBytes(Lit(d))|, PrimBytes(Put(name)))
    ensures At(f, q + |PrimBytes(Lit(d))| + |PrimBytes(Put(name))|, PrimBytes(Fetch(name)))
  {
    hide At, PrimBytes, Registered, Key, I.Turn, I.Turns, C.Shows, PlainName;
    TwiceAt(f, e.pos, name, kind, again, d);
    assert |e.scopes| == |s.scopes| by { DepictsLength(e, s); }
    PrimTurn(f, self, e, Decl(name, kind));
    var e1 := e.(pos := e.pos + |PrimBytes(Decl(name, kind))|, scopes := [Registered(e.scopes[0], Key(name))] +
        e.scopes[1..]);
    assert I.Turn(f, self, e) == Next(e1);
    PrimTurn(f, self, e1, Decl(name, again));
    q := e1.pos + |PrimBytes(Decl(name, again))|;
    e2 := e1.(pos := q, scopes := [Registered(Registered(e.scopes[0], Key(name)), Key(name))] + e.scopes[1..]);
    assert e1.scopes[1..] == e.scopes[1..];
    assert I.Turn(f, self, e1) == Next(e2);
    TwoTurns(f, self, e, e1, e2);
  }

  lemma DepictsLength(e: I.Image, s: State)
    requires I.Depicts(e, s)
    ensures |e.scopes| == |s.scopes| && C.Shows(e.scopes, s.scopes)
  {
  }

  /** Then the value is pushed and stored, and not found. */
  lemma StoredAndLost(f: Bytes, self: string, e2: I.Image, s: State, e: I.Image, q: nat, name: Bytes, d: Datum)
    requires PlainName(name) && ProperDatum(d) && I.Depicts(e, s) && s.scopes != [] && e.scopes != []
    requires Key(name) !in s.scopes[0] && S.Load(s.scopes[1..], Key(name)) == None
    requires e2.pos == q && !e2.stop
    requires e2.scopes == [Registered(Registered(e.scopes[0], Key(name)), Key(name))] + e.scopes[1..]
    requires At(f, q, PrimBytes(Lit(d))) && At(f, q + |PrimBytes(Lit(d))|, PrimBytes(Put(name)))
    requires At(f, q + |PrimBytes(Lit(d))| + |PrimBytes(Put(name))|, PrimBytes(Fetch(name)))
    ensures I.Turns(f, self, e2, 3) == Exits
  {
    hide At, PrimBytes, Registered, ListMaps.Written, Fetched, Key, I.Turn, I.Turns, C.Shows, PlainName, Literal;
    hide ProperDatum;
    ProperLiteral(d);
    var v := Val(Literal(d));
    var key := Key(name);
    DepictsLength(e, s);
    C.ShowsTail(e.scopes, s.scopes);
    LostAtLevel(e.scopes[0], key, v);
    var c := Registered(Registered(e.scopes[0], key), key);
    var w := ListMaps.Written(c, key, Some(v)).1;
    PrimTurn(f, self, e2, Lit(d));
    var e3 := e2.(pos := q + |PrimBytes(Lit(d))|, stack := e2.stack + [Literal(d)]);
    PrimTurn(f, self, e3, Put(name));
    assert TopCell(e3.stack) == Some(v) && Pop(e3.stack) == e2.stack;
    assert e3.scopes[0] == c && e3.scopes[1..] == e.scopes[1..];
    assert C.StoreTo(e3.scopes, key, Some(v)) == Some([w] + e.scopes[1..]);
    var e4 := e3.(pos := e3.pos + |PrimBytes(Put(name))|, stack := e2.stack, scopes := [w] + e.scopes[1..]);
    assert I.Turn(f, self, e3) == Next(e4);
    PrimTurn(f, self, e4, Fetch(name));
    C.LoadShows(e.scopes[1..], s.scopes[1..], key);
    LoadPast(w, e.scopes[1..], key);
    assert I.Turn(f, self, e4) == Exits;
    TwoTurns(f, self, e2, e3, e4);
    I.TurnsOne(f, self, e4);
    I.TurnsAdd(f, self, e2, 2, e4, 1);
  }

  lemma LoadPast(c: Chain<Cell>, e: C.Chains<Cell>, key: string)
    requires Fetched(c, key).0 == None && C.LoadFrom(e, key).1 == None
    ensures C.LoadFrom([c] + e, key).1 == None
  {
    assert ([c] + e)[1..] == e;
  }

  // ----- programs that never declare a name again at its level -----

  /** The names declared at the program's own level after it, given those declared before; None if a name may be
      declared there a second time. */
  function DeclaredOnce(c: Cmd, seen: set<string>): (r: Option<set<string>>)
    ensures r.Some? ==> seen <= r.value
  {
    match c
    case Then(a, b) => (match DeclaredOnce(a, seen) case None => None case Some(more) => DeclaredOnce(b, more))
    case Basic(i) =>
      if !i.Decl? then Some(seen) else if Key(i.name) in seen then None else Some(seen + {Key(i.name)})
    case When(a) => DeclaredOnce(a, seen)
    case Choice(a, b) =>
      (match (DeclaredOnce(a, seen), DeclaredOnce(b, seen))
       case (Some(x), Some(y)) => Some(x + y)
       case _ => None)
    case Loop(a, b) =>
      if DeclaredOnce(a, seen) == Some(seen) && DeclaredOnce(b, seen) == Some(seen) then Some(seen) else None
    case Block(a) => if DeclaredOnce(a, {}).Some? then Some(seen) else None
    case Behaviour(a) => if DeclaredOnce(a, seen) == Some(seen) then Some(seen) else None
    case _ => Some(seen)
  }

  predicate Distinct(params: seq<string>) {
    forall j, k | 0 <= j < k < |params| :: params[j] != params[k]
  }

  ghost predicate EnvOnce(env: Procs) {
    forall key | key in env :: ProcOnce(env[key])
  }

  predicate ProcOnce(proc: Proc) {
    Distinct(proc.params) && DeclaredOnce(proc.body, set x | x in proc.params).Some?
  }

  lemma {:induction false} DistinctNoClash(params: seq<string>, args: seq<Option<Cell>>)
    requires |params| == |args| && Distinct(params)
    ensures !Clashing(params, args)
  {
    if params != [] {
      assert forall j | 0 < j < |params| :: params[j] == params[1..][j - 1];
      DistinctNoClash(params[1..], args[1..]);
      FrameKeys(params[1..], args[1..], params[0]);
    }
  }

  /** The names at the top level are among those given. */
  ghost predicate Within(s: S.Scopes<Cell>, seen: set<string>) {
    s != [] ==> s[0].Keys <= seen
  }

  /** The program did not clash, and if it was done its level holds only the names accounted for. */
  ghost predicate Safe(m: Meaning, names: Option<set<string>>) {
    !m.Clash? && (m.Done? && names.Some? ==> Within(m.st.scopes, names.value))
  }

  lemma SafeBasic(i: Prim, st: St, seen: set<string>)
    requires Within(st.scopes, seen) && DeclaredOnce(Basic(i), seen).Some?
    ensures Safe(DoBasic(i, st), DeclaredOnce(Basic(i), seen))
  {
    hide Literal, Key;
    if i.Op? && |st.stack| >= 2 {
      I.CombineReplies(i.op, st.stack);
    }
    hide Combine;
  }

  lemma SafeMore(m: Meaning, x: set<string>, y: set<string>)
    requires Safe(m, Some(x)) && x <= y
    ensures Safe(m, Some(y))
  {
  }

  /** A level whose names are the same keeps within. */
  lemma WithinKept(s: S.Scopes<Cell>, t: S.Scopes<Cell>, names: set<string>, seen: set<string>)
    requires Within(s, seen) && Kept(s, t, 0, names)
    ensures Within(t, seen)
  {
    if s != [] { assert KeptLevel(s[0], t[0], names); }
  }

  lemma SafeBlock(st: St, m: Meaning, depth: Option<nat>, names: set<string>, seen: set<string>)
    requires Within(st.scopes, seen) && Keeps([map[]] + st.scopes, depth, m, names) && !m.Clash?
    ensures Safe(if m.Done? then Done(Popped(m.st)) else m, Some(seen))
  {
    hide Kept;
    if m.Done? {
      KeptPushed(st.scopes, map[], m.st.scopes, names);
      WithinKept(st.scopes, Popped(m.st).scopes, names, seen);
    }
  }

  lemma SafeCall(proc: Proc, st: St, m: Meaning, names: set<string>, seen: set<string>)
    requires Within(st.scopes, seen) && Keeps(Entered(proc, st).scopes, Some(0), m, names) && !m.Clash?
    ensures Safe(Resumed(m), Some(seen))
  {
    hide Kept, Keeps, Within, Entered;
    KeepsCall(proc, st, m, names);
    if Resumed(m).Done? { WithinKept(st.scopes, Resumed(m).st.scopes, names, seen); }
  }

  lemma EnteredWithin(proc: Proc, st: St)
    requires ProcOnce(proc)
    ensures Within(Entered(proc, st).scopes, set x | x in proc.params)
    ensures !Clashing(proc.params, Args(st.stack, |proc.params|))
  {
    hide Frame, Clashing, Args, DeclaredOnce;
    var args := Args(st.stack, |proc.params|);
    DistinctNoClash(proc.params, args);
    forall x | x in Frame(proc.params, args) ensures x in proc.params { FrameKeys(proc.params, args, x); }
  }

  lemma OnceAt(env: Procs, key: string)
    requires EnvOnce(env) && key in env
    ensures ProcOnce(env[key]) && DeclaredOnce(env[key].body, set x | x in env[key].params).Some?
  {
  }

  lemma OnceLoop(c: Cmd, seen: set<string>)
    requires c.Loop? && DeclaredOnce(c, seen).Some?
    ensures DeclaredOnce(c, seen) == Some(seen) == DeclaredOnce(c.cond, seen) == DeclaredOnce(c.body, seen)
  {
  }

  /** Main result: a program that declares each name at most once at its level, and not directly in a loop, and whose
      procedures do so with distinct parameters, never enters a name twice. */
  lemma {:induction false} OnceNeverClashes(c: Cmd, env: Procs, st: St, fuel: nat, follow: Option<Byte>,
                                            depth: Option<nat>, names: set<string>, seen: set<string>)
    requires Disciplined(env, names) && PutsWithin(c, names) && Laid(c, follow, depth)
    requires (depth.Some? ==> st.scopes != [])
    requires EnvOnce(env) && DeclaredOnce(c, seen).Some? && Within(st.scopes, seen)
    ensures Safe(Exec(c, env, st, fuel), DeclaredOnce(c, seen))
    decreases fuel, c, 1
  {
    hide Kept, Keeps, Exec, Code, Key, PlainPrim, FirstByte, Disciplined, Decides, Decision, Decided, Entered, Within;
    hide EnvOnce, Safe, Opened;
    match c
    case Nop => ExecNop(env, st, fuel); SafeDone(st, seen);
    case Then(a, b) =>
      ExecThen(c, env, st, fuel);
      OnceNeverClashes(a, env, st, fuel, FirstByte(b, follow), depth, names, seen);
      var m := Exec(a, env, st, fuel);
      var more := DeclaredOnce(a, seen).value;
      SafeIs(m, more);
      if m.Done? {
        ExecKeeps(a, env, st, fuel, FirstByte(b, follow), depth, names);
        KeepsLength(st.scopes, depth, m, names);
        OnceNeverClashes(b, env, m.st, fuel, follow, depth, names, more);
      } else {
        SafeNot(m, more, DeclaredOnce(c, seen));
      }
    case Basic(i) => ExecBasic(i, env, st, fuel); SafeBasic(i, st, seen);
    case When(a) =>
      ExecWhen(c, env, st, fuel);
      KeepsDecided(st, depth, names);
      if !Decides(st) { SafeWrong(DeclaredOnce(c, seen)); }
      else if Decision(st) { OnceNeverClashes(a, env, Decided(st), fuel, follow, depth, names, seen); }
      else { SafeDone(Decided(st), seen); SafeMore(Done(Decided(st)), seen, DeclaredOnce(c, seen).value); }
    case Choice(a, b) =>
      ExecChoice(c, env, st, fuel);
      KeepsDecided(st, depth, names);
      var x, y := DeclaredOnce(a, seen).value, DeclaredOnce(b, seen).value;
      if !Decides(st) { SafeWrong(DeclaredOnce(c, seen)); }
      else if Decision(st) {
        OnceNeverClashes(a, env, Decided(st), fuel, Some(ELSE), depth, names, seen);
        SafeMore(Exec(a, env, Decided(st), fuel), x, x + y);
      } else {
        OnceNeverClashes(b, env, Decided(st), fuel, follow, depth, names, seen);
        SafeMore(Exec(b, env, Decided(st), fuel), y, x + y);
      }
    case Loop(a, b) => LoopNeverClashes(c, env, st, fuel, follow, depth, names, seen);
    case Block(a) =>
      ExecBlock(c, env, st, fuel);
      OpenedWithin(st);
      OnceNeverClashes(a, env, Opened(st, map[]), fuel, Some(EXITSCOPE), Deeper(depth), names, {});
      ExecKeeps(a, env, Opened(st, map[]), fuel, Some(EXITSCOPE), Deeper(depth), names);
      SafeIs(Exec(a, env, Opened(st, map[]), fuel), DeclaredOnce(a, {}).value);
      SafeBlock(st, Exec(a, env, Opened(st, map[]), fuel), Deeper(depth), names, seen);
    case Invoke(name) =>
      ExecInvoke(c, env, st, fuel);
      if Key(name) in env {
        var proc := env[Key(name)];
        OnceAt(env, Key(name));
        EnteredWithin(proc, st);
        EnvAt(env, names, Key(name));
        if fuel > 0 {
          var params := set x | x in proc.params;
          ExecKeeps(proc.body, env, Entered(proc, st), fuel - 1, Some(BLOCKEND), Some(0), names);
          OnceNeverClashes(proc.body, env, Entered(proc, st), fuel - 1, Some(BLOCKEND), Some(0), names, params);
          SafeIs(Exec(proc.body, env, Entered(proc, st), fuel - 1), DeclaredOnce(proc.body, params).value);
          SafeCall(proc, st, Exec(proc.body, env, Entered(proc, st), fuel - 1), names, seen);
        } else {
          SafeWrong(Some(seen));
        }
      } else {
        SafeWrong(Some(seen));
      }
    case Leave => ExecLeave(env, st, fuel); SafeNot(Left(Popped(st)), seen, Some(seen));
    case Behaviour(_) => BehaviourNeverClashes(c, env, st, fuel, follow, depth, names, seen);
    case Halt => ExecHalt(env, st, fuel); SafeNot(Halted(st), seen, Some(seen));
  }

  lemma OnceBehaviour(c: Cmd, seen: set<string>)
    requires c.Behaviour? && DeclaredOnce(c, seen).Some?
    ensures DeclaredOnce(c, seen) == Some(seen) == DeclaredOnce(c.body, seen)
  {
  }

  lemma {:induction false} BehaviourNeverClashes(c: Cmd, env: Procs, st: St, fuel: nat, follow: Option<Byte>,
                                                 depth: Option<nat>, names: set<string>, seen: set<string>)
    requires Disciplined(env, names) && PutsWithin(c, names) && Laid(c, follow, depth)
    requires (depth.Some? ==> st.scopes != []) && c.Behaviour?
    requires EnvOnce(env) && DeclaredOnce(c, seen).Some? && Within(st.scopes, seen)
    ensures Safe(Exec(c, env, st, fuel), DeclaredOnce(c, seen))
    decreases fuel, c, 0
  {
    hide Kept, Keeps, Exec, Code, Key, PlainPrim, FirstByte, Disciplined, DeclaredOnce, EnvOnce, Within, Safe;
    OnceBehaviour(c, seen);
    ExecBehaviour(c, env, st, fuel);
    OnceNeverClashes(c.body, env, st, fuel, Some(BEHAVIOUR_JUMP), depth, names, seen);
    var m := Exec(c.body, env, st, fuel);
    if m.Done? {
      SafeIs(m, seen);
      ExecKeeps(c.body, env, st, fuel, Some(BEHAVIOUR_JUMP), depth, names);
      KeepsLength(st.scopes, depth, m, names);
      if fuel > 0 { OnceNeverClashes(c, env, m.st, fuel - 1, follow, depth, names, seen); }
      else { SafeWrong(Some(seen)); }
    }
  }

  lemma SafeDone(st: St, seen: set<string>)
    requires Within(st.scopes, seen)
    ensures Safe(Done(st), Some(seen))
  {
  }

  lemma SafeIs(m: Meaning, x: set<string>)
    requires Safe(m, Some(x))
    ensures !m.Clash? && (m.Done? ==> Within(m.st.scopes, x))
  {
  }

  lemma SafeNot(m: Meaning, x: set<string>, y: Option<set<string>>)
    requires !m.Clash? && !m.Done?
    ensures Safe(m, y)
  {
  }

  lemma SafeWrong(y: Option<set<string>>)
    ensures Safe(Wrong, y) && Safe(Open, y) && Safe(Unfinished, y)
  {
  }

  lemma OpenedWithin(st: St)
    ensures Within(Opened(st, map[]).scopes, {}) && Opened(st, map[]).scopes == [map[]] + st.scopes
  {
  }

  lemma {:induction false} LoopNeverClashes(c: Cmd, env: Procs, st: St, fuel: nat, follow: Option<Byte>,
                                            depth: Option<nat>, names: set<string>, seen: set<string>)
    requires Disciplined(env, names) && PutsWithin(c, names) && Laid(c, follow, depth)
    requires (depth.Some? ==> st.scopes != []) && c.Loop?
    requires EnvOnce(env) && DeclaredOnce(c, seen).Some? && Within(st.scopes, seen)
    ensures Safe(Exec(c, env, st, fuel), DeclaredOnce(c, seen))
    decreases fuel, c, 0
  {
    hide Kept, Keeps, Exec, Code, Key, PlainPrim, FirstByte, Disciplined, Decides, Decision, Decided, Turned;
    hide DeclaredOnce, EnvOnce, Within, Safe;
    OnceLoop(c, seen);
    ExecLoop(c, env, st, fuel);
    OnceNeverClashes(c.cond, env, st, fuel, Some(IF), depth, names, seen);
    var m := Exec(c.cond, env, st, fuel);
    if m.Done? {
      SafeIs(m, seen);
      ExecKeeps(c.cond, env, st, fuel, Some(IF), depth, names);
      KeepsLength(st.scopes, depth, m, names);
      TurnedIs(c, env, m.st, fuel);
      KeepsDecided(m.st, depth, names);
      if !Decides(m.st) {
        SafeWrong(Some(seen));
      } else if Decision(m.st) {
        var n := Exec(c.body, env, Decided(m.st), fuel);
        OnceNeverClashes(c.body, env, Decided(m.st), fuel, Some(JUMP), depth, names, seen);
        if n.Done? {
          SafeIs(n, seen);
          ExecKeeps(c.body, env, Decided(m.st), fuel, Some(JUMP), depth, names);
          KeepsLength(m.st.scopes, depth, n, names);
          if fuel > 0 { OnceNeverClashes(c, env, n.st, fuel - 1, follow, depth, names, seen); }
          else { SafeWrong(Some(seen)); }
        }
      } else {
        SafeDone(Decided(m.st), seen);
      }
    }
  }

  // ----- whole files -----

  /** The names a program stores to. */
  function Puts(c: Cmd): set<string> {
    match c
    case Then(a, b) => Puts(a) + Puts(b)
    case When(a) => Puts(a)
    case Choice(a, b) => Puts(a) + Puts(b)
    case Loop(a, b) => Puts(a) + Puts(b)
    case Block(a) => Puts(a)
    case Behaviour(a) => Puts(a)
    case Basic(i) => if i.Put? then {Key(i.name)} else {}
    case _ => {}
  }

  lemma {:induction false} PutsCovers(c: Cmd, names: set<string>)
    requires Puts(c) <= names
    ensures PutsWithin(c, names)
    decreases c
  {
    match c
    case Then(a, b) => PutsCovers(a, names); PutsCovers(b, names);
    case When(a) => PutsCovers(a, names);
    case Choice(a, b) => PutsCovers(a, names); PutsCovers(b, names);
    case Loop(a, b) => PutsCovers(a, names); PutsCovers(b, names);
    case Block(a) => PutsCovers(a, names);
    case Behaviour(a) => PutsCovers(a, names);
    case Basic(i) => assert i.Put? ==> Key(i.name) in Puts(c);
    case Nop =>
    case Invoke(_) =>
    case Leave =>
    case Halt =>
  }

  function AllPuts(ds: seq<D.Decl>): set<string> {
    if ds == [] then {} else Puts(ds[0].body) + AllPuts(ds[1..])
  }

  /** Every procedure of the file declares its names once. */
  ghost predicate DeclsOnce(ds: seq<D.Decl>) {
    forall k | 0 <= k < |ds| :: ProcOnce(ProcOf(ds[k]))
  }

  lemma {:induction false} EnvOfOnce(ds: seq<D.Decl>, env: Procs, names: set<string>)
    requires GoodDecls(ds) && DeclsOnce(ds) && EnvOnce(env) && Disciplined(env, names) && AllPuts(ds) <= names
    ensures EnvOnce(EnvOf(ds, env)) && Disciplined(EnvOf(ds, env), names)
    decreases |ds|
  {
    hide ProcOnce, PutsWithin, Laid, Puts, Key, D.Straight;
    if ds != [] {
      DeclsMore(ds, 0, env, map[]);
      assert ProcOnce(ProcOf(ds[0])) && D.GoodDecl(ds[0]);
      PutsCovers(ds[0].body, names);
      forall k | 0 <= k < |ds[1..]| ensures ProcOnce(ProcOf(ds[1..][k])) { assert ds[1..][k] == ds[k + 1]; }
      EnvOfOnce(ds[1..], env[Key(ds[0].name) := ProcOf(ds[0])], names);
    }
  }

  /** A file whose procedures and main part declare each name once at its level means no clash, with any fuel. */
  lemma ProgramNeverClashes(f: Bytes, self: string, ds: seq<D.Decl>, main: Cmd, follow: Option<Byte>, st: St,
                            seen: set<string>)
    requires GoodDecls(ds) && Holds(f, ds, main, follow)
    requires DeclsOnce(ds) && DeclaredOnce(main, seen).Some? && Within(st.scopes, seen)
    ensures forall fuel: nat :: !Exec(main, WorldOf(f, self, ds).env, st, fuel).Clash?
  {
    hide *;
    var names := AllPuts(ds) + Puts(main);
    HoldsLaid(f, ds, main, follow);
    NoEnv(names);
    EnvOfOnce(ds, map[], names);
    PutsCovers(main, names);
    WorldIs(f, self, ds);
    forall fuel: nat ensures !Exec(main, WorldOf(f, self, ds).env, st, fuel).Clash? {
      OnceNeverClashes(main, EnvOf(ds, map[]), st, fuel, follow, None, names, seen);
      SafeIs(Exec(main, EnvOf(ds, map[]), st, fuel), DeclaredOnce(main, seen).value);
    }
  }

  lemma HoldsLaid(f: Bytes, ds: seq<D.Decl>, main: Cmd, follow: Option<Byte>)
    requires GoodDecls(ds) && Holds(f, ds, main, follow)
    ensures Laid(main, follow, None)
  {
  }

  lemma NoEnv(names: set<string>)
    ensures EnvOnce(map[]) && Disciplined(map[], names)
  {
  }

  /** On maps such a file, when it ends with its main part, never gives up. */
  lemma NeverDoubles(w: World, s: State, main: Cmd, st: St, n: nat)
    requires forall fuel: nat ::
        Behaves(w, s, |w.file|, Exec(main, w.env, st, fuel), fuel) && !Exec(main, w.env, st, fuel).Clash?
    ensures !Steps(w.file, w.self, s, n).Doubles?
  {
    hide Steps, Exec;
    var m := Exec(main, w.env, st, n);
    if Steps(w.file, w.self, s, n).Doubles? {
      assert Behaves(w, s, |w.file|, m, n);
      match m
      case Done(t) => StopsAtEnd(w, s, t); OneHalt(w, s, Ended, Doubles);
      case Halted(t) => StopsAtStop(w, s, t); OneHalt(w, s, Ended, Doubles);
      case Wrong => OneHalt(w, s, Exits, Doubles);
      case Open => OneHalt(w, s, Beyond, Doubles);
      case Unfinished =>
    }
  }

  lemma OneHalt(w: World, s: State, o: Outcome, q: Outcome)
    requires Halts(w, s, o) && !o.Next? && !q.Next? && o != q
    ensures !Halts(w, s, q)
  {
    hide Steps;
    var n: nat :| Steps(w.file, w.self, s, n) == o;
    if m: nat :| Steps(w.file, w.self, s, m) == q {
      if n <= m { I.StepsStay(w.file, w.self, s, n, m); } else { I.StepsStay(w.file, w.self, s, m, n); }
    }
  }

  lemma StopsAtEnd(w: World, s: State, t: St)
    requires Reaches(w.file, w.self, s, State(|w.file|, t.stack, t.scopes, w.procs, false))
    ensures Halts(w, s, Ended)
  {
    hide Steps, Reaches;
    var u := State(|w.file|, t.stack, t.scopes, w.procs, false);
    HaltsStep(w, u, Ended);
    HaltsVia(w, s, u, Ended);
  }

  lemma StopsAtStop(w: World, s: State, t: St)
    requires StopsIn(w, s, t)
    ensures Halts(w, s, Ended)
  {
    hide Steps, Reaches, Embed;
    var q: nat, under: seq<Option<nat>> :| |under| == |t.scopes| && StopsAt(w, s, t, q, under);
    var u := State(q, t.stack, Embed(t.scopes, under), w.procs, true);
    HaltsStep(w, u, Ended);
    HaltsVia(w, s, u, Ended);
  }

  /** Along the whole run of such a file no scope ever holds a name twice. */
  lemma StaysUnambiguous(f: Bytes, self: string, ds: seq<D.Decl>, main: Cmd, st: St, e: I.Image, seen: set<string>,
                         n: nat)
    requires GoodDecls(ds) && Clean(st.scopes) && Holds(f, ds, main, None) && |f| == |DeclsBytes(ds) + Code(main)|
    requires DeclsOnce(ds) && DeclaredOnce(main, seen).Some? && Within(st.scopes, seen)
    requires I.Depicts(e, State(0, st.stack, st.scopes, map[], false))
    ensures I.AlwaysUnambiguous(f, self, e, n)
  {
    hide *;
    var w, s := WorldOf(f, self, ds), State(0, st.stack, st.scopes, map[], false);
    WorldIs(f, self, ds);
    ProgramNeverClashes(f, self, ds, main, None, st, seen);
    forall fuel: nat ensures Behaves(w, s, |f|, Exec(main, w.env, st, fuel), fuel) {
      ProgramOnMaps(f, self, ds, main, None, st, fuel);
    }
    NeverDoubles(w, s, main, st, n);
    I.UnambiguousExactly(f, self, e, s, n);
  }

  /** Started with nothing, such a file ends exactly as its main part means. */
  lemma FileEndsExactly(f: Bytes, self: string, ds: seq<D.Decl>, main: Cmd)
    requires GoodDecls(ds) && Holds(f, ds, main, None) && |f| == |DeclsBytes(ds) + Code(main)|
    requires DeclsOnce(ds) && DeclaredOnce(main, {}).Some?
    ensures var w, st, e := WorldOf(f, self, ds), St([], []), State(0, [], [], map[], false);
      && (StopsWith(w, e, Ended) <==> exists fuel: nat :: Finished(Exec(main, w.env, st, fuel)))
      && (StopsWith(w, e, Exits) <==> exists fuel: nat :: Exec(main, w.env, st, fuel).Wrong?)
      && (StopsWith(w, e, Beyond) <==> exists fuel: nat :: Exec(main, w.env, st, fuel).Open?)
      && ((forall n: nat :: I.Turns(w.file, w.self, e, n).Next?) <==>
          forall fuel: nat :: Exec(main, w.env, st, fuel).Unfinished?)
  {
    hide *;
    NothingDepicted();
    ProgramNeverClashes(f, self, ds, main, None, St([], []), {});
    EndsExactly(f, self, ds, main, St([], []), State(0, [], [], map[], false));
  }

  lemma NothingDepicted()
    ensures I.Depicts(State(0, [], [], map[], false), State(0, [], [], map[], false))
    ensures Clean([]) && Within([], {})
  {
  }
}
