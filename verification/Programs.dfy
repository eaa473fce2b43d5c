/**
 Whole programs on the machine: declarations followed by a main part, what a call leaves of its
 caller's scopes, and where a RETURN inside nested scopes goes wrong.
 */
module Programs {
  import opened Wrappers
  import opened ListMaps
  import S = Scoping
  import opened Decoding
  import opened Bytecode
  import opened Machines
  import opened Structured
  import opened Simulation
  import opened Declarations

  // ----- outside any procedure -----

  function NoFrames(n: nat): (r: seq<Option<nat>>)
    ensures |r| == n && forall k | 0 <= k < n :: r[k] == None
  {
    seq(n, _ => None)
  }

  lemma EmbedNone(s: S.Scopes<Cell>)
    ensures Embed(s, NoFrames(|s|)) == s
  {
    EmbedIs(s, NoFrames(|s|), s);
  }

  /** What the loop does with a program outside any procedure that stands at its position and ends at end. */
  ghost predicate Behaves(w: World, s: State, end: nat, m: Meaning, fuel: nat) {
    match m
    case Done(t) => Reaches(w.file, w.self, s, State(end, t.stack, t.scopes, w.procs, false))
    case Left(_) => false
    case Halted(t) => StopsIn(w, s, t)
    case Wrong => Halts(w, s, Exits)
    case Open => Halts(w, s, Beyond)
    case Clash => Halts(w, s, Doubles)
    case Unfinished => Lasts(w, s, fuel)
  }

  /** Structured control flow on maps: the loop started on the first byte of a laid-out program ends on the byte
      after it, stops, or goes on, as the program means. */
  lemma StructureOnMaps(w: World, c: Cmd, p: nat, st: St, follow: Option<Byte>, fuel: nat)
    requires Loaded(w) && Placed(w, c, p, follow, None) && Clean(st.scopes)
    ensures Behaves(w, State(p, st.stack, st.scopes, w.procs, false), p + |Code(c)|, Exec(c, w.env, st, fuel), fuel)
  {
    hide Reaches, Halts, Lasts, StopsIn, Placed, Loaded, Exec, Embed, Code;
    var none := NoFrames(|st.scopes|);
    Runs(w, c, p, st, none, follow, None, fuel);
    var m := Exec(c, w.env, st, fuel);
    EmbedNone(st.scopes);
    if m.Done? { EmbedNone(m.st.scopes); }
  }

  // ----- declarations, then a main part -----

  ghost predicate GoodDecls(ds: seq<Decl>) {
    forall k | 0 <= k < |ds| :: GoodDecl(ds[k]) && Straight(ds[k].body)
  }

  ghost function DeclsBytes(ds: seq<Decl>): Bytes
    requires GoodDecls(ds)
  {
    if ds == [] then [] else DeclBytes(ds[0]) + DeclsBytes(ds[1..])
  }

  function ProcOf(d: Decl): Proc {
    Proc.Proc(Names(d.params), d.body)
  }

  /** The procedures declared; a later declaration of a name replaces an earlier one. */
  function EnvOf(ds: seq<Decl>, env: Procs): Procs {
    if ds == [] then env
    else EnvOf(ds[1..], env[Key(ds[0].name) := ProcOf(ds[0])])
  }

  ghost function ProcsOf(ds: seq<Decl>, p: nat, procs: map<string, Procedure>): map<string, Procedure>
    requires GoodDecls(ds)
  {
    if ds == [] then procs
    else ProcsOf(ds[1..], p + |DeclBytes(ds[0])|, procs[Key(ds[0].name) := Recorded(ds[0], p)])
  }

  lemma LoadedMore(w: World, d: Decl, p: nat)
    requires Loaded(w) && GoodDecl(d) && At(w.file, p, DeclBytes(d))
    ensures Loaded(World(w.file, w.self, w.env[Key(d.name) := ProcOf(d)],
                         w.procs[Key(d.name) := Recorded(d, p)]))
  {
    hide At, Key, Laid, Flipped, Names, HeadBytes, Code;
    AtSplit(w.file, p, HeadBytes(d), Code(d.body) + [BLOCKEND]);
    var v := World(w.file, w.self, w.env[Key(d.name) := ProcOf(d)], w.procs[Key(d.name) := Recorded(d, p)]);
    forall key | key in v.env ensures Installed(v, key) {
      if key != Key(d.name) { assert Installed(w, key); }
    }
  }

  /** Declarations run one after another, and afterwards every procedure is where its record says. */
  lemma {:induction false} DeclareAll(w: World, ds: seq<Decl>, s: State)
    requires GoodDecls(ds) && Loaded(w) && s.procs == w.procs && !s.stop && At(w.file, s.pos, DeclsBytes(ds))
    ensures var procs := ProcsOf(ds, s.pos, w.procs);
      && Loaded(World(w.file, w.self, EnvOf(ds, w.env), procs))
      && Reaches(w.file, w.self, s, s.(pos := s.pos + |DeclsBytes(ds)|, procs := procs))
    decreases |ds|
  {
    hide *;
    if ds == [] {
      DeclsNone(s.pos, w.env, w.procs);
      ReachesSelf(w.file, w.self, s);
      assert s.(pos := s.pos + 0, procs := w.procs) == s;
    } else {
      var d := ds[0];
      DeclsMore(ds, s.pos, w.env, w.procs);
      AtSplit(w.file, s.pos, DeclBytes(d), DeclsBytes(ds[1..]));
      DeclareStep(w.file, w.self, d, s);
      LoadedMore(w, d, s.pos);
      var t := s.(pos := s.pos + |DeclBytes(d)|, procs := s.procs[Key(d.name) := Recorded(d, s.pos)]);
      ReachesStep(w.file, w.self, s, t);
      DeclareAll(World(w.file, w.self, w.env[Key(d.name) := ProcOf(d)], t.procs), ds[1..], t);
      ReachesTrans(w.file, w.self, s, t, s.(pos := s.pos + |DeclsBytes(ds)|, procs := ProcsOf(ds, s.pos, w.procs)));
    }
  }

  lemma DeclsNone(p: nat, env: Procs, procs: map<string, Procedure>)
    ensures GoodDecls([]) && DeclsBytes([]) == [] && EnvOf([], env) == env && ProcsOf([], p, procs) == procs
  {
  }

  lemma DeclsMore(ds: seq<Decl>, p: nat, env: Procs, procs: map<string, Procedure>)
    requires ds != [] && GoodDecls(ds)
    ensures GoodDecl(ds[0]) && Straight(ds[0].body) && |ds[0].params| < 256 && GoodDecls(ds[1..])
    ensures DeclsBytes(ds) == DeclBytes(ds[0]) + DeclsBytes(ds[1..])
    ensures EnvOf(ds, env) == EnvOf(ds[1..], env[Key(ds[0].name) := ProcOf(ds[0])])
    ensures ProcsOf(ds, p, procs) == ProcsOf(ds[1..], p + |DeclBytes(ds[0])|,
        procs[Key(ds[0].name) := Recorded(ds[0], p)])
  {
    assert GoodDecl(ds[0]);
    hide GoodDecl, DeclBytes, Key, ProcOf, Recorded, Straight;
  }

  lemma NothingLoaded(f: Bytes, self: string)
    ensures Loaded(World(f, self, map[], map[]))
  {
  }

  lemma BehavesVia(w: World, s: State, t: State, end: nat, m: Meaning, fuel: nat)
    requires Reaches(w.file, w.self, s, t) && Behaves(w, t, end, m, fuel)
    ensures Behaves(w, s, end, m, fuel)
  {
    hide Reaches, Halts, Lasts, StopsIn;
    match m
    case Done(u) => ReachesTrans(w.file, w.self, s, t, State(end, u.stack, u.scopes, w.procs, false));
    case Left(_) => assert false;
    case Halted(u) => StopsVia(w, s, t, u);
    case Wrong => HaltsVia(w, s, t, Exits);
    case Open => HaltsVia(w, s, t, Beyond);
    case Clash => HaltsVia(w, s, t, Doubles);
    case Unfinished => LastsVia(w, s, t, fuel);
  }

  /** The file, the procedures it declares and where they stand. */
  ghost function WorldOf(f: Bytes, self: string, ds: seq<Decl>): World
    requires GoodDecls(ds)
  {
    World(f, self, EnvOf(ds, map[]), ProcsOf(ds, 0, map[]))
  }

  /** The file holds the declarations and then the main part, which ends before the given byte. */
  ghost predicate Holds(f: Bytes, ds: seq<Decl>, main: Cmd, follow: Option<Byte>)
    requires GoodDecls(ds)
  {
    && Laid(main, follow, None) && |Code(main)| <= LIMIT && At(f, 0, DeclsBytes(ds) + Code(main))
    && (follow.Some? ==> Get(f, |DeclsBytes(ds) + Code(main)|) == follow.value)
  }

  lemma HoldsPlaced(w: World, f: Bytes, ds: seq<Decl>, main: Cmd, follow: Option<Byte>)
    requires GoodDecls(ds) && Holds(f, ds, main, follow) && w.file == f
    ensures At(f, 0, DeclsBytes(ds)) && Placed(w, main, |DeclsBytes(ds)|, follow, None)
    ensures |DeclsBytes(ds) + Code(main)| == |DeclsBytes(ds)| + |Code(main)|
  {
    hide At, Laid, Code, DeclsBytes;
    AtSplit(f, 0, DeclsBytes(ds), Code(main));
  }

  /** A file of declarations and a main part on maps, run from its first byte with any scopes and stack. */
  lemma ProgramOnMaps(f: Bytes, self: string, ds: seq<Decl>, main: Cmd, follow: Option<Byte>, st: St, fuel: nat)
    requires GoodDecls(ds) && Clean(st.scopes) && Holds(f, ds, main, follow)
    ensures var w := WorldOf(f, self, ds);
      Loaded(w) && Behaves(w, State(0, st.stack, st.scopes, map[], false), |DeclsBytes(ds) + Code(main)|,
                           Exec(main, w.env, st, fuel), fuel)
  {
    hide *;
    var none := World(f, self, map[], map[]);
    var s := State(0, st.stack, st.scopes, map[], false);
    var procs, n := ProcsOf(ds, 0, map[]), |DeclsBytes(ds)|;
    var w := WorldOf(f, self, ds);
    WorldIs(f, self, ds);
    HoldsPlaced(w, f, ds, main, follow);
    NothingLoaded(f, self);
    DeclareAll(none, ds, s);
    StructureOnMaps(w, main, n, st, follow, fuel);
    BehavesVia(w, s, State(n, st.stack, st.scopes, procs, false), n + |Code(main)|, Exec(main, w.env, st, fuel), fuel);
  }

  lemma WorldIs(f: Bytes, self: string, ds: seq<Decl>)
    requires GoodDecls(ds)
    ensures WorldOf(f, self, ds) == World(f, self, EnvOf(ds, map[]), ProcsOf(ds, 0, map[]))
  {
  }

  // ----- what a call leaves behind -----

  /** Every name the program stores to is in the set. */
  predicate PutsWithin(c: Cmd, names: set<string>) {
    match c
    case Then(a, b) => PutsWithin(a, names) && PutsWithin(b, names)
    case When(a) => PutsWithin(a, names)
    case Choice(a, b) => PutsWithin(a, names) && PutsWithin(b, names)
    case Loop(a, b) => PutsWithin(a, names) && PutsWithin(b, names)
    case Block(a) => PutsWithin(a, names)
    case Behaviour(a) => PutsWithin(a, names)
    case Basic(i) => i.Put? ==> Key(i.name) in names
    case _ => true
  }

  ghost predicate Disciplined(env: Procs, names: set<string>) {
    forall key | key in env ::
      PutsWithin(env[key].body, names) && Laid(env[key].body, Some(BLOCKEND), Some(0))
  }

  /** From level k on, the same names are declared, and those not in the set have the same values. */
  ghost predicate Kept(s: S.Scopes<Cell>, t: S.Scopes<Cell>, from: nat, names: set<string>) {
    && |t| == |s|
    && forall k | from <= k < |s| :: KeptLevel(s[k], t[k], names)
  }

  ghost predicate KeptLevel(a: S.Level<Cell>, b: S.Level<Cell>, names: set<string>) {
    a.Keys == b.Keys && forall x | x in a && x !in names :: b[x] == a[x]
  }

  lemma KeptTrans(s: S.Scopes<Cell>, t: S.Scopes<Cell>, u: S.Scopes<Cell>, from: nat, names: set<string>)
    requires Kept(s, t, from, names) && Kept(t, u, from, names)
    ensures Kept(s, u, from, names)
  {
    forall k | from <= k < |s| ensures KeptLevel(s[k], u[k], names) {
      assert KeptLevel(s[k], t[k], names) && KeptLevel(t[k], u[k], names);
    }
  }

  lemma KeptTail(s: S.Scopes<Cell>, t: S.Scopes<Cell>, names: set<string>)
    requires Kept(s, t, 1, names) && s != []
    ensures Kept(s[1..], t[1..], 0, names)
  {
    forall k | 0 <= k < |s| - 1 ensures KeptLevel(s[1..][k], t[1..][k], names) {
      assert KeptLevel(s[k + 1], t[k + 1], names);
    }
  }

  lemma PrimKeeps(i: Prim, st: St, names: set<string>)
    requires i.Put? ==> Key(i.name) in names
    ensures DoBasic(i, st).Done? ==> Kept(st.scopes, DoBasic(i, st).st.scopes, 1, names)
  {
    hide Literal, Combine;
  }

  /** What running a program may do to the scopes around it. */
  ghost predicate Keeps(s: S.Scopes<Cell>, depth: Option<nat>, m: Meaning, names: set<string>) {
    && (m.Done? ==> Kept(s, m.st.scopes, 1, names))
    && (m.Left? ==> depth == Some(0) && s != [] && Kept(s[1..], m.st.scopes, 0, names))
  }

  lemma KeepsOn(s: S.Scopes<Cell>, t: S.Scopes<Cell>, depth: Option<nat>, m: Meaning, names: set<string>)
    requires Kept(s, t, 1, names) && Keeps(t, depth, m, names)
    ensures Keeps(s, depth, m, names)
  {
    hide KeptLevel;
    if m.Done? { KeptTrans(s, t, m.st.scopes, 1, names); }
    if m.Left? {
      KeptTail(s, t, names);
      KeptTrans(s[1..], t[1..], m.st.scopes, 0, names);
    }
  }

  lemma KeptSelf(s: S.Scopes<Cell>, from: nat, names: set<string>)
    ensures Kept(s, s, from, names)
  {
  }

  lemma KeptPushed(s: S.Scopes<Cell>, level: S.Level<Cell>, t: S.Scopes<Cell>, names: set<string>)
    requires Kept([level] + s, t, 1, names)
    ensures t != [] && Kept(s, t[1..], 0, names) && Kept(s, t[1..], 1, names)
  {
    KeptTail([level] + s, t, names);
    assert ([level] + s)[1..] == s;
  }

  lemma KeptLength(s: S.Scopes<Cell>, t: S.Scopes<Cell>, from: nat, names: set<string>)
    requires Kept(s, t, from, names)
    ensures |t| == |s|
  {
  }

  lemma KeepsNothing(s: S.Scopes<Cell>, depth: Option<nat>, m: Meaning, names: set<string>)
    requires !m.Done? && !m.Left?
    ensures Keeps(s, depth, m, names)
  {
  }

  lemma KeepsDecided(st: St, depth: Option<nat>, names: set<string>)
    ensures Keeps(st.scopes, depth, Done(Decided(st)), names)
    ensures Decided(st).scopes == st.scopes
  {
    KeptSelf(st.scopes, 1, names);
  }

  lemma KeepsBasic(i: Prim, st: St, depth: Option<nat>, names: set<string>)
    requires i.Put? ==> Key(i.name) in names
    ensures Keeps(st.scopes, depth, DoBasic(i, st), names)
  {
    PrimKeeps(i, st, names);
  }

  lemma KeepsLeave(st: St, depth: Option<nat>, names: set<string>)
    requires st.scopes != []
    ensures Keeps(st.scopes, Some(0), Left(Popped(st)), names)
  {
    KeptSelf(st.scopes[1..], 0, names);
  }

  /** A block keeps every level outside it. */
  lemma KeepsBlock(st: St, depth: Option<nat>, m: Meaning, names: set<string>)
    requires Keeps([map[]] + st.scopes, Deeper(depth), m, names)
    ensures Keeps(st.scopes, depth, if m.Done? then Done(Popped(m.st)) else m, names)
  {
    if m.Done? { KeptPushed(st.scopes, map[], m.st.scopes, names); }
  }

  /** A call keeps every level of its caller. */
  lemma KeepsCall(proc: Proc, st: St, m: Meaning, names: set<string>)
    requires Keeps(Entered(proc, st).scopes, Some(0), m, names)
    ensures Resumed(m).Done? ==>
        Kept(st.scopes, Resumed(m).st.scopes, 0, names) && Kept(st.scopes, Resumed(m).st.scopes, 1, names)
    ensures !Resumed(m).Left?
  {
    var frame := Frame(proc.params, Args(st.stack, |proc.params|));
    if m.Done? { KeptPushed(st.scopes, frame, m.st.scopes, names); }
    if m.Left? { assert ([frame] + st.scopes)[1..] == st.scopes; }
  }

  lemma EnvAt(env: Procs, names: set<string>, key: string)
    requires Disciplined(env, names) && key in env
    ensures PutsWithin(env[key].body, names) && Laid(env[key].body, Some(BLOCKEND), Some(0))
  {
  }

  /** Below its own top level a program declares nothing, and changes only names it stores to. */
  lemma {:induction false} ExecKeeps(c: Cmd, env: Procs, st: St, fuel: nat, follow: Option<Byte>, depth: Option<nat>,
                                     names: set<string>)
    requires Disciplined(env, names) && PutsWithin(c, names) && Laid(c, follow, depth)
    requires (depth.Some? ==> st.scopes != [])
    ensures Keeps(st.scopes, depth, Exec(c, env, st, fuel), names)
    decreases fuel, c, 1
  {
    hide Kept, Keeps, Exec, Code, Key, PlainPrim, FirstByte, Disciplined, Decides, Decision, Decided, Entered;
    match c
    case Nop => ExecNop(env, st, fuel); KeepsDone(st.scopes, depth, st, names);
    case Then(a, b) =>
      ExecThen(c, env, st, fuel);
      ExecKeeps(a, env, st, fuel, FirstByte(b, follow), depth, names);
      var m := Exec(a, env, st, fuel);
      if m.Done? {
        KeepsLength(st.scopes, depth, m, names);
        ExecKeeps(b, env, m.st, fuel, follow, depth, names);
        KeepsOn2(st.scopes, m, depth, Exec(b, env, m.st, fuel), names);
      }
    case Basic(i) => ExecBasic(i, env, st, fuel); KeepsBasic(i, st, depth, names);
    case When(a) =>
      ExecWhen(c, env, st, fuel);
      KeepsDecided(st, depth, names);
      if !Decides(st) { KeepsNothing(st.scopes, depth, Wrong, names); }
      else if Decision(st) { ExecKeeps(a, env, Decided(st), fuel, follow, depth, names); }
    case Choice(a, b) =>
      ExecChoice(c, env, st, fuel);
      KeepsDecided(st, depth, names);
      if !Decides(st) { KeepsNothing(st.scopes, depth, Wrong, names); }
      else if Decision(st) { ExecKeeps(a, env, Decided(st), fuel, Some(ELSE), depth, names); }
      else { ExecKeeps(b, env, Decided(st), fuel, follow, depth, names); }
    case Loop(a, b) => LoopKeeps(c, env, st, fuel, follow, depth, names);
    case Block(a) =>
      ExecBlock(c, env, st, fuel);
      ExecKeeps(a, env, Opened(st, map[]), fuel, Some(EXITSCOPE), Deeper(depth), names);
      KeepsBlock(st, depth, Exec(a, env, Opened(st, map[]), fuel), names);
    case Invoke(name) =>
      ExecInvoke(c, env, st, fuel);
      if Key(name) in env && fuel > 0 && !Clashing(env[Key(name)].params, Args(st.stack, |env[Key(name)].params|)) {
        var proc := env[Key(name)];
        EnvAt(env, names, Key(name));
        ExecKeeps(proc.body, env, Entered(proc, st), fuel - 1, Some(BLOCKEND), Some(0), names);
        KeepsCall(proc, st, Exec(proc.body, env, Entered(proc, st), fuel - 1), names);
        KeepsResumed(st.scopes, depth, Exec(c, env, st, fuel), names);
      } else {
        KeepsNothing(st.scopes, depth, Exec(c, env, st, fuel), names);
      }
    case Leave => ExecLeave(env, st, fuel); KeepsLeave(st, depth, names);
    case Behaviour(a) =>
      ExecBehaviour(c, env, st, fuel);
      ExecKeeps(a, env, st, fuel, Some(BEHAVIOUR_JUMP), depth, names);
      var m := Exec(a, env, st, fuel);
      var all := Exec(c, env, st, fuel);
      if m.Done? {
        KeepsLength(st.scopes, depth, m, names);
        if fuel > 0 { ExecKeeps(c, env, m.st, fuel - 1, follow, depth, names); }
        else { KeepsNothing(m.st.scopes, depth, all, names); }
        KeepsOn2(st.scopes, m, depth, all, names);
      }
    case Halt => ExecHalt(env, st, fuel); KeepsNothing(st.scopes, depth, Halted(st), names);
  }

  lemma ExecHalt(env: Procs, st: St, fuel: nat)
    ensures Exec(Halt, env, st, fuel) == Halted(st)
  {
  }

  lemma ExecNop(env: Procs, st: St, fuel: nat)
    ensures Exec(Nop, env, st, fuel) == Done(st)
  {
  }

  lemma ExecBasic(i: Prim, env: Procs, st: St, fuel: nat)
    ensures Exec(Basic(i), env, st, fuel) == DoBasic(i, st)
  {
    hide DoBasic;
  }

  lemma ExecLeave(env: Procs, st: St, fuel: nat)
    ensures Exec(Leave, env, st, fuel) == Left(Popped(st))
  {
  }

  lemma KeepsDone(s: S.Scopes<Cell>, depth: Option<nat>, st: St, names: set<string>)
    requires st.scopes == s
    ensures Keeps(s, depth, Done(st), names)
  {
    KeptSelf(s, 1, names);
  }

  lemma KeepsLength(s: S.Scopes<Cell>, depth: Option<nat>, m: Meaning, names: set<string>)
    requires Keeps(s, depth, m, names) && m.Done?
    ensures |m.st.scopes| == |s|
  {
  }

  lemma KeepsOn2(s: S.Scopes<Cell>, m: Meaning, depth: Option<nat>, n: Meaning, names: set<string>)
    requires m.Done? && Keeps(s, depth, m, names) && Keeps(m.st.scopes, depth, n, names)
    ensures Keeps(s, depth, n, names)
  {
    KeepsOn(s, m.st.scopes, depth, n, names);
  }

  lemma KeepsResumed(s: S.Scopes<Cell>, depth: Option<nat>, m: Meaning, names: set<string>)
    requires !m.Left? && (m.Done? ==> Kept(s, m.st.scopes, 1, names))
    ensures Keeps(s, depth, m, names)
  {
  }

  lemma {:induction false} LoopKeeps(c: Cmd, env: Procs, st: St, fuel: nat, follow: Option<Byte>, depth: Option<nat>,
                                     names: set<string>)
    requires Disciplined(env, names) && PutsWithin(c, names) && Laid(c, follow, depth)
    requires (depth.Some? ==> st.scopes != []) && c.Loop?
    ensures Keeps(st.scopes, depth, Exec(c, env, st, fuel), names)
    decreases fuel, c, 0
  {
    hide Kept, Keeps, Exec, Code, Key, PlainPrim, FirstByte, Disciplined, Decides, Decision, Decided, Turned;
    ExecLoop(c, env, st, fuel);
    ExecKeeps(c.cond, env, st, fuel, Some(IF), depth, names);
    var m := Exec(c.cond, env, st, fuel);
    if m.Done? {
      KeepsLength(st.scopes, depth, m, names);
      TurnedIs(c, env, m.st, fuel);
      KeepsDecided(m.st, depth, names);
      var all := Exec(c, env, st, fuel);
      if !Decides(m.st) {
        KeepsNothing(m.st.scopes, depth, all, names);
      } else if Decision(m.st) {
        var n := Exec(c.body, env, Decided(m.st), fuel);
        ExecKeeps(c.body, env, Decided(m.st), fuel, Some(JUMP), depth, names);
        if n.Done? {
          KeepsLength(m.st.scopes, depth, n, names);
          if fuel > 0 { ExecKeeps(c, env, n.st, fuel - 1, follow, depth, names); }
          else { KeepsNothing(n.st.scopes, depth, all, names); }
          KeepsOn2(m.st.scopes, n, depth, all, names);
        }
      }
      KeepsOn2(st.scopes, m, depth, all, names);
    }
  }

  /** A call that is done has kept every level of its caller. */
  lemma CallKeeps(env: Procs, name: Bytes, st: St, names: set<string>, fuel: nat)
    requires Disciplined(env, names) && Exec(Invoke(name), env, st, fuel).Done?
    ensures Kept(st.scopes, Exec(Invoke(name), env, st, fuel).st.scopes, 0, names)
  {
    hide *;
    var key := Key(name);
    ExecInvoke(Invoke(name), env, st, fuel);
    var proc := env[key];
    EnvAt(env, names, key);
    ExecKeeps(proc.body, env, Entered(proc, st), fuel - 1, Some(BLOCKEND), Some(0), names);
    KeepsCall(proc, st, Exec(proc.body, env, Entered(proc, st), fuel - 1), names);
  }

  /** A RETURN from k > 0 scopes inside its procedure goes to the right byte but leaves the frame on the scope
      stack; it restores the caller's scopes exactly when the frame is the top level. */
  lemma ReturnOnMaps(s: State, frame: nat)
    requires S.Load(s.scopes, RETURN_SOURCE) == None && frame < |s.scopes|
    requires S.Holder(s.scopes, RETURN_ADDRESS) == frame && s.scopes[frame][RETURN_ADDRESS].value.Address?
    ensures Returned(s).Next? && Returned(s).state.pos == s.scopes[frame][RETURN_ADDRESS].value.pos
    ensures Returned(s).state.scopes == s.scopes[frame + 1..] <==> frame == 0
    ensures frame > 0 ==> Returned(s).state.scopes == s.scopes[frame..]
  {
    S.ReturnDropsFrame(s.scopes, RETURN_ADDRESS);
  }
}
