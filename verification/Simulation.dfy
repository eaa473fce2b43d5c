/**
 The byte machine runs a laid-out structured program as the program means: same stack, same scopes, and
 both arms of every conditional, every loop and every call end at the byte after the program.
 */
module Simulation {
  import opened Wrappers
  import opened ListMaps
  import S = Scoping
  import C = ScopeChains
  import opened Decoding
  import opened Bytecode
  import opened Machines
  import opened Structured

  /** Distances are 4-byte signed integers. */
  const LIMIT: nat := 0x7FFF_FF00

  datatype World = World(file: Bytes, self: string, env: Procs, procs: map<string, Procedure>)

  function Conc(w: World, p: nat, st: St, addresses: seq<Option<nat>>): State
    requires |addresses| == |st.scopes|
  {
    State(p, st.stack, Embed(st.scopes, addresses), w.procs, false)
  }

  /** The innermost frame is at this depth of block nesting; None when no procedure is being run. */
  ghost predicate Framed(addresses: seq<Option<nat>>, depth: Option<nat>) {
    depth.Some? ==>
      && depth.value < |addresses| && addresses[depth.value].Some?
      && forall k | 0 <= k < depth.value :: addresses[k].None?
  }

  /** The procedure is declared, and its body stands at its position, closed by BLOCKEND. */
  ghost predicate Installed(w: World, key: string)
    requires key in w.env
  {
    var proc := w.env[key];
    && key in w.procs && w.procs[key].names == Flipped(proc.params)
    && At(w.file, w.procs[key].position, Code(proc.body) + [BLOCKEND]) && |Code(proc.body)| <= LIMIT
    && Laid(proc.body, Some(BLOCKEND), Some(0))
    && RETURN_ADDRESS !in proc.params && RETURN_SOURCE !in proc.params
  }

  ghost predicate Loaded(w: World) {
    w.env.Keys == w.procs.Keys && forall key | key in w.env :: Installed(w, key)
  }

  /** The program stands at p, followed by the given byte, in a layout that runs as it reads. */
  ghost predicate Placed(w: World, c: Cmd, p: nat, follow: Option<Byte>, depth: Option<nat>) {
    && At(w.file, p, Code(c)) && |Code(c)| <= LIMIT && Laid(c, follow, depth)
    && (follow.Some? ==> Get(w.file, p + |Code(c)|) == follow.value)
  }

  /** The scopes hold no reserved name, and the innermost frame is where depth says. */
  ghost predicate Fits(st: St, addresses: seq<Option<nat>>, depth: Option<nat>)
    ensures Fits(st, addresses, depth) ==> |addresses| == |st.scopes|
  {
    Framed(addresses, depth) && Clean(st.scopes) && |addresses| == |st.scopes|
  }

  /** The machine stops with this outcome. */
  ghost predicate Halts(w: World, s: State, o: Outcome) {
    exists n: nat :: Steps(w.file, w.self, s, n) == o
  }

  /** At least one turn leads from s to t. */
  ghost predicate Advances(w: World, s: State, t: State) {
    exists n: nat :: n > 0 && Steps(w.file, w.self, s, n) == Next(t)
  }

  /** The machine is still going after k turns. */
  ghost predicate Lasts(w: World, s: State, k: nat) {
    Steps(w.file, w.self, s, k).Next?
  }

  /** What the machine does, for each meaning of the program it started on. */
  ghost predicate Arrives(w: World, s: State, addresses: seq<Option<nat>>, depth: Option<nat>, end: nat, m: Meaning,
                          fuel: nat) {
    match m
    case Done(t) => Fits(t, addresses, depth) && Reaches(w.file, w.self, s, Conc(w, end, t, addresses))
    case Left(t) =>
      && depth == Some(0) && |addresses| > 0 && addresses[0].Some?
      && Fits(t, addresses[1..], None)
      && Reaches(w.file, w.self, s, Conc(w, addresses[0].value, t, addresses[1..]))
    case Halted(t) => StopsIn(w, s, t)
    case Wrong => Halts(w, s, Exits)
    case Open => Halts(w, s, Beyond)
    case Clash => Halts(w, s, Doubles)
    case Unfinished => Lasts(w, s, fuel)
  }

  /** The machine comes to a STOP with this stack and these scopes, some of them frames of procedures. */
  ghost predicate StopsIn(w: World, s: State, t: St) {
    exists q: nat, under: seq<Option<nat>> :: |under| == |t.scopes| && StopsAt(w, s, t, q, under)
  }

  ghost predicate StopsAt(w: World, s: State, t: St, q: nat, under: seq<Option<nat>>)
    requires |under| == |t.scopes|
  {
    Reaches(w.file, w.self, s, State(q, t.stack, Embed(t.scopes, under), w.procs, true))
  }

  lemma StopsVia(w: World, s: State, u: State, t: St)
    requires Reaches(w.file, w.self, s, u) && StopsIn(w, u, t)
    ensures StopsIn(w, s, t)
  {
    hide Reaches, Embed;
    var q: nat, under: seq<Option<nat>> :| |under| == |t.scopes| && StopsAt(w, u, t, q, under);
    ReachesTrans(w.file, w.self, s, u, State(q, t.stack, Embed(t.scopes, under), w.procs, true));
    assert StopsAt(w, s, t, q, under);
  }

  lemma {:induction false} StepsPrefix(f: Bytes, self: string, s: State, n: nat, m: nat)
    requires Steps(f, self, s, n + m).Next?
    ensures Steps(f, self, s, n).Next?
    decreases n
  {
    hide Step;
    if n > 0 { StepsPrefix(f, self, Step(f, self, s).state, n - 1, m); }
  }

  lemma AdvancesReaches(w: World, s: State, t: State)
    requires Advances(w, s, t)
    ensures Reaches(w.file, w.self, s, t)
  {
    hide Steps;
  }

  lemma AdvancesStep(w: World, s: State, t: State)
    requires Step(w.file, w.self, s) == Next(t)
    ensures Advances(w, s, t) && Reaches(w.file, w.self, s, t)
  {
    hide Step;
    assert Steps(w.file, w.self, s, 1) == Next(t) by { assert Steps(w.file, w.self, t, 0) == Next(t); }
  }

  lemma AdvancesOn(w: World, s: State, t: State, u: State)
    requires Advances(w, s, t) && Reaches(w.file, w.self, t, u)
    ensures Advances(w, s, u)
  {
    hide Steps;
    var n: nat :| n > 0 && Steps(w.file, w.self, s, n) == Next(t);
    var m: nat :| Steps(w.file, w.self, t, m) == Next(u);
    StepsAdd(w.file, w.self, s, n, t, m);
  }

  lemma HaltsStep(w: World, s: State, o: Outcome)
    requires Step(w.file, w.self, s) == o && !o.Next?
    ensures Halts(w, s, o)
  {
    hide Step;
    assert Steps(w.file, w.self, s, 1) == o;
  }

  lemma HaltsVia(w: World, s: State, t: State, o: Outcome)
    requires Reaches(w.file, w.self, s, t) && Halts(w, t, o)
    ensures Halts(w, s, o)
  {
    hide Steps;
    var n: nat :| Steps(w.file, w.self, s, n) == Next(t);
    var m: nat :| Steps(w.file, w.self, t, m) == o;
    StepsAdd(w.file, w.self, s, n, t, m);
  }

  lemma LastsVia(w: World, s: State, t: State, k: nat)
    requires Reaches(w.file, w.self, s, t) && Lasts(w, t, k)
    ensures Lasts(w, s, k)
  {
    hide Steps;
    var n: nat :| Steps(w.file, w.self, s, n) == Next(t);
    StepsAdd(w.file, w.self, s, n, t, k);
    StepsPrefix(w.file, w.self, s, k, n);
  }

  lemma LastsMore(w: World, s: State, t: State, k: nat)
    requires Advances(w, s, t) && Lasts(w, t, k)
    ensures Lasts(w, s, k + 1)
  {
    hide Steps;
    var n: nat :| n > 0 && Steps(w.file, w.self, s, n) == Next(t);
    StepsAdd(w.file, w.self, s, n, t, k);
    StepsPrefix(w.file, w.self, s, k + 1, n - 1);
  }

  lemma LastsNone(w: World, s: State)
    ensures Lasts(w, s, 0)
  {
  }

  lemma ArrivesVia(w: World, s: State, t: State, addresses: seq<Option<nat>>, depth: Option<nat>, end: nat,
                   m: Meaning, fuel: nat)
    requires Reaches(w.file, w.self, s, t) && Arrives(w, t, addresses, depth, end, m, fuel)
    ensures Arrives(w, s, addresses, depth, end, m, fuel)
  {
    hide Reaches, Fits, Embed, Halts, Lasts, StopsIn;
    match m
    case Done(u) => ReachesTrans(w.file, w.self, s, t, Conc(w, end, u, addresses));
    case Left(u) => ReachesTrans(w.file, w.self, s, t, Conc(w, addresses[0].value, u, addresses[1..]));
    case Halted(u) => StopsVia(w, s, t, u);
    case Wrong => HaltsVia(w, s, t, Exits);
    case Open => HaltsVia(w, s, t, Beyond);
    case Clash => HaltsVia(w, s, t, Doubles);
    case Unfinished => LastsVia(w, s, t, fuel);
  }

  /** A turn taken before a program buys it a unit of fuel. */
  lemma ArrivesFurther(w: World, s: State, t: State, addresses: seq<Option<nat>>, depth: Option<nat>, end: nat,
                       m: Meaning, fuel: nat)
    requires fuel > 0 && Advances(w, s, t) && Arrives(w, t, addresses, depth, end, m, fuel - 1)
    ensures Arrives(w, s, addresses, depth, end, m, fuel)
  {
    hide *;
    AdvancesReaches(w, s, t);
    ArrivesVia(w, s, t, addresses, depth, end, m, fuel - 1);
    if m.Unfinished? {
      ArrivesLasts(w, t, addresses, depth, end, fuel - 1);
      LastsMore(w, s, t, fuel - 1);
      ArrivesLasts(w, s, addresses, depth, end, fuel);
    } else {
      ArrivesFuel(w, s, addresses, depth, end, m, fuel - 1, fuel);
    }
  }

  lemma ArrivesLasts(w: World, s: State, addresses: seq<Option<nat>>, depth: Option<nat>, end: nat, fuel: nat)
    ensures Arrives(w, s, addresses, depth, end, Unfinished, fuel) <==> Lasts(w, s, fuel)
  {
  }

  lemma ArrivesFuel(w: World, s: State, addresses: seq<Option<nat>>, depth: Option<nat>, end: nat, m: Meaning,
                    fuel: nat, more: nat)
    requires Arrives(w, s, addresses, depth, end, m, fuel) && !m.Unfinished?
    ensures Arrives(w, s, addresses, depth, end, m, more)
  {
  }

  lemma ArrivesStop(w: World, s: State, addresses: seq<Option<nat>>, depth: Option<nat>, end: nat, m: Meaning,
                    fuel: nat)
    requires match m
      case Wrong => Halts(w, s, Exits)
      case Open => Halts(w, s, Beyond)
      case Clash => Halts(w, s, Doubles)
      case _ => false
    ensures Arrives(w, s, addresses, depth, end, m, fuel)
  {
  }

  lemma Arrived(w: World, s: State, addresses: seq<Option<nat>>, depth: Option<nat>, end: nat, m: Meaning, fuel: nat)
    requires Arrives(w, s, addresses, depth, end, m, fuel)
    ensures m.Done? ==> Fits(m.st, addresses, depth) && Reaches(w.file, w.self, s, Conc(w, end, m.st, addresses))
    ensures m.Left? ==>
      && depth == Some(0) && |addresses| > 0 && addresses[0].Some? && Fits(m.st, addresses[1..], None)
      && Reaches(w.file, w.self, s, Conc(w, addresses[0].value, m.st, addresses[1..]))
  {
  }

  /** One more stretch after a program that was done. */
  lemma ArrivesOn(w: World, s: State, addresses: seq<Option<nat>>, depth: Option<nat>, mid: nat, end: nat,
                  m: Meaning, fuel: nat)
    requires Arrives(w, s, addresses, depth, mid, m, fuel)
    requires m.Done? && |addresses| == |m.st.scopes| ==>
        Reaches(w.file, w.self, Conc(w, mid, m.st, addresses), Conc(w, end, m.st, addresses))
    ensures Arrives(w, s, addresses, depth, end, m, fuel)
  {
    hide Reaches, Fits, Embed, Halts, Lasts;
    if m.Done? { ReachesTrans(w.file, w.self, s, Conc(w, mid, m.st, addresses), Conc(w, end, m.st, addresses)); }
  }

  // ----- operands -----

  lemma LiteralAt(f: Bytes, p: nat, d: Datum)
    requires ProperDatum(d) && At(f, p, DatumBytes(d))
    ensures ReadData(f, p) == Some((d, p + |DatumBytes(d)|))
  {
    hide At, Taken;
    match d
    case Fixed(kind, x) =>
      AtCons(f, p, kind, x);
      AtWithin(f, p + 1, x);
      TakenAt(f, p + 1, x);
    case Text(s) =>
      StringRoundTrip(f, p, s);
      assert StringBytes(s) == [TYPE_STRING] + (Encoded(s) + [NUL]);
      AtCons(f, p, TYPE_STRING, Encoded(s) + [NUL]);
  }

  lemma FarIs(op: Byte, n: nat)
    ensures Far(op, n) == [op] + DatumBytes(Fixed(TYPE_INTEGER, BigBytes(n, 4)))
    ensures ProperDatum(Fixed(TYPE_INTEGER, BigBytes(n, 4)))
    ensures |DatumBytes(Fixed(TYPE_INTEGER, BigBytes(n, 4)))| == 5
  {
    hide BigBytes;
  }

  lemma ReadDistanceIs(f: Bytes, p: nat, x: Bytes, q: nat)
    requires ReadData(f, p) == Some((Fixed(TYPE_INTEGER, x), q))
    ensures ReadDistance(f, p) == Some((Signed(BigEndian(x), 0x8000_0000), q))
  {
    hide ReadData, BigEndian, Signed;
  }

  lemma DistanceValue(n: nat)
    requires n <= 0x7FFF_FFFF
    ensures Signed(BigEndian(BigBytes(n, 4)), 0x8000_0000) == n
  {
    assert Power256(4) == 0x1_0000_0000;
    BigBytesValue(n, 4);
  }

  lemma DistanceAt(f: Bytes, p: nat, op: Byte, n: nat)
    requires n <= 0x7FFF_FFFF && At(f, p, Far(op, n))
    ensures p < |f| && f[p] == op && ReadDistance(f, p + 1) == Some((n, p + 6)) && PassData(f, p + 1) == Some(p + 6)
  {
    hide *;
    var x := BigBytes(n, 4);
    FarIs(op, n);
    AtCons(f, p, op, DatumBytes(Fixed(TYPE_INTEGER, x)));
    LiteralAt(f, p + 1, Fixed(TYPE_INTEGER, x));
    ReadDistanceIs(f, p + 1, x, p + 6);
    PassDataAt(f, p + 1, Fixed(TYPE_INTEGER, x));
    DistanceValue(n);
  }

  lemma NamedAt(f: Bytes, p: nat, op: Byte, name: Bytes)
    requires NUL !in name && At(f, p, [op] + StringBytes(name))
    ensures p < |f| && f[p] == op && ReadString(f, p + 1) == Some((name, p + 1 + |StringBytes(name)|))
  {
    hide At, StringBytes, ReadString;
    AtCons(f, p, op, StringBytes(name));
    StringRoundTrip(f, p + 1, name);
  }

  lemma DeclareAt(f: Bytes, p: nat, name: Bytes, kind: Byte)
    requires NUL !in name && At(f, p, [DECLARE] + StringBytes(name) + [kind])
    ensures var q := p + 1 + |StringBytes(name)|;
      p < |f| && f[p] == DECLARE && ReadString(f, p + 1) == Some((name, q)) && q < |f| && f[q] == kind
  {
    hide At, StringBytes, ReadString;
    AtSplit(f, p, [DECLARE] + StringBytes(name), [kind]);
    NamedAt(f, p, DECLARE, name);
    AtByte(f, p + 1 + |StringBytes(name)|, kind);
  }

  lemma PrimAt(f: Bytes, p: nat, i: Prim)
    requires PlainPrim(i) && At(f, p, PrimBytes(i))
    ensures p < |f| && f[p] == PrimBytes(i)[0] && IsPrim(f[p])
    ensures ReadPrim(f, p + 1, f[p]) == Some((i, p + |PrimBytes(i)|))
  {
    hide At, StringBytes, DatumBytes, ReadData, ReadString;
    match i
    case Lit(d) =>
      AtCons(f, p, PUSH, DatumBytes(d));
      LiteralAt(f, p + 1, d);
    case Decl(name, kind) => DeclareAt(f, p, name, kind);
    case Fetch(name) => NamedAt(f, p, LOAD, name);
    case Put(name) => NamedAt(f, p, STORE, name);
    case Op(op) => AtByte(f, p, op);
  }

  // ----- false branches -----

  /** A false IF without ELSE lands on the byte its distance names if and only if that byte exists and is not
      ELSE. */
  lemma IfFalseLands(f: Bytes, q: nat, n: nat)
    requires q > 0
    ensures IfFalse(f, q, n) == Some(q + n) <==> q + n < |f| && f[q + n] != ELSE
  {
  }

  lemma IfFalseElse(f: Bytes, q: nat, n: nat, m: nat)
    requires m <= 0x7FFF_FFFF && At(f, q + n, Far(ELSE, m))
    ensures IfFalse(f, q, n) == Some(q + n + 6)
  {
    DistanceAt(f, q + n, ELSE, m);
  }

  // ----- single steps -----

  lemma BasicRuns(w: World, i: Prim, p: nat, st: St, addresses: seq<Option<nat>>, depth: Option<nat>, fuel: nat)
    requires PlainPrim(i) && At(w.file, p, PrimBytes(i)) && Fits(st, addresses, depth)
    ensures Arrives(w, Conc(w, p, st, addresses), addresses, depth, p + |PrimBytes(i)|, DoBasic(i, st), fuel)
  {
    hide At, Clean, DoPrim, ReadPrim, Reaches, Embed, PrimBytes, Halts, Lasts;
    PrimAt(w.file, p, i);
    PrimEmbeds(i, st, addresses);
    var s, m := Conc(w, p, st, addresses), DoBasic(i, st);
    var q := p + |PrimBytes(i)|;
    assert Step(w.file, w.self, s) == Going(s, q, DoPrim(i, st.stack, Embed(st.scopes, addresses)));
    if m.Done? { ReachesStep(w.file, w.self, s, Conc(w, q, m.st, addresses)); }
    else { HaltsStep(w, s, Step(w.file, w.self, s)); }
  }

  /** A boolean is on top of the stack. */
  predicate Decides(st: St) {
    Top(st.stack).Some? && Top(st.stack).value.Truth?
  }

  function Decision(st: St): bool
    requires Decides(st)
  {
    Top(st.stack).value.b
  }

  function Decided(st: St): (t: St)
    ensures |t.scopes| == |st.scopes|
  {
    St(Pop(st.stack), st.scopes)
  }

  /** An IF step: the condition goes, and control goes on or to the target of the false branch. */
  lemma IfStep(w: World, p: nat, n: nat, st: St, addresses: seq<Option<nat>>, target: nat)
    requires n <= 0x7FFF_FFFF && At(w.file, p, Far(IF, n)) && |addresses| == |st.scopes|
    requires IfFalse(w.file, p + 6, n) == Some(target) && Decides(st)
    ensures var t := Conc(w, if Decision(st) then p + 6 else target, Decided(st), addresses);
      Advances(w, Conc(w, p, st, addresses), t) && Reaches(w.file, w.self, Conc(w, p, st, addresses), t)
  {
    hide At, Reaches, Advances, Embed, IfFalse, ReadDistance;
    DistanceAt(w.file, p, IF, n);
    var t := Conc(w, if Decision(st) then p + 6 else target, Decided(st), addresses);
    var s := Conc(w, p, st, addresses);
    assert Conditional(w.file, s, p + 1) == Some(t);
    AdvancesStep(w, s, t);
  }

  /** With anything but a boolean on the stack the component exits. */
  lemma IfWrong(w: World, p: nat, n: nat, st: St, addresses: seq<Option<nat>>, depth: Option<nat>, end: nat, fuel: nat)
    requires n <= 0x7FFF_FFFF && At(w.file, p, Far(IF, n)) && |addresses| == |st.scopes| && !Decides(st)
    ensures Arrives(w, Conc(w, p, st, addresses), addresses, depth, end, Wrong, fuel)
  {
    hide At, Embed, IfFalse, ReadDistance, Halts;
    DistanceAt(w.file, p, IF, n);
    var s := Conc(w, p, st, addresses);
    assert Conditional(w.file, s, p + 1) == None;
    HaltsStep(w, s, Exits);
  }

  lemma ElseStep(w: World, p: nat, n: nat, st: St, addresses: seq<Option<nat>>)
    requires n <= 0x7FFF_FFFF && At(w.file, p, Far(ELSE, n)) && |addresses| == |st.scopes|
    ensures Reaches(w.file, w.self, Conc(w, p, st, addresses), Conc(w, p + 6 + n, st, addresses))
  {
    hide At, Reaches, Embed, ReadDistance;
    DistanceAt(w.file, p, ELSE, n);
    assert Elsewhere(w.file, Conc(w, p, st, addresses), p + 1) == Some(Conc(w, p + 6 + n, st, addresses));
    ReachesStep(w.file, w.self, Conc(w, p, st, addresses), Conc(w, p + 6 + n, st, addresses));
  }

  lemma JumpStep(w: World, p: nat, n: nat, st: St, addresses: seq<Option<nat>>)
    requires 0 < n <= p + 7 && n <= 0x7FFF_FFFF && At(w.file, p, Far(JUMP, n)) && |addresses| == |st.scopes|
    ensures Reaches(w.file, w.self, Conc(w, p, st, addresses), Conc(w, p + 7 - n, st, addresses))
  {
    hide At, Reaches, Embed, ReadDistance;
    DistanceAt(w.file, p, JUMP, n);
    assert Jumped(w.file, p + 1) == Got(p + 7 - n);
    ReachesStep(w.file, w.self, Conc(w, p, st, addresses), Conc(w, p + 7 - n, st, addresses));
  }

  /** BEHAVIOUR_JUMP goes back just as JUMP does. */
  lemma BehaviourStep(w: World, p: nat, n: nat, st: St, addresses: seq<Option<nat>>)
    requires 0 < n <= p + 7 && n <= 0x7FFF_FFFF && At(w.file, p, Far(BEHAVIOUR_JUMP, n)) && |addresses| == |st.scopes|
    ensures Advances(w, Conc(w, p, st, addresses), Conc(w, p + 7 - n, st, addresses))
  {
    hide At, Reaches, Embed, ReadDistance, Advances;
    DistanceAt(w.file, p, BEHAVIOUR_JUMP, n);
    assert Jumped(w.file, p + 1) == Got(p + 7 - n);
    AdvancesStep(w, Conc(w, p, st, addresses), Conc(w, p + 7 - n, st, addresses));
  }

  /** STOP without a name. */
  lemma HaltStep(w: World, p: nat, st: St, addresses: seq<Option<nat>>)
    requires At(w.file, p, [STOP] + StringBytes([])) && |addresses| == |st.scopes|
    ensures StopsIn(w, Conc(w, p, st, addresses), st)
  {
    hide At, Reaches, Embed, StringBytes, ReadString;
    NamedAt(w.file, p, STOP, []);
    var q := p + 1 + |StringBytes([])|;
    var s, t := Conc(w, p, st, addresses), State(q, st.stack, Embed(st.scopes, addresses), w.procs, true);
    assert Step(w.file, w.self, s) == Next(t);
    ReachesStep(w.file, w.self, s, t);
    assert StopsAt(w, s, st, q, addresses);
  }

  lemma EmbedCons(level: S.Level<Cell>, address: Option<nat>, s: S.Scopes<Cell>, addresses: seq<Option<nat>>)
    requires |addresses| == |s|
    ensures |[level] + s| == |[address] + addresses|
    ensures Embed([level] + s, [address] + addresses) == [Marked(level, address)] + Embed(s, addresses)
  {
  }

  lemma EmbedTail(s: S.Scopes<Cell>, addresses: seq<Option<nat>>)
    requires |addresses| == |s| > 0
    ensures S.Exit(Embed(s, addresses)) == Embed(S.Exit(s), addresses[1..])
  {
  }

  lemma EnterStep(w: World, p: nat, st: St, addresses: seq<Option<nat>>)
    requires Get(w.file, p) == ENTERSCOPE && |addresses| == |st.scopes|
    ensures |[None] + addresses| == |Opened(st, map[]).scopes|
    ensures Reaches(w.file, w.self, Conc(w, p, st, addresses), Conc(w, p + 1, Opened(st, map[]), [None] + addresses))
  {
    hide Reaches, Embed;
    EmbedCons(map[], None, st.scopes, addresses);
    ReachesStep(w.file, w.self, Conc(w, p, st, addresses), Conc(w, p + 1, Opened(st, map[]), [None] + addresses));
  }

  lemma ExitStep(w: World, p: nat, st: St, addresses: seq<Option<nat>>)
    requires Get(w.file, p) == EXITSCOPE && |addresses| == |st.scopes| > 0
    ensures Reaches(w.file, w.self, Conc(w, p, st, addresses), Conc(w, p + 1, Popped(st), addresses[1..]))
  {
    hide Reaches, Embed;
    EmbedTail(st.scopes, addresses);
    ReachesStep(w.file, w.self, Conc(w, p, st, addresses), Conc(w, p + 1, Popped(st), addresses[1..]));
  }

  // ----- returning -----

  lemma CleanLoads(s: S.Scopes<Cell>, addresses: seq<Option<nat>>)
    requires |addresses| == |s| && Clean(s)
    ensures S.Load(Embed(s, addresses), RETURN_SOURCE) == None
  {
    EmbedLoad(s, addresses, RETURN_SOURCE);
  }

  lemma TopFrame(s: S.Scopes<Cell>, addresses: seq<Option<nat>>)
    requires |addresses| == |s| > 0 && addresses[0].Some?
    ensures S.Holder(Embed(s, addresses), RETURN_ADDRESS) == 0
    ensures S.Load(Embed(s, addresses), RETURN_ADDRESS) == Some(Address(addresses[0].value))
  {
  }

  /** A return at its own scope level: to the address recorded by the call, with the caller's scopes. */
  lemma ReturnStep(w: World, p: nat, st: St, addresses: seq<Option<nat>>)
    requires Get(w.file, p) == RETURN || Get(w.file, p) == BLOCKEND
    requires |addresses| == |st.scopes| > 0 && addresses[0].Some? && Clean(st.scopes)
    ensures Reaches(w.file, w.self, Conc(w, p, st, addresses), Conc(w, addresses[0].value, Popped(st), addresses[1..]))
  {
    hide Reaches, Embed, S.Holder, S.Load;
    CleanLoads(st.scopes, addresses);
    TopFrame(st.scopes, addresses);
    EmbedTail(st.scopes, addresses);
    var s := Conc(w, p, st, addresses);
    assert S.ExitTo(s.scopes, RETURN_ADDRESS) == s.scopes;
    ReachesStep(w.file, w.self, s, Conc(w, addresses[0].value, Popped(st), addresses[1..]));
  }

  // ----- calling -----

  lemma {:induction false} BoundAppend(x: seq<string>, y: seq<string>, stack: seq<Value>, scopes: S.Scopes<Cell>)
    ensures NamesBound(x + y, stack, scopes) ==
      match NamesBound(x, stack, scopes)
      case Got((s, t)) => NamesBound(y, s, t)
      case r => r
    decreases |x|
  {
    hide DeclareIn, S.Store;
    if x == [] {
      assert x + y == y;
    } else {
      assert (x + y)[1..] == x[1..] + y;
      var d := DeclareIn(scopes, x[0]);
      if d.Got? && S.Store(d.value, x[0], TopCell(stack)).Some? {
        BoundAppend(x[1..], y, Pop(stack), S.Store(d.value, x[0], TopCell(stack)).value);
      }
    }
  }

  lemma BoundOne(name: string, stack: seq<Value>, level: S.Level<Cell>, rest: S.Scopes<Cell>)
    ensures NamesBound([name], stack, [level] + rest) ==
      if C.Clashes([level], name) then Doubled
      else Got((Pop(stack), [level[name := TopCell(stack)]] + rest))
  {
    var s := [level] + rest;
    if !C.Clashes([level], name) {
      var d := S.Declare(s, name).value;
      assert DeclareIn(s, name) == Got(d);
      assert name in d[0];
      S.DeclarerIs(d, name, 0);
      var r := [level[name := TopCell(stack)]] + rest;
      assert d[0][name := TopCell(stack)] == r[0] && d[1..] == rest == r[1..];
      assert S.Store(d, name, TopCell(stack)).value == r;
      assert NamesBound([], Pop(stack), r).Got?;
    }
  }

  lemma {:induction false} FrameKeys(params: seq<string>, args: seq<Option<Cell>>, name: string)
    requires |params| == |args|
    ensures name in Frame(params, args) <==> name in params
  {
    if params != [] { FrameKeys(params[1..], args[1..], name); }
  }

  lemma ArgsTail(stack: seq<Value>, k: nat)
    requires k > 0
    ensures Args(stack, k)[1..] == Args(stack, k - 1)
    ensures TopCell(Below(stack, k - 1)) == Args(stack, k)[0] && Pop(Below(stack, k - 1)) == Below(stack, k)
  {
    assert Args(stack, k)[0] == Argument(stack, k, 0);
  }

  /** Names and arguments are both taken last first, so each parameter meets its own argument; only a parameter
      named again after it got null is entered twice. */
  lemma {:induction false} BoundFrame(params: seq<string>, stack: seq<Value>, level: S.Level<Cell>,
                                      rest: S.Scopes<Cell>)
    requires forall x | x in params :: x !in level
    ensures var args := Args(stack, |params|);
      NamesBound(Flipped(params), stack, [level] + rest) ==
      if Clashing(params, args) then Doubled
      else Got((Below(stack, |params|), [level + Frame(params, args)] + rest))
    decreases |params|
  {
    hide NamesBound, Args, Below, C.Clashes;
    var k := |params|;
    if params == [] {
      BoundNone(stack, [level] + rest);
      assert level + map[] == level;
    } else {
      ArgsTail(stack, k);
      BoundFrame(params[1..], stack, level, rest);
      var frame, args := Frame(params[1..], Args(stack, k - 1)), Args(stack, k);
      BoundAppend(Flipped(params[1..]), [params[0]], stack, [level] + rest);
      BoundOne(params[0], Below(stack, k - 1), level + frame, rest);
      ClashesApart(level, frame, params[0]);
      assert (level + frame)[params[0] := args[0]] == level + Frame(params, args);
    }
  }

  lemma BoundNone(stack: seq<Value>, scopes: S.Scopes<Cell>)
    ensures NamesBound(Flipped([]), stack, scopes) == Got((Below(stack, 0), scopes)) && Args(stack, 0) == []
  {
    assert stack[..|stack|] == stack;
  }

  lemma ClashesApart(level: S.Level<Cell>, frame: S.Level<Cell>, name: string)
    requires name !in level
    ensures C.Clashes([level + frame], name) <==> C.Clashes([frame], name)
  {
  }

  /** The program point, the stack and the scopes after a call's parameters are bound, or the clash. */
  lemma CallStep(w: World, p: nat, name: Bytes, st: St, addresses: seq<Option<nat>>)
    requires NUL !in name && At(w.file, p, [PROCCALL] + StringBytes(name)) && |addresses| == |st.scopes|
    requires Key(name) in w.env && Installed(w, Key(name))
    ensures var proc, back, s := w.env[Key(name)], p + 1 + |StringBytes(name)|, Conc(w, p, st, addresses);
      if Clashing(proc.params, Args(st.stack, |proc.params|)) then Halts(w, s, Doubles)
      else Advances(w, s, Conc(w, w.procs[Key(name)].position, Entered(proc, st), [Some(back)] + addresses))
  {
    hide At, StringBytes, Advances, Halts, Embed, NamesBound, Laid, Key, ReadString, Args, Clashing;
    var proc := w.env[Key(name)];
    var back, args := p + 1 + |StringBytes(name)|, Args(st.stack, |proc.params|);
    var frame := Frame(proc.params, args);
    NamedAt(w.file, p, PROCCALL, name);
    var mark: S.Level<Cell> := map[RETURN_ADDRESS := Some(Address(back))];
    BoundFrame(proc.params, st.stack, mark, Embed(st.scopes, addresses));
    FrameKeys(proc.params, args, RETURN_ADDRESS);
    assert mark + frame == Marked(frame, Some(back));
    EmbedCons(frame, Some(back), st.scopes, addresses);
    var s := Conc(w, p, st, addresses);
    CallIs(w.file, w.self, s, name, back);
    if Clashing(proc.params, args) {
      HaltsStep(w, s, Doubles);
    } else {
      AdvancesStep(w, s, Conc(w, w.procs[Key(name)].position, Entered(proc, st), [Some(back)] + addresses));
    }
  }

  lemma CallIs(f: Bytes, self: string, s: State, name: Bytes, back: nat)
    requires !s.stop && s.pos < |f| && f[s.pos] == PROCCALL && ReadString(f, s.pos + 1) == Some((name, back))
    ensures Step(f, self, s) ==
      if Key(name) !in s.procs then Beyond
      else Going(s, s.procs[Key(name)].position,
                 NamesBound(s.procs[Key(name)].names, s.stack, [map[RETURN_ADDRESS := Some(Address(back))]] + s.scopes))
  {
    hide NamesBound, Key, ReadString;
  }

  /** A procedure that is not in the file is beyond this model. */
  lemma CallUnknown(w: World, p: nat, name: Bytes, st: St, addresses: seq<Option<nat>>)
    requires NUL !in name && At(w.file, p, [PROCCALL] + StringBytes(name)) && |addresses| == |st.scopes|
    requires Key(name) !in w.procs
    ensures Halts(w, Conc(w, p, st, addresses), Beyond)
  {
    hide At, StringBytes, Halts, Embed, NamesBound, Key, ReadString;
    NamedAt(w.file, p, PROCCALL, name);
    var s := Conc(w, p, st, addresses);
    CallIs(w.file, w.self, s, name, p + 1 + |StringBytes(name)|);
    HaltsStep(w, s, Beyond);
  }

  // ----- the parts of a placed program -----

  lemma AtFirst(f: Bytes, p: nat, x: Bytes)
    requires At(f, p, x) && x != []
    ensures Get(f, p) == x[0]
  {
    assert x == [x[0]] + x[1..];
    AtCons(f, p, x[0], x[1..]);
  }

  lemma WhenPlaced(w: World, c: Cmd, p: nat, follow: Option<Byte>, depth: Option<nat>)
    requires Placed(w, c, p, follow, depth) && c.When?
    ensures |Code(c)| == 6 + |Code(c.yes)| && At(w.file, p, Far(IF, |Code(c.yes)|))
    ensures Placed(w, c.yes, p + 6, follow, depth)
    ensures IfFalse(w.file, p + 6, |Code(c.yes)|) == Some(p + |Code(c)|)
  {
    hide At;
    AtSplit(w.file, p, Far(IF, |Code(c.yes)|), Code(c.yes));
    IfFalseLands(w.file, p + 6, |Code(c.yes)|);
  }

  lemma FarLength(op: Byte, n: nat)
    ensures |Far(op, n)| == 6
  {
  }

  /** The definition of Placed, both ways. */
  lemma PlacedIs(w: World, c: Cmd, p: nat, follow: Option<Byte>, depth: Option<nat>)
    ensures Placed(w, c, p, follow, depth) <==>
      && At(w.file, p, Code(c)) && |Code(c)| <= 0x7FFF_FF00 && Laid(c, follow, depth)
      && (follow.Some? ==> Get(w.file, p + |Code(c)|) == follow.value)
  {
  }

  lemma ThenIs(c: Cmd, follow: Option<Byte>, depth: Option<nat>)
    requires c.Then?
    ensures Code(c) == Code(c.first) + Code(c.rest)
    ensures Laid(c, follow, depth) <==> Laid(c.first, FirstByte(c.rest, follow), depth) && Laid(c.rest, follow, depth)
    ensures FirstByte(c.rest, follow) == if Code(c.rest) == [] then follow else Some(Code(c.rest)[0])
  {
  }

  lemma ThenPlaced(w: World, c: Cmd, p: nat, follow: Option<Byte>, depth: Option<nat>)
    requires Placed(w, c, p, follow, depth) && c.Then?
    ensures |Code(c)| == |Code(c.first)| + |Code(c.rest)|
    ensures Placed(w, c.first, p, FirstByte(c.rest, follow), depth)
    ensures Placed(w, c.rest, p + |Code(c.first)|, follow, depth)
  {
    hide *;
    PlacedIs(w, c, p, follow, depth);
    ThenIs(c, follow, depth);
    AtSplit(w.file, p, Code(c.first), Code(c.rest));
    if Code(c.rest) != [] { AtFirst(w.file, p + |Code(c.first)|, Code(c.rest)); }
    PlacedIs(w, c.first, p, FirstByte(c.rest, follow), depth);
    PlacedIs(w, c.rest, p + |Code(c.first)|, follow, depth);
  }

  lemma ChoiceIs(c: Cmd, follow: Option<Byte>, depth: Option<nat>)
    requires c.Choice?
    ensures Code(c) == Far(IF, |Code(c.yes)|) + Code(c.yes) + (Far(ELSE, |Code(c.no)|) + Code(c.no))
    ensures Laid(c, follow, depth) <==> Laid(c.yes, Some(ELSE), depth) && Laid(c.no, follow, depth)
  {
  }

  lemma ChoiceParts(f: Bytes, p: nat, c: Cmd)
    requires c.Choice? && At(f, p, Code(c))
    ensures |Code(c)| == 12 + |Code(c.yes)| + |Code(c.no)|
    ensures At(f, p, Far(IF, |Code(c.yes)|)) && At(f, p + 6, Code(c.yes))
    ensures At(f, p + 6 + |Code(c.yes)|, Far(ELSE, |Code(c.no)|)) && At(f, p + 12 + |Code(c.yes)|, Code(c.no))
  {
    hide *;
    var n, k := |Code(c.yes)|, |Code(c.no)|;
    ChoiceIs(c, None, None);
    FarLength(IF, n);
    FarLength(ELSE, k);
    AtSplit(f, p, Far(IF, n) + Code(c.yes), Far(ELSE, k) + Code(c.no));
    AtSplit(f, p, Far(IF, n), Code(c.yes));
    AtSplit(f, p + 6 + n, Far(ELSE, k), Code(c.no));
  }

  lemma ChoicePlaced(w: World, c: Cmd, p: nat, follow: Option<Byte>, depth: Option<nat>)
    requires Placed(w, c, p, follow, depth) && c.Choice?
    ensures |Code(c)| == 12 + |Code(c.yes)| + |Code(c.no)|
    ensures At(w.file, p, Far(IF, |Code(c.yes)|)) && At(w.file, p + 6 + |Code(c.yes)|, Far(ELSE, |Code(c.no)|))
    ensures Placed(w, c.yes, p + 6, Some(ELSE), depth)
    ensures Placed(w, c.no, p + 12 + |Code(c.yes)|, follow, depth)
    ensures IfFalse(w.file, p + 6, |Code(c.yes)|) == Some(p + 12 + |Code(c.yes)|)
  {
    hide *;
    PlacedIs(w, c, p, follow, depth);
    ChoiceIs(c, follow, depth);
    ChoiceParts(w.file, p, c);
    DistanceAt(w.file, p + 6 + |Code(c.yes)|, ELSE, |Code(c.no)|);
    IfFalseElse(w.file, p + 6, |Code(c.yes)|, |Code(c.no)|);
    ByteThere(w.file, p + 6 + |Code(c.yes)|, Some(ELSE));
    PlacedIs(w, c.yes, p + 6, Some(ELSE), depth);
    PlacedIs(w, c.no, p + 12 + |Code(c.yes)|, follow, depth);
  }

  lemma LoopIs(c: Cmd, follow: Option<Byte>, depth: Option<nat>)
    requires c.Loop?
    ensures Laid(c, follow, depth) <==>
      && follow.Some? && follow != Some(ELSE) && Laid(c.cond, Some(IF), depth) && Laid(c.body, Some(JUMP), depth)
  {
    hide Code;
  }

  lemma LoopCode(c: Cmd)
    requires c.Loop?
    ensures Code(c) == Code(c.cond) + (Far(IF, |Code(c.body)| + 6) + Code(c.body) +
        Far(JUMP, |Code(c.cond)| + |Code(c.body)| + 13))
  {
    hide Far;
  }

  lemma LoopParts(f: Bytes, p: nat, c: Cmd)
    requires c.Loop? && At(f, p, Code(c))
    ensures |Code(c)| == 12 + |Code(c.cond)| + |Code(c.body)|
    ensures At(f, p, Code(c.cond)) && At(f, p + |Code(c.cond)|, Far(IF, |Code(c.body)| + 6))
    ensures At(f, p + |Code(c.cond)| + 6, Code(c.body))
    ensures At(f, p + |Code(c.cond)| + 6 + |Code(c.body)|, Far(JUMP, |Code(c.cond)| + |Code(c.body)| + 13))
  {
    hide *;
    var k, n := |Code(c.cond)|, |Code(c.body)|;
    LoopCode(c);
    FarLength(IF, n + 6);
    FarLength(JUMP, k + n + 13);
    AtSplit(f, p, Code(c.cond), Far(IF, n + 6) + Code(c.body) + Far(JUMP, k + n + 13));
    AtSplit(f, p + k, Far(IF, n + 6) + Code(c.body), Far(JUMP, k + n + 13));
    AtSplit(f, p + k, Far(IF, n + 6), Code(c.body));
  }

  lemma LoopPlaced(w: World, c: Cmd, p: nat, follow: Option<Byte>, depth: Option<nat>)
    requires Placed(w, c, p, follow, depth) && c.Loop?
    ensures |Code(c)| == 12 + |Code(c.cond)| + |Code(c.body)|
    ensures At(w.file, p + |Code(c.cond)|, Far(IF, |Code(c.body)| + 6))
    ensures At(w.file, p + |Code(c.cond)| + 6 + |Code(c.body)|, Far(JUMP, |Code(c.cond)| + |Code(c.body)| + 13))
    ensures Placed(w, c.cond, p, Some(IF), depth)
    ensures Placed(w, c.body, p + |Code(c.cond)| + 6, Some(JUMP), depth)
    ensures IfFalse(w.file, p + |Code(c.cond)| + 6, |Code(c.body)| + 6) == Some(p + |Code(c)|)
  {
    hide *;
    var k, n := |Code(c.cond)|, |Code(c.body)|;
    PlacedIs(w, c, p, follow, depth);
    LoopIs(c, follow, depth);
    LoopParts(w.file, p, c);
    DistanceAt(w.file, p + k, IF, n + 6);
    DistanceAt(w.file, p + k + 6 + n, JUMP, k + n + 13);
    IfFalseLands(w.file, p + k + 6, n + 6);
    ByteThere(w.file, p + |Code(c)|, follow);
    ByteThere(w.file, p + k, Some(IF));
    ByteThere(w.file, p + k + 6 + n, Some(JUMP));
    PlacedIs(w, c.cond, p, Some(IF), depth);
    PlacedIs(w, c.body, p + k + 6, Some(JUMP), depth);
  }

  lemma ByteThere(f: Bytes, p: nat, b: Option<Byte>)
    requires b.Some?
    ensures Get(f, p) == b.value <==> p < |f| && f[p] == b.value
  {
  }

  function Deeper(depth: Option<nat>): Option<nat> {
    if depth.Some? then Some(depth.value + 1) else None
  }

  lemma BlockPlaced(w: World, c: Cmd, p: nat, follow: Option<Byte>, depth: Option<nat>)
    requires Placed(w, c, p, follow, depth) && c.Block?
    ensures |Code(c)| == 2 + |Code(c.inner)|
    ensures Placed(w, c.inner, p + 1, Some(EXITSCOPE), Deeper(depth))
    ensures Get(w.file, p) == ENTERSCOPE && Get(w.file, p + 1 + |Code(c.inner)|) == EXITSCOPE
  {
    hide *;
    var n := |Code(c.inner)|;
    PlacedIs(w, c, p, follow, depth);
    BlockIs(c, follow, depth);
    AtSplit(w.file, p, [ENTERSCOPE] + Code(c.inner), [EXITSCOPE]);
    AtSplit(w.file, p, [ENTERSCOPE], Code(c.inner));
    AtByte(w.file, p, ENTERSCOPE);
    AtByte(w.file, p + 1 + n, EXITSCOPE);
    ByteThere(w.file, p, Some(ENTERSCOPE));
    ByteThere(w.file, p + 1 + n, Some(EXITSCOPE));
    PlacedIs(w, c.inner, p + 1, Some(EXITSCOPE), Deeper(depth));
  }

  lemma BlockIs(c: Cmd, follow: Option<Byte>, depth: Option<nat>)
    requires c.Block?
    ensures Code(c) == [ENTERSCOPE] + Code(c.inner) + [EXITSCOPE]
    ensures Laid(c, follow, depth) <==> Laid(c.inner, Some(EXITSCOPE), Deeper(depth))
  {
  }

  lemma BodyPlaced(w: World, key: string)
    requires key in w.env && Installed(w, key)
    ensures var body, q := w.env[key].body, w.procs[key].position;
      Placed(w, body, q, Some(BLOCKEND), Some(0)) && Get(w.file, q + |Code(body)|) == BLOCKEND
  {
    hide At, Laid, Code;
    var body, q := w.env[key].body, w.procs[key].position;
    AtSplit(w.file, q, Code(body), [BLOCKEND]);
    AtByte(w.file, q + |Code(body)|, BLOCKEND);
  }

  // ----- the meanings of the parts -----

  lemma ExecThen(c: Cmd, env: Procs, st: St, fuel: nat)
    requires c.Then?
    ensures var m := Exec(c.first, env, st, fuel);
            Exec(c, env, st, fuel) == if m.Done? then Exec(c.rest, env, m.st, fuel) else m
  {
  }

  lemma ExecWhen(c: Cmd, env: Procs, st: St, fuel: nat)
    requires c.When?
    ensures Exec(c, env, st, fuel) ==
      if !Decides(st) then Wrong
      else if Decision(st) then Exec(c.yes, env, Decided(st), fuel)
      else Done(Decided(st))
  {
  }

  lemma ExecChoice(c: Cmd, env: Procs, st: St, fuel: nat)
    requires c.Choice?
    ensures Exec(c, env, st, fuel) ==
      if !Decides(st) then Wrong
      else if Decision(st) then Exec(c.yes, env, Decided(st), fuel)
      else Exec(c.no, env, Decided(st), fuel)
  {
  }

  /** What a loop does once its condition has been computed. */
  function Turned(c: Cmd, env: Procs, t: St, fuel: nat): Meaning
    requires c.Loop?
  {
    if !Decides(t) then Wrong
    else if !Decision(t) then Done(Decided(t))
    else
      var m := Exec(c.body, env, Decided(t), fuel);
      if !m.Done? then m else if fuel == 0 then Unfinished else Exec(c, env, m.st, fuel - 1)
  }

  lemma TurnedIs(c: Cmd, env: Procs, t: St, fuel: nat)
    requires c.Loop?
    ensures Turned(c, env, t, fuel) ==
      if !Decides(t) then Wrong
      else if !Decision(t) then Done(Decided(t))
      else if !Exec(c.body, env, Decided(t), fuel).Done? then Exec(c.body, env, Decided(t), fuel)
      else if fuel == 0 then Unfinished
      else Exec(c, env, Exec(c.body, env, Decided(t), fuel).st, fuel - 1)
  {
  }

  lemma ExecLoop(c: Cmd, env: Procs, st: St, fuel: nat)
    requires c.Loop?
    ensures var m := Exec(c.cond, env, st, fuel);
            Exec(c, env, st, fuel) == if m.Done? then Turned(c, env, m.st, fuel) else m
  {
  }

  lemma ExecBlock(c: Cmd, env: Procs, st: St, fuel: nat)
    requires c.Block?
    ensures var m := Exec(c.inner, env, Opened(st, map[]), fuel);
            Exec(c, env, st, fuel) == if m.Done? then Done(Popped(m.st)) else m
  {
  }

  // ----- whole programs -----

  /** Main result: from the first byte of a laid-out program the machine does what the program means, whether that is
      to end, to return, to stop, or to go on. */
  lemma {:induction false} Runs(w: World, c: Cmd, p: nat, st: St, addresses: seq<Option<nat>>, follow: Option<Byte>,
                                depth: Option<nat>, fuel: nat)
    requires Loaded(w) && Placed(w, c, p, follow, depth) && Fits(st, addresses, depth)
    ensures Arrives(w, Conc(w, p, st, addresses), addresses, depth, p + |Code(c)|, Exec(c, w.env, st, fuel), fuel)
    decreases fuel, c, 3
  {
    match c
    case Nop => ReachesSelf(w.file, w.self, Conc(w, p, st, addresses));
    case Then(_, _) => RunsThen(w, c, p, st, addresses, follow, depth, fuel);
    case Basic(i) => BasicRuns(w, i, p, st, addresses, depth, fuel);
    case When(_) => RunsWhen(w, c, p, st, addresses, follow, depth, fuel);
    case Choice(_, _) => RunsChoice(w, c, p, st, addresses, follow, depth, fuel);
    case Loop(_, _) => RunsLoop(w, c, p, st, addresses, follow, depth, fuel);
    case Block(_) => RunsBlock(w, c, p, st, addresses, follow, depth, fuel);
    case Invoke(_) => RunsInvoke(w, c, p, st, addresses, follow, depth, fuel);
    case Leave => RunsLeave(w, c, p, st, addresses, follow, depth, fuel);
    case Behaviour(_) => RunsBehaviour(w, c, p, st, addresses, follow, depth, fuel);
    case Halt => RunsHalt(w, c, p, st, addresses, follow, depth, fuel);
  }

  lemma BehaviourIs(c: Cmd, follow: Option<Byte>, depth: Option<nat>)
    requires c.Behaviour?
    ensures Code(c) == Code(c.body) + Far(BEHAVIOUR_JUMP, |Code(c.body)| + 7)
    ensures Laid(c, follow, depth) <==> depth.None? && Laid(c.body, Some(BEHAVIOUR_JUMP), None)
  {
  }

  lemma BehaviourPlaced(w: World, c: Cmd, p: nat, follow: Option<Byte>, depth: Option<nat>)
    requires Placed(w, c, p, follow, depth) && c.Behaviour?
    ensures |Code(c)| == |Code(c.body)| + 6 && depth.None?
    ensures At(w.file, p + |Code(c.body)|, Far(BEHAVIOUR_JUMP, |Code(c.body)| + 7))
    ensures Placed(w, c.body, p, Some(BEHAVIOUR_JUMP), None)
  {
    hide *;
    var n := |Code(c.body)|;
    PlacedIs(w, c, p, follow, depth);
    BehaviourIs(c, follow, depth);
    FarLength(BEHAVIOUR_JUMP, n + 7);
    AtSplit(w.file, p, Code(c.body), Far(BEHAVIOUR_JUMP, n + 7));
    DistanceAt(w.file, p + n, BEHAVIOUR_JUMP, n + 7);
    ByteThere(w.file, p + n, Some(BEHAVIOUR_JUMP));
    PlacedIs(w, c.body, p, Some(BEHAVIOUR_JUMP), None);
  }

  lemma ExecBehaviour(c: Cmd, env: Procs, st: St, fuel: nat)
    requires c.Behaviour?
    ensures var m := Exec(c.body, env, st, fuel);
      Exec(c, env, st, fuel) ==
        if !m.Done? then m else if fuel == 0 then Unfinished else Exec(c, env, m.st, fuel - 1)
  {
  }

  /** A behaviour: through its body, back to its first byte, and so on. */
  lemma {:induction false} RunsBehaviour(w: World, c: Cmd, p: nat, st: St, addresses: seq<Option<nat>>,
                                         follow: Option<Byte>, depth: Option<nat>, fuel: nat)
    requires Loaded(w) && Placed(w, c, p, follow, depth) && Fits(st, addresses, depth) && c.Behaviour?
    ensures Arrives(w, Conc(w, p, st, addresses), addresses, depth, p + |Code(c)|, Exec(c, w.env, st, fuel), fuel)
    decreases fuel, c, 0
  {
    hide *;
    var s, q, end := Conc(w, p, st, addresses), p + |Code(c.body)|, p + |Code(c)|;
    Small(w, c, p, follow, depth);
    BehaviourPlaced(w, c, p, follow, depth);
    ExecBehaviour(c, w.env, st, fuel);
    Runs(w, c.body, p, st, addresses, Some(BEHAVIOUR_JUMP), depth, fuel);
    var m := Exec(c.body, w.env, st, fuel);
    Arrived(w, s, addresses, depth, q, m, fuel);
    if !m.Done? {
      ArrivesAnywhere(w, s, addresses, depth, q, end, m, fuel);
    } else if fuel == 0 {
      LastsNone(w, s);
      ArrivesLasts(w, s, addresses, depth, end, 0);
    } else {
      var u := Conc(w, p, m.st, addresses);
      FitsLength(m.st, addresses, depth);
      BehaviourStep(w, q, |Code(c.body)| + 7, m.st, addresses);
      ReachesOn(w, s, Conc(w, q, m.st, addresses), u);
      Runs(w, c, p, m.st, addresses, follow, depth, fuel - 1);
      ArrivesFurther(w, s, u, addresses, depth, end, Exec(c, w.env, st, fuel), fuel);
    }
  }

  lemma FitsLength(st: St, addresses: seq<Option<nat>>, depth: Option<nat>)
    requires Fits(st, addresses, depth)
    ensures |addresses| == |st.scopes|
  {
  }

  lemma ReachesOn(w: World, s: State, t: State, u: State)
    requires Reaches(w.file, w.self, s, t) && Advances(w, t, u)
    ensures Advances(w, s, u)
  {
    hide Steps;
    var n: nat :| Steps(w.file, w.self, s, n) == Next(t);
    var m: nat :| m > 0 && Steps(w.file, w.self, t, m) == Next(u);
    StepsAdd(w.file, w.self, s, n, t, m);
  }

  lemma RunsHalt(w: World, c: Cmd, p: nat, st: St, addresses: seq<Option<nat>>, follow: Option<Byte>,
                 depth: Option<nat>, fuel: nat)
    requires Placed(w, c, p, follow, depth) && Fits(st, addresses, depth) && c.Halt?
    ensures Arrives(w, Conc(w, p, st, addresses), addresses, depth, p + |Code(c)|, Exec(c, w.env, st, fuel), fuel)
  {
    hide At, StopsIn, Embed, StringBytes;
    HaltStep(w, p, st, addresses);
  }

  lemma {:induction false} RunsThen(w: World, c: Cmd, p: nat, st: St, addresses: seq<Option<nat>>,
                                    follow: Option<Byte>, depth: Option<nat>, fuel: nat)
    requires Loaded(w) && Placed(w, c, p, follow, depth) && Fits(st, addresses, depth) && c.Then?
    ensures Arrives(w, Conc(w, p, st, addresses), addresses, depth, p + |Code(c)|, Exec(c, w.env, st, fuel), fuel)
    decreases fuel, c, 0
  {
    hide *;
    var s, q := Conc(w, p, st, addresses), p + |Code(c.first)|;
    ThenPlaced(w, c, p, follow, depth);
    ExecThen(c, w.env, st, fuel);
    Runs(w, c.first, p, st, addresses, FirstByte(c.rest, follow), depth, fuel);
    var m := Exec(c.first, w.env, st, fuel);
    Arrived(w, s, addresses, depth, q, m, fuel);
    if m.Done? {
      Runs(w, c.rest, q, m.st, addresses, follow, depth, fuel);
      ArrivesVia(w, s, Conc(w, q, m.st, addresses), addresses, depth, p + |Code(c)|, Exec(c, w.env, st, fuel), fuel);
    } else {
      ArrivesAnywhere(w, s, addresses, depth, q, p + |Code(c)|, m, fuel);
    }
  }

  /** The end does not matter to a program that did not get there. */
  lemma ArrivesAnywhere(w: World, s: State, addresses: seq<Option<nat>>, depth: Option<nat>, mid: nat, end: nat,
                        m: Meaning, fuel: nat)
    requires Arrives(w, s, addresses, depth, mid, m, fuel) && !m.Done?
    ensures Arrives(w, s, addresses, depth, end, m, fuel)
  {
  }

  /** Nor do the frames, to one that stopped or is still going. */
  lemma ArrivesElse(w: World, s: State, under: seq<Option<nat>>, deep: Option<nat>, mid: nat,
                    addresses: seq<Option<nat>>, depth: Option<nat>, end: nat, m: Meaning, fuel: nat)
    requires Arrives(w, s, under, deep, mid, m, fuel) && !m.Done? && !m.Left?
    ensures Arrives(w, s, addresses, depth, end, m, fuel)
  {
  }

  lemma FitsDecided(st: St, addresses: seq<Option<nat>>, depth: Option<nat>)
    requires Fits(st, addresses, depth)
    ensures Fits(Decided(st), addresses, depth)
  {
  }

  lemma {:induction false} RunsWhen(w: World, c: Cmd, p: nat, st: St, addresses: seq<Option<nat>>,
                                    follow: Option<Byte>, depth: Option<nat>, fuel: nat)
    requires Loaded(w) && Placed(w, c, p, follow, depth) && Fits(st, addresses, depth) && c.When?
    ensures Arrives(w, Conc(w, p, st, addresses), addresses, depth, p + |Code(c)|, Exec(c, w.env, st, fuel), fuel)
    decreases fuel, c, 0
  {
    hide *;
    Small(w, c, p, follow, depth);
    var s := Conc(w, p, st, addresses);
    WhenPlaced(w, c, p, follow, depth);
    ExecWhen(c, w.env, st, fuel);
    FitsDecided(st, addresses, depth);
    if Decides(st) {
      IfStep(w, p, |Code(c.yes)|, st, addresses, p + |Code(c)|);
      if Decision(st) {
        Runs(w, c.yes, p + 6, Decided(st), addresses, follow, depth, fuel);
        ArrivesVia(w, s, Conc(w, p + 6, Decided(st), addresses), addresses, depth, p + |Code(c)|,
            Exec(c, w.env, st, fuel), fuel);
      } else {
        Out(w, s, addresses, depth, p + |Code(c)|, Decided(st), fuel);
      }
    } else {
      IfWrong(w, p, |Code(c.yes)|, st, addresses, depth, p + |Code(c)|, fuel);
    }
  }

  lemma Small(w: World, c: Cmd, p: nat, follow: Option<Byte>, depth: Option<nat>)
    requires Placed(w, c, p, follow, depth)
    ensures |Code(c)| <= 0x7FFF_FF00
  {
  }

  lemma {:induction false} RunsChoice(w: World, c: Cmd, p: nat, st: St, addresses: seq<Option<nat>>,
                                      follow: Option<Byte>, depth: Option<nat>, fuel: nat)
    requires Loaded(w) && Placed(w, c, p, follow, depth) && Fits(st, addresses, depth) && c.Choice?
    ensures Arrives(w, Conc(w, p, st, addresses), addresses, depth, p + |Code(c)|, Exec(c, w.env, st, fuel), fuel)
    decreases fuel, c, 1
  {
    hide *;
    ExecChoice(c, w.env, st, fuel);
    if !Decides(st) {
      Small(w, c, p, follow, depth);
      ChoicePlaced(w, c, p, follow, depth);
      IfWrong(w, p, |Code(c.yes)|, st, addresses, depth, p + |Code(c)|, fuel);
    } else if Decision(st) {
      RunsYes(w, c, p, st, addresses, follow, depth, fuel);
    } else {
      RunsNo(w, c, p, st, addresses, follow, depth, fuel);
    }
  }

  lemma {:induction false} RunsYes(w: World, c: Cmd, p: nat, st: St, addresses: seq<Option<nat>>,
                                   follow: Option<Byte>, depth: Option<nat>, fuel: nat)
    requires Loaded(w) && Placed(w, c, p, follow, depth) && Fits(st, addresses, depth) && c.Choice?
    requires Decides(st) && Decision(st)
    ensures Arrives(w, Conc(w, p, st, addresses), addresses, depth, p + |Code(c)|,
        Exec(c.yes, w.env, Decided(st), fuel), fuel)
    decreases fuel, c, 0
  {
    hide *;
    Small(w, c, p, follow, depth);
    var n, rest, s := |Code(c.yes)|, Decided(st), Conc(w, p, st, addresses);
    var m := Exec(c.yes, w.env, rest, fuel);
    ChoicePlaced(w, c, p, follow, depth);
    FitsDecided(st, addresses, depth);
    IfStep(w, p, n, st, addresses, p + 12 + n);
    Runs(w, c.yes, p + 6, rest, addresses, Some(ELSE), depth, fuel);
    ArrivesVia(w, s, Conc(w, p + 6, rest, addresses), addresses, depth, p + 6 + n, m, fuel);
    if m.Done? && |addresses| == |m.st.scopes| { ElseStep(w, p + 6 + n, |Code(c.no)|, m.st, addresses); }
    ArrivesOn(w, s, addresses, depth, p + 6 + n, p + |Code(c)|, m, fuel);
  }

  lemma {:induction false} RunsNo(w: World, c: Cmd, p: nat, st: St, addresses: seq<Option<nat>>,
                                  follow: Option<Byte>, depth: Option<nat>, fuel: nat)
    requires Loaded(w) && Placed(w, c, p, follow, depth) && Fits(st, addresses, depth) && c.Choice?
    requires Decides(st) && !Decision(st)
    ensures Arrives(w, Conc(w, p, st, addresses), addresses, depth, p + |Code(c)|,
        Exec(c.no, w.env, Decided(st), fuel), fuel)
    decreases fuel, c, 0
  {
    hide *;
    Small(w, c, p, follow, depth);
    var n, rest, s := |Code(c.yes)|, Decided(st), Conc(w, p, st, addresses);
    ChoicePlaced(w, c, p, follow, depth);
    FitsDecided(st, addresses, depth);
    IfStep(w, p, n, st, addresses, p + 12 + n);
    Runs(w, c.no, p + 12 + n, rest, addresses, follow, depth, fuel);
    ArrivesVia(w, s, Conc(w, p + 12 + n, rest, addresses), addresses, depth, p + |Code(c)|,
        Exec(c.no, w.env, rest, fuel), fuel);
  }

  lemma {:induction false} RunsLoop(w: World, c: Cmd, p: nat, st: St, addresses: seq<Option<nat>>,
                                    follow: Option<Byte>, depth: Option<nat>, fuel: nat)
    requires Loaded(w) && Placed(w, c, p, follow, depth) && Fits(st, addresses, depth) && c.Loop?
    ensures Arrives(w, Conc(w, p, st, addresses), addresses, depth, p + |Code(c)|, Exec(c, w.env, st, fuel), fuel)
    decreases fuel, c, 2
  {
    hide *;
    var s, q := Conc(w, p, st, addresses), p + |Code(c.cond)|;
    LoopPlaced(w, c, p, follow, depth);
    ExecLoop(c, w.env, st, fuel);
    Runs(w, c.cond, p, st, addresses, Some(IF), depth, fuel);
    var m := Exec(c.cond, w.env, st, fuel);
    Arrived(w, s, addresses, depth, q, m, fuel);
    if m.Done? {
      LoopTail(w, c, p, m.st, addresses, follow, depth, fuel);
      ArrivesVia(w, s, Conc(w, q, m.st, addresses), addresses, depth, p + |Code(c)|, Exec(c, w.env, st, fuel), fuel);
    } else {
      ArrivesAnywhere(w, s, addresses, depth, q, p + |Code(c)|, m, fuel);
    }
  }

  /** From the IF of a loop: out, or through the body and back to the condition. */
  lemma {:induction false} LoopTail(w: World, c: Cmd, p: nat, t: St, addresses: seq<Option<nat>>,
                                    follow: Option<Byte>, depth: Option<nat>, fuel: nat)
    requires Loaded(w) && Placed(w, c, p, follow, depth) && Fits(t, addresses, depth) && c.Loop?
    ensures Arrives(w, Conc(w, p + |Code(c.cond)|, t, addresses), addresses, depth, p + |Code(c)|,
        Turned(c, w.env, t, fuel), fuel)
    decreases fuel, c, 1
  {
    hide *;
    TurnedIs(c, w.env, t, fuel);
    if !Decides(t) {
      Small(w, c, p, follow, depth);
      LoopPlaced(w, c, p, follow, depth);
      IfWrong(w, p + |Code(c.cond)|, |Code(c.body)| + 6, t, addresses, depth, p + |Code(c)|, fuel);
    } else if Decision(t) {
      LoopTurn(w, c, p, t, addresses, follow, depth, fuel);
    } else {
      LoopOut(w, c, p, t, addresses, follow, depth, fuel);
    }
  }

  lemma LoopOut(w: World, c: Cmd, p: nat, t: St, addresses: seq<Option<nat>>, follow: Option<Byte>,
                depth: Option<nat>, fuel: nat)
    requires Placed(w, c, p, follow, depth) && Fits(t, addresses, depth) && c.Loop? && Decides(t) && !Decision(t)
    ensures Arrives(w, Conc(w, p + |Code(c.cond)|, t, addresses), addresses, depth, p + |Code(c)|, Done(Decided(t)),
        fuel)
  {
    hide *;
    Small(w, c, p, follow, depth);
    LoopPlaced(w, c, p, follow, depth);
    FitsDecided(t, addresses, depth);
    IfStep(w, p + |Code(c.cond)|, |Code(c.body)| + 6, t, addresses, p + |Code(c)|);
    Out(w, Conc(w, p + |Code(c.cond)|, t, addresses), addresses, depth, p + |Code(c)|, Decided(t), fuel);
  }

  lemma {:induction false} LoopTurn(w: World, c: Cmd, p: nat, t: St, addresses: seq<Option<nat>>,
                                    follow: Option<Byte>, depth: Option<nat>, fuel: nat)
    requires Loaded(w) && Placed(w, c, p, follow, depth) && Fits(t, addresses, depth) && c.Loop? && Decides(t)
    requires Decision(t)
    ensures Arrives(w, Conc(w, p + |Code(c.cond)|, t, addresses), addresses, depth, p + |Code(c)|,
        Turned(c, w.env, t, fuel), fuel)
    decreases fuel, c, 0
  {
    hide *;
    TurnedIs(c, w.env, t, fuel);
    LoopBody(w, c, p, t, addresses, follow, depth, fuel);
    var m, s := Exec(c.body, w.env, Decided(t), fuel), Conc(w, p + |Code(c.cond)|, t, addresses);
    if m.Done? {
      if fuel > 0 {
        Runs(w, c, p, m.st, addresses, follow, depth, fuel - 1);
        ArrivesFurther(w, s, Conc(w, p, m.st, addresses), addresses, depth, p + |Code(c)|, Turned(c, w.env, t, fuel),
            fuel);
      } else {
        LastsNone(w, s);
        ArrivesLasts(w, s, addresses, depth, p + |Code(c)|, 0);
      }
    }
  }

  /** Through the body, and if it was done by the JUMP at its end back to the condition. */
  lemma {:induction false} LoopBody(w: World, c: Cmd, p: nat, t: St, addresses: seq<Option<nat>>,
                                    follow: Option<Byte>, depth: Option<nat>, fuel: nat)
    requires Loaded(w) && Placed(w, c, p, follow, depth) && Fits(t, addresses, depth) && c.Loop? && Decides(t)
    requires Decision(t)
    ensures var m, s := Exec(c.body, w.env, Decided(t), fuel), Conc(w, p + |Code(c.cond)|, t, addresses);
      && (m.Done? ==> Fits(m.st, addresses, depth) && Advances(w, s, Conc(w, p, m.st, addresses)))
      && (!m.Done? ==> Arrives(w, s, addresses, depth, p + |Code(c)|, m, fuel))
    decreases fuel, c.body, 4
  {
    hide *;
    Small(w, c, p, follow, depth);
    LoopPlaced(w, c, p, follow, depth);
    FitsDecided(t, addresses, depth);
    var q, n, rest := p + |Code(c.cond)|, |Code(c.body)|, Decided(t);
    var s, m := Conc(w, q, t, addresses), Exec(c.body, w.env, rest, fuel);
    IfStep(w, q, n + 6, t, addresses, p + |Code(c)|);
    Runs(w, c.body, q + 6, rest, addresses, Some(JUMP), depth, fuel);
    var u := Conc(w, q + 6, rest, addresses);
    LoopBack(w, c, p, u, addresses, follow, depth, m, fuel);
    if m.Done? { AdvancesOn(w, s, u, Conc(w, p, m.st, addresses)); }
    else { ArrivesVia(w, s, u, addresses, depth, p + |Code(c)|, m, fuel); }
  }

  lemma Out(w: World, s: State, addresses: seq<Option<nat>>, depth: Option<nat>, end: nat, t: St, fuel: nat)
    requires Fits(t, addresses, depth) && Reaches(w.file, w.self, s, Conc(w, end, t, addresses))
    ensures Arrives(w, s, addresses, depth, end, Done(t), fuel)
  {
  }

  /** The JUMP at the end of a loop's body goes to its condition. */
  lemma LoopBack(w: World, c: Cmd, p: nat, s: State, addresses: seq<Option<nat>>, follow: Option<Byte>,
                 depth: Option<nat>, m: Meaning, fuel: nat)
    requires c.Loop? && Placed(w, c, p, follow, depth)
    requires Arrives(w, s, addresses, depth, p + |Code(c.cond)| + 6 + |Code(c.body)|, m, fuel)
    ensures m.Done? ==> Fits(m.st, addresses, depth) && Reaches(w.file, w.self, s, Conc(w, p, m.st, addresses))
    ensures !m.Done? ==> Arrives(w, s, addresses, depth, p + |Code(c)|, m, fuel)
  {
    hide *;
    var q := p + |Code(c.cond)| + 6 + |Code(c.body)|;
    Arrived(w, s, addresses, depth, q, m, fuel);
    if m.Done? {
      LoopJump(w, c, p, addresses, follow, depth, m.st);
      ReachesTrans(w.file, w.self, s, Conc(w, q, m.st, addresses), Conc(w, p, m.st, addresses));
    } else {
      ArrivesAnywhere(w, s, addresses, depth, q, p + |Code(c)|, m, fuel);
    }
  }

  lemma LoopJump(w: World, c: Cmd, p: nat, addresses: seq<Option<nat>>, follow: Option<Byte>, depth: Option<nat>, t: St)
    requires c.Loop? && Placed(w, c, p, follow, depth) && |addresses| == |t.scopes|
    ensures Reaches(w.file, w.self, Conc(w, p + |Code(c.cond)| + 6 + |Code(c.body)|, t, addresses),
        Conc(w, p, t, addresses))
  {
    hide *;
    Small(w, c, p, follow, depth);
    LoopPlaced(w, c, p, follow, depth);
    var q := p + |Code(c.cond)| + 6 + |Code(c.body)|;
    JumpStep(w, q, |Code(c.cond)| + |Code(c.body)| + 13, t, addresses);
  }

  lemma FitsPushed(st: St, addresses: seq<Option<nat>>, depth: Option<nat>)
    requires Fits(st, addresses, depth)
    ensures Fits(Opened(st, map[]), [None] + addresses, Deeper(depth))
  {
  }

  lemma FitsPopped(st: St, addresses: seq<Option<nat>>, depth: Option<nat>)
    requires Fits(st, [None] + addresses, Deeper(depth))
    ensures Fits(Popped(st), addresses, depth)
  {
    var under := [None] + addresses;
    if depth.Some? {
      assert under[depth.value + 1] == addresses[depth.value];
      assert forall k | 0 <= k < depth.value :: under[k + 1] == addresses[k];
    }
  }

  lemma NotAtTop(depth: Option<nat>)
    ensures Deeper(depth) != Some(0)
  {
  }

  lemma {:induction false} RunsBlock(w: World, c: Cmd, p: nat, st: St, addresses: seq<Option<nat>>,
                                     follow: Option<Byte>, depth: Option<nat>, fuel: nat)
    requires Loaded(w) && Placed(w, c, p, follow, depth) && Fits(st, addresses, depth) && c.Block?
    ensures Arrives(w, Conc(w, p, st, addresses), addresses, depth, p + |Code(c)|, Exec(c, w.env, st, fuel), fuel)
    decreases fuel, c, 0
  {
    hide *;
    var inner, under := Opened(st, map[]), [None] + addresses;
    var s, q := Conc(w, p, st, addresses), p + 1 + |Code(c.inner)|;
    BlockPlaced(w, c, p, follow, depth);
    ExecBlock(c, w.env, st, fuel);
    FitsPushed(st, addresses, depth);
    EnterStep(w, p, st, addresses);
    Runs(w, c.inner, p + 1, inner, under, Some(EXITSCOPE), Deeper(depth), fuel);
    var m := Exec(c.inner, w.env, inner, fuel);
    ArrivesVia(w, s, Conc(w, p + 1, inner, under), under, Deeper(depth), q, m, fuel);
    Arrived(w, s, under, Deeper(depth), q, m, fuel);
    if m.Done? {
      FitsPopped(m.st, addresses, depth);
      ExitStep(w, q, m.st, under);
      assert under[1..] == addresses;
      ReachesTrans(w.file, w.self, s, Conc(w, q, m.st, under), Conc(w, p + |Code(c)|, Popped(m.st), addresses));
      Out(w, s, addresses, depth, p + |Code(c)|, Popped(m.st), fuel);
    } else if m.Left? {
      NotAtTop(depth);
      assert false;
    } else {
      ArrivesElse(w, s, under, Deeper(depth), q, addresses, depth, p + |Code(c)|, m, fuel);
    }
  }

  lemma {:induction false} RunsLeave(w: World, c: Cmd, p: nat, st: St, addresses: seq<Option<nat>>,
                                     follow: Option<Byte>, depth: Option<nat>, fuel: nat)
    requires Placed(w, c, p, follow, depth) && Fits(st, addresses, depth) && c.Leave?
    ensures Arrives(w, Conc(w, p, st, addresses), addresses, depth, p + |Code(c)|, Exec(c, w.env, st, fuel), fuel)
  {
    hide Reaches, Embed;
    AtByte(w.file, p, RETURN);
    ReturnStep(w, p, st, addresses);
  }

  // ----- calls -----

  lemma ExecInvoke(c: Cmd, env: Procs, st: St, fuel: nat)
    requires c.Invoke?
    ensures Exec(c, env, st, fuel) ==
      if Key(c.name) !in env then Open
      else if Clashing(env[Key(c.name)].params, Args(st.stack, |env[Key(c.name)].params|)) then Clash
      else if fuel == 0 then Unfinished
      else Resumed(Exec(env[Key(c.name)].body, env, Entered(env[Key(c.name)], st), fuel - 1))
  {
  }

  /** What a caller sees of its callee. */
  function Resumed(m: Meaning): Meaning {
    if m.Done? then Done(Popped(m.st)) else if m.Left? then Done(m.st) else m
  }

  lemma FitsEntered(proc: Proc, st: St, addresses: seq<Option<nat>>, depth: Option<nat>, back: nat)
    requires Fits(st, addresses, depth) && RETURN_ADDRESS !in proc.params && RETURN_SOURCE !in proc.params
    ensures Fits(Entered(proc, st), [Some(back)] + addresses, Some(0))
  {
    hide Frame;
    var args := Args(st.stack, |proc.params|);
    FrameKeys(proc.params, args, RETURN_ADDRESS);
    FrameKeys(proc.params, args, RETURN_SOURCE);
  }

  /** Dropping a frame leaves what fitted below it. */
  lemma FitsBelow(st: St, back: nat, addresses: seq<Option<nat>>, before: St, depth: Option<nat>)
    requires Fits(before, addresses, depth)
    ensures Fits(st, [Some(back)] + addresses, Some(0)) ==> Fits(Popped(st), addresses, depth)
    ensures Fits(st, addresses, None) ==> Fits(st, addresses, depth)
  {
  }

  lemma {:induction false} RunsInvoke(w: World, c: Cmd, p: nat, st: St, addresses: seq<Option<nat>>,
                                      follow: Option<Byte>, depth: Option<nat>, fuel: nat)
    requires Loaded(w) && Placed(w, c, p, follow, depth) && Fits(st, addresses, depth) && c.Invoke?
    ensures Arrives(w, Conc(w, p, st, addresses), addresses, depth, p + |Code(c)|, Exec(c, w.env, st, fuel), fuel)
    decreases fuel, c, 0
  {
    hide *;
    var key := Key(c.name);
    ExecInvoke(c, w.env, st, fuel);
    InvokePlaced(w, c, p, follow, depth);
    LoadedAt(w, key);
    var s, end := Conc(w, p, st, addresses), p + |Code(c)|;
    if key !in w.env {
      CallUnknown(w, p, c.name, st, addresses);
      ArrivesStop(w, s, addresses, depth, end, Open, fuel);
    } else {
      CallStep(w, p, c.name, st, addresses);
      if Clashing(w.env[key].params, Args(st.stack, |w.env[key].params|)) {
        ArrivesStop(w, s, addresses, depth, end, Clash, fuel);
      } else if fuel == 0 {
        LastsNone(w, s);
        ArrivesLasts(w, s, addresses, depth, end, 0);
      } else {
        BodyRuns(w, key, p, end, st, addresses, depth, fuel);
      }
    }
  }

  lemma InvokePlaced(w: World, c: Cmd, p: nat, follow: Option<Byte>, depth: Option<nat>)
    requires Placed(w, c, p, follow, depth) && c.Invoke?
    ensures NUL !in c.name && At(w.file, p, [PROCCALL] + StringBytes(c.name)) && |Code(c)| == 1 + |StringBytes(c.name)|
  {
  }

  lemma LoadedAt(w: World, key: string)
    requires Loaded(w)
    ensures key in w.env <==> key in w.procs
    ensures key in w.env ==> Installed(w, key)
  {
  }

  lemma InstalledFacts(w: World, key: string)
    requires key in w.env && Installed(w, key)
    ensures key in w.procs && RETURN_ADDRESS !in w.env[key].params && RETURN_SOURCE !in w.env[key].params
  {
  }

  lemma ResumedIs(m: Meaning)
    ensures Resumed(m) == if m.Done? then Done(Popped(m.st)) else if m.Left? then Done(m.st) else m
  {
  }

  lemma {:induction false} BodyRuns(w: World, key: string, p: nat, back: nat, st: St, addresses: seq<Option<nat>>,
                                    depth: Option<nat>, fuel: nat)
    requires Loaded(w) && key in w.env && Installed(w, key) && fuel > 0
    requires Fits(st, addresses, depth) && |[Some(back)] + addresses| == |Entered(w.env[key], st).scopes|
    requires Advances(w, Conc(w, p, st, addresses),
                      Conc(w, w.procs[key].position, Entered(w.env[key], st), [Some(back)] + addresses))
    ensures Arrives(w, Conc(w, p, st, addresses), addresses, depth, back,
                    Resumed(Exec(w.env[key].body, w.env, Entered(w.env[key], st), fuel - 1)), fuel)
    decreases fuel - 1, w.env[key].body, 4
  {
    hide *;
    InstalledFacts(w, key);
    var proc, q, under := w.env[key], w.procs[key].position, [Some(back)] + addresses;
    var s, inner := Conc(w, p, st, addresses), Entered(proc, st);
    var u, end := Conc(w, q, inner, under), q + |Code(proc.body)|;
    BodyPlaced(w, key);
    FitsEntered(proc, st, addresses, depth, back);
    Runs(w, proc.body, q, inner, under, Some(BLOCKEND), Some(0), fuel - 1);
    var m := Exec(proc.body, w.env, inner, fuel - 1);
    BodyEnds(w, end, u, back, st, addresses, depth, m, fuel - 1);
    ArrivesFurther(w, s, u, addresses, depth, back, Resumed(m), fuel);
  }

  /** However a body ends, its caller goes on with its own frames. */
  lemma BodyEnds(w: World, end: nat, u: State, back: nat, st: St, addresses: seq<Option<nat>>, depth: Option<nat>,
                 m: Meaning, fuel: nat)
    requires Arrives(w, u, [Some(back)] + addresses, Some(0), end, m, fuel) && Fits(st, addresses, depth)
    requires Get(w.file, end) == BLOCKEND
    ensures Arrives(w, u, addresses, depth, back, Resumed(m), fuel)
  {
    hide *;
    var under := [Some(back)] + addresses;
    assert under[1..] == addresses && under[0] == Some(back);
    Arrived(w, u, under, Some(0), end, m, fuel);
    ResumedIs(m);
    if m.Done? {
      FitsBelow(m.st, back, addresses, st, depth);
      FitsClean(m.st, under, Some(0));
      ReturnStep(w, end, m.st, under);
      ReachesTrans(w.file, w.self, u, Conc(w, end, m.st, under), Conc(w, back, Popped(m.st), addresses));
      Out(w, u, addresses, depth, back, Popped(m.st), fuel);
    } else if m.Left? {
      FitsBelow(m.st, back, addresses, st, depth);
      Out(w, u, addresses, depth, back, m.st, fuel);
    } else {
      ArrivesElse(w, u, under, Some(0), end, addresses, depth, back, m, fuel);
    }
  }

  lemma FitsClean(st: St, addresses: seq<Option<nat>>, depth: Option<nat>)
    requires Fits(st, addresses, depth)
    ensures Clean(st.scopes)
  {
  }
}
