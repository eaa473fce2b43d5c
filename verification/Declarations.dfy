/**
 Declaring procedures: PROC records where a body starts and skips past it.  Programs as a list of
 declarations and a main part.
 */
module Declarations {
  import opened Wrappers
  import opened ListMaps
  import opened Decoding
  import opened Bytecode
  import opened Machines
  import opened Structured
  import opened Simulation

  // ----- a program as a list of instructions -----

  function PrimInstr(i: Prim): Instr {
    match i
    case Lit(d) => Push(d)
    case Decl(name, kind) => Instr.Declare(name, kind)
    case Fetch(name) => Named(LOAD, [name])
    case Put(name) => Named(STORE, [name])
    case Op(op) => Plain(op)
  }

  function FarInstr(op: Byte, n: nat): Instr {
    Distance(op, BigBytes(n, 4))
  }

  function Instrs(c: Cmd): seq<Instr> {
    match c
    case Nop => []
    case Then(a, b) => Instrs(a) + Instrs(b)
    case Basic(i) => [PrimInstr(i)]
    case When(a) => [FarInstr(IF, |Code(a)|)] + Instrs(a)
    case Choice(a, b) => [FarInstr(IF, |Code(a)|)] + Instrs(a) + ([FarInstr(ELSE, |Code(b)|)] + Instrs(b))
    case Loop(a, b) =>
      Instrs(a) + ([FarInstr(IF, |Code(b)| + 6)] + Instrs(b) + [FarInstr(JUMP, |Code(a)| + |Code(b)| + 13)])
    case Block(a) => [Plain(ENTERSCOPE)] + Instrs(a) + [Plain(EXITSCOPE)]
    case Invoke(name) => [Named(PROCCALL, [name])]
    case Leave => [Plain(RETURN)]
    case Behaviour(a) => Instrs(a) + [FarInstr(BEHAVIOUR_JUMP, |Code(a)| + 7)]
    case Halt => [Named(STOP, [[]])]
  }

  ghost predicate AllProper(s: seq<Instr>) {
    forall k | 0 <= k < |s| :: Proper(s[k])
  }

  lemma {:induction false} ListingAppend(x: seq<Instr>, y: seq<Instr>)
    requires AllProper(x) && AllProper(y)
    ensures AllProper(x + y) && Listing(x + y) == Listing(x) + Listing(y)
    decreases |x|
  {
    hide InstrBytes, Proper;
    if x == [] {
      assert x + y == y;
    } else {
      assert (x + y)[1..] == x[1..] + y;
      ListingAppend(x[1..], y);
    }
  }

  lemma ListingOne(i: Instr)
    requires Proper(i)
    ensures AllProper([i]) && Listing([i]) == InstrBytes(i)
  {
    hide InstrBytes;
    assert Listing([i]) == InstrBytes(i) + Listing([i][1..]);
  }

  lemma FarListing(op: Byte, n: nat)
    requires BEHAVIOUR_JUMP <= op <= ELSE
    ensures AllProper([FarInstr(op, n)]) && Listing([FarInstr(op, n)]) == Far(op, n)
  {
    hide BigBytes;
    ListingOne(FarInstr(op, n));
  }

  lemma PlainListing(op: Byte)
    requires IsPlain(op)
    ensures AllProper([Plain(op)]) && Listing([Plain(op)]) == [op]
  {
    ListingOne(Plain(op));
  }

  lemma NamedListing(op: Byte, name: Bytes)
    requires NUL !in name && NameCount(op) == 1
    ensures AllProper([Named(op, [name])]) && Listing([Named(op, [name])]) == [op] + StringBytes(name)
  {
    hide StringBytes;
    ListingOne(Named(op, [name]));
    assert NamesBytes([name]) == StringBytes(name) + NamesBytes([name][1..]);
  }

  lemma PrimListing(i: Prim)
    requires PlainPrim(i)
    ensures AllProper([PrimInstr(i)]) && Listing([PrimInstr(i)]) == PrimBytes(i)
  {
    hide StringBytes, DatumBytes;
    match i
    case Lit(d) => ListingOne(Push(d));
    case Decl(name, kind) => ListingOne(Instr.Declare(name, kind));
    case Fetch(name) => NamedListing(LOAD, name);
    case Put(name) => NamedListing(STORE, name);
    case Op(op) => PlainListing(op);
  }

  /** The instructions of a program spell its code. */
  ghost predicate Spelt(c: Cmd) {
    AllProper(Instrs(c)) && Listing(Instrs(c)) == Code(c)
  }

  lemma SpeltChoice(c: Cmd)
    requires c.Choice? && Spelt(c.yes) && Spelt(c.no)
    ensures Spelt(c)
  {
    hide AllProper, Listing, Far, FarInstr;
    var a, b := c.yes, c.no;
    FarThen(IF, |Code(a)|, Instrs(a));
    FarThen(ELSE, |Code(b)|, Instrs(b));
    ListingAppend([FarInstr(IF, |Code(a)|)] + Instrs(a), [FarInstr(ELSE, |Code(b)|)] + Instrs(b));
  }

  lemma SpeltIs(c: Cmd)
    ensures Spelt(c) <==> AllProper(Instrs(c)) && Listing(Instrs(c)) == Code(c)
  {
    hide AllProper, Listing, Instrs, Code;
  }

  lemma LoopInstrs(c: Cmd)
    requires c.Loop?
    ensures Instrs(c) == Instrs(c.cond) +
      ([FarInstr(IF, |Code(c.body)| + 6)] + Instrs(c.body) + [FarInstr(JUMP, |Code(c.cond)| + |Code(c.body)| + 13)])
  {
    hide Code, FarInstr;
  }

  lemma SpeltLoop(c: Cmd)
    requires c.Loop? && Spelt(c.cond) && Spelt(c.body)
    ensures Spelt(c)
  {
    hide *;
    var a, b := c.cond, c.body;
    var n := |Code(a)| + |Code(b)| + 13;
    SpeltIs(a);
    SpeltIs(b);
    SpeltIs(c);
    LoopCode(c);
    LoopInstrs(c);
    JumpOpcodes();
    FarThen(IF, |Code(b)| + 6, Instrs(b));
    FarListing(JUMP, n);
    ListingAppend([FarInstr(IF, |Code(b)| + 6)] + Instrs(b), [FarInstr(JUMP, n)]);
    ListingAppend(Instrs(a), [FarInstr(IF, |Code(b)| + 6)] + Instrs(b) + [FarInstr(JUMP, n)]);
  }

  lemma JumpOpcodes()
    ensures BEHAVIOUR_JUMP <= JUMP <= ELSE && BEHAVIOUR_JUMP <= IF <= ELSE
  {
  }

  lemma SpeltBlock(c: Cmd)
    requires c.Block? && Spelt(c.inner)
    ensures Spelt(c)
  {
    hide AllProper, Listing;
    PlainListing(ENTERSCOPE);
    PlainListing(EXITSCOPE);
    ListingAppend([Plain(ENTERSCOPE)], Instrs(c.inner));
    ListingAppend([Plain(ENTERSCOPE)] + Instrs(c.inner), [Plain(EXITSCOPE)]);
  }

  lemma SpeltBehaviour(c: Cmd)
    requires c.Behaviour? && Spelt(c.body)
    ensures Spelt(c)
  {
    hide AllProper, Listing, Far, FarInstr;
    FarListing(BEHAVIOUR_JUMP, |Code(c.body)| + 7);
    ListingAppend(Instrs(c.body), [FarInstr(BEHAVIOUR_JUMP, |Code(c.body)| + 7)]);
  }

  lemma SpeltThen(c: Cmd)
    requires c.Then? && Spelt(c.first) && Spelt(c.rest)
    ensures Spelt(c)
  {
    hide AllProper, Listing;
    ListingAppend(Instrs(c.first), Instrs(c.rest));
  }

  lemma SpeltLeaf(c: Cmd, follow: Option<Byte>, depth: Option<nat>)
    requires Laid(c, follow, depth) && (c.Nop? || c.Basic? || c.Invoke? || c.Leave? || c.Halt?)
    ensures Spelt(c)
  {
    hide AllProper, Listing, PrimBytes, PlainPrim, PrimInstr, StringBytes;
    match c
    case Nop => ListingNone();
    case Basic(i) => PrimListing(i);
    case Invoke(name) => NamedListing(PROCCALL, name);
    case Leave => PlainListing(RETURN);
    case Halt => NamedListing(STOP, []);
  }

  /** The layout of a program is the listing of its instructions. */
  lemma {:induction false} CodeIsListing(c: Cmd, follow: Option<Byte>, depth: Option<nat>)
    requires Laid(c, follow, depth)
    ensures Spelt(c)
    decreases c
  {
    hide Spelt, Code, PlainPrim, FirstByte;
    if c.Then? {
      CodeIsListing(c.first, FirstByte(c.rest, follow), depth);
      CodeIsListing(c.rest, follow, depth);
      SpeltThen(c);
    } else if c.When? {
      CodeIsListing(c.yes, follow, depth);
      SpeltWhen(c);
    } else if c.Choice? {
      CodeIsListing(c.yes, Some(ELSE), depth);
      CodeIsListing(c.no, follow, depth);
      SpeltChoice(c);
    } else if c.Loop? {
      CodeIsListing(c.cond, Some(IF), depth);
      CodeIsListing(c.body, Some(JUMP), depth);
      SpeltLoop(c);
    } else if c.Block? {
      CodeIsListing(c.inner, Some(EXITSCOPE), Deeper(depth));
      SpeltBlock(c);
    } else if c.Behaviour? {
      CodeIsListing(c.body, Some(BEHAVIOUR_JUMP), None);
      SpeltBehaviour(c);
    } else {
      SpeltLeaf(c, follow, depth);
    }
  }

  lemma SpeltWhen(c: Cmd)
    requires c.When? && Spelt(c.yes)
    ensures Spelt(c)
  {
    hide AllProper, Listing, Far, FarInstr;
    FarThen(IF, |Code(c.yes)|, Instrs(c.yes));
  }

  lemma ListingNone()
    ensures AllProper([]) && Listing([]) == []
  {
  }

  lemma FarThen(op: Byte, n: nat, x: seq<Instr>)
    requires BEHAVIOUR_JUMP <= op <= ELSE && AllProper(x)
    ensures AllProper([FarInstr(op, n)] + x) && Listing([FarInstr(op, n)] + x) == Far(op, n) + Listing(x)
  {
    hide *;
    FarListing(op, n);
    ListingAppend([FarInstr(op, n)], x);
  }

  // ----- which bodies can be skipped -----

  /** No behaviour, which the skipper would read into: procedures have none. */
  predicate Procedural(c: Cmd) {
    match c
    case Then(a, b) => Procedural(a) && Procedural(b)
    case When(a) => Procedural(a)
    case Choice(a, b) => Procedural(a) && Procedural(b)
    case Loop(a, b) => Procedural(a) && Procedural(b)
    case Block(a) => Procedural(a)
    case Behaviour(_) => false
    case _ => true
  }

  lemma {:induction false} BodiesProcedural(c: Cmd, follow: Option<Byte>, depth: Option<nat>)
    requires Laid(c, follow, depth) && depth.Some?
    ensures Procedural(c)
    decreases c
  {
    hide Code, PlainPrim, FirstByte;
    match c
    case Then(a, b) => BodiesProcedural(a, FirstByte(b, follow), depth); BodiesProcedural(b, follow, depth);
    case When(a) => BodiesProcedural(a, follow, depth);
    case Choice(a, b) => BodiesProcedural(a, Some(ELSE), depth); BodiesProcedural(b, follow, depth);
    case Loop(a, b) => BodiesProcedural(a, Some(IF), depth); BodiesProcedural(b, Some(JUMP), depth);
    case Block(a) => BodiesProcedural(a, Some(EXITSCOPE), Some(depth.value + 1));
    case _ =>
  }

  /** No conditional, no loop and no behaviour. */
  predicate Straight(c: Cmd) {
    match c
    case Then(a, b) => Straight(a) && Straight(b)
    case Block(a) => Straight(a)
    case When(_) => false
    case Choice(_, _) => false
    case Loop(_, _) => false
    case Behaviour(_) => false
    case _ => true
  }

  /** An instruction the skipper cannot pass. */
  predicate Stops(i: Instr) {
    i.Distance? && i.op != BEHAVIOUR_JUMP
  }

  /** Index of the first jump or conditional, or |s|. */
  function FirstStop(s: seq<Instr>): (k: nat)
    ensures k <= |s| && (k < |s| ==> Stops(s[k])) && forall j | 0 <= j < k :: !Stops(s[j])
  {
    if s == [] || Stops(s[0]) then 0 else
      assert forall j | 0 < j < |s| :: s[j] == s[1..][j - 1];
      FirstStop(s[1..]) + 1
  }

  /** Every instruction of a program either can be skipped or stops the skipper, and none is BLOCKEND. */
  ghost predicate Typical(s: seq<Instr>) {
    forall k | 0 <= k < |s| :: Opcode(s[k]) != BLOCKEND && (Skippable(s[k]) || Stops(s[k]))
  }

  ghost predicate Unstopped(s: seq<Instr>) {
    forall k | 0 <= k < |s| :: !Stops(s[k])
  }

  lemma TypicalAppend(x: seq<Instr>, y: seq<Instr>)
    requires Typical(x) && Typical(y)
    ensures Typical(x + y) && (Unstopped(x + y) <==> Unstopped(x) && Unstopped(y))
  {
    hide Skippable, Stops, Opcode;
    if Unstopped(x + y) {
      forall k | 0 <= k < |x| ensures !Stops(x[k]) { assert (x + y)[k] == x[k]; }
      forall k | 0 <= k < |y| ensures !Stops(y[k]) { assert (x + y)[|x| + k] == y[k]; }
    }
  }

  lemma TypicalOne(i: Instr)
    requires Opcode(i) != BLOCKEND && (Skippable(i) || Stops(i))
    ensures Typical([i]) && (Unstopped([i]) <==> !Stops(i))
  {
    assert [i][0] == i;
  }

  lemma {:induction false} InstrsTypical(c: Cmd, follow: Option<Byte>, depth: Option<nat>)
    requires Laid(c, follow, depth) && Procedural(c)
    ensures Typical(Instrs(c)) && (Unstopped(Instrs(c)) <==> Straight(c))
    decreases c
  {
    hide Typical, Unstopped, Code;
    match c
    case Nop => assert Typical([]) && Unstopped([]) by { TypicalNone(); }
    case Then(a, b) =>
      InstrsTypical(a, FirstByte(b, follow), depth);
      InstrsTypical(b, follow, depth);
      TypicalAppend(Instrs(a), Instrs(b));
    case Basic(i) => TypicalOne(PrimInstr(i));
    case When(a) =>
      InstrsTypical(a, follow, depth);
      FarTypical(IF, |Code(a)|, Instrs(a));
    case Choice(a, b) =>
      InstrsTypical(a, Some(ELSE), depth);
      InstrsTypical(b, follow, depth);
      FarTypical(IF, |Code(a)|, Instrs(a));
      FarTypical(ELSE, |Code(b)|, Instrs(b));
      TypicalAppend([FarInstr(IF, |Code(a)|)] + Instrs(a), [FarInstr(ELSE, |Code(b)|)] + Instrs(b));
    case Loop(a, b) =>
      InstrsTypical(a, Some(IF), depth);
      InstrsTypical(b, Some(JUMP), depth);
      var n := |Code(a)| + |Code(b)| + 13;
      FarTypical(IF, |Code(b)| + 6, Instrs(b));
      TypicalOne(FarInstr(JUMP, n));
      TypicalAppend([FarInstr(IF, |Code(b)| + 6)] + Instrs(b), [FarInstr(JUMP, n)]);
      TypicalAppend(Instrs(a), [FarInstr(IF, |Code(b)| + 6)] + Instrs(b) + [FarInstr(JUMP, n)]);
    case Block(a) =>
      InstrsTypical(a, Some(EXITSCOPE), if depth.Some? then Some(depth.value + 1) else None);
      TypicalOne(Plain(ENTERSCOPE));
      TypicalOne(Plain(EXITSCOPE));
      TypicalAppend([Plain(ENTERSCOPE)], Instrs(a));
      TypicalAppend([Plain(ENTERSCOPE)] + Instrs(a), [Plain(EXITSCOPE)]);
    case Invoke(name) => TypicalOne(Named(PROCCALL, [name]));
    case Leave => TypicalOne(Plain(RETURN));
    case Halt => TypicalOne(Named(STOP, [[]]));
  }

  lemma TypicalNone()
    ensures Typical([]) && Unstopped([])
  {
  }

  lemma FarTypical(op: Byte, n: nat, x: seq<Instr>)
    requires JUMP <= op <= ELSE && Typical(x)
    ensures Typical([FarInstr(op, n)] + x) && !Unstopped([FarInstr(op, n)] + x)
  {
    hide BigBytes;
    TypicalOne(FarInstr(op, n));
    TypicalAppend([FarInstr(op, n)], x);
  }

  // ----- skipping a body -----

  lemma FirstOpAppend(x: seq<Instr>, b: Byte, last: Instr)
    requires Opcode(last) == b && forall k | 0 <= k < |x| :: Opcode(x[k]) != b
    ensures FirstOp(x + [last], b) == |x|
  {
    var s := x + [last];
    assert Opcode(s[|x|]) == b && forall k | 0 <= k < |x| :: s[k] == x[k];
  }

  /** PROC passes over a straight body to the byte after its BLOCKEND; at a body with a conditional or a loop
      the component exits. */
  lemma {:induction false} BodySkips(f: Bytes, p: nat, body: Cmd)
    requires Laid(body, Some(BLOCKEND), Some(0)) && At(f, p, Code(body) + [BLOCKEND])
    ensures Skip(f, p, BLOCKEND) == if Straight(body) then Found(p + |Code(body)| + 1) else Refused
  {
    hide At, Skip, Laid, Code, Proper, Opcode, Skippable, Listing;
    CodeIsListing(body, Some(BLOCKEND), Some(0));
    BodiesProcedural(body, Some(BLOCKEND), Some(0));
    InstrsTypical(body, Some(BLOCKEND), Some(0));
    var x, last := Instrs(body), Plain(BLOCKEND);
    assert Opcode(last) == BLOCKEND by { BlockEndOpcode(); }
    PlainListing(BLOCKEND);
    ListingAppend(x, [last]);
    FirstOpAppend(x, BLOCKEND, last);
    var s := x + [last];
    if Straight(body) {
      assert forall k | 0 <= k < |x| :: Skippable(s[k]) by {
        forall k | 0 <= k < |x| ensures Skippable(s[k]) { assert s[k] == x[k] && !Stops(x[k]); }
      }
      SkipIsAligned(f, p, s, BLOCKEND);
      assert s[..|x|] == x;
    } else {
      var k := FirstStop(x);
      assert k == |x| ==> Unstopped(x);
      assert s[k] == x[k];
      forall j | 0 <= j < k ensures Skippable(s[j]) { assert s[j] == x[j] && !Stops(x[j]); }
      SkipExitsAtJump(f, p, s, BLOCKEND, k);
    }
  }

  lemma BlockEndOpcode()
    ensures Opcode(Plain(BLOCKEND)) == BLOCKEND
  {
  }

  // ----- declarations -----

  datatype Decl = Decl(name: Bytes, params: seq<Param>, body: Cmd)

  function Names(ps: seq<Param>): (r: seq<string>)
    ensures |r| == |ps| && forall k | 0 <= k < |ps| :: r[k] == Key(ps[k].name)
  {
    seq(|ps|, k requires 0 <= k < |ps| => Key(ps[k].name))
  }

  function HeadBytes(d: Decl): Bytes
    requires |d.params| < 256
  {
    [PROC] + (StringBytes(d.name) + [|d.params|] + ParamsBytes(d.params))
  }

  function DeclBytes(d: Decl): Bytes
    requires |d.params| < 256
  {
    HeadBytes(d) + (Code(d.body) + [BLOCKEND])
  }

  predicate GoodDecl(d: Decl) {
    && NUL !in d.name && ProperParams(d.params)
    && Laid(d.body, Some(BLOCKEND), Some(0)) && |Code(d.body)| <= LIMIT
    && RETURN_ADDRESS !in Names(d.params) && RETURN_SOURCE !in Names(d.params)
  }

  lemma {:induction false} ReadParamsAt(f: Bytes, p: nat, ps: seq<Param>)
    requires At(f, p, ParamsBytes(ps)) && forall k | 0 <= k < |ps| :: NUL !in ps[k].name
    ensures ReadParams(f, p, |ps|) == Some((Names(ps), p + |ParamsBytes(ps)|))
    decreases |ps|
  {
    hide At, ReadString, StringBytes, Key;
    if ps == [] {
      assert Names(ps) == [];
    } else {
      var s := StringBytes(ps[0].name);
      assert [ps[0].kind] + s + ParamsBytes(ps[1..]) == [ps[0].kind] + (s + ParamsBytes(ps[1..]));
      AtCons(f, p, ps[0].kind, s + ParamsBytes(ps[1..]));
      AtSplit(f, p + 1, s, ParamsBytes(ps[1..]));
      StringRoundTrip(f, p + 1, ps[0].name);
      ReadParamsAt(f, p + 1 + |s|, ps[1..]);
      assert Names(ps) == [Key(ps[0].name)] + Names(ps[1..]);
    }
  }

  /** The position recorded for a procedure is that of its body's first byte. */
  lemma HeadAt(f: Bytes, p: nat, d: Decl)
    requires NUL !in d.name && ProperParams(d.params) && At(f, p, HeadBytes(d))
    ensures var q := p + 1 + |StringBytes(d.name)|;
      && Get(f, p) == PROC && ReadString(f, p + 1) == Some((d.name, q))
      && ReadParams(f, After(f, q), CountAt(f, q)) == Some((Names(d.params), p + |HeadBytes(d)|))
  {
    hide At, ReadString, StringBytes, ParamsBytes, ReadParams, Names;
    var s, x := StringBytes(d.name), ParamsBytes(d.params);
    assert s + [|d.params|] + x == s + ([|d.params|] + x);
    AtCons(f, p, PROC, s + ([|d.params|] + x));
    AtSplit(f, p + 1, s, [|d.params|] + x);
    StringRoundTrip(f, p + 1, d.name);
    AtCons(f, p + 1 + |s|, |d.params|, x);
    ReadParamsAt(f, p + 2 + |s|, d.params);
  }

  function Recorded(d: Decl, p: nat): Procedure
    requires |d.params| < 256
  {
    Procedure(p + |HeadBytes(d)|, Flipped(Names(d.params)))
  }

  lemma DeclaredIs(f: Bytes, s: State, p: nat, name: Bytes, q: nat, names: seq<string>, r: nat)
    requires ReadString(f, p) == Some((name, q)) && ReadParams(f, After(f, q), CountAt(f, q)) == Some((names, r))
    ensures var procs := s.procs[Key(name) := Procedure(r, Flipped(names))];
      Declared(f, s, p) == match Skip(f, r, BLOCKEND)
        case Refused => None
        case Missing(t) => Some(s.(pos := t, procs := procs))
        case Found(t) => Some(s.(pos := t, procs := procs))
  {
    hide ReadString, ReadParams, Skip, Key, Flipped;
  }

  /** Declaring a procedure whose body is straight records it and goes on after its BLOCKEND; a body with a
      conditional or a loop makes the component exit. */
  lemma DeclareStep(f: Bytes, self: string, d: Decl, s: State)
    requires GoodDecl(d) && At(f, s.pos, DeclBytes(d)) && !s.stop
    ensures Step(f, self, s) ==
      if Straight(d.body)
      then Next(s.(pos := s.pos + |DeclBytes(d)|, procs := s.procs[Key(d.name) := Recorded(d, s.pos)]))
      else Exits
  {
    hide At, ReadString, ReadParams, Skip, Key, Flipped, Names, HeadBytes, Laid, Code, Declared, Straight;
    AtSplit(f, s.pos, HeadBytes(d), Code(d.body) + [BLOCKEND]);
    HeadAt(f, s.pos, d);
    var q, r := s.pos + 1 + |StringBytes(d.name)|, s.pos + |HeadBytes(d)|;
    BodySkips(f, r, d.body);
    DeclaredIs(f, s, s.pos + 1, d.name, q, Names(d.params), r);
    ProcStep(f, self, s);
  }

  lemma ProcStep(f: Bytes, self: string, s: State)
    requires Get(f, s.pos) == PROC && !s.stop
    ensures Step(f, self, s) == Lift(Declared(f, s, s.pos + 1))
  {
    hide Declared;
  }
}
