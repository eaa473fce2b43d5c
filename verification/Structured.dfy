/**
 Structured programs, their meaning, and their layout as bytecode (BytecodeTable.h:80-83): an IF and an
 ELSE hold the number of bytes to skip, a loop ends in a JUMP back to its condition.
 */
module Structured {
  import opened Wrappers
  import opened ListMaps
  import S = Scoping
  import C = ScopeChains
  import opened Decoding
  import opened Bytecode
  import opened Machines

  datatype Cmd =
    | Nop
    | Then(first: Cmd, rest: Cmd)
    | Basic(i: Prim)
    | When(yes: Cmd)
    | Choice(yes: Cmd, no: Cmd)
    | Loop(cond: Cmd, body: Cmd)
    | Block(inner: Cmd)
    | Invoke(name: Bytes)
    | Leave
    | Behaviour(body: Cmd)
    | Halt

  /** Parameters in the order they are declared and passed. */
  datatype Proc = Proc(params: seq<string>, body: Cmd)

  type Procs = map<string, Proc>

  // ----- meaning -----

  datatype St = St(stack: seq<Value>, scopes: S.Scopes<Cell>)

  /** Done at the end, Left by a RETURN, Halted by a STOP; Wrong where the component exits, Open where the model does
      not follow, Clash where a name is entered a second time at its level. */
  datatype Meaning = Done(st: St) | Left(st: St) | Halted(st: St) | Wrong | Open | Clash | Unfinished

  /** The argument for parameter j of k: counted from the top of the stack, null where the stack is too short. */
  function Argument(stack: seq<Value>, k: nat, j: nat): Option<Cell>
    requires j < k
  {
    if |stack| + j >= k then Some(Val(stack[|stack| + j - k])) else None
  }

  function Args(stack: seq<Value>, k: nat): (r: seq<Option<Cell>>)
    ensures |r| == k && forall j | 0 <= j < k :: r[j] == Argument(stack, k, j)
  {
    seq(k, j requires 0 <= j < k => Argument(stack, k, j))
  }

  /** The stack below k arguments. */
  function Below(stack: seq<Value>, k: nat): seq<Value> {
    if |stack| >= k then stack[..|stack| - k] else []
  }

  /** Each parameter is bound to the argument at its own position. */
  function Frame(params: seq<string>, args: seq<Option<Cell>>): S.Level<Cell>
    requires |params| == |args|
  {
    if params == [] then map[] else Frame(params[1..], args[1..])[params[0] := args[0]]
  }

  /** A parameter is declared again after a later one of the same name got null. */
  predicate Clashing(params: seq<string>, args: seq<Option<Cell>>)
    requires |params| == |args|
  {
    params != [] &&
    (Clashing(params[1..], args[1..]) || C.Clashes([Frame(params[1..], args[1..])], params[0]))
  }

  lemma {:induction false} ParameterIsArgument(params: seq<string>, args: seq<Option<Cell>>, j: nat)
    requires |params| == |args| && j < |params| && params[j] !in params[..j]
    ensures params[j] in Frame(params, args) && Frame(params, args)[params[j]] == args[j]
  {
    if j > 0 {
      assert params[0] != params[j];
      assert params[1..][..j - 1] == params[..j][1..];
      ParameterIsArgument(params[1..], args[1..], j - 1);
    }
  }

  function Result(r: Effect<S.Scopes<Cell>>): Meaning {
    match r
    case Got((stack, scopes)) => Done(St(stack, scopes))
    case Failed => Wrong
    case Unclear => Open
    case Doubled => Clash
  }

  function DoBasic(i: Prim, st: St): Meaning {
    if !Literate(i) then Open else Result(DoPrim(i, st.stack, st.scopes))
  }

  function Opened(st: St, level: S.Level<Cell>): St {
    St(st.stack, [level] + st.scopes)
  }

  function Popped(st: St): St {
    St(st.stack, S.Exit(st.scopes))
  }

  /** The state in which a procedure's body starts. */
  function Entered(proc: Proc, st: St): (t: St)
    ensures |t.scopes| == |st.scopes| + 1
  {
    var k := |proc.params|;
    St(Below(st.stack, k), [Frame(proc.params, Args(st.stack, k))] + st.scopes)
  }

  /** What a program does to the stack and the scopes: Left when it returned from its procedure.  A behaviour begins
      again whenever it is done.  Fuel counts turns of loops and behaviours, and calls. */
  function Exec(c: Cmd, env: Procs, st: St, fuel: nat): Meaning
    decreases fuel, c
  {
    match c
    case Nop => Done(st)
    case Then(a, b) =>
      (match Exec(a, env, st, fuel)
       case Done(t) => Exec(b, env, t, fuel)
       case m => m)
    case Basic(i) => DoBasic(i, st)
    case When(a) =>
      (match Top(st.stack)
       case Some(Truth(b)) => if b then Exec(a, env, St(Pop(st.stack), st.scopes), fuel)
           else Done(St(Pop(st.stack), st.scopes))
       case _ => Wrong)
    case Choice(a, b) =>
      (match Top(st.stack)
       case Some(Truth(t)) => Exec(if t then a else b, env, St(Pop(st.stack), st.scopes), fuel)
       case _ => Wrong)
    case Loop(a, b) =>
      (match Exec(a, env, st, fuel)
       case Done(t) =>
         (match Top(t.stack)
          case Some(Truth(true)) =>
            (match Exec(b, env, St(Pop(t.stack), t.scopes), fuel)
             case Done(u) => if fuel == 0 then Unfinished else Exec(c, env, u, fuel - 1)
             case m => m)
          case Some(Truth(false)) => Done(St(Pop(t.stack), t.scopes))
          case _ => Wrong)
       case m => m)
    case Block(a) =>
      (match Exec(a, env, Opened(st, map[]), fuel)
       case Done(t) => Done(Popped(t))
       case m => m)
    case Invoke(name) =>
      if Key(name) !in env then Open else
        var proc := env[Key(name)];
        if Clashing(proc.params, Args(st.stack, |proc.params|)) then Clash
        else if fuel == 0 then Unfinished
        else
          (match Exec(proc.body, env, Entered(proc, st), fuel - 1)
           case Done(t) => Done(Popped(t))
           case Left(t) => Done(t)
           case m => m)
    case Leave => Left(Popped(st))
    case Behaviour(a) =>
      (match Exec(a, env, st, fuel)
       case Done(t) => if fuel == 0 then Unfinished else Exec(c, env, t, fuel - 1)
       case m => m)
    case Halt => Halted(st)
  }

  // ----- layout -----

  function PrimBytes(i: Prim): Bytes {
    match i
    case Lit(d) => [PUSH] + DatumBytes(d)
    case Decl(name, kind) => [DECLARE] + StringBytes(name) + [kind]
    case Fetch(name) => [LOAD] + StringBytes(name)
    case Put(name) => [STORE] + StringBytes(name)
    case Op(op) => [op]
  }

  /** An opcode and a distance as a 4-byte integer operand. */
  function Far(op: Byte, n: nat): Bytes {
    [op, TYPE_INTEGER] + BigBytes(n, 4)
  }

  function Code(c: Cmd): Bytes {
    match c
    case Nop => []
    case Then(a, b) => Code(a) + Code(b)
    case Basic(i) => PrimBytes(i)
    case When(a) => Far(IF, |Code(a)|) + Code(a)
    case Choice(a, b) => Far(IF, |Code(a)|) + Code(a) + (Far(ELSE, |Code(b)|) + Code(b))
    case Loop(a, b) => Code(a) + (Far(IF, |Code(b)| + 6) + Code(b) + Far(JUMP, |Code(a)| + |Code(b)| + 13))
    case Block(a) => [ENTERSCOPE] + Code(a) + [EXITSCOPE]
    case Invoke(name) => [PROCCALL] + StringBytes(name)
    case Leave => [RETURN]
    case Behaviour(a) => Code(a) + Far(BEHAVIOUR_JUMP, |Code(a)| + 7)
    case Halt => [STOP] + StringBytes([])
  }

  /** The byte after a position that holds c followed by the given byte. */
  function FirstByte(c: Cmd, follow: Option<Byte>): Option<Byte> {
    if Code(c) == [] then follow else Some(Code(c)[0])
  }

  predicate PlainName(name: Bytes) {
    NUL !in name && Key(name) != RETURN_ADDRESS && Key(name) != RETURN_SOURCE
  }

  predicate PlainPrim(i: Prim) {
    match i
    case Lit(d) => ProperDatum(d)
    case Decl(name, _) => PlainName(name)
    case Fetch(name) => PlainName(name)
    case Put(name) => PlainName(name)
    case Op(op) => ADD <= op <= OR
  }

  /** The layouts that run as they read.  The byte after every IF without ELSE must exist and not be ELSE, or
      the false branch eats it; a return stands at its procedure's own scope level (depth 0), or the frame is
      left behind; a behaviour stands outside every procedure. */
  predicate Laid(c: Cmd, follow: Option<Byte>, depth: Option<nat>) {
    match c
    case Nop => true
    case Then(a, b) => Laid(a, FirstByte(b, follow), depth) && Laid(b, follow, depth)
    case Basic(i) => PlainPrim(i)
    case When(a) => follow.Some? && follow != Some(ELSE) && Laid(a, follow, depth)
    case Choice(a, b) => Laid(a, Some(ELSE), depth) && Laid(b, follow, depth)
    case Loop(a, b) => follow.Some? && follow != Some(ELSE) && Laid(a, Some(IF), depth) && Laid(b, Some(JUMP), depth)
    case Block(a) => Laid(a, Some(EXITSCOPE), if depth.Some? then Some(depth.value + 1) else None)
    case Invoke(name) => NUL !in name
    case Leave => depth == Some(0)
    case Behaviour(a) => depth.None? && Laid(a, Some(BEHAVIOUR_JUMP), None)
    case Halt => true
  }

  // ----- scopes with return addresses -----

  /** Source names never clash with the two names the machine reserves. */
  ghost predicate Clean(s: S.Scopes<Cell>) {
    forall k | 0 <= k < |s| :: RETURN_ADDRESS !in s[k] && RETURN_SOURCE !in s[k]
  }

  function Marked(level: S.Level<Cell>, address: Option<nat>): S.Level<Cell> {
    if address.None? then level else level[RETURN_ADDRESS := Some(Address(address.value))]
  }

  /** The machine's scopes: some levels are frames that also hold a return address. */
  function Embed(s: S.Scopes<Cell>, addresses: seq<Option<nat>>): (r: S.Scopes<Cell>)
    requires |addresses| == |s|
    ensures |r| == |s| && forall k | 0 <= k < |s| :: r[k] == Marked(s[k], addresses[k])
  {
    seq(|s|, k requires 0 <= k < |s| => Marked(s[k], addresses[k]))
  }

  lemma EmbedIs(s: S.Scopes<Cell>, addresses: seq<Option<nat>>, r: S.Scopes<Cell>)
    requires |addresses| == |s| == |r| && forall k | 0 <= k < |s| :: r[k] == Marked(s[k], addresses[k])
    ensures r == Embed(s, addresses)
  {
  }

  lemma EmbedLoad(s: S.Scopes<Cell>, addresses: seq<Option<nat>>, name: string)
    requires |addresses| == |s| && name != RETURN_ADDRESS
    ensures S.Load(Embed(s, addresses), name) == S.Load(s, name)
  {
    var e := Embed(s, addresses);
    forall k | 0 <= k < |s| ensures Lookup(e[k], name) == Lookup(s[k], name) {
      assert e[k] == Marked(s[k], addresses[k]);
    }
    var d := S.Holder(s, name);
    if d < |s| { S.HolderIs(e, name, d); }
    else if S.Holder(e, name) < |s| { S.HolderIs(s, name, S.Holder(e, name)); }
  }

  lemma EmbedDeclarer(s: S.Scopes<Cell>, addresses: seq<Option<nat>>, name: string)
    requires |addresses| == |s| && name != RETURN_ADDRESS
    ensures S.Declarer(Embed(s, addresses), name) == S.Declarer(s, name)
  {
    var e := Embed(s, addresses);
    forall k | 0 <= k < |s| ensures name in e[k] <==> name in s[k] { assert e[k] == Marked(s[k], addresses[k]); }
    var d := S.Declarer(s, name);
    if d < |s| { S.DeclarerIs(e, name, d); }
    else if S.Declarer(e, name) < |s| { S.DeclarerIs(s, name, S.Declarer(e, name)); }
  }

  /** A result of an operation on scopes, carried over to the machine's scopes. */
  predicate Carried(r: Option<S.Scopes<Cell>>, e: Option<S.Scopes<Cell>>, addresses: seq<Option<nat>>) {
    if r.None? then e.None? else |r.value| == |addresses| && e == Some(Embed(r.value, addresses))
  }

  lemma MarkedUpdate(level: S.Level<Cell>, address: Option<nat>, name: string, value: Option<Cell>)
    requires name != RETURN_ADDRESS
    ensures Marked(level, address)[name := value] == Marked(level[name := value], address)
  {
  }

  lemma EmbedStore(s: S.Scopes<Cell>, addresses: seq<Option<nat>>, name: string, value: Option<Cell>)
    requires |addresses| == |s| && name != RETURN_ADDRESS
    ensures Carried(S.Store(s, name, value), S.Store(Embed(s, addresses), name, value), addresses)
  {
    EmbedDeclarer(s, addresses, name);
    var d, e := S.Declarer(s, name), Embed(s, addresses);
    if d < |s| {
      MarkedUpdate(s[d], addresses[d], name, value);
      EmbedIs(s[d := s[d][name := value]], addresses, e[d := e[d][name := value]]);
    }
  }

  lemma EmbedDeclare(s: S.Scopes<Cell>, addresses: seq<Option<nat>>, name: string)
    requires |addresses| == |s| && name != RETURN_ADDRESS
    ensures Carried(S.Declare(s, name), S.Declare(Embed(s, addresses), name), addresses)
  {
    var e := Embed(s, addresses);
    if s != [] {
      assert e[0] == Marked(s[0], addresses[0]);
      if Lookup(s[0], name).None? {
        MarkedUpdate(s[0], addresses[0], name, None);
        EmbedIs(s[0 := s[0][name := None]], addresses, e[0 := e[0][name := None]]);
      } else {
        EmbedIs(s[0 := s[0]], addresses, e[0 := e[0]]);
      }
    }
  }

  lemma StoreClean(s: S.Scopes<Cell>, name: string, value: Option<Cell>)
    requires Clean(s) && name != RETURN_ADDRESS && name != RETURN_SOURCE
    ensures S.Store(s, name, value).Some? ==> Clean(S.Store(s, name, value).value)
    ensures S.Declare(s, name).Some? ==> Clean(S.Declare(s, name).value)
  {
  }

  /** Results of one operation with and without return addresses in the scopes. */
  ghost predicate Alike(r: Effect<S.Scopes<Cell>>, e: Effect<S.Scopes<Cell>>, addresses: seq<Option<nat>>) {
    match r
    case Got((stack, scopes)) =>
      |scopes| == |addresses| && Clean(scopes) && e == Got((stack, Embed(scopes, addresses)))
    case Failed => e == Failed
    case Unclear => e == Unclear
    case Doubled => e == Doubled
  }

  lemma DeclareAlike(scopes: S.Scopes<Cell>, addresses: seq<Option<nat>>, name: string, stack: seq<Value>)
    requires |addresses| == |scopes| && Clean(scopes) && name != RETURN_ADDRESS && name != RETURN_SOURCE
    ensures Alike(With(stack, DeclareIn(scopes, name)), With(stack, DeclareIn(Embed(scopes, addresses), name)),
        addresses)
  {
    EmbedDeclare(scopes, addresses, name);
    StoreClean(scopes, name, None);
    EmbedClashes(scopes, addresses, name);
    hide Embed, S.Declare, Clean, C.Clashes;
  }

  lemma EmbedClashes(scopes: S.Scopes<Cell>, addresses: seq<Option<nat>>, name: string)
    requires |addresses| == |scopes| && name != RETURN_ADDRESS
    ensures C.Clashes(Embed(scopes, addresses), name) <==> C.Clashes(scopes, name)
  {
  }

  lemma StoreAlike(scopes: S.Scopes<Cell>, addresses: seq<Option<nat>>, name: string, value: Option<Cell>,
                   stack: seq<Value>)
    requires |addresses| == |scopes| && Clean(scopes) && name != RETURN_ADDRESS && name != RETURN_SOURCE
    ensures Alike(With(stack, FromOption(S.Store(scopes, name, value))),
                  With(stack, FromOption(S.Store(Embed(scopes, addresses), name, value))), addresses)
  {
    EmbedStore(scopes, addresses, name, value);
    StoreClean(scopes, name, value);
    hide Embed, S.Store, Clean;
  }

  /** Primitive instructions do not see the return addresses. */
  lemma PrimEmbeds(i: Prim, st: St, addresses: seq<Option<nat>>)
    requires |addresses| == |st.scopes| && Clean(st.scopes) && PlainPrim(i) && Literate(i)
    ensures Alike(DoPrim(i, st.stack, st.scopes), DoPrim(i, st.stack, Embed(st.scopes, addresses)), addresses)
  {
    hide Embed, S.Load, S.Store, DeclareIn, Combine, Literal, Clean, With;
    match i
    case Lit(_) =>
    case Decl(name, _) => DeclareAlike(st.scopes, addresses, Key(name), st.stack);
    case Fetch(name) => EmbedLoad(st.scopes, addresses, Key(name));
    case Put(name) => StoreAlike(st.scopes, addresses, Key(name), TopCell(st.stack), Pop(st.stack));
    case Op(_) =>
  }
}
