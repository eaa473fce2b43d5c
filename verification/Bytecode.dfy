/**
 Instructions and their operands (BytecodeTable.h), and the reader that skips forward to a given
 opcode (component_skipToNext in Component.c).  The skipper has its own idea of each operand layout.
 */
module Bytecode {
  import opened Wrappers
  import opened Decoding

  const STOP: Byte := 0
  const ENTERSCOPE: Byte := 1
  const EXITSCOPE: Byte := 2
  const PUSH: Byte := 3
  const DECLARE: Byte := 4
  const LOAD: Byte := 5
  const STORE: Byte := 6
  const ADD: Byte := 7
  const SUB: Byte := 8
  const MUL: Byte := 9
  const DIV: Byte := 10
  const MOD: Byte := 11
  const LESS: Byte := 12
  const LESSEQUAL: Byte := 13
  const MORE: Byte := 14
  const MOREEQUAL: Byte := 15
  const EQUAL: Byte := 16
  const AND: Byte := 18
  const OR: Byte := 19
  const NOT: Byte := 20
  const COMPONENT: Byte := 25
  const CALL: Byte := 26
  const CONSTRUCTOR: Byte := 27
  const BEHAVIOUR_JUMP: Byte := 28
  const JUMP: Byte := 29
  const IF: Byte := 30
  const ELSE: Byte := 31
  const CONNECT: Byte := 32
  const DISCONNECT: Byte := 33
  const SEND: Byte := 34
  const RECEIVE: Byte := 35
  const PROC: Byte := 36
  const RETURN: Byte := 37
  const PROCCALL: Byte := 38
  const BLOCKEND: Byte := 39
  const STRUCT: Byte := 40
  const ANY: Byte := 41
  const PROJECT_EXIT: Byte := 43

  const STRUCT_CONSTRUCTOR: Byte := 1
  const STRUCT_LOAD: Byte := 2

  const TYPE_INTEGER: Byte := 1
  const TYPE_UNSIGNED: Byte := 2
  const TYPE_REAL: Byte := 3
  const TYPE_BOOL: Byte := 4
  const TYPE_BYTE: Byte := 5

  // ----- instructions -----

  datatype Datum = Fixed(kind: Byte, bytes: Bytes) | Text(text: Bytes)

  datatype Param = Param(kind: Byte, name: Bytes)

  datatype Channel = Channel(direction: Byte, kind: Byte, name: Bytes)

  datatype Instr =
    | Plain(op: Byte)
    | Named(op: Byte, names: seq<Bytes>)
    | Push(datum: Datum)
    | Declare(name: Bytes, kind: Byte)
    | Interfaces(name: Bytes, interfaces: seq<seq<Channel>>)
    | Call(name: Bytes, count: Byte)
    | Constructor(params: seq<Param>)
    | Distance(op: Byte, distance: Bytes)
    | Proc(name: Bytes, params: seq<Param>)
    | StructNew(params: seq<Param>)
    | StructLoad(name: Bytes)

  /** How many names follow the opcodes whose operands are names only. */
  function NameCount(op: Byte): nat {
    if op == CONNECT then 4 else if op == DISCONNECT then 2
    else if op in {STOP, LOAD, STORE, SEND, RECEIVE, PROCCALL} then 1 else 0
  }

  predicate IsPlain(op: Byte) {
    op in {ENTERSCOPE, EXITSCOPE, RETURN, BLOCKEND, ANY} || ADD <= op <= NOT
  }

  /** Bytes of a fixed-width value; 0 for any other type. */
  function Width(kind: Byte): nat {
    if kind == TYPE_INTEGER || kind == TYPE_UNSIGNED then 4
    else if kind == TYPE_REAL then 8
    else if kind == TYPE_BOOL || kind == TYPE_BYTE then 1
    else 0
  }

  predicate Proper(i: Instr) {
    match i
    case Plain(op) => IsPlain(op)
    case Named(op, names) => |names| == NameCount(op) > 0 && forall k | 0 <= k < |names| :: NUL !in names[k]
    case Push(d) => ProperDatum(d)
    case Declare(name, _) => NUL !in name
    case Interfaces(name, s) =>
      NUL !in name && |s| < 256 && forall k | 0 <= k < |s| :: |s[k]| < 256 && forall j | 0 <= j < |s[k]| ::
          NUL !in s[k][j].name
    case Call(name, _) => NUL !in name
    case Constructor(ps) => ProperParams(ps)
    case Distance(op, x) => BEHAVIOUR_JUMP <= op <= ELSE && |x| == 4
    case Proc(name, ps) => NUL !in name && ProperParams(ps)
    case StructNew(ps) => ProperParams(ps)
    case StructLoad(name) => NUL !in name
  }

  predicate ProperDatum(d: Datum) {
    match d
    case Fixed(kind, x) => |x| == Width(kind) > 0
    case Text(s) => NUL !in s
  }

  predicate ProperParams(ps: seq<Param>) {
    |ps| < 256 && forall k | 0 <= k < |ps| :: NUL !in ps[k].name
  }

  // ----- encodings -----

  function DatumBytes(d: Datum): Bytes {
    match d
    case Fixed(kind, x) => [kind] + x
    case Text(s) => StringBytes(s)
  }

  function NamesBytes(names: seq<Bytes>): Bytes {
    if names == [] then [] else StringBytes(names[0]) + NamesBytes(names[1..])
  }

  function ParamsBytes(ps: seq<Param>): Bytes {
    if ps == [] then [] else [ps[0].kind] + StringBytes(ps[0].name) + ParamsBytes(ps[1..])
  }

  function ChannelsBytes(cs: seq<Channel>): Bytes {
    if cs == [] then [] else [cs[0].direction, cs[0].kind] + StringBytes(cs[0].name) + ChannelsBytes(cs[1..])
  }

  function InterfacesBytes(s: seq<seq<Channel>>): Bytes
    requires forall k | 0 <= k < |s| :: |s[k]| < 256
  {
    if s == [] then [] else [|s[0]|] + ChannelsBytes(s[0]) + InterfacesBytes(s[1..])
  }

  function Opcode(i: Instr): Byte {
    match i
    case Plain(op) => op
    case Named(op, _) => op
    case Push(_) => PUSH
    case Declare(_, _) => DECLARE
    case Interfaces(_, _) => COMPONENT
    case Call(_, _) => CALL
    case Constructor(_) => CONSTRUCTOR
    case Distance(op, _) => op
    case Proc(_, _) => PROC
    case StructNew(_) => STRUCT
    case StructLoad(_) => STRUCT
  }

  function OperandBytes(i: Instr): Bytes
    requires Proper(i)
  {
    match i
    case Plain(_) => []
    case Named(_, names) => NamesBytes(names)
    case Push(d) => DatumBytes(d)
    case Declare(name, kind) => StringBytes(name) + [kind]
    case Interfaces(name, s) => StringBytes(name) + [|s|] + InterfacesBytes(s)
    case Call(name, n) => StringBytes(name) + [n]
    case Constructor(ps) => [|ps|] + ParamsBytes(ps)
    case Distance(_, x) => [TYPE_INTEGER] + x
    case Proc(name, ps) => StringBytes(name) + [|ps|] + ParamsBytes(ps)
    case StructNew(ps) => [STRUCT_CONSTRUCTOR, |ps|] + ParamsBytes(ps)
    case StructLoad(name) => [STRUCT_LOAD] + StringBytes(name)
  }

  function InstrBytes(i: Instr): Bytes
    requires Proper(i)
  {
    [Opcode(i)] + OperandBytes(i)
  }

  // ----- passing over operands: None when a string read makes the component exit or never end -----

  function PassString(f: Bytes, p: nat): (r: Option<nat>)
    ensures r.Some? ==> r.value >= p
  {
    match ReadString(f, p)
    case None => None
    case Some(t) => Some(t.1)
  }

  function PassStrings(f: Bytes, p: nat, n: nat): (r: Option<nat>)
    ensures r.Some? ==> r.value >= p
    decreases n
  {
    if n == 0 then Some(p) else
      match PassString(f, p)
      case None => None
      case Some(q) => PassStrings(f, q, n - 1)
  }

  function PassParams(f: Bytes, p: nat, n: nat): (r: Option<nat>)
    ensures r.Some? ==> r.value >= p
    decreases n
  {
    if n == 0 then Some(p) else
      match PassString(f, After(f, p))
      case None => None
      case Some(q) => PassParams(f, q, n - 1)
  }

  function PassChannels(f: Bytes, p: nat, n: nat): (r: Option<nat>)
    ensures r.Some? ==> r.value >= p
    decreases n
  {
    if n == 0 then Some(p) else
      match PassString(f, After(f, After(f, p)))
      case None => None
      case Some(q) => PassChannels(f, q, n - 1)
  }

  /** A loop bound read from the file: the end of the file reads as -1 and runs no iteration. */
  function CountAt(f: Bytes, p: nat): nat {
    if p < |f| then f[p] else 0
  }

  function PassInterfaces(f: Bytes, p: nat, n: nat): (r: Option<nat>)
    ensures r.Some? ==> r.value >= p
    decreases n
  {
    if n == 0 then Some(p) else
      match PassChannels(f, After(f, p), CountAt(f, p))
      case None => None
      case Some(q) => PassInterfaces(f, q, n - 1)
  }

  function Advance(f: Bytes, p: nat, n: nat): nat {
    if p + n <= |f| then p + n else if p <= |f| then |f| else p
  }

  /** component_readData: an unknown type byte consumes only itself. */
  function PassData(f: Bytes, p: nat): (r: Option<nat>)
    ensures r.Some? ==> r.value >= p
  {
    if Get(f, p) == TYPE_STRING then PassString(f, p)
    else Some(Advance(f, After(f, p), if p < |f| then Width(f[p]) else 0))
  }

  /** A name, then a count, then that many parameters. */
  function PassHeader(f: Bytes, p: nat): (r: Option<nat>)
    ensures r.Some? ==> r.value >= p
  {
    match PassString(f, p)
    case None => None
    case Some(q) => PassParams(f, After(f, q), CountAt(f, q))
  }

  /** The operands as component_skipToNext passes over them. */
  function SkipOperands(f: Bytes, p: nat, op: Byte): (r: Option<nat>)
    ensures r.Some? ==> r.value >= p
  {
    if NameCount(op) > 0 then PassStrings(f, p, NameCount(op))
    else if op == PUSH then PassData(f, p)
    else if op == DECLARE then
      (match PassString(f, p) case None => None case Some(q) => Some(After(f, q)))
    else if op == COMPONENT then
      (match PassString(f, p) case None => None case Some(q) => PassInterfaces(f, After(f, q), CountAt(f, q)))
    else if op == CALL then
      (match PassString(f, p) case None => None case Some(q) => PassStrings(f, After(f, q), CountAt(f, q)))
    else if op == CONSTRUCTOR then PassParams(f, After(f, p), CountAt(f, p))
    else if op == JUMP || op == IF || op == ELSE then PassString(f, p)
    else if op == PROC then PassHeader(f, p)
    else if op == STRUCT then
      if Get(f, p) == STRUCT_CONSTRUCTOR then PassHeader(f, After(f, p))
      else if Get(f, p) == STRUCT_LOAD then PassString(f, After(f, p))
      else Some(After(f, p))
    else Some(p)
  }

  /** The operands as the instruction's own handler reads them. */
  function RunOperands(f: Bytes, p: nat, op: Byte): Option<nat> {
    if op == CALL then
      (match PassString(f, p) case None => None case Some(q) => Some(After(f, q)))
    else if BEHAVIOUR_JUMP <= op <= ELSE then PassData(f, p)
    else if op == STRUCT && Get(f, p) == STRUCT_CONSTRUCTOR then
      PassParams(f, After(f, After(f, p)), CountAt(f, After(f, p)))
    else SkipOperands(f, p, op)
  }

  // ----- handlers read what encodings write -----

  lemma PassStringAt(f: Bytes, p: nat, s: Bytes)
    requires NUL !in s && At(f, p, StringBytes(s))
    ensures PassString(f, p) == Some(p + |StringBytes(s)|)
  {
    StringRoundTrip(f, p, s);
  }

  lemma {:induction false} PassStringsAt(f: Bytes, p: nat, names: seq<Bytes>)
    requires At(f, p, NamesBytes(names)) && forall k | 0 <= k < |names| :: NUL !in names[k]
    ensures PassStrings(f, p, |names|) == Some(p + |NamesBytes(names)|)
    decreases |names|
  {
    hide At, PassString, StringBytes;
    if names != [] {
      AtSplit(f, p, StringBytes(names[0]), NamesBytes(names[1..]));
      PassStringAt(f, p, names[0]);
      PassStringsAt(f, p + |StringBytes(names[0])|, names[1..]);
    }
  }

  /** A single byte, then the rest. */
  lemma AtCons(f: Bytes, p: nat, b: Byte, x: Bytes)
    requires At(f, p, [b] + x)
    ensures Get(f, p) == b && After(f, p) == p + 1 && p < |f| && f[p] == b && At(f, p + 1, x)
  {
    AtSplit(f, p, [b], x);
    AtByte(f, p, b);
  }

  lemma {:induction false} PassParamsAt(f: Bytes, p: nat, ps: seq<Param>)
    requires At(f, p, ParamsBytes(ps)) && forall k | 0 <= k < |ps| :: NUL !in ps[k].name
    ensures PassParams(f, p, |ps|) == Some(p + |ParamsBytes(ps)|)
    decreases |ps|
  {
    hide At, PassString, StringBytes;
    if ps != [] {
      var s := StringBytes(ps[0].name);
      assert [ps[0].kind] + s + ParamsBytes(ps[1..]) == [ps[0].kind] + (s + ParamsBytes(ps[1..]));
      AtCons(f, p, ps[0].kind, s + ParamsBytes(ps[1..]));
      AtSplit(f, p + 1, s, ParamsBytes(ps[1..]));
      PassStringAt(f, p + 1, ps[0].name);
      PassParamsAt(f, p + 1 + |s|, ps[1..]);
    }
  }

  lemma {:induction false} PassChannelsAt(f: Bytes, p: nat, cs: seq<Channel>)
    requires At(f, p, ChannelsBytes(cs)) && forall k | 0 <= k < |cs| :: NUL !in cs[k].name
    ensures PassChannels(f, p, |cs|) == Some(p + |ChannelsBytes(cs)|)
    decreases |cs|
  {
    hide At, PassString, StringBytes;
    if cs != [] {
      var s, rest := StringBytes(cs[0].name), ChannelsBytes(cs[1..]);
      assert [cs[0].direction, cs[0].kind] + s + rest == [cs[0].direction] + ([cs[0].kind] + (s + rest));
      AtCons(f, p, cs[0].direction, [cs[0].kind] + (s + rest));
      AtCons(f, p + 1, cs[0].kind, s + rest);
      AtSplit(f, p + 2, s, rest);
      PassStringAt(f, p + 2, cs[0].name);
      PassChannelsAt(f, p + 2 + |s|, cs[1..]);
    }
  }

  lemma {:induction false} PassInterfacesAt(f: Bytes, p: nat, s: seq<seq<Channel>>)
    requires forall k | 0 <= k < |s| :: |s[k]| < 256 && forall j | 0 <= j < |s[k]| :: NUL !in s[k][j].name
    requires At(f, p, InterfacesBytes(s))
    ensures PassInterfaces(f, p, |s|) == Some(p + |InterfacesBytes(s)|)
    decreases |s|
  {
    hide At, ChannelsBytes, PassChannels;
    if s != [] {
      var x, rest := ChannelsBytes(s[0]), InterfacesBytes(s[1..]);
      assert [|s[0]|] + x + rest == [|s[0]|] + (x + rest);
      AtCons(f, p, |s[0]|, x + rest);
      AtSplit(f, p + 1, x, rest);
      PassChannelsAt(f, p + 1, s[0]);
      PassInterfacesAt(f, p + 1 + |x|, s[1..]);
    }
  }

  lemma PassDataAt(f: Bytes, p: nat, d: Datum)
    requires ProperDatum(d) && At(f, p, DatumBytes(d))
    ensures PassData(f, p) == Some(p + |DatumBytes(d)|)
  {
    hide At;
    match d
    case Fixed(kind, x) =>
      AtCons(f, p, kind, x);
      AtWithin(f, p + 1, x);
    case Text(s) =>
      PassStringAt(f, p, s);
      var rest := Encoded(s) + [NUL];
      assert StringBytes(s) == [TYPE_STRING] + rest;
      AtCons(f, p, TYPE_STRING, rest);
  }

  lemma AtWithin(f: Bytes, p: nat, x: Bytes)
    requires At(f, p, x)
    ensures p + |x| <= |f|
  {
  }

  lemma PassHeaderAt(f: Bytes, p: nat, name: Bytes, ps: seq<Param>)
    requires NUL !in name && ProperParams(ps) && At(f, p, StringBytes(name) + [|ps|] + ParamsBytes(ps))
    ensures PassHeader(f, p) == Some(p + |StringBytes(name) + [|ps|] + ParamsBytes(ps)|)
  {
    hide At, StringBytes, ParamsBytes, PassString, PassParams;
    var s, x := StringBytes(name), ParamsBytes(ps);
    assert s + [|ps|] + x == s + ([|ps|] + x);
    AtSplit(f, p, s, [|ps|] + x);
    PassStringAt(f, p, name);
    AtCons(f, p + |s|, |ps|, x);
    PassParamsAt(f, p + |s| + 1, ps);
  }

  lemma AtOne(f: Bytes, p: nat, b: Byte)
    requires At(f, p, [b])
    ensures After(f, p) == p + 1 && CountAt(f, p) == b
  {
    AtByte(f, p, b);
  }

  lemma NameThenByte(f: Bytes, p: nat, name: Bytes, b: Byte)
    requires NUL !in name && At(f, p, StringBytes(name) + [b])
    ensures var q := p + |StringBytes(name)|;
            PassString(f, p) == Some(q) && After(f, q) == q + 1 && CountAt(f, q) == b
  {
    hide At, StringBytes, PassString;
    AtSplit(f, p, StringBytes(name), [b]);
    PassStringAt(f, p, name);
    AtOne(f, p + |StringBytes(name)|, b);
  }

  lemma InterfacesAt(f: Bytes, p: nat, i: Instr)
    requires Proper(i) && i.Interfaces? && At(f, p, OperandBytes(i))
    ensures RunOperands(f, p, COMPONENT) == Some(p + |OperandBytes(i)|)
  {
    hide At, StringBytes, InterfacesBytes, PassString, PassInterfaces;
    var s, x := StringBytes(i.name), InterfacesBytes(i.interfaces);
    var n: Byte := |i.interfaces|;
    AtSplit(f, p, s + [n], x);
    NameThenByte(f, p, i.name, n);
    PassInterfacesAt(f, p + |s| + 1, i.interfaces);
  }

  lemma ConstructorAt(f: Bytes, p: nat, ps: seq<Param>)
    requires ProperParams(ps) && At(f, p, [|ps|] + ParamsBytes(ps))
    ensures PassParams(f, After(f, p), CountAt(f, p)) == Some(p + 1 + |ParamsBytes(ps)|)
  {
    hide At, ParamsBytes, PassParams;
    AtCons(f, p, |ps|, ParamsBytes(ps));
    PassParamsAt(f, p + 1, ps);
  }

  lemma StructNewAt(f: Bytes, p: nat, ps: seq<Param>)
    requires ProperParams(ps) && At(f, p, [STRUCT_CONSTRUCTOR, |ps|] + ParamsBytes(ps))
    ensures RunOperands(f, p, STRUCT) == Some(p + 2 + |ParamsBytes(ps)|)
  {
    hide At, ParamsBytes, PassParams, PassString, PassHeader, PassStrings;
    var x := ParamsBytes(ps);
    assert [STRUCT_CONSTRUCTOR, |ps|] + x == [STRUCT_CONSTRUCTOR] + ([|ps|] + x);
    AtCons(f, p, STRUCT_CONSTRUCTOR, [|ps|] + x);
    ConstructorAt(f, p + 1, ps);
  }

  lemma StructLoadAt(f: Bytes, p: nat, name: Bytes)
    requires NUL !in name && At(f, p, [STRUCT_LOAD] + StringBytes(name))
    ensures RunOperands(f, p, STRUCT) == SkipOperands(f, p, STRUCT) == Some(p + 1 + |StringBytes(name)|)
  {
    hide At, StringBytes, PassParams, PassString, PassHeader, PassStrings;
    AtCons(f, p, STRUCT_LOAD, StringBytes(name));
    PassStringAt(f, p + 1, name);
  }

  /** Every handler's operand reader stops exactly at the end of its instruction. */
  lemma {:induction false} RunReadsAll(f: Bytes, p: nat, i: Instr)
    requires Proper(i) && At(f, p, OperandBytes(i))
    ensures RunOperands(f, p, Opcode(i)) == Some(p + |OperandBytes(i)|)
  {
    hide At, StringBytes, ParamsBytes, InterfacesBytes, NamesBytes;
    hide PassString, PassStrings, PassParams, PassInterfaces, PassHeader, PassData, DatumBytes;
    if i.Named? { PassStringsAt(f, p, i.names); }
    else if i.Push? { PassDataAt(f, p, i.datum); }
    else if i.Declare? { NameThenByte(f, p, i.name, i.kind); }
    else if i.Interfaces? { InterfacesAt(f, p, i); }
    else if i.Call? { NameThenByte(f, p, i.name, i.count); }
    else if i.Constructor? { ConstructorAt(f, p, i.params); }
    else if i.Distance? { PassDistanceAt(f, p, i.distance); }
    else if i.Proc? { PassHeaderAt(f, p, i.name, i.params); }
    else if i.StructNew? { StructNewAt(f, p, i.params); }
    else if i.StructLoad? { StructLoadAt(f, p, i.name); }
  }

  lemma PassDistanceAt(f: Bytes, p: nat, x: Bytes)
    requires |x| == 4 && At(f, p, [TYPE_INTEGER] + x)
    ensures PassData(f, p) == Some(p + 5) && Get(f, p) == TYPE_INTEGER
  {
    hide At;
    assert DatumBytes(Fixed(TYPE_INTEGER, x)) == [TYPE_INTEGER] + x;
    PassDataAt(f, p, Fixed(TYPE_INTEGER, x));
    AtCons(f, p, TYPE_INTEGER, x);
  }

  // ----- where the skipper and the handlers agree -----

  /** Jumps and conditionals are skipped as if they named a label, calls as if their arguments were inline,
      and a behaviour jump as if it had no operand. */
  predicate Skippable(i: Instr) {
    match i
    case Distance(_, _) => false
    case Call(_, n) => n == 0
    case StructNew(_) => false
    case _ => true
  }

  /** The skipper passes over an instruction exactly as its handler would if and only if it is skippable.
      Struct constructors are not decided here: their layout can coincide by accident. */
  lemma {:induction false} SkipAgrees(f: Bytes, p: nat, i: Instr)
    requires Proper(i) && !i.StructNew? && At(f, p, OperandBytes(i))
    ensures SkipOperands(f, p, Opcode(i)) == RunOperands(f, p, Opcode(i)) <==> Skippable(i)
    ensures Skippable(i) ==> SkipOperands(f, p, Opcode(i)) == Some(p + |OperandBytes(i)|)
    ensures i.Distance? && i.op != BEHAVIOUR_JUMP ==> SkipOperands(f, p, Opcode(i)) == None
  {
    RunReadsAll(f, p, i);
    if !i.Distance? && !i.Call? && !i.StructLoad? { PlainOpcode(i); }
    hide At, SkipOperands, RunOperands, StringBytes, ParamsBytes, InterfacesBytes, NamesBytes, DatumBytes;
    if i.Distance? {
      PassDistanceAt(f, p, i.distance);
      SkipDistance(f, p, i.op, i.distance);
    } else if i.Call? {
      SkipCall(f, p, i.name, i.count);
    } else if i.StructLoad? {
      StructLoadAt(f, p, i.name);
    } else {
      SameOperands(f, p, Opcode(i));
    }
  }

  lemma PlainOpcode(i: Instr)
    requires Proper(i) && !i.Distance? && !i.Call? && !i.StructNew? && !i.StructLoad?
    ensures Opcode(i) != CALL && !(BEHAVIOUR_JUMP <= Opcode(i) <= ELSE) && Opcode(i) != STRUCT
  {
  }

  lemma SameOperands(f: Bytes, p: nat, op: Byte)
    requires op != CALL && !(BEHAVIOUR_JUMP <= op <= ELSE) && op != STRUCT
    ensures RunOperands(f, p, op) == SkipOperands(f, p, op)
  {
  }

  lemma SkipDistance(f: Bytes, p: nat, op: Byte, x: Bytes)
    requires BEHAVIOUR_JUMP <= op <= ELSE && |x| == 4 && At(f, p, [TYPE_INTEGER] + x)
    ensures SkipOperands(f, p, op) == if op == BEHAVIOUR_JUMP then Some(p) else None
  {
    hide At;
    AtCons(f, p, TYPE_INTEGER, x);
  }

  lemma SkipCall(f: Bytes, p: nat, name: Bytes, n: Byte)
    requires NUL !in name && At(f, p, StringBytes(name) + [n])
    ensures SkipOperands(f, p, CALL) == Some(p + |StringBytes(name)| + 1) <==> n == 0
  {
    hide At, StringBytes, PassString, PassStrings;
    NameThenByte(f, p, name, n);
    PassStringsMoves(f, p + |StringBytes(name)| + 1, n);
  }

  lemma {:induction false} PassStringsMoves(f: Bytes, p: nat, n: nat)
    ensures PassStrings(f, p, n) == Some(p) <==> n == 0
  {
    if n > 0 && PassString(f, p).Some? { assert PassString(f, p).value > p; }
  }

  // ----- skipping -----

  /** component_skipToNext outside a project block.  Found is the position after the opcode sought; Refused
      is an operand string that is not one, at which the component exits. */
  datatype SkipResult = Found(pos: nat) | Missing(pos: nat) | Refused

  function Skip(f: Bytes, p: nat, b: Byte): SkipResult
    decreases |f| - p
  {
    if p >= |f| then Missing(p)
    else if f[p] == b then Found(p + 1)
    else
      match SkipOperands(f, p + 1, f[p])
      case None => Refused
      case Some(q) => Skip(f, q, b)
  }

  function Listing(s: seq<Instr>): Bytes
    requires forall k | 0 <= k < |s| :: Proper(s[k])
  {
    if s == [] then [] else InstrBytes(s[0]) + Listing(s[1..])
  }

  /** Index of the first instruction with the opcode, or |s|. */
  function FirstOp(s: seq<Instr>, b: Byte): (k: nat)
    ensures k <= |s| && (k < |s| ==> Opcode(s[k]) == b) && forall j | 0 <= j < k :: Opcode(s[j]) != b
  {
    if s == [] || Opcode(s[0]) == b then 0 else
      assert forall j | 0 < j < |s| :: s[j] == s[1..][j - 1];
      FirstOp(s[1..], b) + 1
  }

  /** Over any list of instructions that skip and execute alike, the skipper stops just past the opcode byte of
      the first instruction sought, whatever bytes the operands hold; if there is none it goes on after the
      list. */
  lemma {:induction false} SkipIsAligned(f: Bytes, p: nat, s: seq<Instr>, b: Byte)
    requires forall k | 0 <= k < |s| :: Proper(s[k])
    requires forall k | 0 <= k < FirstOp(s, b) :: Skippable(s[k])
    requires At(f, p, Listing(s))
    ensures FirstOp(s, b) == |s| ==> Skip(f, p, b) == Skip(f, p + |Listing(s)|, b)
    ensures FirstOp(s, b) < |s| ==> Skip(f, p, b) == Found(p + |Listing(s[..FirstOp(s, b)])| + 1)
    decreases |s|
  {
    hide At, OperandBytes, SkipOperands, Proper, Skippable, Opcode;
    if s != [] {
      var x, rest := OperandBytes(s[0]), Listing(s[1..]);
      assert InstrBytes(s[0]) + rest == [Opcode(s[0])] + (x + rest);
      AtCons(f, p, Opcode(s[0]), x + rest);
      AtSplit(f, p + 1, x, rest);
      if Opcode(s[0]) != b {
        SkipOver(f, p + 1, s[0]);
        SkipIsAligned(f, p + 1 + |x|, s[1..], b);
        var k := FirstOp(s, b);
        assert s[1..][..k - 1] == s[..k][1..];
      }
    }
  }

  lemma SkipOver(f: Bytes, p: nat, i: Instr)
    requires Proper(i) && Skippable(i) && At(f, p, OperandBytes(i))
    ensures SkipOperands(f, p, Opcode(i)) == Some(p + |OperandBytes(i)|)
  {
    hide At, OperandBytes, SkipOperands, RunOperands;
    SkipAgrees(f, p, i);
  }

  /** A jump, IF or ELSE before the opcode sought makes the component exit instead: its integer operand is
      read as a string. */
  lemma {:induction false} SkipExitsAtJump(f: Bytes, p: nat, s: seq<Instr>, b: Byte, k: nat)
    requires k < FirstOp(s, b) && s[k].Distance? && s[k].op != BEHAVIOUR_JUMP
    requires forall j | 0 <= j < |s| :: Proper(s[j])
    requires forall j | 0 <= j < k :: Skippable(s[j])
    requires At(f, p, Listing(s))
    ensures Skip(f, p, b) == Refused
    decreases k
  {
    hide At, OperandBytes, SkipOperands, RunOperands, Proper, Skippable, Opcode;
    var x, rest := OperandBytes(s[0]), Listing(s[1..]);
    assert InstrBytes(s[0]) + rest == [Opcode(s[0])] + (x + rest);
    AtCons(f, p, Opcode(s[0]), x + rest);
    AtSplit(f, p + 1, x, rest);
    if k == 0 {
      SkipAgrees(f, p + 1, s[0]);
    } else {
      SkipOver(f, p + 1, s[0]);
      SkipExitsAtJump(f, p + 1 + |x|, s[1..], b, k - 1);
    }
  }
}
