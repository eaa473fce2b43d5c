/**
 The bytecode table line by line (BytecodeTable.h): every instruction with its operands by name and its bytes
 written out, and the two readers of a component measured against it.
 */
module Layouts {
  import opened Wrappers
  import opened Decoding
  import B = Bytecode

  /** The operand of PUSH, by type. */
  datatype Constant =
    | Integer(x: Bytes)      // 4 bytes
    | Unsigned(x: Bytes)     // 4 bytes
    | Real(x: Bytes)         // 8 bytes
    | Boolean(b: Byte)
    | Octet(b: Byte)
    | Text(text: Bytes)

  /** The instructions of the table that a component's loop or its skipper reads operands for. */
  datatype Line =
    | Stop(name: Bytes)
    | EnterScope
    | ExitScope
    | Push(value: Constant)
    | Declare(name: Bytes, kind: Byte)
    | Load(name: Bytes)
    | Store(name: Bytes)
    | Add | Sub | Mul | Div | Mod
    | Less | LessEqual | More | MoreEqual | Equal | Unequal
    | And | Or | Not
    | Component(name: Bytes, interfaces: seq<seq<B.Channel>>)
    | Call(name: Bytes, count: Byte)
    | Constructor(params: seq<B.Param>)
    | BehaviourJump(distance: Bytes)
    | Jump(distance: Bytes)
    | If(distance: Bytes)
    | Else(distance: Bytes)
    | Connect(one: Bytes, out: Bytes, two: Bytes, into: Bytes)
    | Disconnect(one: Bytes, channel: Bytes)
    | Send(channel: Bytes)
    | Receive(channel: Bytes)
    | Proc(name: Bytes, params: seq<B.Param>)
    | Return
    | ProcCall(name: Bytes)
    | BlockEnd
    | StructNew(params: seq<B.Param>)
    | StructLoad(field: Bytes)
    | Any

  predicate Sized(c: Constant) {
    match c
    case Integer(x) => |x| == 4
    case Unsigned(x) => |x| == 4
    case Real(x) => |x| == 8
    case Boolean(_) => true
    case Octet(_) => true
    case Text(t) => 0 !in t
  }

  /** Names hold no NUL, counts fit a byte, distances are four bytes. */
  predicate WellFormed(l: Line) {
    match l
    case Stop(name) => 0 !in name
    case Push(c) => Sized(c)
    case Declare(name, _) => 0 !in name
    case Load(name) => 0 !in name
    case Store(name) => 0 !in name
    case Component(name, s) => 0 !in name && Listable(s)
    case Call(name, _) => 0 !in name
    case Constructor(ps) => Named(ps)
    case BehaviourJump(x) => |x| == 4
    case Jump(x) => |x| == 4
    case If(x) => |x| == 4
    case Else(x) => |x| == 4
    case Connect(a, b, c, d) => 0 !in a && 0 !in b && 0 !in c && 0 !in d
    case Disconnect(a, b) => 0 !in a && 0 !in b
    case Send(name) => 0 !in name
    case Receive(name) => 0 !in name
    case Proc(name, ps) => 0 !in name && Named(ps)
    case ProcCall(name) => 0 !in name
    case StructNew(ps) => Named(ps)
    case StructLoad(name) => 0 !in name
    case _ => true
  }

  predicate Named(ps: seq<B.Param>) {
    |ps| < 256 && forall k | 0 <= k < |ps| :: 0 !in ps[k].name
  }

  predicate Listable(s: seq<seq<B.Channel>>) {
    |s| < 256 && forall k | 0 <= k < |s| :: |s[k]| < 256 && forall j | 0 <= j < |s[k]| :: 0 !in s[k][j].name
  }

  // ----- the bytes -----

  /** A string operand: its type byte, its characters with newline and backslash escaped, NUL. */
  function Str(s: Bytes): Bytes {
    [6] + Encoded(s) + [0]
  }

  function ConstantBytes(c: Constant): Bytes {
    match c
    case Integer(x) => [1] + x
    case Unsigned(x) => [2] + x
    case Real(x) => [3] + x
    case Boolean(b) => [4, b]
    case Octet(b) => [5, b]
    case Text(t) => Str(t)
  }

  /** Type and name of each parameter. */
  function ParamBytes(ps: seq<B.Param>): Bytes {
    if ps == [] then [] else [ps[0].kind] + Str(ps[0].name) + ParamBytes(ps[1..])
  }

  /** Direction, type and name of each channel. */
  function ChannelBytes(cs: seq<B.Channel>): Bytes {
    if cs == [] then [] else [cs[0].direction, cs[0].kind] + Str(cs[0].name) + ChannelBytes(cs[1..])
  }

  /** Each interface: how many channels, and the channels. */
  function InterfaceBytes(s: seq<seq<B.Channel>>): Bytes
    requires forall k | 0 <= k < |s| :: |s[k]| < 256
  {
    if s == [] then [] else [|s[0]|] + ChannelBytes(s[0]) + InterfaceBytes(s[1..])
  }

  function Spelt(l: Line): Bytes
    requires WellFormed(l)
  {
    match l
    case Stop(name) => [0] + Str(name)
    case EnterScope => [1]
    case ExitScope => [2]
    case Push(c) => [3] + ConstantBytes(c)
    case Declare(name, kind) => [4] + Str(name) + [kind]
    case Load(name) => [5] + Str(name)
    case Store(name) => [6] + Str(name)
    case Add => [7]
    case Sub => [8]
    case Mul => [9]
    case Div => [10]
    case Mod => [11]
    case Less => [12]
    case LessEqual => [13]
    case More => [14]
    case MoreEqual => [15]
    case Equal => [16]
    case Unequal => [17]
    case And => [18]
    case Or => [19]
    case Not => [20]
    case Component(name, s) => [25] + Str(name) + [|s|] + InterfaceBytes(s)
    case Call(name, n) => [26] + Str(name) + [n]
    case Constructor(ps) => [27, |ps|] + ParamBytes(ps)
    case BehaviourJump(x) => [28, 1] + x
    case Jump(x) => [29, 1] + x
    case If(x) => [30, 1] + x
    case Else(x) => [31, 1] + x
    case Connect(a, b, c, d) => [32] + Str(a) + Str(b) + Str(c) + Str(d)
    case Disconnect(a, b) => [33] + Str(a) + Str(b)
    case Send(name) => [34] + Str(name)
    case Receive(name) => [35] + Str(name)
    case Proc(name, ps) => [36] + Str(name) + [|ps|] + ParamBytes(ps)
    case Return => [37]
    case ProcCall(name) => [38] + Str(name)
    case BlockEnd => [39]
    case StructNew(ps) => [40, 1, |ps|] + ParamBytes(ps)
    case StructLoad(name) => [40, 2] + Str(name)
    case Any => [41]
  }

  // ----- as the readers see them -----

  function DatumOf(c: Constant): B.Datum {
    match c
    case Integer(x) => B.Fixed(B.TYPE_INTEGER, x)
    case Unsigned(x) => B.Fixed(B.TYPE_UNSIGNED, x)
    case Real(x) => B.Fixed(B.TYPE_REAL, x)
    case Boolean(b) => B.Fixed(B.TYPE_BOOL, [b])
    case Octet(b) => B.Fixed(B.TYPE_BYTE, [b])
    case Text(t) => B.Datum.Text(t)
  }

  function InstrOf(l: Line): B.Instr {
    match l
    case Stop(name) => B.Named(B.STOP, [name])
    case EnterScope => B.Plain(B.ENTERSCOPE)
    case ExitScope => B.Plain(B.EXITSCOPE)
    case Push(c) => B.Instr.Push(DatumOf(c))
    case Declare(name, kind) => B.Instr.Declare(name, kind)
    case Load(name) => B.Named(B.LOAD, [name])
    case Store(name) => B.Named(B.STORE, [name])
    case Component(name, s) => B.Interfaces(name, s)
    case Call(name, n) => B.Instr.Call(name, n)
    case Constructor(ps) => B.Instr.Constructor(ps)
    case BehaviourJump(x) => B.Distance(B.BEHAVIOUR_JUMP, x)
    case Jump(x) => B.Distance(B.JUMP, x)
    case If(x) => B.Distance(B.IF, x)
    case Else(x) => B.Distance(B.ELSE, x)
    case Connect(a, b, c, d) => B.Named(B.CONNECT, [a, b, c, d])
    case Disconnect(a, b) => B.Named(B.DISCONNECT, [a, b])
    case Send(name) => B.Named(B.SEND, [name])
    case Receive(name) => B.Named(B.RECEIVE, [name])
    case Proc(name, ps) => B.Instr.Proc(name, ps)
    case ProcCall(name) => B.Named(B.PROCCALL, [name])
    case StructNew(ps) => B.Instr.StructNew(ps)
    case StructLoad(name) => B.Instr.StructLoad(name)
    case _ => B.Plain(Operation(l))
  }

  /** The opcodes that stand alone. */
  function Operation(l: Line): Byte {
    match l
    case Add => 7
    case Sub => 8
    case Mul => 9
    case Div => 10
    case Mod => 11
    case Less => 12
    case LessEqual => 13
    case More => 14
    case MoreEqual => 15
    case Equal => 16
    case Unequal => 17
    case And => 18
    case Or => 19
    case Not => 20
    case Return => 37
    case BlockEnd => 39
    case _ => 41
  }

  lemma StrIs(s: Bytes)
    ensures Str(s) == StringBytes(s)
  {
  }

  lemma {:induction false} ParamBytesAre(ps: seq<B.Param>)
    ensures ParamBytes(ps) == B.ParamsBytes(ps)
    decreases |ps|
  {
    hide Str, StringBytes;
    if ps != [] { StrIs(ps[0].name); ParamBytesAre(ps[1..]); }
  }

  lemma {:induction false} ChannelBytesAre(cs: seq<B.Channel>)
    ensures ChannelBytes(cs) == B.ChannelsBytes(cs)
    decreases |cs|
  {
    hide Str, StringBytes;
    if cs != [] { StrIs(cs[0].name); ChannelBytesAre(cs[1..]); }
  }

  lemma {:induction false} InterfaceBytesAre(s: seq<seq<B.Channel>>)
    requires forall k | 0 <= k < |s| :: |s[k]| < 256
    ensures InterfaceBytes(s) == B.InterfacesBytes(s)
    decreases |s|
  {
    hide ChannelBytes, B.ChannelsBytes;
    if s != [] { ChannelBytesAre(s[0]); InterfaceBytesAre(s[1..]); }
  }

  lemma ConstantIs(c: Constant)
    requires Sized(c)
    ensures B.ProperDatum(DatumOf(c)) && B.DatumBytes(DatumOf(c)) == ConstantBytes(c)
  {
    hide Str, StringBytes;
    if c.Text? { StrIs(c.text); }
  }

  lemma OneName(op: Byte, name: Bytes)
    requires 0 !in name && B.NameCount(op) == 1
    ensures B.Proper(B.Named(op, [name])) && B.InstrBytes(B.Named(op, [name])) == [op] + Str(name)
  {
    hide Str, StringBytes;
    StrIs(name);
    assert B.NamesBytes([name]) == StringBytes(name) + B.NamesBytes([name][1..]);
  }

  lemma {:induction false} NamesAre(names: seq<Bytes>)
    ensures |names| == 2 ==> B.NamesBytes(names) == Str(names[0]) + Str(names[1])
    ensures |names| == 4 ==> B.NamesBytes(names) == Str(names[0]) + Str(names[1]) + Str(names[2]) + Str(names[3])
  {
    hide Str, StringBytes;
    if |names| == 2 || |names| == 4 {
      StrIs(names[0]);
      StrIs(names[1]);
      assert B.NamesBytes(names) == StringBytes(names[0]) + B.NamesBytes(names[1..]);
      assert B.NamesBytes(names[1..]) == StringBytes(names[1]) + B.NamesBytes(names[2..]) by {
        assert names[1..][1..] == names[2..];
      }
      if |names| == 4 {
        StrIs(names[2]);
        StrIs(names[3]);
        assert B.NamesBytes(names[2..]) == StringBytes(names[2]) + B.NamesBytes(names[3..]) by {
          assert names[2..][1..] == names[3..];
        }
        assert B.NamesBytes(names[3..]) == StringBytes(names[3]) + B.NamesBytes(names[3..][1..]);
      } else {
        assert names[2..] == [];
      }
    }
  }

  /** The table's bytes of a line are those its instruction is read from. */
  predicate Matches(l: Line)
    requires WellFormed(l)
  {
    B.Proper(InstrOf(l)) && B.InstrBytes(InstrOf(l)) == Spelt(l)
  }

  lemma SpeltNamed(l: Line)
    requires WellFormed(l)
    requires l.Stop? || l.Load? || l.Store? || l.Send? || l.Receive? || l.ProcCall?
    ensures Matches(l)
  {
    hide Str, StringBytes, B.InstrBytes, B.Proper;
    match l
    case Stop(name) => OneName(B.STOP, name);
    case Load(name) => OneName(B.LOAD, name);
    case Store(name) => OneName(B.STORE, name);
    case Send(name) => OneName(B.SEND, name);
    case Receive(name) => OneName(B.RECEIVE, name);
    case ProcCall(name) => OneName(B.PROCCALL, name);
  }

  lemma SpeltChannels(l: Line)
    requires WellFormed(l) && (l.Connect? || l.Disconnect?)
    ensures Matches(l)
  {
    hide Str, StringBytes, B.NamesBytes;
    if l.Connect? { NamesAre([l.one, l.out, l.two, l.into]); } else { NamesAre([l.one, l.channel]); }
  }

  lemma SpeltHeads(l: Line)
    requires WellFormed(l) && (l.Component? || l.Call? || l.Proc? || l.Declare?)
    ensures Matches(l)
  {
    hide Str, StringBytes, ParamBytes, B.ParamsBytes, InterfaceBytes, B.InterfacesBytes;
    StrIs(l.name);
    if l.Component? { InterfaceBytesAre(l.interfaces); }
    if l.Proc? { ParamBytesAre(l.params); }
  }

  lemma SpeltParams(l: Line)
    requires WellFormed(l) && (l.Constructor? || l.StructNew? || l.StructLoad?)
    ensures Matches(l)
  {
    hide Str, StringBytes, ParamBytes, B.ParamsBytes;
    if l.StructLoad? { StrIs(l.field); } else { ParamBytesAre(l.params); }
  }

  lemma SpeltPush(l: Line)
    requires WellFormed(l) && l.Push?
    ensures Matches(l)
  {
    hide ConstantBytes, DatumOf, B.DatumBytes, B.ProperDatum, Sized;
    ConstantIs(l.value);
  }

  lemma SpeltPlain(l: Line)
    requires WellFormed(l) && InstrOf(l).Plain?
    ensures Matches(l)
  {
  }

  lemma SpeltFar(l: Line)
    requires WellFormed(l) && InstrOf(l).Distance?
    ensures Matches(l)
  {
  }

  lemma SpeltIs(l: Line)
    requires WellFormed(l)
    ensures B.Proper(InstrOf(l)) && B.InstrBytes(InstrOf(l)) == Spelt(l)
  {
    assert Matches(l) by {
      hide Matches, WellFormed;
      match l
      case Component(_, _) | Call(_, _) | Proc(_, _) | Declare(_, _) => SpeltHeads(l);
      case Connect(_, _, _, _) | Disconnect(_, _) => SpeltChannels(l);
      case Constructor(_) | StructNew(_) | StructLoad(_) => SpeltParams(l);
      case Push(_) => SpeltPush(l);
      case BehaviourJump(_) | Jump(_) | If(_) | Else(_) => SpeltFar(l);
      case Stop(_) | Load(_) | Store(_) | Send(_) | Receive(_) | ProcCall(_) => SpeltNamed(l);
      case _ => SpeltPlain(l);
    }
    hide B.Proper, B.InstrBytes, Spelt, InstrOf;
  }

  // ----- the readers -----

  /** The skipper passes over these as their handlers would. */
  predicate Passed(l: Line) {
    match l
    case BehaviourJump(_) => false
    case Jump(_) => false
    case If(_) => false
    case Else(_) => false
    case Call(_, n) => n == 0
    case StructNew(_) => false
    case _ => true
  }

  lemma OperandsAt(f: Bytes, p: nat, i: B.Instr)
    requires B.Proper(i) && At(f, p, B.InstrBytes(i))
    ensures p < |f| && f[p] == B.Opcode(i) && At(f, p + 1, B.OperandBytes(i))
    ensures |B.InstrBytes(i)| == 1 + |B.OperandBytes(i)|
  {
    hide At, B.OperandBytes, B.Opcode;
    B.AtCons(f, p, B.Opcode(i), B.OperandBytes(i));
  }

  lemma PassedIs(l: Line)
    requires WellFormed(l)
    ensures B.Skippable(InstrOf(l)) <==> Passed(l)
    ensures !l.StructNew? ==> !InstrOf(l).StructNew?
  {
  }

  /** The handler of every line of the table reads exactly the line; the skipper does so, short of struct
      constructors, if and only if the line is neither a jump, a conditional, nor a call with arguments. */
  lemma ReadersStop(f: Bytes, p: nat, l: Line)
    requires WellFormed(l) && At(f, p, Spelt(l))
    ensures p < |f| && B.RunOperands(f, p + 1, f[p]) == Some(p + |Spelt(l)|)
    ensures !l.StructNew? ==> (B.SkipOperands(f, p + 1, f[p]) == Some(p + |Spelt(l)|) <==> Passed(l))
  {
    hide *;
    SpeltIs(l);
    PassedIs(l);
    OperandsAt(f, p, InstrOf(l));
    B.RunReadsAll(f, p + 1, InstrOf(l));
    if !l.StructNew? { B.SkipAgrees(f, p + 1, InstrOf(l)); }
  }

  // ----- whole texts -----

  function Text(s: seq<Line>): Bytes
    requires forall k | 0 <= k < |s| :: WellFormed(s[k])
  {
    if s == [] then [] else Spelt(s[0]) + Text(s[1..])
  }

  function First(l: Line): Byte
    requires WellFormed(l)
  {
    Spelt(l)[0]
  }

  lemma FirstIs(f: Bytes, p: nat, l: Line)
    requires WellFormed(l) && At(f, p, Spelt(l))
    ensures p < |f| && f[p] == First(l) && |Spelt(l)| > 0
  {
    hide *;
    SpeltIs(l);
    OperandsAt(f, p, InstrOf(l));
    HeadIs(f, p, l);
  }

  lemma HeadIs(f: Bytes, p: nat, l: Line)
    requires WellFormed(l) && At(f, p, Spelt(l)) && |Spelt(l)| > 0
    ensures f[p] == First(l)
  {
    hide Spelt;
    assert f[p..p + |Spelt(l)|][0] == f[p];
  }

  /** Looking for an opcode over lines it can pass, the skipper stops just past the first line that has it, and goes on
      after the lines, or finds nothing at the end of the file, if none has. */
  lemma {:induction false} SkipperStops(f: Bytes, p: nat, s: seq<Line>, b: Byte, k: nat)
    requires (forall j | 0 <= j < |s| :: WellFormed(s[j])) && At(f, p, Text(s)) && k <= |s|
    requires forall j | 0 <= j < k :: First(s[j]) != b && Passed(s[j])
    requires k < |s| ==> First(s[k]) == b
    ensures k < |s| ==> B.Skip(f, p, b) == B.Found(p + |Text(s[..k])| + 1)
    ensures k == |s| ==> B.Skip(f, p, b) == B.Skip(f, p + |Text(s)|, b)
    ensures k == |s| && p + |Text(s)| == |f| ==> B.Skip(f, p, b) == B.Missing(|f|)
    decreases |s|
  {
    hide At, Spelt, First, Passed, WellFormed, B.SkipOperands, B.RunOperands;
    if s != [] {
      AtSplit(f, p, Spelt(s[0]), Text(s[1..]));
      FirstIs(f, p, s[0]);
      if k > 0 {
        NotStruct(s[0]);
        ReadersStop(f, p, s[0]);
        SkipperStops(f, p + |Spelt(s[0])|, s[1..], b, k - 1);
        assert s[..k][1..] == s[1..][..k - 1];
      } else {
        assert s[..0] == [];
      }
    }
  }

  lemma NotStruct(l: Line)
    requires Passed(l)
    ensures !l.StructNew?
  {
  }
}
