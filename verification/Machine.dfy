/**
 The instruction loop of a component (component_run in Component.c) as steps on a state: the byte
 position, the data stack, the scope stack and the procedures declared so far.  Here the scopes are maps, and
 the loop gives up where a name would be entered twice at one level; Interpreter.dfy has the scopes as they are.
 */
module Machines {
  import opened Wrappers
  import opened ListMaps
  import S = Scoping
  import C = ScopeChains
  import opened Decoding
  import opened Bytecode
  import A = Arithmetic

  // ----- values -----

  datatype Value = Number(n: A.Num) | Truth(b: bool) | String(text: Bytes) | Real(bits: Bytes)

  /** What a name is bound to; a return address is stored among the variables of its frame. */
  datatype Cell = Val(v: Value) | Address(pos: nat)

  /** The key a name denotes: a C string ends at its first NUL. */
  function Key(name: Bytes): string {
    if name == [] || name[0] == NUL then "" else [name[0] as char] + Key(name[1..])
  }

  /** It has the characters of the text before that NUL, one for one. */
  lemma {:induction false} KeyIs(a: Bytes, z: Bytes)
    requires NUL !in a
    ensures |Key(a)| == |a| && forall i | 0 <= i < |a| :: Key(a)[i] as int == a[i]
    ensures Key(a + [NUL] + z) == Key(a)
    decreases |a|
  {
    if a == [] {
      assert ([] + [NUL] + z)[0] == NUL;
    } else {
      KeyIs(a[1..], z);
      assert (a + [NUL] + z)[1..] == a[1..] + [NUL] + z;
    }
  }

  /** Names are told apart: two texts have the same key exactly when they are the same. */
  lemma KeyTellsApart(a: Bytes, b: Bytes)
    requires NUL !in a && NUL !in b
    ensures Key(a) == Key(b) <==> a == b
  {
    KeyIs(a, []);
    KeyIs(b, []);
    hide Key;
    if Key(a) == Key(b) {
      forall i | 0 <= i < |a| ensures a[i] == b[i] { assert Key(a)[i] as int == a[i] && Key(b)[i] as int == b[i]; }
    }
  }

  const RETURN_ADDRESS: string := "_returnAddress"
  const RETURN_SOURCE: string := "_returnSource"

  function Signed(v: nat, bound: nat): int {
    if v < bound then v else v - 2 * bound
  }

  function Literal(d: Datum): Value
    requires d.Fixed? ==> |d.bytes| == Width(d.kind) > 0
  {
    match d
    case Text(t) => String(t)
    case Fixed(kind, x) =>
      if kind == TYPE_INTEGER then Number(A.Num(A.IntKind, Signed(BigEndian(x), 0x8000_0000)))
      else if kind == TYPE_UNSIGNED then Number(A.Num(A.UnsignedKind, BigEndian(x)))
      else if kind == TYPE_BOOL then Truth(x[0] != 0)
      else if kind == TYPE_BYTE then Number(A.Num(A.ByteKind, Signed(x[0], 0x80)))
      else Real(x)
  }

  /** A value that an operand can hold: a number of its type, a truth value, a text, the eight bytes of a real. */
  predicate Denotable(v: Value) {
    match v
    case Number(n) => A.Proper(n)
    case Truth(_) => true
    case String(t) => NUL !in t
    case Real(x) => |x| == 8
  }

  function ValueDatum(v: Value): Datum
    requires Denotable(v)
  {
    match v
    case Number(n) => NumberDatum(n)
    case Truth(b) => Fixed(TYPE_BOOL, [if b then 1 else 0])
    case String(t) => Text(t)
    case Real(x) => Fixed(TYPE_REAL, x)
  }

  /** The operand of PUSH for a number: two's complement, most significant byte first. */
  function NumberDatum(n: A.Num): Datum
    requires A.Proper(n)
  {
    match n.kind
    case IntKind => Fixed(TYPE_INTEGER, BigBytes(if n.value < 0 then n.value + 0x1_0000_0000 else n.value, 4))
    case UnsignedKind => Fixed(TYPE_UNSIGNED, BigBytes(n.value, 4))
    case ByteKind => Fixed(TYPE_BYTE, BigBytes(if n.value < 0 then n.value + 0x100 else n.value, 1))
  }

  /** Every value reads back from its operand as itself, and any byte but 0 is true. */
  lemma LiteralInverts(v: Value)
    requires Denotable(v)
    ensures var d := ValueDatum(v);
      ProperDatum(d) && (d.Fixed? ==> |d.bytes| == Width(d.kind) > 0) && Literal(d) == v
    ensures forall b: Byte :: Literal(Fixed(TYPE_BOOL, [b])) == Truth(b != 0)
  {
    if v.Number? { NumberInverts(v.n); }
  }

  lemma NumberInverts(n: A.Num)
    requires A.Proper(n)
    ensures var d := NumberDatum(n);
            ProperDatum(d) && d.Fixed? && Literal(d) == Number(n)
  {
    assert Power256(4) == 0x1_0000_0000 && Power256(1) == 0x100;
    var v :=
      if n.value >= 0 then n.value
      else if n.kind == A.ByteKind then n.value + 0x100
      else n.value + 0x1_0000_0000;
    if n.kind == A.ByteKind {
      BigBytesValue(v, 1);
      assert BigBytes(v, 1)[0] == v % 256;
    } else {
      BigBytesValue(v, 4);
    }
  }

  /** The result of an instruction: Failed where the component exits (or dereferences a null pointer), Unclear
      where C leaves the result undefined or this model does not follow, Doubled where a scope level would come
      to hold a name twice. */
  datatype Reply<T> = Got(value: T) | Failed | Unclear | Doubled

  function FromOption<T>(r: Option<T>): Reply<T> {
    match r case None => Failed case Some(x) => Got(x)
  }

  predicate IsNumber(x: Value) {
    x.Number? || x.Real?
  }

  /** Binary operations: a type error is fatal; real operands, and results C leaves undefined, are not followed. */
  function Combine(op: Byte, x: Value, y: Value): Reply<Value> {
    if op == AND || op == OR then
      if x.Truth? && y.Truth? then Got(Truth(if op == AND then x.b && y.b else x.b || y.b)) else Failed
    else if !IsNumber(x) || !IsNumber(y) then Failed
    else if x.Real? || y.Real? then if op == MOD then Failed else Unclear
    else if op == MOD then (match A.Modulo(x.n, y.n) case None => Unclear case Some(r) => Got(Number(r)))
    else if ADD <= op <= DIV then
      var arithmetic := if op == ADD then A.Add else if op == SUB then A.Sub else if op == MUL then A.Mul else A.Div;
      match A.Meant(arithmetic, x.n, y.n)
      case None => Unclear
      case Some(r) => Got(Number(r))
    else
      var a, b := x.n.value, y.n.value;
      Got(Truth(
        if op == LESS then a < b else if op == LESSEQUAL then a <= b else if op == MORE then a > b
        else if op == MOREEQUAL then a >= b else if op == EQUAL then a == b else a != b))
  }

  // ----- reading operands -----

  /** component_readData when the type is known; None otherwise. */
  function ReadData(f: Bytes, p: nat): (r: Option<(Datum, nat)>)
    ensures r.Some? && r.value.0.Fixed? ==> |r.value.0.bytes| == Width(r.value.0.kind) > 0
  {
    if Get(f, p) == TYPE_STRING then
      (match ReadString(f, p) case None => None case Some(t) => Some((Text(t.0), t.1)))
    else if p < |f| && Width(f[p]) > 0 then
      Some((Fixed(f[p], Taken(f, p + 1, Width(f[p]))), Advance(f, p + 1, Width(f[p]))))
    else None
  }

  /** A jump distance: an operand of integer type. */
  function ReadDistance(f: Bytes, p: nat): Option<(int, nat)> {
    match ReadData(f, p)
    case Some((Fixed(1, x), q)) => Some((Signed(BigEndian(x), 0x8000_0000), q))
    case _ => None
  }

  function ReadParams(f: Bytes, p: nat, n: nat): Option<(seq<string>, nat)>
    decreases n
  {
    if n == 0 then Some(([], p)) else
      match ReadString(f, After(f, p))
      case None => None
      case Some((name, q)) =>
        match ReadParams(f, q, n - 1)
        case None => None
        case Some((rest, r)) => Some(([Key(name)] + rest, r))
  }

  // ----- states -----

  /** A procedure's names are as its list holds them, the last parameter first. */
  datatype Procedure = Procedure(position: nat, names: seq<string>)

  /** A component's state, over some form of scope stack: maps here, entries with cursors in Interpreter.dfy. */
  datatype Config<Sc> = State(pos: nat, stack: seq<Value>, scopes: Sc, procs: map<string, Procedure>, stop: bool)

  type State = Config<S.Scopes<Cell>>

  /** One turn of the loop.  Beyond and Doubles are the turns of which Reply says Unclear and Doubled. */
  datatype Fate<Sc> = Next(state: Config<Sc>) | Ended | Exits | Beyond | Doubles

  type Outcome = Fate<S.Scopes<Cell>>

  function Top(stack: seq<Value>): Option<Value> {
    if stack == [] then None else Some(stack[|stack| - 1])
  }

  function Pop(stack: seq<Value>): seq<Value> {
    if stack == [] then [] else stack[..|stack| - 1]
  }

  function TopCell(stack: seq<Value>): Option<Cell> {
    if stack == [] then None else Some(Val(stack[|stack| - 1]))
  }

  // ----- the instructions that only touch the stacks -----

  datatype Prim = Lit(d: Datum) | Decl(name: Bytes, kind: Byte) | Fetch(name: Bytes) | Put(name: Bytes) | Op(op: Byte)

  predicate Literate(i: Prim) {
    i.Lit? && i.d.Fixed? ==> |i.d.bytes| == Width(i.d.kind) > 0
  }

  type Effect<Sc> = Reply<(seq<Value>, Sc)>

  /** DECLARE on maps: the name gets no value, or keeps the one it has. */
  function DeclareIn(scopes: S.Scopes<Cell>, name: string): Reply<S.Scopes<Cell>> {
    if C.Clashes(scopes, name) then Doubled else FromOption(S.Declare(scopes, name))
  }

  /** What LOAD pushes. */
  function Pushed<Sc>(v: Option<Cell>, stack: seq<Value>, scopes: Sc): Effect<Sc> {
    match v
    case None => Failed
    case Some(Val(x)) => Got((stack + [x], scopes))
    case Some(Address(_)) => Unclear
  }

  /** The two top values give way to the result. */
  function Computed<Sc>(op: Byte, stack: seq<Value>, scopes: Sc): Effect<Sc> {
    if |stack| < 2 then Failed else
      match Combine(op, stack[|stack| - 2], stack[|stack| - 1])
      case Got(v) => Got((stack[..|stack| - 2] + [v], scopes))
      case Failed => Failed
      case Unclear => Unclear
      case Doubled => Doubled
  }

  /** The stack after an operation on the scopes alone. */
  function With<Sc>(stack: seq<Value>, scopes: Reply<Sc>): Effect<Sc> {
    match scopes
    case Got(s) => Got((stack, s))
    case Failed => Failed
    case Unclear => Unclear
    case Doubled => Doubled
  }

  function DoPrim(i: Prim, stack: seq<Value>, scopes: S.Scopes<Cell>): Effect<S.Scopes<Cell>>
    requires Literate(i)
  {
    match i
    case Lit(d) => Got((stack + [Literal(d)], scopes))
    case Decl(name, _) => With(stack, DeclareIn(scopes, Key(name)))
    case Fetch(name) => Pushed(S.Load<Cell>(scopes, Key(name)), stack, scopes)
    case Put(name) => With(Pop(stack), FromOption(S.Store(scopes, Key(name), TopCell(stack))))
    case Op(op) => Computed(op, stack, scopes)
  }

  function IsPrim(op: Byte): bool {
    op in {PUSH, DECLARE, LOAD, STORE} || ADD <= op <= OR
  }

  /** The primitive instruction with this opcode whose operands start at p. */
  function ReadPrim(f: Bytes, p: nat, op: Byte): (r: Option<(Prim, nat)>)
    requires IsPrim(op)
    ensures r.Some? ==> Literate(r.value.0)
  {
    if op == PUSH then (match ReadData(f, p) case None => None case Some((d, q)) => Some((Lit(d), q)))
    else if op == DECLARE then
      (match ReadString(f, p) case None => None
       case Some((name, q)) => Some((Decl(name, if q < |f| then f[q] else 0), After(f, q))))
    else if op == LOAD then (match ReadString(f, p) case None => None case Some((name, q)) => Some((Fetch(name), q)))
    else if op == STORE then (match ReadString(f, p) case None => None case Some((name, q)) => Some((Put(name), q)))
    else Some((Op(op), p))
  }

  // ----- where the handlers leave the position -----

  /** The position after what was read. */
  function End<T>(r: Option<(T, nat)>): Option<nat> {
    if r.Some? then Some(r.value.1) else None
  }

  lemma {:induction false} ParamsPassed(f: Bytes, p: nat, n: nat)
    ensures PassParams(f, p, n) == End(ReadParams(f, p, n))
    decreases n
  {
    hide ReadString, Key;
    if n > 0 && ReadString(f, After(f, p)).Some? { ParamsPassed(f, ReadString(f, After(f, p)).value.1, n - 1); }
  }

  lemma DataPassed(f: Bytes, p: nat)
    requires ReadData(f, p).Some?
    ensures PassData(f, p) == End(ReadData(f, p))
  {
    hide ReadString;
  }

  /** The position PROC records for the body. */
  function HeaderEnd(f: Bytes, p: nat): Option<nat> {
    match ReadString(f, p)
    case None => None
    case Some((_, q)) => End(ReadParams(f, After(f, q), CountAt(f, q)))
  }

  /** The handlers of the loop read their operands as RunOperands says: the data, the names, the distance and the
      parameters they use end where it ends. */
  lemma HandlersRead(f: Bytes, p: nat, op: Byte)
    ensures IsPrim(op) && ReadPrim(f, p, op).Some? ==> RunOperands(f, p, op) == End(ReadPrim(f, p, op))
    ensures op in {BEHAVIOUR_JUMP, JUMP, IF, ELSE} && ReadDistance(f, p).Some? ==>
              RunOperands(f, p, op) == End(ReadDistance(f, p))
    ensures op == STOP || op == PROCCALL ==> RunOperands(f, p, op) == End(ReadString(f, p))
    ensures op == PROC ==> RunOperands(f, p, op) == HeaderEnd(f, p)
    ensures op in {ENTERSCOPE, EXITSCOPE, RETURN, BLOCKEND} ==> RunOperands(f, p, op) == Some(p)
  {
    hide ReadString, ReadData, ReadParams, PassData, PassParams;
    if op == PUSH && ReadData(f, p).Some? { DataPassed(f, p); }
    if op == PROC && ReadString(f, p).Some? {
      var q := ReadString(f, p).value.1;
      ParamsPassed(f, After(f, q), CountAt(f, q));
    }
    if op in {BEHAVIOUR_JUMP, JUMP, IF, ELSE} && ReadDistance(f, p).Some? { DataPassed(f, p); }
    if NameCount(op) == 1 { OneString(f, p); }
  }

  lemma OneString(f: Bytes, p: nat)
    ensures PassStrings(f, p, 1) == PassString(f, p)
  {
    hide PassString;
    if PassString(f, p).Some? { assert PassStrings(f, PassString(f, p).value, 0) == PassString(f, p); }
  }

  // ----- control flow -----

  /** JUMP goes back: the distance counts from one past the operand. */
  function Jumped(f: Bytes, p: nat): Reply<nat> {
    match ReadDistance(f, p)
    case None => Failed
    case Some((n, q)) => if n < -0x7FFF_FFFE then Unclear else Got(Sought(q, -n + 1))
  }

  /** A false IF skips its distance, then consumes an ELSE and its operand if one stands there, and otherwise
      seeks back over the byte it has just looked at. */
  function IfFalse(f: Bytes, q: nat, n: int): Option<nat> {
    var r := Sought(q, n);
    if Get(f, r) == ELSE then PassData(f, r + 1) else Some(Sought(After(f, r), -1))
  }

  function Conditional<Sc>(f: Bytes, s: Config<Sc>, p: nat): Option<Config<Sc>> {
    match ReadDistance(f, p)
    case None => None
    case Some((n, q)) =>
      match Top(s.stack)
      case Some(Truth(b)) =>
        (match if b then Some(q) else IfFalse(f, q, n)
         case None => None
         case Some(r) => Some(s.(pos := r, stack := Pop(s.stack))))
      case _ => None
  }

  function Elsewhere<Sc>(f: Bytes, s: Config<Sc>, p: nat): Option<Config<Sc>> {
    match ReadDistance(f, p)
    case None => None
    case Some((n, q)) => Some(s.(pos := Sought(q, n)))
  }

  // ----- procedures -----

  /** PROC: record where the body starts and pass over it. */
  function Declared<Sc>(f: Bytes, s: Config<Sc>, p: nat): Option<Config<Sc>> {
    match ReadString(f, p)
    case None => None
    case Some((name, q)) =>
      match ReadParams(f, After(f, q), CountAt(f, q))
      case None => None
      case Some((names, r)) =>
        var procs := s.procs[Key(name) := Procedure(r, Flipped(names))];
        match Skip(f, r, BLOCKEND)
        case Refused => None
        case Missing(t) => Some(s.(pos := t, procs := procs))
        case Found(t) => Some(s.(pos := t, procs := procs))
  }

  /** A list built by inserting each element at its head. */
  function Flipped<T>(s: seq<T>): (r: seq<T>)
    ensures |r| == |s| && forall i | 0 <= i < |s| :: r[i] == s[|s| - 1 - i]
  {
    if s == [] then [] else Flipped(s[1..]) + [s[0]]
  }

  /** Declare each name in the top scope and pop its value into it; a missing value is null. */
  function NamesBound(names: seq<string>, stack: seq<Value>, scopes: S.Scopes<Cell>): Effect<S.Scopes<Cell>> {
    if names == [] then Got((stack, scopes)) else
      match DeclareIn(scopes, names[0])
      case Got(declared) =>
        (match S.Store(declared, names[0], TopCell(stack))
         case None => Failed
         case Some(stored) => NamesBound(names[1..], Pop(stack), stored))
      case r => With(stack, r)
  }

  /** Control moves to q with the stack and the scopes of the effect. */
  function Going<Sc>(s: Config<Sc>, q: nat, r: Effect<Sc>): Fate<Sc> {
    match r
    case Got((stack, scopes)) => Next(s.(pos := q, stack := stack, scopes := scopes))
    case Failed => Exits
    case Unclear => Beyond
    case Doubled => Doubles
  }

  /** PROCCALL to a procedure of this component: a new scope with the return address, then the parameters. */
  function Called(f: Bytes, s: State, p: nat): Outcome {
    match ReadString(f, p)
    case None => Exits
    case Some((name, q)) =>
      if Key(name) !in s.procs then Beyond else
        var proc := s.procs[Key(name)];
        Going(s, proc.position, NamesBound(proc.names, s.stack, [map[RETURN_ADDRESS := Some(Address(q))]] + s.scopes))
  }

  /** Where a RETURN goes: nowhere without an address, beyond this file with a source. */
  function Back<Sc>(s: Config<Sc>, address: Option<Cell>, source: Option<Cell>, below: Sc): Fate<Sc> {
    if source.Some? then Beyond else
      match address
      case None => Exits
      case Some(Val(_)) => Beyond
      case Some(Address(q)) => Next(s.(pos := q, scopes := below))
  }

  /** RETURN: to the innermost return address, leaving scopes down to its frame and then one more. */
  function Returned(s: State): Outcome {
    Back(s, S.Load<Cell>(s.scopes, RETURN_ADDRESS), S.Load<Cell>(s.scopes, RETURN_SOURCE),
         S.Exit(S.ExitTo(s.scopes, RETURN_ADDRESS)))
  }

  // ----- one turn of the loop -----

  function Lift<Sc>(r: Option<Config<Sc>>): Fate<Sc> {
    match r case None => Exits case Some(s) => Next(s)
  }

  /** The instructions that look at no scope. */
  predicate Scopeless(op: Byte) {
    op == BEHAVIOUR_JUMP || op == JUMP || op == IF || op == ELSE || op == PROC || NOT < op < COMPONENT ||
        op > PROJECT_EXIT
  }

  function DoScopeless<Sc>(f: Bytes, s: Config<Sc>, op: Byte, p: nat): Fate<Sc>
    requires Scopeless(op)
  {
    if op == BEHAVIOUR_JUMP || op == JUMP then
      (match Jumped(f, p) case Got(q) => Next(s.(pos := q)) case Unclear => Beyond case _ => Exits)
    else if op == IF then Lift(Conditional(f, s, p))
    else if op == ELSE then Lift(Elsewhere(f, s, p))
    else if op == PROC then Lift(Declared(f, s, p))
    else Next(s.(pos := p))
  }

  function Do(f: Bytes, self: string, s: State, op: Byte, p: nat): Outcome {
    if op == ENTERSCOPE then Next(s.(pos := p, scopes := [map[]] + s.scopes))
    else if op == EXITSCOPE then Next(s.(pos := p, scopes := S.Exit(s.scopes)))
    else if IsPrim(op) then
      (match ReadPrim(f, p, op)
       case None => Exits
       case Some((i, q)) => Going(s, q, DoPrim(i, s.stack, s.scopes)))
    else if op == STOP then
      (match ReadString(f, p)
       case None => Exits
       case Some((name, q)) => if Key(name) == "" || Key(name) == self then Next(s.(pos := q, stop := true))
           else Beyond)
    else if Scopeless(op) then DoScopeless(f, s, op, p)
    else if op == PROCCALL then Called(f, s, p)
    else if op == RETURN then Returned(s)
    else if op == BLOCKEND then
      if S.Load(s.scopes, RETURN_ADDRESS).Some? then Returned(s) else Next(s.(pos := p))
    else Beyond
  }

  function Step(f: Bytes, self: string, s: State): Outcome {
    if s.stop || s.pos >= |f| then Ended else Do(f, self, s, f[s.pos], s.pos + 1)
  }

  function Steps(f: Bytes, self: string, s: State, n: nat): Outcome
    decreases n
  {
    if n == 0 then Next(s) else
      match Step(f, self, s)
      case Next(t) => Steps(f, self, t, n - 1)
      case o => o
  }

  ghost predicate Reaches(f: Bytes, self: string, s: State, t: State) {
    exists n: nat :: Steps(f, self, s, n) == Next(t)
  }

  lemma {:induction false} StepsAdd(f: Bytes, self: string, s: State, n: nat, t: State, m: nat)
    requires Steps(f, self, s, n) == Next(t)
    ensures Steps(f, self, s, n + m) == Steps(f, self, t, m)
    decreases n
  {
    hide Step;
    if n > 0 { StepsAdd(f, self, Step(f, self, s).state, n - 1, t, m); }
  }

  lemma ReachesTrans(f: Bytes, self: string, s: State, t: State, u: State)
    requires Reaches(f, self, s, t) && Reaches(f, self, t, u)
    ensures Reaches(f, self, s, u)
  {
    hide Steps;
    var n: nat :| Steps(f, self, s, n) == Next(t);
    var m: nat :| Steps(f, self, t, m) == Next(u);
    StepsAdd(f, self, s, n, t, m);
  }

  lemma ReachesSelf(f: Bytes, self: string, s: State)
    ensures Reaches(f, self, s, s)
  {
    assert Steps(f, self, s, 0) == Next(s);
  }

  lemma ReachesStep(f: Bytes, self: string, s: State, t: State)
    requires Step(f, self, s) == Next(t)
    ensures Reaches(f, self, s, t)
  {
    hide Step;
    assert Steps(f, self, s, 1) == Next(t) by { assert Steps(f, self, t, 0) == Next(t); }
  }
}
