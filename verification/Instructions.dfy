/**
 What the instructions of expressions and variables do, from the bytes of the file to what lies on the stack, in
 plain arithmetic and truth tables; how names are told apart; and how STOP ends the loop.
 */
module Instructions {
  import opened Wrappers
  import S = Scoping
  import C = ScopeChains
  import opened Decoding
  import opened Bytecode
  import opened Machines
  import opened Structured
  import opened Simulation
  import opened Programs
  import opened Interpreter
  import opened Execution
  import A = Arithmetic

  // ----- operands -----

  /** PUSH of a number: its type, then its bytes in two's complement, most significant first. */
  function NumberBytes(n: A.Num): Bytes
    requires A.Proper(n)
  {
    match n.kind
    case IntKind => [3, 1] + BigBytes(if n.value < 0 then n.value + 0x1_0000_0000 else n.value, 4)
    case UnsignedKind => [3, 2] + BigBytes(n.value, 4)
    case ByteKind => [3, 5, if n.value < 0 then n.value + 0x100 else n.value]
  }

  function TruthBytes(b: bool): Bytes {
    [3, 4, if b then 1 else 0]
  }

  function TextBytes(t: Bytes): Bytes {
    [3, 6] + Encoded(t) + [0]
  }

  lemma NumberBytesAre(n: A.Num)
    requires A.Proper(n)
    ensures NumberBytes(n) == PrimBytes(Lit(ValueDatum(Number(n))))
  {
    if n.kind == A.ByteKind {
      var v := if n.value < 0 then n.value + 0x100 else n.value;
      assert BigBytes(v, 1) == BigBytes(v / 256, 0) + [v % 256];
    }
  }

  lemma OtherBytesAre(b: bool, t: Bytes)
    ensures TruthBytes(b) == PrimBytes(Lit(ValueDatum(Truth(b))))
    ensures 0 !in t ==> TextBytes(t) == PrimBytes(Lit(ValueDatum(String(t))))
  {
  }

  /** PUSH of a value. */
  function PushBytes(v: Value): Bytes
    requires Denotable(v) && !v.Real?
  {
    match v
    case Number(n) => NumberBytes(n)
    case Truth(b) => TruthBytes(b)
    case String(t) => TextBytes(t)
  }

  lemma PushBytesAre(v: Value)
    requires Denotable(v) && !v.Real?
    ensures PushBytes(v) == PrimBytes(Lit(ValueDatum(v)))
    ensures PlainPrim(Lit(ValueDatum(v))) && Literate(Lit(ValueDatum(v))) && Literal(ValueDatum(v)) == v
  {
    LiteralInverts(v);
    hide NumberBytes, TruthBytes, TextBytes, PrimBytes, Literal, ValueDatum;
    match v
    case Number(n) => NumberBytesAre(n);
    case Truth(b) => OtherBytesAre(b, []);
    case String(t) => OtherBytesAre(false, t);
  }

  // ----- an operation on two operands -----

  /** Two operands and an operation. */
  function Sum(v: Value, w: Value, op: Byte): Bytes
    requires Denotable(v) && !v.Real? && Denotable(w) && !w.Real?
  {
    PushBytes(v) + (PushBytes(w) + [op])
  }

  /** After three turns the loop is past the operation, with this one value more on the stack, and nothing else has
      changed. */
  ghost predicate Leaves(f: Bytes, self: string, e: Image, length: nat, r: Value) {
    Turns(f, self, e, 3) == Next(e.(pos := e.pos + length, stack := e.stack + [r]))
  }

  lemma ThreeTurns(f: Bytes, self: string, e: Image, a: Image, b: Image)
    requires Turn(f, self, e) == Next(a) && Turn(f, self, a) == Next(b)
    ensures Turns(f, self, e, 3) == Turn(f, self, b)
  {
    hide *;
    TurnsOne(f, self, e);
    TurnsOne(f, self, a);
    TurnsOne(f, self, b);
    TurnsAdd(f, self, e, 1, a, 2);
    TurnsAdd(f, self, a, 1, b, 1);
  }

  lemma PushTurn(f: Bytes, self: string, e: Image, v: Value)
    requires Denotable(v) && !v.Real? && At(f, e.pos, PushBytes(v)) && !e.stop
    ensures Turn(f, self, e) == Next(e.(pos := e.pos + |PushBytes(v)|, stack := e.stack + [v]))
  {
    hide At, PushBytes, PrimBytes, Turn, Literal, ValueDatum;
    PushBytesAre(v);
    PrimTurn(f, self, e, Lit(ValueDatum(v)));
  }

  lemma OpTurn(f: Bytes, self: string, e: Image, op: Byte, x: Value, y: Value, below: seq<Value>)
    requires ADD <= op <= OR && At(f, e.pos, [op]) && !e.stop && e.stack == below + [x, y]
    ensures Turn(f, self, e) ==
      match Combine(op, x, y)
      case Got(r) => Next(e.(pos := e.pos + 1, stack := below + [r]))
      case Failed => Exits
      case Unclear => Beyond
      case Doubled => Doubles
  {
    hide At, Turn, Combine;
    PrimTurn(f, self, e, Op(op));
    assert e.stack[..|e.stack| - 2] == below;
  }

  lemma TwoOperands(f: Bytes, self: string, e: Image, v: Value, w: Value, op: Byte)
    requires Denotable(v) && !v.Real? && Denotable(w) && !w.Real? && ADD <= op <= OR
    requires At(f, e.pos, Sum(v, w, op)) && !e.stop
    ensures Turns(f, self, e, 3) ==
      match Combine(op, v, w)
      case Got(r) => Next(e.(pos := e.pos + |Sum(v, w, op)|, stack := e.stack + [r]))
      case Failed => Exits
      case Unclear => Beyond
      case Doubled => Doubles
  {
    hide At, PushBytes, Turn, Turns, Combine, Denotable;
    AtSplit(f, e.pos, PushBytes(v), PushBytes(w) + [op]);
    AtSplit(f, e.pos + |PushBytes(v)|, PushBytes(w), [op]);
    var a := e.(pos := e.pos + |PushBytes(v)|, stack := e.stack + [v]);
    var b := a.(pos := a.pos + |PushBytes(w)|, stack := e.stack + [v] + [w]);
    PushTurn(f, self, e, v);
    PushTurn(f, self, a, w);
    assert e.stack + [v] + [w] == e.stack + [v, w];
    OpTurn(f, self, b, op, v, w, e.stack);
    ThreeTurns(f, self, e, a, b);
  }

  /** What the machine leaves, by what the operation replies. */
  lemma LeavesIff(f: Bytes, self: string, e: Image, v: Value, w: Value, op: Byte)
    requires Denotable(v) && !v.Real? && Denotable(w) && !w.Real? && ADD <= op <= OR
    requires At(f, e.pos, Sum(v, w, op)) && !e.stop
    ensures forall r :: Leaves(f, self, e, |Sum(v, w, op)|, r) <==> Combine(op, v, w) == Got(r)
    ensures Turns(f, self, e, 3) == Exits <==> Combine(op, v, w) == Failed
    ensures Turns(f, self, e, 3) == Beyond <==> Combine(op, v, w) == Unclear
  {
    hide At, Sum, Turns, Combine, Denotable;
    TwoOperands(f, self, e, v, w, op);
    var n := |Sum(v, w, op)|;
    forall r ensures Leaves(f, self, e, n, r) <==> Combine(op, v, w) == Got(r) {
      if Leaves(f, self, e, n, r) && Combine(op, v, w).Got? {
        var q := Combine(op, v, w).value;
        assert (e.stack + [r])[|e.stack|] == (e.stack + [q])[|e.stack|];
      }
    }
  }

  // ----- arithmetic -----

  /** Unsigned if either is, else int if either is, else byte. */
  predicate Joins(x: A.Num, y: A.Num, k: A.Kind) {
    && (k == A.UnsignedKind <==> x.kind == A.UnsignedKind || y.kind == A.UnsignedKind)
    && (k == A.ByteKind <==> x.kind == A.ByteKind && y.kind == A.ByteKind)
  }

  /** The whole number that ADD, SUB, MUL or DIV is to leave. */
  ghost predicate IsResult(op: Byte, a: int, b: int, r: int) {
    match op
    case 7 => r == a + b
    case 8 => r == a - b
    case 9 => r == a * b
    case _ => exists m: int :: Divides(a, b, r, m)
  }

  /** q is the quotient and m the remainder, of the sign of a. */
  predicate Divides(a: int, b: int, q: int, m: int) {
    b != 0 && a == q * b + m && A.AbsInt(m) < A.AbsInt(b) && (m == 0 || (m < 0 <==> a < 0))
  }

  /** The numbers of a type. */
  predicate Spans(k: A.Kind, n: int) {
    match k
    case IntKind => -2147483648 <= n <= 2147483647
    case UnsignedKind => 0 <= n <= 4294967295
    case ByteKind => -128 <= n <= 127
  }

  /** ADD, SUB, MUL and DIV of two numbers, the one pushed first on the left: they leave what the operation through
      doubles may yield, and that is the exact result, truncated toward zero, if the joined type has it and nothing
      otherwise. */
  lemma ArithmeticLeaves(f: Bytes, self: string, e: Image, x: A.Num, y: A.Num, op: Byte, o: A.Op)
    requires A.Proper(x) && A.Proper(y) && !e.stop
    requires (op, o) in {(7, A.Add), (8, A.Sub), (9, A.Mul), (10, A.Div)}
    requires At(f, e.pos, NumberBytes(x) + (NumberBytes(y) + [op]))
    ensures var n := |NumberBytes(x)| + |NumberBytes(y)| + 1;
      && (forall r :: Leaves(f, self, e, n, Number(r)) <==> A.Yields(o, x, y, Some(r)))
      && (Turns(f, self, e, 3) == Beyond <==> A.Yields(o, x, y, None))
      && (forall r: A.Num :: Leaves(f, self, e, n, Number(r)) <==>
            Joins(x, y, r.kind) && Spans(r.kind, r.value) && IsResult(op, x.value, y.value, r.value))
  {
    hide At, NumberBytes, Turns, Combine, A.Yields, A.Meant, IsResult, Joins, Spans;
    LeavesIff(f, self, e, Number(x), Number(y), op);
    CombineNumbers(op, o, x, y);
    assert |Sum(Number(x), Number(y), op)| == |NumberBytes(x)| + |NumberBytes(y)| + 1;
    forall r ensures A.Yields(o, x, y, r) <==> r == A.Meant(o, x, y) { A.ArithmeticIsExact(o, x, y, r); }
    forall r: A.Num
      ensures A.Meant(o, x, y) == Some(r) <==>
        Joins(x, y, r.kind) && Spans(r.kind, r.value) && IsResult(op, x.value, y.value, r.value)
    {
      MeantIs(op, o, x, y, r);
    }
  }

  lemma CombineNumbers(op: Byte, o: A.Op, x: A.Num, y: A.Num)
    requires (op, o) in {(7, A.Add), (8, A.Sub), (9, A.Mul), (10, A.Div)}
    ensures forall r :: Combine(op, Number(x), Number(y)) == Got(Number(r)) <==> A.Meant(o, x, y) == Some(r)
    ensures Combine(op, Number(x), Number(y)) == Unclear <==> A.Meant(o, x, y) == None
  {
    hide A.Meant;
  }

  lemma MeantIs(op: Byte, o: A.Op, x: A.Num, y: A.Num, r: A.Num)
    requires (op, o) in {(7, A.Add), (8, A.Sub), (9, A.Mul), (10, A.Div)}
    ensures A.Meant(o, x, y) == Some(r) <==>
      Joins(x, y, r.kind) && Spans(r.kind, r.value) && IsResult(op, x.value, y.value, r.value)
  {
    if op == 10 { QuotientIs(x.value, y.value, r.value); }
    hide A.Quotient;
  }

  /** There is one quotient. */
  lemma QuotientIs(a: int, b: int, r: int)
    ensures IsResult(10, a, b, r) <==> b != 0 && r == A.Quotient(a, b)
  {
    hide A.Quotient, A.Remainder;
    if b != 0 {
      A.DivisionLaw(a, b);
      assert Divides(a, b, A.Quotient(a, b), A.Remainder(a, b));
      if m: int :| Divides(a, b, r, m) { OneQuotient(a, b, r, m, A.Quotient(a, b), A.Remainder(a, b)); }
    }
  }

  lemma OneQuotient(a: int, b: int, q: int, m: int, r: int, n: int)
    requires Divides(a, b, q, m) && Divides(a, b, r, n)
    ensures q == r
  {
    assert (q - r) * b == n - m;
    if q != r { Multiple(q - r, b); }
  }

  lemma Multiple(k: int, b: int)
    requires k != 0
    ensures A.AbsInt(k * b) >= A.AbsInt(b)
  {
    if k > 0 {
      assert k * b == (k - 1) * b + b;
      Sign(k - 1, b);
    } else {
      assert k * b == (k + 1) * b - b;
      Sign(-k - 1, b);
    }
  }

  lemma Sign(k: int, b: int)
    requires k >= 0
    ensures b >= 0 ==> k * b >= 0
    ensures b <= 0 ==> k * b <= 0
    ensures (-k) * b == -(k * b)
  {
  }

  /** Both operands fit an int, and their remainder is defined there. */
  predicate Modular(x: int, y: int) {
    -0x8000_0000 <= x < 0x8000_0000 && -0x8000_0000 <= y < 0x8000_0000 && y != 0 && !(x == -0x8000_0000 && y == -1)
  }

  /** MOD leaves the remainder of the division, of the sign of the first operand, in the joined type, where a negative
      one stored as unsigned wraps; and nothing when an operand does not fit an int. */
  lemma ModLeaves(f: Bytes, self: string, e: Image, x: A.Num, y: A.Num)
    requires A.Proper(x) && A.Proper(y) && !e.stop && At(f, e.pos, NumberBytes(x) + (NumberBytes(y) + [11]))
    ensures var n := |NumberBytes(x)| + |NumberBytes(y)| + 1;
      if Modular(x.value, y.value)
      then exists r: A.Num, q: int, m: int ::
        && Leaves(f, self, e, n, Number(r)) && Joins(x, y, r.kind) && Divides(x.value, y.value, q, m)
        && r.value == if r.kind == A.UnsignedKind && m < 0 then m + 0x1_0000_0000 else m
      else Turns(f, self, e, 3) == Beyond
  {
    hide At, NumberBytes, Turns, Combine, A.Modulo, Joins;
    LeavesIff(f, self, e, Number(x), Number(y), 11);
    CombineModulo(x, y);
    ModuloIs(x, y);
    assert |Sum(Number(x), Number(y), 11)| == |NumberBytes(x)| + |NumberBytes(y)| + 1;
    if Modular(x.value, y.value) {
      var r := A.Modulo(x, y).value;
      var q, m := A.Quotient(x.value, y.value), A.Remainder(x.value, y.value);
      A.DivisionLaw(x.value, y.value);
      assert Leaves(f, self, e, |NumberBytes(x)| + |NumberBytes(y)| + 1, Number(r)) && Divides(x.value, y.value, q, m);
    }
  }

  lemma CombineModulo(x: A.Num, y: A.Num)
    ensures Combine(11, Number(x), Number(y)) ==
      match A.Modulo(x, y) case None => Unclear case Some(r) => Got(Number(r))
  {
  }

  lemma ModuloIs(x: A.Num, y: A.Num)
    requires A.Proper(x) && A.Proper(y)
    ensures A.Modulo(x, y).Some? <==> Modular(x.value, y.value)
    ensures Modular(x.value, y.value) ==>
      var r, m := A.Modulo(x, y).value, A.Remainder(x.value, y.value);
      Joins(x, y, r.kind) && r.value == if r.kind == A.UnsignedKind && m < 0 then m + 0x1_0000_0000 else m
  {
    A.TruncWhole(x.value);
    A.TruncWhole(y.value);
    hide A.Trunc, A.Remainder;
  }

  // ----- comparisons and connectives -----

  /** The relation of LESS to UNEQUAL, opcodes 12 to 17. */
  predicate Relates(op: Byte, a: int, b: int)
    requires 12 <= op <= 17
  {
    match op
    case 12 => a < b
    case 13 => a <= b
    case 14 => a > b
    case 15 => a >= b
    case 16 => a == b
    case _ => a != b
  }

  /** A comparison of two numbers of whatever integer types leaves the truth of the relation between their values. */
  lemma ComparisonLeaves(f: Bytes, self: string, e: Image, x: A.Num, y: A.Num, op: Byte)
    requires A.Proper(x) && A.Proper(y) && !e.stop && 12 <= op <= 17
    requires At(f, e.pos, NumberBytes(x) + (NumberBytes(y) + [op]))
    ensures Leaves(f, self, e, |NumberBytes(x)| + |NumberBytes(y)| + 1, Truth(Relates(op, x.value, y.value)))
  {
    hide At, NumberBytes, Turns, Leaves;
    LeavesIff(f, self, e, Number(x), Number(y), op);
    assert |Sum(Number(x), Number(y), op)| == |NumberBytes(x)| + |NumberBytes(y)| + 1;
    assert Combine(op, Number(x), Number(y)) == Got(Truth(Relates(op, x.value, y.value)));
  }

  /** AND and OR, opcodes 18 and 19, of two truth values. */
  lemma ConnectiveLeaves(f: Bytes, self: string, e: Image, a: bool, b: bool, op: Byte)
    requires (op == 18 || op == 19) && !e.stop && At(f, e.pos, TruthBytes(a) + (TruthBytes(b) + [op]))
    ensures Leaves(f, self, e, 7, Truth(if op == 18 then a && b else a || b))
  {
    hide At, Turns, Leaves;
    LeavesIff(f, self, e, Truth(a), Truth(b), op);
    assert Combine(op, Truth(a), Truth(b)) == Got(Truth(if op == 18 then a && b else a || b));
  }

  /** With an operand that is no number an arithmetic operation or a comparison makes the component exit, and so does a
      connective with one that is no truth value. */
  lemma MismatchExits(f: Bytes, self: string, e: Image, v: Value, w: Value, op: Byte)
    requires Denotable(v) && !v.Real? && Denotable(w) && !w.Real? && 7 <= op <= 19 && !e.stop
    requires At(f, e.pos, PushBytes(v) + (PushBytes(w) + [op]))
    requires if op == 18 || op == 19 then !v.Truth? || !w.Truth? else !v.Number? || !w.Number?
    ensures Turns(f, self, e, 3) == Exits
  {
    hide At, PushBytes, Turns, Leaves;
    LeavesIff(f, self, e, v, w, op);
    assert Combine(op, v, w) == Failed;
  }

  // ----- variables -----

  lemma StrIs(name: Bytes, op: Byte)
    ensures [op] + StringBytes(name) == [op, 6] + Encoded(name) + [0]
  {
  }

  /** LOAD of a name, as bytes. */
  function LoadBytes(name: Bytes): Bytes {
    [5, 6] + Encoded(name) + [0]
  }

  function StoreBytes(name: Bytes): Bytes {
    [6, 6] + Encoded(name) + [0]
  }

  function DeclareBytes(name: Bytes, kind: Byte): Bytes {
    [4, 6] + Encoded(name) + [0, kind]
  }

  lemma VariableBytesAre(name: Bytes, kind: Byte)
    ensures LoadBytes(name) == PrimBytes(Fetch(name)) && StoreBytes(name) == PrimBytes(Put(name))
    ensures DeclareBytes(name, kind) == PrimBytes(Decl(name, kind))
  {
  }

  /** What LOAD of a name pushes from this image; None where it pushes nothing. */
  function Shown(s: State, name: Bytes): Option<Cell> {
    S.Load(s.scopes, Key(name))
  }

  lemma LoadTurn(f: Bytes, self: string, e: Image, s: State, name: Bytes, v: Value)
    requires PlainName(name) && At(f, e.pos, LoadBytes(name)) && !e.stop && Depicts(e, s)
    ensures Shown(s, name) == Some(Val(v)) <==>
      Turn(f, self, e).Next? && Turn(f, self, e).state.stack == e.stack + [v]
  {
    hide At, Turn, PrimBytes, PlainName, C.Shows, C.LoadFrom, S.Load, Key, LoadBytes;
    VariableBytesAre(name, 0);
    var i := Fetch(name);
    assert PlainPrim(i) && Literate(i) by { hide *; LoadPlain(name); }
    PrimTurn(f, self, e, i);
    PerformAgrees(i, e.stack, e.scopes, s.scopes);
    PushedOnly(Shown(s, name), e.stack, s.scopes, v);
    AgreesStack(Perform(i, e.stack, e.scopes), DoPrim(i, e.stack, s.scopes));
  }

  lemma LoadPlain(name: Bytes)
    requires PlainName(name)
    ensures PlainPrim(Fetch(name)) && Literate(Fetch(name)) && PlainPrim(Put(name)) && Literate(Put(name))
  {
  }

  lemma AgreesStack(r: Effect<C.Chains<Cell>>, m: Effect<S.Scopes<Cell>>)
    requires Agrees(r, m)
    ensures m.Got? ==> r.Got? && r.value.0 == m.value.0
    ensures m.Failed? || m.Unclear? ==> !r.Got?
  {
  }

  lemma PushedOnly(r: Option<Cell>, stack: seq<Value>, scopes: S.Scopes<Cell>, v: Value)
    ensures var p := Pushed(r, stack, scopes);
      && !p.Doubled? && (r == Some(Val(v)) <==> p.Got? && p.value.0 == stack + [v])
  {
    if r.Some? && r.value.Val? && stack + [r.value.v] == stack + [v] {
      assert (stack + [v])[|stack|] == v && (stack + [r.value.v])[|stack|] == r.value.v;
    }
  }

  /** STORE: the top of the stack goes to the innermost level that declares the name. */
  lemma StoreTurn(f: Bytes, self: string, e: Image, s: State, name: Bytes)
    requires PlainName(name) && At(f, e.pos, StoreBytes(name)) && !e.stop && Depicts(e, s) && e.stack != []
    ensures Turn(f, self, e).Next? <==> S.Store(s.scopes, Key(name), TopCell(e.stack)).Some?
    ensures Turn(f, self, e).Next? ==>
      var t := S.Store(s.scopes, Key(name), TopCell(e.stack)).value;
      Depicts(Turn(f, self, e).state, State(e.pos + |StoreBytes(name)|, Pop(e.stack), t, s.procs, s.stop))
  {
    hide At, Turn, PrimBytes, PlainName, C.Shows, C.StoreTo, S.Store, Key, StoreBytes;
    VariableBytesAre(name, 0);
    var i := Put(name);
    assert PlainPrim(i) && Literate(i) by { hide *; LoadPlain(name); }
    PrimTurn(f, self, e, i);
    PerformAgrees(i, e.stack, e.scopes, s.scopes);
  }

  /** A STORE to one name leaves what LOAD of a different name pushes, and LOAD of the same name pushes the value
      stored. */
  lemma StoreApart(f: Bytes, g: Bytes, self: string, e: Image, s: State, a: Bytes, b: Bytes)
    requires PlainName(a) && PlainName(b) && !e.stop && Depicts(e, s) && e.stack != []
    requires At(f, e.pos, StoreBytes(a) + LoadBytes(b)) && At(g, e.pos, LoadBytes(b)) && Turn(f, self, e).Next?
    ensures a != b ==> forall v ::
      (Turn(g, self, e).Next? && Turn(g, self, e).state.stack == e.stack + [v]) <==>
      (Turns(f, self, e, 2).Next? && Turns(f, self, e, 2).state.stack == Pop(e.stack) + [v])
    ensures a == b ==> Turns(f, self, e, 2).Next? && Turns(f, self, e, 2).state.stack == e.stack
  {
    hide At, Turn, Turns, PlainName, C.Shows, S.Store, S.Load, Key, StoreBytes, LoadBytes;
    AtSplit(f, e.pos, StoreBytes(a), LoadBytes(b));
    StoreTurn(f, self, e, s, a);
    var u, v := Turn(f, self, e).state, e.stack[|e.stack| - 1];
    var scopes := S.Store(s.scopes, Key(a), TopCell(e.stack)).value;
    var t := State(e.pos + |StoreBytes(a)|, Pop(e.stack), scopes, s.procs, s.stop);
    SecondTurn(f, self, e, u);
    NoNul(a);
    NoNul(b);
    KeyTellsApart(a, b);
    S.LoadAfterStore(s.scopes, Key(a), Val(v), Key(b));
    forall x ensures Shown(t, b) == Some(Val(x)) <==>
      Turns(f, self, e, 2).Next? && Turns(f, self, e, 2).state.stack == Pop(e.stack) + [x]
    {
      LoadTurn(f, self, u, t, b, x);
    }
    if a == b {
      assert Shown(t, b) == Some(Val(v)) && Pop(e.stack) + [v] == e.stack;
    } else {
      forall x ensures Shown(s, b) == Some(Val(x)) <==>
        Turn(g, self, e).Next? && Turn(g, self, e).state.stack == e.stack + [x]
      {
        LoadTurn(g, self, e, s, b, x);
      }
    }
  }

  lemma NoNul(name: Bytes)
    requires PlainName(name)
    ensures NUL !in name
  {
  }

  lemma SecondTurn(f: Bytes, self: string, e: Image, u: Image)
    requires Turn(f, self, e) == Next(u)
    ensures Turns(f, self, e, 2) == Turn(f, self, u)
  {
    hide *;
    TurnsOne(f, self, e);
    TurnsOne(f, self, u);
    TurnsAdd(f, self, e, 1, u, 1);
  }

  // ----- a program with two variables -----

  function PrimsBytes(s: seq<Prim>): Bytes {
    if s == [] then [] else PrimBytes(s[0]) + PrimsBytes(s[1..])
  }

  /** What the instructions do one after another. */
  function PerformAll(s: seq<Prim>, stack: seq<Value>, scopes: S.Scopes<Cell>): Effect<S.Scopes<Cell>>
    requires forall k | 0 <= k < |s| :: Literate(s[k])
  {
    if s == [] then Got((stack, scopes)) else
      match DoPrim(s[0], stack, scopes)
      case Got((t, u)) => PerformAll(s[1..], t, u)
      case r => r
  }

  lemma {:induction false} PrimsTurn(f: Bytes, self: string, e: Image, s: State, c: seq<Prim>)
    requires forall k | 0 <= k < |c| :: PlainPrim(c[k]) && Literate(c[k])
    requires At(f, e.pos, PrimsBytes(c)) && !e.stop && Depicts(e, s) && PerformAll(c, s.stack, s.scopes).Got?
    ensures var (stack, scopes) := PerformAll(c, s.stack, s.scopes).value;
      && Turns(f, self, e, |c|).Next?
      && Depicts(Turns(f, self, e, |c|).state, State(e.pos + |PrimsBytes(c)|, stack, scopes, s.procs, s.stop))
    decreases |c|
  {
    hide At, Turn, PrimBytes, PlainPrim, Literate, C.Shows, DoPrim, Perform;
    if c != [] {
      AtSplit(f, e.pos, PrimBytes(c[0]), PrimsBytes(c[1..]));
      PrimTurn(f, self, e, c[0]);
      PerformAgrees(c[0], e.stack, e.scopes, s.scopes);
      var (stack, scopes) := DoPrim(c[0], s.stack, s.scopes).value;
      var u := Turn(f, self, e).state;
      PrimsTurn(f, self, u, State(e.pos + |PrimBytes(c[0])|, stack, scopes, s.procs, s.stop), c[1..]);
    }
  }

  lemma DeclaredStored(s: S.Scopes<Cell>, k: string, v: Cell)
    requires s != [] && !C.Clashes(s, k)
    ensures DeclareIn(s, k).Got? && DeclareIn(s, k).value != []
    ensures S.Store(DeclareIn(s, k).value, k, Some(v)) == Some([s[0][k := Some(v)]] + s[1..])
  {
    var d := DeclareIn(s, k).value;
    S.DeclarerIs(d, k, 0);
    assert d[0][k := Some(v)] == s[0][k := Some(v)];
    assert d[0 := d[0][k := Some(v)]] == [s[0][k := Some(v)]] + s[1..];
  }

  /** DECLARE, PUSH and STORE of one name. */
  function Sets(name: Bytes, kind: Byte, v: Value): seq<Prim>
    requires Denotable(v)
  {
    [Decl(name, kind), Lit(ValueDatum(v)), Put(name)]
  }

  lemma SetsDo(name: Bytes, kind: Byte, v: Value, more: seq<Prim>, stack: seq<Value>, s: S.Scopes<Cell>)
    requires Denotable(v) && !v.Real? && s != [] && !C.Clashes(s, Key(name))
    requires forall k | 0 <= k < |more| :: Literate(more[k])
    ensures forall k | 0 <= k < |Sets(name, kind, v) + more| :: Literate((Sets(name, kind, v) + more)[k])
    ensures PerformAll(Sets(name, kind, v) + more, stack, s) ==
            PerformAll(more, stack, [s[0][Key(name) := Some(Val(v))]] + s[1..])
  {
    hide S.Store, DeclareIn, C.Clashes, Key, Literal, ValueDatum;
    PushBytesAre(v);
    DeclaredStored(s, Key(name), Val(v));
    var c := Sets(name, kind, v) + more;
    var d := DeclareIn(s, Key(name)).value;
    assert Pop(stack + [v]) == stack && TopCell(stack + [v]) == Some(Val(v));
    var c1, c2 := c[1..], c[1..][1..];
    var t := [s[0][Key(name) := Some(Val(v))]] + s[1..];
    assert c[0] == Decl(name, kind) && c1[0] == Lit(ValueDatum(v)) && c2[0] == Put(name) && c2[1..] == more;
    assert DoPrim(c[0], stack, s) == Got((stack, d));
    assert DoPrim(c1[0], stack, d) == Got((stack + [v], d));
    assert DoPrim(c2[0], stack + [v], d) == Got((stack, t));
    hide DoPrim;
    assert PerformAll(c, stack, s) == PerformAll(c1, stack, d);
    assert PerformAll(c1, stack, d) == PerformAll(c2, stack + [v], d);
    assert PerformAll(c2, stack + [v], d) == PerformAll(more, stack, t);
  }

  /** The bytes of DECLARE a, PUSH v, STORE a, DECLARE b, PUSH w, STORE b, LOAD a. */
  function TwoNames(a: Bytes, v: Value, b: Bytes, w: Value, kind: Byte): Bytes
    requires Denotable(v) && !v.Real? && Denotable(w) && !w.Real?
  {
    DeclareBytes(a, kind) + (PushBytes(v) + (StoreBytes(a) +
      (DeclareBytes(b, kind) + (PushBytes(w) + (StoreBytes(b) + LoadBytes(a))))))
  }

  lemma TwoNamesIs(a: Bytes, v: Value, b: Bytes, w: Value, kind: Byte)
    requires Denotable(v) && !v.Real? && Denotable(w) && !w.Real?
    ensures TwoNames(a, v, b, w, kind) == PrimsBytes(Sets(a, kind, v) + (Sets(b, kind, w) + [Fetch(a)]))
  {
    hide PushBytes, DeclareBytes, StoreBytes, LoadBytes, PrimBytes, ValueDatum;
    PushBytesAre(v);
    PushBytesAre(w);
    VariableBytesAre(a, kind);
    VariableBytesAre(b, kind);
    var c := Sets(a, kind, v) + (Sets(b, kind, w) + [Fetch(a)]);
    ThreeBytes(Sets(a, kind, v), Sets(b, kind, w) + [Fetch(a)]);
    ThreeBytes(Sets(b, kind, w), [Fetch(a)]);
    assert PrimsBytes([Fetch(a)]) == PrimBytes(Fetch(a)) + PrimsBytes([Fetch(a)][1..]);
  }

  lemma ThreeBytes(x: seq<Prim>, y: seq<Prim>)
    requires |x| == 3
    ensures PrimsBytes(x + y) == PrimBytes(x[0]) + (PrimBytes(x[1]) + (PrimBytes(x[2]) + PrimsBytes(y)))
  {
    hide PrimBytes;
    var c := x + y;
    var c1, c2 := c[1..], c[1..][1..];
    assert c[0] == x[0] && c1[0] == x[1] && c2[0] == x[2] && c2[1..] == y;
    assert PrimsBytes(c) == PrimBytes(c[0]) + PrimsBytes(c1);
    assert PrimsBytes(c1) == PrimBytes(c1[0]) + PrimsBytes(c2);
    assert PrimsBytes(c2) == PrimBytes(c2[0]) + PrimsBytes(y);
  }

  /** Each of two variables of different names keeps its own value: the first still has its own after the second was
      declared and set. */
  lemma TwoVariables(f: Bytes, self: string, e: Image, s: State, a: Bytes, v: Value, b: Bytes, w: Value, kind: Byte)
    requires PlainName(a) && PlainName(b) && a != b && Denotable(v) && !v.Real? && Denotable(w) && !w.Real?
    requires At(f, e.pos, TwoNames(a, v, b, w, kind)) && !e.stop && Depicts(e, s) && s.scopes != []
    requires !C.Clashes(s.scopes, Key(a)) && !C.Clashes(s.scopes, Key(b))
    ensures Turns(f, self, e, 7).Next? && Turns(f, self, e, 7).state.stack == e.stack + [v]
    ensures Turns(f, self, e, 7).state.pos == e.pos + |TwoNames(a, v, b, w, kind)|
  {
    hide At, Turns, PlainName, Key, ValueDatum, TwoNames, PrimsBytes, PrimBytes, C.Shows, DoPrim, Sets;
    TwoNamesIs(a, v, b, w, kind);
    SetsPlain(a, kind, v);
    SetsPlain(b, kind, w);
    NamesPlain(a);
    NoNul(a);
    NoNul(b);
    KeyTellsApart(a, b);
    var c := Sets(a, kind, v) + (Sets(b, kind, w) + [Fetch(a)]);
    var t := [s.scopes[0][Key(a) := Some(Val(v))]] + s.scopes[1..];
    var u := [t[0][Key(b) := Some(Val(w))]] + t[1..];
    ClashesLater(s.scopes, Key(a), Val(v), Key(b));
    SetsDo(a, kind, v, Sets(b, kind, w) + [Fetch(a)], s.stack, s.scopes);
    SetsDo(b, kind, w, [Fetch(a)], s.stack, t);
    FetchesFirst(a, v, s.stack, u);
    PrimsTurn(f, self, e, s, c);
  }

  lemma NamesPlain(a: Bytes)
    requires PlainName(a)
    ensures PlainPrim(Fetch(a)) && Literate(Fetch(a))
  {
  }

  lemma SetsPlain(name: Bytes, kind: Byte, v: Value)
    requires PlainName(name) && Denotable(v) && !v.Real?
    ensures |Sets(name, kind, v)| == 3
    ensures forall k | 0 <= k < 3 :: PlainPrim(Sets(name, kind, v)[k]) && Literate(Sets(name, kind, v)[k])
  {
    PushBytesAre(v);
  }

  lemma ClashesLater(s: S.Scopes<Cell>, a: string, v: Cell, b: string)
    requires s != [] && !C.Clashes(s, b)
    ensures !C.Clashes([s[0][a := Some(v)]] + s[1..], b)
  {
  }

  lemma FetchesFirst(a: Bytes, v: Value, stack: seq<Value>, u: S.Scopes<Cell>)
    requires u != [] && Key(a) in u[0] && u[0][Key(a)] == Some(Val(v))
    ensures Literate(Fetch(a)) && PerformAll([Fetch(a)], stack, u) == Got((stack + [v], u))
  {
    hide Key;
    S.HolderIs(u, Key(a), 0);
    assert [Fetch(a)][1..] == [];
  }

  // ----- jumps -----

  /** A distance as an operand: two's complement, forward or back. */
  function DistanceBytes(n: int): Bytes
    requires Spans(A.IntKind, n)
  {
    [1] + BigBytes(if n < 0 then n + 0x1_0000_0000 else n, 4)
  }

  lemma DistanceIs(n: int)
    requires Spans(A.IntKind, n)
    ensures Signed(BigEndian(BigBytes(if n < 0 then n + 0x1_0000_0000 else n, 4)), 0x8000_0000) == n
  {
    assert Power256(4) == 0x1_0000_0000;
    BigBytesValue(if n < 0 then n + 0x1_0000_0000 else n, 4);
    hide BigBytes, BigEndian;
  }

  lemma DistanceRead(f: Bytes, p: nat, op: Byte, n: int)
    requires Spans(A.IntKind, n) && At(f, p, [op] + DistanceBytes(n))
    ensures p < |f| && f[p] == op && ReadDistance(f, p + 1) == Some((n, p + 6)) && |DistanceBytes(n)| == 5
  {
    hide At, BigBytes, BigEndian, ReadData, ReadDistance, Signed;
    var x := BigBytes(if n < 0 then n + 0x1_0000_0000 else n, 4);
    DistanceIs(n);
    assert DistanceBytes(n) == DatumBytes(Fixed(TYPE_INTEGER, x));
    AtCons(f, p, op, DatumBytes(Fixed(TYPE_INTEGER, x)));
    LiteralAt(f, p + 1, Fixed(TYPE_INTEGER, x));
    ReadDistanceIs(f, p + 1, x, p + 6);
  }

  /** A seek to before the first byte is refused. */
  function Landing(from: nat, to: int): nat {
    if to < 0 then from else to
  }

  /** JUMP and BEHAVIOUR_JUMP, opcodes 29 and 28, count back from one past their operand, ELSE, 31, forward from its
      operand; a negative distance goes the other way.  Nothing but the position changes. */
  lemma JumpGoes(f: Bytes, self: string, e: Image, op: Byte, n: int)
    requires Spans(A.IntKind, n) && !e.stop && At(f, e.pos, [op] + DistanceBytes(n))
    ensures (op == 28 || op == 29) && n >= -2147483646 ==>
      Turns(f, self, e, 1) == Next(e.(pos := Landing(e.pos + 6, e.pos + 7 - n)))
    ensures op == 31 ==> Turns(f, self, e, 1) == Next(e.(pos := Landing(e.pos + 6, e.pos + 6 + n)))
  {
    hide At, Turns, ReadDistance, DistanceBytes;
    DistanceRead(f, e.pos, op, n);
    TurnsOne(f, self, e);
  }

  // ----- STOP -----

  /** STOP without a name, or with the component's own, ends the loop with everything else as it is; with another name
      it is beyond this model. */
  lemma StopEnds(f: Bytes, self: string, e: Image, name: Bytes)
    requires 0 !in name && At(f, e.pos, [0, 6] + Encoded(name) + [0]) && !e.stop
    ensures var u := e.(pos := e.pos + |Encoded(name)| + 3, stop := true);
      if name == [] || Key(name) == self
      then Turns(f, self, e, 1) == Next(u) && forall n: nat :: n >= 2 ==> Turns(f, self, e, n) == Ended
      else Turns(f, self, e, 1) == Beyond
  {
    hide At, Turns, Key, Encoded;
    var u := e.(pos := e.pos + |Encoded(name)| + 3, stop := true);
    assert [0, 6] + Encoded(name) + [0] == [STOP] + StringBytes(name);
    NamedAt(f, e.pos, STOP, name);
    KeyIs(name, []);
    TurnsOne(f, self, e);
    if name == [] || Key(name) == self {
      assert Turn(f, self, e) == Next(u);
      SecondTurn(f, self, e, u);
      forall n: nat | n >= 2 ensures Turns(f, self, e, n) == Ended { TurnsStay(f, self, e, 2, n); }
    }
  }
}
