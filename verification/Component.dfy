/**
 A component as the source runs it (Component.c): an object with a file position, a data stack, a table of
 procedures and a scope stack on the heap, whose handlers update them in place.  Every handler does what the
 interpreter says; one that is not ok has exited, or is in a string read that never ends.
 */
module Components {
  import opened Wrappers
  import opened Decoding
  import opened Bytecode
  import opened Machines
  import opened Interpreter
  import opened ListMaps
  import C = ScopeChains
  import SS = ScopeStacks
  import A = Arithmetic

  class Component {
    const name: string
    const source: Source
    const scopeStack: SS.ScopeStack<Cell>
    var dataStack: seq<Value>
    var procs: map<string, Procedure>
    var stop: bool

    constructor (name: string, file: Bytes)
      ensures this.name == name && source.file == file && fresh(source) && fresh(scopeStack.Repr) && Valid()
      ensures Now() == State(0, [], [], map[], false)
    {
      this.name := name;
      source := new Source(file);
      scopeStack := new SS.ScopeStack();
      dataStack, procs, stop := [], map[], false;
    }

    ghost predicate Valid()
      reads this, scopeStack, scopeStack.Repr
    {
      this !in scopeStack.Repr && source !in scopeStack.Repr && scopeStack.Valid()
    }

    /** The state as the interpreter sees it. */
    ghost function Now(): Image
      requires Valid()
      reads this, source, scopeStack, scopeStack.Repr
    {
      State(source.pos, dataStack, scopeStack.Chains(), procs, stop)
    }

    /** The handler has done what the interpreter does. */
    ghost predicate Followed(ok: bool, beyond: bool, o: Turnout)
      requires Valid()
      reads this, source, scopeStack, scopeStack.Repr
    {
      match o
      case Next(s) => ok && !beyond && Now() == s
      case Exits => !ok && !beyond
      case Beyond => !ok && beyond
      case _ => false
    }

    // ----- operands -----

    /** component_readString; a string without a terminator would be read for ever. */
    method ReadName() returns (ok: bool, text: Bytes)
      modifies source`pos
      ensures ok <==> ReadString(source.file, old(source.pos)).Some?
      ensures ok ==> ReadString(source.file, old(source.pos)) == Some((text, source.pos))
    {
      if Get(source.file, source.pos) == TYPE_STRING && FindNul(source.file, source.pos + 1).None? { return false, []; }
      var buffer, length;
      ok, buffer, length := source.ReadText();
      text := if ok then buffer[..length] else [];
    }

    /** component_readData */
    method ReadValue() returns (ok: bool, d: Datum)
      modifies source`pos
      ensures ok <==> ReadData(source.file, old(source.pos)).Some?
      ensures ok ==> ReadData(source.file, old(source.pos)) == Some((d, source.pos))
    {
      hide ReadString, Taken, Backwards, BigEndian, LittleEndian;
      var start := source.pos;
      var kind := source.GetByte();
      if kind == TYPE_STRING {
        source.SeekBy(-1);
        var text;
        ok, text := ReadName();
        d := Text(text);
      } else if kind != EOF && Width(kind) > 0 {
        var bytes := source.ReadNBytes(Width(kind));
        FlipBack(Taken(source.file, start + 1, Width(kind)));
        ok, d := true, Fixed(kind, Backwards(bytes[..]));
      } else {
        ok, d := false, Text([]);
      }
    }

    /** The integer operand of a jump. */
    method ReadJump() returns (ok: bool, n: int)
      modifies source`pos
      ensures ok <==> ReadDistance(source.file, old(source.pos)).Some?
      ensures ok ==> ReadDistance(source.file, old(source.pos)) == Some((n, source.pos))
    {
      var d;
      ok, d := ReadValue();
      ok := ok && d.Fixed? && d.kind == TYPE_INTEGER;
      n := if ok then Signed(BigEndian(d.bytes), 0x8000_0000) else 0;
    }

    // ----- the data stack -----

    method PopValue() returns (v: Option<Value>)
      modifies this`dataStack
      ensures v == Top(old(dataStack)) && dataStack == Pop(old(dataStack))
    {
      if dataStack == [] { return None; }
      v := Some(dataStack[|dataStack| - 1]);
      dataStack := dataStack[..|dataStack| - 1];
    }

    // ----- stack instructions -----

    /** The handler has done the primitive instruction with this opcode whose operands stood at before.pos. */
    ghost predicate Primitive(ok: bool, beyond: bool, before: Image, op: Byte)
      requires IsPrim(op) && Valid()
      reads this, source, scopeStack, scopeStack.Repr
    {
      match ReadPrim(source.file, before.pos, op)
      case None => !ok && !beyond
      case Some((i, q)) => Followed(ok, beyond, Going(before, q, Perform(i, before.stack, before.scopes)))
    }

    method Push() returns (ok: bool)
      requires Valid()
      modifies this, source`pos
      ensures Valid() && Primitive(ok, false, old(Now()), PUSH)
    {
      hide SS.ScopeStack.Valid, SS.ScopeStack.Chains, ReadData;
      var d;
      ok, d := ReadValue();
      if ok { dataStack := dataStack + [Literal(d)]; }
    }

    method Declare() returns (ok: bool)
      requires Valid()
      modifies this, source`pos, scopeStack.Repr
      ensures Valid() && fresh(scopeStack.Repr - old(scopeStack.Repr)) && Primitive(ok, false, old(Now()), DECLARE)
    {
      hide SS.ScopeStack.Valid, SS.ScopeStack.Chains, SS.ScopeStack.Pairs, SS.AllUnique, ReadString, Key;
      var text;
      ok, text := ReadName();
      if !ok { return; }
      var _ := source.GetByte();
      var o := scopeStack.DeclareName(Key(text));
      ok := o == SS.Done;
    }

    method Load() returns (ok: bool, beyond: bool)
      requires Valid()
      modifies this, source`pos, scopeStack.Repr
      ensures Valid() && scopeStack.Repr == old(scopeStack.Repr) && Primitive(ok, beyond, old(Now()), LOAD)
    {
      hide SS.ScopeStack.Valid, SS.ScopeStack.Chains, SS.ScopeStack.Pairs, SS.AllUnique, ReadString, Key, C.LoadFrom;
      var text;
      ok, text := ReadName();
      if !ok { return false, false; }
      var found := scopeStack.LoadName(Key(text));
      ok, beyond := found.Some? && found.value.Val?, found.Some? && found.value.Address?;
      if ok { dataStack := dataStack + [found.value.v]; }
    }

    method Store() returns (ok: bool)
      requires Valid()
      modifies this, source`pos, scopeStack.Repr
      ensures Valid() && scopeStack.Repr == old(scopeStack.Repr) && Primitive(ok, false, old(Now()), STORE)
    {
      hide SS.ScopeStack.Valid, SS.ScopeStack.Chains, SS.ScopeStack.Pairs, SS.AllUnique, ReadString, Key, C.StoreTo;
      var text;
      ok, text := ReadName();
      if !ok { return; }
      var v := PopValue();
      var o := scopeStack.StoreName(Key(text), if v.Some? then Some(Val(v.value)) else None);
      ok := o == SS.Done;
    }

    method Expression(op: Byte) returns (ok: bool, beyond: bool)
      requires ADD <= op <= OR && Valid()
      modifies this, source`pos
      ensures Valid() && Primitive(ok, beyond, old(Now()), op)
    {
      hide SS.ScopeStack.Valid, SS.ScopeStack.Chains, Combine;
      if |dataStack| < 2 { return false, false; }
      var second := PopValue();
      var first := PopValue();
      var result;
      ok, beyond, result := Compute(op, first.value, second.value);
      if ok { dataStack := dataStack + [result]; }
    }

    /** The operation itself, type checks and result types in the source's order; real arithmetic, and what C leaves
        undefined, is beyond. */
    method Compute(op: Byte, first: Value, second: Value) returns (ok: bool, beyond: bool, result: Value)
      requires ADD <= op <= OR
      ensures match Combine(op, first, second)
              case Got(v) => ok && !beyond && result == v
              case Failed => !ok && !beyond
              case Unclear => !ok && beyond
              case Doubled => false
    {
      result, beyond := Truth(false), false;
      if op == AND || op == OR {
        if !first.Truth? || !second.Truth? { return false, false, result; }
        return true, false, Truth(if op == AND then first.b && second.b else first.b || second.b);
      }
      if !IsNumber(first) || !IsNumber(second) { return false, false, result; }
      if first.Real? || second.Real? { return false, op != MOD, result; }
      var a, b := first.n.value, second.n.value;
      var kind := if first.n.kind == A.UnsignedKind || second.n.kind == A.UnsignedKind then A.UnsignedKind
                  else if first.n.kind == A.IntKind || second.n.kind == A.IntKind then A.IntKind else A.ByteKind;
      var n := 0;
      if op == ADD {
        n := a + b;
      } else if op == SUB {
        n := a - b;
      } else if op == MUL {
        n := a * b;
      } else if op == DIV {
        if b == 0 { return false, true, result; }
        n := A.Quotient(a, b);
      } else if op == MOD {
        A.TruncWhole(a);
        A.TruncWhole(b);
        if !A.Fits(A.IntKind, a) || !A.Fits(A.IntKind, b) || b == 0 ||
            (a == -0x8000_0000 && b == -1) {
          return false, true, result;
        }
        n := A.Remainder(a, b);
        if kind == A.UnsignedKind && n < 0 { n := n + 0x1_0000_0000; }
        return true, false, Number(A.Num(kind, n));
      } else {
        var holds := if op == LESS then a < b else if op == LESSEQUAL then a <= b else if op == EQUAL then a == b
                     else if op == MOREEQUAL then a >= b else if op == MORE then a > b else a != b;
        return true, false, Truth(holds);
      }
      return A.Fits(kind, n), !A.Fits(kind, n), Number(A.Num(kind, n));
    }

    // ----- control flow -----

    method Jump() returns (ok: bool, beyond: bool)
      modifies source`pos
      ensures match Jumped(source.file, old(source.pos))
              case Got(q) => ok && !beyond && source.pos == q
              case Unclear => !ok && beyond
              case _ => !ok && !beyond
    {
      var n;
      ok, n := ReadJump();
      if !ok { return false, false; }
      if n < -0x7FFF_FFFE { return false, true; }
      beyond := false;
      source.SeekBy(-n + 1);
    }

    method IfClause() returns (ok: bool)
      requires Valid()
      modifies this, source`pos
      ensures Valid() && Followed(ok, false, Lift(Conditional(source.file, old(Now()), old(source.pos))))
    {
      hide SS.ScopeStack.Valid, SS.ScopeStack.Chains, ReadDistance, PassData;
      var n;
      ok, n := ReadJump();
      if !ok { return; }
      var condition := PopValue();
      if condition.None? || !condition.value.Truth? { return false; }
      if !condition.value.b {
        source.SeekBy(n);
        var next := source.GetByte();
        if next == ELSE {
          ok := SkipData();
        } else {
          source.SeekBy(-1);
        }
      }
    }

    method ElseClause() returns (ok: bool)
      requires Valid()
      modifies source`pos
      ensures Valid() && Followed(ok, false, Lift(Elsewhere(source.file, old(Now()), old(source.pos))))
    {
      hide SS.ScopeStack.Valid, SS.ScopeStack.Chains, ReadDistance;
      var n;
      ok, n := ReadJump();
      if ok { source.SeekBy(n); }
    }

    // ----- skipping -----

    method SkipString() returns (ok: bool)
      modifies source`pos
      ensures ok <==> PassString(source.file, old(source.pos)).Some?
      ensures ok ==> Some(source.pos) == PassString(source.file, old(source.pos))
    {
      var text;
      ok, text := ReadName();
    }

    method SkipData() returns (ok: bool)
      modifies source`pos
      ensures ok <==> PassData(source.file, old(source.pos)).Some?
      ensures ok ==> Some(source.pos) == PassData(source.file, old(source.pos))
    {
      var kind := source.GetByte();
      if kind == TYPE_STRING {
        source.SeekBy(-1);
        ok := SkipString();
      } else {
        if kind != EOF {
          var _ := source.ReadNBytes(Width(kind));
        }
        ok := true;
      }
    }

    method SkipStrings(n: nat) returns (ok: bool)
      modifies source`pos
      ensures ok <==> PassStrings(source.file, old(source.pos), n).Some?
      ensures ok ==> Some(source.pos) == PassStrings(source.file, old(source.pos), n)
    {
      for i := 0 to n
        invariant PassStrings(source.file, source.pos, n - i) == PassStrings(source.file, old(source.pos), n)
      {
        ok := SkipString();
        if !ok { return; }
      }
      ok := true;
    }

    method SkipParams(n: nat) returns (ok: bool)
      modifies source`pos
      ensures ok <==> PassParams(source.file, old(source.pos), n).Some?
      ensures ok ==> Some(source.pos) == PassParams(source.file, old(source.pos), n)
    {
      for i := 0 to n
        invariant PassParams(source.file, source.pos, n - i) == PassParams(source.file, old(source.pos), n)
      {
        var _ := source.GetByte();
        ok := SkipString();
        if !ok { return; }
      }
      ok := true;
    }

    method SkipChannels(n: nat) returns (ok: bool)
      modifies source`pos
      ensures ok <==> PassChannels(source.file, old(source.pos), n).Some?
      ensures ok ==> Some(source.pos) == PassChannels(source.file, old(source.pos), n)
    {
      for i := 0 to n
        invariant PassChannels(source.file, source.pos, n - i) == PassChannels(source.file, old(source.pos), n)
      {
        var direction := source.GetByte();
        var kind := source.GetByte();
        ok := SkipString();
        if !ok { return; }
      }
      ok := true;
    }

    /** A loop bound: the end of the file reads as -1 and bounds no iteration. */
    method ReadCount() returns (n: nat)
      modifies source`pos
      ensures n == CountAt(source.file, old(source.pos)) && source.pos == After(source.file, old(source.pos))
    {
      var b := source.GetByte();
      n := if b == EOF then 0 else b;
    }

    method SkipInterfaces(n: nat) returns (ok: bool)
      modifies source`pos
      ensures ok <==> PassInterfaces(source.file, old(source.pos), n).Some?
      ensures ok ==> Some(source.pos) == PassInterfaces(source.file, old(source.pos), n)
    {
      for i := 0 to n
        invariant PassInterfaces(source.file, source.pos, n - i) == PassInterfaces(source.file, old(source.pos), n)
      {
        var channels := ReadCount();
        ok := SkipChannels(channels);
        if !ok { return; }
      }
      ok := true;
    }

    method SkipHeader() returns (ok: bool)
      modifies source`pos
      ensures ok <==> PassHeader(source.file, old(source.pos)).Some?
      ensures ok ==> Some(source.pos) == PassHeader(source.file, old(source.pos))
    {
      ok := SkipString();
      if !ok { return; }
      var n := ReadCount();
      ok := SkipParams(n);
    }

    /** The operands of one instruction, as the switch in component_skipToNext passes over them. */
    method SkipOver(op: Byte) returns (ok: bool)
      modifies source`pos
      ensures ok <==> SkipOperands(source.file, old(source.pos), op).Some?
      ensures ok ==> Some(source.pos) == SkipOperands(source.file, old(source.pos), op)
    {
      hide PassString, PassStrings, PassParams, PassInterfaces, PassData, PassHeader;
      if NameCount(op) > 0 {
        ok := SkipStrings(NameCount(op));
      } else if op == PUSH {
        ok := SkipData();
      } else if op == DECLARE {
        ok := SkipString();
        if ok { var _ := source.GetByte(); }
      } else if op == COMPONENT {
        ok := SkipString();
        if !ok { return; }
        var n := ReadCount();
        ok := SkipInterfaces(n);
      } else if op == CALL {
        ok := SkipString();
        if !ok { return; }
        var n := ReadCount();
        ok := SkipStrings(n);
      } else if op == CONSTRUCTOR {
        var n := ReadCount();
        ok := SkipParams(n);
      } else if op == JUMP || op == IF || op == ELSE {
        ok := SkipString();
      } else if op == PROC {
        ok := SkipHeader();
      } else if op == STRUCT {
        var sub := source.GetByte();
        if sub == STRUCT_CONSTRUCTOR {
          ok := SkipHeader();
        } else if sub == STRUCT_LOAD {
          ok := SkipString();
        } else {
          ok := true;
        }
      } else {
        ok := true;
      }
    }

    /** component_skipToNext outside a project block: the byte it stopped at, or EOF. */
    method SkipToNext(op: Byte) returns (ok: bool, next: int)
      modifies source`pos
      ensures match Skip(source.file, old(source.pos), op)
              case Refused => !ok
              case Missing(p) => ok && next == EOF && source.pos == p
              case Found(p) => ok && next == op && source.pos == p
    {
      hide SkipOperands;
      ghost var goal := Skip(source.file, source.pos, op);
      ghost var at := source.pos;
      next := source.GetByte();
      while next != op && next != EOF
        invariant next == Get(source.file, at) && source.pos == After(source.file, at)
        invariant Skip(source.file, at, op) == goal
        decreases |source.file| - at
      {
        ok := SkipOver(next);
        if !ok { return; }
        at := source.pos;
        next := source.GetByte();
      }
      ok := true;
    }

    // ----- procedures -----

    /** The parameter list of PROC: each name goes to the head of the list. */
    method ReadParamNames(n: nat) returns (ok: bool, names: seq<string>)
      modifies source`pos
      ensures ok <==> ReadParams(source.file, old(source.pos), n).Some?
      ensures ok ==> ReadParams(source.file, old(source.pos), n) == Some((Flipped(names), source.pos))
    {
      hide ReadParams, ReadString, Key, Flipped, Gathered;
      names := [];
      ghost var whole := ReadParams(source.file, source.pos, n);
      GatheredEnds(source.file, source.pos, n, names);
      for i := 0 to n
        invariant Gathered(names, ReadParams(source.file, source.pos, n - i)) == whole
      {
        ghost var start := source.pos;
        var kind := source.GetByte();
        GatheredOne(source.file, start, n - i, names);
        var text;
        ok, text := ReadName();
        if !ok { return; }
        names := [Key(text)] + names;
      }
      GatheredEnds(source.file, source.pos, 0, names);
      ok := true;
    }

    method Proc() returns (ok: bool)
      requires Valid()
      modifies this, source`pos
      ensures Valid() && Followed(ok, false, Lift(Declared(source.file, old(Now()), old(source.pos))))
    {
      hide Skip, ReadString, ReadParams, Flipped, SS.ScopeStack.Valid, SS.ScopeStack.Chains, Key;
      var text, names, next;
      ok, text := ReadName();
      if !ok { return; }
      var n := ReadCount();
      ok, names := ReadParamNames(n);
      if !ok { return; }
      FlippedTwice(names);
      procs := procs[Key(text) := Procedure(source.pos, names)];
      ok, next := SkipToNext(BLOCKEND);
    }

    /** Declare every name in the new scope and pop its argument. */
    method BindParams(names: seq<string>) returns (ok: bool)
      requires Valid()
      modifies this`dataStack, scopeStack.Repr
      ensures Valid() && fresh(scopeStack.Repr - old(scopeStack.Repr))
      ensures match BindNames(names, old(dataStack), old(scopeStack.Chains()))
              case Got((stack, scopes)) => ok && dataStack == stack && scopeStack.Chains() == scopes
              case _ => !ok
    {
      hide SS.ScopeStack.Valid, SS.ScopeStack.Chains, SS.ScopeStack.Pairs, SS.AllUnique, C.StoreTo, C.DeclareTop;
      ghost var whole := BindNames(names, dataStack, scopeStack.Chains());
      for i := 0 to |names|
        invariant Valid() && fresh(scopeStack.Repr - old(scopeStack.Repr))
        invariant BindNames(names[i..], dataStack, scopeStack.Chains()) == whole
      {
        assert names[i..][0] == names[i] && names[i..][1..] == names[i + 1..];
        TopDeclared(scopeStack.Chains(), names[i]);
        var declared := scopeStack.DeclareName(names[i]);
        if declared == SS.Fault { return false; }
        var v := PopValue();
        var stored := scopeStack.StoreName(names[i], if v.Some? then Some(Val(v.value)) else None);
        if stored == SS.Fault { return false; }
      }
      ok := true;
    }

    /** A new scope with the return address. */
    method EnterFrame()
      requires Valid()
      modifies scopeStack.Repr
      ensures Valid() && fresh(scopeStack.Repr - old(scopeStack.Repr))
      ensures Framed(old(scopeStack.Chains()), source.pos) == Some(scopeStack.Chains())
    {
      hide SS.ScopeStack.Valid, SS.ScopeStack.Chains, SS.ScopeStack.Pairs, SS.AllUnique, C.StoreTo, C.DeclareTop;
      hide C.Enter;
      ghost var s := scopeStack.Chains();
      FramedSome(s, source.pos);
      scopeStack.EnterScope();
      TopDeclared(scopeStack.Chains(), RETURN_ADDRESS);
      var o := scopeStack.DeclareName(RETURN_ADDRESS);
      o := scopeStack.StoreName(RETURN_ADDRESS, Some(Address(source.pos)));
    }

    /** beyond: the procedure is not one of this component's. */
    method ProcCall() returns (ok: bool, beyond: bool)
      requires Valid()
      modifies this, source`pos, scopeStack.Repr
      ensures Valid() && fresh(scopeStack.Repr - old(scopeStack.Repr))
      ensures Followed(ok, beyond, Interpreter.Call(source.file, old(Now()), old(source.pos)))
    {
      hide BindNames, Framed, ReadString, Key, SS.ScopeStack.Valid, SS.ScopeStack.Chains, SS.ScopeStack.Pairs;
      var text;
      ok, text := ReadName();
      if !ok { return false, false; }
      if Key(text) !in procs { return false, true; }
      var proc := procs[Key(text)];
      EnterFrame();
      BindReplies(proc.names, dataStack, scopeStack.Chains());
      ok := BindParams(proc.names);
      beyond := false;
      if ok { source.pos := proc.position; }
    }

    method ProcReturn() returns (ok: bool, beyond: bool)
      requires Valid()
      modifies this, source`pos, scopeStack.Repr
      ensures Valid() && fresh(scopeStack.Repr - old(scopeStack.Repr))
      ensures Followed(ok, beyond, Return(old(Now())))
    {
      hide SS.ScopeStack.Valid, SS.ScopeStack.Chains, SS.ScopeStack.Pairs, SS.AllUnique, C.LoadFrom, C.LeaveTo, C.Leave;
      var address := scopeStack.LoadName(RETURN_ADDRESS);
      var file := scopeStack.LoadName(RETURN_SOURCE);
      if file.Some? { return false, true; }
      if address.None? { return false, false; }
      if address.value.Val? { return false, true; }
      source.pos := address.value.pos;
      scopeStack.ExitUpTo(RETURN_ADDRESS);
      scopeStack.ExitScope();
      return true, false;
    }

    method BlockEnd() returns (ok: bool, beyond: bool)
      requires Valid()
      modifies this, source`pos, scopeStack.Repr
      ensures Valid() && fresh(scopeStack.Repr - old(scopeStack.Repr))
      ensures Followed(ok, beyond, EndBlock(old(Now()), old(source.pos)))
    {
      hide SS.ScopeStack.Valid, SS.ScopeStack.Chains, SS.ScopeStack.Pairs, SS.AllUnique, C.LoadFrom, Return;
      var address := scopeStack.LoadName(RETURN_ADDRESS);
      if address.Some? {
        ok, beyond := ProcReturn();
      } else {
        ok, beyond := true, false;
      }
    }

    method Stop() returns (ok: bool, beyond: bool)
      requires Valid()
      modifies this, source`pos
      ensures Valid() && Followed(ok, beyond, Act(source.file, name, old(Now()), STOP, old(source.pos)))
    {
      hide SS.ScopeStack.Valid, SS.ScopeStack.Chains, ReadString, Key;
      var text;
      ok, text := ReadName();
      if !ok { return false, false; }
      if Key(text) == "" || Key(text) == name {
        stop := true;
        return true, false;
      }
      return false, true;
    }

    // ----- the loop -----

    /** The switch of component_run. */
    method Execute(op: Byte) returns (ok: bool, beyond: bool)
      requires Valid()
      modifies this, source`pos, scopeStack.Repr
      ensures Valid() && fresh(scopeStack.Repr - old(scopeStack.Repr))
      ensures Followed(ok, beyond, Act(source.file, name, old(Now()), op, old(source.pos)))
    {
      hide ReadPrim, Perform, Interpreter.Call, Return, EndBlock, DoScopeless, ReadString, Key, Going,
          SS.ScopeStack.Valid,
        SS.ScopeStack.Chains, SS.ScopeStack.Pairs, C.Enter, C.Leave;
      beyond := false;
      if op == ENTERSCOPE {
        scopeStack.EnterScope();
        ok := true;
      } else if op == EXITSCOPE {
        scopeStack.ExitScope();
        ok := true;
      } else if IsPrim(op) {
        ok, beyond := Primitives(op);
      } else if op == STOP {
        ok, beyond := Stop();
      } else if Scopeless(op) {
        ok, beyond := Control(op);
      } else if op == PROCCALL {
        ok, beyond := ProcCall();
      } else if op == RETURN {
        ok, beyond := ProcReturn();
      } else if op == BLOCKEND {
        ok, beyond := BlockEnd();
      } else {
        ok, beyond := false, true;
      }
    }

    method Primitives(op: Byte) returns (ok: bool, beyond: bool)
      requires Valid() && IsPrim(op)
      modifies this, source`pos, scopeStack.Repr
      ensures Valid() && fresh(scopeStack.Repr - old(scopeStack.Repr)) && Primitive(ok, beyond, old(Now()), op)
    {
      hide ReadPrim, Perform, Going, SS.ScopeStack.Valid, SS.ScopeStack.Chains;
      beyond := false;
      if op == PUSH {
        ok := Push();
      } else if op == DECLARE {
        ok := Declare();
      } else if op == LOAD {
        ok, beyond := Load();
      } else if op == STORE {
        ok := Store();
      } else {
        ok, beyond := Expression(op);
      }
    }

    method Control(op: Byte) returns (ok: bool, beyond: bool)
      requires Valid() && Scopeless(op)
      modifies this, source`pos
      ensures Valid() && Followed(ok, beyond, DoScopeless(source.file, old(Now()), op, old(source.pos)))
    {
      hide Declared, Jumped, Conditional, Elsewhere, SS.ScopeStack.Valid, SS.ScopeStack.Chains;
      beyond := false;
      if op == BEHAVIOUR_JUMP || op == JUMP {
        ok, beyond := Jump();
      } else if op == IF {
        ok := IfClause();
      } else if op == ELSE {
        ok := ElseClause();
      } else if op == PROC {
        ok := Proc();
      } else {
        ok := true;
      }
    }

    /** component_run for at most limit instructions: done when the loop ended, and then at the state that the
        interpreter reaches. */
    method Run(limit: nat) returns (ok: bool, beyond: bool, done: bool)
      requires Valid()
      modifies this, source`pos, scopeStack.Repr
      ensures Valid()
      ensures match Turns(source.file, name, old(Now()), limit)
              case Next(s) => ok && !done && Now() == s
              case Ended => ok && done
              case Exits => !ok && !beyond
              case Beyond => !ok && beyond
              case Doubles => false
      ensures ok ==> exists n: nat :: n <= limit && Turns(source.file, name, old(Now()), n) == Next(Now())
      ensures ok && done ==> Interpreter.Turn(source.file, name, Now()) == Ended
      ensures !ok ==> !done
    {
      hide Act, SS.ScopeStack.Valid, SS.ScopeStack.Chains;
      ok, beyond, done := true, false, false;
      assert Turns(source.file, name, Now(), 0) == Next(Now());
      ghost var start := Now();
      for i := 0 to limit
        invariant Valid() && fresh(scopeStack.Repr - old(scopeStack.Repr))
        invariant Turns(source.file, name, Now(), limit - i) == Turns(source.file, name, start, limit)
        invariant Turns(source.file, name, start, i) == Next(Now())
        invariant ok && !beyond && !done
      {
        ghost var before := Now();
        done := stop;
        if done { return; }
        var next := source.GetByte();
        done := next == EOF;
        if done { return; }
        ActMoved(source.file, name, before, next, source.pos);
        ok, beyond := Execute(next);
        if !ok { return; }
        NextTurn(source.file, name, start, i, before, Now());
      }
    }
  }

  /** The parameters read so far, in a list built at its head, with those still to be read. */
  ghost function Gathered(names: seq<string>, rest: Option<(seq<string>, nat)>): Option<(seq<string>, nat)> {
    if rest.None? then None else Some((Flipped(names) + rest.value.0, rest.value.1))
  }

  lemma GatheredEnds(f: Bytes, p: nat, n: nat, names: seq<string>)
    ensures names == [] ==> Gathered(names, ReadParams(f, p, n)) == ReadParams(f, p, n)
    ensures Gathered(names, ReadParams(f, p, 0)) == Some((Flipped(names), p))
  {
    hide ReadString;
    if names == [] && ReadParams(f, p, n).Some? {
      assert Flipped(names) + ReadParams(f, p, n).value.0 == ReadParams(f, p, n).value.0;
    }
    assert Flipped(names) + [] == Flipped(names);
  }

  lemma GatheredOne(f: Bytes, p: nat, n: nat, names: seq<string>)
    requires n > 0
    ensures match ReadString(f, After(f, p))
            case None => Gathered(names, ReadParams(f, p, n)) == None
            case Some((text, q)) =>
              Gathered(names, ReadParams(f, p, n)) == Gathered([Key(text)] + names, ReadParams(f, q, n - 1))
  {
    hide ReadString, Key;
    match ReadString(f, After(f, p))
    case None =>
    case Some((text, q)) =>
      FlippedHead(Key(text), names);
      var rest := ReadParams(f, q, n - 1);
      if rest.Some? {
        assert Flipped(names) + ([Key(text)] + rest.value.0) == Flipped(names) + [Key(text)] + rest.value.0;
      }
  }

  /** What an instruction does depends on where its operands are, not on where the position was before. */
  lemma ActMoved(f: Bytes, self: string, e: Image, op: Byte, p: nat)
    ensures Act(f, self, e.(pos := p), op, p) == Act(f, self, e, op, p)
  {
    hide ReadPrim, Perform, ReadString, ReadParams, ReadDistance, Skip, BindNames, Framed, C.LoadFrom, C.LeaveTo, Key;
    hide IfFalse;
  }

  lemma NextTurn(f: Bytes, self: string, start: Image, i: nat, e: Image, t: Image)
    requires Turns(f, self, start, i) == Next(e) && Interpreter.Turn(f, self, e) == Next(t)
    ensures Turns(f, self, start, i + 1) == Next(t)
  {
    hide Interpreter.Turn, Turns;
    TurnsOne(f, self, e);
    TurnsAdd(f, self, start, i, e, 1);
  }

  lemma TopDeclared(s: C.Chains<Cell>, name: string)
    ensures C.DeclareTop(s, name).None? <==> s == []
  {
  }

  lemma FramedSome(s: C.Chains<Cell>, back: nat)
    ensures Framed(s, back).Some? && C.Enter(s) != []
  {
    hide Registered, ListMaps.Written;
    C.RegisteredFinds(Chain([], 0), RETURN_ADDRESS, Some(Address(back)));
    assert C.Enter(s)[0] == Chain([], 0);
  }

  lemma BindReplies(names: seq<string>, stack: seq<Value>, s: C.Chains<Cell>)
    ensures BindNames(names, stack, s).Got? || BindNames(names, stack, s).Failed?
  {
    hide C.DeclareTop, C.StoreTo;
  }

  lemma {:induction false} FlippedHead(x: string, names: seq<string>)
    ensures Flipped([x] + names) == Flipped(names) + [x]
  {
    assert ([x] + names)[1..] == names;
  }

  lemma {:induction false} FlippedTwice(names: seq<string>)
    ensures Flipped(Flipped(names)) == names
  {
    var y := Flipped(Flipped(names));
    assert forall i | 0 <= i < |names| :: y[i] == names[i];
  }

  lemma {:induction false} FlipBack(x: Bytes)
    ensures Backwards(Backwards(x)) == x
  {
    var y := Backwards(Backwards(x));
    assert forall i | 0 <= i < |x| :: y[i] == x[i];
  }
}
