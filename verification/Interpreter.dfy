/**
 The instruction loop of a component over the scope stack it really has: list maps whose searches start at a
 cursor and move it (ScopeChains.dfy).  It refines the loop on maps of Machine.dfy for as long as no name is
 entered twice at one level, and that is exactly as long as the loop on maps goes on.
 */
module Interpreter {
  import opened Wrappers
  import opened ListMaps
  import S = Scoping
  import C = ScopeChains
  import opened Decoding
  import opened Bytecode
  import opened Machines

  type Image = Config<C.Chains<Cell>>

  type Turnout = Fate<C.Chains<Cell>>

  // ----- instructions -----

  function Perform(i: Prim, stack: seq<Value>, scopes: C.Chains<Cell>): Effect<C.Chains<Cell>>
    requires Literate(i)
  {
    match i
    case Lit(d) => Got((stack + [Literal(d)], scopes))
    case Decl(name, _) => With(stack, FromOption(C.DeclareTop(scopes, Key(name))))
    case Fetch(name) => var (_, v, t) := C.LoadFrom<Cell>(scopes, Key(name)); Pushed(v, stack, t)
    case Put(name) => With(Pop(stack), FromOption(C.StoreTo(scopes, Key(name), TopCell(stack))))
    case Op(op) => Computed(op, stack, scopes)
  }

  /** Declare each name at the top level and pop its value into it. */
  function BindNames(names: seq<string>, stack: seq<Value>, scopes: C.Chains<Cell>): Effect<C.Chains<Cell>> {
    if names == [] then Got((stack, scopes)) else
      match C.DeclareTop(scopes, names[0])
      case None => Failed
      case Some(declared) =>
        match C.StoreTo(declared, names[0], TopCell(stack))
        case None => Failed
        case Some(stored) => BindNames(names[1..], Pop(stack), stored)
  }

  /** A new scope that holds the return address. */
  function Framed(scopes: C.Chains<Cell>, back: nat): Option<C.Chains<Cell>> {
    match C.DeclareTop(C.Enter(scopes), RETURN_ADDRESS)
    case None => None
    case Some(t) => C.StoreTo(t, RETURN_ADDRESS, Some(Address(back)))
  }

  function Call(f: Bytes, e: Image, p: nat): Turnout {
    match ReadString(f, p)
    case None => Exits
    case Some((name, q)) =>
      if Key(name) !in e.procs then Beyond else
        var proc := e.procs[Key(name)];
        match Framed(e.scopes, q)
        case None => Exits
        case Some(scopes) => Going(e, proc.position, BindNames(proc.names, e.stack, scopes))
  }

  function Return(e: Image): Turnout {
    var (_, address, t) := C.LoadFrom<Cell>(e.scopes, RETURN_ADDRESS);
    var (_, source, u) := C.LoadFrom<Cell>(t, RETURN_SOURCE);
    Back(e, address, source, C.Leave(C.LeaveTo(u, RETURN_ADDRESS)))
  }

  function EndBlock(e: Image, p: nat): Turnout {
    var (_, address, t) := C.LoadFrom<Cell>(e.scopes, RETURN_ADDRESS);
    if address.Some? then Return(e.(scopes := t)) else Next(e.(pos := p, scopes := t))
  }

  function Act(f: Bytes, self: string, e: Image, op: Byte, p: nat): Turnout {
    if op == ENTERSCOPE then Next(e.(pos := p, scopes := C.Enter(e.scopes)))
    else if op == EXITSCOPE then Next(e.(pos := p, scopes := C.Leave(e.scopes)))
    else if IsPrim(op) then
      (match ReadPrim(f, p, op)
       case None => Exits
       case Some((i, q)) => Going(e, q, Perform(i, e.stack, e.scopes)))
    else if op == STOP then
      (match ReadString(f, p)
       case None => Exits
       case Some((name, q)) => if Key(name) == "" || Key(name) == self then Next(e.(pos := q, stop := true))
           else Beyond)
    else if Scopeless(op) then DoScopeless(f, e, op, p)
    else if op == PROCCALL then Call(f, e, p)
    else if op == RETURN then Return(e)
    else if op == BLOCKEND then EndBlock(e, p)
    else Beyond
  }

  function Turn(f: Bytes, self: string, e: Image): Turnout {
    if e.stop || e.pos >= |f| then Ended else Act(f, self, e, f[e.pos], e.pos + 1)
  }

  function Turns(f: Bytes, self: string, e: Image, n: nat): Turnout
    decreases n
  {
    if n == 0 then Next(e) else
      match Turn(f, self, e)
      case Next(t) => Turns(f, self, t, n - 1)
      case o => o
  }

  // ----- refinement -----

  ghost predicate Depicts(e: Image, s: State) {
    e.pos == s.pos && e.stack == s.stack && e.procs == s.procs && e.stop == s.stop && C.Shows(e.scopes, s.scopes)
  }

  /** The same outcome with scopes that show the maps; where the maps give up, a scope that holds a key twice. */
  ghost predicate Follows(o: Turnout, m: Outcome) {
    match m
    case Next(t) => o.Next? && Depicts(o.state, t)
    case Ended => o.Ended?
    case Exits => o.Exits?
    case Beyond => o.Beyond?
    case Doubles => o.Next? && !C.Unambiguous(o.state.scopes)
  }

  ghost predicate Agrees(r: Effect<C.Chains<Cell>>, m: Effect<S.Scopes<Cell>>) {
    match m
    case Got((stack, s)) => r.Got? && r.value.0 == stack && C.Shows(r.value.1, s)
    case Failed => r.Failed?
    case Unclear => r.Unclear?
    case Doubled => r.Got? && !C.Unambiguous(r.value.1)
  }

  lemma DeclareAgrees(e: C.Chains<Cell>, s: S.Scopes<Cell>, name: string, stack: seq<Value>)
    requires C.Shows(e, s)
    ensures Agrees(With(stack, FromOption(C.DeclareTop(e, name))), With(stack, DeclareIn(s, name)))
  {
    C.DeclareShows(e, s, name);
    hide C.DeclareTop, C.Shows, C.Unambiguous, S.Declare;
  }

  lemma StoreAgrees(e: C.Chains<Cell>, s: S.Scopes<Cell>, name: string, value: Option<Cell>, stack: seq<Value>)
    requires C.Shows(e, s)
    ensures Agrees(With(stack, FromOption(C.StoreTo(e, name, value))), With(stack, FromOption(S.Store(s, name, value))))
  {
    C.StoreShows(e, s, name, value);
    hide C.StoreTo, C.Shows, S.Store;
  }

  lemma LoadAgrees(e: C.Chains<Cell>, s: S.Scopes<Cell>, name: string, stack: seq<Value>)
    requires C.Shows(e, s)
    ensures var (_, v, t) := C.LoadFrom(e, name); Agrees(Pushed(v, stack, t), Pushed(S.Load<Cell>(s, name), stack, s))
  {
    C.LoadShows(e, s, name);
    hide C.LoadFrom, C.Shows, S.Load;
  }

  lemma PerformAgrees(i: Prim, stack: seq<Value>, e: C.Chains<Cell>, s: S.Scopes<Cell>)
    requires Literate(i) && C.Shows(e, s)
    ensures Agrees(Perform(i, stack, e), DoPrim(i, stack, s))
  {
    hide C.DeclareTop, C.StoreTo, C.LoadFrom, C.Shows, C.Unambiguous, S.Load, S.Store, DeclareIn, With, Pushed;
    hide Combine, Literal, Key, Agrees;
    match i
    case Lit(d) => GotAgrees(stack + [Literal(d)], e, s);
    case Decl(name, _) => DeclareAgrees(e, s, Key(name), stack);
    case Fetch(name) => LoadAgrees(e, s, Key(name), stack);
    case Put(name) => StoreAgrees(e, s, Key(name), TopCell(stack), Pop(stack));
    case Op(op) => ComputedAgrees(op, stack, e, s);
  }

  lemma GotAgrees(stack: seq<Value>, e: C.Chains<Cell>, s: S.Scopes<Cell>)
    requires C.Shows(e, s)
    ensures Agrees(Got((stack, e)), Got((stack, s)))
  {
  }

  lemma ComputedAgrees(op: Byte, stack: seq<Value>, e: C.Chains<Cell>, s: S.Scopes<Cell>)
    requires C.Shows(e, s)
    ensures Agrees(Computed(op, stack, e), Computed(op, stack, s))
  {
    hide C.Shows;
    CombineReplies(op, stack);
    hide Combine;
  }

  lemma CombineReplies(op: Byte, stack: seq<Value>)
    ensures |stack| >= 2 ==> !Combine(op, stack[|stack| - 2], stack[|stack| - 1]).Doubled?
  {
  }

  /** Once a key is there twice, binding goes on and leaves it so. */
  lemma {:induction false} BindAmbiguous(names: seq<string>, stack: seq<Value>, e: C.Chains<Cell>)
    requires e != [] && C.AllSane(e) && !UniqueKeys(e[0].entries)
    ensures BindNames(names, stack, e).Got? && !C.Unambiguous(BindNames(names, stack, e).value.1)
    decreases |names|
  {
    hide C.DeclareTop, C.StoreTo, C.AllSane, UniqueKeys;
    if names != [] {
      C.StaysAmbiguous(e, names[0], TopCell(stack));
      C.StoreAfterDeclare(e, names[0], TopCell(stack));
      BindAmbiguous(names[1..], Pop(stack), C.StoreTo(C.DeclareTop(e, names[0]).value, names[0], TopCell(stack)).value);
    }
  }

  lemma ClashAmbiguous(e: C.Chains<Cell>, s: S.Scopes<Cell>, name: string, value: Option<Cell>)
    requires C.Shows(e, s) && C.Clashes(s, name)
    ensures var d := C.DeclareTop(e, name);
      && d.Some? && C.StoreTo(d.value, name, value).Some?
      && var t := C.StoreTo(d.value, name, value).value; t != [] && C.AllSane(t) && !UniqueKeys(t[0].entries)
  {
    C.ShowsUnique(e, s);
    C.ShowsTail(e, s);
    C.StoreAfterDeclare(e, name, value);
    RegisteredUnique(e[0], name);
    hide C.StoreTo, C.Shows;
    StaysDouble(Registered(e[0], name), name, value);
  }

  lemma {:induction false} BindAgrees(names: seq<string>, stack: seq<Value>, e: C.Chains<Cell>, s: S.Scopes<Cell>)
    requires C.Shows(e, s)
    ensures Agrees(BindNames(names, stack, e), NamesBound(names, stack, s))
    decreases |names|
  {
    hide C.DeclareTop, C.StoreTo, C.Shows, C.Unambiguous, C.AllSane, C.Clashes, S.Declare, S.Store, UniqueKeys;
    if names != [] {
      var name, v := names[0], TopCell(stack);
      if C.Clashes(s, name) {
        ClashAmbiguous(e, s, name, v);
        BindAmbiguous(names[1..], Pop(stack), C.StoreTo(C.DeclareTop(e, name).value, name, v).value);
        BoundClash(names, stack, s);
      } else {
        C.DeclareShows(e, s, name);
        DeclareSome(s, name);
        if S.Declare(s, name).Some? {
          C.StoreShows(C.DeclareTop(e, name).value, S.Declare(s, name).value, name, v);
          if S.Store(S.Declare(s, name).value, name, v).Some? {
            BindAgrees(names[1..], Pop(stack), C.StoreTo(C.DeclareTop(e, name).value, name, v).value,
                       S.Store(S.Declare(s, name).value, name, v).value);
          }
        }
      }
    }
  }

  lemma DeclareSome(s: S.Scopes<Cell>, name: string)
    ensures S.Declare(s, name).Some? <==> s != []
  {
  }

  lemma BoundClash(names: seq<string>, stack: seq<Value>, s: S.Scopes<Cell>)
    requires names != [] && C.Clashes(s, names[0])
    ensures NamesBound(names, stack, s) == Doubled
  {
    hide C.Clashes;
  }

  /** The frame's first entry is the return address. */
  lemma FramedShows(e: C.Chains<Cell>, s: S.Scopes<Cell>, back: nat)
    requires C.Shows(e, s)
    ensures Framed(e, back).Some? && C.Shows(Framed(e, back).value, [map[RETURN_ADDRESS := Some(Address(back))]] + s)
  {
    hide C.DeclareTop, C.StoreTo, C.Shows;
    var t: S.Scopes<Cell> := [map[]] + s;
    C.LeaveShows(e, s);
    C.DeclareShows(C.Enter(e), t, RETURN_ADDRESS);
    var d := S.Declare(t, RETURN_ADDRESS).value;
    assert !C.Clashes(t, RETURN_ADDRESS);
    S.DeclarerIs(d, RETURN_ADDRESS, 0);
    var r := [map[RETURN_ADDRESS := Some(Address(back))]] + s;
    assert d[0][RETURN_ADDRESS := Some(Address(back))] == r[0];
    assert d[0 := r[0]] == r;
    assert S.Store(d, RETURN_ADDRESS, Some(Address(back))) == Some(r);
    C.StoreShows(C.DeclareTop(C.Enter(e), RETURN_ADDRESS).value, d, RETURN_ADDRESS, Some(Address(back)));
  }

  lemma GoingFollows(e: Image, s: State, q: nat, r: Effect<C.Chains<Cell>>, m: Effect<S.Scopes<Cell>>)
    requires Depicts(e, s) && Agrees(r, m)
    ensures Follows(Going(e, q, r), Going(s, q, m))
  {
    hide C.Shows, C.Unambiguous;
  }

  lemma CallFollows(f: Bytes, e: Image, s: State, p: nat)
    requires Depicts(e, s)
    ensures Follows(Call(f, e, p), Called(f, s, p))
  {
    hide C.Shows, C.Unambiguous, Framed, BindNames, NamesBound, ReadString, Key, Going;
    if ReadString(f, p).Some? {
      var (name, q) := ReadString(f, p).value;
      if Key(name) in s.procs {
        var proc := s.procs[Key(name)];
        FramedShows(e.scopes, s.scopes, q);
        BindAgrees(proc.names, s.stack, Framed(e.scopes, q).value, [map[RETURN_ADDRESS := Some(Address(q))]] +
            s.scopes);
        GoingFollows(e, s, proc.position, BindNames(proc.names, s.stack, Framed(e.scopes, q).value),
                     NamesBound(proc.names, s.stack, [map[RETURN_ADDRESS := Some(Address(q))]] + s.scopes));
      }
    }
  }

  lemma ReturnFollows(e: Image, s: State)
    requires Depicts(e, s)
    ensures Follows(Return(e), Returned(s))
  {
    hide C.Shows, C.Unambiguous, C.LoadFrom, C.LeaveTo, C.Leave, S.Load, S.ExitTo, S.Exit;
    C.LoadShows(e.scopes, s.scopes, RETURN_ADDRESS);
    var t := C.LoadFrom(e.scopes, RETURN_ADDRESS).2;
    C.LoadShows(t, s.scopes, RETURN_SOURCE);
    var u := C.LoadFrom(t, RETURN_SOURCE).2;
    C.LeaveToShows(u, s.scopes, RETURN_ADDRESS);
    C.LeaveShows(C.LeaveTo(u, RETURN_ADDRESS), S.ExitTo(s.scopes, RETURN_ADDRESS));
  }

  lemma EndBlockFollows(e: Image, s: State, p: nat)
    requires Depicts(e, s)
    ensures Follows(EndBlock(e, p), if S.Load(s.scopes, RETURN_ADDRESS).Some? then Returned(s) else Next(s.(pos := p)))
  {
    hide C.Shows, C.Unambiguous, C.LoadFrom, S.Load, Return, Returned;
    C.LoadShows(e.scopes, s.scopes, RETURN_ADDRESS);
    var t := C.LoadFrom(e.scopes, RETURN_ADDRESS).2;
    ReturnFollows(e.(scopes := t), s);
  }

  lemma ScopelessFollows(f: Bytes, e: Image, s: State, op: Byte, p: nat)
    requires Depicts(e, s) && Scopeless(op)
    ensures Follows(DoScopeless(f, e, op, p), DoScopeless(f, s, op, p))
  {
    hide C.Shows, C.Unambiguous, ReadDistance, ReadString, ReadParams, Skip, IfFalse, Key, Jumped;
  }

  /** One instruction, on the entries and on the maps. */
  lemma ActFollows(f: Bytes, self: string, e: Image, s: State, op: Byte, p: nat)
    requires Depicts(e, s)
    ensures Follows(Act(f, self, e, op, p), Do(f, self, s, op, p))
  {
    hide C.Shows, C.Unambiguous, S.Load, S.Exit, C.Leave, C.Enter, ReadPrim, ReadString, Key, DoScopeless, Call, Called,
      Return, Returned, EndBlock, Perform, DoPrim, Going;
    if op == ENTERSCOPE || op == EXITSCOPE {
      C.LeaveShows(e.scopes, s.scopes);
    } else if IsPrim(op) {
      if ReadPrim(f, p, op).Some? {
        var (i, q) := ReadPrim(f, p, op).value;
        PerformAgrees(i, s.stack, e.scopes, s.scopes);
        GoingFollows(e, s, q, Perform(i, s.stack, e.scopes), DoPrim(i, s.stack, s.scopes));
      }
    } else if op == STOP {
    } else if Scopeless(op) {
      ScopelessFollows(f, e, s, op, p);
    } else if op == PROCCALL {
      CallFollows(f, e, s, p);
    } else if op == RETURN {
      ReturnFollows(e, s);
    } else if op == BLOCKEND {
      EndBlockFollows(e, s, p);
    }
  }

  lemma TurnFollows(f: Bytes, self: string, e: Image, s: State)
    requires Depicts(e, s)
    ensures Follows(Turn(f, self, e), Step(f, self, s))
  {
    hide C.Shows, C.Unambiguous, Act, Do;
    if !s.stop && s.pos < |f| { ActFollows(f, self, e, s, f[s.pos], s.pos + 1); }
  }

  /** As long as the maps go on, the entries do the same; and they give up only where a scope comes to hold a
      key twice. */
  lemma {:induction false} TurnsFollow(f: Bytes, self: string, e: Image, s: State, n: nat)
    requires Depicts(e, s)
    ensures !Steps(f, self, s, n).Doubles? ==> Follows(Turns(f, self, e, n), Steps(f, self, s, n))
    ensures Steps(f, self, s, n).Doubles? ==>
      exists k: nat :: k <= n && Turns(f, self, e, k).Next? && !C.Unambiguous(Turns(f, self, e, k).state.scopes)
    decreases n
  {
    hide Depicts, C.Unambiguous, Turn, Step;
    if n > 0 {
      TurnFollows(f, self, e, s);
      TurnsOne(f, self, e);
      match Step(f, self, s)
      case Next(t) =>
        var u := Turn(f, self, e).state;
        TurnsFollow(f, self, u, t, n - 1);
        if Steps(f, self, s, n).Doubles? {
          var k: nat :| k <= n - 1 && Turns(f, self, u, k).Next? && !C.Unambiguous(Turns(f, self, u, k).state.scopes);
          assert Turns(f, self, e, k + 1) == Turns(f, self, u, k);
        }
      case Doubles => assert Turns(f, self, e, 1).Next?;
      case _ =>
    } else {
      FollowsSelf(e, s);
    }
  }

  lemma FollowsSelf(e: Image, s: State)
    requires Depicts(e, s)
    ensures Follows(Next(e), Next(s))
  {
  }

  lemma TurnsOne(f: Bytes, self: string, e: Image)
    ensures Turns(f, self, e, 1) == Turn(f, self, e)
  {
    hide Turn;
    if Turn(f, self, e).Next? { assert Turns(f, self, Turn(f, self, e).state, 0) == Turn(f, self, e); }
  }

  // ----- whole runs -----

  lemma {:induction false} TurnsAdd(f: Bytes, self: string, e: Image, n: nat, u: Image, m: nat)
    requires Turns(f, self, e, n) == Next(u)
    ensures Turns(f, self, e, n + m) == Turns(f, self, u, m)
    decreases n
  {
    hide Turn;
    if n > 0 { TurnsAdd(f, self, Turn(f, self, e).state, n - 1, u, m); }
  }

  lemma {:induction false} StepsStay(f: Bytes, self: string, s: State, n: nat, m: nat)
    requires !Steps(f, self, s, n).Next? && n <= m
    ensures Steps(f, self, s, m) == Steps(f, self, s, n)
    decreases n
  {
    hide Step;
    if n > 0 && Step(f, self, s).Next? { StepsStay(f, self, Step(f, self, s).state, n - 1, m - 1); }
  }

  lemma {:induction false} TurnsStay(f: Bytes, self: string, e: Image, n: nat, m: nat)
    requires !Turns(f, self, e, n).Next? && n <= m
    ensures Turns(f, self, e, m) == Turns(f, self, e, n)
    decreases n
  {
    hide Turn;
    if n > 0 && Turn(f, self, e).Next? { TurnsStay(f, self, Turn(f, self, e).state, n - 1, m - 1); }
  }

  /** In every state of the first n turns. */
  ghost predicate AlwaysUnambiguous(f: Bytes, self: string, e: Image, n: nat) {
    forall k: nat | k <= n :: Turns(f, self, e, k).Next? ==> C.Unambiguous(Turns(f, self, e, k).state.scopes)
  }

  /** No scope comes to hold a key twice in n turns exactly when no turn declares a name that is at its level
      without a value. */
  lemma UnambiguousExactly(f: Bytes, self: string, e: Image, s: State, n: nat)
    requires Depicts(e, s)
    ensures AlwaysUnambiguous(f, self, e, n) <==> !Steps(f, self, s, n).Doubles?
  {
    hide Depicts, C.Unambiguous, Turn, Step, Turns, Steps;
    if Steps(f, self, s, n).Doubles? {
      TurnsFollow(f, self, e, s, n);
    } else {
      forall k: nat | k <= n && Turns(f, self, e, k).Next? ensures C.Unambiguous(Turns(f, self, e, k).state.scopes) {
        if Steps(f, self, s, k).Doubles? { StepsStay(f, self, s, k, n); }
        TurnsFollow(f, self, e, s, k);
        FollowsUnambiguous(Turns(f, self, e, k), Steps(f, self, s, k));
      }
    }
  }

  lemma FollowsUnambiguous(o: Turnout, m: Outcome)
    requires Follows(o, m) && o.Next? && !m.Doubles?
    ensures C.Unambiguous(o.state.scopes)
  {
    C.ShowsUnique(o.state.scopes, m.state.scopes);
  }
}
