/**
 Lexical scoping: the scope stack as a sequence of maps, innermost level first, and what any
 well-bracketed sequence of scope operations leaves behind.
 */
module Scoping {
  import opened Wrappers
  import opened ListMaps

  type Level<V> = map<string, Option<V>>
  type Scopes<V> = seq<Level<V>>

  // ----- the operations on levels -----

  /** Depth of the innermost level holding a value for the name; |s| when there is none.  A level that
      declares the name without a value is passed over. */
  function Holder<V>(s: Scopes<V>, name: string): (d: nat)
    ensures d <= |s| && (d < |s| ==> Lookup(s[d], name).Some?)
    ensures forall k | 0 <= k < d :: Lookup(s[k], name).None?
  {
    if s == [] || Lookup(s[0], name).Some? then 0 else
      assert forall k | 0 < k < |s| :: s[k] == s[1..][k - 1];
      Holder(s[1..], name) + 1
  }

  /** Depth of the innermost level that declares the name; |s| when there is none. */
  function Declarer<V>(s: Scopes<V>, name: string): (d: nat)
    ensures d <= |s| && (d < |s| ==> name in s[d])
    ensures forall k | 0 <= k < d :: name !in s[k]
  {
    if s == [] || name in s[0] then 0 else
      assert forall k | 0 < k < |s| :: s[k] == s[1..][k - 1];
      Declarer(s[1..], name) + 1
  }

  function Load<V>(s: Scopes<V>, name: string): Option<V> {
    var d := Holder(s, name);
    if d < |s| then s[d][name] else None
  }

  /** None when no level declares the name: the search then runs off the end of the list. */
  function Store<V>(s: Scopes<V>, name: string, value: Option<V>): Option<Scopes<V>> {
    var d := Declarer(s, name);
    if d < |s| then Some(s[d := s[d][name := value]]) else None
  }

  function Declare<V>(s: Scopes<V>, name: string): Option<Scopes<V>> {
    if s == [] then None
    else Some(s[0 := if Lookup(s[0], name).Some? then s[0] else s[0][name := None]])
  }

  function Exit<V>(s: Scopes<V>): Scopes<V> {
    if s == [] then [] else s[1..]
  }

  /** Levels left by exitTo: the top level is not counted among those to clear. */
  function ExitTo<V>(s: Scopes<V>, name: string): Scopes<V> {
    var d := Holder(s, name);
    if d == 0 then s else s[d - 1..]
  }

  // ----- loads and stores -----

  lemma HolderIs<V>(s: Scopes<V>, name: string, d: nat)
    requires d < |s| && Lookup(s[d], name).Some? && forall k | 0 <= k < d :: Lookup(s[k], name).None?
    ensures Holder(s, name) == d
  {
  }

  lemma DeclarerIs<V>(s: Scopes<V>, name: string, d: nat)
    requires d < |s| && name in s[d] && forall k | 0 <= k < d :: name !in s[k]
    ensures Declarer(s, name) == d
  {
  }

  /** A value stored is the value loaded; other names, and every other level, keep theirs. */
  lemma LoadAfterStore<V>(s: Scopes<V>, name: string, value: V, other: string)
    requires Store(s, name, Some(value)).Some?
    ensures var s' := Store(s, name, Some(value)).value;
      && Load(s', name) == Some(value)
      && (other != name ==> Load(s', other) == Load(s, other))
      && |s'| == |s| && s'[Declarer(s, name) + 1..] == s[Declarer(s, name) + 1..]
      && s'[..Declarer(s, name)] == s[..Declarer(s, name)]
  {
    var s' := Store(s, name, Some(value)).value;
    HolderIs(s', name, Declarer(s, name));
    if other != name {
      forall k | 0 <= k < |s| ensures Lookup(s'[k], other) == Lookup(s[k], other) {
      }
      if Holder(s, other) < |s| { HolderIs(s', other, Holder(s, other)); }
      else if Holder(s', other) < |s| { HolderIs(s, other, Holder(s', other)); }
    }
  }

  /** Leaving a procedure through exitTo and one more exit drops exactly its frame and what is above it
      when, and only when, the frame is the top level; otherwise the frame itself stays. */
  lemma ReturnDropsFrame<V>(s: Scopes<V>, name: string)
    requires Holder(s, name) < |s|
    ensures Exit(ExitTo(s, name)) == s[Holder(s, name) + 1..] <==> Holder(s, name) == 0
    ensures Holder(s, name) > 0 ==> Exit(ExitTo(s, name)) == s[Holder(s, name)..]
  {
  }

  // ----- well-bracketed programs -----

  datatype Cmd<V> =
    | Skip
    | Then(first: Cmd<V>, rest: Cmd<V>)
    | Decl(name: string)
    | Assign(name: string, value: Option<V>)
    | Block(body: Cmd<V>)

  /** None when the machine would run off the scope stack. */
  function Run<V>(c: Cmd<V>, s: Scopes<V>): Option<Scopes<V>> {
    match c
    case Skip => Some(s)
    case Then(a, b) => (match Run(a, s) case None => None case Some(t) => Run(b, t))
    case Decl(name) => Declare(s, name)
    case Assign(name, value) => Store(s, name, value)
    case Block(body) => (match Run(body, [map[]] + s) case None => None case Some(t) => Some(Exit(t)))
  }

  /** The names declared at each level inside the program, or None if it assigns to a name declared
      outside it. */
  function Names<V>(c: Cmd<V>, inside: seq<set<string>>): (r: Option<seq<set<string>>>)
    ensures r.Some? ==> |r.value| == |inside|
  {
    match c
    case Skip => Some(inside)
    case Then(a, b) => (match Names(a, inside) case None => None case Some(t) => Names(b, t))
    case Decl(name) => if inside == [] then None else Some(inside[0 := inside[0] + {name}])
    case Assign(name, _) => if exists k :: 0 <= k < |inside| && name in inside[k] then Some(inside) else None
    case Block(body) => (match Names(body, [{}] + inside) case None => None case Some(t) => Some(t[1..]))
  }

  ghost predicate Keys<V>(s: Scopes<V>, inside: seq<set<string>>) {
    |inside| <= |s| && forall k | 0 <= k < |inside| :: s[k].Keys == inside[k]
  }

  /** A program that assigns only to names declared inside it never fails and never touches an outer level. */
  lemma {:induction false} Confined<V>(c: Cmd<V>, s: Scopes<V>, inside: seq<set<string>>)
    requires Keys(s, inside) && Names(c, inside).Some?
    ensures Run(c, s).Some?
    ensures var t := Run(c, s).value;
      |t| == |s| && Keys(t, Names(c, inside).value) && t[|inside|..] == s[|inside|..]
    decreases c
  {
    match c
    case Skip =>
    case Then(a, b) =>
      Confined(a, s, inside);
      Confined(b, Run(a, s).value, Names(a, inside).value);
    case Decl(name) =>
    case Assign(name, value) =>
      var k :| 0 <= k < |inside| && name in inside[k];
      assert name in s[k];
    case Block(body) =>
      var s1, in1 := [map[]] + s, [{}] + inside;
      assert forall k | 0 < k < |in1| :: s1[k] == s[k - 1] && in1[k] == inside[k - 1];
      Confined(body, s1, in1);
      var t := Run(body, s1).value;
      assert s1[|in1|..] == s[|inside|..];
      assert t[1..][|inside|..] == t[|in1|..];
  }

  /** A block that assigns only to its own names leaves every outer binding exactly as it was. */
  lemma BlockRestores<V>(body: Cmd<V>, s: Scopes<V>)
    requires Names(body, [{}]).Some?
    ensures Run(Block(body), s) == Some(s)
  {
    Confined(body, [map[]] + s, [{}]);
    var t := Run(body, [map[]] + s).value;
    assert t[1..] == ([map[]] + s)[1..] == s;
  }
}
