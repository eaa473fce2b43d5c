/**
 Reading operands from a bytecode file (Component.c): a byte sequence and a position.  Strings are
 read twice, first to size the buffer and then to fill it, by two different escape automata.
 */
module Decoding {
  import opened Wrappers

  type Byte = b: int | 0 <= b < 256

  type Bytes = seq<Byte>

  const NUL: Byte := 0
  const NEWLINE: Byte := 10
  const BACKSLASH: Byte := 92
  const LETTER_N: Byte := 110

  const TYPE_STRING: Byte := 6

  // ----- the file -----

  const EOF: int := -1

  function Get(f: Bytes, p: nat): int {
    if p < |f| then f[p] else EOF
  }

  function After(f: Bytes, p: nat): nat {
    if p < |f| then p + 1 else p
  }

  /** fseek: a target before the start of the file is refused and the position stays. */
  function Sought(p: nat, delta: int): nat {
    if p + delta < 0 then p else p + delta
  }

  /** The first NUL at or after p, or None. */
  function FindNul(f: Bytes, p: nat): (r: Option<nat>)
    ensures r.Some? ==> p <= r.value < |f| && f[r.value] == NUL && NUL !in f[p..r.value]
    ensures r.None? ==> p >= |f| || NUL !in f[p..]
    decreases |f| - p
  {
    if p >= |f| then None
    else if f[p] == NUL then Some(p)
    else
      var r := FindNul(f, p + 1);
      assert f[p..] == [f[p]] + f[p + 1..];
      assert r.Some? ==> f[p..r.value] == [f[p]] + f[p + 1..r.value];
      r
  }

  // ----- the two passes -----

  /** Characters counted by the first pass; an escape stays open after an escaped n or backslash. */
  function Counted(t: Bytes, escape: bool): nat {
    if t == [] then 0
    else if t[0] == BACKSLASH && !escape then Counted(t[1..], true)
    else if t[0] != LETTER_N && t[0] != BACKSLASH && escape then 3 + Counted(t[1..], false)
    else 1 + Counted(t[1..], escape)
  }

  /** Characters left in the zeroed buffer by the second pass; an unknown escape leaves a zero. */
  function Decoded(t: Bytes, escape: bool): Bytes {
    if t == [] then []
    else if escape then [Unescaped(t[0])] + Decoded(t[1..], false)
    else if t[0] == BACKSLASH then Decoded(t[1..], true)
    else [t[0]] + Decoded(t[1..], false)
  }

  /** What the second pass writes for one character, and whether it leaves an escape open. */
  function Written(b: Byte, escape: bool): Bytes {
    if escape then [Unescaped(b)] else if b == BACKSLASH then [] else [b]
  }

  function Opens(b: Byte, escape: bool): bool {
    b == BACKSLASH && !escape
  }

  lemma DecodedStep(t: Bytes, escape: bool)
    ensures t == [] ==> Decoded(t, escape) == []
    ensures t != [] ==> Decoded(t, escape) == Written(t[0], escape) + Decoded(t[1..], Opens(t[0], escape))
  {
  }

  function Unescaped(b: Byte): Byte {
    if b == LETTER_N then NEWLINE else if b == BACKSLASH then BACKSLASH else NUL
  }

  /** The first pass counts at least what the second writes, from any pair of states that can occur: the
      second has an escape open only while the first does. */
  lemma {:induction false} CountSuffices(t: Bytes, first: bool, second: bool)
    requires second ==> first
    ensures |Decoded(t, second)| <= Counted(t, first)
  {
    if t != [] {
      if second {
        CountSuffices(t[1..], t[0] == LETTER_N || t[0] == BACKSLASH, false);
      } else if t[0] == BACKSLASH {
        CountSuffices(t[1..], true, true);
      } else {
        CountSuffices(t[1..], first && t[0] == LETTER_N, false);
      }
    }
  }

  /** Started together, the passes never reach the one pair of states in which the count could fall short. */
  lemma CountCanFallShort()
    ensures |Decoded([LETTER_N], true)| <= Counted([LETTER_N], false)
    ensures |Decoded([BACKSLASH], true)| > Counted([BACKSLASH], false)
  {
  }

  // ----- encoding -----

  function Escaped(b: Byte): Bytes {
    if b == NEWLINE then [BACKSLASH, LETTER_N] else if b == BACKSLASH then [BACKSLASH, BACKSLASH] else [b]
  }

  function Encoded(s: Bytes): Bytes {
    if s == [] then [] else Escaped(s[0]) + Encoded(s[1..])
  }

  lemma {:induction false} EncodedNoNul(s: Bytes)
    requires NUL !in s
    ensures NUL !in Encoded(s)
  {
    if s != [] { EncodedNoNul(s[1..]); }
  }

  lemma {:induction false} DecodeEncode(s: Bytes)
    ensures Decoded(Encoded(s), false) == s
  {
    if s != [] {
      DecodeEncode(s[1..]);
      var e := Encoded(s);
      if s[0] == NEWLINE || s[0] == BACKSLASH {
        assert e[1..][1..] == Encoded(s[1..]);
      } else {
        assert e[1..] == Encoded(s[1..]);
      }
    }
  }

  lemma {:induction false} PlainMeans(x: Bytes, y: Bytes)
    requires 92 !in x
    ensures Decoded(x + y, false) == x + Decoded(y, false)
    decreases |x|
  {
    if x == [] {
      assert x + y == y;
    } else {
      PlainMeans(x[1..], y);
      assert (x + y)[1..] == x[1..] + y;
    }
  }

  lemma EscapePair(b: Byte, y: Bytes)
    ensures Decoded([92, b] + y, false) == [Unescaped(b)] + Decoded(y, false)
  {
    var t := [92, b] + y;
    assert t[1..][1..] == y && t[0] == 92 && t[1..][0] == b;
  }

  /** Plain characters stand for themselves, backslash n for a newline, and two backslashes for one. */
  lemma EscapesMean(x: Bytes, y: Bytes)
    requires 92 !in x
    ensures Decoded(x + y, false) == x + Decoded(y, false)
    ensures Decoded(x + ([92, 110] + y), false) == x + [10] + Decoded(y, false)
    ensures Decoded(x + ([92, 92] + y), false) == x + [92] + Decoded(y, false)
  {
    hide Decoded;
    PlainMeans(x, y);
    PlainMeans(x, [92, 110] + y);
    PlainMeans(x, [92, 92] + y);
    EscapePair(110, y);
    EscapePair(92, y);
  }

  /** Only known escapes, none left open at the end, and no newline outside an escape. */
  predicate Canonical(t: Bytes, escape: bool) {
    if t == [] then !escape
    else if escape then (t[0] == LETTER_N || t[0] == BACKSLASH) && Canonical(t[1..], false)
    else if t[0] == BACKSLASH then Canonical(t[1..], true)
    else t[0] != NEWLINE && Canonical(t[1..], false)
  }

  /** Decoding loses nothing exactly on canonical text.  The comment at Component.c:1341-1343 would have an
      unknown escape kept as two characters; the second pass leaves a zero in its place. */
  lemma {:induction false} EncodeDecode(t: Bytes)
    requires NUL !in t
    ensures Encoded(Decoded(t, false)) == t <==> Canonical(t, false)
    decreases |t|
  {
    if t != [] {
      if t[0] == BACKSLASH {
        if |t| > 1 {
          EncodeDecode(t[2..]);
          assert t[1..][1..] == t[2..];
          var d := Decoded(t, false);
          assert d == Decoded(t[1..], true);
          assert t[1..][0] == t[1] && d == [Unescaped(t[1])] + Decoded(t[2..], false);
          assert d[1..] == Decoded(t[2..], false);
          assert Encoded(d) == Escaped(Unescaped(t[1])) + Encoded(Decoded(t[2..], false));
          if t[1] == LETTER_N || t[1] == BACKSLASH {
            assert t == Escaped(Unescaped(t[1])) + t[2..];
            assert Encoded(d)[2..] == Encoded(Decoded(t[2..], false));
          } else {
            assert Encoded(d)[0] == NUL;
          }
        } else {
          assert t[1..] == [];
        }
      } else {
        EncodeDecode(t[1..]);
        var d := Decoded(t, false);
        assert d[1..] == Decoded(t[1..], false);
        if t[0] == NEWLINE {
          assert Encoded(d)[0] == BACKSLASH;
        } else {
          assert Encoded(d)[1..] == Encoded(Decoded(t[1..], false));
        }
      }
    }
  }

  /** An unknown escape truncates the string for every C reader: a zero byte appears exactly then. */
  predicate KnownEscapes(t: Bytes, escape: bool) {
    if t == [] then true
    else if escape then (t[0] == LETTER_N || t[0] == BACKSLASH) && KnownEscapes(t[1..], false)
    else KnownEscapes(t[1..], t[0] == BACKSLASH)
  }

  lemma {:induction false} UnknownEscapeTruncates(t: Bytes, escape: bool)
    requires NUL !in t
    ensures NUL in Decoded(t, escape) <==> !KnownEscapes(t, escape)
  {
    if t != [] {
      if escape {
        UnknownEscapeTruncates(t[1..], false);
      } else {
        UnknownEscapeTruncates(t[1..], t[0] == BACKSLASH);
      }
    }
  }

  // ----- strings in a file -----

  /** component_readString: None when the type byte is not that of a string, on which the component exits,
      or when no NUL follows, on which the loop never ends. */
  function ReadString(f: Bytes, p: nat): (r: Option<(Bytes, nat)>)
    ensures r.Some? ==> p + 1 < r.value.1 <= |f|
  {
    if Get(f, p) != TYPE_STRING then None else
      match FindNul(f, p + 1)
      case None => None
      case Some(q) => Some((Decoded(f[p + 1..q], false), q + 1))
  }

  function StringBytes(s: Bytes): Bytes {
    [TYPE_STRING] + Encoded(s) + [NUL]
  }

  /** The bytes x stand at position p of the file. */
  predicate At(f: Bytes, p: nat, x: Bytes) {
    p + |x| <= |f| && f[p..p + |x|] == x
  }

  lemma {:induction false} FindNulAt(f: Bytes, p: nat, q: nat)
    requires p <= q < |f| && NUL !in f[p..q] && f[q] == NUL
    ensures FindNul(f, p) == Some(q)
    decreases q - p
  {
    if p < q {
      assert f[p..q] == [f[p]] + f[p + 1..q];
      FindNulAt(f, p + 1, q);
    }
  }

  lemma AtSplit(f: Bytes, p: nat, x: Bytes, y: Bytes)
    ensures At(f, p, x + y) <==> At(f, p, x) && At(f, p + |x|, y)
  {
    if At(f, p, x + y) {
      assert f[p..p + |x|] == f[p..p + |x + y|][..|x|];
      assert f[p + |x|..p + |x| + |y|] == f[p..p + |x + y|][|x|..];
    }
    if At(f, p, x) && At(f, p + |x|, y) {
      assert f[p..p + |x + y|] == f[p..p + |x|] + f[p + |x|..p + |x| + |y|];
    }
  }

  lemma AtByte(f: Bytes, p: nat, b: Byte)
    ensures At(f, p, [b]) <==> p < |f| && f[p] == b
  {
    if At(f, p, [b]) { assert f[p..p + 1][0] == b; }
    if p < |f| && f[p] == b { assert f[p..p + 1] == [b]; }
  }

  /** An encoded NUL-free string reads back as itself, and the position moves just past its terminator. */
  lemma StringRoundTrip(f: Bytes, p: nat, s: Bytes)
    requires NUL !in s && At(f, p, StringBytes(s))
    ensures ReadString(f, p) == Some((s, p + |StringBytes(s)|))
  {
    var e := Encoded(s);
    EncodedNoNul(s);
    DecodeEncode(s);
    AtSplit(f, p, [TYPE_STRING] + e, [NUL]);
    AtSplit(f, p, [TYPE_STRING], e);
    AtByte(f, p, TYPE_STRING);
    AtByte(f, p + 1 + |e|, NUL);
    FindNulAt(f, p + 1, p + 1 + |e|);
  }

  // ----- fixed-width operands -----

  /** n bytes of the file in order; past the end every byte reads as 0xFF. */
  function Taken(f: Bytes, p: nat, n: nat): (x: Bytes)
    ensures |x| == n
    decreases n
  {
    if n == 0 then [] else [if p < |f| then f[p] else 255] + Taken(f, After(f, p), n - 1)
  }

  function Backwards(x: Bytes): (r: Bytes)
    ensures |r| == |x| && forall i | 0 <= i < |x| :: r[i] == x[|x| - 1 - i]
  {
    if x == [] then [] else Backwards(x[1..]) + [x[0]]
  }

  function BigEndian(x: Bytes): nat {
    if x == [] then 0 else BigEndian(x[..|x| - 1]) * 256 + x[|x| - 1]
  }

  function LittleEndian(x: Bytes): nat {
    if x == [] then 0 else x[0] + 256 * LittleEndian(x[1..])
  }

  /** Storing big-endian input from the last byte down leaves the little-endian form of the same number. */
  lemma {:induction false} BackwardsValue(x: Bytes)
    ensures LittleEndian(Backwards(x)) == BigEndian(x)
  {
    if x != [] {
      var y := x[..|x| - 1];
      BackwardsValue(y);
      assert Backwards(x)[1..] == Backwards(y);
    }
  }

  lemma {:induction false} TakenAt(f: Bytes, p: nat, x: Bytes)
    requires At(f, p, x)
    ensures Taken(f, p, |x|) == x
    decreases |x|
  {
    if x != [] {
      AtSplit(f, p, [x[0]], x[1..]);
      assert [x[0]] + x[1..] == x;
      AtByte(f, p, x[0]);
      TakenAt(f, p + 1, x[1..]);
    }
  }

  /** The n bytes of a number, most significant first. */
  function BigBytes(v: nat, n: nat): (x: Bytes)
    ensures |x| == n
  {
    if n == 0 then [] else BigBytes(v / 256, n - 1) + [v % 256]
  }

  function Power256(n: nat): nat { if n == 0 then 1 else 256 * Power256(n - 1) }

  lemma {:induction false} BigBytesValue(v: nat, n: nat)
    requires v < Power256(n)
    ensures BigEndian(BigBytes(v, n)) == v
  {
    if n > 0 {
      BigBytesValue(v / 256, n - 1);
      var x := BigBytes(v, n);
      assert x[..|x| - 1] == BigBytes(v / 256, n - 1);
    }
  }

  // ----- the readers, as the source runs them -----

  class Source {
    const file: Bytes
    var pos: nat

    constructor (file: Bytes)
      ensures this.file == file && pos == 0
    {
      this.file, pos := file, 0;
    }

    /** fgetc */
    method GetByte() returns (b: int)
      modifies this`pos
      ensures b == Get(file, old(pos)) && pos == After(file, old(pos))
    {
      if pos >= |file| { return EOF; }
      b := file[pos];
      pos := pos + 1;
    }

    /** fseek relative to the current position */
    method SeekBy(delta: int)
      modifies this`pos
      ensures pos == Sought(old(pos), delta)
    {
      if pos + delta >= 0 { pos := pos + delta; }
    }

    /** component_readString: two passes over the same bytes, the second into a buffer sized by the first.
        Without a terminator the source loops for ever, so one is required unless the type byte is wrong. */
    method ReadText() returns (ok: bool, text: array<Byte>, length: nat)
      requires Get(file, pos) == TYPE_STRING ==> FindNul(file, pos + 1).Some?
      modifies this`pos
      ensures ok <==> ReadString(file, old(pos)).Some?
      ensures fresh(text)
      ensures ok ==> length < text.Length && text[length] == NUL
      ensures ok ==> text[..length] == ReadString(file, old(pos)).value.0 && pos == ReadString(file, old(pos)).value.1
    {
      var next := GetByte();
      if next != TYPE_STRING {
        text := new Byte[0];
        return false, text, 0;
      }
      var start := pos;
      ghost var end := FindNul(file, start).value;
      var count := FirstPass(end);
      CountSuffices(file[start..end], false, false);
      pos := start;
      text := new Byte[count + 1](_ => 0);
      length := SecondPass(text, end);
      text[length] := NUL;
      ok := true;
    }

    method FirstPass(ghost end: nat) returns (count: nat)
      requires FindNul(file, pos) == Some(end)
      modifies this`pos
      ensures count == Counted(file[old(pos)..end], false) && pos == end + 1
    {
      count := 0;
      var escape := false;
      var next := GetByte();
      while next != NUL
        invariant old(pos) < pos <= end + 1 && next == file[pos - 1]
        invariant next == NUL <==> pos == end + 1
        invariant count + Counted(file[pos - 1..end], escape) == Counted(file[old(pos)..end], false)
        decreases end + 1 - pos
      {
        assert file[pos - 1..end][1..] == file[pos..end];
        if next == BACKSLASH && !escape {
          escape := true;
        } else {
          if next != LETTER_N && next != BACKSLASH && escape {
            count := count + 2;
            escape := false;
          }
          count := count + 1;
        }
        assert pos < end ==> file[old(pos)..end][pos - old(pos)] != NUL;
        next := GetByte();
      }
    }

    method SecondPass(text: array<Byte>, ghost end: nat) returns (length: nat)
      requires FindNul(file, pos) == Some(end)
      requires |Decoded(file[pos..end], false)| < text.Length && Blank(text, 0)
      modifies this`pos, text
      ensures pos == end + 1 && length == |Decoded(file[old(pos)..end], false)|
      ensures text[..length] == Decoded(file[old(pos)..end], false)
    {
      hide Decoded, FindNul, Written, Opens;
      length := 0;
      var escape := false;
      ghost var whole := Decoded(file[pos..end], false);
      var next := GetByte();
      while next != NUL
        invariant old(pos) < pos <= end + 1 && next == file[pos - 1]
        invariant next == NUL <==> pos == end + 1
        invariant length < text.Length && Blank(text, length)
        invariant text[..length] + Decoded(file[pos - 1..end], escape) == whole
        decreases end + 1 - pos
      {
        ghost var rest := file[pos - 1..end];
        DecodedStep(rest, escape);
        assert rest[0] == next && rest[1..] == file[pos..end];
        length, escape := PutCharacter(text, length, next, escape);
        assert pos < end ==> file[old(pos)..end][pos - old(pos)] != NUL;
        next := GetByte();
      }
      DecodedStep(file[pos - 1..end], escape);
    }

    ghost predicate Blank(text: array<Byte>, from: nat)
      reads text
    {
      forall i | from <= i < text.Length :: text[i] == 0
    }

    /** The body of the second pass's loop. */
    method PutCharacter(text: array<Byte>, at: nat, next: Byte, escape: bool) returns (length: nat, open: bool)
      requires at + |Written(next, escape)| < text.Length && Blank(text, at)
      modifies text
      ensures open == Opens(next, escape) && length == at + |Written(next, escape)| && Blank(text, length)
      ensures text[..length] == old(text[..at]) + Written(next, escape)
    {
      length, open := at, escape;
      if next == BACKSLASH && !escape {
        return at, true;
      }
      if open {
        if next == LETTER_N {
          text[length] := NEWLINE;
        } else if next == BACKSLASH {
          text[length] := BACKSLASH;
        }
        open := false;
      } else {
        text[length] := next;
      }
      length := length + 1;
    }

    /** component_readNBytes: the bytes go into the buffer from its last place down. */
    method ReadNBytes(n: nat) returns (result: array<Byte>)
      modifies this`pos
      ensures fresh(result) && result[..] == Backwards(Taken(file, old(pos), n))
      ensures pos == if old(pos) + n <= |file| then old(pos) + n else if old(pos) <= |file| then |file| else old(pos)
      ensures LittleEndian(result[..]) == BigEndian(Taken(file, old(pos), n))
    {
      result := new Byte[n];
      ghost var all := Taken(file, pos, n);
      for i := 1 to n + 1
        invariant all[i - 1..] == Taken(file, pos, n - (i - 1))
        invariant forall j | 0 <= j < i - 1 :: result[n - 1 - j] == all[j]
        invariant pos == if old(pos) + (i - 1) <= |file| then old(pos) + (i - 1) else if old(pos) <= |file| then |file|
            else old(pos)
      {
        var next := GetByte();
        assert all[i - 1] == if next == EOF then 255 else next;
        result[n - i] := if next == EOF then 255 else next;
        assert all[i..] == all[i - 1..][1..];
      }
      assert result[..] == Backwards(all);
      BackwardsValue(all);
    }
  }
}
