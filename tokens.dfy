/** The argument lists that the client hands to its connection, and the
    pieces the command builders assemble them from. */
module Tokens {

  datatype Option<+T> = None | Some(value: T) {
    /** The value, or `default` when it is absent. */
    function GetOr(default: T): T {
      if Some? then value else default
    }
  }

  /** An optional caller string that is not one of `ks`. */
  predicate Outside(o: Option<string>, ks: set<string>) {
    o.Some? ==> o.value !in ks
  }

  /** A JavaScript number. Only its identity matters here: how it is
      rendered as text is not modelled. */
  type Number = real

  /** One element of the argument array passed to `send_command`. */
  datatype Token =
    | Str(s: string)               // a string element
    | Num(n: Number)               // a number placed in the array as it is
    | NumText(n: Number)           // the string `n.toString()` (its digits are left opaque)
    | BufferText(bytes: seq<bv8>)  // the string `Buffer.toString()` gives for these bytes
    | Undefined                    // `undefined`, pushed where an optional value is absent

  /** A command keyword together with its argument list. */
  datatype Command = Command(name: string, args: seq<Token>)

  /** A list of caller strings, element by element and in the caller's order. */
  function Strs(ss: seq<string>): (r: seq<Token>)
    ensures |r| == |ss|
    ensures forall i :: 0 <= i < |ss| ==> r[i] == Str(ss[i])
  {
    if ss == [] then [] else [Str(ss[0])] + Strs(ss[1..])
  }

  /** `b` starts with `a`. */
  predicate Extends(b: seq<Token>, a: seq<Token>) {
    |b| >= |a| && b[..|a|] == a
  }

  lemma ExtendsAppend(a: seq<Token>, t: seq<Token>)
    ensures Extends(a + t, a)
  {
    assert (a + t)[..|a|] == a;
  }

  lemma ExtendsTrans(a: seq<Token>, b: seq<Token>, c: seq<Token>)
    requires Extends(b, a) && Extends(c, b)
    ensures Extends(c, a)
  {
    assert c[..|a|] == c[..|b|][..|a|];
  }

  /** Where `args` extends `s` followed by `piece`, the piece sits right
      after `s`. */
  lemma PieceAt(args: seq<Token>, s: seq<Token>, piece: seq<Token>)
    requires Extends(args, s + piece)
    ensures |args| >= |s| + |piece|
    ensures args[|s|..|s| + |piece|] == piece
  {
    assert args[|s|..|s| + |piece|] == args[..|s| + |piece|][|s|..];
  }

  /** A marker and its body, placed right after `s`. */
  lemma MarkedAt(args: seq<Token>, s: seq<Token>, k: Token, body: seq<Token>)
    requires Extends(args, s + ([k] + body))
    ensures |args| >= |s| + 1 + |body|
    ensures args[|s|] == k && args[|s| + 1..|s| + 1 + |body|] == body
  {
    PieceAt(args, s, [k] + body);
    assert args[|s| + 1..|s| + 1 + |body|] == args[|s|..|s| + 1 + |body|][1..];
  }

  /** `o === true`: an optional flag that is set to `true`. */
  predicate IsTrue(o: Option<bool>) {
    o == Some(true)
  }

  /** The token for an optional string that is placed in the array even
      when it is absent. */
  function OrUndefined(o: Option<string>): Token {
    if o.Some? then Str(o.value) else Undefined
  }

  /** `args.push(k)` when `on` holds. */
  function Flag(on: bool, k: string): seq<Token> {
    if on then [Str(k)] else []
  }

  /** A marker followed by its payload, when `on` holds; nothing otherwise. */
  function Marked(on: bool, k: string, payload: seq<Token>): seq<Token> {
    if on then [Str(k)] + payload else []
  }

  /** The value of an optional string, when it is present. */
  function Pushed(o: Option<string>): seq<Token> {
    if o.Some? then [Str(o.value)] else []
  }

  /** The text of an optional number, when it is present. */
  function PushedNum(o: Option<Number>): seq<Token> {
    if o.Some? then [NumText(o.value)] else []
  }

  /** `[k, value]` when the optional string is present. */
  function Pair(k: string, o: Option<string>): seq<Token> {
    if o.Some? then [Str(k), Str(o.value)] else []
  }

  /** `[k, value.toString()]` when the optional number is present. */
  function NumPair(k: string, o: Option<Number>): seq<Token> {
    if o.Some? then [Str(k), NumText(o.value)] else []
  }

  /** The strings of an argument list made of strings only; `None` when
      some element is not a string. */
  function Texts(r: seq<Token>): Option<seq<string>> {
    if r == [] then Some([])
    else if !r[0].Str? then None
    else match Texts(r[1..])
      case Some(rest) => Some([r[0].s] + rest)
      case None => None
  }

  lemma {:induction false} TextsOfStrs(ss: seq<string>)
    ensures Texts(Strs(ss)) == Some(ss)
  {
    if ss != [] {
      assert Strs(ss)[1..] == Strs(ss[1..]);
      TextsOfStrs(ss[1..]);
      assert ss == [ss[0]] + ss[1..];
    }
  }

  lemma StrsAppend(a: seq<string>, b: seq<string>)
    ensures Strs(a + b) == Strs(a) + Strs(b)
  {
    var l := Strs(a + b);
    var r := Strs(a) + Strs(b);
    forall i | 0 <= i < |a|
      ensures l[i] == r[i]
    {
      assert (a + b)[i] == a[i];
    }
    forall i | |a| <= i < |a| + |b|
      ensures l[i] == r[i]
    {
      assert (a + b)[i] == b[i - |a|];
    }
    assert |l| == |r|;
  }

  /** The keyword skeleton of an argument list: the string tokens that
      belong to `ks`, in the order in which they occur. */
  function Keywords(r: seq<Token>, ks: set<string>): seq<string> {
    if r == [] then []
    else (if r[0].Str? && r[0].s in ks then [r[0].s] else []) + Keywords(r[1..], ks)
  }

  /** `[k]` when `on` holds: one entry of an expected keyword skeleton. */
  function Present(on: bool, k: string): seq<string> {
    if on then [k] else []
  }

  /** Regrouping a concatenation, as a step of its own: stated inside a
      larger proof, the same fact costs that proof's whole context. */
  lemma AppendAssoc(a: seq<Token>, b: seq<Token>, c: seq<Token>)
    ensures a + b + c == a + (b + c)
  {}

  lemma PresentIn(on: bool, k: string, x: string)
    ensures x in Present(on, k) <==> on && x == k
  {}

  lemma {:induction false} KeywordsAppend(a: seq<Token>, b: seq<Token>, ks: set<string>)
    ensures Keywords(a + b, ks) == Keywords(a, ks) + Keywords(b, ks)
  {
    if a == [] {
      assert a + b == b;
    } else {
      assert (a + b)[1..] == a[1..] + b;
      KeywordsAppend(a[1..], b, ks);
    }
  }

  /** A keyword of `ks` occurs in an argument list as often as it occurs
      in the list's skeleton. */
  lemma {:induction false} KeywordsCount(r: seq<Token>, ks: set<string>, k: string)
    requires k in ks
    ensures multiset(r)[Str(k)] == multiset(Keywords(r, ks))[k]
  {
    if r != [] {
      KeywordsCount(r[1..], ks, k);
      var head := if r[0].Str? && r[0].s in ks then [r[0].s] else [];
      assert r == [r[0]] + r[1..];
      assert multiset(Keywords(r, ks)) == multiset(head) + multiset(Keywords(r[1..], ks));
    }
  }

  /** Appending a keyword a skeleton lacks makes it occur there once. */
  lemma AppendedOnce(r: seq<string>, k: string)
    requires k !in r
    ensures multiset(r + [k])[k] == 1
  {
    assert multiset(r + [k]) == multiset(r) + multiset{k};
  }

  lemma KeywordsSingle(t: Token, ks: set<string>)
    ensures Keywords([t], ks) == if t.Str? && t.s in ks then [t.s] else []
  {
    assert [t][1..] == [];
  }

  /** A keyword of `ks` occurs in an argument list exactly when it occurs
      in the list's skeleton. */
  lemma {:induction false} KeywordsIn(r: seq<Token>, ks: set<string>, k: string)
    requires k in ks
    ensures Str(k) in r <==> k in Keywords(r, ks)
  {
    if r != [] {
      KeywordsIn(r[1..], ks, k);
      assert r == [r[0]] + r[1..];
    }
  }

  lemma KeywordsFlag(on: bool, k: string, ks: set<string>)
    ensures Keywords(Flag(on, k), ks) == Present(on && k in ks, k)
  {
    if on { KeywordsSingle(Str(k), ks); }
  }

  lemma KeywordsMarked(on: bool, k: string, payload: seq<Token>, ks: set<string>)
    requires Keywords(payload, ks) == []
    ensures Keywords(Marked(on, k, payload), ks) == Present(on && k in ks, k)
  {
    if on {
      KeywordsAppend([Str(k)], payload, ks);
      KeywordsSingle(Str(k), ks);
    }
  }

  lemma KeywordsPushed(o: Option<string>, ks: set<string>)
    requires Outside(o, ks)
    ensures Keywords(Pushed(o), ks) == []
  {
    if o.Some? { KeywordsSingle(Str(o.value), ks); }
  }

  /** Three optional values pushed in a row carry no keyword. */
  lemma KeywordsPushed3(a: Option<string>, b: Option<string>, c: Option<string>, ks: set<string>)
    requires Outside(a, ks) && Outside(b, ks) && Outside(c, ks)
    ensures Keywords(Pushed(a) + Pushed(b) + Pushed(c), ks) == []
  {
    KeywordsPushed(a, ks);
    KeywordsPushed(b, ks);
    KeywordsPushed(c, ks);
    KeywordsAppend(Pushed(a), Pushed(b), ks);
    KeywordsAppend(Pushed(a) + Pushed(b), Pushed(c), ks);
  }

  lemma KeywordsPushedNum(o: Option<Number>, ks: set<string>)
    ensures Keywords(PushedNum(o), ks) == []
  {
    if o.Some? { KeywordsSingle(NumText(o.value), ks); }
  }

  lemma KeywordsPair(k: string, o: Option<string>, ks: set<string>)
    requires Outside(o, ks)
    ensures Keywords(Pair(k, o), ks) == Present(o.Some? && k in ks, k)
  {
    if o.Some? {
      assert Pair(k, o) == [Str(k)] + [Str(o.value)];
      KeywordsPushed(o, ks);
      KeywordsMarked(true, k, Pushed(o), ks);
    }
  }

  lemma KeywordsNumPair(k: string, o: Option<Number>, ks: set<string>)
    ensures Keywords(NumPair(k, o), ks) == Present(o.Some? && k in ks, k)
  {
    if o.Some? {
      assert NumPair(k, o) == [Str(k)] + [NumText(o.value)];
      KeywordsPushedNum(o, ks);
      KeywordsMarked(true, k, PushedNum(o), ks);
    }
  }

  /** A list with no string of `ks` in it has an empty skeleton. */
  lemma {:induction false} KeywordsQuiet(r: seq<Token>, ks: set<string>)
    requires forall i :: 0 <= i < |r| ==> !(r[i].Str? && r[i].s in ks)
    ensures Keywords(r, ks) == []
  {
    if r != [] {
      KeywordsQuiet(r[1..], ks);
    }
  }

  // The skeleton of a list that grows by one group.

  lemma KeywordsAfterFlag(args: seq<Token>, on: bool, k: string, ks: set<string>)
    requires k in ks
    ensures Keywords(args + Flag(on, k), ks) == Keywords(args, ks) + Present(on, k)
  {
    KeywordsAppend(args, Flag(on, k), ks);
    KeywordsFlag(on, k, ks);
  }

  lemma KeywordsAfterPair(args: seq<Token>, k: string, o: Option<string>, ks: set<string>)
    requires k in ks && Outside(o, ks)
    ensures Keywords(args + Pair(k, o), ks) == Keywords(args, ks) + Present(o.Some?, k)
  {
    KeywordsAppend(args, Pair(k, o), ks);
    KeywordsPair(k, o, ks);
  }

  lemma KeywordsAfterNumPair(args: seq<Token>, k: string, o: Option<Number>, ks: set<string>)
    requires k in ks
    ensures Keywords(args + NumPair(k, o), ks) == Keywords(args, ks) + Present(o.Some?, k)
  {
    KeywordsAppend(args, NumPair(k, o), ks);
    KeywordsNumPair(k, o, ks);
  }

  lemma KeywordsAfterMarked(args: seq<Token>, on: bool, k: string, payload: seq<Token>, ks: set<string>)
    requires k in ks && Keywords(payload, ks) == []
    ensures Keywords(args + Marked(on, k, payload), ks) == Keywords(args, ks) + Present(on, k)
  {
    KeywordsAppend(args, Marked(on, k, payload), ks);
    KeywordsMarked(on, k, payload, ks);
  }

  /** A keyword, a quiet payload, then an optional string pair. */
  lemma KeywordsAfterStep(args: seq<Token>, k: string, payload: seq<Token>, k2: string, o: Option<string>, ks: set<string>)
    requires k in ks && k2 in ks && Keywords(payload, ks) == [] && Outside(o, ks)
    ensures Keywords(args + ([Str(k)] + payload + Pair(k2, o)), ks) == Keywords(args, ks) + [k] + Present(o.Some?, k2)
  {
    var s1 := args + Marked(true, k, payload);
    KeywordsAfterMarked(args, true, k, payload, ks);
    KeywordsAfterPair(s1, k2, o, ks);
    assert args + ([Str(k)] + payload + Pair(k2, o)) == s1 + Pair(k2, o);
  }

  /** A keyword, a quiet payload, then an optional number pair. */
  lemma KeywordsAfterNumStep(args: seq<Token>, k: string, payload: seq<Token>, k2: string, o: Option<Number>, ks: set<string>)
    requires k in ks && k2 in ks && Keywords(payload, ks) == []
    ensures Keywords(args + ([Str(k)] + payload + NumPair(k2, o)), ks) == Keywords(args, ks) + [k] + Present(o.Some?, k2)
  {
    var s1 := args + Marked(true, k, payload);
    KeywordsAfterMarked(args, true, k, payload, ks);
    KeywordsAfterNumPair(s1, k2, o, ks);
    assert args + ([Str(k)] + payload + NumPair(k2, o)) == s1 + NumPair(k2, o);
  }

  lemma {:induction false} KeywordsStrs(ss: seq<string>, ks: set<string>)
    requires forall i :: 0 <= i < |ss| ==> ss[i] !in ks
    ensures Keywords(Strs(ss), ks) == []
  {
    if ss != [] {
      assert Strs(ss)[1..] == Strs(ss[1..]);
      KeywordsStrs(ss[1..], ks);
    }
  }

  // The steps the builders repeat: the `if (... !== undefined)
  // args.push(...)` of the source, each against the group it adds.

  /** `if (on) args.push(k)` */
  method PushFlag(args0: seq<Token>, on: bool, k: string) returns (args: seq<Token>)
    ensures args == args0 + Flag(on, k)
  {
    args := args0;
    if on { args := args + [Str(k)]; }
  }

  /** `if (o !== undefined) args.push(k, o)` */
  method PushPair(args0: seq<Token>, k: string, o: Option<string>) returns (args: seq<Token>)
    ensures args == args0 + Pair(k, o)
  {
    args := args0;
    if o.Some? { args := args + [Str(k), Str(o.value)]; }
  }

  /** `if (o !== undefined) args.push(k, o.toString())` */
  method PushNumPair(args0: seq<Token>, k: string, o: Option<Number>) returns (args: seq<Token>)
    ensures args == args0 + NumPair(k, o)
  {
    args := args0;
    if o.Some? { args := args + [Str(k), NumText(o.value)]; }
  }

  /** `if (o !== undefined) args.push(o)` */
  method PushValue(args0: seq<Token>, o: Option<string>) returns (args: seq<Token>)
    ensures args == args0 + Pushed(o)
  {
    args := args0;
    if o.Some? { args := args + [Str(o.value)]; }
  }

  /** Three `PushValue` steps in a row. */
  method PushValues3(args0: seq<Token>, a: Option<string>, b: Option<string>, c: Option<string>) returns (args: seq<Token>)
    ensures args == args0 + (Pushed(a) + Pushed(b) + Pushed(c))
  {
    args := PushValue(args0, a);
    args := PushValue(args, b);
    args := PushValue(args, c);
  }

  /** `if (o !== undefined) args.push(o.toString())` */
  method PushNumValue(args0: seq<Token>, o: Option<Number>) returns (args: seq<Token>)
    ensures args == args0 + PushedNum(o)
  {
    args := args0;
    if o.Some? { args := args + [NumText(o.value)]; }
  }

  /** `if (on) args = args.concat(tokens)` */
  method PushWhen(args0: seq<Token>, on: bool, tokens: seq<Token>) returns (args: seq<Token>)
    ensures args == args0 + (if on then tokens else [])
  {
    args := args0;
    if on { args := args + tokens; }
  }
}
