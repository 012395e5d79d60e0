/**
  The slice of JavaScript value semantics the client's methods depend on:
  argument values with their `undefined` defaults and `typeof` tests, the
  indices a `for ... in` loop visits, `String.prototype.indexOf`, and request
  bodies as flat key/value objects.
 */
module Js {

  /** An argument value as the methods see it. `Undefined` is also what an
      omitted trailing argument reads as. `Func` carries the function's
      `length` (its declared arity). */
  datatype Value =
    | Undefined
    | Null
    | Num(n: int)
    | Str(s: string)
    | Func(id: nat, arity: nat)
    | Array(items: seq<Value>)

  /** The callback a method ends up calling: the empty default function, or
      whatever value the caller supplied in the callback position. */
  datatype Callback = Noop | Handler(f: Value)

  /** A property name of a request body. `Indexed(p, i)` is the name
      `p + "." + i`; `Coerced(v)` is the name JavaScript derives from a
      value whose string form the model does not know (see `ToText`). */
  datatype Key = Field(name: string) | Indexed(prefix: string, index: nat) | Coerced(v: Value)

  /** A flat request body, handed to the signing client. */
  type Body = map<Key, Value>

  /** `typeof v === 'function'` */
  predicate IsFunction(v: Value) {
    v.Func?
  }

  /** A default parameter value: it replaces `undefined` and nothing else. */
  function Default(v: Value, d: Value): (r: Value)
    ensures v != Undefined ==> r == v
    ensures v == Undefined ==> r == d
  {
    if v.Undefined? then d else v
  }

  /** The callback parameter `next = function () {}`. */
  function CallbackFrom(v: Value): (c: Callback)
    ensures c.Noop? <==> v == Undefined
    ensures c.Handler? ==> c.f == v
  {
    if v.Undefined? then Noop else Handler(v)
  }

  /** The values a `for (let i in v) ... v[i]` loop visits, in index order:
      the elements of an array, the one-character strings of a string, and
      nothing for `undefined`, `null`, numbers and functions (which have no
      enumerable own properties). */
  function Enumerated(v: Value): (xs: seq<Value>)
    ensures v.Array? ==> xs == v.items
    ensures v.Str? ==> |xs| == |v.s| && forall i :: 0 <= i < |xs| ==> xs[i] == Str([v.s[i]])
    ensures !v.Array? && !v.Str? ==> xs == []
  {
    match v
    case Array(items) => items
    case Str(s) => seq(|s|, i requires 0 <= i < |s| => Str([s[i]]))
    case _ => []
  }

  /** The keys `prefix.0` .. `prefix.(n-1)`. */
  function IndexedKeys(prefix: string, n: nat): (ks: set<Key>)
    ensures forall i :: 0 <= i < n ==> Indexed(prefix, i) in ks
    ensures forall k :: k in ks ==> k.Indexed? && k.prefix == prefix && k.index < n
  {
    set i | 0 <= i < n :: Indexed(prefix, i)
  }

  lemma {:induction false} IndexedKeysCount(prefix: string, n: nat)
    ensures |IndexedKeys(prefix, n)| == n
  {
    if n > 0 {
      IndexedKeysCount(prefix, n - 1);
      assert IndexedKeys(prefix, n) == IndexedKeys(prefix, n - 1) + {Indexed(prefix, n - 1)};
    } else {
      assert IndexedKeys(prefix, 0) == {};
    }
  }

  /** The body entries `prefix.i = xs[i]` written by an indexed loop. */
  function Pack(prefix: string, xs: seq<Value>): (b: Body)
    ensures b.Keys == IndexedKeys(prefix, |xs|)
    ensures forall i :: 0 <= i < |xs| ==> b[Indexed(prefix, i)] == xs[i]
  {
    map i | 0 <= i < |xs| :: Indexed(prefix, i) := xs[i]
  }

  /** A body property read as JavaScript reads it: `undefined` when absent. */
  function Get(b: Body, k: Key): (v: Value)
    ensures k in b ==> v == b[k]
    ensures k !in b ==> v == Undefined
  {
    if k in b then b[k] else Undefined
  }

  /** The keys of `b` that are indexed under `prefix`. */
  function KeysUnder(b: Body, prefix: string): set<Key> {
    set k | k in b.Keys && k.Indexed? && k.prefix == prefix
  }

  /** True when no key of `b` is indexed under `prefix`. */
  predicate NothingUnder(b: Body, prefix: string) {
    forall k :: k in b ==> !(k.Indexed? && k.prefix == prefix)
  }

  /** True when `b` holds named fields only. */
  predicate NoIndexedKeys(b: Body) {
    forall k :: k in b ==> !k.Indexed?
  }

  /** The list a receiver reads back from `prefix.0`, `prefix.1`, ...: as many
      entries as there are keys under `prefix`. */
  function Unpack(b: Body, prefix: string): (xs: seq<Value>)
    ensures |xs| == |KeysUnder(b, prefix)|
  {
    var n := |KeysUnder(b, prefix)|;
    seq(n, i requires 0 <= i < n => Get(b, Indexed(prefix, i)))
  }

  /** Reading back the list that `Pack` wrote recovers it exactly, whatever
      other (non-`prefix`) entries share the body. */
  lemma UnpackPack(fields: Body, prefix: string, xs: seq<Value>)
    requires NothingUnder(fields, prefix)
    ensures Unpack(fields + Pack(prefix, xs), prefix) == xs
  {
    var b := fields + Pack(prefix, xs);
    assert KeysUnder(b, prefix) == IndexedKeys(prefix, |xs|);
    IndexedKeysCount(prefix, |xs|);
  }

  /** The keys under `prefix` of a union are those of its two parts. */
  lemma KeysUnderUnion(a: Body, b: Body, prefix: string)
    ensures KeysUnder(a + b, prefix) == KeysUnder(a, prefix) + KeysUnder(b, prefix)
  {
  }

  /** `fields` followed by the loop `for (i ...) body[prefix + "." + i] = xs[i]`:
      the list reads back exactly, and nothing else in the body changes. */
  function WithList(fields: Body, prefix: string, xs: seq<Value>): (b: Body)
    requires NothingUnder(fields, prefix)
    ensures b.Keys == fields.Keys + IndexedKeys(prefix, |xs|)
    ensures forall i :: 0 <= i < |xs| ==> b[Indexed(prefix, i)] == xs[i]
    ensures Unpack(b, prefix) == xs
    ensures forall k: Key :: !k.Indexed? ==> (k in b <==> k in fields) && Get(b, k) == Get(fields, k)
    ensures forall p :: p != prefix ==> Unpack(b, p) == Unpack(fields, p)
    ensures forall p :: p != prefix && NothingUnder(fields, p) ==> NothingUnder(b, p)
  {
    var b := fields + Pack(prefix, xs);
    UnpackPack(fields, prefix, xs);
    forall p | p != prefix
      ensures Unpack(b, p) == Unpack(fields, p)
    {
      KeysUnderUnion(fields, Pack(prefix, xs), p);
      assert KeysUnder(Pack(prefix, xs), p) == {};
    }
    b
  }

  /** `fields` followed by two indexed loops under different prefixes. */
  function WithTwoLists(fields: Body, prefix: string, xs: seq<Value>, other: string, ys: seq<Value>): (b: Body)
    requires prefix != other && NoIndexedKeys(fields)
    ensures b.Keys == fields.Keys + IndexedKeys(prefix, |xs|) + IndexedKeys(other, |ys|)
    ensures Unpack(b, prefix) == xs && Unpack(b, other) == ys
    ensures forall k: Key :: !k.Indexed? ==> (k in b <==> k in fields) && Get(b, k) == Get(fields, k)
  {
    assert NothingUnder(fields, prefix) && NothingUnder(fields, other);
    var first := WithList(fields, prefix, xs);
    var b := WithList(first, other, ys);
    assert Unpack(b, prefix) == Unpack(first, prefix);
    b
  }

  /** The decimal numeral of a natural number, without leading zeros. */
  function NatText(n: nat): (t: string)
    ensures |t| >= 1 && (t[0] == '0' ==> n == 0)
    ensures forall i :: 0 <= i < |t| ==> '0' <= t[i] <= '9'
    decreases n
  {
    var digit := [('0' as int + n % 10) as char];
    if n < 10 then digit else NatText(n / 10) + digit
  }

  /** The value of a string of decimal digits. */
  function DigitsValue(t: string): int
    decreases |t|
  {
    if t == [] then 0 else DigitsValue(t[..|t| - 1]) * 10 + (t[|t| - 1] as int - '0' as int)
  }

  /** The numeral reads back as the number it was made from. */
  lemma {:induction false} NatTextValue(n: nat)
    ensures DigitsValue(NatText(n)) == n
    decreases n
  {
    var t := NatText(n);
    if n >= 10 {
      NatTextValue(n / 10);
      assert t[..|t| - 1] == NatText(n / 10);
    }
  }

  /** `String(n)` for an integer. */
  function IntText(n: int): (t: string)
    ensures n < 0 ==> t == "-" + NatText(-n)
    ensures n >= 0 ==> t == NatText(n)
  {
    if n < 0 then "-" + NatText(-n) else NatText(n)
  }

  /** A value's string form, where the model knows it. */
  datatype Text = Known(text: string) | Unknown

  /** `String(v)`, the name a value stands for when it is used as a property
      name. A function's string form is its source code, which the model does
      not have, so it and any array holding one are `Unknown`. */
  function ToText(v: Value): (r: Text)
    ensures v.Str? ==> r == Known(v.s)
    ensures v.Num? ==> r == Known(IntText(v.n))
    ensures v.Func? ==> r == Unknown
    ensures v.Array? ==> r == JoinText(v, 0)
    decreases v, 1, 0
  {
    match v
    case Undefined => Known("undefined")
    case Null => Known("null")
    case Num(n) => Known(IntText(n))
    case Str(s) => Known(s)
    case Func(_, _) => Unknown
    case Array(_) => JoinText(v, 0)
  }

  /** The string form `join` gives an array element: empty for `undefined`
      and `null`. */
  function ElementText(e: Value): (r: Text)
    ensures e.Undefined? || e.Null? ==> r == Known("")
    ensures !e.Undefined? && !e.Null? ==> r == ToText(e)
    decreases e, 2
  {
    if e.Undefined? || e.Null? then Known("") else ToText(e)
  }

  /** `a.slice(i).join(",")`: the elements' string forms separated by commas,
      with `undefined` and `null` elements left empty. */
  function JoinText(a: Value, i: nat): (r: Text)
    requires a.Array?
    ensures i >= |a.items| ==> r == Known("")
    ensures i == |a.items| - 1 ==> r == ElementText(a.items[i])
    decreases a, 0, |a.items| - i
  {
    if i >= |a.items| then Known("")
    else
      var head := ElementText(a.items[i]);
      var rest := JoinText(a, i + 1);
      if head.Unknown? || rest.Unknown? then Unknown
      else Known(head.text + (if i + 1 < |a.items| then "," + rest.text else ""))
  }

  /** Before the last element, the join is the element's text, a comma and
      the join of the rest; it is unknown exactly when one of those is. */
  lemma JoinTextStep(a: Value, i: nat)
    requires a.Array? && i + 1 < |a.items|
    ensures JoinText(a, i).Known? <==> ElementText(a.items[i]).Known? && JoinText(a, i + 1).Known?
    ensures JoinText(a, i).Known? ==>
              JoinText(a, i).text == ElementText(a.items[i]).text + "," + JoinText(a, i + 1).text
  {
  }

  /** Strings joined by commas, built from the left: the last string is
      appended after the join of the others. */
  function CommaJoin(ss: seq<string>): string
    decreases |ss|
  {
    if |ss| == 0 then ""
    else if |ss| == 1 then ss[0]
    else CommaJoin(ss[..|ss| - 1]) + "," + ss[|ss| - 1]
  }

  /** Joining from the left agrees with putting the first string in front. */
  lemma {:induction false} CommaJoinCons(x: string, t: seq<string>)
    requires |t| > 0
    ensures CommaJoin([x] + t) == x + "," + CommaJoin(t)
    decreases |t|
  {
    var s := [x] + t;
    if |t| == 1 {
      assert s[..|s| - 1] == [x];
    } else {
      assert s[..|s| - 1] == [x] + t[..|t| - 1];
      CommaJoinCons(x, t[..|t| - 1]);
    }
  }

  /** The array holding the given strings. */
  function StringArray(ss: seq<string>): (v: Value)
    ensures v.Array? && |v.items| == |ss|
    ensures forall k :: 0 <= k < |ss| ==> v.items[k] == Str(ss[k])
  {
    Array(seq(|ss|, k requires 0 <= k < |ss| => Str(ss[k])))
  }

  /** The join from position `i` of an array of strings. */
  lemma {:induction false} JoinStrings(ss: seq<string>, i: nat)
    requires i <= |ss|
    ensures JoinText(StringArray(ss), i) == Known(CommaJoin(ss[i..]))
    decreases |ss| - i
  {
    if i == |ss| {
      assert ss[i..] == [];
    } else {
      JoinStrings(ss, i + 1);
      if i + 1 == |ss| {
        assert ss[i..] == [ss[i]];
      } else {
        assert ss[i..] == [ss[i]] + ss[i + 1..];
        JoinTextStep(StringArray(ss), i);
        CommaJoinCons(ss[i], ss[i + 1..]);
      }
    }
  }

  /** An array of strings stands for the strings joined by commas. */
  lemma {:induction false} StringArrayText(ss: seq<string>)
    ensures ToText(StringArray(ss)) == Known(CommaJoin(ss))
  {
    JoinStrings(ss, 0);
    assert ss[0..] == ss;
  }

  /** An array of one string stands for that string; an array of two strings
      for the two joined by a comma. */
  lemma ShortArrayTexts(x: string, y: string)
    ensures ToText(Array([Str(x)])) == Known(x)
    ensures ToText(Array([Str(x), Str(y)])) == Known(x + "," + y)
  {
    assert JoinText(Array([Str(x)]), 1) == Known("");
    var pair := Array([Str(x), Str(y)]);
    assert JoinText(pair, 2) == Known("");
    assert JoinText(pair, 1) == Known(y);
  }

  /** `sub` occurs in `s` at position `j`. */
  predicate OccursAt(s: string, sub: string, j: int) {
    0 <= j <= |s| - |sub| && s[j..j + |sub|] == sub
  }

  lemma OccursAtTail(s: string, sub: string, j: int)
    requires |s| > 0 && j >= 1
    ensures OccursAt(s, sub, j) <==> OccursAt(s[1..], sub, j - 1)
  {
    if 0 <= j <= |s| - |sub| {
      var here, there := s[j..j + |sub|], s[1..][j - 1..j - 1 + |sub|];
      assert forall k :: 0 <= k < |sub| ==> here[k] == there[k];
      assert here == there;
    }
  }

  /** `s.indexOf(sub)`: the first position at which `sub` occurs in `s`, or
      -1 when it does not occur. */
  function IndexOf(s: string, sub: string): (r: int)
    ensures r == -1 || OccursAt(s, sub, r)
    ensures forall j :: 0 <= j && (r == -1 || j < r) ==> !OccursAt(s, sub, j)
    decreases |s|
  {
    if |s| < |sub| then -1
    else if s[..|sub|] == sub then 0
    else
      var t := IndexOf(s[1..], sub);
      assert forall j :: 1 <= j ==> (OccursAt(s, sub, j) <==> OccursAt(s[1..], sub, j - 1)) by {
        forall j | 1 <= j {
          OccursAtTail(s, sub, j);
        }
      }
      if t < 0 then -1 else t + 1
  }
}
