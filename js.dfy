/** The slice of JavaScript value semantics that the host's decision logic
    depends on: truthiness, `String(x)`, `Number(x)`, loose equality `==`,
    `Array.prototype.includes`, `String.prototype.trim`/`split`/`join`, and
    lodash `trimStart(string, chars)`.

    Numbers are modelled as integers. Objects and arrays are compared
    structurally where JavaScript compares references. */
module Js {

  datatype Option<T> = None | Some(value: T)

  /** A JavaScript value, as delivered by the transport or by the YAML parser. */
  datatype Value =
    | Undef
    | Null
    | Bool(b: bool)
    | Num(n: int)
    | Str(s: string)
    | List(items: seq<Value>)
    | Obj(fields: map<string, Value>)

  /** JavaScript truthiness (`!!v`). */
  predicate Truthy(v: Value) {
    match v
    case Undef => false
    case Null => false
    case Bool(b) => b
    case Num(n) => n != 0
    case Str(s) => s != ""
    case List(_) => true
    case Obj(_) => true
  }

  /** `a || b` */
  function Or(a: Value, b: Value): (r: Value)
    ensures Truthy(a) ==> r == a
    ensures !Truthy(a) ==> r == b
  {
    if Truthy(a) then a else b
  }

  /** Property read `v.key` (or `v?.key`); properties of primitives are not modelled. */
  function Get(v: Value, key: string): Value {
    if v.Obj? && key in v.fields then v.fields[key] else Undef
  }

  /** The own enumerable properties that `{...v}` copies: a plain object's
      fields, an array's items and a string's characters, the last two under
      their decimal indices; other primitives copy nothing. */
  function Spread(v: Value): (r: map<string, Value>)
    ensures v.Obj? ==> r == v.fields
    ensures v.List? ==> IsIndexMap(r, v.items)
    ensures v.Str? ==> IsIndexMap(r, Chars(v.s))
    ensures !(v.Obj? || v.List? || v.Str?) ==> r == map[]
  {
    match v
    case Obj(f) => f
    case List(items) => IndexedIsIndexMap(items); Indexed(items)
    case Str(s) => IndexedIsIndexMap(Chars(s)); Indexed(Chars(s))
    case _ => map[]
  }

  /** The one-character strings of `s`, as indexing `s[i]` reads them. */
  function Chars(s: string): (r: seq<Value>)
    ensures |r| == |s| && forall i :: 0 <= i < |s| ==> r[i] == Str([s[i]])
  {
    seq(|s|, i requires 0 <= i < |s| => Str([s[i]]))
  }

  /** `m` holds exactly the items of `items`, each under its decimal index. */
  ghost predicate IsIndexMap(m: map<string, Value>, items: seq<Value>) {
    && m.Keys == Numerals(|items|)
    && (forall i :: 0 <= i < |items| ==> NatToString(i) in m && m[NatToString(i)] == items[i])
  }

  /** The decimal numerals of 0 .. n - 1. */
  ghost function Numerals(n: nat): set<string> {
    set i: nat | i < n :: NatToString(i)
  }

  /** The items of an array keyed by index, as `{...array}` copies them. */
  function Indexed(items: seq<Value>): map<string, Value> {
    if items == [] then map[]
    else Indexed(items[..|items| - 1])[NatToString(|items| - 1) := items[|items| - 1]]
  }

  lemma IndexedIsIndexMap(items: seq<Value>)
    ensures IsIndexMap(Indexed(items), items)
  {
    IndexedKeys(items);
    IndexedValues(items);
  }

  /** The keys of `Indexed(items)` are the numerals of its indices. */
  lemma {:induction false} IndexedKeys(items: seq<Value>)
    ensures Indexed(items).Keys == Numerals(|items|)
  {
    if items != [] {
      var n := |items| - 1;
      IndexedKeys(items[..n]);
      assert Numerals(n + 1) == Numerals(n) + {NatToString(n)};
    }
  }

  /** Every index's numeral maps to the item at that index. */
  lemma {:induction false} IndexedValues(items: seq<Value>)
    ensures forall i :: 0 <= i < |items| ==> NatToString(i) in Indexed(items) && Indexed(items)[NatToString(i)] == items[i]
  {
    if items != [] {
      var n := |items| - 1;
      var init := items[..n];
      IndexedValues(init);
      forall i | 0 <= i < n
        ensures NatToString(i) in Indexed(items) && Indexed(items)[NatToString(i)] == items[i]
      {
        NatToStringInjective(i, n);
        assert init[i] == items[i];
      }
    }
  }

  // ---------------------------------------------------------------------
  // Whitespace and trimming (ECMAScript WhiteSpace and LineTerminator, i.e.
  // the characters matched by `\s` and removed by `trim`)
  // ---------------------------------------------------------------------

  predicate IsSpace(c: char) {
    c == '\t' || c == '\n' || c == '\U{000B}' || c == '\U{000C}' || c == '\r' || c == ' ' ||
    c == '\U{00A0}' || c == '\U{1680}' || ('\U{2000}' <= c <= '\U{200A}') ||
    c == '\U{2028}' || c == '\U{2029}' || c == '\U{202F}' || c == '\U{205F}' ||
    c == '\U{3000}' || c == '\U{FEFF}'
  }

  /** `s.replace(/^\s+/, "")`: the longest run of leading whitespace is removed. */
  function TrimStart(s: string): (r: string)
    ensures |r| <= |s|
    ensures r == [] || !IsSpace(r[0])
    ensures forall i :: 0 <= i < |s| - |r| ==> IsSpace(s[i])
  {
    if s != [] && IsSpace(s[0]) then TrimStart(s[1..]) else s
  }

  /** `s.replace(/\s+$/, "")`: the longest run of trailing whitespace is removed. */
  function TrimEnd(s: string): (r: string)
    ensures |r| <= |s| && r == s[..|r|]
    ensures r == [] || !IsSpace(r[|r| - 1])
    ensures forall i :: |r| <= i < |s| ==> IsSpace(s[i])
  {
    if s != [] && IsSpace(s[|s| - 1]) then TrimEnd(s[..|s| - 1]) else s
  }

  /** No whitespace at either end. */
  predicate IsTrimmed(s: string) {
    s == [] || (!IsSpace(s[0]) && !IsSpace(s[|s| - 1]))
  }

  /** `s.trim()` */
  function Trim(s: string): (r: string)
    ensures IsTrimmed(r)
    ensures |r| <= |s|
  {
    TrimEnd(TrimStart(s))
  }

  /** `TrimStart` keeps a suffix. */
  lemma {:induction false} TrimStartIsSuffix(s: string)
    ensures TrimStart(s) == s[|s| - |TrimStart(s)|..]
  {
    if s != [] && IsSpace(s[0]) {
      TrimStartIsSuffix(s[1..]);
    }
  }

  /** A string whose first non-space character is `c` trims to one starting with `c`. */
  lemma TrimKeepsHead(s: string)
    requires TrimStart(s) != []
    ensures Trim(s) != [] && Trim(s)[0] == TrimStart(s)[0]
  {
    var t := TrimStart(s);
    assert !IsSpace(t[0]);
  }

  lemma TrimOfTrimmed(s: string)
    requires IsTrimmed(s)
    ensures Trim(s) == s && TrimStart(s) == s && TrimEnd(s) == s
  {
  }

  // ---------------------------------------------------------------------
  // Decimal numerals
  // ---------------------------------------------------------------------

  predicate IsDigit(c: char) { '0' <= c <= '9' }

  /** A non-empty run of ASCII decimal digits. */
  predicate IsDigits(s: string) {
    |s| > 0 && forall i :: 0 <= i < |s| ==> IsDigit(s[i])
  }

  function DigitChar(d: nat): (c: char)
    requires d < 10
    ensures IsDigit(c) && DigitValue(c) == d
  {
    (48 + d) as char
  }

  function ParseDigits(s: string): nat
    requires forall i :: 0 <= i < |s| ==> IsDigit(s[i])
  {
    if s == [] then 0 else ParseDigits(s[..|s| - 1]) * 10 + DigitValue(s[|s| - 1])
  }

  function DigitValue(c: char): (d: nat)
    requires IsDigit(c)
    ensures d < 10
  {
    (c as int) - ('0' as int)
  }

  /** The decimal numeral of a natural number, without leading zeros. */
  function NatToString(n: nat): (r: string)
    ensures IsDigits(r)
    ensures |r| > 1 ==> r[0] != '0'
    decreases n
  {
    if n < 10 then [DigitChar(n)] else NatToString(n / 10) + [DigitChar(n % 10)]
  }

  /** Distinct numbers have distinct numerals. */
  lemma NatToStringInjective(a: nat, b: nat)
    requires a != b
    ensures NatToString(a) != NatToString(b)
  {
    ParseNatToString(a);
    ParseNatToString(b);
  }

  /** `String(n)` for an integer. */
  function IntToString(n: int): string {
    if n < 0 then "-" + NatToString(-n) else NatToString(n)
  }

  lemma {:induction false} ParseNatToString(n: nat)
    ensures ParseDigits(NatToString(n)) == n
    decreases n
  {
    if n >= 10 {
      var s := NatToString(n);
      assert s[..|s| - 1] == NatToString(n / 10);
      ParseNatToString(n / 10);
    }
  }

  /** `Number(s)` for a string: surrounding whitespace ignored, empty means 0,
      an optional sign followed by decimal digits denotes an integer;
      everything else is NaN (None). */
  function StringToNumber(s: string): Option<int> {
    var t := Trim(s);
    if t == "" then Some(0)
    else if t[0] == '-' && IsDigits(t[1..]) then Some(-(ParseDigits(t[1..]) as int))
    else if t[0] == '+' && IsDigits(t[1..]) then Some(ParseDigits(t[1..]))
    else if IsDigits(t) then Some(ParseDigits(t))
    else None
  }

  /** Decimal rendering and `Number` parsing are inverse on integers. */
  lemma StringToNumberOfInt(n: int)
    ensures StringToNumber(IntToString(n)) == Some(n)
  {
    var s := IntToString(n);
    if n < 0 {
      var d := NatToString(-n);
      assert IsTrimmed(s);
      TrimOfTrimmed(s);
      assert s[1..] == d;
      ParseNatToString(-n);
    } else {
      assert IsTrimmed(s);
      TrimOfTrimmed(s);
      ParseNatToString(n);
    }
  }

  // ---------------------------------------------------------------------
  // Conversions
  // ---------------------------------------------------------------------

  /** `String(v)`; arrays render as `join(",")`, where undefined and null give "". */
  function ToStr(v: Value): string
    decreases v
  {
    match v
    case Undef => "undefined"
    case Null => "null"
    case Bool(b) => if b then "true" else "false"
    case Num(n) => IntToString(n)
    case Str(s) => s
    case List(items) =>
      Join(seq(|items|, i requires 0 <= i < |items| =>
        if items[i].Undef? || items[i].Null? then "" else ToStr(items[i])), ',')
    case Obj(_) => "[object Object]"
  }

  /** `Number(v)`; None stands for NaN. */
  function ToNumber(v: Value): Option<int> {
    match v
    case Undef => None
    case Null => Some(0)
    case Bool(b) => Some(if b then 1 else 0)
    case Num(n) => Some(n)
    case Str(s) => StringToNumber(s)
    case List(_) => StringToNumber(ToStr(v))
    case Obj(_) => None
  }

  /** `Number(v) || String(v)`, the id normalisation of the black/white lists. */
  function NumberOrString(v: Value): (r: Value)
    ensures r.Num? || r.Str?
    ensures r.Num? ==> r.n != 0 && ToNumber(v) == Some(r.n)
    ensures r.Str? ==> r.s == ToStr(v) && (ToNumber(v).None? || ToNumber(v) == Some(0))
  {
    match ToNumber(v)
    case Some(n) => if n != 0 then Num(n) else Str(ToStr(v))
    case None => Str(ToStr(v))
  }

  /** A numeric id and its decimal spelling normalise to the same value. */
  lemma NumberOrStringOfDecimal(n: int)
    requires n != 0
    ensures NumberOrString(Str(IntToString(n))) == NumberOrString(Num(n)) == Num(n)
  {
    StringToNumberOfInt(n);
  }

  /** The primitive a value becomes for `==` against a primitive of another type. */
  function Primitive(v: Value): Value {
    match v
    case Bool(b) => Num(if b then 1 else 0)
    case List(_) => Str(ToStr(v))
    case Obj(_) => Str(ToStr(v))
    case _ => v
  }

  predicate Nullish(v: Value) { v.Undef? || v.Null? }

  /** Abstract (loose) equality `a == b`. */
  predicate LooseEq(a: Value, b: Value) {
    if Nullish(a) || Nullish(b) then Nullish(a) && Nullish(b)
    else if a.Num? && b.Num? then a.n == b.n
    else if a.Str? && b.Str? then a.s == b.s
    else if a.Bool? && b.Bool? then a.b == b.b
    else if (a.List? || a.Obj?) && (b.List? || b.Obj?) then a == b
    else
      var x, y := Primitive(a), Primitive(b);
      if x.Num? && y.Num? then x.n == y.n
      else if x.Str? && y.Str? then x.s == y.s
      else if x.Num? && y.Str? then StringToNumber(y.s) == Some(x.n)
      else if x.Str? && y.Num? then StringToNumber(x.s) == Some(y.n)
      else false
  }

  /** Against a string literal, `==` is string equality except for numbers,
      booleans and arrays, which compare through their primitive form. */
  lemma LooseEqStr(v: Value, lit: string)
    requires v.Str? || v.Undef? || v.Null?
    ensures LooseEq(v, Str(lit)) <==> v == Str(lit)
  {
  }

  // ---------------------------------------------------------------------
  // Strings
  // ---------------------------------------------------------------------

  predicate StartsWith(s: string, p: string) {
    |p| <= |s| && s[..|p|] == p
  }

  /** `s.includes(p)` for strings */
  predicate IsInfix(p: string, s: string)
    decreases |s|
  {
    StartsWith(s, p) || (s != [] && IsInfix(p, s[1..]))
  }

  /** `v?.length` is truthy: a non-empty array or string. */
  predicate HasLength(v: Value) {
    (v.List? && |v.items| > 0) || (v.Str? && |v.s| > 0)
  }

  /** `v.includes(x)`: SameValueZero membership for an array, substring test for a string. */
  predicate Includes(v: Value, x: Value) {
    (v.List? && x in v.items) || (v.Str? && IsInfix(ToStr(x), v.s))
  }

  /** `v?.length && v.includes(x)`, the guard of every list-based gate. */
  predicate ListHas(v: Value, x: Value) {
    HasLength(v) && Includes(v, x)
  }

  /** `s.split(sep)` with a one-character separator. */
  function Split(s: string, sep: char): (parts: seq<string>)
    ensures |parts| >= 1
    ensures forall k :: 0 <= k < |parts| ==> sep !in parts[k]
  {
    if s == [] then [""]
    else
      var rest := Split(s[1..], sep);
      if s[0] == sep then [""] + rest
      else [[s[0]] + rest[0]] + rest[1..]
  }

  /** `parts.join(sep)`; the empty array joins to "". */
  function Join(parts: seq<string>, sep: char): string {
    if parts == [] then ""
    else if |parts| == 1 then parts[0]
    else parts[0] + [sep] + Join(parts[1..], sep)
  }

  /** A separator after a separator-free prefix ends the first piece. */
  lemma {:induction false} SplitAtFirst(x: string, y: string, sep: char)
    requires sep !in x
    ensures Split(x + [sep] + y, sep) == [x] + Split(y, sep)
  {
    var s := x + [sep] + y;
    if x == [] {
      assert s[1..] == y;
    } else {
      assert s[1..] == x[1..] + [sep] + y;
      assert x[0] in x;
      SplitAtFirst(x[1..], y, sep);
      assert [x[0]] + x[1..] == x;
    }
  }

  /** Joining the pieces of a split gives back the string. */
  lemma {:induction false} JoinSplit(s: string, sep: char)
    ensures Join(Split(s, sep), sep) == s
  {
    if s != [] {
      var rest := Split(s[1..], sep);
      JoinSplit(s[1..], sep);
      if s[0] != sep {
        var parts := Split(s, sep);
        assert parts[1..] == rest[1..];
        if |rest| > 1 {
          assert Join(rest, sep) == rest[0] + [sep] + Join(rest[1..], sep);
          assert Join(parts, sep) == [s[0]] + rest[0] + [sep] + Join(rest[1..], sep);
        }
        assert s == [s[0]] + s[1..];
      } else {
        assert s == [sep] + s[1..];
      }
    }
  }

  /** Splitting a join of separator-free pieces gives back the pieces. */
  lemma {:induction false} SplitJoin(parts: seq<string>, sep: char)
    requires |parts| >= 1
    requires forall k :: 0 <= k < |parts| ==> sep !in parts[k]
    ensures Split(Join(parts, sep), sep) == parts
    decreases |parts|, |parts[0]|
  {
    var p0 := parts[0];
    if |parts| == 1 {
      SplitFree(p0, sep);
    } else if p0 == [] {
      var j := Join(parts, sep);
      assert j == [sep] + Join(parts[1..], sep);
      assert j[1..] == Join(parts[1..], sep);
      SplitJoin(parts[1..], sep);
      assert parts == [""] + parts[1..];
    } else {
      var shorter := [p0[1..]] + parts[1..];
      assert forall k :: 0 <= k < |shorter| ==> sep !in shorter[k] by {
        forall k | 0 <= k < |shorter| ensures sep !in shorter[k] {
          if k == 0 { assert forall c :: c in p0[1..] ==> c in p0; } else { assert shorter[k] == parts[k]; }
        }
      }
      var j := Join(parts, sep);
      JoinCons(parts, sep);
      JoinCons(shorter, sep);
      assert j == [p0[0]] + Join(shorter, sep);
      assert j[1..] == Join(shorter, sep);
      assert j[0] == p0[0] && p0[0] != sep;
      SplitJoin(shorter, sep);
      assert p0 == [p0[0]] + p0[1..];
      assert parts == [p0] + parts[1..];
    }
  }

  lemma JoinCons(parts: seq<string>, sep: char)
    requires |parts| >= 1
    ensures Join(parts, sep) == parts[0] + Join(parts[1..], sep) || (|parts| > 1 && Join(parts, sep) == parts[0] + [sep] + Join(parts[1..], sep))
    ensures |parts| > 1 ==> Join(parts, sep) == parts[0] + [sep] + Join(parts[1..], sep)
    ensures |parts| == 1 ==> Join(parts, sep) == parts[0]
  {
  }

  lemma {:induction false} SplitFree(s: string, sep: char)
    requires sep !in s
    ensures Split(s, sep) == [s]
  {
    if s != [] {
      assert sep !in s[1..] by { assert forall c :: c in s[1..] ==> c in s; }
      assert s[0] in s;
      SplitFree(s[1..], sep);
      assert s == [s[0]] + s[1..];
    }
  }

  /** Split pieces joined back are equal only if the pieces are equal: joined
      strings of separator-free pieces determine the pieces. */
  lemma JoinInjective(a: seq<string>, b: seq<string>, sep: char)
    requires |a| >= 1 && |b| >= 1
    requires forall k :: 0 <= k < |a| ==> sep !in a[k]
    requires forall k :: 0 <= k < |b| ==> sep !in b[k]
    ensures Join(a, sep) == Join(b, sep) <==> a == b
  {
    if Join(a, sep) == Join(b, sep) {
      SplitJoin(a, sep);
      SplitJoin(b, sep);
    }
  }

  /** lodash `trimStart(s, chars)`: with `chars` undefined, leading whitespace;
      otherwise every leading character that occurs in `String(chars)`. */
  function TrimStartChars(s: string, chars: Value): (r: string)
    ensures |r| <= |s| && r == s[|s| - |r|..]
  {
    if chars.Undef? then TrimStartIsSuffix(s); TrimStart(s)
    else DropWhileIn(s, ToStr(chars))
  }

  /** The longest prefix of `s` drawn from the characters of `chars` is removed. */
  function DropWhileIn(s: string, chars: string): (r: string)
    ensures |r| <= |s| && r == s[|s| - |r|..]
    ensures r == [] || r[0] !in chars
    ensures forall i :: 0 <= i < |s| - |r| ==> s[i] in chars
  {
    if s != [] && s[0] in chars then DropWhileIn(s[1..], chars) else s
  }

  /** Dropping the characters of `p` from a string that starts with `p`
      removes at least `p` itself. */
  lemma {:induction false} DropWhileInCoversPrefix(s: string, p: string, chars: string)
    requires StartsWith(s, p)
    requires forall i :: 0 <= i < |p| ==> p[i] in chars
    ensures |DropWhileIn(s, chars)| <= |s| - |p|
    decreases |p|
  {
    if p != [] {
      assert s[0] == p[0];
      assert StartsWith(s[1..], p[1..]) by { assert s[1..][..|p| - 1] == s[..|p|][1..]; }
      DropWhileInCoversPrefix(s[1..], p[1..], chars);
    }
  }
}
