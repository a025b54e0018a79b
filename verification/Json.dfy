/**
 * JSON text as the source's serializer writes it (section 7 of RFC 8259 for
 * strings), and the reason a hash of it identifies its value: the text of a
 * value is self-delimiting.
 *
 * Every writer takes the text that follows, so `Write(v, rest)` is the text of
 * `v` followed by `rest`.
 */
module Json {
  import opened Text

  /** A JSON value; a number is kept as the token it prints as. */
  datatype Value =
    | Null
    | Bool(b: bool)
    | Num(token: string)
    | Str(s: string)
    | Arr(items: seq<Value>)
    | Obj(fields: seq<Field>)

  datatype Field = Field(name: string, value: Value)

  predicate IsNumberChar(c: char) { IsDigit(c) || c == '+' || c == '-' || c == '.' || c == 'e' || c == 'E' }

  predicate IsNumberToken(t: string) {
    t != "" && (IsDigit(t[0]) || t[0] == '-') && forall i :: 0 <= i < |t| ==> IsNumberChar(t[i])
  }

  predicate WellFormed(v: Value) {
    match v
    case Num(t) => IsNumberToken(t)
    case Arr(items) => forall i :: 0 <= i < |items| ==> WellFormed(items[i])
    case Obj(fields) => forall i :: 0 <= i < |fields| ==> WellFormed(fields[i].value)
    case _ => true
  }

  function HexDigit(n: nat): (c: char)
    requires n < 16
  {
    if n < 10 then ('0' as int + n) as char else ('a' as int + n - 10) as char
  }

  function EscapeChar(c: char): string {
    var n := c as int;
    if c == '"' then "\\\""
    else if c == '\\' then "\\\\"
    else if n >= 0x20 then [c]
    else if n == 8 then "\\b"
    else if n == 9 then "\\t"
    else if n == 10 then "\\n"
    else if n == 12 then "\\f"
    else if n == 13 then "\\r"
    else "\\u00" + [HexDigit(n / 16), HexDigit(n % 16)]
  }

  /** The characters of a string, escaped, then the closing quote, then `rest`. */
  function WriteQuoted(s: string, rest: string): string {
    if s == "" then ['"'] + rest else EscapeChar(s[0]) + WriteQuoted(s[1..], rest)
  }

  function Write(v: Value, rest: string): string
    decreases v, 1
  {
    match v
    case Null => "null" + rest
    case Bool(b) => (if b then "true" else "false") + rest
    case Num(t) => t + rest
    case Str(s) => ['"'] + WriteQuoted(s, rest)
    case Arr(items) => ['['] + WriteItems(items, rest)
    case Obj(fields) => ['{'] + WriteFields(fields, rest)
  }

  function WriteItems(items: seq<Value>, rest: string): string
    decreases items, 1
  {
    if items == [] then [']'] + rest else Write(items[0], AfterItem(items, rest))
  }

  /** What follows the first item of a list. */
  function AfterItem(items: seq<Value>, rest: string): string
    requires items != []
    decreases items, 0
  {
    if |items| == 1 then [']'] + rest else [','] + WriteItems(items[1..], rest)
  }

  function WriteFields(fields: seq<Field>, rest: string): string
    decreases fields, 1
  {
    if fields == [] then ['}'] + rest
    else ['"'] + WriteQuoted(fields[0].name, [':'] + Write(fields[0].value, AfterField(fields, rest)))
  }

  /** What follows the first field of an object. */
  function AfterField(fields: seq<Field>, rest: string): string
    requires fields != []
    decreases fields, 0
  {
    if |fields| == 1 then ['}'] + rest else [','] + WriteFields(fields[1..], rest)
  }

  function Encode(v: Value): string { Write(v, "") }

  // ---- Self-delimitation -------------------------------------------------

  /** What may follow a value inside a larger text. */
  predicate Delimited(rest: string) { rest == "" || !IsNumberChar(rest[0]) }

  lemma Cons(c: char, x: string, d: char, y: string)
    requires [c] + x == [d] + y
    ensures c == d && x == y
  {
    assert ([c] + x)[0] == ([d] + y)[0];
    assert x == ([c] + x)[1..] == ([d] + y)[1..] == y;
  }

  lemma Cancel(p: string, x: string, y: string)
    requires p + x == p + y
    ensures x == y
  {
    assert x == (p + x)[|p|..] == (p + y)[|p|..] == y;
  }

  /** An escape never begins with the closing quote, and names one character. */
  lemma EscapeShape(c: char)
    ensures var e := EscapeChar(c); |e| > 0 && e[0] != '"' && (e[0] == '\\' ==> |e| == 2 || (|e| == 6 && e[1] == 'u'))
    ensures EscapeChar(c)[0] != '\\' ==> EscapeChar(c) == [c]
  {
  }

  lemma EscapeIsInjective(c: char, d: char)
    requires EscapeChar(c) == EscapeChar(d)
    ensures c == d
  {
    var e, f := EscapeChar(c), EscapeChar(d);
    EscapeShape(c);
    EscapeShape(d);
    if |e| == 6 {
      assert e[4] == f[4] && e[5] == f[5];
    } else if |e| == 2 {
      assert e[1] == f[1];
    }
  }

  lemma EscapeIsPrefixFree(c: char, x: string, d: char, y: string)
    requires EscapeChar(c) + x == EscapeChar(d) + y
    ensures c == d && x == y
  {
    var e, f := EscapeChar(c), EscapeChar(d);
    var l, r := e + x, f + y;
    EscapeShape(c);
    EscapeShape(d);
    assert e[0] == l[0] == r[0] == f[0];
    if e[0] == '\\' {
      assert e[1] == l[1] == r[1] == f[1];
      EscapeSecond(c);
      EscapeSecond(d);
    }
    assert |e| == |f|;
    assert e == l[..|e|] == r[..|f|] == f;
    EscapeIsInjective(c, d);
    Cancel(e, x, y);
  }

  /** Only the long escape has `u` in second place. */
  lemma EscapeSecond(c: char)
    ensures var e := EscapeChar(c); |e| > 1 ==> (|e| == 6 <==> e[1] == 'u')
  {
  }

  lemma FirstOfQuoted(s: string, rest: string)
    ensures WriteQuoted(s, rest) != ""
    ensures WriteQuoted(s, rest)[0] == '"' <==> s == ""
  {
    if s != "" { EscapeShape(s[0]); }
  }

  lemma {:induction false} QuotedIsSelfDelimiting(s: string, x: string, t: string, y: string)
    requires WriteQuoted(s, x) == WriteQuoted(t, y)
    ensures s == t && x == y
  {
    FirstOfQuoted(s, x);
    FirstOfQuoted(t, y);
    if s == "" {
      Cons('"', x, '"', y);
    } else {
      EscapeIsPrefixFree(s[0], WriteQuoted(s[1..], x), t[0], WriteQuoted(t[1..], y));
      QuotedIsSelfDelimiting(s[1..], x, t[1..], y);
      assert s == [s[0]] + s[1..] && t == [t[0]] + t[1..];
    }
  }

  lemma Overlap(t: string, x: string, u: string, y: string)
    requires t + x == u + y && |t| < |u|
    ensures x != "" && x[0] == u[|t|]
  {
    assert (t + x)[|t|] == (u + y)[|t|];
  }

  lemma NumberIsSelfDelimiting(t: string, x: string, u: string, y: string)
    requires forall i :: 0 <= i < |t| ==> IsNumberChar(t[i])
    requires forall i :: 0 <= i < |u| ==> IsNumberChar(u[i])
    requires Delimited(x) && Delimited(y) && t + x == u + y
    ensures t == u && x == y
  {
    if |t| < |u| { Overlap(t, x, u, y); assert false; }
    if |u| < |t| { Overlap(u, y, t, x); assert false; }
    assert t == (t + x)[..|t|] == (u + y)[..|u|] == u;
    Cancel(t, x, y);
  }

  /** The first character of a value's text tells its kind. */
  lemma FirstChar(v: Value, rest: string)
    requires WellFormed(v)
    ensures Write(v, rest) != ""
    ensures var c := Write(v, rest)[0]; match v
      case Null => c == 'n'
      case Bool(b) => c == if b then 't' else 'f'
      case Num(_) => IsDigit(c) || c == '-'
      case Str(_) => c == '"'
      case Arr(_) => c == '['
      case Obj(_) => c == '{'
  {
  }

  /** Main result: a value's text determines the value and where it ends. */
  lemma {:induction false} WriteIsSelfDelimiting(v: Value, x: string, w: Value, y: string)
    requires WellFormed(v) && WellFormed(w) && Delimited(x) && Delimited(y)
    requires Write(v, x) == Write(w, y)
    ensures v == w && x == y
    decreases v, 1
  {
    FirstChar(v, x);
    FirstChar(w, y);
    match v {
      case Null => Cancel("null", x, y);
      case Bool(b) => Cancel(if b then "true" else "false", x, y);
      case Num(t) => NumberIsSelfDelimiting(t, x, w.token, y);
      case Str(s) =>
        Cons('"', WriteQuoted(s, x), '"', WriteQuoted(w.s, y));
        QuotedIsSelfDelimiting(s, x, w.s, y);
      case Arr(items) =>
        Cons('[', WriteItems(items, x), '[', WriteItems(w.items, y));
        ItemsAreSelfDelimiting(items, x, w.items, y);
      case Obj(fields) =>
        Cons('{', WriteFields(fields, x), '{', WriteFields(w.fields, y));
        FieldsAreSelfDelimiting(fields, x, w.fields, y);
    }
  }

  lemma {:induction false} ItemsAreSelfDelimiting(a: seq<Value>, x: string, b: seq<Value>, y: string)
    requires forall i :: 0 <= i < |a| ==> WellFormed(a[i])
    requires forall i :: 0 <= i < |b| ==> WellFormed(b[i])
    requires WriteItems(a, x) == WriteItems(b, y)
    ensures a == b && x == y
    decreases a, 0
  {
    if a != [] { FirstChar(a[0], AfterItem(a, x)); }
    if b != [] { FirstChar(b[0], AfterItem(b, y)); }
    assert WriteItems(a, x)[0] == WriteItems(b, y)[0];
    if a == [] {
      Cons(']', x, ']', y);
    } else {
      WriteIsSelfDelimiting(a[0], AfterItem(a, x), b[0], AfterItem(b, y));
      if |a| == 1 || |b| == 1 {
        assert AfterItem(a, x)[0] == AfterItem(b, y)[0];
        Cons(']', x, ']', y);
      } else {
        Cons(',', WriteItems(a[1..], x), ',', WriteItems(b[1..], y));
        ItemsAreSelfDelimiting(a[1..], x, b[1..], y);
      }
      assert a == [a[0]] + a[1..] && b == [b[0]] + b[1..];
    }
  }

  lemma {:induction false} FieldsAreSelfDelimiting(a: seq<Field>, x: string, b: seq<Field>, y: string)
    requires forall i :: 0 <= i < |a| ==> WellFormed(a[i].value)
    requires forall i :: 0 <= i < |b| ==> WellFormed(b[i].value)
    requires WriteFields(a, x) == WriteFields(b, y)
    ensures a == b && x == y
    decreases a, 0
  {
    assert WriteFields(a, x)[0] == WriteFields(b, y)[0];
    if a == [] {
      Cons('}', x, '}', y);
    } else {
      var u, w := Write(a[0].value, AfterField(a, x)), Write(b[0].value, AfterField(b, y));
      Cons('"', WriteQuoted(a[0].name, [':'] + u), '"', WriteQuoted(b[0].name, [':'] + w));
      QuotedIsSelfDelimiting(a[0].name, [':'] + u, b[0].name, [':'] + w);
      Cons(':', u, ':', w);
      WriteIsSelfDelimiting(a[0].value, AfterField(a, x), b[0].value, AfterField(b, y));
      if |a| == 1 || |b| == 1 {
        assert AfterField(a, x)[0] == AfterField(b, y)[0];
        Cons('}', x, '}', y);
      } else {
        Cons(',', WriteFields(a[1..], x), ',', WriteFields(b[1..], y));
        FieldsAreSelfDelimiting(a[1..], x, b[1..], y);
      }
      assert a == [a[0]] + a[1..] && b == [b[0]] + b[1..];
    }
  }

  /** Serialization is injective. */
  lemma EncodeIsInjective(v: Value, w: Value)
    requires WellFormed(v) && WellFormed(w)
    ensures Encode(v) == Encode(w) <==> v == w
  {
    if Encode(v) == Encode(w) { WriteIsSelfDelimiting(v, "", w, ""); }
  }
}
