/** Strings as the server handles them: splitting, trimming, decimal numbers. */
module Text {

  datatype Option<+T> = None | Some(value: T) {
    function GetOr(default: T): T {
      match this
      case Some(v) => v
      case None => default
    }
  }

  /** Unsigned widths the source names. */
  type u32 = x: nat | x < 0x1_0000_0000
  type u64 = x: nat | x < 0x1_0000_0000_0000_0000

  /** `split(sep)`: always at least one part. */
  function Split<T(==)>(s: seq<T>, sep: T): (parts: seq<seq<T>>)
    ensures |parts| >= 1
    ensures forall i :: 0 <= i < |parts| ==> sep !in parts[i]
  {
    if s == [] then [[]]
    else if s[0] == sep then [[]] + Split(s[1..], sep)
    else
      var rest := Split(s[1..], sep);
      [[s[0]] + rest[0]] + rest[1..]
  }

  function Join<T>(parts: seq<seq<T>>, sep: T): seq<T>
    requires |parts| >= 1
  {
    if |parts| == 1 then parts[0] else parts[0] + [sep] + Join(parts[1..], sep)
  }

  /** Splitting undoes joining of separator-free parts. */
  lemma {:induction false} SplitOfJoin<T>(parts: seq<seq<T>>, sep: T)
    requires |parts| >= 1 && forall i :: 0 <= i < |parts| ==> sep !in parts[i]
    ensures Split(Join(parts, sep), sep) == parts
    decreases |parts|, |parts[0]|
  {
    var s := Join(parts, sep);
    var p := parts[0];
    if p == [] {
      if |parts| > 1 {
        assert s[0] == sep && s[1..] == Join(parts[1..], sep);
        SplitOfJoin(parts[1..], sep);
      }
      assert parts == [p] + parts[1..];
    } else {
      var shorter := [p[1..]] + parts[1..];
      assert shorter[1..] == parts[1..];
      assert s[0] == p[0] && s[1..] == Join(shorter, sep);
      SplitOfJoin(shorter, sep);
      assert [p[0]] + p[1..] == p;
      assert parts == [p] + parts[1..];
    }
  }

  /** And joining undoes splitting. */
  lemma {:induction false} JoinOfSplit<T>(s: seq<T>, sep: T)
    ensures Join(Split(s, sep), sep) == s
  {
    if s != [] {
      JoinOfSplit(s[1..], sep);
      var rest := Split(s[1..], sep);
      assert s == [s[0]] + s[1..];
      if s[0] != sep {
        var whole := Split(s, sep);
        assert whole[0] == [s[0]] + rest[0] && whole[1..] == rest[1..];
      }
    }
  }

  /** `split_once(sep)`: what stands on each side of the first separator. */
  function SplitOnce<T(==)>(s: seq<T>, sep: T): (r: Option<(seq<T>, seq<T>)>)
    ensures r.None? <==> sep !in s
    ensures r.Some? ==> sep !in r.value.0 && s == r.value.0 + [sep] + r.value.1
  {
    if s == [] then None
    else if s[0] == sep then Some(([], s[1..]))
    else
      match SplitOnce(s[1..], sep)
      case None => None
      case Some((a, b)) => Some(([s[0]] + a, b))
  }

  /** The first separator decides, so a separator-free left part is the one found. */
  lemma {:induction false} SplitOnceFinds<T>(a: seq<T>, sep: T, b: seq<T>)
    requires sep !in a
    ensures SplitOnce(a + [sep] + b, sep) == Some((a, b))
  {
    var s := a + [sep] + b;
    if a == [] {
      assert s[1..] == b;
    } else {
      SplitOnceFinds(a[1..], sep, b);
      assert s[0] == a[0];
      assert s[1..] == a[1..] + [sep] + b;
      assert [a[0]] + a[1..] == a;
    }
  }

  predicate IsDigit(c: char) { '0' <= c <= '9' }

  predicate AllDigits(s: string) { forall i :: 0 <= i < |s| ==> IsDigit(s[i]) }

  function DigitValue(c: char): (d: nat)
    requires IsDigit(c)
    ensures d < 10
  {
    c as int - '0' as int
  }

  /** The number a digit string denotes; leading zeros are allowed. */
  function Decimal(s: string): nat
    requires AllDigits(s)
  {
    if s == "" then 0 else 10 * Decimal(s[..|s| - 1]) + DigitValue(s[|s| - 1])
  }

  /** How an unsigned integer is printed. */
  function Print(n: nat): (s: string)
    ensures |s| >= 1 && AllDigits(s)
    ensures Decimal(s) == n
  {
    var last := ('0' as int + n % 10) as char;
    if n < 10 then
      assert [last][..0] == "";
      [last]
    else
      var init := Print(n / 10);
      assert (init + [last])[..|init|] == init;
      init + [last]
  }

  /** `str::parse::<u32>()`: an optional `+`, then digits, in range. */
  function ParseU32(s: string): (r: Option<u32>)
  {
    var digits := if s != "" && s[0] == '+' then s[1..] else s;
    if digits == "" || !AllDigits(digits) || Decimal(digits) >= 0x1_0000_0000 then None
    else Some(Decimal(digits))
  }

  /** Unicode White_Space, which `str::trim` strips. */
  predicate IsSpace(c: char) {
    var n := c as int;
    9 <= n <= 13 || n == 0x20 || n == 0x85 || n == 0xA0 || n == 0x1680 || 0x2000 <= n <= 0x200A
    || n == 0x2028 || n == 0x2029 || n == 0x202F || n == 0x205F || n == 0x3000
  }

  function TrimStart(s: string): string {
    if s == "" || !IsSpace(s[0]) then s else TrimStart(s[1..])
  }

  function TrimEnd(s: string): string {
    if s == "" || !IsSpace(s[|s| - 1]) then s else TrimEnd(s[..|s| - 1])
  }

  /** Trimming removes white space only, and all of it at both ends. */
  lemma {:induction false} TrimStartShape(s: string) returns (i: nat)
    ensures i <= |s| && TrimStart(s) == s[i..]
    ensures forall k :: 0 <= k < i ==> IsSpace(s[k])
    ensures i < |s| ==> !IsSpace(s[i])
  {
    i := 0;
    if s != "" && IsSpace(s[0]) {
      var j := TrimStartShape(s[1..]);
      i := j + 1;
      assert forall k :: 1 <= k < i ==> s[k] == s[1..][k - 1];
    }
  }

  lemma {:induction false} TrimEndShape(s: string) returns (n: nat)
    ensures n <= |s| && TrimEnd(s) == s[..n]
    ensures forall k :: n <= k < |s| ==> IsSpace(s[k])
    ensures n > 0 ==> !IsSpace(s[n - 1])
  {
    n := |s|;
    if s != "" && IsSpace(s[|s| - 1]) {
      n := TrimEndShape(s[..|s| - 1]);
    }
  }

  /** `str::trim`. */
  function Trim(s: string): string { TrimEnd(TrimStart(s)) }

  predicate AllSpaces(s: string) { forall i :: 0 <= i < |s| ==> IsSpace(s[i]) }

  /** A text that neither begins nor ends with white space. */
  predicate IsTrimmed(s: string) { s != "" ==> !IsSpace(s[0]) && !IsSpace(s[|s| - 1]) }

  lemma {:induction false} TrimStartDrops(a: string, rest: string)
    requires AllSpaces(a) && (rest != "" ==> !IsSpace(rest[0]))
    ensures TrimStart(a + rest) == rest
  {
    if a != "" {
      assert (a + rest)[1..] == a[1..] + rest;
      TrimStartDrops(a[1..], rest);
    } else {
      assert a + rest == rest;
    }
  }

  lemma {:induction false} TrimEndDrops(rest: string, b: string)
    requires AllSpaces(b) && (rest != "" ==> !IsSpace(rest[|rest| - 1]))
    ensures TrimEnd(rest + b) == rest
  {
    if b != "" {
      assert (rest + b)[..|rest + b| - 1] == rest + b[..|b| - 1];
      TrimEndDrops(rest, b[..|b| - 1]);
    } else {
      assert rest + b == rest;
    }
  }

  lemma TrimOfPadded(a: string, core: string, b: string)
    requires AllSpaces(a) && AllSpaces(b) && IsTrimmed(core) && core != ""
    ensures Trim(a + core + b) == core
  {
    assert a + core + b == a + (core + b);
    TrimStartDrops(a, core + b);
    TrimEndDrops(core, b);
  }

  lemma PaddingOfTrimmed(s: string) returns (a: string, b: string)
    ensures AllSpaces(a) && AllSpaces(b) && IsTrimmed(Trim(s)) && s == a + Trim(s) + b
  {
    var i := TrimStartShape(s);
    var n := TrimEndShape(s[i..]);
    a, b := s[..i], s[i..][n..];
    forall k | 0 <= k < |b| ensures IsSpace(b[k]) { assert b[k] == s[i..][n + k]; }
  }

  /** Trimming leaves `core` exactly of texts that pad it with white space. */
  lemma TrimMeans(s: string, core: string)
    requires core != ""
    ensures Trim(s) == core <==> IsTrimmed(core) && exists a, b :: AllSpaces(a) && AllSpaces(b) && s == a + core + b
  {
    var a', b' := PaddingOfTrimmed(s);
    if IsTrimmed(core) {
      forall a, b | AllSpaces(a) && AllSpaces(b) && s == a + core + b ensures Trim(s) == core { TrimOfPadded(a, core, b); }
    }
  }
}
