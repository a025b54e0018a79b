/**
 * Query strings and form bodies (sections 2.1 and 2.3 of RFC 3986) and the
 * parser a server applies to them (section 5.1 of the WHATWG URL Standard).
 */
module FormEncoding {
  import opened Text

  type byte = x: int | 0 <= x < 256
  datatype Pair = Pair(name: seq<byte>, value: seq<byte>)

  const AMPERSAND: byte := 0x26
  const EQUALS: byte := 0x3D
  const PERCENT: byte := 0x25
  const PLUS: byte := 0x2B
  const QUESTION: byte := 0x3F
  const SPACE: byte := 0x20

  // ---- What the client sends ----------------------------------------------

  predicate Unreserved(b: byte) {
    0x41 <= b <= 0x5A || 0x61 <= b <= 0x7A || 0x30 <= b <= 0x39 || b == 0x2D || b == 0x2E || b == 0x5F || b == 0x7E
  }

  function HexDigit(n: nat): byte
    requires n < 16
  {
    if n < 10 then 0x30 + n else 0x41 + n - 10
  }

  function EncodeByte(b: byte): seq<byte> {
    if Unreserved(b) then [b] else [PERCENT, HexDigit(b / 16), HexDigit(b % 16)]
  }

  function PercentEncode(s: seq<byte>): seq<byte> {
    if s == [] then [] else EncodeByte(s[0]) + PercentEncode(s[1..])
  }

  function EncodePair(p: Pair): seq<byte> { PercentEncode(p.name) + [EQUALS] + PercentEncode(p.value) }

  function EncodePairs(ps: seq<Pair>): seq<seq<byte>> { seq(|ps|, i requires 0 <= i < |ps| => EncodePair(ps[i])) }

  function EncodeForm(ps: seq<Pair>): seq<byte> {
    if ps == [] then [] else Join(EncodePairs(ps), AMPERSAND)
  }

  // ---- What the receiver reads --------------------------------------------

  function HexValue(b: byte): (v: Option<nat>)
    ensures v.Some? ==> v.value < 16
  {
    if 0x30 <= b <= 0x39 then Some(b - 0x30)
    else if 0x41 <= b <= 0x46 then Some(b - 0x41 + 10)
    else if 0x61 <= b <= 0x66 then Some(b - 0x61 + 10)
    else None
  }

  function PercentDecode(s: seq<byte>): seq<byte> {
    if s == [] then []
    else if s[0] == PERCENT && |s| >= 3 && HexValue(s[1]).Some? && HexValue(s[2]).Some? then
      [16 * HexValue(s[1]).value + HexValue(s[2]).value] + PercentDecode(s[3..])
    else [s[0]] + PercentDecode(s[1..])
  }

  function PlusToSpace(s: seq<byte>): seq<byte> {
    seq(|s|, i requires 0 <= i < |s| => if s[i] == PLUS then SPACE else s[i])
  }

  function ParsePiece(piece: seq<byte>): Pair {
    var sides := SplitOnce(piece, EQUALS).GetOr((piece, []));
    Pair(PercentDecode(PlusToSpace(sides.0)), PercentDecode(PlusToSpace(sides.1)))
  }

  function ParsePieces(pieces: seq<seq<byte>>): seq<Pair> {
    if pieces == [] then []
    else (if pieces[0] == [] then [] else [ParsePiece(pieces[0])]) + ParsePieces(pieces[1..])
  }

  function ParseForm(body: seq<byte>): seq<Pair> { ParsePieces(Split(body, AMPERSAND)) }

  // ---- Round trip ----------------------------------------------------------

  lemma {:induction false} EncodedHasNoSyntax(s: seq<byte>)
    ensures AMPERSAND !in PercentEncode(s) && EQUALS !in PercentEncode(s) && PLUS !in PercentEncode(s)
  {
    if s != [] { EncodedHasNoSyntax(s[1..]); }
  }

  lemma {:induction false} DecodeOfEncode(s: seq<byte>)
    ensures PercentDecode(PercentEncode(s)) == s
  {
    if s != [] {
      var e, rest := PercentEncode(s), PercentEncode(s[1..]);
      DecodeOfEncode(s[1..]);
      if Unreserved(s[0]) {
        assert e[1..] == rest;
      } else {
        assert e[3..] == rest;
        assert HexValue(HexDigit(s[0] / 16)) == Some(s[0] / 16) && HexValue(HexDigit(s[0] % 16)) == Some(s[0] % 16);
      }
      assert s == [s[0]] + s[1..];
    }
  }

  lemma ParseOfEncodedPair(p: Pair)
    ensures AMPERSAND !in EncodePair(p) && EncodePair(p) != []
    ensures ParsePiece(EncodePair(p)) == p
  {
    EncodedHasNoSyntax(p.name);
    EncodedHasNoSyntax(p.value);
    SplitOnceFinds(PercentEncode(p.name), EQUALS, PercentEncode(p.value));
    assert PlusToSpace(PercentEncode(p.name)) == PercentEncode(p.name);
    assert PlusToSpace(PercentEncode(p.value)) == PercentEncode(p.value);
    DecodeOfEncode(p.name);
    DecodeOfEncode(p.value);
  }

  lemma {:induction false} ParseOfEncodedPairs(ps: seq<Pair>)
    ensures ParsePieces(EncodePairs(ps)) == ps
  {
    if ps != [] {
      ParseOfEncodedPair(ps[0]);
      ParseOfEncodedPairs(ps[1..]);
      assert EncodePairs(ps)[1..] == EncodePairs(ps[1..]);
      assert ps == [ps[0]] + ps[1..];
    }
  }

  /** Main result: every list of pairs survives, repeated names and empty values included. */
  lemma FormRoundTrips(ps: seq<Pair>)
    ensures ParseForm(EncodeForm(ps)) == ps
  {
    if ps != [] {
      forall i | 0 <= i < |ps| ensures AMPERSAND !in EncodePairs(ps)[i] { ParseOfEncodedPair(ps[i]); }
      SplitOfJoin(EncodePairs(ps), AMPERSAND);
    } else {
      var pieces: seq<seq<byte>> := [[]];
      assert Split([], AMPERSAND) == pieces && pieces[1..] == [];
    }
    ParseOfEncodedPairs(ps);
  }

  /** Letters, digits and the four marks of section 2.3 of RFC 3986. */
  predicate IsPlain(b: byte) {
    var c := b as char;
    'A' <= c <= 'Z' || 'a' <= c <= 'z' || '0' <= c <= '9' || c in "-._~"
  }

  lemma UnreservedMeans(b: byte)
    ensures Unreserved(b) <==> IsPlain(b)
  {
    var marks := "-._~";
    assert marks[0] == '-' && marks[1] == '.' && marks[2] == '_' && marks[3] == '~';
  }

  const HEX: string := "0123456789ABCDEF"

  lemma HexMeans(n: nat)
    requires n < 16
    ensures HexDigit(n) == HEX[n] as int
  {
  }

  /** What is escaped is written with two capital hexadecimal digits. */
  lemma EscapesAreCapital(b: byte)
    requires !IsPlain(b)
    ensures PercentEncode([b]) == [PERCENT, HEX[b / 16] as int, HEX[b % 16] as int]
  {
    UnreservedMeans(b);
    HexMeans(b / 16);
    HexMeans(b % 16);
    assert [b][1..] == [];
    assert PercentEncode([b]) == EncodeByte(b) + [];
  }

  /** A value escaped into one path segment holds no `/`, `?`, `&` or `=` and reads back as itself. */
  lemma SegmentRoundTrips(s: seq<byte>)
    ensures PercentDecode(PercentEncode(s)) == s
    ensures forall b :: b in PercentEncode(s) ==> IsPlain(b) || b == PERCENT
    ensures (forall b :: b in s ==> IsPlain(b)) ==> PercentEncode(s) == s
  {
    DecodeOfEncode(s);
    SegmentCharacters(s);
    forall b: byte ensures Unreserved(b) <==> IsPlain(b) { UnreservedMeans(b); }
    if forall b :: b in s ==> IsPlain(b) { PlainStays(s); }
  }

  /** What needs no escape is sent as it is. */
  lemma {:induction false} PlainStays(s: seq<byte>)
    requires forall b :: b in s ==> Unreserved(b)
    ensures PercentEncode(s) == s
  {
    if s != [] { PlainStays(s[1..]); }
  }

  lemma {:induction false} SegmentCharacters(s: seq<byte>)
    ensures forall b :: b in PercentEncode(s) ==> Unreserved(b) || b == PERCENT
  {
    if s != [] { SegmentCharacters(s[1..]); }
  }

  /** The URL of a GET or DELETE: the query is appended only when there is one. */
  method RequestUrl(path: seq<byte>, query: seq<Pair>) returns (url: seq<byte>)
    requires QUESTION !in path
    ensures query == [] ==> url == path
    ensures query != [] ==> exists q :: SplitOnce(url, QUESTION) == Some((path, q)) && ParseForm(q) == query
  {
    url := path;
    if query != [] {
      var queryString := EncodeForm(query);
      url := url + [QUESTION];
      url := url + queryString;
      FormRoundTrips(query);
      SplitOnceFinds(path, QUESTION, queryString);
    }
  }
}
