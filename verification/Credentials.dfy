/**
 Printers and parsers around base64url: '.'-separated HS256 tokens (section 7.1 of RFC 7515,
 expiry as in section 4.1.4 of RFC 7519) and '$'-separated password records. The keyed hash and
 the key derivation are parameters about which nothing is assumed.
 */
module Credentials {
  import opened Domain
  import opened Base64Url

  type Mac = (seq<Byte>, seq<Byte>) -> seq<Byte>
  type Kdf = (string, seq<Byte>, int) -> seq<Byte>

  // ---------- splitting text ----------

  predicate Free(s: string, c: char) { c !in s }

  /** All fields between separators. */
  function Split(s: string, sep: char): (fields: seq<string>)
    ensures 1 <= |fields|
  {
    if s == "" then [""]
    else
      var rest := Split(s[1..], sep);
      if s[0] == sep then [""] + rest else [[s[0]] + rest[0]] + rest[1..]
  }

  /** At most n splits; the last field keeps further separators. */
  function SplitAtMost(s: string, sep: char, n: nat): (fields: seq<string>)
    ensures 1 <= |fields|
    decreases |s|
  {
    if n == 0 || s == "" then [s]
    else if s[0] == sep then [""] + SplitAtMost(s[1..], sep, n - 1)
    else
      var rest := SplitAtMost(s[1..], sep, n);
      [[s[0]] + rest[0]] + rest[1..]
  }

  lemma {:induction false} SplitField(f: string, sep: char, rest: string)
    requires Free(f, sep)
    ensures Split(f + [sep] + rest, sep) == [f] + Split(rest, sep)
  {
    if f == "" {
      assert (f + [sep] + rest)[1..] == rest;
    } else {
      SplitField(f[1..], sep, rest);
      assert (f + [sep] + rest)[1..] == f[1..] + [sep] + rest;
      assert [f[0]] + f[1..] == f;
    }
  }

  lemma {:induction false} SplitLast(f: string, sep: char)
    requires Free(f, sep)
    ensures Split(f, sep) == [f]
  {
    if f == "" {
    } else {
      SplitLast(f[1..], sep);
      assert [f[0]] + f[1..] == f;
    }
  }

  function Join(fields: seq<string>, sep: char): string
    requires fields != []
  {
    if |fields| == 1 then fields[0] else fields[0] + [sep] + Join(fields[1..], sep)
  }

  /** A character in front of the first field goes in front of the joined text. */
  lemma JoinInFront(c: char, fields: seq<string>, sep: char)
    requires fields != []
    ensures Join([[c] + fields[0]] + fields[1..], sep) == [c] + Join(fields, sep)
  {
    var grown := [[c] + fields[0]] + fields[1..];
    if |fields| > 1 {
      assert grown[1..] == fields[1..];
      var rest := Join(fields[1..], sep);
      assert [c] + (fields[0] + [sep] + rest) == ([c] + fields[0]) + [sep] + rest;
    }
  }

  lemma JoinAfterEmpty(fields: seq<string>, sep: char)
    requires fields != []
    ensures Join([""] + fields, sep) == [sep] + Join(fields, sep)
  {
    assert ([""] + fields)[1..] == fields;
  }

  /** Joining the fields gives back the text, and no field contains the separator. */
  lemma {:induction false} SplitJoins(s: string, sep: char)
    ensures Join(Split(s, sep), sep) == s
    ensures forall f :: f in Split(s, sep) ==> Free(f, sep)
  {
    hide Join;
    if s == "" {
      assert Join([""], sep) == "" by { JoinOne("", sep); }
    } else {
      SplitJoins(s[1..], sep);
      var rest := Split(s[1..], sep);
      JoinInFront(s[0], rest, sep);
      JoinAfterEmpty(rest, sep);
      assert rest[0] in rest;
      assert [s[0]] + s[1..] == s;
    }
  }

  lemma JoinOne(f: string, sep: char)
    ensures Join([f], sep) == f
  {
  }

  /** The fields of two texts joined by a separator are the fields of the one and then those of the other. */
  lemma {:induction false} SplitConcat(a: string, sep: char, b: string)
    ensures Split(a + [sep] + b, sep) == Split(a, sep) + Split(b, sep)
  {
    var t := a + [sep] + b;
    if a == "" {
      assert t[1..] == b && t[0] == sep;
    } else {
      SplitConcat(a[1..], sep, b);
      assert t[1..] == a[1..] + [sep] + b && t[0] == a[0];
      SplitPrepend(t, sep, Split(a[1..], sep), Split(b, sep));
    }
  }

  lemma SplitPrepend(t: string, sep: char, first: seq<string>, second: seq<string>)
    requires t != "" && first != [] && Split(t[1..], sep) == first + second
    ensures Split(t, sep) == (if t[0] == sep then [""] + first else [[t[0]] + first[0]] + first[1..]) + second
  {
    assert (first + second)[1..] == first[1..] + second;
  }

  lemma {:induction false} SplitAtMostField(f: string, sep: char, rest: string, n: nat)
    requires Free(f, sep) && 0 < n
    ensures SplitAtMost(f + [sep] + rest, sep, n) == [f] + SplitAtMost(rest, sep, n - 1)
    decreases |f|
  {
    if f == "" {
      assert (f + [sep] + rest)[1..] == rest;
    } else {
      SplitAtMostField(f[1..], sep, rest, n);
      assert (f + [sep] + rest)[1..] == f[1..] + [sep] + rest;
      assert [f[0]] + f[1..] == f;
    }
  }

  lemma AlphabetFree(s: string, c: char)
    requires AllInAlphabet(s) && !InAlphabet(c)
    ensures Free(s, c)
  {
  }

  // ---------- decimal numbers ----------

  predicate IsDigit(c: char) { '0' <= c <= '9' }

  predicate Digits(s: string) { forall i :: 0 <= i < |s| ==> IsDigit(s[i]) }

  /** Decimal digits, the first of them zero for zero alone. */
  function Decimal(n: nat): (s: string)
    ensures s != "" && Digits(s)
    ensures n == 0 ==> s == "0"
    ensures n != 0 ==> s[0] != '0'
  {
    if n < 10 then [('0' as int + n) as char] else Decimal(n / 10) + [('0' as int + n % 10) as char]
  }

  function PrintInt(n: int): string { if n < 0 then "-" + Decimal(-n) else Decimal(n) }

  function NatOf(s: string): nat
    requires Digits(s)
  {
    if s == "" then 0 else 10 * NatOf(s[..|s| - 1]) + (s[|s| - 1] as int - '0' as int)
  }

  function ParseInt(s: string): Option<int> {
    if s != "" && Digits(s) then Some(NatOf(s))
    else if 1 < |s| && s[0] == '-' && Digits(s[1..]) then Some(0 - NatOf(s[1..]) as int)
    else None
  }

  lemma {:induction false} DecimalRoundTrip(n: nat)
    ensures NatOf(Decimal(n)) == n
  {
    if 10 <= n {
      DecimalRoundTrip(n / 10);
      var s := Decimal(n);
      assert s[..|s| - 1] == Decimal(n / 10);
    }
  }

  lemma IntRoundTrip(n: int)
    ensures ParseInt(PrintInt(n)) == Some(n)
  {
    if n < 0 {
      DecimalRoundTrip(-n);
      assert PrintInt(n)[1..] == Decimal(-n);
      assert PrintInt(n)[0] == '-';
    } else {
      DecimalRoundTrip(n);
    }
  }

  // ---------- user ids ----------

  type Nibble = h: int | 0 <= h < 16

  /** A 128-bit id as its 32 hexadecimal digits. */
  type Uuid = u: seq<Nibble> | |u| == 32 witness seq(32, _ => 0)

  function HexDigit(h: Nibble): char {
    if h < 10 then ('0' as int + h) as char else ('a' as int + h - 10) as char
  }

  predicate IsHex(c: char) { '0' <= c <= '9' || 'a' <= c <= 'f' || 'A' <= c <= 'F' }

  function NibbleOf(c: char): Nibble
    requires IsHex(c)
  {
    if '0' <= c <= '9' then c as int - '0' as int
    else if 'a' <= c <= 'f' then c as int - 'a' as int + 10
    else c as int - 'A' as int + 10
  }

  function Hex(u: seq<Nibble>): (s: string)
    ensures |s| == |u|
  {
    seq(|u|, i requires 0 <= i < |u| => HexDigit(u[i]))
  }

  function PrintUuid(u: Uuid): string {
    Hex(u[..8]) + ("-" + (Hex(u[8..12]) + ("-" + (Hex(u[12..16]) + ("-" + (Hex(u[16..20]) + ("-" + Hex(u[20..]))))))))
  }

  function WithoutHyphens(s: string): string {
    if s == "" then ""
    else if s[0] == '-' then WithoutHyphens(s[1..])
    else [s[0]] + WithoutHyphens(s[1..])
  }

  function ParseUuid(s: string): Option<Uuid> {
    var h := WithoutHyphens(s);
    if |h| == 32 && (forall i :: 0 <= i < 32 ==> IsHex(h[i]))
    then Some(seq(32, i requires 0 <= i < 32 => NibbleOf(h[i])))
    else None
  }

  lemma {:induction false} PlainPrefix(a: string, b: string)
    requires Free(a, '-')
    ensures WithoutHyphens(a + b) == a + WithoutHyphens(b)
  {
    if a == "" {
      assert a + b == b;
    } else {
      PlainPrefix(a[1..], b);
      assert (a + b)[1..] == a[1..] + b;
    }
  }

  lemma HyphenThen(b: string)
    ensures WithoutHyphens("-" + b) == WithoutHyphens(b)
  {
  }

  /** A hyphen-separated part of hexadecimal digits contributes just its digits. */
  lemma HexPart(u: seq<Nibble>, b: string)
    ensures WithoutHyphens(Hex(u) + ("-" + b)) == Hex(u) + WithoutHyphens(b)
  {
    HexIsPlain(u);
    PlainPrefix(Hex(u), "-" + b);
    HyphenThen(b);
  }

  /** Digits of either case are read by their place. */
  lemma HexValues(h: Nibble)
    ensures NibbleOf("0123456789abcdef"[h]) == h && NibbleOf("0123456789ABCDEF"[h]) == h
  {
  }

  lemma HexConcat(u: seq<Nibble>, v: seq<Nibble>)
    ensures Hex(u) + Hex(v) == Hex(u + v)
  {
  }

  lemma HexIsPlain(u: seq<Nibble>)
    ensures Free(Hex(u), '-')
    ensures forall i :: 0 <= i < |u| ==> IsHex(Hex(u)[i]) && NibbleOf(Hex(u)[i]) == u[i]
  {
  }

  lemma UuidWithoutHyphens(u: Uuid)
    ensures WithoutHyphens(PrintUuid(u)) == Hex(u)
  {
    var a, b, c, d, e := u[..8], u[8..12], u[12..16], u[16..20], u[20..];
    var tail4 := Hex(e);
    var tail3 := Hex(d) + ("-" + tail4);
    var tail2 := Hex(c) + ("-" + tail3);
    var tail1 := Hex(b) + ("-" + tail2);
    HexPart(a, tail1);
    HexPart(b, tail2);
    HexPart(c, tail3);
    HexPart(d, tail4);
    HexIsPlain(e);
    PlainPrefix(Hex(e), "");
    assert Hex(e) + "" == Hex(e);
    HexConcat(d, e);
    HexConcat(c, d + e);
    HexConcat(b, c + (d + e));
    HexConcat(a, b + (c + (d + e)));
    assert a + (b + (c + (d + e))) == u;
  }

  const HEX_DIGITS := "0123456789abcdef"

  /** Lower-case digits in order, in groups of 8, 4, 4, 4 and 12 with hyphens between them. */
  lemma UuidShape(u: Uuid)
    ensures |PrintUuid(u)| == 36
    ensures forall i :: 0 <= i < 36 ==>
              PrintUuid(u)[i] == if i in {8, 13, 18, 23} then '-'
                                 else HEX_DIGITS[u[i - if i < 8 then 0 else if i < 13 then 1
                                                       else if i < 18 then 2 else if i < 23 then 3 else 4]]
  {
    assert forall h: Nibble :: HexDigit(h) == HEX_DIGITS[h];
    var tail4 := Hex(u[20..]);
    var tail3 := Hex(u[16..20]) + ("-" + tail4);
    var tail2 := Hex(u[12..16]) + ("-" + tail3);
    var tail1 := Hex(u[8..12]) + ("-" + tail2);
    assert PrintUuid(u) == Hex(u[..8]) + ("-" + tail1);
  }

  lemma UuidRoundTrip(u: Uuid)
    ensures ParseUuid(PrintUuid(u)) == Some(u)
  {
    UuidWithoutHyphens(u);
    HexIsPlain(u);
    assert ParseUuid(PrintUuid(u)).value == u;
  }

  // ---------- flat JSON objects ----------

  datatype Json = JInt(value: int) | JText(text: string)

  type Members = seq<(string, Json)>

  /** Text that JSON prints as it is. */
  predicate Plain(s: string) {
    forall i :: 0 <= i < |s| ==> ' ' <= s[i] <= '~' && s[i] != '"' && s[i] != '\\'
  }

  function Quoted(s: string): string { "\"" + (s + "\"") }

  function PrintValue(v: Json): string {
    match v
    case JInt(n) => PrintInt(n)
    case JText(s) => Quoted(s)
  }

  function PrintMember(m: (string, Json)): string { Quoted(m.0) + (":" + PrintValue(m.1)) }

  /** The members after the opening brace, in order and without spaces. */
  function PrintMembers(ms: Members): string
    requires ms != []
  {
    if |ms| == 1 then PrintMember(ms[0]) + "}"
    else PrintMember(ms[0]) + ("," + PrintMembers(ms[1..]))
  }

  function PrintObject(ms: Members): string
    requires ms != []
  {
    "{" + PrintMembers(ms)
  }

  /** The text up to the closing quote, and what follows it. */
  function ParseText(s: string): (r: Option<(string, string)>)
    ensures r.Some? ==> |r.value.1| < |s|
  {
    if s == "" || s[0] == '\\' then None
    else if s[0] == '"' then Some(("", s[1..]))
    else
      match ParseText(s[1..])
      case None => None
      case Some((text, rest)) => Some(([s[0]] + text, rest))
  }

  predicate InNumber(c: char) { IsDigit(c) || c == '-' }

  /** The longest prefix of number characters, and what follows it. */
  function SpanNumber(s: string): (r: (string, string))
    ensures |r.1| <= |s|
  {
    if s == "" || !InNumber(s[0]) then ("", s)
    else
      var (number, rest) := SpanNumber(s[1..]);
      ([s[0]] + number, rest)
  }

  function ParseValue(s: string): (r: Option<(Json, string)>)
    ensures r.Some? ==> |r.value.1| <= |s|
  {
    if s != "" && s[0] == '"' then
      match ParseText(s[1..])
      case None => None
      case Some((text, rest)) => Some((JText(text), rest))
    else
      var (number, rest) := SpanNumber(s);
      match ParseInt(number)
      case None => None
      case Some(n) => Some((JInt(n), rest))
  }

  /** One member, and what follows it. */
  function ParseMember(s: string): (r: Option<((string, Json), string)>)
    ensures r.Some? ==> |r.value.1| < |s|
  {
    if s == "" || s[0] != '"' then None
    else
      match ParseText(s[1..])
      case None => None
      case Some((key, rest)) =>
        if rest == "" || rest[0] != ':' then None
        else
          match ParseValue(rest[1..])
          case None => None
          case Some((value, rest')) => Some(((key, value), rest'))
  }

  function ParseMembers(s: string): Option<Members>
    decreases |s|
  {
    match ParseMember(s)
    case None => None
    case Some((m, rest)) =>
      if rest == "}" then Some([m])
      else if rest == "" || rest[0] != ',' then None
      else
        match ParseMembers(rest[1..])
        case None => None
        case Some(ms) => Some([m] + ms)
  }

  function ParseObject(s: string): Option<Members> {
    if s == "" || s[0] != '{' then None else ParseMembers(s[1..])
  }

  /** The last member with the key, as a parsed dictionary keeps it. */
  function LookupKey(ms: Members, key: string): Option<Json> {
    if ms == [] then None
    else
      var last := ms[|ms| - 1];
      if last.0 == key then Some(last.1) else LookupKey(ms[..|ms| - 1], key)
  }

  ghost predicate PlainMembers(ms: Members) {
    forall i {:trigger ms[i]} :: 0 <= i < |ms| ==> Plain(ms[i].0) && (ms[i].1.JText? ==> Plain(ms[i].1.text))
  }

  lemma {:induction false} TextRoundTrip(s: string, rest: string)
    requires Plain(s)
    ensures ParseText(s + ("\"" + rest)) == Some((s, rest))
  {
    var t := s + ("\"" + rest);
    if s == "" {
      assert t == "\"" + rest && t[1..] == rest;
    } else {
      TextRoundTrip(s[1..], rest);
      assert t[1..] == s[1..] + ("\"" + rest);
      assert [s[0]] + s[1..] == s;
    }
  }

  lemma QuotedRoundTrip(s: string, rest: string)
    requires Plain(s)
    ensures var t := Quoted(s) + rest; t[0] == '"' && ParseText(t[1..]) == Some((s, rest))
  {
    TextRoundTrip(s, rest);
    assert (Quoted(s) + rest)[1..] == s + ("\"" + rest);
  }

  lemma {:induction false} NumberSpan(s: string, rest: string)
    requires forall i :: 0 <= i < |s| ==> InNumber(s[i])
    requires rest == "" || !InNumber(rest[0])
    ensures SpanNumber(s + rest) == (s, rest)
  {
    if s == "" {
      assert s + rest == rest;
    } else {
      NumberSpan(s[1..], rest);
      assert (s + rest)[0] == s[0] && (s + rest)[1..] == s[1..] + rest;
      assert [s[0]] + s[1..] == s;
    }
  }

  lemma ValueRoundTrip(v: Json, rest: string)
    requires v.JText? ==> Plain(v.text)
    requires rest != "" && !InNumber(rest[0])
    ensures ParseValue(PrintValue(v) + rest) == Some((v, rest))
  {
    match v
    case JText(s) => QuotedRoundTrip(s, rest);
    case JInt(n) =>
      IntRoundTrip(n);
      NumberSpan(PrintInt(n), rest);
      assert (PrintInt(n) + rest)[0] == PrintInt(n)[0];
  }

  lemma MemberRoundTrip(m: (string, Json), rest: string)
    requires Plain(m.0) && (m.1.JText? ==> Plain(m.1.text))
    requires rest != "" && !InNumber(rest[0])
    ensures ParseMember(PrintMember(m) + rest) == Some((m, rest))
  {
    var tail := PrintValue(m.1) + rest;
    assert PrintMember(m) + rest == Quoted(m.0) + (":" + tail);
    QuotedRoundTrip(m.0, ":" + tail);
    ValueRoundTrip(m.1, rest);
    assert (":" + tail)[1..] == tail;
  }

  lemma {:induction false} MembersRoundTrip(ms: Members)
    requires ms != [] && PlainMembers(ms)
    ensures ParseMembers(PrintMembers(ms)) == Some(ms)
  {
    hide ParseMembers, ParseMember;
    assert Plain(ms[0].0);
    if |ms| == 1 {
      LastMember(ms[0]);
      assert [ms[0]] == ms;
    } else {
      MembersRoundTrip(ms[1..]);
      NextMember(ms[0], PrintMembers(ms[1..]), ms[1..]);
      assert [ms[0]] + ms[1..] == ms;
    }
  }

  lemma LastMember(m: (string, Json))
    requires Plain(m.0) && (m.1.JText? ==> Plain(m.1.text))
    ensures ParseMembers(PrintMember(m) + "}") == Some([m])
  {
    MemberRoundTrip(m, "}");
  }

  lemma NextMember(m: (string, Json), tail: string, ms: Members)
    requires Plain(m.0) && (m.1.JText? ==> Plain(m.1.text))
    requires tail != "" && ParseMembers(tail) == Some(ms)
    ensures ParseMembers(PrintMember(m) + ("," + tail)) == Some([m] + ms)
  {
    MemberRoundTrip(m, "," + tail);
    assert ("," + tail)[1..] == tail;
    assert |"," + tail| > 1;
  }

  /** Printing a flat object and parsing it gives back its members, for plain keys and texts and any integers. */
  lemma ObjectRoundTrip(ms: Members)
    requires ms != [] && PlainMembers(ms)
    ensures ParseObject(PrintObject(ms)) == Some(ms)
  {
    MembersRoundTrip(ms);
    assert PrintObject(ms)[1..] == PrintMembers(ms);
  }

  // ---------- text as bytes ----------

  predicate Ascii(s: string) { forall i :: 0 <= i < |s| ==> s[i] < 128 as char }

  /** The encoding of ASCII text. */
  function AsciiBytes(s: string): seq<Byte>
    requires Ascii(s)
  {
    seq(|s|, i requires 0 <= i < |s| => s[i] as int)
  }

  function TextOfBytes(b: seq<Byte>): string {
    seq(|b|, i requires 0 <= i < |b| => b[i] as char)
  }

  lemma AsciiRoundTrip(s: string)
    requires Ascii(s)
    ensures TextOfBytes(AsciiBytes(s)) == s
  {
  }

  // ---------- access tokens ----------

  datatype TokenPayload = TokenPayload(subject: Uuid, expiresAt: int)

  const HEADER: Members := [("alg", JText("HS256")), ("typ", JText("JWT"))]

  function Claims(subject: Uuid, issuedAt: int, expiresAt: int, tokenId: Uuid): Members {
    [("exp", JInt(expiresAt)), ("iat", JInt(issuedAt)), ("jti", JText(PrintUuid(tokenId))), ("sub", JText(PrintUuid(subject)))]
  }

  lemma AsciiConcat(a: string, b: string)
    requires Ascii(a) && Ascii(b)
    ensures Ascii(a + b)
  {
  }

  lemma {:induction false} MembersAreAscii(ms: Members)
    requires ms != [] && PlainMembers(ms)
    ensures Ascii(PrintMembers(ms))
  {
    MemberIsAscii(ms[0]);
    if |ms| > 1 {
      MembersAreAscii(ms[1..]);
      AsciiConcat(",", PrintMembers(ms[1..]));
      AsciiConcat(PrintMember(ms[0]), "," + PrintMembers(ms[1..]));
    } else {
      AsciiConcat(PrintMember(ms[0]), "}");
    }
  }

  lemma MemberIsAscii(m: (string, Json))
    requires Plain(m.0) && (m.1.JText? ==> Plain(m.1.text))
    ensures Ascii(PrintMember(m))
  {
  }

  /** The compact JSON text of an object, in base64url. */
  function JsonB64(ms: Members): (text: string)
    requires ms != [] && PlainMembers(ms)
    ensures AllInAlphabet(text)
  {
    MembersAreAscii(ms);
    AsciiConcat("{", PrintMembers(ms));
    B64IsText(AsciiBytes(PrintObject(ms)));
    B64(AsciiBytes(PrintObject(ms)))
  }

  lemma UuidIsPlain(u: Uuid)
    ensures Plain(PrintUuid(u))
  {
    assert forall v: seq<Nibble> :: Plain(Hex(v));
  }

  function SigningInput(header: string, payload: string): (b: seq<Byte>)
    requires Ascii(header) && Ascii(payload)
  {
    AsciiBytes(header + "." + payload)
  }

  function ClaimsText(subject: Uuid, issuedAt: int, expiresAt: int, tokenId: Uuid): (text: string)
    ensures AllInAlphabet(text)
  {
    UuidIsPlain(subject);
    UuidIsPlain(tokenId);
    JsonB64(Claims(subject, issuedAt, expiresAt, tokenId))
  }

  /** A token with the given header; the source always passes HEADER. */
  function CreateTokenWith(header: Members, subject: Uuid, secret: seq<Byte>, lifetime: int, now: int, tokenId: Uuid,
                           mac: Mac): string
    requires header != [] && PlainMembers(header)
  {
    SignedToken(JsonB64(header), ClaimsText(subject, now, now + lifetime, tokenId), secret, mac)
  }

  function CreateToken(subject: Uuid, secret: seq<Byte>, lifetime: int, now: int, tokenId: Uuid, mac: Mac): string {
    CreateTokenWith(HEADER, subject, secret, lifetime, now, tokenId, mac)
  }

  function SignedToken(header: string, payload: string, secret: seq<Byte>, mac: Mac): string
    requires Ascii(header) && Ascii(payload)
  {
    header + "." + (payload + "." + B64(mac(secret, SigningInput(header, payload))))
  }

  /** The payload of an authentic, unexpired token; a token has exactly three parts. */
  function DecodeToken(token: string, secret: seq<Byte>, now: int, mac: Mac): Option<TokenPayload> {
    var parts := Split(token, '.');
    if |parts| == 3 then DecodeParts(parts[0], parts[1], parts[2], secret, now, mac) else None
  }

  function DecodeParts(header: string, payload: string, signature: string, secret: seq<Byte>, now: int, mac: Mac)
    : Option<TokenPayload>
  {
    if !Ascii(header) || !Ascii(payload) then None
    else if Unb64(signature) != Some(mac(secret, SigningInput(header, payload))) then None
    else ReadClaims(payload, now)
  }

  function ReadClaims(payload: string, now: int): Option<TokenPayload> {
    PayloadOf(ParsePayload(payload), now)
  }

  function ParsePayload(payload: string): Option<Members> {
    match Unb64(payload)
    case None => None
    case Some(bytes) => ParseObject(TextOfBytes(bytes))
  }

  function PayloadOf(claims: Option<Members>, now: int): Option<TokenPayload> {
    if claims.None? then None
    else
      var exp, sub := LookupKey(claims.value, "exp"), LookupKey(claims.value, "sub");
      if exp.None? || !exp.value.JInt? || exp.value.value <= now then None
      else if sub.None? || !sub.value.JText? then None
      else
        match ParseUuid(sub.value.text)
        case None => None
        case Some(subject) => Some(TokenPayload(subject, exp.value.value))
  }

  lemma ClaimsComeBack(subject: Uuid, issuedAt: int, expiresAt: int, tokenId: Uuid)
    ensures ParsePayload(ClaimsText(subject, issuedAt, expiresAt, tokenId))
         == Some(Claims(subject, issuedAt, expiresAt, tokenId))
  {
    var ms := Claims(subject, issuedAt, expiresAt, tokenId);
    UuidIsPlain(subject);
    UuidIsPlain(tokenId);
    MembersAreAscii(ms);
    AsciiConcat("{", PrintMembers(ms));
    RoundTrip(AsciiBytes(PrintObject(ms)));
    AsciiRoundTrip(PrintObject(ms));
    ObjectRoundTrip(ms);
  }

  lemma LookupInFront(ms: Members, m: (string, Json), key: string)
    ensures LookupKey(ms + [m], key) == if m.0 == key then Some(m.1) else LookupKey(ms, key)
  {
  }

  lemma ClaimsLookup(subject: Uuid, issuedAt: int, expiresAt: int, tokenId: Uuid)
    ensures var ms := Claims(subject, issuedAt, expiresAt, tokenId);
            LookupKey(ms, "exp") == Some(JInt(expiresAt)) && LookupKey(ms, "sub") == Some(JText(PrintUuid(subject)))
  {
    var ms := Claims(subject, issuedAt, expiresAt, tokenId);
    assert ms == [] + [ms[0]] + [ms[1]] + [ms[2]] + [ms[3]];
    LookupInFront([] + [ms[0]] + [ms[1]] + [ms[2]], ms[3], "sub");
    LookupInFront([] + [ms[0]] + [ms[1]] + [ms[2]], ms[3], "exp");
    LookupInFront([] + [ms[0]] + [ms[1]], ms[2], "exp");
    LookupInFront([] + [ms[0]], ms[1], "exp");
    LookupInFront([], ms[0], "exp");
    assert "sub"[0] != "exp"[0] && "jti"[0] != "exp"[0] && "iat"[0] != "exp"[0];
  }

  lemma ClaimsPayload(subject: Uuid, issuedAt: int, expiresAt: int, tokenId: Uuid, now: int)
    ensures ReadClaims(ClaimsText(subject, issuedAt, expiresAt, tokenId), now)
         == if now < expiresAt then Some(TokenPayload(subject, expiresAt)) else None
  {
    ClaimsComeBack(subject, issuedAt, expiresAt, tokenId);
    ClaimsLookup(subject, issuedAt, expiresAt, tokenId);
    UuidRoundTrip(subject);
  }

  lemma FreeParts(a: string, b: string, c: string)
    requires Free(a, '.') && Free(b, '.') && Free(c, '.')
    ensures Split(a + "." + (b + "." + c), '.') == [a, b, c]
  {
    SplitField(a, '.', b + "." + c);
    SplitField(b, '.', c);
    SplitLast(c, '.');
  }

  /** The three parts of a token contain no separator, so it splits into exactly them. */
  lemma ThreeParts(a: string, b: string, c: string)
    requires AllInAlphabet(a) && AllInAlphabet(b) && AllInAlphabet(c)
    ensures Split(a + "." + (b + "." + c), '.') == [a, b, c]
  {
    AlphabetFree(a, '.');
    AlphabetFree(b, '.');
    AlphabetFree(c, '.');
    FreeParts(a, b, c);
  }

  predicate SameMac(mac: Mac, secret: seq<Byte>, secret': seq<Byte>, header: string, payload: string)
    requires Ascii(header) && Ascii(payload)
  {
    var message := AsciiBytes(header + "." + payload);
    mac(secret', message) == mac(secret, message)
  }

  /** A signed token is taken apart into the parts it was made of, under any secret with the same keyed hash. */
  lemma SignedTokenParts(header: string, payload: string, secret: seq<Byte>, mac: Mac, secret': seq<Byte>, now: int)
    requires AllInAlphabet(header) && AllInAlphabet(payload)
    ensures DecodeToken(SignedToken(header, payload, secret, mac), secret', now, mac)
         == if SameMac(mac, secret, secret', header, payload) then ReadClaims(payload, now) else None
  {
    var signature := mac(secret, SigningInput(header, payload));
    B64IsText(signature);
    ThreeParts(header, payload, B64(signature));
    RoundTrip(signature);
  }

  lemma TokenIsSigned(header: Members, subject: Uuid, secret: seq<Byte>, lifetime: int, issuedAt: int, tokenId: Uuid, mac: Mac)
    requires header != [] && PlainMembers(header)
    ensures var h, payload := JsonB64(header), ClaimsText(subject, issuedAt, issuedAt + lifetime, tokenId);
            && AllInAlphabet(h) && AllInAlphabet(payload)
            && CreateTokenWith(header, subject, secret, lifetime, issuedAt, tokenId, mac)
               == SignedToken(h, payload, secret, mac)
  {
  }

  /**
   A created token decodes, at every time strictly before its expiry and under every secret
   with the same keyed hash of its text, to its subject and expiry; otherwise to nothing.
   Its header plays no part in that.
   */
  lemma TokenRoundTrip(header: Members, subject: Uuid, secret: seq<Byte>, lifetime: int, issuedAt: int, tokenId: Uuid,
                       mac: Mac, secret': seq<Byte>, now: int)
    requires header != [] && PlainMembers(header)
    ensures DecodeToken(CreateTokenWith(header, subject, secret, lifetime, issuedAt, tokenId, mac), secret', now, mac)
         == if && SameMac(mac, secret, secret', JsonB64(header), ClaimsText(subject, issuedAt, issuedAt + lifetime, tokenId))
               && now < issuedAt + lifetime
            then Some(TokenPayload(subject, issuedAt + lifetime)) else None
  {
    hide *;
    TokenIsSigned(header, subject, secret, lifetime, issuedAt, tokenId, mac);
    var payload := ClaimsText(subject, issuedAt, issuedAt + lifetime, tokenId);
    SignedTokenParts(JsonB64(header), payload, secret, mac, secret', now);
    ClaimsPayload(subject, issuedAt, issuedAt + lifetime, tokenId, now);
  }

  /** With the same secret a token is good strictly before its expiry and for nothing from then on. */
  lemma TokenLivesUntilExpiry(subject: Uuid, secret: seq<Byte>, lifetime: int, issuedAt: int, tokenId: Uuid, mac: Mac,
                              now: int)
    ensures DecodeToken(CreateToken(subject, secret, lifetime, issuedAt, tokenId, mac), secret, now, mac)
         == if now < issuedAt + lifetime then Some(TokenPayload(subject, issuedAt + lifetime)) else None
  {
    TokenRoundTrip(HEADER, subject, secret, lifetime, issuedAt, tokenId, mac, secret, now);
  }

  // ---------- what the signature covers ----------

  lemma AsciiParts(a: string, b: string)
    ensures Ascii(a + "." + b) <==> Ascii(a) && Ascii(b)
  {
    var t := a + "." + b;
    if Ascii(t) {
      assert forall i :: 0 <= i < |a| ==> a[i] == t[i];
      assert forall i :: 0 <= i < |b| ==> b[i] == t[|a| + 1 + i];
    }
  }

  /** The keyed hash of header and payload, joined by a separator, is what the third part encodes. */
  ghost predicate Signs(a: string, b: string, c: string, secret: seq<Byte>, mac: Mac) {
    Ascii(a + "." + b) && Unb64(c) == Some(mac(secret, AsciiBytes(a + "." + b)))
  }

  /**
   A text of three parts decodes exactly when the third signs the first two and the second holds
   a text subject and a later integer expiry; these are returned.
   */
  lemma DecodesIff(a: string, b: string, c: string, secret: seq<Byte>, now: int, mac: Mac, subject: Uuid, expiresAt: int)
    requires Free(a, '.') && Free(b, '.') && Free(c, '.')
    ensures DecodeToken(a + "." + (b + "." + c), secret, now, mac) == Some(TokenPayload(subject, expiresAt))
       <==> && Ascii(a + "." + b) && Unb64(c) == Some(mac(secret, AsciiBytes(a + "." + b)))
            && now < expiresAt
            && Unb64(b).Some?
            && var claims := ParseObject(TextOfBytes(Unb64(b).value));
               && claims.Some?
               && LookupKey(claims.value, "exp") == Some(JInt(expiresAt))
               && var sub := LookupKey(claims.value, "sub");
                  sub.Some? && sub.value.JText? && ParseUuid(sub.value.text) == Some(subject)
  {
    FreeParts(a, b, c);
    AsciiParts(a, b);
  }

  /** A text with three fields is those fields and the separators between them. */
  lemma JoinedParts(token: string)
    requires |Split(token, '.')| == 3
    ensures var p := Split(token, '.');
            token == p[0] + "." + (p[1] + "." + p[2]) && Free(p[0], '.') && Free(p[1], '.') && Free(p[2], '.')
  {
    var p := Split(token, '.');
    SplitJoins(token, '.');
    assert p[0] in p && p[1] in p && p[2] in p;
    assert p[1..] == [p[1], p[2]] && p[1..][1..] == [p[2]];
    assert Join(p[1..], '.') == p[1] + "." + p[2];
  }

  /** Whatever decodes has exactly three parts, the third of which signs the other two. */
  lemma AcceptedIsSigned(token: string, secret: seq<Byte>, now: int, mac: Mac)
    requires DecodeToken(token, secret, now, mac).Some?
    ensures exists a, b, c :: token == a + "." + (b + "." + c) && Signs(a, b, c, secret, mac)
  {
    JoinedParts(token);
    var parts := Split(token, '.');
    AsciiParts(parts[0], parts[1]);
    assert Signs(parts[0], parts[1], parts[2], secret, mac);
  }

  /** A token of two texts and the signature of them, as CreateTokenWith puts together. */
  lemma SignedIsSigned(header: string, payload: string, secret: seq<Byte>, mac: Mac)
    requires AllInAlphabet(header) && AllInAlphabet(payload)
    ensures var token := SignedToken(header, payload, secret, mac);
            var parts := Split(token, '.');
            && |parts| == 3 && parts[0] == header && parts[1] == payload
            && token == header + "." + (payload + "." + parts[2])
            && Signs(header, payload, parts[2], secret, mac)
  {
    var signature := mac(secret, SigningInput(header, payload));
    B64IsText(signature);
    ThreeParts(header, payload, B64(signature));
    RoundTrip(signature);
    AsciiParts(header, payload);
  }

  /** The text that a part of a token encodes. */
  ghost predicate Encodes(part: string, text: string) {
    Unb64(part).Some? && TextOfBytes(Unb64(part).value) == text
  }

  lemma JsonB64Encodes(ms: Members)
    requires ms != [] && PlainMembers(ms)
    ensures Encodes(JsonB64(ms), PrintObject(ms))
  {
    MembersAreAscii(ms);
    AsciiConcat("{", PrintMembers(ms));
    RoundTrip(AsciiBytes(PrintObject(ms)));
    AsciiRoundTrip(PrintObject(ms));
  }

  lemma NumberMember(key: string, n: int)
    ensures PrintMember((key, JInt(n))) == "\"" + key + "\":" + PrintInt(n)
  {
  }

  lemma TextMember(key: string, text: string)
    ensures PrintMember((key, JText(text))) == "\"" + key + "\":\"" + text + "\""
  {
  }

  lemma FourMembers(ms: Members)
    requires |ms| == 4
    ensures PrintObject(ms) == "{" + PrintMember(ms[0]) + "," + PrintMember(ms[1]) + "," + PrintMember(ms[2]) + ","
                               + PrintMember(ms[3]) + "}"
  {
    hide PrintMember;
    var a, b, c, d := PrintMember(ms[0]), PrintMember(ms[1]), PrintMember(ms[2]), PrintMember(ms[3]);
    assert ms[2..][1..] == ms[3..] && ms[1..][1..] == ms[2..];
    assert PrintMembers(ms[3..]) == d + "}";
    assert PrintMembers(ms[2..]) == c + ("," + (d + "}"));
    assert PrintMembers(ms[1..]) == b + ("," + (c + ("," + (d + "}"))));
    assert PrintMembers(ms) == a + ("," + (b + ("," + (c + ("," + (d + "}"))))));
    assert PrintMembers(ms) == a + "," + b + "," + c + "," + d + "}";
  }

  lemma TwoMembers(ms: Members)
    requires |ms| == 2
    ensures PrintObject(ms) == "{" + PrintMember(ms[0]) + "," + PrintMember(ms[1]) + "}"
  {
    hide PrintMember;
    var a, b := PrintMember(ms[0]), PrintMember(ms[1]);
    assert PrintMembers(ms[1..]) == b + "}";
    assert PrintMembers(ms) == a + ("," + (b + "}"));
    assert PrintMembers(ms) == a + "," + b + "}";
  }

  lemma AlgorithmMember()
    ensures "\"" + "alg" + "\":\"" + "HS256" + "\"" == "\"alg\":\"HS256\""
  {
  }

  lemma TypeMember()
    ensures "\"" + "typ" + "\":\"" + "JWT" + "\"" == "\"typ\":\"JWT\""
  {
  }

  lemma JoinedHeader()
    ensures "{" + "\"alg\":\"HS256\"" + "," + "\"typ\":\"JWT\"" + "}" == "{\"alg\":\"HS256\",\"typ\":\"JWT\"}"
  {
  }

  lemma KeysArePlain()
    ensures Plain("exp") && Plain("iat") && Plain("jti") && Plain("sub")
    ensures Plain("alg") && Plain("typ") && Plain("HS256") && Plain("JWT")
  {
  }

  lemma HeaderText()
    ensures HEADER != [] && PlainMembers(HEADER)
    ensures PrintObject(HEADER) == "{\"alg\":\"HS256\",\"typ\":\"JWT\"}"
  {
    hide PrintObject, PrintMember, Plain;
    KeysArePlain();
    TwoMembers(HEADER);
    TextMember("alg", "HS256");
    TextMember("typ", "JWT");
    AlgorithmMember();
    TypeMember();
    JoinedHeader();
  }

  lemma JoinedClaims(exp: string, iat: string, jti: string, sub: string)
    ensures "{" + ("\"" + "exp" + "\":" + exp) + "," + ("\"" + "iat" + "\":" + iat) + ","
            + ("\"" + "jti" + "\":\"" + jti + "\"") + "," + ("\"" + "sub" + "\":\"" + sub + "\"") + "}"
         == "{\"exp\":" + exp + ",\"iat\":" + iat + ",\"jti\":\"" + jti + "\",\"sub\":\"" + sub + "\"}"
  {
    var head := "{\"exp\":" + exp;
    assert "{" + ("\"" + "exp" + "\":" + exp) == head;
    var next := head + ",\"iat\":" + iat;
    assert head + "," + ("\"" + "iat" + "\":" + iat) == next;
    var third := next + ",\"jti\":\"" + jti;
    assert next + "," + ("\"" + "jti" + "\":\"" + jti + "\"") == third + "\"";
    assert third + "\"" + "," + ("\"" + "sub" + "\":\"" + sub + "\"") + "}" == third + "\",\"sub\":\"" + sub + "\"}";
  }

  lemma ClaimsJson(subject: Uuid, issuedAt: int, expiresAt: int, tokenId: Uuid)
    ensures PrintObject(Claims(subject, issuedAt, expiresAt, tokenId))
         == "{\"exp\":" + PrintInt(expiresAt) + ",\"iat\":" + PrintInt(issuedAt)
            + ",\"jti\":\"" + PrintUuid(tokenId) + "\",\"sub\":\"" + PrintUuid(subject) + "\"}"
  {
    hide PrintInt, PrintUuid, PrintObject, PrintMember;
    FourMembers(Claims(subject, issuedAt, expiresAt, tokenId));
    NumberMember("exp", expiresAt);
    NumberMember("iat", issuedAt);
    TextMember("jti", PrintUuid(tokenId));
    TextMember("sub", PrintUuid(subject));
    JoinedClaims(PrintInt(expiresAt), PrintInt(issuedAt), PrintUuid(tokenId), PrintUuid(subject));
  }

  lemma ClaimsArePlain(subject: Uuid, issuedAt: int, expiresAt: int, tokenId: Uuid)
    ensures var ms := Claims(subject, issuedAt, expiresAt, tokenId);
            && ms != [] && PlainMembers(ms)
            && ClaimsText(subject, issuedAt, expiresAt, tokenId) == JsonB64(ms)
  {
    hide PrintUuid, Plain;
    KeysArePlain();
    UuidIsPlain(subject);
    UuidIsPlain(tokenId);
  }

  lemma CreatedIsSigned(subject: Uuid, secret: seq<Byte>, lifetime: int, now: int, tokenId: Uuid, mac: Mac)
    requires PlainMembers(HEADER)
    ensures CreateToken(subject, secret, lifetime, now, tokenId, mac)
         == CreateTokenWith(HEADER, subject, secret, lifetime, now, tokenId, mac)
  {
    hide CreateTokenWith, PlainMembers;
  }

  /** A created token: the JSON texts of header and claims, and the keyed hash of the first two parts. */
  lemma CreatedParts(subject: Uuid, secret: seq<Byte>, lifetime: int, now: int, tokenId: Uuid, mac: Mac)
    ensures var token := CreateToken(subject, secret, lifetime, now, tokenId, mac);
            var parts := Split(token, '.');
            && |parts| == 3 && token == parts[0] + "." + (parts[1] + "." + parts[2])
            && Encodes(parts[0], "{\"alg\":\"HS256\",\"typ\":\"JWT\"}")
            && Encodes(parts[1],
                       "{\"exp\":" + PrintInt(now + lifetime) + ",\"iat\":" + PrintInt(now)
                       + ",\"jti\":\"" + PrintUuid(tokenId) + "\",\"sub\":\"" + PrintUuid(subject) + "\"}")
            && Signs(parts[0], parts[1], parts[2], secret, mac)
  {
    hide *;
    HeaderText();
    ClaimsArePlain(subject, now, now + lifetime, tokenId);
    CreatedIsSigned(subject, secret, lifetime, now, tokenId, mac);
    TokenIsSigned(HEADER, subject, secret, lifetime, now, tokenId, mac);
    SignedIsSigned(JsonB64(HEADER), ClaimsText(subject, now, now + lifetime, tokenId), secret, mac);
    JsonB64Encodes(HEADER);
    JsonB64Encodes(Claims(subject, now, now + lifetime, tokenId));
    ClaimsJson(subject, now, now + lifetime, tokenId);
  }

  /** Two texts without a separator between them are told apart by their joined text. */
  lemma JoinedTextsDiffer(a: string, b: string, a': string, b': string)
    requires Free(a, '.') && Free(b, '.') && Free(a', '.') && Free(b', '.')
    requires a + "." + b == a' + "." + b'
    ensures a == a' && b == b'
  {
    SplitField(a, '.', b);
    SplitLast(b, '.');
    SplitField(a', '.', b');
    SplitLast(b', '.');
    var fields := Split(a + "." + b, '.');
    assert fields[0] == a && fields[1] == b && fields[0] == a' && fields[1] == b';
  }

  /** A text of one field has no separator. */
  lemma OneField(s: string)
    requires |Split(s, '.')| == 1
    ensures Free(s, '.') && Split(s, '.') == [s]
  {
    SplitJoins(s, '.');
    JoinOne(Split(s, '.')[0], '.');
    assert Split(s, '.') == [Split(s, '.')[0]];
  }

  /** Two arbitrary texts in front of a text of one field make three fields only if each is one. */
  lemma ThreeFieldsOnly(header: string, payload: string, signature: string)
    requires Free(signature, '.') && |Split(header + "." + (payload + "." + signature), '.')| == 3
    ensures Free(header, '.') && Free(payload, '.')
  {
    SplitConcat(header, '.', payload + "." + signature);
    SplitConcat(payload, '.', signature);
    OneField(header);
    OneField(payload);
  }

  /**
   Another header or payload under the signature of a signed token, with or without separators
   in them, is accepted only if its keyed hash equals that of a different text.
   */
  lemma ForgeryNeedsCollision(token: string, header: string, payload: string, secret: seq<Byte>, now: int, mac: Mac)
    requires |Split(token, '.')| == 3
    requires var p := Split(token, '.');
             Signs(p[0], p[1], p[2], secret, mac) && (header != p[0] || payload != p[1])
    requires DecodeToken(header + "." + (payload + "." + Split(token, '.')[2]), secret, now, mac).Some?
    ensures var p := Split(token, '.');
            && Ascii(header + "." + payload)
            && AsciiBytes(header + "." + payload) != AsciiBytes(p[0] + "." + p[1])
            && mac(secret, AsciiBytes(header + "." + payload)) == mac(secret, AsciiBytes(p[0] + "." + p[1]))
  {
    hide Split;
    var p := Split(token, '.');
    JoinedParts(token);
    ThreeFieldsOnly(header, payload, p[2]);
    FreeParts(header, payload, p[2]);
    AsciiParts(header, payload);
    AsciiRoundTrip(header + "." + payload);
    AsciiRoundTrip(p[0] + "." + p[1]);
    if header + "." + payload == p[0] + "." + p[1] {
      JoinedTextsDiffer(header, payload, p[0], p[1]);
    }
  }

  /** With a keyed hash that tells texts apart, a created token has one header and payload for its signature. */
  lemma ReplacedPartsAreRefused(subject: Uuid, secret: seq<Byte>, lifetime: int, issuedAt: int, tokenId: Uuid, mac: Mac,
                                header: string, payload: string, now: int)
    requires forall m, m' :: mac(secret, m) == mac(secret, m') ==> m == m'
    ensures var p := Split(CreateToken(subject, secret, lifetime, issuedAt, tokenId, mac), '.');
            && |p| == 3
            && (header != p[0] || payload != p[1] ==>
                  DecodeToken(header + "." + (payload + "." + p[2]), secret, now, mac).None?)
  {
    hide *;
    var token := CreateToken(subject, secret, lifetime, issuedAt, tokenId, mac);
    CreatedParts(subject, secret, lifetime, issuedAt, tokenId, mac);
    var p := Split(token, '.');
    if (header != p[0] || payload != p[1])
       && DecodeToken(header + "." + (payload + "." + p[2]), secret, now, mac).Some? {
      ForgeryNeedsCollision(token, header, payload, secret, now, mac);
    }
  }

  // ---------- password records ----------

  const SCHEME := "pbkdf2_sha256"
  const ITERATIONS := 600_000

  function HashPassword(password: string, salt: seq<Byte>, kdf: Kdf): string {
    SCHEME + "$" + (Decimal(ITERATIONS) + "$" + (B64(salt) + "$" + B64(kdf(password, salt, ITERATIONS))))
  }

  datatype PasswordRecord = PasswordRecord(iterations: int, salt: seq<Byte>, digest: seq<Byte>)

  /** The fields of a record with the known scheme; key derivation refuses an iteration count below one. */
  function ParseRecord(encoded: string): Option<PasswordRecord> {
    var fields := SplitAtMost(encoded, '$', 3);
    if |fields| != 4 || fields[0] != SCHEME then None
    else
      match (ParseInt(fields[1]), Unb64(fields[2]), Unb64(fields[3]))
      case (Some(iterations), Some(salt), Some(digest)) =>
        if iterations < 1 then None else Some(PasswordRecord(iterations, salt, digest))
      case _ => None
  }

  predicate VerifyPassword(password: string, encoded: string, kdf: Kdf) {
    match ParseRecord(encoded)
    case None => false
    case Some(r) => kdf(password, r.salt, r.iterations) == r.digest
  }

  lemma RecordFields(a: string, b: string, c: string, d: string)
    requires Free(a, '$') && Free(b, '$') && Free(c, '$')
    ensures SplitAtMost(a + "$" + (b + "$" + (c + "$" + d)), '$', 3) == [a, b, c, d]
  {
    SplitAtMostField(a, '$', b + "$" + (c + "$" + d), 3);
    SplitAtMostField(b, '$', c + "$" + d, 2);
    SplitAtMostField(c, '$', d, 1);
  }

  /** A record parses back to its iteration count, salt and digest. */
  lemma RecordRoundTrip(password: string, salt: seq<Byte>, kdf: Kdf)
    ensures ParseRecord(HashPassword(password, salt, kdf))
         == Some(PasswordRecord(ITERATIONS, salt, kdf(password, salt, ITERATIONS)))
  {
    var digest := kdf(password, salt, ITERATIONS);
    B64IsText(salt);
    AlphabetFree(B64(salt), '$');
    RecordFields(SCHEME, Decimal(ITERATIONS), B64(salt), B64(digest));
    DecimalRoundTrip(ITERATIONS);
    RoundTrip(salt);
    RoundTrip(digest);
  }

  /** A record accepts exactly the passwords that derive the recorded digest. */
  lemma RecordAccepts(password: string, salt: seq<Byte>, kdf: Kdf, attempt: string)
    ensures VerifyPassword(attempt, HashPassword(password, salt, kdf), kdf)
       <==> kdf(attempt, salt, ITERATIONS) == kdf(password, salt, ITERATIONS)
  {
    RecordRoundTrip(password, salt, kdf);
  }

  lemma IterationsText()
    ensures Decimal(600_000) == "600000"
  {
    assert Decimal(6) == "6" && Decimal(60) == "60" && Decimal(600) == "600";
    assert Decimal(6_000) == "6000" && Decimal(60_000) == "60000";
  }

  /** A record: the scheme, the iteration count in decimal, salt and digest. */
  lemma RecordText(password: string, salt: seq<Byte>, kdf: Kdf)
    ensures HashPassword(password, salt, kdf)
         == "pbkdf2_sha256$600000$" + B64(salt) + "$" + B64(kdf(password, salt, 600_000))
  {
    hide Decimal, B64;
    IterationsText();
    var digest := B64(kdf(password, salt, 600_000));
    assert SCHEME + "$" + ("600000" + "$" + (B64(salt) + "$" + digest))
        == "pbkdf2_sha256$600000$" + B64(salt) + "$" + digest;
  }

  /** Of four fields, the scheme must be known, the count positive, and the digest the one derived from salt and count. */
  lemma VerifiesIff(attempt: string, a: string, b: string, c: string, d: string, kdf: Kdf)
    requires Free(a, '$') && Free(b, '$') && Free(c, '$')
    ensures VerifyPassword(attempt, a + "$" + (b + "$" + (c + "$" + d)), kdf)
       <==> && a == "pbkdf2_sha256"
            && ParseInt(b).Some? && 1 <= ParseInt(b).value
            && Unb64(c).Some?
            && Unb64(d) == Some(kdf(attempt, Unb64(c).value, ParseInt(b).value))
  {
    hide Unb64, SplitAtMost;
    RecordFields(a, b, c, d);
  }
}
