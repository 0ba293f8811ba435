/** Unpadded base64url text, as in sections 3.2 and 5 of RFC 4648. */
module Base64Url {
  import opened Domain

  type Byte = b: int | 0 <= b < 256
  type Sextet = d: int | 0 <= d < 64

  // ---------- the alphabet ----------

  function Symbol(d: Sextet): char {
    if d < 26 then ('A' as int + d) as char
    else if d < 52 then ('a' as int + d - 26) as char
    else if d < 62 then ('0' as int + d - 52) as char
    else if d == 62 then '-'
    else '_'
  }

  predicate InAlphabet(c: char) {
    'A' <= c <= 'Z' || 'a' <= c <= 'z' || '0' <= c <= '9' || c == '-' || c == '_'
  }

  function SextetOf(c: char): Sextet
    requires InAlphabet(c)
  {
    if 'A' <= c <= 'Z' then c as int - 'A' as int
    else if 'a' <= c <= 'z' then c as int - 'a' as int + 26
    else if '0' <= c <= '9' then c as int - '0' as int + 52
    else if c == '-' then 62
    else 63
  }

  predicate AllInAlphabet(s: string) { forall i :: 0 <= i < |s| ==> InAlphabet(s[i]) }

  function Text(v: seq<Sextet>): string {
    seq(|v|, i requires 0 <= i < |v| => Symbol(v[i]))
  }

  function Sextets(s: string): seq<Sextet>
    requires AllInAlphabet(s)
  {
    seq(|s|, i requires 0 <= i < |s| => SextetOf(s[i]))
  }

  // ---------- regrouping bits ----------

  function FirstSextet(x: Byte): Sextet { x / 4 }
  function SecondSextet(x: Byte, y: Byte): Sextet { x % 4 * 16 + y / 16 }
  function ThirdSextet(y: Byte, z: Byte): Sextet { y % 16 * 4 + z / 64 }
  function FourthSextet(z: Byte): Sextet { z % 64 }

  /** Three bytes become four sextets; one or two left over become two or three, filled with zero bits. */
  function ToSextets(b: seq<Byte>): (v: seq<Sextet>)
    ensures |v| == |b| + (|b| + 2) / 3
  {
    if b == [] then []
    else if |b| == 1 then [FirstSextet(b[0]), SecondSextet(b[0], 0)]
    else if |b| == 2 then [FirstSextet(b[0]), SecondSextet(b[0], b[1]), ThirdSextet(b[1], 0)]
    else [FirstSextet(b[0]), SecondSextet(b[0], b[1]), ThirdSextet(b[1], b[2]), FourthSextet(b[2])] + ToSextets(b[3..])
  }

  function FirstByte(x: int, y: int): Byte
    requires 0 <= x < 64 && 0 <= y < 64
  {
    x * 4 + y / 16
  }

  function SecondByte(x: int, y: int): Byte
    requires 0 <= x < 64 && 0 <= y < 64
  {
    x % 16 * 16 + y / 4
  }

  function ThirdByte(x: int, y: int): Byte
    requires 0 <= x < 64 && 0 <= y < 64
  {
    x % 4 * 64 + y
  }

  /** The bytes that the sextets hold in full; bits left over are dropped. */
  function ToBytes(v: seq<Sextet>): seq<Byte> {
    if |v| < 2 then []
    else if |v| == 2 then [FirstByte(v[0], v[1])]
    else if |v| == 3 then [FirstByte(v[0], v[1]), SecondByte(v[1], v[2])]
    else [FirstByte(v[0], v[1]), SecondByte(v[1], v[2]), ThirdByte(v[2], v[3])] + ToBytes(v[4..])
  }

  // ---------- the codec ----------

  function Padding(n: nat): string { seq(n, _ => '=') }

  /** The standard encoding is padded to a multiple of four characters. */
  function EncodePadded(b: seq<Byte>): string {
    Text(ToSextets(b)) + Padding((0 - |b|) % 3)
  }

  function StripPadding(s: string): string {
    if s != "" && s[|s| - 1] == '=' then StripPadding(s[..|s| - 1]) else s
  }

  /** The standard decoding takes padded text over the alphabet, with at most two padding characters. */
  function DecodePadded(s: string): Option<seq<Byte>> {
    var text := StripPadding(s);
    if |s| % 4 == 0 && |s| - 2 <= |text| <= |s| && AllInAlphabet(text)
    then Some(ToBytes(Sextets(text)))
    else None
  }

  function B64(b: seq<Byte>): string {
    StripPadding(EncodePadded(b))
  }

  /** How many padding characters the decoder restores for a text of n characters. */
  function MissingPadding(n: nat): nat { (0 - n as int) % 4 }

  function Unb64(s: string): Option<seq<Byte>> {
    DecodePadded(s + Padding(MissingPadding(|s|)))
  }

  // ---------- round trip ----------

  lemma TextInverse(v: seq<Sextet>)
    ensures AllInAlphabet(Text(v)) && Sextets(Text(v)) == v
  {
  }

  lemma SextetsInverse(s: string)
    requires AllInAlphabet(s)
    ensures Text(Sextets(s)) == s
  {
  }

  lemma {:induction false} StripsExactlyPadding(s: string, n: nat)
    requires AllInAlphabet(s)
    ensures StripPadding(s + Padding(n)) == s
  {
    if n == 0 {
      assert s + Padding(n) == s;
      StripsNoText(s);
    } else {
      hide AllInAlphabet;
      StripsExactlyPadding(s, n - 1);
      assert (s + Padding(n))[..|s| + n - 1] == s + Padding(n - 1);
    }
  }

  lemma StripsNoText(s: string)
    requires AllInAlphabet(s)
    ensures StripPadding(s) == s
  {
    if s != "" {
      assert InAlphabet(s[|s| - 1]);
    }
  }

  /** What is left after stripping is exactly the text of the sextets. */
  lemma B64IsText(b: seq<Byte>)
    ensures B64(b) == Text(ToSextets(b)) && AllInAlphabet(B64(b))
  {
    TextInverse(ToSextets(b));
    StripsExactlyPadding(Text(ToSextets(b)), (0 - |b|) % 3);
  }

  /** By threes: one group more adds four sextets and no padding. */
  lemma {:induction false} PaddingArithmetic(n: nat)
    ensures (n + (n + 2) / 3) % 4 != 1
    ensures (0 - (n + (n + 2) / 3)) % 4 == (0 - n as int) % 3
  {
    if n < 3 {
    } else {
      PaddingArithmetic(n - 3);
      var shorter := n - 3 + (n - 1) / 3;
      assert n + (n + 2) / 3 == shorter + 4;
      AddGroup(shorter, n - 3);
    }
  }

  lemma AddGroup(sextets: nat, bytes: nat)
    ensures (sextets + 4) % 4 == sextets % 4
    ensures (0 - (sextets + 4)) % 4 == (0 - sextets as int) % 4
    ensures (0 - (bytes + 3)) % 3 == (0 - bytes as int) % 3
  {
  }

  /** The length is never 1 modulo 4, and the decoder restores exactly the stripped padding. */
  lemma PaddingIsRestored(b: seq<Byte>)
    ensures |B64(b)| % 4 != 1
    ensures B64(b) + Padding(MissingPadding(|B64(b)|)) == EncodePadded(b)
  {
    B64IsText(b);
    PaddingArithmetic(|b|);
  }

  lemma BytesComeBack(x: Byte, y: Byte, z: Byte)
    ensures FirstByte(FirstSextet(x), SecondSextet(x, y)) == x
    ensures SecondByte(SecondSextet(x, y), ThirdSextet(y, z)) == y
    ensures ThirdByte(ThirdSextet(y, z), FourthSextet(z)) == z
  {
  }

  /** How a whole group and the last, shorter one are regrouped, in either direction. */
  lemma SextetsOfGroup(b: seq<Byte>)
    ensures |b| == 0 ==> ToSextets(b) == []
    ensures |b| == 1 ==> ToSextets(b) == [FirstSextet(b[0]), SecondSextet(b[0], 0)]
    ensures |b| == 2 ==> ToSextets(b) == [FirstSextet(b[0]), SecondSextet(b[0], b[1]), ThirdSextet(b[1], 0)]
    ensures 3 <= |b| ==>
              ToSextets(b) == [FirstSextet(b[0]), SecondSextet(b[0], b[1]), ThirdSextet(b[1], b[2]), FourthSextet(b[2])]
                              + ToSextets(b[3..])
  {
  }

  lemma BytesOfGroup(v: seq<Sextet>)
    ensures |v| < 2 ==> ToBytes(v) == []
    ensures |v| == 2 ==> ToBytes(v) == [FirstByte(v[0], v[1])]
    ensures |v| == 3 ==> ToBytes(v) == [FirstByte(v[0], v[1]), SecondByte(v[1], v[2])]
    ensures 4 <= |v| ==>
              ToBytes(v) == [FirstByte(v[0], v[1]), SecondByte(v[1], v[2]), ThirdByte(v[2], v[3])] + ToBytes(v[4..])
  {
  }

  lemma {:induction false} SextetsHoldTheBytes(b: seq<Byte>)
    ensures ToBytes(ToSextets(b)) == b
  {
    hide FirstByte, SecondByte, ThirdByte, FirstSextet, SecondSextet, ThirdSextet, FourthSextet, ToBytes, ToSextets;
    var v := ToSextets(b);
    SextetsOfGroup(b);
    BytesOfGroup(v);
    if |b| == 1 {
      BytesComeBack(b[0], 0, 0);
    } else if |b| == 2 {
      BytesComeBack(b[0], b[1], 0);
    } else if 3 <= |b| {
      SextetsHoldTheBytes(b[3..]);
      BytesComeBack(b[0], b[1], b[2]);
      assert v[4..] == ToSextets(b[3..]);
      assert b == [b[0], b[1], b[2]] + b[3..];
    }
  }

  /** Decoding text with its padding restored, for any text over the alphabet whose length is not 1 modulo 4. */
  lemma Unb64OfText(s: string)
    requires AllInAlphabet(s) && |s| % 4 != 1
    ensures Unb64(s) == Some(ToBytes(Sextets(s)))
  {
    StripsExactlyPadding(s, MissingPadding(|s|));
    FullGroups(|s|);
  }

  lemma FullGroups(n: nat)
    ensures (n + MissingPadding(n)) % 4 == 0
    ensures MissingPadding(n) <= if n % 4 == 1 then 3 else 2
  {
    var q, r := n / 4, n % 4;
    assert n == 4 * q + r;
    if r == 0 {
      assert MissingPadding(n) == 0;
    } else {
      assert MissingPadding(n) == 4 - r;
    }
  }

  /** Decoding undoes encoding for every byte sequence. */
  lemma RoundTrip(b: seq<Byte>)
    ensures Unb64(B64(b)) == Some(b)
  {
    B64IsText(b);
    PaddingIsRestored(b);
    Unb64OfText(B64(b));
    TextInverse(ToSextets(b));
    SextetsHoldTheBytes(b);
  }

  // ---------- which texts are encodings ----------

  /** Text over the alphabet, of a possible length, whose last symbol carries no stray bits. */
  predicate Canonical(s: string) {
    && AllInAlphabet(s) && |s| % 4 != 1
    && (|s| % 4 == 2 ==> SextetOf(s[|s| - 1]) % 16 == 0)
    && (|s| % 4 == 3 ==> SextetOf(s[|s| - 1]) % 4 == 0)
  }

  predicate NoStrayBits(v: seq<Sextet>) {
    if 4 <= |v| then NoStrayBits(v[4..])
    else |v| != 1 && (|v| == 2 ==> v[1] % 16 == 0) && (|v| == 3 ==> v[2] % 4 == 0)
  }

  /** A full group of four sextets comes back from its three bytes. */
  lemma GroupComesBack(w: Sextet, x: Sextet, y: Sextet, z: Sextet)
    ensures FirstSextet(FirstByte(w, x)) == w
    ensures SecondSextet(FirstByte(w, x), SecondByte(x, y)) == x
    ensures ThirdSextet(SecondByte(x, y), ThirdByte(y, z)) == y
    ensures FourthSextet(ThirdByte(y, z)) == z
  {
  }

  /** The last sextet of a shorter group comes back if the bits that its bytes drop are zero. */
  lemma SecondComesBack(w: Sextet, x: Sextet)
    ensures SecondSextet(FirstByte(w, x), 0) == x <==> x % 16 == 0
  {
    assert x == 16 * (x / 16) + x % 16;
    assert (w * 4 + x / 16) % 4 == x / 16;
  }

  lemma ThirdComesBack(x: Sextet, y: Sextet)
    ensures ThirdSextet(SecondByte(x, y), 0) == y <==> y % 4 == 0
  {
    assert y == 4 * (y / 4) + y % 4;
    assert (x % 16 * 16 + y / 4) % 16 == y / 4;
  }

  lemma {:induction false} BytesHoldTheSextets(v: seq<Sextet>)
    ensures ToSextets(ToBytes(v)) == v <==> NoStrayBits(v)
  {
    hide FirstByte, SecondByte, ThirdByte, FirstSextet, SecondSextet, ThirdSextet, FourthSextet, ToBytes, ToSextets;
    var b := ToBytes(v);
    BytesOfGroup(v);
    SextetsOfGroup(b);
    if |v| == 2 {
      GroupComesBack(v[0], v[1], 0, 0);
      SecondComesBack(v[0], v[1]);
      assert v == [v[0], v[1]];
    } else if |v| == 3 {
      GroupComesBack(v[0], v[1], v[2], 0);
      ThirdComesBack(v[1], v[2]);
      assert v == [v[0], v[1], v[2]];
    } else if 4 <= |v| {
      var head, rest := [v[0], v[1], v[2], v[3]], ToBytes(v[4..]);
      BytesHoldTheSextets(v[4..]);
      GroupComesBack(v[0], v[1], v[2], v[3]);
      assert b[3..] == rest;
      assert v == head + v[4..];
      PrefixCancels(head, ToSextets(rest), v[4..]);
    }
  }

  lemma PrefixCancels(p: seq<Sextet>, a: seq<Sextet>, b: seq<Sextet>)
    ensures p + a == p + b <==> a == b
  {
    if p + a == p + b {
      assert (p + a)[|p|..] == a && (p + b)[|p|..] == b;
    }
  }

  /** The remainder of the length and the last sextet decide. */
  ghost predicate CleanEnd(v: seq<Sextet>) {
    && |v| % 4 != 1
    && (|v| % 4 == 2 ==> v[|v| - 1] % 16 == 0)
    && (|v| % 4 == 3 ==> v[|v| - 1] % 4 == 0)
  }

  lemma {:induction false} StrayBitsAreAtTheEnd(v: seq<Sextet>)
    ensures NoStrayBits(v) <==> CleanEnd(v)
  {
    if |v| < 4 {
    } else {
      hide CleanEnd;
      StrayBitsAreAtTheEnd(v[4..]);
      SameEnd(v, v[4..]);
    }
  }

  lemma SameEnd(v: seq<Sextet>, rest: seq<Sextet>)
    requires |v| == 4 + |rest| && v[4..] == rest
    ensures CleanEnd(v) <==> CleanEnd(rest)
  {
    assert |rest| % 4 == |v| % 4;
    if rest != [] {
      assert rest[|rest| - 1] == v[|v| - 1];
    }
  }

  /** Encoding and decoding are inverse bijections between byte sequences and canonical texts. */
  lemma CanonicalIff(s: string)
    ensures Canonical(s) <==> Unb64(s).Some? && B64(Unb64(s).value) == s
  {
    if AllInAlphabet(s) && |s| % 4 != 1 {
      Unb64OfText(s);
      var v := Sextets(s);
      B64IsText(ToBytes(v));
      SextetsInverse(s);
      TextInverse(v);
      BytesHoldTheSextets(v);
      StrayBitsAreAtTheEnd(v);
      if Text(ToSextets(ToBytes(v))) == s {
        TextInverse(ToSextets(ToBytes(v)));
      }
    } else if Unb64(s).Some? && B64(Unb64(s).value) == s {
      B64IsText(Unb64(s).value);
      PaddingIsRestored(Unb64(s).value);
    }
  }

  /** Text over the alphabet and trailing padding decodes if and only if at most two padding characters complete it. */
  lemma DecodesIff(s: string, n: nat)
    requires AllInAlphabet(s)
    ensures Unb64(s + Padding(n)) ==
            if n + MissingPadding(|s| + n) <= 2 then Some(ToBytes(Sextets(s))) else None
  {
    hide StripPadding, AllInAlphabet, MissingPadding, Sextets, ToBytes;
    var missing := MissingPadding(|s| + n);
    FullGroups(|s| + n);
    PaddingJoins(s, n, missing);
    StripsExactlyPadding(s, n + missing);
  }

  lemma PaddingJoins(s: string, m: nat, n: nat)
    ensures s + Padding(m) + Padding(n) == s + Padding(m + n) && |s + Padding(m)| == |s| + m
  {
  }

  /** Stripping keeps everything up to the last character that is not padding. */
  lemma {:induction false} StripsOnlyPadding(s: string, k: nat)
    requires k < |s| && s[k] != '='
    ensures k < |StripPadding(s)| && s[..k + 1] == StripPadding(s)[..k + 1]
  {
    if s[|s| - 1] == '=' {
      StripsOnlyPadding(s[..|s| - 1], k);
    }
  }

  /** Any other character, and padding in front of a character that is none, is refused. */
  lemma OthersAreRefused(s: string, i: nat, k: nat)
    requires i <= k < |s| && !InAlphabet(s[i]) && s[k] != '='
    ensures Unb64(s).None?
  {
    var padded := s + Padding(MissingPadding(|s|));
    StripsOnlyPadding(padded, k);
    assert StripPadding(padded)[..k + 1][i] == s[i];
  }

  // ---------- which symbols an encoding has ----------

  const UPPER := "ABCDEFGHIJKLMNOPQRSTUVWXYZ"
  const LOWER := "abcdefghijklmnopqrstuvwxyz"
  const DIGITS := "0123456789"
  const ALPHABET := UPPER + LOWER + DIGITS + "-_"

  /** An encoding has one symbol for each sextet, the one at its place in the alphabet. */
  lemma SymbolsInOrder(b: seq<Byte>, i: nat)
    requires i < |B64(b)|
    ensures |ALPHABET| == 64
    ensures |B64(b)| == |b| + (|b| + 2) / 3 == |ToSextets(b)| && B64(b)[i] == ALPHABET[ToSextets(b)[i]]
  {
    B64IsText(b);
    SymbolAt(ToSextets(b)[i]);
  }

  lemma SymbolAt(d: Sextet)
    ensures |ALPHABET| == 64 && Symbol(d) == ALPHABET[d]
  {
    if d < 26 {
      assert Symbol(d) == UPPER[d];
    } else if d < 52 {
      assert Symbol(d) == LOWER[d - 26];
    } else if d < 62 {
      assert Symbol(d) == DIGITS[d - 52];
    }
  }

  /** The number that a group of sextets, or of bytes, spells. */
  ghost function Spelled(base: nat, x: int, y: int, z: int): int { (x * base + y) * base + z }

  lemma GroupSpelling(x: Byte, y: Byte, z: Byte)
    ensures Spelled(64, FirstSextet(x), SecondSextet(x, y), ThirdSextet(y, z)) * 64 + FourthSextet(z) == Spelled(256, x, y, z)
    ensures Spelled(64, 0, FirstSextet(x), SecondSextet(x, 0)) == Spelled(256, 0, 0, x) * 16
    ensures Spelled(64, FirstSextet(x), SecondSextet(x, y), ThirdSextet(y, 0)) == Spelled(256, 0, x, y) * 4
  {
  }

  /** Every three bytes and their four sextets are the same 24 bits. */
  lemma {:induction false} GroupBits(b: seq<Byte>, k: nat)
    requires 3 * k + 3 <= |b|
    ensures var v := ToSextets(b);
            && 4 * k + 4 <= |v|
            && Spelled(64, v[4 * k], v[4 * k + 1], v[4 * k + 2]) * 64 + v[4 * k + 3]
               == Spelled(256, b[3 * k], b[3 * k + 1], b[3 * k + 2])
  {
    hide Spelled, ToSextets;
    SextetsOfGroup(b);
    if k == 0 {
      GroupSpelling(b[0], b[1], b[2]);
    } else {
      GroupBits(b[3..], k - 1);
      var v, rest := ToSextets(b), ToSextets(b[3..]);
      var i, j := 4 * (k - 1), 3 * (k - 1);
      assert v[4..] == rest;
      assert rest[i] == v[4 + i] && rest[i + 1] == v[5 + i] && rest[i + 2] == v[6 + i] && rest[i + 3] == v[7 + i];
    }
  }

  /** The last one or two bytes are followed by four or two zero bits. */
  lemma {:induction false} LastBits(b: seq<Byte>)
    ensures var v := ToSextets(b);
            && (|b| % 3 == 1 ==> 2 <= |v| && Spelled(64, 0, v[|v| - 2], v[|v| - 1]) == Spelled(256, 0, 0, b[|b| - 1]) * 16)
            && (|b| % 3 == 2 ==> 3 <= |v| && Spelled(64, v[|v| - 3], v[|v| - 2], v[|v| - 1])
                                             == Spelled(256, 0, b[|b| - 2], b[|b| - 1]) * 4)
  {
    hide Spelled, ToSextets;
    SextetsOfGroup(b);
    if |b| == 1 {
      GroupSpelling(b[0], 0, 0);
    } else if |b| == 2 {
      GroupSpelling(b[0], b[1], 0);
    } else if 3 <= |b| {
      LastBits(b[3..]);
      var v, rest := ToSextets(b), ToSextets(b[3..]);
      assert v[4..] == rest;
      assert |b[3..]| % 3 == |b| % 3;
    }
  }
}
