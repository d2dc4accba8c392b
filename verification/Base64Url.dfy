/** base64url and base64urlBytes of workers/pages/index.js over the platform's btoa and atob
    (RFC 4648, sections 4 and 5; atob ignores white space and padding as browsers do), and the
    constant-time comparison.  Strings are sequences of UTF-16 code units. */
module Base64Url {
  import opened JsText
  import opened Wrappers

  type Bytes = seq<bv8>

  const PLUS: Unit := 43
  const SLASH: Unit := 47
  const UNDERSCORE: Unit := 95
  const EQUALS: Unit := 61

  /* ---- Six-bit groups ---- */

  function Sextets(b: Bytes): (s: seq<bv6>)
    ensures |s| == (4 * |b| + 2) / 3
  {
    if |b| == 0 then []
    else if |b| == 1 then [(b[0] >> 2) as bv6, ((b[0] & 3) << 4) as bv6]
    else if |b| == 2 then
      [(b[0] >> 2) as bv6, (((b[0] & 3) << 4) | (b[1] >> 4)) as bv6, ((b[1] & 15) << 2) as bv6]
    else
      [(b[0] >> 2) as bv6, (((b[0] & 3) << 4) | (b[1] >> 4)) as bv6,
       (((b[1] & 15) << 2) | (b[2] >> 6)) as bv6, (b[2] & 63) as bv6] + Sextets(b[3..])
  }

  /** The whole bytes of a sequence of six-bit groups; left-over bits are dropped. */
  function Octets(s: seq<bv6>): Bytes {
    if |s| < 2 then []
    else
      var b0 := ((s[0] as bv8) << 2) | ((s[1] as bv8) >> 4);
      if |s| == 2 then [b0]
      else
        var b1 := ((s[1] as bv8) << 4) | ((s[2] as bv8) >> 2);
        if |s| == 3 then [b0, b1]
        else [b0, b1, ((s[2] as bv8) << 6) | (s[3] as bv8)] + Octets(s[4..])
  }

  lemma {:induction false} OctetsOfSextets(b: Bytes)
    ensures Octets(Sextets(b)) == b
  {
    if |b| >= 3 {
      OctetsOfSextets(b[3..]);
      assert Sextets(b)[4..] == Sextets(b[3..]);
      assert b == [b[0], b[1], b[2]] + b[3..];
    }
  }

  /* ---- Alphabet ---- */

  function Letter(v: bv6): Unit {
    var w := v as bv16;
    if v < 26 then 65 + w else if v < 52 then 71 + w else if v < 62 then w - 4 else if v == 62 then PLUS else SLASH
  }

  function Value(u: Unit): Option<bv6> {
    if 65 <= u <= 90 then Some((u - 65) as bv6)
    else if 97 <= u <= 122 then Some((u - 71) as bv6)
    else if 48 <= u <= 57 then Some((u + 4) as bv6)
    else if u == PLUS then Some(62)
    else if u == SLASH then Some(63)
    else None
  }

  function Letters(s: seq<bv6>): (t: Text)
    ensures |t| == |s|
    ensures forall i | 0 <= i < |s| :: t[i] == Letter(s[i])
  {
    seq(|s|, i requires 0 <= i < |s| => Letter(s[i]))
  }

  function Values(t: Text): Option<seq<bv6>> {
    if t == [] then Some([])
    else
      match (Value(t[0]), Values(t[1..]))
      case (Some(v), Some(rest)) => Some([v] + rest)
      case _ => None
  }

  lemma {:induction false} ValuesOfLetters(s: seq<bv6>)
    ensures Values(Letters(s)) == Some(s)
  {
    if s != [] {
      ValuesOfLetters(s[1..]);
      assert Letters(s)[1..] == Letters(s[1..]);
      assert s == [s[0]] + s[1..];
    }
  }

  /* ---- btoa and atob ---- */

  function Repeat(u: Unit, n: nat): (t: Text)
    ensures |t| == n && forall i | 0 <= i < n :: t[i] == u
  {
    seq(n, i => u)
  }

  /** String.fromCharCode and its inverse on code units below 256. */
  function UnitOf(b: bv8): Unit { b as bv16 }

  function LowByte(u: Unit): bv8 { (u & 255) as bv8 }

  predicate Narrow(u: Unit) { u <= 255 }

  function LowBytes(binary: Text): (b: Bytes)
    ensures |b| == |binary| && forall i | 0 <= i < |b| :: b[i] == LowByte(binary[i])
  {
    seq(|binary|, i requires 0 <= i < |binary| => LowByte(binary[i]))
  }

  /** The base 64 encoding of RFC 4648, section 4. */
  function Standard64(b: Bytes): Text {
    Letters(Sextets(b)) + Repeat(EQUALS, (3 - |b| % 3) % 3)
  }

  /** None stands for the exception on a code unit above 255. */
  function Btoa(binary: Text): Option<Text> {
    if forall u | u in binary :: Narrow(u) then
      Some(Standard64(LowBytes(binary)))
    else None
  }

  predicate IsWhite(u: Unit) { u == 9 || u == 10 || u == 12 || u == 13 || u == 32 }

  function WithoutWhite(t: Text): Text {
    if t == [] then [] else (if IsWhite(t[0]) then [] else [t[0]]) + WithoutWhite(t[1..])
  }

  function WithoutPadding(t: Text): Text {
    if |t| % 4 != 0 || t == [] || t[|t| - 1] != EQUALS then t
    else if t[|t| - 2] == EQUALS then t[..|t| - 2]
    else t[..|t| - 1]
  }

  /** None stands for the exception on malformed input. */
  function Atob(text: Text): Option<Bytes> {
    var t := WithoutPadding(WithoutWhite(text));
    if |t| % 4 == 1 then None
    else
      match Values(t)
      case None => None
      case Some(s) => Some(Octets(s))
  }

  /* ---- base64url and base64urlBytes ---- */

  /** String.replace with a global single-character pattern. */
  function ReplaceAll(t: Text, from: Unit, to: Unit): (r: Text)
    ensures |r| == |t|
    ensures forall i | 0 <= i < |t| :: r[i] == if t[i] == from then to else t[i]
  {
    seq(|t|, i requires 0 <= i < |t| => if t[i] == from then to else t[i])
  }

  /** replace(/=+$/, ''). */
  function WithoutTrailingEquals(t: Text): Text {
    if t != [] && t[|t| - 1] == EQUALS then WithoutTrailingEquals(t[..|t| - 1]) else t
  }

  function UrlLetter(v: bv6): Unit {
    if v == 62 then DASH else if v == 63 then UNDERSCORE else Letter(v)
  }

  /** What base64url yields: the url-safe letters of the six-bit groups, without padding. */
  function Encoded(b: Bytes): (t: Text)
    ensures |t| == (4 * |b| + 2) / 3
  {
    var s := Sextets(b);
    seq(|s|, i requires 0 <= i < |s| => UrlLetter(s[i]))
  }

  function Latin1(b: Bytes): (t: Text)
    ensures |t| == |b| && forall i | 0 <= i < |b| :: t[i] == UnitOf(b[i])
  {
    seq(|b|, i requires 0 <= i < |b| => UnitOf(b[i]))
  }

  lemma {:induction false} ByteUnit(b: bv8)
    ensures UnitOf(b) <= 255 && LowByte(UnitOf(b)) == b
  {
  }

  lemma {:induction false} LowBytesOfLatin1(b: Bytes)
    ensures LowBytes(Latin1(b)) == b
  {
    forall i | 0 <= i < |b| ensures LowBytes(Latin1(b))[i] == b[i] { ByteUnit(b[i]); }
  }

  lemma {:induction false} Latin1IsNarrow(b: Bytes)
    ensures forall u | u in Latin1(b) :: Narrow(u)
  {
    forall u | u in Latin1(b) ensures Narrow(u) {
      var i :| 0 <= i < |b| && Latin1(b)[i] == u;
      ByteUnit(b[i]);
    }
  }

  lemma {:induction false} BtoaOfLatin1(b: Bytes)
    ensures Btoa(Latin1(b)) == Some(Standard64(b))
  {
    Latin1IsNarrow(b);
    LowBytesOfLatin1(b);
  }

  lemma {:induction false} StripsPadding(t: Text, n: nat)
    requires t == [] || t[|t| - 1] != EQUALS
    ensures WithoutTrailingEquals(t + Repeat(EQUALS, n)) == t
  {
    var padded := t + Repeat(EQUALS, n);
    if n == 0 {
      assert padded == t;
    } else {
      assert padded[..|padded| - 1] == t + Repeat(EQUALS, n - 1);
      StripsPadding(t, n - 1);
    }
  }

  function Url(u: Unit): Unit {
    if u == PLUS then DASH else if u == SLASH then UNDERSCORE else u
  }

  lemma {:induction false} UrlFacts(v: bv6)
    ensures Url(Letter(v)) == UrlLetter(v) && UrlLetter(v) != EQUALS
  {
  }

  lemma {:induction false} UrlOfStandard(b: Bytes)
    ensures WithoutTrailingEquals(ReplaceAll(ReplaceAll(Standard64(b), PLUS, DASH), SLASH, UNDERSCORE)) == Encoded(b)
  {
    var n := (3 - |b| % 3) % 3;
    var s := Sextets(b);
    var r := ReplaceAll(ReplaceAll(Letters(s) + Repeat(EQUALS, n), PLUS, DASH), SLASH, UNDERSCORE);
    forall i | 0 <= i < |s| ensures r[i] == Encoded(b)[i] && Encoded(b)[i] != EQUALS {
      UrlFacts(s[i]);
      assert r[i] == Url(Letter(s[i]));
    }
    assert r == Encoded(b) + Repeat(EQUALS, n);
    StripsPadding(Encoded(b), n);
  }

  method Base64UrlOf(bytes: Bytes) returns (t: Text)
    ensures t == Encoded(bytes)
  {
    var binary := [];
    for i := 0 to |bytes|
      invariant binary == Latin1(bytes[..i])
    {
      binary := binary + [UnitOf(bytes[i])];
    }
    assert bytes[..|bytes|] == bytes;
    BtoaOfLatin1(bytes);
    UrlOfStandard(bytes);
    t := WithoutTrailingEquals(ReplaceAll(ReplaceAll(Btoa(binary).value, PLUS, DASH), SLASH, UNDERSCORE));
  }

  function Base64UrlBytes(value: Text): Option<Bytes> {
    Atob(ReplaceAll(ReplaceAll(value, DASH, PLUS), UNDERSCORE, SLASH) + Repeat(EQUALS, (4 - |value| % 4) % 4))
  }

  lemma {:induction false} NoWhite(t: Text)
    requires forall u | u in t :: !IsWhite(u)
    ensures WithoutWhite(t) == t
  {
    if t != [] { NoWhite(t[1..]); }
  }

  function Standard(u: Unit): Unit {
    if u == DASH then PLUS else if u == UNDERSCORE then SLASH else u
  }

  lemma {:induction false} LetterFacts(v: bv6)
    ensures Standard(UrlLetter(v)) == Letter(v) && !IsWhite(Letter(v)) && Letter(v) != EQUALS
  {
  }

  lemma {:induction false} StandardOfEncoded(b: Bytes)
    ensures ReplaceAll(ReplaceAll(Encoded(b), DASH, PLUS), UNDERSCORE, SLASH) == Letters(Sextets(b))
  {
    var std := ReplaceAll(ReplaceAll(Encoded(b), DASH, PLUS), UNDERSCORE, SLASH);
    forall i | 0 <= i < |std| ensures std[i] == Letter(Sextets(b)[i]) {
      LetterFacts(Sextets(b)[i]);
      assert std[i] == Standard(Encoded(b)[i]);
    }
  }

  lemma {:induction false} LettersAreNotWhite(s: seq<bv6>)
    ensures forall u | u in Letters(s) :: !IsWhite(u) && u != EQUALS
  {
    forall u | u in Letters(s) ensures !IsWhite(u) && u != EQUALS {
      var i :| 0 <= i < |s| && Letters(s)[i] == u;
      LetterFacts(s[i]);
    }
  }

  lemma {:induction false} PaddingGoes(t: Text, pad: nat)
    requires |t| % 4 != 1 && pad == (4 - |t| % 4) % 4 && EQUALS !in t
    ensures WithoutPadding(t + Repeat(EQUALS, pad)) == t
  {
    var text := t + Repeat(EQUALS, pad);
    assert t != [] ==> t[|t| - 1] in t;
    assert pad == 0 ==> text == t;
    assert text[..|t|] == t;
  }

  lemma {:induction false} AtobOfLetters(s: seq<bv6>, pad: nat)
    requires |s| % 4 != 1 && pad == (4 - |s| % 4) % 4
    ensures Atob(Letters(s) + Repeat(EQUALS, pad)) == Some(Octets(s))
  {
    LettersAreNotWhite(s);
    assert forall u | u in Repeat(EQUALS, pad) :: !IsWhite(u);
    NoWhite(Letters(s) + Repeat(EQUALS, pad));
    PaddingGoes(Letters(s), pad);
    ValuesOfLetters(s);
  }

  /** Decoding undoes encoding, for every byte sequence. */
  lemma {:induction false} DecodesWhatWasEncoded(b: Bytes)
    ensures Base64UrlBytes(Encoded(b)) == Some(b)
  {
    StandardOfEncoded(b);
    AtobOfLetters(Sextets(b), (4 - |Encoded(b)| % 4) % 4);
    OctetsOfSextets(b);
  }

  /** Different tokens stay different. */
  lemma {:induction false} EncodedInjective(a: Bytes, b: Bytes)
    requires Encoded(a) == Encoded(b)
    ensures a == b
  {
    DecodesWhatWasEncoded(a);
    DecodesWhatWasEncoded(b);
  }

  predicate IsIdUnit(u: Unit) {
    65 <= u <= 90 || 97 <= u <= 122 || 48 <= u <= 57 || u == DASH || u == UNDERSCORE
  }

  /** PAGE_ID_RE. */
  predicate IsPageId(t: Text) { |t| == 22 && forall u | u in t :: IsIdUnit(u) }

  lemma {:induction false} EncodedAlphabet(b: Bytes)
    ensures forall u | u in Encoded(b) :: IsIdUnit(u)
  {
    forall u | u in Encoded(b) ensures IsIdUnit(u) {
      var i :| 0 <= i < |Sextets(b)| && Encoded(b)[i] == u;
      assert u == UrlLetter(Sextets(b)[i]);
    }
  }

  /** A random token is a page id exactly when it has 16 bytes. */
  lemma {:induction false} TokenIsPageId(b: Bytes)
    ensures IsPageId(Encoded(b)) <==> |b| == 16
  {
    EncodedAlphabet(b);
  }

  /* ---- timingSafeEqual ---- */

  method TimingSafeEqual(a: Text, b: Text) returns (equal: bool)
    ensures equal == (a == b)
  {
    if |a| != |b| { return false; }
    var difference: bv16 := 0;
    for i := 0 to |a|
      invariant difference == 0 <==> a[..i] == b[..i]
    {
      assert a[..i + 1] == a[..i] + [a[i]] && b[..i + 1] == b[..i] + [b[i]];
      difference := difference | (a[i] ^ b[i]);
    }
    assert a[..|a|] == a && b[..|b|] == b;
    return difference == 0;
  }
}
