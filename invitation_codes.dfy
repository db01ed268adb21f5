/**
 * Daily six-digit invitation codes, for users and for teams. A code is
 * derived from an HMAC-SHA256 digest of the message "<id>:<YYYY-MM-DD>":
 * the first four digest bytes read as a big-endian integer, reduced modulo
 * 1,000,000 and written as six zero-padded decimal digits. Validation
 * derives the expected code again and compares.
 *
 * The HMAC is a function parameter `mac` from (secret key, message) to the
 * digest bytes, and the current UTC date is the parameter `today`, already
 * formatted as YYYY-MM-DD; nothing here depends on what the hash computes.
 */
module InvitationCodes {
  import opened Results

  type Byte = b: int | 0 <= b < 256

  /** HMAC-SHA256: secret key and message to digest. */
  type Mac = (string, string) -> seq<Byte>

  /** The user engine's key when INVITATION_SECRET_KEY is unset. */
  const USER_SECRET_DEFAULT: string := "default-secret-key-change-in-production"
  /** The team engine's key when TEAM_INVITATION_SECRET_KEY is unset. */
  const TEAM_SECRET_DEFAULT: string := "default-team-invitation-secret-key-change-in-production"

  const CODE_MODULUS: nat := 1000000
  const CODE_LENGTH: nat := 6

  // ---------------------------------------------------------------------
  // Decimal text
  // ---------------------------------------------------------------------

  function Pow10(n: nat): nat {
    if n == 0 then 1 else 10 * Pow10(n - 1)
  }

  predicate IsDigit(c: char) {
    '0' <= c <= '9'
  }

  predicate AllDigits(s: string) {
    forall i :: 0 <= i < |s| ==> IsDigit(s[i])
  }

  function DigitChar(d: nat): char
    requires d < 10
  {
    ('0' as int + d) as char
  }

  function DigitValue(c: char): nat
    requires IsDigit(c)
  {
    c as int - '0' as int
  }

  /**
   * `f"{n:0<width>d}"` for a number that has at most `width` digits: its
   * decimal digits, zero-padded on the left to exactly `width`.
   */
  function Pad(n: nat, width: nat): (s: string)
    requires n < Pow10(width)
    ensures |s| == width
    ensures AllDigits(s)
  {
    if width == 0 then []
    else Pad(n / 10, width - 1) + [DigitChar(n % 10)]
  }

  /** `int(s)` for a string of decimal digits. */
  function ParseDecimal(s: string): nat
    requires AllDigits(s)
  {
    if s == [] then 0
    else ParseDecimal(s[..|s| - 1]) * 10 + DigitValue(s[|s| - 1])
  }

  /** Reading the padded digits back gives the number, when it fits in the width. */
  lemma {:induction false} PadRoundTrip(n: nat, width: nat)
    requires n < Pow10(width)
    ensures ParseDecimal(Pad(n, width)) == n
  {
    if width > 0 {
      var s := Pad(n, width);
      assert s[..|s| - 1] == Pad(n / 10, width - 1);
      PadRoundTrip(n / 10, width - 1);
    }
  }

  /** Every digit string of length `width` is the padding of the number it spells, and that number fits. */
  lemma {:induction false} ParseRoundTrip(s: string)
    requires AllDigits(s)
    ensures ParseDecimal(s) < Pow10(|s|)
    ensures Pad(ParseDecimal(s), |s|) == s
  {
    if s != [] {
      var init := s[..|s| - 1];
      ParseRoundTrip(init);
      var v := ParseDecimal(s);
      var d := DigitValue(s[|s| - 1]);
      assert v == ParseDecimal(init) * 10 + d;
      assert v / 10 == ParseDecimal(init) && v % 10 == d;
      assert DigitChar(d) == s[|s| - 1];
      assert s == init + [s[|s| - 1]];
    }
  }

  /** Two numbers below 10^width pad to the same text only if they are equal. */
  lemma PadInjective(a: nat, b: nat, width: nat)
    requires a < Pow10(width) && b < Pow10(width)
    ensures Pad(a, width) == Pad(b, width) <==> a == b
  {
    PadRoundTrip(a, width);
    PadRoundTrip(b, width);
  }

  /** `str(n)` for a natural number: no leading zeros. */
  function NatToString(n: nat): (s: string)
    ensures s != [] && AllDigits(s)
  {
    if n < 10 then [DigitChar(n)] else NatToString(n / 10) + [DigitChar(n % 10)]
  }

  /** `str(i)`, with a leading minus sign for negative numbers. */
  function IntToString(i: int): string {
    if i < 0 then "-" + NatToString(-i) else NatToString(i)
  }

  lemma {:induction false} NatToStringRoundTrip(n: nat)
    ensures ParseDecimal(NatToString(n)) == n
  {
    if n >= 10 {
      var s := NatToString(n);
      assert s[..|s| - 1] == NatToString(n / 10);
      NatToStringRoundTrip(n / 10);
    }
  }

  /** The printed form starts with a minus sign exactly for negative numbers. */
  lemma SignFirst(i: int)
    ensures IntToString(i) != [] && (IntToString(i)[0] == '-' <==> i < 0)
  {
    if i >= 0 {
      assert IsDigit(NatToString(i)[0]);
    }
  }

  /** Different integers print differently. */
  lemma IntToStringInjective(a: int, b: int)
    requires IntToString(a) == IntToString(b)
    ensures a == b
  {
    SignFirst(a);
    SignFirst(b);
    if a < 0 {
      var x := IntToString(a);
      assert NatToString(-a) == x[1..] by { assert x == "-" + NatToString(-a); }
      assert NatToString(-b) == x[1..] by { assert x == "-" + NatToString(-b); }
      NatToStringInjective(-a, -b);
    } else {
      NatToStringInjective(a, b);
    }
  }

  lemma NatToStringInjective(m: nat, n: nat)
    requires NatToString(m) == NatToString(n)
    ensures m == n
  {
    NatToStringRoundTrip(m);
    NatToStringRoundTrip(n);
  }

  // ---------------------------------------------------------------------
  // The derivation
  // ---------------------------------------------------------------------

  /** `f"{id}:{date}"`. */
  function Message(id: int, date: string): string {
    IntToString(id) + ":" + date
  }

  /** Position of the first colon in `s` (or `|s|` when there is none). */
  function FirstColon(s: string): nat {
    if s == [] || s[0] == ':' then 0 else 1 + FirstColon(s[1..])
  }

  /** A colon-free prefix ends exactly where the first colon is. */
  lemma {:induction false} FirstColonAfter(x: string, rest: string)
    requires forall k :: 0 <= k < |x| ==> x[k] != ':'
    ensures FirstColon(x + ":" + rest) == |x|
  {
    if x != [] {
      assert (x + ":" + rest)[1..] == x[1..] + ":" + rest;
      FirstColonAfter(x[1..], rest);
    }
  }

  /** The printed id holds no colon. */
  lemma IdHasNoColon(i: int)
    ensures forall k :: 0 <= k < |IntToString(i)| ==> IntToString(i)[k] != ':'
  {
    var n := NatToString(if i < 0 then -i else i);
    assert forall k :: 0 <= k < |n| ==> IsDigit(n[k]);
  }

  /** The message determines both the id and the date. */
  lemma MessageInjective(a: int, da: string, b: int, db: string)
    requires Message(a, da) == Message(b, db)
    ensures a == b && da == db
  {
    var x, y := IntToString(a), IntToString(b);
    var m := Message(a, da);
    IdHasNoColon(a);
    IdHasNoColon(b);
    FirstColonAfter(x, da);
    FirstColonAfter(y, db);
    assert x == m[..|x|] == y;
    assert da == m[|x| + 1..] == db;
    IntToStringInjective(a, b);
  }

  /** `int.from_bytes(bs, 'big')`. */
  function BigEndian(bs: seq<Byte>): nat {
    if bs == [] then 0 else BigEndian(bs[..|bs| - 1]) * 256 + bs[|bs| - 1]
  }

  /** `signature[:4]`: the first four bytes, or all of them if there are fewer. */
  function Head4(digest: seq<Byte>): seq<Byte> {
    if |digest| <= 4 then digest else digest[..4]
  }

  /** The code's integer value. */
  function CodeValue(digest: seq<Byte>): nat {
    BigEndian(Head4(digest)) % CODE_MODULUS
  }

  /** `f"{code_int:06d}"` of the digest's code value. */
  function Encode(digest: seq<Byte>): string {
    Pad(CodeValue(digest), CODE_LENGTH)
  }

  /** `generate_code(id)` on the day `today`, for the engine whose secret is `key`. */
  function GenerateCode(mac: Mac, key: string, id: int, today: string): string {
    Encode(mac(key, Message(id, today)))
  }

  /**
   * A generated code is six decimal digits, and read back as a number it is
   * the first four digest bytes, big-endian, modulo 1,000,000.
   */
  lemma GenerateCodeFormat(mac: Mac, key: string, id: int, today: string)
    ensures |GenerateCode(mac, key, id, today)| == CODE_LENGTH
    ensures AllDigits(GenerateCode(mac, key, id, today))
    ensures ParseDecimal(GenerateCode(mac, key, id, today)) ==
      BigEndian(Head4(mac(key, Message(id, today)))) % CODE_MODULUS
    ensures ParseDecimal(GenerateCode(mac, key, id, today)) < CODE_MODULUS
  {
    PadRoundTrip(CodeValue(mac(key, Message(id, today))), CODE_LENGTH);
  }

  /** The integer the digest prefix spells is below 2^32. */
  lemma {:induction false} BigEndianBound(bs: seq<Byte>)
    ensures BigEndian(bs) < Pow256(|bs|)
  {
    if bs != [] {
      BigEndianBound(bs[..|bs| - 1]);
    }
  }

  function Pow256(n: nat): nat {
    if n == 0 then 1 else 256 * Pow256(n - 1)
  }

  lemma Head4Bound(digest: seq<Byte>)
    ensures BigEndian(Head4(digest)) < 0x1_0000_0000
  {
    BigEndianBound(Head4(digest));
    assert Pow256(4) == 0x1_0000_0000;
    if |digest| < 4 {
      assert Pow256(|digest|) <= Pow256(4) by {
        var k := |digest|;
        assert k == 0 || k == 1 || k == 2 || k == 3;
      }
    }
  }

  // ---------------------------------------------------------------------
  // Validation
  // ---------------------------------------------------------------------

  predicate IsAscii(s: string) {
    forall i :: 0 <= i < |s| ==> s[i] as int < 128
  }

  /** The failure `hmac.compare_digest` raises: a str argument with a non-ASCII character. */
  datatype CompareError = NonAsciiArgument

  /** `hmac.compare_digest(a, b)` on two str values. */
  function CompareDigest(a: string, b: string): Result<bool, CompareError> {
    if IsAscii(a) && IsAscii(b) then Ok(a == b) else Err(NonAsciiArgument)
  }

  /** `validate_code_for_date`: derive the code for `date` and compare; a raised exception reads as false. */
  function ValidateCodeForDate(mac: Mac, key: string, id: int, code: string, date: string): bool {
    var expected := Encode(mac(key, Message(id, date)));
    match CompareDigest(code, expected)
    case Ok(same) => same
    case Err(_) => false
  }

  /** `validate_code`: compare with what `generate_code` returns today; a raised exception reads as false. */
  function ValidateCode(mac: Mac, key: string, id: int, code: string, today: string): bool {
    match CompareDigest(code, GenerateCode(mac, key, id, today))
    case Ok(same) => same
    case Err(_) => false
  }

  lemma DigitsAreAscii(s: string)
    requires AllDigits(s)
    ensures IsAscii(s)
  {
  }

  /** A code validates for a date exactly when it is the code generated on that date. */
  lemma ValidateCodeForDateIff(mac: Mac, key: string, id: int, code: string, date: string)
    ensures ValidateCodeForDate(mac, key, id, code, date) <==> code == GenerateCode(mac, key, id, date)
  {
    DigitsAreAscii(GenerateCode(mac, key, id, date));
  }

  /** `validate_code` accepts exactly today's generated code; it agrees with `validate_code_for_date` on today. */
  lemma ValidateCodeIff(mac: Mac, key: string, id: int, code: string, today: string)
    ensures ValidateCode(mac, key, id, code, today) <==> code == GenerateCode(mac, key, id, today)
    ensures ValidateCode(mac, key, id, code, today) == ValidateCodeForDate(mac, key, id, code, today)
  {
    DigitsAreAscii(GenerateCode(mac, key, id, today));
  }

  /** The code generated today validates today, by either validator. */
  lemma GeneratedCodeValidates(mac: Mac, key: string, id: int, today: string)
    ensures ValidateCode(mac, key, id, GenerateCode(mac, key, id, today), today)
    ensures ValidateCodeForDate(mac, key, id, GenerateCode(mac, key, id, today), today)
  {
    ValidateCodeIff(mac, key, id, GenerateCode(mac, key, id, today), today);
  }

  /**
   * One id's code is accepted for another id exactly when the two digests
   * agree on their code value: the messages themselves always differ, so
   * rejection of the wrong id rests on the hash alone.
   */
  lemma OtherIdAcceptedIff(mac: Mac, key: string, id: int, other: int, today: string)
    requires id != other
    ensures Message(id, today) != Message(other, today)
    ensures ValidateCode(mac, key, other, GenerateCode(mac, key, id, today), today) <==>
      CodeValue(mac(key, Message(id, today))) == CodeValue(mac(key, Message(other, today)))
  {
    if Message(id, today) == Message(other, today) {
      MessageInjective(id, today, other, today);
    }
    ValidateCodeIff(mac, key, other, GenerateCode(mac, key, id, today), today);
    PadInjective(CodeValue(mac(key, Message(id, today))), CodeValue(mac(key, Message(other, today))), CODE_LENGTH);
  }

  /** Yesterday's code is accepted for today exactly when the two days' digests agree on their code value. */
  lemma OtherDateAcceptedIff(mac: Mac, key: string, id: int, day: string, otherDay: string)
    requires day != otherDay
    ensures Message(id, day) != Message(id, otherDay)
    ensures ValidateCodeForDate(mac, key, id, GenerateCode(mac, key, id, day), otherDay) <==>
      CodeValue(mac(key, Message(id, day))) == CodeValue(mac(key, Message(id, otherDay)))
  {
    if Message(id, day) == Message(id, otherDay) {
      MessageInjective(id, day, id, otherDay);
    }
    ValidateCodeForDateIff(mac, key, id, GenerateCode(mac, key, id, day), otherDay);
    PadInjective(CodeValue(mac(key, Message(id, day))), CodeValue(mac(key, Message(id, otherDay))), CODE_LENGTH);
  }

  /** A code with a non-ASCII character makes `compare_digest` raise, and both validators answer false. */
  lemma NonAsciiCodeRefused(mac: Mac, key: string, id: int, code: string, today: string)
    requires !IsAscii(code)
    ensures CompareDigest(code, GenerateCode(mac, key, id, today)) == Err(NonAsciiArgument)
    ensures !ValidateCode(mac, key, id, code, today)
    ensures !ValidateCodeForDate(mac, key, id, code, today)
  {
  }

  /** The request models accept an invitation code of exactly six characters. */
  predicate CodeFieldOk(s: string) {
    CODE_LENGTH <= |s| <= CODE_LENGTH
  }

  /** Every generated code fits the request field. */
  lemma GeneratedCodeFitsField(mac: Mac, key: string, id: int, today: string)
    ensures CodeFieldOk(GenerateCode(mac, key, id, today))
  {
  }

  // ---------------------------------------------------------------------
  // Examples
  // ---------------------------------------------------------------------

  /** A digest starting 00 0F 42 40 spells exactly 1,000,000, whose code is "000000". */
  lemma MillionEncodesToZeros(digest: seq<Byte>)
    requires |digest| >= 4 && digest[..4] == [0x00, 0x0F, 0x42, 0x40]
    ensures Encode(digest) == "000000"
  {
    assert Head4(digest) == [0x00, 0x0F, 0x42, 0x40];
    assert BigEndian([0x00, 0x0F, 0x42, 0x40]) == 1000000 by {
      assert [0x00, 0x0F, 0x42, 0x40][..3] == [0x00, 0x0F, 0x42];
      assert [0x00, 0x0F, 0x42][..2] == [0x00, 0x0F];
      assert [0x00, 0x0F][..1] == [0x00];
    }
  }

  /** A digest starting FF FF FF FF spells 4,294,967,295, whose code is "967295". */
  lemma AllOnesEncoding(digest: seq<Byte>)
    requires |digest| >= 4 && digest[..4] == [0xFF, 0xFF, 0xFF, 0xFF]
    ensures Encode(digest) == "967295"
  {
    assert Pad(967295, 6) == "967295" by {
      assert Pad(9, 1) == "9";
      assert Pad(96, 2) == "96";
      assert Pad(967, 3) == "967";
      assert Pad(9672, 4) == "9672";
      assert Pad(96729, 5) == "96729";
    }
    assert Head4(digest) == [0xFF, 0xFF, 0xFF, 0xFF];
    assert BigEndian([0xFF, 0xFF, 0xFF, 0xFF]) == 0xFFFF_FFFF by {
      assert [0xFF, 0xFF, 0xFF, 0xFF][..3] == [0xFF, 0xFF, 0xFF];
      assert [0xFF, 0xFF, 0xFF][..2] == [0xFF, 0xFF];
      assert [0xFF, 0xFF][..1] == [0xFF];
    }
  }
}
