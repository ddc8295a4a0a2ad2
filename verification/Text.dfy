/** JavaScript strings as sequences of UTF-16 code units: their order, decimal integers, and JSON string quoting. */
module Text {
  import opened Sequences

  type CodeUnit = u: int | 0 <= u < 0x1_0000
  type Text = seq<CodeUnit>

  const QUOTE: CodeUnit := 34
  const BACKSLASH: CodeUnit := 92
  const MINUS: CodeUnit := 45
  const ZERO: CodeUnit := 48
  const LETTER_U: CodeUnit := 117

  // ---- The < operator on strings ----

  predicate Less(a: Text, b: Text) {
    b != [] && (a == [] || a[0] < b[0] || (a[0] == b[0] && Less(a[1..], b[1..])))
  }

  lemma {:induction false} LessTransitive(a: Text, b: Text, c: Text)
    requires Less(a, b) && Less(b, c)
    ensures Less(a, c)
  {
    if a != [] && a[0] == b[0] == c[0] {
      LessTransitive(a[1..], b[1..], c[1..]);
    }
  }

  lemma {:induction false} LessAsymmetric(a: Text, b: Text)
    requires Less(a, b)
    ensures !Less(b, a) && a != b
  {
    if a != [] && a[0] == b[0] {
      LessAsymmetric(a[1..], b[1..]);
    }
  }

  lemma {:induction false} LessTotal(a: Text, b: Text)
    ensures Less(a, b) || Less(b, a) || a == b
  {
    if a != [] && b != [] && a[0] == b[0] {
      LessTotal(a[1..], b[1..]);
      assert a == [a[0]] + a[1..] && b == [b[0]] + b[1..];
    }
  }

  // ---- Integers in decimal: String(n) and BigInt(s) ----

  function Digits(n: nat): (t: Text)
    ensures t != [] && forall u | u in t :: ZERO <= u <= ZERO + 9
  {
    if n < 10 then [ZERO + n] else Digits(n / 10) + [ZERO + n % 10]
  }

  function Decimal(n: int): (t: Text)
    ensures t != []
  {
    if n < 0 then [MINUS] + Digits(-n) else Digits(n)
  }

  function DigitsValue(t: Text): Option<nat> {
    if t == [] then Some(0)
    else
      var d, rest := t[|t| - 1], DigitsValue(t[..|t| - 1]);
      if rest.Some? && ZERO <= d <= ZERO + 9 then Some(10 * rest.value + (d - ZERO)) else None
  }

  /** The value of a decimal literal with an optional minus sign. */
  function DecimalValue(t: Text): Option<int> {
    var negative := t != [] && t[0] == MINUS;
    var digits := if negative then t[1..] else t;
    if digits == [] || DigitsValue(digits).None? then None
    else
      var n: int := DigitsValue(digits).value;
      Some(if negative then -n else n)
  }

  lemma {:induction false} DigitsRoundTrip(n: nat)
    ensures DigitsValue(Digits(n)) == Some(n)
  {
    if n < 10 {
      assert DigitsValue([ZERO + n][..0]) == Some(0);
    } else {
      DigitsRoundTrip(n / 10);
      assert Digits(n)[..|Digits(n)| - 1] == Digits(n / 10);
    }
  }

  /** Printing an integer, negative ones included, and reading it back is the identity. */
  lemma DecimalRoundTrip(n: int)
    ensures DecimalValue(Decimal(n)) == Some(n)
  {
    if n < 0 {
      DigitsRoundTrip(-n);
      assert Decimal(n)[1..] == Digits(-n);
    } else {
      DigitsRoundTrip(n);
      assert Digits(n)[0] in Digits(n);
    }
  }

  // ---- JSON string quoting (section 7 of RFC 8259, as JSON.stringify applies it) ----

  predicate IsHigh(u: CodeUnit) { 0xD800 <= u < 0xDC00 }

  predicate IsLow(u: CodeUnit) { 0xDC00 <= u < 0xE000 }

  function HexDigit(d: int): CodeUnit
    requires 0 <= d < 16
  {
    if d < 10 then ZERO + d else 87 + d
  }

  function HexValue(u: CodeUnit): Option<nat> {
    if ZERO <= u <= ZERO + 9 then Some(u - ZERO)
    else if 97 <= u <= 102 then Some(u - 87)
    else if 65 <= u <= 70 then Some(u - 55)
    else None
  }

  function Hex4(u: CodeUnit): Text {
    [HexDigit(u / 4096), HexDigit(u / 256 % 16), HexDigit(u / 16 % 16), HexDigit(u % 16)]
  }

  /** The letter after the backslash for the units that have a two-character escape. */
  function ShortEscape(u: CodeUnit): Option<CodeUnit> {
    if u == QUOTE || u == BACKSLASH then Some(u)
    else if u == 8 then Some(98)
    else if u == 9 then Some(116)
    else if u == 10 then Some(110)
    else if u == 12 then Some(102)
    else if u == 13 then Some(114)
    else None
  }

  function ShortUnescape(letter: CodeUnit): Option<CodeUnit> {
    if letter == QUOTE || letter == BACKSLASH || letter == 47 then Some(letter)
    else if letter == 98 then Some(8)
    else if letter == 116 then Some(9)
    else if letter == 110 then Some(10)
    else if letter == 102 then Some(12)
    else if letter == 114 then Some(13)
    else None
  }

  function EscapeUnit(u: CodeUnit): Text {
    if ShortEscape(u).Some? then [BACKSLASH, ShortEscape(u).value]
    else if u < 0x20 || IsHigh(u) || IsLow(u) then [BACKSLASH, LETTER_U] + Hex4(u)
    else [u]
  }

  /** Surrogate pairs are kept; lone surrogates and control characters are escaped. */
  function QuoteBody(s: Text): Text {
    if s == [] then []
    else if |s| > 1 && IsHigh(s[0]) && IsLow(s[1]) then [s[0], s[1]] + QuoteBody(s[2..])
    else EscapeUnit(s[0]) + QuoteBody(s[1..])
  }

  /** Reads one possibly escaped unit; the result is the unit and how much text it took. */
  function ReadUnit(t: Text): (r: Option<(CodeUnit, nat)>)
    ensures r.Some? ==> 0 < r.value.1 <= |t|
  {
    if t == [] || t[0] < 0x20 || t[0] == QUOTE then None
    else if t[0] != BACKSLASH then Some((t[0], 1))
    else if |t| < 2 then None
    else if t[1] == LETTER_U then
      if |t| < 6 then None
      else
        var a, b, c, d := HexValue(t[2]), HexValue(t[3]), HexValue(t[4]), HexValue(t[5]);
        if a.Some? && b.Some? && c.Some? && d.Some?
        then Some((((a.value * 16 + b.value) * 16 + c.value) * 16 + d.value, 6))
        else None
    else match ShortUnescape(t[1]) case Some(u) => Some((u, 2)) case None => None
  }

  /** Reads up to and over the closing quote. */
  function Unquote(t: Text): (r: Option<(Text, Text)>)
    ensures r.Some? ==> |r.value.1| < |t|
  {
    if t != [] && t[0] == QUOTE then Some(([], t[1..]))
    else match ReadUnit(t)
      case None => None
      case Some((u, n)) =>
        match Unquote(t[n..])
        case None => None
        case Some((s, rest)) => Some(([u] + s, rest))
  }

  lemma HexDigitRead(d: int)
    requires 0 <= d < 16
    ensures HexValue(HexDigit(d)) == Some(d)
  {
  }

  lemma HexDigitsOf(u: CodeUnit)
    ensures 0 <= u / 4096 < 16 && 0 <= u / 256 % 16 < 16 && 0 <= u / 16 % 16 < 16 && 0 <= u % 16 < 16
    ensures ((u / 4096 * 16 + u / 256 % 16) * 16 + u / 16 % 16) * 16 + u % 16 == u
  {
    assert u / 256 == u / 16 / 16 && u / 4096 == u / 256 / 16;
    assert u / 256 == u / 4096 * 16 + u / 256 % 16;
    assert u / 16 == u / 256 * 16 + u / 16 % 16;
  }

  lemma ReadHexEscape(u: CodeUnit, rest: Text)
    ensures ReadUnit([BACKSLASH, LETTER_U] + Hex4(u) + rest) == Some((u, 6))
  {
    var t := [BACKSLASH, LETTER_U] + Hex4(u) + rest;
    HexDigitsOf(u);
    HexDigitRead(u / 4096);
    HexDigitRead(u / 256 % 16);
    HexDigitRead(u / 16 % 16);
    HexDigitRead(u % 16);
    assert t[..2] == [BACKSLASH, LETTER_U] && t[2..6] == Hex4(u);
    assert t[2] == t[2..6][0] && t[3] == t[2..6][1] && t[4] == t[2..6][2] && t[5] == t[2..6][3];
  }

  lemma ReadShortEscape(u: CodeUnit, rest: Text)
    requires ShortEscape(u).Some?
    ensures ReadUnit([BACKSLASH, ShortEscape(u).value] + rest) == Some((u, 2))
  {
  }

  lemma ReadEscaped(u: CodeUnit, rest: Text)
    ensures ReadUnit(EscapeUnit(u) + rest) == Some((u, |EscapeUnit(u)|))
    ensures (EscapeUnit(u) + rest)[0] != QUOTE
  {
    if ShortEscape(u).Some? {
      ReadShortEscape(u, rest);
    } else if u < 0x20 || IsHigh(u) || IsLow(u) {
      ReadHexEscape(u, rest);
    }
  }

  lemma QuotedText(e: Text, body: Text, rest: Text)
    ensures (e + body) + [QUOTE] + rest == e + (body + [QUOTE] + rest)
  {
  }

  lemma UnquoteFront(e: Text, u: CodeUnit, tail: Text, s: Text, rest: Text)
    requires ReadUnit(e + tail) == Some((u, |e|)) && (e + tail)[0] != QUOTE
    requires Unquote(tail) == Some((s, rest))
    ensures Unquote(e + tail) == Some(([u] + s, rest))
  {
    assert (e + tail)[|e|..] == tail;
  }

  /** One unit, read off the front of a quoted text whose remainder can be read. */
  lemma UnquoteUnit(e: Text, u: CodeUnit, body: Text, s: Text, rest: Text)
    requires var tail := body + [QUOTE] + rest;
      && ReadUnit(e + tail) == Some((u, |e|)) && (e + tail)[0] != QUOTE
      && Unquote(tail) == Some((s, rest))
    ensures Unquote((e + body) + [QUOTE] + rest) == Some(([u] + s, rest))
  {
    UnquoteFront(e, u, body + [QUOTE] + rest, s, rest);
    QuotedText(e, body, rest);
  }

  /** Quoting any string and reading it back is the identity, whatever follows the closing quote. */
  lemma {:induction false} QuoteRoundTrip(s: Text, rest: Text)
    ensures Unquote(QuoteBody(s) + [QUOTE] + rest) == Some((s, rest))
    decreases s
  {
    if s == [] {
      assert ([QUOTE] + rest)[1..] == rest;
      assert QuoteBody(s) + [QUOTE] + rest == [QUOTE] + rest;
    } else if |s| > 1 && IsHigh(s[0]) && IsLow(s[1]) {
      QuotedPair(s, rest);
    } else {
      var body := QuoteBody(s[1..]);
      QuoteRoundTrip(s[1..], rest);
      ReadEscaped(s[0], body + [QUOTE] + rest);
      UnquoteUnit(EscapeUnit(s[0]), s[0], body, s[1..], rest);
      assert s == [s[0]] + s[1..];
    }
  }

  lemma ReadPlain(u: CodeUnit, tail: Text)
    requires u >= 0x20 && u != QUOTE && u != BACKSLASH
    ensures ReadUnit([u] + tail) == Some((u, 1)) && ([u] + tail)[0] != QUOTE
  {
  }

  lemma PairBody(s: Text)
    requires |s| > 1 && IsHigh(s[0]) && IsLow(s[1])
    ensures QuoteBody(s) == [s[0]] + ([s[1]] + QuoteBody(s[2..]))
  {
    assert [s[0], s[1]] + QuoteBody(s[2..]) == [s[0]] + ([s[1]] + QuoteBody(s[2..]));
  }

  lemma {:induction false} QuotedPair(s: Text, rest: Text)
    requires |s| > 1 && IsHigh(s[0]) && IsLow(s[1])
    ensures Unquote(QuoteBody(s) + [QUOTE] + rest) == Some((s, rest))
    decreases s, 0
  {
    var high, low, body, left := s[0], s[1], QuoteBody(s[2..]), s[2..];
    QuoteRoundTrip(left, rest);
    ReadPlain(low, body + [QUOTE] + rest);
    UnquoteUnit([low], low, body, left, rest);
    ReadPlain(high, ([low] + body) + [QUOTE] + rest);
    UnquoteUnit([high], high, [low] + body, [low] + left, rest);
    PairBody(s);
    assert s == [high] + ([low] + left);
  }
}
