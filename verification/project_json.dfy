/**
 * `JSON.stringify` and `JSON.parse` restricted to the one object the
 * project slot stores: `{name, description, timestamp, lastModified}`.
 * The writer produces exactly the text `JSON.stringify` produces for such
 * an object; the reader accepts that compact form and rejects other text.
 */
module ProjectJson {
  import opened JsValues
  import opened JsStrings

  /** The object held in `currentProject`; timestamps are `Date.now()` milliseconds. */
  datatype CurrentProject = CurrentProject(name: string, description: string, timestamp: nat, lastModified: nat)

  // ---------------------------------------------------------- numbers

  function DigitChar(d: nat): (c: char)
    requires d < 10
    ensures IsDigit(c)
  {
    (48 + d) as char
  }

  /** `String(n)` for an integer `n >= 0` below 10^21: its decimal digits, without leading zeros. */
  function NatDigits(n: nat): (r: string)
    ensures |r| >= 1 && AllDigits(r)
    ensures |r| > 1 ==> r[0] != '0'
  {
    if n < 10 then [DigitChar(n)] else NatDigits(n / 10) + [DigitChar(n % 10)]
  }

  lemma {:induction false} DigitsValueOfNatDigits(n: nat)
    ensures DigitsValue(NatDigits(n)) == n
  {
    if n >= 10 {
      DigitsValueOfNatDigits(n / 10);
      var ds := NatDigits(n);
      assert ds[..|ds| - 1] == NatDigits(n / 10);
    }
  }

  /**
   * A JSON number that is a non-negative integer written without fraction
   * or exponent: one or more digits and no leading zero. Other numbers are
   * rejected.
   */
  function ParseNat(s: string): (r: Option<(nat, string)>)
    ensures r.Some? ==> IsSuffix(r.value.1, s)
  {
    var k := DigitSpan(s);
    if k == 0 || (k > 1 && s[0] == '0') then None
    else Some((DigitsValue(s[..k]), s[k..]))
  }

  /** Reading back the digits of `n` gives `n` and stops where they end. */
  lemma ParseNatDigits(n: nat, rest: string)
    requires rest == [] || !IsDigit(rest[0])
    ensures ParseNat(NatDigits(n) + rest) == Some((n, rest))
  {
    var ds := NatDigits(n);
    DigitSpanOfDigits(ds, rest);
    DigitsValueOfNatDigits(n);
    assert (ds + rest)[..|ds|] == ds;
    assert (ds + rest)[|ds|..] == rest;
  }

  // ---------------------------------------------------------- strings

  function HexDigit(d: nat): (c: char)
    requires d < 16
  {
    if d < 10 then DigitChar(d) else (87 + d) as char
  }

  /** The value of a hexadecimal digit in either case, or `None`. */
  function HexValue(c: char): (r: Option<nat>)
    ensures r.Some? ==> r.value < 16
  {
    if '0' <= c <= '9' then Some(c as int - 48)
    else if 'a' <= c <= 'f' then Some(c as int - 87)
    else if 'A' <= c <= 'F' then Some(c as int - 55)
    else None
  }

  lemma HexValueOfDigit(d: nat)
    requires d < 16
    ensures HexValue(HexDigit(d)) == Some(d)
  {
  }

  /** The characters `JSON.stringify` writes after a backslash, and the characters they stand for. */
  const ShortEscapes: map<char, char> := map[
    '"' := '"', '\\' := '\\', '/' := '/', 'b' := '\U{0008}',
    'f' := '\U{000C}', 'n' := '\n', 'r' := '\r', 't' := '\t'
  ]

  /**
   * How `JSON.stringify` writes one character inside a string: quote and
   * backslash escaped, the five control characters with short escapes by
   * their letter, other control characters as `\u00` and two lower-case
   * hex digits, everything else as itself.
   */
  function EscapeChar(c: char): string {
    if c == '"' then ['\\', '"']
    else if c == '\\' then ['\\', '\\']
    else if c == '\U{0008}' then ['\\', 'b']
    else if c == '\U{000C}' then ['\\', 'f']
    else if c == '\n' then ['\\', 'n']
    else if c == '\r' then ['\\', 'r']
    else if c == '\t' then ['\\', 't']
    else if c < ' ' then ['\\', 'u', '0', '0', HexDigit(c as int / 16), HexDigit(c as int % 16)]
    else [c]
  }

  function Escape(s: string): string {
    if s == [] then [] else EscapeChar(s[0]) + Escape(s[1..])
  }

  /** `t` is the tail end of `s`. */
  ghost predicate IsSuffix(t: string, s: string) {
    |t| <= |s| && s[|s| - |t|..] == t
  }

  /** Adds `c` in front of the characters a successful parse produced. */
  function Prepend(c: char, r: Option<(string, string)>): Option<(string, string)> {
    if r.Some? then Some(([c] + r.value.0, r.value.1)) else None
  }

  /** The value of four hex digits at the front of `s`, if they are there. */
  function Hex4(s: string): Option<nat>
    requires |s| >= 4
  {
    var a :- HexValue(s[0]);
    var b :- HexValue(s[1]);
    var c :- HexValue(s[2]);
    var d :- HexValue(s[3]);
    Some(a * 4096 + b * 256 + c * 16 + d)
  }

  /**
   * The characters of a JSON string whose opening quote is already read,
   * and the text after its closing quote. A raw control character, an
   * unknown escape or a `\u` escape of a lone surrogate is rejected.
   */
  function ParseChars(s: string): (r: Option<(string, string)>)
    ensures r.Some? ==> IsSuffix(r.value.1, s) && |r.value.1| < |s|
    decreases |s|
  {
    if s == [] then None
    else if s[0] == '"' then Some(([], s[1..]))
    else if s[0] == '\\' then
      if |s| < 2 then None
      else if s[1] in ShortEscapes then Prepend(ShortEscapes[s[1]], ParseChars(s[2..]))
      else if s[1] == 'u' && |s| >= 6 then
        var v := Hex4(s[2..6]);
        if v.Some? && (v.value < 0xD800 || 0xE000 <= v.value) then
          Prepend(v.value as char, ParseChars(s[6..]))
        else None
      else None
    else if s[0] < ' ' then None
    else Prepend(s[0], ParseChars(s[1..]))
  }

  /** One escaped character is read back as that character. */
  lemma EscapeCharParse(c: char, t: string)
    ensures ParseChars(EscapeChar(c) + t) == Prepend(c, ParseChars(t))
  {
    if c == '"' || c == '\\' || c == '\U{0008}' || c == '\U{000C}' || c == '\n' || c == '\r' || c == '\t' {
      ShortEscapeParse(c, t);
    } else if c < ' ' {
      UnicodeEscapeParse(c, t);
    } else {
      var u := EscapeChar(c) + t;
      assert u[0] == c && u[1..] == t;
    }
  }

  lemma ShortEscapeParse(c: char, t: string)
    requires c == '"' || c == '\\' || c == '\U{0008}' || c == '\U{000C}' || c == '\n' || c == '\r' || c == '\t'
    ensures ParseChars(EscapeChar(c) + t) == Prepend(c, ParseChars(t))
  {
    var u := EscapeChar(c) + t;
    assert u[0] == '\\' && u[1] in ShortEscapes && ShortEscapes[u[1]] == c && u[2..] == t;
  }

  lemma UnicodeEscapeParse(c: char, t: string)
    requires c < ' ' && c != '\U{0008}' && c != '\U{000C}' && c != '\n' && c != '\r' && c != '\t'
    ensures ParseChars(EscapeChar(c) + t) == Prepend(c, ParseChars(t))
  {
    var u := EscapeChar(c) + t;
    var hi, lo := c as int / 16, c as int % 16;
    assert u[0] == '\\' && u[1] == 'u' && u[1] !in ShortEscapes && u[6..] == t;
    assert u[2..6] == ['0', '0', HexDigit(hi), HexDigit(lo)];
    HexValueOfDigit(hi);
    HexValueOfDigit(lo);
    assert Hex4(u[2..6]) == Some(c as int);
  }

  /** A string as written inside JSON text: escaped, closed by a quote, followed by `after`. */
  function StringThen(s: string, after: string): string {
    Escape(s) + (['"'] + after)
  }

  /** An escaped string followed by a quote is read back as the string, stopping after the quote. */
  lemma {:induction false} ParseEscaped(s: string, rest: string)
    ensures ParseChars(StringThen(s, rest)) == Some((s, rest))
  {
    if s == [] {
      ParseClosingQuote(s, rest);
    } else {
      ParseEscaped(s[1..], rest);
      ParseFirstEscaped(s, rest);
      assert [s[0]] + s[1..] == s;
    }
  }

  lemma ParseClosingQuote(s: string, rest: string)
    requires s == []
    ensures ParseChars(StringThen(s, rest)) == Some(([], rest))
  {
    var t := ['"'] + rest;
    assert StringThen(s, rest) == t;
    assert t[0] == '"' && t[1..] == rest;
  }

  lemma ParseFirstEscaped(s: string, rest: string)
    requires s != []
    ensures ParseChars(StringThen(s, rest)) == Prepend(s[0], ParseChars(StringThen(s[1..], rest)))
  {
    assert StringThen(s, rest) == EscapeChar(s[0]) + StringThen(s[1..], rest);
    EscapeCharParse(s[0], StringThen(s[1..], rest));
  }

  // ----------------------------------------------------------- object

  const NameKey: string := "{\"name\":\""
  const DescriptionKey: string := ",\"description\":\""
  const TimestampKey: string := ",\"timestamp\":"
  const LastModifiedKey: string := ",\"lastModified\":"

  /** `JSON.stringify(currentProject)`: an object opening with `{"name":"` and closed by `}`. */
  function Stringify(p: CurrentProject): (r: string)
    ensures |r| > |NameKey| && r[..|NameKey|] == NameKey && r[|r| - 1] == '}'
  {
    NameKey + StringThen(p.name, DescriptionKey + StringThen(p.description, TimestampKey + TimesText(p)))
  }

  /** The two timestamps and the closing brace, as written. */
  function TimesText(p: CurrentProject): string {
    NatDigits(p.timestamp) + (LastModifiedKey + (NatDigits(p.lastModified) + "}"))
  }

  /** The rest of `s` after the literal `lit`, if `s` starts with it. */
  function Expect(lit: string, s: string): (r: Option<string>)
    ensures r.Some? <==> |lit| <= |s| && s[..|lit|] == lit
    ensures r.Some? ==> s == lit + r.value
  {
    if |lit| <= |s| && s[..|lit|] == lit then Some(s[|lit|..]) else None
  }

  lemma ExpectLiteral(lit: string, rest: string)
    ensures Expect(lit, lit + rest) == Some(rest)
  {
    assert (lit + rest)[..|lit|] == lit;
    assert (lit + rest)[|lit|..] == rest;
  }

  /**
   * `JSON.parse(text)` for the compact text of a project object; `None`
   * for any other text. What it accepts is framed as `Stringify` writes:
   * it opens with `{"name":"` and closes with `}`.
   */
  function Parse(text: string): (r: Option<CurrentProject>)
    ensures r.Some? ==> |text| > |NameKey| && text[..|NameKey|] == NameKey && text[|text| - 1] == '}'
  {
    var a :- Expect(NameKey, text);
    var nameRest :- ParseChars(a);
    var b :- Expect(DescriptionKey, nameRest.1);
    var p :- ParseAfterDescriptionKey(b);
    Some(p.(name := nameRest.0))
  }

  /** The rest of the object after `"description":"`; the name is filled in by the caller. */
  function ParseAfterDescriptionKey(b: string): (r: Option<CurrentProject>)
    ensures r.Some? ==> |b| > 0 && b[|b| - 1] == '}'
  {
    var descriptionRest :- ParseChars(b);
    var c :- Expect(TimestampKey, descriptionRest.1);
    var times :- ParseTimes(c);
    Some(CurrentProject([], descriptionRest.0, times.0, times.1))
  }

  /** The two timestamps and the closing brace. */
  function ParseTimes(c: string): (r: Option<(nat, nat)>)
    ensures r.Some? ==> |c| > 0 && c[|c| - 1] == '}'
  {
    var timestampRest :- ParseNat(c);
    var d :- Expect(LastModifiedKey, timestampRest.1);
    var lastModifiedRest :- ParseNat(d);
    if lastModifiedRest.1 == "}" then Some((timestampRest.0, lastModifiedRest.0)) else None
  }

  lemma ParseTimesDigits(p: CurrentProject)
    ensures ParseTimes(TimesText(p)) == Some((p.timestamp, p.lastModified))
  {
    var r := LastModifiedKey + (NatDigits(p.lastModified) + "}");
    assert r[0] == ',';
    ParseNatDigits(p.timestamp, r);
    ExpectLiteral(LastModifiedKey, NatDigits(p.lastModified) + "}");
    ParseNatDigits(p.lastModified, "}");
  }

  lemma ParseAfterDescriptionKeyOf(p: CurrentProject)
    ensures ParseAfterDescriptionKey(StringThen(p.description, TimestampKey + TimesText(p)))
            == Some(p.(name := []))
  {
    ParseEscaped(p.description, TimestampKey + TimesText(p));
    ExpectLiteral(TimestampKey, TimesText(p));
    ParseTimesDigits(p);
  }

  /** Reading back what was written restores the project exactly. */
  lemma ParseStringify(p: CurrentProject)
    ensures Parse(Stringify(p)) == Some(p)
  {
    var r2 := DescriptionKey + StringThen(p.description, TimestampKey + TimesText(p));
    ExpectLiteral(NameKey, StringThen(p.name, r2));
    ParseEscaped(p.name, r2);
    ExpectLiteral(DescriptionKey, StringThen(p.description, TimestampKey + TimesText(p)));
    ParseAfterDescriptionKeyOf(p);
  }

  /** Distinct projects are written as distinct texts. */
  lemma StringifyInjective(p: CurrentProject, q: CurrentProject)
    requires Stringify(p) == Stringify(q)
    ensures p == q
  {
    ParseStringify(p);
    ParseStringify(q);
  }
}
