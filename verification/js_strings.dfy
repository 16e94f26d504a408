/**
 * The string operations the modelled code uses: `includes`, `trim`,
 * `split` on one character, and `Number` on unsigned decimal text.
 */
module JsStrings {
  import opened JsValues

  /** `sub` occurs in `s` starting at index `i`. */
  ghost predicate OccursAt(s: string, sub: string, i: nat) {
    i + |sub| <= |s| && s[i..i + |sub|] == sub
  }

  /** `s.includes(sub)`: a case-sensitive substring test. */
  function Includes(s: string, sub: string): bool
    decreases |s|
  {
    if |sub| > |s| then false
    else if s[..|sub|] == sub then true
    else Includes(s[1..], sub)
  }

  /** `Includes` agrees with the positional definition of a substring. */
  lemma IncludesIff(s: string, sub: string)
    ensures Includes(s, sub) <==> exists i: nat :: OccursAt(s, sub, i)
  {
    if Includes(s, sub) {
      var i := IncludesFound(s, sub);
    }
    forall i: nat | OccursAt(s, sub, i) ensures Includes(s, sub) {
      IncludesAt(s, sub, i);
    }
  }

  /** Where `Includes` finds `sub`. */
  lemma {:induction false} IncludesFound(s: string, sub: string) returns (i: nat)
    requires Includes(s, sub)
    ensures OccursAt(s, sub, i)
    decreases |s|
  {
    if s[..|sub|] == sub {
      i := 0;
    } else {
      var j := IncludesFound(s[1..], sub);
      assert s[1..][j..j + |sub|] == s[j + 1..j + 1 + |sub|];
      i := j + 1;
    }
  }

  /** An occurrence anywhere makes `Includes` true. */
  lemma {:induction false} IncludesAt(s: string, sub: string, i: nat)
    requires OccursAt(s, sub, i)
    ensures Includes(s, sub)
    decreases i
  {
    if s[..|sub|] != sub {
      assert i != 0;
      assert s[1..][i - 1..i - 1 + |sub|] == s[i..i + |sub|];
      IncludesAt(s[1..], sub, i - 1);
    }
  }

  /**
   * The characters `String.prototype.trim` removes: ECMAScript WhiteSpace
   * (tab, vertical tab, form feed, space, no-break space, byte order mark
   * and the other space separators) and LineTerminator.
   */
  predicate IsWhiteSpace(c: char) {
    || c == '\t' || c == '\n' || c == '\U{000B}' || c == '\U{000C}' || c == '\r' || c == ' '
    || c == '\U{00A0}' || c == '\U{1680}' || ('\U{2000}' <= c <= '\U{200A}')
    || c == '\U{2028}' || c == '\U{2029}' || c == '\U{202F}' || c == '\U{205F}'
    || c == '\U{3000}' || c == '\U{FEFF}'
  }

  predicate AllWhiteSpace(s: string) {
    forall k | 0 <= k < |s| :: IsWhiteSpace(s[k])
  }

  function TrimStart(s: string): (r: string)
    ensures |r| <= |s| && r == s[|s| - |r|..]
    ensures AllWhiteSpace(s[..|s| - |r|])
    ensures r == [] || !IsWhiteSpace(r[0])
  {
    if |s| > 0 && IsWhiteSpace(s[0]) then
      var r := TrimStart(s[1..]);
      var n := |s| - |r|;
      assert forall k | 1 <= k < n :: s[..n][k] == s[1..][..n - 1][k - 1];
      r
    else
      s
  }

  function TrimEnd(s: string): (r: string)
    ensures |r| <= |s| && r == s[..|r|]
    ensures AllWhiteSpace(s[|r|..])
    ensures r == [] || !IsWhiteSpace(r[|r| - 1])
  {
    if |s| > 0 && IsWhiteSpace(s[|s| - 1]) then
      var r := TrimEnd(s[..|s| - 1]);
      assert s[..|s| - 1][..|r|] == s[..|r|];
      assert s[|r|..] == s[..|s| - 1][|r|..] + [s[|s| - 1]];
      r
    else
      assert s[|s|..] == [];
      s
  }

  /**
   * `s.trim()`: the contiguous part of `s` left after removing white space
   * at both ends.
   */
  function Trim(s: string): (r: string)
    ensures exists i, j | 0 <= i <= j <= |s| :: r == s[i..j] && AllWhiteSpace(s[..i]) && AllWhiteSpace(s[j..])
  {
    var t := TrimStart(s);
    var r := TrimEnd(t);
    var i := |s| - |t|;
    var j := i + |r|;
    assert r == s[i..j];
    assert s[j..] == t[|r|..];
    assert AllWhiteSpace(s[..i]) && AllWhiteSpace(s[j..]);
    r
  }

  /** A trimmed string neither starts nor ends with white space. */
  lemma TrimEnds(s: string)
    ensures Trim(s) == [] || (!IsWhiteSpace(Trim(s)[0]) && !IsWhiteSpace(Trim(s)[|Trim(s)| - 1]))
  {
    var t := TrimStart(s);
    var r := TrimEnd(t);
    if r != [] {
      assert r[0] == t[0];
    }
  }

  /** Trimming twice changes nothing more. */
  lemma TrimIdempotent(s: string)
    ensures Trim(Trim(s)) == Trim(s)
  {
    TrimEnds(s);
    var r := Trim(s);
    if r != [] {
      assert TrimStart(r) == r;
      assert TrimEnd(r) == r;
    }
  }

  /** A string trims to the empty string exactly when it is all white space. */
  lemma TrimEmptyIff(s: string)
    ensures Trim(s) == [] <==> AllWhiteSpace(s)
  {
    var r := Trim(s);
    var i, j :| 0 <= i <= j <= |s| && r == s[i..j] && AllWhiteSpace(s[..i]) && AllWhiteSpace(s[j..]);
    if r == [] {
      assert i == j;
      forall k | 0 <= k < |s| ensures IsWhiteSpace(s[k]) {
        if k < i { assert s[..i][k] == s[k]; } else { assert s[j..][k - j] == s[k]; }
      }
    } else {
      assert s[i] == r[0];
    }
  }

  // ---------------------------------------------------------- digits

  /** An ASCII decimal digit. */
  predicate IsDigit(c: char) {
    '0' <= c <= '9'
  }

  predicate AllDigits(s: string) {
    forall k | 0 <= k < |s| :: IsDigit(s[k])
  }

  function DigitValue(c: char): (d: nat)
    requires IsDigit(c)
    ensures d < 10
  {
    c as int - 48
  }

  /** The number a string of decimal digits denotes. */
  function DigitsValue(ds: string): nat
    requires AllDigits(ds)
  {
    if ds == [] then 0 else DigitsValue(ds[..|ds| - 1]) * 10 + DigitValue(ds[|ds| - 1])
  }

  /** The number of decimal digits `s` starts with. */
  function DigitSpan(s: string): (k: nat)
    ensures k <= |s| && AllDigits(s[..k])
    ensures k < |s| ==> !IsDigit(s[k])
  {
    if s != [] && IsDigit(s[0]) then
      var k := 1 + DigitSpan(s[1..]);
      assert forall i | 1 <= i < k :: s[..k][i] == s[1..][..k - 1][i - 1];
      k
    else
      0
  }

  lemma {:induction false} DigitSpanOfDigits(ds: string, rest: string)
    requires AllDigits(ds)
    requires rest == [] || !IsDigit(rest[0])
    ensures DigitSpan(ds + rest) == |ds|
  {
    if ds != [] {
      DigitSpanOfDigits(ds[1..], rest);
      assert (ds + rest)[1..] == ds[1..] + rest;
    } else {
      assert ds + rest == rest;
    }
  }


  /** Every character before `n` is a digit when the prefix of length `n` is all digits. */
  lemma DigitsPrefix(s: string, n: nat)
    requires n <= |s| && AllDigits(s[..n])
    ensures forall j | 0 <= j < n :: IsDigit(s[j])
  {
    forall j | 0 <= j < n ensures IsDigit(s[j]) {
      assert s[..n][j] == s[j];
    }
  }

  // ---------------------------------------------------------- split

  /**
   * `s.split(sep)` for a one-character separator: the pieces between the
   * occurrences of `sep`, in order; there is always at least one piece.
   */
  function Split(s: string, sep: char): (r: seq<string>)
    ensures |r| >= 1
    ensures forall k | 0 <= k < |r| :: sep !in r[k]
  {
    if s == [] then [""]
    else
      var rest := Split(s[1..], sep);
      if s[0] == sep then [""] + rest
      else
        var r := [[s[0]] + rest[0]] + rest[1..];
        assert forall k | 1 <= k < |r| :: r[k] == rest[k];
        r
  }

  /** The pieces glued back together with `sep` between them. */
  ghost function Join(pieces: seq<string>, sep: char): string
    requires |pieces| >= 1
  {
    if |pieces| == 1 then pieces[0] else pieces[0] + [sep] + Join(pieces[1..], sep)
  }

  /** Splitting loses nothing: joining the pieces gives the string back. */
  lemma {:induction false} JoinSplit(s: string, sep: char)
    ensures Join(Split(s, sep), sep) == s
  {
    if s != [] {
      var rest := Split(s[1..], sep);
      JoinSplit(s[1..], sep);
      if s[0] != sep && |rest| > 1 {
        assert Join(rest, sep) == rest[0] + [sep] + Join(rest[1..], sep);
        var r := Split(s, sep);
        assert r[1..] == rest[1..];
        assert Join(r, sep) == [s[0]] + Join(rest, sep);
      }
    }
  }

  /** A prefix without the separator becomes the start of the first piece. */
  lemma {:induction false} SplitPrepend(a: string, t: string, sep: char)
    requires sep !in a
    ensures Split(a + t, sep) == [a + Split(t, sep)[0]] + Split(t, sep)[1..]
  {
    if a == [] {
      assert a + t == t;
      assert a + Split(t, sep)[0] == Split(t, sep)[0];
      assert [Split(t, sep)[0]] + Split(t, sep)[1..] == Split(t, sep);
    } else {
      SplitPrepend(a[1..], t, sep);
      assert (a + t)[1..] == a[1..] + t;
      assert [a[0]] + (a[1..] + Split(t, sep)[0]) == a + Split(t, sep)[0];
    }
  }

  /** Pieces without the separator are recovered by splitting their join. */
  lemma {:induction false} SplitJoin(pieces: seq<string>, sep: char)
    requires |pieces| >= 1
    requires forall k | 0 <= k < |pieces| :: sep !in pieces[k]
    ensures Split(Join(pieces, sep), sep) == pieces
  {
    if |pieces| == 1 {
      SplitPrepend(pieces[0], [], sep);
      assert pieces[0] + [] == pieces[0];
    } else {
      var j := Join(pieces[1..], sep);
      SplitJoin(pieces[1..], sep);
      assert ([sep] + j)[1..] == j;
      assert Split([sep] + j, sep) == [""] + pieces[1..];
      SplitPrepend(pieces[0], [sep] + j, sep);
      assert pieces[0] + [sep] + j == pieces[0] + ([sep] + j);
      assert pieces[0] + "" == pieces[0];
      assert [pieces[0]] + pieces[1..] == pieces;
    }
  }

  /** Three pieces without the separator, joined by it, split back into those three. */
  lemma SplitThree(x: string, y: string, z: string, sep: char)
    requires sep !in x && sep !in y && sep !in z
    ensures Split(x + [sep] + y + [sep] + z, sep) == [x, y, z]
  {
    var pieces := [x, y, z];
    SplitJoin(pieces, sep);
    assert pieces[1..] == [y, z] && [y, z][1..] == [z];
    assert Join([z], sep) == z;
    assert Join([y, z], sep) == y + [sep] + z;
    assert Join(pieces, sep) == x + [sep] + (y + [sep] + z);
    assert x + [sep] + (y + [sep] + z) == x + [sep] + y + [sep] + z;
  }

  // ---------------------------------------------------------- Number

  /** 10 raised to `n`. */
  function Pow10(n: nat): (r: nat)
    ensures r >= 1
  {
    if n == 0 then 1 else 10 * Pow10(n - 1)
  }

  /** The value of the digits written after a decimal point. */
  function DecimalFraction(ds: string): (r: real)
    requires AllDigits(ds)
    ensures r >= 0.0
  {
    DigitsValue(ds) as real / Pow10(|ds|) as real
  }

  /**
   * Text that `Number` reads as an unsigned decimal: digits with at most
   * one decimal point, and at least one digit when there is a point. The
   * empty string counts, and is read as 0.
   */
  ghost predicate IsDecimal(s: string) {
    || AllDigits(s)
    || exists i | 0 <= i < |s| :: s[i] == '.' && AllDigits(s[..i]) && AllDigits(s[i + 1..]) && |s| > 1
  }

  /**
   * `Number(s)` on unsigned decimal text (`"2"`, `"1.5"`, `".5"`, `"3."`,
   * `""`); any other text is NaN.
   */
  function NumberOf(s: string): (r: Value)
    ensures r.Num? || r.NaN?
    ensures r.Num? ==> r.n >= 0.0
  {
    var k := DigitSpan(s);
    if k == |s| then Num(DigitsValue(s[..k]) as real)
    else if s[k] == '.' && AllDigits(s[k + 1..]) && |s| > 1 then
      Num(DigitsValue(s[..k]) as real + DecimalFraction(s[k + 1..]))
    else NaN
  }

  /** `NumberOf` gives a number exactly for the decimal texts. */
  lemma NumberOfDecimals(s: string)
    ensures NumberOf(s).Num? <==> IsDecimal(s)
  {
    var k := DigitSpan(s);
    if k == |s| {
      assert s[..k] == s;
    } else {
      assert !AllDigits(s);
      forall i | 0 <= i < |s| && s[i] == '.' && AllDigits(s[..i]) ensures i == k {
        DigitsPrefix(s, k);
        DigitsPrefix(s, i);
      }
    }
  }

  /** A string of digits is read as the whole number it denotes. */
  lemma NumberOfDigits(ds: string)
    requires AllDigits(ds)
    ensures NumberOf(ds) == Num(DigitsValue(ds) as real)
  {
    DigitSpanOfDigits(ds, []);
    assert ds + [] == ds;
    assert ds[..|ds|] == ds;
  }

  /** Digits around a point are read as the whole part plus the fraction. */
  lemma NumberOfPoint(whole: string, fraction: string)
    requires AllDigits(whole) && AllDigits(fraction) && |whole| + |fraction| > 0
    ensures NumberOf(whole + ['.'] + fraction) == Num(DigitsValue(whole) as real + DecimalFraction(fraction))
  {
    var s := whole + ['.'] + fraction;
    var k := |whole|;
    assert s == whole + (['.'] + fraction);
    DigitSpanOfDigits(whole, ['.'] + fraction);
    assert s[..k] == whole;
    assert s[k + 1..] == fraction;
    NumberOfPointAt(s, k, whole, fraction);
  }

  lemma NumberOfPointAt(s: string, k: nat, whole: string, fraction: string)
    requires k < |s| && DigitSpan(s) == k && s[k] == '.' && |s| > 1
    requires s[..k] == whole && s[k + 1..] == fraction && AllDigits(fraction)
    ensures NumberOf(s) == Num(DigitsValue(whole) as real + DecimalFraction(fraction))
  {
  }
}
