/**
 * The few JavaScript string operations the application relies on, written out on `seq<char>`:
 * `split` with a one-character separator, `join`, `includes`, `startsWith`, `trim`,
 * ASCII `toLowerCase`, `parseInt` on digit strings, decimal `toString` and
 * `padStart(2, "0")`.
 */
module JsStrings {
  import opened Wrappers

  // ---------------------------------------------------------------------------
  // split / join
  // ---------------------------------------------------------------------------

  /** `parts.join(sep)`. */
  function Join(parts: seq<string>, sep: string): string
  {
    if parts == [] then ""
    else if |parts| == 1 then parts[0]
    else parts[0] + sep + Join(parts[1..], sep)
  }

  /**
   * `s.split(sep)` for a one-character separator: the maximal separator-free pieces,
   * in order. There is always at least one piece (`"".split(":")` is `[""]`), and
   * joining the pieces back with the separator gives `s` again.
   */
  function Split(s: string, sep: char): (parts: seq<string>)
    ensures |parts| >= 1
    ensures forall i | 0 <= i < |parts| :: sep !in parts[i]
    ensures Join(parts, [sep]) == s
  {
    if s == [] then [""]
    else
      var rest := Split(s[1..], sep);
      if s[0] == sep then
        assert Join([""] + rest, [sep]) == [sep] + Join(rest, [sep]) by {
          assert ([""] + rest)[1..] == rest;
        }
        [""] + rest
      else
        var parts := [[s[0]] + rest[0]] + rest[1..];
        assert Join(parts, [sep]) == [s[0]] + Join(rest, [sep]) by {
          assert parts[1..] == rest[1..];
          if |rest| > 1 {
            assert [s[0]] + rest[0] + [sep] + Join(rest[1..], [sep])
                == [s[0]] + (rest[0] + [sep] + Join(rest[1..], [sep]));
          }
        }
        parts
  }

  /** Splitting a separator-free piece, a separator and the rest yields that piece first. */
  lemma {:induction false} SplitCons(a: string, sep: char, b: string)
    requires sep !in a
    ensures Split(a + [sep] + b, sep) == [a] + Split(b, sep)
  {
    if a == [] {
      assert a + [sep] + b == [sep] + b;
      assert ([sep] + b)[1..] == b;
    } else {
      assert (a + [sep] + b)[1..] == a[1..] + [sep] + b;
      SplitCons(a[1..], sep, b);
      assert [a[0]] + a[1..] == a;
    }
  }

  /** A separator-free string splits into itself alone. */
  lemma {:induction false} SplitNoSep(a: string, sep: char)
    requires sep !in a
    ensures Split(a, sep) == [a]
  {
    if a != [] {
      SplitNoSep(a[1..], sep);
      assert [a[0]] + a[1..] == a;
    }
  }

  // ---------------------------------------------------------------------------
  // includes / startsWith
  // ---------------------------------------------------------------------------

  /** `s.startsWith(p)`. */
  predicate StartsWith(s: string, p: string) {
    |p| <= |s| && s[..|p|] == p
  }

  /** `sub` occurs in `s` starting at position `k`. */
  predicate OccursAt(s: string, sub: string, k: nat) {
    k + |sub| <= |s| && s[k..k + |sub|] == sub
  }

  /** `s.includes(sub)`: `sub` occurs at some position of `s`. */
  predicate Includes(s: string, sub: string) {
    exists k: nat | k <= |s| :: OccursAt(s, sub, k)
  }

  // ---------------------------------------------------------------------------
  // toLowerCase (ASCII letters only)
  // ---------------------------------------------------------------------------

  function LowerChar(c: char): char {
    if 'A' <= c <= 'Z' then (c as int + 32) as char else c
  }

  /** `s.toLowerCase()` restricted to ASCII letters; every other character is kept. */
  function AsciiLower(s: string): (r: string)
    ensures |r| == |s|
    ensures forall i | 0 <= i < |s| :: r[i] == LowerChar(s[i])
  {
    seq(|s|, i requires 0 <= i < |s| => LowerChar(s[i]))
  }

  // ---------------------------------------------------------------------------
  // trim and the regular-expression class \s
  // ---------------------------------------------------------------------------

  /**
   * The characters JavaScript's `trim` removes and `\s` matches: WhiteSpace
   * (tab, vertical tab, form feed, space, no-break space, byte order mark and the
   * Unicode space separators) and LineTerminator (LF, CR, U+2028, U+2029).
   */
  predicate IsJsWhitespace(c: char) {
    var n := c as int;
    n == 0x09 || n == 0x0A || n == 0x0B || n == 0x0C || n == 0x0D || n == 0x20
    || n == 0xA0 || n == 0x1680 || (0x2000 <= n <= 0x200A) || n == 0x2028 || n == 0x2029
    || n == 0x202F || n == 0x205F || n == 0x3000 || n == 0xFEFF
  }

  function TrimStart(s: string): (r: string)
    ensures |r| <= |s|
    ensures r == s[|s| - |r|..]
    ensures forall i | 0 <= i < |s| - |r| :: IsJsWhitespace(s[i])
    ensures r != [] ==> !IsJsWhitespace(r[0])
    ensures s != [] && !IsJsWhitespace(s[0]) ==> r == s
  {
    if s != [] && IsJsWhitespace(s[0]) then
      var r := TrimStart(s[1..]);
      assert forall i | 1 <= i < |s| - |r| :: s[i] == s[1..][i - 1];
      r
    else s
  }

  function TrimEnd(s: string): (r: string)
    ensures |r| <= |s|
    ensures r == s[..|r|]
    ensures forall i | |r| <= i < |s| :: IsJsWhitespace(s[i])
    ensures r != [] ==> !IsJsWhitespace(r[|r| - 1])
    ensures s != [] && !IsJsWhitespace(s[|s| - 1]) ==> r == s
  {
    if s != [] && IsJsWhitespace(s[|s| - 1]) then
      var r := TrimEnd(s[..|s| - 1]);
      assert forall i | |r| <= i < |s| - 1 :: s[i] == s[..|s| - 1][i];
      r
    else s
  }

  /** `s.trim()`: a substring of `s` that neither starts nor ends with whitespace. */
  function Trim(s: string): (r: string)
    ensures |r| <= |s|
    ensures r != [] ==> !IsJsWhitespace(r[0]) && !IsJsWhitespace(r[|r| - 1])
    ensures s == [] || (!IsJsWhitespace(s[0]) && !IsJsWhitespace(s[|s| - 1])) ==> r == s
  {
    var t := TrimStart(s);
    var r := TrimEnd(t);
    assert r != [] ==> r[0] == t[0];
    r
  }

  /** What `trim` keeps is the middle of `s`: everything it removes on either side is whitespace. */
  lemma TrimRemovesOnlyEndWhitespace(s: string)
    ensures exists a, b | 0 <= a <= b <= |s| ::
              Trim(s) == s[a..b] &&
              (forall i | 0 <= i < a :: IsJsWhitespace(s[i])) &&
              (forall i | b <= i < |s| :: IsJsWhitespace(s[i]))
  {
    var t := TrimStart(s);
    var r := TrimEnd(t);
    assert Trim(s) == r;
    var a := |s| - |t|;
    var b := a + |r|;
    assert t == s[a..];
    assert r == s[a..b] by { assert r == t[..|r|]; }
    assert forall i | 0 <= i < a :: IsJsWhitespace(s[i]);
    forall i | b <= i < |s|
      ensures IsJsWhitespace(s[i])
    {
      assert s[i] == t[i - a];
    }
  }

  /** A string made only of whitespace trims to the empty string, and only such a string does. */
  lemma {:induction false} TrimEmptyIffAllWhitespace(s: string)
    ensures Trim(s) == [] <==> forall i | 0 <= i < |s| :: IsJsWhitespace(s[i])
  {
    TrimStartEmpty(s);
    var t := TrimStart(s);
    if t != [] {
      assert TrimEnd(t) != [] by { TrimEndKeepsFirst(t); }
    }
  }

  lemma {:induction false} TrimStartEmpty(s: string)
    ensures TrimStart(s) == [] <==> forall i | 0 <= i < |s| :: IsJsWhitespace(s[i])
  {
    if s != [] && IsJsWhitespace(s[0]) {
      TrimStartEmpty(s[1..]);
      assert forall i | 1 <= i < |s| :: s[i] == s[1..][i - 1];
    }
  }

  lemma {:induction false} TrimEndKeepsFirst(t: string)
    requires t != [] && !IsJsWhitespace(t[0])
    ensures TrimEnd(t) != []
  {
    if IsJsWhitespace(t[|t| - 1]) {
      assert |t| > 1;
      TrimEndKeepsFirst(t[..|t| - 1]);
    }
  }

  // ---------------------------------------------------------------------------
  // decimal digits, toString and padStart(2, "0")
  // ---------------------------------------------------------------------------

  predicate IsDigit(c: char) { '0' <= c <= '9' }

  predicate AllDigits(s: string) { forall i | 0 <= i < |s| :: IsDigit(s[i]) }

  function DigitChar(d: nat): (c: char)
    requires d < 10
    ensures IsDigit(c) && c as int - '0' as int == d
  {
    ('0' as int + d) as char
  }

  /** `n.toString()` for a natural number: its decimal digits, no leading zero. */
  function Digits(n: nat): (r: string)
    ensures 1 <= |r| && AllDigits(r)
    ensures n < 10 <==> |r| == 1
    ensures 10 <= n < 100 ==> |r| == 2
    ensures |r| > 1 ==> r[0] != '0'
    ensures ValueOf(r) == n
  {
    if n < 10 then [DigitChar(n)]
    else
      var r := Digits(n / 10) + [DigitChar(n % 10)];
      assert r[..|r| - 1] == Digits(n / 10);
      r
  }

  /** The number an all-digit string denotes (what `parseInt` reads from it). */
  function ValueOf(s: string): nat
    requires AllDigits(s)
  {
    if s == [] then 0 else ValueOf(s[..|s| - 1]) * 10 + (s[|s| - 1] as int - '0' as int)
  }

  /** The longest run of decimal digits at the start of `s`. */
  function LeadingDigits(s: string): (r: string)
    ensures AllDigits(r) && |r| <= |s| && r == s[..|r|]
    ensures |r| < |s| ==> !IsDigit(s[|r|])
  {
    if s != [] && IsDigit(s[0]) then [s[0]] + LeadingDigits(s[1..]) else []
  }

  /** A string of digits is its own leading run. */
  lemma {:induction false} LeadingDigitsOfDigits(s: string)
    ensures AllDigits(s) ==> LeadingDigits(s) == s
  {
    if s != [] && AllDigits(s) {
      LeadingDigitsOfDigits(s[1..]);
    }
  }

  /**
   * `parseInt(s)` for a string that starts with its digits: the value of the leading
   * run of digits, or None (NaN) when there is none.
   */
  function ParseInt(s: string): (r: Option<nat>)
    ensures r.None? <==> s == [] || !IsDigit(s[0])
    ensures AllDigits(s) && s != [] ==> r == Some(ValueOf(s))
  {
    var d := LeadingDigits(s);
    LeadingDigitsOfDigits(s);
    if d == [] then None else Some(ValueOf(d))
  }

  /** `str.padStart(2, "0")`. */
  function PadStart2(s: string): (r: string)
    ensures |s| >= 2 ==> r == s
    ensures |s| < 2 ==> |r| == 2 && r[2 - |s|..] == s && forall i | 0 <= i < 2 - |s| :: r[i] == '0'
  {
    if |s| >= 2 then s else if |s| == 1 then "0" + s else "00"
  }

  /** `n.toString().padStart(2, "0")`. */
  function Pad2(n: nat): (r: string)
    ensures AllDigits(r) && |r| >= 2
    ensures n < 100 ==> |r| == 2
    ensures ValueOf(r) == n
  {
    var d := Digits(n);
    if |d| >= 2 then d
    else
      var r := "0" + d;
      assert r[..1] == "0";
      assert ValueOf(r) == ValueOf(r[..1]) * 10 + (d[0] as int - '0' as int);
      r
  }

  /** Two digits read as a number and printed back with `padStart(2, "0")` are unchanged. */
  lemma TwoDigitsRoundTrip(s: string)
    requires |s| == 2 && AllDigits(s)
    ensures ValueOf(s) < 100
    ensures Pad2(ValueOf(s)) == s
  {
    var n := ValueOf(s);
    assert s[..1] == [s[0]];
    assert s[..1][..0] == [];
    assert ValueOf(s[..1]) == s[0] as int - '0' as int;
    assert n == (s[0] as int - '0' as int) * 10 + (s[1] as int - '0' as int);
    if s[0] == '0' {
      assert n < 10;
      assert Digits(n) == [s[1]];
    } else {
      assert 10 <= n < 100;
      assert Digits(n / 10) == [s[0]];
      assert n % 10 == s[1] as int - '0' as int;
    }
  }
}
