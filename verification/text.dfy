/** The string operations of JavaScript the application relies on:
    `split`/`join` on a single separator character, ASCII `toLowerCase`,
    `includes`, `parseInt` and the decimal rendering of integers. */
module Text {
  import opened Wrappers

  // ---------------------------------------------------------------------
  // Splitting and joining on one separator character
  // ---------------------------------------------------------------------

  /** `s.split(sep)`: the maximal separator-free pieces of `s`, in order.
      An empty string splits into one empty piece, and two adjacent
      separators yield an empty piece between them. */
  function Split(s: string, sep: char): (parts: seq<string>)
    ensures |parts| >= 1
  {
    if |s| == 0 then [""]
    else
      var rest := Split(s[1..], sep);
      if s[0] == sep then [""] + rest
      else [[s[0]] + rest[0]] + rest[1..]
  }

  /** `parts.join(sep)`; joining no pieces gives the empty string. */
  function Join(parts: seq<string>, sep: char): string
  {
    if |parts| == 0 then ""
    else if |parts| == 1 then parts[0]
    else parts[0] + [sep] + Join(parts[1..], sep)
  }

  /** Joining the pieces of a split with the same separator gives back the
      original string. */
  lemma {:induction false} JoinSplit(s: string, sep: char)
    ensures Join(Split(s, sep), sep) == s
  {
    if |s| > 0 {
      var rest := Split(s[1..], sep);
      JoinSplit(s[1..], sep);
      if s[0] == sep {
        assert s == [sep] + s[1..];
      } else if |rest| == 1 {
        assert s == [s[0]] + s[1..];
      } else {
        assert Join(rest, sep) == rest[0] + [sep] + Join(rest[1..], sep);
        assert s == [s[0]] + s[1..];
      }
    }
  }

  /** No piece of a split contains the separator. */
  lemma {:induction false} SplitPiecesFree(s: string, sep: char)
    ensures forall k :: 0 <= k < |Split(s, sep)| ==> sep !in Split(s, sep)[k]
  {
    if |s| > 0 {
      SplitPiecesFree(s[1..], sep);
      var rest := Split(s[1..], sep);
      var parts := Split(s, sep);
      if s[0] != sep {
        forall k | 0 <= k < |parts|
          ensures sep !in parts[k]
        {
          if k == 0 {
            assert parts[0] == [s[0]] + rest[0];
            assert sep !in rest[0];
          } else {
            assert parts[k] == rest[k];
          }
        }
      }
    }
  }

  // ---------------------------------------------------------------------
  // Case folding and substring search
  // ---------------------------------------------------------------------

  /** `toLowerCase` restricted to ASCII letters. */
  function LowerChar(c: char): char {
    if 'A' <= c <= 'Z' then (c as int + 32) as char else c
  }

  function Lower(s: string): string {
    seq(|s|, i requires 0 <= i < |s| => LowerChar(s[i]))
  }

  /** Lower-casing twice is lower-casing once. */
  lemma LowerIdempotent(s: string)
    ensures Lower(Lower(s)) == Lower(s)
  {
  }

  /** `t` occurs in `s` starting at index `i`. */
  predicate OccursAt(s: string, t: string, i: int) {
    0 <= i && i + |t| <= |s| && s[i..i + |t|] == t
  }

  /** `s.includes(t)`. */
  function Contains(s: string, t: string): (r: bool)
    ensures r <==> exists i :: OccursAt(s, t, i)
    decreases |s|
  {
    if t <= s then
      assert OccursAt(s, t, 0);
      true
    else if |s| == 0 then
      false
    else
      OccursShift(s, t);
      Contains(s[1..], t)
  }

  /** When `t` is not a prefix of `s`, its occurrences in `s` are exactly
      its occurrences in the tail of `s`. */
  lemma OccursShift(s: string, t: string)
    requires |s| > 0 && !(t <= s)
    ensures (exists i :: OccursAt(s[1..], t, i)) <==> (exists i :: OccursAt(s, t, i))
  {
    if i :| OccursAt(s[1..], t, i) {
      assert s[1..][i..i + |t|] == s[i + 1..i + 1 + |t|];
      assert OccursAt(s, t, i + 1);
    }
    if i :| OccursAt(s, t, i) {
      assert s[1..][i - 1..i - 1 + |t|] == s[i..i + |t|];
      assert OccursAt(s[1..], t, i - 1);
    }
  }

  // ---------------------------------------------------------------------
  // Decimal rendering of integers
  // ---------------------------------------------------------------------

  predicate IsDecimalDigit(c: char) {
    '0' <= c <= '9'
  }

  function DigitChar(d: int): (c: char)
    requires 0 <= d < 10
    ensures IsDecimalDigit(c)
  {
    ('0' as int + d) as char
  }

  /** The shortest decimal numeral of `n`. */
  function NatToString(n: nat): (s: string)
    ensures |s| >= 1
    ensures forall i :: 0 <= i < |s| ==> IsDecimalDigit(s[i])
  {
    if n < 10 then [DigitChar(n)] else NatToString(n / 10) + [DigitChar(n % 10)]
  }

  /** `String(n)` for an integer-valued number: the plain decimal numeral,
      which is what JavaScript prints for safe integers; larger magnitudes
      (inexact above 2^53, exponent form from 1e21) are not modelled. */
  function IntToString(n: int): string {
    if n < 0 then "-" + NatToString(-n) else NatToString(n)
  }

  // ---------------------------------------------------------------------
  // parseInt
  // ---------------------------------------------------------------------

  /** The white space and line terminators `parseInt` skips. */
  predicate IsWhiteSpace(c: char) {
    || c == '\t' || c == '\n' || c == '\U{0B}' || c == '\U{0C}' || c == '\r'
    || c == ' ' || c == '\U{A0}' || c == '\U{1680}'
    || ('\U{2000}' <= c <= '\U{200A}')
    || c == '\U{2028}' || c == '\U{2029}' || c == '\U{202F}' || c == '\U{205F}'
    || c == '\U{3000}' || c == '\U{FEFF}'
  }

  /** `s` without its leading white space. */
  function TrimStart(s: string): (r: string)
    ensures |r| <= |s|
    ensures |r| == 0 || !IsWhiteSpace(r[0])
  {
    if |s| > 0 && IsWhiteSpace(s[0]) then TrimStart(s[1..]) else s
  }

  /** The value of a digit character in the largest radix (36), or 36 when
      `c` is no digit at all. */
  function DigitValue(c: char): (d: nat)
    ensures d <= 36
  {
    if '0' <= c <= '9' then c as int - '0' as int
    else if 'a' <= c <= 'z' then c as int - 'a' as int + 10
    else if 'A' <= c <= 'Z' then c as int - 'A' as int + 10
    else 36
  }

  /** The number of leading characters of `s` that are digits in `radix`. */
  function DigitRun(s: string, radix: nat): (n: nat)
    ensures n <= |s|
    ensures forall i :: 0 <= i < n ==> DigitValue(s[i]) < radix
    ensures n < |s| ==> DigitValue(s[n]) >= radix
  {
    if |s| == 0 || DigitValue(s[0]) >= radix then 0 else 1 + DigitRun(s[1..], radix)
  }

  /** The value of the numeral `z` in `radix`, most significant digit first. */
  function DigitsValue(z: string, radix: nat): nat {
    if |z| == 0 then 0
    else DigitsValue(z[..|z| - 1], radix) * radix + DigitValue(z[|z| - 1])
  }

  /** The longest run of `radix` digits at the start of `v`, converted;
      `None` when `v` does not start with such a digit. */
  function LeadingNumeral(v: string, radix: nat): (r: Option<nat>)
    ensures r.None? <==> |v| == 0 || DigitValue(v[0]) >= radix
  {
    var n := DigitRun(v, radix);
    if n == 0 then None else Some(DigitsValue(v[..n], radix))
  }

  /** `t` without one leading sign character. */
  function Unsigned(t: string): string {
    if |t| > 0 && (t[0] == '-' || t[0] == '+') then t[1..] else t
  }

  /** `parseInt(s, radix)`, with `radix == 0` standing for an omitted radix.
      `None` is NaN. Leading white space and one sign are skipped; without a
      radix (or with radix 16) a `0x`/`0X` prefix selects hexadecimal; the
      longest run of digits that follows is converted and the rest of the
      string ignored. */
  function ParseInt(s: string, radix: int): Option<int> {
    var t := TrimStart(s);
    var negative := |t| > 0 && t[0] == '-';
    var u := Unsigned(t);
    if radix != 0 && (radix < 2 || radix > 36) then None
    else
      var hex := (radix == 0 || radix == 16) && |u| >= 2 && u[0] == '0' && (u[1] == 'x' || u[1] == 'X');
      var r: nat := if hex then 16 else if radix == 0 then 10 else radix;
      match LeadingNumeral(if hex then u[2..] else u, r)
      case None => None
      case Some(m) => Some(if negative then -(m as int) else m)
  }

  /** `parseInt(s, 10)` is NaN exactly when, after the leading white space
      and an optional sign, `s` does not start with a decimal digit. */
  lemma ParseDecimalNaN(s: string)
    ensures ParseInt(s, 10).None? <==>
      var u := Unsigned(TrimStart(s));
      |u| == 0 || !IsDecimalDigit(u[0])
  {
  }

  lemma {:induction false} DigitsValueOfNat(n: nat)
    ensures DigitsValue(NatToString(n), 10) == n
  {
    var s := NatToString(n);
    if n >= 10 {
      DigitsValueOfNat(n / 10);
      assert s[..|s| - 1] == NatToString(n / 10);
    }
  }

  lemma DigitRunOfDigits(s: string)
    requires forall i :: 0 <= i < |s| ==> IsDecimalDigit(s[i])
    ensures DigitRun(s, 10) == |s|
  {
  }

  /** With radix 10 no hexadecimal prefix is recognised. */
  lemma ParseDecimal(s: string)
    ensures ParseInt(s, 10) ==
      var t := TrimStart(s);
      match LeadingNumeral(Unsigned(t), 10)
      case None => None
      case Some(m) => Some(if |t| > 0 && t[0] == '-' then -(m as int) else m)
  {
  }

  /** A non-empty run of decimal digits is its own leading numeral. */
  lemma NumeralOfDigits(d: string)
    requires |d| >= 1
    requires forall i :: 0 <= i < |d| ==> IsDecimalDigit(d[i])
    ensures LeadingNumeral(d, 10) == Some(DigitsValue(d, 10))
  {
    DigitRunOfDigits(d);
    assert d[..|d|] == d;
  }

  lemma DigitNotSpace(c: char)
    requires IsDecimalDigit(c)
    ensures !IsWhiteSpace(c)
  {
  }

  /** A string starting with a digit or a minus sign has no white space
      or sign to skip beyond that minus sign. */
  lemma DigitsUntrimmed(d: string)
    requires |d| >= 1 && IsDecimalDigit(d[0])
    ensures TrimStart(d) == d && Unsigned(d) == d
    ensures TrimStart("-" + d) == "-" + d && Unsigned("-" + d) == d
  {
    DigitNotSpace(d[0]);
    var t := "-" + d;
    assert t[0] == '-' && !IsWhiteSpace('-');
    assert t[1..] == d;
  }

  /** A string with no leading white space whose unsigned part starts
      with a numeral parses, in radix 10, to the signed value of that
      numeral. */
  lemma ParseParts(s: string, m: nat)
    requires |s| > 0 && !IsWhiteSpace(s[0])
    requires LeadingNumeral(Unsigned(s), 10) == Some(m)
    ensures ParseInt(s, 10) == Some(if s[0] == '-' then -(m as int) else m)
  {
    assert TrimStart(s) == s;
  }

  /** A non-empty run of decimal digits parses to its value. */
  lemma ParsePositive(d: string)
    requires |d| >= 1
    requires forall i :: 0 <= i < |d| ==> IsDecimalDigit(d[i])
    ensures ParseInt(d, 10) == Some(DigitsValue(d, 10))
  {
    NumeralOfDigits(d);
    DigitsUntrimmed(d);
    DigitNotSpace(d[0]);
    ParseParts(d, DigitsValue(d, 10));
  }

  /** A minus sign before a string that starts with a numeral negates it. */
  lemma ParseMinus(d: string, m: nat)
    requires |d| >= 1 && IsDecimalDigit(d[0])
    requires LeadingNumeral(d, 10) == Some(m)
    ensures ParseInt("-" + d, 10) == Some(-(m as int))
  {
    DigitsUntrimmed(d);
    var t := "-" + d;
    assert |t| > 0 && t[0] == '-';
    ParseParts(t, m);
  }

  /** Reading back the decimal rendering of an integer with
      `parseInt(_, 10)` gives the integer. */
  lemma ParseIntToString(n: int)
    ensures ParseInt(IntToString(n), 10) == Some(n)
  {
    var m: nat := if n < 0 then -n else n;
    var d := NatToString(m);
    DigitsValueOfNat(m);
    if n < 0 {
      assert IntToString(n) == "-" + d;
      NumeralOfDigits(d);
      ParseMinus(d, m);
    } else {
      assert IntToString(n) == d;
      ParsePositive(d);
    }
  }

  /** Without a radix, a string whose numeral has no `0x` prefix parses
      as with radix 10. */
  lemma ParseNoRadix(s: string)
    requires var u := Unsigned(TrimStart(s));
      !(|u| >= 2 && u[0] == '0' && (u[1] == 'x' || u[1] == 'X'))
    ensures ParseInt(s, 0) == ParseInt(s, 10)
  {
  }

  /** Reading back the decimal rendering of an integer with `parseInt`
      and no radix gives the integer. */
  lemma ParseIntToStringNoRadix(n: int)
    ensures ParseInt(IntToString(n), 0) == Some(n)
  {
    var m: nat := if n < 0 then -n else n;
    var d := NatToString(m);
    DigitsUntrimmed(d);
    if n < 0 {
      assert IntToString(n) == "-" + d;
    }
    assert Unsigned(TrimStart(IntToString(n))) == d;
    ParseNoRadix(IntToString(n));
    ParseIntToString(n);
  }
}
