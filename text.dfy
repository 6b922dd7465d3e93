/** The JavaScript string operations the application relies on: trimming,
    `parseInt`/`parseFloat`, number printing, `split`/`join`, the `\s+`
    replacement, `includes` and lower-case hexadecimal rendering. */
module Text {
  import opened Optional
  import opened Bytes

  /** The characters JavaScript's `trim` and the regular expression `\s`
      treat as white space (WhiteSpace and LineTerminator). */
  predicate IsSpace(c: char)
  {
    c == ' ' || c == '\t' || c == '\n' || c == '\r' || c == '\U{000B}' || c == '\U{000C}'
    || c == '\U{00A0}' || c == '\U{1680}' || ('\U{2000}' <= c <= '\U{200A}')
    || c == '\U{2028}' || c == '\U{2029}' || c == '\U{202F}' || c == '\U{205F}'
    || c == '\U{3000}' || c == '\U{FEFF}'
  }

  predicate IsDecimalDigit(c: char)
  {
    '0' <= c <= '9'
  }

  // ---------------------------------------------------------------------
  // Trimming

  /** Leading white space removed. */
  function TrimStart(s: string): (r: string)
    ensures |r| <= |s| && r == s[|s| - |r|..]
    ensures r == [] || !IsSpace(r[0])
    ensures forall i :: 0 <= i < |s| - |r| ==> IsSpace(s[i])
  {
    if s != [] && IsSpace(s[0]) then TrimStart(s[1..]) else s
  }

  /** Trailing white space removed. */
  function TrimEnd(s: string): (r: string)
    ensures |r| <= |s| && r == s[..|r|]
    ensures r == [] || !IsSpace(r[|r| - 1])
    ensures forall i :: |r| <= i < |s| ==> IsSpace(s[i])
  {
    if s != [] && IsSpace(s[|s| - 1]) then TrimEnd(s[..|s| - 1]) else s
  }

  /** String.prototype.trim. */
  function Trim(s: string): (r: string)
    ensures |r| <= |s|
    ensures r == [] || (!IsSpace(r[0]) && !IsSpace(r[|r| - 1]))
  {
    TrimEnd(TrimStart(s))
  }

  /** The trimmed string sits inside the original with only white space
      around it. */
  lemma TrimIsInfix(s: string)
    ensures var r := Trim(s);
            exists i :: OccursAt(s, r, i) && (forall k :: 0 <= k < i ==> IsSpace(s[k]))
                        && (forall k :: i + |r| <= k < |s| ==> IsSpace(s[k]))
  {
    var i := |s| - |TrimStart(s)|;
    TrimPieces(s);
    assert OccursAt(s, Trim(s), i) && (forall k :: 0 <= k < i ==> IsSpace(s[k]))
           && (forall k :: i + |Trim(s)| <= k < |s| ==> IsSpace(s[k]));
  }

  /** Where the trimmed string sits: right after the leading white space,
      with only white space after it. */
  lemma TrimPieces(s: string)
    ensures var i := |s| - |TrimStart(s)|;
            && OccursAt(s, Trim(s), i)
            && (forall k :: 0 <= k < i ==> IsSpace(s[k]))
            && (forall k :: i + |Trim(s)| <= k < |s| ==> IsSpace(s[k]))
  {
    var t := TrimStart(s);
    var i := |s| - |t|;
    var r := TrimEnd(t);
    assert Trim(s) == r;
    InfixAt(s, t, r, i);
  }

  lemma InfixAt(s: string, t: string, r: string, i: int)
    requires 0 <= i <= |s| && t == s[i..]
    requires |r| <= |t| && r == t[..|r|]
    requires forall k :: |r| <= k < |t| ==> IsSpace(t[k])
    ensures OccursAt(s, r, i)
    ensures forall k :: i + |r| <= k < |s| ==> IsSpace(s[k])
  {
    assert s[i..i + |r|] == r;
    forall k | i + |r| <= k < |s| ensures IsSpace(s[k]) {
      assert s[k] == t[k - i];
    }
  }



  /** A string that is blank after trimming holds only white space. */
  lemma {:induction false} TrimEmptyIffBlank(s: string)
    ensures Trim(s) == [] <==> forall i :: 0 <= i < |s| ==> IsSpace(s[i])
  {
    if Trim(s) == [] {
      assert TrimEnd(TrimStart(s)) == [];
      assert forall i :: 0 <= i < |TrimStart(s)| ==> IsSpace(TrimStart(s)[i]);
    } else {
      var t := TrimStart(s);
      assert t != [];
      assert t[0] == s[|s| - |t|];
    }
  }

  // ---------------------------------------------------------------------
  // Digits and parseInt

  /** The value of a digit character in radix 10 or 16 (letters of either case). */
  function DigitValue(c: char): (d: int)
    ensures -1 <= d < 16
  {
    if '0' <= c <= '9' then c as int - '0' as int
    else if 'a' <= c <= 'f' then c as int - 'a' as int + 10
    else if 'A' <= c <= 'F' then c as int - 'A' as int + 10
    else -1
  }

  predicate IsDigitIn(c: char, radix: int)
  {
    0 <= DigitValue(c) < radix
  }

  /** Length of the longest prefix made of digits in the given radix. */
  function DigitRun(s: string, radix: int): (n: nat)
    ensures n <= |s|
    ensures forall i :: 0 <= i < n ==> IsDigitIn(s[i], radix)
    ensures n < |s| ==> !IsDigitIn(s[n], radix)
  {
    if s != [] && IsDigitIn(s[0], radix) then 1 + DigitRun(s[1..], radix) else 0
  }

  /** The value of a string of digits, most significant first. */
  function DigitsValue(s: string, radix: nat): (v: nat)
    requires forall i :: 0 <= i < |s| ==> IsDigitIn(s[i], radix)
  {
    if s == [] then 0
    else
      var init := s[..|s| - 1];
      InitDigits(s, init, radix);
      var high: nat := DigitsValue(init, radix);
      ProductNat(high, radix);
      high * radix + DigitValue(s[|s| - 1])
  }

  lemma ProductNat(a: nat, b: nat)
    ensures 0 <= a * b
  {
  }

  /** Dropping the last character of a run of digits leaves a run of digits,
      and the last character is a digit. */
  lemma InitDigits(s: string, init: string, radix: nat)
    requires |s| >= 1 && init == s[..|s| - 1]
    requires forall i :: 0 <= i < |s| ==> IsDigitIn(s[i], radix)
    ensures forall i :: 0 <= i < |init| ==> IsDigitIn(init[i], radix)
    ensures 0 <= DigitValue(s[|s| - 1])
  {
    assert IsDigitIn(s[|s| - 1], radix);
  }

  /** Splits an optional leading sign off: (is negative, rest). */
  function Unsign(t: string): (bool, string)
  {
    if t != [] && (t[0] == '-' || t[0] == '+') then (t[0] == '-', t[1..]) else (false, t)
  }

  /** parseInt(s) with no radix argument: leading white space, an optional
      sign, an optional `0x`/`0X` prefix selecting radix 16, then the longest
      run of digits; `None` is NaN (no digit at all). */
  function ParseInt(s: string): Option<int>
  {
    var t := Unsign(TrimStart(s));
    ParseMagnitude(t.0, t.1)
  }

  /** parseInt is NaN unless the text holds a digit, and negative only
      after a minus sign. */
  lemma ParseIntNaN(s: string)
    ensures ParseInt(s).Some? ==> exists i :: 0 <= i < |s| && IsDecimalDigit(s[i])
    ensures ParseInt(s).Some? && ParseInt(s).value < 0 ==> exists i :: 0 <= i < |s| && s[i] == '-'
  {
    var t := Unsign(TrimStart(s));
    var k := |s| - |t.1|;
    UnsignTail(s, TrimStart(s));
    MagnitudeStart(t.0, t.1);
    var m := ParseMagnitude(t.0, t.1);
    assert ParseInt(s) == m;
    if m.Some? {
      assert s[k] == t.1[0];
      if m.value < 0 {
        assert s[k - 1] == '-';
      }
    }
  }

  /** A magnitude reads only from a leading decimal digit, and is negative
      only when the sign said so. */
  lemma MagnitudeStart(neg: bool, u: string)
    ensures var m := ParseMagnitude(neg, u);
            m.Some? ==> u != [] && IsDecimalDigit(u[0]) && (m.value < 0 ==> neg)
  {
    var hex := |u| >= 2 && u[0] == '0' && (u[1] == 'x' || u[1] == 'X');
    if ParseMagnitude(neg, u).Some? && !hex {
      assert IsDigitIn(u[0], 10);
    }
  }

  /** What the sign split leaves of a suffix of the text is a suffix of
      the text, with the minus sign just before it when it reads negative. */
  lemma UnsignTail(s: string, t: string)
    requires |t| <= |s| && t == s[|s| - |t|..]
    ensures var u := Unsign(t).1;
            && u == s[|s| - |u|..]
            && (Unsign(t).0 ==> |u| < |s| && s[|s| - |u| - 1] == '-')
  {
    var k := |s| - |t|;
    if t != [] && (t[0] == '-' || t[0] == '+') {
      assert t[1..] == s[k + 1..];
      assert s[k] == t[0];
    }
  }

  /** The part of parseInt after the sign: the radix prefix and the digits. */
  function ParseMagnitude(neg: bool, u: string): Option<int>
  {
    var hex := |u| >= 2 && u[0] == '0' && (u[1] == 'x' || u[1] == 'X');
    if hex then ParseRun(neg, u[2..], 16) else ParseRun(neg, u, 10)
  }

  /** The longest run of digits in the radix, read as a number; `None`
      when there is no digit at all. */
  function ParseRun(neg: bool, body: string, radix: nat): Option<int>
  {
    var n := DigitRun(body, radix);
    if n == 0 then None
    else
      var v: int := DigitsValue(body[..n], radix);
      Some(if neg then -v else v)
  }

  // ---------------------------------------------------------------------
  // Number printing

  function DigitChar(d: int): (c: char)
    requires 0 <= d < 10
    ensures IsDecimalDigit(c) && DigitValue(c) == d
  {
    ('0' as int + d) as char
  }

  /** The decimal numeral of a natural number, without leading zeros. */
  function NatToString(n: nat): (r: string)
    ensures |r| >= 1 && forall i :: 0 <= i < |r| ==> IsDecimalDigit(r[i])
    ensures r[0] == '0' ==> n == 0
  {
    if n < 10 then [DigitChar(n)] else NatToString(n / 10) + [DigitChar(n % 10)]
  }

  /** Number.prototype.toString for an integer. */
  function IntToString(n: int): (r: string)
  {
    if n < 0 then "-" + NatToString(-n) else NatToString(n)
  }

  lemma {:induction false} NatToStringValue(n: nat)
    ensures DigitsValue(NatToString(n), 10) == n
  {
    var r := NatToString(n);
    if n >= 10 {
      NatToStringValue(n / 10);
      assert r[..|r| - 1] == NatToString(n / 10);
    }
  }

  /** Printing an integer and parsing it back with parseInt gives it back. */
  lemma IntToStringRoundTrip(n: int)
    ensures ParseInt(IntToString(n)) == Some(n)
  {
    var m: nat := if n < 0 then -n else n;
    NatToStringValue(m);
    if n < 0 {
      ParseMinusDigits(NatToString(m));
    } else {
      ParsePlainDigits(NatToString(m));
    }
  }

  /** parseInt of decimal digits. */
  lemma ParsePlainDigits(digits: string)
    requires |digits| >= 1 && forall i :: 0 <= i < |digits| ==> IsDigitIn(digits[i], 10)
    ensures ParseInt(digits) == Some(DigitsValue(digits, 10) as int)
  {
    UnsignDigits(digits);
    ParseUnsigned(digits, false, digits);
  }

  lemma UnsignDigits(digits: string)
    requires |digits| >= 1 && IsDigitIn(digits[0], 10)
    ensures Unsign(TrimStart(digits)) == (false, digits)
  {
    NoLeadingSpace(digits);
  }

  /** parseInt of a minus sign followed by decimal digits. */
  lemma ParseMinusDigits(digits: string)
    requires |digits| >= 1 && forall i :: 0 <= i < |digits| ==> IsDigitIn(digits[i], 10)
    ensures ParseInt("-" + digits) == Some(-(DigitsValue(digits, 10) as int))
  {
    var s := "-" + digits;
    NoLeadingSpace(s);
    assert s[1..] == digits;
    ParseUnsigned(s, true, digits);
  }

  lemma NoLeadingSpace(s: string)
    requires s != [] && (s[0] == '-' || IsDigitIn(s[0], 10))
    ensures TrimStart(s) == s
  {
    var c := s[0];
    assert '0' <= c <= '9' || c == '-';
    assert !IsSpace(c);
  }

  /** parseInt once the sign is split off a run of decimal digits. */
  lemma ParseUnsigned(s: string, neg: bool, u: string)
    requires |u| >= 1 && forall i :: 0 <= i < |u| ==> IsDigitIn(u[i], 10)
    requires Unsign(TrimStart(s)) == (neg, u)
    ensures var v: int := DigitsValue(u, 10);
            ParseInt(s) == Some(if neg then -v else v)
  {
    assert ParseInt(s) == ParseMagnitude(neg, u);
    DecimalMagnitude(neg, u);
  }

  lemma DecimalMagnitude(neg: bool, u: string)
    requires |u| >= 1 && forall i :: 0 <= i < |u| ==> IsDigitIn(u[i], 10)
    ensures var v: int := DigitsValue(u, 10);
            ParseMagnitude(neg, u) == Some(if neg then -v else v)
  {
    DecimalNotX(u);
    assert ParseMagnitude(neg, u) == ParseRun(neg, u, 10);
    WholeRun(neg, u, 10);
  }

  /** A text made only of digits is read whole. */
  lemma WholeRun(neg: bool, u: string, radix: nat)
    requires |u| >= 1 && forall i :: 0 <= i < |u| ==> IsDigitIn(u[i], radix)
    ensures var v: int := DigitsValue(u, radix);
            ParseRun(neg, u, radix) == Some(if neg then -v else v)
  {
    AllDigitsRun(u, radix);
    assert u[..|u|] == u;
  }

  /** Decimal digits never start with the `0x` prefix. */
  lemma DecimalNotX(u: string)
    requires forall i :: 0 <= i < |u| ==> IsDigitIn(u[i], 10)
    ensures !(|u| >= 2 && u[0] == '0' && (u[1] == 'x' || u[1] == 'X'))
  {
    if |u| >= 2 {
      assert IsDigitIn(u[1], 10);
    }
  }

  lemma {:induction false} AllDigitsRun(s: string, radix: int)
    requires forall i :: 0 <= i < |s| ==> IsDigitIn(s[i], radix)
    ensures DigitRun(s, radix) == |s|
  {
    if s != [] {
      AllDigitsRun(s[1..], radix);
    }
  }

  /** padStart(2, '0'). */
  function PadStart2(s: string): (r: string)
    ensures |r| == if |s| < 2 then 2 else |s|
    ensures r[|r| - |s|..] == s
  {
    if |s| >= 2 then s else if |s| == 1 then "0" + s else "00"
  }

  // ---------------------------------------------------------------------
  // parseFloat

  /** The exponent part of a decimal literal: (value, characters used);
      nothing is used unless at least one digit follows the marker. */
  function ExponentPart(s: string): (r: (int, nat))
    ensures r.1 <= |s|
  {
    if |s| >= 2 && (s[0] == 'e' || s[0] == 'E') then
      var (neg, u) := Unsign(s[1..]);
      var n := DigitRun(u, 10);
      if n == 0 then (0, 0)
      else
        var v: int := DigitsValue(u[..n], 10);
        (if neg then -v else v, |s| - |u| + n)
    else (0, 0)
  }

  /** parseFloat(s): the longest prefix (after white space) that reads as a
      signed decimal literal with optional fraction and exponent; `None` is
      NaN. The literal `Infinity` is not modelled and reads as `None`. */
  function ParseFloat(s: string): Option<real>
  {
    var t := Unsign(TrimStart(s));
    Signed(t.0, UnsignedDecimal(t.1))
  }

  /** A value read after a sign: negated after a minus sign. */
  function Signed(neg: bool, v: Option<real>): Option<real>
  {
    match v
    case None => None
    case Some(x) => Some(if neg then -x else x)
  }

  /** parseFloat is NaN unless the text holds a digit, and negative only
      after a minus sign. */
  lemma ParseFloatNaN(s: string)
    ensures ParseFloat(s).Some? ==> exists i :: 0 <= i < |s| && IsDecimalDigit(s[i])
    ensures ParseFloat(s).Some? && ParseFloat(s).value < 0.0 ==> exists i :: 0 <= i < |s| && s[i] == '-'
  {
    var t := Unsign(TrimStart(s));
    var m := Signed(t.0, UnsignedDecimal(t.1));
    UnsignTail(s, TrimStart(s));
    DecimalIn(s, |s| - |t.1|, t.0, t.1);
    assert ParseFloat(s) == m;
  }

  /** A decimal literal read from a suffix of the text holds a decimal digit
      of the text, and is negative only after a minus sign. */
  lemma DecimalIn(s: string, k: nat, neg: bool, u: string)
    requires k <= |s| && u == s[k..]
    requires neg ==> k >= 1 && s[k - 1] == '-'
    ensures var m := Signed(neg, UnsignedDecimal(u));
            && (m.Some? ==> exists i :: 0 <= i < |s| && IsDecimalDigit(s[i]))
            && (m.Some? && m.value < 0.0 ==> exists i :: 0 <= i < |s| && s[i] == '-')
  {
    UnsignedDecimalDigit(u);
    if UnsignedDecimal(u).Some? {
      var i :| 0 <= i < |u| && IsDecimalDigit(u[i]);
      assert s[k + i] == u[i];
      if neg {
        assert s[k - 1] == '-';
      }
    }
  }

  /** The unsigned decimal literal at the start of `u`. */
  function UnsignedDecimal(u: string): Option<real>
  {
    var ip := DigitRun(u, 10);
    var rest := u[ip..];
    var dot := rest != [] && rest[0] == '.';
    var frac := if dot then rest[1..] else [];
    var fp := DigitRun(frac, 10);
    if ip == 0 && fp == 0 then None
    else
      var mantissa := Mantissa(u[..ip], frac[..fp]);
      var (e, _) := ExponentPart(if dot then frac[fp..] else rest);
      Some(Scale(mantissa, e))
  }

  /** A decimal literal holds a digit, and its value is not negative. */
  lemma UnsignedDecimalDigit(u: string)
    ensures UnsignedDecimal(u).Some? ==>
              UnsignedDecimal(u).value >= 0.0 && exists i :: 0 <= i < |u| && IsDecimalDigit(u[i])
  {
    var ip := DigitRun(u, 10);
    if UnsignedDecimal(u).Some? {
      if ip > 0 {
        assert IsDigitIn(u[0], 10);
        assert IsDecimalDigit(u[0]);
      } else {
        var frac := u[1..];
        assert IsDigitIn(frac[0], 10);
        assert IsDecimalDigit(u[1]);
      }
    }
  }

  /** m times ten to the power e, one factor of ten at a time. */
  function Scale(m: real, e: int): (r: real)
    ensures m >= 0.0 ==> r >= 0.0
    ensures m > 0.0 ==> r > 0.0
    decreases if e >= 0 then e else -e
  {
    if e == 0 then m
    else if e > 0 then Scale(m, e - 1) * 10.0
    else Scale(m, e + 1) / 10.0
  }

  /** Integer digits plus fraction digits as a value. */
  function Mantissa(ip: string, fp: string): (r: real)
    requires forall i :: 0 <= i < |ip| ==> IsDigitIn(ip[i], 10)
    requires forall i :: 0 <= i < |fp| ==> IsDigitIn(fp[i], 10)
    ensures DigitsValue(ip, 10) as real <= r < DigitsValue(ip, 10) as real + 1.0
  {
    DigitsValue(ip, 10) as real + Fraction(fp)
  }

  /** The value of the digits after the decimal point: 0.d1d2... is
      (d1 + 0.d2...) / 10. */
  function Fraction(fp: string): (r: real)
    requires forall i :: 0 <= i < |fp| ==> IsDigitIn(fp[i], 10)
    ensures 0.0 <= r < 1.0
  {
    if fp == [] then 0.0
    else
      assert IsDigitIn(fp[0], 10);
      (DigitValue(fp[0]) as real + Fraction(fp[1..])) / 10.0
  }

  // ---------------------------------------------------------------------
  // split / join

  /** Number of occurrences of a character. */
  function Count(s: string, c: char): nat
  {
    if s == [] then 0 else (if s[0] == c then 1 else 0) + Count(s[1..], c)
  }

  /** String.prototype.split with a one-character separator. */
  function Split(s: string, sep: char): (parts: seq<string>)
    ensures |parts| == Count(s, sep) + 1
    ensures forall i, j :: 0 <= i < |parts| && 0 <= j < |parts[i]| ==> parts[i][j] != sep
  {
    if s == [] then [""]
    else
      var tail := Split(s[1..], sep);
      if s[0] == sep then [""] + tail
      else [[s[0]] + tail[0]] + tail[1..]
  }

  /** Appending in two steps is appending the two pieces at once. */
  lemma ConcatAssoc<T>(a: seq<T>, b: seq<T>, c: seq<T>)
    ensures (a + b) + c == a + (b + c)
  {
  }

  /** Array.prototype.join with a one-character separator. */
  function Join(parts: seq<string>, sep: char): string
  {
    if parts == [] then ""
    else if |parts| == 1 then parts[0]
    else parts[0] + [sep] + Join(parts[1..], sep)
  }

  /** Joining the pieces of a split gives back the original string. */
  lemma {:induction false} JoinSplit(s: string, sep: char)
    ensures Join(Split(s, sep), sep) == s
  {
    if s != [] {
      var tail := Split(s[1..], sep);
      JoinSplit(s[1..], sep);
      if s[0] == sep {
        assert Split(s, sep) == [""] + tail;
      } else {
        var parts := Split(s, sep);
        if |tail| == 1 {
          assert parts == [[s[0]] + tail[0]];
        } else {
          assert parts[1..] == tail[1..];
          assert Join(tail, sep) == tail[0] + [sep] + Join(tail[1..], sep);
        }
      }
    }
  }

  /** A piece without the separator, followed by the separator: the piece
      becomes the first part of the split. */
  lemma {:induction false} SplitAfterPiece(a: string, sep: char, r: string)
    requires forall j :: 0 <= j < |a| ==> a[j] != sep
    ensures Split(a + [sep] + r, sep) == [a] + Split(r, sep)
  {
    var s := a + [sep] + r;
    if a == [] {
      assert s[1..] == r;
    } else {
      SplitAfterPiece(a[1..], sep, r);
      assert s[1..] == a[1..] + [sep] + r;
      assert a == [a[0]] + a[1..];
    }
  }

  lemma {:induction false} SplitNoSeparator(a: string, sep: char)
    requires forall j :: 0 <= j < |a| ==> a[j] != sep
    ensures Split(a, sep) == [a]
  {
    if a != [] {
      SplitNoSeparator(a[1..], sep);
      assert a == [a[0]] + a[1..];
    }
  }

  /** Splitting a join gives the pieces back, provided no piece holds the
      separator. */
  lemma {:induction false} SplitJoin(parts: seq<string>, sep: char)
    requires |parts| >= 1
    requires forall i, j :: 0 <= i < |parts| && 0 <= j < |parts[i]| ==> parts[i][j] != sep
    ensures Split(Join(parts, sep), sep) == parts
  {
    if |parts| == 1 {
      SplitNoSeparator(parts[0], sep);
    } else {
      SplitJoin(parts[1..], sep);
      SplitAfterPiece(parts[0], sep, Join(parts[1..], sep));
      assert parts == [parts[0]] + parts[1..];
    }
  }

  /** A join of two or more pieces holds the separator. */
  lemma JoinHasSeparator(parts: seq<string>, sep: char)
    requires |parts| >= 2
    ensures sep in Join(parts, sep)
  {
    assert Join(parts, sep)[|parts[0]|] == sep;
  }

  /** The line split of a CSV file: `split(/\r?\n/)` (a carriage return
      directly before a line feed belongs to the separator). */
  function SplitLines(s: string): (lines: seq<string>)
    ensures |lines| == Count(s, '\n') + 1
  {
    var raw := Split(s, '\n');
    seq(|raw|, i requires 0 <= i < |raw| =>
      if i < |raw| - 1 && EndsInReturn(raw[i]) then raw[i][..|raw[i]| - 1] else raw[i])
  }

  /** The lines of a text: none holds a line feed; the last is the text
      after the last line feed, untouched; an earlier one is the text
      between two line feeds, less one carriage return exactly when that
      text ends in one. */
  lemma SplitLinesPieces(s: string)
    ensures var lines := SplitLines(s);
            var raw := Split(s, '\n');
            && (forall i, j :: 0 <= i < |lines| && 0 <= j < |lines[i]| ==> lines[i][j] != '\n')
            && lines[|lines| - 1] == raw[|lines| - 1]
            && forall i :: 0 <= i < |lines| - 1 ==>
                 if EndsInReturn(raw[i]) then raw[i] == lines[i] + "\r" else raw[i] == lines[i]
  {
    var lines := SplitLines(s);
    var raw := Split(s, '\n');
    forall i, j | 0 <= i < |lines| && 0 <= j < |lines[i]| ensures lines[i][j] != '\n' {
      assert lines[i][j] == raw[i][j];
    }
    forall i | 0 <= i < |lines| - 1 && EndsInReturn(raw[i]) ensures raw[i] == lines[i] + "\r" {
      assert raw[i] == raw[i][..|raw[i]| - 1] + [raw[i][|raw[i]| - 1]];
    }
  }

  predicate EndsInReturn(s: string)
  {
    s != [] && s[|s| - 1] == '\r'
  }

  /** Each line but the last with a carriage return appended: the pieces of
      a file written with CRLF line ends. */
  function WithReturns(lines: seq<string>): (r: seq<string>)
    requires |lines| >= 1
    ensures |r| == |lines| && r[|r| - 1] == lines[|lines| - 1]
    ensures forall i :: 0 <= i < |lines| - 1 ==> r[i] == lines[i] + "\r"
  {
    seq(|lines|, i requires 0 <= i < |lines| => if i < |lines| - 1 then lines[i] + "\r" else lines[i])
  }

  /** Lines joined with LF come back from the line split, provided no line
      holds a line feed and none but the last ends in a carriage return. */
  lemma SplitLinesJoin(lines: seq<string>)
    requires |lines| >= 1
    requires forall i, j :: 0 <= i < |lines| && 0 <= j < |lines[i]| ==> lines[i][j] != '\n'
    requires forall i :: 0 <= i < |lines| - 1 ==> !EndsInReturn(lines[i])
    ensures SplitLines(Join(lines, '\n')) == lines
  {
    SplitJoin(lines, '\n');
    SplitLinesPieces(Join(lines, '\n'));
  }

  /** Lines joined with CRLF come back from the line split, provided no line
      holds a line feed. */
  lemma SplitLinesJoinReturns(lines: seq<string>)
    requires |lines| >= 1
    requires forall i, j :: 0 <= i < |lines| && 0 <= j < |lines[i]| ==> lines[i][j] != '\n'
    ensures SplitLines(Join(WithReturns(lines), '\n')) == lines
  {
    var raw := WithReturns(lines);
    forall i, j | 0 <= i < |raw| && 0 <= j < |raw[i]| ensures raw[i][j] != '\n' {
      if i < |lines| - 1 && j == |lines[i]| {
        assert raw[i][j] == '\r';
      } else {
        assert raw[i][j] == lines[i][j];
      }
    }
    SplitJoin(raw, '\n');
    var out := SplitLines(Join(raw, '\n'));
    forall i | 0 <= i < |lines| ensures out[i] == lines[i] {
      if i < |lines| - 1 {
        assert EndsInReturn(raw[i]);
        assert raw[i][..|raw[i]| - 1] == lines[i];
      }
    }
  }

  // ---------------------------------------------------------------------
  // replace(/\s+/g, '_')

  /** Every maximal run of white space replaced by one underscore. */
  function UnderscoreSpaces(s: string): (r: string)
    ensures forall i :: 0 <= i < |r| ==> !IsSpace(r[i])
    ensures |r| <= |s|
    decreases |s|
  {
    if s == [] then []
    else if IsSpace(s[0]) then
      var t := TrimStart(s);
      ['_'] + UnderscoreSpaces(t)
    else [s[0]] + UnderscoreSpaces(s[1..])
  }

  /** A character that is not white space is kept in front of the rest. */
  lemma UnderscoreKeeps(c: char, t: string)
    requires !IsSpace(c)
    ensures UnderscoreSpaces([c] + t) == [c] + UnderscoreSpaces(t)
  {
    assert ([c] + t)[1..] == t;
  }

  /** A leading run of white space becomes one underscore. */
  lemma UnderscoreLeadingRun(sp: string, b: string)
    requires sp != [] && forall i :: 0 <= i < |sp| ==> IsSpace(sp[i])
    requires b == [] || !IsSpace(b[0])
    ensures UnderscoreSpaces(sp + b) == "_" + UnderscoreSpaces(b)
  {
    var s := sp + b;
    assert s[0] == sp[0];
    assert IsSpace(s[0]);
    TrimStartRun(sp, b);
  }

  /** Trimming the start of white space followed by a non-space start. */
  lemma TrimStartRun(sp: string, b: string)
    requires forall i :: 0 <= i < |sp| ==> IsSpace(sp[i])
    requires b == [] || !IsSpace(b[0])
    ensures TrimStart(sp + b) == b
  {
    var s := sp + b;
    var r := TrimStart(s);
    var j := |s| - |r|;
    assert forall k :: 0 <= k < |sp| ==> s[k] == sp[k];
    assert j >= |sp|;
    assert b != [] ==> s[|sp|] == b[0];
    assert j == |sp|;
    assert s[|sp|..] == b;
  }

  /** A string without white space is left as it is. */
  lemma {:induction false} UnderscoreSpacesNoSpace(s: string)
    requires forall i :: 0 <= i < |s| ==> !IsSpace(s[i])
    ensures UnderscoreSpaces(s) == s
  {
    if s != [] {
      UnderscoreSpacesNoSpace(s[1..]);
    }
  }

  // ---------------------------------------------------------------------
  // includes, startsWith

  predicate StartsWith(s: string, p: string)
  {
    |p| <= |s| && s[..|p|] == p
  }

  /** `hay` holds `needle` at position i. */
  predicate OccursAt(hay: string, needle: string, i: int)
  {
    0 <= i && i + |needle| <= |hay| && hay[i..i + |needle|] == needle
  }

  /** String.prototype.includes, scanning from the left. */
  function Includes(hay: string, needle: string): (b: bool)
    ensures b <==> exists i :: OccursAt(hay, needle, i)
    decreases |hay|
  {
    if StartsWith(hay, needle) then
      assert OccursAt(hay, needle, 0);
      true
    else if hay == [] then
      assert forall i :: !OccursAt(hay, needle, i);
      false
    else
      var b := Includes(hay[1..], needle);
      assert forall i :: OccursAt(hay[1..], needle, i) <==> OccursAt(hay, needle, i + 1) by {
        forall i ensures OccursAt(hay[1..], needle, i) <==> OccursAt(hay, needle, i + 1) {
          if 0 <= i && i + |needle| <= |hay| - 1 {
            assert hay[1..][i..i + |needle|] == hay[i + 1..i + 1 + |needle|];
          }
        }
      }
      assert !OccursAt(hay, needle, 0);
      assert b ==> exists i :: OccursAt(hay, needle, i) by {
        if b {
          var i :| OccursAt(hay[1..], needle, i);
          assert OccursAt(hay, needle, i + 1);
        }
      }
      assert (exists i :: OccursAt(hay, needle, i)) ==> b by {
        if exists i :: OccursAt(hay, needle, i) {
          var i :| OccursAt(hay, needle, i);
          assert i != 0;
          assert OccursAt(hay[1..], needle, i - 1);
        }
      }
      b
  }

  // ---------------------------------------------------------------------
  // Lower-case hexadecimal: b.toString(16).padStart(2, '0')

  const HEX_DIGITS: string := "0123456789abcdef"

  function HexDigit(d: int): (c: char)
    requires 0 <= d < 16
    ensures DigitValue(c) == d
  {
    HEX_DIGITS[d]
  }

  /** Two lower-case hexadecimal digits per octet, high nibble first. */
  function HexOf(data: seq<byte>): (h: string)
    ensures |h| == 2 * |data|
    ensures forall i :: 0 <= i < |data| ==>
              h[2 * i] == HexDigit(data[i] / 16) && h[2 * i + 1] == HexDigit(data[i] % 16)
  {
    if data == [] then ""
    else [HexDigit(data[0] / 16), HexDigit(data[0] % 16)] + HexOf(data[1..])
  }

  /** Reading a hexadecimal rendering back, two digits at a time. */
  function HexDecode(h: string): seq<byte>
    requires |h| % 2 == 0
    requires forall i :: 0 <= i < |h| ==> IsDigitIn(h[i], 16)
  {
    if h == [] then []
    else
      assert IsDigitIn(h[0], 16) && IsDigitIn(h[1], 16);
      [DigitValue(h[0]) * 16 + DigitValue(h[1])] + HexDecode(h[2..])
  }

  /** Every character of the rendering is a hexadecimal digit. */
  lemma HexOfDigits(data: seq<byte>)
    ensures forall i :: 0 <= i < |HexOf(data)| ==> IsDigitIn(HexOf(data)[i], 16)
  {
    var h := HexOf(data);
    forall i | 0 <= i < |h| ensures IsDigitIn(h[i], 16) {
      var k := i / 2;
      assert k < |data|;
      if i == 2 * k {
        assert h[i] == HexDigit(data[k] / 16);
      } else {
        assert h[i] == HexDigit(data[k] % 16);
      }
    }
  }

  /** The rendering loses nothing: it decodes back to the same octets. */
  lemma {:induction false} HexRoundTrip(data: seq<byte>)
    ensures forall i :: 0 <= i < |HexOf(data)| ==> IsDigitIn(HexOf(data)[i], 16)
    ensures HexDecode(HexOf(data)) == data
  {
    HexOfDigits(data);
    if data != [] {
      var h := HexOf(data);
      HexRoundTrip(data[1..]);
      assert h[2..] == HexOf(data[1..]);
      assert DigitValue(h[0]) * 16 + DigitValue(h[1]) == data[0];
    }
  }
}
