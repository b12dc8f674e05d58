/**
 * Character-level helpers shared by the model: ASCII digits and decimal numerals,
 * Python's whitespace classes and strip operations, and str.split/str.join on a
 * single character.
 */
module Text {
  import opened Wrappers
  import opened Errors

  predicate IsDigit(c: char) { '0' <= c <= '9' }

  predicate AllDigits(s: string) { forall i :: 0 <= i < |s| ==> IsDigit(s[i]) }

  function DigitValue(c: char): (d: nat)
    requires IsDigit(c)
    ensures d < 10
  {
    c as int - '0' as int
  }

  function DigitChar(d: nat): (c: char)
    requires d < 10
    ensures IsDigit(c) && DigitValue(c) == d
  {
    ('0' as int + d) as char
  }

  /** The value of a numeral written with ASCII digits (leading zeros allowed), as int() reads it. */
  function DecimalValue(s: string): nat
    requires AllDigits(s)
  {
    if s == [] then 0 else DecimalValue(s[..|s| - 1]) * 10 + DigitValue(s[|s| - 1])
  }

  /** str(n) for a natural number: no leading zeros, "0" for zero. */
  function NatToDecimal(n: nat): (s: string)
    ensures |s| >= 1 && AllDigits(s)
    ensures |s| == 1 <==> n < 10
    ensures n >= 10 ==> s[0] != '0'
  {
    if n < 10 then [DigitChar(n)] else NatToDecimal(n / 10) + [DigitChar(n % 10)]
  }

  lemma {:induction false} DecimalRoundTrip(n: nat)
    ensures DecimalValue(NatToDecimal(n)) == n
  {
    if n >= 10 {
      var s := NatToDecimal(n);
      assert s[..|s| - 1] == NatToDecimal(n / 10);
      DecimalRoundTrip(n / 10);
    }
  }

  lemma NatToDecimalLength(n: nat)
    ensures n < 100 ==> |NatToDecimal(n)| <= 2
  {
  }

  /** Two digits with a leading zero, as LiveSplit prints minutes, seconds and centiseconds. */
  function Pad2(n: nat): (s: string)
    requires n < 100
    ensures |s| == 2 && AllDigits(s) && DecimalValue(s) == n
  {
    var s := [DigitChar(n / 10), DigitChar(n % 10)];
    assert s[..1] == [DigitChar(n / 10)] && [DigitChar(n / 10)][..0] == [];
    assert DecimalValue(s[..1]) == n / 10;
    s
  }

  /** str(i) for any integer. */
  function IntToString(i: int): string
  {
    if i < 0 then "-" + NatToDecimal(-i) else NatToDecimal(i)
  }

  /** Digits with single underscores between them: the body int() accepts after an optional sign. */
  predicate IsNumeral(t: string)
  {
    && |t| >= 1 && IsDigit(t[0]) && IsDigit(t[|t| - 1])
    && (forall i :: 0 <= i < |t| ==> IsDigit(t[i]) || t[i] == '_')
    && (forall i :: 0 <= i < |t| - 1 ==> !(t[i] == '_' && t[i + 1] == '_'))
  }

  function RemoveUnderscores(t: string): (r: string)
    requires forall i :: 0 <= i < |t| ==> IsDigit(t[i]) || t[i] == '_'
    ensures AllDigits(r)
    ensures AllDigits(t) ==> r == t
  {
    if t == [] then [] else (if t[0] == '_' then [] else [t[0]]) + RemoveUnderscores(t[1..])
  }

  /** int(s) for a str: surrounding whitespace, an optional sign, then an ASCII numeral. */
  function ParseInt(s: string): Result<int, Exc>
  {
    var t := Strip(s);
    if |t| >= 1 && (t[0] == '-' || t[0] == '+') then
      if IsNumeral(t[1..]) then
        var v: int := DecimalValue(RemoveUnderscores(t[1..]));
        Ok(if t[0] == '-' then -v else v)
      else Err(ValueError)
    else if IsNumeral(t) then Ok(DecimalValue(RemoveUnderscores(t)))
    else Err(ValueError)
  }

  /**
   * int(s) succeeds exactly on a numeral with an optional sign once the
   * whitespace is stripped, and only a minus sign gives a negative value.
   */
  lemma ParseIntOutcomes(s: string)
    ensures var t := Strip(s);
      ParseInt(s).Ok? <==> IsNumeral(t) || (|t| >= 1 && (t[0] == '+' || t[0] == '-') && IsNumeral(t[1..]))
    ensures ParseInt(s).Ok? && ParseInt(s).value < 0 ==> Strip(s)[0] == '-'
    ensures ParseInt(s).Err? ==> ParseInt(s).error == ValueError
  {
    var t := Strip(s);
    if |t| >= 1 && (t[0] == '-' || t[0] == '+') {
      assert !IsNumeral(t) by {
        assert !IsDigit(t[0]) && t[0] != '_';
      }
    } else if IsNumeral(t) {
      assert DecimalValue(RemoveUnderscores(t)) >= 0;
    }
  }

  /** int(str(i)) == i */
  lemma ParseIntRoundTrip(i: int)
    ensures ParseInt(IntToString(i)) == Ok(i)
  {
    var n: nat := if i < 0 then -i else i;
    var d := NatToDecimal(n);
    NumeralOfNat(n);
    if i < 0 {
      ParseSigned(d);
      assert IntToString(i) == "-" + d;
    } else {
      ParseUnsigned(d);
    }
  }

  lemma ParseUnsigned(d: string)
    requires IsNumeral(d)
    ensures ParseInt(d) == Ok(DecimalValue(RemoveUnderscores(d)))
  {
    StripNumeral(d);
    assert !(d[0] == '-' || d[0] == '+');
  }

  lemma ParseSigned(d: string)
    requires IsNumeral(d)
    ensures ParseInt("-" + d) == Ok(-(DecimalValue(RemoveUnderscores(d)) as int))
  {
    var s := "-" + d;
    assert s[1..] == d;
    StripSigned(d);
  }

  lemma StripNumeral(d: string)
    requires IsNumeral(d)
    ensures Strip(d) == d
  {
    StripNoSpaceEnds(d);
  }

  lemma StripSigned(d: string)
    requires IsNumeral(d)
    ensures Strip("-" + d) == "-" + d
  {
    var s := "-" + d;
    assert s[0] == '-' && s[|s| - 1] == d[|d| - 1];
    StripNoSpaceEnds(s);
  }

  lemma NumeralOfNat(n: nat)
    ensures IsNumeral(NatToDecimal(n))
    ensures DecimalValue(RemoveUnderscores(NatToDecimal(n))) == n
  {
    DecimalRoundTrip(n);
  }

  /** int() rejects a string in which no character is a digit. */
  lemma ParseIntNeedsDigits(s: string)
    requires forall i :: 0 <= i < |s| ==> !IsDigit(s[i])
    ensures ParseInt(s) == Err(ValueError)
  {
    ParseIntOutcomes(s);
    var r := RStrip(s);
    var t := LStrip(r);
    assert forall i :: 0 <= i < |t| ==> t[i] == s[|r| - |t| + i];
    if |t| >= 1 {
      assert !IsDigit(t[0]);
      assert !IsNumeral(t[1..]) by {
        if |t| >= 2 {
          assert t[1..][0] == t[1] == s[|r| - |t| + 1];
        }
      }
    }
  }

  /** Python's str.isspace() for one character (the Unicode whitespace set). */
  predicate IsSpace(c: char)
  {
    || c == ' ' || '\t' <= c <= '\r' || '\U{1c}' <= c <= '\U{1f}'
    || c == '\U{85}' || c == '\U{a0}' || c == '\U{1680}' || '\U{2000}' <= c <= '\U{200a}'
    || c == '\U{2028}' || c == '\U{2029}' || c == '\U{202f}' || c == '\U{205f}' || c == '\U{3000}'
  }

  /** str.rstrip() with no argument. */
  function RStrip(s: string): (r: string)
    ensures |r| <= |s| && r == s[..|r|]
    ensures r == [] || !IsSpace(r[|r| - 1])
    ensures forall i :: |r| <= i < |s| ==> IsSpace(s[i])
  {
    if s != [] && IsSpace(s[|s| - 1]) then RStrip(s[..|s| - 1]) else s
  }

  /** str.lstrip() with no argument. */
  function LStrip(s: string): (r: string)
    ensures |r| <= |s| && r == s[|s| - |r|..]
    ensures r == [] || !IsSpace(r[0])
    ensures forall i :: 0 <= i < |s| - |r| ==> IsSpace(s[i])
  {
    if s != [] && IsSpace(s[0]) then LStrip(s[1..]) else s
  }

  /** str.strip() with no argument. */
  function Strip(s: string): string
  {
    LStrip(RStrip(s))
  }

  lemma StripNoSpaceEnds(s: string)
    requires s == [] || (!IsSpace(s[0]) && !IsSpace(s[|s| - 1]))
    ensures Strip(s) == s
  {
  }

  /** sep.join(parts) */
  function Join(sep: string, parts: seq<string>): string
  {
    if |parts| == 0 then "" else if |parts| == 1 then parts[0] else parts[0] + sep + Join(sep, parts[1..])
  }

  /** "".join(parts) */
  function Concat(parts: seq<string>): string
  {
    if parts == [] then "" else parts[0] + Concat(parts[1..])
  }

  /** s.split(c) for a one-character separator: never empty, one more piece than occurrences of c. */
  function SplitOn(s: string, c: char): (r: seq<string>)
    ensures |r| >= 1
    ensures forall i :: 0 <= i < |r| ==> c !in r[i]
  {
    if s == [] then [""]
    else if s[0] == c then [""] + SplitOn(s[1..], c)
    else var rest := SplitOn(s[1..], c); [[s[0]] + rest[0]] + rest[1..]
  }

  /** A piece without c, then c: split gives that piece first. */
  lemma {:induction false} SplitAfter(x: string, c: char, y: string)
    requires c !in x
    ensures SplitOn(x + [c] + y, c) == [x] + SplitOn(y, c)
  {
    if x == [] {
      assert x + [c] + y == [c] + y;
      assert ([c] + y)[1..] == y;
    } else {
      SplitAfter(x[1..], c, y);
      assert (x + [c] + y)[1..] == x[1..] + [c] + y;
      assert (x + [c] + y)[0] == x[0];
      assert [x[0]] + x[1..] == x;
    }
  }

  /** A text without c splits into itself alone. */
  lemma {:induction false} SplitNone(x: string, c: char)
    requires c !in x
    ensures SplitOn(x, c) == [x]
  {
    if x != [] {
      SplitNone(x[1..], c);
      assert [x[0]] + x[1..] == x;
    }
  }

  /** Every occurrence of c in s replaced by sub: the reference meaning of str.replace(c, sub). */
  function ReplaceChar(s: string, c: char, sub: string): (r: string)
    ensures sub == "" ==> c !in r
  {
    if s == [] then "" else (if s[0] == c then sub else [s[0]]) + ReplaceChar(s[1..], c, sub)
  }

  /** Replacing c by a text without d neither adds nor removes any other character d. */
  lemma {:induction false} ReplaceCharKeeps(s: string, c: char, sub: string, d: char)
    requires d != c && d !in sub
    ensures d in ReplaceChar(s, c, sub) <==> d in s
  {
    if s != [] {
      ReplaceCharKeeps(s[1..], c, sub, d);
      assert s == [s[0]] + s[1..];
    }
  }

  /** Joining the pieces of s.split(c) with sub is the same as replacing each c by sub. */
  lemma {:induction false} JoinSplitIsReplace(s: string, c: char, sub: string)
    ensures Join(sub, SplitOn(s, c)) == ReplaceChar(s, c, sub)
  {
    if s != [] {
      JoinSplitIsReplace(s[1..], c, sub);
      var rest := SplitOn(s[1..], c);
      if s[0] == c {
        assert SplitOn(s, c) == [""] + rest;
        assert ([""] + rest)[1..] == rest;
      } else {
        var parts := SplitOn(s, c);
        assert parts == [[s[0]] + rest[0]] + rest[1..];
        if |rest| == 1 {
          assert parts == [[s[0]] + rest[0]];
        } else {
          assert parts[1..] == rest[1..];
        }
      }
    }
  }
}
