/**
 * The colour helpers of the settings dialog: the notes colours are kept as
 * "#rrggbbaa" strings, Qt names colours "#aarrggbb", and Qt style sheets take
 * "rgba(r, g, b, a)".
 */
module Color {
  import opened Wrappers
  import opened Text

  /** A string of the form the settings store: '#' and eight more characters. */
  predicate IsHashColor(s: string)
  {
    |s| == 9 && s[0] == '#'
  }

  /** Python's s[i:j] for 0 <= i, j: both ends are clamped to the string. */
  function Slice(s: string, i: nat, j: nat): (r: string)
    ensures j <= |s| && i <= j ==> r == s[i..j]
  {
    var hi := if j <= |s| then j else |s|;
    var lo := if i <= hi then i else hi;
    s[lo..hi]
  }

  /**
   * rgba_to_qcolor: the string handed to QColor. A "#rrggbbaa" string has its
   * alpha pair moved to the front; anything else is handed over unchanged.
   */
  function QColorName(s: string): (r: string)
    ensures IsHashColor(s) ==> IsHashColor(r)
    ensures !IsHashColor(s) ==> r == s
  {
    if |s| == 9 && s[0] == '#' then "#" + s[7..9] + s[1..7] else s
  }

  /** qcolor_to_rgba: from QColor's "#aarrggbb" name, the alpha pair moved to the back. */
  function RgbaFromName(argb: string): (r: string)
    ensures |r| == 1 + |Slice(argb, 3, 9)| + |Slice(argb, 1, 3)| && r[0] == '#'
  {
    "#" + Slice(argb, 3, 9) + Slice(argb, 1, 3)
  }

  /** An ASCII hexadecimal digit in either case, as the settings dialog's colour validator admits. */
  predicate IsHexDigit(c: char)
  {
    '0' <= c <= '9' || 'a' <= c <= 'f' || 'A' <= c <= 'F'
  }

  /** '#' and eight hexadecimal digits: the "#aarrggbb" or "#rrggbbaa" names QColor parses. */
  predicate IsHexColor(s: string)
  {
    IsHashColor(s) && forall i :: 1 <= i < 9 ==> IsHexDigit(s[i])
  }

  /** A hex colour whose letters are all lower case, the only case QColor's names use. */
  predicate IsLowerHexColor(s: string)
  {
    IsHexColor(s) && forall i :: 1 <= i < 9 ==> !('A' <= s[i] <= 'F')
  }

  /** A hex letter in lower case; every other character as it is. */
  function LowerHex(c: char): char
  {
    if 'A' <= c <= 'F' then (c as int + 32) as char else c
  }

  /** The string with each character passed through LowerHex. */
  function Lowered(s: string): (r: string)
    ensures |r| == |s| && forall i :: 0 <= i < |s| ==> r[i] == LowerHex(s[i])
  {
    seq(|s|, i requires 0 <= i < |s| => LowerHex(s[i]))
  }

  /**
   * QColor(name).name(HexArgb) for the names the settings hold: a QColor made
   * from "#aarrggbb" reports the same channels, written with lower-case digits.
   * Other names (Qt's named colours, invalid text) are None here.
   */
  function QtHexName(name: string): (r: Option<string>)
    ensures r.Some? <==> IsHexColor(name)
    ensures r.Some? ==> IsLowerHexColor(r.value) && |r.value| == |name|
    ensures r.Some? ==> forall i :: 0 <= i < |name| ==> r.value[i] == name[i] || r.value[i] == LowerHex(name[i])
  {
    if IsHexColor(name) then Some(Lowered(name)) else None
  }

  /**
   * A stored hex colour survives the trip through a QColor and back with its
   * digits in lower case: unchanged when it was lower case already.
   */
  lemma RgbaRoundTrip(s: string)
    requires IsHexColor(s)
    ensures IsHexColor(QColorName(s)) && QtHexName(QColorName(s)).Some?
    ensures RgbaFromName(QtHexName(QColorName(s)).value) == Lowered(s)
    ensures IsLowerHexColor(s) ==> RgbaFromName(QtHexName(QColorName(s)).value) == s
  {
    var q := QColorName(s);
    assert forall i :: 1 <= i < 3 ==> q[i] == s[i + 6];
    assert forall i :: 3 <= i < 9 ==> q[i] == s[i - 2];
    assert IsHexColor(q);
    var n := Lowered(q);
    var t := RgbaFromName(n);
    assert t == "#" + n[3..9] + n[1..3];
    assert forall i :: 1 <= i < 7 ==> t[i] == n[i + 2];
    assert forall i :: 7 <= i < 9 ==> t[i] == n[i - 6];
    assert t == Lowered(s);
    if IsLowerHexColor(s) {
      assert Lowered(s) == s;
    }
  }

  /** The validator admits upper-case digits, and those come back lowered. */
  lemma UpperCaseComesBackLowered()
    ensures IsHexColor("#FFAA00FF")
    ensures RgbaFromName(QtHexName(QColorName("#FFAA00FF")).value) == "#ffaa00ff"
  {
    RgbaRoundTrip("#FFAA00FF");
    assert Lowered("#FFAA00FF") == "#ffaa00ff";
  }

  /** A QColor name survives the trip to the stored form and back. */
  lemma ArgbRoundTrip(argb: string)
    requires IsHashColor(argb)
    ensures IsHashColor(RgbaFromName(argb))
    ensures QColorName(RgbaFromName(argb)) == argb
  {
    var r := RgbaFromName(argb);
    assert r[7..9] == argb[1..3] && r[1..7] == argb[3..9];
    assert argb == "#" + argb[1..3] + argb[3..9];
  }

  /** rgba_to_qss, from the four channels QColor reports. */
  function Qss(r: nat, g: nat, b: nat, a: nat): (q: string)
    ensures |q| >= 6 && q[..5] == "rgba(" && q[|q| - 1] == ')'
  {
    "rgba(" + NatToDecimal(r) + ", " + NatToDecimal(g) + ", " + NatToDecimal(b) + ", " + NatToDecimal(a) + ")"
  }

  /** A decimal channel, optionally after one space. */
  function Channel(p: string): Option<nat>
  {
    var d := if |p| >= 1 && p[0] == ' ' then p[1..] else p;
    if |d| >= 1 && AllDigits(d) then Some(DecimalValue(d)) else None
  }

  /** How a style sheet reads "rgba(r, g, b, a)": the four channels between the parentheses. */
  function ReadQss(t: string): Option<(nat, nat, nat, nat)>
  {
    if |t| < 6 || t[..5] != "rgba(" || t[|t| - 1] != ')' then None
    else
      var parts := SplitOn(t[5..|t| - 1], ',');
      if |parts| != 4 then None
      else
        match (Channel(parts[0]), Channel(parts[1]), Channel(parts[2]), Channel(parts[3]))
        case (Some(r), Some(g), Some(b), Some(a)) => Some((r, g, b, a))
        case _ => None
  }

  lemma DigitsHaveNoComma(n: nat)
    ensures ',' !in NatToDecimal(n) && ',' !in " " + NatToDecimal(n)
  {
  }

  lemma ChannelOf(n: nat, p: string)
    requires p == NatToDecimal(n) || p == " " + NatToDecimal(n)
    ensures Channel(p) == Some(n)
  {
    var d := NatToDecimal(n);
    DecimalRoundTrip(n);
    if p != d {
      assert p[1..] == d;
    }
  }

  /** Four comma-free pieces joined by commas split back into the same four. */
  lemma SplitFour(p0: string, p1: string, p2: string, p3: string)
    requires ',' !in p0 && ',' !in p1 && ',' !in p2 && ',' !in p3
    ensures SplitOn(p0 + [','] + (p1 + [','] + (p2 + [','] + p3)), ',') == [p0, p1, p2, p3]
  {
    var q2 := p2 + [','] + p3;
    var q1 := p1 + [','] + q2;
    var q0 := p0 + [','] + q1;
    SplitNone(p3, ',');
    SplitAfter(p2, ',', p3);
    SplitAfter(p1, ',', q2);
    SplitAfter(p0, ',', q1);
    assert SplitOn(q0, ',') == [p0] + ([p1] + ([p2] + [p3]));
    assert [p0] + ([p1] + ([p2] + [p3])) == [p0, p1, p2, p3];
  }

  /** The style-sheet text reads back as the four channels it was made from. */
  lemma QssRoundTrip(r: nat, g: nat, b: nat, a: nat)
    ensures ReadQss(Qss(r, g, b, a)) == Some((r, g, b, a))
  {
    var parts := [NatToDecimal(r), " " + NatToDecimal(g), " " + NatToDecimal(b), " " + NatToDecimal(a)];
    QssSplits(r, g, b, a, parts);
    ChannelsOf(r, g, b, a, parts);
    ReadChannels(Qss(r, g, b, a), parts, r, g, b, a);
  }

  lemma ChannelsOf(r: nat, g: nat, b: nat, a: nat, parts: seq<string>)
    requires parts == [NatToDecimal(r), " " + NatToDecimal(g), " " + NatToDecimal(b), " " + NatToDecimal(a)]
    ensures Channel(parts[0]) == Some(r) && Channel(parts[1]) == Some(g)
    ensures Channel(parts[2]) == Some(b) && Channel(parts[3]) == Some(a)
  {
    ChannelOf(r, parts[0]);
    ChannelOf(g, parts[1]);
    ChannelOf(b, parts[2]);
    ChannelOf(a, parts[3]);
  }

  lemma QssSplits(r: nat, g: nat, b: nat, a: nat, parts: seq<string>)
    requires parts == [NatToDecimal(r), " " + NatToDecimal(g), " " + NatToDecimal(b), " " + NatToDecimal(a)]
    ensures var t := Qss(r, g, b, a);
      |t| >= 6 && t[..5] == "rgba(" && t[|t| - 1] == ')' && SplitOn(t[5..|t| - 1], ',') == parts
  {
    var dr, dg, db, da := parts[0], parts[1], parts[2], parts[3];
    var inner := dr + [','] + (dg + [','] + (db + [','] + da));
    QssLayout(r, g, b, a, inner);
    DigitsHaveNoComma(r); DigitsHaveNoComma(g); DigitsHaveNoComma(b); DigitsHaveNoComma(a);
    SplitFour(dr, dg, db, da);
  }

  /** The text between "rgba(" and ")" is the four channels joined by commas. */
  lemma QssLayout(r: nat, g: nat, b: nat, a: nat, inner: string)
    requires inner == NatToDecimal(r) + [','] + (" " + NatToDecimal(g) + [','] + (" " + NatToDecimal(b) + [','] + " " + NatToDecimal(a)))
    ensures var t := Qss(r, g, b, a);
      |t| >= 6 && t[..5] == "rgba(" && t[|t| - 1] == ')' && t[5..|t| - 1] == inner
  {
    Joined("rgba(", NatToDecimal(r), NatToDecimal(g), NatToDecimal(b), NatToDecimal(a), ")", Qss(r, g, b, a));
  }

  /** Four pieces joined by ", " between a prefix and a suffix. */
  lemma Joined(pre: string, x0: string, x1: string, x2: string, x3: string, post: string, t: string)
    requires t == pre + x0 + ", " + x1 + ", " + x2 + ", " + x3 + post
    ensures |t| == |pre| + |x0| + |x1| + |x2| + |x3| + 6 + |post|
    ensures t[..|pre|] == pre && t[|t| - |post|..] == post
    ensures t[|pre|..|t| - |post|] == x0 + [','] + (" " + x1 + [','] + (" " + x2 + [','] + " " + x3))
  {
    var inner := x0 + [','] + (" " + x1 + [','] + (" " + x2 + [','] + " " + x3));
    assert x0 + ", " + x1 + ", " + x2 + ", " + x3 == inner;
    assert t == pre + inner + post;
  }

  /** ReadQss once the text between the parentheses is known to split into four pieces. */
  lemma ReadChannels(t: string, parts: seq<string>, r: nat, g: nat, b: nat, a: nat)
    requires |t| >= 6 && t[..5] == "rgba(" && t[|t| - 1] == ')' && SplitOn(t[5..|t| - 1], ',') == parts
    requires |parts| == 4 && Channel(parts[0]) == Some(r) && Channel(parts[1]) == Some(g)
    requires Channel(parts[2]) == Some(b) && Channel(parts[3]) == Some(a)
    ensures ReadQss(t) == Some((r, g, b, a))
  {
  }
}
