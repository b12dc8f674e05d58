/**
 * parse_time: LiveSplit's "[H:]MM:SS.CC" reply read into a duration, in integer
 * milliseconds. Two regular expressions exist in the repository; both are modelled
 * as recognisers that follow Python's backtracking order.
 *
 *   newer: ^(?:(?P<hours>\d*):)?(?P<minutes>\d{1,2}):(?P<seconds>\d{2}).(?P<centiseconds>\d*)
 *   older: ^(?P<hours>\d*):?(?P<minutes>\d{1,2}):(?P<seconds>\d{2}).(?P<centiseconds>\d*)
 */
module TimeParser {
  import opened Wrappers
  import opened Errors
  import opened Text

  /** The index just past the run of ASCII digits that starts at i (what a greedy \d* reaches). */
  function DigitRunEnd(s: string, i: nat): (j: nat)
    requires i <= |s|
    ensures i <= j <= |s|
    ensures forall k :: i <= k < j ==> IsDigit(s[k])
    ensures j == |s| || !IsDigit(s[j])
    decreases |s| - i
  {
    if i < |s| && IsDigit(s[i]) then DigitRunEnd(s, i + 1) else i
  }

  lemma {:induction false} DigitRunAt(s: string, i: nat, j: nat)
    requires i <= j <= |s|
    requires forall k :: i <= k < j ==> IsDigit(s[k])
    requires j == |s| || !IsDigit(s[j])
    ensures DigitRunEnd(s, i) == j
    decreases j - i
  {
    if i < j {
      DigitRunAt(s, i + 1, j);
    }
  }

  /** The named groups of a match; hours is None when the optional hours group took no part. */
  datatype Groups = Groups(hours: Option<string>, minutes: string, seconds: string, centiseconds: string)

  /** The text a match consumed, given the character the `.` matched. */
  function Consumed(g: Groups, dot: char): string
  {
    (if g.hours.Some? then g.hours.value + ":" else "") + g.minutes + ":" + g.seconds + [dot] + g.centiseconds
  }

  predicate WellFormed(g: Groups)
  {
    && (g.hours.Some? ==> AllDigits(g.hours.value))
    && 1 <= |g.minutes| <= 2 && AllDigits(g.minutes)
    && |g.seconds| == 2 && AllDigits(g.seconds)
    && AllDigits(g.centiseconds)
  }

  /**
   * `\d{1,2}:\d{2}.\d*` anchored at p. The greedy \d{1,2} can only be followed by
   * ':' when the digit run at p has length 1 or 2, and the rest has no alternatives,
   * so at most one way to match exists. Gives minutes, seconds, centiseconds.
   */
  function MatchClock(s: string, p: nat): (r: Option<(string, string, string)>)
    requires p <= |s|
    ensures r.Some? ==> WellFormed(Groups(None, r.value.0, r.value.1, r.value.2))
  {
    var c := DigitRunEnd(s, p);
    if 1 <= c - p <= 2 && c + 3 < |s| && s[c] == ':' && IsDigit(s[c + 1]) && IsDigit(s[c + 2]) && s[c + 3] != '\n' then
      var e := DigitRunEnd(s, c + 4);
      Some((s[p..c], s[c + 1..c + 3], s[c + 4..e]))
    else None
  }

  /** Where the clock's pieces sit in s, and that the centiseconds run is maximal. */
  lemma ClockLayout(s: string, p: nat, m: string, sec: string, cs: string)
    requires p <= |s| && MatchClock(s, p) == Some((m, sec, cs))
    ensures
      var c := p + |m|;
      && c + 4 + |cs| <= |s|
      && s[p..c] == m && s[c] == ':' && s[c + 1..c + 3] == sec && s[c + 3] != '\n'
      && s[c + 4..c + 4 + |cs|] == cs
      && (c + 4 + |cs| == |s| || !IsDigit(s[c + 4 + |cs|]))
  {
  }

  /**
   * re.match with the newer pattern. The optional group is tried first; its greedy
   * \d* can be followed by ':' only at the end of the leading digit run k, so the
   * group either spans s[..k+1] or is skipped and the clock is matched at 0.
   */
  function Match(s: string): (r: Option<Groups>)
    ensures r.Some? ==> WellFormed(r.value)
  {
    var k := DigitRunEnd(s, 0);
    if k < |s| && s[k] == ':' && MatchClock(s, k + 1).Some? then
      var (m, sec, cs) := MatchClock(s, k + 1).value;
      Some(Groups(Some(s[..k]), m, sec, cs))
    else if MatchClock(s, 0).Some? then
      var (m, sec, cs) := MatchClock(s, 0).value;
      Some(Groups(None, m, sec, cs))
    else None
  }

  /**
   * re.match with the older pattern: \d* is greedy and backtracks one digit at a
   * time, and ':?' prefers to consume. After the full run k only a ':' can
   * follow; after k-1 digits the minutes are the last digit of the run. Giving
   * back more digits leaves the same text after the minutes (see
   * ShorterHoursFail), so re.match stops here.
   */
  function MatchOld(s: string): (r: Option<Groups>)
    ensures r.Some? ==> WellFormed(r.value) && r.value.hours.Some?
  {
    var k := DigitRunEnd(s, 0);
    if k < |s| && s[k] == ':' && MatchClock(s, k + 1).Some? then
      var (m, sec, cs) := MatchClock(s, k + 1).value;
      Some(Groups(Some(s[..k]), m, sec, cs))
    else if k >= 1 && MatchClock(s, k - 1).Some? then
      var (m, sec, cs) := MatchClock(s, k - 1).value;
      Some(Groups(Some(s[..k - 1]), m, sec, cs))
    else None
  }

  /** Under the older pattern the colon after the hours is optional. */
  function OldConsumed(g: Groups, colon: bool, dot: char): string
    requires g.hours.Some?
  {
    (if colon then g.hours.value + ":" else g.hours.value) + g.minutes + ":" + g.seconds + [dot] + g.centiseconds
  }

  /** The pieces of a clock matched at p, after the text before p; s[n] is what `.` matched. */
  lemma ClockPrefix(s: string, p: nat, before: string, m: string, sec: string, cs: string)
    requires p <= |s| && MatchClock(s, p) == Some((m, sec, cs)) && s[..p] == before
    ensures
      var n := p + |m| + 3;
      n < |s| && s[n] != '\n' && before + m + ":" + sec + [s[n]] + cs <= s
  {
    ClockLayout(s, p, m, sec, cs);
    var c := p + |m|;
    ClockPieces(s, p, c, c + 4 + |cs|);
  }

  /** A prefix of s cut into the pieces of a clock. */
  lemma ClockPieces(s: string, p: nat, c: nat, e: nat)
    requires p <= c && c + 4 <= e <= |s|
    ensures s[..p] + s[p..c] + [s[c]] + s[c + 1..c + 3] + [s[c + 3]] + s[c + 4..e] == s[..e]
  {
    assert s[..c] == s[..p] + s[p..c];
    assert s[..c + 1] == s[..c] + [s[c]];
    assert s[..c + 3] == s[..c + 1] + s[c + 1..c + 3];
    assert s[..c + 4] == s[..c + 3] + [s[c + 3]];
    assert s[..e] == s[..c + 4] + s[c + 4..e];
  }

  /** Where the `.` of a match sits: after the hours group (and its colon) and "MM:SS". */
  function DotIndex(g: Groups, colon: bool): nat
  {
    (if g.hours.Some? then |g.hours.value| else 0) + (if colon then 1 else 0) + |g.minutes| + 3
  }

  /** Soundness of Match: what it reports is a prefix of the input in the pattern's shape. */
  lemma MatchConsumesPrefix(s: string)
    requires Match(s).Some?
    ensures var n := DotIndex(Match(s).value, Match(s).value.hours.Some?);
      n < |s| && s[n] != '\n' && Consumed(Match(s).value, s[n]) <= s
  {
    var g := Match(s).value;
    MatchWays(s);
    if g.hours.Some? {
      SoundColon(s, g, |g.hours.value|);
    } else {
      SoundClockOnly(s, g);
    }
  }

  /** The way without hours: the clock at the start. */
  lemma SoundClockOnly(s: string, g: Groups)
    requires g.hours.None? && MatchClock(s, 0) == Some((g.minutes, g.seconds, g.centiseconds))
    ensures var n := DotIndex(g, false);
      n < |s| && s[n] != '\n' && Consumed(g, s[n]) <= s
  {
    ClockPrefix(s, 0, "", g.minutes, g.seconds, g.centiseconds);
  }

  /** The two ways Match succeeds: the hours group, ':' and the clock, or the clock at the start. */
  lemma MatchWays(s: string)
    requires Match(s).Some?
    ensures var g := Match(s).value;
      && (g.hours.Some? ==>
            var h := |g.hours.value|;
            h < |s| && g.hours.value == s[..h] && s[h] == ':' && MatchClock(s, h + 1) == Some((g.minutes, g.seconds, g.centiseconds)))
      && (g.hours.None? ==> MatchClock(s, 0) == Some((g.minutes, g.seconds, g.centiseconds)))
  {
  }

  /**
   * Soundness of MatchOld: the hours group, then a ':' exactly when one follows
   * it in s, then the clock.
   */
  lemma MatchOldConsumesPrefix(s: string)
    requires MatchOld(s).Some?
    ensures var g := MatchOld(s).value;
      var colon := |g.hours.value| < |s| && s[|g.hours.value|] == ':';
      var n := DotIndex(g, colon);
      n < |s| && s[n] != '\n' && OldConsumed(g, colon, s[n]) <= s
  {
    var g := MatchOld(s).value;
    var h := |g.hours.value|;
    OldWays(s);
    if s[h] == ':' {
      SoundColon(s, g, h);
    } else {
      OldSoundDigit(s, g, h);
    }
  }

  /** The way both patterns share: hours, ':', clock. */
  lemma SoundColon(s: string, g: Groups, h: nat)
    requires h < |s| && g.hours == Some(s[..h]) && s[h] == ':'
    requires MatchClock(s, h + 1) == Some((g.minutes, g.seconds, g.centiseconds))
    ensures var n := DotIndex(g, true);
      n < |s| && s[n] != '\n' && OldConsumed(g, true, s[n]) <= s && Consumed(g, s[n]) == OldConsumed(g, true, s[n])
  {
    assert s[..h + 1] == s[..h] + ":";
    ClockPrefix(s, h + 1, s[..h] + ":", g.minutes, g.seconds, g.centiseconds);
  }

  /** The backtracking ways: hours, then the clock straight after, inside the digit run. */
  lemma OldSoundDigit(s: string, g: Groups, h: nat)
    requires h < |s| && g.hours == Some(s[..h]) && s[h] != ':'
    requires MatchClock(s, h) == Some((g.minutes, g.seconds, g.centiseconds))
    ensures var n := DotIndex(g, false);
      n < |s| && s[n] != '\n' && OldConsumed(g, false, s[n]) <= s
  {
    ClockPrefix(s, h, s[..h], g.minutes, g.seconds, g.centiseconds);
  }

  /**
   * The two ways MatchOld succeeds: the hours group is a prefix of s, followed
   * either by ':' and the clock, or, one digit back, by the clock itself.
   */
  lemma OldWays(s: string)
    requires MatchOld(s).Some?
    ensures var g := MatchOld(s).value;
      var h := |g.hours.value|;
      && h < |s| && g.hours.value == s[..h]
      && (s[h] == ':' ==> MatchClock(s, h + 1) == Some((g.minutes, g.seconds, g.centiseconds)))
      && (s[h] != ':' ==> MatchClock(s, h) == Some((g.minutes, g.seconds, g.centiseconds)))
  {
    var k := DigitRunEnd(s, 0);
    if !(k < |s| && s[k] == ':' && MatchClock(s, k + 1).Some?) {
      assert IsDigit(s[k - 1]);
    }
  }

  /**
   * Backtracking \d* further than one digit cannot help: a clock that starts
   * two or more digits before the end of the leading run needs the same text
   * after the run as the clock one digit before the end.
   */
  lemma ShorterHoursFail(s: string, q: nat)
    requires q + 2 <= DigitRunEnd(s, 0)
    ensures MatchClock(s, q).Some? ==> MatchClock(s, DigitRunEnd(s, 0) - 1).Some?
  {
    var k := DigitRunEnd(s, 0);
    DigitRunAt(s, q, k);
    DigitRunAt(s, k - 1, k);
  }

  /** timedelta(hours=h, minutes=m, seconds=sec, milliseconds=cs*10), in milliseconds. */
  function Milliseconds(h: nat, m: nat, sec: nat, cs: nat): nat
  {
    ((h * 60 + m) * 60 + sec) * 1000 + cs * 10
  }

  /**
   * The arithmetic after a match: an absent or empty hours group counts as 0, and
   * int("") on an empty centiseconds group raises ValueError.
   */
  function FromGroups(g: Groups): Result<nat, Exc>
    requires WellFormed(g)
  {
    var hours := if g.hours.Some? && g.hours.value != "" then DecimalValue(g.hours.value) else 0;
    if g.centiseconds == "" then Err(ValueError)
    else Ok(Milliseconds(hours, DecimalValue(g.minutes), DecimalValue(g.seconds), DecimalValue(g.centiseconds)))
  }

  /** parse_time in src/splitguides/livesplit_client.py and src/splitnotes2/livesplit_client/messaging.py. */
  function ParseTime(s: string): Result<nat, Exc>
  {
    match Match(s)
    case None => Err(TypeError)   // match["hours"] on None
    case Some(g) => FromGroups(g)
  }

  /** parse_time in splitnotes2/util.py. */
  function ParseTimeOld(s: string): Result<nat, Exc>
  {
    match MatchOld(s)
    case None => Err(TypeError)
    case Some(g) => FromGroups(g)
  }

  /**
   * The outcomes of parse_time: a value exactly when the pattern matches with a
   * non-empty centiseconds group; TypeError when nothing matches (subscripting
   * None) and ValueError when int("") meets an empty centiseconds group.
   */
  lemma ParseTimeOutcomes(s: string)
    ensures ParseTime(s).Ok? <==> Match(s).Some? && Match(s).value.centiseconds != ""
    ensures ParseTime(s) == Err(TypeError) <==> Match(s).None?
    ensures ParseTime(s) == Err(ValueError) <==> Match(s).Some? && Match(s).value.centiseconds == ""
  {
  }

  /** The same three outcomes for the older parse_time and its pattern. */
  lemma ParseTimeOldOutcomes(s: string)
    ensures ParseTimeOld(s).Ok? <==> MatchOld(s).Some? && MatchOld(s).value.centiseconds != ""
    ensures ParseTimeOld(s) == Err(TypeError) <==> MatchOld(s).None?
    ensures ParseTimeOld(s) == Err(ValueError) <==> MatchOld(s).Some? && MatchOld(s).value.centiseconds == ""
  {
  }

  /** How LiveSplit prints a time: "H:MM:SS.CC" with hours, "M:SS.CC" or "MM:SS.CC" without. */
  function Render(h: nat, m: nat, sec: nat, cs: nat): string
    requires m < 60 && sec < 60 && cs < 100
  {
    (if h > 0 then NatToDecimal(h) + ":" + Pad2(m) else NatToDecimal(m)) + ":" + Pad2(sec) + "." + Pad2(cs)
  }

  /** A clock "MM:SS.CC" laid out at p and followed by a non-digit is what MatchClock finds at p. */
  lemma ClockAt(s: string, p: nat, mm: string, sec: string, cs: string)
    requires 1 <= |mm| <= 2 && AllDigits(mm) && |sec| == 2 && AllDigits(sec) && AllDigits(cs) && |cs| >= 1
    requires p + |mm| + 4 + |cs| <= |s|
    requires s[p..p + |mm|] == mm && s[p + |mm|] == ':' && s[p + |mm| + 1..p + |mm| + 3] == sec
    requires s[p + |mm| + 3] == '.' && s[p + |mm| + 4..p + |mm| + 4 + |cs|] == cs
    requires p + |mm| + 4 + |cs| == |s| || !IsDigit(s[p + |mm| + 4 + |cs|])
    ensures MatchClock(s, p) == Some((mm, sec, cs))
  {
    var c := p + |mm|;
    var e := c + 4 + |cs|;
    assert forall k :: p <= k < c ==> s[k] == s[p..c][k - p];
    DigitRunAt(s, p, c);
    assert s[c + 1] == sec[0] && s[c + 2] == sec[1];
    assert forall k :: c + 4 <= k < e ==> s[k] == s[c + 4..e][k - c - 4];
    DigitRunAt(s, c + 4, e);
  }

  /** ClockAt for text built by concatenation. */
  lemma ClockText(pre: string, mm: string, sec: string, cs: string, rest: string)
    requires 1 <= |mm| <= 2 && AllDigits(mm) && |sec| == 2 && AllDigits(sec) && AllDigits(cs) && |cs| >= 1
    requires rest == [] || !IsDigit(rest[0])
    ensures MatchClock(pre + mm + ":" + sec + "." + cs + rest, |pre|) == Some((mm, sec, cs))
  {
    var s := pre + mm + ":" + sec + "." + cs + rest;
    var p := |pre|;
    var c := p + |mm|;
    var e := c + 4 + |cs|;
    assert s[p..c] == mm;
    assert s[c + 1..c + 3] == sec;
    assert s[c + 4..e] == cs;
    assert e < |s| ==> s[e] == rest[0];
    ClockAt(s, p, mm, sec, cs);
  }

  /** No clock starts at a two-digit seconds field that is followed by '.'. */
  lemma NoClockAtSeconds(pre: string, sec: string, rest: string)
    requires |sec| == 2 && AllDigits(sec)
    ensures MatchClock(pre + sec + "." + rest, |pre|).None?
  {
    var s := pre + sec + "." + rest;
    var p := |pre|;
    assert IsDigit(s[p]) && IsDigit(s[p + 1]) && s[p + 2] == '.';
    DigitRunAt(s, p, p + 2);
  }

  /** The leading digit run of d + rest is d when rest does not start with a digit. */
  lemma LeadingRun(d: string, rest: string)
    requires AllDigits(d) && (rest == [] || !IsDigit(rest[0]))
    ensures DigitRunEnd(d + rest, 0) == |d| && (d + rest)[..|d|] == d
  {
    var s := d + rest;
    assert forall i :: 0 <= i < |d| ==> s[i] == d[i];
    DigitRunAt(s, 0, |d|);
  }

  /** With hours printed, both patterns take the hours group up to the first ':'. */
  lemma MatchWithHours(h: nat, m: nat, sec: nat, cs: nat, rest: string)
    requires h > 0 && m < 60 && sec < 60 && cs < 100
    requires rest == [] || !IsDigit(rest[0])
    ensures var g := Groups(Some(NatToDecimal(h)), Pad2(m), Pad2(sec), Pad2(cs));
      Match(Render(h, m, sec, cs) + rest) == Some(g) && MatchOld(Render(h, m, sec, cs) + rest) == Some(g)
  {
    var s := Render(h, m, sec, cs) + rest;
    var d, pm, ps, pc := NatToDecimal(h), Pad2(m), Pad2(sec), Pad2(cs);
    assert s == d + ":" + pm + ":" + ps + "." + pc + rest;
    HoursLayout(s, d, pm, ps, pc, rest);
    HoursMatch(s, d, pm, ps, pc);
    HoursMatchOld(s, d, pm, ps, pc);
  }

  /** In "H:MM:SS.CC" the leading run is the hours, a ':' follows, then the clock. */
  lemma HoursLayout(s: string, d: string, mm: string, sec: string, cs: string, rest: string)
    requires AllDigits(d) && 1 <= |mm| <= 2 && AllDigits(mm) && |sec| == 2 && AllDigits(sec) && AllDigits(cs) && |cs| >= 1
    requires rest == [] || !IsDigit(rest[0])
    requires s == d + ":" + mm + ":" + sec + "." + cs + rest
    ensures DigitRunEnd(s, 0) == |d| < |s| && s[|d|] == ':' && s[..|d|] == d
    ensures MatchClock(s, |d| + 1) == Some((mm, sec, cs))
  {
    var tail := ":" + mm + ":" + sec + "." + cs + rest;
    assert s == d + tail;
    LeadingRun(d, tail);
    ClockText(d + ":", mm, sec, cs, rest);
  }

  lemma HoursMatch(s: string, d: string, mm: string, sec: string, cs: string)
    requires DigitRunEnd(s, 0) == |d| < |s| && s[|d|] == ':' && s[..|d|] == d
    requires MatchClock(s, |d| + 1) == Some((mm, sec, cs))
    ensures Match(s) == Some(Groups(Some(d), mm, sec, cs))
  {
  }

  lemma HoursMatchOld(s: string, d: string, mm: string, sec: string, cs: string)
    requires DigitRunEnd(s, 0) == |d| < |s| && s[|d|] == ':' && s[..|d|] == d
    requires MatchClock(s, |d| + 1) == Some((mm, sec, cs))
    ensures MatchOld(s) == Some(Groups(Some(d), mm, sec, cs))
  {
  }

  /** Text "M:SS.CC" or "MM:SS.CC": the newer pattern skips its optional group. */
  lemma MatchClockOnly(s: string, mm: string, sec: string, cs: string, rest: string)
    requires 1 <= |mm| <= 2 && AllDigits(mm) && |sec| == 2 && AllDigits(sec) && AllDigits(cs) && |cs| >= 1
    requires rest == [] || !IsDigit(rest[0])
    requires s == mm + ":" + sec + "." + cs + rest
    ensures Match(s) == Some(Groups(None, mm, sec, cs))
  {
    ClockOnlyRun(s, mm, sec, cs, rest);
    assert s == [] + mm + ":" + sec + "." + cs + rest;
    ClockText([], mm, sec, cs, rest);
    MatchSkipsHours(s, |mm|, mm, sec, cs);
  }

  /** In "MM:SS.CC" the leading run is the minutes, and no clock starts after their ':'. */
  lemma ClockOnlyRun(s: string, mm: string, sec: string, cs: string, rest: string)
    requires 1 <= |mm| <= 2 && AllDigits(mm) && |sec| == 2 && AllDigits(sec) && AllDigits(cs) && |cs| >= 1
    requires rest == [] || !IsDigit(rest[0])
    requires s == mm + ":" + sec + "." + cs + rest
    ensures DigitRunEnd(s, 0) == |mm| < |s| && s[|mm|] == ':'
    ensures MatchClock(s, |mm| + 1).None?
  {
    var tail := ":" + sec + "." + cs + rest;
    assert s == mm + tail;
    LeadingRun(mm, tail);
    ClockOnlyNoHours(s, mm, sec, cs, rest);
  }

  lemma ClockOnlyNoHours(s: string, mm: string, sec: string, cs: string, rest: string)
    requires |sec| == 2 && AllDigits(sec)
    requires s == mm + ":" + sec + "." + cs + rest
    ensures MatchClock(s, |mm| + 1).None?
  {
    assert s == (mm + ":") + sec + "." + (cs + rest);
    NoClockAtSeconds(mm + ":", sec, cs + rest);
  }

  lemma MatchSkipsHours(s: string, k: nat, mm: string, sec: string, cs: string)
    requires k == DigitRunEnd(s, 0) && k < |s| && MatchClock(s, k + 1).None?
    requires MatchClock(s, 0) == Some((mm, sec, cs))
    ensures Match(s) == Some(Groups(None, mm, sec, cs))
  {
  }

  /**
   * The same text under the older pattern: \d* keeps all but the last minute digit,
   * so the hours group takes the tens digit of two-digit minutes.
   */
  lemma MatchOldClockOnly(mm: string, sec: string, cs: string, rest: string)
    requires 1 <= |mm| <= 2 && AllDigits(mm) && |sec| == 2 && AllDigits(sec) && AllDigits(cs) && |cs| >= 1
    requires rest == [] || !IsDigit(rest[0])
    ensures MatchOld(mm + ":" + sec + "." + cs + rest)
         == Some(Groups(Some(mm[..|mm| - 1]), mm[|mm| - 1..], sec, cs))
  {
    var s := mm + ":" + sec + "." + cs + rest;
    var k := |mm|;
    ClockOnlyRun(s, mm, sec, cs, rest);
    assert mm == mm[..k - 1] + mm[k - 1..];
    assert s == mm[..k - 1] + mm[k - 1..] + ":" + sec + "." + cs + rest;
    ClockText(mm[..k - 1], mm[k - 1..], sec, cs, rest);
    assert s[..k - 1] == mm[..k - 1];
    OldTakesLastDigit(s, k, mm[..k - 1], mm[k - 1..], sec, cs);
  }

  lemma OldTakesLastDigit(s: string, k: nat, h: string, mm: string, sec: string, cs: string)
    requires k == DigitRunEnd(s, 0) && 1 <= k < |s| && MatchClock(s, k + 1).None?
    requires MatchClock(s, k - 1) == Some((mm, sec, cs)) && s[..k - 1] == h
    ensures MatchOld(s) == Some(Groups(Some(h), mm, sec, cs))
  {
  }

  /**
   * What LiveSplit prints reads back as the same duration, whatever non-digit text
   * follows it: the match needs only a prefix.
   */
  lemma ParseTimeRoundTrip(h: nat, m: nat, sec: nat, cs: nat, rest: string)
    requires m < 60 && sec < 60 && cs < 100
    requires rest == [] || !IsDigit(rest[0])
    ensures ParseTime(Render(h, m, sec, cs) + rest) == Ok(Milliseconds(h, m, sec, cs))
  {
    if h > 0 {
      MatchWithHours(h, m, sec, cs, rest);
      DecimalRoundTrip(h);
      GroupsValue(Groups(Some(NatToDecimal(h)), Pad2(m), Pad2(sec), Pad2(cs)), h, m, sec, cs);
    } else {
      ClockOnlyRendered(m, sec, cs, rest);
      DecimalRoundTrip(m);
      GroupsValue(Groups(None, NatToDecimal(m), Pad2(sec), Pad2(cs)), 0, m, sec, cs);
    }
  }

  /** The duration of a match whose groups read as h, m, sec and cs. */
  lemma GroupsValue(g: Groups, h: nat, m: nat, sec: nat, cs: nat)
    requires WellFormed(g) && g.centiseconds != ""
    requires g.hours.Some? && g.hours.value != "" ==> DecimalValue(g.hours.value) == h
    requires g.hours.None? || g.hours.value == "" ==> h == 0
    requires DecimalValue(g.minutes) == m && DecimalValue(g.seconds) == sec && DecimalValue(g.centiseconds) == cs
    ensures FromGroups(g) == Ok(Milliseconds(h, m, sec, cs))
  {
  }

  /** Without hours, the newer pattern reads the minutes, seconds and centiseconds LiveSplit printed. */
  lemma ClockOnlyRendered(m: nat, sec: nat, cs: nat, rest: string)
    requires m < 60 && sec < 60 && cs < 100
    requires rest == [] || !IsDigit(rest[0])
    ensures Match(Render(0, m, sec, cs) + rest) == Some(Groups(None, NatToDecimal(m), Pad2(sec), Pad2(cs)))
  {
    NatToDecimalLength(m);
    var s := Render(0, m, sec, cs) + rest;
    assert s == NatToDecimal(m) + ":" + Pad2(sec) + "." + Pad2(cs) + rest;
    MatchClockOnly(s, NatToDecimal(m), Pad2(sec), Pad2(cs), rest);
  }

  /**
   * The older pattern on the same text: right when hours are printed or the minutes
   * have one digit; two-digit minutes without hours are read as one hour digit and
   * one minute digit.
   */
  lemma ParseTimeOldOnRendered(h: nat, m: nat, sec: nat, cs: nat, rest: string)
    requires m < 60 && sec < 60 && cs < 100
    requires rest == [] || !IsDigit(rest[0])
    ensures ParseTimeOld(Render(h, m, sec, cs) + rest)
         == Ok(if h == 0 && m >= 10 then Milliseconds(m / 10, m % 10, sec, cs) else Milliseconds(h, m, sec, cs))
  {
    if h > 0 {
      OldWithHoursParses(h, m, sec, cs, rest);
    } else if m < 10 {
      OldOneDigitParses(h, m, sec, cs, rest);
    } else {
      OldTwoDigitsParses(h, m, sec, cs, rest);
    }
  }

  lemma OldWithHoursParses(h: nat, m: nat, sec: nat, cs: nat, rest: string)
    requires h > 0 && m < 60 && sec < 60 && cs < 100
    requires rest == [] || !IsDigit(rest[0])
    ensures ParseTimeOld(Render(h, m, sec, cs) + rest) == Ok(Milliseconds(h, m, sec, cs))
  {
    MatchWithHours(h, m, sec, cs, rest);
    DecimalRoundTrip(h);
    GroupsValue(Groups(Some(NatToDecimal(h)), Pad2(m), Pad2(sec), Pad2(cs)), h, m, sec, cs);
  }

  lemma OldOneDigitParses(h: nat, m: nat, sec: nat, cs: nat, rest: string)
    requires h == 0 && m < 10 && sec < 60 && cs < 100
    requires rest == [] || !IsDigit(rest[0])
    ensures ParseTimeOld(Render(h, m, sec, cs) + rest) == Ok(Milliseconds(h, m, sec, cs))
  {
    var d := NatToDecimal(m);
    OldClockOnlyRendered(m, sec, cs, rest);
    OneMinuteDigit(m, d);
    GroupsValue(Groups(Some(d[..0]), d[0..], Pad2(sec), Pad2(cs)), 0, m, sec, cs);
  }

  lemma OldTwoDigitsParses(h: nat, m: nat, sec: nat, cs: nat, rest: string)
    requires h == 0 && 10 <= m < 60 && sec < 60 && cs < 100
    requires rest == [] || !IsDigit(rest[0])
    ensures ParseTimeOld(Render(h, m, sec, cs) + rest) == Ok(Milliseconds(m / 10, m % 10, sec, cs))
  {
    var d := NatToDecimal(m);
    OldClockOnlyRendered(m, sec, cs, rest);
    TwoMinuteDigits(m, d);
    GroupsValue(Groups(Some(d[..1]), d[1..], Pad2(sec), Pad2(cs)), m / 10, m % 10, sec, cs);
  }

  lemma OneMinuteDigit(m: nat, d: string)
    requires m < 10 && d == NatToDecimal(m)
    ensures |d| == 1 && d[..0] == "" && d[0..] == d && DecimalValue(d) == m
  {
    DecimalRoundTrip(m);
  }

  lemma TwoMinuteDigits(m: nat, d: string)
    requires 10 <= m < 100 && d == NatToDecimal(m)
    ensures |d| == 2 && d[..1] != "" && DecimalValue(d[..1]) == m / 10 && DecimalValue(d[1..]) == m % 10
  {
    NatToDecimalLength(m);
    assert d == NatToDecimal(m / 10) + [DigitChar(m % 10)];
    assert d[..1] == NatToDecimal(m / 10);
    DecimalRoundTrip(m / 10);
    assert d[1..][..0] == [];
  }

  /** Without hours, the older pattern gives the hours group all but the last minute digit. */
  lemma OldClockOnlyRendered(m: nat, sec: nat, cs: nat, rest: string)
    requires m < 60 && sec < 60 && cs < 100
    requires rest == [] || !IsDigit(rest[0])
    ensures var d := NatToDecimal(m);
      MatchOld(Render(0, m, sec, cs) + rest) == Some(Groups(Some(d[..|d| - 1]), d[|d| - 1..], Pad2(sec), Pad2(cs)))
  {
    var d := NatToDecimal(m);
    NatToDecimalLength(m);
    assert Render(0, m, sec, cs) + rest == d + ":" + Pad2(sec) + "." + Pad2(cs) + rest;
    MatchOldClockOnly(d, Pad2(sec), Pad2(cs), rest);
  }

  /** Text that starts with neither a digit nor ':' has no match; subscripting None raises TypeError. */
  lemma ParseTimeRejectsNonNumeric(s: string)
    requires s == [] || (!IsDigit(s[0]) && s[0] != ':')
    ensures ParseTime(s) == Err(TypeError) && ParseTimeOld(s) == Err(TypeError)
  {
    DigitRunAt(s, 0, 0);
  }

  /** The replies the client's own test suite feeds to parse_time, as Render prints them. */
  lemma RenderedExamples()
    ensures Render(0, 15, 32, 34) == "15:32.34"
    ensures Render(1, 10, 46, 91) == "1:10:46.91"
    ensures Render(0, 0, 42, 12) == "0:42.12"
    ensures Render(0, 0, 0, 2) == "0:00.02"
  {
    RenderedMinutes();
    RenderedHours();
    RenderedSeconds();
  }

  lemma RenderedMinutes()
    ensures Render(0, 15, 32, 34) == "15:32.34"
  {
    assert NatToDecimal(15) == "15";
    assert Pad2(32) == "32" && Pad2(34) == "34";
  }

  lemma RenderedHours()
    ensures Render(1, 10, 46, 91) == "1:10:46.91"
  {
    assert Pad2(10) == "10" && Pad2(46) == "46" && Pad2(91) == "91";
  }

  lemma RenderedSeconds()
    ensures Render(0, 0, 42, 12) == "0:42.12"
    ensures Render(0, 0, 0, 2) == "0:00.02"
  {
    assert Pad2(42) == "42" && Pad2(12) == "12";
    assert Pad2(0) == "00" && Pad2(2) == "02";
  }

  /** ParseTime on a rendered time with nothing after it. */
  lemma ParseRendered(h: nat, m: nat, sec: nat, cs: nat, text: string)
    requires m < 60 && sec < 60 && cs < 100 && text == Render(h, m, sec, cs)
    ensures ParseTime(text) == Ok(Milliseconds(h, m, sec, cs))
    ensures ParseTimeOld(text)
         == Ok(if h == 0 && m >= 10 then Milliseconds(m / 10, m % 10, sec, cs) else Milliseconds(h, m, sec, cs))
  {
    assert text + "" == text;
    ParseTimeRoundTrip(h, m, sec, cs, "");
    ParseTimeOldOnRendered(h, m, sec, cs, "");
  }

  /** The replies the client's own test suite feeds to parse_time, and the durations it expects. */
  lemma ParseTimeExamples()
    ensures ParseTime("15:32.34") == Ok(932340)
    ensures ParseTime("1:10:46.91") == Ok(4246910)
    ensures ParseTime("0:42.12") == Ok(42120)
    ensures ParseTime("0:00.02") == Ok(20)
  {
    RenderedExamples();
    ParseRendered(0, 15, 32, 34, "15:32.34");
    ParseRendered(1, 10, 46, 91, "1:10:46.91");
    ParseRendered(0, 0, 42, 12, "0:42.12");
    ParseRendered(0, 0, 0, 2, "0:00.02");
  }

  /**
   * The older pattern reads the fifteen minutes of "15:32.34" as one hour and five
   * minutes, while it still reads a time with hours correctly.
   */
  lemma ParseTimeOldMisreadsMinutes()
    ensures ParseTimeOld("15:32.34") == Ok(3932340)
    ensures ParseTime("15:32.34") == Ok(932340)
    ensures ParseTimeOld("1:10:46.91") == Ok(4246910)
  {
    RenderedExamples();
    ParseRendered(0, 15, 32, 34, "15:32.34");
    ParseRendered(1, 10, 46, 91, "1:10:46.91");
  }
}
