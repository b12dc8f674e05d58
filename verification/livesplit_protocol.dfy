/**
 * The LiveSplit Server text protocol as LivesplitMessaging and LivesplitHandler
 * speak it: one command per line, UTF-8, terminated by "\r\n"; replies come back
 * the same way and are read as text, a duration or an integer.
 */
module LivesplitProtocol {
  import opened Wrappers
  import opened Errors
  import opened Text
  import opened Utf8
  import TimeParser

  /** The commands the messaging classes send, one constructor per method. */
  datatype Command =
    | StartTimer | StartOrSplit | Split | Unsplit | SkipSplit | Pause | Resume | Reset
    | InitGameTime | SetGameTime(time: string) | SetLoadingTimes(time: string)
    | PauseGameTime | UnpauseGameTime | SetComparison(comparison: string)
    | GetDelta(against: Option<string>)
    | GetLastSplitTime | GetComparisonSplitTime | GetCurrentTime
    | GetFinalTime(against: Option<string>)
    | GetPredictedTime(comparison: string)
    | GetBestPossibleTime | GetSplitIndex
    | GetCurrentSplitName | GetPreviousSplitName | GetCurrentTimerPhase

  /** Python's `if comparison:` — None and the empty string are both false. */
  predicate Given(c: Option<string>)
  {
    c.Some? && c.value != ""
  }

  /** The first word of the command line. */
  function Keyword(cmd: Command): string
  {
    match cmd
    case StartTimer => "starttimer"
    case StartOrSplit => "startorsplit"
    case Split => "split"
    case Unsplit => "unsplit"
    case SkipSplit => "skipsplit"
    case Pause => "pause"
    case Resume => "resume"
    case Reset => "reset"
    case InitGameTime => "initgametime"
    case SetGameTime(_) => "setgametime"
    case SetLoadingTimes(_) => "setloadingtimes"
    case PauseGameTime => "pausegametime"
    case UnpauseGameTime => "unpausegametime"
    case SetComparison(_) => "setcomparison"
    case GetDelta(_) => "getdelta"
    case GetLastSplitTime => "getlastsplittime"
    case GetComparisonSplitTime => "getcomparisonsplittime"
    case GetCurrentTime => "getcurrenttime"
    case GetFinalTime(_) => "getfinaltime"
    case GetPredictedTime(_) => "getpredictedtime"
    case GetBestPossibleTime => "getbestpossibletime"
    case GetSplitIndex => "getsplitindex"
    case GetCurrentSplitName => "getcurrentsplitname"
    case GetPreviousSplitName => "getprevioussplitname"
    case GetCurrentTimerPhase => "getcurrenttimerphase"
  }

  /** The text after the keyword and a space, when the command line has one. */
  function Argument(cmd: Command): Option<string>
  {
    match cmd
    case SetGameTime(t) => Some(t)
    case SetLoadingTimes(t) => Some(t)
    case SetComparison(c) => Some(c)
    case GetPredictedTime(c) => Some(c)
    case GetDelta(c) => if Given(c) then c else None
    case GetFinalTime(c) => if Given(c) then c else None
    case _ => None
  }

  /** The f-string each method passes to send. */
  function Message(cmd: Command): string
  {
    if Argument(cmd).Some? then Keyword(cmd) + " " + Argument(cmd).value else Keyword(cmd)
  }

  /** The kind of reply a command waits for: None for the commands that only send. */
  datatype ReplyKind = TextReply | TimeReply | IntReply

  function Expected(cmd: Command): Option<ReplyKind>
  {
    match cmd
    case GetDelta(_) => Some(TextReply)
    case GetCurrentSplitName => Some(TextReply)
    case GetPreviousSplitName => Some(TextReply)
    case GetCurrentTimerPhase => Some(TextReply)
    case GetLastSplitTime => Some(TimeReply)
    case GetComparisonSplitTime => Some(TimeReply)
    case GetCurrentTime => Some(TimeReply)
    case GetFinalTime(_) => Some(TimeReply)
    case GetPredictedTime(_) => Some(TimeReply)
    case GetBestPossibleTime => Some(TimeReply)
    case GetSplitIndex => Some(IntReply)
    case _ => None
  }

  /** message.encode("UTF8") + b"\r\n" */
  function Frame(message: string): (f: seq<Byte>)
    ensures |f| >= 2 && f[|f| - 2..] == CRLF
  {
    Encode(message) + CRLF
  }

  predicate NoLineBreak(s: string)
  {
    forall i :: 0 <= i < |s| ==> s[i] != '\r' && s[i] != '\n'
  }

  /** A message whose argument holds no line break is exactly one line: CR and LF occur only at the end. */
  lemma FrameIsOneLine(cmd: Command)
    requires Argument(cmd).Some? ==> NoLineBreak(Argument(cmd).value)
    ensures var f := Frame(Message(cmd));
      forall i :: 0 <= i < |f| - 2 ==> f[i] != CR && f[i] != LF
  {
    var m := Message(cmd);
    KeywordIsWord(cmd);
    assert NoLineBreak(Keyword(cmd));
    assert NoLineBreak(m);
    EncodeAvoidsAscii(m, CR);
    EncodeAvoidsAscii(m, LF);
    var f := Frame(m);
    assert forall i :: 0 <= i < |f| - 2 ==> f[i] == Encode(m)[i];
  }

  /** The commands with no argument, in the order of the class. */
  const Plain: seq<Command> := [
    StartTimer, StartOrSplit, Split, Unsplit, SkipSplit, Pause, Resume, Reset, InitGameTime,
    PauseGameTime, UnpauseGameTime, GetDelta(None), GetLastSplitTime, GetComparisonSplitTime,
    GetCurrentTime, GetFinalTime(None), GetBestPossibleTime, GetSplitIndex,
    GetCurrentSplitName, GetPreviousSplitName, GetCurrentTimerPhase]

  /** The index of the first space at or after i, or |s|. */
  function FirstSpace(s: string, i: nat): (j: nat)
    requires i <= |s|
    ensures i <= j <= |s| && (j < |s| ==> s[j] == ' ')
    ensures forall k :: i <= k < j ==> s[k] != ' '
    decreases |s| - i
  {
    if i == |s| || s[i] == ' ' then i else FirstSpace(s, i + 1)
  }

  /** The first of the candidate commands whose keyword is the given word. */
  function FindKeyword(word: string, cands: seq<Command>): Option<Command>
  {
    if cands == [] then None
    else if Keyword(cands[0]) == word then Some(cands[0])
    else FindKeyword(word, cands[1..])
  }

  function WithArgument(word: string, arg: string): Option<Command>
  {
    if word == "setgametime" then Some(SetGameTime(arg))
    else if word == "setloadingtimes" then Some(SetLoadingTimes(arg))
    else if word == "setcomparison" then Some(SetComparison(arg))
    else if word == "getdelta" then Some(GetDelta(Some(arg)))
    else if word == "getfinaltime" then Some(GetFinalTime(Some(arg)))
    else if word == "getpredictedtime" then Some(GetPredictedTime(arg))
    else None
  }

  /**
   * How the server reads a command line: the word before the first space names
   * the command, and everything after that space is its argument.
   */
  function ReadCommand(line: string): Option<Command>
  {
    var i := FirstSpace(line, 0);
    if i == |line| then FindKeyword(line, Plain) else WithArgument(line[..i], line[i + 1..])
  }

  /** The command as the server sees it: an empty comparison is the same as none. */
  function Normal(cmd: Command): Command
  {
    match cmd
    case GetDelta(c) => if Given(c) then cmd else GetDelta(None)
    case GetFinalTime(c) => if Given(c) then cmd else GetFinalTime(None)
    case _ => cmd
  }

  predicate IsWord(w: string)
  {
    forall k :: 0 <= k < |w| ==> 'a' <= w[k] <= 'z'
  }

  /** Keywords are lower-case words (checked a few constructors at a time). */
  lemma KeywordIsWord(cmd: Command)
    ensures IsWord(Keyword(cmd))
  {
    if Code(cmd) < 5 {
      TimerKeywordsAreWords(cmd);
    } else if Code(cmd) < 10 {
      PauseKeywordsAreWords(cmd);
    } else if Code(cmd) < 15 {
      SetterKeywordsAreWords(cmd);
    } else if Code(cmd) < 20 {
      TimeKeywordsAreWords(cmd);
    } else {
      QueryKeywordsAreWords(cmd);
    }
  }

  lemma TimerKeywordsAreWords(cmd: Command)
    requires Code(cmd) < 5
    ensures IsWord(Keyword(cmd))
  {
  }

  lemma PauseKeywordsAreWords(cmd: Command)
    requires 5 <= Code(cmd) < 10
    ensures IsWord(Keyword(cmd))
  {
  }

  lemma SetterKeywordsAreWords(cmd: Command)
    requires 10 <= Code(cmd) < 15
    ensures IsWord(Keyword(cmd))
  {
  }

  lemma TimeKeywordsAreWords(cmd: Command)
    requires 15 <= Code(cmd) < 20
    ensures IsWord(Keyword(cmd))
  {
  }

  lemma QueryKeywordsAreWords(cmd: Command)
    requires 20 <= Code(cmd)
    ensures IsWord(Keyword(cmd))
  {
  }

  /** The constructor's position in the declaration, 0 to 24. */
  function Code(cmd: Command): nat
  {
    match cmd
    case StartTimer => 0 case StartOrSplit => 1 case Split => 2 case Unsplit => 3
    case SkipSplit => 4 case Pause => 5 case Resume => 6 case Reset => 7
    case InitGameTime => 8 case SetGameTime(_) => 9 case SetLoadingTimes(_) => 10
    case PauseGameTime => 11 case UnpauseGameTime => 12 case SetComparison(_) => 13
    case GetDelta(_) => 14 case GetLastSplitTime => 15 case GetComparisonSplitTime => 16
    case GetCurrentTime => 17 case GetFinalTime(_) => 18 case GetPredictedTime(_) => 19
    case GetBestPossibleTime => 20 case GetSplitIndex => 21 case GetCurrentSplitName => 22
    case GetPreviousSplitName => 23 case GetCurrentTimerPhase => 24
  }

  /** The constructor position a keyword stands for: length, first and fourth letter tell the 25 keywords apart. */
  function CodeOf(w: string): nat
  {
    if |w| < 5 then 25
    else match (|w|, w[0], w[3])
      case (10, 's', 'r') => 0 case (12, 's', 'r') => 1 case (5, 's', 'i') => 2
      case (7, 'u', 'p') => 3 case (9, 's', 'p') => 4 case (5, 'p', 's') => 5
      case (6, 'r', 'u') => 6 case (5, 'r', 'e') => 7 case (12, 'i', 't') => 8
      case (11, 's', 'g') => 9 case (15, 's', 'l') => 10 case (13, 'p', 's') => 11
      case (15, 'u', 'a') => 12 case (13, 's', 'c') => 13 case (8, 'g', 'd') => 14
      case (16, 'g', 'l') => 15 case (22, 'g', 'c') => 16 case (14, 'g', 'c') => 17
      case (12, 'g', 'f') => 18 case (16, 'g', 'p') => 19 case (19, 'g', 'b') => 20
      case (13, 'g', 's') => 21 case (19, 'g', 'c') => 22 case (20, 'g', 'p') => 23
      case (20, 'g', 'c') => 24
      case _ => 25
  }

  /** The keyword names its constructor. */
  lemma KeywordCode(cmd: Command)
    ensures CodeOf(Keyword(cmd)) == Code(cmd)
  {
    if Code(cmd) < 9 {
      ActionKeywordCode(cmd);
    } else if Code(cmd) < 17 {
      SetterKeywordCode(cmd);
    } else {
      QueryKeywordCode(cmd);
    }
  }

  lemma ActionKeywordCode(cmd: Command)
    requires Code(cmd) < 9
    ensures CodeOf(Keyword(cmd)) == Code(cmd)
  {
  }

  lemma SetterKeywordCode(cmd: Command)
    requires 9 <= Code(cmd) < 17
    ensures CodeOf(Keyword(cmd)) == Code(cmd)
  {
  }

  lemma QueryKeywordCode(cmd: Command)
    requires 17 <= Code(cmd)
    ensures CodeOf(Keyword(cmd)) == Code(cmd)
  {
  }

  /** The command with this constructor position and this argument, in normal form. */
  function FromCode(code: nat, arg: Option<string>): Command
  {
    var a := if arg.Some? then arg.value else "";
    match code
    case 0 => StartTimer case 1 => StartOrSplit case 2 => Split case 3 => Unsplit
    case 4 => SkipSplit case 5 => Pause case 6 => Resume case 7 => Reset
    case 8 => InitGameTime case 9 => SetGameTime(a) case 10 => SetLoadingTimes(a)
    case 11 => PauseGameTime case 12 => UnpauseGameTime case 13 => SetComparison(a)
    case 14 => GetDelta(arg) case 15 => GetLastSplitTime case 16 => GetComparisonSplitTime
    case 17 => GetCurrentTime case 18 => GetFinalTime(arg) case 19 => GetPredictedTime(a)
    case 20 => GetBestPossibleTime case 21 => GetSplitIndex case 22 => GetCurrentSplitName
    case 23 => GetPreviousSplitName case _ => GetCurrentTimerPhase
  }

  /** Constructor position and argument rebuild the command, up to Normal. */
  lemma FromCodeNormal(cmd: Command)
    ensures FromCode(Code(cmd), Argument(cmd)) == Normal(cmd)
  {
  }

  /** Two commands with the same keyword and argument are the same command, up to Normal. */
  lemma SameLine(a: Command, b: Command)
    requires Keyword(a) == Keyword(b) && Argument(a) == Argument(b)
    ensures Normal(a) == Normal(b)
  {
    KeywordCode(a);
    KeywordCode(b);
    FromCodeNormal(a);
    FromCodeNormal(b);
  }

  /** Every command without an argument is, up to Normal, in the plain list. */
  lemma PlainComplete(cmd: Command)
    requires Argument(cmd).None?
    ensures Normal(cmd) in Plain
  {
  }

  /** Each candidate is a command without an argument, in normal form. */
  predicate NormalCandidates(cands: seq<Command>)
  {
    forall k :: 0 <= k < |cands| ==> Argument(cands[k]).None? && Normal(cands[k]) == cands[k]
  }

  /** The plain list holds commands without arguments, each in normal form. */
  lemma PlainNormal()
    ensures NormalCandidates(Plain)
  {
  }

  /** Among normal candidates, the search by keyword finds the command's normal form. */
  lemma {:induction false} FindKeywordFinds(cmd: Command, cands: seq<Command>)
    requires NormalCandidates(cands) && Argument(cmd).None? && Normal(cmd) in cands
    ensures FindKeyword(Keyword(cmd), cands) == Some(Normal(cmd))
  {
    var c := cands[0];
    assert Argument(c).None? && Normal(c) == c;
    if Keyword(c) == Keyword(cmd) {
      SameLine(c, cmd);
    } else {
      assert Keyword(Normal(cmd)) == Keyword(cmd);
      assert c != Normal(cmd);
      assert cands == [c] + cands[1..];
      FindKeywordFinds(cmd, cands[1..]);
    }
  }

  /** Every command line the clients send is read back as the command that produced it. */
  lemma ReadMessage(cmd: Command)
    ensures ReadCommand(Message(cmd)) == Some(Normal(cmd))
  {
    KeywordIsWord(cmd);
    if Argument(cmd).Some? {
      ReadArgumentLine(cmd, Keyword(cmd), Argument(cmd).value);
    } else {
      ReadPlainLine(cmd, Keyword(cmd));
    }
  }

  lemma ReadArgumentLine(cmd: Command, w: string, arg: string)
    requires w == Keyword(cmd) && Argument(cmd) == Some(arg) && IsWord(w)
    ensures ReadCommand(w + " " + arg) == Some(Normal(cmd))
  {
    var line := w + " " + arg;
    FirstSpaceAt(line, 0, |w|);
    assert line[..|w|] == w && line[|w| + 1..] == arg;
    ArgumentCommand(cmd, arg);
  }

  /** The commands with an argument are the ones WithArgument builds from their keyword. */
  lemma ArgumentCommand(cmd: Command, arg: string)
    requires Argument(cmd) == Some(arg)
    ensures WithArgument(Keyword(cmd), arg) == Some(Normal(cmd))
  {
  }

  lemma ReadPlainLine(cmd: Command, w: string)
    requires w == Keyword(cmd) && Argument(cmd).None? && IsWord(w)
    ensures ReadCommand(w) == Some(Normal(cmd))
  {
    FirstSpaceAt(w, 0, |w|);
    PlainComplete(cmd);
    PlainNormal();
    FindKeywordFinds(cmd, Plain);
  }

  lemma {:induction false} FirstSpaceAt(s: string, i: nat, j: nat)
    requires i <= j <= |s| && (j < |s| ==> s[j] == ' ')
    requires forall k :: i <= k < j ==> s[k] != ' '
    ensures FirstSpace(s, i) == j
    decreases j - i
  {
    if i < j {
      FirstSpaceAt(s, i + 1, j);
    }
  }

  /** The line is the keyword, then a space and the argument when the command has one. */
  lemma MessageLayout(cmd: Command)
    ensures var m := Message(cmd);
      && |Keyword(cmd)| <= |m| && m[..|Keyword(cmd)|] == Keyword(cmd)
      && (Argument(cmd).None? <==> m == Keyword(cmd))
      && (Argument(cmd).Some? ==> m[|Keyword(cmd)|] == ' ' && m[|Keyword(cmd)| + 1..] == Argument(cmd).value)
  {
  }

  /** A line the server reads as a command is that command's message, or its keyword and a bare space. */
  lemma ReadCommandInverse(line: string)
    ensures ReadCommand(line).Some? ==>
      var c := ReadCommand(line).value;
      Message(c) == line || (Argument(c).None? && line == Message(c) + " ")
  {
    var i := FirstSpace(line, 0);
    if i == |line| {
      FindKeywordSound(line, Plain);
      PlainNormal();
    } else {
      WithArgumentSound(line[..i], line[i + 1..]);
      if ReadCommand(line).Some? {
        MessageLayout(ReadCommand(line).value);
      }
      assert line == line[..i] + " " + line[i + 1..];
    }
  }

  /** A command built from a keyword and an argument has that keyword, and that argument unless it is an empty comparison. */
  lemma WithArgumentSound(word: string, arg: string)
    ensures WithArgument(word, arg).Some? ==>
      var c := WithArgument(word, arg).value;
      Keyword(c) == word && (Argument(c) == Some(arg) || (arg == "" && Argument(c).None?))
  {
    if word == "getdelta" || word == "getfinaltime" {
      assert Given(Some(arg)) <==> arg != "";
    }
  }

  /** What the search by keyword finds is a candidate with that keyword. */
  lemma {:induction false} FindKeywordSound(word: string, cands: seq<Command>)
    ensures FindKeyword(word, cands).Some? ==>
      FindKeyword(word, cands).value in cands && Keyword(FindKeyword(word, cands).value) == word
  {
    if cands != [] && Keyword(cands[0]) != word {
      FindKeywordSound(word, cands[1..]);
    }
  }

  /** Different commands never produce the same line, once empty comparisons are read as none. */
  lemma MessageDeterminesCommand(a: Command, b: Command)
    requires Message(a) == Message(b)
    ensures Normal(a) == Normal(b)
  {
    ReadMessage(a);
    ReadMessage(b);
  }
  /** What receive returns: str, timedelta (in milliseconds) or int. */
  datatype Reply = Text(text: string) | Duration(ms: nat) | Number(value: int)

  /** The kind of reply a value is. */
  function KindOf(r: Reply): ReplyKind
  {
    match r
    case Text(_) => TextReply
    case Duration(_) => TimeReply
    case Number(_) => IntReply
  }

  /**
   * receive(datatype) after the bytes arrived: result.strip().decode("UTF8"),
   * then parse_time or int() as the kind asks. timeOf is the parse_time in use.
   */
  function InterpretWith(kind: ReplyKind, data: seq<Byte>, timeOf: string -> Result<nat, Exc>): Result<Reply, Exc>
  {
    match Decode(StripBytes(data))
    case Err(e) => Err(e)
    case Ok(text) =>
      match kind
      case TextReply => Ok(Text(text))
      case TimeReply => (match timeOf(text) case Ok(ms) => Ok(Duration(ms)) case Err(e) => Err(e))
      case IntReply => (match ParseInt(text) case Ok(i) => Ok(Number(i)) case Err(e) => Err(e))
  }

  /**
   * LivesplitMessaging.receive, with the parse_time of the same module: a reply
   * of the kind asked for, or the exception of the step that failed.
   */
  function Interpret(kind: ReplyKind, data: seq<Byte>): Result<Reply, Exc>
  {
    InterpretWith(kind, data, TimeParser.ParseTime)
  }

  /** LivesplitHandler.recieve, with the parse_time of splitnotes2/util.py. */
  function InterpretLegacy(kind: ReplyKind, data: seq<Byte>): Result<Reply, Exc>
  {
    InterpretWith(kind, data, TimeParser.ParseTimeOld)
  }

  /**
   * What receive returns: a reply of the kind asked for, or UnicodeDecodeError
   * from decode, ValueError from int(), TypeError or ValueError from parse_time.
   */
  lemma InterpretOutcomes(kind: ReplyKind, data: seq<Byte>)
    ensures var r := Interpret(kind, data);
      && (r.Ok? ==> KindOf(r.value) == kind)
      && (r.Err? ==> r.error == UnicodeDecodeError || (kind != TextReply && r.error == ValueError) || (kind == TimeReply && r.error == TypeError))
  {
    var d := Decode(StripBytes(data));
    DecodeErrors(StripBytes(data));
    if d.Ok? {
      match kind
      case TextReply =>
      case TimeReply => TimeParser.ParseTimeOutcomes(d.value);
      case IntReply => ParseIntOutcomes(d.value);
    }
  }

  /** The same outcomes for LivesplitHandler.recieve and the older parse_time. */
  lemma InterpretLegacyOutcomes(kind: ReplyKind, data: seq<Byte>)
    ensures var r := InterpretLegacy(kind, data);
      && (r.Ok? ==> KindOf(r.value) == kind)
      && (r.Err? ==> r.error == UnicodeDecodeError || (kind != TextReply && r.error == ValueError) || (kind == TimeReply && r.error == TypeError))
  {
    var d := Decode(StripBytes(data));
    DecodeErrors(StripBytes(data));
    if d.Ok? {
      match kind
      case TextReply =>
      case TimeReply => TimeParser.ParseTimeOldOutcomes(d.value);
      case IntReply => ParseIntOutcomes(d.value);
    }
  }

  predicate IsAsciiSpaceChar(c: char)
  {
    c as int < 0x80 && IsAsciiSpace(c as int)
  }

  /** Text with no whitespace at its ends survives the frame's strip and decode unchanged. */
  lemma ReadFramedText(t: string)
    requires t == [] || (!IsAsciiSpaceChar(t[0]) && !IsAsciiSpaceChar(t[|t| - 1]))
    ensures Decode(StripBytes(Frame(t))) == Ok(t)
  {
    if t != [] {
      EncodeEdges(t);
    }
    StripFrame(Encode(t));
    DecodeEncode(t);
  }

  /** A text reply reads back as the server's text. */
  lemma TextReplyRoundTrip(t: string)
    requires t == [] || (!IsAsciiSpaceChar(t[0]) && !IsAsciiSpaceChar(t[|t| - 1]))
    ensures Interpret(TextReply, Frame(t)) == Ok(Text(t))
    ensures InterpretLegacy(TextReply, Frame(t)) == Ok(Text(t))
  {
    ReadFramedText(t);
  }

  /** An integer reply, as the server prints it, reads back as the same integer. */
  lemma IntReplyRoundTrip(i: int)
    ensures Interpret(IntReply, Frame(IntToString(i))) == Ok(Number(i))
    ensures InterpretLegacy(IntReply, Frame(IntToString(i))) == Ok(Number(i))
  {
    var t := IntToString(i);
    IntTextEdges(i);
    ReadFramedText(t);
    ParseIntRoundTrip(i);
    ReadNumber(Frame(t), t, i, TimeParser.ParseTime);
    ReadNumber(Frame(t), t, i, TimeParser.ParseTimeOld);
  }

  /** str(i) starts with a digit or a minus sign and ends with a digit. */
  lemma IntTextEdges(i: int)
    ensures var t := IntToString(i);
      t != [] && !IsAsciiSpaceChar(t[0]) && !IsAsciiSpaceChar(t[|t| - 1])
  {
    var n: nat := if i < 0 then -i else i;
    var d := NatToDecimal(n);
    NumeralOfNat(n);
    if i < 0 {
      var t := "-" + d;
      assert t[0] == '-' && t[|t| - 1] == d[|d| - 1];
    }
  }

  /** An integer reply whose text int() accepts. */
  lemma ReadNumber(data: seq<Byte>, t: string, i: int, timeOf: string -> Result<nat, Exc>)
    requires Decode(StripBytes(data)) == Ok(t) && ParseInt(t) == Ok(i)
    ensures InterpretWith(IntReply, data, timeOf) == Ok(Number(i))
  {
    var d := Decode(StripBytes(data));
    assert d.Ok? && d.value == t;
  }

  /** A time reply, as LiveSplit prints it, reads back as the same duration. */
  lemma TimeReplyRoundTrip(h: nat, m: nat, sec: nat, cs: nat)
    requires m < 60 && sec < 60 && cs < 100
    ensures Interpret(TimeReply, Frame(TimeParser.Render(h, m, sec, cs)))
         == Ok(Duration(TimeParser.Milliseconds(h, m, sec, cs)))
  {
    var t := TimeParser.Render(h, m, sec, cs);
    assert IsDigit(t[0]) && IsDigit(t[|t| - 1]);
    ReadFramedText(t);
    assert t + "" == t;
    TimeParser.ParseTimeRoundTrip(h, m, sec, cs, "");
  }

  /** The text replies of the client's test suite, read as the tests expect. */
  lemma TextReplyExample()
    ensures Interpret(TextReply, Frame("Response String")) == Ok(Text("Response String"))
  {
    var t := "Response String";
    assert t[0] == 'R' && t[|t| - 1] == 'g';
    TextReplyRoundTrip(t);
  }

  lemma NegativeTextReplyExample()
    ensures Interpret(TextReply, Frame("-12")) == Ok(Text("-12"))
  {
    var t := "-12";
    assert t[0] == '-' && t[|t| - 1] == '2';
    TextReplyRoundTrip(t);
  }

  /** The time and integer replies of the client's test suite. */
  lemma NumberReplyExamples()
    ensures Interpret(TimeReply, Frame("1:10:46.91")) == Ok(Duration(4246910))
    ensures Interpret(IntReply, Frame("12")) == Ok(Number(12))
  {
    TimeParser.RenderedExamples();
    TimeReplyRoundTrip(1, 10, 46, 91);
    assert IntToString(12) == "12";
    IntReplyRoundTrip(12);
  }
}
