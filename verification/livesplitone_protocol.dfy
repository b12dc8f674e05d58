/**
 * The LiveSplit One command protocol as LivesplitoneMessaging speaks it: every
 * command is a JSON object whose "command" member names it, and every reply is
 * a JSON object whose "success" member carries the result.
 *
 * JSON text itself (RFC 8259: `json.dumps` and `json.loads`) is not written
 * out here: JSON values are a datatype, and the client takes the encoder and
 * the decoder as parameters.
 */
module LivesplitOneProtocol {
  import opened Wrappers
  import opened Errors
  import Text
  import TimeParser
  import Utf8
  import LP = LivesplitProtocol

  /** A decoded JSON value; numbers are integers only. Objects keep their members in order. */
  datatype Json =
    | JNull
    | JBool(b: bool)
    | JInt(i: int)
    | JStr(s: string)
    | JArr(items: seq<Json>)
    | JObj(members: seq<(string, Json)>)

  /** The value a Python dict built from these members holds for `key`: the last one given. */
  function Lookup(members: seq<(string, Json)>, key: string): Option<Json>
    decreases |members|
  {
    if members == [] then None
    else if members[|members| - 1].0 == key then Some(members[|members| - 1].1)
    else Lookup(members[..|members| - 1], key)
  }

  /** `value[key]` on what json.loads returned. */
  function Subscript(j: Json, key: string): Result<Json, Exc>
  {
    match j
    case JObj(ms) => (match Lookup(ms, key) case Some(v) => Ok(v) case None => Err(KeyError))
    case _ => Err(TypeError)
  }

  /** Subscripting fails with KeyError on an object without the key and TypeError on anything but an object. */
  lemma SubscriptErrors(j: Json, key: string)
    ensures Subscript(j, key).Err? <==> !j.JObj? || Lookup(j.members, key).None?
    ensures !j.JObj? ==> Subscript(j, key) == Err(TypeError)
    ensures j.JObj? && Lookup(j.members, key).None? ==> Subscript(j, key) == Err(KeyError)
    ensures Subscript(JObj([(key, j)]), key) == Ok(j)
  {
  }

  /** `int(value)` on a decoded value: integers, booleans and numeral strings convert. */
  function IntOf(j: Json): Result<int, Exc>
  {
    match j
    case JInt(i) => Ok(i)
    case JBool(b) => Ok(if b then 1 else 0)
    case JStr(s) => Text.ParseInt(s)
    case _ => Err(TypeError)
  }

  /** `parse_time(value)`: only a string can be matched against the pattern. */
  function TimeOf(j: Json): Result<nat, Exc>
  {
    match j
    case JStr(s) => TimeParser.ParseTime(s)
    case _ => Err(TypeError)
  }

  /** int() accepts integers, booleans and numeral strings; other strings raise ValueError, other values TypeError. */
  lemma IntOfOutcomes(j: Json)
    ensures IntOf(j).Ok? <==> j.JInt? || j.JBool? || (j.JStr? && Text.ParseInt(j.s).Ok?)
    ensures j.JInt? ==> IntOf(j) == Ok(j.i)
    ensures IntOf(j).Err? ==> IntOf(j).error == if j.JStr? then ValueError else TypeError
  {
    if j.JStr? {
      Text.ParseIntOutcomes(j.s);
    }
  }

  /** parse_time accepts only a string the pattern matches; any other value raises TypeError. */
  lemma TimeOfOutcomes(j: Json)
    ensures TimeOf(j).Ok? <==> j.JStr? && TimeParser.ParseTime(j.s).Ok?
    ensures !j.JStr? ==> TimeOf(j) == Err(TypeError)
  {
  }

  /** The command objects LiveSplit One understands, as the client builds them. */
  datatype Request =
    | Start | SplitOrStart | Split | UndoSplit | SkipSplit | Pause | Resume | Reset
    | InitializeGameTime | SetGameTime(time: string) | SetLoadingTimes(time: string)
    | PauseGameTime | ResumeGameTime | SetCurrentComparison(comparison: string)
    | GetCurrentRunSplitTime | GetComparisonTime | GetCurrentTime | GetCurrentState
    | GetSegmentName(relativeIndex: Option<int>)

  /** The "command" member of each request. */
  function CommandName(r: Request): string
  {
    match r
    case Start => "start"
    case SplitOrStart => "splitOrStart"
    case Split => "split"
    case UndoSplit => "undoSplit"
    case SkipSplit => "skipSplit"
    case Pause => "pause"
    case Resume => "resume"
    case Reset => "reset"
    case InitializeGameTime => "initializeGameTime"
    case SetGameTime(_) => "setGameTime"
    case SetLoadingTimes(_) => "setLoadingTimes"
    case PauseGameTime => "pauseGameTime"
    case ResumeGameTime => "resumeGameTime"
    case SetCurrentComparison(_) => "setCurrentComparison"
    case GetCurrentRunSplitTime => "getCurrentRunSplitTime"
    case GetComparisonTime => "getComparisonTime"
    case GetCurrentTime => "getCurrentTime"
    case GetCurrentState => "getCurrentState"
    case GetSegmentName(_) => "getSegmentName"
  }

  /** The members after "command". */
  function Arguments(r: Request): seq<(string, Json)>
  {
    match r
    case SetGameTime(t) => [("time", JStr(t))]
    case SetLoadingTimes(t) => [("time", JStr(t))]
    case SetCurrentComparison(c) => [("comparison", JStr(c))]
    case GetSegmentName(Some(i)) => [("index", JInt(i)), ("relative", JBool(true))]
    case _ => []
  }

  /** The dict each messaging method passes to send. */
  function ToJson(r: Request): (j: Json)
    ensures j.JObj? && |j.members| >= 1 && j.members[0] == ("command", JStr(CommandName(r)))
  {
    JObj([("command", JStr(CommandName(r)))] + Arguments(r))
  }

  /** The request a command name stands for, given the object's other members. */
  function RequestNamed(name: string, j: Json): Option<Request>
  {
    if name == "start" then Some(Start)
    else if name == "splitOrStart" then Some(SplitOrStart)
    else if name == "split" then Some(Split)
    else if name == "undoSplit" then Some(UndoSplit)
    else if name == "skipSplit" then Some(SkipSplit)
    else if name == "pause" then Some(Pause)
    else if name == "resume" then Some(Resume)
    else if name == "reset" then Some(Reset)
    else if name == "initializeGameTime" then Some(InitializeGameTime)
    else if name == "setGameTime" then StringArgument(j, "time", t => SetGameTime(t))
    else if name == "setLoadingTimes" then StringArgument(j, "time", t => SetLoadingTimes(t))
    else if name == "pauseGameTime" then Some(PauseGameTime)
    else if name == "resumeGameTime" then Some(ResumeGameTime)
    else if name == "setCurrentComparison" then StringArgument(j, "comparison", c => SetCurrentComparison(c))
    else if name == "getCurrentRunSplitTime" then Some(GetCurrentRunSplitTime)
    else if name == "getComparisonTime" then Some(GetComparisonTime)
    else if name == "getCurrentTime" then Some(GetCurrentTime)
    else if name == "getCurrentState" then Some(GetCurrentState)
    else if name == "getSegmentName" then
      (match Subscript(j, "index")
       case Ok(JInt(i)) => if Subscript(j, "relative") == Ok(JBool(true)) then Some(GetSegmentName(Some(i))) else None
       case Err(KeyError) => Some(GetSegmentName(None))
       case _ => None)
    else None
  }

  function StringArgument(j: Json, key: string, make: string -> Request): Option<Request>
  {
    match Subscript(j, key)
    case Ok(JStr(s)) => Some(make(s))
    case _ => None
  }

  /** How the server side reads a command object. */
  function FromJson(j: Json): Option<Request>
  {
    match Subscript(j, "command")
    case Ok(JStr(name)) => RequestNamed(name, j)
    case _ => None
  }

  lemma LookupLastWins(front: seq<(string, Json)>, key: string, v: Json)
    ensures Lookup(front + [(key, v)], key) == Some(v)
  {
    assert (front + [(key, v)])[|front|] == (key, v);
  }

  lemma LookupSkips(front: seq<(string, Json)>, m: (string, Json), key: string)
    requires m.0 != key
    ensures Lookup(front + [m], key) == Lookup(front, key)
  {
    assert (front + [m])[..|front|] == front;
  }

  /** Members after the ones looked up leave the lookup alone when none of them has the key. */
  lemma {:induction false} LookupPastOthers(front: seq<(string, Json)>, back: seq<(string, Json)>, key: string)
    requires forall i :: 0 <= i < |back| ==> back[i].0 != key
    ensures Lookup(front + back, key) == Lookup(front, key)
    decreases |back|
  {
    if back != [] {
      var last := back[|back| - 1];
      var init := back[..|back| - 1];
      assert front + back == (front + init) + [last];
      LookupSkips(front + init, last, key);
      LookupPastOthers(front, init, key);
    } else {
      assert front + back == front;
    }
  }

  /** Every command object names its command. */
  lemma CommandMember(r: Request)
    ensures Subscript(ToJson(r), "command") == Ok(JStr(CommandName(r)))
  {
    var c := ("command", JStr(CommandName(r)));
    var args := Arguments(r);
    assert forall i :: 0 <= i < |args| ==> |args[i].0| != |"command"|;
    LookupPastOthers([c], args, "command");
    LookupLastWins([], "command", JStr(CommandName(r)));
    assert [] + [c] == [c];
  }

  /** The setters carry their argument, and getSegmentName its index only when one is given. */
  lemma ArgumentMembers(r: Request)
    ensures r.SetGameTime? || r.SetLoadingTimes? ==> Subscript(ToJson(r), "time") == Ok(JStr(r.time))
    ensures r.SetCurrentComparison? ==> Subscript(ToJson(r), "comparison") == Ok(JStr(r.comparison))
    ensures r.GetSegmentName? && r.relativeIndex.Some? ==>
      Subscript(ToJson(r), "index") == Ok(JInt(r.relativeIndex.value))
      && Subscript(ToJson(r), "relative") == Ok(JBool(true))
    ensures r.GetSegmentName? && r.relativeIndex.None? ==> Subscript(ToJson(r), "index") == Err(KeyError)
  {
    var c := ("command", JStr(CommandName(r)));
    match r
    case SetGameTime(t) =>
      LookupLastWins([c], "time", JStr(t));
    case SetLoadingTimes(t) =>
      LookupLastWins([c], "time", JStr(t));
    case SetCurrentComparison(t) =>
      LookupLastWins([c], "comparison", JStr(t));
    case GetSegmentName(Some(i)) =>
      var x := ("index", JInt(i));
      var y := ("relative", JBool(true));
      assert ToJson(r).members == [c, x] + [y];
      assert [c, x] == [c] + [x];
      LookupLastWins([c, x], "relative", JBool(true));
      LookupSkips([c, x], y, "index");
      LookupLastWins([c], "index", JInt(i));
    case GetSegmentName(None) =>
      assert ToJson(r).members == [] + [c];
      LookupSkips([], c, "index");
    case _ =>
  }

  /** The objects' members, looked up by name. */
  lemma RequestMembers(r: Request)
    ensures Subscript(ToJson(r), "command") == Ok(JStr(CommandName(r)))
    ensures r.SetGameTime? || r.SetLoadingTimes? ==> Subscript(ToJson(r), "time") == Ok(JStr(r.time))
    ensures r.SetCurrentComparison? ==> Subscript(ToJson(r), "comparison") == Ok(JStr(r.comparison))
    ensures r.GetSegmentName? && r.relativeIndex.Some? ==>
      Subscript(ToJson(r), "index") == Ok(JInt(r.relativeIndex.value))
      && Subscript(ToJson(r), "relative") == Ok(JBool(true))
    ensures r.GetSegmentName? && r.relativeIndex.None? ==> Subscript(ToJson(r), "index") == Err(KeyError)
  {
    CommandMember(r);
    ArgumentMembers(r);
  }

  /** Every command object the client builds is read back as the same command. */
  lemma RequestRoundTrip(r: Request)
    ensures FromJson(ToJson(r)) == Some(r)
  {
    RequestMembers(r);
    if r.SetGameTime? || r.SetLoadingTimes? || r.SetCurrentComparison? {
      SetterRequestNamed(r);
    } else if r.GetSegmentName? {
      SegmentRequestNamed(r);
    } else if CommandName(r)[0] in "sup" {
      ControlRequestNamed(r);
    } else if r == GetCurrentRunSplitTime || r == GetComparisonTime {
      SplitTimeRequestNamed(r);
    } else if r == GetCurrentTime || r == GetCurrentState {
      CurrentRequestNamed(r);
    } else {
      OtherRequestNamed(r);
    }
  }

  lemma SetterRequestNamed(r: Request)
    requires r.SetGameTime? || r.SetLoadingTimes? || r.SetCurrentComparison?
    requires r.SetGameTime? || r.SetLoadingTimes? ==> Subscript(ToJson(r), "time") == Ok(JStr(r.time))
    requires r.SetCurrentComparison? ==> Subscript(ToJson(r), "comparison") == Ok(JStr(r.comparison))
    ensures RequestNamed(CommandName(r), ToJson(r)) == Some(r)
  {
  }

  lemma SegmentRequestNamed(r: Request)
    requires r.GetSegmentName?
    requires r.relativeIndex.Some? ==>
      Subscript(ToJson(r), "index") == Ok(JInt(r.relativeIndex.value))
      && Subscript(ToJson(r), "relative") == Ok(JBool(true))
    requires r.relativeIndex.None? ==> Subscript(ToJson(r), "index") == Err(KeyError)
    ensures RequestNamed(CommandName(r), ToJson(r)) == Some(r)
  {
  }

  lemma ControlRequestNamed(r: Request)
    requires Arguments(r) == [] && !r.GetSegmentName? && CommandName(r)[0] in "sup"
    ensures RequestNamed(CommandName(r), ToJson(r)) == Some(r)
  {
  }

  lemma SplitTimeRequestNamed(r: Request)
    requires r == GetCurrentRunSplitTime || r == GetComparisonTime
    ensures RequestNamed(CommandName(r), ToJson(r)) == Some(r)
  {
  }

  lemma CurrentRequestNamed(r: Request)
    requires r == GetCurrentTime || r == GetCurrentState
    ensures RequestNamed(CommandName(r), ToJson(r)) == Some(r)
  {
  }

  lemma OtherRequestNamed(r: Request)
    requires Arguments(r) == [] && CommandName(r)[0] !in "supg"
    ensures RequestNamed(CommandName(r), ToJson(r)) == Some(r)
  {
  }

  /** Distinct requests give distinct objects, so the server can tell every command apart. */
  lemma ToJsonInjective(a: Request, b: Request)
    requires ToJson(a) == ToJson(b)
    ensures a == b
  {
    RequestRoundTrip(a);
    RequestRoundTrip(b);
  }

  /** The messaging methods, and the request each sends; None for the TCP client's methods this class lacks. */
  function OneRequest(cmd: LP.Command): Option<Request>
  {
    match cmd
    case StartTimer => Some(Start)
    case StartOrSplit => Some(SplitOrStart)
    case Split => Some(Request.Split)
    case Unsplit => Some(UndoSplit)
    case SkipSplit => Some(Request.SkipSplit)
    case Pause => Some(Request.Pause)
    case Resume => Some(Request.Resume)
    case Reset => Some(Request.Reset)
    case InitGameTime => Some(InitializeGameTime)
    case SetGameTime(t) => Some(Request.SetGameTime(t))
    case SetLoadingTimes(t) => Some(Request.SetLoadingTimes(t))
    case PauseGameTime => Some(Request.PauseGameTime)
    case UnpauseGameTime => Some(ResumeGameTime)
    case SetComparison(c) => Some(SetCurrentComparison(c))
    case GetLastSplitTime => Some(GetCurrentRunSplitTime)
    case GetComparisonSplitTime => Some(GetComparisonTime)
    case GetCurrentTime => Some(Request.GetCurrentTime)
    case GetSplitIndex => Some(GetCurrentState)
    case GetCurrentSplitName => Some(GetSegmentName(None))
    case GetPreviousSplitName => Some(GetSegmentName(Some(-1)))
    case GetCurrentTimerPhase => Some(GetCurrentState)
    case _ => None
  }

  /**
   * Two methods send the same request only when they are get_split_index and
   * get_current_timer_phase, which both ask for the whole state.
   */
  lemma SharedRequest(a: LP.Command, b: LP.Command)
    requires OneRequest(a).Some? && OneRequest(a) == OneRequest(b) && a != b
    ensures OneRequest(a) == Some(GetCurrentState)
    ensures a.GetSplitIndex? || a.GetCurrentTimerPhase?
    ensures Expected(a) != Expected(b)
  {
  }

  /** The methods of the TCP client that this class does not have. */
  lemma MissingMethods(cmd: LP.Command)
    ensures OneRequest(cmd).None? <==>
      cmd.GetDelta? || cmd.GetFinalTime? || cmd.GetPredictedTime? || cmd.GetBestPossibleTime?
  {
  }

  /** How receive reads the reply: "text", "time", "int" or "state". */
  datatype Kind = TextKind | TimeKind | IntKind | StateKind

  /** What receive returns: a decoded value, a duration in milliseconds, or an int. */
  datatype OneReply = Value(json: Json) | Time(ms: nat) | Int(value: int)

  /**
   * receive after the bytes arrived: strip, decode UTF-8, json.loads (here
   * `loads`), take "success", then read its "string" member as a time or an
   * int, or return it whole.
   */
  function DecodeReply(kind: Kind, data: seq<Utf8.Byte>, loads: string -> Result<Json, Exc>): Result<OneReply, Exc>
  {
    match Utf8.Decode(Utf8.StripBytes(data))
    case Err(e) => Err(e)
    case Ok(text) =>
      match loads(text)
      case Err(e) => Err(e)
      case Ok(j) =>
        match Subscript(j, "success")
        case Err(e) => Err(e)
        case Ok(success) => ReadSuccess(kind, success)
  }

  function ReadSuccess(kind: Kind, success: Json): Result<OneReply, Exc>
  {
    match kind
    case TextKind => Ok(Value(success))
    case StateKind => Ok(Value(success))
    case TimeKind =>
      (match Subscript(success, "string")
       case Err(e) => Err(e)
       case Ok(v) => (match TimeOf(v) case Ok(ms) => Ok(Time(ms)) case Err(e) => Err(e)))
    case IntKind =>
      (match Subscript(success, "string")
       case Err(e) => Err(e)
       case Ok(v) => (match IntOf(v) case Ok(i) => Ok(Int(i)) case Err(e) => Err(e)))
  }

  /** The reply object LiveSplit One sends around a result. */
  function Envelope(success: Json): Json
  {
    JObj([("success", success)])
  }

  /**
   * The envelope: a reply that is not an object fails with TypeError, one
   * without "success" with KeyError, and "text" and "state" return the
   * success member unchanged.
   */
  lemma EnvelopeRule(kind: Kind, data: seq<Utf8.Byte>, loads: string -> Result<Json, Exc>, text: string, j: Json)
    requires Utf8.Decode(Utf8.StripBytes(data)) == Ok(text) && loads(text) == Ok(j)
    ensures !j.JObj? ==> DecodeReply(kind, data, loads) == Err(TypeError)
    ensures j.JObj? && Lookup(j.members, "success").None? ==> DecodeReply(kind, data, loads) == Err(KeyError)
    ensures (kind == TextKind || kind == StateKind) && Subscript(j, "success").Ok? ==>
      DecodeReply(kind, data, loads) == Ok(Value(Subscript(j, "success").value))
  {
  }

  /** A time reply, as LiveSplit prints a time, reads back as the same duration. */
  lemma TimeReplyRoundTrip(h: nat, m: nat, sec: nat, cs: nat, data: seq<Utf8.Byte>, loads: string -> Result<Json, Exc>, text: string)
    requires m < 60 && sec < 60 && cs < 100
    requires Utf8.Decode(Utf8.StripBytes(data)) == Ok(text)
    requires loads(text) == Ok(Envelope(JObj([("string", JStr(TimeParser.Render(h, m, sec, cs)))])))
    ensures DecodeReply(TimeKind, data, loads) == Ok(Time(TimeParser.Milliseconds(h, m, sec, cs)))
  {
    var t := TimeParser.Render(h, m, sec, cs);
    assert t + "" == t;
    TimeParser.ParseTimeRoundTrip(h, m, sec, cs, "");
    var s := JObj([("string", JStr(t))]);
    SubscriptErrors(JStr(t), "string");
    SubscriptErrors(s, "success");
    ReplyInEnvelope(TimeKind, data, loads, text, s);
  }

  /** Once the envelope is unwrapped, the reply is read from its success member. */
  lemma ReplyInEnvelope(kind: Kind, data: seq<Utf8.Byte>, loads: string -> Result<Json, Exc>, text: string, s: Json)
    requires Utf8.Decode(Utf8.StripBytes(data)) == Ok(text) && loads(text) == Ok(Envelope(s))
    ensures DecodeReply(kind, data, loads) == ReadSuccess(kind, s)
  {
    SubscriptErrors(s, "success");
  }

  /** An integer reply, printed as a numeral or sent as a number, reads back as the same integer. */
  lemma IntReplyRoundTrip(i: int, data: seq<Utf8.Byte>, loads: string -> Result<Json, Exc>, text: string, v: Json)
    requires v == JStr(Text.IntToString(i)) || v == JInt(i)
    requires Utf8.Decode(Utf8.StripBytes(data)) == Ok(text)
    requires loads(text) == Ok(Envelope(JObj([("string", v)])))
    ensures DecodeReply(IntKind, data, loads) == Ok(Int(i))
  {
    Text.ParseIntRoundTrip(i);
    var s := JObj([("string", v)]);
    SubscriptErrors(v, "string");
    assert IntOf(v) == Ok(i);
    ReplyInEnvelope(IntKind, data, loads, text, s);
  }

  /** The timer phases in which the state carries a meaningful split index. */
  predicate Active(phase: Json)
  {
    phase == JStr("Running") || phase == JStr("Paused")
  }

  /** get_split_index after the state arrived: the "index" member while running or paused, -1 otherwise. */
  function SplitIndexOf(state: Json): Result<Json, Exc>
  {
    match Subscript(state, "state")
    case Err(e) => Err(e)
    case Ok(phase) => if Active(phase) then Subscript(state, "index") else Ok(JInt(-1))
  }

  /** get_current_timer_phase after the state arrived. */
  function PhaseOf(state: Json): Result<Json, Exc>
  {
    Subscript(state, "state")
  }

  /**
   * The split index is the state's "index" exactly when the phase is
   * "Running" or "Paused", and -1 for any other phase; a state without a
   * phase fails as the subscript does.
   */
  lemma SplitIndexRule(state: Json)
    ensures PhaseOf(state).Err? ==> SplitIndexOf(state) == PhaseOf(state)
    ensures PhaseOf(state).Ok? && Active(PhaseOf(state).value) ==> SplitIndexOf(state) == Subscript(state, "index")
    ensures PhaseOf(state).Ok? && !Active(PhaseOf(state).value) ==> SplitIndexOf(state) == Ok(JInt(-1))
  {
  }

  lemma LookupPair(a: (string, Json), b: (string, Json), key: string)
    ensures Lookup([a, b], key) == if b.0 == key then Some(b.1) else if a.0 == key then Some(a.1) else None
  {
    assert [a, b][..1] == [a];
    assert [a][..0] == [];
    assert Lookup([a], key) == if a.0 == key then Some(a.1) else Lookup([], key);
  }

  /** A running or paused timer's index is returned as sent; any other phase gives -1 whatever the index. */
  lemma SplitIndexExamples(i: int, phase: string)
    ensures SplitIndexOf(JObj([("state", JStr(phase)), ("index", JInt(i))]))
      == if phase == "Running" || phase == "Paused" then Ok(JInt(i)) else Ok(JInt(-1))
    ensures SplitIndexOf(JObj([("index", JInt(i)), ("relative", JBool(true))])) == Err(KeyError)
  {
    LookupPair(("state", JStr(phase)), ("index", JInt(i)), "state");
    LookupPair(("state", JStr(phase)), ("index", JInt(i)), "index");
    assert "index"[0] != "state"[0] && |"relative"| != |"state"|;
    LookupPair(("index", JInt(i)), ("relative", JBool(true)), "state");
  }

  /** What a query does with the reply: read it as a kind, or take the split index or the phase from the state. */
  datatype Query = Plain(kind: Kind) | SplitIndexQuery | PhaseQuery

  function Expected(cmd: LP.Command): Option<Query>
  {
    match cmd
    case GetLastSplitTime => Some(Plain(TimeKind))
    case GetComparisonSplitTime => Some(Plain(TimeKind))
    case GetCurrentTime => Some(Plain(TimeKind))
    case GetCurrentSplitName => Some(Plain(TextKind))
    case GetPreviousSplitName => Some(Plain(TextKind))
    case GetSplitIndex => Some(SplitIndexQuery)
    case GetCurrentTimerPhase => Some(PhaseQuery)
    case _ => None
  }

  function KindOf(q: Query): Kind
  {
    if q.Plain? then q.kind else StateKind
  }

  /** The method's result from what receive returned. */
  function Finish(q: Query, r: OneReply): Result<OneReply, Exc>
  {
    match q
    case Plain(_) => Ok(r)
    case SplitIndexQuery =>
      if !r.Value? then Ok(r)
      else (match SplitIndexOf(r.json) case Ok(i) => Ok(Value(i)) case Err(e) => Err(e))
    case PhaseQuery =>
      if !r.Value? then Ok(r)
      else (match PhaseOf(r.json) case Ok(p) => Ok(Value(p)) case Err(e) => Err(e))
  }

  /** The queries are the methods that return a value, and they are exactly the ones whose request starts with "get". */
  lemma QueriesAreReads(cmd: LP.Command)
    ensures Expected(cmd).Some? <==> OneRequest(cmd).Some? && CommandName(OneRequest(cmd).value)[0] == 'g'
  {
    if Expected(cmd).Some? {
      QueriesGet(cmd);
    } else {
      ActionsDoNotGet(cmd);
    }
  }

  lemma QueriesGet(cmd: LP.Command)
    requires Expected(cmd).Some?
    ensures OneRequest(cmd).Some? && CommandName(OneRequest(cmd).value)[0] == 'g'
  {
  }

  lemma ActionsDoNotGet(cmd: LP.Command)
    requires Expected(cmd).None?
    ensures OneRequest(cmd).Some? ==> CommandName(OneRequest(cmd).value)[0] != 'g'
  {
  }
}
