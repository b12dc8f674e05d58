/**
 * The browser push stream of the note server: the `event_stream` generator
 * behind the `/splits` route. Each pass of its loop polls the timer client,
 * and may yield one frame of a text/event-stream response (section 9.2,
 * "Server-sent events", of the WHATWG HTML Living Standard): a `data:` event
 * or a `:` comment, each ending in a blank line.
 *
 * Flask, the 0.5 s sleep and the wall clock are not modelled: each pass gets
 * an integer clock reading and the outcomes of its client calls.
 */
module SplitServer {
  import opened Wrappers
  import opened Errors
  import Text
  import DesktopSync

  /** Seconds without a push before a keep-alive comment is sent. */
  const KEEP_ALIVE: real := 10.0

  /** The clock reading (`time.time()`, seconds as a real) and client outcomes of one pass of the loop. */
  datatype StreamPoll = StreamPoll(now: real, connect: Result<bool, Exc>, query: Result<int, Exc>)

  /** Settings and notes the stream reads; `render` is `Notes.render_splits`. */
  datatype StreamConfig = StreamConfig(
    timer: string,
    previousSplits: int,
    nextSplits: int,
    notes: seq<string>,
    render: DesktopSync.SplitRenderer)

  /** The generator's local variables between passes. */
  datatype StreamState = StreamState(
    connected: bool,
    disconnected: bool,
    current: Option<int>,
    lastUpdate: real,
    data: string)

  /** The state after the first `client.connect()`, before the loop. */
  function InitialState(connected: bool): (s: StreamState)
    ensures s.disconnected && s.current == None && s.lastUpdate == 0.0 && s.data == ""
  {
    StreamState(connected, true, None, 0.0, "")
  }

  function RetryFrame(timer: string, data: string): string
  {
    "data: <h2>Trying to connect to " + timer + ".</h2><h3>Make sure " + timer
      + " server is running.</h3>" + data + "\n\n"
  }

  function DataFrame(data: string): string
  {
    "data: " + data + "\n\n"
  }

  const END_FRAME: string := "data: End of Notes.\n\n"
  const KEEP_ALIVE_FRAME: string := ":No update, keep connection\n\n"

  /** The rendered splits joined with nothing between them, all newlines removed. */
  function PushData(splitText: seq<string>): (d: string)
    ensures '\n' !in d
  {
    Text.ReplaceChar(Text.Concat(splitText), '\n', "")
  }

  /**
   * Only LF is removed: a carriage return in the rendered splits reaches the
   * data frame, where the event-stream format reads it as a line end too.
   */
  lemma PushDataKeepsCarriageReturn(splitText: seq<string>)
    ensures '\r' in PushData(splitText) <==> '\r' in Text.Concat(splitText)
  {
    Text.ReplaceCharKeeps(Text.Concat(splitText), '\n', "", '\r');
  }

  /** The splits rendered for the window around `idx`. */
  function SplitText(c: StreamConfig, idx: int): seq<string>
  {
    var w := DesktopSync.RenderWindow(idx, c.previousSplits, c.nextSplits);
    c.render(c.notes, w.start, w.end)
  }

  /** Whether a successful poll at clamped index `idx` pushes notes. */
  predicate Pushes(s: StreamState, idx: int)
  {
    s.current != Some(idx) || s.disconnected
  }

  /**
   * One pass of the loop. The second component is the frame yielded (None
   * when the pass yields nothing) or the exception that ends the stream.
   */
  function StreamStep(s: StreamState, c: StreamConfig, p: StreamPoll): (r: (StreamState, Result<Option<string>, Exc>))
    ensures r.0.data != s.data ==> s.connected && p.query.Ok? && r.0.current == Some(DesktopSync.Max(p.query.value, 0))
    ensures r.0.lastUpdate == s.lastUpdate || r.0.lastUpdate == p.now
    ensures !s.connected ==> r.0.disconnected
    ensures r.1.Err? ==> r.0.current == s.current && r.0.data == s.data
  {
    if s.connected then
      match p.query
      case Err(e) =>
        if !DesktopSync.Caught(e) then (s, Err(e))
        else if p.connect.Err? then (s, Err(p.connect.error))
        else (s.(connected := p.connect.value), Ok(Some(RetryFrame(c.timer, s.data))))
      case Ok(raw) =>
        var idx := DesktopSync.Max(raw, 0);
        if Pushes(s, idx) then
          var text := SplitText(c, idx);
          var s1 := s.(disconnected := false, lastUpdate := p.now, current := Some(idx));
          if |text| > 0 then (s1.(data := PushData(text)), Ok(Some(DataFrame(PushData(text)))))
          else (s1, Ok(Some(END_FRAME)))
        else if p.now - s.lastUpdate > KEEP_ALIVE then
          (s.(lastUpdate := p.now), Ok(Some(KEEP_ALIVE_FRAME)))
        else
          (s, Ok(None))
    else
      var s1 := s.(disconnected := true);
      if p.connect.Err? then (s1, Err(p.connect.error))
      else (s1.(connected := p.connect.value), Ok(Some(RetryFrame(c.timer, s.data))))
  }

  /**
   * A successful poll pushes exactly when the clamped index differs from the
   * one last pushed or the stream was disconnected; a push records the index
   * and the time and clears `disconnected`, and the frame carries the joined
   * window, or "End of Notes." when the window is empty.
   */
  lemma PushRule(s: StreamState, c: StreamConfig, p: StreamPoll)
    requires s.connected && p.query.Ok?
    ensures var idx := DesktopSync.Max(p.query.value, 0);
      var (s1, out) := StreamStep(s, c, p);
      (Pushes(s, idx) ==>
        s1.current == Some(idx) && !s1.disconnected && s1.lastUpdate == p.now && s1.connected
        && (|SplitText(c, idx)| > 0 ==> out == Ok(Some(DataFrame(PushData(SplitText(c, idx))))) && s1.data == PushData(SplitText(c, idx)))
        && (|SplitText(c, idx)| == 0 ==> out == Ok(Some(END_FRAME)) && s1.data == s.data))
      && (!Pushes(s, idx) ==> s1.current == s.current && s1.data == s.data && s1.disconnected == s.disconnected)
  {
  }

  /**
   * Without a push, a keep-alive comment goes out exactly when more than
   * KEEP_ALIVE seconds passed since the last frame that reset the clock, and
   * it resets the clock; otherwise the pass changes nothing and yields nothing.
   */
  lemma KeepAliveRule(s: StreamState, c: StreamConfig, p: StreamPoll)
    requires s.connected && p.query.Ok? && !Pushes(s, DesktopSync.Max(p.query.value, 0))
    ensures p.now - s.lastUpdate > KEEP_ALIVE ==>
      StreamStep(s, c, p) == (s.(lastUpdate := p.now), Ok(Some(KEEP_ALIVE_FRAME)))
    ensures p.now - s.lastUpdate <= KEEP_ALIVE ==> StreamStep(s, c, p) == (s, Ok(None))
  {
  }

  /** The clock is fractional: 10.4 seconds after the last push, a poll at the same index sends the keep-alive. */
  lemma FractionalKeepAlive(c: StreamConfig)
    ensures var s := StreamState(true, false, Some(3), 0.0, "data: x\n\n");
      StreamStep(s, c, StreamPoll(10.4, Ok(true), Ok(3))) == (s.(lastUpdate := 10.4), Ok(Some(KEEP_ALIVE_FRAME)))
  {
    var s := StreamState(true, false, Some(3), 0.0, "data: x\n\n");
    KeepAliveRule(s, c, StreamPoll(10.4, Ok(true), Ok(3)));
  }

  /**
   * A caught query failure reconnects and yields the retry banner with the
   * last pushed notes appended; it leaves `disconnected` alone.
   */
  lemma QueryFailureRule(s: StreamState, c: StreamConfig, p: StreamPoll)
    requires s.connected && p.query.Err? && DesktopSync.Caught(p.query.error) && p.connect.Ok?
    ensures StreamStep(s, c, p) == (s.(connected := p.connect.value), Ok(Some(RetryFrame(c.timer, s.data))))
  {
  }

  /** Any other query failure ends the stream. */
  lemma UncaughtEndsStream(s: StreamState, c: StreamConfig, p: StreamPoll)
    requires s.connected && p.query.Err? && !DesktopSync.Caught(p.query.error)
    ensures StreamStep(s, c, p).1 == Err(p.query.error)
  {
  }

  /** While not connected, a pass marks the stream disconnected, reconnects and yields the banner. */
  lemma NotConnectedRule(s: StreamState, c: StreamConfig, p: StreamPoll)
    requires !s.connected && p.connect.Ok?
    ensures var (s1, out) := StreamStep(s, c, p);
      s1.disconnected && s1.connected == p.connect.value && out == Ok(Some(RetryFrame(c.timer, s.data)))
      && s1.current == s.current && s1.data == s.data && s1.lastUpdate == s.lastUpdate
  {
  }

  /**
   * After a pass spent disconnected, the first successful poll pushes the
   * notes again even when the split index has not changed.
   */
  lemma ReconnectRepushes(s: StreamState, c: StreamConfig, p: StreamPoll, q: StreamPoll)
    requires !s.connected && p.connect == Ok(true) && q.query.Ok?
    ensures var s1 := StreamStep(s, c, p).0;
      var (s2, out) := StreamStep(s1, c, q);
      var text := SplitText(c, DesktopSync.Max(q.query.value, 0));
      s2.current == Some(DesktopSync.Max(q.query.value, 0)) && !s2.disconnected
      && out == Ok(Some(if |text| > 0 then DataFrame(PushData(text)) else END_FRAME))
  {
    var s1 := StreamStep(s, c, p).0;
    assert s1.connected && s1.disconnected;
    PushRule(s1, c, q);
  }

  /** Pushed frames and the end-of-notes frame are data events, never the keep-alive comment. */
  lemma DataIsNotKeepAlive(d: string)
    ensures DataFrame(d) != KEEP_ALIVE_FRAME && END_FRAME != KEEP_ALIVE_FRAME
  {
    assert DataFrame(d)[0] == 'd' && END_FRAME[0] == 'd' && KEEP_ALIVE_FRAME[0] == ':';
  }

  /** What every reachable state satisfies: the kept data has no newline and the pushed index is not negative. */
  predicate Inv(s: StreamState)
  {
    '\n' !in s.data && (s.current.Some? ==> s.current.value >= 0)
  }

  lemma StepKeepsInv(s: StreamState, c: StreamConfig, p: StreamPoll)
    requires Inv(s)
    ensures Inv(StreamStep(s, c, p).0)
  {
  }

  /** A frame is one event: it ends in a blank line and has no other line break. */
  predicate OneEvent(f: string)
  {
    |f| >= 2 && f[|f| - 2..] == "\n\n" && '\n' !in f[..|f| - 2]
  }

  lemma FrameShape(body: string)
    requires '\n' !in body
    ensures OneEvent(body + "\n\n")
  {
    assert (body + "\n\n")[..|body|] == body;
    assert (body + "\n\n")[|body|..] == "\n\n";
  }

  /** Every frame a pass yields is one event, provided the timer name has no line break. */
  lemma StepFrameIsOneEvent(s: StreamState, c: StreamConfig, p: StreamPoll)
    requires Inv(s) && '\n' !in c.timer
    ensures var out := StreamStep(s, c, p).1;
      out.Ok? && out.value.Some? ==> OneEvent(out.value.value)
  {
    StepFrames(s, c, p);
    FixedFramesAreEvents();
    RetryIsOneEvent(c.timer, s.data);
    if p.query.Ok? {
      DataIsOneEvent(PushData(SplitText(c, DesktopSync.Max(p.query.value, 0))));
    }
  }

  /** The frames a pass can yield. */
  lemma StepFrames(s: StreamState, c: StreamConfig, p: StreamPoll)
    ensures var out := StreamStep(s, c, p).1;
      out.Ok? && out.value.Some? ==>
        || out.value.value == KEEP_ALIVE_FRAME || out.value.value == END_FRAME
        || out.value.value == RetryFrame(c.timer, s.data)
        || (p.query.Ok? && out.value.value == DataFrame(PushData(SplitText(c, DesktopSync.Max(p.query.value, 0)))))
  {
  }

  lemma FixedFramesAreEvents()
    ensures OneEvent(KEEP_ALIVE_FRAME) && OneEvent(END_FRAME)
  {
    FrameShape(":No update, keep connection");
    FrameShape("data: End of Notes.");
  }

  lemma DataIsOneEvent(d: string)
    requires '\n' !in d
    ensures OneEvent(DataFrame(d))
  {
    assert DataFrame(d) == ("data: " + d) + "\n\n";
    FrameShape("data: " + d);
  }

  lemma RetryIsOneEvent(timer: string, data: string)
    requires '\n' !in timer && '\n' !in data
    ensures OneEvent(RetryFrame(timer, data))
  {
    var body := "data: <h2>Trying to connect to " + timer + ".</h2><h3>Make sure " + timer
      + " server is running.</h3>" + data;
    assert RetryFrame(timer, data) == body + "\n\n";
    FrameShape(body);
  }

  /** The stream after a sequence of passes: final state, frames yielded, and the exception that ended it. */
  function RunStream(s: StreamState, c: StreamConfig, polls: seq<StreamPoll>): (r: (StreamState, seq<string>, Option<Exc>))
    ensures |r.1| <= |polls|
    ensures r.2.Some? ==> polls != []
    decreases |polls|
  {
    if polls == [] then (s, [], None)
    else
      var (s1, out) := StreamStep(s, c, polls[0]);
      if out.Err? then (s1, [], Some(out.error))
      else
        var rest := RunStream(s1, c, polls[1..]);
        (rest.0, Frames(out.value) + rest.1, rest.2)
  }

  function Frames(o: Option<string>): seq<string>
  {
    if o.Some? then [o.value] else []
  }

  /** Every frame of a whole run is one event, and at most one frame is yielded per pass. */
  lemma {:induction false} RunFramesAreEvents(s: StreamState, c: StreamConfig, polls: seq<StreamPoll>)
    requires Inv(s) && '\n' !in c.timer
    ensures |RunStream(s, c, polls).1| <= |polls|
    ensures forall k :: 0 <= k < |RunStream(s, c, polls).1| ==> OneEvent(RunStream(s, c, polls).1[k])
    ensures Inv(RunStream(s, c, polls).0)
    decreases |polls|
  {
    if polls != [] {
      var (s1, out) := StreamStep(s, c, polls[0]);
      StepKeepsInv(s, c, polls[0]);
      StepFrameIsOneEvent(s, c, polls[0]);
      if out.Ok? {
        RunFramesAreEvents(s1, c, polls[1..]);
      }
    }
  }

  function Prepend(fs: seq<string>, run: (StreamState, seq<string>, Option<Exc>)): (StreamState, seq<string>, Option<Exc>)
  {
    (run.0, fs + run.1, run.2)
  }

  lemma PrependTwice(e: seq<string>, f: seq<string>, run: (StreamState, seq<string>, Option<Exc>))
    ensures Prepend(e, Prepend(f, run)) == Prepend(e + f, run)
  {
    assert e + (f + run.1) == (e + f) + run.1;
  }

  lemma RunStreamStep(s: StreamState, c: StreamConfig, polls: seq<StreamPoll>)
    requires polls != []
    ensures var (s1, out) := StreamStep(s, c, polls[0]);
      RunStream(s, c, polls) == if out.Err? then (s1, [], Some(out.error)) else Prepend(Frames(out.value), RunStream(s1, c, polls[1..]))
  {
  }

  /**
   * One pass of event_stream's loop: the generator's locals before the pass, the
   * locals after it and what the pass yields (None when it yields nothing) or raises.
   */
  method Pass(c: StreamConfig, p: StreamPoll,
              connected0: bool, disconnected0: bool, current0: Option<int>, lastUpdate0: real, data0: string)
    returns (connected: bool, disconnected: bool, currentNoteIndex: Option<int>, lastUpdate: real, data: string,
             yielded: Result<Option<string>, Exc>)
    ensures (StreamState(connected, disconnected, currentNoteIndex, lastUpdate, data), yielded)
         == StreamStep(StreamState(connected0, disconnected0, current0, lastUpdate0, data0), c, p)
  {
    connected, disconnected, currentNoteIndex, lastUpdate, data := connected0, disconnected0, current0, lastUpdate0, data0;
    yielded := Ok(None);
    if connected {
      var now := p.now;
      match p.query {
        case Err(e) =>
          if DesktopSync.Caught(e) {
            match p.connect {
              case Ok(b) =>
                connected := b;
                yielded := Ok(Some(RetryFrame(c.timer, data)));
              case Err(e2) =>
                yielded := Err(e2);
            }
          } else {
            yielded := Err(e);
          }
        case Ok(raw) =>
          var newIndex := DesktopSync.Max(raw, 0);
          if currentNoteIndex != Some(newIndex) || disconnected {
            disconnected := false;
            lastUpdate := now;
            currentNoteIndex := Some(newIndex);
            var w := DesktopSync.RenderWindow(newIndex, c.previousSplits, c.nextSplits);
            var splitText := c.render(c.notes, w.start, w.end);
            if |splitText| > 0 {
              data := Text.ReplaceChar(Text.Concat(splitText), '\n', "");
              yielded := Ok(Some(DataFrame(data)));
            } else {
              yielded := Ok(Some(END_FRAME));
            }
          } else if now - lastUpdate > KEEP_ALIVE {
            lastUpdate := now;
            yielded := Ok(Some(KEEP_ALIVE_FRAME));
          }
      }
    } else {
      disconnected := true;
      match p.connect {
        case Ok(b) =>
          connected := b;
          yielded := Ok(Some(RetryFrame(c.timer, data)));
        case Err(e) =>
          yielded := Err(e);
      }
    }
  }

  /**
   * event_stream: connect, then loop over the passes given, yielding frames.
   * An exception from the first connect ends the stream before any frame.
   */
  method EventStream(c: StreamConfig, initial: Result<bool, Exc>, polls: seq<StreamPoll>)
    returns (frames: seq<string>, failure: Option<Exc>)
    ensures initial.Err? ==> frames == [] && failure == Some(initial.error)
    ensures initial.Ok? ==> (frames, failure) == (RunStream(InitialState(initial.value), c, polls).1, RunStream(InitialState(initial.value), c, polls).2)
  {
    frames := [];
    if initial.Err? {
      failure := Some(initial.error);
      return;
    }
    failure := None;
    var currentNoteIndex: Option<int> := None;
    var lastUpdate := 0.0;
    var connected := initial.value;
    var disconnected := true;
    var data := "";
    ghost var start := InitialState(connected);
    var i := 0;
    assert polls[i..] == polls;
    assert frames + RunStream(start, c, polls).1 == RunStream(start, c, polls).1;
    while i < |polls| && failure.None?
      invariant 0 <= i <= |polls|
      invariant failure.None? ==>
        RunStream(start, c, polls) == Prepend(frames, RunStream(StreamState(connected, disconnected, currentNoteIndex, lastUpdate, data), c, polls[i..]))
      invariant failure.Some? ==> RunStream(start, c, polls).1 == frames && RunStream(start, c, polls).2 == failure
      decreases |polls| - i
    {
      ghost var before := StreamState(connected, disconnected, currentNoteIndex, lastUpdate, data);
      ghost var framesBefore := frames;
      var yielded;
      connected, disconnected, currentNoteIndex, lastUpdate, data, yielded :=
        Pass(c, polls[i], connected, disconnected, currentNoteIndex, lastUpdate, data);
      RunStreamStep(before, c, polls[i..]);
      assert polls[i..][1..] == polls[i + 1..];
      match yielded {
        case Ok(o) =>
          frames := frames + Frames(o);
          PrependTwice(framesBefore, Frames(o), RunStream(StreamState(connected, disconnected, currentNoteIndex, lastUpdate, data), c, polls[i + 1..]));
        case Err(e) =>
          failure := Some(e);
          assert frames + [] == frames;
      }
      i := i + 1;
    }
    if failure.None? {
      assert frames + [] == frames;
    }
  }
}

/**
 * The first version of the push stream: no `disconnected` flag, no kept
 * data, a fixed retry banner, and only the first rendered split is pushed.
 */
module LegacySplitServer {
  import opened Wrappers
  import opened Errors
  import Text
  import DesktopSync
  import SplitServer

  const KEEP_ALIVE: real := 10.0

  const RETRY_FRAME: string := "data: <h1>Trying to connect to livesplit.</h1>\n\n"

  /** Settings and notes of the older stream: the server's own window sizes. */
  datatype LegacyConfig = LegacyConfig(
    serverPreviousSplits: int,
    serverNextSplits: int,
    notes: seq<string>,
    render: DesktopSync.SplitRenderer)

  datatype LegacyState = LegacyState(connected: bool, current: Option<int>, lastUpdate: real)

  function LegacyInitialState(connected: bool): (s: LegacyState)
    ensures s.current == None && s.lastUpdate == 0.0
  {
    LegacyState(connected, None, 0.0)
  }

  function LegacySplitText(c: LegacyConfig, idx: int): seq<string>
  {
    var w := DesktopSync.RenderWindow(idx, c.serverPreviousSplits, c.serverNextSplits);
    c.render(c.notes, w.start, w.end)
  }

  /** One pass of the older loop. */
  function LegacyStreamStep(s: LegacyState, c: LegacyConfig, p: SplitServer.StreamPoll): (r: (LegacyState, Result<Option<string>, Exc>))
    ensures r.0.current != s.current ==> s.connected && p.query.Ok? && r.0.current == Some(DesktopSync.Max(p.query.value, 0))
    ensures r.0.lastUpdate == s.lastUpdate || r.0.lastUpdate == p.now
    ensures r.1.Err? ==> r.0 == s
  {
    if s.connected then
      match p.query
      case Err(e) =>
        if !DesktopSync.Caught(e) then (s, Err(e))
        else if p.connect.Err? then (s, Err(p.connect.error))
        else (s.(connected := p.connect.value), Ok(Some(RETRY_FRAME)))
      case Ok(raw) =>
        var idx := DesktopSync.Max(raw, 0);
        if s.current != Some(idx) then
          var text := LegacySplitText(c, idx);
          var s1 := s.(lastUpdate := p.now, current := Some(idx));
          if |text| > 0 then (s1, Ok(Some(SplitServer.DataFrame(Text.ReplaceChar(text[0], '\n', "")))))
          else (s1, Ok(Some(SplitServer.END_FRAME)))
        else if p.now - s.lastUpdate > KEEP_ALIVE then
          (s.(lastUpdate := p.now), Ok(Some(SplitServer.KEEP_ALIVE_FRAME)))
        else
          (s, Ok(None))
    else
      if p.connect.Err? then (s, Err(p.connect.error))
      else (s.(connected := p.connect.value), Ok(Some(RETRY_FRAME)))
  }

  /**
   * A successful poll pushes exactly when the clamped index changed; the push
   * carries the first split of the window with its newlines removed.
   */
  lemma LegacyPushRule(s: LegacyState, c: LegacyConfig, p: SplitServer.StreamPoll)
    requires s.connected && p.query.Ok?
    ensures var idx := DesktopSync.Max(p.query.value, 0);
      var (s1, out) := LegacyStreamStep(s, c, p);
      (s.current != Some(idx) ==>
        s1.current == Some(idx) && s1.lastUpdate == p.now
        && (|LegacySplitText(c, idx)| > 0 ==>
              out == Ok(Some(SplitServer.DataFrame(Text.ReplaceChar(LegacySplitText(c, idx)[0], '\n', "")))))
        && (|LegacySplitText(c, idx)| == 0 ==> out == Ok(Some(SplitServer.END_FRAME))))
      && (s.current == Some(idx) && p.now - s.lastUpdate > KEEP_ALIVE ==>
            s1 == s.(lastUpdate := p.now) && out == Ok(Some(SplitServer.KEEP_ALIVE_FRAME)))
      && (s.current == Some(idx) && p.now - s.lastUpdate <= KEEP_ALIVE ==> s1 == s && out == Ok(None))
  {
  }

  /** A caught failure and a disconnected pass both reconnect and yield the fixed banner. */
  lemma LegacyRetryRule(s: LegacyState, c: LegacyConfig, p: SplitServer.StreamPoll)
    requires p.connect.Ok?
    requires !s.connected || (p.query.Err? && DesktopSync.Caught(p.query.error))
    ensures LegacyStreamStep(s, c, p) == (s.(connected := p.connect.value), Ok(Some(RETRY_FRAME)))
  {
  }

  /**
   * The older stream's state is the newer one's without the flag and data:
   * while the newer stream is not marked disconnected, both push, keep alive
   * or stay silent on the same passes.
   */
  lemma LegacyAgreesWhileConnected(s: LegacyState, t: SplitServer.StreamState, p: SplitServer.StreamPoll, c: LegacyConfig, nc: SplitServer.StreamConfig)
    requires s.connected && t.connected && !t.disconnected
    requires s.current == t.current && s.lastUpdate == t.lastUpdate && p.query.Ok?
    ensures var (s1, out) := LegacyStreamStep(s, c, p);
      var (t1, nout) := SplitServer.StreamStep(t, nc, p);
      s1.current == t1.current && s1.lastUpdate == t1.lastUpdate
      && (out == Ok(None) <==> nout == Ok(None))
      && (out == Ok(Some(SplitServer.KEEP_ALIVE_FRAME)) <==> nout == Ok(Some(SplitServer.KEEP_ALIVE_FRAME)))
  {
    var idx := DesktopSync.Max(p.query.value, 0);
    if s.current != Some(idx) {
      var text := LegacySplitText(c, idx);
      if |text| > 0 {
        SplitServer.DataIsNotKeepAlive(Text.ReplaceChar(text[0], '\n', ""));
      }
      SplitServer.DataIsNotKeepAlive(SplitServer.PushData(SplitServer.SplitText(nc, idx)));
    }
  }

  /**
   * After a query failure with an immediate reconnect, the browser shows the
   * fixed banner, and a poll at the unchanged index within KEEP_ALIVE
   * seconds yields nothing: the notes are not shown again until the split
   * index changes.
   */
  lemma BannerStaysAfterReconnect(s: LegacyState, c: LegacyConfig, p: SplitServer.StreamPoll, q: SplitServer.StreamPoll)
    requires s.connected && s.current.Some? && s.current.value >= 0
    requires p.query == Err(ConnectionError) && p.connect == Ok(true)
    requires q.query == Ok(s.current.value) && q.now - s.lastUpdate <= KEEP_ALIVE
    ensures LegacyStreamStep(s, c, p).1 == Ok(Some(RETRY_FRAME))
    ensures LegacyStreamStep(LegacyStreamStep(s, c, p).0, c, q).1 == Ok(None)
  {
    assert LegacyStreamStep(s, c, p).0 == s;
  }

  function LegacyRunStream(s: LegacyState, c: LegacyConfig, polls: seq<SplitServer.StreamPoll>): (r: (LegacyState, seq<string>, Option<Exc>))
    ensures |r.1| <= |polls|
    ensures r.2.Some? ==> polls != []
    decreases |polls|
  {
    if polls == [] then (s, [], None)
    else
      var (s1, out) := LegacyStreamStep(s, c, polls[0]);
      if out.Err? then (s1, [], Some(out.error))
      else
        var rest := LegacyRunStream(s1, c, polls[1..]);
        (rest.0, SplitServer.Frames(out.value) + rest.1, rest.2)
  }

  lemma LegacyFrameIsOneEvent(s: LegacyState, c: LegacyConfig, p: SplitServer.StreamPoll)
    ensures var out := LegacyStreamStep(s, c, p).1;
      out.Ok? && out.value.Some? ==> SplitServer.OneEvent(out.value.value)
  {
    LegacyFrames(s, c, p);
    SplitServer.FixedFramesAreEvents();
    RetryFrameIsOneEvent();
    if p.query.Ok? {
      var text := LegacySplitText(c, DesktopSync.Max(p.query.value, 0));
      if |text| > 0 {
        SplitServer.DataIsOneEvent(Text.ReplaceChar(text[0], '\n', ""));
      }
    }
  }

  /** The frames a pass of the older loop can yield. */
  lemma LegacyFrames(s: LegacyState, c: LegacyConfig, p: SplitServer.StreamPoll)
    ensures var out := LegacyStreamStep(s, c, p).1;
      var text := if p.query.Ok? then LegacySplitText(c, DesktopSync.Max(p.query.value, 0)) else [];
      out.Ok? && out.value.Some? ==>
        || out.value.value == SplitServer.KEEP_ALIVE_FRAME || out.value.value == SplitServer.END_FRAME
        || out.value.value == RETRY_FRAME
        || (|text| > 0 && out.value.value == SplitServer.DataFrame(Text.ReplaceChar(text[0], '\n', "")))
  {
  }

  lemma RetryFrameIsOneEvent()
    ensures SplitServer.OneEvent(RETRY_FRAME)
  {
    var banner := "data: <h1>Trying to connect to " + "livesplit.</h1>";
    assert '\n' !in "data: <h1>Trying to connect to " && '\n' !in "livesplit.</h1>";
    assert RETRY_FRAME == banner + "\n\n";
    SplitServer.FrameShape(banner);
  }


  /** Every frame of a run of the older stream is one event. */
  lemma {:induction false} LegacyRunFramesAreEvents(s: LegacyState, c: LegacyConfig, polls: seq<SplitServer.StreamPoll>)
    ensures |LegacyRunStream(s, c, polls).1| <= |polls|
    ensures forall k :: 0 <= k < |LegacyRunStream(s, c, polls).1| ==> SplitServer.OneEvent(LegacyRunStream(s, c, polls).1[k])
    decreases |polls|
  {
    if polls != [] {
      var (s1, out) := LegacyStreamStep(s, c, polls[0]);
      LegacyFrameIsOneEvent(s, c, polls[0]);
      if out.Ok? {
        LegacyRunFramesAreEvents(s1, c, polls[1..]);
      }
    }
  }

  function Prepend(fs: seq<string>, run: (LegacyState, seq<string>, Option<Exc>)): (LegacyState, seq<string>, Option<Exc>)
  {
    (run.0, fs + run.1, run.2)
  }

  lemma PrependTwice(e: seq<string>, f: seq<string>, run: (LegacyState, seq<string>, Option<Exc>))
    ensures Prepend(e, Prepend(f, run)) == Prepend(e + f, run)
  {
    assert e + (f + run.1) == (e + f) + run.1;
  }

  lemma LegacyRunStreamStep(s: LegacyState, c: LegacyConfig, polls: seq<SplitServer.StreamPoll>)
    requires polls != []
    ensures var (s1, out) := LegacyStreamStep(s, c, polls[0]);
      LegacyRunStream(s, c, polls) == if out.Err? then (s1, [], Some(out.error)) else Prepend(SplitServer.Frames(out.value), LegacyRunStream(s1, c, polls[1..]))
  {
  }

  /** One pass of the older event_stream's loop, as Pass is for the newer one. */
  method LegacyPass(c: LegacyConfig, p: SplitServer.StreamPoll, connected0: bool, current0: Option<int>, lastUpdate0: real)
    returns (connected: bool, currentNoteIndex: Option<int>, lastUpdate: real, yielded: Result<Option<string>, Exc>)
    ensures (LegacyState(connected, currentNoteIndex, lastUpdate), yielded)
         == LegacyStreamStep(LegacyState(connected0, current0, lastUpdate0), c, p)
  {
    connected, currentNoteIndex, lastUpdate := connected0, current0, lastUpdate0;
    yielded := Ok(None);
    if connected {
      var now := p.now;
      match p.query {
        case Err(e) =>
          if DesktopSync.Caught(e) {
            match p.connect {
              case Ok(b) =>
                connected := b;
                yielded := Ok(Some(RETRY_FRAME));
              case Err(e2) =>
                yielded := Err(e2);
            }
          } else {
            yielded := Err(e);
          }
        case Ok(raw) =>
          var newIndex := DesktopSync.Max(raw, 0);
          if currentNoteIndex != Some(newIndex) {
            lastUpdate := now;
            currentNoteIndex := Some(newIndex);
            var w := DesktopSync.RenderWindow(newIndex, c.serverPreviousSplits, c.serverNextSplits);
            var splitText := c.render(c.notes, w.start, w.end);
            if |splitText| > 0 {
              var data := Text.ReplaceChar(splitText[0], '\n', "");
              yielded := Ok(Some(SplitServer.DataFrame(data)));
            } else {
              yielded := Ok(Some(SplitServer.END_FRAME));
            }
          } else if now - lastUpdate > KEEP_ALIVE {
            lastUpdate := now;
            yielded := Ok(Some(SplitServer.KEEP_ALIVE_FRAME));
          }
      }
    } else {
      match p.connect {
        case Ok(b) =>
          connected := b;
          yielded := Ok(Some(RETRY_FRAME));
        case Err(e) =>
          yielded := Err(e);
      }
    }
  }

  /** The older event_stream loop over the passes given. */
  method LegacyEventStream(c: LegacyConfig, initial: Result<bool, Exc>, polls: seq<SplitServer.StreamPoll>)
    returns (frames: seq<string>, failure: Option<Exc>)
    ensures initial.Err? ==> frames == [] && failure == Some(initial.error)
    ensures initial.Ok? ==> (frames, failure) == (LegacyRunStream(LegacyInitialState(initial.value), c, polls).1, LegacyRunStream(LegacyInitialState(initial.value), c, polls).2)
  {
    frames := [];
    if initial.Err? {
      failure := Some(initial.error);
      return;
    }
    failure := None;
    var currentNoteIndex: Option<int> := None;
    var lastUpdate := 0.0;
    var connected := initial.value;
    ghost var start := LegacyInitialState(connected);
    var i := 0;
    assert polls[i..] == polls;
    assert frames + LegacyRunStream(start, c, polls).1 == LegacyRunStream(start, c, polls).1;
    while i < |polls| && failure.None?
      invariant 0 <= i <= |polls|
      invariant failure.None? ==>
        LegacyRunStream(start, c, polls) == Prepend(frames, LegacyRunStream(LegacyState(connected, currentNoteIndex, lastUpdate), c, polls[i..]))
      invariant failure.Some? ==> LegacyRunStream(start, c, polls).1 == frames && LegacyRunStream(start, c, polls).2 == failure
      decreases |polls| - i
    {
      ghost var before := LegacyState(connected, currentNoteIndex, lastUpdate);
      ghost var framesBefore := frames;
      var yielded;
      connected, currentNoteIndex, lastUpdate, yielded := LegacyPass(c, polls[i], connected, currentNoteIndex, lastUpdate);
      LegacyRunStreamStep(before, c, polls[i..]);
      assert polls[i..][1..] == polls[i + 1..];
      match yielded {
        case Ok(o) =>
          frames := frames + SplitServer.Frames(o);
          PrependTwice(framesBefore, SplitServer.Frames(o), LegacyRunStream(LegacyState(connected, currentNoteIndex, lastUpdate), c, polls[i + 1..]));
        case Err(e) =>
          failure := Some(e);
          assert frames + [] == frames;
      }
      i := i + 1;
    }
    if failure.None? {
      assert frames + [] == frames;
    }
  }
}
