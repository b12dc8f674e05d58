/**
 * The desktop window's synchronisation state: which split of the notes is on
 * screen, the manual split offset, the two toggled display settings, and the
 * background link that polls the timer for its split index.
 *
 * Qt (widgets, menus, the status bar text, window flags), the Jinja template
 * and the thread pool are not modelled: the page on screen is recorded as the
 * render window and the list of rendered splits, and the polling worker is a
 * loop over the outcomes its client calls produce.
 */
module DesktopSync {
  import opened Wrappers
  import opened Errors
  import NoteParser
  import Paths

  /**
   * `Notes.render_splits(start, end)` applied to a notes list. Its definition
   * is not part of this model, so the window takes it as a parameter.
   */
  type SplitRenderer = (seq<string>, int, int) -> seq<string>

  function Max(a: int, b: int): int { if a >= b then a else b }

  /**
   * update_notes: the raw index from the timer (-1 while it is stopped) is
   * clamped at 0, the manual offset is added, and the sum is clamped at 0.
   */
  function EffectiveIndex(raw: int, offset: int): (idx: int)
    ensures idx >= 0
    ensures idx >= raw + offset
  {
    Max(Max(raw, 0) + offset, 0)
  }

  /** What the effective index means in each region of its inputs. */
  lemma EffectiveIndexCases(raw: int, offset: int)
    ensures raw <= 0 ==> EffectiveIndex(raw, offset) == EffectiveIndex(0, offset)
    ensures raw >= 0 && raw + offset >= 0 ==> EffectiveIndex(raw, offset) == raw + offset
    ensures Max(raw, 0) + offset <= 0 ==> EffectiveIndex(raw, offset) == 0
    ensures offset == 0 ==> EffectiveIndex(raw, offset) == Max(raw, 0)
  {
  }

  /** The effective index never decreases when the raw index or the offset grows. */
  lemma EffectiveIndexMonotone(raw: int, raw': int, offset: int, offset': int)
    requires raw <= raw' && offset <= offset'
    ensures EffectiveIndex(raw, offset) <= EffectiveIndex(raw', offset')
  {
  }

  /** The half-open range of split numbers handed to render_splits. */
  datatype Window = Window(start: int, end: int)

  function RenderWindow(idx: int, previous: int, next: int): (w: Window)
    ensures w.end - w.start == previous + next + 1
    ensures w.start + previous == idx
    ensures previous >= 0 && next >= 0 ==> w.start <= idx < w.end
  {
    Window(idx - previous, idx + next + 1)
  }

  /** What the notes view shows: the blank start page, or a rendered window. */
  datatype View = Blank | Page(window: Window, splits: seq<string>)

  /** The settings the window reads and writes. */
  datatype ViewSettings = ViewSettings(
    onTop: bool,
    transparency: bool,
    previousSplits: int,
    nextSplits: int,
    separator: string,
    notesFolder: string)  // the folder the next notes dialog opens in

  /** The window's own state: note file, parsed notes, index, offset and view. */
  datatype Desk = Desk(
    notefile: Option<string>,
    notes: Option<seq<string>>,
    splitIndex: int,
    splitOffset: int,
    view: View)

  /** `self.notefile and self.notes`: a non-empty file name and parsed notes. */
  predicate Loaded(d: Desk)
  {
    d.notefile.Some? && d.notefile.value != "" && d.notes.Some?
  }

  /** Whether update_notes re-renders for this raw index and refresh flag. */
  predicate Rerenders(d: Desk, raw: int, refresh: bool)
  {
    Loaded(d) && (EffectiveIndex(raw, d.splitOffset) != d.splitIndex || refresh)
  }

  /** The page update_notes puts on screen for effective index `idx`. */
  function PageAt(d: Desk, s: ViewSettings, render: SplitRenderer, idx: int): View
    requires d.notes.Some?
  {
    var w := RenderWindow(idx, s.previousSplits, s.nextSplits);
    Page(w, render(d.notes.value, w.start, w.end))
  }

  /** update_notes(idx, refresh) as a function of the window's state. */
  function UpdateNotesStep(d: Desk, s: ViewSettings, render: SplitRenderer, raw: int, refresh: bool): (r: Desk)
    ensures r.notefile == d.notefile && r.notes == d.notes && r.splitOffset == d.splitOffset
    ensures d.splitIndex >= 0 ==> r.splitIndex >= 0
  {
    var idx := EffectiveIndex(raw, d.splitOffset);
    if Loaded(d) && (idx != d.splitIndex || refresh) then
      d.(view := PageAt(d, s, render, idx), splitIndex := idx)
    else
      d
  }

  /**
   * The page changes, and the stored index becomes the effective index,
   * exactly when notes are loaded and the index moved or a refresh was asked
   * for; otherwise nothing changes at all.
   */
  lemma UpdateNotesSpec(d: Desk, s: ViewSettings, render: SplitRenderer, raw: int, refresh: bool)
    ensures Rerenders(d, raw, refresh) ==>
      UpdateNotesStep(d, s, render, raw, refresh).splitIndex == EffectiveIndex(raw, d.splitOffset)
      && UpdateNotesStep(d, s, render, raw, refresh).view == PageAt(d, s, render, EffectiveIndex(raw, d.splitOffset))
    ensures !Rerenders(d, raw, refresh) ==> UpdateNotesStep(d, s, render, raw, refresh) == d
    ensures UpdateNotesStep(d, s, render, raw, refresh).splitIndex != d.splitIndex ==> Rerenders(d, raw, refresh)
  {
  }

  /** Once an index is on screen, the same index without refresh changes nothing. */
  lemma UpdateNotesSettles(d: Desk, s: ViewSettings, render: SplitRenderer, raw: int, refresh: bool)
    ensures var d1 := UpdateNotesStep(d, s, render, raw, refresh);
      Loaded(d) ==> UpdateNotesStep(d1, s, render, raw, false) == d1
  {
  }

  /** increase_offset / decrease_offset: one step, and a re-render at raw index 0 while disconnected. */
  function ShiftOffsetStep(d: Desk, s: ViewSettings, render: SplitRenderer, connected: bool, delta: int): (r: Desk)
    ensures r.splitOffset == d.splitOffset + delta && r.notes == d.notes && r.notefile == d.notefile
    ensures connected ==> r.view == d.view && r.splitIndex == d.splitIndex
  {
    var d1 := d.(splitOffset := d.splitOffset + delta);
    if connected then d1 else UpdateNotesStep(d1, s, render, 0, false)
  }

  function IncreaseOffsetStep(d: Desk, s: ViewSettings, render: SplitRenderer, connected: bool): (r: Desk)
    ensures r.splitOffset == d.splitOffset + 1
  {
    ShiftOffsetStep(d, s, render, connected, 1)
  }

  function DecreaseOffsetStep(d: Desk, s: ViewSettings, render: SplitRenderer, connected: bool): (r: Desk)
    ensures r.splitOffset == d.splitOffset - 1
  {
    ShiftOffsetStep(d, s, render, connected, -1)
  }

  /** While connected the offset handlers only count: the next poll re-renders. */
  lemma ConnectedShiftOnlyCounts(d: Desk, s: ViewSettings, render: SplitRenderer)
    ensures DecreaseOffsetStep(IncreaseOffsetStep(d, s, render, true), s, render, true) == d
    ensures IncreaseOffsetStep(DecreaseOffsetStep(d, s, render, true), s, render, true) == d
    ensures IncreaseOffsetStep(d, s, render, true).view == d.view
    ensures IncreaseOffsetStep(d, s, render, true).splitIndex == d.splitIndex
  {
  }

  /**
   * While disconnected with notes loaded, the page follows the offset alone:
   * the index shown is max(offset, 0), so stepping up and back down returns
   * to the index the old offset selects from raw index 0.
   */
  lemma DisconnectedShiftShows(d: Desk, s: ViewSettings, render: SplitRenderer)
    requires Loaded(d)
    ensures IncreaseOffsetStep(d, s, render, false).splitIndex == Max(d.splitOffset + 1, 0)
    ensures DecreaseOffsetStep(d, s, render, false).splitIndex == Max(d.splitOffset - 1, 0)
    ensures var back := DecreaseOffsetStep(IncreaseOffsetStep(d, s, render, false), s, render, false);
      back.splitOffset == d.splitOffset && back.splitIndex == Max(d.splitOffset, 0)
  {
  }

  /** disable_hotkeys: on Windows only, reset the offset and re-render at 0 while disconnected. */
  function DisableHotkeysStep(d: Desk, s: ViewSettings, render: SplitRenderer, win32: bool, connected: bool): (r: Desk)
    ensures win32 ==> r.splitOffset == 0
    ensures !win32 ==> r == d
  {
    if !win32 then d
    else
      var d1 := d.(splitOffset := 0);
      if connected then d1 else UpdateNotesStep(d1, s, render, 0, false)
  }

  /**
   * open_notes: a non-empty chosen file is parsed with the current separator,
   * the offset is reset and the first window is rendered; an empty choice
   * (the dialog was cancelled) changes nothing.
   */
  function OpenNotesStep(d: Desk, s: ViewSettings, render: SplitRenderer, chosen: string, lines: seq<string>): (r: Desk)
    ensures chosen == "" ==> r == d
  {
    if chosen == "" then d
    else
      var d1 := d.(notefile := Some(chosen), notes := Some(NoteParser.Splits(lines, s.separator)), splitOffset := 0);
      UpdateNotesStep(d1, s, render, 0, true)
  }

  /**
   * The settings part of open_notes: a chosen file's folder is remembered for
   * the next dialog; nothing else in the settings changes.
   */
  function OpenNotesSettings(s: ViewSettings, chosen: string): (r: ViewSettings)
    ensures chosen == "" ==> r == s
    ensures r.(notesFolder := s.notesFolder) == s
  {
    if chosen == "" then s else s.(notesFolder := Paths.Parent(chosen))
  }

  /** A file chosen inside a folder makes that folder the one the next dialog opens in. */
  lemma OpenNotesRemembersFolder(s: ViewSettings, root: string, folder: seq<string>, name: string)
    requires root == "" || root == "/" || root == "//"
    requires forall i :: 0 <= i < |folder| ==> Paths.IsPart(folder[i])
    requires Paths.IsPart(name)
    ensures OpenNotesSettings(s, Paths.Shown(root, folder + [name])).notesFolder == Paths.Shown(root, folder)
  {
    Paths.ParentOfChild(root, folder, name);
  }

  lemma OpenNotesShowsFirstPage(d: Desk, s: ViewSettings, render: SplitRenderer, chosen: string, lines: seq<string>)
    requires chosen != ""
    ensures var r := OpenNotesStep(d, s, render, chosen, lines);
      var w := RenderWindow(0, s.previousSplits, s.nextSplits);
      r.splitOffset == 0 && r.splitIndex == 0 && r.notefile == Some(chosen)
      && r.notes == Some(NoteParser.Splits(lines, s.separator))
      && r.view == Page(w, render(NoteParser.Splits(lines, s.separator), w.start, w.end))
  {
  }

  /**
   * The notes part of an accepted settings dialog: with a note file, re-parse
   * it with the (possibly new) separator, reset the offset and re-render the
   * stored index; without one, show the blank page.
   */
  function SettingsAcceptedStep(d: Desk, s: ViewSettings, render: SplitRenderer, lines: seq<string>): (r: Desk)
    ensures !(d.notefile.Some? && d.notefile.value != "") ==> r == d.(view := Blank)
  {
    if d.notefile.Some? && d.notefile.value != "" then
      var d1 := d.(notes := Some(NoteParser.Splits(lines, s.separator)), splitOffset := 0);
      UpdateNotesStep(d1, s, render, d.splitIndex, true)
    else
      d.(view := Blank)
  }

  /** With a note file loaded, accepting the settings keeps the shown index and redraws it. */
  lemma SettingsAcceptedKeepsIndex(d: Desk, s: ViewSettings, render: SplitRenderer, lines: seq<string>)
    requires d.splitIndex >= 0 && d.notefile.Some? && d.notefile.value != ""
    ensures var r := SettingsAcceptedStep(d, s, render, lines);
      r.splitOffset == 0 && r.splitIndex == d.splitIndex
      && r.notes == Some(NoteParser.Splits(lines, s.separator))
      && r.view == PageAt(r, s, render, d.splitIndex)
  {
  }

  /** toggle_on_top: negate the on-top setting and nothing else. */
  function ToggleOnTopStep(s: ViewSettings): (r: ViewSettings)
    ensures r.onTop == !s.onTop
    ensures r.(onTop := s.onTop) == s
  {
    s.(onTop := !s.onTop)
  }

  /** toggle_transparency: negate the transparency setting and nothing else. */
  function ToggleTransparencyStep(s: ViewSettings): (r: ViewSettings)
    ensures r.transparency == !s.transparency
    ensures r.(transparency := s.transparency) == s
  {
    s.(transparency := !s.transparency)
  }

  /** Each toggle undoes itself, and the two toggles commute. */
  lemma TogglesAreInvolutions(s: ViewSettings)
    ensures ToggleOnTopStep(ToggleOnTopStep(s)) == s
    ensures ToggleTransparencyStep(ToggleTransparencyStep(s)) == s
    ensures ToggleOnTopStep(ToggleTransparencyStep(s)) == ToggleTransparencyStep(ToggleOnTopStep(s))
  {
  }

  // ---------------------------------------------------------------------
  // LivesplitLink: the polling worker
  // ---------------------------------------------------------------------

  /** The calls the worker makes on its timer client, in order. */
  datatype ClientCall = ClientConnect | ClientGetSplitIndex | ClientClose

  /** The thread pool: never created, or created and possibly shut down. */
  datatype PoolState = NoPool | Pool(shutDown: bool)

  datatype LinkState = LinkState(connected: bool, breakLoop: bool, pool: PoolState, calls: seq<ClientCall>)

  /**
   * What the client calls of one iteration produce: `client.connect()` when
   * disconnected, `client.get_split_index()` when connected.
   */
  datatype Poll = Poll(connect: Result<bool, Exc>, query: Result<int, Exc>)

  /**
   * The exceptions the loop catches: ConnectionError with its subclasses
   * ConnectionAbortedError and ConnectionRefusedError, and TimeoutError.
   */
  predicate Caught(e: Exc)
  {
    e == ConnectionError || e == ConnectionAbortedError || e == ConnectionRefusedError || e == TimeoutError
  }

  function StartLoopsStep(l: LinkState): (r: LinkState)
    ensures !r.breakLoop && r.pool == Pool(false)
    ensures r.connected == l.connected && r.calls == l.calls
  {
    l.(breakLoop := false, pool := Pool(false))
  }

  function StopLoopsStep(l: LinkState): (r: LinkState)
    ensures r.breakLoop
    ensures r.pool == (if l.pool.Pool? then Pool(true) else NoPool)
    ensures r.connected == l.connected && r.calls == l.calls
  {
    l.(breakLoop := true, pool := if l.pool.Pool? then Pool(true) else NoPool)
  }

  function CloseLinkStep(l: LinkState): (r: LinkState)
    ensures r.calls == l.calls + [ClientClose]
  {
    var l1 := StopLoopsStep(l);
    l1.(calls := l1.calls + [ClientClose])
  }

  /**
   * The body of one iteration of loop_update_split. The second component is
   * the index emitted to the window (None when nothing is emitted), or the
   * exception that ends the worker.
   */
  function IterationStep(l: LinkState, p: Poll): (r: (LinkState, Result<Option<int>, Exc>))
    ensures r.0.breakLoop == l.breakLoop && r.0.pool == l.pool
    ensures |l.calls| < |r.0.calls| && r.0.calls[..|l.calls|] == l.calls
    ensures r.1.Ok? && r.1.value.Some? ==> l.connected && p.query == Ok(r.1.value.value)
  {
    if l.connected then
      var l1 := l.(calls := l.calls + [ClientGetSplitIndex]);
      match p.query
      case Ok(i) => (l1, Ok(Some(i)))
      case Err(e) =>
        if Caught(e) then (l1.(connected := false, calls := l1.calls + [ClientClose]), Ok(None))
        else (l1, Err(e))
    else
      var l1 := l.(calls := l.calls + [ClientConnect]);
      match p.connect
      case Ok(b) => (l1.(connected := b), Ok(None))
      case Err(e) => (l1, Err(e))
  }

  /** The three cases of an iteration, with what each does to the link and what it emits. */
  lemma IterationCases(l: LinkState, p: Poll)
    ensures var (l1, out) := IterationStep(l, p);
      l1.breakLoop == l.breakLoop && l1.pool == l.pool
      && (out.Ok? && out.value.Some? <==> l.connected && p.query.Ok?)
      && (l.connected && p.query.Ok? ==> out == Ok(Some(p.query.value)) && l1 == l.(calls := l.calls + [ClientGetSplitIndex]))
      && (l.connected && p.query.Err? && Caught(p.query.error) ==>
            out == Ok(None) && !l1.connected && l1.calls == l.calls + [ClientGetSplitIndex, ClientClose])
      && (!l.connected && p.connect.Ok? ==>
            out == Ok(None) && l1.connected == p.connect.value && l1.calls == l.calls + [ClientConnect])
  {
  }

  /**
   * A reply that is not an integer (ValueError) is not caught: it ends the
   * worker with the link still marked connected.
   */
  lemma ValueErrorEndsWorker(l: LinkState, p: Poll)
    requires l.connected && p.query == Err(ValueError)
    ensures IterationStep(l, p).1 == Err(ValueError)
    ensures IterationStep(l, p).0.connected
  {
  }

  /**
   * The poll loop over the outcomes of its iterations: it runs while
   * break_loop is clear, until the outcomes run out or an uncaught
   * exception ends it. Results: final state, emitted indices, the exception.
   */
  function RunLoop(l: LinkState, polls: seq<Poll>): (r: (LinkState, seq<int>, Option<Exc>))
    ensures l.breakLoop ==> r == (l, [], None)
    ensures |r.1| <= |polls|
    decreases |polls|
  {
    if l.breakLoop || polls == [] then (l, [], None)
    else
      var (l1, out) := IterationStep(l, polls[0]);
      if out.Err? then (l1, [], Some(out.error))
      else
        var rest := RunLoop(l1, polls[1..]);
        (rest.0, Emitted(out.value) + rest.1, rest.2)
  }

  function Emitted(o: Option<int>): seq<int>
  {
    if o.Some? then [o.value] else []
  }

  /** Every index the loop emits is a query reply, unchanged and in order, one per poll at most. */
  lemma {:induction false} RunLoopEmitsReplies(l: LinkState, polls: seq<Poll>)
    ensures |RunLoop(l, polls).1| <= |polls|
    ensures forall k :: 0 <= k < |RunLoop(l, polls).1| ==>
      exists j :: 0 <= j < |polls| && polls[j].query == Ok(RunLoop(l, polls).1[k])
    ensures RunLoop(l, polls).0.breakLoop == l.breakLoop
    decreases |polls|
  {
    if l.breakLoop || polls == [] {
    } else {
      var (l1, out) := IterationStep(l, polls[0]);
      IterationCases(l, polls[0]);
      if out.Ok? {
        RunLoopEmitsReplies(l1, polls[1..]);
        var rest := RunLoop(l1, polls[1..]);
        var em := Emitted(out.value) + rest.1;
        assert RunLoop(l, polls).1 == em;
        forall k | 0 <= k < |em|
          ensures exists j :: 0 <= j < |polls| && polls[j].query == Ok(em[k])
        {
          if out.value.Some? && k == 0 {
            assert polls[0].query == Ok(em[0]);
          } else {
            var k' := k - |Emitted(out.value)|;
            assert em[k] == rest.1[k'];
            var j' :| 0 <= j' < |polls[1..]| && polls[1..][j'].query == Ok(rest.1[k']);
            assert polls[j' + 1].query == Ok(em[k]);
          }
        }
      }
    }
  }

  /** Prefix the indices emitted so far to the outcome of the rest of a run. */
  function Prepend(em: seq<int>, run: (LinkState, seq<int>, Option<Exc>)): (LinkState, seq<int>, Option<Exc>)
  {
    (run.0, em + run.1, run.2)
  }

  lemma PrependTwice(e: seq<int>, f: seq<int>, run: (LinkState, seq<int>, Option<Exc>))
    ensures Prepend(e, Prepend(f, run)) == Prepend(e + f, run)
  {
    assert e + (f + run.1) == (e + f) + run.1;
  }

  /** One unfolding of RunLoop: the first iteration, then the rest. */
  lemma RunLoopStep(l: LinkState, polls: seq<Poll>)
    requires !l.breakLoop && polls != []
    ensures var (l1, out) := IterationStep(l, polls[0]);
      RunLoop(l, polls) == if out.Err? then (l1, [], Some(out.error)) else Prepend(Emitted(out.value), RunLoop(l1, polls[1..]))
  {
  }

  /**
   * After a caught failure the link is disconnected and closed, and the next
   * iteration reconnects.
   */
  lemma FailureThenReconnect(l: LinkState, p: Poll, q: Poll)
    requires l.connected && !l.breakLoop && p.query.Err? && Caught(p.query.error)
    requires q.connect == Ok(true)
    ensures RunLoop(l, [p, q]).1 == [] && RunLoop(l, [p, q]).2 == None
    ensures RunLoop(l, [p, q]).0.connected
    ensures RunLoop(l, [p, q]).0.calls == l.calls + [ClientGetSplitIndex, ClientClose, ClientConnect]
  {
    var l1 := IterationStep(l, p).0;
    assert l1 == l.(connected := false, calls := l.calls + [ClientGetSplitIndex, ClientClose]);
    RunLoopStep(l, [p, q]);
    assert [p, q][1..] == [q];
    RunLoopStep(l1, [q]);
    var l2 := IterationStep(l1, q).0;
    assert l2.calls == l.calls + [ClientGetSplitIndex, ClientClose] + [ClientConnect];
    assert [q][1..] == [];
    assert RunLoop(l2, []) == (l2, [], None);
  }

  /** The polling link. `calls` records what it asked of its timer client. */
  class LivesplitLink {
    var connected: bool
    var breakLoop: bool
    var pool: PoolState
    var calls: seq<ClientCall>

    function State(): LinkState
      reads this
    {
      LinkState(connected, breakLoop, pool, calls)
    }

    constructor()
      ensures State() == LinkState(false, false, NoPool, [])
    {
      connected := false;
      breakLoop := false;
      pool := NoPool;
      calls := [];
    }

    method StartLoops()
      modifies this
      ensures State() == StartLoopsStep(old(State()))
    {
      breakLoop := false;
      pool := Pool(false);
    }

    method StopLoops()
      modifies this
      ensures State() == StopLoopsStep(old(State()))
    {
      breakLoop := true;
      if pool.Pool? {
        pool := Pool(true);
      }
    }

    method Close()
      modifies this
      ensures State() == CloseLinkStep(old(State()))
    {
      StopLoops();
      calls := calls + [ClientClose];
    }

    /** ls_connect: `connected` becomes whatever the client's connect returns. */
    method LsConnect(outcome: Result<bool, Exc>) returns (failure: Option<Exc>)
      modifies this
      ensures outcome.Ok? ==> failure == None && connected == outcome.value
      ensures outcome.Err? ==> failure == Some(outcome.error) && connected == old(connected)
      ensures calls == old(calls) + [ClientConnect]
      ensures breakLoop == old(breakLoop) && pool == old(pool)
    {
      calls := calls + [ClientConnect];
      match outcome {
        case Ok(b) =>
          connected := b;
          failure := None;
        case Err(e) =>
          failure := Some(e);
      }
    }

    /** loop_update_split, fed the outcomes of its iterations in order. */
    method LoopUpdateSplit(polls: seq<Poll>) returns (emitted: seq<int>, failure: Option<Exc>)
      modifies this
      ensures (State(), emitted, failure) == RunLoop(old(State()), polls)
    {
      emitted := [];
      failure := None;
      ghost var start := State();
      var i := 0;
      assert polls[i..] == polls;
      assert State() == start;
      assert emitted + RunLoop(start, polls).1 == RunLoop(start, polls).1;
      assert RunLoop(start, polls) == Prepend(emitted, RunLoop(start, polls));
      while i < |polls| && !breakLoop && failure.None?
        invariant 0 <= i <= |polls|
        invariant failure.None? ==> RunLoop(start, polls) == Prepend(emitted, RunLoop(State(), polls[i..]))
        invariant failure.Some? ==> RunLoop(start, polls) == (State(), emitted, failure)
        decreases |polls| - i
      {
        var p := polls[i];
        ghost var before := State();
        ghost var emittedBefore := emitted;
        ghost var step := IterationStep(before, p);
        if connected {
          calls := calls + [ClientGetSplitIndex];
          match p.query {
            case Ok(idx) =>
              emitted := emitted + [idx];
            case Err(e) =>
              if Caught(e) {
                connected := false;
                calls := calls + [ClientClose];
              } else {
                failure := Some(e);
              }
          }
        } else {
          failure := LsConnect(p.connect);
        }
        assert State() == step.0;
        RunLoopStep(before, polls[i..]);
        assert polls[i..][1..] == polls[i + 1..];
        if failure.None? {
          assert step.1.Ok? && emitted == emittedBefore + Emitted(step.1.value);
          PrependTwice(emittedBefore, Emitted(step.1.value), RunLoop(step.0, polls[i + 1..]));
        } else {
          assert step.1 == Err(failure.value) && emitted == emittedBefore;
          assert emitted + [] == emitted;
        }
        i := i + 1;
      }
      if failure.None? {
        assert RunLoop(State(), polls[i..]) == (State(), [], None);
        assert emitted + [] == emitted;
      }
    }
  }

  /** The desktop window, reduced to the state its handlers change. */
  class MainWindow {
    var settings: ViewSettings
    var notefile: Option<string>
    var notes: Option<seq<string>>
    var splitIndex: int
    var splitOffset: int
    var view: View
    const render: SplitRenderer
    const ls: LivesplitLink

    function State(): Desk
      reads this
    {
      Desk(notefile, notes, splitIndex, splitOffset, view)
    }

    /** The index on screen is never negative. */
    predicate Valid()
      reads this
    {
      splitIndex >= 0
    }

    /**
     * __init__: blank page, no notes, index and offset 0, and a fresh link
     * whose loops are started.
     */
    constructor(settings: ViewSettings, render: SplitRenderer)
      ensures Valid()
      ensures State() == Desk(None, None, 0, 0, Blank)
      ensures this.settings == settings && this.render == render
      ensures fresh(ls) && ls.State() == LinkState(false, false, Pool(false), [])
    {
      this.settings := settings;
      this.render := render;
      notefile := None;
      notes := None;
      view := Blank;
      ls := new LivesplitLink();
      splitIndex := 0;
      splitOffset := 0;
      new;
      ls.StartLoops();
    }

    method UpdateNotes(raw: int, refresh: bool)
      requires Valid()
      modifies this
      ensures Valid() && settings == old(settings)
      ensures State() == UpdateNotesStep(old(State()), settings, render, raw, refresh)
    {
      var idx := EffectiveIndex(raw, splitOffset);
      if notefile.Some? && notefile.value != "" && notes.Some? && (idx != splitIndex || refresh) {
        var w := RenderWindow(idx, settings.previousSplits, settings.nextSplits);
        view := Page(w, render(notes.value, w.start, w.end));
        splitIndex := idx;
      }
    }

    method IncreaseOffset()
      requires Valid()
      modifies this
      ensures Valid() && settings == old(settings)
      ensures State() == IncreaseOffsetStep(old(State()), settings, render, ls.connected)
    {
      splitOffset := splitOffset + 1;
      if !ls.connected {
        UpdateNotes(0, false);
      }
    }

    method DecreaseOffset()
      requires Valid()
      modifies this
      ensures Valid() && settings == old(settings)
      ensures State() == DecreaseOffsetStep(old(State()), settings, render, ls.connected)
    {
      splitOffset := splitOffset - 1;
      if !ls.connected {
        UpdateNotes(0, false);
      }
    }

    /** disable_hotkeys; `win32` stands for the platform test. */
    method DisableHotkeys(win32: bool)
      requires Valid()
      modifies this
      ensures Valid() && settings == old(settings)
      ensures State() == DisableHotkeysStep(old(State()), settings, render, win32, ls.connected)
    {
      if win32 {
        splitOffset := 0;
        if !ls.connected {
          UpdateNotes(0, false);
        }
      }
    }

    /** open_notes with the dialog's choice and the lines of the chosen file. */
    method OpenNotes(chosen: string, lines: seq<string>)
      requires Valid()
      modifies this
      ensures Valid() && settings == OpenNotesSettings(old(settings), chosen)
      ensures State() == OpenNotesStep(old(State()), old(settings), render, chosen, lines)
    {
      if chosen != "" {
        notefile := Some(chosen);
        notes := Some(NoteParser.Splits(lines, settings.separator));
        settings := settings.(notesFolder := Paths.Parent(chosen));
        splitOffset := 0;
        UpdateNotes(0, true);
      }
    }

    /** The notes part of open_settings after the dialog was accepted with `newSettings`. */
    method SettingsAccepted(newSettings: ViewSettings, lines: seq<string>)
      requires Valid()
      modifies this
      ensures Valid() && settings == newSettings
      ensures State() == SettingsAcceptedStep(old(State()), newSettings, render, lines)
    {
      settings := newSettings;
      if notefile.Some? && notefile.value != "" {
        notes := Some(NoteParser.Splits(lines, settings.separator));
        splitOffset := 0;
        UpdateNotes(splitIndex, true);
      } else {
        view := Blank;
      }
    }

    method ToggleOnTop()
      modifies this
      ensures settings == ToggleOnTopStep(old(settings))
      ensures State() == old(State())
    {
      settings := settings.(onTop := !settings.onTop);
    }

    method ToggleTransparency()
      modifies this
      ensures settings == ToggleTransparencyStep(old(settings))
      ensures State() == old(State())
    {
      settings := settings.(transparency := !settings.transparency);
    }
  }
}
