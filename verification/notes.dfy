/**
 * Notes: a notes file read line by line and cut into one page of text per
 * split. Lines in square brackets are comments; a line equal to the separator
 * (by default the empty line) starts the next page.
 */
module NoteParser {
  import opened Wrappers
  import opened Errors
  import opened Text

  /** Python's `line.startswith('[') and line.endswith(']')`. */
  predicate IsComment(line: string)
  {
    |line| >= 1 && line[0] == '[' && line[|line| - 1] == ']'
  }

  /** What the loop does with one line, after rstrip: drop it, cut the page, or keep it. */
  datatype LineKind = CommentLine | SeparatorLine | TextLine(text: string)

  function Classify(line: string, separator: string): (k: LineKind)
    ensures k.TextLine? ==> k.text == RStrip(line) && RStrip(line) != separator
  {
    var l := RStrip(line);
    if IsComment(l) then CommentLine else if l == separator then SeparatorLine else TextLine(l)
  }

  /**
   * The loop's two lists after the given lines: the finished pages (split_notes)
   * and the lines of the page being collected (split).
   */
  function Scan(lines: seq<string>, separator: string): (seq<string>, seq<string>)
    decreases |lines|
  {
    if lines == [] then ([], [])
    else
      var (done, page) := Scan(lines[..|lines| - 1], separator);
      Step(done, page, Classify(lines[|lines| - 1], separator))
  }

  /** Each line adds at most one finished page or one line of the current page. */
  lemma {:induction false} ScanBound(lines: seq<string>, separator: string)
    ensures |Scan(lines, separator).0| + |Scan(lines, separator).1| <= |lines|
    decreases |lines|
  {
    if lines != [] {
      ScanBound(lines[..|lines| - 1], separator);
    }
  }

  /** There is always at least one page, and never more than one per line plus the last. */
  lemma SplitsBound(lines: seq<string>, separator: string)
    ensures 1 <= |Splits(lines, separator)| <= |lines| + 1
  {
    ScanBound(lines, separator);
  }

  /** One turn of the loop on the two lists. */
  function Step(done: seq<string>, page: seq<string>, k: LineKind): (seq<string>, seq<string>)
  {
    match k
    case CommentLine => (done, page)
    case SeparatorLine => (done + [Join("\n", page)], [])
    case TextLine(t) => (done, page + [t])
  }

  /** The pages the loop produces: the finished ones, then the last, always appended. */
  function Splits(lines: seq<string>, separator: string): seq<string>
  {
    var (done, page) := Scan(lines, separator);
    done + [Join("\n", page)]
  }

  /*
   * An independent description of the same pages, read from the front: the kept
   * lines of each page, with a separator opening a new, empty page.
   */
  function Groups(lines: seq<string>, separator: string): (g: seq<seq<string>>)
    ensures |g| >= 1
  {
    if lines == [] then [[]] else Cons(Classify(lines[0], separator), Groups(lines[1..], separator))
  }

  /** A line in front of the pages read after it. */
  function Cons(k: LineKind, rest: seq<seq<string>>): (g: seq<seq<string>>)
    requires |rest| >= 1
    ensures |g| >= 1
  {
    match k
    case CommentLine => rest
    case SeparatorLine => [[]] + rest
    case TextLine(t) => [[t] + rest[0]] + rest[1..]
  }

  /** A line after the pages read before it: what one turn of the loop does. */
  function Push(g: seq<seq<string>>, k: LineKind): (r: seq<seq<string>>)
    requires |g| >= 1
    ensures |r| >= 1
  {
    match k
    case CommentLine => g
    case SeparatorLine => g + [[]]
    case TextLine(t) => g[..|g| - 1] + [g[|g| - 1] + [t]]
  }

  lemma ConsPush(h: LineKind, r: seq<seq<string>>, k: LineKind)
    requires |r| >= 1
    ensures Cons(h, Push(r, k)) == Push(Cons(h, r), k)
  {
    if h.TextLine? && k.TextLine? {
      if |r| == 1 {
        assert [h.text] + (r[0] + [k.text]) == ([h.text] + r[0]) + [k.text];
      } else {
        assert Push(r, k)[1..] == r[1..|r| - 1] + [r[|r| - 1] + [k.text]];
      }
    } else if h.TextLine? && k.SeparatorLine? {
      assert Push(r, k)[1..] == r[1..] + [[]];
    } else if h.SeparatorLine? && k.TextLine? {
      assert ([[]] + r)[..|r|] == [[]] + r[..|r| - 1];
    }
  }

  function JoinEach(groups: seq<seq<string>>): (r: seq<string>)
    ensures |r| == |groups|
    ensures forall i :: 0 <= i < |groups| ==> r[i] == Join("\n", groups[i])
  {
    if groups == [] then [] else [Join("\n", groups[0])] + JoinEach(groups[1..])
  }

  function Flatten(groups: seq<seq<string>>): seq<string>
  {
    if groups == [] then [] else groups[0] + Flatten(groups[1..])
  }

  /** The lines a page keeps: every line that is neither a comment nor the separator, right-stripped. */
  function Kept(lines: seq<string>, separator: string): seq<string>
  {
    if lines == [] then []
    else (if Classify(lines[0], separator).TextLine? then [RStrip(lines[0])] else []) + Kept(lines[1..], separator)
  }

  function SeparatorCount(lines: seq<string>, separator: string): nat
  {
    if lines == [] then 0
    else (if Classify(lines[0], separator) == SeparatorLine then 1 else 0) + SeparatorCount(lines[1..], separator)
  }

  /** Reading one more line changes the front-read pages the way the loop does. */
  lemma {:induction false} GroupsSnoc(lines: seq<string>, line: string, separator: string)
    ensures Groups(lines + [line], separator) == Push(Groups(lines, separator), Classify(line, separator))
    decreases |lines|
  {
    if lines == [] {
      assert [] + [line] == [line];
      assert [line][1..] == [];
      PushOnEmpty(Classify(line, separator));
    } else {
      GroupsSnoc(lines[1..], line, separator);
      assert (lines + [line])[1..] == lines[1..] + [line];
      assert (lines + [line])[0] == lines[0];
      ConsPush(Classify(lines[0], separator), Groups(lines[1..], separator), Classify(line, separator));
    }
  }

  lemma PushOnEmpty(k: LineKind)
    ensures Cons(k, [[]]) == Push([[]], k)
  {
    if k.TextLine? {
      assert [k.text] + [] == [] + [k.text];
    }
  }

  /** One turn of the loop is one Push on the pages it stands for. */
  lemma StepIsPush(done: seq<string>, page: seq<string>, g: seq<seq<string>>, k: LineKind)
    requires |g| >= 1 && done == JoinEach(g[..|g| - 1]) && page == g[|g| - 1]
    ensures Step(done, page, k).0 == JoinEach(Front(Push(g, k)))
    ensures Step(done, page, k).1 == Last(Push(g, k))
  {
    var g2 := Push(g, k);
    match k
    case CommentLine =>
    case SeparatorLine =>
      assert g2[..|g2| - 1] == g;
      assert g == g[..|g| - 1] + [g[|g| - 1]];
      JoinEachAppend(g[..|g| - 1], [g[|g| - 1]]);
    case TextLine(t) =>
      assert g2[..|g2| - 1] == g[..|g| - 1];
  }

  /** The loop's pages are the front-read pages, each joined with "\n". */
  lemma {:induction false} ScanIsGroups(lines: seq<string>, separator: string)
    ensures Scan(lines, separator).0 == JoinEach(Front(Groups(lines, separator)))
    ensures Scan(lines, separator).1 == Last(Groups(lines, separator))
    decreases |lines|
  {
    if lines != [] {
      var init := lines[..|lines| - 1];
      var line := lines[|lines| - 1];
      ScanIsGroups(init, separator);
      GroupsSnoc(init, line, separator);
      assert init + [line] == lines;
      var st := Scan(init, separator);
      assert Scan(lines, separator) == Step(st.0, st.1, Classify(line, separator));
      StepIsPush(st.0, st.1, Groups(init, separator), Classify(line, separator));
    }
  }

  function Front(g: seq<seq<string>>): seq<seq<string>>
    requires |g| >= 1
  {
    g[..|g| - 1]
  }

  function Last(g: seq<seq<string>>): seq<string>
    requires |g| >= 1
  {
    g[|g| - 1]
  }

  lemma JoinEachAppend(a: seq<seq<string>>, b: seq<seq<string>>)
    ensures JoinEach(a + b) == JoinEach(a) + JoinEach(b)
  {
  }

  /** The pages as the loop makes them are the front-read pages, joined. */
  lemma SplitsAreGroups(lines: seq<string>, separator: string)
    ensures Splits(lines, separator) == JoinEach(Groups(lines, separator))
  {
    ScanIsGroups(lines, separator);
    JoinEachLast(Groups(lines, separator));
  }

  lemma {:induction false} JoinEachLast(g: seq<seq<string>>)
    requires |g| >= 1
    ensures JoinEach(g) == JoinEach(Front(g)) + [Join("\n", Last(g))]
  {
    var a := JoinEach(g);
    var b := JoinEach(Front(g)) + [Join("\n", Last(g))];
    forall i | 0 <= i < |a|
      ensures a[i] == b[i]
    {
      if i < |g| - 1 {
        assert Front(g)[i] == g[i];
      }
    }
  }

  /** One page more than there are separator lines; the last page is there even when empty. */
  lemma {:induction false} GroupCount(lines: seq<string>, separator: string)
    ensures |Groups(lines, separator)| == SeparatorCount(lines, separator) + 1
  {
    if lines != [] {
      GroupCount(lines[1..], separator);
    }
  }

  /** Read in order, the pages hold exactly the kept lines, in their original order. */
  lemma {:induction false} GroupsKeepOrder(lines: seq<string>, separator: string)
    ensures Flatten(Groups(lines, separator)) == Kept(lines, separator)
  {
    if lines != [] {
      GroupsKeepOrder(lines[1..], separator);
      var rest := Groups(lines[1..], separator);
      assert rest == [rest[0]] + rest[1..];
      match Classify(lines[0], separator)
      case CommentLine =>
      case SeparatorLine =>
        assert Flatten([[]] + rest) == Flatten(rest);
      case TextLine(t) =>
        assert Flatten(rest) == rest[0] + Flatten(rest[1..]);
    }
  }

  /** What the splitter promises: the page count, and the pages' contents in order. */
  lemma SplitsProperties(lines: seq<string>, separator: string)
    ensures |Splits(lines, separator)| == SeparatorCount(lines, separator) + 1
    ensures Splits(lines, separator) == JoinEach(Groups(lines, separator))
    ensures Flatten(Groups(lines, separator)) == Kept(lines, separator)
  {
    SplitsAreGroups(lines, separator);
    GroupCount(lines, separator);
    GroupsKeepOrder(lines, separator);
  }

  /** The comment test comes first: a bracketed line never cuts a page, even when it is the separator. */
  lemma CommentBeforeSeparator(line: string, separator: string)
    requires IsComment(RStrip(line))
    ensures Classify(line, separator) == CommentLine
  {
  }

  /** Python's seq[idx]: negative indices count from the end; anything else outside raises IndexError. */
  function PyIndex(s: seq<string>, idx: int): (r: Result<string, Exc>)
    ensures 0 <= idx < |s| ==> r == Ok(s[idx])
    ensures -|s| <= idx < 0 ==> r == Ok(s[|s| + idx])
    ensures (idx < -|s| || idx >= |s|) <==> r == Err(IndexError)
  {
    if 0 <= idx < |s| then Ok(s[idx])
    else if -|s| <= idx < 0 then Ok(s[|s| + idx])
    else Err(IndexError)
  }

  const BREAK: string := "<br/>\n"

  /** render_split's default: the page with an HTML line break before every newline. */
  function RenderPage(raw: string): string
  {
    Join(BREAK, SplitOn(raw, '\n'))
  }

  lemma RenderReplacesNewlines(raw: string)
    ensures RenderPage(raw) == ReplaceChar(raw, '\n', BREAK)
  {
    JoinSplitIsReplace(raw, '\n', BREAK);
  }

  /** A line the splitter keeps as it is: no trailing whitespace, not bracketed, not the separator. */
  predicate PlainLine(x: string, separator: string)
  {
    x != [] && !IsSpace(x[|x| - 1]) && !IsComment(x) && x != separator
  }

  lemma {:induction false} StripNewline(s: string)
    requires s == [] || !IsSpace(s[|s| - 1])
    ensures RStrip(s + "\n") == s
  {
    assert (s + "\n")[..|s|] == s;
  }

  /** The kind of each line, in order. */
  function Kinds(lines: seq<string>, separator: string): (ks: seq<LineKind>)
    ensures |ks| == |lines|
  {
    if lines == [] then [] else [Classify(lines[0], separator)] + Kinds(lines[1..], separator)
  }

  function GroupsOf(ks: seq<LineKind>): (g: seq<seq<string>>)
    ensures |g| >= 1
  {
    if ks == [] then [[]] else Cons(ks[0], GroupsOf(ks[1..]))
  }

  /** The pages depend on the lines only through their kinds. */
  lemma {:induction false} GroupsByKinds(lines: seq<string>, separator: string)
    ensures Groups(lines, separator) == GroupsOf(Kinds(lines, separator))
  {
    if lines != [] {
      GroupsByKinds(lines[1..], separator);
      assert Kinds(lines, separator)[1..] == Kinds(lines[1..], separator);
    }
  }

  lemma SeparatorAtEnd(separator: string)
    requires separator == [] || (!IsSpace(separator[|separator| - 1]) && !IsComment(separator))
    ensures Classify(separator + "\n", separator) == SeparatorLine
  {
    StripNewline(separator);
  }

  lemma SampleGroups(a: string, b: string, c: string, d: string, e: string)
    ensures GroupsOf([TextLine(a), CommentLine, TextLine(b), CommentLine, SeparatorLine, CommentLine,
                      TextLine(c), TextLine(d), SeparatorLine, TextLine(e)])
         == [[a, b], [c, d], [e]]
  {
    var ks := [TextLine(a), CommentLine, TextLine(b), CommentLine, SeparatorLine, CommentLine,
               TextLine(c), TextLine(d), SeparatorLine, TextLine(e)];
    assert ks[9..][1..] == [];
    assert GroupsOf(ks[9..]) == Cons(TextLine(e), [[]]);
    assert [e] + [] == [e];
    assert GroupsOf(ks[9..]) == [[e]];
    assert ks[8..][1..] == ks[9..];
    assert GroupsOf(ks[8..]) == [[], [e]];
    assert ks[7..][1..] == ks[8..];
    assert GroupsOf(ks[7..]) == Cons(TextLine(d), [[], [e]]);
    assert [d] + [] == [d];
    assert GroupsOf(ks[7..]) == [[d], [e]];
    assert ks[6..][1..] == ks[7..];
    assert GroupsOf(ks[6..]) == Cons(TextLine(c), [[d], [e]]);
    assert [c] + [d] == [c, d];
    assert GroupsOf(ks[6..]) == [[c, d], [e]];
    assert ks[5..][1..] == ks[6..];
    assert ks[4..][1..] == ks[5..];
    assert GroupsOf(ks[4..]) == [[], [c, d], [e]];
    assert ks[3..][1..] == ks[4..];
    assert ks[2..][1..] == ks[3..];
    assert GroupsOf(ks[2..]) == Cons(TextLine(b), [[], [c, d], [e]]);
    assert [b] + [] == [b];
    assert GroupsOf(ks[2..]) == [[b], [c, d], [e]];
    assert ks[1..][1..] == ks[2..];
    assert ks[0..] == ks;
    assert GroupsOf(ks) == Cons(TextLine(a), [[b], [c, d], [e]]);
    assert [a] + [b] == [a, b];
  }

  lemma KeptLine(x: string, separator: string)
    requires PlainLine(x, separator)
    ensures Classify(x + "\n", separator) == TextLine(x)
  {
    StripNewline(x);
  }

  lemma BracketedLine(x: string, separator: string)
    requires IsComment(x)
    ensures Classify(x + "\n", separator) == CommentLine
  {
    StripNewline(x);
  }

  /**
   * The shape of the test suite's sample file: two kept lines around a comment,
   * a comment, a separator, a comment, two kept lines, a separator, a last line.
   * It yields exactly three pages, each its kept lines joined by "\n".
   */
  lemma SamplePages(lines: seq<string>, separator: string, a: string, b: string, c: string, d: string, e: string)
    requires Kinds(lines, separator)
          == [TextLine(a), CommentLine, TextLine(b), CommentLine, SeparatorLine, CommentLine,
              TextLine(c), TextLine(d), SeparatorLine, TextLine(e)]
    ensures Splits(lines, separator) == [a + "\n" + b, c + "\n" + d, e]
  {
    GroupsByKinds(lines, separator);
    SampleGroups(a, b, c, d, e);
    SplitsAreGroups(lines, separator);
    assert Join("\n", [a, b]) == a + "\n" + b;
    assert Join("\n", [c, d]) == c + "\n" + d;
  }

  lemma {:induction false} ReplaceAppend(a: string, b: string, c: char, sub: string)
    ensures ReplaceChar(a + b, c, sub) == ReplaceChar(a, c, sub) + ReplaceChar(b, c, sub)
  {
    if a != [] {
      ReplaceAppend(a[1..], b, c, sub);
      assert (a + b)[1..] == a[1..] + b;
    } else {
      assert a + b == b;
    }
  }

  lemma {:induction false} ReplaceAbsent(a: string, c: char, sub: string)
    requires c !in a
    ensures ReplaceChar(a, c, sub) == a
  {
    if a != [] {
      ReplaceAbsent(a[1..], c, sub);
    }
  }

  /** A two-line page renders as its lines around one "<br/>\n", as in the test suite's render check. */
  lemma RenderTwoLines(a: string, b: string)
    requires '\n' !in a && '\n' !in b
    ensures RenderPage(a + "\n" + b) == a + BREAK + b
  {
    var nl := ReplaceChar("\n", '\n', BREAK);
    assert nl == BREAK + ReplaceChar([], '\n', BREAK);
    calc {
      RenderPage(a + "\n" + b);
      == { RenderReplacesNewlines(a + "\n" + b); }
      ReplaceChar(a + "\n" + b, '\n', BREAK);
      == { ReplaceAppend(a + "\n", b, '\n', BREAK); }
      ReplaceChar(a + "\n", '\n', BREAK) + ReplaceChar(b, '\n', BREAK);
      == { ReplaceAppend(a, "\n", '\n', BREAK); }
      ReplaceChar(a, '\n', BREAK) + nl + ReplaceChar(b, '\n', BREAK);
      == { ReplaceAbsent(a, '\n', BREAK); ReplaceAbsent(b, '\n', BREAK); }
      a + BREAK + b;
    }
  }

  class Notes {
    const separator: string
    const preprocessor: Option<string -> string>
    var notes: seq<string>

    constructor(noteStream: seq<string>, separator: string, preprocessor: Option<string -> string>)
      ensures this.separator == separator && this.preprocessor == preprocessor
      ensures notes == Splits(noteStream, separator)
    {
      this.separator := separator;
      this.preprocessor := preprocessor;
      notes := [];
      new;
      GetNotes(noteStream);
    }

    method GetNotes(noteStream: seq<string>)
      modifies this
      ensures notes == Splits(noteStream, separator)
    {
      var splitNotes: seq<string> := [];
      var split: seq<string> := [];
      var i := 0;
      while i < |noteStream|
        invariant 0 <= i <= |noteStream|
        invariant (splitNotes, split) == Scan(noteStream[..i], separator)
      {
        var line := RStrip(noteStream[i]);
        assert noteStream[..i + 1][..i] == noteStream[..i];
        if IsComment(line) {
        } else if line == separator {
          splitNotes := splitNotes + [Join("\n", split)];
          split := [];
        } else {
          split := split + [line];
        }
        i := i + 1;
      }
      assert noteStream[..i] == noteStream;
      splitNotes := splitNotes + [Join("\n", split)];
      notes := splitNotes;
    }

    /** render_split(idx): the indexed page, through the preprocessor when there is one. */
    function RenderSplit(idx: int): (r: Result<string, Exc>)
      reads this
      ensures PyIndex(notes, idx).Err? <==> r.Err?
      ensures r.Ok? && preprocessor.Some? ==> r.value == preprocessor.value(PyIndex(notes, idx).value)
      ensures r.Ok? && preprocessor.None? ==> r.value == ReplaceChar(PyIndex(notes, idx).value, '\n', BREAK)
    {
      match PyIndex(notes, idx)
      case Err(e) => Err(e)
      case Ok(raw) =>
        RenderReplacesNewlines(raw);
        if preprocessor.Some? then Ok(preprocessor.value(raw)) else Ok(RenderPage(raw))
    }
  }
}

/** The first version of the notes splitter: the same loop, run in the constructor. */
module NoteHandler {
  import opened Wrappers
  import opened Errors
  import opened Text
  import opened NoteParser

  /** The raw string r'<br/>\n': a backslash and an n, not a newline. */
  const RAW_BREAK: string := "<br/>\\n"

  function RenderPageRaw(raw: string): string
  {
    Join(RAW_BREAK, SplitOn(raw, '\n'))
  }

  lemma {:induction false} ReplaceAvoids(s: string, c: char, sub: string)
    requires c !in sub
    ensures c !in ReplaceChar(s, c, sub)
  {
    if s != [] {
      ReplaceAvoids(s[1..], c, sub);
    }
  }

  /**
   * The older render also replaces each newline, but by the seven characters
   * "<br/>\n" with a literal backslash: its output holds no newline at all.
   */
  lemma RenderRawHasNoNewline(raw: string)
    ensures RenderPageRaw(raw) == ReplaceChar(raw, '\n', RAW_BREAK)
    ensures '\n' !in RenderPageRaw(raw)
    ensures |RAW_BREAK| == |BREAK| + 1
  {
    JoinSplitIsReplace(raw, '\n', RAW_BREAK);
    assert RAW_BREAK[6] != '\n';
    ReplaceAvoids(raw, '\n', RAW_BREAK);
  }

  class Notes {
    const formatter: Option<string -> string>
    var notes: seq<string>

    /** __init__: the splitting loop, with the separator a constructor argument only. */
    constructor(noteStream: seq<string>, separator: string, formatter: Option<string -> string>)
      ensures this.formatter == formatter
      ensures notes == Splits(noteStream, separator)
    {
      this.formatter := formatter;
      var splitNotes: seq<string> := [];
      var split: seq<string> := [];
      var i := 0;
      while i < |noteStream|
        invariant 0 <= i <= |noteStream|
        invariant (splitNotes, split) == Scan(noteStream[..i], separator)
      {
        var line := RStrip(noteStream[i]);
        assert noteStream[..i + 1][..i] == noteStream[..i];
        if IsComment(line) {
        } else if line == separator {
          splitNotes := splitNotes + [Join("\n", split)];
          split := [];
        } else {
          split := split + [line];
        }
        i := i + 1;
      }
      assert noteStream[..i] == noteStream;
      splitNotes := splitNotes + [Join("\n", split)];
      notes := splitNotes;
    }

    function RenderSplit(idx: int): (r: Result<string, Exc>)
      reads this
      ensures PyIndex(notes, idx).Err? <==> r.Err?
      ensures r.Ok? && formatter.Some? ==> r.value == formatter.value(PyIndex(notes, idx).value)
      ensures r.Ok? && formatter.None? ==> r.value == ReplaceChar(PyIndex(notes, idx).value, '\n', RAW_BREAK)
    {
      match PyIndex(notes, idx)
      case Err(e) => Err(e)
      case Ok(raw) =>
        RenderRawHasNoNewline(raw);
        if formatter.Some? then Ok(formatter.value(raw)) else Ok(RenderPageRaw(raw))
    }
  }
}
