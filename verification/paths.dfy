/**
 * The one pathlib operation the window needs: str(Path(p).parent), which
 * open_notes stores as the folder the next file dialog opens in. Paths are
 * taken in pathlib's POSIX flavour: '/' separates components, empty and "."
 * components are dropped, and the root is kept in front.
 */
module Paths {
  import opened Text

  /** The root pathlib keeps: "//" for exactly two leading slashes, "/" for one or three and more, "" for none. */
  function Root(p: string): (r: string)
    ensures r == "" || r == "/" || r == "//"
    ensures r == "" <==> (|p| == 0 || p[0] != '/')
  {
    if |p| >= 2 && p[..2] == "//" && (|p| == 2 || p[2] != '/') then "//"
    else if |p| >= 1 && p[0] == '/' then "/"
    else ""
  }

  /** A piece between slashes that pathlib keeps as a component. */
  predicate IsPart(s: string)
  {
    s != "" && s != "." && '/' !in s
  }

  /** The pieces that are components, in order. */
  function Keep(pieces: seq<string>): (r: seq<string>)
    ensures |r| <= |pieces|
    ensures forall i :: 0 <= i < |r| ==> r[i] in pieces && IsPart(r[i])
  {
    if pieces == [] then []
    else if IsPart(pieces[0]) then [pieces[0]] + Keep(pieces[1..])
    else Keep(pieces[1..])
  }

  /** The components of p, as Path(p).parts lists them after the root. */
  function Parts(p: string): seq<string>
  {
    Keep(SplitOn(p, '/'))
  }

  /** How pathlib writes a root and components: "." when both are empty. */
  function Shown(root: string, parts: seq<string>): string
  {
    if root == "" && parts == [] then "." else root + Join("/", parts)
  }

  /** str(Path(p).parent): the path without its last component; a bare root or "." is its own parent. */
  function Parent(p: string): string
  {
    var parts := Parts(p);
    if |parts| == 0 then Shown(Root(p), [])
    else Shown(Root(p), parts[..|parts| - 1])
  }

  lemma {:induction false} KeepParts(parts: seq<string>)
    requires forall i :: 0 <= i < |parts| ==> IsPart(parts[i])
    ensures Keep(parts) == parts
  {
    if parts != [] {
      KeepParts(parts[1..]);
      assert [parts[0]] + parts[1..] == parts;
    }
  }

  /** Components joined by slashes split back into the same components. */
  lemma {:induction false} SplitJoin(parts: seq<string>)
    requires |parts| >= 1
    requires forall i :: 0 <= i < |parts| ==> '/' !in parts[i]
    ensures SplitOn(Join("/", parts), '/') == parts
  {
    if |parts| == 1 {
      SplitNone(parts[0], '/');
    } else {
      SplitJoin(parts[1..]);
      assert Join("/", parts) == parts[0] + ['/'] + Join("/", parts[1..]);
      SplitAfter(parts[0], '/', Join("/", parts[1..]));
      assert [parts[0]] + parts[1..] == parts;
    }
  }

  /** Components joined by slashes start with the first component's first character. */
  lemma JoinStart(parts: seq<string>)
    requires |parts| >= 1 && IsPart(parts[0])
    ensures |Join("/", parts)| >= 1 && Join("/", parts)[0] == parts[0][0]
  {
    if |parts| > 1 {
      assert Join("/", parts) == parts[0] + ("/" + Join("/", parts[1..]));
    }
  }

  /** A root in front of text not starting with '/' is read back as that root, followed by empty pieces. */
  lemma RootedSplit(root: string, j: string)
    requires root == "" || root == "/" || root == "//"
    requires |j| >= 1 && j[0] != '/'
    ensures Root(root + j) == root
    ensures Keep(SplitOn(root + j, '/')) == Keep(SplitOn(j, '/'))
  {
    var p := root + j;
    if root == "/" {
      assert p[0] == '/' && p[1] == j[0] && p[1..] == j;
    } else if root == "//" {
      assert p[..2] == "//" && p[2] == j[0];
      assert p[1..] == "/" + j && p[2..] == j;
      assert ("/" + j)[1..] == j;
    } else {
      assert p == j;
    }
  }

  /** The root and components read back from the text pathlib writes for them. */
  lemma ShownReadsBack(root: string, parts: seq<string>)
    requires root == "" || root == "/" || root == "//"
    requires forall i :: 0 <= i < |parts| ==> IsPart(parts[i])
    ensures Root(Shown(root, parts)) == root
    ensures Parts(Shown(root, parts)) == parts
  {
    var p := Shown(root, parts);
    if root == "" && parts == [] {
      SplitNone(".", '/');
    } else if parts == [] {
      assert p == root;
      assert SplitOn("/", '/') == ["", ""];
      assert SplitOn("//", '/') == ["", "", ""];
    } else {
      var j := Join("/", parts);
      JoinStart(parts);
      RootedSplit(root, j);
      SplitJoin(parts);
      KeepParts(parts);
    }
  }

  /**
   * The parent of a file named inside a folder is that folder, written as
   * pathlib writes it.
   */
  lemma ParentOfChild(root: string, folder: seq<string>, name: string)
    requires root == "" || root == "/" || root == "//"
    requires forall i :: 0 <= i < |folder| ==> IsPart(folder[i])
    requires IsPart(name)
    ensures Parent(Shown(root, folder + [name])) == Shown(root, folder)
  {
    var parts := folder + [name];
    ShownReadsBack(root, parts);
    assert parts[..|parts| - 1] == folder;
  }

  /** The parent keeps the root and drops exactly the last component. */
  lemma ParentDropsLast(p: string)
    ensures Root(Parent(p)) == Root(p)
    ensures var parts := Parts(p);
      Parts(Parent(p)) == if parts == [] then [] else parts[..|parts| - 1]
  {
    var parts := Parts(p);
    var kept := if parts == [] then [] else parts[..|parts| - 1];
    assert Parent(p) == Shown(Root(p), kept);
    PrefixParts(parts, kept);
    ShownReadsBack(Root(p), kept);
  }

  lemma PrefixParts(parts: seq<string>, kept: seq<string>)
    requires forall i :: 0 <= i < |parts| ==> IsPart(parts[i])
    requires kept <= parts
    ensures forall i :: 0 <= i < |kept| ==> IsPart(kept[i])
  {
    forall i | 0 <= i < |kept| ensures IsPart(kept[i]) {
      assert kept[i] == parts[i];
    }
  }
}
