/** File tools (tools/file_operations.py): paths are resolved against the repository
    root and refused when they lead outside it; files and directories under the root are
    created, read, written, deleted and listed. The part of the file system under the
    root is a map from paths, relative to the root, to nodes. */
module FileOps {
  import opened Text
  import opened Sorting
  import opened Outcomes

  /** A path as its components. */
  type Path = seq<string>

  /** `s.split("/")` */
  function PathParts(s: string): (r: seq<string>)
    ensures |r| >= 1
    ensures forall k :: 0 <= k < |r| ==> '/' !in r[k]
  {
    if s == [] then [""]
    else
      var rest := PathParts(s[1..]);
      if s[0] == '/' then [""] + rest
      else
        assert forall k :: 1 <= k < |rest| ==> ([rest[0]] + rest[1..])[k] == rest[k];
        [[s[0]] + rest[0]] + rest[1..]
  }

  /** A component `resolve` keeps: no separator, and not empty, `.` or `..`. */
  predicate NormalName(c: string) {
    '/' !in c && c != "" && c != "." && c != ".."
  }

  predicate NormalPath(p: Path) {
    forall k :: 0 <= k < |p| ==> NormalName(p[k])
  }

  /** `resolve()` walking `parts` from `at`: empty parts and `.` stay, `..` goes up (and
      stays at the file system root), anything else goes down. Links are not followed. */
  function Walk(at: Path, parts: seq<string>): (r: Path)
    requires NormalPath(at)
    requires forall k :: 0 <= k < |parts| ==> '/' !in parts[k]
    ensures NormalPath(r)
    decreases |parts|
  {
    if parts == [] then at
    else
      var c := parts[0];
      var next := if c == "" || c == "." then at
                  else if c == ".." then (if at == [] then [] else at[..|at| - 1])
                  else at + [c];
      Walk(next, parts[1..])
  }

  /** `_safe_resolve(rel)` for a repository at absolute path `root`: the resolved path
      relative to the root, or None for the ValueError when it is outside. A path that
      starts with `/` is absolute and replaces the root. */
  function Resolve(root: Path, rel: string): (r: Option<Path>)
    requires NormalPath(root)
    ensures r.Some? ==> NormalPath(r.value)
    ensures r.Some? ==> root + r.value == Walk(if rel != [] && rel[0] == '/' then [] else root, PathParts(rel))
    ensures var full := Walk(if rel != [] && rel[0] == '/' then [] else root, PathParts(rel));
            r.Some? <==> |root| <= |full| && full[..|root|] == root
  {
    var full := Walk(if rel != [] && rel[0] == '/' then [] else root, PathParts(rel));
    if |root| <= |full| && full[..|root|] == root then
      assert root + full[|root|..] == full;
      Some(full[|root|..])
    else None
  }

  /** Walking down names only keeps the starting point as a prefix. */
  lemma {:induction false} WalkDownStaysBelow(at: Path, parts: seq<string>)
    requires NormalPath(at)
    requires forall k :: 0 <= k < |parts| ==> '/' !in parts[k] && parts[k] != ".."
    ensures |at| <= |Walk(at, parts)| && Walk(at, parts)[..|at|] == at
    decreases |parts|
  {
    if parts != [] {
      var c := parts[0];
      var next := if c == "" || c == "." then at else at + [c];
      WalkDownStaysBelow(next, parts[1..]);
      assert next[..|at|] == at;
    }
  }

  /** A relative path with no `..` component is always inside the root. */
  lemma NoParentStepIsInside(root: Path, rel: string)
    requires NormalPath(root)
    requires rel == [] || rel[0] != '/'
    requires forall k :: 0 <= k < |PathParts(rel)| ==> PathParts(rel)[k] != ".."
    ensures Resolve(root, rel).Some?
  {
    WalkDownStaysBelow(root, PathParts(rel));
  }

  /** A path that steps out of a directory and back down stays inside and is accepted. */
  lemma ParentStepInsideIsAccepted(root: Path)
    requires NormalPath(root)
    ensures Resolve(root, "a/../b") == Some(["b"])
  {
    assert PathParts("") == [""];
    assert PathParts("b") == ["b"] by {
      assert "b"[1..] == "" && ['b'] + "" == "b";
    }
    assert PathParts("/b") == ["", "b"] by { assert "/b"[1..] == "b"; }
    assert PathParts("./b") == [".", "b"] by {
      assert "./b"[1..] == "/b" && ['.'] + "" == ".";
    }
    assert PathParts("../b") == ["..", "b"] by {
      assert "../b"[1..] == "./b" && ['.'] + "." == "..";
    }
    assert PathParts("/../b") == ["", "..", "b"] by { assert "/../b"[1..] == "../b"; }
    assert PathParts("a/../b") == ["a", "..", "b"] by {
      assert "a/../b"[1..] == "/../b" && ['a'] + "" == "a";
    }
    assert Walk(root, ["a", "..", "b"]) == Walk(root + ["a"], ["..", "b"]);
    assert (root + ["a"])[..|root|] == root;
    assert Walk(root + ["a"], ["..", "b"]) == Walk(root, ["b"]);
    assert Walk(root, ["b"]) == root + ["b"];
    assert (root + ["b"])[..|root|] == root && (root + ["b"])[|root|..] == ["b"];
  }

  /** Going up from a repository that is not the file system root is refused. */
  lemma ParentOfRootIsRefused(root: Path)
    requires NormalPath(root) && root != []
    ensures Resolve(root, "..") == None
  {
    var dot := PathParts(".");
    assert "."[1..] == "" && PathParts("") == [""];
    assert dot == [['.'] + ""];
    assert ".."[1..] == ".";
    assert PathParts("..") == [['.'] + dot[0]] + dot[1..];
    assert ['.'] + dot[0] == "..";
    assert PathParts("..") == [".."];
    assert ".."[0] != '/';
    assert Walk(root, [".."]) == Walk(root[..|root| - 1], []);
  }

  /** `str(p.relative_to(REPO_ROOT))` */
  function Rel(p: Path): string
  {
    if p == [] then "." else Join(p, "/")
  }

  datatype Node = File(content: string) | Dir

  /** The proper prefixes of `p`: the directories `mkdir(parents=True)` needs for it. */
  function Ancestors(p: Path): set<Path>
  {
    set k | 0 <= k < |p| :: p[..k]
  }

  /** `q` is `p` or lies under it. */
  predicate Under(q: Path, p: Path) {
    |p| <= |q| && q[..|p|] == p
  }

  /** The names directly inside `p`. */
  function Children(nodes: map<Path, Node>, p: Path): set<string>
  {
    set q | q in nodes && |q| == |p| + 1 && q[..|p|] == p :: q[|p|]
  }

  /** Python's `'{:w}'.format(s)`: padded with spaces on the right to width `w`. */
  function LeftJustify(s: string, w: nat): (r: string)
    ensures |r| == if |s| >= w then |s| else w
    ensures r[..|s|] == s
  {
    if |s| >= w then s else s + seq(w - |s|, _ => ' ')
  }

  /** The number of bytes `c` takes in UTF-8. */
  function Utf8Width(c: char): nat
  {
    if c as int < 0x80 then 1 else if c as int < 0x800 then 2 else if c as int < 0x10000 then 3 else 4
  }

  /** `st_size` of a file written with `encoding="utf-8"`. */
  function Utf8Length(s: string): (n: nat)
    ensures n >= |s|
  {
    if s == [] then 0 else Utf8Width(s[0]) + Utf8Length(s[1..])
  }

  /** One `list_dir` line: kind padded to 4, two spaces, name padded to 40, size. */
  function Entry(name: string, node: Node): string
  {
    LeftJustify(if node.Dir? then "DIR" else "FILE", 4) + "  " + LeftJustify(name, 40) + " "
    + (if node.Dir? then "-" else IntToString(Utf8Length(node.content)) + " bytes")
  }

  /** `text[:m]` with Python's meaning for a negative `m`. */
  function PyPrefix(text: string, m: int): (r: string)
    ensures m >= 0 ==> r == text[..if m < |text| then m else |text|]
    ensures m < 0 ==> r == text[..if |text| + m > 0 then |text| + m else 0]
  {
    if m >= 0 then text[..if m < |text| then m else |text|]
    else text[..if |text| + m > 0 then |text| + m else 0]
  }

  /** The text `read_file` returns for a file holding `text`: truncated only when
      `max_chars` is truthy and the text is longer. */
  function ReadText(text: string, maxChars: Option<int>): (r: string)
    ensures (maxChars.Some? && maxChars.value != 0 && |text| > maxChars.value) ==>
              r == PyPrefix(text, maxChars.value) + "\n\n... (truncated, total " + IntToString(|text|) + " chars)"
    ensures !(maxChars.Some? && maxChars.value != 0 && |text| > maxChars.value) ==> r == text
  {
    if maxChars.Some? && maxChars.value != 0 && |text| > maxChars.value then
      PyPrefix(text, maxChars.value) + "\n\n... (truncated, total " + IntToString(|text|) + " chars)"
    else text
  }

  /** With a positive limit, a text that fits comes back whole, and a longer one comes
      back as its first `m` characters followed by a note of its length. */
  lemma ReadTextKeepsPrefix(text: string, m: int)
    requires m > 0
    ensures |text| <= m ==> ReadText(text, Some(m)) == text
    ensures |text| > m ==> |ReadText(text, Some(m))| > m && ReadText(text, Some(m))[..m] == text[..m]
    ensures |text| > m ==> ReadText(text, Some(m))[m..] == "\n\n... (truncated, total " + IntToString(|text|) + " chars)"
  {
    if |text| > m {
      var r := ReadText(text, Some(m));
      assert r[..m] == text[..m];
    }
  }

  /** The names of `p`'s children are paths of the tree. */
  lemma ChildIsInTree(nodes: map<Path, Node>, p: Path, n: string)
    requires n in Children(nodes, p)
    ensures p + [n] in nodes
  {
    var q :| q in nodes && |q| == |p| + 1 && q[..|p|] == p && q[|p|] == n;
    assert q == p + [n];
  }

  /** The names of a set, each once, in some order. */
  method Enumerate(names: set<string>) returns (r: seq<string>)
    ensures |r| == |names|
    ensures forall n :: n in r <==> n in names
  {
    var rest := names;
    r := [];
    while rest != {}
      invariant rest <= names
      invariant |r| + |rest| == |names|
      invariant forall n :: n in r <==> n in names && n !in rest
      decreases |rest|
    {
      var n :| n in rest;
      r := r + [n];
      rest := rest - {n};
    }
  }

  lemma SortKeepsNames(names: seq<string>)
    ensures |SortStrings(names)| == |names|
    ensures forall n :: n in SortStrings(names) <==> n in names
  {
    var sorted := SortStrings(names);
    forall n ensures n in sorted <==> n in names {
      assert n in sorted <==> n in multiset(sorted);
      assert n in names <==> n in multiset(names);
    }
    assert |sorted| == |multiset(sorted)| == |multiset(names)| == |names|;
  }

  /** Whatever exists below the root sits in a directory that exists. */
  predicate Closed(nodes: map<Path, Node>) {
    forall p :: p in nodes && p != [] ==> p[..|p| - 1] in nodes && nodes[p[..|p| - 1]].Dir?
  }

  /** `p.parent.mkdir(parents=True, exist_ok=True)` succeeds: no ancestor is a file. */
  predicate ParentsCreatable(nodes: map<Path, Node>, p: Path) {
    forall q :: q in Ancestors(p) && q in nodes ==> nodes[q].Dir?
  }

  /** The tree after `p.parent.mkdir(parents=True, exist_ok=True)`. */
  function WithParents(nodes: map<Path, Node>, p: Path): (r: map<Path, Node>)
    ensures forall q :: q in Ancestors(p) ==> q in r
    ensures forall q :: q in nodes ==> q in r && r[q] == nodes[q]
    ensures forall q :: q in r && q !in nodes ==> q in Ancestors(p) && r[q] == Dir
  {
    nodes + map q | q in Ancestors(p) && q !in nodes :: Dir
  }

  /** Creating the missing ancestors of `p` keeps the tree closed and makes every
      ancestor a directory. */
  lemma WithParentsClosed(nodes: map<Path, Node>, p: Path)
    requires Closed(nodes) && ParentsCreatable(nodes, p)
    ensures Closed(WithParents(nodes, p))
    ensures forall q :: q in Ancestors(p) ==> WithParents(nodes, p)[q].Dir?
  {
    var r := WithParents(nodes, p);
    forall q | q in r && q != [] ensures q[..|q| - 1] in r && r[q[..|q| - 1]].Dir? {
      if q !in nodes {
        var k :| 0 <= k < |p| && q == p[..k];
        assert q[..|q| - 1] == p[..k - 1];
      }
    }
  }

  /** Putting a file at `p` once its parent is a directory keeps the tree closed. */
  lemma PutFileClosed(nodes: map<Path, Node>, p: Path, content: string)
    requires Closed(nodes) && (p != [] ==> p[..|p| - 1] in nodes && nodes[p[..|p| - 1]].Dir?)
    requires p !in nodes || nodes[p].File?
    ensures Closed(nodes[p := File(content)])
  {
  }

  /** The tree without `p` and everything under it. */
  function Without(nodes: map<Path, Node>, p: Path): (r: map<Path, Node>)
    ensures forall q :: q in r <==> q in nodes && !Under(q, p)
    ensures forall q :: q in r ==> r[q] == nodes[q]
  {
    map q | q in nodes && !Under(q, p) :: nodes[q]
  }

  /** Removing a whole subtree keeps the tree closed. */
  lemma WithoutClosed(nodes: map<Path, Node>, p: Path)
    requires Closed(nodes)
    ensures Closed(Without(nodes, p))
  {
    var r := Without(nodes, p);
    forall q | q in r && q != [] ensures q[..|q| - 1] in r {
      var parent := q[..|q| - 1];
      if Under(parent, p) {
        assert false;
      }
    }
  }

  /** Removing a file keeps the tree closed. */
  lemma RemoveFileClosed(nodes: map<Path, Node>, p: Path)
    requires Closed(nodes) && p in nodes && nodes[p].File?
    ensures Closed(nodes - {p})
  {
  }

  /** The `list_dir` lines for the children `names` of directory `p`. */
  function Entries(nodes: map<Path, Node>, p: Path, names: seq<string>): (r: seq<string>)
    requires forall k :: 0 <= k < |names| ==> p + [names[k]] in nodes
    ensures |r| == |names|
    ensures forall k :: 0 <= k < |names| ==> r[k] == Entry(names[k], nodes[p + [names[k]]])
  {
    if names == [] then []
    else
      var last := names[|names| - 1];
      Entries(nodes, p, names[..|names| - 1]) + [Entry(last, nodes[p + [last]])]
  }

  /** What a text-mode read returns for the stored characters `s`: with universal
      newlines, "\r\n" and a lone "\r" both read as "\n". */
  function UniversalNewlines(s: string): (r: string)
    ensures '\r' !in r
    ensures |r| <= |s|
    decreases |s|
  {
    if s == [] then []
    else if s[0] == '\r' then
      ['\n'] + UniversalNewlines(if |s| >= 2 && s[1] == '\n' then s[2..] else s[1..])
    else [s[0]] + UniversalNewlines(s[1..])
  }

  /** Text without a carriage return reads back unchanged. */
  lemma {:induction false} UniversalNewlinesKeepsPlain(s: string)
    requires '\r' !in s
    ensures UniversalNewlines(s) == s
    decreases |s|
  {
    if s != [] {
      UniversalNewlinesKeepsPlain(s[1..]);
      assert s == [s[0]] + s[1..];
    }
  }

  /** A Windows line end between two lines without carriage returns reads as one
      newline. */
  lemma {:induction false} CrLfReadsAsNewline(a: string, b: string)
    requires '\r' !in a && '\r' !in b
    ensures UniversalNewlines(a + "\r\n" + b) == a + "\n" + b
    decreases |a|
  {
    var s := a + "\r\n" + b;
    if a == [] {
      assert s[0] == '\r' && s[1] == '\n' && s[2..] == b;
      UniversalNewlinesKeepsPlain(b);
    } else {
      assert s[0] == a[0] && s[1..] == a[1..] + "\r\n" + b;
      CrLfReadsAsNewline(a[1..], b);
      assert a == [a[0]] + a[1..];
    }
  }

  /** An old Mac line end, a carriage return not followed by a line feed, also reads as
      one newline. */
  lemma {:induction false} LoneCrReadsAsNewline(a: string, b: string)
    requires '\r' !in a && '\r' !in b && (b == [] || b[0] != '\n')
    ensures UniversalNewlines(a + "\r" + b) == a + "\n" + b
    decreases |a|
  {
    var s := a + "\r" + b;
    if a == [] {
      assert s[0] == '\r' && s[1..] == b;
      UniversalNewlinesKeepsPlain(b);
    } else {
      assert s[0] == a[0] && s[1..] == a[1..] + "\r" + b;
      LoneCrReadsAsNewline(a[1..], b);
      assert a == [a[0]] + a[1..];
    }
  }

  /** What `read_file` says about resolved path `p`: the file's text as read in text
      mode, cut to the limit. */
  function Lookup(nodes: map<Path, Node>, p: Path, maxChars: Option<int>): (r: Answer)
    ensures r.Says?
    ensures p in nodes && nodes[p].File? ==> r.text == ReadText(UniversalNewlines(nodes[p].content), maxChars)
  {
    if p !in nodes then Says("File not found: " + Rel(p))
    else if nodes[p].Dir? then Says("Path is a directory: " + Rel(p))
    else Says(ReadText(UniversalNewlines(nodes[p].content), maxChars))
  }

  /** A file just put at `p` reads back whole, with its line ends read as newlines, when
      no limit is given; content without a carriage return reads back as it was written. */
  lemma PutFileReadsBack(nodes: map<Path, Node>, p: Path, content: string)
    ensures Lookup(nodes[p := File(content)], p, None) == Says(UniversalNewlines(content))
    ensures '\r' !in content ==> Lookup(nodes[p := File(content)], p, None) == Says(content)
  {
    if '\r' !in content {
      UniversalNewlinesKeepsPlain(content);
    }
  }

  /** After a delete, neither the path nor anything under it is found. */
  lemma DeletedIsNotFound(nodes: map<Path, Node>, p: Path, q: Path, maxChars: Option<int>)
    requires Under(q, p)
    ensures Lookup(Without(nodes, p), q, maxChars) == Says("File not found: " + Rel(q))
    ensures Lookup(nodes - {q}, q, maxChars) == Says("File not found: " + Rel(q))
  {
  }

  /** Appending twice leaves both pieces in order. */
  lemma AppendsAccumulate(nodes: map<Path, Node>, p: Path, a: string, b: string)
    requires p in nodes && nodes[p].File?
    ensures var once := nodes[p := File(nodes[p].content + a)];
            once[p := File(once[p].content + b)][p] == File(nodes[p].content + a + b)
  {
  }

  /** The part of the file system under the repository root. */
  class Workspace {
    /** The repository root's absolute path. */
    const root: Path
    /** Every file and directory under the root, keyed by its path relative to it. */
    var nodes: map<Path, Node>

    predicate Valid()
      reads this
    {
      NormalPath(root) && Closed(nodes)
    }

    /** The module's own file lies below the root, so the root is a directory when the
        workspace is set up; a later `delete_path(".")` may still remove it. */
    constructor (root: Path, nodes: map<Path, Node>)
      requires NormalPath(root) && Closed(nodes) && [] in nodes && nodes[[]].Dir?
      ensures Valid() && this.root == root && this.nodes == nodes
    {
      this.root := root;
      this.nodes := nodes;
    }

    /** `create_file(path, content)`: the parents are made before the file is opened, so
        they stay when `path` turns out to be a directory. */
    method CreateFile(path: string, content: string) returns (reply: Answer)
      requires Valid()
      modifies this
      ensures Valid()
      ensures Resolve(root, path).None? ==> reply == Failed("Error creating file: ") && nodes == old(nodes)
      ensures Resolve(root, path).Some? && !ParentsCreatable(old(nodes), Resolve(root, path).value) ==>
                reply == Failed("Error creating file: ") && nodes == old(nodes)
      ensures Resolve(root, path).Some? && ParentsCreatable(old(nodes), Resolve(root, path).value) ==>
                var p := Resolve(root, path).value;
                if p in old(nodes) && old(nodes)[p].Dir? then
                  reply == Failed("Error creating file: ") && nodes == WithParents(old(nodes), p)
                else
                  reply == Says("Created file: " + Rel(p)) && nodes == WithParents(old(nodes), p)[p := File(content)]
    {
      var resolved := Resolve(root, path);
      if resolved.None? {
        return Failed("Error creating file: ");
      }
      var p := resolved.value;
      if !ParentsCreatable(nodes, p) {
        return Failed("Error creating file: ");
      }
      var isDir := p in nodes && nodes[p].Dir?;
      WithParentsClosed(nodes, p);
      nodes := WithParents(nodes, p);
      if isDir {
        return Failed("Error creating file: ");
      }
      assert p != [] ==> p[..|p| - 1] in Ancestors(p);
      PutFileClosed(nodes, p, content);
      nodes := nodes[p := File(content)];
      reply := Says("Created file: " + Rel(p));
    }

    /** `write_file(path, content, append)`: appending to a missing file creates it. */
    method WriteFile(path: string, content: string, append: bool) returns (reply: Answer)
      requires Valid()
      modifies this
      ensures Valid()
      ensures Resolve(root, path).None? ==> reply == Failed("Error writing file: ") && nodes == old(nodes)
      ensures Resolve(root, path).Some? && !ParentsCreatable(old(nodes), Resolve(root, path).value) ==>
                reply == Failed("Error writing file: ") && nodes == old(nodes)
      ensures Resolve(root, path).Some? && ParentsCreatable(old(nodes), Resolve(root, path).value) ==>
                var p := Resolve(root, path).value;
                if p in old(nodes) && old(nodes)[p].Dir? then
                  reply == Failed("Error writing file: ") && nodes == WithParents(old(nodes), p)
                else
                  var before := if append && p in old(nodes) then old(nodes)[p].content else "";
                  reply == Says("Wrote to file: " + Rel(p) + " (append=" + (if append then "True" else "False") + ")")
                  && nodes == WithParents(old(nodes), p)[p := File(before + content)]
    {
      var resolved := Resolve(root, path);
      if resolved.None? {
        return Failed("Error writing file: ");
      }
      var p := resolved.value;
      if !ParentsCreatable(nodes, p) {
        return Failed("Error writing file: ");
      }
      var isDir := p in nodes && nodes[p].Dir?;
      var before := if append && p in nodes && !isDir then nodes[p].content else "";
      WithParentsClosed(nodes, p);
      nodes := WithParents(nodes, p);
      if isDir {
        return Failed("Error writing file: ");
      }
      assert p != [] ==> p[..|p| - 1] in Ancestors(p);
      PutFileClosed(nodes, p, before + content);
      nodes := nodes[p := File(before + content)];
      reply := Says("Wrote to file: " + Rel(p) + " (append=" + (if append then "True" else "False") + ")");
    }

    /** `read_file(path, max_chars)` */
    function ReadFile(path: string, maxChars: Option<int>): (r: Answer)
      requires Valid()
      reads this
      ensures Resolve(root, path).None? <==> r.Failed?
      ensures r.Failed? ==> r.prefix == "Error reading file: "
      ensures Resolve(root, path).Some? ==> r == Lookup(nodes, Resolve(root, path).value, maxChars)
    {
      match Resolve(root, path)
      case None => Failed("Error reading file: ")
      case Some(p) => Lookup(nodes, p, maxChars)
    }

    /** `delete_path(path)`: a directory goes with everything under it, a file alone. */
    method DeletePath(path: string) returns (reply: Answer)
      requires Valid()
      modifies this
      ensures Valid()
      ensures Resolve(root, path).None? ==> reply == Failed("Error deleting path: ") && nodes == old(nodes)
      ensures Resolve(root, path).Some? && Resolve(root, path).value !in old(nodes) ==>
                reply == Says("Not found: " + Rel(Resolve(root, path).value)) && nodes == old(nodes)
      ensures Resolve(root, path).Some? && Resolve(root, path).value in old(nodes) ==>
                var p := Resolve(root, path).value;
                if old(nodes)[p].Dir? then reply == Says("Deleted directory: " + Rel(p)) && nodes == Without(old(nodes), p)
                else reply == Says("Deleted file: " + Rel(p)) && nodes == old(nodes) - {p}
    {
      var resolved := Resolve(root, path);
      if resolved.None? {
        return Failed("Error deleting path: ");
      }
      var p := resolved.value;
      if p !in nodes {
        return Says("Not found: " + Rel(p));
      }
      if nodes[p].Dir? {
        WithoutClosed(nodes, p);
        nodes := Without(nodes, p);
        reply := Says("Deleted directory: " + Rel(p));
      } else {
        RemoveFileClosed(nodes, p);
        nodes := nodes - {p};
        reply := Says("Deleted file: " + Rel(p));
      }
    }

    /** The lines for the children `names` of `p`, appended one at a time. */
    method ListEntries(p: Path, names: seq<string>) returns (lines: seq<string>)
      requires forall k :: 0 <= k < |names| ==> p + [names[k]] in nodes
      ensures lines == Entries(nodes, p, names)
    {
      lines := [];
      for i := 0 to |names|
        invariant lines == Entries(nodes, p, names[..i])
      {
        assert names[..i + 1][..i] == names[..i];
        lines := lines + [Entry(names[i], nodes[p + [names[i]]])];
      }
      assert names[..|names|] == names;
    }

    /** The listing of directory `p`: its children sorted by name, one line each. */
    method ListChildren(p: Path) returns (reply: Answer, listed: seq<string>)
      requires p in nodes && nodes[p].Dir?
      ensures LexAscending(listed)
      ensures |listed| == |Children(nodes, p)|
      ensures forall n :: n in listed <==> n in Children(nodes, p)
      ensures forall k :: 0 <= k < |listed| ==> p + [listed[k]] in nodes
      ensures listed == [] ==> reply == Says("(empty) " + Rel(p))
      ensures listed != [] ==> reply == Says("Listing for " + Rel(p) + ":\n" + Join(Entries(nodes, p, listed), "\n"))
    {
      var names := Enumerate(Children(nodes, p));
      listed := SortStrings(names);
      SortKeepsNames(names);
      forall k | 0 <= k < |listed| ensures p + [listed[k]] in nodes {
        ChildIsInTree(nodes, p, listed[k]);
      }
      var lines := ListEntries(p, listed);
      if listed == [] {
        reply := Says("(empty) " + Rel(p));
      } else {
        reply := Says("Listing for " + Rel(p) + ":\n" + Join(lines, "\n"));
      }
    }

    /** `list_dir(path)`; `listed` gives the children in the order they are listed. */
    method ListDir(path: string) returns (reply: Answer, listed: seq<string>)
      requires Valid()
      ensures Resolve(root, path).None? ==> reply == Failed("Error listing directory: ") && listed == []
      ensures Resolve(root, path).Some? && Resolve(root, path).value !in nodes ==>
                reply == Says("Not found: " + Rel(Resolve(root, path).value)) && listed == []
      ensures Resolve(root, path).Some? && Resolve(root, path).value in nodes ==>
                var p := Resolve(root, path).value;
                if nodes[p].File? then reply == Says("Path is a file: " + Rel(p)) && listed == []
                else
                  && LexAscending(listed)
                  && |listed| == |Children(nodes, p)|
                  && (forall n :: n in listed <==> n in Children(nodes, p))
                  && (forall k :: 0 <= k < |listed| ==> p + [listed[k]] in nodes)
                  && reply == if listed == [] then Says("(empty) " + Rel(p))
                              else Says("Listing for " + Rel(p) + ":\n" + Join(Entries(nodes, p, listed), "\n"))
    {
      var resolved := Resolve(root, path);
      if resolved.None? {
        return Failed("Error listing directory: "), [];
      }
      var p := resolved.value;
      if p !in nodes {
        return Says("Not found: " + Rel(p)), [];
      }
      if nodes[p].File? {
        return Says("Path is a file: " + Rel(p)), [];
      }
      reply, listed := ListChildren(p);
    }
  }
}
