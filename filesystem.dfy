/** The in-memory file tree of the game (src/filesystem.js): a tree of
    directories and files, a current directory given as a list of segments,
    path resolution with `.` and `..`, and the file commands. */
module FileSystem {
  import opened Wrappers
  import opened Strings
  import opened Ordering

  /** A node of the tree: a directory maps child names to nodes. */
  datatype Node = Dir(children: map<string, Node>) | File(content: string)

  /** The starter layout every new file system is built from. */
  const StarterTree: Node := Dir(map["home" := Dir(map["adventurer" := AdventurerDir])])

  /** `/home/adventurer` of the starter layout. */
  const AdventurerDir: Node := Dir(map[
    "notes.txt" := File("Welcome to ShellQuest!"),
    "tutorials" := Dir(map[]),
    "forest" := Dir(map["trail.txt" := File("Watch the roots.")]),
    "caves" := Dir(map["echo.txt" := File("echo echo echo")])
  ])

  const HomeDir: seq<string> := ["home", "adventurer"]

  // ---------------------------------------------------------------------
  // Walking the tree

  /** Follow `parts` from `n`; `None` as soon as a name is missing or the
      walk would pass through a file. */
  function Walk(n: Node, parts: seq<string>): Option<Node>
    decreases |parts|
  {
    if parts == [] then Some(n)
    else match n
      case File(_) => None
      case Dir(ch) => if parts[0] in ch then Walk(ch[parts[0]], parts[1..]) else None
  }

  /** `getNode(pathParts)`: empty segments are skipped, the rest are walked from the root. */
  function Lookup(root: Node, parts: seq<string>): Option<Node> {
    Walk(root, NonEmpty(parts))
  }

  predicate IsDir(o: Option<Node>) {
    o.Some? && o.value.Dir?
  }

  predicate IsFile(o: Option<Node>) {
    o.Some? && o.value.File?
  }

  /** `parent.children[name]` is truthy. */
  predicate HasChild(o: Option<Node>, name: string) {
    IsDir(o) && name in o.value.children
  }

  /** One more step of the walk: a name under a directory, `None` otherwise. */
  lemma {:induction false} WalkAppend(n: Node, a: seq<string>, x: string)
    ensures Walk(n, a + [x]) == if HasChild(Walk(n, a), x) then Some(Walk(n, a).value.children[x]) else None
    decreases |a|
  {
    if a == [] {
      assert [] + [x] == [x];
    } else {
      assert (a + [x])[0] == a[0] && (a + [x])[1..] == a[1..] + [x];
      if n.Dir? && a[0] in n.children {
        WalkAppend(n.children[a[0]], a[1..], x);
      }
    }
  }

  /** Once the walk fails, every longer walk fails too. */
  lemma {:induction false} WalkNoneExtends(n: Node, a: seq<string>, b: seq<string>)
    requires Walk(n, a) == None
    ensures Walk(n, a + b) == None
    decreases |a|
  {
    assert a != [];
    assert (a + b)[0] == a[0] && (a + b)[1..] == a[1..] + b;
    if n.Dir? && a[0] in n.children {
      WalkNoneExtends(n.children[a[0]], a[1..], b);
    }
  }

  /** A walk through a file fails at the next name. */
  lemma WalkThroughFile(n: Node, a: seq<string>, x: string)
    requires IsFile(Walk(n, a))
    ensures Walk(n, a + [x]) == None
  {
    WalkAppend(n, a, x);
  }

  // ---------------------------------------------------------------------
  // Paths

  /** `path.split('/').filter(Boolean)`. */
  function Segments(path: string): seq<string> {
    NonEmpty(Split(path, '/'))
  }

  /** A path as the model keeps it: names only, no `.`, `..`, empty or `/`-bearing segment. */
  predicate CleanPath(p: seq<string>) {
    forall k :: 0 <= k < |p| ==> p[k] != "" && p[k] != "." && p[k] != ".." && '/' !in p[k]
  }

  /** One pass of the `cleaned` stack: `..` pops (nothing at the root), `.` is skipped. */
  function Step(stack: seq<string>, part: string): seq<string> {
    if part == ".." then (if stack == [] then [] else stack[..|stack| - 1])
    else if part == "." then stack
    else stack + [part]
  }

  /** The stack after pushing `parts` onto `stack` one by one. */
  function CleanFrom(stack: seq<string>, parts: seq<string>): seq<string>
    decreases |parts|
  {
    if parts == [] then stack else CleanFrom(Step(stack, parts[0]), parts[1..])
  }

  /** `resolve(path).path`: the empty path and `.` give the current directory;
      an absolute path starts from the root, a relative one from `cwd`. */
  function ResolvedPath(cwd: seq<string>, path: string): seq<string> {
    if path == "" || path == "." then cwd
    else CleanFrom([], if StartsWith(path, "/") then Segments(path) else cwd + Segments(path))
  }

  lemma SegmentsAreNames(path: string)
    ensures forall k :: 0 <= k < |Segments(path)| ==> Segments(path)[k] != "" && '/' !in Segments(path)[k]
  {
    var pieces := Split(path, '/');
    forall k | 0 <= k < |Segments(path)| ensures '/' !in Segments(path)[k] {
      var s := Segments(path)[k];
      assert s in pieces;
    }
  }

  /** Every segment the stack holds came from the stack or is a plain name of `parts`. */
  lemma {:induction false} CleanFromKeepsNames(stack: seq<string>, parts: seq<string>)
    requires CleanPath(stack)
    requires forall k :: 0 <= k < |parts| ==> parts[k] != "" && '/' !in parts[k]
    ensures CleanPath(CleanFrom(stack, parts))
    decreases |parts|
  {
    if parts != [] {
      CleanFromKeepsNames(Step(stack, parts[0]), parts[1..]);
    }
  }

  /** Resolution never yields a `.` or `..` segment (nor an empty one). */
  lemma ResolvedIsClean(cwd: seq<string>, path: string)
    requires CleanPath(cwd)
    ensures CleanPath(ResolvedPath(cwd, path))
  {
    SegmentsAreNames(path);
    if !(path == "" || path == ".") {
      var parts := if StartsWith(path, "/") then Segments(path) else cwd + Segments(path);
      CleanFromKeepsNames([], parts);
    }
  }

  /** Pushing plain names onto the stack just appends them. */
  lemma {:induction false} CleanFromNames(stack: seq<string>, parts: seq<string>)
    requires CleanPath(parts)
    ensures CleanFrom(stack, parts) == stack + parts
    decreases |parts|
  {
    if parts != [] {
      CleanFromNames(stack + [parts[0]], parts[1..]);
      assert stack + [parts[0]] + parts[1..] == stack + parts;
    }
  }

  /** `cd ..` goes to the parent, and at the root stays at the root. */
  lemma ParentOf(cwd: seq<string>)
    requires CleanPath(cwd)
    ensures ResolvedPath(cwd, "..") == if cwd == [] then [] else cwd[..|cwd| - 1]
  {
    SplitNoSeparator("..", '/');
    assert Segments("..") == [".."];
    CleanFromNames([], cwd);
    CleanAppendOne(cwd, "..");
  }

  lemma CleanAppendOne(cwd: seq<string>, part: string)
    requires CleanPath(cwd)
    ensures CleanFrom([], cwd + [part]) == Step(cwd, part)
  {
    CleanFromSplit([], cwd, [part]);
    CleanFromNames([], cwd);
  }

  lemma {:induction false} CleanFromSplit(stack: seq<string>, a: seq<string>, b: seq<string>)
    ensures CleanFrom(stack, a + b) == CleanFrom(CleanFrom(stack, a), b)
    decreases |a|
  {
    if a == [] {
      assert a + b == b;
    } else {
      assert (a + b)[0] == a[0] && (a + b)[1..] == a[1..] + b;
      CleanFromSplit(Step(stack, a[0]), a[1..], b);
    }
  }

  /** `pwd()` for a given directory: `/` and the segments joined by `/`. */
  function PwdOf(cwd: seq<string>): (r: string)
    ensures |r| >= 1 && r[0] == '/'
    ensures cwd == [] ==> r == "/"
  {
    "/" + Join(cwd, "/")
  }

  /** The printed working directory reads back as the same segments, so
      `cd` to the output of `pwd` goes nowhere. */
  lemma PwdRoundTrip(cwd: seq<string>, other: seq<string>)
    requires CleanPath(cwd)
    ensures Segments(PwdOf(cwd)) == cwd
    ensures ResolvedPath(other, PwdOf(cwd)) == cwd
  {
    var p := PwdOf(cwd);
    var pieces: seq<string> := [""] + cwd;
    assert forall k :: 0 <= k < |pieces| ==> '/' !in pieces[k];
    SplitJoin(pieces, '/');
    if cwd == [] {
      assert Join(pieces, "/") == "";
      assert p == "/";
      assert Split(p, '/') == ["", ""];
    } else {
      assert Join(pieces, "/") == "" + "/" + Join(cwd, "/");
      assert Join(pieces, "/") == p;
    }
    NonEmptyConcat([""], cwd);
    NonEmptyKeeps(cwd);
    assert Segments(p) == cwd;
    assert StartsWith(p, "/");
    CleanFromNames([], cwd);
  }

  // ---------------------------------------------------------------------
  // Changing one directory's children

  /** The tree with `parent.children[name] = child` done at the directory `path`. */
  function SetChild(n: Node, path: seq<string>, name: string, child: Node): Node
    requires IsDir(Walk(n, path))
    decreases |path|
  {
    if path == [] then Dir(n.children[name := child])
    else Dir(n.children[path[0] := SetChild(n.children[path[0]], path[1..], name, child)])
  }

  /** The tree with `delete parent.children[name]` done at the directory `path`. */
  function RemoveChild(n: Node, path: seq<string>, name: string): Node
    requires IsDir(Walk(n, path))
    decreases |path|
  {
    if path == [] then Dir(n.children - {name})
    else Dir(n.children[path[0] := RemoveChild(n.children[path[0]], path[1..], name)])
  }

  /** After `SetChild` the directory holds the old children with `name` bound to `child`,
      and every node off the changed path is untouched. */
  lemma {:induction false} SetChildEffect(n: Node, path: seq<string>, name: string, child: Node, q: seq<string>)
    requires IsDir(Walk(n, path))
    ensures Walk(SetChild(n, path, name, child), path) == Some(Dir(Walk(n, path).value.children[name := child]))
    ensures !(q <= path) && !(path + [name] <= q) ==> Walk(SetChild(n, path, name, child), q) == Walk(n, q)
    decreases |path|
  {
    var m := SetChild(n, path, name, child);
    if path == [] {
      if q != [] && !([name] <= q) {
        assert q[0] != name;
      }
    } else {
      var h := path[0];
      SetChildEffect(n.children[h], path[1..], name, child, if q == [] then [] else q[1..]);
      if q != [] && q[0] == h && !(q <= path) && !(path + [name] <= q) {
        assert !(q[1..] <= path[1..]);
        assert (path + [name])[1..] == path[1..] + [name];
        assert !(path[1..] + [name] <= q[1..]);
      }
    }
  }

  /** After `RemoveChild` the directory holds the old children less `name`,
      and every node off the removed path is untouched. */
  lemma {:induction false} RemoveChildEffect(n: Node, path: seq<string>, name: string, q: seq<string>)
    requires IsDir(Walk(n, path))
    ensures Walk(RemoveChild(n, path, name), path) == Some(Dir(Walk(n, path).value.children - {name}))
    ensures !(q <= path) && !(path + [name] <= q) ==> Walk(RemoveChild(n, path, name), q) == Walk(n, q)
    decreases |path|
  {
    if path == [] {
      if q != [] && !([name] <= q) {
        assert q[0] != name;
      }
    } else {
      var h := path[0];
      RemoveChildEffect(n.children[h], path[1..], name, if q == [] then [] else q[1..]);
      if q != [] && q[0] == h && !(q <= path) && !(path + [name] <= q) {
        assert !(q[1..] <= path[1..]);
        assert (path + [name])[1..] == path[1..] + [name];
        assert !(path[1..] + [name] <= q[1..]);
      }
    }
  }

  lemma LookupClean(root: Node, p: seq<string>)
    requires CleanPath(p)
    ensures Lookup(root, p) == Walk(root, p)
  {
    NonEmptyKeeps(p);
  }

  // ---------------------------------------------------------------------
  // What each command does to the tree

  /** `rm`/`echo`: the child name is the last segment of the target
      (`"undefined"` when the target has no segment at all). */
  function TargetName(target: string): string {
    var parts := Segments(target);
    if parts == [] then "undefined" else parts[|parts| - 1]
  }

  /** `rm`/`echo`: the parent is the target's other segments taken FROM THE ROOT,
      or the current directory when there are none. */
  function TargetBase(cwd: seq<string>, target: string): seq<string> {
    var parts := Segments(target);
    if |parts| > 1 then parts[..|parts| - 1] else cwd
  }

  lemma TargetBaseClean(cwd: seq<string>, target: string)
    requires CleanPath(cwd)
    ensures forall k :: 0 <= k < |TargetBase(cwd, target)| ==> TargetBase(cwd, target)[k] != ""
  {
    SegmentsAreNames(target);
  }

  /** The tree after `mkdir(name)` in `cwd`. */
  function MkdirTree(root: Node, cwd: seq<string>, name: string): Node
    requires IsDir(Lookup(root, cwd))
  {
    if HasChild(Lookup(root, cwd), name) then root
    else SetChild(root, NonEmpty(cwd), name, Dir(map[]))
  }

  /** The tree after `touch(name)` in `cwd`. */
  function TouchTree(root: Node, cwd: seq<string>, name: string): Node
    requires IsDir(Lookup(root, cwd))
  {
    if HasChild(Lookup(root, cwd), name) then root
    else SetChild(root, NonEmpty(cwd), name, File(""))
  }

  /** `touch` twice is `touch` once. */
  lemma TouchIdempotent(root: Node, cwd: seq<string>, name: string)
    requires IsDir(Lookup(root, cwd))
    ensures IsDir(Lookup(TouchTree(root, cwd, name), cwd))
    ensures TouchTree(TouchTree(root, cwd, name), cwd, name) == TouchTree(root, cwd, name)
  {
    if !HasChild(Lookup(root, cwd), name) {
      SetChildEffect(root, NonEmpty(cwd), name, File(""), []);
    }
  }

  /** `mkdir` of a new name adds exactly one empty directory to `cwd`'s children;
      an existing name, file or directory, leaves the tree as it was. */
  lemma MkdirEffect(root: Node, cwd: seq<string>, name: string)
    requires IsDir(Lookup(root, cwd))
    ensures var after := Lookup(MkdirTree(root, cwd, name), cwd);
      IsDir(after) &&
      if HasChild(Lookup(root, cwd), name) then MkdirTree(root, cwd, name) == root
      else after.value.children == Lookup(root, cwd).value.children[name := Dir(map[])]
           && name !in Lookup(root, cwd).value.children
  {
    if !HasChild(Lookup(root, cwd), name) {
      SetChildEffect(root, NonEmpty(cwd), name, Dir(map[]), []);
    }
  }

  /** The sorted names `ls` lists for a directory node. */
  function Listing(ch: map<string, Node>): (r: seq<string>)
    ensures StrictlySorted(r) && forall x :: x in r <==> x in ch
  {
    SortSet(ch.Keys)
  }

  // ---------------------------------------------------------------------
  // The file system object

  class VirtualFileSystem {
    var root: Node
    var cwd: seq<string>

    /** `cwd` always holds plain names (it may dangle after an `rm`). */
    ghost predicate Valid()
      reads this
    {
      CleanPath(cwd)
    }

    constructor (structure: Node := StarterTree)
      ensures Valid() && root == structure && cwd == HomeDir
    {
      root := structure;
      cwd := HomeDir;
    }

    function Pwd(): (r: string)
      reads this
      ensures r == PwdOf(cwd)
      ensures |r| >= 1 && r[0] == '/'
    {
      "/" + Join(cwd, "/")
    }

    method GetNode(pathParts: seq<string>) returns (node: Option<Node>)
      ensures node == Lookup(root, pathParts)
    {
      var parts := NonEmpty(pathParts);
      var cur := root;
      var i := 0;
      while i < |parts|
        invariant 0 <= i <= |parts|
        invariant Walk(root, parts) == Walk(cur, parts[i..])
      {
        var part := parts[i];
        assert parts[i..][0] == part && parts[i..][1..] == parts[i + 1..];
        if !cur.Dir? || part !in cur.children {
          return None;
        }
        cur := cur.children[part];
        i := i + 1;
      }
      node := Some(cur);
    }

    method Resolve(path: string) returns (node: Option<Node>, parts: seq<string>)
      ensures parts == ResolvedPath(cwd, path)
      ensures node == Lookup(root, parts)
    {
      if path == "" || path == "." {
        node := GetNode(cwd);
        return node, cwd;
      }
      var input := if StartsWith(path, "/") then Segments(path) else cwd + Segments(path);
      var cleaned: seq<string> := [];
      var i := 0;
      while i < |input|
        invariant 0 <= i <= |input|
        invariant CleanFrom(cleaned, input[i..]) == CleanFrom([], input)
      {
        assert input[i..][0] == input[i] && input[i..][1..] == input[i + 1..];
        var part := input[i];
        if part == ".." {
          if cleaned != [] {
            cleaned := cleaned[..|cleaned| - 1];
          }
        } else if part != "." {
          cleaned := cleaned + [part];
        }
        i := i + 1;
      }
      node := GetNode(cleaned);
      parts := cleaned;
    }

    /** `ls(target)`: the sorted child names of a directory. */
    method Ls(target: string := "") returns (r: Result<seq<string>>)
      ensures var n := Lookup(root, ResolvedPath(cwd, target));
        if IsDir(n) then r.Ok? && StrictlySorted(r.value) && (forall x :: x in r.value <==> x in n.value.children)
        else r == Err("Not a directory")
    {
      var node, _ := Resolve(target);
      if !IsDir(node) {
        return Err("Not a directory");
      }
      r := Ok(Listing(node.value.children));
    }

    /** `cd(target)`: only an existing directory becomes the new `cwd`. */
    method Cd(target: string) returns (r: Result<string>)
      requires Valid()
      modifies this
      ensures Valid() && root == old(root)
      ensures var p := ResolvedPath(old(cwd), target);
        match Lookup(root, p)
        case None => r == Err("Path not found") && cwd == old(cwd)
        case Some(File(_)) => r == Err("Not a directory") && cwd == old(cwd)
        case Some(Dir(_)) => cwd == p && r == Ok(PwdOf(p))
    {
      var node, parts := Resolve(target);
      ResolvedIsClean(cwd, target);
      if node.None? {
        return Err("Path not found");
      }
      if !node.value.Dir? {
        return Err("Not a directory");
      }
      cwd := parts;
      r := Ok(Pwd());
    }

    method Mkdir(name: string) returns (r: Result<()>)
      requires Valid() && IsDir(Lookup(root, cwd))
      modifies this
      ensures Valid() && cwd == old(cwd)
      ensures root == MkdirTree(old(root), cwd, name)
      ensures r == if HasChild(Lookup(old(root), cwd), name) then Err("Already exists") else Ok(())
    {
      var parent := GetNode(cwd);
      if name in parent.value.children {
        return Err("Already exists");
      }
      root := SetChild(root, NonEmpty(cwd), name, Dir(map[]));
      r := Ok(());
    }

    method Touch(name: string) returns (r: Result<()>)
      requires Valid() && IsDir(Lookup(root, cwd))
      modifies this
      ensures Valid() && cwd == old(cwd)
      ensures root == TouchTree(old(root), cwd, name)
      ensures r == Ok(())
    {
      var parent := GetNode(cwd);
      if name !in parent.value.children {
        root := SetChild(root, NonEmpty(cwd), name, File(""));
      }
      r := Ok(());
    }

    /** `rm(target)`; the source throws when the parent is a file, hence the requires. */
    method Rm(target: string) returns (r: Result<()>)
      requires Valid() && !IsFile(Lookup(root, TargetBase(cwd, target)))
      modifies this
      ensures Valid() && cwd == old(cwd)
      ensures var base := TargetBase(cwd, target);
        if HasChild(Lookup(old(root), base), TargetName(target))
        then r == Ok(()) && root == RemoveChild(old(root), NonEmpty(base), TargetName(target))
        else r == Err("Not found") && root == old(root)
    {
      var base := TargetBase(cwd, target);
      var name := TargetName(target);
      var parent := GetNode(base);
      if parent.None? || name !in parent.value.children {
        return Err("Not found");
      }
      root := RemoveChild(root, NonEmpty(base), name);
      r := Ok(());
    }

    method Cat(target: string) returns (r: Result<string>)
      ensures match Lookup(root, ResolvedPath(cwd, target))
        case None => r == Err("Not found")
        case Some(Dir(_)) => r == Err("Not a file")
        case Some(File(c)) => r == Ok(c)
    {
      var node, _ := Resolve(target);
      if node.None? {
        return Err("Not found");
      }
      if !node.value.File? {
        return Err("Not a file");
      }
      r := Ok(node.value.content);
    }

    /** `echo(content, target)`: the named child becomes a file holding exactly `content`. */
    method Echo(content: string, target: string) returns (r: Result<()>)
      requires Valid() && !IsFile(Lookup(root, TargetBase(cwd, target)))
      modifies this
      ensures Valid() && cwd == old(cwd)
      ensures var base := TargetBase(cwd, target);
        if IsDir(Lookup(old(root), base))
        then r == Ok(()) && root == SetChild(old(root), NonEmpty(base), TargetName(target), File(content))
        else r == Err("Path not found") && root == old(root)
    {
      var base := TargetBase(cwd, target);
      var name := TargetName(target);
      var parent := GetNode(base);
      if parent.None? {
        return Err("Path not found");
      }
      root := SetChild(root, NonEmpty(base), name, File(content));
      r := Ok(());
    }

    /** `grep(pattern, target)`: the lines of a file that contain `pattern`. */
    method Grep(pattern: string, target: string) returns (r: Result<seq<string>>)
      ensures var n := Lookup(root, ResolvedPath(cwd, target));
        if IsFile(n) then r == Ok(KeepContaining(Split(n.value.content, '\n'), pattern))
        else r == Err("File not found")
    {
      var node, _ := Resolve(target);
      if !IsFile(node) {
        return Err("File not found");
      }
      var lines := Split(node.value.content, '\n');
      r := Ok(KeepContaining(lines, pattern));
    }
  }

  // ---------------------------------------------------------------------
  // Facts about the starter tree and the root-anchored parent rule

  /** Splitting `a/b` on `/` when neither side holds a `/`. */
  lemma SplitPair(a: string, b: string)
    requires '/' !in a && '/' !in b
    ensures Split(a + "/" + b, '/') == [a, b]
  {
    SplitAfter(a, '/', b);
    SplitNoSeparator(b, '/');
  }

  /** A plain name: what `mkdir`, `touch` and a single path segment look like. */
  predicate Name(a: string) {
    a != "" && a != "." && a != ".." && '/' !in a
  }

  lemma SegmentsOne(a: string)
    requires Name(a)
    ensures Segments(a) == [a]
  {
    SplitNoSeparator(a, '/');
  }

  lemma SegmentsPair(a: string, b: string)
    requires Name(a) && Name(b)
    ensures Segments(a + "/" + b) == [a, b]
  {
    SplitPair(a, b);
    NonEmptyKeeps([a, b]);
  }

  /** `cd name` from a clean directory goes one level down. */
  lemma ResolveChild(cwd: seq<string>, a: string)
    requires CleanPath(cwd) && Name(a)
    ensures ResolvedPath(cwd, a) == cwd + [a]
  {
    SegmentsOne(a);
    assert CleanPath(cwd + [a]);
    CleanFromNames([], cwd + [a]);
  }

  /** A relative target `a/b` names the file `b` under `cwd/a` when resolved,
      but `rm` and `echo` look its parent up as `/a`, from the root, whatever
      the current directory is. */
  lemma TwoSegmentTargetIsRootAnchored(cwd: seq<string>, a: string, b: string)
    requires CleanPath(cwd) && Name(a) && Name(b)
    ensures ResolvedPath(cwd, a + "/" + b) == cwd + [a, b]
    ensures TargetBase(cwd, a + "/" + b) == [a]
    ensures TargetName(a + "/" + b) == b
  {
    SegmentsPair(a, b);
    assert (a + "/" + b)[0] == a[0];
    assert CleanPath(cwd + [a, b]);
    CleanFromNames([], cwd + [a, b]);
  }

  /** From `/x/y`, `rm x/y` deletes the current directory itself: afterwards
      the current directory no longer exists. */
  lemma RmCanRemoveCwd(root: Node, x: string, y: string)
    requires Name(x) && Name(y) && IsDir(Walk(root, [x, y]))
    ensures TargetBase([x, y], x + "/" + y) == [x] && TargetName(x + "/" + y) == y
    ensures HasChild(Lookup(root, TargetBase([x, y], x + "/" + y)), y)
    ensures Lookup(RemoveChild(root, [x], y), [x, y]) == None
  {
    SegmentsPair(x, y);
    LookupClean(root, [x]);
    WalkAppend(root, [x], y);
    assert [x] + [y] == [x, y];
    var after := RemoveChild(root, [x], y);
    RemoveChildEffect(root, [x], y, []);
    LookupClean(after, [x, y]);
    WalkAppend(after, [x], y);
  }

  lemma WalkHome()
    ensures Walk(StarterTree, HomeDir) == Some(AdventurerDir)
  {
    var home := Dir(map["adventurer" := AdventurerDir]);
    assert Walk(StarterTree, HomeDir) == Walk(home, ["adventurer"]);
    assert Walk(home, ["adventurer"]) == Walk(AdventurerDir, []);
  }

  /** A fresh file system prints its directory as `/home/adventurer`. */
  lemma StarterPwd()
    ensures PwdOf(HomeDir) == "/home/adventurer"
  {
    assert Join(HomeDir, "/") == "home" + "/" + "adventurer";
  }

  /** `/home/adventurer` exists in the starter tree and holds the four starter entries. */
  lemma StarterLayout()
    ensures IsDir(Lookup(StarterTree, HomeDir))
    ensures Lookup(StarterTree, HomeDir).value.children.Keys == {"notes.txt", "tutorials", "forest", "caves"}
  {
    LookupClean(StarterTree, HomeDir);
    WalkHome();
  }
}
