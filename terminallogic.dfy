/** `src/terminalLogic.js`: the command history behind the arrow keys, the
    catalogue of names tab completion draws on, and the completion itself. */
module TerminalLogic {
  import opened Strings

  /** `array.slice(start)` for an integer `start`: a negative start counts
      from the end (and stops at the front), a positive one is capped at the
      length. */
  function SliceFrom<T>(s: seq<T>, start: int): (r: seq<T>)
    ensures start < 0 ==> r == s[if |s| + start < 0 then 0 else |s| + start..]
    ensures start >= 0 ==> r == s[if start > |s| then |s| else start..]
  {
    var k := if start < 0 then (if |s| + start < 0 then 0 else |s| + start)
             else if start > |s| then |s| else start;
    s[k..]
  }

  /** The entries after `push(command)`: a command that trims to nothing
      (one made only of whitespace, see `TrimEmptyIffBlank`) changes nothing;
      otherwise `entries.slice(-(limit - 1))` followed by the command. */
  function PushEntries(entries: seq<string>, limit: int, command: string): seq<string> {
    if AllWhitespace(command) then entries else SliceFrom(entries, -(limit - 1)) + [command]
  }

  /** `previous()`: the new cursor and the entry returned. */
  function PreviousStep(entries: seq<string>, index: int): (int, string)
    requires entries != [] ==> 0 <= index <= |entries|
  {
    if entries == [] then (index, "")
    else
      var i := if index - 1 < 0 then 0 else index - 1;
      (i, entries[i])
  }

  /** `next()`: the new cursor and the entry returned (`''` past the end). */
  function NextStep(entries: seq<string>, index: int): (int, string)
    requires entries != [] ==> 0 <= index <= |entries|
  {
    if entries == [] then (index, "")
    else
      var i := if index + 1 > |entries| then |entries| else index + 1;
      (i, if i < |entries| then entries[i] else "")
  }

  /** The default capacity of a history. */
  const DefaultLimit := 50

  class HistoryManager {
    var limit: int
    var entries: seq<string>
    var index: int

    /** The cursor is -1 while the history is empty and otherwise points at
        an entry or just past the last one. */
    predicate Valid()
      reads this
    {
      if entries == [] then index == -1 else 0 <= index <= |entries|
    }

    constructor (limit: int)
      ensures this.limit == limit && entries == [] && index == -1
      ensures Valid()
    {
      this.limit := limit;
      entries := [];
      index := -1;
    }

    /** `new HistoryManager()`. */
    constructor Default()
      ensures limit == DefaultLimit && entries == [] && index == -1
      ensures Valid()
    {
      limit := DefaultLimit;
      entries := [];
      index := -1;
    }

    method Push(command: string)
      requires Valid()
      modifies this`entries, this`index
      ensures entries == PushEntries(old(entries), limit, command)
      ensures index == if AllWhitespace(command) then old(index) else |entries|
      ensures Valid()
    {
      if AllWhitespace(command) {
        return;
      }
      entries := SliceFrom(entries, -(limit - 1)) + [command];
      index := |entries|;
    }

    method Previous() returns (r: string)
      requires Valid()
      modifies this`index
      ensures (index, r) == PreviousStep(entries, old(index))
      ensures Valid()
    {
      if |entries| == 0 {
        return "";
      }
      index := if index - 1 < 0 then 0 else index - 1;
      r := entries[index];
    }

    method Next() returns (r: string)
      requires Valid()
      modifies this`index
      ensures (index, r) == NextStep(entries, old(index))
      ensures Valid()
    {
      if |entries| == 0 {
        return "";
      }
      index := if index + 1 > |entries| then |entries| else index + 1;
      r := if index < |entries| then entries[index] else "";
    }
  }

  /** With a limit of at least 2 a push keeps the last `limit` commands,
      oldest dropped first. */
  lemma PushKeepsLast(entries: seq<string>, limit: int, command: string)
    requires limit >= 2 && !AllWhitespace(command)
    ensures var r := PushEntries(entries, limit, command);
      |r| == (if |entries| + 1 < limit then |entries| + 1 else limit)
      && r == (entries + [command])[|entries| + 1 - |r|..]
  {
    var k := if |entries| - (limit - 1) < 0 then 0 else |entries| - (limit - 1);
    assert SliceFrom(entries, -(limit - 1)) == entries[k..];
    assert (entries + [command])[k..] == entries[k..] + [command];
  }

  /** So a history never holds more than its limit, once the limit is 2 or
      more. */
  lemma PushBounded(entries: seq<string>, limit: int, command: string)
    requires limit >= 2 && |entries| <= limit
    ensures |PushEntries(entries, limit, command)| <= limit
  {
    if !AllWhitespace(command) {
      PushKeepsLast(entries, limit, command);
    }
  }

  /** With a limit of 1, `slice(-0)` keeps everything: the history grows
      without bound. */
  lemma PushLimitOne(entries: seq<string>, command: string)
    requires !AllWhitespace(command)
    ensures PushEntries(entries, 1, command) == entries + [command]
    ensures |PushEntries(entries, 1, command)| == |entries| + 1
  {
  }

  /** `previous()` walks back one entry at a time and stops at the oldest;
      `next()` walks forward and gives `''` once past the newest. */
  lemma Navigation(entries: seq<string>, index: int)
    requires entries != [] && 0 <= index <= |entries|
    ensures PreviousStep(entries, index) == if index == 0 then (0, entries[0]) else (index - 1, entries[index - 1])
    ensures NextStep(entries, index)
      == if index + 1 < |entries| then (index + 1, entries[index + 1]) else (|entries|, "")
  {
  }

  /** Navigating back then forth returns to where the cursor was, when it
      was past the oldest entry. */
  lemma PreviousThenNext(entries: seq<string>, index: int)
    requires entries != [] && 1 <= index <= |entries|
    ensures var (i, _) := PreviousStep(entries, index);
      NextStep(entries, i).0 == index
  {
  }

  /** A name in the file tree: a non-object value, or an object whose
      entries are listed in order. */
  datatype Value = Leaf | Tree(children: seq<(string, Value)>)

  /** The path of `name` under `base`: `base/name`, or `name` at the top. */
  function ChildPath(base: string, name: string): string {
    if base == "" then name else base + "/" + name
  }

  function Kids(node: Value): seq<(string, Value)> {
    if node.Tree? then node.children else []
  }

  /** The paths `walk(base, node)` adds, for the first `i` entries of
      `node`, in the order it adds them. */
  function Paths(base: string, node: Value, i: nat): seq<string>
    requires i <= |Kids(node)|
    decreases node, i
  {
    if i == 0 then []
    else
      var entry := Kids(node)[i - 1];
      assert entry in Kids(node);
      var current := ChildPath(base, entry.0);
      Paths(base, node, i - 1) + [current]
      + (if entry.1.Tree? then Paths(current, entry.1, |Kids(entry.1)|) else [])
  }

  function AllPaths(base: string, node: Value): seq<string> {
    Paths(base, node, |Kids(node)|)
  }

  /** Adding each of `xs` in turn to the insertion-ordered set `acc`. */
  function AddAll(acc: seq<string>, xs: seq<string>): (r: seq<string>)
    decreases |xs|
  {
    if xs == [] then acc
    else AddAll(if xs[0] in acc then acc else acc + [xs[0]], xs[1..])
  }

  predicate Distinct(s: seq<string>) {
    forall i, j :: 0 <= i < j < |s| ==> s[i] != s[j]
  }

  /** The set keeps what it had, in front, gains exactly the new elements
      and never holds one twice. */
  lemma {:induction false} AddAllSpec(acc: seq<string>, xs: seq<string>)
    ensures var r := AddAll(acc, xs);
      |acc| <= |r| && r[..|acc|] == acc
      && (forall x :: x in r <==> x in acc || x in xs)
      && (Distinct(acc) ==> Distinct(r))
    decreases |xs|
  {
    if xs != [] {
      var acc' := if xs[0] in acc then acc else acc + [xs[0]];
      AddAllSpec(acc', xs[1..]);
      var r := AddAll(acc', xs[1..]);
      assert r[..|acc|] == r[..|acc'|][..|acc|];
      assert forall x :: x in xs <==> x == xs[0] || x in xs[1..];
      if Distinct(acc) && xs[0] !in acc {
        assert Distinct(acc');
      }
    }
  }

  lemma {:induction false} AddAllAppend(acc: seq<string>, xs: seq<string>, ys: seq<string>)
    ensures AddAll(acc, xs + ys) == AddAll(AddAll(acc, xs), ys)
    decreases |xs|
  {
    if xs == [] {
      assert xs + ys == ys;
    } else {
      assert (xs + ys)[0] == xs[0];
      assert (xs + ys)[1..] == xs[1..] + ys;
      AddAllAppend(if xs[0] in acc then acc else acc + [xs[0]], xs[1..], ys);
    }
  }

  lemma AddOne(acc: seq<string>, x: string)
    ensures AddAll(acc, [x]) == if x in acc then acc else acc + [x]
  {
    assert [x][1..] == [];
  }

  /** `walk(base, node)`, adding to the set `acc`. */
  method Walk(base: string, node: Value, acc: seq<string>) returns (r: seq<string>)
    ensures r == AddAll(acc, AllPaths(base, node))
    decreases node
  {
    var kids := Kids(node);
    r := acc;
    var i := 0;
    while i < |kids|
      invariant 0 <= i <= |kids|
      invariant r == AddAll(acc, Paths(base, node, i))
    {
      var entry := kids[i];
      assert entry in Kids(node);
      var current := ChildPath(base, entry.0);
      AddAllAppend(acc, Paths(base, node, i), [current]);
      AddOne(r, current);
      if current !in r {
        r := r + [current];
      }
      var sub: seq<string> := [];
      if entry.1.Tree? {
        sub := AllPaths(current, entry.1);
        r := Walk(current, entry.1, r);
      }
      AddAllAppend(acc, Paths(base, node, i) + [current], sub);
      i := i + 1;
    }
  }

  /** What completion draws on: the commands and the file paths. */
  datatype Catalog = Catalog(commands: seq<string>, paths: seq<string>)

  /** `buildCompletionCatalog`. */
  method BuildCompletionCatalog(commands: seq<string>, fileTree: Value) returns (c: Catalog)
    ensures c == Catalog(commands, AddAll([], AllPaths("", fileTree)))
  {
    var paths := Walk("", fileTree, []);
    c := Catalog(commands, paths);
  }

  /** Every path of the tree is in the catalogue exactly once. */
  lemma CatalogPaths(commands: seq<string>, fileTree: Value)
    ensures var c := Catalog(commands, AddAll([], AllPaths("", fileTree)));
      Distinct(c.paths) && forall p :: p in c.paths <==> p in AllPaths("", fileTree)
  {
    AddAllSpec([], AllPaths("", fileTree));
  }

  /** `p` is entry `k`'s own path or a path inside it. */
  predicate InEntry(base: string, node: Value, k: nat, p: string)
    requires k < |Kids(node)|
  {
    var entry := Kids(node)[k];
    p == ChildPath(base, entry.0) || p in AllPaths(ChildPath(base, entry.0), entry.1)
  }

  /** The paths of the first `i` entries: each entry's own path, and the
      paths inside each object entry. */
  lemma {:induction false} PathsMembers(base: string, node: Value, i: nat, p: string)
    requires i <= |Kids(node)|
    ensures p in Paths(base, node, i) <==> exists k :: 0 <= k < i && InEntry(base, node, k, p)
    decreases i
  {
    if i > 0 {
      PathsMembers(base, node, i - 1, p);
      var entry := Kids(node)[i - 1];
      var current := ChildPath(base, entry.0);
      var prev := Paths(base, node, i - 1);
      var sub := AllPaths(current, entry.1);
      assert Paths(base, node, i) == prev + [current] + sub;
      assert InEntry(base, node, i - 1, p) <==> p == current || p in sub;
      if p in prev {
        var k :| 0 <= k < i - 1 && InEntry(base, node, k, p);
        assert 0 <= k < i && InEntry(base, node, k, p);
      } else if p == current || p in sub {
        assert InEntry(base, node, i - 1, p);
      } else {
        assert p !in Paths(base, node, i);
        forall k | 0 <= k < i ensures !InEntry(base, node, k, p) {
          if k < i - 1 {
            assert !InEntry(base, node, k, p);
          }
        }
      }
    }
  }

  /** The kind of completion offered. */
  datatype Kind = Complete | Suggest | NoMatch

  datatype Completion = Completion(kind: Kind, value: string, matches: seq<string>)

  /** `candidates.filter((item) => item.startsWith(token))`. */
  function KeepPrefixed(items: seq<string>, token: string): (r: seq<string>)
    ensures |r| <= |items|
    ensures forall x :: x in r <==> x in items && StartsWith(x, token)
  {
    if items == [] then []
    else if StartsWith(items[0], token) then [items[0]] + KeepPrefixed(items[1..], token)
    else KeepPrefixed(items[1..], token)
  }

  /** `getCompletions`: the last whitespace-separated token of the input is
      matched against the commands when it is the only token, and against the
      paths otherwise. */
  function GetCompletions(input: string, catalog: Catalog): Completion {
    CompleteTokens(input, Tokens(input), catalog)
  }

  /** `input.trimStart().split(/\s+/)`: never empty, and no token holds
      whitespace. */
  function Tokens(input: string): (r: seq<string>)
    ensures r != [] && forall k :: 0 <= k < |r| ==> forall i :: 0 <= i < |r[k]| ==> !IsWhitespace(r[k][i])
  {
    SplitWhitespace(TrimStart(input))
  }

  /** The completion once the input is split into `tokens`. */
  function CompleteTokens(input: string, tokens: seq<string>, catalog: Catalog): Completion
    requires tokens != []
  {
    var active := tokens[|tokens| - 1];
    var candidates := if |tokens| == 1 then catalog.commands else catalog.paths;
    var matches := KeepPrefixed(candidates, active);
    if |matches| == 1 then Completion(Complete, Join(tokens[..|tokens| - 1] + [matches[0]], " "), matches)
    else if |matches| > 1 then Completion(Suggest, input, matches)
    else Completion(NoMatch, input, [])
  }

  /** The three outcomes: one candidate completes the last token, several
      are offered with the input unchanged, none gives nothing. */
  lemma CompletionOutcomes(input: string, catalog: Catalog)
    ensures var tokens := Tokens(input);
      var active := tokens[|tokens| - 1];
      var candidates := if |tokens| == 1 then catalog.commands else catalog.paths;
      var c := GetCompletions(input, catalog);
      (forall x :: x in c.matches ==> x in candidates && StartsWith(x, active))
      && (c.kind == Complete <==> |c.matches| == 1)
      && (c.kind == Suggest ==> c.value == input && |c.matches| > 1)
      && (c.kind == NoMatch ==>
            c.value == input && c.matches == [] && forall x :: x in candidates ==> !StartsWith(x, active))
  {
    TokensOutcomes(input, Tokens(input), catalog);
  }

  lemma TokensOutcomes(input: string, tokens: seq<string>, catalog: Catalog)
    requires tokens != []
    ensures var active := tokens[|tokens| - 1];
      var candidates := if |tokens| == 1 then catalog.commands else catalog.paths;
      var c := CompleteTokens(input, tokens, catalog);
      (forall x :: x in c.matches ==> x in candidates && StartsWith(x, active))
      && (c.kind == Complete <==> |c.matches| == 1)
      && (c.kind == Suggest ==> c.value == input && |c.matches| > 1)
      && (c.kind == NoMatch ==>
            c.value == input && c.matches == [] && forall x :: x in candidates ==> !StartsWith(x, active))
  {
    var active := tokens[|tokens| - 1];
    var candidates := if |tokens| == 1 then catalog.commands else catalog.paths;
    var matches := KeepPrefixed(candidates, active);
    if |matches| == 0 {
      assert forall x :: x in candidates && StartsWith(x, active) ==> x in matches;
    }
  }

  /** A single token with exactly one command extending it completes to
      that command. */
  lemma CompletesCommand(input: string, catalog: Catalog, command: string)
    requires TrimStart(input) != [] && forall i :: 0 <= i < |input| ==> !IsWhitespace(input[i])
    requires KeepPrefixed(catalog.commands, input) == [command]
    ensures GetCompletions(input, catalog) == Completion(Complete, command, [command])
  {
    assert TrimStart(input) == input;
    assert SplitWhitespace(input) == [input] by {
      NoWhitespaceOneToken(input);
    }
  }

  lemma {:induction false} NoWhitespaceOneToken(s: string)
    requires forall i :: 0 <= i < |s| ==> !IsWhitespace(s[i])
    ensures SplitWhitespace(s) == [s]
    decreases |s|
  {
    if s != [] {
      NoWhitespaceOneToken(s[1..]);
      assert [s[0]] + s[1..] == s;
    }
  }

  /** The history of the tests: with limit 2, pushing three commands such as
      `a`, `b`, `c` keeps the last two. */
  lemma RespectsLimit(a: string, b: string, c: string)
    requires !AllWhitespace(a) && !AllWhitespace(b) && !AllWhitespace(c)
    ensures PushEntries(PushEntries(PushEntries([], 2, a), 2, b), 2, c) == [b, c]
  {
    var e1 := PushEntries([], 2, a);
    assert e1 == [a];
    var e2 := PushEntries(e1, 2, b);
    assert e2 == [a, b];
    assert e2[1..] == [b];
  }

  /** Three entries, cursor past the newest: three steps back give them
      newest first, three steps forward give the two newer ones and `''`. */
  lemma NavigatesThree(e: seq<string>)
    requires |e| == 3
    ensures var (i1, r1) := PreviousStep(e, 3);
      var (i2, r2) := PreviousStep(e, i1);
      var (i3, r3) := PreviousStep(e, i2);
      var (i4, r4) := NextStep(e, i3);
      var (i5, r5) := NextStep(e, i4);
      var (i6, r6) := NextStep(e, i5);
      [r1, r2, r3, r4, r5, r6] == [e[2], e[1], e[0], e[1], e[2], ""]
  {
  }

  /** The tree of the tests. */
  const SampleTree := Tree([("home", Tree([("readme", Leaf), ("tips", Leaf)]))])

  lemma SampleTreePaths()
    ensures AllPaths("", SampleTree) == ["home", "home/readme", "home/tips"]
  {
    var home := Tree([("readme", Leaf), ("tips", Leaf)]);
    assert ChildPath("home", "readme") == "home/readme";
    assert ChildPath("home", "tips") == "home/tips";
    assert Paths("home", home, 0) == [];
    assert Paths("home", home, 1) == ["home/readme"];
    assert Paths("home", home, 2) == ["home/readme", "home/tips"];
  }

  /** The catalogue of the tests. */
  const SampleCatalog := Catalog(["help", "clear", "cat"], ["home", "home/readme", "home/tips"])

  lemma SampleCatalogBuilt()
    ensures Catalog(["help", "clear", "cat"], AddAll([], AllPaths("", SampleTree))) == SampleCatalog
  {
    SampleTreePaths();
  }

  /** `he` completes to `help`. */
  lemma CompletesHe()
    ensures GetCompletions("he", SampleCatalog) == Completion(Complete, "help", ["help"])
  {
    OnlyHelpStartsHe();
    TrimFixes("he");
    CompletesCommand("he", SampleCatalog, "help");
  }

  lemma OnlyHelpStartsHe()
    ensures KeepPrefixed(SampleCatalog.commands, "he") == ["help"]
  {
    assert StartsWith("help", "he") by { assert "help"[..2] == "he"; }
    assert !StartsWith("clear", "he") && !StartsWith("cat", "he") by {
      assert "clear"[..2][0] != "he"[0];
      assert "cat"[..2][0] != "he"[0];
    }
  }

  /** `c` offers `clear` and `cat`. */
  lemma SuggestsC()
    ensures GetCompletions("c", SampleCatalog) == Completion(Suggest, "c", ["clear", "cat"])
  {
    assert KeepPrefixed(SampleCatalog.commands, "c") == ["clear", "cat"];
    TrimFixes("c");
    NoWhitespaceOneToken("c");
  }

  /** `unknown` matches nothing. */
  lemma NothingForUnknown()
    ensures GetCompletions("unknown", SampleCatalog) == Completion(NoMatch, "unknown", [])
  {
    assert KeepPrefixed(SampleCatalog.commands, "unknown") == [];
    TrimFixes("unknown");
    NoWhitespaceOneToken("unknown");
  }

  /** A word, one whitespace character, and the rest: the word is the
      first token. */
  lemma {:induction false} SplitWordThenSpace(w: string, c: char, t: string)
    requires IsWhitespace(c) && (t != [] ==> !IsWhitespace(t[0]))
    requires forall i :: 0 <= i < |w| ==> !IsWhitespace(w[i])
    ensures SplitWhitespace(w + [c] + t) == [w] + SplitWhitespace(t)
    decreases |w|
  {
    var s := w + [c] + t;
    if w == [] {
      assert s == [c] + t && s[1..] == t;
      assert TrimStart(t) == t;
    } else {
      var tail := w[1..] + [c] + t;
      assert s[1..] == tail;
      SplitWordThenSpace(w[1..], c, t);
      var rest := SplitWhitespace(tail);
      assert rest == [w[1..]] + SplitWhitespace(t);
      assert SplitWhitespace(s) == [[s[0]] + rest[0]] + rest[1..];
      assert [w[0]] + w[1..] == w;
    }
  }

  lemma SplitCatH()
    ensures SplitWhitespace("cat h") == ["cat", "h"]
  {
    assert "cat h" == "cat" + [' '] + "h";
    SplitWordThenSpace("cat", ' ', "h");
    NoWhitespaceOneToken("h");
  }

  lemma AllPathsStartWithH()
    ensures KeepPrefixed(SampleCatalog.paths, "h") == SampleCatalog.paths
  {
    assert forall p :: p in SampleCatalog.paths ==> p[..1] == "h";
  }

  /** After a command, the last token is matched against the paths. */
  lemma SuggestsPaths()
    ensures GetCompletions("cat h", SampleCatalog) == Completion(Suggest, "cat h", SampleCatalog.paths)
  {
    TrimFixes("cat h");
    SplitCatH();
    AllPathsStartWithH();
  }
}
