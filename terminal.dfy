/** The command interpreter (src/terminal.js): a line of input is trimmed,
    split on single spaces and dispatched to the virtual file system; one
    `… | grep pattern` stage filters the left command's lines; every
    non-blank line is recorded in the bounded command log. */
module Terminal {
  import opened Wrappers
  import opened Strings
  import opened Ordering
  import opened State
  import opened FileSystem
  import opened Ascii
  import opened Quests

  /** An output entry: a plain line, or a boxed card (`{type: 'ascii', content}`). */
  datatype Line = Text(text: string) | Art(content: string)

  function Flat(l: Line): string {
    match l
    case Text(s) => s
    case Art(c) => c
  }

  /** `output.map((entry) => typeof entry === 'string' ? entry : entry.content)`. */
  function FlatAll(out: seq<Line>): (r: seq<string>)
    ensures |r| == |out| && forall k :: 0 <= k < |out| ==> r[k] == Flat(out[k])
  {
    if out == [] then [] else [Flat(out[0])] + FlatAll(out[1..])
  }

  /** Plain lines, one per string. */
  function Texts(lines: seq<string>): (r: seq<Line>)
    ensures |r| == |lines| && forall k :: 0 <= k < |lines| ==> r[k] == Text(lines[k])
  {
    if lines == [] then [] else [Text(lines[0])] + Texts(lines[1..])
  }

  /** The text `logCommand` records for an output. */
  function LogText(out: seq<Line>): string {
    Join(FlatAll(out), "\n")
  }

  /** The quest and zone tables the interpreter consults; the game's are
      `Quests.Catalogue` and `Quests.Zones`. */
  datatype Tables = Tables(quests: seq<Quest>, zones: seq<Zone>)

  // ---------------------------------------------------------------------
  // Read-only searches over the game state

  /** `hasCompletedQuest(state)`: some status entry is completed. */
  predicate HasCompletedQuest(status: map<string, QuestStatus>) {
    exists id :: id in status && status[id].completed
  }

  predicate Pending(q: Quest, zoneId: string, status: map<string, QuestStatus>) {
    q.zone == zoneId && !IsQuestComplete(status, q.id)
  }

  /** The index `quests.find` stops at: the first pending quest of the zone,
      or `|qs|` when there is none. */
  function FirstPending(qs: seq<Quest>, zoneId: string, status: map<string, QuestStatus>): (i: nat)
    ensures i <= |qs|
    ensures i < |qs| ==> Pending(qs[i], zoneId, status)
    ensures forall j :: 0 <= j < i ==> !Pending(qs[j], zoneId, status)
  {
    if qs == [] then 0
    else if Pending(qs[0], zoneId, status) then 0
    else FirstPending(qs[1..], zoneId, status) + 1
  }

  /** The index of the first zone of `zs` that the table `table` leaves
      unlocked and that has a pending quest, or `|zs|` when there is none. */
  function FirstOpenZone(table: seq<Zone>, zs: seq<Zone>, qs: seq<Quest>, byZone: map<string, nat>, status: map<string, QuestStatus>): (i: nat)
    ensures i <= |zs|
    ensures i < |zs| ==> UnlockedIn(table, byZone, zs[i].id) && FirstPending(qs, zs[i].id, status) < |qs|
    ensures forall j :: 0 <= j < i ==> !UnlockedIn(table, byZone, zs[j].id) || FirstPending(qs, zs[j].id, status) == |qs|
  {
    if zs == [] then 0
    else if UnlockedIn(table, byZone, zs[0].id) && FirstPending(qs, zs[0].id, status) < |qs| then 0
    else FirstOpenZone(table, zs[1..], qs, byZone, status) + 1
  }

  /** `nextRecommendedQuest(state)`: the first pending quest of the first
      unlocked zone, in zone order, that has one; `None` when every unlocked
      zone is done. */
  function NextRecommended(t: Tables, byZone: map<string, nat>, status: map<string, QuestStatus>): (r: Option<(Quest, Zone)>)
    ensures r.Some? ==>
      r.value.1 in t.zones && UnlockedIn(t.zones, byZone, r.value.1.id)
      && r.value.0 in t.quests && Pending(r.value.0, r.value.1.id, status)
    ensures r.None? <==> forall k :: 0 <= k < |t.zones| ==>
      !UnlockedIn(t.zones, byZone, t.zones[k].id) || forall j :: 0 <= j < |t.quests| ==> !Pending(t.quests[j], t.zones[k].id, status)
  {
    var i := FirstOpenZone(t.zones, t.zones, t.quests, byZone, status);
    if i == |t.zones| then None
    else Some((t.quests[FirstPending(t.quests, t.zones[i].id, status)], t.zones[i]))
  }

  /** The recommendation is the earliest one: every zone before it is locked
      or done, and every quest before it in its zone is complete. */
  lemma NextRecommendedIsFirst(t: Tables, byZone: map<string, nat>, status: map<string, QuestStatus>)
    requires NextRecommended(t, byZone, status).Some?
    ensures var r := NextRecommended(t, byZone, status).value;
      exists i, k :: 0 <= i < |t.zones| && 0 <= k < |t.quests| && t.zones[i] == r.1 && t.quests[k] == r.0
        && (forall j :: 0 <= j < i ==>
              !UnlockedIn(t.zones, byZone, t.zones[j].id)
              || forall m :: 0 <= m < |t.quests| ==> !Pending(t.quests[m], t.zones[j].id, status))
        && (forall m :: 0 <= m < k ==> !Pending(t.quests[m], r.1.id, status))
  {
    var i := FirstOpenZone(t.zones, t.zones, t.quests, byZone, status);
    var k := FirstPending(t.quests, t.zones[i].id, status);
    var r := NextRecommended(t, byZone, status).value;
    assert r == (t.quests[k], t.zones[i]);
    forall j | 0 <= j < i
      ensures !UnlockedIn(t.zones, byZone, t.zones[j].id)
        || forall m :: 0 <= m < |t.quests| ==> !Pending(t.quests[m], t.zones[j].id, status)
    {
    }
    assert forall m :: 0 <= m < k ==> !Pending(t.quests[m], r.1.id, status);
  }

  // ---------------------------------------------------------------------
  // Parsing a line

  /** `trimmed.split(' ')`: the command word and its arguments; runs of
      spaces give empty arguments. */
  function Command(line: string): string {
    Split(line, ' ')[0]
  }

  function Args(line: string): seq<string> {
    Split(line, ' ')[1..]
  }

  /** The cases of the `switch (cmd)`; any other word is unknown. */
  datatype Verb = Help | Clear | Pwd | Ls | ShowBanner | Tutorial | Tips | Cd | Cat
                | Touch | Mkdir | Rm | Echo | Grep | Unknown

  function VerbOf(word: string): Verb {
    if word == "help" then Help
    else if word == "clear" then Clear
    else if word == "pwd" then Pwd
    else if word == "ls" then Ls
    else if word == "banner" then ShowBanner
    else if word == "tutorial" then Tutorial
    else if word == "tips" then Tips
    else if word == "cd" then Cd
    else if word == "cat" then Cat
    else if word == "touch" then Touch
    else if word == "mkdir" then Mkdir
    else if word == "rm" then Rm
    else if word == "echo" then Echo
    else if word == "grep" then Grep
    else Unknown
  }

  /** `args[k] || ''`: a missing argument reads as the empty string. */
  function ArgOr(args: seq<string>, k: nat): string {
    if k < |args| then args[k] else ""
  }

  /** `.replace(/^"|"$/g, '')`: one leading and one trailing double quote
      go; a lone `"` is the leading one. */
  function StripQuotes(s: string): (r: string)
    ensures |r| <= |s|
  {
    var t := if |s| >= 1 && s[0] == '"' then s[1..] else s;
    if |t| >= 1 && t[|t| - 1] == '"' then t[..|t| - 1] else t
  }

  lemma StripQuotesCases(t: string)
    ensures StripQuotes("\"" + t + "\"") == t
    ensures StripQuotes("\"") == ""
    ensures (t == [] || (t[0] != '"' && t[|t| - 1] != '"')) ==> StripQuotes(t) == t
  {
    var s := "\"" + t + "\"";
    assert s[1..] == t + "\"";
    assert (t + "\"")[..|t|] == t;
  }

  datatype Redirect = Redirect(content: string, target: string)

  /** `echo`'s argument text split at its LAST `>`: the content is the part
      before it, trimmed and unquoted, the target the part after it, trimmed;
      `None` when there is no `>`. */
  function ParseEcho(rest: string): (r: Option<Redirect>)
    ensures r.None? <==> '>' !in rest
    ensures r.Some? ==> '>' !in r.value.target
  {
    var i := LastIndexOf(rest, '>');
    if i == -1 then None
    else
      assert '>' !in rest[i + 1..];
      TrimInside(rest[i + 1..]);
      Some(Redirect(StripQuotes(Trim(rest[..i])), Trim(rest[i + 1..])))
  }

  /** A `>` inside the text to write stays in the content: only the last one
      redirects. */
  lemma EchoSplitsAtLast(a: string, b: string)
    requires '>' !in b
    ensures ParseEcho(a + ">" + b) == Some(Redirect(StripQuotes(Trim(a)), Trim(b)))
  {
    var s := a + ">" + b;
    var i := LastIndexOf(s, '>');
    assert s[|a|] == '>';
    assert s[..i] == a;
    assert s[i + 1..] == b;
  }

  // ---------------------------------------------------------------------
  // One command

  /** What a command leaves behind: its output and the file tree and current
      directory after it. */
  datatype Outcome = Outcome(output: seq<Line>, root: Node, cwd: seq<string>)

  const HelpLine: string := "Commands: help, tutorial, tips, banner, clear, pwd, ls, cd, cat, touch, mkdir, rm, echo, grep"

  const WelcomeSteps: seq<string> := ["Use `tutorial` for your next move.", "Start with `pwd`, `ls`, then `cat notes.txt`."]

  /** The inputs on which the source throws: `touch`/`mkdir` when the
      current directory is gone, `rm`/`echo` whose parent is a file. */
  predicate CommandDefined(line: string, root: Node, cwd: seq<string>) {
    var verb := VerbOf(Command(line));
    var target := ArgOr(Args(line), 0);
    ((verb == Touch || verb == Mkdir) && target != "" ==> IsDir(Lookup(root, cwd)))
    && (verb == Rm && target != "" ==> !IsFile(Lookup(root, TargetBase(cwd, target))))
    && (verb == Echo ==>
          var p := ParseEcho(Join(Args(line), " "));
          p.Some? && p.value.target != "" ==> !IsFile(Lookup(root, TargetBase(cwd, p.value.target))))
  }

  function HelpOutput(status: map<string, QuestStatus>): seq<Line> {
    (if HasCompletedQuest(status) then [] else [Art(Box(BoxContent("Welcome to ShellQuest", WelcomeSteps)))])
    + [Text(HelpLine)]
  }

  function LsOutput(root: Node, cwd: seq<string>, target: string): seq<Line> {
    var n := Lookup(root, ResolvedPath(cwd, target));
    if IsDir(n) then [Text(Join(Listing(n.value.children), "  "))] else [Text("Not a directory")]
  }

  function TutorialItems(next: (Quest, Zone)): seq<string> {
    ["Zone: " + next.1.name, "Goal: " + next.0.goal, "Try: " + FirstHint(next.0.hints)]
  }

  function TutorialOutput(t: Tables, byZone: map<string, nat>, status: map<string, QuestStatus>): seq<Line> {
    match NextRecommended(t, byZone, status)
    case None => [Art(Box(BoxContent("All quests clear!", ["Awaiting new adventures."])))]
    case Some(next) => [Art(Box(BoxContent("Next: " + next.0.title, TutorialItems(next))))]
  }

  function CdOutcome(root: Node, cwd: seq<string>, target: string): (o: Outcome)
    ensures o.root == root
  {
    var p := ResolvedPath(cwd, target);
    match Lookup(root, p)
    case None => Outcome([Text("Path not found")], root, cwd)
    case Some(File(_)) => Outcome([Text("Not a directory")], root, cwd)
    case Some(Dir(_)) => Outcome([Text(PwdOf(p))], root, p)
  }

  function CatLine(root: Node, cwd: seq<string>, target: string): string {
    match Lookup(root, ResolvedPath(cwd, target))
    case None => "Not found"
    case Some(Dir(_)) => "Not a file"
    case Some(File(c)) => c
  }

  function TouchOutcome(root: Node, cwd: seq<string>, target: string): (o: Outcome)
    requires target != "" ==> IsDir(Lookup(root, cwd))
    ensures o.cwd == cwd
  {
    if target == "" then Outcome([Text("Missing filename")], root, cwd)
    else Outcome([Text("Created " + target)], TouchTree(root, cwd, target), cwd)
  }

  function MkdirOutcome(root: Node, cwd: seq<string>, target: string): (o: Outcome)
    requires target != "" ==> IsDir(Lookup(root, cwd))
    ensures o.cwd == cwd
  {
    if target == "" then Outcome([Text("Missing directory name")], root, cwd)
    else if HasChild(Lookup(root, cwd), target) then Outcome([Text("Already exists")], root, cwd)
    else Outcome([Text("Created directory " + target)], MkdirTree(root, cwd, target), cwd)
  }

  function RmOutcome(root: Node, cwd: seq<string>, target: string): (o: Outcome)
    ensures o.cwd == cwd
  {
    var base := TargetBase(cwd, target);
    var name := TargetName(target);
    if target == "" then Outcome([Text("Missing target")], root, cwd)
    else if HasChild(Lookup(root, base), name) then Outcome([Text("Removed " + target)], RemoveChild(root, NonEmpty(base), name), cwd)
    else Outcome([Text("Not found")], root, cwd)
  }

  function EchoOutcome(root: Node, cwd: seq<string>, rest: string): (o: Outcome)
    ensures o.cwd == cwd
  {
    match ParseEcho(rest)
    case None => Outcome([Text("Usage: echo \"text\" > file")], root, cwd)
    case Some(Redirect(content, target)) =>
      var base := TargetBase(cwd, target);
      if target == "" then Outcome([Text("Missing target file")], root, cwd)
      else if IsDir(Lookup(root, base)) then
        Outcome([Text(content)], SetChild(root, NonEmpty(base), TargetName(target), File(content)), cwd)
      else Outcome([Text("Path not found")], root, cwd)
  }

  function GrepOutput(root: Node, cwd: seq<string>, pattern: string, target: string): seq<Line> {
    var n := Lookup(root, ResolvedPath(cwd, target));
    if pattern == "" || target == "" then [Text("Usage: grep pattern file")]
    else if !IsFile(n) then [Text("File not found")]
    else
      var matches := KeepContaining(Split(n.value.content, '\n'), pattern);
      if matches == [] then [Text("(no matches)")] else Texts(matches)
  }

  /** The `switch (cmd)` of `executeCommand` for a trimmed, non-blank line. */
  function RespondTo(line: string, root: Node, cwd: seq<string>, status: map<string, QuestStatus>,
                     byZone: map<string, nat>, tips: seq<string>, t: Tables): Outcome
    requires CommandDefined(line, root, cwd)
  {
    var args := Args(line);
    match VerbOf(Command(line))
    case Help => Outcome(HelpOutput(status), root, cwd)
    case Clear => Outcome([Text("__clear__")], root, cwd)
    case Pwd => Outcome([Text(PwdOf(cwd))], root, cwd)
    case Ls => Outcome(LsOutput(root, cwd, ArgOr(args, 0)), root, cwd)
    case ShowBanner => Outcome([Art(Banner())], root, cwd)
    case Tutorial => Outcome(TutorialOutput(t, byZone, status), root, cwd)
    case Tips => Outcome([Art(Box(BoxContent("Quick tips", tips)))], root, cwd)
    case Cd => CdOutcome(root, cwd, ArgOr(args, 0))
    case Cat => Outcome([Text(CatLine(root, cwd, ArgOr(args, 0)))], root, cwd)
    case Touch => TouchOutcome(root, cwd, ArgOr(args, 0))
    case Mkdir => MkdirOutcome(root, cwd, ArgOr(args, 0))
    case Rm => RmOutcome(root, cwd, ArgOr(args, 0))
    case Echo => EchoOutcome(root, cwd, Join(args, " "))
    case Grep => Outcome(GrepOutput(root, cwd, ArgOr(args, 0), ArgOr(args, 1)), root, cwd)
    case Unknown => Outcome([Text("Unknown command: " + Command(line))], root, cwd)
  }

  // ---------------------------------------------------------------------
  // A whole line, with the grep stage and the log

  /** The trimmed line holds a `|` and its second `|`-part, trimmed, starts
      with `grep`. */
  predicate IsGrepPipe(line: string) {
    '|' in line && (SplitAtSeparator(line, '|'); StartsWith(Trim(Split(line, '|')[1]), "grep"))
  }

  /** The left side of a pipe: the first `|`-part, trimmed. */
  function PipeLeft(line: string): (left: string)
    ensures '|' !in left
  {
    var first := Split(line, '|')[0];
    TrimInside(first);
    Trim(first)
  }

  /** The grep pattern: everything after the first space of the right side. */
  function PipePattern(line: string): string
    requires '|' in line
  {
    SplitAtSeparator(line, '|');
    var right := Trim(Split(line, '|')[1]);
    Join(Split(right, ' ')[1..], " ")
  }

  /** `output.filter((line) => line.includes(pattern))`. */
  function KeepLines(out: seq<Line>, p: string): (r: seq<Line>)
    ensures |r| <= |out|
    ensures forall l :: l in r <==> l in out && Contains(Flat(l), p)
  {
    if out == [] then []
    else if Contains(Flat(out[0]), p) then [out[0]] + KeepLines(out[1..], p)
    else KeepLines(out[1..], p)
  }

  /** The left command of a grep stage must print plain lines only: the
      source throws on a card (`help` before any quest is done, `banner`,
      `tutorial`, `tips`). */
  predicate PlainOutput(line: string, status: map<string, QuestStatus>) {
    var verb := VerbOf(Command(line));
    verb != ShowBanner && verb != Tutorial && verb != Tips && (verb == Help ==> HasCompletedQuest(status))
  }

  /** The inputs `executeCommand` handles without throwing. */
  predicate Defined(input: string, root: Node, cwd: seq<string>, status: map<string, QuestStatus>) {
    var line := Trim(input);
    line == "" ||
    if IsGrepPipe(line) then LeftDefined(line, root, cwd) && PlainOutput(Trim(PipeLeft(line)), status)
    else CommandDefined(line, root, cwd)
  }

  /** The result of `executeCommand`, with the file system and log after it. */
  datatype Run = Run(output: seq<Line>, command: string, root: Node, cwd: seq<string>, log: seq<LogEntry>)

  /** `executeCommand` on a line with no grep stage: blank input gives one
      empty line and is not logged; a command is answered and logged. */
  function Single(input: string, root: Node, cwd: seq<string>, log: seq<LogEntry>, status: map<string, QuestStatus>,
                  byZone: map<string, nat>, tips: seq<string>, t: Tables, now: int): Run
    requires Trim(input) == "" || CommandDefined(Trim(input), root, cwd)
  {
    var line := Trim(input);
    if line == "" then Run([Text("")], "", root, cwd, log)
    else
      var o := RespondTo(line, root, cwd, status, byZone, tips, t);
      Run(o.output, line, o.root, o.cwd, Logged(log, LogEntry(line, LogText(o.output), now)))
  }

  /** The left side of a grep stage runs without throwing. */
  predicate LeftDefined(line: string, root: Node, cwd: seq<string>) {
    Trim(PipeLeft(line)) == "" || CommandDefined(Trim(PipeLeft(line)), root, cwd)
  }

  /** The output of a grep stage: the left side's lines that hold the
      pattern, or `(no matches)`. */
  function PipeOutput(line: string, out: seq<Line>): seq<Line>
    requires '|' in line
  {
    var kept := KeepLines(out, PipePattern(line));
    if kept == [] then [Text("(no matches)")] else kept
  }

  /** The grep stage of `executeCommand` once its left side has run (and
      logged itself): the filtered output, logged after the left side's entry. */
  function Piped(line: string, l: Run, now: int): Run
    requires '|' in line
  {
    var output := PipeOutput(line, l.output);
    Run(output, line, l.root, l.cwd, Logged(l.log, LogEntry(line, LogText(output), now)))
  }

  /** `executeCommand(input, fs, state)`, stamped with `now` and given the
      tips `randomTips` would pick. The left side of a grep stage holds no
      `|`, so the recursive call on it is a `Single` run. */
  function Execute(input: string, root: Node, cwd: seq<string>, log: seq<LogEntry>, status: map<string, QuestStatus>,
                   byZone: map<string, nat>, tips: seq<string>, t: Tables, now: int): Run
    requires Defined(input, root, cwd, status)
  {
    var line := Trim(input);
    if line != "" && IsGrepPipe(line) then
      Piped(line, Single(PipeLeft(line), root, cwd, log, status, byZone, tips, t, now), now)
    else Single(input, root, cwd, log, status, byZone, tips, t, now)
  }

  // ---------------------------------------------------------------------
  // The interpreter over the live file system and game state

  /** `nextRecommendedQuest(state)`: the loop over the zones. */
  method NextRecommendedQuest(t: Tables, byZone: map<string, nat>, status: map<string, QuestStatus>)
    returns (r: Option<(Quest, Zone)>)
    ensures r == NextRecommended(t, byZone, status)
  {
    ghost var first := FirstOpenZone(t.zones, t.zones, t.quests, byZone, status);
    var i := 0;
    while i < |t.zones|
      invariant 0 <= i <= |t.zones| && i <= first
    {
      var zone := t.zones[i];
      if UnlockedIn(t.zones, byZone, zone.id) {
        var k := FirstPending(t.quests, zone.id, status);
        if k < |t.quests| {
          return Some((t.quests[k], zone));
        }
      }
      i := i + 1;
    }
    r := None;
  }

  /** `case 'help'`: the welcome card until some quest is done, then the command list. */
  method RunHelp(status: map<string, QuestStatus>) returns (output: seq<Line>)
    ensures output == HelpOutput(status)
  {
    output := [];
    if !HasCompletedQuest(status) {
      var card := TutorialCard("Welcome to ShellQuest", WelcomeSteps);
      output := [Art(card)];
    }
    output := output + [Text(HelpLine)];
  }

  /** `case 'ls'`: the sorted names on one line, two spaces apart. */
  method RunLs(fs: VirtualFileSystem, target: string) returns (output: seq<Line>)
    ensures output == LsOutput(fs.root, fs.cwd, target)
  {
    var result := fs.Ls(target);
    if result.Err? {
      output := [Text(result.error)];
    } else {
      ghost var n := Lookup(fs.root, ResolvedPath(fs.cwd, target));
      SortedListingUnique(result.value, Listing(n.value.children));
      output := [Text(Join(result.value, "  "))];
    }
  }

  /** `case 'tutorial'`: a card for the next recommended quest. */
  method RunTutorial(t: Tables, byZone: map<string, nat>, status: map<string, QuestStatus>) returns (output: seq<Line>)
    ensures output == TutorialOutput(t, byZone, status)
  {
    var next := NextRecommendedQuest(t, byZone, status);
    var card;
    if next.None? {
      card := TutorialCard("All quests clear!", ["Awaiting new adventures."]);
    } else {
      card := TutorialCard("Next: " + next.value.0.title, TutorialItems(next.value));
    }
    output := [Art(card)];
  }

  /** `case 'cd'`. */
  method RunCd(fs: VirtualFileSystem, target: string) returns (output: seq<Line>)
    requires fs.Valid()
    modifies fs
    ensures fs.Valid()
    ensures Outcome(output, fs.root, fs.cwd) == CdOutcome(old(fs.root), old(fs.cwd), target)
  {
    var result := fs.Cd(target);
    output := if result.Err? then [Text(result.error)] else [Text(result.value)];
  }

  /** `case 'touch'`: a missing name is refused before the tree is touched. */
  method RunTouch(fs: VirtualFileSystem, target: string) returns (output: seq<Line>)
    requires fs.Valid() && (target != "" ==> IsDir(Lookup(fs.root, fs.cwd)))
    modifies fs
    ensures fs.Valid()
    ensures Outcome(output, fs.root, fs.cwd) == TouchOutcome(old(fs.root), old(fs.cwd), target)
  {
    if target == "" {
      output := [Text("Missing filename")];
    } else {
      var _ := fs.Touch(target);
      output := [Text("Created " + target)];
    }
  }

  /** `case 'mkdir'`. */
  method RunMkdir(fs: VirtualFileSystem, target: string) returns (output: seq<Line>)
    requires fs.Valid() && (target != "" ==> IsDir(Lookup(fs.root, fs.cwd)))
    modifies fs
    ensures fs.Valid()
    ensures Outcome(output, fs.root, fs.cwd) == MkdirOutcome(old(fs.root), old(fs.cwd), target)
  {
    if target == "" {
      output := [Text("Missing directory name")];
    } else {
      var result := fs.Mkdir(target);
      output := if result.Err? then [Text(result.error)] else [Text("Created directory " + target)];
    }
  }

  /** `case 'rm'`. */
  method RunRm(fs: VirtualFileSystem, target: string) returns (output: seq<Line>)
    requires fs.Valid() && (target != "" ==> !IsFile(Lookup(fs.root, TargetBase(fs.cwd, target))))
    modifies fs
    ensures fs.Valid()
    ensures Outcome(output, fs.root, fs.cwd) == RmOutcome(old(fs.root), old(fs.cwd), target)
  {
    if target == "" {
      output := [Text("Missing target")];
    } else {
      var result := fs.Rm(target);
      output := if result.Err? then [Text(result.error)] else [Text("Removed " + target)];
    }
  }

  /** `case 'echo'`: split the argument text at its last `>` and write the file. */
  method RunEcho(fs: VirtualFileSystem, rest: string) returns (output: seq<Line>)
    requires fs.Valid()
    requires var p := ParseEcho(rest);
      p.Some? && p.value.target != "" ==> !IsFile(Lookup(fs.root, TargetBase(fs.cwd, p.value.target)))
    modifies fs
    ensures fs.Valid()
    ensures Outcome(output, fs.root, fs.cwd) == EchoOutcome(old(fs.root), old(fs.cwd), rest)
  {
    var at := LastIndexOf(rest, '>');
    if at == -1 {
      output := [Text("Usage: echo \"text\" > file")];
    } else {
      var content := StripQuotes(Trim(rest[..at]));
      var target := Trim(rest[at + 1..]);
      assert ParseEcho(rest) == Some(Redirect(content, target));
      if target == "" {
        output := [Text("Missing target file")];
      } else {
        var result := fs.Echo(content, target);
        output := if result.Err? then [Text(result.error)] else [Text(content)];
      }
    }
  }

  /** `case 'grep'`: both arguments are needed. */
  method RunGrep(fs: VirtualFileSystem, pattern: string, target: string) returns (output: seq<Line>)
    ensures output == GrepOutput(fs.root, fs.cwd, pattern, target)
  {
    if pattern == "" || target == "" {
      output := [Text("Usage: grep pattern file")];
    } else {
      var result := fs.Grep(pattern, target);
      if result.Err? {
        output := [Text(result.error)];
      } else {
        output := if result.value == [] then [Text("(no matches)")] else Texts(result.value);
      }
    }
  }

  /** The commands that can change the file system or the working directory. */
  predicate Writes(verb: Verb) {
    verb == Cd || verb == Touch || verb == Mkdir || verb == Rm || verb == Echo
  }

  /** The `switch (cmd)` of `executeCommand` on the live file system. */
  method Dispatch(line: string, fs: VirtualFileSystem, status: map<string, QuestStatus>,
                  byZone: map<string, nat>, tips: seq<string>, t: Tables) returns (output: seq<Line>)
    requires fs.Valid() && CommandDefined(line, fs.root, fs.cwd)
    modifies fs
    ensures fs.Valid()
    ensures Outcome(output, fs.root, fs.cwd) == RespondTo(line, old(fs.root), old(fs.cwd), status, byZone, tips, t)
  {
    if Writes(VerbOf(Command(line))) {
      output := DispatchWriter(line, fs);
    } else {
      output := DispatchReader(line, fs, status, byZone, tips, t);
    }
  }

  /** The cases of the switch that only read the file system. */
  method DispatchReader(line: string, fs: VirtualFileSystem, status: map<string, QuestStatus>,
                        byZone: map<string, nat>, tips: seq<string>, t: Tables) returns (output: seq<Line>)
    requires fs.Valid() && CommandDefined(line, fs.root, fs.cwd) && !Writes(VerbOf(Command(line)))
    ensures Outcome(output, fs.root, fs.cwd) == RespondTo(line, fs.root, fs.cwd, status, byZone, tips, t)
  {
    var cmd := Command(line);
    var args := Args(line);
    match VerbOf(cmd)
    case Help => output := RunHelp(status);
    case Clear => output := [Text("__clear__")];
    case Pwd => var path := fs.Pwd(); output := [Text(path)];
    case Ls => output := RunLs(fs, ArgOr(args, 0));
    case ShowBanner => output := [Art(Banner())];
    case Tutorial => output := RunTutorial(t, byZone, status);
    case Tips => var card := TutorialCard("Quick tips", tips); output := [Art(card)];
    case Cat =>
      var result := fs.Cat(ArgOr(args, 0));
      output := if result.Err? then [Text(result.error)] else [Text(result.value)];
    case Grep => output := RunGrep(fs, ArgOr(args, 0), ArgOr(args, 1));
    case Unknown => output := [Text("Unknown command: " + cmd)];
    case _ => assert false;
  }

  /** The cases of the switch that change the file system or the working
      directory. */
  method DispatchWriter(line: string, fs: VirtualFileSystem) returns (output: seq<Line>)
    requires fs.Valid() && CommandDefined(line, fs.root, fs.cwd) && Writes(VerbOf(Command(line)))
    modifies fs
    ensures fs.Valid()
    ensures forall status, byZone, tips, t ::
      Outcome(output, fs.root, fs.cwd) == RespondTo(line, old(fs.root), old(fs.cwd), status, byZone, tips, t)
  {
    var args := Args(line);
    match VerbOf(Command(line))
    case Cd => output := RunCd(fs, ArgOr(args, 0));
    case Touch => output := RunTouch(fs, ArgOr(args, 0));
    case Mkdir => output := RunMkdir(fs, ArgOr(args, 0));
    case Rm => output := RunRm(fs, ArgOr(args, 0));
    case Echo => output := RunEcho(fs, Join(args, " "));
    case _ => assert false;
  }

  /** `executeCommand` on a line with no grep stage. */
  method RunSingle(input: string, fs: VirtualFileSystem, state: GameState, tips: seq<string>, t: Tables, now: int)
    returns (output: seq<Line>, command: string)
    requires fs.Valid() && state.Valid() && (Trim(input) == "" || CommandDefined(Trim(input), fs.root, fs.cwd))
    modifies fs, state
    ensures fs.Valid() && state.Valid()
    ensures Run(output, command, fs.root, fs.cwd, state.commandLog)
         == Single(input, old(fs.root), old(fs.cwd), old(state.commandLog), old(state.questStatus),
                   old(state.completedByZone), tips, t, now)
    ensures state.Unlogged() == old(state.Unlogged())
  {
    var trimmed := Trim(input);
    if trimmed == "" {
      return [Text("")], "";
    }
    output := Dispatch(trimmed, fs, state.questStatus, state.completedByZone, tips, t);
    state.LogCommand(trimmed, LogText(output), now);
    command := trimmed;
  }

  /** `output.filter((line) => line.includes(pattern))`, or `(no matches)`. */
  method FilterLines(line: string, leftOutput: seq<Line>) returns (output: seq<Line>)
    requires '|' in line
    ensures output == PipeOutput(line, leftOutput)
  {
    SplitAtSeparator(line, '|');
    var right := Trim(Split(line, '|')[1]);
    var pattern := Join(Split(right, ' ')[1..], " ");
    var filtered := KeepLines(leftOutput, pattern);
    output := if filtered == [] then [Text("(no matches)")] else filtered;
  }

  /** The grep stage once its left side has run: filter its lines and log them. */
  method FilterAndLog(line: string, leftOutput: seq<Line>, state: GameState, now: int) returns (output: seq<Line>)
    requires state.Valid() && '|' in line
    modifies state
    ensures state.Valid()
    ensures output == PipeOutput(line, leftOutput)
    ensures state.commandLog == Logged(old(state.commandLog), LogEntry(line, LogText(output), now))
    ensures state.Unlogged() == old(state.Unlogged())
  {
    output := FilterLines(line, leftOutput);
    state.LogCommand(line, LogText(output), now);
  }

  /** The grep stage once its left side `l` has run on the live state. */
  method FinishPipe(line: string, ghost l: Run, leftOutput: seq<Line>, fs: VirtualFileSystem, state: GameState, now: int)
    returns (output: seq<Line>)
    requires state.Valid() && '|' in line
    requires leftOutput == l.output && state.commandLog == l.log && fs.root == l.root && fs.cwd == l.cwd
    modifies state
    ensures state.Valid()
    ensures Run(output, line, fs.root, fs.cwd, state.commandLog) == Piped(line, l, now)
    ensures state.Unlogged() == old(state.Unlogged())
  {
    output := FilterAndLog(line, leftOutput, state, now);
  }

  /** On a line with a grep stage, `Execute` is the stage over a `Single` run of the left side. */
  lemma ExecutePipe(input: string, root: Node, cwd: seq<string>, log: seq<LogEntry>, status: map<string, QuestStatus>,
                    byZone: map<string, nat>, tips: seq<string>, t: Tables, now: int)
    requires Defined(input, root, cwd, status) && Trim(input) != "" && IsGrepPipe(Trim(input))
    ensures LeftDefined(Trim(input), root, cwd)
    ensures Execute(input, root, cwd, log, status, byZone, tips, t, now)
         == Piped(Trim(input), Single(PipeLeft(Trim(input)), root, cwd, log, status, byZone, tips, t, now), now)
  {
  }

  /** `executeCommand` on a line with a grep stage. */
  method RunPipeLine(input: string, fs: VirtualFileSystem, state: GameState, tips: seq<string>, t: Tables, now: int)
    returns (output: seq<Line>, command: string)
    requires fs.Valid() && state.Valid() && Defined(input, fs.root, fs.cwd, state.questStatus)
    requires Trim(input) != "" && IsGrepPipe(Trim(input))
    modifies fs, state
    ensures fs.Valid() && state.Valid()
    ensures Run(output, command, fs.root, fs.cwd, state.commandLog)
         == Execute(input, old(fs.root), old(fs.cwd), old(state.commandLog), old(state.questStatus),
                    old(state.completedByZone), tips, t, now)
    ensures state.Unlogged() == old(state.Unlogged())
  {
    ExecutePipe(input, fs.root, fs.cwd, state.commandLog, state.questStatus, state.completedByZone, tips, t, now);
    command := Trim(input);
    var left := PipeLeft(command);
    ghost var l := Single(left, fs.root, fs.cwd, state.commandLog, state.questStatus, state.completedByZone, tips, t, now);
    var leftOutput, _ := RunSingle(left, fs, state, tips, t, now);
    output := FinishPipe(command, l, leftOutput, fs, state, now);
  }

  /** `executeCommand(input, fs, state)` with the quest and zone tables `t`
      (the game's are `Tables(Catalogue, Zones)`), the clock reading `now`
      for the log, and the tips `randomTips` drew. Only the file system and
      the command log change. */
  method ExecuteCommand(input: string, fs: VirtualFileSystem, state: GameState, tips: seq<string>, t: Tables, now: int)
    returns (output: seq<Line>, command: string)
    requires fs.Valid() && state.Valid() && Defined(input, fs.root, fs.cwd, state.questStatus)
    modifies fs, state
    ensures fs.Valid() && state.Valid()
    ensures Run(output, command, fs.root, fs.cwd, state.commandLog)
         == Execute(input, old(fs.root), old(fs.cwd), old(state.commandLog), old(state.questStatus),
                    old(state.completedByZone), tips, t, now)
    ensures state.Unlogged() == old(state.Unlogged())
  {
    var trimmed := Trim(input);
    if trimmed != "" && IsGrepPipe(trimmed) {
      output, command := RunPipeLine(input, fs, state, tips, t, now);
    } else {
      output, command := RunSingle(input, fs, state, tips, t, now);
    }
  }

  // ---------------------------------------------------------------------
  // Properties of the interpreter

  /** Blank or whitespace-only input prints one empty line and leaves the
      file system and the log alone. */
  lemma BlankInput(input: string, root: Node, cwd: seq<string>, log: seq<LogEntry>, status: map<string, QuestStatus>,
                   byZone: map<string, nat>, tips: seq<string>, t: Tables, now: int)
    requires AllWhitespace(input)
    ensures Defined(input, root, cwd, status)
    ensures Execute(input, root, cwd, log, status, byZone, tips, t, now) == Run([Text("")], "", root, cwd, log)
  {
    TrimEmptyIffBlank(input);
  }

  /** A non-blank line without a grep stage is logged once: the trimmed line
      with its output joined by newlines, as the last entry. */
  lemma LineLoggedOnce(input: string, root: Node, cwd: seq<string>, log: seq<LogEntry>, status: map<string, QuestStatus>,
                       byZone: map<string, nat>, tips: seq<string>, t: Tables, now: int)
    requires Defined(input, root, cwd, status) && Trim(input) != "" && !IsGrepPipe(Trim(input))
    ensures var r := Execute(input, root, cwd, log, status, byZone, tips, t, now);
      r.command == Trim(input) && r.log == Logged(log, LogEntry(Trim(input), LogText(r.output), now))
  {
  }

  /** A grep stage whose left side is not blank logs two entries: the left
      command with its own output first, then the whole line with the
      filtered output. The file system is what the left command left. */
  lemma PipeLoggedTwice(input: string, root: Node, cwd: seq<string>, log: seq<LogEntry>, status: map<string, QuestStatus>,
                        byZone: map<string, nat>, tips: seq<string>, t: Tables, now: int)
    requires Defined(input, root, cwd, status) && Trim(input) != "" && IsGrepPipe(Trim(input))
    requires PipeLeft(Trim(input)) != ""
    ensures CommandDefined(PipeLeft(Trim(input)), root, cwd)
    ensures var line := Trim(input);
      var left := RespondTo(PipeLeft(line), root, cwd, status, byZone, tips, t);
      var r := Execute(input, root, cwd, log, status, byZone, tips, t, now);
      r.command == line && r.output == PipeOutput(line, left.output)
      && r.root == left.root && r.cwd == left.cwd
      && r.log == Logged(Logged(log, LogEntry(PipeLeft(line), LogText(left.output), now)), LogEntry(line, LogText(r.output), now))
  {
    var line := Trim(input);
    TrimIdempotent(Split(line, '|')[0]);
    ExecutePipe(input, root, cwd, log, status, byZone, tips, t, now);
  }

  /** The grep stage keeps exactly the left lines that hold the pattern, and
      prints `(no matches)` when none does. */
  lemma PipeKeepsMatches(line: string, out: seq<Line>)
    requires '|' in line
    ensures var r := PipeOutput(line, out);
      var p := PipePattern(line);
      ((exists l :: l in out && Contains(Flat(l), p)) ==> forall l :: l in r <==> l in out && Contains(Flat(l), p))
      && ((forall l :: l in out ==> !Contains(Flat(l), p)) ==> r == [Text("(no matches)")])
  {
    var p := PipePattern(line);
    var kept := KeepLines(out, p);
    if kept != [] {
      assert kept[0] in kept;
    }
  }

  /** A grep stage over a one-line output prints that line or `(no matches)`. */
  lemma PipeOneLine(line: string, x: Line)
    requires '|' in line
    ensures PipeOutput(line, [x]) == [x] || PipeOutput(line, [x]) == [Text("(no matches)")]
  {
    KeepOne(x, PipePattern(line));
  }

  lemma KeepOne(x: Line, p: string)
    ensures KeepLines([x], p) == if Contains(Flat(x), p) then [x] else []
  {
    assert [x][1..] == [];
  }

  /** `ls` prints one line, so `ls | grep p` prints the whole listing or
      `(no matches)`, never single names. */
  lemma LsPipeWholeLine(line: string, root: Node, cwd: seq<string>, target: string)
    requires '|' in line
    ensures var o := LsOutput(root, cwd, target);
      PipeOutput(line, o) == o || PipeOutput(line, o) == [Text("(no matches)")]
  {
    var o := LsOutput(root, cwd, target);
    assert o == [o[0]];
    PipeOneLine(line, o[0]);
  }

  /** `help` shows the welcome card exactly until some quest is complete. */
  lemma HelpShowsCard(status: map<string, QuestStatus>)
    ensures var o := HelpOutput(status);
      o[|o| - 1] == Text(HelpLine)
      && ((exists k :: 0 <= k < |o| && o[k].Art?) <==> !HasCompletedQuest(status))
  {
    CardUntilComplete(status, Art(Box(BoxContent("Welcome to ShellQuest", WelcomeSteps))));
  }

  /** A card shown only while no quest is complete, ahead of a text line. */
  lemma CardUntilComplete(status: map<string, QuestStatus>, card: Line)
    requires card.Art?
    ensures var o := (if HasCompletedQuest(status) then [] else [card]) + [Text(HelpLine)];
      o[|o| - 1] == Text(HelpLine)
      && ((exists k :: 0 <= k < |o| && o[k].Art?) <==> !HasCompletedQuest(status))
  {
    var o := (if HasCompletedQuest(status) then [] else [card]) + [Text(HelpLine)];
    if !HasCompletedQuest(status) {
      assert o[0].Art?;
    }
  }

  /** Only `touch`, `mkdir`, `rm` and `echo` change the tree, and only `cd`
      changes the current directory. */
  lemma OnlyWritersChangeTree(line: string, root: Node, cwd: seq<string>, status: map<string, QuestStatus>,
                              byZone: map<string, nat>, tips: seq<string>, t: Tables)
    requires CommandDefined(line, root, cwd)
    ensures var o := RespondTo(line, root, cwd, status, byZone, tips, t);
      var verb := VerbOf(Command(line));
      (verb !in {Touch, Mkdir, Rm, Echo} ==> o.root == root) && (verb != Cd ==> o.cwd == cwd)
  {
    var o := RespondTo(line, root, cwd, status, byZone, tips, t);
    var args := Args(line);
    match VerbOf(Command(line))
    case Cd => assert o == CdOutcome(root, cwd, ArgOr(args, 0));
    case Touch => assert o == TouchOutcome(root, cwd, ArgOr(args, 0));
    case Mkdir => assert o == MkdirOutcome(root, cwd, ArgOr(args, 0));
    case Rm => assert o == RmOutcome(root, cwd, ArgOr(args, 0));
    case Echo => assert o == EchoOutcome(root, cwd, Join(args, " "));
    case _ =>
  }

  /** `touch`, `mkdir` and `rm` without a name print their usage line and
      leave the tree and the current directory unchanged. */
  lemma MissingName(line: string, root: Node, cwd: seq<string>, status: map<string, QuestStatus>,
                    byZone: map<string, nat>, tips: seq<string>, t: Tables)
    requires VerbOf(Command(line)) in {Touch, Mkdir, Rm} && ArgOr(Args(line), 0) == ""
    ensures CommandDefined(line, root, cwd)
    ensures var o := RespondTo(line, root, cwd, status, byZone, tips, t);
      var verb := VerbOf(Command(line));
      o.root == root && o.cwd == cwd
      && o.output == [Text(if verb == Touch then "Missing filename" else if verb == Mkdir then "Missing directory name" else "Missing target")]
  {
    var verb := VerbOf(Command(line));
    assert CommandDefined(line, root, cwd);
    var o := RespondTo(line, root, cwd, status, byZone, tips, t);
    if verb == Touch {
      assert o == TouchOutcome(root, cwd, "");
    } else if verb == Mkdir {
      assert o == MkdirOutcome(root, cwd, "");
    } else {
      assert o == RmOutcome(root, cwd, "");
    }
  }

  /** `grep` without both a pattern and a file prints its usage line. */
  lemma GrepUsage(line: string, root: Node, cwd: seq<string>, status: map<string, QuestStatus>,
                  byZone: map<string, nat>, tips: seq<string>, t: Tables)
    requires VerbOf(Command(line)) == Grep && (ArgOr(Args(line), 0) == "" || ArgOr(Args(line), 1) == "")
    ensures CommandDefined(line, root, cwd)
    ensures RespondTo(line, root, cwd, status, byZone, tips, t) == Outcome([Text("Usage: grep pattern file")], root, cwd)
  {
  }

  /** An unknown command word never throws: it is answered with
      `Unknown command: <word>`. */
  lemma UnknownCommand(line: string, root: Node, cwd: seq<string>, status: map<string, QuestStatus>,
                       byZone: map<string, nat>, tips: seq<string>, t: Tables)
    requires VerbOf(Command(line)) == Unknown
    ensures CommandDefined(line, root, cwd)
    ensures RespondTo(line, root, cwd, status, byZone, tips, t) == Outcome([Text("Unknown command: " + Command(line))], root, cwd)
  {
  }

  /** `cd` alone prints the current path when it exists. */
  lemma CdNoArgument(root: Node, cwd: seq<string>)
    requires CleanPath(cwd) && IsDir(Lookup(root, cwd))
    ensures CdOutcome(root, cwd, "") == Outcome([Text(PwdOf(cwd))], root, cwd)
  {
  }

  /** Binding a plain name under an existing directory makes the name
      resolve, from that directory, to the new node. */
  lemma SetChildResolves(root: Node, cwd: seq<string>, name: string, node: Node)
    requires CleanPath(cwd) && IsDir(Lookup(root, cwd)) && Name(name)
    ensures NonEmpty(cwd) == cwd
    ensures Lookup(SetChild(root, cwd, name, node), ResolvedPath(cwd, name)) == Some(node)
  {
    NonEmptyKeeps(cwd);
    LookupClean(root, cwd);
    var after := SetChild(root, cwd, name, node);
    SetChildEffect(root, cwd, name, node, []);
    ResolveChild(cwd, name);
    assert CleanPath(cwd + [name]);
    LookupClean(after, cwd + [name]);
    WalkAppend(after, cwd, name);
  }

  /** `echo text > name` into an existing directory writes the unquoted,
      trimmed text as the file `name` there. */
  lemma EchoIntoCwd(root: Node, cwd: seq<string>, text: string, name: string)
    requires CleanPath(cwd) && IsDir(Lookup(root, cwd))
    requires Name(name) && '>' !in name && Trim(name) == name
    ensures NonEmpty(cwd) == cwd
    ensures EchoOutcome(root, cwd, text + ">" + name)
         == Outcome([Text(StripQuotes(Trim(text)))], SetChild(root, cwd, name, File(StripQuotes(Trim(text)))), cwd)
  {
    EchoSplitsAtLast(text, name);
    SegmentsOne(name);
    NonEmptyKeeps(cwd);
  }

  /** `echo "text" > name` then `cat name` prints the text, unquoted and trimmed. */
  lemma EchoThenCat(root: Node, cwd: seq<string>, text: string, name: string)
    requires CleanPath(cwd) && IsDir(Lookup(root, cwd))
    requires Name(name) && '>' !in name && Trim(name) == name
    ensures var o := EchoOutcome(root, cwd, text + ">" + name);
      o.output == [Text(StripQuotes(Trim(text)))] && o.cwd == cwd
      && CatLine(o.root, cwd, name) == StripQuotes(Trim(text))
  {
    EchoIntoCwd(root, cwd, text, name);
    SetChildResolves(root, cwd, name, File(StripQuotes(Trim(text))));
  }

  /** `mkdir name` of a new name then `cd name` enters it. */
  lemma MkdirThenCd(root: Node, cwd: seq<string>, name: string)
    requires CleanPath(cwd) && IsDir(Lookup(root, cwd)) && Name(name)
    requires !HasChild(Lookup(root, cwd), name)
    ensures var o := MkdirOutcome(root, cwd, name);
      o.output == [Text("Created directory " + name)]
      && CdOutcome(o.root, cwd, name) == Outcome([Text(PwdOf(cwd + [name]))], o.root, cwd + [name])
  {
    var after := MkdirTree(root, cwd, name);
    MkdirEffect(root, cwd, name);
    ResolveChild(cwd, name);
    assert CleanPath(cwd + [name]);
    LookupClean(after, cwd + [name]);
    LookupClean(after, cwd);
    WalkAppend(after, cwd, name);
  }

  /** `touch name` of a new name then `cat name` prints the empty string. */
  lemma TouchThenCat(root: Node, cwd: seq<string>, name: string)
    requires CleanPath(cwd) && IsDir(Lookup(root, cwd)) && Name(name)
    requires !HasChild(Lookup(root, cwd), name)
    ensures CatLine(TouchOutcome(root, cwd, name).root, cwd, name) == ""
  {
    SetChildResolves(root, cwd, name, File(""));
  }

  /** After `rm name`, `cat name` finds nothing, whether or not the name existed. */
  lemma RmThenCat(root: Node, cwd: seq<string>, name: string)
    requires CleanPath(cwd) && Name(name)
    ensures var o := RmOutcome(root, cwd, name);
      CatLine(o.root, cwd, name) == "Not found"
      && o.output == [Text(if HasChild(Lookup(root, cwd), name) then "Removed " + name else "Not found")]
  {
    SegmentsOne(name);
    NonEmptyKeeps(cwd);
    LookupClean(root, cwd);
    ResolveChild(cwd, name);
    assert CleanPath(cwd + [name]);
    LookupClean(root, cwd + [name]);
    var o := RmOutcome(root, cwd, name);
    if HasChild(Lookup(root, cwd), name) {
      RemoveChildEffect(root, cwd, name, []);
      LookupClean(o.root, cwd + [name]);
      WalkAppend(o.root, cwd, name);
    } else {
      WalkAppend(root, cwd, name);
    }
  }
}
