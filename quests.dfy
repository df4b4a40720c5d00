/** The quest catalogue of the terminal game (src/quests.js): each quest's
    success check over the command log and the file tree, and the zone gates. */
module Quests {
  import opened Wrappers
  import opened Strings
  import opened State
  import opened FileSystem

  /** The closed set of success checks the catalogue uses. */
  datatype Criterion =
    | UsedCommand(prefix: string)                 // commandUsed(state, prefix)
    | VisitedPath(path: string)                   // pathVisited(state, path)
    | NodeExists(parts: seq<string>)              // !!fs.getNode(parts)
    | CwdHasChild(name: string)                   // !!fs.getNode(fs.cwd)?.children?.[name]
    | CwdLacksChild(name: string)                 // !fs.getNode(fs.cwd)?.children?.[name]
    | FileContains(parts: seq<string>, needle: string)
    | CwdFileContains(name: string, needle: string)
    | CwdFile(name: string)
    | CwdFileAndCommand(name: string, prefix: string)
    | CommandContainsAll(pieces: seq<string>)     // some logged command includes every piece

  datatype Quest = Quest(id: string, zone: string, title: string, intro: string, goal: string,
                         hints: seq<string>, criterion: Criterion, rewards: Rewards)

  /** What unlocks a zone. */
  datatype Requirement = Always | AtLeast(zone: string, count: nat)

  datatype Zone = Zone(id: string, name: string, requirement: Requirement)

  const Zones: seq<Zone> := [
    Zone("zone1", "Terminal Plains", Always),
    Zone("zone2", "Filewood Forest", AtLeast("zone1", 6)),
    Zone("zone3", "Grep Caves", AtLeast("zone2", 6))
  ]

  // ---------------------------------------------------------------------
  // Reading the log and the tree

  /** `commandUsed(state, p)`: some logged command starts with `p`. */
  function CommandUsed(log: seq<LogEntry>, p: string): (b: bool)
    ensures b <==> exists k :: 0 <= k < |log| && StartsWith(log[k].command, p)
  {
    if log == [] then false
    else StartsWith(log[0].command, p) || (assert forall k :: 1 <= k < |log| ==> log[k] == log[1..][k - 1]; CommandUsed(log[1..], p))
  }

  /** `pathVisited(state, p)`: some logged output contains `p`. */
  function PathVisited(log: seq<LogEntry>, p: string): (b: bool)
    ensures b <==> exists k :: 0 <= k < |log| && Contains(log[k].output, p)
  {
    if log == [] then false
    else Contains(log[0].output, p) || (assert forall k :: 1 <= k < |log| ==> log[k] == log[1..][k - 1]; PathVisited(log[1..], p))
  }

  predicate ContainsAll(s: string, pieces: seq<string>) {
    forall j :: 0 <= j < |pieces| ==> Contains(s, pieces[j])
  }

  /** Some logged command includes every one of `pieces`. */
  function AnyCommandContainsAll(log: seq<LogEntry>, pieces: seq<string>): (b: bool)
    ensures b <==> exists k :: 0 <= k < |log| && ContainsAll(log[k].command, pieces)
  {
    if log == [] then false
    else ContainsAll(log[0].command, pieces) || (assert forall k :: 1 <= k < |log| ==> log[k] == log[1..][k - 1]; AnyCommandContainsAll(log[1..], pieces))
  }

  /** `fs.getNode(fs.cwd)?.children?.[name]`. */
  function CwdChild(root: Node, cwd: seq<string>, name: string): (r: Option<Node>)
    ensures r.Some? <==> HasChild(Lookup(root, cwd), name)
  {
    var here := Lookup(root, cwd);
    if HasChild(here, name) then Some(here.value.children[name]) else None
  }

  /** A quest's success check; it only reads the log and the tree. */
  function Holds(c: Criterion, log: seq<LogEntry>, root: Node, cwd: seq<string>): bool {
    match c
    case UsedCommand(p) => CommandUsed(log, p)
    case VisitedPath(p) => PathVisited(log, p)
    case NodeExists(parts) => Lookup(root, parts).Some?
    case CwdHasChild(name) => CwdChild(root, cwd, name).Some?
    case CwdLacksChild(name) => CwdChild(root, cwd, name).None?
    case FileContains(parts, needle) => IsFile(Lookup(root, parts)) && Contains(Lookup(root, parts).value.content, needle)
    case CwdFileContains(name, needle) => IsFile(CwdChild(root, cwd, name)) && Contains(CwdChild(root, cwd, name).value.content, needle)
    case CwdFile(name) => IsFile(CwdChild(root, cwd, name))
    case CwdFileAndCommand(name, p) => IsFile(CwdChild(root, cwd, name)) && CommandUsed(log, p)
    case CommandContainsAll(pieces) => AnyCommandContainsAll(log, pieces)
  }

  /** `quest.hints[0]`, read as `undefined` for a quest without hints. */
  function FirstHint(hints: seq<string>): string {
    if hints == [] then "undefined" else hints[0]
  }

  // ---------------------------------------------------------------------
  // The catalogue

  const PlainsQuests: seq<Quest> := [
    PlainsHelp, PlainsClear, PlainsPwd, PlainsLs,
    PlainsCd, PlainsMkdir, PlainsTouch, PlainsCat
  ]

  const ForestQuests: seq<Quest> := [
    ForestCatTrail, ForestTouchLog, ForestMkdir, ForestEcho,
    ForestRm, ForestCatPlan, ForestCdCamp, ForestLsGrep,
    ForestGrepRoots
  ]

  const CavesQuests: seq<Quest> := [
    CavesEchoRepeat, CavesTouchJournal, CavesEchoLines, CavesCdDepths,
    CavesLsGrep, CavesRmClean, CavesEchoStory, CavesGrepStory
  ]

  /** `quests`: the three zones' quests in order. */
  const Catalogue: seq<Quest> := PlainsQuests + ForestQuests + CavesQuests

  const PlainsHelp: Quest :=
    Quest("plains-help", "zone1", "Meet the Shell",
      "Explore the basics of ShellQuest.",
      "Use the help command to see available actions.",
      ["Type `help` and press enter."],
      UsedCommand("help"),
      Rewards(15, 5, Some("navigation")))

  const PlainsClear: Quest :=
    Quest("plains-clear", "zone1", "Fresh Screen",
      "A clear view is a calm mind.",
      "Clear the terminal.",
      ["Type `clear` to wipe the log."],
      UsedCommand("clear"),
      Rewards(15, 5, Some("navigation")))

  const PlainsPwd: Quest :=
    Quest("plains-pwd", "zone1", "Where am I?",
      "Location matters in the Plains.",
      "Check your working directory.",
      ["Use `pwd` to print the working directory."],
      UsedCommand("pwd"),
      Rewards(20, 6, Some("navigation")))

  const PlainsLs: Quest :=
    Quest("plains-ls", "zone1", "Survey the Fields",
      "List what is around you.",
      "Run ls to list the contents of the Plains.",
      ["`ls` shows files and folders."],
      UsedCommand("ls"),
      Rewards(20, 6, Some("navigation")))

  const PlainsCd: Quest :=
    Quest("plains-cd", "zone1", "Step into Tutorials",
      "Move between locations.",
      "Change directory into the tutorials folder.",
      ["`cd tutorials` should do it."],
      VisitedPath("/home/adventurer/tutorials"),
      Rewards(25, 7, Some("navigation")))

  const PlainsMkdir: Quest :=
    Quest("plains-mkdir", "zone1", "Make Space",
      "You can build your own corners.",
      "Create a directory named practice.",
      ["`mkdir practice` while in your home folder."],
      NodeExists(["home", "adventurer", "practice"]),
      Rewards(25, 8, Some("files")))

  const PlainsTouch: Quest :=
    Quest("plains-touch", "zone1", "First Note",
      "Create your own file.",
      "Use touch to create start.txt.",
      ["`touch start.txt`"],
      CwdHasChild("start.txt"),
      Rewards(25, 8, Some("files")))

  const PlainsCat: Quest :=
    Quest("plains-cat", "zone1", "Read the Welcome",
      "The Plains have simple lore.",
      "Read notes.txt using cat.",
      ["`cat notes.txt` from your home folder."],
      UsedCommand("cat notes.txt"),
      Rewards(30, 10, Some("text")))

  const ForestCatTrail: Quest :=
    Quest("forest-cat-trail", "zone2", "Follow the Trail",
      "Stories are etched into the woods.",
      "Read forest/trail.txt.",
      ["Try `cat forest/trail.txt`."],
      UsedCommand("cat forest/trail.txt"),
      Rewards(30, 12, Some("text")))

  const ForestTouchLog: Quest :=
    Quest("forest-touch-log", "zone2", "Write a Log",
      "Record your travels.",
      "Create travel.log with touch.",
      ["`touch travel.log`"],
      CwdHasChild("travel.log"),
      Rewards(30, 12, Some("files")))

  const ForestMkdir: Quest :=
    Quest("forest-mkdir", "zone2", "Build a Camp",
      "Prepare a base in the woods.",
      "Make a directory named camp.",
      ["`mkdir camp`"],
      CwdHasChild("camp"),
      Rewards(30, 12, Some("files")))

  const ForestEcho: Quest :=
    Quest("forest-echo", "zone2", "Leave a Message",
      "Trees remember what you write.",
      "Use echo to create camp/todo.txt with text.",
      ["`echo \"gather wood\" > camp/todo.txt`"],
      FileContains(["home", "adventurer", "camp", "todo.txt"], "gather"),
      Rewards(35, 14, Some("text")))

  const ForestRm: Quest :=
    Quest("forest-rm", "zone2", "Clear the Path",
      "Remove obstacles when needed.",
      "Delete travel.log.",
      ["Create it with touch if you have not."],
      CwdLacksChild("travel.log"),
      Rewards(35, 14, Some("files")))

  const ForestCatPlan: Quest :=
    Quest("forest-cat-plan", "zone2", "Read the Plan",
      "Plans guide your steps.",
      "Read camp/todo.txt.",
      ["`cat camp/todo.txt`"],
      UsedCommand("cat camp/todo.txt"),
      Rewards(35, 14, Some("text")))

  const ForestCdCamp: Quest :=
    Quest("forest-cd-camp", "zone2", "Enter the Camp",
      "Move into your new base.",
      "cd into camp directory.",
      ["`cd camp`"],
      VisitedPath("/home/adventurer/camp"),
      Rewards(35, 14, Some("navigation")))

  const ForestLsGrep: Quest :=
    Quest("forest-ls-grep", "zone2", "Filter the Underbrush",
      "Use a pipe to find files.",
      "Run ls piped to grep for txt.",
      ["`ls | grep txt`"],
      CommandContainsAll(["ls", "|", "grep"]),
      Rewards(40, 16, Some("text")))

  const ForestGrepRoots: Quest :=
    Quest("forest-grep-roots", "zone2", "Search the Roots",
      "Find mentions of roots.",
      "Use grep to find \"roots\" in forest/trail.txt.",
      ["`grep roots forest/trail.txt`"],
      UsedCommand("grep roots forest/trail.txt"),
      Rewards(40, 16, Some("text")))

  const CavesEchoRepeat: Quest :=
    Quest("caves-echo-repeat", "zone3", "Echoes in the Cave",
      "Find the repeating voice.",
      "Read caves/echo.txt with grep to find echo.",
      ["`grep echo caves/echo.txt`"],
      UsedCommand("grep echo caves/echo.txt"),
      Rewards(45, 18, Some("text")))

  const CavesTouchJournal: Quest :=
    Quest("caves-touch-journal", "zone3", "Document the Echoes",
      "Create a journal.",
      "Create journal.txt and add a line to it.",
      ["`touch journal.txt` then echo into it."],
      CwdFile("journal.txt"),
      Rewards(45, 18, Some("files")))

  const CavesEchoLines: Quest :=
    Quest("caves-echo-lines", "zone3", "Layered Notes",
      "Add multiple lines to a file and search them.",
      "Create lines in journal.txt and grep for cave.",
      ["Use echo with >> simulation (rewrite is fine)."],
      CwdFileAndCommand("journal.txt", "grep cave journal.txt"),
      Rewards(50, 20, Some("text")))

  const CavesCdDepths: Quest :=
    Quest("caves-cd-depths", "zone3", "Change Levels",
      "Move deeper while keeping bearings.",
      "cd into caves and back out.",
      ["`cd ../caves` then `cd ..`"],
      VisitedPath("/home/adventurer/caves"),
      Rewards(45, 18, Some("navigation")))

  const CavesLsGrep: Quest :=
    Quest("caves-ls-grep", "zone3", "Pipe Scout",
      "Use a pipe to search listing output.",
      "Use ls | grep echo",
      ["`ls | grep echo`"],
      CommandContainsAll(["ls | grep echo"]),
      Rewards(50, 20, Some("text")))

  const CavesRmClean: Quest :=
    Quest("caves-rm-clean", "zone3", "Clean Slate",
      "Remove a file you created.",
      "Remove journal.txt.",
      ["Use `rm journal.txt`."],
      CwdLacksChild("journal.txt"),
      Rewards(45, 18, Some("files")))

  const CavesEchoStory: Quest :=
    Quest("caves-echo-story", "zone3", "Tell a Cave Story",
      "Write a story file.",
      "Use echo to create story.txt with the word \"grep\" inside.",
      ["`echo \"grep adventure\" > story.txt`"],
      CwdFileContains("story.txt", "grep"),
      Rewards(55, 22, Some("text")))

  const CavesGrepStory: Quest :=
    Quest("caves-grep-story", "zone3", "Search Your Tale",
      "Use grep on your own writing.",
      "Run grep to find grep inside story.txt.",
      ["`grep grep story.txt`"],
      UsedCommand("grep grep story.txt"),
      Rewards(55, 22, Some("text")))

  predicate DistinctIds(qs: seq<Quest>) {
    forall i, j :: 0 <= i < j < |qs| ==> qs[i].id != qs[j].id
  }

  predicate AllIn(qs: seq<Quest>, zoneId: string) {
    forall i :: 0 <= i < |qs| ==> qs[i].zone == zoneId
  }

  predicate AllHinted(qs: seq<Quest>) {
    forall i :: 0 <= i < |qs| ==> |qs[i].hints| >= 1
  }

  /** Every id of the list starts with `c`. */
  predicate IdsLead(qs: seq<Quest>, c: char) {
    forall i :: 0 <= i < |qs| ==> |qs[i].id| >= 1 && qs[i].id[0] == c
  }

  lemma PlainsWellFormed()
    ensures |PlainsQuests| == 8 && AllIn(PlainsQuests, "zone1") && AllHinted(PlainsQuests)
    ensures IdsLead(PlainsQuests, 'p') && DistinctIds(PlainsQuests)
  {
    PlainsShape();
    PlainsDistinct();
  }

  lemma PlainsShape()
    ensures |PlainsQuests| == 8 && AllIn(PlainsQuests, "zone1") && AllHinted(PlainsQuests)
    ensures IdsLead(PlainsQuests, 'p')
  {
  }

  lemma PlainsDistinct()
    ensures DistinctIds(PlainsQuests)
  {
  }

  lemma ForestWellFormed()
    ensures |ForestQuests| == 9 && AllIn(ForestQuests, "zone2") && AllHinted(ForestQuests)
    ensures IdsLead(ForestQuests, 'f') && DistinctIds(ForestQuests)
  {
    ForestShape();
    ForestDistinct();
  }

  lemma ForestShape()
    ensures |ForestQuests| == 9 && AllIn(ForestQuests, "zone2") && AllHinted(ForestQuests)
    ensures IdsLead(ForestQuests, 'f')
  {
  }

  lemma ForestDistinct()
    ensures DistinctIds(ForestQuests)
  {
  }

  lemma CavesWellFormed()
    ensures |CavesQuests| == 8 && AllIn(CavesQuests, "zone3") && AllHinted(CavesQuests)
    ensures IdsLead(CavesQuests, 'c') && DistinctIds(CavesQuests)
  {
    CavesShape();
    CavesDistinct();
  }

  lemma CavesShape()
    ensures |CavesQuests| == 8 && AllIn(CavesQuests, "zone3") && AllHinted(CavesQuests)
    ensures IdsLead(CavesQuests, 'c')
  {
  }

  lemma CavesDistinct()
    ensures DistinctIds(CavesQuests)
  {
  }

  /** Two lists with distinct ids whose ids start with different letters
      join into a list with distinct ids. */
  lemma DistinctJoin(a: seq<Quest>, ca: char, b: seq<Quest>, cb: char)
    requires DistinctIds(a) && DistinctIds(b) && IdsLead(a, ca) && IdsLead(b, cb) && ca != cb
    ensures DistinctIds(a + b) && forall i :: 0 <= i < |a + b| ==> (a + b)[i].id[0] in {ca, cb}
  {
    forall i, j | 0 <= i < j < |a + b| ensures (a + b)[i].id != (a + b)[j].id {
      if i < |a| && j >= |a| {
        assert (a + b)[i].id[0] == ca && (a + b)[j].id[0] == cb;
      }
    }
  }

  /** Three lists with distinct ids led by three different letters, each
      wholly in one zone and hinted, join into one such list. */
  lemma JoinThree(a: seq<Quest>, b: seq<Quest>, c: seq<Quest>)
    requires DistinctIds(a) && IdsLead(a, 'p') && AllIn(a, "zone1") && AllHinted(a)
    requires DistinctIds(b) && IdsLead(b, 'f') && AllIn(b, "zone2") && AllHinted(b)
    requires DistinctIds(c) && IdsLead(c, 'c') && AllIn(c, "zone3") && AllHinted(c)
    ensures DistinctIds(a + b + c) && AllHinted(a + b + c)
    ensures forall i :: 0 <= i < |a + b + c| ==> (a + b + c)[i].zone in {"zone1", "zone2", "zone3"}
  {
    var ab := a + b;
    DistinctJoin(a, 'p', b, 'f');
    forall i, j | 0 <= i < j < |ab + c| ensures (ab + c)[i].id != (ab + c)[j].id {
      if j < |ab| {
        assert (ab + c)[i] == ab[i] && (ab + c)[j] == ab[j];
      } else if i >= |ab| {
        assert (ab + c)[i] == c[i - |ab|] && (ab + c)[j] == c[j - |ab|];
      } else {
        assert ab[i].id[0] in {'p', 'f'};
        assert (ab + c)[i] == ab[i] && (ab + c)[j] == c[j - |ab|];
      }
    }
    forall i | 0 <= i < |ab + c|
      ensures |(ab + c)[i].hints| >= 1 && (ab + c)[i].zone in {"zone1", "zone2", "zone3"}
    {
      if i < |a| { assert (ab + c)[i] == a[i]; }
      else if i < |ab| { assert (ab + c)[i] == b[i - |a|]; }
      else { assert (ab + c)[i] == c[i - |ab|]; }
    }
  }

  /** The catalogue has 25 quests with distinct ids, each in one of the three
      zones and carrying at least one hint. */
  lemma CatalogueWellFormed()
    ensures |Catalogue| == 25 && DistinctIds(Catalogue) && AllHinted(Catalogue)
    ensures forall i :: 0 <= i < |Catalogue| ==> Catalogue[i].zone in {"zone1", "zone2", "zone3"}
  {
    PlainsWellFormed();
    ForestWellFormed();
    CavesWellFormed();
    JoinThree(PlainsQuests, ForestQuests, CavesQuests);
  }

  // ---------------------------------------------------------------------
  // Zones and completion

  /** `zones.find((z) => z.id === zoneId)`. */
  function FindZone(zs: seq<Zone>, id: string): (r: Option<Zone>)
    ensures r.Some? ==> r.value in zs && r.value.id == id
    ensures r.None? ==> forall k :: 0 <= k < |zs| ==> zs[k].id != id
  {
    if zs == [] then None else if zs[0].id == id then Some(zs[0]) else FindZone(zs[1..], id)
  }

  /** `stats.completedQuestsByZone[zone] || 0`. */
  function CompletedIn(byZone: map<string, nat>, zone: string): nat {
    if zone in byZone then byZone[zone] else 0
  }

  function Met(r: Requirement, byZone: map<string, nat>): bool {
    match r
    case Always => true
    case AtLeast(z, n) => CompletedIn(byZone, z) >= n
  }

  /** A zone is open when the zone table `zs` does not know it or when its
      requirement is met. */
  function UnlockedIn(zs: seq<Zone>, byZone: map<string, nat>, zoneId: string): bool {
    var z := FindZone(zs, zoneId);
    z.None? || Met(z.value.requirement, byZone)
  }

  /** `zoneUnlocked(state, zoneId)`: the game's own zone table decides. */
  function ZoneUnlocked(byZone: map<string, nat>, zoneId: string): bool {
    UnlockedIn(Zones, byZone, zoneId)
  }

  /** The gates: zone 1 is always open, zones 2 and 3 need six completions in the
      zone before them, and any other id is open. */
  lemma ZoneRules(byZone: map<string, nat>, other: string)
    ensures ZoneUnlocked(byZone, "zone1")
    ensures ZoneUnlocked(byZone, "zone2") <==> CompletedIn(byZone, "zone1") >= 6
    ensures ZoneUnlocked(byZone, "zone3") <==> CompletedIn(byZone, "zone2") >= 6
    ensures other != "zone1" && other != "zone2" && other != "zone3" ==> ZoneUnlocked(byZone, other)
  {
    assert Zones[0].id == "zone1" && Zones[1].id == "zone2" && Zones[2].id == "zone3";
    assert FindZone(Zones, "zone2") == Some(Zones[1]);
    assert FindZone(Zones, "zone3") == Some(Zones[2]);
  }

  /** `isQuestComplete(state, questId)`. */
  predicate IsQuestComplete(status: map<string, QuestStatus>, questId: string) {
    questId in status && status[questId].completed
  }

  /** `quests.filter((q) => q.zone === zoneId)` over any list of quests. */
  function QuestsIn(qs: seq<Quest>, zoneId: string): (r: seq<Quest>)
    ensures |r| <= |qs|
    ensures forall q :: q in r <==> q in qs && q.zone == zoneId
  {
    if qs == [] then []
    else if qs[0].zone == zoneId then [qs[0]] + QuestsIn(qs[1..], zoneId)
    else QuestsIn(qs[1..], zoneId)
  }

  /** `availableQuests(state, zoneId)`: the zone's quests in catalogue order;
      the state plays no part. */
  function AvailableQuests(zoneId: string): (r: seq<Quest>)
    ensures forall q :: q in r <==> q in Catalogue && q.zone == zoneId
  {
    QuestsIn(Catalogue, zoneId)
  }

  /** Filtering keeps the catalogue order: the result is the list with the
      other zones' quests taken out, so filtering twice changes nothing and
      splitting the list splits the result. */
  lemma {:induction false} QuestsInAppend(a: seq<Quest>, b: seq<Quest>, zoneId: string)
    ensures QuestsIn(a + b, zoneId) == QuestsIn(a, zoneId) + QuestsIn(b, zoneId)
  {
    if a == [] {
      assert a + b == b;
    } else {
      assert (a + b)[0] == a[0] && (a + b)[1..] == a[1..] + b;
      QuestsInAppend(a[1..], b, zoneId);
    }
  }

  lemma {:induction false} QuestsInAll(qs: seq<Quest>, zoneId: string)
    requires AllIn(qs, zoneId)
    ensures QuestsIn(qs, zoneId) == qs
  {
    if qs != [] {
      QuestsInAll(qs[1..], zoneId);
    }
  }

  lemma {:induction false} QuestsInNone(qs: seq<Quest>, other: string, zoneId: string)
    requires AllIn(qs, other) && other != zoneId
    ensures QuestsIn(qs, zoneId) == []
  {
    if qs != [] {
      QuestsInNone(qs[1..], other, zoneId);
    }
  }

  /** Filtering three blocks, each wholly in its own zone, gives back the
      block of the zone asked for. */
  lemma BlocksByZone(a: seq<Quest>, za: string, b: seq<Quest>, zb: string, c: seq<Quest>, zc: string)
    requires AllIn(a, za) && AllIn(b, zb) && AllIn(c, zc)
    requires za != zb && zb != zc && za != zc
    ensures QuestsIn(a + b + c, za) == a
    ensures QuestsIn(a + b + c, zb) == b
    ensures QuestsIn(a + b + c, zc) == c
  {
    QuestsInAppend(a + b, c, za);
    QuestsInAppend(a, b, za);
    QuestsInAll(a, za);
    QuestsInNone(b, zb, za);
    QuestsInNone(c, zc, za);
    QuestsInAppend(a + b, c, zb);
    QuestsInAppend(a, b, zb);
    QuestsInNone(a, za, zb);
    QuestsInAll(b, zb);
    QuestsInNone(c, zc, zb);
    QuestsInAppend(a + b, c, zc);
    QuestsInAppend(a, b, zc);
    QuestsInNone(a, za, zc);
    QuestsInNone(b, zb, zc);
    QuestsInAll(c, zc);
  }

  /** Each zone offers exactly its own block of the catalogue, in order:
      8 quests in zone 1, 9 in zone 2 and 8 in zone 3. */
  lemma ZoneQuests()
    ensures AvailableQuests("zone1") == PlainsQuests && |PlainsQuests| == 8
    ensures AvailableQuests("zone2") == ForestQuests && |ForestQuests| == 9
    ensures AvailableQuests("zone3") == CavesQuests && |CavesQuests| == 8
  {
    PlainsWellFormed();
    ForestWellFormed();
    CavesWellFormed();
    BlocksByZone(PlainsQuests, "zone1", ForestQuests, "zone2", CavesQuests, "zone3");
  }

  // ---------------------------------------------------------------------
  // Facts about particular quests

  /** `plains-mkdir` holds exactly when `/home/adventurer/practice` exists. */
  lemma PlainsMkdirCheck(log: seq<LogEntry>, root: Node, cwd: seq<string>)
    ensures Catalogue[5] == PlainsMkdir
    ensures Holds(PlainsMkdir.criterion, log, root, cwd) <==> Lookup(root, ["home", "adventurer", "practice"]).Some?
  {
  }

  /** `forest-rm` and `caves-rm-clean` ask only that the file be absent from
      the current directory, so a fresh game already satisfies them. */
  lemma RemovalQuestsHoldWhenAbsent(log: seq<LogEntry>, root: Node, cwd: seq<string>)
    ensures Catalogue[12] == ForestRm && Catalogue[22] == CavesRmClean
    ensures Holds(ForestRm.criterion, log, root, cwd) <==> !HasChild(Lookup(root, cwd), "travel.log")
    ensures Holds(CavesRmClean.criterion, log, root, cwd) <==> !HasChild(Lookup(root, cwd), "journal.txt")
    ensures Holds(ForestRm.criterion, [], StarterTree, HomeDir)
  {
    StarterLayout();
  }
}
