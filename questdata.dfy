/** The zone and quest catalogue of the command-line engine
    (src/data/quests.ts): four zones holding 35 quests, the integrity checks
    its schema applies before the catalogue is used, and the queries over it. */
module QuestData {
  import opened Wrappers

  datatype Quest = Quest(id: string, zone: int, title: string, objective: string, command: string, challenge: bool)

  datatype Zone = Zone(id: int, name: string, quests: seq<Quest>)

  // ---------------------------------------------------------------------
  // The catalogue as written (`zonesData`)

  const Z1Q1: Quest := Quest("z1-q1", 1, "Waking Up",
      "Use pwd to find out where you are.",
      "pwd", false)
  const Z1Q2: Quest := Quest("z1-q2", 1, "First Steps",
      "Use cd to enter the workshop directory.",
      "cd workshop", false)
  const Z1Q3: Quest := Quest("z1-q3", 1, "Look Around",
      "Use ls to see available files.",
      "ls", false)
  const Z1Q4: Quest := Quest("z1-q4", 1, "Secret Corners",
      "Run ls -a to find hidden artifacts.",
      "ls -a", false)
  const Z1Q5: Quest := Quest("z1-q5", 1, "Manual Reading",
      "Open man ls to read flags.",
      "man ls", false)
  const Z1Q6: Quest := Quest("z1-q6", 1, "Copycat",
      "Use cp to duplicate starter.txt to notes.txt.",
      "cp starter.txt notes.txt", false)
  const Z1Q7: Quest := Quest("z1-q7", 1, "Moving Day",
      "Use mv to relocate notes.txt into /logs.",
      "mv notes.txt logs/", false)
  const Z1Q8: Quest := Quest("z1-q8", 1, "Trash Duty",
      "Use rm to delete scratch.tmp.",
      "rm scratch.tmp", false)
  const Z1Q9: Quest := Quest("z1-q9", 1, "Searcher",
      "Use grep to locate the word \"artifact\" in notes.",
      "grep \"artifact\" notes.txt", false)
  const Z1Q10: Quest := Quest("z1-q10", 1, "Trailblazer",
      "Use pipes to count log entries containing WARN.",
      "cat logs/app.log | grep WARN | wc -l", true)
  const FoundationsQuests: seq<Quest> := [Z1Q1, Z1Q2, Z1Q3, Z1Q4, Z1Q5, Z1Q6, Z1Q7, Z1Q8, Z1Q9, Z1Q10]

  const Z2Q1: Quest := Quest("z2-q1", 2, "Echo Chamber",
      "Create a quicknote.txt with echo.",
      "echo \"remember the flag\" > quicknote.txt", false)
  const Z2Q2: Quest := Quest("z2-q2", 2, "Appendix",
      "Use >> to add a line to quicknote.txt.",
      "echo \"second clue\" >> quicknote.txt", false)
  const Z2Q3: Quest := Quest("z2-q3", 2, "Stream Watcher",
      "Use tail -f on the mission.log.",
      "tail -f mission.log", false)
  const Z2Q4: Quest := Quest("z2-q4", 2, "Head Start",
      "Use head -n 5 to see the opening of diary.txt.",
      "head -n 5 diary.txt", false)
  const Z2Q5: Quest := Quest("z2-q5", 2, "Permission Slip",
      "Use chmod u+x scripts/run.sh to make it executable.",
      "chmod u+x scripts/run.sh", false)
  const Z2Q6: Quest := Quest("z2-q6", 2, "Owner Transfer",
      "Use chown engineer logs",
      "chown engineer logs", false)
  const Z2Q7: Quest := Quest("z2-q7", 2, "Linksmith",
      "Use ln -s reports/summary.txt latest-report.txt",
      "ln -s reports/summary.txt latest-report.txt", false)
  const Z2Q8: Quest := Quest("z2-q8", 2, "Archiver",
      "Use tar -czf backups/day1.tar.gz backups/day1",
      "tar -czf backups/day1.tar.gz backups/day1", false)
  const Z2Q9: Quest := Quest("z2-q9", 2, "Checksum Guardian",
      "Use sha256sum to confirm installer.bin.",
      "sha256sum installer.bin", false)
  const Z2Q10: Quest := Quest("z2-q10", 2, "Reliquary Keeper",
      "Set execute bit then archive scripts folder in a single line.",
      "chmod -R u+x scripts && tar -czf scripts.tar.gz scripts", true)
  const FilesmithsQuests: seq<Quest> := [Z2Q1, Z2Q2, Z2Q3, Z2Q4, Z2Q5, Z2Q6, Z2Q7, Z2Q8, Z2Q9, Z2Q10]

  const Z3Q1: Quest := Quest("z3-q1", 3, "Variable Scout",
      "Use env to list variables.",
      "env", false)
  const Z3Q2: Quest := Quest("z3-q2", 3, "Export Duty",
      "Use export CODE_NAME=nebula",
      "export CODE_NAME=nebula", false)
  const Z3Q3: Quest := Quest("z3-q3", 3, "Process Rollcall",
      "Use ps to view simulated processes.",
      "ps", false)
  const Z3Q4: Quest := Quest("z3-q4", 3, "Gentle Stop",
      "Use kill 202 to stop the log-watcher process.",
      "kill 202", false)
  const Z3Q5: Quest := Quest("z3-q5", 3, "History Lesson",
      "Use history to review prior commands.",
      "history", false)
  const Z3Q6: Quest := Quest("z3-q6", 3, "Scoped Export",
      "Use export PATH=/sim/bin:$PATH",
      "export PATH=/sim/bin:$PATH", false)
  const Z3Q7: Quest := Quest("z3-q7", 3, "Process Filter",
      "Use ps | grep watcher to locate a watcher task.",
      "ps | grep watcher", false)
  const Z3Q8: Quest := Quest("z3-q8", 3, "Silence the Storm",
      "Review history, then terminate the highest PID safely.",
      "history && kill 999", true)
  const ProcessGroundsQuests: seq<Quest> := [Z3Q1, Z3Q2, Z3Q3, Z3Q4, Z3Q5, Z3Q6, Z3Q7, Z3Q8]

  const Z4Q1: Quest := Quest("z4-q1", 4, "Pulse Check",
      "Use ping station",
      "ping station", false)
  const Z4Q2: Quest := Quest("z4-q2", 4, "Latency Watch",
      "Use ping -c 3 relay",
      "ping -c 3 relay", false)
  const Z4Q3: Quest := Quest("z4-q3", 4, "Service Peek",
      "Use curl https://status.quest.local",
      "curl https://status.quest.local", false)
  const Z4Q4: Quest := Quest("z4-q4", 4, "Header Hunter",
      "Use curl -I https://status.quest.local",
      "curl -I https://status.quest.local", false)
  const Z4Q5: Quest := Quest("z4-q5", 4, "Package Runway",
      "Use apt install tracer",
      "apt install tracer", false)
  const Z4Q6: Quest := Quest("z4-q6", 4, "Dual Package",
      "Use pacman -S monitor",
      "pacman -S monitor", false)
  const Z4Q7: Quest := Quest("z4-q7", 4, "Mesh Mastery",
      "Ping a host, curl a service, and ensure tracer is installed.",
      "ping mesh && curl https://mesh.quest.local && apt install tracer", true)
  const NetworkFrontierQuests: seq<Quest> := [Z4Q1, Z4Q2, Z4Q3, Z4Q4, Z4Q5, Z4Q6, Z4Q7]

  const ZonesData: seq<Zone> := [
    Zone(1, "Foundations", FoundationsQuests),
    Zone(2, "Filesmiths", FilesmithsQuests),
    Zone(3, "Process Grounds", ProcessGroundsQuests),
    Zone(4, "Network Frontier", NetworkFrontierQuests)
  ]

  // ---------------------------------------------------------------------
  // Flattening and counting

  /** `zones.flatMap((zone) => zone.quests)`. */
  function AllQuests(zs: seq<Zone>): (r: seq<Quest>)
    ensures forall q :: q in r <==> exists k :: 0 <= k < |zs| && q in zs[k].quests
  {
    if zs == [] then [] else zs[0].quests + AllQuests(zs[1..])
  }

  /** `zones.reduce((sum, zone) => sum + zone.quests.length, 0)`. */
  function QuestTotal(zs: seq<Zone>): nat {
    if zs == [] then 0 else |zs[0].quests| + QuestTotal(zs[1..])
  }

  /** Summing the zone sizes counts the flattened list. */
  lemma {:induction false} QuestTotalCountsAll(zs: seq<Zone>)
    ensures QuestTotal(zs) == |AllQuests(zs)|
  {
    if zs != [] {
      QuestTotalCountsAll(zs[1..]);
    }
  }

  predicate DistinctIds(qs: seq<Quest>) {
    forall i, j :: 0 <= i < j < |qs| ==> qs[i].id != qs[j].id
  }

  // ---------------------------------------------------------------------
  // The schema's refinement checks

  /** One issue the refinement reports; any issue makes `parse` throw. */
  datatype Issue = TooFewZones(count: nat) | WrongQuestCount(found: nat) | DuplicateId(id: string) | EmptyZone(zone: int)

  /** The `ids` set after the first loop has seen `qs`. */
  function Ids(qs: seq<Quest>): (r: set<string>)
    ensures forall x :: x in r <==> exists k :: 0 <= k < |qs| && qs[k].id == x
  {
    if qs == [] then {} else Ids(qs[..|qs| - 1]) + {qs[|qs| - 1].id}
  }

  /** The first loop's issues: each quest whose id an earlier quest already has. */
  function DuplicateIssues(qs: seq<Quest>): seq<Issue> {
    if qs == [] then []
    else
      var last := qs[|qs| - 1];
      DuplicateIssues(qs[..|qs| - 1]) + (if last.id in Ids(qs[..|qs| - 1]) then [DuplicateId(last.id)] else [])
  }

  /** The `zoneMap` after the second loop: quests counted per zone id. */
  function ZoneCounts(qs: seq<Quest>): (m: map<int, nat>)
  {
    if qs == [] then map[]
    else
      var m := ZoneCounts(qs[..|qs| - 1]);
      var z := qs[|qs| - 1].zone;
      m[z := (if z in m then m[z] else 0) + 1]
  }

  /** The zones counted are exactly the zones some quest names. */
  lemma {:induction false} ZoneCountsKeys(qs: seq<Quest>)
    ensures forall z :: z in ZoneCounts(qs) <==> exists k :: 0 <= k < |qs| && qs[k].zone == z
  {
    if qs != [] {
      var init := qs[..|qs| - 1];
      ZoneCountsKeys(init);
      assert forall k :: 0 <= k < |init| ==> init[k] == qs[k];
    }
  }

  /** The third loop's issues: each zone no quest names. */
  function EmptyZoneIssues(zs: seq<Zone>, counts: map<int, nat>): seq<Issue> {
    if zs == [] then []
    else
      var last := zs[|zs| - 1];
      EmptyZoneIssues(zs[..|zs| - 1], counts) + (if last.id in counts then [] else [EmptyZone(last.id)])
  }

  /** Every issue `zonesSchema` reports for `zones`, in the order it finds them:
      fewer than four zones, a quest count other than 35, repeated ids, and
      zones no quest points to. */
  function Issues(zs: seq<Zone>): seq<Issue> {
    var all := AllQuests(zs);
    (if |zs| < 4 then [TooFewZones(|zs|)] else [])
    + (if |all| != 35 then [WrongQuestCount(|all|)] else [])
    + DuplicateIssues(all)
    + EmptyZoneIssues(zs, ZoneCounts(all))
  }

  /** Appending a quest keeps ids distinct exactly when its id is new. */
  lemma DistinctSnoc(init: seq<Quest>, last: Quest)
    ensures DistinctIds(init + [last]) <==> DistinctIds(init) && last.id !in Ids(init)
  {
    var qs := init + [last];
    if DistinctIds(init) && last.id !in Ids(init) {
      forall i, j | 0 <= i < j < |qs| ensures qs[i].id != qs[j].id {
        assert qs[i] == init[i];
        if j < |init| {
          assert qs[j] == init[j];
        }
      }
    }
    if !DistinctIds(init) {
      var i, j :| 0 <= i < j < |init| && init[i].id == init[j].id;
      assert qs[i] == init[i] && qs[j] == init[j];
    }
    if last.id in Ids(init) {
      var k :| 0 <= k < |init| && init[k].id == last.id;
      assert qs[k] == init[k] && qs[|init|] == last;
    }
  }

  /** The first loop reports nothing exactly when the ids are distinct. */
  lemma {:induction false} DuplicateIssuesEmpty(qs: seq<Quest>)
    ensures DuplicateIssues(qs) == [] <==> DistinctIds(qs)
  {
    if qs != [] {
      var init := qs[..|qs| - 1];
      DuplicateIssuesEmpty(init);
      DistinctSnoc(init, qs[|qs| - 1]);
      assert init + [qs[|qs| - 1]] == qs;
    }
  }

  lemma {:induction false} EmptyZoneIssuesEmpty(zs: seq<Zone>, counts: map<int, nat>)
    ensures EmptyZoneIssues(zs, counts) == [] <==> forall k :: 0 <= k < |zs| ==> zs[k].id in counts
  {
    if zs != [] {
      var init := zs[..|zs| - 1];
      EmptyZoneIssuesEmpty(init, counts);
      assert forall k :: 0 <= k < |init| ==> init[k] == zs[k];
    }
  }

  /** The catalogue passes exactly when it has at least four zones, 35 quests
      with distinct ids, and a quest in every zone. */
  lemma IssuesEmptyIff(zs: seq<Zone>)
    ensures Issues(zs) == [] <==>
      |zs| >= 4 && |AllQuests(zs)| == 35 && DistinctIds(AllQuests(zs))
      && forall k :: 0 <= k < |zs| ==> exists i :: 0 <= i < |AllQuests(zs)| && AllQuests(zs)[i].zone == zs[k].id
  {
    var all := AllQuests(zs);
    DuplicateIssuesEmpty(all);
    EmptyZoneIssuesEmpty(zs, ZoneCounts(all));
    ZoneCountsKeys(all);
  }

  /** The first `forEach`: report each id already in `ids`, then add it. */
  method CollectDuplicates(all: seq<Quest>) returns (issues: seq<Issue>)
    ensures issues == DuplicateIssues(all)
  {
    issues := [];
    var ids: set<string> := {};
    for i := 0 to |all|
      invariant ids == Ids(all[..i])
      invariant issues == DuplicateIssues(all[..i])
    {
      assert all[..i + 1][..i] == all[..i];
      if all[i].id in ids {
        issues := issues + [DuplicateId(all[i].id)];
      }
      ids := ids + {all[i].id};
    }
    assert all[..|all|] == all;
  }

  /** The second `forEach`: count the quests of each zone id in `zoneMap`. */
  method CountZones(all: seq<Quest>) returns (zoneMap: map<int, nat>)
    ensures zoneMap == ZoneCounts(all)
  {
    zoneMap := map[];
    for i := 0 to |all|
      invariant zoneMap == ZoneCounts(all[..i])
    {
      var z := all[i].zone;
      var n: nat := if z in zoneMap then zoneMap[z] else 0;
      ZoneCountsStep(all, i);
      zoneMap := zoneMap[z := n + 1];
    }
    assert all[..|all|] == all;
  }

  lemma ZoneCountsStep(all: seq<Quest>, i: nat)
    requires i < |all|
    ensures var m := ZoneCounts(all[..i]);
      ZoneCounts(all[..i + 1]) == m[all[i].zone := (if all[i].zone in m then m[all[i].zone] else 0) + 1]
  {
    assert all[..i + 1][..i] == all[..i];
  }

  /** The third `forEach`: report each zone missing from `zoneMap`. */
  method CollectEmptyZones(zs: seq<Zone>, zoneMap: map<int, nat>) returns (issues: seq<Issue>)
    ensures issues == EmptyZoneIssues(zs, zoneMap)
  {
    issues := [];
    for k := 0 to |zs|
      invariant issues == EmptyZoneIssues(zs[..k], zoneMap)
    {
      assert zs[..k + 1][..k] == zs[..k];
      if zs[k].id !in zoneMap {
        issues := issues + [EmptyZone(zs[k].id)];
      }
    }
    assert zs[..|zs|] == zs;
  }

  /** The schema check over `zones`: the length check, then the superRefine
      pass with its three loops. */
  method Validate(zs: seq<Zone>) returns (issues: seq<Issue>)
    ensures issues == Issues(zs)
  {
    issues := if |zs| < 4 then [TooFewZones(|zs|)] else [];
    var all := AllQuests(zs);
    if |all| != 35 {
      issues := issues + [WrongQuestCount(|all|)];
    }
    var duplicates := CollectDuplicates(all);
    var zoneMap := CountZones(all);
    var empty := CollectEmptyZones(zs, zoneMap);
    issues := issues + duplicates + empty;
  }

  /** `zonesSchema.parse(zonesData)`: the data itself, or the issues it throws. */
  function Parse(zs: seq<Zone>): (r: Result<seq<Zone>>)
    ensures r.Ok? <==> Issues(zs) == []
    ensures r.Ok? ==> r.value == zs
  {
    if Issues(zs) == [] then Ok(zs) else Err("ZodError")
  }

  // ---------------------------------------------------------------------
  // The shipped catalogue passes its own checks

  /** The ids of a quest list, in order. */
  function IdsOf(qs: seq<Quest>): (r: seq<string>)
    ensures |r| == |qs| && forall i :: 0 <= i < |qs| ==> r[i] == qs[i].id
  {
    if qs == [] then [] else [qs[0].id] + IdsOf(qs[1..])
  }

  lemma {:induction false} IdsOfAppend(a: seq<Quest>, b: seq<Quest>)
    ensures IdsOf(a + b) == IdsOf(a) + IdsOf(b)
  {
    assert IdsOf(a + b) == IdsOf(a) + IdsOf(b) by {
      assert forall i :: 0 <= i < |a + b| ==> (a + b)[i].id == (IdsOf(a) + IdsOf(b))[i];
    }
  }

  /** Every id of the list has the zone digit `d` after its leading `z`. */
  predicate IdsInZone(qs: seq<Quest>, ds: set<char>) {
    forall i :: 0 <= i < |qs| ==> |qs[i].id| >= 2 && qs[i].id[1] in ds
  }

  predicate AllZone(qs: seq<Quest>, z: int) {
    forall i :: 0 <= i < |qs| ==> qs[i].zone == z
  }

  predicate DistinctStrings(s: seq<string>) {
    forall i, j :: 0 <= i < j < |s| ==> s[i] != s[j]
  }

  /** A zone's ids, when distinct and all marked with the zone's digit `d`. */
  lemma ZoneIds(qs: seq<Quest>, z: int, ids: seq<string>, d: char)
    requires IdsOf(qs) == ids && DistinctStrings(ids) && AllZone(qs, z)
    requires forall i :: 0 <= i < |ids| ==> |ids[i]| >= 2 && ids[i][1] == d
    ensures |qs| == |ids| && DistinctIds(qs) && IdsInZone(qs, {d})
  {
  }

  /** Two lists with distinct ids marked by disjoint digit sets join into a
      list with distinct ids. */
  lemma DistinctJoin(a: seq<Quest>, da: set<char>, b: seq<Quest>, db: set<char>)
    requires DistinctIds(a) && DistinctIds(b) && IdsInZone(a, da) && IdsInZone(b, db) && da !! db
    ensures DistinctIds(a + b) && IdsInZone(a + b, da + db)
  {
    forall i, j | 0 <= i < j < |a + b| ensures (a + b)[i].id != (a + b)[j].id {
      if i < |a| && j >= |a| {
        assert (a + b)[i] == a[i] && (a + b)[j] == b[j - |a|];
        assert (a + b)[i].id[1] in da && (a + b)[j].id[1] in db;
      }
    }
  }

  const FoundationsIds: seq<string> := ["z1-q1", "z1-q2", "z1-q3", "z1-q4", "z1-q5", "z1-q6", "z1-q7", "z1-q8", "z1-q9", "z1-q10"]

  lemma FoundationsIdsListed()
    ensures IdsOf(FoundationsQuests) == FoundationsIds
  {
    var front := [Z1Q1, Z1Q2, Z1Q3, Z1Q4, Z1Q5];
    var back := [Z1Q6, Z1Q7, Z1Q8, Z1Q9, Z1Q10];
    assert FoundationsQuests == front + back;
    IdsOfAppend(front, back);
    FoundationsFrontIds();
    FoundationsBackIds();
  }

  lemma FoundationsFrontIds()
    ensures IdsOf([Z1Q1, Z1Q2, Z1Q3, Z1Q4, Z1Q5]) == ["z1-q1", "z1-q2", "z1-q3", "z1-q4", "z1-q5"]
  {
    assert Z1Q1.id == "z1-q1";
    assert Z1Q2.id == "z1-q2";
    assert Z1Q3.id == "z1-q3";
    assert Z1Q4.id == "z1-q4";
    assert Z1Q5.id == "z1-q5";
  }

  lemma FoundationsBackIds()
    ensures IdsOf([Z1Q6, Z1Q7, Z1Q8, Z1Q9, Z1Q10]) == ["z1-q6", "z1-q7", "z1-q8", "z1-q9", "z1-q10"]
  {
    assert Z1Q6.id == "z1-q6";
    assert Z1Q7.id == "z1-q7";
    assert Z1Q8.id == "z1-q8";
    assert Z1Q9.id == "z1-q9";
    assert Z1Q10.id == "z1-q10";
  }

  lemma FoundationsIdsDistinct()
    ensures DistinctStrings(FoundationsIds)
    ensures forall i :: 0 <= i < |FoundationsIds| ==> |FoundationsIds[i]| >= 2 && FoundationsIds[i][1] == '1'
  {
  }

  lemma FoundationsInZone()
    ensures AllZone(FoundationsQuests, 1)
  {
  }

  /** The zone's 10 quests all belong to zone 1 and carry distinct ids marked `z1-`. */
  lemma FoundationsWellFormed()
    ensures |FoundationsQuests| == 10 && AllZone(FoundationsQuests, 1)
    ensures DistinctIds(FoundationsQuests) && IdsInZone(FoundationsQuests, {'1'})
  {
    FoundationsIdsListed();
    FoundationsIdsDistinct();
    FoundationsInZone();
    ZoneIds(FoundationsQuests, 1, FoundationsIds, '1');
  }

  const FilesmithsIds: seq<string> := ["z2-q1", "z2-q2", "z2-q3", "z2-q4", "z2-q5", "z2-q6", "z2-q7", "z2-q8", "z2-q9", "z2-q10"]

  lemma FilesmithsIdsListed()
    ensures IdsOf(FilesmithsQuests) == FilesmithsIds
  {
    var front := [Z2Q1, Z2Q2, Z2Q3, Z2Q4, Z2Q5];
    var back := [Z2Q6, Z2Q7, Z2Q8, Z2Q9, Z2Q10];
    assert FilesmithsQuests == front + back;
    IdsOfAppend(front, back);
    FilesmithsFrontIds();
    FilesmithsBackIds();
  }

  lemma FilesmithsFrontIds()
    ensures IdsOf([Z2Q1, Z2Q2, Z2Q3, Z2Q4, Z2Q5]) == ["z2-q1", "z2-q2", "z2-q3", "z2-q4", "z2-q5"]
  {
    assert Z2Q1.id == "z2-q1";
    assert Z2Q2.id == "z2-q2";
    assert Z2Q3.id == "z2-q3";
    assert Z2Q4.id == "z2-q4";
    assert Z2Q5.id == "z2-q5";
  }

  lemma FilesmithsBackIds()
    ensures IdsOf([Z2Q6, Z2Q7, Z2Q8, Z2Q9, Z2Q10]) == ["z2-q6", "z2-q7", "z2-q8", "z2-q9", "z2-q10"]
  {
    assert Z2Q6.id == "z2-q6";
    assert Z2Q7.id == "z2-q7";
    assert Z2Q8.id == "z2-q8";
    assert Z2Q9.id == "z2-q9";
    assert Z2Q10.id == "z2-q10";
  }

  lemma FilesmithsIdsDistinct()
    ensures DistinctStrings(FilesmithsIds)
    ensures forall i :: 0 <= i < |FilesmithsIds| ==> |FilesmithsIds[i]| >= 2 && FilesmithsIds[i][1] == '2'
  {
  }

  lemma FilesmithsInZone()
    ensures AllZone(FilesmithsQuests, 2)
  {
  }

  /** The zone's 10 quests all belong to zone 2 and carry distinct ids marked `z2-`. */
  lemma FilesmithsWellFormed()
    ensures |FilesmithsQuests| == 10 && AllZone(FilesmithsQuests, 2)
    ensures DistinctIds(FilesmithsQuests) && IdsInZone(FilesmithsQuests, {'2'})
  {
    FilesmithsIdsListed();
    FilesmithsIdsDistinct();
    FilesmithsInZone();
    ZoneIds(FilesmithsQuests, 2, FilesmithsIds, '2');
  }

  const ProcessGroundsIds: seq<string> := ["z3-q1", "z3-q2", "z3-q3", "z3-q4", "z3-q5", "z3-q6", "z3-q7", "z3-q8"]

  lemma ProcessGroundsIdsListed()
    ensures IdsOf(ProcessGroundsQuests) == ProcessGroundsIds
  {
    var front := [Z3Q1, Z3Q2, Z3Q3, Z3Q4];
    var back := [Z3Q5, Z3Q6, Z3Q7, Z3Q8];
    assert ProcessGroundsQuests == front + back;
    IdsOfAppend(front, back);
    ProcessGroundsFrontIds();
    ProcessGroundsBackIds();
  }

  lemma ProcessGroundsFrontIds()
    ensures IdsOf([Z3Q1, Z3Q2, Z3Q3, Z3Q4]) == ["z3-q1", "z3-q2", "z3-q3", "z3-q4"]
  {
    assert Z3Q1.id == "z3-q1";
    assert Z3Q2.id == "z3-q2";
    assert Z3Q3.id == "z3-q3";
    assert Z3Q4.id == "z3-q4";
  }

  lemma ProcessGroundsBackIds()
    ensures IdsOf([Z3Q5, Z3Q6, Z3Q7, Z3Q8]) == ["z3-q5", "z3-q6", "z3-q7", "z3-q8"]
  {
    assert Z3Q5.id == "z3-q5";
    assert Z3Q6.id == "z3-q6";
    assert Z3Q7.id == "z3-q7";
    assert Z3Q8.id == "z3-q8";
  }

  lemma ProcessGroundsIdsDistinct()
    ensures DistinctStrings(ProcessGroundsIds)
    ensures forall i :: 0 <= i < |ProcessGroundsIds| ==> |ProcessGroundsIds[i]| >= 2 && ProcessGroundsIds[i][1] == '3'
  {
  }

  lemma ProcessGroundsInZone()
    ensures AllZone(ProcessGroundsQuests, 3)
  {
  }

  /** The zone's 8 quests all belong to zone 3 and carry distinct ids marked `z3-`. */
  lemma ProcessGroundsWellFormed()
    ensures |ProcessGroundsQuests| == 8 && AllZone(ProcessGroundsQuests, 3)
    ensures DistinctIds(ProcessGroundsQuests) && IdsInZone(ProcessGroundsQuests, {'3'})
  {
    ProcessGroundsIdsListed();
    ProcessGroundsIdsDistinct();
    ProcessGroundsInZone();
    ZoneIds(ProcessGroundsQuests, 3, ProcessGroundsIds, '3');
  }

  const NetworkFrontierIds: seq<string> := ["z4-q1", "z4-q2", "z4-q3", "z4-q4", "z4-q5", "z4-q6", "z4-q7"]

  lemma NetworkFrontierIdsListed()
    ensures IdsOf(NetworkFrontierQuests) == NetworkFrontierIds
  {
    var front := [Z4Q1, Z4Q2, Z4Q3, Z4Q4];
    var back := [Z4Q5, Z4Q6, Z4Q7];
    assert NetworkFrontierQuests == front + back;
    IdsOfAppend(front, back);
    NetworkFrontierFrontIds();
    NetworkFrontierBackIds();
  }

  lemma NetworkFrontierFrontIds()
    ensures IdsOf([Z4Q1, Z4Q2, Z4Q3, Z4Q4]) == ["z4-q1", "z4-q2", "z4-q3", "z4-q4"]
  {
    assert Z4Q1.id == "z4-q1";
    assert Z4Q2.id == "z4-q2";
    assert Z4Q3.id == "z4-q3";
    assert Z4Q4.id == "z4-q4";
  }

  lemma NetworkFrontierBackIds()
    ensures IdsOf([Z4Q5, Z4Q6, Z4Q7]) == ["z4-q5", "z4-q6", "z4-q7"]
  {
    assert Z4Q5.id == "z4-q5";
    assert Z4Q6.id == "z4-q6";
    assert Z4Q7.id == "z4-q7";
  }

  lemma NetworkFrontierIdsDistinct()
    ensures DistinctStrings(NetworkFrontierIds)
    ensures forall i :: 0 <= i < |NetworkFrontierIds| ==> |NetworkFrontierIds[i]| >= 2 && NetworkFrontierIds[i][1] == '4'
  {
  }

  lemma NetworkFrontierInZone()
    ensures AllZone(NetworkFrontierQuests, 4)
  {
  }

  /** The zone's 7 quests all belong to zone 4 and carry distinct ids marked `z4-`. */
  lemma NetworkFrontierWellFormed()
    ensures |NetworkFrontierQuests| == 7 && AllZone(NetworkFrontierQuests, 4)
    ensures DistinctIds(NetworkFrontierQuests) && IdsInZone(NetworkFrontierQuests, {'4'})
  {
    NetworkFrontierIdsListed();
    NetworkFrontierIdsDistinct();
    NetworkFrontierInZone();
    ZoneIds(NetworkFrontierQuests, 4, NetworkFrontierIds, '4');
  }

  /** Four zones numbered 1 to 4 whose lists sum to 35 quests, each list
      non-empty, inside its own zone and with distinct ids marked by the
      zone's digit, raise no issue. */
  lemma FourZonesValid(zs: seq<Zone>, a: seq<Quest>, b: seq<Quest>, c: seq<Quest>, d: seq<Quest>)
    requires |zs| == 4 && zs[0].quests == a && zs[1].quests == b && zs[2].quests == c && zs[3].quests == d
    requires zs[0].id == 1 && zs[1].id == 2 && zs[2].id == 3 && zs[3].id == 4
    requires |a| > 0 && |b| > 0 && |c| > 0 && |d| > 0 && |a| + |b| + |c| + |d| == 35
    requires AllZone(a, 1) && AllZone(b, 2) && AllZone(c, 3) && AllZone(d, 4)
    requires DistinctIds(a) && DistinctIds(b) && DistinctIds(c) && DistinctIds(d)
    requires IdsInZone(a, {'1'}) && IdsInZone(b, {'2'}) && IdsInZone(c, {'3'}) && IdsInZone(d, {'4'})
    ensures AllQuests(zs) == a + b + c + d && DistinctIds(AllQuests(zs))
    ensures Issues(zs) == []
  {
    FlattenFour(zs, a, b, c, d);
    DistinctJoin(a, {'1'}, b, {'2'});
    DistinctJoin(a + b, {'1', '2'}, c, {'3'});
    DistinctJoin(a + b + c, {'1', '2', '3'}, d, {'4'});
    var all := AllQuests(zs);
    forall k | 0 <= k < |zs|
      ensures exists i :: 0 <= i < |all| && all[i].zone == zs[k].id
    {
      var i := if k == 0 then 0 else if k == 1 then |a| else if k == 2 then |a| + |b| else |a| + |b| + |c|;
      assert all[i] == zs[k].quests[0];
    }
    IssuesEmptyIff(zs);
  }

  lemma FlattenFour(zs: seq<Zone>, a: seq<Quest>, b: seq<Quest>, c: seq<Quest>, d: seq<Quest>)
    requires |zs| == 4 && zs[0].quests == a && zs[1].quests == b && zs[2].quests == c && zs[3].quests == d
    ensures AllQuests(zs) == a + b + c + d
  {
    assert AllQuests(zs[3..]) == d + AllQuests(zs[4..]);
    assert AllQuests(zs[2..]) == c + AllQuests(zs[3..]);
    assert AllQuests(zs[1..]) == b + AllQuests(zs[2..]);
  }

  lemma CatalogueZones()
    ensures |ZonesData| == 4
    ensures ZonesData[0].quests == FoundationsQuests && ZonesData[1].quests == FilesmithsQuests
    ensures ZonesData[2].quests == ProcessGroundsQuests && ZonesData[3].quests == NetworkFrontierQuests
    ensures ZonesData[0].id == 1 && ZonesData[1].id == 2 && ZonesData[2].id == 3 && ZonesData[3].id == 4
  {
  }

  /** The shipped catalogue raises no issue, so `parse` returns it unchanged:
      35 quests with distinct ids over four zones, each zone named by a quest. */
  lemma CatalogueValid()
    ensures |AllQuests(ZonesData)| == 35 && DistinctIds(AllQuests(ZonesData))
    ensures Issues(ZonesData) == [] && Parse(ZonesData) == Ok(ZonesData)
  {
    FoundationsWellFormed();
    FilesmithsWellFormed();
    ProcessGroundsWellFormed();
    NetworkFrontierWellFormed();
    CatalogueZones();
    FourZonesValid(ZonesData, FoundationsQuests, FilesmithsQuests, ProcessGroundsQuests, NetworkFrontierQuests);
  }

  // ---------------------------------------------------------------------
  // Queries over the parsed catalogue

  /** `zones`: what `parse` returns for the catalogue, which by
      `CatalogueValid` is the catalogue itself. */
  const Zones: seq<Zone> := ZonesData

  /** `totalQuestCount`. */
  const TotalQuestCount: nat := QuestTotal(Zones)

  lemma TotalQuestCountIs35()
    ensures TotalQuestCount == 35 && TotalQuestCount == |AllQuests(Zones)|
  {
    CatalogueValid();
    QuestTotalCountsAll(Zones);
  }

  /** `getQuestsByZone` over the zone list `zs`: the quests of the first zone
      whose id is `zoneId`, or none when no zone has it. */
  function QuestsByZone(zs: seq<Zone>, zoneId: int): (r: seq<Quest>)
    ensures (forall k :: 0 <= k < |zs| ==> zs[k].id != zoneId) ==> r == []
    ensures (exists k :: 0 <= k < |zs| && zs[k].id == zoneId) ==>
      exists k :: 0 <= k < |zs| && zs[k].id == zoneId && r == zs[k].quests
        && forall j :: 0 <= j < k ==> zs[j].id != zoneId
  {
    if zs == [] then []
    else if zs[0].id == zoneId then zs[0].quests
    else
      var rest := QuestsByZone(zs[1..], zoneId);
      assert forall j :: 0 <= j < |zs| - 1 ==> zs[1..][j] == zs[j + 1];
      rest
  }

  /** `getQuestsByZone`: each of the zone ids 1 to 4 yields its own quest
      list, every other id none. */
  lemma GetQuestsByZone(zoneId: int)
    ensures QuestsByZone(Zones, zoneId) ==
      if zoneId == 1 then FoundationsQuests
      else if zoneId == 2 then FilesmithsQuests
      else if zoneId == 3 then ProcessGroundsQuests
      else if zoneId == 4 then NetworkFrontierQuests
      else []
  {
    CatalogueZones();
    ByZoneOfFour(Zones, FoundationsQuests, FilesmithsQuests, ProcessGroundsQuests, NetworkFrontierQuests, zoneId);
  }

  /** Four zones numbered 1 to 4: each number yields its zone's quests. */
  lemma ByZoneOfFour(zs: seq<Zone>, a: seq<Quest>, b: seq<Quest>, c: seq<Quest>, d: seq<Quest>, zoneId: int)
    requires |zs| == 4 && zs[0].quests == a && zs[1].quests == b && zs[2].quests == c && zs[3].quests == d
    requires zs[0].id == 1 && zs[1].id == 2 && zs[2].id == 3 && zs[3].id == 4
    ensures QuestsByZone(zs, zoneId) ==
      if zoneId == 1 then a else if zoneId == 2 then b else if zoneId == 3 then c else if zoneId == 4 then d else []
  {
    if 1 <= zoneId <= 4 {
      var k :| 0 <= k < |zs| && zs[k].id == zoneId && QuestsByZone(zs, zoneId) == zs[k].quests
        && forall j :: 0 <= j < k ==> zs[j].id != zoneId;
      assert k == zoneId - 1;
    }
  }

  /** `masteryAchieved`: every quest of the zone is completed and the zone
      holds a challenge quest. */
  predicate MasteryAchieved(zone: Zone, completed: set<string>) {
    (forall i :: 0 <= i < |zone.quests| ==> zone.quests[i].id in completed)
    && exists i :: 0 <= i < |zone.quests| && zone.quests[i].challenge
  }

  /** Completing more quests never loses a zone's mastery. */
  lemma MasteryMonotone(zone: Zone, completed: set<string>, more: set<string>)
    requires completed <= more && MasteryAchieved(zone, completed)
    ensures MasteryAchieved(zone, more)
  {
  }

  /** Mastery over a list of quests through its last quest: the list is
      mastered exactly when its last quest is also completed. */
  lemma MasteryOfSnoc(zone: Zone, completed: set<string>)
    requires zone.quests != [] && zone.quests[|zone.quests| - 1].challenge
    ensures MasteryAchieved(zone, completed) <==>
      forall i :: 0 <= i < |zone.quests| ==> zone.quests[i].id in completed
  {
    if forall i :: 0 <= i < |zone.quests| ==> zone.quests[i].id in completed {
      assert zone.quests[|zone.quests| - 1].challenge;
    }
  }

  /** Every catalogue zone ends with a challenge quest, so each one is
      mastered exactly when all of its quests are completed. */
  lemma CatalogueMastery(k: int, completed: set<string>)
    requires 0 <= k < |Zones|
    ensures MasteryAchieved(Zones[k], completed) <==> Ids(Zones[k].quests) <= completed
  {
    CatalogueZones();
    ChallengesLast();
    MasteryOfSnoc(Zones[k], completed);
  }

  lemma ChallengesLast()
    ensures FoundationsQuests[9].challenge && FilesmithsQuests[9].challenge
    ensures ProcessGroundsQuests[7].challenge && NetworkFrontierQuests[6].challenge
  {
  }
}
