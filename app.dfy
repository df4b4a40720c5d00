/** The game loop's bookkeeping (src/app.js): the quest pass after each
    command, coins earned while away, the daily streak and the hint
    cooldown. Clock readings are the parameter `now`, in milliseconds. */
module App {
  import opened Strings
  import opened State
  import opened FileSystem
  import opened Quests

  // ---------------------------------------------------------------------
  // The quest pass

  /** What a quest pass reads but never changes: the zone table, the upgrade
      levels, the command log, the file tree, the current directory and the clock. */
  datatype Scene = Scene(zones: seq<Zone>, upgrades: Upgrades, log: seq<LogEntry>, root: Node, cwd: seq<string>, now: int)

  /** What a quest pass changes, and the quests it rewarded so far, in order. */
  datatype Progress = Progress(player: Player, status: map<string, QuestStatus>, byZone: map<string, nat>, rewarded: seq<Quest>)

  /** The pass looks at a quest only when it is not yet complete and its zone
      is unlocked by the counts as they stand at that moment. */
  predicate Eligible(pr: Progress, q: Quest, zones: seq<Zone>) {
    !IsQuestComplete(pr.status, q.id) && UnlockedIn(zones, pr.byZone, q.zone)
  }

  /** One turn of the `quests.forEach` in `checkQuests`. */
  function Visit(pr: Progress, q: Quest, sc: Scene): (r: Progress)
    requires pr.player.level >= 1
    ensures r.player.level >= 1
  {
    if Eligible(pr, q, sc.zones) && Holds(q.criterion, sc.log, sc.root, sc.cwd) then
      Progress(Rewarded(pr.player, sc.upgrades, q.rewards), pr.status[q.id := QuestStatus(true, sc.now)],
               CountedZones(pr.byZone, pr.status, q.id, q.zone), pr.rewarded + [q])
    else pr
  }

  /** The whole pass over `qs`, front to back. */
  function Checked(pr: Progress, qs: seq<Quest>, sc: Scene): (r: Progress)
    requires pr.player.level >= 1
    ensures r.player.level >= 1
    decreases |qs|
  {
    if qs == [] then pr else Checked(Visit(pr, qs[0], sc), qs[1..], sc)
  }

  /** A turn rewards at most the quest it looks at. */
  lemma VisitRewards(pr: Progress, q: Quest, sc: Scene)
    requires pr.player.level >= 1
    ensures Visit(pr, q, sc).rewarded == pr.rewarded || Visit(pr, q, sc).rewarded == pr.rewarded + [q]
  {
  }

  /** A turn on an eligible quest whose check holds completes and rewards it. */
  lemma VisitTakes(pr: Progress, q: Quest, sc: Scene)
    requires pr.player.level >= 1 && Eligible(pr, q, sc.zones) && Holds(q.criterion, sc.log, sc.root, sc.cwd)
    ensures var m := Visit(pr, q, sc);
      m.rewarded == pr.rewarded + [q] && m.status == pr.status[q.id := QuestStatus(true, sc.now)]
      && m.byZone == CountedZones(pr.byZone, pr.status, q.id, q.zone)
  {
  }

  /** A pass over two quests is two turns. */
  lemma CheckedTwo(pr: Progress, q1: Quest, q2: Quest, sc: Scene)
    requires pr.player.level >= 1
    ensures Checked(pr, [q1, q2], sc) == Visit(Visit(pr, q1, sc), q2, sc)
  {
    var mid := Visit(pr, q1, sc);
    assert [q1, q2][1..] == [q2];
    assert Checked(pr, [q1, q2], sc) == Checked(mid, [q2], sc);
    assert Checked(mid, [q2], sc) == Checked(Visit(mid, q2, sc), [], sc);
  }

  /** A completed quest stays completed, with its original status, and no
      status entry ever disappears. */
  lemma {:induction false} CheckedKeepsCompletion(pr: Progress, qs: seq<Quest>, sc: Scene, id: string)
    requires pr.player.level >= 1
    ensures id in pr.status ==> id in Checked(pr, qs, sc).status
    ensures IsQuestComplete(pr.status, id) ==> Checked(pr, qs, sc).status[id] == pr.status[id]
    decreases |qs|
  {
    if qs != [] {
      CheckedKeepsCompletion(Visit(pr, qs[0], sc), qs[1..], sc, id);
    }
  }

  /** A pass only appends to the rewarded list, and only quests of `qs`. */
  lemma {:induction false} CheckedAppends(pr: Progress, qs: seq<Quest>, sc: Scene)
    requires pr.player.level >= 1
    ensures var r := Checked(pr, qs, sc);
      |r.rewarded| >= |pr.rewarded| && r.rewarded[..|pr.rewarded|] == pr.rewarded
      && forall k :: |pr.rewarded| <= k < |r.rewarded| ==> r.rewarded[k] in qs
    decreases |qs|
  {
    if qs != [] {
      var mid := Visit(pr, qs[0], sc);
      VisitRewards(pr, qs[0], sc);
      CheckedAppends(mid, qs[1..], sc);
      var r := Checked(mid, qs[1..], sc);
      var n := |pr.rewarded|;
      var m := |mid.rewarded|;
      assert r.rewarded[..m] == mid.rewarded;
      assert r.rewarded[..n] == r.rewarded[..m][..n] == mid.rewarded[..n];
      forall k | n <= k < |r.rewarded| ensures r.rewarded[k] in qs {
        if k < m {
          assert r.rewarded[k] == mid.rewarded[k] == qs[0];
        } else {
          assert r.rewarded[k] in qs[1..];
        }
      }
    }
  }

  /** The quests a pass rewards were incomplete before it and are complete
      after it. */
  lemma {:induction false} CheckedRewardsIncomplete(pr: Progress, qs: seq<Quest>, sc: Scene)
    requires pr.player.level >= 1
    ensures var r := Checked(pr, qs, sc);
      forall k :: |pr.rewarded| <= k < |r.rewarded| ==>
        !IsQuestComplete(pr.status, r.rewarded[k].id) && IsQuestComplete(r.status, r.rewarded[k].id)
    decreases |qs|
  {
    if qs != [] {
      var q := qs[0];
      var mid := Visit(pr, q, sc);
      CheckedRewardsIncomplete(mid, qs[1..], sc);
      CheckedAppends(mid, qs[1..], sc);
      CheckedKeepsCompletion(mid, qs[1..], sc, q.id);
      var r := Checked(mid, qs[1..], sc);
      forall k | |pr.rewarded| <= k < |r.rewarded|
        ensures !IsQuestComplete(pr.status, r.rewarded[k].id) && IsQuestComplete(r.status, r.rewarded[k].id)
      {
        if k < |mid.rewarded| {
          assert mid != pr && k == |pr.rewarded|;
          assert r.rewarded[k] == mid.rewarded[k] == q;
        } else if IsQuestComplete(pr.status, r.rewarded[k].id) {
          assert IsQuestComplete(mid.status, r.rewarded[k].id);
        }
      }
    }
  }

  /** No pass rewards a quest twice, even one listed twice. */
  lemma {:induction false} CheckedRewardsDistinct(pr: Progress, qs: seq<Quest>, sc: Scene)
    requires pr.player.level >= 1
    ensures var r := Checked(pr, qs, sc);
      forall i, j :: |pr.rewarded| <= i < j < |r.rewarded| ==> r.rewarded[i].id != r.rewarded[j].id
    decreases |qs|
  {
    if qs != [] {
      var q := qs[0];
      var mid := Visit(pr, q, sc);
      CheckedRewardsDistinct(mid, qs[1..], sc);
      if mid != pr {
        CheckedRewardsIncomplete(mid, qs[1..], sc);
        CheckedAppends(mid, qs[1..], sc);
        var r := Checked(mid, qs[1..], sc);
        var n := |pr.rewarded|;
        assert r.rewarded[n] == mid.rewarded[n] == q;
        forall i, j | n <= i < j < |r.rewarded| ensures r.rewarded[i].id != r.rewarded[j].id {
          if i == n {
            assert !IsQuestComplete(mid.status, r.rewarded[j].id);
          }
        }
      }
    }
  }

  /** The quests a pass rewards come from the list, were all incomplete
      before the pass, are all complete after it, and are pairwise distinct. */
  lemma CheckedRewardsFresh(pr: Progress, qs: seq<Quest>, sc: Scene)
    requires pr.player.level >= 1
    ensures var r := Checked(pr, qs, sc);
      |r.rewarded| >= |pr.rewarded| && r.rewarded[..|pr.rewarded|] == pr.rewarded
      && (forall k :: |pr.rewarded| <= k < |r.rewarded| ==>
            r.rewarded[k] in qs && !IsQuestComplete(pr.status, r.rewarded[k].id)
            && IsQuestComplete(r.status, r.rewarded[k].id))
      && (forall i, j :: |pr.rewarded| <= i < j < |r.rewarded| ==> r.rewarded[i].id != r.rewarded[j].id)
  {
    CheckedAppends(pr, qs, sc);
    CheckedRewardsIncomplete(pr, qs, sc);
    CheckedRewardsDistinct(pr, qs, sc);
  }

  /** Across two passes, no quest is rewarded in both. */
  lemma RewardedOnceAcrossPasses(pr: Progress, qs: seq<Quest>, sc: Scene, qs': seq<Quest>, sc': Scene)
    requires pr.player.level >= 1
    ensures var a := Checked(pr, qs, sc);
      var b := Checked(a, qs', sc');
      forall i, j :: |pr.rewarded| <= i < |a.rewarded| <= j < |b.rewarded| ==> a.rewarded[i].id != b.rewarded[j].id
  {
    var a := Checked(pr, qs, sc);
    var b := Checked(a, qs', sc');
    CheckedRewardsFresh(pr, qs, sc);
    CheckedRewardsFresh(a, qs', sc');
  }

  /** A pass over quests that all sit in a locked zone changes nothing, since
      no completion can unlock that zone during the pass. */
  lemma {:induction false} LockedZoneWaits(pr: Progress, qs: seq<Quest>, sc: Scene, zone: string)
    requires pr.player.level >= 1
    requires !UnlockedIn(sc.zones, pr.byZone, zone)
    requires forall k :: 0 <= k < |qs| ==> qs[k].zone == zone
    ensures Checked(pr, qs, sc) == pr
    decreases |qs|
  {
    if qs != [] {
      assert Visit(pr, qs[0], sc) == pr;
      LockedZoneWaits(pr, qs[1..], sc, zone);
    }
  }

  /** A sixth `zone1` completion opens `zone2`. */
  lemma SixthCompletionUnlocks(byZone: map<string, nat>, status: map<string, QuestStatus>, id: string)
    requires CompletedIn(byZone, "zone1") == 5 && id !in status
    ensures ZoneUnlocked(byZone, "zone1")
    ensures ZoneUnlocked(CountedZones(byZone, status, id, "zone1"), "zone2")
  {
    var after := CountedZones(byZone, status, id, "zone1");
    CountedZonesEffect(byZone, status, id, "zone1", "zone1");
    ZoneRules(byZone, "zone1");
    ZoneRules(after, "zone1");
  }

  /** Zone gates are read afresh for every quest: with five `zone1`
      completions, completing a sixth unlocks `zone2` for the next quest
      in the same pass. */
  lemma UnlockWithinPass(pr: Progress, q1: Quest, q2: Quest, sc: Scene)
    requires pr.player.level >= 1 && sc.zones == Zones
    requires CompletedIn(pr.byZone, "zone1") == 5
    requires q1.zone == "zone1" && q1.id !in pr.status && Holds(q1.criterion, sc.log, sc.root, sc.cwd)
    requires q2.zone == "zone2" && q2.id != q1.id && !IsQuestComplete(pr.status, q2.id)
    requires Holds(q2.criterion, sc.log, sc.root, sc.cwd)
    ensures Checked(pr, [q1, q2], sc).rewarded == pr.rewarded + [q1, q2]
  {
    SixthCompletionUnlocks(pr.byZone, pr.status, q1.id);
    assert Eligible(pr, q1, sc.zones);
    VisitTakes(pr, q1, sc);
    var mid := Visit(pr, q1, sc);
    assert !IsQuestComplete(mid.status, q2.id) && ZoneUnlocked(mid.byZone, "zone2");
    TwoTurns(pr, q1, q2, sc);
  }

  /** Two quests that are each eligible and hold when their turn comes are
      both rewarded, in order. */
  lemma TwoTurns(pr: Progress, q1: Quest, q2: Quest, sc: Scene)
    requires pr.player.level >= 1
    requires Eligible(pr, q1, sc.zones) && Holds(q1.criterion, sc.log, sc.root, sc.cwd)
    requires Eligible(Visit(pr, q1, sc), q2, sc.zones) && Holds(q2.criterion, sc.log, sc.root, sc.cwd)
    ensures Checked(pr, [q1, q2], sc).rewarded == pr.rewarded + [q1, q2]
  {
    VisitTakes(pr, q1, sc);
    VisitTakes(Visit(pr, q1, sc), q2, sc);
    CheckedTwo(pr, q1, q2, sc);
  }

  /** The line logged for a rewarded quest; it shows the unboosted rewards. */
  function Notice(q: Quest): (line: string)
    ensures StartsWith(line, "Quest complete: " + q.title)
  {
    var head := "Quest complete: " + q.title;
    var line := head + "! +" + NatToString(q.rewards.xp) + "xp +" + NatToString(q.rewards.coins) + "c";
    assert line[..|head|] == head;
    line
  }

  /** `checkQuests()` over the list `quests` (the app passes
      `Quests.Catalogue`), gated by the game's zone table: the state after the pass is the one `Checked`
      describes, and one notice is returned per rewarded quest. */
  method CheckQuests(quests: seq<Quest>, state: GameState, fs: VirtualFileSystem, now: int) returns (notices: seq<string>)
    requires state.Valid()
    modifies state
    ensures state.Valid()
    ensures var r := Checked(Progress(old(state.player), old(state.questStatus), old(state.completedByZone), []), quests,
                             Scene(Zones, old(state.upgrades), old(state.commandLog), fs.root, fs.cwd, now));
      state.player == r.player && state.questStatus == r.status && state.completedByZone == r.byZone
      && |notices| == |r.rewarded| && forall k :: 0 <= k < |notices| ==> notices[k] == Notice(r.rewarded[k])
    ensures state.upgrades == old(state.upgrades) && state.commandLog == old(state.commandLog)
    ensures state.lastActive == old(state.lastActive) && state.streak == old(state.streak)
  {
    var sc := Scene(Zones, state.upgrades, state.commandLog, fs.root, fs.cwd, now);
    ghost var start := Progress(state.player, state.questStatus, state.completedByZone, []);
    ghost var rewarded: seq<Quest> := [];
    notices := [];
    for i := 0 to |quests|
      invariant state.Valid()
      invariant state.upgrades == sc.upgrades && state.commandLog == sc.log
      invariant state.lastActive == old(state.lastActive) && state.streak == old(state.streak)
      invariant Checked(start, quests, sc)
        == Checked(Progress(state.player, state.questStatus, state.completedByZone, rewarded), quests[i..], sc)
      invariant |notices| == |rewarded| && forall k :: 0 <= k < |notices| ==> notices[k] == Notice(rewarded[k])
    {
      var q := quests[i];
      assert quests[i..][0] == q && quests[i..][1..] == quests[i + 1..];
      var completed := VisitQuest(state, q, fs, now, rewarded);
      if completed {
        rewarded := rewarded + [q];
        notices := notices + [Notice(q)];
      }
    }
  }

  /** One turn of the pass: the quest is checked, and rewarded if it holds,
      exactly as `Visit` describes. */
  method VisitQuest(state: GameState, q: Quest, fs: VirtualFileSystem, now: int, ghost rewarded: seq<Quest>)
    returns (completed: bool)
    requires state.Valid()
    modifies state
    ensures state.Valid()
    ensures var r := Visit(Progress(old(state.player), old(state.questStatus), old(state.completedByZone), rewarded), q,
                           Scene(Zones, old(state.upgrades), old(state.commandLog), fs.root, fs.cwd, now));
      state.player == r.player && state.questStatus == r.status && state.completedByZone == r.byZone
      && r.rewarded == (if completed then rewarded + [q] else rewarded)
    ensures state.upgrades == old(state.upgrades) && state.commandLog == old(state.commandLog)
    ensures state.lastActive == old(state.lastActive) && state.streak == old(state.streak)
  {
    completed := false;
    if !IsQuestComplete(state.questStatus, q.id) && ZoneUnlocked(state.completedByZone, q.zone) {
      completed := Holds(q.criterion, state.commandLog, fs.root, fs.cwd);
      if completed {
        state.ApplyRewards(q.rewards);
        state.UpdateQuestProgress(q.id, q.zone, now);
      }
    }
  }

  // ---------------------------------------------------------------------
  // Time away and the daily streak

  const HourMs: int := 3600000
  const DayMs: int := 86400000

  /** `state.upgrades.offlineCapHours || 8`. */
  function CapHours(u: Upgrades): (h: nat)
    ensures h >= 1
  {
    if u.offlineCapHours == 0 then 8 else u.offlineCapHours
  }

  /** `coinGain` of `checkOfflineGains`: the whole coins earned while away,
      10 an hour plus the coin boost, for no longer than the cap. A falsy
      `lastActive` counts as no time away. */
  function OfflineCoins(lastActive: int, now: int, u: Upgrades): (g: int)
    ensures lastActive == 0 ==> g == 0
    ensures g <= CapHours(u) * (10 + u.coinBoost)
    ensures lastActive != 0 && now <= lastActive ==> g <= 0
  {
    var elapsed := now - (if lastActive == 0 then now else lastActive);
    var capMs := CapHours(u) * HourMs;
    var effective := if elapsed <= capMs then elapsed else capMs;
    Bounded(effective, capMs, 10 + u.coinBoost);
    effective * (10 + u.coinBoost) / HourMs
  }

  lemma Bounded(effective: int, capMs: int, rate: nat)
    requires effective <= capMs && capMs % HourMs == 0
    ensures effective * rate / HourMs <= (capMs / HourMs) * rate
    ensures effective <= 0 ==> effective * rate / HourMs <= 0
  {
    assert effective * rate <= capMs * rate;
    assert capMs * rate == (capMs / HourMs) * rate * HourMs;
  }

  /** Staying away longer never earns fewer coins. */
  lemma OfflineCoinsMonotone(lastActive: int, now: int, now': int, u: Upgrades)
    requires now <= now'
    ensures OfflineCoins(lastActive, now, u) <= OfflineCoins(lastActive, now', u)
  {
    var rate := 10 + u.coinBoost;
    var capMs := CapHours(u) * HourMs;
    var e := now - (if lastActive == 0 then now else lastActive);
    var e' := now' - (if lastActive == 0 then now' else lastActive);
    var eff := if e <= capMs then e else capMs;
    var eff' := if e' <= capMs then e' else capMs;
    assert eff <= eff';
    assert eff * rate <= eff' * rate;
  }

  /** An hour away without a coin boost earns 10 coins; a full default cap
      of 8 hours or more with a 0.5 boost earns 120. */
  lemma OfflineCoinsExamples(t: int, later: int)
    requires t != 0 && later >= t + 8 * HourMs
    ensures OfflineCoins(t, t + HourMs, Upgrades(0, 0, 8, 0)) == 10
    ensures OfflineCoins(t, later, Upgrades(0, 5, 8, 0)) == 120
  {
  }

  /** `checkOfflineGains()`: the coins grow by the gain when it is positive,
      and `lastActive` becomes `now`. */
  method CheckOfflineGains(state: GameState, now: int)
    requires state.Valid()
    modifies state
    ensures state.Valid()
    ensures var g := OfflineCoins(old(state.lastActive), now, old(state.upgrades));
      state.player == old(state.player).(coins := old(state.player.coins) + (if g > 0 then g else 0))
    ensures state.lastActive == now
    ensures state.upgrades == old(state.upgrades) && state.questStatus == old(state.questStatus)
    ensures state.completedByZone == old(state.completedByZone) && state.commandLog == old(state.commandLog)
    ensures state.streak == old(state.streak)
  {
    var elapsed := now - (if state.lastActive == 0 then now else state.lastActive);
    var capMs := CapHours(state.upgrades) * HourMs;
    var effective := if elapsed <= capMs then elapsed else capMs;
    var coinGain := effective * (10 + state.upgrades.coinBoost) / HourMs;
    if coinGain > 0 {
      state.player := state.player.(coins := state.player.coins + coinGain);
    }
    state.lastActive := now;
  }

  /** The streak after `updateStreak()`: the first check of a fresh streak
      makes it 1, a check on the next calendar day (by 24-hour steps) adds
      one, and anything else keeps the count. A falsy `lastCheck` counts as
      now. */
  function StreakAfter(s: Streak, now: int): (r: Streak)
    ensures r.lastCheck == now
    ensures s.days >= 0 ==> r.days >= s.days
  {
    var last := if s.lastCheck == 0 then now else s.lastCheck;
    var diffDays := (now - last) / DayMs;
    var days := if diffDays == 0 && s.days == 0 then 1 else if diffDays == 1 then s.days + 1 else s.days;
    Streak(now, days)
  }

  /** The three cases by elapsed time: a check within a day of the last one
      keeps a running streak, a check between one and two days later extends it,
      and a longer gap (or a clock that went back) leaves it as it was. */
  lemma StreakCases(s: Streak, now: int)
    requires s.lastCheck != 0
    ensures s.lastCheck <= now < s.lastCheck + DayMs ==> StreakAfter(s, now).days == (if s.days == 0 then 1 else s.days)
    ensures s.lastCheck + DayMs <= now < s.lastCheck + 2 * DayMs ==> StreakAfter(s, now).days == s.days + 1
    ensures (now >= s.lastCheck + 2 * DayMs || now < s.lastCheck) && s.days != 0 ==> StreakAfter(s, now).days == s.days
  {
  }

  /** Checking in every 24 hours, `n` times, grows a running streak by `n`. */
  lemma {:induction false} DailyCheckIns(s: Streak, n: nat)
    requires s.lastCheck > 0 && s.days >= 1
    ensures DailyRun(s, n).days == s.days + n && DailyRun(s, n).lastCheck == s.lastCheck + n * DayMs
    decreases n
  {
    if n > 0 {
      var next := StreakAfter(s, s.lastCheck + DayMs);
      assert next.days == s.days + 1 by { StreakCases(s, s.lastCheck + DayMs); }
      DailyCheckIns(next, n - 1);
    }
  }

  /** The streak after `n` check-ins 24 hours apart. */
  function DailyRun(s: Streak, n: nat): Streak
    decreases n
  {
    if n == 0 then s else DailyRun(StreakAfter(s, s.lastCheck + DayMs), n - 1)
  }

  /** `updateStreak()`. */
  method UpdateStreak(state: GameState, now: int)
    requires state.Valid()
    modifies state
    ensures state.Valid()
    ensures state.streak == StreakAfter(old(state.streak), now)
    ensures state.player == old(state.player) && state.upgrades == old(state.upgrades)
    ensures state.questStatus == old(state.questStatus) && state.completedByZone == old(state.completedByZone)
    ensures state.commandLog == old(state.commandLog) && state.lastActive == old(state.lastActive)
  {
    var last := if state.streak.lastCheck == 0 then now else state.streak.lastCheck;
    var diffDays := (now - last) / DayMs;
    if diffDays == 0 && state.streak.days == 0 {
      state.streak := state.streak.(days := 1);
    } else if diffDays == 1 {
      state.streak := state.streak.(days := state.streak.days + 1);
    }
    state.streak := state.streak.(lastCheck := now);
  }

  // ---------------------------------------------------------------------
  // Hints

  const BaseHintCooldown: int := 20000

  /** The cooldown in milliseconds after the hint upgrade's reduction (in seconds). */
  function Cooldown(reduction: nat): (ms: int)
    ensures reduction <= 20 ==> 0 <= ms <= BaseHintCooldown
  {
    BaseHintCooldown - reduction * 1000
  }

  predicate HintReady(lastHintTime: int, reduction: nat, now: int) {
    now - lastHintTime >= Cooldown(reduction)
  }

  /** `Math.ceil(remaining / 1000)`: the whole seconds still to wait. */
  function HintWait(remaining: int): (s: nat)
    requires remaining > 0
    ensures s >= 1 && (s - 1) * 1000 < remaining <= s * 1000
  {
    (remaining + 999) / 1000
  }

  /** Waiting the announced number of seconds is always enough, and with the
      clock not gone back the wait is at most 20 seconds. */
  lemma HintWaitSuffices(lastHintTime: int, reduction: nat, now: int)
    requires !HintReady(lastHintTime, reduction, now)
    ensures var wait := HintWait(Cooldown(reduction) - (now - lastHintTime));
      HintReady(lastHintTime, reduction, now + wait * 1000)
      && (now >= lastHintTime ==> wait <= 20)
  {
  }

  /** The module variable `lastHintTime` and `showHint`. */
  class HintTimer {
    var lastHintTime: int

    constructor ()
      ensures lastHintTime == 0
    {
      lastHintTime := 0;
    }

    /** `showHint(quest)`: the first hint once the cooldown has passed, and
        then the timer restarts; otherwise the wait in seconds, and the
        timer stays as it was. */
    method ShowHint(u: Upgrades, quest: Quest, now: int) returns (line: string)
      modifies this
      ensures HintReady(old(lastHintTime), u.hintCooldownReduction, now) ==>
        lastHintTime == now && line == "Hint: " + FirstHint(quest.hints)
      ensures !HintReady(old(lastHintTime), u.hintCooldownReduction, now) ==>
        lastHintTime == old(lastHintTime)
        && line == "Hints cooling down. Wait " + NatToString(HintWait(Cooldown(u.hintCooldownReduction) - (now - old(lastHintTime)))) + "s."
    {
      var cooldown := BaseHintCooldown - u.hintCooldownReduction * 1000;
      if now - lastHintTime < cooldown {
        var wait := (cooldown - (now - lastHintTime) + 999) / 1000;
        return "Hints cooling down. Wait " + NatToString(wait) + "s.";
      }
      lastHintTime := now;
      line := "Hint: " + FirstHint(quest.hints);
    }
  }
}
