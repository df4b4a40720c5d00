/** The player's progression (src/state.js): rewards with boosts, level
    rollover, the bounded command log and the per-zone completion counter. */
module State {
  import opened Wrappers

  /** Skill points by name (`navigation`, `files`, `text`, or a quest's own skill). */
  type Skills = map<string, nat>

  datatype Player = Player(level: nat, xp: nat, coins: nat, skills: Skills)

  /** The shop's effects. Boosts are held in tenths (`xpBoost: 0.3` is 3); a
      value of 0 is the source's falsy value. */
  datatype Upgrades = Upgrades(xpBoost: nat, coinBoost: nat, offlineCapHours: nat, hintCooldownReduction: nat)

  datatype QuestStatus = QuestStatus(completed: bool, completedAt: int)

  datatype LogEntry = LogEntry(command: string, output: string, at: int)

  datatype Streak = Streak(lastCheck: int, days: int)

  /** A quest's rewards; 0 and `None` are the absent (falsy) values. */
  datatype Rewards = Rewards(xp: nat, coins: nat, skill: Option<string>)

  const LogLimit: nat := 200

  const StarterSkills: Skills := map["navigation" := 0, "files" := 0, "text" := 0]

  // ---------------------------------------------------------------------
  // Levels

  /** `xpForNextLevel(level)`. */
  function XpForNextLevel(level: int): (r: int)
    ensures level >= 1 ==> r >= 50
  {
    50 + (level - 1) * 25
  }

  /** The XP it takes to climb from level 1 to `level`. */
  function CumulativeXp(level: nat): nat {
    if level <= 1 then 0 else CumulativeXp(level - 1) + XpForNextLevel(level - 1)
  }

  /** A level and the XP held inside it. */
  datatype Standing = Standing(level: nat, xp: nat)

  /** The standing the rollover loop of `levelCheck` reaches: the XP left is
      below the next threshold, the level never drops, and the total XP
      earned (thresholds passed plus XP held) is the same as before. */
  function Settle(level: nat, xp: nat): (r: Standing)
    requires level >= 1
    ensures r.level >= level
    ensures r.xp < XpForNextLevel(r.level)
    ensures CumulativeXp(r.level) + r.xp == CumulativeXp(level) + xp
    decreases xp
  {
    if xp < XpForNextLevel(level) then Standing(level, xp)
    else Settle(level + 1, xp - XpForNextLevel(level))
  }

  lemma {:induction false} CumulativeGrows(i: nat, j: nat)
    requires 1 <= i < j
    ensures CumulativeXp(j) >= CumulativeXp(i) + XpForNextLevel(i)
    decreases j
  {
    if j > i + 1 {
      CumulativeGrows(i, j - 1);
    }
  }

  /** A total XP has only one settled standing, so `Settle` is the only
      possible outcome of the rollover. */
  lemma StandingUnique(a: Standing, b: Standing)
    requires a.level >= 1 && b.level >= 1
    requires a.xp < XpForNextLevel(a.level) && b.xp < XpForNextLevel(b.level)
    requires CumulativeXp(a.level) + a.xp == CumulativeXp(b.level) + b.xp
    ensures a == b
  {
    if a.level < b.level {
      CumulativeGrows(a.level, b.level);
    } else if b.level < a.level {
      CumulativeGrows(b.level, a.level);
    }
  }

  // ---------------------------------------------------------------------
  // Rewards

  /** `Math.round(base * (1 + boost/10))`: the nearest whole number, halves up. */
  function BoostedGain(base: nat, boost: nat): (g: nat)
    ensures 10 * g <= base * (10 + boost) + 5 < 10 * g + 10
    ensures boost == 0 ==> g == base
  {
    (base * (10 + boost) + 5) / 10
  }

  /** `Math.ceil(gain * 0.6)`. */
  function SkillGain(gain: nat): (s: nat)
    ensures 6 * gain <= 10 * s < 6 * gain + 10
  {
    (6 * gain + 9) / 10
  }

  /** `skills[key] ||= 0`. */
  function EnsureSkill(skills: Skills, key: string): Skills {
    if key in skills then skills else skills[key := 0]
  }

  /** The skills after a reward of `gain` XP: the named skill grows by
      `SkillGain(gain)`, then the three starter skills are filled in. */
  function RewardedSkills(skills: Skills, skill: Option<string>, gain: nat): Skills {
    var grown := if skill.Some? && skill.value != "" then
        skills[skill.value := (if skill.value in skills then skills[skill.value] else 0) + SkillGain(gain)]
      else skills;
    EnsureSkill(EnsureSkill(EnsureSkill(grown, "navigation"), "files"), "text")
  }

  /** The player after `applyRewards`. */
  function Rewarded(p: Player, u: Upgrades, r: Rewards): Player
    requires p.level >= 1
  {
    var xpGain := BoostedGain(r.xp, u.xpBoost);
    var s := Settle(p.level, p.xp + xpGain);
    Player(s.level, s.xp, p.coins + BoostedGain(r.coins, u.coinBoost), RewardedSkills(p.skills, r.skill, xpGain))
  }

  /** A reward adds its boosted XP to the player's total earned XP and its
      boosted coins to the purse, and leaves the XP held below the next threshold. */
  lemma RewardedTotals(p: Player, u: Upgrades, r: Rewards)
    requires p.level >= 1
    ensures var q := Rewarded(p, u, r);
      q.level >= p.level
      && q.xp < XpForNextLevel(q.level)
      && CumulativeXp(q.level) + q.xp == CumulativeXp(p.level) + p.xp + BoostedGain(r.xp, u.xpBoost)
      && q.coins == p.coins + BoostedGain(r.coins, u.coinBoost)
  {
  }

  /** The named skill grows by `ceil(0.6 * xpGain)`; the starter skills are
      always present afterwards; every other skill keeps its value. */
  lemma RewardedSkillsEffect(skills: Skills, skill: Option<string>, gain: nat, other: string)
    ensures var after := RewardedSkills(skills, skill, gain);
      "navigation" in after && "files" in after && "text" in after
      && (skill.Some? && skill.value != "" ==>
            after[skill.value] == (if skill.value in skills then skills[skill.value] else 0) + SkillGain(gain))
      && ((skill.None? || skill.value == "" || other != skill.value) ==>
            (other in skills ==> other in after && after[other] == skills[other])
            && (other !in skills && other != "navigation" && other != "files" && other != "text" ==> other !in after)
            && (other !in skills && (other == "navigation" || other == "files" || other == "text") ==> after[other] == 0))
  {
  }

  /** A fresh player given 60 XP with no boost ends at level 2 holding 10 XP. */
  lemma FreshPlayerSixtyXp()
    ensures var q := Rewarded(Player(1, 0, 0, StarterSkills), Upgrades(0, 0, 8, 0), Rewards(60, 0, None));
      q.level == 2 && q.xp == 10 && q.coins == 0
  {
    assert Settle(1, 60) == Settle(2, 10);
  }

  // ---------------------------------------------------------------------
  // The command log and quest progress

  /** The log after `logCommand`: the new entry is last, the oldest entry
      gives way once the log would pass 200 entries. */
  function Logged(log: seq<LogEntry>, e: LogEntry): (r: seq<LogEntry>)
    ensures |r| >= 1 && r[|r| - 1] == e
    ensures |log| < LogLimit ==> r == log + [e]
    ensures |log| >= LogLimit ==> |r| == |log| && r == log[1..] + [e]
    ensures |log| <= LogLimit ==> |r| <= LogLimit
  {
    var pushed := log + [e];
    if |pushed| > LogLimit then pushed[1..] else pushed
  }

  /** The per-zone counts after `updateQuestProgress`: the zone gets an entry,
      and it grows by one only when the quest had no status yet. */
  function CountedZones(byZone: map<string, nat>, status: map<string, QuestStatus>, questId: string, zoneId: string): map<string, nat> {
    var base := if zoneId in byZone && byZone[zoneId] != 0 then byZone else byZone[zoneId := 0];
    if questId in status then base else base[zoneId := base[zoneId] + 1]
  }

  /** Counting a completion: exactly +1 for a quest seen the first time,
      nothing otherwise, and no other zone moves. */
  lemma CountedZonesEffect(byZone: map<string, nat>, status: map<string, QuestStatus>, questId: string, zoneId: string, other: string)
    ensures var after := CountedZones(byZone, status, questId, zoneId);
      var before := if zoneId in byZone then byZone[zoneId] else 0;
      zoneId in after
      && after[zoneId] == (if questId in status then before else before + 1)
      && (other != zoneId ==> (other in after <==> other in byZone) && (other in byZone ==> after[other] == byZone[other]))
  {
  }

  /** Repeating `updateQuestProgress` for the same quest counts it once. */
  lemma CountedOnce(byZone: map<string, nat>, status: map<string, QuestStatus>, questId: string, zoneId: string, now: int)
    ensures var once := CountedZones(byZone, status, questId, zoneId);
      CountedZones(once, status[questId := QuestStatus(true, now)], questId, zoneId) == once
  {
    var once := CountedZones(byZone, status, questId, zoneId);
    assert zoneId in once;
    if once[zoneId] == 0 {
      assert questId in status;
    }
  }

  // ---------------------------------------------------------------------
  // The state object

  class GameState {
    var player: Player
    var upgrades: Upgrades
    var questStatus: map<string, QuestStatus>
    var completedByZone: map<string, nat>
    var commandLog: seq<LogEntry>
    var lastActive: int
    var streak: Streak

    ghost predicate Valid()
      reads this
    {
      player.level >= 1 && |commandLog| <= LogLimit
    }

    /** Every field but the command log, which the interpreter alone appends to. */
    function Unlogged(): (Player, Upgrades, map<string, QuestStatus>, map<string, nat>, int, Streak)
      reads this
    {
      (player, upgrades, questStatus, completedByZone, lastActive, streak)
    }

    /** `defaultState`, with both clock readings taken as `now`. */
    constructor (now: int)
      ensures Valid()
      ensures player == Player(1, 0, 0, StarterSkills)
      ensures upgrades == Upgrades(0, 0, 8, 0)
      ensures questStatus == map[] && completedByZone == map[] && commandLog == []
      ensures lastActive == now && streak == Streak(now, 0)
    {
      player := Player(1, 0, 0, StarterSkills);
      upgrades := Upgrades(0, 0, 8, 0);
      questStatus := map[];
      completedByZone := map[];
      commandLog := [];
      lastActive := now;
      streak := Streak(now, 0);
    }

    /** `levelCheck(state)`: roll XP over into levels until it is below the threshold. */
    method LevelCheck()
      requires Valid()
      modifies this
      ensures Valid()
      ensures var s := Settle(old(player.level), old(player.xp));
        player == old(player).(level := s.level, xp := s.xp)
      ensures upgrades == old(upgrades) && questStatus == old(questStatus) && completedByZone == old(completedByZone)
      ensures commandLog == old(commandLog) && lastActive == old(lastActive) && streak == old(streak)
    {
      var level: nat, xp: nat := player.level, player.xp;
      var required := XpForNextLevel(level);
      while xp >= required
        invariant level >= 1 && required == XpForNextLevel(level)
        invariant Settle(level, xp) == Settle(old(player.level), old(player.xp))
        decreases xp
      {
        xp := xp - required;
        level := level + 1;
        required := XpForNextLevel(level);
      }
      player := player.(level := level, xp := xp);
    }

    /** `applyRewards(state, rewards)`. */
    method ApplyRewards(r: Rewards)
      requires Valid()
      modifies this
      ensures Valid()
      ensures player == Rewarded(old(player), upgrades, r)
      ensures upgrades == old(upgrades) && questStatus == old(questStatus) && completedByZone == old(completedByZone)
      ensures commandLog == old(commandLog) && lastActive == old(lastActive) && streak == old(streak)
    {
      var xpGain := BoostedGain(r.xp, upgrades.xpBoost);
      var coinGain := BoostedGain(r.coins, upgrades.coinBoost);
      player := player.(xp := player.xp + xpGain, coins := player.coins + coinGain);
      player := player.(skills := RewardedSkills(player.skills, r.skill, xpGain));
      LevelCheck();
    }

    /** `logCommand(state, command, output)`, stamped with `now`. */
    method LogCommand(command: string, output: string, now: int)
      requires Valid()
      modifies this
      ensures Valid()
      ensures commandLog == Logged(old(commandLog), LogEntry(command, output, now))
      ensures Unlogged() == old(Unlogged())
    {
      commandLog := commandLog + [LogEntry(command, output, now)];
      if |commandLog| > LogLimit {
        commandLog := commandLog[1..];
      }
    }

    /** `updateQuestProgress(state, questId, zoneId)`, stamped with `now`. */
    method UpdateQuestProgress(questId: string, zoneId: string, now: int)
      requires Valid()
      modifies this
      ensures Valid()
      ensures completedByZone == CountedZones(old(completedByZone), old(questStatus), questId, zoneId)
      ensures questStatus == old(questStatus)[questId := QuestStatus(true, now)]
      ensures player == old(player) && upgrades == old(upgrades) && commandLog == old(commandLog)
      ensures lastActive == old(lastActive) && streak == old(streak)
    {
      if !(zoneId in completedByZone && completedByZone[zoneId] != 0) {
        completedByZone := completedByZone[zoneId := 0];
      }
      if questId !in questStatus {
        completedByZone := completedByZone[zoneId := completedByZone[zoneId] + 1];
      }
      questStatus := questStatus[questId := QuestStatus(true, now)];
    }
  }
}
