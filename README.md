# ShellQuest core in Dafny

ShellQuest is a browser game that teaches the command line. The player types
commands into a simulated terminal over a virtual file system. Quests check
what the player did and pay experience and coins. Coins buy upgrades, levels
rise with experience, and zones open as quests are completed. Saves live in
local storage and, for signed-in players, also in a cloud table.

This project models the game's core and proves properties of the model. It
has one module per source file:

| module | file | source |
|---|---|---|
| `FileSystem` | `filesystem.dfy` | `src/filesystem.js`: the virtual file system, a class whose tree and working directory the commands update |
| `Terminal` | `terminal.dfy` | `src/terminal.js`: `executeCommand`, the interpreter with its grep pipe, the help card and the tutorial recommendation |
| `State` | `state.dfy` | `src/state.js`: the game state, rewards, levelling, the command log and the quest progress counters |
| `Quests` | `quests.dfy` | `src/quests.js`: the three-zone quest catalogue of the terminal game, its success checks and the zone gates |
| `App` | `app.dfy` | `src/app.js`: the quest pass after each command, offline coins, the daily streak and the hint cooldown |
| `Sync` | `sync.dfy` | `src/sync.js`: merging the local and cloud saves, and the pending-sync flag |
| `Shop` | `upgrades.dfy` | `src/upgrades.js`: the upgrade shop |
| `Validators` | `validators.dfy` | `src/validators.js`: username normalisation and validation |
| `TerminalLogic` | `terminallogic.dfy` | `src/terminalLogic.js`: command history, the completion catalogue and tab completion |
| `ShellEngine` | `shellengine.dfy` | `src/engine/shellEngine.ts`: the stand-alone engine with `env`, `export`, `ps`, `kill`, `history`, `ping`, `curl`, `apt` and `pacman` |
| `QuestData` | `questdata.dfy` | `src/data/quests.ts`: the four-zone catalogue of that engine and its schema check |
| `Ascii` | `ascii.dfy` | `src/ascii.js`: line wrapping and the rounded boxes |
| `Strings`, `Ordering`, `Wrappers` | `strings.dfy`, `ordering.dfy`, `wrappers.dfy` | the JavaScript string operations the code relies on, the sort order of `Array.prototype.sort` on names, and `Option`/`Result` |

Code that changes objects step by step is modelled as classes:

- `VirtualFileSystem`, the game state `GameState`, `HistoryManager` and `Engine`.
- The module-level variables: `SyncFlag` for `pendingSync` and `HintTimer` for `lastHintTime`.

The methods of these classes carry `modifies` clauses. Each one is proved against a function that describes its new state and its result. The loops of the source are `while` and `for` loops with their invariants, for example:

- the path cleaning and tree walk of the file system;
- the levelling loop;
- the quest pass;
- the line wrapping;
- the schema check's three passes;
- the completion walk.

Pure code is modelled as functions. Lemmas state what the source promises about those functions.

Some details are parameters of the model:

- The clock `Date.now()` is an integer `now` in milliseconds.
- The random tips and ping timings are passed in.
- The outcome of a network call is a boolean or a fetched value.

Where the source throws, the model takes the inputs that avoid the throw as a precondition and says so in a comment. Examples are `rm` whose parent is a file, and piping a card into `grep`.

Two behaviours that look unintended are modelled as written and stated as lemmas:

- `rm` and `echo` take the parent of a multi-segment relative target from the root, not from the working directory (`FileSystem.TwoSegmentTargetIsRootAnchored`).
- A history limit of 1 keeps every entry, because `slice(-0)` is `slice(0)` (`TerminalLogic.PushLimitOne`).

## Model

| member | source | states |
|---|---|---|
| Validators.NormalizeUsername | src/validators.js:3-5 | a non-string gives the empty string; a string gives its trimmed, lower-cased form, never longer than the input and free of capitals |
| Validators.ValidateUsername | src/validators.js:7-10 | an accepted input is a non-empty string whose trimmed form has 3 to 16 characters |
| Validators.UsernameCharsAt | src/validators.js:1 | the class test `[A-Za-z0-9_]*` holds exactly when every character is in the class |
| Validators.LowerCharWhitespace | src/validators.js:4 | lower-casing neither creates nor removes whitespace |
| Validators.TrimStartToLower | src/validators.js:4 | trimming the front and lower-casing commute |
| Validators.TrimEndToLower | src/validators.js:4 | trimming the end and lower-casing commute |
| Validators.TrimToLower | src/validators.js:4 | `trim` and `toLowerCase` commute |
| Validators.ToLowerIdempotent | src/validators.js:4 | lower-casing twice is lower-casing once |
| Validators.NormalizeIdempotent | src/validators.js:3-5 | normalising a normalised name changes nothing |
| Validators.ValidateIgnoresEdges | src/validators.js:8-9 | the verdict on a string equals the verdict on its trimmed form |
| Validators.LowerKeepsChars | src/validators.js:1-4 | lower-casing keeps a string inside the class `[A-Za-z0-9_]` |
| Validators.TrimFixesLower | src/validators.js:4 | a string with no whitespace at either end keeps that property once lower-cased |
| Validators.NormalizeKeepsValid | src/validators.js:3-10 | a valid name stays valid, with the same length, after normalisation |
| Validators.ValidateTrimmed | src/validators.js:1-9 | for a string without edge whitespace: accepted iff 3 to 16 characters long and every character is in `[A-Za-z0-9_]` |
| Validators.AcceptsThree | src/validators.js:1-9 | `abc`, three characters, is accepted (lower bound inclusive) |
| Validators.RejectsTwo | src/validators.js:1-9 | `ab` is rejected |
| Validators.RejectsSeventeen | src/validators.js:1-9 | a 17-character name is rejected (upper bound 16) |
| Validators.RejectsDash | src/validators.js:1-9 | `bad-char!` is rejected because `-` is outside the class |
| Validators.AcceptsUppercase | src/validators.js:1-9 | as written, the test's `UPPERCASE` is accepted |
| Validators.AcceptsLeadingDigit | src/validators.js:1-9 | as written, `1abc` is accepted |
| Validators.IntendedUsername | src/validators.js:1-10 | corrected rule: an accepted input trims to 3 to 16 characters starting with a lower-case letter |
| Validators.LowerCharsAreChars | src/validators.js:1 | a string of `[a-z0-9_]` is in the pattern's class and is its own lower-case form |
| Validators.IntendedIsStricter | src/validators.js:1-10 | every name the corrected rule accepts is accepted by the code and is its own normal form |
| Validators.IntendedTrimmed | src/validators.js:1-9 | for a string without edge whitespace the corrected rule holds iff 3 to 16 long, a lower-case letter first and every character in `[a-z0-9_]` |
| Validators.LowerCharsAt | src/validators.js:1 | the recursive `[a-z0-9_]*` test holds iff every character passes |
| Validators.IntendedRejectsUppercase | src/validators.js:1 | the corrected rule refuses `UPPERCASE` |
| Validators.IntendedRejectsLeadingDigit | src/validators.js:1 | the corrected rule refuses `1abc` |
| Validators.IntendedAcceptsPlayer | src/validators.js:1 | the corrected rule accepts `player1` |
| Validators.IntendedAcceptsHero | src/validators.js:1 | the corrected rule accepts `hero_123` |
| Validators.ValidateJoined | src/validators.js:1-10 | two runs of the class `[A-Za-z0-9_]` with no whitespace at the outer ends make a valid name when they total 3 to 16 characters |
| Validators.CharsConcat | src/validators.js:1 | the class test holds of a concatenation when it holds of both parts |
| Validators.AcceptsSixteen | src/validators.js:1-10 | the test's `long_name_16` is accepted |
| Validators.RejectsTooLong | src/validators.js:1-10 | the test's 24-character `toolongusernameoverlimit` is rejected |
| Validators.IntendedJoined | src/validators.js:1 | a lower-case letter, then runs of `[a-z0-9_]`, of 3 to 16 characters in all, satisfies the corrected rule |
| Validators.LowerCharsConcat | src/validators.js:1 | the `[a-z0-9_]` test holds of a concatenation when it holds of both parts |
| Validators.IntendedAcceptsThree | src/validators.js:1 | the corrected rule accepts the test's `abc` |
| Validators.IntendedAcceptsSixteen | src/validators.js:1 | the corrected rule accepts the test's `long_name_16` |
| Validators.UsernameChar | src/validators.js:1 | the character class `[A-Za-z0-9_]`: an ASCII letter of either case, a digit or `_`; its meaning per character is stated by UsernameCharsAt |
| Validators.UsernameChars | src/validators.js:1 | `[A-Za-z0-9_]*` as a recursive test on the whole string; UsernameCharsAt proves it equals "every character is in the class" and CharsConcat that it distributes over concatenation |
| Validators.UsernamePattern | src/validators.js:1 | the anchored pattern `^[A-Za-z0-9_]{3,16}$`: a length from 3 to 16 and every character in the class; ValidateTrimmed ties ValidateUsername to it both ways |
| Validators.LowerUsernameChar | src/validators.js:1 | the corrected rule's class `[a-z0-9_]`, used after the first character; LowerCharsAreChars proves it lies inside the code's class |
| Validators.LowerUsernameChars | src/validators.js:1 | `[a-z0-9_]*` as a recursive test; LowerCharsAt proves the per-character reading and LowerCharsConcat that it distributes over concatenation |
| Shop.Apply | src/upgrades.js:7-36 | each effect changes only its own field: boosts step by 0.1 up to 0.5, the offline cap by 2 up to 12 hours (an unset cap reads as 8), the hint reduction by 5 up to 20 |
| Shop.ApplyKeepsCaps | src/upgrades.js:8-35 | levels within their caps stay within them after any effect, and none of the four levels decreases |
| Shop.ApplyAtCap | src/upgrades.js:8-35 | an effect whose field is already at its cap changes nothing |
| Shop.FindUpgrade | src/upgrades.js:41 | a found upgrade is the first catalogue entry with the asked id; none is found iff no entry has that id |
| Shop.FindXpBoost | src/upgrades.js:2-41 | `xp-boost` finds the first entry, costing 30 |
| Shop.FindCoinBoost | src/upgrades.js:11-41 | `coin-boost` finds the second entry, costing 30 |
| Shop.FindOfflineCap | src/upgrades.js:20-41 | `offline-cap` finds the third entry, costing 40 |
| Shop.FindHintBoost | src/upgrades.js:29-41 | `hint-boost` finds the fourth entry, costing 25 |
| Shop.FindOther | src/upgrades.js:41-42 | any other id finds nothing |
| Shop.Purchase | src/upgrades.js:40-47 | "Upgrade not found" iff the id is unknown; "Not enough coins" iff found and coins below the price; on success coins drop by exactly the price and the levels are the effect's |
| Shop.PurchaseBounds | src/upgrades.js:43-46 | a successful purchase costs between 1 and 40 coins, never leaves the purse negative and keeps the levels within their caps |
| Shop.PurchaseAtCapStillCharges | src/upgrades.js:8-45 | buying the XP booster at 0.5 still costs 30 coins and changes no level |
| Shop.PurchaseUpgrade | src/upgrades.js:40-47 | on either error the player and upgrades are unchanged; on success coins and upgrades take the values `Purchase` gives; nothing else in the state changes |
| Shop.Min | src/upgrades.js:8-35 | `Math.min` on the levels; Apply's contract states that each effect moves its field to the minimum of the cap and one more step |
| Shop.WithinCaps | src/upgrades.js:8-35 | every level at or below its cap (0.5 boosts, 12 hours, 20 seconds); ApplyKeepsCaps and PurchaseBounds prove that buying keeps it |
| FileSystem.WalkAppend | src/filesystem.js:42-50 | one more turn of the `getNode` loop: the named child of a directory, null otherwise |
| FileSystem.WalkNoneExtends | src/filesystem.js:45-48 | once the walk has returned null, every longer path is null too |
| FileSystem.WalkThroughFile | src/filesystem.js:46 | a walk that reaches a file fails at the next name |
| FileSystem.SegmentsAreNames | src/filesystem.js:33 | `split('/').filter(Boolean)` yields only non-empty segments without `/` |
| FileSystem.CleanFromKeepsNames | src/filesystem.js:34-38 | the `cleaned` stack only ever holds plain names |
| FileSystem.ResolvedIsClean | src/filesystem.js:31-40 | a resolved path contains no `.`, `..` or empty segment |
| FileSystem.CleanFromNames | src/filesystem.js:35-38 | pushing plain names onto the stack appends them unchanged |
| FileSystem.ParentOf | src/filesystem.js:36 | `..` goes to the parent, and at the root the pop is a harmless no-op |
| FileSystem.CleanAppendOne | src/filesystem.js:33-38 | cleaning a clean directory plus one segment is one step of the stack |
| FileSystem.CleanFromSplit | src/filesystem.js:35-38 | the loop over two lists of parts is the loop over the first, then the second |
| FileSystem.PwdOf | src/filesystem.js:27-29 | the printed path starts with `/`, and is `/` for the root |
| FileSystem.PwdRoundTrip | src/filesystem.js:27-40 | the printed path splits back into the same segments, and resolving it from any directory gives that directory (an absolute path ignores `cwd`) |
| FileSystem.SetChildEffect | src/filesystem.js:70-103 | setting a child changes that directory's children by exactly that binding and leaves every node off the changed path as it was |
| FileSystem.RemoveChildEffect | src/filesystem.js:86 | deleting a child removes exactly that name from the directory and leaves every node off the changed path as it was |
| FileSystem.LookupClean | src/filesystem.js:44 | on a clean path the `filter(Boolean)` of `getNode` changes nothing |
| FileSystem.TargetBaseClean | src/filesystem.js:81-100 | the base path of `rm`/`echo` holds no empty segment |
| FileSystem.TouchIdempotent | src/filesystem.js:74-78 | `touch` keeps `cwd` a directory, and touching twice is touching once |
| FileSystem.MkdirEffect | src/filesystem.js:67-72 | an existing name of either kind leaves the tree unchanged; a new name adds exactly one empty directory to `cwd` |
| FileSystem.Listing | src/filesystem.js:56 | the listing is strictly sorted and holds exactly the child names |
| FileSystem.VirtualFileSystem.constructor | src/filesystem.js:22-25 | the tree is the given structure (the starter layout by default) and `cwd` is `home/adventurer` |
| FileSystem.VirtualFileSystem.Pwd | src/filesystem.js:27-29 | `pwd()` is `PwdOf(cwd)`: `/` and the segments joined by `/` |
| FileSystem.VirtualFileSystem.GetNode | src/filesystem.js:42-50 | the loop returns the node at the path, or null as soon as a name is missing or a file is passed |
| FileSystem.VirtualFileSystem.Resolve | src/filesystem.js:31-40 | the loop's stack is the cleaned path and the node is the one at it; the empty path and `.` give `cwd` |
| FileSystem.VirtualFileSystem.Ls | src/filesystem.js:52-57 | a directory gives its child names, sorted, exactly; anything else gives "Not a directory" |
| FileSystem.VirtualFileSystem.Cd | src/filesystem.js:59-65 | "Path not found" or "Not a directory" leave `cwd` as it was; a directory becomes the new `cwd` and its `pwd` is returned; the tree never changes |
| FileSystem.VirtualFileSystem.Mkdir | src/filesystem.js:67-72 | "Already exists" iff the name is taken; the tree becomes `MkdirTree`; `cwd` is unchanged |
| FileSystem.VirtualFileSystem.Touch | src/filesystem.js:74-78 | always succeeds; the tree becomes `TouchTree`; `cwd` is unchanged |
| FileSystem.VirtualFileSystem.Rm | src/filesystem.js:80-88 | with the root-anchored base: the named child is deleted if present, otherwise "Not found" and no change |
| FileSystem.VirtualFileSystem.Cat | src/filesystem.js:90-95 | "Not found", "Not a file", or the file's content |
| FileSystem.VirtualFileSystem.Echo | src/filesystem.js:97-105 | with the root-anchored base: the named child becomes a file holding exactly the content, or "Path not found" and no change |
| FileSystem.VirtualFileSystem.Grep | src/filesystem.js:107-115 | a file gives its `\n`-separated lines that contain the pattern, in order; anything else gives "File not found" |
| FileSystem.SplitPair | src/filesystem.js:33 | `a/b` splits on `/` into `[a, b]` |
| FileSystem.SegmentsOne | src/filesystem.js:33 | a plain name is one segment |
| FileSystem.SegmentsPair | src/filesystem.js:33 | `a/b` of plain names is two segments |
| FileSystem.ResolveChild | src/filesystem.js:31-40 | `cd name` from a clean directory goes one level down |
| FileSystem.TwoSegmentTargetIsRootAnchored | src/filesystem.js:33-101 | a relative `a/b` resolves under `cwd`, but `rm`/`echo` take its parent as `/a`, from the root |
| FileSystem.RmCanRemoveCwd | src/filesystem.js:80-88 | from `/x/y`, `rm x/y` finds and deletes the current directory itself, which then no longer exists |
| FileSystem.WalkHome | src/filesystem.js:1-19 | `/home/adventurer` of the starter tree is the adventurer directory |
| FileSystem.StarterPwd | src/filesystem.js:24-29 | a fresh file system prints `/home/adventurer` |
| FileSystem.StarterLayout | src/filesystem.js:1-24 | the starting directory holds exactly `notes.txt`, `tutorials`, `forest` and `caves` |
| FileSystem.SetChild | src/filesystem.js:70-103 | `parent.children[name] = node` at one directory; `SetChildEffect` states that exactly that binding changes and every node off the path is kept |
| FileSystem.RemoveChild | src/filesystem.js:86 | `delete parent.children[name]`; `RemoveChildEffect` states that exactly that name goes and every node off the path is kept |
| FileSystem.MkdirTree | src/filesystem.js:67-72 | the tree after `mkdir`; `MkdirEffect` states it is unchanged for a taken name and gains one empty directory otherwise |
| FileSystem.TouchTree | src/filesystem.js:74-78 | the tree after `touch`; `TouchIdempotent` states that touching twice is touching once |
| FileSystem.TargetBase | src/filesystem.js:81-100 | the parent path of `rm`/`echo`; `TargetBaseClean` states it has no empty segment and `TwoSegmentTargetIsRootAnchored` that it starts at the root |
| FileSystem.Walk | src/filesystem.js:43-49 | the `for` loop of `getNode` descending one name at a time; WalkAppend states one more iteration, WalkNoneExtends that `null` stays `null`, WalkThroughFile that a file cannot be passed through |
| FileSystem.Lookup | src/filesystem.js:42-50 | `getNode`: `filter(Boolean)` of the parts, then the walk from the root; VirtualFileSystem.GetNode's loop is proved equal to it and LookupClean proves the filter changes nothing on clean paths |
| FileSystem.IsDir | src/filesystem.js:55 | the node exists and has type `dir`; Ls and Echo state their branches with it, and Mkdir, Touch, MkdirEffect and SetChildEffect require it |
| FileSystem.IsFile | src/filesystem.js:93 | the node exists and has type `file`; Grep states its branches with it and WalkThroughFile its premise; Rm and Echo require that the parent is not one |
| FileSystem.HasChild | src/filesystem.js:46 | `node.children && node.children[part]` is truthy; WalkAppend states one walk step with it, and Mkdir and Rm state their `Already exists` and `Not found` branches with it |
| FileSystem.Segments | src/filesystem.js:33 | `path.split('/').filter(Boolean)`; SegmentsAreNames proves every segment is non-empty and slash-free, SegmentsOne and SegmentsPair give the one- and two-name cases |
| FileSystem.CleanPath | src/filesystem.js:34-38 | a path with no empty, `.`, `..` or slash-bearing segment; ResolvedIsClean proves every resolved path has this shape |
| FileSystem.Step | src/filesystem.js:36-37 | one turn of the `cleaned` loop: `..` pops (a no-op when empty), `.` is skipped, anything else is pushed; ParentOf and CleanFromNames state the cases |
| FileSystem.CleanFrom | src/filesystem.js:34-38 | the whole `cleaned` loop over the parts; CleanFromSplit proves it composes over a concatenation and CleanFromKeepsNames that it keeps a clean stack clean |
| FileSystem.ResolvedPath | src/filesystem.js:31-40 | `resolve(path).path`: `cwd` for "" and ".", else the cleaned segments from the root or from `cwd`; VirtualFileSystem.Resolve is proved equal to it and PwdRoundTrip proves the printed path resolves back |
| FileSystem.TargetName | src/filesystem.js:81-82 | the last segment of an `rm`/`echo` target, `undefined` when there is none; TwoSegmentTargetIsRootAnchored and RmCanRemoveCwd state it on concrete targets |
| FileSystem.VirtualFileSystem.Valid | src/filesystem.js:24 | `cwd` holds only plain names; the constructor establishes it and every method keeps it |
| FileSystem.Name | src/filesystem.js:33 | a single plain path segment; SegmentsOne proves such a name splits to itself |
| State.XpForNextLevel | src/state.js:91-93 | the threshold is at least 50 for every level from 1 |
| State.Settle | src/state.js:82-89 | the rollover never lowers the level, leaves the XP below the new level's threshold, and preserves the total XP earned (thresholds below the level plus XP held) |
| State.CumulativeGrows | src/state.js:91-93 | climbing past a level costs at least that level's threshold |
| State.StandingUnique | src/state.js:82-89 | a total XP has exactly one settled standing, so the loop's result is determined |
| State.BoostedGain | src/state.js:64-67 | `Math.round(base * (1 + boost))` with the boost in tenths: the nearest whole number, halves up; no boost gives the base |
| State.SkillGain | src/state.js:74 | `Math.ceil(gain * 0.6)`: the least whole number at or above six tenths of the gain |
| State.RewardedTotals | src/state.js:63-80 | a reward adds its boosted XP to the total earned and its boosted coins to the purse; the level never drops and the XP held stays below the next threshold |
| State.RewardedSkillsEffect | src/state.js:72-78 | the named skill gains `ceil(0.6 * xpGain)` (from 0 when absent), the three starter skills are always present afterwards, every other skill keeps its value or stays absent |
| State.FreshPlayerSixtyXp | src/state.js:63-80 | a fresh player given 60 XP with no boost ends at level 2 with 10 XP |
| State.Logged | src/state.js:95-100 | the new entry is last; below 200 entries it is appended, at 200 the oldest is dropped, so the log never exceeds 200 |
| State.CountedZonesEffect | src/state.js:102-108 | the zone gets an entry; it grows by exactly 1 when the quest had no status entry and by 0 otherwise; no other zone changes |
| State.CountedOnce | src/state.js:102-110 | calling `updateQuestProgress` twice for one quest counts it once |
| State.GameState.constructor | src/state.js:5-33 | the default state: level 1, no XP or coins, the three starter skills at 0, offline cap 8, no statuses, counts or log, both clock fields at `now` |
| State.GameState.LevelCheck | src/state.js:82-89 | the loop ends at the standing `Settle` gives; nothing but level and XP changes |
| State.GameState.ApplyRewards | src/state.js:63-80 | the player becomes `Rewarded(player, upgrades, rewards)`; nothing else changes |
| State.GameState.LogCommand | src/state.js:95-100 | the log becomes `Logged(log, entry)`; every other field is unchanged |
| State.GameState.UpdateQuestProgress | src/state.js:102-110 | the quest's status becomes completed at `now`, the counts become `CountedZones`; nothing else changes |
| State.Rewarded | src/state.js:63-80 | the player after `applyRewards`; `RewardedTotals` and `RewardedSkillsEffect` state the totals, the level bound and the skills |
| State.CountedZones | src/state.js:102-108 | the zone counts after `updateQuestProgress`; `CountedZonesEffect` and `CountedOnce` state the +1 for a first completion and that a repeat counts once |
| State.CumulativeXp | src/state.js:82-93 | the XP it takes to reach a level from level 1; Settle's contract uses it to state that the rollover conserves total XP and CumulativeGrows that each level costs its threshold |
| State.EnsureSkill | src/state.js:76-78 | `skills[key] ||= 0`: an absent skill appears at 0 and a present one is kept; RewardedSkillsEffect states the effect of all three together |
| State.RewardedSkills | src/state.js:72-78 | the skills after `applyRewards`; RewardedSkillsEffect proves the named skill grows by SkillGain from 0, the three starter skills exist, and every other skill is kept |
| State.GameState.Valid | src/state.js:82-99 | the level is at least 1 and the command log holds at most 200 entries; the constructor establishes it and every method keeps it |
| State.GameState.Unlogged | src/state.js:95-100 | every field but the command log; LogCommand's contract keeps it unchanged, so logging changes nothing but the log |
| Quests.CommandUsed | src/quests.js:15-17 | true iff some logged command starts with the prefix |
| Quests.PathVisited | src/quests.js:19-21 | true iff some logged output contains the path |
| Quests.AnyCommandContainsAll | src/quests.js:187-256 | true iff some logged command contains every one of the pieces |
| Quests.CwdChild | src/quests.js:92-266 | `fs.getNode(fs.cwd)?.children?.[name]` is present iff the current directory is a directory holding that name |
| Quests.PlainsWellFormed | src/quests.js:24-105 | zone 1 has 8 quests, all in `zone1`, each with a hint, with distinct ids starting with `p` |
| Quests.PlainsShape | src/quests.js:24-105 | the zone 1 block: 8 quests in `zone1`, each hinted, ids led by `p` |
| Quests.PlainsDistinct | src/quests.js:24-105 | the zone 1 ids are pairwise distinct |
| Quests.ForestWellFormed | src/quests.js:106-200 | zone 2 has 9 quests, all in `zone2`, each with a hint, with distinct ids starting with `f` |
| Quests.ForestShape | src/quests.js:106-200 | the zone 2 block: 9 quests in `zone2`, each hinted, ids led by `f` |
| Quests.ForestDistinct | src/quests.js:106-200 | the zone 2 ids are pairwise distinct |
| Quests.CavesWellFormed | src/quests.js:201-292 | zone 3 has 8 quests, all in `zone3`, each with a hint, with distinct ids starting with `c` |
| Quests.CavesShape | src/quests.js:201-292 | the zone 3 block: 8 quests in `zone3`, each hinted, ids led by `c` |
| Quests.CavesDistinct | src/quests.js:201-292 | the zone 3 ids are pairwise distinct |
| Quests.DistinctJoin | src/quests.js:23-292 | two id-distinct blocks whose ids start with different letters join into an id-distinct list |
| Quests.JoinThree | src/quests.js:23-292 | three such blocks, one per zone, join into an id-distinct, hinted list whose every quest is in one of the three zones |
| Quests.CatalogueWellFormed | src/quests.js:23-292 | the catalogue has 25 quests with distinct ids, each hinted and in `zone1`, `zone2` or `zone3` |
| Quests.FindZone | src/quests.js:303 | a found zone is in the table with that id; when none is found, no zone of the table has the id |
| Quests.ZoneRules | src/quests.js:1-305 | `zone1` is always open; `zone2` iff at least 6 `zone1` completions; `zone3` iff at least 6 `zone2` completions; an unknown id is open |
| Quests.QuestsIn | src/quests.js:295 | the filter keeps exactly the quests of the zone and is never longer than its input |
| Quests.AvailableQuests | src/quests.js:294-296 | exactly the catalogue's quests of the zone; the state plays no part |
| Quests.QuestsInAppend | src/quests.js:295 | filtering a concatenation is concatenating the filtered parts, so the catalogue order is kept |
| Quests.QuestsInAll | src/quests.js:295 | filtering a block wholly in the zone returns it unchanged |
| Quests.QuestsInNone | src/quests.js:295 | filtering a block wholly in another zone returns nothing |
| Quests.BlocksByZone | src/quests.js:294-296 | filtering three one-zone blocks by a zone returns that zone's block, in order |
| Quests.ZoneQuests | src/quests.js:23-296 | each `availableQuests` is exactly its zone's block of the catalogue, in order: 8, 9 and 8 quests |
| Quests.PlainsMkdirCheck | src/quests.js:76-84 | `plains-mkdir` holds iff `/home/adventurer/practice` exists, whatever the log |
| Quests.RemovalQuestsHoldWhenAbsent | src/quests.js:151-268 | `forest-rm` and `caves-rm-clean` hold iff their file is absent from `cwd`, so a fresh game already satisfies `forest-rm` |
| Quests.Holds | src/quests.js:23-292 | the success check of each quest kind; `PlainsMkdirCheck` and `RemovalQuestsHoldWhenAbsent` state what two of them mean |
| Quests.ZoneUnlocked | src/quests.js:302-305 | `zoneUnlocked` over the game's zone table; `ZoneRules` states the three thresholds and the open unknown zone |
| Quests.IsQuestComplete | src/quests.js:298-300 | a quest is complete when its status entry exists and is completed; `App.CheckedKeepsCompletion` states that a pass never undoes it |
| Quests.ContainsAll | src/quests.js:187 | a command that includes every one of the pieces; AnyCommandContainsAll is stated with it, both ways |
| Quests.FirstHint | src/terminal.js:91 | `quest.hints[0]`, read as `undefined` for a quest with no hints; CatalogueWellFormed proves every catalogue quest has one, so the tutorial card always shows a real hint |
| Quests.DistinctIds | src/quests.js:23-292 | no two quests share an id; CatalogueWellFormed proves it of the catalogue |
| Quests.AllIn | src/quests.js:23-292 | every quest of a block belongs to the named zone; the per-zone well-formedness lemmas prove it of each block |
| Quests.AllHinted | src/quests.js:23-292 | every quest has at least one hint; CatalogueWellFormed proves it of the catalogue |
| Quests.IdsLead | src/quests.js:23-292 | every id of a block starts with the given letter; DistinctJoin uses it to join blocks without id clashes |
| Quests.CompletedIn | src/quests.js:6-11 | `completedQuestsByZone[zone] \|\| 0`; ZoneRules states the unlock thresholds through it |
| Quests.Met | src/quests.js:2-12 | a zone's requirement: always true, or at least `n` completions in another zone; ZoneRules states every zone's requirement |
| Quests.UnlockedIn | src/quests.js:302-305 | `zoneUnlocked` over a zone table: open when the table has no such zone or its requirement holds; ZoneRules and App.SixthCompletionUnlocks state it on the game's table |
| App.Visit | src/app.js:171-182 | one turn of the pass keeps the level at least 1 |
| App.Checked | src/app.js:170-185 | the whole pass keeps the level at least 1 |
| App.VisitRewards | src/app.js:171-182 | a turn rewards at most the quest it looks at |
| App.VisitTakes | src/app.js:172-177 | an incomplete quest of an unlocked zone whose check holds is rewarded, marked complete at `now` and counted |
| App.CheckedTwo | src/app.js:171 | a pass over two quests is two turns in order |
| App.CheckedKeepsCompletion | src/app.js:172-177 | a completed quest stays completed with its original status, and no status entry disappears |
| App.CheckedAppends | src/app.js:171-183 | a pass only appends to the rewarded list, and only quests of the list it walks |
| App.CheckedRewardsIncomplete | src/app.js:172-177 | every quest a pass rewards was incomplete before it and is complete after it |
| App.CheckedRewardsDistinct | src/app.js:172-177 | a pass never rewards one quest id twice, even when it is listed twice |
| App.CheckedRewardsFresh | src/app.js:170-185 | the rewarded quests come from the list, were incomplete before, are complete after and are pairwise distinct |
| App.RewardedOnceAcrossPasses | src/app.js:170-185 | no quest is rewarded in two successive passes |
| App.LockedZoneWaits | src/app.js:173 | a pass over quests of a locked zone changes nothing |
| App.SixthCompletionUnlocks | src/quests.js:3-7 | a sixth `zone1` completion opens `zone2` |
| App.UnlockWithinPass | src/app.js:171-177 | with five `zone1` completions, a `zone1` quest that completes unlocks a `zone2` quest later in the same pass, and both are rewarded |
| App.TwoTurns | src/app.js:171-177 | two quests each eligible and holding at their turn are both rewarded, in order |
| App.Notice | src/app.js:178 | the logged line starts with `Quest complete: ` and the title |
| App.CheckQuests | src/app.js:170-185 | the loop leaves the state `Checked` describes and returns one notice per rewarded quest, in order; log, upgrades, clock and streak are unchanged |
| App.VisitQuest | src/app.js:172-181 | one turn of the loop does what `Visit` describes and reports whether the quest was rewarded |
| App.CapHours | src/app.js:190 | `offlineCapHours \|\| 8` is at least 1 |
| App.OfflineCoins | src/app.js:188-193 | an unset `lastActive` (read as `now`) earns nothing, the gain never exceeds the cap's worth, and a clock that has not moved forward earns nothing |
| App.Bounded | src/app.js:191-193 | the floored gain of a capped time is at most the cap's hours times the rate |
| App.OfflineCoinsMonotone | src/app.js:189-193 | staying away longer never earns fewer coins |
| App.OfflineCoinsExamples | src/app.js:188-193 | an hour away earns 10 coins; 8 hours or more with a 0.5 coin boost earns 120 |
| App.CheckOfflineGains | src/app.js:187-201 | the coins grow by the gain only when it is positive, so they never decrease; `lastActive` becomes `now`; nothing else changes |
| App.StreakAfter | src/app.js:204-212 | `lastCheck` becomes `now`, and the day count never decreases |
| App.StreakCases | src/app.js:206-211 | within a day a fresh streak becomes 1 and a running one stays; one to two days later it grows by 1; a longer gap or a clock gone back leaves it unchanged (no reset) |
| App.DailyCheckIns | src/app.js:203-212 | `n` check-ins 24 hours apart grow a running streak by exactly `n` |
| App.UpdateStreak | src/app.js:203-215 | the streak becomes `StreakAfter(streak, now)`; nothing else changes |
| App.Cooldown | src/app.js:11-131 | with the reduction at most 20 seconds the cooldown lies in 0 to 20000 ms |
| App.HintWait | src/app.js:133 | `Math.ceil(remaining / 1000)`: the least whole number of seconds covering the remaining time |
| App.HintWaitSuffices | src/app.js:131-136 | waiting the announced seconds always ends the cooldown, and unless the clock went back the wait is at most 20 seconds |
| App.HintTimer.constructor | src/app.js:10 | `lastHintTime` starts at 0 |
| App.HintTimer.ShowHint | src/app.js:129-139 | once the cooldown has passed the first hint is shown and the timer restarts at `now`; otherwise the wait is announced and the timer is unchanged |
| App.Eligible | src/app.js:172-173 | the two early returns of the pass: the quest is not complete and its zone is unlocked by the counts at that moment; VisitTakes and TwoTurns are stated for eligible quests and LockedZoneWaits for a locked zone |
| App.DailyRun | src/app.js:203-212 | `n` streak updates 24 hours apart; DailyCheckIns proves they add `n` days |
| App.HintReady | src/app.js:131-132 | at least the cooldown has passed since the last hint; HintTimer.ShowHint states both branches with it and HintWaitSuffices proves the announced wait reaches it |
| Sync.MergeOneSide | src/sync.js:17-22 | with only one save present that save is taken with its game state unchanged, and the source says which |
| Sync.MergeNewestWins | src/sync.js:17-30 | with both present the cloud save wins exactly when its time is a number strictly later than the local one (a missing local stamp reads as now); otherwise, ties included, the local save wins |
| Sync.MissingCloudTimeIsEpoch | src/sync.js:25-27 | a cloud row without `updated_at` counts as the epoch and beats only a local save stamped before it |
| Sync.MergeExamples | src/sync.js:17-30 | the newer cloud save replaces an older local one; a newer local save is kept; a lone local save is kept |
| Sync.PullLocalMode | src/sync.js:39-42 | without a cloud account the local save is applied, nothing is pushed and the pending flag is untouched |
| Sync.PullPushesOnlyLocal | src/sync.js:55-59 | after a row is fetched the merged save is applied, and it is pushed back exactly when the local save won |
| Sync.PullSetsFlagOnFetchError | src/sync.js:43-48 | a pull sets the pending flag exactly when it is a cloud pull whose fetch fails, and never clears it |
| Sync.FlushOutcomes | src/sync.js:111-122 | a flush that reaches the backend clears the flag on success and sets it on failure; a local or offline flush leaves it; it reaches the backend exactly for a cloud account with a configured backend |
| Sync.SyncFlag.constructor | src/sync.js:3 | no sync is pending at start |
| Sync.SyncFlag.MarkPendingSync | src/sync.js:75-77 | a sync is pending afterwards |
| Sync.SyncFlag.HasPendingSync | src/sync.js:79-81 | reports the flag |
| Sync.SyncFlag.ScheduleAutosave | src/sync.js:83-97 | the flag is set for a cloud account with a configured backend and otherwise unchanged |
| Sync.SyncFlag.AutosaveFires | src/sync.js:88-96 | after the debounced push the flag says whether the push threw |
| Sync.SyncFlag.AttemptPendingSync | src/sync.js:99-109 | nothing changes unless a sync is pending for a cloud account; then the flag says whether the push threw |
| Sync.SyncFlag.FlushPendingSync | src/sync.js:111-122 | the status and new flag are those `FlushResult` gives, whose properties `FlushOutcomes` states |
| Sync.SyncFlag.PullLatestState | src/sync.js:39-60 | the outcome and new flag are those `PullResult` gives, whose properties the `Pull` lemmas state |
| Sync.SyncFlag.SyncStatus | src/sync.js:124-127 | `Cloud sync pending` exactly while a sync is pending, otherwise `All changes synced` |
| Sync.StatusReportsPending | src/sync.js:124-127 | the two messages differ, so the status tells the flag apart |
| Sync.MergeSaves | src/sync.js:17-30 | `mergeSaves`; `MergeOneSide`, `MergeNewestWins` and `MissingCloudTimeIsEpoch` state the lone-save, newest-wins and epoch rules |
| Sync.IsCloudMode | src/sync.js:7-9 | `isCloudMode`: a cloud mode with a non-empty profile id; `PullLocalMode` states that otherwise nothing is fetched or pushed |
| Sync.PullResult | src/sync.js:39-60 | `pullLatestState` and the flag; `PullLocalMode`, `PullPushesOnlyLocal` and `PullSetsFlagOnFetchError` state its branches |
| Sync.FlushResult | src/sync.js:111-122 | `flushPendingSync` and the flag; `FlushOutcomes` states every branch |
| Sync.Time | src/sync.js:24-25 | `new Date(stamp \|\| fallback).getTime()`: a missing stamp reads as the fallback and an unparseable one as `NaN`; MissingCloudTimeIsEpoch states that a missing cloud time reads as 0 |
| Sync.Later | src/sync.js:27 | `cloudTime > localTime`, false when either is `NaN`; MergeSaves takes the cloud save exactly when it holds, which MergeNewestWins restates as a strictly later cloud time with ties going to local |
| Sync.PushThrows | src/sync.js:62-71 | `pushSave` throws only in cloud mode with a configured backend whose upsert fails; AutosaveFires and AttemptPendingSync state the flag after it |
| TerminalLogic.SliceFrom | src/terminalLogic.js:10 | `slice(start)`: a negative start counts from the end and is clamped at 0, a positive one is clamped at the length |
| TerminalLogic.HistoryManager.constructor | src/terminalLogic.js:2-6 | the history starts empty at the given limit, cursor at -1 |
| TerminalLogic.HistoryManager.Default | src/terminalLogic.js:2 | the default limit is 50 |
| TerminalLogic.HistoryManager.Push | src/terminalLogic.js:8-12 | a blank command changes nothing; otherwise the entries become `PushEntries` of the old ones and the cursor moves past the newest |
| TerminalLogic.HistoryManager.Previous | src/terminalLogic.js:14-18 | the cursor and entry are those `PreviousStep` gives; `''` on an empty history |
| TerminalLogic.HistoryManager.Next | src/terminalLogic.js:20-24 | the cursor and entry are those `NextStep` gives; `''` on an empty history |
| TerminalLogic.PushKeepsLast | src/terminalLogic.js:10 | with a limit of 2 or more a push keeps exactly the last `limit` commands, the new one last |
| TerminalLogic.PushBounded | src/terminalLogic.js:10 | with a limit of 2 or more a history within its limit stays within it |
| TerminalLogic.PushLimitOne | src/terminalLogic.js:10 | with a limit of 1 `slice(-0)` keeps everything, so the history grows by one each push |
| TerminalLogic.Navigation | src/terminalLogic.js:14-24 | `previous` steps back one entry and stops at the oldest; `next` steps forward and gives `''` past the newest |
| TerminalLogic.PreviousThenNext | src/terminalLogic.js:14-24 | back then forth returns the cursor to where it was, unless it was at the oldest entry |
| TerminalLogic.RespectsLimit | src/terminalLogic.js:8-12 | with a limit of 2, three pushes keep the last two |
| TerminalLogic.NavigatesThree | src/terminalLogic.js:14-24 | from past the newest of three entries, three steps back give them newest first and three forward give the two newer ones and `''` |
| TerminalLogic.AddAllSpec | src/terminalLogic.js:28-32 | adding to the insertion-ordered set keeps its old elements in front, adds exactly the new ones and never holds one twice |
| TerminalLogic.AddAllAppend | src/terminalLogic.js:30-36 | adding two lists in turn is adding their concatenation |
| TerminalLogic.AddOne | src/terminalLogic.js:32 | `paths.add` appends an element only when it is new |
| TerminalLogic.Walk | src/terminalLogic.js:29-37 | the recursive walk adds the tree's paths, in visiting order, to the set |
| TerminalLogic.BuildCompletionCatalog | src/terminalLogic.js:27-43 | the commands are passed through and the paths are the tree's paths, first occurrence order |
| TerminalLogic.CatalogPaths | src/terminalLogic.js:27-43 | each path of the tree is in the catalogue, exactly once, and nothing else is |
| TerminalLogic.PathsMembers | src/terminalLogic.js:30-36 | a path is listed exactly when it is an entry's own path or a path inside that entry |
| TerminalLogic.SampleTreePaths | src/terminalLogic.js:29-37 | a folder `home` with two files gives `home`, `home/readme`, `home/tips` |
| TerminalLogic.SampleCatalogBuilt | src/terminalLogic.js:27-43 | the catalogue of that tree lists those three paths |
| TerminalLogic.KeepPrefixed | src/terminalLogic.js:50 | the filter keeps exactly the items starting with the token, never more than it was given |
| TerminalLogic.Tokens | src/terminalLogic.js:46-47 | the split is never empty and no token holds whitespace |
| TerminalLogic.CompletionOutcomes | src/terminalLogic.js:45-60 | every match starts with the last token and comes from the commands (one token) or the paths; one match completes, several suggest with the input unchanged, none gives no matches and means no candidate fits |
| TerminalLogic.TokensOutcomes | src/terminalLogic.js:48-59 | the same three outcomes for any non-empty token list |
| TerminalLogic.CompletesCommand | src/terminalLogic.js:49-54 | a single word that exactly one command extends completes to that command |
| TerminalLogic.NoWhitespaceOneToken | src/terminalLogic.js:47 | a word without whitespace splits into itself |
| TerminalLogic.SplitWordThenSpace | src/terminalLogic.js:47 | a word, a whitespace character and the rest split into the word and the rest's tokens |
| TerminalLogic.SplitCatH | src/terminalLogic.js:47 | `cat h` splits into `cat` and `h` |
| TerminalLogic.CompletesHe | src/terminalLogic.js:51-55 | `he` completes to `help` |
| TerminalLogic.OnlyHelpStartsHe | src/terminalLogic.js:50 | of `help`, `clear` and `cat` only `help` starts with `he` |
| TerminalLogic.SuggestsC | src/terminalLogic.js:56-58 | `c` suggests `clear` and `cat`, input unchanged |
| TerminalLogic.NothingForUnknown | src/terminalLogic.js:59 | `unknown` matches nothing |
| TerminalLogic.AllPathsStartWithH | src/terminalLogic.js:50 | every sample path starts with `h` |
| TerminalLogic.SuggestsPaths | src/terminalLogic.js:49-58 | after a command the last token is matched against the paths: `cat h` suggests all three |
| TerminalLogic.PushEntries | src/terminalLogic.js:8-12 | the entries after `push`; `PushKeepsLast`, `PushBounded` and `PushLimitOne` state what it keeps |
| TerminalLogic.PreviousStep | src/terminalLogic.js:14-18 | the cursor and entry after `previous`; `Navigation` and `PreviousThenNext` state its steps |
| TerminalLogic.NextStep | src/terminalLogic.js:20-24 | the cursor and entry after `next`; `Navigation` and `PreviousThenNext` state its steps |
| TerminalLogic.GetCompletions | src/terminalLogic.js:45-60 | `getCompletions`; `CompletionOutcomes` states its three outcomes and where the matches come from |
| TerminalLogic.CompleteTokens | src/terminalLogic.js:48-59 | the completion for a token list; `TokensOutcomes` states its three outcomes |
| TerminalLogic.HistoryManager.Valid | src/terminalLogic.js:2-23 | the cursor is -1 while the history is empty and otherwise lies from 0 to the length; every method keeps it |
| TerminalLogic.ChildPath | src/terminalLogic.js:31 | `base ? base/name : name`; PathsMembers and SampleTreePaths state the paths it builds |
| TerminalLogic.Kids | src/terminalLogic.js:30-33 | the entries of a node, none for a leaf value, matching `typeof value === 'object'`; Walk and PathsMembers range over them |
| TerminalLogic.Paths | src/terminalLogic.js:29-37 | the paths the walk adds for the first `i` entries, in order; PathsMembers characterises them entry by entry |
| TerminalLogic.AllPaths | src/terminalLogic.js:29-38 | every path the walk visits; Walk is proved equal to adding them to the set, CatalogPaths that the catalogue lists each exactly once |
| TerminalLogic.AddAll | src/terminalLogic.js:28-32 | `paths.add` on each in turn, in insertion order; AddAllSpec proves the old elements stay in front, exactly the new ones are appended and none twice |
| TerminalLogic.Distinct | src/terminalLogic.js:41 | no element twice, as in `Array.from(new Set)`; AddAllSpec and CatalogPaths prove it of the catalogue's paths |
| TerminalLogic.InEntry | src/terminalLogic.js:31-35 | a path is an entry's own path or lies inside it; PathsMembers states membership with it |
| Terminal.FlatAll | src/terminal.js:175 | one string per entry, a card given by its content |
| Terminal.Texts | src/terminal.js:54-172 | one plain line per string, in order |
| Terminal.FirstPending | src/terminal.js:12 | `quests.find` stops at the first quest of the zone that is not complete, and every quest before it is not pending |
| Terminal.FirstOpenZone | src/terminal.js:10-14 | the loop stops at the first zone that is unlocked and has a pending quest; every zone before it is locked or done |
| Terminal.NextRecommended | src/terminal.js:9-16 | a recommendation is a pending quest of an unlocked zone, both from the tables; there is none exactly when every unlocked zone has no pending quest |
| Terminal.NextRecommendedIsFirst | src/terminal.js:10-14 | the recommendation is the earliest: every zone before it is locked or done and every quest before it in the zone is complete |
| Terminal.NextRecommendedQuest | src/terminal.js:9-16 | the loop returns `NextRecommended` |
| Terminal.StripQuotes | src/terminal.js:150 | the result is never longer than the text |
| Terminal.StripQuotesCases | src/terminal.js:150 | one quote goes from each end; a lone `"` goes; text with no quote at either end is unchanged |
| Terminal.ParseEcho | src/terminal.js:144-151 | there is no redirection exactly when the text has no `>`, and the target never holds one |
| Terminal.EchoSplitsAtLast | src/terminal.js:145-151 | the split is at the last `>`: content before it trimmed and unquoted, target after it trimmed |
| Terminal.CdOutcome | src/terminal.js:101-106 | `cd` never changes the tree |
| Terminal.TouchOutcome | src/terminal.js:113-122 | `touch` never changes the current directory |
| Terminal.MkdirOutcome | src/terminal.js:123-132 | `mkdir` never changes the current directory |
| Terminal.RmOutcome | src/terminal.js:133-142 | `rm` never changes the current directory |
| Terminal.EchoOutcome | src/terminal.js:143-159 | `echo` never changes the current directory |
| Terminal.KeepLines | src/terminal.js:46 | the filter keeps exactly the lines whose text holds the pattern, never more than it was given |
| Terminal.PipeLeft | src/terminal.js:42 | the left side of a pipe holds no `\|`, so running it never pipes again |
| Terminal.RunHelp | src/terminal.js:57-66 | the output is `HelpOutput`, whose card rule `HelpShowsCard` states |
| Terminal.RunLs | src/terminal.js:74-78 | the output is the listing of `LsOutput` |
| Terminal.RunTutorial | src/terminal.js:83-96 | the output is the card of `TutorialOutput` for the next recommended quest |
| Terminal.RunCd | src/terminal.js:101-106 | output, tree and directory become those of `CdOutcome` |
| Terminal.RunTouch | src/terminal.js:113-122 | output, tree and directory become those of `TouchOutcome` |
| Terminal.RunMkdir | src/terminal.js:123-132 | output, tree and directory become those of `MkdirOutcome` |
| Terminal.RunRm | src/terminal.js:133-142 | output, tree and directory become those of `RmOutcome` |
| Terminal.RunEcho | src/terminal.js:143-159 | output, tree and directory become those of `EchoOutcome` |
| Terminal.RunGrep | src/terminal.js:160-170 | the output is that of `GrepOutput` |
| Terminal.Dispatch | src/terminal.js:53-173 | the `switch (cmd)` on the live file system gives the output, tree and directory of `RespondTo` |
| Terminal.DispatchReader | src/terminal.js:56-173 | the reading commands leave the file system alone and answer as `RespondTo` |
| Terminal.DispatchWriter | src/terminal.js:101-159 | the writing commands answer and change the file system as `RespondTo` |
| Terminal.RunSingle | src/terminal.js:37-177 | a line without a grep stage gives the run `Single` describes; the rest of the state is untouched |
| Terminal.FilterLines | src/terminal.js:46-47 | the grep stage's output is `PipeOutput` |
| Terminal.FilterAndLog | src/terminal.js:46-49 | the filtered output is returned and logged once under the whole line |
| Terminal.FinishPipe | src/terminal.js:46-49 | after the left side ran, the run is the one `Piped` describes |
| Terminal.ExecutePipe | src/terminal.js:41-50 | on a grep line the left side is defined and the result is the grep stage over the left side's run |
| Terminal.RunPipeLine | src/terminal.js:41-50 | a grep line gives the run `Execute` describes |
| Terminal.ExecuteCommand | src/terminal.js:36-178 | output, command, tree, directory and log become those of `Execute`; nothing else in the state changes |
| Terminal.BlankInput | src/terminal.js:37-38 | blank input prints one empty line, has an empty command and logs nothing |
| Terminal.LineLoggedOnce | src/terminal.js:175-177 | a command is logged once, trimmed, with its output joined by newlines |
| Terminal.PipeLoggedTwice | src/terminal.js:45-176 | a grep line logs the left command with its own output, then the whole line with the filtered output; the file system is what the left command left |
| Terminal.PipeKeepsMatches | src/terminal.js:46-47 | the grep stage keeps exactly the left lines holding the pattern, or prints `(no matches)` when none does |
| Terminal.PipeOneLine | src/terminal.js:46-47 | over one line the grep stage prints that line or `(no matches)` |
| Terminal.KeepOne | src/terminal.js:46 | a single line is kept exactly when it holds the pattern |
| Terminal.LsPipeWholeLine | src/terminal.js:46-76 | `ls \| grep p` prints the whole listing or `(no matches)`, never single names |
| Terminal.HelpShowsCard | src/terminal.js:57-66 | `help` ends with the command list and shows the welcome card exactly until some quest is complete |
| Terminal.CardUntilComplete | src/terminal.js:58-64 | a card shown only while no quest is complete sits ahead of the command list |
| Terminal.OnlyWritersChangeTree | src/terminal.js:56-173 | only `touch`, `mkdir`, `rm` and `echo` change the tree, and only `cd` the current directory |
| Terminal.MissingName | src/terminal.js:115-138 | `touch`, `mkdir` and `rm` without a name print their usage line and change nothing |
| Terminal.GrepUsage | src/terminal.js:163-166 | `grep` without both a pattern and a file prints its usage line and changes nothing |
| Terminal.UnknownCommand | src/terminal.js:171-172 | any other word is answered with `Unknown command:` and the word, changing nothing |
| Terminal.CdNoArgument | src/terminal.js:101-104 | `cd` alone prints the current path |
| Terminal.SetChildResolves | src/terminal.js:119-156 | a name bound under the current directory resolves from there to the new node |
| Terminal.EchoIntoCwd | src/terminal.js:143-158 | `echo text > name` writes the trimmed, unquoted text as the file `name` and prints it |
| Terminal.EchoThenCat | src/terminal.js:107-158 | after `echo text > name`, `cat name` prints that text |
| Terminal.MkdirThenCd | src/terminal.js:101-132 | after `mkdir name` of a new name, `cd name` enters it |
| Terminal.TouchThenCat | src/terminal.js:107-122 | after `touch name` of a new name, `cat name` prints the empty string |
| Terminal.RmThenCat | src/terminal.js:107-142 | after `rm name`, `cat name` prints `Not found`; `rm` says `Removed` exactly when the name existed |
| Terminal.HasCompletedQuest | src/terminal.js:5-7 | some status entry is completed; `HelpShowsCard` states that the help card shows exactly until then |
| Terminal.RespondTo | src/terminal.js:53-173 | the `switch (cmd)` as a function; `OnlyWritersChangeTree`, `UnknownCommand`, `CdNoArgument`, `MissingName` and `GrepUsage` state its cases |
| Terminal.Single | src/terminal.js:36-40 | a line with no grep stage; `BlankInput` and `LineLoggedOnce` state the blank case and the single log entry |
| Terminal.Piped | src/terminal.js:41-50 | the grep stage after the left side; `PipeKeepsMatches` and `PipeLoggedTwice` state its filter and its two log entries |
| Terminal.Execute | src/terminal.js:36-178 | `executeCommand` as a function; `BlankInput`, `LineLoggedOnce`, `PipeLoggedTwice` and the round-trip lemmas `EchoThenCat`, `MkdirThenCd`, `RmThenCat` state what it does |
| Terminal.Flat | src/terminal.js:175 | one output entry as text: a string itself, a card its content; FlatAll and Texts state it over a whole output |
| Terminal.LogText | src/terminal.js:175-176 | the flattened output joined with newlines, as logged; LineLoggedOnce and PipeLoggedTwice state the log entries with it |
| Terminal.Pending | src/terminal.js:12 | the quest is in the zone and not complete; FirstPending and NextRecommended are stated with it |
| Terminal.Command | src/terminal.js:53 | the first piece of `trimmed.split(' ')`; Dispatch, DispatchReader, MissingName and OnlyWritersChangeTree select their case through it |
| Terminal.Args | src/terminal.js:53 | the other pieces of `trimmed.split(' ')`; MissingName, GrepUsage and OnlyWritersChangeTree read the arguments through it |
| Terminal.VerbOf | src/terminal.js:56-173 | the cases of `switch (cmd)`, any other word unknown; UnknownCommand and OnlyWritersChangeTree state the dispatch on it |
| Terminal.ArgOr | src/terminal.js:75-162 | `args[k] \|\| ''`; MissingName and GrepUsage state the missing-argument replies through it |
| Terminal.CommandDefined | src/terminal.js:113-158 | the inputs handled without throwing: `touch`/`mkdir` need a live current directory, `rm`/`echo` a parent that is not a file; Dispatch and RunSingle require it, and Defined includes it |
| Terminal.HelpOutput | src/terminal.js:57-66 | the welcome card while no quest is complete, then the command list; HelpShowsCard states both cases and CardUntilComplete the order |
| Terminal.LsOutput | src/terminal.js:74-78 | the sorted listing joined with two spaces, or `Not a directory`; RunLs is proved equal to it and LsPipeWholeLine states that the listing is one line |
| Terminal.TutorialItems | src/terminal.js:88-92 | the zone, goal and first-hint lines of the tutorial card; TutorialOutput shows them for NextRecommended's quest |
| Terminal.TutorialOutput | src/terminal.js:83-96 | the "All quests clear!" card when nothing is recommended, else the Next card for the recommended quest; RunTutorial is proved equal to it |
| Terminal.CatLine | src/terminal.js:107-111 | `Not found`, `Not a file` or the content; EchoThenCat, TouchThenCat and RmThenCat are stated through it |
| Terminal.GrepOutput | src/terminal.js:160-170 | the usage line for a missing argument, `File not found`, `(no matches)` or the matching lines; RunGrep is proved equal to it and GrepUsage states the usage case |
| Terminal.IsGrepPipe | src/terminal.js:41-43 | the line holds `\|` and its second part, trimmed, starts with `grep`; ExecutePipe and PipeLoggedTwice are stated for it |
| Terminal.PipePattern | src/terminal.js:44 | the right side's words after the first, joined with spaces; PipeKeepsMatches states the filter with it |
| Terminal.PlainOutput | src/terminal.js:45-46 | the left side of a grep stage yields only strings (no card), which the filter needs; Defined includes it for a pipe's left side |
| Terminal.Defined | src/terminal.js:36-51 | the inputs `executeCommand` handles without throwing; Execute and ExecuteCommand require it |
| Terminal.LeftDefined | src/terminal.js:45 | the left side of a grep stage runs without throwing; ExecutePipe requires it |
| Terminal.PipeOutput | src/terminal.js:46-47 | the left output's lines that contain the pattern, or `(no matches)`; FilterLines is proved equal to it and PipeKeepsMatches states the result |
| Terminal.Writes | src/terminal.js:101-158 | the commands that may change the tree or `cwd`: cd, touch, mkdir, rm and echo; Dispatch routes these to DispatchWriter, and DispatchReader proves the others change neither |
| ShellEngine.QuoteIndex | src/engine/shellEngine.ts:66 | the position of the first `"`, or none when the text has none |
| ShellEngine.MatchLength | src/engine/shellEngine.ts:66 | a match at the front never runs past the text |
| ShellEngine.Matches | src/engine/shellEngine.ts:66 | every match of the global regex is non-empty |
| ShellEngine.RemoveQuotes | src/engine/shellEngine.ts:66 | exactly the characters other than `"` are kept |
| ShellEngine.Unquote | src/engine/shellEngine.ts:66 | one token per match, none holding a `"` |
| ShellEngine.Tokenize | src/engine/shellEngine.ts:65-67 | no token holds a `"` |
| ShellEngine.RemoveQuotesPlain | src/engine/shellEngine.ts:66 | a token without quotes is kept as it is |
| ShellEngine.WordLength | src/engine/shellEngine.ts:66 | a plain word before whitespace or the end is matched whole |
| ShellEngine.QuoteIndexAfter | src/engine/shellEngine.ts:66 | the closing quote of a span is the first `"` after it opens |
| ShellEngine.QuotedLength | src/engine/shellEngine.ts:66 | a closed `"..."` span before whitespace or the end is matched whole, quotes included |
| ShellEngine.QuotedStep | src/engine/shellEngine.ts:66 | a closed quoted span is matched and the match goes on after it |
| ShellEngine.MatchStops | src/engine/shellEngine.ts:66 | no match starts at whitespace or at the end |
| ShellEngine.MatchesFront | src/engine/shellEngine.ts:66 | the matches are the front match followed by the matches of the rest |
| ShellEngine.TokenizeWord | src/engine/shellEngine.ts:65-67 | a plain word followed by whitespace or the end is one token |
| ShellEngine.TokenizeQuoted | src/engine/shellEngine.ts:65-67 | a closed `"..."` span is one token, spaces kept and quotes dropped |
| ShellEngine.RemoveQuotesAppend | src/engine/shellEngine.ts:66 | a closing quote is dropped |
| ShellEngine.TokenizeBlank | src/engine/shellEngine.ts:65-67 | whitespace separates tokens and is dropped |
| ShellEngine.TokenizeUnclosed | src/engine/shellEngine.ts:65-67 | a `"` that is never closed is skipped |
| ShellEngine.TokenizeWords | src/engine/shellEngine.ts:65-67 | plain words joined by spaces tokenize back to themselves |
| ShellEngine.EnvLines | src/engine/shellEngine.ts:69-74 | one `KEY=value` line per variable, every variable listed, the lines in strictly increasing key order (`KeyLines` over `Ordering.SortSet` of the keys) |
| ShellEngine.KeyLines | src/engine/shellEngine.ts:72 | one `KEY=value` line per key, in key order |
| ShellEngine.KeyLinesList | src/engine/shellEngine.ts:70-72 | a key list covering the environment lists every pair |
| ShellEngine.PsLines | src/engine/shellEngine.ts:93-96 | the header, then one row per process in table order |
| ShellEngine.Each | src/engine/shellEngine.ts:95 | `map`: one result per element, in order |
| ShellEngine.FindPid | src/engine/shellEngine.ts:108 | `findIndex` finds the first process with the pid, or none when no process has it |
| ShellEngine.HistoryLines | src/engine/shellEngine.ts:117-121 | one line per history entry, numbered from 1 |
| ShellEngine.NumberedFrom | src/engine/shellEngine.ts:119 | one result per entry and its position, in order |
| ShellEngine.IndexOf | src/engine/shellEngine.ts:124 | `indexOf`: the first index of the element, or -1 when it is absent |
| ShellEngine.PingLines | src/engine/shellEngine.ts:123-134 | the header, `count` numbered samples for the host, and the statistics line |
| ShellEngine.Samples | src/engine/shellEngine.ts:131 | `count` samples, numbered in order |
| ShellEngine.CurlUrl | src/engine/shellEngine.ts:138 | the first argument starting with `http`, or the default url when none does |
| ShellEngine.CurlLines | src/engine/shellEngine.ts:136-143 | with `-I` the four simulated header lines, else the simulated body, both naming the url |
| ShellEngine.FindQuestByCommand | src/engine/shellEngine.ts:167-171 | the first quest whose command matches, or none when no quest matches |
| ShellEngine.Engine.constructor | src/engine/shellEngine.ts:17-30 | the starting environment, an empty history, the three processes and `core-utils`; the quests are the catalogue's |
| ShellEngine.Engine.HandleExport | src/engine/shellEngine.ts:76-90 | reply and environment are those `ExportResult` gives |
| ShellEngine.Engine.HandleKill | src/engine/shellEngine.ts:100-115 | reply and process table are those `KillResult` gives |
| ShellEngine.Engine.HandlePackage | src/engine/shellEngine.ts:145-157 | reply and package set are those `PackageResult` gives |
| ShellEngine.Engine.Run | src/engine/shellEngine.ts:32-63 | reply and fields are those `Execute` gives |
| ShellEngine.Engine.Switch | src/engine/shellEngine.ts:41-62 | reply and fields are those `Dispatch` gives on the first token |
| ShellEngine.InitialValid | src/engine/shellEngine.ts:24-30 | the starting engine has distinct pids and no package twice |
| ShellEngine.DispatchFrame | src/engine/shellEngine.ts:41-62 | the switch never touches the history, and changes only the field its verb owns |
| ShellEngine.BlankCommandRefused | src/engine/shellEngine.ts:33-36 | a blank command is refused with `Type a command to begin.` and changes nothing |
| ShellEngine.CommandRecorded | src/engine/shellEngine.ts:33-39 | any other command is trimmed and appended to the history, and only the field its verb owns changes |
| ShellEngine.KillOutcomes | src/engine/shellEngine.ts:100-115 | a refused `kill` keeps the table and a successful one removes one process; a missing or non-numeric pid gets its usage reply |
| ShellEngine.KillKeepsDistinct | src/engine/shellEngine.ts:113 | `kill` keeps the pids distinct |
| ShellEngine.KillRemovesProcess | src/engine/shellEngine.ts:108-114 | a pid in the table removes exactly that process, the rest in order, and is reported terminated; an unknown pid is reported and the table kept |
| ShellEngine.RemoveAtMembers | src/engine/shellEngine.ts:113 | dropping one entry of a table with distinct pids leaves exactly the processes with another pid |
| ShellEngine.TerminatedReply | src/engine/shellEngine.ts:114 | the success reply says `terminated safely` |
| ShellEngine.PackagesGrow | src/engine/shellEngine.ts:145-157 | an install adds a new package at the end and says `installed` or `reinstalled`; another action is a usage error changing nothing; no package is lost or held twice |
| ShellEngine.ExecuteKeepsValid | src/engine/shellEngine.ts:32-63 | every command keeps the pids distinct and the packages free of duplicates |
| ShellEngine.DispatchKeepsValid | src/engine/shellEngine.ts:41-62 | so does every case of the switch |
| ShellEngine.ExportAssigns | src/engine/shellEngine.ts:80-89 | `export K=V` sets the trimmed key to the trimmed rest, `=` included; both must be non-empty and the reply says `added` or `updated` |
| ShellEngine.ExportNeedsEquals | src/engine/shellEngine.ts:77-79 | without `=` an `export` is a usage error changing nothing |
| ShellEngine.ExportThenEnv | src/engine/shellEngine.ts:69-90 | after an `export`, `env` lists the exported pair |
| ShellEngine.TrimStartSpaces | src/engine/shellEngine.ts:119 | the padding of a history number trims away |
| ShellEngine.NumberedParts | src/engine/shellEngine.ts:119 | a history line gives back its number and its entry |
| ShellEngine.HistoryListsItself | src/engine/shellEngine.ts:38-121 | `history` lists every command so far, itself last, and changes nothing else |
| ShellEngine.HistoryTokens | src/engine/shellEngine.ts:39 | the word `history` is one token |
| ShellEngine.HistoryVerb | src/engine/shellEngine.ts:50 | and selects the `history` case |
| ShellEngine.HistoryWord | src/engine/shellEngine.ts:33-50 | the command `history` is not blank and selects that case |
| ShellEngine.PingWithCount | src/engine/shellEngine.ts:124-130 | `-c n` gives `n` when it is a positive number and 4 otherwise, and both arguments are removed before the host is read |
| ShellEngine.PingWithoutCount | src/engine/shellEngine.ts:124-130 | without `-c`, 4 samples to the first argument or `localhost` |
| ShellEngine.KillLogWatcher | src/engine/shellEngine.ts:24-115 | from the starting table `kill 202` succeeds and leaves the other two processes in order |
| ShellEngine.KillLogWatcherGone | src/engine/shellEngine.ts:26-113 | after it no process is called `log-watcher` |
| ShellEngine.InstallTracerTwice | src/engine/shellEngine.ts:30-155 | `apt install tracer` twice succeeds both times; the first adds `tracer` after `core-utils`, the second changes nothing |
| ShellEngine.PsText | src/engine/shellEngine.ts:92-98 | the `ps` reply: the header and a newline alone for an empty table, otherwise the header and the rows one per line |
| ShellEngine.PsReply | src/engine/shellEngine.ts:46-47 | `ps` replies with the table text and changes no field |
| ShellEngine.PsAfterKillingAll | src/engine/shellEngine.ts:92-115 | killing each process of a three-entry table front to back succeeds every time and leaves `ps` printing the header and a newline |
| ShellEngine.KillFront | src/engine/shellEngine.ts:100-115 | `kill` of the first process's pid succeeds and leaves the rest of the table |
| ShellEngine.ExportResult | src/engine/shellEngine.ts:76-90 | `handleExport` with the new environment; `ExportAssigns`, `ExportNeedsEquals` and `ExportThenEnv` state its cases |
| ShellEngine.KillResult | src/engine/shellEngine.ts:100-115 | `handleKill` with the new table; `KillOutcomes`, `KillRemovesProcess` and `KillKeepsDistinct` state its cases |
| ShellEngine.PackageResult | src/engine/shellEngine.ts:145-157 | `handlePackage` with the new package list; `PackagesGrow` states its cases |
| ShellEngine.PingPlan | src/engine/shellEngine.ts:124-130 | the count and host of `handlePing`; `PingWithCount` and `PingWithoutCount` state both cases |
| ShellEngine.Dispatch | src/engine/shellEngine.ts:41-62 | the switch of `run`; `DispatchFrame`, `DispatchKeepsValid` and `PsReply` state what each case changes |
| ShellEngine.Execute | src/engine/shellEngine.ts:32-63 | `run`; `BlankCommandRefused`, `CommandRecorded`, `HistoryListsItself` and `ExecuteKeepsValid` state what it does |
| ShellEngine.NoDuplicates | src/engine/shellEngine.ts:30 | the package list holds each name once, as a `Set` does; PackagesGrow and DispatchKeepsValid prove installs keep it |
| ShellEngine.DistinctPids | src/engine/shellEngine.ts:24-28 | no two processes share a pid; InitialValid, KillKeepsDistinct and DispatchKeepsValid prove it holds and is kept |
| ShellEngine.Valid | src/engine/shellEngine.ts:24-30 | both invariants together; ExecuteKeepsValid and DispatchKeepsValid prove every command keeps them |
| ShellEngine.ArgAt | src/engine/shellEngine.ts:49-147 | `args[i]`, with `undefined` read as "" (both falsy); PingPlan, Dispatch's kill case and PackagesGrow read their arguments through it |
| ShellEngine.Plain | src/engine/shellEngine.ts:66 | a character of `[^\s"]`; WordLength, TokenizeWord and TokenizeWords are stated for words made of it |
| ShellEngine.PsRow | src/engine/shellEngine.ts:95 | the pid padded to 5, a space, the status padded to 9, a space, the name; PsLines and PsText place one per process |
| ShellEngine.Numbered | src/engine/shellEngine.ts:119 | the 1-based number padded to 3 on the left, two spaces, the entry; NumberedParts proves the line parses back to its number and entry |
| ShellEngine.Sample | src/engine/shellEngine.ts:131 | one echo reply naming the host, the 1-based sequence number and the delay given as a parameter; Samples lists one per index |
| ShellEngine.PingStats | src/engine/shellEngine.ts:132 | the statistics line with the count twice and 0% loss; PingLines ends with it |
| ShellEngine.CommandMatches | src/engine/shellEngine.ts:170 | the command equals the quest's, or starts with its first word; FindQuestByCommand finds the first quest with it |
| ShellEngine.BasicsText | src/engine/shellEngine.ts:159-165 | the quest hint and objective of the first matching quest, else the "simulated" notice; FindQuestByCommand's contract fixes which quest |
| ShellEngine.CatalogueQuests | src/engine/shellEngine.ts:168-169 | every catalogue quest in zone order; CatalogueValid proves there are 35 with distinct ids |
| ShellEngine.VerbOf | src/engine/shellEngine.ts:41-62 | the cases of the switch in `run`, any other word going to the basics handler; DispatchFrame and HistoryVerb state the dispatch on it |
| ShellEngine.Head | src/engine/shellEngine.ts:39 | the first token, "" when there is none; Execute dispatches on it, and HistoryWord and HistoryListsItself state the history case through it |
| ShellEngine.Tail | src/engine/shellEngine.ts:39 | the tokens after the first; Execute passes them on, and CommandRecorded and ExecuteKeepsValid are stated through it |
| ShellEngine.Engine.State | src/engine/shellEngine.ts:17-30 | the engine's four fields as one value; Run and Switch are proved to leave it equal to Execute and Dispatch |
| QuestData.AllQuests | src/data/quests.ts:373 | the flattened list holds exactly the quests of the zones |
| QuestData.QuestTotalCountsAll | src/data/quests.ts:373-407 | summing the zone sizes counts the flattened list |
| QuestData.Ids | src/data/quests.ts:380-386 | the `ids` set holds exactly the ids seen |
| QuestData.ZoneCountsKeys | src/data/quests.ts:387-390 | the zones counted are exactly the zones some quest names |
| QuestData.DistinctSnoc | src/data/quests.ts:381-386 | appending a quest keeps the ids distinct exactly when its id is new |
| QuestData.DuplicateIssuesEmpty | src/data/quests.ts:380-386 | the first loop reports nothing exactly when the ids are distinct |
| QuestData.EmptyZoneIssuesEmpty | src/data/quests.ts:391-395 | the third loop reports nothing exactly when every zone is counted |
| QuestData.IssuesEmptyIff | src/data/quests.ts:369-396 | the schema passes exactly when there are at least four zones and 35 quests, the ids are distinct and every zone is named by a quest |
| QuestData.CollectDuplicates | src/data/quests.ts:380-386 | the loop reports each quest whose id an earlier quest had |
| QuestData.CountZones | src/data/quests.ts:387-390 | the loop counts the quests of each zone id |
| QuestData.ZoneCountsStep | src/data/quests.ts:389 | each quest adds one to its zone's count, starting from 0 |
| QuestData.CollectEmptyZones | src/data/quests.ts:391-395 | the loop reports each zone no quest names |
| QuestData.Validate | src/data/quests.ts:369-396 | the length check and the refinement report `Issues` |
| QuestData.Parse | src/data/quests.ts:398 | `parse` returns the data unchanged exactly when no issue is raised |
| QuestData.IdsOf | src/data/quests.ts:7 | the ids of a list, in order |
| QuestData.IdsOfAppend | src/data/quests.ts:373 | the ids of a concatenation are the concatenated ids |
| QuestData.ZoneIds | src/data/quests.ts:7-8 | a list with distinct ids marked by the zone digit has distinct ids all in that zone |
| QuestData.DistinctJoin | src/data/quests.ts:373-386 | lists with distinct ids marked by disjoint digits join with distinct ids |
| QuestData.FoundationsIdsListed | src/data/quests.ts:24-120 | zone 1's quest ids are `z1-q1` to `z1-q10` in order |
| QuestData.FoundationsFrontIds | src/data/quests.ts:30-74 | its first five ids |
| QuestData.FoundationsBackIds | src/data/quests.ts:75-119 | its last five ids |
| QuestData.FoundationsIdsDistinct | src/data/quests.ts:30-111 | those ids are distinct and marked `1` |
| QuestData.FoundationsInZone | src/data/quests.ts:24-120 | every quest of zone 1 says zone 1 |
| QuestData.FoundationsWellFormed | src/data/quests.ts:24-120 | zone 1 holds 10 quests of zone 1 with distinct ids marked `z1-` |
| QuestData.FilesmithsIdsListed | src/data/quests.ts:121-217 | zone 2's quest ids are `z2-q1` to `z2-q10` in order |
| QuestData.FilesmithsFrontIds | src/data/quests.ts:127-171 | its first five ids |
| QuestData.FilesmithsBackIds | src/data/quests.ts:172-216 | its last five ids |
| QuestData.FilesmithsIdsDistinct | src/data/quests.ts:127-208 | those ids are distinct and marked `2` |
| QuestData.FilesmithsInZone | src/data/quests.ts:121-217 | every quest of zone 2 says zone 2 |
| QuestData.FilesmithsWellFormed | src/data/quests.ts:121-217 | zone 2 holds 10 quests of zone 2 with distinct ids marked `z2-` |
| QuestData.ProcessGroundsIdsListed | src/data/quests.ts:218-296 | zone 3's quest ids are `z3-q1` to `z3-q8` in order |
| QuestData.ProcessGroundsFrontIds | src/data/quests.ts:224-259 | its first four ids |
| QuestData.ProcessGroundsBackIds | src/data/quests.ts:260-295 | its last four ids |
| QuestData.ProcessGroundsIdsDistinct | src/data/quests.ts:224-287 | those ids are distinct and marked `3` |
| QuestData.ProcessGroundsInZone | src/data/quests.ts:218-296 | every quest of zone 3 says zone 3 |
| QuestData.ProcessGroundsWellFormed | src/data/quests.ts:218-296 | zone 3 holds 8 quests of zone 3 with distinct ids marked `z3-` |
| QuestData.NetworkFrontierIdsListed | src/data/quests.ts:297-366 | zone 4's quest ids are `z4-q1` to `z4-q7` in order |
| QuestData.NetworkFrontierFrontIds | src/data/quests.ts:303-338 | its first four ids |
| QuestData.NetworkFrontierBackIds | src/data/quests.ts:339-365 | its last three ids |
| QuestData.NetworkFrontierIdsDistinct | src/data/quests.ts:303-357 | those ids are distinct and marked `4` |
| QuestData.NetworkFrontierInZone | src/data/quests.ts:297-366 | every quest of zone 4 says zone 4 |
| QuestData.NetworkFrontierWellFormed | src/data/quests.ts:297-366 | zone 4 holds 7 quests of zone 4 with distinct ids marked `z4-` |
| QuestData.FourZonesValid | src/data/quests.ts:369-396 | four zones numbered 1 to 4 with 35 well-formed quests in all raise no issue, and their ids are distinct across zones |
| QuestData.FlattenFour | src/data/quests.ts:373 | four zones flatten to their lists in order |
| QuestData.CatalogueZones | src/data/quests.ts:23-367 | the catalogue is the four zones numbered 1 to 4, with their quest lists |
| QuestData.CatalogueValid | src/data/quests.ts:23-398 | the shipped catalogue raises no issue, so `parse` returns it: 35 quests with distinct ids |
| QuestData.TotalQuestCountIs35 | src/data/quests.ts:407 | `totalQuestCount` is 35, the length of the flattened list |
| QuestData.QuestsByZone | src/data/quests.ts:400-401 | the quests of the first zone with the id, or none when no zone has it |
| QuestData.GetQuestsByZone | src/data/quests.ts:400-401 | zone ids 1 to 4 give their own quest lists, any other id none |
| QuestData.ByZoneOfFour | src/data/quests.ts:400-401 | over four zones numbered 1 to 4 each number gives its zone's list |
| QuestData.MasteryMonotone | src/data/quests.ts:403-405 | completing more quests never loses a zone's mastery |
| QuestData.MasteryOfSnoc | src/data/quests.ts:403-405 | a zone ending in a challenge quest is mastered exactly when all its quests are completed |
| QuestData.CatalogueMastery | src/data/quests.ts:403-405 | each catalogue zone is mastered exactly when all its quest ids are completed |
| QuestData.ChallengesLast | src/data/quests.ts:117-363 | each zone's last quest is its challenge |
| QuestData.Issues | src/data/quests.ts:369-396 | the issues `zonesSchema` raises; `IssuesEmptyIff` states exactly when there are none |
| QuestData.MasteryAchieved | src/data/quests.ts:403-405 | `masteryAchieved`; `MasteryOfSnoc`, `MasteryMonotone` and `CatalogueMastery` state when it holds |
| QuestData.QuestTotal | src/data/quests.ts:407 | the `reduce` summing the zones' quest counts; QuestTotalCountsAll proves it equals the flattened length and TotalQuestCountIs35 that it is 35 |
| QuestData.DistinctIds | src/data/quests.ts:380-386 | no two quests share an id; DuplicateIssuesEmpty proves the first loop reports nothing exactly then |
| QuestData.DuplicateIssues | src/data/quests.ts:380-386 | one issue for each quest whose id an earlier quest has, in order; CollectDuplicates is proved equal to it and DuplicateIssuesEmpty ties it to DistinctIds both ways |
| QuestData.ZoneCounts | src/data/quests.ts:387-390 | the `zoneMap` counting quests per zone; CountZones is proved equal to it, ZoneCountsKeys proves its keys are the quests' zones and ZoneCountsStep states one step |
| QuestData.EmptyZoneIssues | src/data/quests.ts:391-395 | one issue for each zone with no quest; CollectEmptyZones is proved equal to it and EmptyZoneIssuesEmpty proves it is empty exactly when every zone is counted |
| QuestData.IdsInZone | src/data/quests.ts:23-367 | every id carries one of the given digits after its `z`; DistinctJoin uses it to join zones without id clashes |
| QuestData.AllZone | src/data/quests.ts:23-367 | every quest of a list names the given zone; the per-zone InZone lemmas prove it of the data |
| QuestData.DistinctStrings | src/data/quests.ts:380-386 | no string twice; the per-zone IdsDistinct lemmas prove it of the data's ids |
| Ascii.Cutoff | src/ascii.js:8-10 | the cut is the last space among the first `width` characters when its index exceeds 16, and otherwise `width` |
| Ascii.Wrapped | src/ascii.js:7-15 | at least one segment, none longer than the width |
| Ascii.WrapText | src/ascii.js:3-16 | the empty line gives `['']`; no segment is longer than the width |
| Ascii.WrapLine | src/ascii.js:3-16 | the loop emits the segments `WrapText` describes |
| Ascii.VisibleConcat | src/ascii.js:11-12 | the visible characters of a concatenation are the concatenated visible characters |
| Ascii.VisibleBlank | src/ascii.js:11-12 | whitespace has no visible characters |
| Ascii.VisibleTrimStart | src/ascii.js:12 | `trimStart` keeps the visible characters |
| Ascii.VisibleTrimEnd | src/ascii.js:11 | `trimEnd` keeps the visible characters |
| Ascii.WrappedKeepsVisible | src/ascii.js:7-15 | the segments of the loop, laid end to end, keep the remainder's visible characters |
| Ascii.WrappedFront | src/ascii.js:8-12 | an over-long remainder gives its trimmed front segment, then the wrapping of the trimmed rest |
| Ascii.VisibleSplit | src/ascii.js:11-12 | splitting a string splits its visible characters |
| Ascii.WrapKeepsVisible | src/ascii.js:3-16 | wrapping drops only whitespace: the visible characters of the segments are those of the line |
| Ascii.MaxLen | src/ascii.js:28 | the length of the longest line, 0 for none |
| Ascii.ContentWidth | src/ascii.js:26-29 | the width lies in 18 to 44, holds every line plus 2 unless capped, and is attained by a line when above 18 and below 44 |
| Ascii.Border | src/ascii.js:31-32 | a border is exactly the width, with its two corners at the ends |
| Ascii.Row | src/ascii.js:33 | a row shows the line after `│ ` and is the width when the line fits in `w - 3`, else the line plus 3 |
| Ascii.Rows | src/ascii.js:33 | one row per line, in order |
| Ascii.BoxBorders | src/ascii.js:26-35 | the width lies in 18 to 44, both borders have exactly that length, and there are two more rows than lines |
| Ascii.BoxRow | src/ascii.js:33-35 | the row of each line shows it and is as wide as the border when the line fits |
| Ascii.LongestRowOverhangs | src/ascii.js:28-33 | the row of a longest line of 16 to 42 characters is one wider than the border |
| Ascii.WrappedItemsStep | src/ascii.js:22-24 | each item adds its bulleted, wrapped lines after the earlier ones |
| Ascii.WrappedItemsFit | src/ascii.js:22-24 | every wrapped item line fits in 40 characters |
| Ascii.BoxContentWidth | src/ascii.js:18-29 | every boxed line fits in 40, so the width is 18 or the longest line plus 2, never more than 42 |
| Ascii.FitConcat | src/ascii.js:19-24 | lines that each fit still fit when joined |
| Ascii.NarrowWidth | src/ascii.js:26-29 | lines within 40 characters get width 18 or the longest plus 2 |
| Ascii.Boxify | src/ascii.js:18-36 | the loops build the box of the wrapped title and bulleted items |
| Ascii.TutorialCard | src/ascii.js:47-49 | a tutorial card is the box of its title and lines |
| Ascii.QuestCompleteShowsRewards | src/ascii.js:59-65 | the first item lists each non-zero reward and reads `Progress logged.` exactly when both are 0; the second is `Keep the streak alive.` |
| Ascii.QuestComplete | src/ascii.js:58-66 | the `Quest Complete!` box of those items |
| Ascii.WelcomeRowOverhangs | src/ascii.js:26-33 | as written, the box of the title `Welcome to ShellQuest` has 23-character borders and a 24-character row |
| Ascii.AlignedWidth | src/ascii.js:26-29 | the corrected width lies in 18 to 44 and leaves room for every line plus 3 unless capped |
| Ascii.AlignedRows | src/ascii.js:31-35 | with the corrected width, lines within 40 characters give rows exactly as wide as the borders, each showing its line |
| Ascii.AlignedFits | src/ascii.js:26-29 | for lines within 40 characters the corrected width stays below the cap and leaves every line room for `│ ` and `│` |
| Ascii.RowsBetween | src/ascii.js:31-35 | lines that fit in the width minus 3 give a box whose every line is exactly the width, each row showing its line |
| Ascii.Framed | src/ascii.js:35 | two borders of width `w` around rows of width `w` make every line of the box `w` wide, the rows in order |
| Ascii.AlignedBoxIsRectangular | src/ascii.js:18-35 | every box of a title and items, at the corrected width, is rectangular |
| Ascii.Visible | src/ascii.js:7-14 | the non-whitespace characters, in order; WrapKeepsVisible proves wrapping keeps exactly these |
| Ascii.Flatten | src/ascii.js:14-15 | the segments laid end to end; WrappedKeepsVisible states the visible characters of the wrap through it |
| Ascii.BoxLines | src/ascii.js:31-35 | the top border, one row per line and the bottom border; BoxBorders and BoxRow state their widths and content |
| Ascii.Box | src/ascii.js:35 | the box lines joined with newlines; Boxify is proved equal to it on BoxContent |
| Ascii.AlignedBoxLines | src/ascii.js:26-35 | the corrected box, at AlignedWidth; AlignedRows and AlignedBoxIsRectangular prove it is rectangular |
| Ascii.BoxContent | src/ascii.js:19-24 | the wrapped title, then each item wrapped after a `• ` bullet; Boxify's loops are proved equal to it and BoxContentWidth bounds its width |
| Ascii.WrappedItems | src/ascii.js:22-24 | the bulleted items, each wrapped; WrappedItemsStep states one loop turn and WrappedItemsFit that every line fits in 40 |
| Ascii.QuestCompleteItems | src/ascii.js:59-65 | the reward line and "Keep the streak alive."; QuestCompleteShowsRewards states the reward line for every combination of rewards |
| Ascii.Banner | src/ascii.js:38-45 | the fixed four-line banner joined with newlines; a constant, with no lemma beyond its text |
| Strings.TrimStart | src/validators.js:4 | the result is a suffix of the input starting with a non-whitespace character, and everything dropped is whitespace |
| Strings.TrimEnd | src/validators.js:4 | the result is a prefix of the input ending with a non-whitespace character, and everything dropped is whitespace |
| Strings.TrimIdempotent | src/validators.js:4-9 | trimming twice is trimming once |
| Strings.TrimEmptyIffBlank | src/terminal.js:37-38 | `trim()` gives the empty string exactly for a blank input |
| Strings.Split | src/filesystem.js:33 | `split(c)` gives at least one piece, none holding `c` |
| Strings.JoinSplit | src/filesystem.js:33-112 | joining the pieces of a split with the separator gives the string back |
| Strings.SplitJoin | src/terminal.js:42 | splitting a join of separator-free pieces gives the pieces back |
| Strings.NonEmpty | src/filesystem.js:33 | `filter(Boolean)` keeps exactly the non-empty pieces |
| Strings.LastIndexOf | src/terminal.js:145 | `lastIndexOf` is -1 or an index of the character with none after it |
| Strings.PadEnd | src/engine/shellEngine.ts:95 | `padEnd(n)` keeps the string in front and reaches length `n` unless already longer |
| Strings.PadStart | src/engine/shellEngine.ts:119 | `padStart(n)` keeps the string at the end and reaches length `n` unless already longer |
| Strings.NatToString | src/engine/shellEngine.ts:95-119 | decimal digits with no leading zero |
| Strings.ParseNatToString | src/engine/shellEngine.ts:104 | reading a printed number gives the number back |
| Strings.ToLower | src/validators.js:4 | one lower-cased character per character |
| Strings.KeepContaining | src/filesystem.js:113 | the filter keeps exactly the lines that contain the pattern |
| Strings.SplitWhitespace | src/terminalLogic.js:47 | `split(/\s+/)` gives at least one token, none holding whitespace |
| Strings.IsWhitespace | src/terminal.js:37 | the ECMAScript WhiteSpace and LineTerminator characters that `trim` strips and `\s` matches; TrimStart and TrimEnd are stated with it |
| Strings.AllWhitespace | src/terminal.js:37-38 | every character is whitespace; TrimEmptyIffBlank proves `trim` gives "" exactly then |
| Strings.Trim | src/terminal.js:37 | `trim()` as trimStart then trimEnd; TrimIdempotent, TrimEmptyIffBlank and TrimNoEdgeWhitespace state its properties |
| Strings.TrimInside | src/terminal.js:37 | every character of the trim is a character of the input |
| Strings.TrimStartInside | src/terminalLogic.js:46 | every character of `trimStart` is a character of the input |
| Strings.TrimEndInside | src/ascii.js:11 | every character of `trimEnd` is a character of the input |
| Strings.TrimStartBlank | src/terminal.js:37-38 | `trimStart` of a blank string is "" |
| Strings.TrimNoEdgeWhitespace | src/terminal.js:37 | a non-empty trim starts and ends with a non-whitespace character |
| Strings.TrimOfTrimmed | src/terminal.js:37 | a string with no whitespace at either end is its own trim |
| Strings.TrimFixes | src/terminal.js:37 | such a string is also its own trimStart and trimEnd |
| Strings.TrimmedFixes | src/terminal.js:37 | a trimmed string is its own trimStart and trimEnd |
| Strings.StartsWith | src/quests.js:16 | `s.startsWith(p)`: `p` is a prefix of `s`; CommandUsed and KeepPrefixed are stated with it |
| Strings.Contains | src/quests.js:20 | `s.includes(p)`; ContainsAt and ContainsWitness prove it holds exactly when `p` occurs at some index |
| Strings.ContainsAt | src/quests.js:20 | an occurrence at index `i` makes `includes` true |
| Strings.ContainsWitness | src/quests.js:20 | when `includes` is true there is an index of an occurrence |
| Strings.ContainsSelf | src/quests.js:20 | every string includes itself |
| Strings.ContainsOfStartsWith | src/quests.js:16-20 | a string includes each of its prefixes |
| Strings.ContainsEmpty | src/terminal.js:46 | every string includes "", so an empty grep pattern keeps every line |
| Strings.ContainsChar | src/terminal.js:41 | `includes` of a one-character string holds exactly when the character occurs |
| Strings.Join | src/terminal.js:176 | `parts.join(sep)`; JoinSplit and SplitJoin prove it inverts `split` and is inverted by it |
| Strings.SplitNoSeparator | src/terminal.js:53 | a string without the separator splits into itself alone |
| Strings.SplitAfter | src/terminal.js:53 | splitting `w + c + t` gives `w` followed by the pieces of `t` |
| Strings.SplitAtSeparator | src/terminal.js:42 | a string holding the separator splits into at least two pieces |
| Strings.NonEmptyConcat | src/filesystem.js:33 | `filter(Boolean)` distributes over concatenation |
| Strings.NonEmptyKeeps | src/filesystem.js:44 | `filter(Boolean)` keeps a list with no empty piece unchanged |
| Strings.Repeat | src/ascii.js:31-32 | `c.repeat(n)`: exactly `n` copies of `c` |
| Strings.IsDigit | src/engine/shellEngine.ts:104 | a decimal digit character |
| Strings.DigitValue | src/engine/shellEngine.ts:104 | the value of a digit character |
| Strings.DigitChar | src/engine/shellEngine.ts:95 | the digit character of a value below 10, whose value is that number |
| Strings.DigitsValue | src/engine/shellEngine.ts:104 | the decimal value of a run of digits; ParseNatToString proves it reads back a printed number |
| Strings.ParseNat | src/engine/shellEngine.ts:104-105 | `Number(s)` on a non-empty run of digits, `NaN` otherwise; ParseNatToString proves it inverts NatToString |
| Strings.LowerChar | src/validators.js:4 | the ASCII `toLowerCase` of one character; ToLower applies it to each character |
| Ordering.BelowReflexive | src/filesystem.js:56 | the sort order puts each name at or before itself |
| Ordering.BelowAntisymmetric | src/filesystem.js:56 | two names each at or before the other are equal |
| Ordering.BelowTransitive | src/filesystem.js:56 | the sort order is transitive |
| Ordering.BelowTotal | src/filesystem.js:56 | any two names are ordered one way or the other |
| Ordering.LeastExists | src/filesystem.js:56 | a non-empty set of names has a least one |
| Ordering.LeastUnique | src/filesystem.js:56 | the least name is unique |
| Ordering.Least | src/filesystem.js:56 | the least name of a non-empty set |
| Ordering.SortSet | src/filesystem.js:56 | `Object.keys(..).sort()` lists every name once, strictly increasing |
| Ordering.LeastThenRest | src/filesystem.js:56 | the least name followed by the sorted rest lists the set |
| Ordering.SortedListingUnique | src/filesystem.js:56 | two strictly increasing lists of the same names are equal |
| Ordering.Below | src/filesystem.js:56 | the order of the default `sort`: a prefix first, else the smaller character at the first difference; BelowReflexive, BelowAntisymmetric, BelowTransitive and BelowTotal prove it is a total order |
| Ordering.StrictlySorted | src/filesystem.js:56 | strictly increasing, so free of duplicates; SortSet proves its listing has this shape |
| Ordering.IsLeast | src/filesystem.js:56 | a member at or before every member; LeastExists and LeastUnique prove there is exactly one |

## Left out

- The page and its events (`src/main.js`, `src/App.tsx`, the components), and the `render*`/`logLine` calls of `src/app.js`, which only draw; `showHint` is modelled by what it returns.
- `auth.js` and `supabaseClient.js`: the account calls and the network. Whether the backend is configured, what a fetch gives back and whether an upsert fails are inputs of `Sync`.
- The content of the `pushSave` payload, and the `updatedAt` that `normalizeStateForSave` stamps: a push is modelled by its outcome only.
- The debounce timer of `scheduleAutosave`: `Sync.SyncFlag.ScheduleAutosave` sets the flag, and the timed push is the separate `Sync.SyncFlag.AutosaveFires`.
- `pullLatestState` called with no local save (`null`): `Sync.PullResult` always takes one.
- `loadState`, `saveState` and `storage.js`: local storage and JSON parsing are I/O.
- Date strings: a save's `updatedAt` is held as milliseconds, a missing stamp or a string that does not parse (`Sync.Stamp`), so date parsing itself is not modelled.
- `Date.now()`: the clock is the parameter `now`.
- `randomTips` and the random ping timings: the drawn tips and a `delay` function are parameters.
- Floating point: the boosts are integer tenths, so the `Math.round`/`Math.ceil`/`Math.floor` of the source are exact integer divisions here. An IEEE rounding difference on a product such as `0.1 * 3` is not captured.
- `Number(...)` in `kill` and `ping` is modelled on plain decimal digits. Signs, spaces, hexadecimal, exponents and fractions are read as not a number.
- Object keys such as `constructor` or `__proto__`, which a JavaScript object inherits, are plain names here.
- The order of integer-like keys in a JavaScript object is not modelled: listing and completion enumerate keys in the order the model keeps them.
- `localeCompare` in `handleEnv` and the default `sort` in `ls` are both code-point order (`Ordering`). Locale collation and UTF-16 code units are not modelled.
- `toLowerCase` lower-cases ASCII letters only.
- The whitespace of `trim`, `\s` and the push test is a fixed character set (`Strings.IsWhitespace`). `HistoryManager.push` drops a command whose characters are all in that set.
- `buildCompletionCatalog` over `null` or array values, and over a top-level tree that is a string: the tree is a datatype of objects and plain values.
- A non-string `profileId` or account field: accounts hold strings, and the empty string is the falsy one.
- The zod library: the model checks only the `superRefine` rules and the fields the model reads. `summary` and `theme` are not modelled.
- Where the source throws, the model requires the inputs that avoid the throw:
  - a `grep` stage whose left side prints a card;
  - `rm` or `echo` whose parent is a file;
  - `touch` or `mkdir` once the working directory is gone;
  - `mergeSaves` with neither a local save nor a cloud row, which reads `updatedAt` of `null` (`Sync.MergeSaves` requires one of them).
- The duplicate exports at `src/ascii.js:75-110` redeclare `shellquestBanner` and `onboardingMessage`, which the language refuses, so there is nothing to model.
- `zoneIntro` and `cloudEnabled` of `src/ascii.js` are not part of this model. `Ascii.Banner` is the fixed banner text and carries no contract.
- The account commands `signup` and `whoami` do not exist in `executeCommand`; an input starting with them gets the unknown-command reply.
- `ShellEngine.KillLogWatcher`, `ShellEngine.InstallTracerTwice`: state the status and the new process table or package list, not the reply text.

## Findings

| source | as written | input that shows it | evidently intended | confidence | as-written member | corrected member |
|---|---|---|---|---|---|---|
| src/validators.js:1 | the pattern `^[A-Za-z0-9_]{3,16}$` accepts capitals and a leading digit, although the tests expect `UPPERCASE` to be refused (`__tests__/validators.test.js:15`) and usernames must start with a lower-case letter | `UPPERCASE`, `1abc` | 3 to 16 characters, a lower-case letter first, then lower-case letters, digits or `_` | not executed | Validators.AcceptsUppercase, Validators.AcceptsLeadingDigit | Validators.IntendedUsername, Validators.IntendedIsStricter, Validators.IntendedRejectsUppercase, Validators.IntendedRejectsLeadingDigit |
| src/ascii.js:26-33 | the width is the longest line plus 2, but a row is `│ `, the line padded to width minus 3, and `│`; a line longer than width minus 3 makes its row the line plus 3, one wider than the border | the welcome card's title `Welcome to ShellQuest` (21 characters): 23-character borders, a 24-character row | every row as wide as the borders, the width being the longest line plus 3 | not executed | Ascii.WelcomeRowOverhangs, Ascii.LongestRowOverhangs | Ascii.AlignedWidth, Ascii.AlignedRows, Ascii.AlignedBoxIsRectangular |

`Validators.ValidateUsername`, `Ascii.Boxify` and the cards of `Terminal` keep the behaviour as written, because that is what the game does. The corrected members state what the evident intent would give.
