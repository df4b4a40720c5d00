/** The stand-alone command engine (src/engine/shellEngine.ts): a simulated
    environment, process table, command history and package set behind a
    quote-aware tokenizer, answering each command with an output text and an
    `ok`/`error` status. */
module ShellEngine {
  import opened Wrappers
  import opened Strings
  import Ordering
  import QuestData

  /** `'ok'` and `'error'`. */
  datatype Status = Success | Failure

  /** `CommandResult`. */
  datatype Reply = Reply(output: string, status: Status)

  datatype Process = Process(pid: nat, name: string, status: string)

  /** The engine's four private fields as one value. `packages` is the
      `Set`, kept in insertion order, which is the order it lists in. */
  datatype Shell = Shell(env: map<string, string>, history: seq<string>, processes: seq<Process>, packages: seq<string>)

  /** A reply together with the fields after the command. */
  datatype Outcome = Outcome(reply: Reply, shell: Shell)

  const InitialEnv: map<string, string> :=
    map["PATH" := "/usr/local/bin:/usr/bin", "HOME" := "/home/quester", "SHELL" := "/bin/bash"]

  const InitialProcesses: seq<Process> :=
    [Process(101, "scheduler", "running"), Process(202, "log-watcher", "sleeping"), Process(303, "telemetry", "running")]

  const InitialShell: Shell := Shell(InitialEnv, [], InitialProcesses, ["core-utils"])

  predicate NoDuplicates(s: seq<string>) {
    forall i, j :: 0 <= i < j < |s| ==> s[i] != s[j]
  }

  predicate DistinctPids(ps: seq<Process>) {
    forall i, j :: 0 <= i < j < |ps| ==> ps[i].pid != ps[j].pid
  }

  /** What every reachable engine satisfies: the package set holds each
      package once and no two processes share a pid. */
  predicate Valid(sh: Shell) {
    NoDuplicates(sh.packages) && DistinctPids(sh.processes)
  }

  /** `args[i]` with `undefined` read as the empty string: both are falsy. */
  function ArgAt(args: seq<string>, i: nat): string {
    if i < |args| then args[i] else ""
  }

  // ---------------------------------------------------------------------
  // The tokenizer: the global regex `(?:[^\s"]+|"[^"]*")+` with every `"`
  // then removed

  /** A character the first alternative `[^\s"]` accepts. */
  predicate Plain(c: char) {
    !IsWhitespace(c) && c != '"'
  }

  /** The index of the first `"` in `s`. */
  function QuoteIndex(s: string): (r: Option<nat>)
    ensures r.Some? ==> r.value < |s| && s[r.value] == '"' && forall j :: 0 <= j < r.value ==> s[j] != '"'
    ensures r.None? ==> '"' !in s
  {
    if s == [] then None
    else if s[0] == '"' then Some(0)
    else match QuoteIndex(s[1..]) case None => None case Some(k) => Some(k + 1)
  }

  /** The length of the match starting at the front of `s`, 0 when none
      starts there: runs of plain characters and closed `"..."` spans, in
      any order, up to whitespace, the end, or a `"` that is never closed. */
  function MatchLength(s: string): (n: nat)
    ensures n <= |s|
    decreases |s|
  {
    if s == [] then 0
    else if Plain(s[0]) then 1 + MatchLength(s[1..])
    else if s[0] == '"' && QuoteIndex(s[1..]).Some? then
      var k := QuoteIndex(s[1..]).value + 2;
      k + MatchLength(s[k..])
    else 0
  }

  /** Every match of the global regex, left to right; where no match starts
      the search moves on by one character. */
  function Matches(s: string): (r: seq<string>)
    ensures forall k :: 0 <= k < |r| ==> r[k] != []
    decreases |s|
  {
    if s == [] then []
    else
      var n := MatchLength(s);
      if n == 0 then Matches(s[1..]) else [s[..n]] + Matches(s[n..])
  }

  /** `token.replace(/"/g, '')`. */
  function RemoveQuotes(t: string): (r: string)
    ensures forall c :: c in r <==> c in t && c != '"'
  {
    if t == [] then [] else (if t[0] == '"' then [] else [t[0]]) + RemoveQuotes(t[1..])
  }

  function Unquote(ms: seq<string>): (r: seq<string>)
    ensures |r| == |ms|
    ensures forall k :: 0 <= k < |r| ==> '"' !in r[k]
  {
    if ms == [] then [] else [RemoveQuotes(ms[0])] + Unquote(ms[1..])
  }

  /** `tokenize`: no token holds a `"`. */
  function Tokenize(s: string): (r: seq<string>)
    ensures forall k :: 0 <= k < |r| ==> '"' !in r[k]
  {
    Unquote(Matches(s))
  }

  lemma {:induction false} RemoveQuotesPlain(t: string)
    requires '"' !in t
    ensures RemoveQuotes(t) == t
  {
    if t != [] {
      RemoveQuotesPlain(t[1..]);
      assert [t[0]] + t[1..] == t;
    }
  }

  lemma {:induction false} WordLength(w: string, rest: string)
    requires forall i :: 0 <= i < |w| ==> Plain(w[i])
    requires rest == [] || IsWhitespace(rest[0])
    ensures MatchLength(w + rest) == |w|
  {
    if w == [] {
      assert w + rest == rest;
    } else {
      assert (w + rest)[1..] == w[1..] + rest;
      WordLength(w[1..], rest);
    }
  }

  lemma {:induction false} QuoteIndexAfter(q: string, rest: string)
    requires '"' !in q
    ensures QuoteIndex(q + ['"'] + rest) == Some(|q|)
  {
    if q != [] {
      assert (q + ['"'] + rest)[1..] == q[1..] + ['"'] + rest;
      QuoteIndexAfter(q[1..], rest);
    }
  }

  lemma QuotedLength(q: string, rest: string)
    requires '"' !in q
    requires rest == [] || IsWhitespace(rest[0])
    ensures MatchLength(['"'] + (q + ['"'] + rest)) == |q| + 2
  {
    var inner := q + ['"'] + rest;
    var s := ['"'] + inner;
    assert s[1..] == inner;
    QuoteIndexAfter(q, rest);
    QuotedStep(s, |q|);
    assert s[|q| + 2..] == rest;
    MatchStops(rest);
  }

  lemma QuotedStep(s: string, j: nat)
    requires s != [] && s[0] == '"' && QuoteIndex(s[1..]) == Some(j)
    ensures j + 2 <= |s| && MatchLength(s) == j + 2 + MatchLength(s[j + 2..])
  {
  }

  lemma MatchStops(s: string)
    requires s == [] || IsWhitespace(s[0])
    ensures MatchLength(s) == 0
  {
  }

  lemma {:induction false} MatchesFront(s: string, n: nat)
    requires 0 < n == MatchLength(s)
    ensures Matches(s) == [s[..n]] + Matches(s[n..])
  {
  }

  /** A plain word followed by whitespace or the end is one token. */
  lemma TokenizeWord(w: string, rest: string)
    requires w != [] && forall i :: 0 <= i < |w| ==> Plain(w[i])
    requires rest == [] || IsWhitespace(rest[0])
    ensures Tokenize(w + rest) == [w] + Tokenize(rest)
  {
    var s := w + rest;
    WordLength(w, rest);
    MatchesFront(s, |w|);
    assert s[..|w|] == w && s[|w|..] == rest;
    RemoveQuotesPlain(w);
    assert ([w] + Matches(rest))[1..] == Matches(rest);
  }

  /** A closed `"..."` span followed by whitespace or the end is one token,
      spaces included and quotes removed. */
  lemma TokenizeQuoted(q: string, rest: string)
    requires '"' !in q
    requires rest == [] || IsWhitespace(rest[0])
    ensures Tokenize(['"'] + q + ['"'] + rest) == [q] + Tokenize(rest)
  {
    var s := ['"'] + q + ['"'] + rest;
    assert s == ['"'] + (q + ['"'] + rest);
    QuotedLength(q, rest);
    MatchesFront(s, |q| + 2);
    assert s[..|q| + 2] == ['"'] + q + ['"'];
    assert s[|q| + 2..] == rest;
    var t := ['"'] + q + ['"'];
    assert t[1..] == q + ['"'];
    RemoveQuotesAppend(q);
    assert RemoveQuotes(t) == q;
    assert ([t] + Matches(rest))[1..] == Matches(rest);
  }

  lemma {:induction false} RemoveQuotesAppend(q: string)
    requires '"' !in q
    ensures RemoveQuotes(q + ['"']) == q
  {
    if q != [] {
      assert (q + ['"'])[1..] == q[1..] + ['"'];
      RemoveQuotesAppend(q[1..]);
      assert [q[0]] + q[1..] == q;
    }
  }

  /** Whitespace separates tokens and is dropped. */
  lemma TokenizeBlank(c: char, rest: string)
    requires IsWhitespace(c)
    ensures Tokenize([c] + rest) == Tokenize(rest)
  {
    assert ([c] + rest)[1..] == rest;
  }

  /** A `"` that is never closed is skipped. */
  lemma TokenizeUnclosed(rest: string)
    requires '"' !in rest
    ensures Tokenize(['"'] + rest) == Tokenize(rest)
  {
    assert (['"'] + rest)[1..] == rest;
  }

  // ---------------------------------------------------------------------
  // The handlers

  /** `handleEnv`: one `KEY=value` line per variable, keys in increasing
      order. */
  function EnvLines(env: map<string, string>): (r: seq<string>)
    ensures |r| == |env|
    ensures forall k :: k in env ==> k + "=" + env[k] in r
    ensures r == KeyLines(Ordering.SortSet(env.Keys), env)
  {
    var keys := Ordering.SortSet(env.Keys);
    var r := KeyLines(keys, env);
    KeyLinesList(keys, env);
    r
  }

  /** `KEY=value` for each key of the list, in list order. */
  function KeyLines(keys: seq<string>, env: map<string, string>): (r: seq<string>)
    requires forall i :: 0 <= i < |keys| ==> keys[i] in env
    ensures |r| == |keys|
    ensures forall i :: 0 <= i < |keys| ==> r[i] == keys[i] + "=" + env[keys[i]]
  {
    if keys == [] then [] else [keys[0] + "=" + env[keys[0]]] + KeyLines(keys[1..], env)
  }

  lemma KeyLinesList(keys: seq<string>, env: map<string, string>)
    requires forall i :: 0 <= i < |keys| ==> keys[i] in env
    requires forall k :: k in env ==> k in keys
    ensures forall k :: k in env ==> k + "=" + env[k] in KeyLines(keys, env)
  {
    var r := KeyLines(keys, env);
    forall k | k in env ensures k + "=" + env[k] in r {
      var i :| 0 <= i < |keys| && keys[i] == k;
      assert r[i] == k + "=" + env[k];
    }
  }

  /** `handleExport`: the environment after the command, beside the reply. */
  function ExportResult(env: map<string, string>, argument: string): (Reply, map<string, string>) {
    if '=' !in argument then (Reply("Usage: export KEY=value", Failure), env)
    else
      var parts := Split(argument, '=');
      var key := Trim(parts[0]);
      var value := Trim(Join(parts[1..], "="));
      if key == "" || value == "" then (Reply("Both key and value are required.", Failure), env)
      else
        var prefix := if key in env && env[key] != "" then "updated" else "added";
        (Reply("Export " + prefix + ": " + key + "=" + value, Success), env[key := value])
  }

  /** One `ps` row: the pid padded to 5, the status padded to 9, the name. */
  function PsRow(p: Process): string {
    PadEnd(NatToString(p.pid), 5, ' ') + " " + PadEnd(p.status, 9, ' ') + " " + p.name
  }

  const PsHeader: string := "PID   STATUS    NAME"

  /** The header, then one row per process in table order. */
  function PsLines(ps: seq<Process>): (r: seq<string>)
    ensures |r| == |ps| + 1 && r[0] == PsHeader
    ensures forall k :: 0 <= k < |ps| ==> r[k + 1] == PsRow(ps[k])
  {
    [PsHeader] + Each(PsRow, ps)
  }

  /** `handlePs`: the header, a newline, then the rows joined by newlines.
      A non-empty table prints the lines of `PsLines` one per line; an empty
      one prints the header followed by a newline. */
  function PsText(ps: seq<Process>): (r: string)
    ensures ps == [] ==> r == PsHeader + "\n"
    ensures ps != [] ==> r == Join(PsLines(ps), "\n")
  {
    var lines := PsLines(ps);
    assert lines[1..] == Each(PsRow, ps);
    PsHeader + "\n" + Join(Each(PsRow, ps), "\n")
  }

  /** `f` applied to each element, in order (`map`). */
  function Each<T>(f: T -> string, xs: seq<T>): (r: seq<string>)
    ensures |r| == |xs| && forall k :: 0 <= k < |xs| ==> r[k] == f(xs[k])
  {
    if xs == [] then [] else [f(xs[0])] + Each(f, xs[1..])
  }

  /** The first process with this pid (`findIndex`). */
  function FindPid(ps: seq<Process>, pid: nat): (r: Option<nat>)
    ensures r.Some? ==> r.value < |ps| && ps[r.value].pid == pid && forall j :: 0 <= j < r.value ==> ps[j].pid != pid
    ensures r.None? ==> forall j :: 0 <= j < |ps| ==> ps[j].pid != pid
  {
    if ps == [] then None
    else if ps[0].pid == pid then Some(0)
    else match FindPid(ps[1..], pid) case None => None case Some(k) => Some(k + 1)
  }

  /** `handleKill`: the process table after the command, beside the reply. */
  function KillResult(ps: seq<Process>, pidArg: string): (Reply, seq<Process>) {
    if pidArg == "" then (Reply("Usage: kill <pid>", Failure), ps)
    else match ParseNat(pidArg)
      case None => (Reply("PID must be a number.", Failure), ps)
      case Some(pid) =>
        match FindPid(ps, pid)
        case None => (Reply("Process " + NatToString(pid) + " not found.", Failure), ps)
        case Some(i) =>
          (Reply("Process " + ps[i].name + " (" + NatToString(pid) + ") terminated safely.", Success), ps[..i] + ps[i + 1..])
  }

  /** One `history` line: the 1-based number right-aligned in 3 columns,
      two spaces, the entry. */
  function Numbered(n: nat, entry: string): string {
    PadStart(NatToString(n), 3, ' ') + "  " + entry
  }

  /** `handleHistory`. */
  function HistoryLines(h: seq<string>): (r: seq<string>)
    ensures |r| == |h| && forall i :: 0 <= i < |h| ==> r[i] == Numbered(i + 1, h[i])
  {
    NumberedFrom(Numbered, 1, h)
  }

  /** `f` applied to each entry and its position, counted from `n`. */
  function NumberedFrom(f: (nat, string) -> string, n: nat, h: seq<string>): (r: seq<string>)
    ensures |r| == |h| && forall i :: 0 <= i < |h| ==> r[i] == f(n + i, h[i])
    decreases |h|
  {
    if h == [] then [] else [f(n, h[0])] + NumberedFrom(f, n + 1, h[1..])
  }

  /** The first index of `x` in `args`, or -1 (`indexOf`). */
  function IndexOf(args: seq<string>, x: string): (r: int)
    ensures -1 <= r < |args|
    ensures r >= 0 ==> args[r] == x && x !in args[..r]
    ensures r == -1 ==> x !in args
  {
    if args == [] then -1
    else if args[0] == x then 0
    else
      var k := IndexOf(args[1..], x);
      if k == -1 then -1 else k + 1
  }

  /** The sample count and host `handlePing` settles on: `-c` followed by a
      non-empty argument takes both out of the list and sets the count to
      that number, or 4 when it is not a positive number; the host is the
      first argument left, or `localhost`. */
  function PingPlan(args: seq<string>): (plan: (nat, string)) {
    var ci := IndexOf(args, "-c");
    if ci >= 0 && ArgAt(args, ci + 1) != "" then
      var count: nat := match ParseNat(args[ci + 1]) case Some(n) => if n > 0 then n else 4 case None => 4;
      var left := args[..ci] + args[ci + 2..];
      (count, if left == [] then "localhost" else left[0])
    else (4, if args == [] then "localhost" else args[0])
  }

  /** One simulated echo reply; `delay(i)` is the formatted random time of
      the sample. */
  function Sample(host: string, i: nat, delay: nat -> string): string {
    "64 bytes from " + host + ": icmp_seq=" + NatToString(i + 1) + " time=" + delay(i) + " ms"
  }

  function PingStats(count: nat): string {
    NatToString(count) + " packets transmitted, " + NatToString(count) + " received, 0% packet loss"
  }

  /** `handlePing`: a header, `count` samples, the statistics line. */
  function PingLines(args: seq<string>, delay: nat -> string): (r: seq<string>)
    ensures var (count, host) := PingPlan(args);
      |r| == count + 2 && r[0] == "PING simulation" && r[count + 1] == PingStats(count)
      && forall i :: 0 <= i < count ==> r[i + 1] == Sample(host, i, delay)
  {
    var (count, host) := PingPlan(args);
    ["PING simulation"] + Samples(host, 0, count, delay) + [PingStats(count)]
  }

  /** `n` samples, the first numbered `from`. */
  function Samples(host: string, from: nat, n: nat, delay: nat -> string): (r: seq<string>)
    ensures |r| == n && forall i :: 0 <= i < n ==> r[i] == Sample(host, from + i, delay)
    decreases n
  {
    if n == 0 then [] else [Sample(host, from, delay)] + Samples(host, from + 1, n - 1, delay)
  }

  /** The first argument that starts with `http`, or the default url. */
  function CurlUrl(args: seq<string>): (url: string)
    ensures (exists k :: 0 <= k < |args| && StartsWith(args[k], "http")) ==>
      exists k :: 0 <= k < |args| && url == args[k] && StartsWith(url, "http")
        && forall j :: 0 <= j < k ==> !StartsWith(args[j], "http")
    ensures (forall k :: 0 <= k < |args| ==> !StartsWith(args[k], "http")) ==> url == "https://example.quest"
  {
    if args == [] then "https://example.quest"
    else if StartsWith(args[0], "http") then args[0]
    else
      var url := CurlUrl(args[1..]);
      assert forall j :: 0 <= j < |args| - 1 ==> args[1..][j] == args[j + 1];
      url
  }

  /** `handleCurl`: the simulated headers with `-I`, else the simulated body. */
  function CurlLines(args: seq<string>): (r: seq<string>)
    ensures "-I" in args ==> r == ["HTTP/1.1 200 OK", "Content-Type: text/html; charset=utf-8", "X-ShellQuest: simulated", "Request-URL: " + CurlUrl(args)]
    ensures "-I" !in args ==> r == ["Simulated response from " + CurlUrl(args), "{ \"status\": \"ok\", \"message\": \"hello from ShellQuest\" }"]
  {
    var url := CurlUrl(args);
    if "-I" in args then ["HTTP/1.1 200 OK", "Content-Type: text/html; charset=utf-8", "X-ShellQuest: simulated", "Request-URL: " + url]
    else ["Simulated response from " + url, "{ \"status\": \"ok\", \"message\": \"hello from ShellQuest\" }"]
  }

  /** `handlePackage` for `apt` or `pacman`: the package set after the
      command, beside the reply. */
  function PackageResult(manager: string, packages: seq<string>, args: seq<string>): (Reply, seq<string>) {
    var action := ArgAt(args, 0);
    var pkg := ArgAt(args, 1);
    if (action == "install" || action == "-S") && pkg != "" then
      var already := pkg in packages;
      var after := if already then packages else packages + [pkg];
      (Reply(manager + " " + (if already then "reinstalled" else "installed") + " " + pkg + "\nPackages: " + Join(after, ", "), Success), after)
    else (Reply("Usage: " + manager + " install <pkg>", Failure), packages)
  }

  /** The test `findQuestByCommand` applies to each quest. */
  predicate CommandMatches(q: QuestData.Quest, command: string) {
    q.command == command || StartsWith(command, Split(q.command, ' ')[0])
  }

  /** `findQuestByCommand` over the quest list `qs`: the first quest that
      matches. */
  function FindQuestByCommand(qs: seq<QuestData.Quest>, command: string): (r: Option<QuestData.Quest>)
    ensures r.Some? ==>
      exists k :: 0 <= k < |qs| && qs[k] == r.value && CommandMatches(r.value, command)
        && forall j :: 0 <= j < k ==> !CommandMatches(qs[j], command)
    ensures r.None? ==> forall k :: 0 <= k < |qs| ==> !CommandMatches(qs[k], command)
  {
    if qs == [] then None
    else if CommandMatches(qs[0], command) then Some(qs[0])
    else
      var r := FindQuestByCommand(qs[1..], command);
      assert forall j :: 0 <= j < |qs| - 1 ==> qs[1..][j] == qs[j + 1];
      r
  }

  /** `handleBasics`: the matching quest's hint, or the "simulated" notice. */
  function BasicsText(qs: seq<QuestData.Quest>, command: string): string {
    match FindQuestByCommand(qs, command)
    case Some(q) => "Quest hint: " + q.title + "\nObjective: " + q.objective
    case None => "Command '" + command + "' is simulated. Try a quest command."
  }

  /** Every quest of the catalogue, in zone order: what `findQuestByCommand`
      searches. */
  function CatalogueQuests(): seq<QuestData.Quest> {
    QuestData.AllQuests(QuestData.Zones)
  }

  // ---------------------------------------------------------------------
  // `run`

  /** The cases of the switch in `run`. */
  datatype Verb = Env | Export | Ps | Kill | History | Ping | Curl | PackageManager | Other

  function VerbOf(cmd: string): Verb {
    if cmd == "env" then Env
    else if cmd == "export" then Export
    else if cmd == "ps" then Ps
    else if cmd == "kill" then Kill
    else if cmd == "history" then History
    else if cmd == "ping" then Ping
    else if cmd == "curl" then Curl
    else if cmd == "apt" || cmd == "pacman" then PackageManager
    else Other
  }

  /** The switch of `run`, on the first token `cmd` of the trimmed command,
      once the command is in the history. */
  function Dispatch(sh: Shell, trimmed: string, cmd: string, args: seq<string>, delay: nat -> string, quests: seq<QuestData.Quest>): Outcome {
    match VerbOf(cmd)
    case Env => Outcome(Reply(Join(EnvLines(sh.env), "\n"), Success), sh)
    case Export =>
      var (reply, env) := ExportResult(sh.env, Join(args, " "));
      Outcome(reply, sh.(env := env))
    case Ps => Outcome(Reply(PsText(sh.processes), Success), sh)
    case Kill =>
      var (reply, ps) := KillResult(sh.processes, ArgAt(args, 0));
      Outcome(reply, sh.(processes := ps))
    case History => Outcome(Reply(Join(HistoryLines(sh.history), "\n"), Success), sh)
    case Ping => Outcome(Reply(Join(PingLines(args, delay), "\n"), Success), sh)
    case Curl => Outcome(Reply(Join(CurlLines(args), "\n"), Success), sh)
    case PackageManager =>
      var (reply, packages) := PackageResult(cmd, sh.packages, args);
      Outcome(reply, sh.(packages := packages))
    case Other => Outcome(Reply(BasicsText(quests, trimmed), Success), sh)
  }

  /** The first token, or "" when there is none (no case matches either). */
  function Head(tokens: seq<string>): string {
    if tokens == [] then "" else tokens[0]
  }

  function Tail(tokens: seq<string>): seq<string> {
    if tokens == [] then [] else tokens[1..]
  }

  /** `run`: a blank command is refused; any other is trimmed, appended to
      the history and dispatched on its first token. `quests` is the list
      `findQuestByCommand` searches. */
  function Execute(sh: Shell, command: string, delay: nat -> string, quests: seq<QuestData.Quest>): Outcome {
    var trimmed := Trim(command);
    if trimmed == "" then Outcome(Reply("Type a command to begin.", Failure), sh)
    else
      var tokens := Tokenize(trimmed);
      Dispatch(sh.(history := sh.history + [trimmed]), trimmed, Head(tokens), Tail(tokens), delay, quests)
  }

  // ---------------------------------------------------------------------
  // The engine

  class Engine {
    var env: map<string, string>
    var history: seq<string>
    var processes: seq<Process>
    var packages: seq<string>
    /** The catalogue's quests, which the source imports as `zones`. */
    const quests: seq<QuestData.Quest>

    function State(): Shell
      reads this
    {
      Shell(env, history, processes, packages)
    }

    constructor()
      ensures State() == InitialShell && quests == CatalogueQuests()
    {
      quests := CatalogueQuests();
      env := InitialEnv;
      history := [];
      processes := InitialProcesses;
      packages := ["core-utils"];
    }

    method HandleExport(argument: string) returns (reply: Reply)
      modifies this`env
      ensures (reply, env) == ExportResult(old(env), argument)
    {
      if '=' !in argument {
        return Reply("Usage: export KEY=value", Failure);
      }
      var parts := Split(argument, '=');
      var key := Trim(parts[0]);
      var value := Trim(Join(parts[1..], "="));
      if key == "" || value == "" {
        return Reply("Both key and value are required.", Failure);
      }
      var prefix := if key in env && env[key] != "" then "updated" else "added";
      env := env[key := value];
      reply := Reply("Export " + prefix + ": " + key + "=" + value, Success);
    }

    method HandleKill(pidArg: string) returns (reply: Reply)
      modifies this`processes
      ensures (reply, processes) == KillResult(old(processes), pidArg)
    {
      if pidArg == "" {
        return Reply("Usage: kill <pid>", Failure);
      }
      var parsed := ParseNat(pidArg);
      if parsed.None? {
        return Reply("PID must be a number.", Failure);
      }
      var pid := parsed.value;
      var index := 0;
      while index < |processes| && processes[index].pid != pid
        invariant 0 <= index <= |processes|
        invariant forall j :: 0 <= j < index ==> processes[j].pid != pid
      {
        index := index + 1;
      }
      if index == |processes| {
        return Reply("Process " + NatToString(pid) + " not found.", Failure);
      }
      var proc := processes[index];
      processes := processes[..index] + processes[index + 1..];
      reply := Reply("Process " + proc.name + " (" + NatToString(pid) + ") terminated safely.", Success);
    }

    method HandlePackage(manager: string, args: seq<string>) returns (reply: Reply)
      modifies this`packages
      ensures (reply, packages) == PackageResult(manager, old(packages), args)
    {
      var action := ArgAt(args, 0);
      var pkg := ArgAt(args, 1);
      if (action == "install" || action == "-S") && pkg != "" {
        var already := pkg in packages;
        if !already {
          packages := packages + [pkg];
        }
        reply := Reply(manager + " " + (if already then "reinstalled" else "installed") + " " + pkg + "\nPackages: " + Join(packages, ", "), Success);
      } else {
        reply := Reply("Usage: " + manager + " install <pkg>", Failure);
      }
    }

    method Run(command: string, delay: nat -> string) returns (reply: Reply)
      modifies this
      ensures Outcome(reply, State()) == Execute(old(State()), command, delay, quests)
    {
      var trimmed := Trim(command);
      if trimmed == "" {
        return Reply("Type a command to begin.", Failure);
      }
      history := history + [trimmed];
      var tokens := Tokenize(trimmed);
      reply := Switch(trimmed, Head(tokens), Tail(tokens), delay);
    }

    /** The switch of `run` on the first token, once the history holds the
        command. */
    method Switch(trimmed: string, cmd: string, args: seq<string>, delay: nat -> string) returns (reply: Reply)
      modifies this
      ensures Outcome(reply, State()) == Dispatch(old(State()), trimmed, cmd, args, delay, quests)
    {
      match VerbOf(cmd)
      case Env =>
        reply := Reply(Join(EnvLines(env), "\n"), Success);
      case Export =>
        reply := HandleExport(Join(args, " "));
      case Ps =>
        reply := Reply(PsText(processes), Success);
      case Kill =>
        reply := HandleKill(ArgAt(args, 0));
      case History =>
        reply := Reply(Join(HistoryLines(history), "\n"), Success);
      case Ping =>
        reply := Reply(Join(PingLines(args, delay), "\n"), Success);
      case Curl =>
        reply := Reply(Join(CurlLines(args), "\n"), Success);
      case PackageManager =>
        reply := HandlePackage(cmd, args);
      case Other =>
        reply := Reply(BasicsText(quests, trimmed), Success);
    }
  }

  // ---------------------------------------------------------------------
  // Properties

  lemma InitialValid()
    ensures Valid(InitialShell)
  {
  }

  /** Space-separated plain words tokenize to themselves. */
  lemma {:induction false} TokenizeWords(words: seq<string>)
    requires forall k :: 0 <= k < |words| ==> words[k] != [] && forall i :: 0 <= i < |words[k]| ==> Plain(words[k][i])
    ensures Tokenize(Join(words, " ")) == words
  {
    if |words| == 1 {
      TokenizeWord(words[0], []);
      assert words[0] + [] == words[0];
    } else if |words| > 1 {
      var rest := Join(words[1..], " ");
      assert Join(words, " ") == words[0] + " " + rest;
      AppendAssoc(words[0], " ", rest);
      TokenizeWords(words[1..]);
      TokenizeBlank(' ', rest);
      TokenizeWord(words[0], " " + rest);
      assert [words[0]] + words[1..] == words;
    }
  }

  /** What the switch leaves alone: the history always, and every field a
      verb does not own. */
  lemma DispatchFrame(sh: Shell, trimmed: string, cmd: string, args: seq<string>, delay: nat -> string, quests: seq<QuestData.Quest>)
    ensures var o := Dispatch(sh, trimmed, cmd, args, delay, quests);
      o.shell.history == sh.history
      && (VerbOf(cmd) != Export ==> o.shell.env == sh.env)
      && (VerbOf(cmd) != Kill ==> o.shell.processes == sh.processes)
      && (VerbOf(cmd) != PackageManager ==> o.shell.packages == sh.packages)
  {
    var o := Dispatch(sh, trimmed, cmd, args, delay, quests);
    match VerbOf(cmd)
    case Export =>
      assert o.shell == sh.(env := ExportResult(sh.env, Join(args, " ")).1);
    case Kill =>
      assert o.shell == sh.(processes := KillResult(sh.processes, ArgAt(args, 0)).1);
    case PackageManager =>
      assert o.shell == sh.(packages := PackageResult(cmd, sh.packages, args).1);
    case _ =>
      assert o.shell == sh;
  }

  /** A blank command is refused and changes nothing. */
  lemma BlankCommandRefused(sh: Shell, command: string, delay: nat -> string, quests: seq<QuestData.Quest>)
    requires AllWhitespace(command)
    ensures Execute(sh, command, delay, quests) == Outcome(Reply("Type a command to begin.", Failure), sh)
  {
    TrimEmptyIffBlank(command);
  }

  /** Any other command is trimmed and appended to the history, whatever it
      then does, and changes only the field its verb owns: `export` the
      environment, `kill` the process table, `apt` and `pacman` the package
      set. */
  lemma CommandRecorded(sh: Shell, command: string, delay: nat -> string, quests: seq<QuestData.Quest>)
    requires !AllWhitespace(command)
    ensures var o := Execute(sh, command, delay, quests);
      var cmd := Head(Tokenize(Trim(command)));
      o.shell.history == sh.history + [Trim(command)]
      && (VerbOf(cmd) != Export ==> o.shell.env == sh.env)
      && (VerbOf(cmd) != Kill ==> o.shell.processes == sh.processes)
      && (VerbOf(cmd) != PackageManager ==> o.shell.packages == sh.packages)
  {
    TrimEmptyIffBlank(command);
    var trimmed := Trim(command);
    var tokens := Tokenize(trimmed);
    DispatchFrame(sh.(history := sh.history + [trimmed]), trimmed, Head(tokens), Tail(tokens), delay, quests);
  }

  /** A refused `kill` keeps the table; a successful one removes one process. */
  lemma KillOutcomes(ps: seq<Process>, pidArg: string)
    ensures var (reply, after) := KillResult(ps, pidArg);
      (reply.status == Failure ==> after == ps)
      && (reply.status == Success ==> |after| == |ps| - 1)
      && (pidArg == "" ==> reply == Reply("Usage: kill <pid>", Failure))
      && (pidArg != "" && ParseNat(pidArg).None? ==> reply == Reply("PID must be a number.", Failure))
  {
  }

  lemma KillKeepsDistinct(ps: seq<Process>, pidArg: string)
    requires DistinctPids(ps)
    ensures DistinctPids(KillResult(ps, pidArg).1)
  {
    if pidArg != "" && ParseNat(pidArg).Some? && FindPid(ps, ParseNat(pidArg).value).Some? {
      var i := FindPid(ps, ParseNat(pidArg).value).value;
      var after := KillResult(ps, pidArg).1;
      assert after == ps[..i] + ps[i + 1..];
      forall a, b | 0 <= a < b < |after| ensures after[a].pid != after[b].pid {
        var a' := if a < i then a else a + 1;
        var b' := if b < i then b else b + 1;
        assert after[a] == ps[a'] && after[b] == ps[b'];
      }
    }
  }

  /** `kill` of a pid in the table removes exactly that process, the others
      keeping their order, and reports it terminated; a pid not in the table
      is reported and the table kept. */
  lemma KillRemovesProcess(ps: seq<Process>, pid: nat)
    requires DistinctPids(ps)
    ensures var (reply, after) := KillResult(ps, NatToString(pid));
      ((exists i :: 0 <= i < |ps| && ps[i].pid == pid) ==>
        reply.status == Success && Contains(reply.output, "terminated safely")
        && (forall p :: p in after <==> p in ps && p.pid != pid)
        && exists i :: 0 <= i < |ps| && ps[i].pid == pid && after == ps[..i] + ps[i + 1..])
      && ((forall i :: 0 <= i < |ps| ==> ps[i].pid != pid) ==>
        reply == Reply("Process " + NatToString(pid) + " not found.", Failure) && after == ps)
  {
    ParseNatToString(pid);
    match FindPid(ps, pid)
    case Some(i) =>
      RemoveAtMembers(ps, i);
      TerminatedReply(ps[i].name, NatToString(pid));
    case None =>
  }

  /** Dropping entry `i` of a table with distinct pids leaves exactly the
      processes with another pid. */
  lemma RemoveAtMembers(ps: seq<Process>, i: nat)
    requires DistinctPids(ps) && i < |ps|
    ensures forall p :: p in ps[..i] + ps[i + 1..] <==> p in ps && p.pid != ps[i].pid
  {
    var after := ps[..i] + ps[i + 1..];
    forall p ensures p in after <==> p in ps && p.pid != ps[i].pid {
      if p in after {
        var a :| 0 <= a < |after| && after[a] == p;
        var a' := if a < i then a else a + 1;
        assert ps[a'] == p && a' != i;
      }
      if p in ps && p.pid != ps[i].pid {
        var j :| 0 <= j < |ps| && ps[j] == p;
        assert after[if j < i then j else j - 1] == p;
      }
    }
  }

  lemma TerminatedReply(name: string, pid: string)
    ensures Contains("Process " + name + " (" + pid + ") terminated safely.", "terminated safely")
  {
    var prefix := "Process " + name + " (" + pid + ") ";
    var line := "Process " + name + " (" + pid + ") terminated safely.";
    assert line == prefix + "terminated safely" + ".";
    assert line[|prefix|..|prefix| + |"terminated safely"|] == "terminated safely";
    ContainsAt(line, "terminated safely", |prefix|);
  }

  /** `apt` and `pacman`: installing adds the package at the end unless it
      is already there, and the reply says `installed` or `reinstalled`
      accordingly; any other action is a usage error that changes nothing.
      The set never loses a package and keeps each package once. */
  lemma PackagesGrow(manager: string, packages: seq<string>, args: seq<string>)
    ensures var (reply, after) := PackageResult(manager, packages, args);
      var pkg := ArgAt(args, 1);
      (forall p :: p in packages ==> p in after)
      && (NoDuplicates(packages) ==> NoDuplicates(after))
      && if (ArgAt(args, 0) == "install" || ArgAt(args, 0) == "-S") && pkg != "" then
           (forall p :: p in after <==> p in packages || p == pkg)
           && after[..|packages|] == packages
           && reply.status == Success
           && StartsWith(reply.output, manager + " " + (if pkg in packages then "reinstalled" else "installed") + " " + pkg + "\n")
         else after == packages && reply == Reply("Usage: " + manager + " install <pkg>", Failure)
  {
    var (reply, after) := PackageResult(manager, packages, args);
    var pkg := ArgAt(args, 1);
    if (ArgAt(args, 0) == "install" || ArgAt(args, 0) == "-S") && pkg != "" {
      var head := manager + " " + (if pkg in packages then "reinstalled" else "installed") + " " + pkg + "\n";
      assert reply.output == head + ("Packages: " + Join(after, ", "));
      assert reply.output[..|head|] == head;
    }
  }

  /** Every command keeps the engine valid. */
  lemma ExecuteKeepsValid(sh: Shell, command: string, delay: nat -> string, quests: seq<QuestData.Quest>)
    requires Valid(sh)
    ensures Valid(Execute(sh, command, delay, quests).shell)
  {
    var trimmed := Trim(command);
    if trimmed != "" {
      var tokens := Tokenize(trimmed);
      DispatchKeepsValid(sh.(history := sh.history + [trimmed]), trimmed, Head(tokens), Tail(tokens), delay, quests);
    }
  }

  lemma DispatchKeepsValid(sh: Shell, trimmed: string, cmd: string, args: seq<string>, delay: nat -> string, quests: seq<QuestData.Quest>)
    requires Valid(sh)
    ensures Valid(Dispatch(sh, trimmed, cmd, args, delay, quests).shell)
  {
    KillKeepsDistinct(sh.processes, ArgAt(args, 0));
    PackagesGrow(cmd, sh.packages, args);
  }

  /** `export K=V`: the key is the text before the first `=` and the value
      all that follows, `=` included, each trimmed; both must be non-empty,
      and the reply says whether the key was already set. */
  lemma ExportAssigns(env: map<string, string>, k: string, v: string)
    requires '=' !in k
    ensures ExportResult(env, k + "=" + v) ==
      if Trim(k) == "" || Trim(v) == "" then (Reply("Both key and value are required.", Failure), env)
      else (Reply("Export " + (if Trim(k) in env && env[Trim(k)] != "" then "updated" else "added") + ": " + Trim(k) + "=" + Trim(v), Success),
            env[Trim(k) := Trim(v)])
  {
    SplitAfter(k, '=', v);
    JoinSplit(v, '=');
    assert (k + "=" + v)[|k|] == '=';
  }

  /** Without `=` an `export` is a usage error that changes nothing. */
  lemma ExportNeedsEquals(env: map<string, string>, argument: string)
    requires '=' !in argument
    ensures ExportResult(env, argument) == (Reply("Usage: export KEY=value", Failure), env)
  {
  }

  /** After an `export`, `env` lists the exported pair. */
  lemma ExportThenEnv(env: map<string, string>, k: string, v: string)
    requires '=' !in k && Trim(k) != "" && Trim(v) != ""
    ensures Trim(k) + "=" + Trim(v) in EnvLines(ExportResult(env, k + "=" + v).1)
  {
    ExportAssigns(env, k, v);
  }

  lemma {:induction false} TrimStartSpaces(m: nat, d: string)
    requires d != [] && !IsWhitespace(d[0])
    ensures TrimStart(Repeat(' ', m) + d) == d
  {
    if m == 0 {
      assert Repeat(' ', m) + d == d;
    } else {
      assert (Repeat(' ', m) + d)[1..] == Repeat(' ', m - 1) + d;
      TrimStartSpaces(m - 1, d);
    }
  }

  /** A `history` line gives back its number and its entry. */
  lemma NumberedParts(n: nat, entry: string)
    ensures var line := Numbered(n, entry);
      |line| >= |entry| + 3 && line[|line| - |entry|..] == entry
      && ParseNat(Trim(line[..|line| - |entry| - 2])) == Some(n)
  {
    var d := NatToString(n);
    var p := PadStart(d, 3, ' ');
    var line := p + "  " + entry;
    assert line[|line| - |entry|..] == entry;
    assert line[..|line| - |entry| - 2] == p;
    var m := if |d| >= 3 then 0 else 3 - |d|;
    assert p == Repeat(' ', m) + d;
    TrimStartSpaces(m, d);
    TrimOfTrimmed(d);
    ParseNatToString(n);
  }

  /** `history` lists every command so far, itself last, numbered from 1. */
  lemma HistoryListsItself(sh: Shell, command: string, delay: nat -> string, quests: seq<QuestData.Quest>)
    requires Trim(command) != "" && VerbOf(Head(Tokenize(Trim(command)))) == History
    ensures var o := Execute(sh, command, delay, quests);
      var h := sh.history + [Trim(command)];
      o.shell == sh.(history := h) && o.reply == Reply(Join(HistoryLines(h), "\n"), Success)
  {
  }

  /** The word `history` reads as one token. */
  lemma HistoryTokens()
    ensures Tokenize("history") == ["history"]
  {
    TokenizeWord("history", "");
    assert "history" + "" == "history";
    assert Tokenize("") == [];
  }

  lemma HistoryVerb()
    ensures VerbOf("history") == History
  {
  }

  /** The word `history` is such a command. */
  lemma HistoryWord(w: string)
    requires w == "history"
    ensures Trim(w) != "" && VerbOf(Head(Tokenize(Trim(w)))) == History
  {
    TrimFixes(w);
    HistoryTokens();
    HistoryVerb();
  }

  /** `ping` with `-c` and a non-empty count: the count is that number when
      it is positive and 4 otherwise, and both arguments are taken out before
      the host is read. */
  lemma PingWithCount(pre: seq<string>, x: string, post: seq<string>)
    requires "-c" !in pre && x != ""
    ensures PingPlan(pre + ["-c", x] + post) ==
      (if ParseNat(x).Some? && ParseNat(x).value > 0 then ParseNat(x).value else 4,
       if pre + post == [] then "localhost" else (pre + post)[0])
  {
    var args := pre + ["-c", x] + post;
    assert args[|pre|] == "-c" && args[|pre| + 1] == x;
    var ci := IndexOf(args, "-c");
    assert args[..ci] + args[ci + 2..] == pre + post;
  }

  /** `ping` without `-c` sends 4 and reads the host from the first argument. */
  lemma PingWithoutCount(args: seq<string>)
    requires "-c" !in args
    ensures PingPlan(args) == (4, if args == [] then "localhost" else args[0])
  {
  }

  /** From the starting table, `kill 202` succeeds and leaves the other two
      processes in order. */
  lemma KillLogWatcher()
    ensures var (reply, after) := KillResult(InitialProcesses, "202");
      reply.status == Success && after == [InitialProcesses[0], InitialProcesses[2]]
  {
    assert NatToString(202) == "202";
    ParseNatToString(202);
    assert FindPid(InitialProcesses, 202) == Some(1);
    assert InitialProcesses[..1] + InitialProcesses[2..] == [InitialProcesses[0], InitialProcesses[2]];
  }

  /** After `kill 202`, no process is called `log-watcher`. */
  lemma KillLogWatcherGone()
    ensures forall p :: p in KillResult(InitialProcesses, "202").1 ==> p.name != "log-watcher"
  {
    KillLogWatcher();
  }

  /** `ps` lists the table and changes nothing. */
  lemma PsReply(sh: Shell, trimmed: string, args: seq<string>, delay: nat -> string, quests: seq<QuestData.Quest>)
    ensures Dispatch(sh, trimmed, "ps", args, delay, quests) == Outcome(Reply(PsText(sh.processes), Success), sh)
  {
  }

  /** Killing the processes of a three-entry table, such as the starting one
      (pids 101, 202, 303), front to back empties it, and `ps` then prints
      the header and a newline alone. */
  lemma PsAfterKillingAll(a: Process, b: Process, c: Process)
    ensures var (r1, p1) := KillResult([a, b, c], NatToString(a.pid));
      var (r2, p2) := KillResult(p1, NatToString(b.pid));
      var (r3, p3) := KillResult(p2, NatToString(c.pid));
      r1.status == r2.status == r3.status == Success
      && p3 == [] && PsText(p3) == PsHeader + "\n"
  {
    assert [a, b, c] == [a] + [b, c];
    KillFront(a, [b, c]);
    assert [b, c] == [b] + [c];
    KillFront(b, [c]);
    assert [c] == [c] + [];
    KillFront(c, []);
  }

  /** `kill` of the pid of the first process removes just it. */
  lemma KillFront(p: Process, rest: seq<Process>)
    ensures var (reply, after) := KillResult([p] + rest, NatToString(p.pid));
      reply.status == Success && after == rest
  {
    ParseNatToString(p.pid);
    assert ([p] + rest)[1..] == rest;
  }

  /** `apt install tracer` twice from the starting packages: both succeed,
      the first adds `tracer` after `core-utils`, the second changes nothing. */
  lemma InstallTracerTwice()
    ensures var (r1, p1) := PackageResult("apt", InitialShell.packages, ["install", "tracer"]);
      var (r2, p2) := PackageResult("apt", p1, ["install", "tracer"]);
      p1 == p2 == ["core-utils", "tracer"] && r1.status == r2.status == Success
  {
    assert "tracer" !in ["core-utils"];
  }
}
