/** Text wrapping and the rounded boxes the terminal prints (src/ascii.js). */
module Ascii {
  import opened Strings

  const MaxWidth: nat := 44
  /** The default wrap width, `MAX_WIDTH - 4`. */
  const WrapWidth: nat := MaxWidth - 4

  // ---------------------------------------------------------------------
  // Wrapping

  /** Where an over-long remainder is cut: at the last space among its first
      `width` characters when that space sits past index 16, else hard at `width`. */
  function Cutoff(rem: string, width: nat): (c: nat)
    requires 1 <= width < |rem|
    ensures 1 <= c <= width
    ensures c < width ==> 16 < c && rem[c] == ' ' && forall k :: c < k < width ==> rem[k] != ' '
    ensures c == width ==> forall k :: 16 < k < width ==> rem[k] != ' '
  {
    var lastSpace := LastIndexOf(rem[..width], ' ');
    if lastSpace > 16 then lastSpace else width
  }

  /** The segments the wrapping loop emits for a remainder. */
  function Wrapped(rem: string, width: nat): (r: seq<string>)
    requires width >= 1
    ensures |r| >= 1
    ensures forall k :: 0 <= k < |r| ==> |r[k]| <= width
    decreases |rem|
  {
    if |rem| <= width then [rem]
    else
      var c := Cutoff(rem, width);
      [TrimEnd(rem[..c])] + Wrapped(TrimStart(rem[c..]), width)
  }

  /** `wrapLine(line, width)`: the empty line gives one empty segment,
      anything else is trimmed and then wrapped. */
  function WrapText(line: string, width: nat): (r: seq<string>)
    requires width >= 1
    ensures line == "" ==> r == [""]
    ensures forall k :: 0 <= k < |r| ==> |r[k]| <= width
  {
    if line == "" then [""] else Wrapped(Trim(line), width)
  }

  method WrapLine(line: string, width: nat := WrapWidth) returns (segments: seq<string>)
    requires width >= 1
    ensures segments == WrapText(line, width)
  {
    if line == "" {
      return [""];
    }
    segments := [];
    var remaining := Trim(line);
    while |remaining| > width
      invariant segments + Wrapped(remaining, width) == WrapText(line, width)
      decreases |remaining|
    {
      var slice := remaining[..width];
      var lastSpace := LastIndexOf(slice, ' ');
      var cutoff := if lastSpace > 16 then lastSpace else width;
      assert cutoff == Cutoff(remaining, width);
      var head := TrimEnd(remaining[..cutoff]);
      var tail := TrimStart(remaining[cutoff..]);
      assert Wrapped(remaining, width) == [head] + Wrapped(tail, width);
      AppendAssoc(segments, [head], Wrapped(tail, width));
      segments := segments + [head];
      remaining := tail;
    }
    segments := segments + [remaining];
  }

  /** The characters of `s` that are not whitespace, in order. */
  function Visible(s: string): string {
    if s == [] then [] else (if IsWhitespace(s[0]) then [] else [s[0]]) + Visible(s[1..])
  }

  /** All segments laid end to end. */
  function Flatten(segments: seq<string>): string {
    if segments == [] then [] else segments[0] + Flatten(segments[1..])
  }

  lemma {:induction false} VisibleConcat(a: string, b: string)
    ensures Visible(a + b) == Visible(a) + Visible(b)
  {
    if a == [] {
      assert a + b == b;
    } else {
      assert (a + b)[0] == a[0] && (a + b)[1..] == a[1..] + b;
      VisibleConcat(a[1..], b);
    }
  }

  lemma {:induction false} VisibleBlank(s: string)
    requires AllWhitespace(s)
    ensures Visible(s) == []
  {
    if s != [] {
      VisibleBlank(s[1..]);
    }
  }

  lemma VisibleTrimStart(s: string)
    ensures Visible(TrimStart(s)) == Visible(s)
  {
    var r := TrimStart(s);
    assert s == s[..|s| - |r|] + r;
    VisibleConcat(s[..|s| - |r|], r);
    VisibleBlank(s[..|s| - |r|]);
  }

  lemma VisibleTrimEnd(s: string)
    ensures Visible(TrimEnd(s)) == Visible(s)
  {
    var r := TrimEnd(s);
    assert s == r + s[|r|..];
    VisibleConcat(r, s[|r|..]);
    VisibleBlank(s[|r|..]);
  }

  lemma {:induction false} WrappedKeepsVisible(rem: string, width: nat)
    requires width >= 1
    ensures Visible(Flatten(Wrapped(rem, width))) == Visible(rem)
    decreases |rem|
  {
    if |rem| <= width {
      assert Flatten([rem]) == rem + Flatten([]);
      assert rem + [] == rem;
    } else {
      var c := Cutoff(rem, width);
      var front := rem[..c];
      var back := rem[c..];
      var rest := Wrapped(TrimStart(back), width);
      WrappedFront(rem, width);
      VisibleConcat(TrimEnd(front), Flatten(rest));
      VisibleTrimEnd(front);
      WrappedKeepsVisible(TrimStart(back), width);
      VisibleTrimStart(back);
      VisibleSplit(rem, c);
    }
  }

  /** An over-long remainder flattens to its trimmed first segment followed
      by the wrapping of the rest. */
  lemma WrappedFront(rem: string, width: nat)
    requires 1 <= width < |rem|
    ensures var c := Cutoff(rem, width);
      Flatten(Wrapped(rem, width)) == TrimEnd(rem[..c]) + Flatten(Wrapped(TrimStart(rem[c..]), width))
  {
    var c := Cutoff(rem, width);
    var rest := Wrapped(TrimStart(rem[c..]), width);
    assert Wrapped(rem, width) == [TrimEnd(rem[..c])] + rest;
    assert ([TrimEnd(rem[..c])] + rest)[1..] == rest;
  }

  lemma VisibleSplit(s: string, c: nat)
    requires c <= |s|
    ensures Visible(s) == Visible(s[..c]) + Visible(s[c..])
  {
    assert s == s[..c] + s[c..];
    VisibleConcat(s[..c], s[c..]);
  }

  /** Wrapping drops only whitespace: the non-whitespace characters of the
      segments, read in order, are exactly those of the line. */
  lemma WrapKeepsVisible(line: string, width: nat)
    requires width >= 1
    ensures Visible(Flatten(WrapText(line, width))) == Visible(line)
  {
    if line == "" {
      assert Flatten([""]) == "";
    } else {
      WrappedKeepsVisible(Trim(line), width);
      VisibleTrimEnd(TrimStart(line));
      VisibleTrimStart(line);
    }
  }

  // ---------------------------------------------------------------------
  // Boxes

  /** The longest line's length (0 for no lines). */
  function MaxLen(lines: seq<string>): (m: nat)
    ensures forall k :: 0 <= k < |lines| ==> |lines[k]| <= m
    ensures lines == [] ==> m == 0
    ensures lines != [] ==> exists k :: 0 <= k < |lines| && |lines[k]| == m
  {
    if lines == [] then 0
    else
      var m := MaxLen(lines[1..]);
      assert forall k :: 1 <= k < |lines| ==> lines[k] == lines[1..][k - 1];
      if |lines[0]| >= m then |lines[0]| else m
  }

  /** `Math.min(MAX_WIDTH, Math.max(18, ...lines.map((l) => l.length + 2)))`. */
  function ContentWidth(lines: seq<string>): (w: nat)
    ensures 18 <= w <= MaxWidth
    ensures w < MaxWidth ==> forall k :: 0 <= k < |lines| ==> |lines[k]| + 2 <= w
    ensures 18 < w < MaxWidth ==> exists k :: 0 <= k < |lines| && |lines[k]| + 2 == w
  {
    var widest := MaxLen(lines) + 2;
    if widest <= 18 then 18 else if widest >= MaxWidth then MaxWidth else widest
  }

  /** A border: two corners around a run of `─`, `w` characters in all. */
  function Border(left: char, right: char, w: nat): (r: string)
    requires w >= 2
    ensures |r| == w && r[0] == left && r[w - 1] == right
  {
    [left] + Repeat('─', w - 2) + [right]
  }

  /** One body row: `│ `, the line padded to `w - 3`, `│`. It shows the line
      after two characters and is `w` wide exactly when the line fits in `w - 3`. */
  function Row(line: string, w: nat): (r: string)
    ensures 2 + |line| <= |r| && r[2..2 + |line|] == line
    ensures |r| == if |line| <= w - 3 then w else |line| + 3
  {
    var p := PadEnd(line, w - 3, ' ');
    assert ("│ " + p + "│")[2..2 + |line|] == p[..|line|];
    "│ " + p + "│"
  }

  function Rows(lines: seq<string>, w: nat): (r: seq<string>)
    ensures |r| == |lines| && forall k :: 0 <= k < |lines| ==> r[k] == Row(lines[k], w)
  {
    seq(|lines|, k requires 0 <= k < |lines| => Row(lines[k], w))
  }

  /** The rows of the box around `lines`: top border, one row per line, bottom border. */
  function BoxLines(lines: seq<string>): seq<string> {
    var w := ContentWidth(lines);
    [Border('╭', '╮', w)] + Rows(lines, w) + [Border('╰', '╯', w)]
  }

  function Box(lines: seq<string>): string {
    Join(BoxLines(lines), "\n")
  }

  /** A box has two borders exactly as wide as its content width, which
      lies in [18, 44], and one row per line between them. */
  lemma BoxBorders(lines: seq<string>)
    ensures var b := BoxLines(lines); var w := ContentWidth(lines);
      18 <= w <= MaxWidth && |b| == |lines| + 2 && |b[0]| == w && |b[|b| - 1]| == w
  {
  }

  /** The row of line `k` shows the line after `│ `, and is exactly as wide
      as the border when the line fits in `w - 3`, wider otherwise. */
  lemma BoxRow(lines: seq<string>, k: nat)
    requires k < |lines|
    ensures var b := BoxLines(lines); var w := ContentWidth(lines);
      |b| == |lines| + 2
      && b[k + 1][2..2 + |lines[k]|] == lines[k]
      && |b[k + 1]| == (if |lines[k]| <= w - 3 then w else |lines[k]| + 3)
  {
    assert BoxLines(lines)[k + 1] == Rows(lines, ContentWidth(lines))[k];
  }

  /** A row is one character wider than the border whenever its line is the
      longest and has between 16 and 42 characters: the width leaves room for
      `l.length + 2`, the row takes `l.length + 3`. */
  lemma LongestRowOverhangs(lines: seq<string>, k: nat)
    requires k < |lines| && |lines[k]| == MaxLen(lines) && 16 <= |lines[k]| <= 42
    ensures |BoxLines(lines)[k + 1]| == ContentWidth(lines) + 1
  {
    BoxRow(lines, k);
  }

  /** The title of the welcome card alone: its border is 23 characters wide,
      its row 24, so the right edge of the box is broken. */
  lemma WelcomeRowOverhangs()
    ensures var b := BoxLines(["Welcome to ShellQuest"]);
      |b[0]| == 23 && |b[1]| == 24
  {
    var lines := ["Welcome to ShellQuest"];
    assert MaxLen(lines) == 21;
    BoxRow(lines, 0);
  }

  /** The width the borders need so that every row fits between them: the
      longest line plus the three characters of `│ ` and `│`, at least 18 and
      at most `MAX_WIDTH`. */
  function AlignedWidth(lines: seq<string>): (w: nat)
    ensures 18 <= w <= MaxWidth
    ensures w < MaxWidth ==> forall k :: 0 <= k < |lines| ==> |lines[k]| <= w - 3
  {
    var widest := MaxLen(lines) + 3;
    if widest <= 18 then 18 else if widest >= MaxWidth then MaxWidth else widest
  }

  /** The box as evidently intended: the same borders and rows, at the
      aligned width. */
  function AlignedBoxLines(lines: seq<string>): seq<string> {
    var w := AlignedWidth(lines);
    [Border('╭', '╮', w)] + Rows(lines, w) + [Border('╰', '╯', w)]
  }

  /** Lines within 40 characters: with the aligned width every row is
      exactly as wide as the borders, and still shows its line. */
  lemma AlignedRows(lines: seq<string>)
    requires forall k :: 0 <= k < |lines| ==> |lines[k]| <= WrapWidth
    ensures var b := AlignedBoxLines(lines); var w := AlignedWidth(lines);
      |b| == |lines| + 2 && w <= 43
      && (forall k :: 0 <= k < |b| ==> |b[k]| == w)
      && forall k :: 0 <= k < |lines| ==> b[k + 1][2..2 + |lines[k]|] == lines[k]
  {
    AlignedFits(lines);
    RowsBetween(lines, AlignedWidth(lines));
  }

  /** Lines within 40 characters leave the aligned width below the cap. */
  lemma AlignedFits(lines: seq<string>)
    requires forall k :: 0 <= k < |lines| ==> |lines[k]| <= WrapWidth
    ensures AlignedWidth(lines) <= 43
    ensures forall k :: 0 <= k < |lines| ==> |lines[k]| <= AlignedWidth(lines) - 3
  {
    if lines != [] {
      var k :| 0 <= k < |lines| && |lines[k]| == MaxLen(lines);
    }
  }

  /** Lines that fit in `w - 3`, boxed at width `w`: every line of the box
      is `w` wide and each row shows its line. */
  lemma RowsBetween(lines: seq<string>, w: nat)
    requires w >= 3 && forall k :: 0 <= k < |lines| ==> |lines[k]| <= w - 3
    ensures var b := [Border('╭', '╮', w)] + Rows(lines, w) + [Border('╰', '╯', w)];
      |b| == |lines| + 2
      && (forall k :: 0 <= k < |b| ==> |b[k]| == w)
      && forall k :: 0 <= k < |lines| ==> b[k + 1][2..2 + |lines[k]|] == lines[k]
  {
    var rows := Rows(lines, w);
    forall k | 0 <= k < |rows| ensures |rows[k]| == w {
      assert rows[k] == Row(lines[k], w);
    }
    Framed(Border('╭', '╮', w), rows, Border('╰', '╯', w), w);
  }

  /** Between two borders of width `w`, rows of width `w` make every line
      of the box `w` wide. */
  lemma Framed(top: string, rows: seq<string>, bottom: string, w: nat)
    requires |top| == w && |bottom| == w && forall k :: 0 <= k < |rows| ==> |rows[k]| == w
    ensures var b := [top] + rows + [bottom];
      |b| == |rows| + 2 && (forall k :: 0 <= k < |rows| ==> b[k + 1] == rows[k])
      && forall k :: 0 <= k < |b| ==> |b[k]| == w
  {
    var b := [top] + rows + [bottom];
    forall k | 0 <= k < |b| ensures |b[k]| == w {
      if 0 < k < |b| - 1 {
        assert b[k] == rows[k - 1];
      }
    }
  }

  /** Every line `boxify` boxes fits in 40 characters, so an aligned box is
      rectangular. */
  lemma AlignedBoxIsRectangular(title: string, items: seq<string>)
    ensures var lines := BoxContent(title, items);
      var b := AlignedBoxLines(lines); var w := AlignedWidth(lines);
      |b| == |lines| + 2 && w <= 43
      && (forall k :: 0 <= k < |b| ==> |b[k]| == w)
      && forall k :: 0 <= k < |lines| ==> b[k + 1][2..2 + |lines[k]|] == lines[k]
  {
    WrappedItemsFit(items);
    FitConcat(WrapText(title, WrapWidth), WrappedItems(items));
    AlignedRows(BoxContent(title, items));
  }

  /** The lines `boxify` puts in a box: the wrapped title, then each item
      wrapped after a `• ` bullet. */
  function BoxContent(title: string, items: seq<string>): seq<string> {
    WrapText(title, WrapWidth) + WrappedItems(items)
  }

  function WrappedItems(items: seq<string>): seq<string> {
    if items == [] then []
    else WrappedItems(items[..|items| - 1]) + WrapText("• " + items[|items| - 1], WrapWidth)
  }

  lemma WrappedItemsStep(items: seq<string>, i: nat)
    requires i < |items|
    ensures WrappedItems(items[..i + 1]) == WrappedItems(items[..i]) + WrapText("• " + items[i], WrapWidth)
  {
    assert items[..i + 1][..i] == items[..i];
    assert items[..i + 1][i] == items[i];
  }

  lemma {:induction false} WrappedItemsFit(items: seq<string>)
    ensures forall k :: 0 <= k < |WrappedItems(items)| ==> |WrappedItems(items)[k]| <= WrapWidth
  {
    if items != [] {
      WrappedItemsFit(items[..|items| - 1]);
    }
  }

  /** Every line `boxify` boxes fits in 40 characters, so its width is never
      capped: it is 18 or the longest line plus 2, and at most 42. */
  lemma BoxContentWidth(title: string, items: seq<string>)
    ensures var lines := BoxContent(title, items);
      ContentWidth(lines) == (if MaxLen(lines) + 2 <= 18 then 18 else MaxLen(lines) + 2)
      && ContentWidth(lines) <= 42
  {
    WrappedItemsFit(items);
    FitConcat(WrapText(title, WrapWidth), WrappedItems(items));
    NarrowWidth(BoxContent(title, items));
  }

  lemma FitConcat(a: seq<string>, b: seq<string>)
    requires forall k :: 0 <= k < |a| ==> |a[k]| <= WrapWidth
    requires forall k :: 0 <= k < |b| ==> |b[k]| <= WrapWidth
    ensures forall k :: 0 <= k < |a + b| ==> |(a + b)[k]| <= WrapWidth
  {
  }

  lemma NarrowWidth(lines: seq<string>)
    requires forall k :: 0 <= k < |lines| ==> |lines[k]| <= WrapWidth
    ensures ContentWidth(lines) == (if MaxLen(lines) + 2 <= 18 then 18 else MaxLen(lines) + 2)
    ensures ContentWidth(lines) <= 42
  {
  }

  /** `boxify(title, items)`. */
  method Boxify(title: string, items: seq<string>) returns (r: string)
    ensures r == Box(BoxContent(title, items))
  {
    var lines := WrapLine(title);
    var i := 0;
    while i < |items|
      invariant 0 <= i <= |items|
      invariant lines == WrapText(title, WrapWidth) + WrappedItems(items[..i])
    {
      var wrapped := WrapLine("• " + items[i]);
      WrappedItemsStep(items, i);
      AppendAssoc(WrapText(title, WrapWidth), WrappedItems(items[..i]), wrapped);
      lines := lines + wrapped;
      i := i + 1;
    }
    assert items[..|items|] == items;
    r := Box(lines);
  }

  method TutorialCard(stepTitle: string, lines: seq<string> := []) returns (r: string)
    ensures r == Box(BoxContent(stepTitle, lines))
  {
    r := Boxify(stepTitle, lines);
  }

  /** The two item lines of `questComplete`; a reward of 0 is absent. */
  function QuestCompleteItems(xp: nat, coins: nat): seq<string> {
    var parts := (if xp > 0 then ["+" + NatToString(xp) + " XP"] else [])
      + (if coins > 0 then ["+" + NatToString(coins) + " coins"] else []);
    var joined := Join(parts, " · ");
    [if joined == "" then "Progress logged." else joined, "Keep the streak alive."]
  }

  /** The first item lists each non-zero reward, and reads "Progress logged."
      exactly when there is none. */
  lemma QuestCompleteShowsRewards(xp: nat, coins: nat)
    ensures var r := QuestCompleteItems(xp, coins);
      |r| == 2 && r[1] == "Keep the streak alive."
      && (r[0] == "Progress logged." <==> xp == 0 && coins == 0)
      && (xp > 0 ==> StartsWith(r[0], "+" + NatToString(xp) + " XP"))
      && (coins > 0 ==> Contains(r[0], "+" + NatToString(coins) + " coins"))
  {
    var xpPart := "+" + NatToString(xp) + " XP";
    var coinPart := "+" + NatToString(coins) + " coins";
    var parts := (if xp > 0 then [xpPart] else []) + (if coins > 0 then [coinPart] else []);
    var joined := Join(parts, " · ");
    ContainsSelf(coinPart);
    if xp > 0 && coins > 0 {
      assert parts == [xpPart, coinPart];
      assert parts[1..] == [coinPart];
      assert Join(parts[1..], " · ") == coinPart;
      assert joined == xpPart + " · " + coinPart;
      var at := |xpPart + " · "|;
      assert joined[at..at + |coinPart|] == coinPart;
      ContainsAt(joined, coinPart, at);
    } else if xp > 0 {
      assert joined == xpPart;
    } else if coins > 0 {
      assert joined == coinPart;
    }
    assert joined != "" ==> joined[0] == '+';
  }

  method QuestComplete(xp: nat := 0, coins: nat := 0) returns (r: string)
    ensures r == Box(BoxContent("Quest Complete!", QuestCompleteItems(xp, coins)))
  {
    r := Boxify("Quest Complete!", QuestCompleteItems(xp, coins));
  }

  /** The fixed start-up banner. */
  function Banner(): string {
    Join([
      "╔══════════════════════╗",
      "║  SHELLQUEST AWAKENS  ║",
      "╚══════════════════════╝",
      "⚡ Learn commands. Earn loot. ⚡"
    ], "\n")
  }
}
