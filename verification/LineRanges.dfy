/**
 Changed-line arithmetic, internal/changegraph/recorder.go: which lines an edit script
 changes, merging ranges, and asking whether a symbol overlaps them.
 */
module LineRanges {
  import opened Strings

  datatype Range = Range(start: int, end: int)

  datatype Edit = Equal(text: string) | Delete(text: string) | Insert(text: string)

  function Newlines(text: string): nat {
    if text == "" then 0 else Newlines(text[..|text| - 1]) + (if text[|text| - 1] == '\n' then 1 else 0)
  }

  predicate EndsLine(text: string) { text != "" && text[|text| - 1] == '\n' }

  function LineCount(text: string): nat {
    if text == "" then 0 else Newlines(text) + (if EndsLine(text) then 0 else 1)
  }

  /** One more character, on a line of its own or at the end of the last one. */
  function WithChar(lines: seq<string>, newLine: bool, c: char): seq<string> {
    if newLine || lines == [] then lines + [[c]]
    else lines[..|lines| - 1] + [lines[|lines| - 1] + [c]]
  }

  /** The lines of a text; the last one may lack its newline. */
  function Lines(text: string): seq<string> {
    if text == "" then []
    else
      var rest := text[..|text| - 1];
      WithChar(Lines(rest), rest == "" || EndsLine(rest), text[|text| - 1])
  }

  /** A line: its newline, if it has one, is its last character. */
  predicate OneLine(line: string) {
    line != "" && forall i :: 0 <= i < |line| - 1 ==> line[i] != '\n'
  }

  /** Each is one line, and all but perhaps the last end with a newline. */
  ghost predicate AreLines(lines: seq<string>) {
    && (forall i :: 0 <= i < |lines| ==> OneLine(lines[i]))
    && (forall i :: 0 <= i < |lines| - 1 ==> EndsLine(lines[i]))
  }

  /** The last line is still open. */
  predicate Open(lines: seq<string>) {
    lines != [] && !EndsLine(lines[|lines| - 1])
  }

  lemma LongerLine(line: string, c: char)
    requires OneLine(line) && !EndsLine(line)
    ensures OneLine(line + [c]) && (EndsLine(line + [c]) <==> c == '\n')
  {
  }

  lemma WithCharKeepsLines(lines: seq<string>, c: char)
    requires AreLines(lines)
    ensures var after := WithChar(lines, !Open(lines), c);
      && AreLines(after) && (Open(after) <==> c != '\n') && Concat(after) == Concat(lines) + [c]
  {
    if Open(lines) {
      var n := |lines| - 1;
      LongerLine(lines[n], c);
      ConcatSnoc(lines[..n], lines[n] + [c]);
      ConcatSnoc(lines[..n], lines[n]);
      assert lines == lines[..n] + [lines[n]];
      assert Concat(lines[..n]) + (lines[n] + [c]) == (Concat(lines[..n]) + lines[n]) + [c];
    } else {
      ConcatSnoc(lines, [c]);
    }
  }

  lemma LinesSnoc(text: string)
    requires text != ""
    requires var rest := text[..|text| - 1]; Open(Lines(rest)) <==> rest != "" && !EndsLine(rest)
    ensures var rest := text[..|text| - 1]; Lines(text) == WithChar(Lines(rest), !Open(Lines(rest)), text[|text| - 1])
  {
  }

  /** The lines make up the text, and only the last may lack its newline. */
  lemma {:induction false} LinesAreTheText(text: string)
    ensures Concat(Lines(text)) == text && AreLines(Lines(text))
    ensures Open(Lines(text)) <==> text != "" && !EndsLine(text)
  {
    if text != "" {
      var rest, c := text[..|text| - 1], text[|text| - 1];
      LinesAreTheText(rest);
      LinesSnoc(text);
      WithCharKeepsLines(Lines(rest), c);
      assert text == rest + [c];
    }
  }

  /** The count is the number of lines. */
  lemma {:induction false} CountsLines(text: string)
    ensures LineCount(text) == |Lines(text)|
  {
    if text != "" {
      var rest := text[..|text| - 1];
      CountsLines(rest);
      if rest != "" && !EndsLine(rest) {
        assert |Lines(rest)| > 0;
        assert |Lines(text)| == |Lines(rest)|;
      } else {
        assert |Lines(text)| == |Lines(rest)| + 1;
      }
    }
  }

  lemma {:induction false} NewlinesAppend(a: string, b: string)
    ensures Newlines(a + b) == Newlines(a) + Newlines(b)
  {
    if b == "" {
      assert a + b == a;
    } else {
      assert (a + b)[..|a + b| - 1] == a + b[..|b| - 1];
      NewlinesAppend(a, b[..|b| - 1]);
    }
  }

  /** b goes on with the last line of a. */
  predicate SplitsALine(a: string, b: string) { a != "" && !EndsLine(a) && b != "" }

  /** Counts add up, unless a line is split in between. */
  lemma CountAppend(a: string, b: string)
    ensures LineCount(a + b) == LineCount(a) + LineCount(b) - if SplitsALine(a, b) then 1 else 0
  {
    NewlinesAppend(a, b);
    if b == "" {
      assert a + b == a;
    } else if a == "" {
      assert a + b == b;
    }
  }

  lemma WithCharAppend(a: seq<string>, b: seq<string>, newLine: bool, c: char)
    requires newLine || b != []
    ensures WithChar(a + b, newLine, c) == a + WithChar(b, newLine, c)
  {
    if newLine {
      assert (a + b) + [[c]] == a + (b + [[c]]);
    } else {
      var n := |b| - 1;
      assert (a + b)[..|a + b| - 1] == a + b[..n];
    }
  }

  /** And so do the lines themselves. */
  lemma {:induction false} LinesAppend(a: string, b: string)
    requires !SplitsALine(a, b)
    ensures Lines(a + b) == Lines(a) + Lines(b)
  {
    if b == "" {
      assert a + b == a;
    } else {
      var rest, c := b[..|b| - 1], b[|b| - 1];
      LinesAppend(a, rest);
      assert (a + b)[..|a + b| - 1] == a + rest;
      CountsLines(rest);
      var newLine := rest == "" || EndsLine(rest);
      assert newLine == (a + rest == "" || EndsLine(a + rest));
      WithCharAppend(Lines(a), Lines(rest), newLine, c);
    }
  }

  function Repeat(changed: bool, count: nat): seq<bool> { seq(count, _ => changed) }

  /** The two files that an edit script is about. */
  datatype Side = Old | New

  /** Is the text of an edit part of the file on this side? */
  predicate Present(e: Edit, side: Side) {
    e.Equal? || (side.Old? && e.Delete?) || (side.New? && e.Insert?)
  }

  /** What the file on one side holds. */
  function SideText(script: seq<Edit>, side: Side): string {
    if script == [] then ""
    else
      var last := script[|script| - 1];
      SideText(script[..|script| - 1], side) + (if Present(last, side) then last.text else "")
  }

  /** The old file holds what is equal and what is deleted, the new one what is equal and
      what is inserted. */
  lemma EditsBelong(script: seq<Edit>, x: string)
    ensures SideText(script + [Equal(x)], Old) == SideText(script, Old) + x && SideText(script + [Equal(x)], New) == SideText(script, New) + x
    ensures SideText(script + [Delete(x)], Old) == SideText(script, Old) + x && SideText(script + [Delete(x)], New) == SideText(script, New)
    ensures SideText(script + [Insert(x)], Old) == SideText(script, Old) && SideText(script + [Insert(x)], New) == SideText(script, New) + x
  {
    assert (script + [Equal(x)])[..|script|] == script;
    assert (script + [Delete(x)])[..|script|] == script;
    assert (script + [Insert(x)])[..|script|] == script;
  }

  /** The lines that an edit spans on one side: whether each was changed. */
  function Run(e: Edit, side: Side): seq<bool> {
    if Present(e, side) then Repeat(!e.Equal?, LineCount(e.text)) else []
  }

  function Tags(script: seq<Edit>, side: Side): seq<bool> {
    if script == [] then [] else Tags(script[..|script| - 1], side) + Run(script[|script| - 1], side)
  }

  lemma TagsSnoc(script: seq<Edit>, i: nat, side: Side)
    requires i < |script|
    ensures Tags(script[..i + 1], side) == Tags(script[..i], side) + Run(script[i], side)
    ensures SideText(script[..i + 1], side) == SideText(script[..i], side) + if Present(script[i], side) then script[i].text else ""
  {
    assert script[..i + 1][..i] == script[..i];
  }

  predicate Speaks(e: Edit, side: Side) { Present(e, side) && e.text != "" }

  /** Every text of the side but the last one ends a line. */
  predicate WholeLines(script: seq<Edit>, side: Side) {
    forall i, j :: 0 <= i < j < |script| && Speaks(script[i], side) && Speaks(script[j], side) ==> EndsLine(script[i].text)
  }

  predicate AllEndLines(script: seq<Edit>, side: Side) {
    forall i :: 0 <= i < |script| && Speaks(script[i], side) ==> EndsLine(script[i].text)
  }

  lemma {:induction false} EndOfSide(script: seq<Edit>, side: Side)
    requires WholeLines(script, side)
    ensures AllEndLines(script, side) <==> SideText(script, side) == "" || EndsLine(SideText(script, side))
  {
    if script != [] {
      var n := |script| - 1;
      EndOfSide(script[..n], side);
      assert AllEndLines(script, side) <==> AllEndLines(script[..n], side) && (Speaks(script[n], side) ==> EndsLine(script[n].text));
      if Speaks(script[n], side) {
        assert AllEndLines(script[..n], side);
      } else {
        assert SideText(script, side) == SideText(script[..n], side);
      }
    }
  }

  lemma WholeLinesSnoc(script: seq<Edit>, side: Side)
    requires script != []
    ensures var n := |script| - 1;
      WholeLines(script, side) <==> WholeLines(script[..n], side) && (Speaks(script[n], side) ==> AllEndLines(script[..n], side))
  {
    var n := |script| - 1;
    assert script == script[..n] + [script[n]];
  }

  /** Counting edit by edit numbers the real lines of the file on a side, if and only if
      every text of that side but the last one ends a line; otherwise it counts too many. */
  lemma {:induction false} TagsAreLinesIff(script: seq<Edit>, side: Side)
    ensures LineCount(SideText(script, side)) <= |Tags(script, side)|
    ensures |Tags(script, side)| == LineCount(SideText(script, side)) <==> WholeLines(script, side)
  {
    if script != [] {
      var n := |script| - 1;
      var before := SideText(script[..n], side);
      TagsAreLinesIff(script[..n], side);
      WholeLinesSnoc(script, side);
      if Speaks(script[n], side) {
        CountAppend(before, script[n].text);
        if WholeLines(script[..n], side) {
          EndOfSide(script[..n], side);
        }
      } else {
        assert SideText(script, side) == before;
        assert Run(script[n], side) == [];
      }
    }
  }

  /** Line i of the text of edit j is this line of the file, counting from 0. */
  function LineNumber(script: seq<Edit>, side: Side, j: nat, i: nat): nat
    requires j < |script|
  {
    LineCount(SideText(script[..j], side)) + i
  }

  /** What the last edit adds to a side. */
  lemma SideGrows(script: seq<Edit>, side: Side)
    requires WholeLines(script, side) && script != []
    ensures var m := |script| - 1;
      var before, x := SideText(script[..m], side), if Present(script[m], side) then script[m].text else "";
      && SideText(script, side) == before + x && Lines(before + x) == Lines(before) + Lines(x)
      && LineCount(before + x) == LineCount(before) + LineCount(x)
      && |Lines(before)| == |Tags(script[..m], side)| == LineCount(before)
      && WholeLines(script[..m], side)
  {
    var m := |script| - 1;
    var before, x := SideText(script[..m], side), if Present(script[m], side) then script[m].text else "";
    WholeLinesSnoc(script, side);
    TagsAreLinesIff(script[..m], side);
    EndOfSide(script[..m], side);
    CountsLines(before);
    LinesAppend(before, x);
    CountAppend(before, x);
  }

  /** Line n of what `lines` and `tags` list is line i of edit e. */
  predicate Shows(lines: seq<string>, tags: seq<bool>, n: nat, e: Edit, i: nat) {
    n < |lines| && n < |tags| && i < |Lines(e.text)| && lines[n] == Lines(e.text)[i] && tags[n] == !e.Equal?
  }

  lemma ShowsMore(lines: seq<string>, tags: seq<bool>, n: nat, e: Edit, i: nat, more: seq<string>, moreTags: seq<bool>)
    requires Shows(lines, tags, n, e, i)
    ensures Shows(lines + more, tags + moreTags, n, e, i)
  {
  }

  lemma ShowsLast(lines: seq<string>, tags: seq<bool>, e: Edit, i: nat)
    requires |lines| == |tags| && i < |Lines(e.text)|
    ensures Shows(lines + Lines(e.text), tags + Repeat(!e.Equal?, |Lines(e.text)|), |lines| + i, e, i)
  {
  }

  /** Line n of the file on a side, counting from 0, is line i of edit e. */
  predicate IsLineOf(script: seq<Edit>, side: Side, n: nat, e: Edit, i: nat) {
    Shows(Lines(SideText(script, side)), Tags(script, side), n, e, i)
  }

  lemma LastLines(before: seq<Edit>, e: Edit, side: Side, i: nat)
    requires WholeLines(before + [e], side) && Present(e, side) && i < LineCount(e.text)
    ensures IsLineOf(before + [e], side, LineCount(SideText(before, side)) + i, e, i)
  {
    var script := before + [e];
    assert script[..|script| - 1] == before;
    SideGrows(script, side);
    CountsLines(e.text);
    ShowsLast(Lines(SideText(before, side)), Tags(before, side), e, i);
  }

  lemma EarlierLines(script: seq<Edit>, side: Side, n: nat, e: Edit, i: nat)
    requires WholeLines(script, side) && script != [] && IsLineOf(script[..|script| - 1], side, n, e, i)
    ensures IsLineOf(script, side, n, e, i)
  {
    var m := |script| - 1;
    SideGrows(script, side);
    var x := if Present(script[m], side) then script[m].text else "";
    ShowsMore(Lines(SideText(script[..m], side)), Tags(script[..m], side), n, e, i, Lines(x), Run(script[m], side));
  }

  lemma WholeTake(script: seq<Edit>, side: Side, k: nat)
    requires WholeLines(script, side) && k <= |script|
    ensures WholeLines(script[..k], side)
  {
  }

  /** What is a line after k edits stays that line. */
  lemma {:induction false} StaysLineOf(script: seq<Edit>, side: Side, k: nat, n: nat, e: Edit, i: nat)
    requires WholeLines(script, side) && k <= |script| && IsLineOf(script[..k], side, n, e, i)
    ensures IsLineOf(script, side, n, e, i)
    decreases |script| - k
  {
    if k == |script| {
      assert script[..k] == script;
    } else {
      WholeTake(script, side, k + 1);
      assert script[..k + 1][..k] == script[..k];
      EarlierLines(script[..k + 1], side, n, e, i);
      StaysLineOf(script, side, k + 1, n, e, i);
    }
  }

  /** Each line of an edit is the line of the file that its number says, tagged as changed
      exactly when the edit is no Equal one. */
  lemma LineComesFrom(script: seq<Edit>, side: Side, j: nat, i: nat)
    requires WholeLines(script, side) && j < |script| && Present(script[j], side) && i < LineCount(script[j].text)
    ensures IsLineOf(script, side, LineNumber(script, side, j, i), script[j], i)
  {
    var n := LineNumber(script, side, j, i);
    WholeTake(script, side, j + 1);
    assert script[..j + 1] == script[..j] + [script[j]];
    LastLines(script[..j], script[j], side, i);
    StaysLineOf(script, side, j + 1, n, script[j], i);
  }

  /** And every line of the file comes from some edit. */
  lemma {:induction false} EveryLineComesFrom(script: seq<Edit>, side: Side, n: nat) returns (j: nat, i: nat)
    requires WholeLines(script, side) && n < LineCount(SideText(script, side))
    ensures j < |script| && Present(script[j], side) && i < LineCount(script[j].text) && n == LineNumber(script, side, j, i)
  {
    var m := |script| - 1;
    var before := LineCount(SideText(script[..m], side));
    SideGrows(script, side);
    if n < before {
      j, i := EveryLineComesFrom(script[..m], side, n);
      assert script[..m][..j] == script[..j];
    } else {
      j, i := m, n - before;
    }
  }

  predicate In(r: Range, n: int) { r.start <= n <= r.end }

  /** Line n lies in one of the ranges. */
  predicate Covers(ranges: seq<Range>, n: int) {
    exists i :: 0 <= i < |ranges| && In(ranges[i], n)
  }

  /** The ranges cover exactly the tagged lines, counting from 1. */
  ghost predicate Exact(ranges: seq<Range>, tags: seq<bool>) {
    forall n :: Covers(ranges, n) <==> 1 <= n <= |tags| && tags[n - 1]
  }

  predicate NonEmpty(ranges: seq<Range>) {
    forall i :: 0 <= i < |ranges| ==> ranges[i].start <= ranges[i].end
  }

  lemma CoversAppend(a: seq<Range>, r: Range, n: int)
    ensures Covers(a + [r], n) <==> Covers(a, n) || In(r, n)
  {
    if Covers(a, n) {
      var i :| 0 <= i < |a| && In(a[i], n);
      assert (a + [r])[i] == a[i];
    }
    assert (a + [r])[|a|] == r;
  }

  /** A run of equal tags, with the range for it when the run is tagged. */
  lemma RunKeepsExact(ranges: seq<Range>, tags: seq<bool>, tag: bool, count: nat)
    requires Exact(ranges, tags)
    ensures var line := |tags| + 1;
      Exact(if tag && count > 0 then ranges + [Range(line, line + count - 1)] else ranges, tags + Repeat(tag, count))
  {
    var r := Range(|tags| + 1, |tags| + count);
    var all := tags + Repeat(tag, count);
    var out := if tag && count > 0 then ranges + [r] else ranges;
    forall n ensures Covers(out, n) <==> 1 <= n <= |all| && all[n - 1] {
      CoversAppend(ranges, r, n);
    }
  }

  /** The ranges of the lines before `line`, which are the tagged ones. */
  ghost predicate Tells(ranges: seq<Range>, line: int, tags: seq<bool>) {
    line == |tags| + 1 && Exact(ranges, tags) && NonEmpty(ranges)
  }

  /** Count lines on, on one side, recording them when they changed. */
  method CountOn(ranges: seq<Range>, line: int, changed: bool, count: nat, ghost tags: seq<bool>)
    returns (ranges': seq<Range>, line': int)
    requires Tells(ranges, line, tags)
    ensures Tells(ranges', line', tags + Repeat(changed, count))
  {
    RunKeepsExact(ranges, tags, changed, count);
    ranges' := ranges;
    if changed && count > 0 {
      ranges' := ranges + [Range(line, line + count - 1)];
    }
    line' := line + count;
  }

  /** The ranges of both versions, merged. */
  method ChangedLineRanges(script: seq<Edit>) returns (beforeRanges: seq<Range>, afterRanges: seq<Range>)
    ensures Exact(beforeRanges, Tags(script, Old)) && Canonical(beforeRanges)
    ensures Exact(afterRanges, Tags(script, New)) && Canonical(afterRanges)
  {
    var before, after := [], [];
    var beforeLine, afterLine := 1, 1;
    for i := 0 to |script|
      invariant Tells(before, beforeLine, Tags(script[..i], Old))
      invariant Tells(after, afterLine, Tags(script[..i], New))
    {
      TagsSnoc(script, i, Old);
      TagsSnoc(script, i, New);
      var count := LineCount(script[i].text);
      match script[i] {
        case Equal(_) =>
          before, beforeLine := CountOn(before, beforeLine, false, count, Tags(script[..i], Old));
          after, afterLine := CountOn(after, afterLine, false, count, Tags(script[..i], New));
        case Delete(_) =>
          before, beforeLine := CountOn(before, beforeLine, true, count, Tags(script[..i], Old));
        case Insert(_) =>
          after, afterLine := CountOn(after, afterLine, true, count, Tags(script[..i], New));
      }
    }
    assert script[..|script|] == script;
    beforeRanges := MergeRanges(before);
    afterRanges := MergeRanges(after);
  }

  /** What exact ranges say of the real lines: line n of the file on a side is covered if
      and only if it comes from a Delete edit (of the old file) or an Insert edit (of the
      new one); numbers that are no lines are not covered. */
  lemma CoveredIffChanged(script: seq<Edit>, side: Side, ranges: seq<Range>, n: int)
    requires WholeLines(script, side) && Exact(ranges, Tags(script, side))
    ensures Covers(ranges, n) <==>
            exists j, i :: 0 <= j < |script| && (if side == Old then script[j].Delete? else script[j].Insert?)
                           && 0 <= i < LineCount(script[j].text) && n == LineNumber(script, side, j, i) + 1
  {
    TagsAreLinesIff(script, side);
    if 1 <= n <= LineCount(SideText(script, side)) {
      var j, i := EveryLineComesFrom(script, side, n - 1);
      LineComesFrom(script, side, j, i);
    }
    forall j, i | 0 <= j < |script| && Present(script[j], side) && 0 <= i < LineCount(script[j].text) && n == LineNumber(script, side, j, i) + 1
      ensures 1 <= n <= |Tags(script, side)| && Tags(script, side)[n - 1] == !script[j].Equal?
    {
      LineComesFrom(script, side, j, i);
    }
  }

  predicate Ordered(ranges: seq<Range>) {
    forall i, j :: 0 <= i < j < |ranges| ==> ranges[i].start <= ranges[j].start
  }

  /** In order, with at least one uncovered line between neighbours. */
  predicate Gapped(ranges: seq<Range>) {
    forall i :: 0 <= i < |ranges| - 1 ==> ranges[i].end + 1 < ranges[i + 1].start
  }

  predicate Canonical(ranges: seq<Range>) { NonEmpty(ranges) && Gapped(ranges) }

  ghost predicate SameCover(a: seq<Range>, b: seq<Range>) {
    forall n :: Covers(a, n) <==> Covers(b, n)
  }

  lemma InsertedInOrder(sorted: seq<Range>, at: nat, r: Range)
    requires Ordered(sorted) && at <= |sorted|
    requires at > 0 ==> sorted[at - 1].start <= r.start
    requires at < |sorted| ==> r.start <= sorted[at].start
    ensures Ordered(sorted[..at] + [r] + sorted[at..])
  {
    var all := sorted[..at] + [r] + sorted[at..];
    assert forall i :: 0 <= i < at ==> all[i] == sorted[i];
    assert all[at] == r;
    assert forall i :: at < i < |all| ==> all[i] == sorted[i - 1];
  }

  lemma InsertedMembers(sorted: seq<Range>, at: nat, r: Range)
    requires at <= |sorted|
    ensures multiset(sorted[..at] + [r] + sorted[at..]) == multiset(sorted) + multiset{r}
  {
    assert sorted == sorted[..at] + sorted[at..];
  }

  /** Ordering by start; which of two equal starts comes first is left open. */
  method SortByStart(ranges: seq<Range>) returns (sorted: seq<Range>)
    ensures Ordered(sorted) && multiset(sorted) == multiset(ranges)
  {
    sorted := [];
    for i := 0 to |ranges|
      invariant Ordered(sorted) && multiset(sorted) == multiset(ranges[..i])
    {
      var at := |sorted|;
      while at > 0 && sorted[at - 1].start > ranges[i].start
        invariant 0 <= at <= |sorted|
        invariant at < |sorted| ==> sorted[at].start > ranges[i].start
      {
        at := at - 1;
      }
      InsertedInOrder(sorted, at, ranges[i]);
      InsertedMembers(sorted, at, ranges[i]);
      assert ranges[..i + 1] == ranges[..i] + [ranges[i]];
      sorted := sorted[..at] + [ranges[i]] + sorted[at..];
    }
    assert ranges[..|ranges|] == ranges;
  }

  lemma SameMembersSameCover(a: seq<Range>, b: seq<Range>)
    requires multiset(a) == multiset(b)
    ensures SameCover(a, b) && (NonEmpty(a) ==> NonEmpty(b))
  {
    CoverOfMembers(a, b);
    CoverOfMembers(b, a);
    if NonEmpty(a) {
      forall i | 0 <= i < |b| ensures b[i].start <= b[i].end {
        assert b[i] in multiset(a);
      }
    }
  }

  lemma CoverOfMembers(a: seq<Range>, b: seq<Range>)
    requires multiset(a) == multiset(b)
    ensures forall n :: Covers(a, n) ==> Covers(b, n)
  {
    forall n | Covers(a, n) ensures Covers(b, n) {
      var i :| 0 <= i < |a| && In(a[i], n);
      assert a[i] in multiset(b);
      var j :| 0 <= j < |b| && b[j] == a[i];
    }
  }

  /** Growing the last range, when the next one starts inside it or right after it. */
  lemma AbsorbedCover(out: seq<Range>, r: Range)
    requires out != [] && out[|out| - 1].start <= r.start <= out[|out| - 1].end + 1
    ensures var last := out[|out| - 1];
      var grown := if r.end > last.end then out[|out| - 1 := last.(end := r.end)] else out;
      forall n :: Covers(grown, n) <==> Covers(out, n) || In(r, n)
  {
    var m := |out| - 1;
    var last := out[m];
    var grown := if r.end > last.end then out[m := last.(end := r.end)] else out;
    assert out == out[..m] + [last];
    assert grown == out[..m] + [grown[m]];
    forall n ensures Covers(grown, n) <==> Covers(out, n) || In(r, n) {
      CoversAppend(out[..m], last, n);
      CoversAppend(out[..m], grown[m], n);
    }
  }

  lemma SnocCover(out: seq<Range>, r: Range)
    ensures forall n :: Covers(out + [r], n) <==> Covers(out, n) || In(r, n)
  {
    forall n ensures Covers(out + [r], n) <==> Covers(out, n) || In(r, n) {
      CoversAppend(out, r, n);
    }
  }

  /** Merging keeps the lines covered and leaves a gap between ranges. */
  method MergeRanges(ranges: seq<Range>) returns (out: seq<Range>)
    ensures SameCover(out, ranges) && Gapped(out)
    ensures NonEmpty(ranges) ==> Canonical(out)
  {
    if |ranges| == 0 {
      return [];
    }
    var sorted := SortByStart(ranges);
    SameMembersSameCover(ranges, sorted);
    assert |sorted| == |multiset(sorted)| == |multiset(ranges)| == |ranges|;
    out := [sorted[0]];
    assert sorted[..1] == [sorted[0]];
    for i := 1 to |sorted|
      invariant out != [] && Gapped(out) && SameCover(out, sorted[..i])
      invariant out[|out| - 1].start <= sorted[i - 1].start
      invariant NonEmpty(ranges) ==> NonEmpty(out)
    {
      var r, last := sorted[i], out[|out| - 1];
      assert sorted[..i + 1] == sorted[..i] + [r];
      SnocCover(sorted[..i], r);
      if r.start <= last.end + 1 {
        AbsorbedCover(out, r);
        if r.end > last.end {
          out := out[|out| - 1 := last.(end := r.end)];
        }
      } else {
        SnocCover(out, r);
        out := out + [r];
      }
    }
    assert sorted[..|sorted|] == sorted;
  }

  lemma {:induction false} GappedApart(ranges: seq<Range>, i: nat, j: nat)
    requires Canonical(ranges) && i < j < |ranges|
    ensures ranges[i].end + 1 < ranges[j].start
  {
    if i + 1 < j {
      GappedApart(ranges, i, j - 1);
    }
  }

  /** The run of covered lines that starts with a covered line after an uncovered one. */
  lemma RunOf(ranges: seq<Range>, i: nat)
    requires Canonical(ranges) && i < |ranges|
    ensures !Covers(ranges, ranges[i].start - 1) && !Covers(ranges, ranges[i].end + 1)
    ensures forall n :: ranges[i].start <= n <= ranges[i].end ==> Covers(ranges, n)
  {
    forall j | 0 <= j < |ranges| ensures !In(ranges[j], ranges[i].start - 1) && !In(ranges[j], ranges[i].end + 1) {
      if j < i {
        GappedApart(ranges, j, i);
      } else if i < j {
        GappedApart(ranges, i, j);
      }
    }
    forall n | ranges[i].start <= n <= ranges[i].end ensures Covers(ranges, n) {
      assert In(ranges[i], n);
    }
  }

  /** Every range of one canonical list is a range of any other with the same cover. */
  lemma SameRange(a: seq<Range>, b: seq<Range>, i: nat) returns (j: nat)
    requires Canonical(a) && Canonical(b) && SameCover(a, b) && i < |a|
    ensures j < |b| && b[j] == a[i]
  {
    RunOf(a, i);
    assert Covers(b, a[i].start);
    j :| 0 <= j < |b| && In(b[j], a[i].start);
    RunOf(b, j);
    assert Covers(a, b[j].end) && Covers(a, b[j].start);
    var low, high, top := a[i].start - 1, a[i].end + 1, b[j].end + 1;
    assert !Covers(b, low) && !Covers(b, high) && !Covers(a, top);
    assert !In(b[j], low) && !In(b[j], high) && !In(a[i], top);
  }

  /** The merged form is unique: lists of ranges with the same cover merge to the same list. */
  lemma {:induction false} CanonicalIsUnique(a: seq<Range>, b: seq<Range>)
    requires Canonical(a) && Canonical(b) && SameCover(a, b)
    ensures a == b
  {
    forall i | 0 <= i < |a| ensures i < |b| && b[i] == a[i] {
      SamePosition(a, b, i);
    }
    if b != [] {
      SamePosition(b, a, |b| - 1);
    }
    if a != [] {
      SamePosition(a, b, |a| - 1);
    }
  }

  lemma {:induction false} SamePosition(a: seq<Range>, b: seq<Range>, i: nat)
    requires Canonical(a) && Canonical(b) && SameCover(a, b) && i < |a|
    ensures i < |b| && b[i] == a[i]
  {
    var j := SameRange(a, b, i);
    if j < i {
      SamePosition(a, b, j);
      GappedApart(a, j, i);
    } else if i < j {
      var k := SameRange(b, a, i);
      GappedApart(b, i, j);
      if k < i {
        SamePosition(a, b, k);
        GappedApart(b, k, i);
      } else if i < k {
        GappedApart(a, i, k);
      }
    }
  }

  /** Where a symbol ends, when its last line is not known. */
  function LastLine(start: int, end: int): int { if end <= 0 then start else end }

  predicate Meets(ranges: seq<Range>, start: int, end: int) {
    exists i :: 0 <= i < |ranges| && start <= ranges[i].end && LastLine(start, end) >= ranges[i].start
  }

  method Overlaps(ranges: seq<Range>, start: int, end: int) returns (found: bool)
    ensures found <==> Meets(ranges, start, end)
  {
    var last := end;
    if end <= 0 {
      last := start;
    }
    for i := 0 to |ranges|
      invariant forall j :: 0 <= j < i ==> !(start <= ranges[j].end && last >= ranges[j].start)
    {
      if start <= ranges[i].end && last >= ranges[i].start {
        return true;
      }
    }
    found := false;
  }

  /** Line n belongs to a symbol: from its first line to its end, or its first line alone
      when its end is not known. */
  predicate OfSymbol(start: int, end: int, n: int) {
    if end > 0 then start <= n <= end else n == start
  }

  /** A symbol meets the ranges exactly when one of its lines is covered. */
  lemma MeetsCoveredLine(ranges: seq<Range>, start: int, end: int)
    requires NonEmpty(ranges) && (end > 0 ==> start <= end)
    ensures Meets(ranges, start, end) <==> exists n :: OfSymbol(start, end, n) && Covers(ranges, n)
  {
    if Meets(ranges, start, end) {
      var i :| 0 <= i < |ranges| && start <= ranges[i].end && LastLine(start, end) >= ranges[i].start;
      var n := if start < ranges[i].start then ranges[i].start else start;
      assert In(ranges[i], n);
      assert OfSymbol(start, end, n) && Covers(ranges, n);
    }
  }

  /**
   Merging never changes whether a symbol overlaps, exactly when the symbol does not end
   before it starts.
   */
  lemma MergingIsHarmlessIff(start: int, end: int)
    ensures (end > 0 ==> start <= end) <==>
            forall a, b :: NonEmpty(a) && Canonical(b) && SameCover(a, b) ==> (Meets(a, start, end) <==> Meets(b, start, end))
  {
    var last := LastLine(start, end);
    if start <= last {
      forall a, b | NonEmpty(a) && Canonical(b) && SameCover(a, b) ensures Meets(a, start, end) <==> Meets(b, start, end) {
        MeetsCoveredLine(a, start, end);
        MeetsCoveredLine(b, start, end);
      }
    } else {
      var a, b := [Range(last, last), Range(last + 1, start)], [Range(last, start)];
      forall n ensures Covers(a, n) <==> Covers(b, n) {
        assert In(a[0], n) || In(a[1], n) <==> In(b[0], n);
      }
      assert b[0] == Range(last, start);
      assert Meets(b, start, end) && !Meets(a, start, end);
    }
  }
}
