/**
 Blanking of fenced blocks in Markdown, as internal/docgraph/docgraph.go does
 before it looks for links. A char stands for the byte with that code.
 */
module FenceMask {
  import opened Common
  import opened Pieces

  // ---------------------------------------------------------------- fence markers

  datatype Fence = Fence(marker: char, count: nat, rest: string)

  predicate IsIndent(c: char) {
    c == ' ' || c == '\t'
  }

  // strings.TrimLeft(line, " \t")
  function TrimIndent(s: string): string {
    if s != [] && IsIndent(s[0]) then TrimIndent(s[1..]) else s
  }

  function RunLength(s: string, c: char): (n: nat)
    ensures n <= |s|
  {
    if s != [] && s[0] == c then 1 + RunLength(s[1..], c) else 0
  }

  function MarkdownFence(line: string): Option<Fence> {
    var trimmed := TrimIndent(line);
    if |trimmed| < 3 || (trimmed[0] != '`' && trimmed[0] != '~') then None
    else
      var n := RunLength(trimmed, trimmed[0]);
      if n < 3 then None else Some(Fence(trimmed[0], n, trimmed[n..]))
  }

  function Repeat(c: char, n: nat): (s: string)
    ensures |s| == n && forall i :: 0 <= i < n ==> s[i] == c
  {
    if n == 0 then "" else [c] + Repeat(c, n - 1)
  }

  predicate AllIndent(s: string) {
    forall i :: 0 <= i < |s| ==> IsIndent(s[i])
  }

  lemma {:induction false} TrimIndentOf(indent: string, s: string)
    requires AllIndent(indent) && (s == [] || !IsIndent(s[0]))
    ensures TrimIndent(indent + s) == s
  {
    if indent == [] {
      assert indent + s == s;
    } else {
      assert (indent + s)[1..] == indent[1..] + s;
      TrimIndentOf(indent[1..], s);
    }
  }

  lemma {:induction false} TrimIndentSplits(s: string) returns (indent: string)
    ensures AllIndent(indent) && s == indent + TrimIndent(s)
  {
    if s != [] && IsIndent(s[0]) {
      var more := TrimIndentSplits(s[1..]);
      indent := [s[0]] + more;
    } else {
      indent := [];
    }
  }

  lemma {:induction false} RunLengthIs(s: string, c: char, n: nat)
    ensures RunLength(s, c) == n <==> n <= |s| && s[..n] == Repeat(c, n) && (n == |s| || s[n] != c)
  {
    if s != [] && s[0] == c {
      if n > 0 {
        RunLengthIs(s[1..], c, n - 1);
        assert Repeat(c, n)[1..] == Repeat(c, n - 1);
        assert n <= |s| ==> s[..n] == [s[0]] + s[1..][..n - 1] && s[..n][1..] == s[1..][..n - 1];
      }
    } else if 0 < n <= |s| {
      assert s[..n][0] != Repeat(c, n)[0];
    }
  }

  /** A line is a fence marker exactly when it is an indent, three or more of one
      of the two fence characters, and a rest that does not go on with it. */
  lemma FenceIsExactly(line: string, f: Fence)
    ensures MarkdownFence(line) == Some(f) <==>
            && f.marker in {'`', '~'} && f.count >= 3 && (f.rest == [] || f.rest[0] != f.marker)
            && exists indent :: AllIndent(indent) && line == indent + (Repeat(f.marker, f.count) + f.rest)
  {
    var body := Repeat(f.marker, f.count) + f.rest;
    if MarkdownFence(line) == Some(f) {
      var indent := TrimIndentSplits(line);
      RunLengthIs(TrimIndent(line), f.marker, f.count);
      assert TrimIndent(line) == body;
    }
    if f.marker in {'`', '~'} && f.count >= 3 && (f.rest == [] || f.rest[0] != f.marker) {
      RunLengthIs(body, f.marker, f.count);
      assert body[..f.count] == Repeat(f.marker, f.count) && body[f.count..] == f.rest;
      if indent :| AllIndent(indent) && line == indent + body {
        TrimIndentOf(indent, body);
      }
    }
  }

  // ---------------------------------------------------------------- blank rest

  // Length of the white space rune that s starts with, in UTF-8; 0 when there is none.
  function SpaceRune(s: string): (n: nat)
    ensures n <= |s|
  {
    if s == [] then 0
    else if '\t' <= s[0] <= '\r' || s[0] == ' ' then 1
    else if |s| >= 2 && s[0] as int == 0xC2 && (s[1] as int == 0x85 || s[1] as int == 0xA0) then 2
    else if |s| >= 3 && SpaceRune3(s[0] as int, s[1] as int, s[2] as int) then 3
    else 0
  }

  // U+1680, U+2000 to U+200A, U+2028, U+2029, U+202F, U+205F, U+3000
  predicate SpaceRune3(a: int, b: int, c: int) {
    || (a == 0xE1 && b == 0x9A && c == 0x80)
    || (a == 0xE2 && b == 0x80 && (0x80 <= c <= 0x8A || c == 0xA8 || c == 0xA9 || c == 0xAF))
    || (a == 0xE2 && b == 0x81 && c == 0x9F)
    || (a == 0xE3 && b == 0x80 && c == 0x80)
  }

  // strings.TrimSpace(s) == ""
  predicate Blank(s: string) {
    s == [] || (SpaceRune(s) > 0 && Blank(s[SpaceRune(s)..]))
  }

  // ---------------------------------------------------------------- the line machine

  datatype State = Outside | Inside(marker: char, minimum: nat)

  function Text(line: string): string {
    if line != [] && line[|line| - 1] == '\r' then line[..|line| - 1] else line
  }

  predicate Closes(line: string, marker: char, minimum: nat) {
    var f := MarkdownFence(Text(line));
    f.Some? && f.value.marker == marker && f.value.count >= minimum && Blank(f.value.rest)
  }

  function Next(st: State, line: string): State {
    match st
    case Outside =>
      var f := MarkdownFence(Text(line));
      if f.Some? then Inside(f.value.marker, f.value.count) else Outside
    case Inside(marker, minimum) =>
      if Closes(line, marker, minimum) then Outside else st
  }

  predicate Masks(st: State, line: string) {
    st.Inside? || Next(st, line).Inside?
  }

  function Blanked(line: string): (r: string)
    ensures |r| == |line| && forall i :: 0 <= i < |line| ==> r[i] == if line[i] == '\r' then '\r' else ' '
  {
    seq(|line|, i requires 0 <= i < |line| => if line[i] == '\r' then '\r' else ' ')
  }

  function MaskLine(st: State, line: string): string {
    if Masks(st, line) then Blanked(line) else line
  }

  function MaskLines(lines: seq<string>, st: State): (r: seq<string>)
    ensures |r| == |lines|
  {
    if lines == [] then [] else [MaskLine(st, lines[0])] + MaskLines(lines[1..], Next(st, lines[0]))
  }

  function Mask(s: string): string {
    Join(MaskLines(Split(s, NEWLINE), Outside), NEWLINE)
  }

  // ---------------------------------------------------------------- blocks

  // How many lines after an opening marker belong to its block: up to the
  // first line that closes it, or all of them.
  function BlockLength(lines: seq<string>, marker: char, minimum: nat): (n: nat)
    ensures n <= |lines|
    ensures forall i :: 0 <= i < n - 1 ==> !Closes(lines[i], marker, minimum)
    ensures (n > 0 && Closes(lines[n - 1], marker, minimum))
            || (n == |lines| && forall i :: 0 <= i < n ==> !Closes(lines[i], marker, minimum))
  {
    if lines == [] then 0
    else if Closes(lines[0], marker, minimum) then 1
    else 1 + BlockLength(lines[1..], marker, minimum)
  }

  // Line k lies in a fenced block, markers included.
  predicate Fenced(lines: seq<string>, k: nat)
    requires k < |lines|
    decreases |lines|
  {
    var f := MarkdownFence(Text(lines[0]));
    if f.Some? then
      var n := 1 + BlockLength(lines[1..], f.value.marker, f.value.count);
      k < n || Fenced(lines[n..], k - n)
    else k > 0 && Fenced(lines[1..], k - 1)
  }

  lemma MaskTail(lines: seq<string>, st: State, k: nat)
    requires 0 < k < |lines|
    ensures MaskLines(lines, st)[k] == MaskLines(lines[1..], Next(st, lines[0]))[k - 1]
  {
  }

  // Inside a fence, the machine blanks up to the close and is outside after it.
  lemma {:induction false} MaskBlock(lines: seq<string>, st: State, k: nat)
    requires st.Inside? && k < |lines|
    ensures var n := BlockLength(lines, st.marker, st.minimum);
            MaskLines(lines, st)[k] == if k < n then Blanked(lines[k]) else MaskLines(lines[n..], Outside)[k - n]
  {
    if k > 0 {
      MaskTail(lines, st, k);
      if !Closes(lines[0], st.marker, st.minimum) {
        MaskBlock(lines[1..], st, k - 1);
        var n := BlockLength(lines, st.marker, st.minimum);
        assert lines[1..][n - 1..] == lines[n..];
      }
    }
  }

  /** The line by line machine blanks exactly the lines of fenced blocks. */
  lemma {:induction false} MachineBlanksBlocks(lines: seq<string>, k: nat)
    requires k < |lines|
    ensures MaskLines(lines, Outside)[k] == if Fenced(lines, k) then Blanked(lines[k]) else lines[k]
    decreases |lines|
  {
    var f := MarkdownFence(Text(lines[0]));
    if f.Some? {
      var n := 1 + BlockLength(lines[1..], f.value.marker, f.value.count);
      if k > 0 {
        MaskTail(lines, Outside, k);
        MaskBlock(lines[1..], Inside(f.value.marker, f.value.count), k - 1);
        assert lines[1..][n - 1..] == lines[n..];
        if k >= n { MachineBlanksBlocks(lines[n..], k - n); }
      }
    } else if k > 0 {
      MaskTail(lines, Outside, k);
      MachineBlanksBlocks(lines[1..], k - 1);
    }
  }

  // ---------------------------------------------------------------- whole texts

  lemma {:induction false} MaskedHasNoNewline(lines: seq<string>, st: State)
    requires forall i :: 0 <= i < |lines| ==> '\n' !in lines[i]
    ensures forall i :: 0 <= i < |lines| ==> '\n' !in MaskLines(lines, st)[i]
  {
    if lines != [] {
      MaskedHasNoNewline(lines[1..], Next(st, lines[0]));
    }
  }

  lemma LinesOfMask(s: string)
    ensures Split(Mask(s), NEWLINE) == MaskLines(Split(s, NEWLINE), Outside)
  {
    JoinOfSplit(s, NEWLINE);
    MaskedHasNoNewline(Split(s, NEWLINE), Outside);
    SplitOfJoin(MaskLines(Split(s, NEWLINE), Outside), NEWLINE);
  }

  /** Masking keeps the lines, blanks those in a fenced block and leaves the others alone. */
  lemma MaskIsExact(s: string, k: nat)
    requires k < |Split(s, NEWLINE)|
    ensures |Split(Mask(s), NEWLINE)| == |Split(s, NEWLINE)|
    ensures Split(Mask(s), NEWLINE)[k]
            == if Fenced(Split(s, NEWLINE), k) then Blanked(Split(s, NEWLINE)[k]) else Split(s, NEWLINE)[k]
  {
    LinesOfMask(s);
    MachineBlanksBlocks(Split(s, NEWLINE), k);
  }

  // t is s with some bytes, none of them a line ending, overwritten by spaces
  ghost predicate BlankedCopy(s: string, t: string) {
    && |t| == |s|
    && forall i :: 0 <= i < |s| ==> t[i] == s[i] || (t[i] == ' ' && s[i] != '\n' && s[i] != '\r')
  }

  lemma {:induction false} JoinBlankedCopy(lines: seq<string>, st: State)
    requires lines != [] && forall i :: 0 <= i < |lines| ==> '\n' !in lines[i]
    ensures BlankedCopy(Join(lines, NEWLINE), Join(MaskLines(lines, st), NEWLINE))
  {
    assert BlankedCopy(lines[0], MaskLine(st, lines[0]));
    if |lines| > 1 {
      JoinBlankedCopy(lines[1..], Next(st, lines[0]));
      assert MaskLines(lines, st)[1..] == MaskLines(lines[1..], Next(st, lines[0]));
    }
  }

  /** Masking keeps every offset: same length, same line endings, other bytes kept or blanked. */
  lemma MaskKeepsOffsets(s: string)
    ensures BlankedCopy(s, Mask(s))
  {
    JoinOfSplit(s, NEWLINE);
    JoinBlankedCopy(Split(s, NEWLINE), Outside);
  }

  lemma {:induction false} TrimmedBlanks(s: string)
    requires forall i :: 0 <= i < |s| ==> s[i] == ' ' || s[i] == '\r'
    ensures MarkdownFence(s) == None
  {
    if s != [] && s[0] == ' ' {
      TrimmedBlanks(s[1..]);
    }
  }

  lemma {:induction false} MaskLinesIdempotent(lines: seq<string>, st: State)
    ensures MaskLines(MaskLines(lines, st), Outside) == MaskLines(lines, st)
  {
    if lines != [] {
      var masked := MaskLine(st, lines[0]);
      MaskLinesIdempotent(lines[1..], Next(st, lines[0]));
      if Masks(st, lines[0]) {
        TrimmedBlanks(Text(masked));
      }
      assert MaskLines(lines, st)[1..] == MaskLines(lines[1..], Next(st, lines[0]));
    }
  }

  /** Masking a masked text changes nothing. */
  lemma MaskIdempotent(s: string)
    ensures Mask(Mask(s)) == Mask(s)
  {
    LinesOfMask(s);
    MaskLinesIdempotent(Split(s, NEWLINE), Outside);
  }

  // ---------------------------------------------------------------- the buffer loop

  function LineEnd(s: string): (e: nat)
    ensures e <= |s| && '\n' !in s[..e] && (e < |s| ==> s[e] == '\n')
  {
    if s == [] || s[0] == '\n' then 0 else 1 + LineEnd(s[1..])
  }

  // What is still to be written when `s` is left and the machine is in state `st`.
  function MaskRest(s: string, st: State): (r: string)
    ensures |r| == |s|
  {
    var e := LineEnd(s);
    if e == |s| then MaskLine(st, s)
    else MaskLine(st, s[..e]) + "\n" + MaskRest(s[e + 1..], Next(st, s[..e]))
  }

  lemma {:induction false} MaskRestIsLines(s: string, st: State)
    ensures MaskRest(s, st) == Join(MaskLines(Split(s, NEWLINE), st), NEWLINE)
  {
    var e := LineEnd(s);
    if e == |s| {
      assert s[..e] == s;
      SplitLast(s, NEWLINE);
    } else {
      var line, more := s[..e], s[e + 1..];
      assert s == line + "\n" + more;
      SplitMore(line, more, NEWLINE);
      MaskRestIsLines(more, Next(st, line));
      assert ([line] + Split(more, NEWLINE))[1..] == Split(more, NEWLINE);
    }
  }

  lemma LineEndIs(s: string, e: nat)
    requires e <= |s| && '\n' !in s[..e] && (e < |s| ==> s[e] == '\n')
    ensures LineEnd(s) == e
  {
  }

  method FindLineEnd(masked: array<char>, start: nat) returns (end: nat, text: string)
    requires start <= masked.Length
    ensures start <= end <= masked.Length && '\n' !in masked[start..end]
    ensures end < masked.Length ==> masked[end] == '\n'
    ensures text == Text(masked[start..end])
  {
    end := start;
    while end < masked.Length && masked[end] != '\n'
      invariant start <= end <= masked.Length && '\n' !in masked[start..end]
    {
      end := end + 1;
    }
    var lineEnd := end;
    if lineEnd > start && masked[lineEnd - 1] == '\r' {
      lineEnd := lineEnd - 1;
    }
    text := masked[start..lineEnd];
    assert end > start ==> masked[start..end] == masked[start..end - 1] + [masked[end - 1]];
  }

  method BlankLine(masked: array<char>, start: nat, end: nat)
    requires start <= end <= masked.Length
    modifies masked
    ensures masked[start..end] == Blanked(old(masked[start..end]))
    ensures masked[..start] == old(masked[..start]) && masked[end..] == old(masked[end..])
  {
    for i := start to end
      invariant forall k :: start <= k < i ==> masked[k] == if old(masked[k]) == '\r' then '\r' else ' '
      invariant forall k :: 0 <= k < masked.Length && !(start <= k < i) ==> masked[k] == old(masked[k])
    {
      if masked[i] != '\r' {
        masked[i] := ' ';
      }
    }
  }

  // What the loop's variables stand for.
  function StateOf(inFence: bool, fence: char, minimum: nat): State {
    if inFence then Inside(fence, minimum) else Outside
  }

  function After(content: string, end: nat): nat {
    if end < |content| then end + 1 else end
  }

  lemma MaskRestMore(line: string, more: string, st: State)
    requires '\n' !in line
    ensures MaskRest(line + "\n" + more, st) == MaskLine(st, line) + "\n" + MaskRest(more, Next(st, line))
  {
    var s := line + "\n" + more;
    assert s[..|line|] == line && s[|line| + 1..] == more;
    LineEndIs(s, |line|);
  }

  lemma MaskRestLast(line: string, st: State)
    requires '\n' !in line
    ensures MaskRest(line, st) == MaskLine(st, line)
  {
    assert line[..|line|] == line;
    LineEndIs(line, |line|);
  }

  lemma SplitGoal(goal: string, start: nat, mid: string, more: string)
    requires start <= |goal| && goal[start..] == mid + "\n" + more
    ensures start + |mid| < |goal| && goal[start..start + |mid|] == mid
    ensures goal[start + |mid|] == '\n' && goal[start + |mid| + 1..] == more
  {
    var tail := goal[start..];
    assert goal[start..start + |mid|] == tail[..|mid|];
    assert goal[start + |mid|] == tail[|mid|];
    assert goal[start + |mid| + 1..] == tail[|mid| + 1..];
  }

  lemma SplitContent(content: string, start: nat, end: nat)
    requires start <= end < |content| && content[end] == '\n'
    ensures content[start..] == content[start..end] + "\n" + content[end + 1..]
  {
  }

  // The part of the goal that the line at start..end is responsible for, and the rest of the goal.
  ghost predicate LineGoal(content: string, goal: string, start: nat, end: nat, st: State)
    requires start <= end <= |content| == |goal|
  {
    && goal[start..end] == MaskLine(st, content[start..end])
    && (end < |content| ==> goal[end] == '\n')
    && goal[After(content, end)..] == MaskRest(content[After(content, end)..], Next(st, content[start..end]))
  }

  lemma GoalIsSplit(content: string, goal: string, start: nat, end: nat, st: State)
    requires start <= end < |content| == |goal| && '\n' !in content[start..end] && content[end] == '\n'
    requires goal[start..] == MaskRest(content[start..], st)
    ensures var line := content[start..end];
            goal[start..] == MaskLine(st, line) + "\n" + MaskRest(content[end + 1..], Next(st, line))
  {
    SplitContent(content, start, end);
    MaskRestMore(content[start..end], content[end + 1..], st);
  }

  lemma LineGoalOf(content: string, goal: string, start: nat, end: nat, st: State, mid: string, more: string)
    requires start <= end < |content| == |goal| && goal[start..] == mid + "\n" + more
    requires mid == MaskLine(st, content[start..end])
             && more == MaskRest(content[end + 1..], Next(st, content[start..end]))
    ensures LineGoal(content, goal, start, end, st)
  {
    assert start + |mid| == end;
    SplitGoal(goal, start, mid, more);
  }

  lemma AdvanceMore(content: string, goal: string, start: nat, end: nat, st: State)
    requires start <= end < |content| == |goal| && '\n' !in content[start..end] && content[end] == '\n'
    requires goal[start..] == MaskRest(content[start..], st)
    ensures LineGoal(content, goal, start, end, st)
  {
    var line := content[start..end];
    GoalIsSplit(content, goal, start, end, st);
    LineGoalOf(content, goal, start, end, st, MaskLine(st, line), MaskRest(content[end + 1..], Next(st, line)));
  }

  lemma AdvanceLast(content: string, goal: string, start: nat, st: State)
    requires start <= |content| == |goal| && '\n' !in content[start..]
    requires goal[start..] == MaskRest(content[start..], st)
    ensures LineGoal(content, goal, start, |content|, st)
  {
    var line := content[start..];
    assert content[start..|content|] == line && goal[start..|content|] == goal[start..];
    MaskRestLast(line, st);
    MaskRestLast("", Next(st, line));
    assert goal[|content|..] == "" && content[|content|..] == "";
  }

  lemma Advance(content: string, goal: string, start: nat, end: nat, st: State)
    requires start <= end <= |content| == |goal|
    requires '\n' !in content[start..end] && (end < |content| ==> content[end] == '\n')
    requires goal[start..] == MaskRest(content[start..], st)
    ensures LineGoal(content, goal, start, end, st)
  {
    if end < |content| {
      AdvanceMore(content, goal, start, end, st);
    } else {
      assert content[start..end] == content[start..];
      AdvanceLast(content, goal, start, st);
    }
  }

  // The buffer holds the goal before `start` and the content after it.
  ghost predicate Halfway(masked: string, content: string, goal: string, start: nat) {
    && start <= |content| == |goal| == |masked|
    && masked[..start] == goal[..start]
    && masked[start..] == content[start..]
  }

  lemma HalfwayLine(masked: string, content: string, goal: string, start: nat, end: nat)
    requires Halfway(masked, content, goal, start) && start <= end <= |content|
    ensures masked[start..end] == content[start..end] && (end < |content| ==> masked[end] == content[end])
  {
    assert masked[start..end] == masked[start..][..end - start];
    if end < |content| { assert masked[end] == masked[start..][end - start]; }
  }

  lemma HalfwayNext(before: string, after: string, content: string, goal: string, start: nat, end: nat)
    requires Halfway(before, content, goal, start) && start <= end <= |content| == |after|
    requires after[..start] == before[..start] && after[end..] == before[end..]
    requires after[start..end] == goal[start..end]
    requires end < |content| ==> goal[end] == content[end]
    ensures Halfway(after, content, goal, After(content, end))
  {
    assert before[end..] == before[start..][end - start..] == content[end..];
    assert after[..end] == after[..start] + after[start..end] == goal[..start] + goal[start..end] == goal[..end];
    if end < |content| {
      assert after[end] == after[end..][0] == content[end..][0];
      assert after[end + 1..] == after[end..][1..] == content[end..][1..] == content[end + 1..];
      assert after[..end + 1] == after[..end] + [after[end]] == goal[..end] + [goal[end]] == goal[..end + 1];
    }
  }

  // One line's effect on the loop's variables.
  method FenceStep(wasIn: bool, wasFence: char, wasMinimum: nat, text: string, ghost line: string)
      returns (inFence: bool, fence: char, minimum: nat, maskLine: bool)
    requires text == Text(line)
    ensures StateOf(inFence, fence, minimum) == Next(StateOf(wasIn, wasFence, wasMinimum), line)
    ensures maskLine == Masks(StateOf(wasIn, wasFence, wasMinimum), line)
  {
    inFence, fence, minimum := wasIn, wasFence, wasMinimum;
    var found := MarkdownFence(text);
    maskLine := inFence;
    if !inFence && found.Some? {
      inFence, fence, minimum, maskLine := true, found.value.marker, found.value.count, true;
    } else if inFence && found.Some? && found.value.marker == fence && found.value.count >= minimum
              && Blank(found.value.rest) {
      inFence, maskLine := false, true;
    }
  }

  method MaskFencedMarkdown(content: string) returns (r: string)
    ensures r == Mask(content)
  {
    var masked := new char[|content|](i requires 0 <= i < |content| => content[i]);
    var inFence, fence, minimum := false, ' ', 0;
    var start := 0;
    ghost var goal := MaskRest(content, Outside);
    assert masked[..] == content && content[0..] == content && goal[0..] == goal;
    while start < masked.Length
      invariant masked.Length == |content|
      invariant Halfway(masked[..], content, goal, start)
      invariant goal[start..] == MaskRest(content[start..], StateOf(inFence, fence, minimum))
    {
      ghost var st, before := StateOf(inFence, fence, minimum), masked[..];
      var end, text := FindLineEnd(masked, start);
      ghost var line := content[start..end];
      assert masked[start..end] == before[start..end];
      HalfwayLine(before, content, goal, start, end);
      Advance(content, goal, start, end, st);
      var maskLine;
      inFence, fence, minimum, maskLine := FenceStep(inFence, fence, minimum, text, line);
      if maskLine {
        BlankLine(masked, start, end);
      }
      HalfwayNext(before, masked[..], content, goal, start, end);
      if end < masked.Length {
        end := end + 1;
      }
      start := end;
    }
    r := masked[..];
    assert r == goal by {
      assert r[..start] == r && goal[..start] == goal;
    }
    MaskRestIsLines(content, Outside);
  }
}
