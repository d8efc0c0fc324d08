/** Chunking of Markdown-like text: blocks of lines, packed into chunks under the section's heading. */
module StructuredText {
  import opened Options
  import opened PythonText
  import opened DocumentChunks

  // ------------------------------------------------------------------- lines

  function Hashes(text: string): (n: nat)
    ensures n <= |text|
  {
    if text == "" || text[0] != '#' then 0 else 1 + Hashes(text[1..])
  }

  /** The part both HEADING and LIST end in: white space, then something else. */
  predicate Spaced(rest: string) {
    rest != "" && IsSpace(rest[0]) && !Blank(rest)
  }

  predicate Heading(text: string) {
    1 <= Hashes(text) <= 6 && Spaced(text[Hashes(text)..])
  }

  predicate ListLine(line: string) {
    var t := LStrip(line);
    || (t != "" && t[0] in {'-', '+', '*'} && Spaced(t[1..]))
    || (0 < DigitRun(t) < |t| && t[DigitRun(t)] in {'.', ')'} && Spaced(t[DigitRun(t) + 1..]))
  }

  predicate TableLine(line: string) {
    var t := Strip(line);
    |t| >= 2 && t[0] == '|' && t[|t| - 1] == '|'
  }

  const FENCES: seq<string> := ["```", "~~~"]

  predicate OpensFence(text: string) {
    StartsWith(LStrip(text), FENCES[0]) || StartsWith(LStrip(text), FENCES[1])
  }

  function FenceOf(text: string): string
    requires OpensFence(text)
  {
    LStrip(text)[..3]
  }

  predicate Closes(line: string, fence: string) {
    StartsWith(LStrip(line), fence)
  }

  datatype Kind = Table | List | Prose

  function KindOf(line: string): Kind {
    if TableLine(line) then Table else if ListLine(line) then List else Prose
  }

  // ------------------------------------------- the patterns, character by character

  lemma {:induction false} HashesAre(text: string)
    ensures forall i | 0 <= i < Hashes(text) :: text[i] == '#'
    ensures Hashes(text) < |text| ==> text[Hashes(text)] != '#'
  {
    if text != "" && text[0] == '#' {
      HashesAre(text[1..]);
      forall i | 1 <= i < Hashes(text) ensures text[i] == '#' {
        assert text[1..][i - 1] == text[i];
      }
    }
  }

  /** White space at `n`, and something else after it. */
  ghost predicate SpacedAt(text: string, n: int) {
    0 <= n < |text| && IsSpace(text[n]) && exists m | n < m < |text| :: !IsSpace(text[m])
  }

  lemma SpacedIff(text: string, n: nat)
    requires n <= |text|
    ensures Spaced(text[n..]) <==> SpacedAt(text, n)
  {
    hide IsSpace;
    var rest := text[n..];
    if Spaced(rest) {
      var i :| 0 <= i < |rest| && !IsSpace(rest[i]);
      assert text[n + i] == rest[i];
    }
    if SpacedAt(text, n) {
      var m :| n < m < |text| && !IsSpace(text[m]);
      assert rest[m - n] == text[m];
    }
  }

  /** One to six hashes, white space, and something else. */
  lemma HeadingIff(text: string)
    ensures Heading(text) <==> exists n | 1 <= n <= 6 :: SpacedAt(text, n) && forall i | 0 <= i < n :: text[i] == '#'
  {
    hide Spaced;
    HashesAre(text);
    SpacedIff(text, Hashes(text));
    assert !IsSpace('#');
    if n :| 1 <= n <= 6 && SpacedAt(text, n) && forall i | 0 <= i < n :: text[i] == '#' {
      assert Hashes(text) == n;
    }
  }

  /** The white space in front of `text` ends at `a`. */
  ghost predicate Indent(text: string, a: int) {
    0 <= a < |text| && (forall i | 0 <= i < a :: IsSpace(text[i])) && !IsSpace(text[a])
  }

  lemma IndentOf(text: string)
    ensures forall a | Indent(text, a) :: LStrip(text) == text[a..]
    ensures LStrip(text) != "" ==> Indent(text, |text| - |LStrip(text)|)
  {
    hide IsSpace;
    LStripIs(text);
    forall a | Indent(text, a) ensures LStrip(text) == text[a..] {
      LStripAt(text, a);
    }
  }

  ghost predicate Reads(text: string, a: int, word: string) {
    0 <= a <= a + |word| <= |text| && text[a..a + |word|] == word
  }

  /** Behind the indent, three backticks or three tildes. */
  lemma FenceIff(text: string)
    ensures OpensFence(text) <==> exists a | Indent(text, a) :: Reads(text, a, "```") || Reads(text, a, "~~~")
    ensures OpensFence(text) ==> |FenceOf(text)| == 3 && forall a | Indent(text, a) :: Reads(text, a, FenceOf(text))
  {
    hide IsSpace;
    IndentOf(text);
    var t := LStrip(text);
    var at := |text| - |t|;
    assert |t| >= 3 ==> t[..3] == text[at..at + 3];
    if OpensFence(text) {
      forall a | Indent(text, a) ensures Reads(text, a, FenceOf(text)) {
        assert t == text[a..] && t[..3] == text[a..a + 3];
      }
    }
  }

  /** Only white space follows position `b`. */
  ghost predicate Trails(text: string, b: int) {
    0 <= b < |text| && (forall i | b < i < |text| :: IsSpace(text[i])) && !IsSpace(text[b])
  }

  /** Behind the indent a pipe, and another that only white space follows. */
  lemma TableIff(line: string)
    ensures TableLine(line) <==> exists a, b | Indent(line, a) && Trails(line, b) :: a < b && line[a] == line[b] == '|'
  {
    hide IsSpace;
    var a, b := StripIs(line);
    var t := Strip(line);
    if a < b {
      assert t[0] == line[a] && t[|t| - 1] == line[b - 1];
      assert Indent(line, a) && Trails(line, b - 1);
      OneIndent(line, a);
      OneTrail(line, b - 1);
    }
  }

  lemma OneIndent(line: string, a: int)
    requires Indent(line, a)
    ensures forall c :: Indent(line, c) ==> c == a
  {
    hide IsSpace;
  }

  lemma OneTrail(line: string, b: int)
    requires Trails(line, b)
    ensures forall c :: Trails(line, c) ==> c == b
  {
    hide IsSpace;
  }

  /** From `a` up to `b` a bullet, or digits with a full stop or a parenthesis. */
  ghost predicate Marker(line: string, a: int, b: int) {
    0 <= a < b <= |line| && var end := line[b - 1];
    if b == a + 1 then end in {'-', '+', '*'}
    else end in {'.', ')'} && forall i | a <= i < b - 1 :: IsDecimal(line[i])
  }

  /** Behind the indent a marker, white space, and something else. */
  lemma ListIff(line: string)
    ensures ListLine(line) <==> exists a, b | Indent(line, a) && SpacedAt(line, b) :: Marker(line, a, b)
  {
    hide IsSpace, IsDecimal, Spaced, SpacedAt, ListLine, Marker, Indent;
    IndentOf(line);
    if ListLine(line) {
      ListMarked(line);
    }
    if a, b :| Indent(line, a) && SpacedAt(line, b) && Marker(line, a, b) {
      MarkedList(line, a, b);
    }
  }

  lemma ListMarked(line: string)
    requires ListLine(line)
    ensures LStrip(line) != ""
    ensures exists b | SpacedAt(line, b) :: Marker(line, |line| - |LStrip(line)|, b)
  {
    hide IsSpace, IsDecimal, Spaced, SpacedAt, Marker;
    var t := LStrip(line);
    if t[0] in {'-', '+', '*'} && Spaced(t[1..]) {
      MarkedAt(line, |line| - |t|, 1);
    } else {
      MarkedAt(line, |line| - |t|, DigitRun(t) + 1);
    }
  }

  lemma MarkedAt(line: string, a: nat, n: nat)
    requires a < |line| && 1 <= n <= |line| - a && Spaced(line[a..][n..])
    requires if n == 1 then line[a] in {'-', '+', '*'} else n == DigitRun(line[a..]) + 1 && line[a + n - 1] in {'.', ')'}
    ensures SpacedAt(line, a + n) && Marker(line, a, a + n)
  {
    hide IsSpace, IsDecimal, Spaced, SpacedAt;
    var t := line[a..];
    SpacedIff(line, a + n);
    assert t[n..] == line[a + n..];
    if n > 1 {
      DigitRunIs(t);
      forall i | a <= i < a + n - 1 ensures IsDecimal(line[i]) {
        assert t[i - a] == line[i];
      }
    }
  }

  lemma MarkedList(line: string, a: int, b: int)
    requires Indent(line, a) && LStrip(line) == line[a..] && SpacedAt(line, b) && Marker(line, a, b)
    ensures ListLine(line)
  {
    hide IsSpace, IsDecimal, Spaced, SpacedAt, LStrip;
    var t := LStrip(line);
    SpacedIff(line, b);
    assert t[b - a..] == line[b..] && t[b - 1 - a] == line[b - 1];
    if b > a + 1 {
      MarkerDigits(line, a, b);
    }
  }

  lemma MarkerDigits(line: string, a: int, b: int)
    requires 0 <= a && a + 1 < b && Marker(line, a, b)
    ensures DigitRun(line[a..]) == b - 1 - a
  {
    hide IsDecimal;
    var t := line[a..];
    DigitRunIs(t);
    FirstDigits('.');
    FirstDigits(')');
    assert !IsDecimal(t[b - 1 - a]);
    assert forall i | 0 <= i < b - 1 - a :: t[i] == line[a + i] && IsDecimal(t[i]);
  }

  // ------------------------------------------------------------------ blocks

  /** How many lines an open fence takes, its closing line included. */
  function FenceLength(lines: seq<string>, fence: string): (n: nat)
    ensures n <= |lines|
  {
    if lines == [] then 0
    else if Closes(lines[0], fence) then 1
    else 1 + FenceLength(lines[1..], fence)
  }

  /** May `line` continue a block of this kind? A list ends at a table row, a table at a list line
      that is no table row, and prose at either. */
  predicate Continues(line: string, kind: Kind) {
    && !Blank(line) && !OpensFence(line) && !Heading(line)
    && match kind
       case Table => TableLine(line)
       case List => ListLine(line)
       case Prose => !TableLine(line) && !ListLine(line)
  }

  function RunLength(lines: seq<string>, kind: Kind): (n: nat)
    ensures n <= |lines|
  {
    if lines == [] || !Continues(lines[0], kind) then 0 else 1 + RunLength(lines[1..], kind)
  }

  /** The length of the block that begins at the front of `lines`. */
  function BlockLength(lines: seq<string>): (n: nat)
    requires lines != [] && !Blank(lines[0])
    ensures 1 <= n <= |lines|
  {
    1 + if OpensFence(lines[0]) then FenceLength(lines[1..], FenceOf(lines[0]))
        else if Heading(lines[0]) then 0
        else RunLength(lines[1..], KindOf(lines[0]))
  }

  function BlockLines(lines: seq<string>): (r: seq<seq<string>>)
    decreases |lines|
  {
    if lines == [] then []
    else if Blank(lines[0]) then BlockLines(lines[1..])
    else [lines[..BlockLength(lines)]] + BlockLines(lines[BlockLength(lines)..])
  }

  function Joined(blocks: seq<seq<string>>): (r: seq<string>)
    ensures |r| == |blocks| && forall i | 0 <= i < |blocks| :: r[i] == Join("\n", blocks[i])
  {
    if blocks == [] then [] else [Join("\n", blocks[0])] + Joined(blocks[1..])
  }

  method TakeFence(lines: seq<string>, start: nat, fence: string) returns (block: seq<string>, index: nat)
    requires start <= |lines|
    ensures index == start + FenceLength(lines[start..], fence) && block == lines[start..index]
  {
    hide OpensFence, FenceOf, Closes, Heading, TableLine, ListLine, Blank;
    block, index := [], start;
    while index < |lines|
      invariant start <= index <= |lines| && block == lines[start..index]
      invariant index + FenceLength(lines[index..], fence) == start + FenceLength(lines[start..], fence)
    {
      assert lines[index..][1..] == lines[index + 1..];
      block := block + [lines[index]];
      var closing := Closes(lines[index], fence);
      index := index + 1;
      if closing {
        break;
      }
    }
  }

  method TakeRun(lines: seq<string>, start: nat, kind: Kind) returns (block: seq<string>, index: nat)
    requires start <= |lines|
    ensures index == start + RunLength(lines[start..], kind) && block == lines[start..index]
  {
    hide OpensFence, FenceOf, Closes, Heading, TableLine, ListLine, Blank;
    block, index := [], start;
    while index < |lines| && !Blank(lines[index])
      invariant start <= index <= |lines| && block == lines[start..index]
      invariant index + RunLength(lines[index..], kind) == start + RunLength(lines[start..], kind)
    {
      assert lines[index..][1..] == lines[index + 1..];
      var candidate := lines[index];
      if OpensFence(candidate) || Heading(candidate) {
        break;
      }
      if (kind == Table && !TableLine(candidate)) || (kind == List && !ListLine(candidate)) {
        break;
      }
      if kind == Prose && (TableLine(candidate) || ListLine(candidate)) {
        break;
      }
      block := block + [candidate];
      index := index + 1;
    }
  }

  method TakeBlock(lines: seq<string>, start: nat) returns (block: seq<string>, index: nat)
    requires start < |lines| && !Blank(lines[start])
    ensures index == start + BlockLength(lines[start..]) && block == lines[start..index]
  {
    hide OpensFence, FenceOf, Closes, Heading, TableLine, ListLine, Blank;
    var line := lines[start];
    var more := [];
    index := start + 1;
    assert lines[start..][1..] == lines[start + 1..];
    if OpensFence(line) {
      more, index := TakeFence(lines, start + 1, FenceOf(line));
    } else if !Heading(line) {
      more, index := TakeRun(lines, start + 1, KindOf(line));
    }
    block := [line] + more;
  }

  method StructuredBlocks(text: string) returns (blocks: seq<string>)
    ensures blocks == Joined(BlockLines(SplitLines(text)))
  {
    hide BlockLength, Blank, SplitLines, Joined;
    var lines := SplitLines(text);
    blocks := [];
    ghost var done: seq<seq<string>> := [];
    var index := 0;
    while index < |lines|
      invariant 0 <= index <= |lines| && blocks == Joined(done)
      invariant done + BlockLines(lines[index..]) == BlockLines(lines)
    {
      ghost var rest := lines[index..];
      if Blank(lines[index]) {
        assert rest[1..] == lines[index + 1..];
        index := index + 1;
      } else {
        var block, next := TakeBlock(lines, index);
        assert block == rest[..BlockLength(rest)] && lines[next..] == rest[BlockLength(rest)..];
        JoinedSnoc(done, block);
        done := done + [block];
        blocks := blocks + [Join("\n", block)];
        index := next;
      }
    }
  }

  lemma JoinedSnoc(blocks: seq<seq<string>>, block: seq<string>)
    ensures Joined(blocks + [block]) == Joined(blocks) + [Join("\n", block)]
  {
    assert forall i | 0 <= i < |blocks| :: (blocks + [block])[i] == blocks[i];
  }

  // ------------------------------------------------- what the blocks are made of

  /** One pass over the lines, dropping the blank ones that stand outside every fence. */
  function Kept(lines: seq<string>, fence: Option<string>): seq<string> {
    if lines == [] then []
    else match fence
      case Some(f) => [lines[0]] + Kept(lines[1..], if Closes(lines[0], f) then None else fence)
      case None =>
        if Blank(lines[0]) then Kept(lines[1..], None)
        else [lines[0]] + Kept(lines[1..], if OpensFence(lines[0]) then Some(FenceOf(lines[0])) else None)
  }

  lemma {:induction false} KeptFence(lines: seq<string>, fence: string)
    ensures var n := FenceLength(lines, fence); Kept(lines, Some(fence)) == lines[..n] + Kept(lines[n..], None)
  {
    hide OpensFence, FenceOf, Closes, Heading, TableLine, ListLine, Blank;
    if lines != [] {
      assert lines[..1] == [lines[0]];
      if !Closes(lines[0], fence) {
        KeptFence(lines[1..], fence);
        var n := FenceLength(lines[1..], fence);
        assert lines[1..][..n] == lines[1..n + 1] && lines[1..][n..] == lines[n + 1..];
      }
    }
  }

  lemma {:induction false} KeptRun(lines: seq<string>, kind: Kind)
    ensures var n := RunLength(lines, kind); Kept(lines, None) == lines[..n] + Kept(lines[n..], None)
  {
    hide OpensFence, FenceOf, Closes, Heading, TableLine, ListLine, Blank;
    if lines != [] && Continues(lines[0], kind) {
      KeptRun(lines[1..], kind);
      var n := RunLength(lines[1..], kind);
      assert lines[1..][..n] == lines[1..n + 1] && lines[1..][n..] == lines[n + 1..];
    }
  }

  lemma KeptBlock(lines: seq<string>)
    requires lines != [] && !Blank(lines[0])
    ensures var n := BlockLength(lines); Kept(lines, None) == lines[..n] + Kept(lines[n..], None)
  {
    hide Kept, FenceLength, RunLength, KindOf, OpensFence, FenceOf, Closes, Heading, TableLine, ListLine, Blank;
    var rest, n := lines[1..], BlockLength(lines) - 1;
    if OpensFence(lines[0]) {
      KeptFence(rest, FenceOf(lines[0]));
    } else if !Heading(lines[0]) {
      KeptRun(rest, KindOf(lines[0]));
    }
    KeptStep(lines);
    assert lines[..n + 1] == [lines[0]] + rest[..n] && lines[n + 1..] == rest[n..];
  }

  lemma KeptStep(lines: seq<string>)
    requires lines != [] && !Blank(lines[0])
    ensures Kept(lines, None)
         == [lines[0]] + Kept(lines[1..], if OpensFence(lines[0]) then Some(FenceOf(lines[0])) else None)
  {
  }

  /** No line is lost, invented or moved: the blocks are the kept lines, cut up. */
  lemma {:induction false} BlocksAreKeptLines(lines: seq<string>)
    ensures Flat(BlockLines(lines)) == Kept(lines, None)
    decreases |lines|
  {
    hide OpensFence, FenceOf, Closes, Heading, TableLine, ListLine, Blank;
    if lines != [] {
      if Blank(lines[0]) {
        BlocksAreKeptLines(lines[1..]);
      } else {
        KeptBlock(lines);
        BlocksAreKeptLines(lines[BlockLength(lines)..]);
      }
    }
  }

  /** A fence with its contents, one heading, or a run of non-blank lines of one kind. */
  ghost predicate WellFormed(block: seq<string>) {
    && block != [] && AreLines(block) && !Blank(block[0])
    && (OpensFence(block[0]) || (Heading(block[0]) && |block| == 1)
        || (!Heading(block[0])
            && forall i | 1 <= i < |block| :: Continues(block[i], KindOf(block[0]))))
  }

  lemma {:induction false} RunContinues(lines: seq<string>, kind: Kind)
    ensures forall i | 0 <= i < RunLength(lines, kind) :: Continues(lines[i], kind)
    ensures RunLength(lines, kind) < |lines| ==> !Continues(lines[RunLength(lines, kind)], kind)
  {
    hide OpensFence, FenceOf, Closes, Heading, TableLine, ListLine, Blank;
    if lines != [] && Continues(lines[0], kind) {
      RunContinues(lines[1..], kind);
      assert forall i | 1 <= i <= |lines[1..]| :: lines[i] == lines[1..][i - 1];
    }
  }

  lemma {:induction false} BlocksAreWellFormed(lines: seq<string>)
    requires AreLines(lines)
    ensures forall i | 0 <= i < |BlockLines(lines)| :: WellFormed(BlockLines(lines)[i])
    decreases |lines|
  {
    hide OpensFence, FenceOf, Closes, Heading, TableLine, ListLine, Blank;
    if lines != [] {
      if Blank(lines[0]) {
        BlocksAreWellFormed(lines[1..]);
      } else {
        var n := BlockLength(lines);
        var block := lines[..n];
        RunContinues(lines[1..], KindOf(lines[0]));
        assert forall i | 1 <= i < n :: block[i] == lines[1..][i - 1];
        assert block[0] == lines[0];
        assert WellFormed(block);
        BlocksAreWellFormed(lines[n..]);
      }
    }
  }

  /** At the text level: the blocks, joined, are the kept lines of the text, joined. */
  lemma {:induction false} JoinedIsFlat(blocks: seq<seq<string>>)
    requires forall i | 0 <= i < |blocks| :: blocks[i] != []
    ensures Join("\n", Joined(blocks)) == Join("\n", Flat(blocks))
  {
    if |blocks| == 1 {
      assert Flat(blocks) == blocks[0] + Flat(blocks[1..]) == blocks[0];
      assert Joined(blocks)[0] == Join("\n", blocks[0]);
    } else if |blocks| > 1 {
      JoinedIsFlat(blocks[1..]);
      assert Joined(blocks)[1..] == Joined(blocks[1..]);
      assert Flat(blocks[1..]) == blocks[1] + Flat(blocks[2..]) by { assert blocks[1..][1..] == blocks[2..]; }
      JoinAppend("\n", blocks[0], Flat(blocks[1..]));
      assert Flat(blocks) == blocks[0] + Flat(blocks[1..]);
    }
  }

  lemma {:induction false} KeptWords(lines: seq<string>, fence: Option<string>)
    ensures WordsOf(Kept(lines, fence)) == WordsOf(lines)
  {
    hide OpensFence, FenceOf, Closes, Heading, TableLine, ListLine, Blank;
    if lines != [] {
      KeptWords(lines[1..], if fence.Some? then (if Closes(lines[0], fence.value) then None else fence)
                            else if !Blank(lines[0]) && OpensFence(lines[0]) then Some(FenceOf(lines[0])) else None);
      SplitBlank(lines[0]);
    }
  }

  /** The blocks of a text are its lines without the blank ones outside fences, in order and
      unchanged, so no word is lost. */
  lemma BlocksLoseNothing(text: string)
    ensures var blocks := Joined(BlockLines(SplitLines(text)));
      && Join("\n", blocks) == Join("\n", Kept(SplitLines(text), None))
      && WordsOf(blocks) == Split(text)
  {
    var lines := SplitLines(text);
    SplitLinesGivesLines(text);
    BlocksAreWellFormed(lines);
    BlocksAreKeptLines(lines);
    JoinedIsFlat(BlockLines(lines));
    KeptWords(lines, None);
    SplitByLines(text);
    SplitJoin("\n", Joined(BlockLines(lines)));
    SplitJoin("\n", Kept(lines, None));
  }

  // ---------------------------------------------------- where the blocks stand

  /** `line` goes on the run that `first` began. */
  ghost predicate GoesOn(first: string, line: string) {
    && !Blank(line) && !OpensFence(line) && !Heading(line)
    && if TableLine(first) then TableLine(line)
       else if ListLine(first) then ListLine(line)
       else !TableLine(line) && !ListLine(line)
  }

  /** A block of `n` lines begins at `at`: up to the line that closes the fence or to the end; a heading;
      or as many lines as go on the run. */
  ghost predicate BlockAt(lines: seq<string>, at: nat, n: nat)
    requires 1 <= n && at + n <= |lines|
  {
    var first := lines[at];
    && !Blank(first)
    && if OpensFence(first) then
         var mark := LStrip(first)[..3];
         && (forall k | at < k < at + n - 1 :: !StartsWith(LStrip(lines[k]), mark))
         && (at + n == |lines| || (n > 1 && StartsWith(LStrip(lines[at + n - 1]), mark)))
       else if Heading(first) then n == 1
       else
         && (forall k | at < k < at + n :: GoesOn(first, lines[k]))
         && (at + n == |lines| || !GoesOn(first, lines[at + n]))
  }

  ghost predicate AllBlank(lines: seq<string>, from: nat, to: nat)
    requires from <= to <= |lines|
  {
    forall k | from <= k < to :: Blank(lines[k])
  }

  /** The blocks are cut from the lines at `starts`, one after the other, with blank lines between. */
  ghost predicate CutFrom(lines: seq<string>, blocks: seq<seq<string>>, starts: seq<int>, from: nat)
    requires from <= |lines|
    decreases |blocks|
  {
    && |starts| == |blocks|
    && if blocks == [] then AllBlank(lines, from, |lines|)
       else
         var n := |blocks[0]|;
         && from <= starts[0] && 1 <= n && starts[0] + n <= |lines| && AllBlank(lines, from, starts[0])
         && blocks[0] == lines[starts[0]..starts[0] + n] && BlockAt(lines, starts[0], n)
         && CutFrom(lines, blocks[1..], starts[1..], starts[0] + n)
  }

  lemma {:induction false} FenceEnds(lines: seq<string>, fence: string)
    ensures var n := FenceLength(lines, fence);
      && (forall k | 0 <= k < n - 1 :: !StartsWith(LStrip(lines[k]), fence))
      && (n == |lines| || (n > 0 && StartsWith(LStrip(lines[n - 1]), fence)))
  {
    hide LStrip, StartsWith;
    if lines != [] && !Closes(lines[0], fence) {
      FenceEnds(lines[1..], fence);
      assert forall k | 1 <= k < |lines| :: lines[k] == lines[1..][k - 1];
    }
  }

  lemma BlockStands(lines: seq<string>, at: nat)
    requires at < |lines| && !Blank(lines[at])
    ensures BlockAt(lines, at, BlockLength(lines[at..]))
  {
    hide OpensFence, Heading, TableLine, ListLine, Blank, LStrip, StartsWith, IsSpace;
    var rest := lines[at..];
    assert forall k | at < k < |lines| :: lines[k] == rest[1..][k - at - 1];
    if OpensFence(lines[at]) {
      FenceEnds(rest[1..], FenceOf(lines[at]));
    } else if !Heading(lines[at]) {
      RunContinues(rest[1..], KindOf(lines[at]));
    }
  }

  /** Every block stands where it should, and nothing but blank lines is left between them. */
  lemma {:induction false} BlocksAreCut(lines: seq<string>, from: nat) returns (starts: seq<int>)
    requires from <= |lines|
    ensures CutFrom(lines, BlockLines(lines[from..]), starts, from)
    decreases |lines| - from
  {
    hide BlockAt, BlockLength, Blank, CutFrom;
    var rest := lines[from..];
    starts := [];
    if rest == [] {
      CutNone(lines);
    } else if Blank(rest[0]) {
      starts := BlocksAreCut(lines, from + 1);
      assert rest[1..] == lines[from + 1..];
      CutEarlier(lines, BlockLines(rest), starts, from);
    } else {
      var n := BlockLength(rest);
      BlockStands(lines, from);
      starts := BlocksAreCut(lines, from + n);
      assert rest[n..] == lines[from + n..] && rest[..n] == lines[from..from + n];
      CutNext(lines, BlockLines(rest[n..]), starts, from, n);
      starts := [from] + starts;
    }
  }

  lemma CutNext(lines: seq<string>, blocks: seq<seq<string>>, starts: seq<int>, from: nat, n: nat)
    requires 1 <= n && from + n <= |lines| && BlockAt(lines, from, n) && CutFrom(lines, blocks, starts, from + n)
    ensures CutFrom(lines, [lines[from..from + n]] + blocks, [from] + starts, from)
  {
    hide BlockAt, Blank;
    var block := lines[from..from + n];
    assert ([block] + blocks)[1..] == blocks && ([from] + starts)[1..] == starts;
  }

  lemma CutNone(lines: seq<string>)
    ensures CutFrom(lines, [], [], |lines|)
  {
  }

  lemma CutEarlier(lines: seq<string>, blocks: seq<seq<string>>, starts: seq<int>, from: nat)
    requires from < |lines| && Blank(lines[from]) && CutFrom(lines, blocks, starts, from + 1)
    ensures CutFrom(lines, blocks, starts, from)
  {
    hide BlockAt, Blank;
  }
}
