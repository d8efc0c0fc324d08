/** Chunking of spreadsheet rows: the rows of each sheet in order, packed greedily, each chunk
    under its sheet's header. */
module SheetRows {
  import opened Options
  import opened PythonText
  import opened DocumentChunks

  // ------------------------------------------------------------------ sheets

  function SheetOf(s: Section): string {
    if s.place.sheet.Some? then s.place.sheet.value else ""
  }

  function RowsOf(sections: seq<Section>, sheet: string): seq<Section> {
    if sections == [] then [] else
      var last := sections[|sections| - 1];
      RowsOf(sections[..|sections| - 1], sheet) + if SheetOf(last) == sheet then [last] else []
  }

  /** A section without a sheet belongs to the nameless one. */
  ghost predicate OnSheet(s: Section, sheet: string) {
    s.place.sheet == Some(sheet) || (sheet == "" && s.place.sheet.None?)
  }

  /** The sheet's rows are the sections on it, in order. */
  lemma {:induction false} RowsOfAt(sections: seq<Section>, sheet: string) returns (at: seq<int>)
    ensures |at| == |RowsOf(sections, sheet)|
    ensures forall k | 0 <= k < |at| ::
              0 <= at[k] < |sections| && RowsOf(sections, sheet)[k] == sections[at[k]] && OnSheet(sections[at[k]], sheet)
    ensures forall j, k | 0 <= j < k < |at| :: at[j] < at[k]
    ensures forall i | 0 <= i < |sections| && OnSheet(sections[i], sheet) :: i in at
  {
    at := [];
    if sections != [] {
      var n := |sections| - 1;
      var before := RowsOfAt(sections[..n], sheet);
      at := before;
      if OnSheet(sections[n], sheet) {
        at := before + [n];
        assert at[|before|] == n;
      }
      forall i | 0 <= i < |sections| && OnSheet(sections[i], sheet) ensures i in at {
        if i < n {
          assert sections[..n][i] == sections[i] && i in before;
        }
      }
    }
  }

  method GroupBySheet(sections: seq<Section>) returns (groups: map<string, seq<Section>>)
    ensures forall sheet :: sheet in groups <==> RowsOf(sections, sheet) != []
    ensures forall sheet | sheet in groups :: groups[sheet] == RowsOf(sections, sheet)
  {
    groups := map[];
    for i := 0 to |sections|
      invariant forall sheet :: sheet in groups <==> RowsOf(sections[..i], sheet) != []
      invariant forall sheet | sheet in groups :: groups[sheet] == RowsOf(sections[..i], sheet)
    {
      assert sections[..i + 1][..i] == sections[..i];
      var sheet := SheetOf(sections[i]);
      groups := groups[sheet := (if sheet in groups then groups[sheet] else []) + [sections[i]]];
    }
    assert sections[..|sections|] == sections;
  }

  /** Python's order on strings, by code point. */
  predicate Less(a: string, b: string) {
    b != "" && (a == "" || a[0] < b[0] || (a[0] == b[0] && Less(a[1..], b[1..])))
  }

  ghost predicate Ascending(names: seq<string>) {
    forall i, j | 0 <= i < j < |names| :: Less(names[i], names[j])
  }

  lemma {:induction false} LessTransitive(a: string, b: string, c: string)
    requires Less(a, b) && Less(b, c)
    ensures Less(a, c)
  {
    if a != "" && a[0] == b[0] == c[0] {
      LessTransitive(a[1..], b[1..], c[1..]);
    }
  }

  lemma {:induction false} LessTotal(a: string, b: string)
    ensures Less(a, b) || Less(b, a) || a == b
    ensures !Less(a, a)
  {
    if a != "" {
      LessTotal(a[1..], if b != "" then b[1..] else "");
      assert a == [a[0]] + a[1..] && (b != "" ==> b == [b[0]] + b[1..]);
    }
  }

  /** The first character in which two strings differ decides, and a prefix comes before the longer string. */
  lemma {:induction false} LessIff(a: string, b: string)
    ensures Less(a, b) <==> exists n | 0 <= n <= |a| && n < |b| :: a[..n] == b[..n] && (n == |a| || a[n] < b[n])
  {
    if a == "" || b == "" {
      assert b != "" ==> a[..0] == b[..0];
    } else if a[0] == b[0] {
      LessIff(a[1..], b[1..]);
      if n :| 0 <= n <= |a[1..]| && n < |b[1..]| && a[1..][..n] == b[1..][..n] && (n == |a[1..]| || a[1..][n] < b[1..][n]) {
        assert a[..n + 1] == [a[0]] + a[1..][..n] && b[..n + 1] == [b[0]] + b[1..][..n];
      }
      if n :| 0 <= n <= |a| && n < |b| && a[..n] == b[..n] && (n == |a| || a[n] < b[n]) {
        assert n > 0;
        assert a[1..][..n - 1] == a[..n][1..] && b[1..][..n - 1] == b[..n][1..];
      }
    } else {
      forall n | 0 < n <= |a| && n < |b| ensures a[..n] != b[..n] {
        assert a[..n][0] != b[..n][0];
      }
      assert a[..0] == b[..0];
    }
  }

  method InsertName(names: seq<string>, name: string) returns (r: seq<string>)
    requires Ascending(names) && name !in names
    ensures Ascending(r) && forall n :: n in r <==> n in names || n == name
  {
    var k := 0;
    while k < |names| && Less(names[k], name)
      invariant 0 <= k <= |names| && forall i | 0 <= i < k :: Less(names[i], name)
    {
      k := k + 1;
    }
    r := names[..k] + [name] + names[k..];
    forall i | k <= i < |names| ensures Less(name, names[i]) {
      LessTotal(names[k], name);
      assert names[k] in names;
      if i > k {
        LessTransitive(name, names[k], names[i]);
      }
    }
    forall n ensures n in r <==> n in names || n == name {
      assert names == names[..k] + names[k..];
    }
  }

  method SortedNames(groups: map<string, seq<Section>>) returns (names: seq<string>)
    ensures Ascending(names) && forall n :: n in names <==> n in groups
  {
    names := [];
    var rest := groups.Keys;
    while rest != {}
      invariant Ascending(names) && rest <= groups.Keys
      invariant forall n :: n in names <==> n in groups.Keys - rest
      decreases rest
    {
      var name :| name in rest;
      names := InsertName(names, name);
      rest := rest - {name};
    }
  }

  // ------------------------------------------------------------------ groups

  function RowWords(rows: seq<Section>): nat {
    if rows == [] then 0 else RowWords(rows[..|rows| - 1]) + Words(rows[|rows| - 1].text)
  }

  datatype Grouping = Grouping(buffer: seq<Section>, done: seq<seq<Section>>)

  function AddRow(g: Grouping, row: Section, target: nat): Grouping {
    if g.buffer != [] && RowWords(g.buffer) + Words(row.text) > target
    then Grouping([row], g.done + [g.buffer])
    else g.(buffer := g.buffer + [row])
  }

  function Grouped(rows: seq<Section>, target: nat): Grouping {
    if rows == [] then Grouping([], [])
    else AddRow(Grouped(rows[..|rows| - 1], target), rows[|rows| - 1], target)
  }

  function Closing(g: Grouping): seq<seq<Section>> {
    if g.buffer == [] then g.done else g.done + [g.buffer]
  }

  function Groups(rows: seq<Section>, target: nat): seq<seq<Section>> {
    Closing(Grouped(rows, target))
  }

  datatype RowGroup = RowGroup(sheet: string, header: string, rows: seq<Section>)

  function Header(rows: seq<Section>): string
    requires rows != []
  {
    if rows[0].headers.Some? && rows[0].headers.value != [] then Join(" | ", rows[0].headers.value) else rows[0].text
  }

  function Labelled(sheet: string, header: string, groups: seq<seq<Section>>): (r: seq<RowGroup>)
    ensures |r| == |groups|
    ensures forall i | 0 <= i < |r| :: r[i] == RowGroup(sheet, header, groups[i])
  {
    if groups == [] then []
    else Labelled(sheet, header, groups[..|groups| - 1]) + [RowGroup(sheet, header, groups[|groups| - 1])]
  }

  function SheetGroups(sheet: string, rows: seq<Section>, target: nat): seq<RowGroup> {
    if rows == [] then [] else Labelled(sheet, Header(rows), Groups(rows, target))
  }

  function AllGroups(sections: seq<Section>, names: seq<string>, target: nat): seq<RowGroup> {
    if names == [] then [] else
      var last := names[|names| - 1];
      AllGroups(sections, names[..|names| - 1], target) + SheetGroups(last, RowsOf(sections, last), target)
  }

  function RowTexts(rows: seq<Section>): (r: seq<string>)
    ensures |r| == |rows| && forall i | 0 <= i < |rows| :: r[i] == rows[i].text
  {
    if rows == [] then [] else [rows[0].text] + RowTexts(rows[1..])
  }

  function BodyOf(rows: seq<Section>): string {
    Join("\n", RowTexts(rows))
  }

  /** One chunk; None stands for the IndexError of taking the first line of an empty body. */
  function RowChunk(index: nat, g: RowGroup): (r: Option<Chunk>)
    requires g.rows != []
    ensures r.Some? ==> r.value.index == index
  {
    var body := BodyOf(g.rows);
    var lines := SplitLines(body);
    if lines == [] then None else
      var text := if lines[0] != g.header then g.header + "\n" + body else body;
      var sheet := if g.sheet != "" then Some(g.sheet) else None;
      var first, last := g.rows[0], g.rows[|g.rows| - 1];
      Some(Chunk(index, text, Place(None, sheet, first.place.rowStart, last.place.rowEnd, first.place.title), Some(g.header)))
  }

  ghost predicate NonEmpty(groups: seq<RowGroup>) {
    forall i | 0 <= i < |groups| :: groups[i].rows != []
  }

  /** The chunks of the first groups, unless one of them fails. */
  ghost predicate AreChunksOf(chunks: seq<Chunk>, groups: seq<RowGroup>)
    requires NonEmpty(groups)
  {
    |chunks| == |groups| && forall i | 0 <= i < |groups| :: RowChunk(i, groups[i]) == Some(chunks[i])
  }

  // --------------------------------------------------------------- the loops

  method ChunkGroup(
    chunks: seq<Chunk>, ghost before: seq<RowGroup>, ghost done: seq<seq<Section>>,
    sheet: string, header: string, buffer: seq<Section>) returns (r: Option<seq<Chunk>>)
    requires buffer != [] && NonEmpty(before + Labelled(sheet, header, done))
    requires AreChunksOf(chunks, before + Labelled(sheet, header, done))
    ensures NonEmpty(before + Labelled(sheet, header, done + [buffer]))
    ensures r.Some? ==> AreChunksOf(r.value, before + Labelled(sheet, header, done + [buffer]))
    ensures r.None? ==> BodyOf(buffer) == ""
  {
    hide BodyOf, Labelled, RowChunk;
    var g := RowGroup(sheet, header, buffer);
    RowChunkFails(|chunks|, g);
    LabelledSnoc(sheet, header, done, buffer);
    assert before + Labelled(sheet, header, done) + [g] == before + Labelled(sheet, header, done + [buffer]);
    var c := RowChunk(|chunks|, g);
    if c.None? {
      return None;
    }
    r := Some(chunks + [c.value]);
  }

  method ChunkSheet(chunks: seq<Chunk>, ghost before: seq<RowGroup>, sheet: string, rows: seq<Section>, target: nat)
    returns (r: Option<seq<Chunk>>)
    requires NonEmpty(before) && AreChunksOf(chunks, before) && rows != []
    ensures NonEmpty(before + SheetGroups(sheet, rows, target))
    ensures r.Some? ==> AreChunksOf(r.value, before + SheetGroups(sheet, rows, target))
    ensures r.None? ==> exists g :: g in Groups(rows, target) && BodyOf(g) == ""
  {
    hide Words, Header, RowChunk, BodyOf, AreChunksOf, Labelled, RowWords, Groups, NonEmpty;
    var header := Header(rows);
    var all := chunks;
    var buffer, wordCount := [], 0;
    ghost var done: seq<seq<Section>> := [];
    NoRowWords();
    SheetNonEmpty(before, sheet, rows, target);
    assert before + Labelled(sheet, header, []) == before;
    for i := 0 to |rows|
      invariant wordCount == RowWords(buffer) && (i > 0 ==> buffer != [])
      invariant Grouped(rows[..i], target) == Grouping(buffer, done)
      invariant NonEmpty(before + Labelled(sheet, header, done))
      invariant AreChunksOf(all, before + Labelled(sheet, header, done))
    {
      assert rows[..i + 1][..i] == rows[..i];
      var rowWords := Words(rows[i].text);
      if buffer != [] && wordCount + rowWords > target {
        GroupDone(rows, target, i, buffer, done, rowWords);
        r := ChunkGroup(all, before, done, sheet, header, buffer);
        if r.None? {
          return;
        }
        all := r.value;
        done := done + [buffer];
        buffer, wordCount := [], 0;
      }
      RowWordsSnoc(buffer, rows[i]);
      buffer := buffer + [rows[i]];
      wordCount := wordCount + rowWords;
    }
    assert rows[..|rows|] == rows;
    LastGroup(rows, target, buffer, done);
    r := ChunkGroup(all, before, done, sheet, header, buffer);
  }

  lemma NoRowWords()
    ensures RowWords([]) == 0
  {
  }

  lemma LastGroup(rows: seq<Section>, target: nat, buffer: seq<Section>, done: seq<seq<Section>>)
    requires buffer != [] && Grouped(rows, target) == Grouping(buffer, done)
    ensures Groups(rows, target) == done + [buffer] && buffer in Groups(rows, target)
  {
    assert (done + [buffer])[|done|] == buffer;
  }

  lemma LabelledSnoc(sheet: string, header: string, groups: seq<seq<Section>>, g: seq<Section>)
    ensures Labelled(sheet, header, groups + [g]) == Labelled(sheet, header, groups) + [RowGroup(sheet, header, g)]
  {
  }

  lemma {:induction false} DoneGrows(rows: seq<Section>, target: nat, i: nat)
    requires i <= |rows|
    ensures Grouped(rows[..i], target).done <= Grouped(rows, target).done
    decreases |rows| - i
  {
    if i < |rows| {
      assert rows[..i + 1][..i] == rows[..i];
      DoneGrows(rows, target, i + 1);
    } else {
      assert rows[..i] == rows;
    }
  }

  lemma GroupDone(
    rows: seq<Section>, target: nat, i: nat, buffer: seq<Section>, done: seq<seq<Section>>, words: nat)
    requires i < |rows| && Grouped(rows[..i], target) == Grouping(buffer, done) && words == Words(rows[i].text)
    requires buffer != [] && RowWords(buffer) + words > target
    ensures buffer in Groups(rows, target)
  {
    assert rows[..i + 1][..i] == rows[..i];
    DoneGrows(rows, target, i + 1);
    assert (done + [buffer])[|done|] == buffer;
  }

  /** The chunks of the groups of all sheets, sheet by sheet in the order of their names. The call
      fails exactly when some sheet has a row without text that no neighbour shares a chunk with. */
  method ChunkRows(sections: seq<Section>, target: nat) returns (chunks: Option<seq<Chunk>>, ghost names: seq<string>)
    ensures Ascending(names) && forall n :: n in names <==> RowsOf(sections, n) != []
    ensures NonEmpty(AllGroups(sections, names, target))
    ensures chunks.Some? ==> AreChunksOf(chunks.value, AllGroups(sections, names, target))
    ensures chunks.None? <==> exists n: string, i: nat :: Lonely(RowsOf(sections, n), i, target)
  {
    hide BodyOf, RowChunk, SheetGroups, Groups, Lonely;
    var groups := GroupBySheet(sections);
    var order := SortedNames(groups);
    names := order;
    var all := [];
    AllNonEmpty(sections, names, target);
    RowsFailIff(sections, names, target);
    for i := 0 to |order|
      invariant NonEmpty(AllGroups(sections, order[..i], target))
      invariant AreChunksOf(all, AllGroups(sections, order[..i], target))
    {
      assert order[..i + 1][..i] == order[..i];
      assert order[i] in order;
      var r := ChunkSheet(all, AllGroups(sections, order[..i], target), order[i], groups[order[i]], target);
      if r.None? {
        var g :| g in Groups(RowsOf(sections, order[i]), target) && BodyOf(g) == "";
        GroupAmongAll(sections, order, target, i, g);
        return None, names;
      }
      all := r.value;
    }
    assert order[..|order|] == order;
    BodiesNotEmpty(all, AllGroups(sections, order, target));
    chunks := Some(all);
  }

  lemma BodiesNotEmpty(chunks: seq<Chunk>, groups: seq<RowGroup>)
    requires NonEmpty(groups) && AreChunksOf(chunks, groups)
    ensures forall g | g in groups :: BodyOf(g.rows) != ""
  {
    hide BodyOf;
    forall i | 0 <= i < |groups| ensures BodyOf(groups[i].rows) != "" {
      RowChunkFails(i, groups[i]);
    }
  }

  lemma {:induction false} GroupAmongAll(
    sections: seq<Section>, names: seq<string>, target: nat, i: nat, rows: seq<Section>)
    requires i < |names| && rows in Groups(RowsOf(sections, names[i]), target)
    ensures exists g :: g in AllGroups(sections, names, target) && g.rows == rows
  {
    hide Groups;
    if i < |names| - 1 {
      GroupAmongAll(sections, names[..|names| - 1], target, i, rows);
    } else {
      var of := RowsOf(sections, names[i]);
      var k :| 0 <= k < |Groups(of, target)| && Groups(of, target)[k] == rows;
      GroupsAreGreedy(of, target);
      NoGroups(target);
      var g := SheetGroups(names[i], of, target)[k];
      assert g in AllGroups(sections, names, target) && g.rows == rows;
    }
  }

  lemma NoGroups(target: nat)
    ensures Groups([], target) == []
  {
  }

  lemma SheetNonEmpty(before: seq<RowGroup>, sheet: string, rows: seq<Section>, target: nat)
    requires NonEmpty(before)
    ensures NonEmpty(before + SheetGroups(sheet, rows, target))
  {
    hide Groups;
    GroupsNonEmpty(rows, target);
    var gs := SheetGroups(sheet, rows, target);
    forall i | 0 <= i < |gs| ensures gs[i].rows != [] {
      assert gs[i].rows in Groups(rows, target);
    }
  }

  lemma {:induction false} AllNonEmpty(sections: seq<Section>, names: seq<string>, target: nat)
    ensures NonEmpty(AllGroups(sections, names, target))
  {
    hide NonEmpty, SheetGroups;
    if names != [] {
      var front, last := names[..|names| - 1], names[|names| - 1];
      AllNonEmpty(sections, front, target);
      SheetNonEmpty(AllGroups(sections, front, target), last, RowsOf(sections, last), target);
    } else {
      NoneEmpty();
    }
  }

  lemma NoneEmpty()
    ensures NonEmpty([])
  {
  }

  // --------------------------------------------------- what the groups are

  ghost predicate Sized(group: seq<Section>, target: nat) {
    group != [] && (RowWords(group) <= target || |group| == 1)
  }

  /** The first row of `next` did not fit `group`. */
  ghost predicate Followed(group: seq<Section>, next: seq<Section>, target: nat) {
    next != [] && RowWords(group) + Words(next[0].text) > target
  }

  ghost predicate GoodGroups(groups: seq<seq<Section>>, target: nat) {
    && (forall i | 0 <= i < |groups| :: Sized(groups[i], target))
    && forall i | 0 <= i < |groups| - 1 :: Followed(groups[i], groups[i + 1], target)
  }

  lemma RowWordsSnoc(rows: seq<Section>, row: Section)
    ensures RowWords(rows + [row]) == RowWords(rows) + Words(row.text)
    ensures RowWords([row]) == Words(row.text)
  {
    assert (rows + [row])[..|rows|] == rows && [row][..0] == [];
  }

  lemma GoodSnoc(groups: seq<seq<Section>>, g: seq<Section>, target: nat)
    requires GoodGroups(groups, target) && Sized(g, target)
    requires groups != [] ==> Followed(groups[|groups| - 1], g, target)
    ensures GoodGroups(groups + [g], target)
  {
    hide Sized, Followed;
  }

  lemma GoodFront(groups: seq<seq<Section>>, g: seq<Section>, target: nat)
    requires GoodGroups(groups + [g], target)
    ensures GoodGroups(groups, target) && Sized(g, target)
    ensures groups != [] ==> Followed(groups[|groups| - 1], g, target)
  {
    hide Sized, Followed;
    var all := groups + [g];
    assert forall i | 0 <= i < |groups| :: all[i] == groups[i];
    assert all[|groups|] == g;
    if groups != [] {
      assert Followed(all[|groups| - 1], all[|groups| - 1 + 1], target);
    }
    forall i | 0 <= i < |groups| - 1 ensures Followed(groups[i], groups[i + 1], target) {
      assert Followed(all[i], all[i + 1], target);
    }
  }

  lemma AddRowGood(g: Grouping, row: Section, target: nat)
    requires GoodGroups(Closing(g), target) && (g.buffer == [] ==> g.done == [])
    ensures var h := AddRow(g, row, target);
      GoodGroups(Closing(h), target) && h.buffer != [] && Flat(Closing(h)) == Flat(Closing(g)) + [row]
  {
    hide Words, GoodGroups, RowWords;
    var h := AddRow(g, row, target);
    FlatSnoc(g.done, g.buffer);
    FlatSnoc(h.done, h.buffer);
    RowWordsSnoc(g.buffer, row);
    if g.buffer == [] {
      assert h.buffer == [row] && Closing(g) == h.done;
      assert GoodGroups(h.done, target);
    } else {
      GoodFront(g.done, g.buffer, target);
    }
    GoodSnoc(h.done, h.buffer, target);
  }

  /** The groups are the rows, cut up without losing or moving one; a group of more than `target`
      words is a single row; and a group ends only where the next row did not fit. */
  lemma {:induction false} GroupsAreGreedy(rows: seq<Section>, target: nat)
    ensures GoodGroups(Groups(rows, target), target) && Flat(Groups(rows, target)) == rows
    ensures Grouped(rows, target).buffer == [] <==> rows == []
  {
    hide Words, AddRow, GoodGroups, Flat, Closing;
    if rows == [] {
      NothingGrouped(target);
    } else {
      var front, last := rows[..|rows| - 1], rows[|rows| - 1];
      GroupsAreGreedy(front, target);
      AddRowGood(Grouped(front, target), last, target);
      assert front + [last] == rows;
    }
  }

  lemma NothingGrouped(target: nat)
    ensures Grouped([], target) == Grouping([], []) && Closing(Grouping([], [])) == []
    ensures GoodGroups([], target) && Flat<Section>([]) == []
  {
  }

  lemma GroupsNonEmpty(rows: seq<Section>, target: nat)
    ensures forall g | g in Groups(rows, target) :: g != []
  {
    GroupsAreGreedy(rows, target);
  }

  // ------------------------------------------------------------ main results

  function RowsIn(groups: seq<RowGroup>, sheet: string): seq<Section> {
    if groups == [] then [] else
      var last := groups[|groups| - 1];
      RowsIn(groups[..|groups| - 1], sheet) + if last.sheet == sheet then last.rows else []
  }

  lemma {:induction false} RowsInAppend(a: seq<RowGroup>, b: seq<RowGroup>, sheet: string)
    ensures RowsIn(a + b, sheet) == RowsIn(a, sheet) + RowsIn(b, sheet)
  {
    if b == [] {
      assert a + b == a;
    } else {
      RowsInAppend(a, b[..|b| - 1], sheet);
      assert (a + b)[..|a + b| - 1] == a + b[..|b| - 1];
    }
  }

  lemma {:induction false} RowsInLabelled(sheet: string, header: string, groups: seq<seq<Section>>, name: string)
    ensures RowsIn(Labelled(sheet, header, groups), name) == if name == sheet then Flat(groups) else []
  {
    hide Labelled, Flat;
    if groups == [] {
      NothingFlat();
    } else {
      var front, last := groups[..|groups| - 1], groups[|groups| - 1];
      RowsInLabelled(sheet, header, front, name);
      FlatSnoc(front, last);
      LabelledSnoc(sheet, header, front, last);
      assert front + [last] == groups;
      var all := Labelled(sheet, header, groups);
      assert all[..|all| - 1] == Labelled(sheet, header, front);
    }
  }

  lemma NothingFlat()
    ensures Flat<Section>([]) == []
  {
  }

  lemma {:induction false} RowsInSheet(sheet: string, rows: seq<Section>, target: nat, name: string)
    ensures RowsIn(SheetGroups(sheet, rows, target), name) == if name == sheet then rows else []
  {
    hide Groups, RowsIn;
    GroupsAreGreedy(rows, target);
    if rows != [] {
      RowsInLabelled(sheet, Header(rows), Groups(rows, target), name);
    } else {
      RowsInLabelled(sheet, "", [], name);
    }
  }

  /** Every sheet's rows, and no others, are in that sheet's chunks, in order. */
  lemma {:induction false} RowsConserved(sections: seq<Section>, names: seq<string>, target: nat, sheet: string)
    requires Ascending(names)
    ensures RowsIn(AllGroups(sections, names, target), sheet) == if sheet in names then RowsOf(sections, sheet) else []
  {
    hide Less, Groups, RowsOf;
    if names != [] {
      var front, last := names[..|names| - 1], names[|names| - 1];
      RowsConserved(sections, front, target, sheet);
      var rows := RowsOf(sections, last);
      RowsInAppend(AllGroups(sections, front, target), SheetGroups(last, rows, target), sheet);
      RowsInSheet(last, rows, target, sheet);
      LessTotal(last, last);
      assert names == front + [last];
      assert last !in front;
    }
  }

  lemma RowChunkFails(index: nat, g: RowGroup)
    requires g.rows != []
    ensures RowChunk(index, g).None? <==> BodyOf(g.rows) == ""
  {
  }

  /** A chunk reads as its header line, unless the rows begin with it, and the rows; if the header
      is one line it is the first line of every chunk of the sheet. It stands where its rows do. */
  lemma RowChunkReads(index: nat, g: RowGroup)
    requires g.rows != []
    ensures RowChunk(index, g).None? <==> BodyOf(g.rows) == ""
    ensures RowChunk(index, g).Some? ==>
      var text, body := RowChunk(index, g).value.text, Join("\n", RowTexts(g.rows));
      && SplitLines(body) != [] && SplitLines(text) != []
      && text == (if SplitLines(body)[0] == g.header then body else g.header + "\n" + body)
      && (IsLine(g.header) ==> SplitLines(text)[0] == g.header)
      && RowChunk(index, g).value == Chunk(index, text, Place(
           None, if g.sheet == "" then None else Some(g.sheet),
           g.rows[0].place.rowStart, g.rows[|g.rows| - 1].place.rowEnd, g.rows[0].place.title), Some(g.header))
  {
    var body := BodyOf(g.rows);
    var long := g.header + "\n" + body;
    if IsLine(g.header) {
      assert forall i | 0 <= i < |g.header| :: long[i] == g.header[i];
      assert long[|g.header|] == '\n';
      assert LineLength(long) == |g.header|;
      assert long[..|g.header|] == g.header;
    }
  }

  /** A group's rows are a group of its sheet, and its header is what the sheet's first row declares, with " | "
      between the columns, or else that row itself. */
  lemma {:induction false} GroupReads(sections: seq<Section>, names: seq<string>, target: nat, i: nat)
    requires i < |AllGroups(sections, names, target)|
    ensures
      var g := AllGroups(sections, names, target)[i];
      var rows := RowsOf(sections, g.sheet);
      && g.sheet in names && rows != [] && g.rows in Groups(rows, target)
      && g.header == match rows[0].headers
                     case Some(columns) => (if columns == [] then rows[0].text else Join(" | ", columns))
                     case None => rows[0].text
  {
    hide Groups, RowsOf, Join;
    var front, last := names[..|names| - 1], names[|names| - 1];
    var before := AllGroups(sections, front, target);
    if i < |before| {
      GroupReads(sections, front, target, i);
      assert names == front + [last];
    } else {
      var groups := Groups(RowsOf(sections, last), target);
      assert AllGroups(sections, names, target)[i].rows == groups[i - |before|];
    }
  }

  /** The sheets come in the order of their names. */
  lemma {:induction false} SheetsAscend(sections: seq<Section>, names: seq<string>, target: nat, i: nat, j: nat)
    requires Ascending(names) && i < j < |AllGroups(sections, names, target)|
    ensures var all := AllGroups(sections, names, target); all[i].sheet == all[j].sheet || Less(all[i].sheet, all[j].sheet)
  {
    hide Less, Groups, RowsOf;
    var front := names[..|names| - 1];
    var before := AllGroups(sections, front, target);
    if j < |before| {
      SheetsAscend(sections, front, target, i, j);
    } else if i < |before| {
      GroupReads(sections, front, target, i);
    }
  }

  /** The words by which rows are grouped are those of their chunk without the header. */
  lemma {:induction false} RowWordsAre(rows: seq<Section>)
    ensures RowWords(rows) == |Split(Join("\n", RowTexts(rows)))|
  {
    SplitJoin("\n", RowTexts(rows));
    RowTextsWords(rows);
  }

  lemma {:induction false} RowTextsWords(rows: seq<Section>)
    ensures RowWords(rows) == |WordsOf(RowTexts(rows))|
  {
    if rows != [] {
      var front, last := rows[..|rows| - 1], rows[|rows| - 1];
      RowTextsWords(front);
      assert RowTexts(rows) == RowTexts(front) + [last.text];
      WordsOfAppend(RowTexts(front), [last.text]);
      WordsOfOne(last.text);
    }
  }

  lemma {:induction false} BodyEmptyIff(rows: seq<Section>)
    requires rows != []
    ensures BodyOf(rows) == "" <==> |rows| == 1 && rows[0].text == ""
  {
    assert |rows| > 1 ==> |BodyOf(rows)| >= 1;
  }

  /** A row without text that no neighbour shares a chunk with. */
  predicate Lonely(rows: seq<Section>, i: nat, target: nat) {
    && i < |rows| && rows[i].text == ""
    && (i == 0 || Words(rows[i - 1].text) > target)
    && (i == |rows| - 1 || Words(rows[i + 1].text) > target)
  }

  lemma {:induction false} At(groups: seq<seq<Section>>, k: nat, p: nat)
    requires k < |groups| && p < |groups[k]|
    ensures var i := |Flat(groups[..k])| + p; i < |Flat(groups)| && Flat(groups)[i] == groups[k][p]
  {
    FlatAppend(groups[..k], groups[k..]);
    assert groups == groups[..k] + groups[k..];
    assert Flat(groups[k..]) == groups[k] + Flat(groups[k + 1..]) by { assert groups[k..][1..] == groups[k + 1..]; }
  }

  lemma {:induction false} Locate(groups: seq<seq<Section>>, i: nat) returns (k: nat, p: nat)
    requires i < |Flat(groups)|
    ensures k < |groups| && p < |groups[k]| && i == |Flat(groups[..k])| + p
  {
    if i < |groups[0]| {
      k, p := 0, i;
    } else {
      k, p := Locate(groups[1..], i - |groups[0]|);
      assert groups[..k + 1][1..] == groups[1..][..k] && groups[..k + 1][0] == groups[0];
      assert Flat(groups[..k + 1]) == groups[0] + Flat(groups[..k + 1][1..]);
      k := k + 1;
    }
  }

  lemma {:induction false} RowInGroup(rows: seq<Section>, p: nat)
    requires p < |rows|
    ensures Words(rows[p].text) <= RowWords(rows)
  {
    if p < |rows| - 1 {
      RowInGroup(rows[..|rows| - 1], p);
    }
  }

  lemma FlatTo(groups: seq<seq<Section>>, k: nat)
    requires k < |groups|
    ensures Flat(groups[..k + 1]) == Flat(groups[..k]) + groups[k]
  {
    FlatSnoc(groups[..k], groups[k]);
    assert groups[..k + 1] == groups[..k] + [groups[k]];
  }

  lemma LonelyRowIsAlone(rows: seq<Section>, target: nat, i: nat)
    requires Lonely(rows, i, target)
    ensures [rows[i]] in Groups(rows, target)
  {
    hide Words;
    var groups := Groups(rows, target);
    GroupsAreGreedy(rows, target);
    var k, p := Locate(groups, i);
    At(groups, k, p);
    if p > 0 {
      At(groups, k, p - 1);
      RowInGroup(groups[k], p - 1);
    }
    if p < |groups[k]| - 1 {
      At(groups, k, p + 1);
      RowInGroup(groups[k], p + 1);
    }
    assert |groups[k]| == 1;
    assert groups[k] == [rows[i]];
  }

  lemma Singleton(rows: seq<Section>, target: nat)
    requires Sized(rows, target) && RowWords(rows) > target
    ensures |rows| == 1 && Words(rows[0].text) > target
  {
    RowWordsSnoc([], rows[0]);
    assert rows[..1] == [rows[0]];
  }

  lemma AloneRowIsLonely(rows: seq<Section>, target: nat, group: seq<Section>)
    requires group in Groups(rows, target)
    requires |group| == 1 && group[0].text == ""
    ensures exists i :: Lonely(rows, i, target)
  {
    hide Words, Groups, RowWords, Sized, Flat;
    var groups := Groups(rows, target);
    var k :| 0 <= k < |groups| && groups[k] == group;
    GroupsAreGreedy(rows, target);
    var i := |Flat(groups[..k])|;
    At(groups, k, 0);
    BeforeAlone(groups, target, k);
    AfterAlone(groups, target, k);
    assert Lonely(rows, i, target);
  }

  lemma BeforeAlone(groups: seq<seq<Section>>, target: nat, k: nat)
    requires GoodGroups(groups, target) && k < |groups| && |groups[k]| == 1 && groups[k][0].text == ""
    ensures var i := |Flat(groups[..k])|;
      i == 0 || (i <= |Flat(groups)| && Words(Flat(groups)[i - 1].text) > target)
  {
    hide Words, RowWords, Sized, Flat;
    NoWords();
    if k > 0 {
      assert Followed(groups[k - 1], groups[k - 1 + 1], target);
      assert Sized(groups[k - 1], target);
      Singleton(groups[k - 1], target);
      FlatTo(groups, k - 1);
      At(groups, k - 1, 0);
    } else {
      NothingFlat();
      assert groups[..k] == [];
    }
  }

  lemma AfterAlone(groups: seq<seq<Section>>, target: nat, k: nat)
    requires GoodGroups(groups, target) && k < |groups| && |groups[k]| == 1 && groups[k][0].text == ""
    ensures var i := |Flat(groups[..k])|;
      i == |Flat(groups)| - 1 || (i + 1 < |Flat(groups)| && Words(Flat(groups)[i + 1].text) > target)
  {
    hide Words, RowWords, Sized, Flat;
    NoWords();
    FlatTo(groups, k);
    if k + 1 < |groups| {
      RowWordsSnoc([], groups[k][0]);
      assert groups[k] == [groups[k][0]];
      assert Followed(groups[k], groups[k + 1], target);
      At(groups, k + 1, 0);
    } else {
      assert groups[..k + 1] == groups;
    }
  }

  lemma NoWords()
    ensures Words("") == 0 && RowWords([]) == 0
  {
  }

  /** Chunking fails exactly when some sheet has a row without text between rows that are each over
      the target (or at an end of the sheet). */
  lemma RowsFailIff(sections: seq<Section>, names: seq<string>, target: nat)
    requires forall n :: n in names <==> RowsOf(sections, n) != []
    ensures (exists g :: g in AllGroups(sections, names, target) && BodyOf(g.rows) == "")
       <==> (exists n, i :: Lonely(RowsOf(sections, n), i, target))
  {
    hide Lonely, BodyOf, Groups, AllGroups, RowsOf;
    if g :| g in AllGroups(sections, names, target) && BodyOf(g.rows) == "" {
      var n := WhichSheet(sections, names, target, g);
      GroupsNonEmpty(RowsOf(sections, n), target);
      BodyEmptyIff(g.rows);
      AloneRowIsLonely(RowsOf(sections, n), target, g.rows);
    }
    if n: string, i: nat :| Lonely(RowsOf(sections, n), i, target) {
      var rows := RowsOf(sections, n);
      LonelyIsRow(rows, i, target);
      LonelyRowIsAlone(rows, target, i);
      BodyEmptyIff([rows[i]]);
      var j :| 0 <= j < |names| && names[j] == n;
      GroupAmongAll(sections, names, target, j, [rows[i]]);
    }
  }

  lemma LonelyIsRow(rows: seq<Section>, i: nat, target: nat)
    requires Lonely(rows, i, target)
    ensures i < |rows| && rows[i].text == ""
  {
  }

  lemma {:induction false} WhichSheet(sections: seq<Section>, names: seq<string>, target: nat, g: RowGroup)
    returns (n: string)
    requires g in AllGroups(sections, names, target)
    ensures n in names && g.rows in Groups(RowsOf(sections, n), target)
  {
    var front, last := names[..|names| - 1], names[|names| - 1];
    if g in AllGroups(sections, front, target) {
      n := WhichSheet(sections, front, target, g);
    } else {
      n := last;
      var r := SheetGroups(last, RowsOf(sections, last), target);
      var i :| 0 <= i < |r| && r[i] == g;
      assert Groups(RowsOf(sections, last), target)[i] == g.rows;
    }
  }
}
