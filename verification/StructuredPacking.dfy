/** Packing the blocks of a section into chunks: each chunk repeats the section's heading, a block
    too long for a chunk is packed line by line, and a fence is never cut. */
module StructuredPacking {
  import opened Options
  import opened PythonText
  import opened DocumentChunks
  import opened StructuredText

  function WordCount(parts: seq<string>): nat {
    |WordsOf(parts)|
  }

  /** Packed as one item: a fence of any length, or a block that fits a chunk. */
  predicate Atomic(block: string, target: nat) {
    OpensFence(block) || Words(block) <= target
  }

  function HeadingOf(blocks: seq<string>): Option<string> {
    if blocks != [] && Heading(blocks[0]) then Some(blocks[0]) else None
  }

  /** What a chunk after the first begins with. */
  function Prefix(heading: Option<string>): seq<string> {
    if heading.Some? then [heading.value] else []
  }

  /** The state of the loop: the open chunk, its word count, and the parts of the emitted chunks. */
  datatype Packing = Packing(buffer: seq<string>, count: nat, emitted: seq<seq<string>>)

  function Flush(p: Packing, heading: Option<string>): Packing {
    if p.buffer == [] then p
    else Packing(Prefix(heading), WordCount(Prefix(heading)), p.emitted + [p.buffer])
  }

  function Room(p: Packing, heading: Option<string>, target: nat, words: nat): Packing {
    if p.buffer != [] && p.count + words > target then Flush(p, heading) else p
  }

  function Add(p: Packing, item: string): Packing {
    p.(buffer := p.buffer + [item], count := p.count + Words(item))
  }

  function AddLines(p: Packing, heading: Option<string>, target: nat, lines: seq<string>): Packing {
    if lines == [] then p else
      var last := lines[|lines| - 1];
      Add(Room(AddLines(p, heading, target, lines[..|lines| - 1]), heading, target, Words(last)), last)
  }

  function AddAtom(p: Packing, heading: Option<string>, block: string): Packing {
    if heading == Some(block) && p.buffer == [block] then p.(count := p.count + Words(block)) else Add(p, block)
  }

  function AddBlock(p: Packing, heading: Option<string>, target: nat, block: string): Packing {
    var q := Room(p, heading, target, Words(block));
    if Atomic(block, target) then AddAtom(q, heading, block) else AddLines(q, heading, target, SplitLines(block))
  }

  function Pack(blocks: seq<string>, heading: Option<string>, target: nat): Packing {
    if blocks == [] then Packing([], 0, [])
    else AddBlock(Pack(blocks[..|blocks| - 1], heading, target), heading, target, blocks[|blocks| - 1])
  }

  /** The parts of every chunk of a section. */
  function Buffers(blocks: seq<string>, target: nat): seq<seq<string>> {
    Flush(Pack(blocks, HeadingOf(blocks), target), HeadingOf(blocks)).emitted
  }

  function Body(buffer: seq<string>): string {
    Strip(Join("\n\n", buffer))
  }

  function Bodies(buffers: seq<seq<string>>): (r: seq<string>)
    ensures |r| == |buffers|
  {
    if buffers == [] then [] else [Body(buffers[0])] + Bodies(buffers[1..])
  }

  function BlocksOf(section: Section): seq<string> {
    Joined(BlockLines(SplitLines(section.text)))
  }

  function ChunksOf(sections: seq<Section>, target: nat): (r: seq<Chunk>)
    ensures Indexed(r)
  {
    if sections == [] then [] else
      var before := ChunksOf(sections[..|sections| - 1], target);
      var last := sections[|sections| - 1];
      before + Numbered(|before|, Bodies(Buffers(BlocksOf(last), target)), last.place)
  }

  // -------------------------------------------------------------- the packer

  /** The loop variables of one section and the `emit` helper that closes over them. */
  class Packer {
    const heading: Option<string>
    const target: nat
    const place: Place
    ghost const before: seq<Chunk>
    var buffer: seq<string>
    var wordCount: nat
    var chunks: seq<Chunk>
    ghost var emitted: seq<seq<string>>

    ghost predicate Valid()
      reads this
    {
      chunks == before + Numbered(|before|, Bodies(emitted), place)
    }

    ghost function State(): Packing
      reads this
    {
      Packing(buffer, wordCount, emitted)
    }

    constructor (heading: Option<string>, target: nat, place: Place, chunks: seq<Chunk>)
      ensures Valid() && State() == Packing([], 0, [])
      ensures this.heading == heading && this.target == target && this.place == place && before == chunks
    {
      this.heading, this.target, this.place, this.before := heading, target, place, chunks;
      buffer, wordCount, this.chunks, emitted := [], 0, chunks, [];
    }

    method Emit()
      requires Valid()
      modifies this
      ensures Valid() && State() == Flush(old(State()), heading)
      ensures old(buffer) == [] ==> chunks == old(chunks) && buffer == [] && wordCount == old(wordCount) && emitted == old(emitted)
      ensures old(buffer) != [] ==>
                && chunks == old(chunks) + [Chunk(|old(chunks)|, Strip(Join("\n\n", old(buffer))), place, None)]
                && emitted == old(emitted) + [old(buffer)]
                && buffer == (if heading.Some? then [heading.value] else [])
                && wordCount == (if heading.Some? then |Split(heading.value)| else 0)
    {
      hide Join, Strip, Numbered, Bodies, Split;
      if buffer == [] {
        return;
      }
      BodiesSnoc(emitted, buffer);
      NumberedSnoc(|before|, Bodies(emitted), Body(buffer), place);
      chunks := chunks + [Chunk(|chunks|, Body(buffer), place, None)];
      emitted := emitted + [buffer];
      buffer := Prefix(heading);
      wordCount := 0;
      if heading.Some? {
        wordCount := Words(heading.value);
        WordsOfOne(heading.value);
      }
    }

    method MakeRoom(words: nat)
      requires Valid()
      modifies this
      ensures Valid() && State() == Room(old(State()), heading, target, words)
    {
      if buffer != [] && wordCount + words > target {
        Emit();
      }
    }

    method PackBlock(block: string)
      requires Valid()
      modifies this
      ensures Valid() && State() == AddBlock(old(State()), heading, target, block)
    {
      hide Body, Numbered, Bodies, Words, OpensFence, SplitLines, AddLines, Flush;
      var blockWords := Words(block);
      MakeRoom(blockWords);
      if OpensFence(block) || blockWords <= target {
        if !(heading == Some(block) && buffer == [block]) {
          buffer := buffer + [block];
        }
        wordCount := wordCount + blockWords;
        return;
      }
      PackLines(SplitLines(block));
    }

    method PackLines(lines: seq<string>)
      requires Valid()
      modifies this
      ensures Valid() && State() == AddLines(old(State()), heading, target, lines)
    {
      for i := 0 to |lines|
        invariant Valid() && State() == AddLines(old(State()), heading, target, lines[..i])
      {
        assert lines[..i + 1][..i] == lines[..i];
        MakeRoom(Words(lines[i]));
        buffer := buffer + [lines[i]];
        wordCount := wordCount + Words(lines[i]);
      }
      assert lines[..|lines|] == lines;
    }
  }

  lemma {:induction false} BodiesSnoc(buffers: seq<seq<string>>, buffer: seq<string>)
    ensures Bodies(buffers + [buffer]) == Bodies(buffers) + [Body(buffer)]
  {
    hide Body;
    if buffers == [] {
      assert [buffer][1..] == [];
    } else {
      BodiesSnoc(buffers[1..], buffer);
      assert (buffers + [buffer])[1..] == buffers[1..] + [buffer];
    }
  }

  lemma {:induction false} BodyAt(buffers: seq<seq<string>>, i: nat)
    requires i < |buffers|
    ensures Bodies(buffers)[i] == Body(buffers[i])
  {
    hide Body;
    if i > 0 {
      BodyAt(buffers[1..], i - 1);
    }
  }

  method ChunkStructuredText(sections: seq<Section>, target: nat) returns (chunks: seq<Chunk>)
    ensures chunks == ChunksOf(sections, target)
  {
    hide Numbered, Bodies, AddBlock, HeadingOf, BlockLines, SplitLines, Joined;
    chunks := [];
    for i := 0 to |sections|
      invariant chunks == ChunksOf(sections[..i], target)
    {
      assert sections[..i + 1][..i] == sections[..i];
      var blocks := StructuredBlocks(sections[i].text);
      var packer := new Packer(HeadingOf(blocks), target, sections[i].place, chunks);
      for k := 0 to |blocks|
        invariant packer.Valid() && fresh(packer)
        invariant packer.State() == Pack(blocks[..k], packer.heading, target)
      {
        assert blocks[..k + 1][..k] == blocks[..k];
        packer.PackBlock(blocks[k]);
      }
      assert blocks[..|blocks|] == blocks;
      packer.Emit();
      chunks := packer.chunks;
    }
    assert sections[..|sections|] == sections;
  }

  /** How many chunks the sections give. */
  function Total(sections: seq<Section>, target: nat): nat {
    if sections == [] then 0
    else Total(sections[..|sections| - 1], target) + |Buffers(BlocksOf(sections[|sections| - 1]), target)|
  }

  /** Chunk `k` of section `i`: its parts with a blank line between them, without white space at the ends,
      numbered through the document and placed as the section. */
  lemma {:induction false} ChunkReads(sections: seq<Section>, target: nat, i: nat, k: nat)
    requires i < |sections| && k < |Buffers(BlocksOf(sections[i]), target)|
    ensures var at := Total(sections[..i], target) + k;
      && at < |ChunksOf(sections, target)|
      && ChunksOf(sections, target)[at]
         == Chunk(at, Strip(Join("\n\n", Buffers(BlocksOf(sections[i]), target)[k])), sections[i].place, None)
  {
    hide BlocksOf, Buffers, Strip, Join;
    var front, last := sections[..|sections| - 1], sections[|sections| - 1];
    TotalIs(front, target);
    if i < |front| {
      assert front[..i] == sections[..i];
      ChunkReads(front, target, i, k);
    } else {
      BodyAt(Buffers(BlocksOf(last), target), k);
    }
  }

  lemma {:induction false} TotalIs(sections: seq<Section>, target: nat)
    ensures |ChunksOf(sections, target)| == Total(sections, target)
  {
    hide BlocksOf, Buffers;
    if sections != [] {
      TotalIs(sections[..|sections| - 1], target);
    }
  }

  /** A section has a heading if its first block starts with one to six hashes, white space, and something else. */
  lemma SectionHeading(section: Section)
    ensures var heading, blocks := HeadingOf(BlocksOf(section)), BlocksOf(section);
      && (heading.Some? <==> blocks != [] && exists n | 1 <= n <= 6 ::
                               SpacedAt(blocks[0], n) && forall i | 0 <= i < n :: blocks[0][i] == '#')
      && (heading.Some? ==> heading.value == blocks[0])
  {
    hide SpacedAt;
    if BlocksOf(section) != [] {
      HeadingIff(BlocksOf(section)[0]);
    }
  }

  // ------------------------------------------------------------ conservation

  /** What is packed: the blocks, with each over-long one replaced by its lines. */
  function Items(blocks: seq<string>, target: nat): seq<string> {
    if blocks == [] then [] else
      var last := blocks[|blocks| - 1];
      Items(blocks[..|blocks| - 1], target) + (if OpensFence(last) || |Split(last)| <= target then [last] else SplitLines(last))
  }

  function Without(heading: Option<string>, parts: seq<string>): seq<string> {
    if parts == [] then []
    else (if heading == Some(parts[0]) then [] else [parts[0]]) + Without(heading, parts[1..])
  }

  lemma Associative(a: seq<string>, b: seq<string>, c: seq<string>)
    ensures a + (b + c) == a + b + c
  {
  }

  lemma {:induction false} WithoutAppend(heading: Option<string>, a: seq<string>, b: seq<string>)
    ensures Without(heading, a + b) == Without(heading, a) + Without(heading, b)
  {
    if a == [] {
      assert a + b == b;
    } else {
      WithoutAppend(heading, a[1..], b);
      assert (a + b)[1..] == a[1..] + b && (a + b)[0] == a[0];
      var first := if heading == Some(a[0]) then [] else [a[0]];
      Associative(first, Without(heading, a[1..]), Without(heading, b));
    }
  }

  lemma WithoutPrefix(heading: Option<string>)
    ensures Without(heading, Prefix(heading)) == []
  {
  }

  ghost function Content(p: Packing): seq<string> {
    Flat(p.emitted) + p.buffer
  }

  /** A chunk over the target is the heading and one item, or one item. */
  ghost predicate Small(buffer: seq<string>, heading: Option<string>) {
    |buffer| <= 1 || (heading == Some(buffer[0]) && |buffer| == 2)
  }

  ghost predicate Fits(buffer: seq<string>, heading: Option<string>, target: nat) {
    WordCount(buffer) <= target || Small(buffer, heading)
  }

  ghost predicate NonBlank(parts: seq<string>) {
    forall i | 0 <= i < |parts| :: !Blank(parts[i])
  }

  ghost predicate Headed(buffer: seq<string>, heading: Option<string>) {
    heading.Some? ==> buffer != [] && buffer[0] == heading.value
  }

  /** What the packing loop keeps while it takes in `items`. */
  ghost predicate Good(p: Packing, heading: Option<string>, target: nat, items: seq<string>) {
    && Without(heading, Content(p)) == Without(heading, items)
    && (heading.None? ==> Content(p) == items)
    && (heading.Some? ==> !Blank(heading.value))
    && WordCount(p.buffer) <= p.count && (p.count <= target || Small(p.buffer, heading))
    && NonBlank(p.buffer)
    && (p.emitted != [] ==> Headed(p.buffer, heading))
    && forall i | 0 <= i < |p.emitted| :: p.emitted[i] != [] && NonBlank(p.emitted[i])
         && Fits(p.emitted[i], heading, target) && (i > 0 ==> Headed(p.emitted[i], heading))
  }

  lemma FlushGood(p: Packing, heading: Option<string>, target: nat, items: seq<string>)
    requires Good(p, heading, target, items)
    ensures Good(Flush(p, heading), heading, target, items)
  {
    if p.buffer != [] {
      var q := Flush(p, heading);
      FlatSnoc(p.emitted, p.buffer);
      WithoutAppend(heading, Content(p), Prefix(heading));
      WithoutPrefix(heading);
      assert Content(q) == Content(p) + Prefix(heading);
    }
  }

  lemma AddGood(p: Packing, heading: Option<string>, target: nat, items: seq<string>, item: string)
    requires Good(p, heading, target, items) && !Blank(item)
    requires p.buffer == [] || p.buffer == Prefix(heading) || p.count + Words(item) <= target
    ensures Good(Add(p, item), heading, target, items + [item])
  {
    hide WordsOf, Split, Blank, Flat, Without;
    var q := Add(p, item);
    assert Content(q) == Content(p) + [item];
    WithoutAppend(heading, Content(p), [item]);
    WithoutAppend(heading, items, [item]);
    WordsOfAppend(p.buffer, [item]);
    WordsOfOne(item);
  }

  lemma RoomMade(p: Packing, heading: Option<string>, target: nat, items: seq<string>, words: nat)
    requires Good(p, heading, target, items)
    ensures var q := Room(p, heading, target, words);
      && Good(q, heading, target, items)
      && (q.buffer == [] || q.buffer == Prefix(heading) || q.count + words <= target)
  {
    FlushGood(p, heading, target, items);
  }

  lemma {:induction false} LinesGood(
    p: Packing, heading: Option<string>, target: nat, items: seq<string>, lines: seq<string>)
    requires Good(p, heading, target, items) && NonBlank(lines)
    ensures Good(AddLines(p, heading, target, lines), heading, target, items + lines)
  {
    hide Good, Words, Blank, Add, Room;
    if lines == [] {
      assert items + lines == items;
    } else {
      var front, last := lines[..|lines| - 1], lines[|lines| - 1];
      LinesGood(p, heading, target, items, front);
      var q := AddLines(p, heading, target, front);
      RoomMade(q, heading, target, items + front, Words(last));
      AddGood(Room(q, heading, target, Words(last)), heading, target, items + front, last);
      assert items + front + [last] == items + lines;
    }
  }

  /** A heading that already opens the chunk is counted but not repeated. */
  lemma SkipGood(p: Packing, heading: Option<string>, target: nat, items: seq<string>)
    requires Good(p, heading, target, items) && heading.Some? && p.buffer == [heading.value]
    ensures Good(p.(count := p.count + Words(heading.value)), heading, target, items + [heading.value])
  {
    WithoutAppend(heading, items, [heading.value]);
    WithoutPrefix(heading);
  }

  lemma BlockGood(p: Packing, heading: Option<string>, target: nat, items: seq<string>, block: string)
    requires Good(p, heading, target, items)
    requires if Atomic(block, target) then !Blank(block) else NonBlank(SplitLines(block))
    ensures Good(AddBlock(p, heading, target, block), heading, target,
                 items + if Atomic(block, target) then [block] else SplitLines(block))
  {
    RoomMade(p, heading, target, items, Words(block));
    var q := Room(p, heading, target, Words(block));
    if !Atomic(block, target) {
      LinesGood(q, heading, target, items, SplitLines(block));
    } else if heading == Some(block) && q.buffer == [block] {
      SkipGood(q, heading, target, items);
    } else {
      AddGood(q, heading, target, items, block);
    }
  }

  ghost predicate Proper(blocks: seq<string>, target: nat) {
    forall i | 0 <= i < |blocks| ::
      !Blank(blocks[i]) && (!Atomic(blocks[i], target) ==> NonBlank(SplitLines(blocks[i])))
  }

  lemma {:induction false} PackGood(blocks: seq<string>, heading: Option<string>, target: nat)
    requires Proper(blocks, target) && (heading.Some? ==> !Blank(heading.value))
    ensures Good(Pack(blocks, heading, target), heading, target, Items(blocks, target))
  {
    if blocks != [] {
      var front := blocks[..|blocks| - 1];
      PackGood(front, heading, target);
      BlockGood(Pack(front, heading, target), heading, target, Items(front, target), blocks[|blocks| - 1]);
    }
  }

  // ------------------------------------------------------- blocks are proper

  lemma {:induction false} BlankLStrip(text: string)
    ensures Blank(LStrip(text)) ==> Blank(text)
    ensures LStrip(text) == "" <==> Blank(text)
  {
    if text != "" && IsSpace(text[0]) {
      BlankLStrip(text[1..]);
      assert forall i | 1 <= i < |text| :: text[i] == text[1..][i - 1];
    }
  }

  lemma {:induction false} LStripBefore(a: string, b: string)
    requires !Blank(a)
    ensures LStrip(a + b) == LStrip(a) + b
  {
    if IsSpace(a[0]) {
      assert (a + b)[1..] == a[1..] + b;
      assert !Blank(a[1..]);
      LStripBefore(a[1..], b);
    }
  }

  lemma FenceStays(a: string, b: string)
    requires !Blank(a) && OpensFence(a)
    ensures OpensFence(a + b)
  {
    LStripBefore(a, b);
    assert forall n | 0 <= n <= |LStrip(a)| :: (LStrip(a) + b)[..n] == LStrip(a)[..n];
  }

  lemma BlockIsProper(block: seq<string>, target: nat)
    requires WellFormed(block)
    ensures var text := Join("\n", block);
      !Blank(text) && (!Atomic(text, target) ==> SplitLines(text) == block && NonBlank(block))
  {
    hide OpensFence, Heading, Words, Split;
    var text := Join("\n", block);
    JoinStarts("\n", block);
    var tail := text[|block[0]|..];
    assert text == block[0] + tail;
    assert forall i | 0 <= i < |block[0]| :: text[i] == block[0][i];
    if OpensFence(block[0]) {
      FenceStays(block[0], tail);
    } else {
      assert NonBlank(block);
      SplitLinesJoin(block);
    }
  }

  lemma JoinStarts(sep: string, parts: seq<string>)
    requires parts != []
    ensures StartsWith(Join(sep, parts), parts[0])
  {
  }

  lemma BlocksAreProper(section: Section, target: nat)
    ensures Proper(BlocksOf(section), target)
  {
    var lines := SplitLines(section.text);
    SplitLinesGivesLines(section.text);
    BlocksAreWellFormed(lines);
    forall i | 0 <= i < |BlockLines(lines)| ensures
        var b := BlocksOf(section)[i]; !Blank(b) && (!Atomic(b, target) ==> NonBlank(SplitLines(b)))
    {
      BlockIsProper(BlockLines(lines)[i], target);
    }
  }

  // ------------------------------------------------------------ main results

  lemma BodyWords(buffer: seq<string>)
    ensures Split(Body(buffer)) == WordsOf(buffer)
  {
    SplitStrip(Join("\n\n", buffer));
    SplitJoin("\n\n", buffer);
  }

  lemma {:induction false} RStripStarts(a: string, b: string)
    ensures StartsWith(RStrip(a + b), RStrip(a))
  {
    if b == "" {
      assert a + b == a;
    } else {
      assert (a + b)[..|a + b| - 1] == a + b[..|b| - 1];
      RStripStarts(a, b[..|b| - 1]);
    }
  }

  /** A chunk whose first part is the heading begins with it. */
  lemma BodyStarts(buffer: seq<string>)
    requires buffer != [] && !Blank(buffer[0])
    ensures StartsWith(Strip(Join("\n\n", buffer)), Strip(buffer[0]))
  {
    var text := Join("\n\n", buffer);
    JoinStarts("\n\n", buffer);
    var tail := text[|buffer[0]|..];
    assert text == buffer[0] + tail;
    LStripBefore(buffer[0], tail);
    RStripStarts(LStrip(buffer[0]), tail);
  }

  /** Over all chunks of a section every block, or every line of an over-long block, appears once
      and in order, up to copies of the heading; without a heading it is exactly so. A chunk has
      more than `target` words only if it is one item, or the heading and one item. No chunk is
      empty, and every chunk after the first begins with the heading. */
  lemma PackingLosesNothing(section: Section, target: nat)
    ensures var blocks := BlocksOf(section);
      var heading, buffers := HeadingOf(blocks), Buffers(blocks, target);
      && Without(heading, Flat(buffers)) == Without(heading, Items(blocks, target))
      && (heading.None? ==> Flat(buffers) == Items(blocks, target))
      && (forall i | 0 <= i < |buffers| ::
            && Body(buffers[i]) != "" && Split(Body(buffers[i])) == WordsOf(buffers[i])
            && (|Split(Body(buffers[i]))| > target ==> Small(buffers[i], heading))
            && (i > 0 && heading.Some? ==>
                  && buffers[i] != [] && buffers[i][0] == heading.value
                  && StartsWith(Body(buffers[i]), Strip(heading.value))))
  {
    var blocks := BlocksOf(section);
    var heading := HeadingOf(blocks);
    BlocksAreProper(section, target);
    PackGood(blocks, heading, target);
    var p := Pack(blocks, heading, target);
    var items := Items(blocks, target);
    FlushGood(p, heading, target, items);
    var q := Flush(p, heading);
    LastFlush(p, heading, target, items);
    forall i | 0 <= i < |q.emitted|
      ensures Split(Body(q.emitted[i])) == WordsOf(q.emitted[i]) && Body(q.emitted[i]) != ""
      ensures i > 0 && heading.Some? ==> StartsWith(Body(q.emitted[i]), Strip(heading.value))
    {
      BodyWords(q.emitted[i]);
      if i > 0 && heading.Some? {
        BodyStarts(q.emitted[i]);
      }
      SplitBlank(q.emitted[i][0]);
      SplitBlank(Body(q.emitted[i]));
    }
  }

  lemma LastFlush(p: Packing, heading: Option<string>, target: nat, items: seq<string>)
    requires Good(p, heading, target, items)
    ensures var all := Flat(Flush(p, heading).emitted);
      Without(heading, all) == Without(heading, items) && (heading.None? ==> all == items)
  {
    FlatSnoc(p.emitted, p.buffer);
    assert p.buffer == [] ==> Content(p) == Flat(p.emitted);
  }

  /** Without a heading the words of the chunks, read in order, are the words of the section. */
  lemma WordsConserved(section: Section, target: nat)
    requires HeadingOf(BlocksOf(section)).None?
    ensures WordsOf(Bodies(Buffers(BlocksOf(section), target))) == Split(section.text)
  {
    var blocks := BlocksOf(section);
    PackingLosesNothing(section, target);
    BlocksAreProper(section, target);
    BodiesWords(Buffers(blocks, target));
    ItemsWords(blocks, target);
    BlocksLoseNothing(section.text);
  }

  lemma {:induction false} BodiesWords(buffers: seq<seq<string>>)
    ensures WordsOf(Bodies(buffers)) == WordsOf(Flat(buffers))
  {
    if buffers != [] {
      BodiesWords(buffers[1..]);
      BodyWords(buffers[0]);
      WordsOfAppend(buffers[0], Flat(buffers[1..]));
      assert Bodies(buffers)[1..] == Bodies(buffers[1..]);
    }
  }

  lemma {:induction false} ItemsWords(blocks: seq<string>, target: nat)
    ensures WordsOf(Items(blocks, target)) == WordsOf(blocks)
  {
    if blocks != [] {
      var front, last := blocks[..|blocks| - 1], blocks[|blocks| - 1];
      ItemsWords(front, target);
      WordsOfAppend(front, [last]);
      assert front + [last] == blocks;
      WordsOfOne(last);
      SplitByLines(last);
      WordsOfAppend(Items(front, target), if Atomic(last, target) then [last] else SplitLines(last));
    }
  }

  // ------------------------------------------------------------------ greedy

  /** What is packed: a block as a whole, or a line of an over-long block. */
  datatype Item = Whole(text: string) | Line(text: string, first: bool)

  function LineItems(lines: seq<string>): seq<Item> {
    seq(|lines|, i requires 0 <= i < |lines| => Line(lines[i], i == 0))
  }

  function ItemsOf(blocks: seq<string>, target: nat): seq<Item> {
    if blocks == [] then [] else
      var last := blocks[|blocks| - 1];
      ItemsOf(blocks[..|blocks| - 1], target)
      + (if OpensFence(last) || |Split(last)| <= target then [Whole(last)] else LineItems(SplitLines(last)))
  }

  function Weight(group: seq<Item>): nat {
    if group == [] then 0 else Weight(group[..|group| - 1]) + |Split(group[|group| - 1].text)|
  }

  /** The words of a chunk with these items; every chunk but the first starts with the heading. */
  function Load(heading: Option<string>, later: bool, group: seq<Item>): nat {
    (if later && heading.Some? then |Split(heading.value)| else 0) + Weight(group)
  }

  ghost predicate Takes(heading: Option<string>, later: bool, group: seq<Item>, item: Item, target: nat) {
    Load(heading, later, group) + |Split(item.text)| <= target
  }

  /** The parts of a chunk: a copy of the heading is left out while the heading is all there is. */
  function Parts(heading: Option<string>, later: bool, group: seq<Item>): seq<string> {
    if group == [] then (if later && heading.Some? then [heading.value] else [])
    else
      var before, item := Parts(heading, later, group[..|group| - 1]), group[|group| - 1];
      if item.Whole? && heading == Some(item.text) && before == [item.text] then before else before + [item.text]
  }

  ghost predicate Opens(item: Item) {
    item.Line? && item.first
  }

  /** Where the chunk of `groups[i]` ends: the next item did not fit, or begins an over-long block. When its
      first line does not even fit beside the heading, the heading stands alone in between. */
  ghost predicate Cut(heading: Option<string>, target: nat, groups: seq<seq<Item>>, i: nat)
    requires i + 1 < |groups|
  {
    var group, next := groups[i], groups[i + 1];
    if next == [] then
      heading.Some? && group != [] && i + 2 < |groups| && groups[i + 2] != [] && Opens(groups[i + 2][0])
    else if group == [] then
      i > 0 && Opens(next[0]) && !Takes(heading, true, [], next[0], target)
    else
      && (Opens(next[0]) || !Takes(heading, i > 0, group, next[0], target))
      && (heading.Some? && Opens(next[0]) ==> Takes(heading, true, [], next[0], target))
  }

  /** Within a chunk every item but the first fitted and none begins an over-long block. */
  ghost predicate Filled(heading: Option<string>, later: bool, group: seq<Item>, target: nat) {
    forall j | 0 < j < |group| :: !Opens(group[j]) && Takes(heading, later, group[..j], group[j], target)
  }

  ghost predicate Layout(heading: Option<string>, target: nat, groups: seq<seq<Item>>) {
    && groups != [] && (|groups| > 1 ==> groups[|groups| - 1] != [])
    && (forall i | 0 <= i < |groups| :: Filled(heading, i > 0, groups[i], target))
    && forall i | 0 <= i < |groups| - 1 :: Cut(heading, target, groups, i)
  }

  function Extend(groups: seq<seq<Item>>, item: Item): seq<seq<Item>>
    requires groups != []
  {
    groups[..|groups| - 1] + [groups[|groups| - 1] + [item]]
  }

  ghost function Push(heading: Option<string>, target: nat, groups: seq<seq<Item>>, item: Item): seq<seq<Item>>
    requires groups != []
  {
    var last := groups[|groups| - 1];
    if last == [] then Extend(groups, item)
    else if Opens(item) then
      groups + (if heading.Some? && !Takes(heading, true, [], item, target) then [[], [item]] else [[item]])
    else if Takes(heading, |groups| > 1, last, item, target) then Extend(groups, item)
    else groups + [[item]]
  }

  ghost function Groups(heading: Option<string>, target: nat, items: seq<Item>): (r: seq<seq<Item>>)
    ensures r != []
  {
    if items == [] then [[]]
    else Push(heading, target, Groups(heading, target, items[..|items| - 1]), items[|items| - 1])
  }

  lemma ExtendLayout(heading: Option<string>, target: nat, groups: seq<seq<Item>>, item: Item)
    requires Layout(heading, target, groups)
    requires var last := groups[|groups| - 1];
      last == [] || (!Opens(item) && Takes(heading, |groups| > 1, last, item, target))
    ensures Layout(heading, target, Extend(groups, item))
  {
    hide Takes, Opens;
    var last, r := groups[|groups| - 1], Extend(groups, item);
    forall j | 0 < j < |last| + 1
      ensures !Opens((last + [item])[j]) && Takes(heading, |groups| > 1, (last + [item])[..j], (last + [item])[j], target)
    {
      assert (last + [item])[..j] == last[..j];
    }
    forall i | 0 <= i < |r| - 1 ensures Cut(heading, target, r, i) {
      assert Cut(heading, target, groups, i);
      assert last != [];
      assert (last + [item])[0] == last[0];
    }
  }

  lemma AppendLayout(heading: Option<string>, target: nat, groups: seq<seq<Item>>, item: Item)
    requires Layout(heading, target, groups) && groups[|groups| - 1] != []
    requires Opens(item) || !Takes(heading, |groups| > 1, groups[|groups| - 1], item, target)
    requires heading.Some? && Opens(item) ==> Takes(heading, true, [], item, target)
    ensures Layout(heading, target, groups + [[item]])
  {
    hide Takes, Opens;
    var r := groups + [[item]];
    forall i | 0 <= i < |r| - 1 ensures Cut(heading, target, r, i) {
      assert i < |groups| - 1 ==> Cut(heading, target, groups, i);
    }
  }

  lemma AppendAlone(heading: Option<string>, target: nat, groups: seq<seq<Item>>, item: Item)
    requires Layout(heading, target, groups) && groups[|groups| - 1] != []
    requires heading.Some? && Opens(item) && !Takes(heading, true, [], item, target)
    ensures Layout(heading, target, groups + [[], [item]])
  {
    hide Takes, Opens;
    var r := groups + [[], [item]];
    forall i | 0 <= i < |r| - 1 ensures Cut(heading, target, r, i) {
      assert i < |groups| - 1 ==> Cut(heading, target, groups, i);
    }
  }

  lemma PushLayout(heading: Option<string>, target: nat, groups: seq<seq<Item>>, item: Item)
    requires Layout(heading, target, groups)
    ensures Layout(heading, target, Push(heading, target, groups, item))
  {
    hide Takes, Opens, Extend;
    var last := groups[|groups| - 1];
    if last == [] || (!Opens(item) && Takes(heading, |groups| > 1, last, item, target)) {
      ExtendLayout(heading, target, groups, item);
    } else if Opens(item) && heading.Some? && !Takes(heading, true, [], item, target) {
      AppendAlone(heading, target, groups, item);
    } else {
      AppendLayout(heading, target, groups, item);
    }
  }

  lemma PushFlat(heading: Option<string>, target: nat, groups: seq<seq<Item>>, item: Item)
    requires groups != []
    ensures Flat(Push(heading, target, groups, item)) == Flat(groups) + [item]
  {
    hide Takes, Opens;
    var front, last := groups[..|groups| - 1], groups[|groups| - 1];
    assert groups == front + [last];
    FlatSnoc(front, last);
    FlatSnoc(front, last + [item]);
    FlatSnoc(groups, [item]);
    FlatSnoc(groups, []);
    FlatSnoc(groups + [[]], [item]);
    assert groups + [[], [item]] == groups + [[]] + [[item]];
  }

  lemma {:induction false} GroupsLayout(heading: Option<string>, target: nat, items: seq<Item>)
    ensures var r := Groups(heading, target, items); Layout(heading, target, r) && Flat(r) == items
  {
    hide Layout, Push;
    if items == [] {
      OneGroup(heading, target);
    } else {
      GroupsLayout(heading, target, items[..|items| - 1]);
      PushLayout(heading, target, Groups(heading, target, items[..|items| - 1]), items[|items| - 1]);
      PushFlat(heading, target, Groups(heading, target, items[..|items| - 1]), items[|items| - 1]);
    }
  }

  lemma OneGroup(heading: Option<string>, target: nat)
    ensures Layout(heading, target, [[]]) && Flat<Item>([[]]) == []
  {
  }

  // ------------------------------------------- the packing follows the layout

  ghost predicate Shows(p: Packing, heading: Option<string>, groups: seq<seq<Item>>) {
    && groups != [] && |p.emitted| == |groups| - 1
    && (forall i | 0 <= i < |p.emitted| :: p.emitted[i] == Parts(heading, i > 0, groups[i]))
    && p.buffer == Parts(heading, |groups| > 1, groups[|groups| - 1])
    && p.count == Load(heading, |groups| > 1, groups[|groups| - 1])
  }

  lemma FlushShows(p: Packing, heading: Option<string>, groups: seq<seq<Item>>)
    requires Shows(p, heading, groups) && p.buffer != []
    ensures Shows(Flush(p, heading), heading, groups + [[]])
  {
    if heading.Some? {
      WordsOfOne(heading.value);
    }
  }

  lemma AddShows(p: Packing, heading: Option<string>, groups: seq<seq<Item>>, item: Item)
    requires Shows(p, heading, groups)
    ensures Shows(if item.Whole? then AddAtom(p, heading, item.text) else Add(p, item.text), heading, Extend(groups, item))
  {
    hide Parts, Load, Split;
    PartsSnoc(heading, |groups| > 1, groups[|groups| - 1], item);
  }

  lemma PartsSnoc(heading: Option<string>, later: bool, group: seq<Item>, item: Item)
    ensures Load(heading, later, group + [item]) == Load(heading, later, group) + |Split(item.text)|
    ensures var before := Parts(heading, later, group);
      Parts(heading, later, group + [item])
      == if item.Whole? && heading == Some(item.text) && before == [item.text] then before else before + [item.text]
  {
    assert (group + [item])[..|group|] == group;
  }

  lemma PartsEmpty(heading: Option<string>, later: bool, group: seq<Item>)
    ensures Parts(heading, later, group) == [] <==> group == [] && (later ==> heading.None?)
  {
  }

  lemma LastGroup(heading: Option<string>, target: nat, groups: seq<seq<Item>>)
    requires Layout(heading, target, groups)
    ensures groups != [] && (groups[|groups| - 1] == [] ==> |groups| == 1)
  {
  }

  lemma RoomShows(p: Packing, heading: Option<string>, target: nat, groups: seq<seq<Item>>, words: nat)
    requires Shows(p, heading, groups) && (groups[|groups| - 1] == [] ==> |groups| == 1)
    ensures
      var last := groups[|groups| - 1];
      Shows(Room(p, heading, target, words), heading,
            if last == [] || Load(heading, |groups| > 1, last) + words <= target then groups else groups + [[]])
  {
    PartsEmpty(heading, |groups| > 1, groups[|groups| - 1]);
    if p.buffer != [] {
      FlushShows(p, heading, groups);
    }
  }

  lemma ExtendEmpty(groups: seq<seq<Item>>, item: Item)
    ensures Extend(groups + [[]], item) == groups + [[item]]
  {
    var empty: seq<Item> := [];
    assert (groups + [empty])[..|groups|] == groups && (groups + [empty])[|groups|] == empty;
    assert empty + [item] == [item];
  }

  /** An item that begins no over-long block. */
  lemma PlaceShows(p: Packing, heading: Option<string>, target: nat, groups: seq<seq<Item>>, item: Item)
    requires Shows(p, heading, groups) && Layout(heading, target, groups) && !Opens(item)
    ensures var q := Room(p, heading, target, Words(item.text));
      Shows(if item.Whole? then AddAtom(q, heading, item.text) else Add(q, item.text), heading,
            Push(heading, target, groups, item))
  {
    hide Layout, Shows, Room, Load, AddAtom, Split;
    LastGroup(heading, target, groups);
    RoomShows(p, heading, target, groups, Words(item.text));
    var q, last := Room(p, heading, target, Words(item.text)), groups[|groups| - 1];
    var r := if last == [] || Load(heading, |groups| > 1, last) + Words(item.text) <= target then groups else groups + [[]];
    AddShows(q, heading, r, item);
    ExtendEmpty(groups, item);
    assert Words(item.text) == |Split(item.text)|;
  }

  /** The first line of an over-long block of `words` words. */
  lemma OpenShows(p: Packing, heading: Option<string>, target: nat, groups: seq<seq<Item>>, line: string, words: nat)
    requires Shows(p, heading, groups) && Layout(heading, target, groups) && words > target
    ensures Shows(Add(Room(Room(p, heading, target, words), heading, target, Words(line)), line), heading,
                  Push(heading, target, groups, Line(line, true)))
  {
    LastGroup(heading, target, groups);
    var item, last := Line(line, true), groups[|groups| - 1];
    hide Layout, Room, Split, Flush, Parts, Shows, Extend, Add, Takes;
    RoomShows(p, heading, target, groups, words);
    var q := Room(p, heading, target, words);
    if last == [] {
      FirstEmpty(p, heading, groups);
      NoRoomNeeded(p, heading, target, words);
      NoRoomNeeded(p, heading, target, Words(line));
      AddShows(p, heading, groups, item);
    } else {
      SecondRoom(q, heading, target, groups + [[]], line);
      OpenPushes(heading, target, groups, item);
    }
  }

  lemma OpenPushes(heading: Option<string>, target: nat, groups: seq<seq<Item>>, item: Item)
    requires groups != [] && groups[|groups| - 1] != [] && Opens(item)
    ensures
      var alone := heading.Some? && !Takes(heading, true, [], item, target);
      Push(heading, target, groups, item) == Extend(if alone then groups + [[]] + [[]] else groups + [[]], item)
  {
    hide Takes, Extend;
    ExtendEmpty(groups, item);
    ExtendEmpty(groups + [[]], item);
    assert groups + [[]] + [[item]] == groups + [[], [item]];
  }

  lemma FirstEmpty(p: Packing, heading: Option<string>, groups: seq<seq<Item>>)
    requires Shows(p, heading, groups) && |groups| == 1 && groups[0] == []
    ensures p.buffer == []
  {
  }

  lemma NoRoomNeeded(p: Packing, heading: Option<string>, target: nat, words: nat)
    requires p.buffer == []
    ensures Room(p, heading, target, words) == p
  {
  }

  lemma SecondRoom(q: Packing, heading: Option<string>, target: nat, groups: seq<seq<Item>>, line: string)
    requires Shows(q, heading, groups) && |groups| > 1 && groups[|groups| - 1] == []
    ensures
      var r := if heading.Some? && !Takes(heading, true, [], Line(line, true), target) then groups + [[]] else groups;
      Shows(Add(Room(q, heading, target, Words(line)), line), heading, Extend(r, Line(line, true)))
  {
    hide Split, Flush;
    var next := Room(q, heading, target, Words(line));
    PartsEmpty(heading, true, []);
    if heading.Some? && !Takes(heading, true, [], Line(line, true), target) {
      FlushShows(q, heading, groups);
      AddShows(next, heading, groups + [[]], Line(line, true));
    } else {
      AddShows(q, heading, groups, Line(line, true));
    }
  }

  lemma {:induction false} LinesShow(
    p: Packing, heading: Option<string>, target: nat, items: seq<Item>, lines: seq<string>, words: nat)
    requires Shows(p, heading, Groups(heading, target, items)) && words > target && lines != []
    ensures Shows(AddLines(Room(p, heading, target, words), heading, target, lines), heading,
                  Groups(heading, target, items + LineItems(lines)))
  {
    hide Shows, Push, Room, Split;
    var n := |lines| - 1;
    var front, last, all := lines[..n], lines[n], items + LineItems(lines);
    assert all == items + LineItems(front) + [Line(last, n == 0)];
    assert all[..|all| - 1] == items + LineItems(front);
    if n == 0 {
      assert items + LineItems(front) == items;
      GroupsLayout(heading, target, items);
      OpenShows(p, heading, target, Groups(heading, target, items), last, words);
      assert AddLines(Room(p, heading, target, words), heading, target, front) == Room(p, heading, target, words);
    } else {
      LinesShow(p, heading, target, items, front, words);
      GroupsLayout(heading, target, items + LineItems(front));
      PlaceShows(AddLines(Room(p, heading, target, words), heading, target, front), heading, target,
                 Groups(heading, target, items + LineItems(front)), Line(last, false));
    }
  }

  lemma {:induction false} PackShows(blocks: seq<string>, heading: Option<string>, target: nat)
    ensures Shows(Pack(blocks, heading, target), heading, Groups(heading, target, ItemsOf(blocks, target)))
  {
    hide OpensFence, Push, Room, Split, SplitLines;
    if blocks != [] {
      var front, last := blocks[..|blocks| - 1], blocks[|blocks| - 1];
      var p, items := Pack(front, heading, target), ItemsOf(front, target);
      PackShows(front, heading, target);
      if Atomic(last, target) {
        assert (items + [Whole(last)])[..|items|] == items;
        GroupsLayout(heading, target, items);
        PlaceShows(p, heading, target, Groups(heading, target, items), Whole(last));
      } else {
        SplitByLines(last);
        LinesShow(p, heading, target, items, SplitLines(last), Words(last));
      }
    }
  }

  ghost predicate ShownBy(buffers: seq<seq<string>>, heading: Option<string>, groups: seq<seq<Item>>) {
    |buffers| == |groups| && forall i | 0 <= i < |buffers| :: buffers[i] == Parts(heading, i > 0, groups[i])
  }

  /** The packing is greedy: cut into groups in the one way `Layout` leaves open, the blocks and the lines of
      over-long blocks give the parts of the chunks. */
  lemma PackingIsGreedy(section: Section, target: nat)
    ensures var blocks := BlocksOf(section);
      var heading, buffers := HeadingOf(blocks), Buffers(blocks, target);
      if blocks == [] then buffers == []
      else exists groups | Layout(heading, target, groups) :: Flat(groups) == ItemsOf(blocks, target) && ShownBy(buffers, heading, groups)
  {
    var blocks := BlocksOf(section);
    if blocks != [] {
      BuffersShow(blocks, HeadingOf(blocks), target);
    }
  }

  lemma BuffersShow(blocks: seq<string>, heading: Option<string>, target: nat)
    requires blocks != []
    ensures var groups := Groups(heading, target, ItemsOf(blocks, target));
      && Layout(heading, target, groups) && Flat(groups) == ItemsOf(blocks, target)
      && ShownBy(Flush(Pack(blocks, heading, target), heading).emitted, heading, groups)
  {
    hide Layout, ItemsOf, Pack, Push, Groups, Flush;
    var groups := Groups(heading, target, ItemsOf(blocks, target));
    PackShows(blocks, heading, target);
    GroupsLayout(heading, target, ItemsOf(blocks, target));
    ItemsNotEmpty(blocks, target);
    LastNotEmpty(heading, target, groups);
    PartsEmpty(heading, |groups| > 1, groups[|groups| - 1]);
    FlushShows(Pack(blocks, heading, target), heading, groups);
  }

  lemma ItemsNotEmpty(blocks: seq<string>, target: nat)
    requires blocks != []
    ensures ItemsOf(blocks, target) != []
  {
    SplitByLines(blocks[|blocks| - 1]);
  }

  lemma LastNotEmpty(heading: Option<string>, target: nat, groups: seq<seq<Item>>)
    requires Layout(heading, target, groups) && Flat(groups) != []
    ensures groups[|groups| - 1] != []
  {
    assert groups == [[]] ==> Flat(groups) == [];
  }

  /** There is one way only: a layout is determined by its items. */
  lemma {:induction false} LayoutIsUnique(heading: Option<string>, target: nat, groups: seq<seq<Item>>)
    requires Layout(heading, target, groups)
    ensures groups == Groups(heading, target, Flat(groups))
    decreases |Flat(groups)|
  {
    hide Takes, Opens;
    if Flat(groups) == [] {
      NoItems(heading, target, groups);
    } else {
      LastNotEmpty(heading, target, groups);
      var before, item := Unpush(heading, target, groups);
      PushFlat(heading, target, before, item);
      LayoutIsUnique(heading, target, before);
      assert Flat(groups)[..|Flat(groups)| - 1] == Flat(before);
    }
  }

  lemma NoItems(heading: Option<string>, target: nat, groups: seq<seq<Item>>)
    requires Layout(heading, target, groups) && Flat(groups) == []
    ensures groups == [[]]
  {
    var n := |groups| - 1;
    assert groups == groups[..n] + [groups[n]];
    FlatSnoc(groups[..n], groups[n]);
  }

  lemma Unpush(heading: Option<string>, target: nat, groups: seq<seq<Item>>) returns (before: seq<seq<Item>>, item: Item)
    requires Layout(heading, target, groups) && groups[|groups| - 1] != []
    ensures Layout(heading, target, before) && groups == Push(heading, target, before, item)
  {
    var n := |groups| - 1;
    var last := groups[n];
    item := last[|last| - 1];
    hide Takes, Opens, Layout, Push;
    if |last| > 1 || n == 0 {
      before := groups[..n] + [last[..|last| - 1]];
      Shortened(heading, target, groups);
    } else {
      before := if groups[n - 1] == [] then groups[..n - 1] else groups[..n];
      Dropped(heading, target, groups);
    }
  }

  lemma Shortened(heading: Option<string>, target: nat, groups: seq<seq<Item>>)
    requires Layout(heading, target, groups) && groups[|groups| - 1] != []
    requires |groups[|groups| - 1]| > 1 || |groups| == 1
    ensures
      var n, last := |groups| - 1, groups[|groups| - 1];
      var before := groups[..n] + [last[..|last| - 1]];
      Layout(heading, target, before) && groups == Push(heading, target, before, last[|last| - 1])
  {
    hide Takes, Opens;
    var n, last := |groups| - 1, groups[|groups| - 1];
    var front := last[..|last| - 1];
    var before := groups[..n] + [front];
    assert last == front + [last[|last| - 1]];
    forall j | 0 < j < |front| ensures front[..j] == last[..j] {
    }
    forall i | 0 <= i < n ensures Cut(heading, target, before, i) {
      assert Cut(heading, target, groups, i);
    }
  }

  lemma Dropped(heading: Option<string>, target: nat, groups: seq<seq<Item>>)
    requires Layout(heading, target, groups) && |groups| > 1 && |groups[|groups| - 1]| == 1
    ensures
      var n, item := |groups| - 1, groups[|groups| - 1][0];
      var before := if groups[n - 1] == [] then groups[..n - 1] else groups[..n];
      Layout(heading, target, before) && groups == Push(heading, target, before, item)
  {
    hide Takes, Opens;
    var n := |groups| - 1;
    assert Cut(heading, target, groups, n - 1);
    var before := if groups[n - 1] == [] then groups[..n - 1] else groups[..n];
    assert n > 1 ==> Cut(heading, target, groups, n - 2);
    var item := groups[n][0];
    assert groups[n] == [item];
    assert groups == if groups[n - 1] == [] then before + [[], [item]] else before + [[item]];
    forall i | 0 <= i < |before| - 1 ensures Cut(heading, target, before, i) {
      assert Cut(heading, target, groups, i);
    }
  }
}
