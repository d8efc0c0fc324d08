/** Overlapping windows of words, for documents without structure. */
module WordWindows {
  import opened Options
  import opened PythonText
  import opened DocumentChunks

  function Min(a: int, b: int): int {
    if a <= b then a else b
  }

  /** The distance between the starts of two neighbouring windows. */
  function Stride(target: nat, overlap: nat): (d: nat)
    requires target >= 1
    ensures 1 <= d <= target
  {
    target - Min(overlap, target - 1)
  }

  function CeilDiv(a: nat, b: nat): nat
    requires b >= 1
  {
    (a + b - 1) / b
  }

  /** How many windows `n` words need. */
  function WindowCount(n: nat, target: nat, overlap: nat): nat
    requires target >= 1
  {
    if n == 0 then 0 else if n <= target then 1 else 1 + CeilDiv(n - target, Stride(target, overlap))
  }

  lemma WindowCountEnd(n: nat, target: nat, overlap: nat)
    requires n <= target && target >= 1
    ensures WindowCount(n, target, overlap) == if n == 0 then 0 else 1
  {
  }

  lemma WindowCountStep(n: nat, target: nat, overlap: nat)
    requires 1 <= target < n
    ensures WindowCount(n, target, overlap) == 1 + WindowCount(n - Stride(target, overlap), target, overlap)
  {
    var d := Stride(target, overlap);
    if n - d > target {
      assert (n - target + d - 1) / d == (n - d - target + d - 1) / d + 1 by {
        DivStep(n - d - target + d - 1, d);
      }
    } else {
      assert (n - target + d - 1) / d == 1 by {
        DivStep(n - target - 1, d);
      }
    }
  }

  lemma DivStep(a: nat, d: nat)
    requires d >= 1
    ensures (a + d) / d == a / d + 1
  {
    var x := (a + d) / d - (a / d + 1);
    Multiple(x, d);
    assert x * d == a % d - (a + d) % d;
  }

  lemma Multiple(x: int, d: int)
    requires d >= 0
    ensures x >= 1 ==> x * d >= d
    ensures x <= -1 ==> x * d <= -d
  {
    assert x * d == (x - 1) * d + d == (x + 1) * d - d;
  }

  /** Where the `k`-th window starts. */
  function Start(k: nat, target: nat, overlap: nat): nat
    requires target >= 1
  {
    k * Stride(target, overlap)
  }

  lemma StartStep(k: nat, target: nat, overlap: nat)
    requires target >= 1
    ensures Start(0, target, overlap) == 0
    ensures Start(k + 1, target, overlap) == Start(k, target, overlap) + Stride(target, overlap)
  {
  }

  /** The words of the `k`-th window, in closed form. */
  function Window(words: seq<string>, k: nat, target: nat, overlap: nat): seq<string>
    requires target >= 1
  {
    var start := Start(k, target, overlap);
    if start >= |words| then [] else words[start..Min(start + target, |words|)]
  }

  function WindowText(words: seq<string>, k: nat, target: nat, overlap: nat): string
    requires target >= 1
  {
    Join(" ", Window(words, k, target, overlap))
  }

  function WindowTexts(words: seq<string>, count: nat, target: nat, overlap: nat): (r: seq<string>)
    requires target >= 1
    ensures |r| == count && forall k | 0 <= k < count :: r[k] == WindowText(words, k, target, overlap)
  {
    if count == 0 then []
    else WindowTexts(words, count - 1, target, overlap) + [WindowText(words, count - 1, target, overlap)]
  }

  lemma WindowTextsStep(words: seq<string>, count: nat, target: nat, overlap: nat)
    requires target >= 1
    ensures WindowTexts(words, 0, target, overlap) == []
    ensures WindowTexts(words, count + 1, target, overlap)
         == WindowTexts(words, count, target, overlap) + [WindowText(words, count, target, overlap)]
  {
  }

  /** The chunks of the first sections. */
  function ChunksOf(sections: seq<Section>, target: nat, overlap: nat): (r: seq<Chunk>)
    requires target >= 1
    ensures Indexed(r)
  {
    if sections == [] then [] else
      var before := ChunksOf(sections[..|sections| - 1], target, overlap);
      var last := sections[|sections| - 1];
      var words := Split(last.text);
      before + Numbered(|before|, WindowTexts(words, WindowCount(|words|, target, overlap), target, overlap), last.place)
  }

  // --------------------------------------------------------------- the loops

  /** The windows of one section. The loop takes the end of one window and steps back by the
      overlap; it produces exactly the windows of the closed form, and exactly as many. */
  method ChunkSection(section: Section, target: nat, overlap: nat, first: nat) returns (chunks: seq<Chunk>)
    requires target >= 1
    ensures var words := Split(section.text);
      chunks == Numbered(first, WindowTexts(words, WindowCount(|words|, target, overlap), target, overlap), section.place)
  {
    hide Start, WindowCount, WindowTexts, Split, Numbered, Join;
    var words := Split(section.text);
    chunks := [];
    var start := 0;
    StartStep(0, target, overlap);
    WindowCountEnd(0, target, overlap);
    WindowTextsStep(words, 0, target, overlap);
    ghost var k := 0;
    ghost var all := WindowCount(|words|, target, overlap);
    while start < |words|
      invariant start == Start(k, target, overlap) <= |words| && (words != [] ==> start < |words|)
      invariant chunks == Numbered(first, WindowTexts(words, k, target, overlap), section.place)
      invariant all == k + WindowCount(|words| - start, target, overlap)
      decreases |words| - start
    {
      var end := Min(start + target, |words|);
      var window := words[start..end];
      WindowTextsStep(words, k, target, overlap);
      NumberedSnoc(first, WindowTexts(words, k, target, overlap), Join(" ", window), section.place);
      chunks := chunks + [Chunk(first + |chunks|, Join(" ", window), section.place, None)];
      if end == |words| {
        WindowCountEnd(|words| - start, target, overlap);
        return;
      }
      WindowCountStep(|words| - start, target, overlap);
      start := end - Min(overlap, end - start - 1);
      StartStep(k, target, overlap);
      k := k + 1;
    }
  }

  method ChunkWordWindows(sections: seq<Section>, target: nat, overlap: nat) returns (chunks: seq<Chunk>)
    requires target >= 1
    ensures chunks == ChunksOf(sections, target, overlap)
  {
    chunks := [];
    for i := 0 to |sections|
      invariant chunks == ChunksOf(sections[..i], target, overlap)
    {
      assert sections[..i + 1][..i] == sections[..i];
      var more := ChunkSection(sections[i], target, overlap, |chunks|);
      chunks := chunks + more;
    }
    assert sections[..|sections|] == sections;
  }

  /** How many chunks the sections give. */
  function Total(sections: seq<Section>, target: nat, overlap: nat): nat
    requires target >= 1
  {
    if sections == [] then 0
    else
      Total(sections[..|sections| - 1], target, overlap)
      + WindowCount(|Split(sections[|sections| - 1].text)|, target, overlap)
  }

  lemma {:induction false} TotalIs(sections: seq<Section>, target: nat, overlap: nat)
    requires target >= 1
    ensures |ChunksOf(sections, target, overlap)| == Total(sections, target, overlap)
  {
    hide WindowCount, Split;
    if sections != [] {
      TotalIs(sections[..|sections| - 1], target, overlap);
    }
  }

  /** Chunk `k` of section `i`: `target` words from the word `k * d` on, or as many as are left, with a space
      between them, where neighbouring windows share `overlap` words, or all but one of a window. It is the last
      one of its section exactly if it reaches the section's end. */
  lemma {:induction false} ChunkReads(sections: seq<Section>, target: nat, overlap: nat, i: nat, k: nat, d: nat, from: nat)
    requires target >= 1 && i < |sections| && k < WindowCount(|Split(sections[i].text)|, target, overlap)
    requires d == (if overlap < target then target - overlap else 1) && from == k * d
    ensures
      var words, at := Split(sections[i].text), Total(sections[..i], target, overlap) + k;
      && from < |words| && (k == WindowCount(|words|, target, overlap) - 1 <==> from + target >= |words|)
      && at < |ChunksOf(sections, target, overlap)|
      && ChunksOf(sections, target, overlap)[at]
         == Chunk(at, Join(" ", if from + target < |words| then words[from..from + target] else words[from..]), sections[i].place, None)
  {
    var words := Split(sections[i].text);
    LastWindow(|words|, target, overlap, k);
    WindowIs(words, k, from, target, overlap);
    hide WindowCount, Split, Start, Join, Numbered, WindowText;
    ChunkAt(sections, target, overlap, i, k);
  }

  lemma {:induction false} ChunkAt(sections: seq<Section>, target: nat, overlap: nat, i: nat, k: nat)
    requires target >= 1 && i < |sections| && k < WindowCount(|Split(sections[i].text)|, target, overlap)
    ensures
      var at := Total(sections[..i], target, overlap) + k;
      && at < |ChunksOf(sections, target, overlap)|
      && ChunksOf(sections, target, overlap)[at]
         == Chunk(at, WindowText(Split(sections[i].text), k, target, overlap), sections[i].place, None)
  {
    hide WindowCount, Split, WindowText;
    var front := sections[..|sections| - 1];
    TotalIs(front, target, overlap);
    if i < |front| {
      assert front[..i] == sections[..i];
      ChunkAt(front, target, overlap, i, k);
    }
  }

  lemma WindowIs(words: seq<string>, k: nat, from: nat, target: nat, overlap: nat)
    requires target >= 1 && Start(k, target, overlap) == from < |words|
    ensures WindowText(words, k, target, overlap)
         == Join(" ", if from + target < |words| then words[from..from + target] else words[from..])
  {
    hide Start;
    assert words[from..] == words[from..|words|];
  }

  lemma WindowCountZero(target: nat, overlap: nat)
    requires target >= 1
    ensures forall n: nat :: WindowCount(n, target, overlap) == 0 <==> n == 0
  {
  }

  // -------------------------------------------------------------- round trip

  /** Reading the windows back: the words of the first, then those of each later one without
      the words it repeats. */
  function Rebuilt(texts: seq<string>, repeated: nat): seq<string> {
    if texts == [] then []
    else if |texts| == 1 then Split(texts[0])
    else
      var last := Split(texts[|texts| - 1]);
      Rebuilt(texts[..|texts| - 1], repeated) + (if repeated <= |last| then last[repeated..] else [])
  }

  lemma WindowReads(words: seq<string>, k: nat, target: nat, overlap: nat)
    requires target >= 1 && forall i | 0 <= i < |words| :: IsWord(words[i])
    ensures Split(WindowText(words, k, target, overlap)) == Window(words, k, target, overlap)
  {
    SplitJoin(" ", Window(words, k, target, overlap));
    WordsOfWords(Window(words, k, target, overlap));
  }

  /** Every window but the last is full, and the windows reach the end of the words. */
  lemma {:induction false} LastWindow(n: nat, target: nat, overlap: nat, k: nat)
    requires target >= 1 && k < WindowCount(n, target, overlap)
    ensures var start := Start(k, target, overlap);
      && start < n
      && (k > 0 ==> start + target - Stride(target, overlap) < n)
      && (k == WindowCount(n, target, overlap) - 1 <==> start + target >= n)
  {
    if n > target {
      WindowCountStep(n, target, overlap);
      if k > 0 {
        var d := Stride(target, overlap);
        LastWindow(n - d, target, overlap, k - 1);
        StartStep(k - 1, target, overlap);
      }
    }
  }

  /** Where the `k`-th window ends. */
  function End(n: nat, k: nat, target: nat, overlap: nat): nat
    requires target >= 1
  {
    Min(Start(k, target, overlap) + target, n)
  }

  /** Without its repeated words, a window starts where the previous one ended. */
  lemma WindowContinues(words: seq<string>, k: nat, target: nat, overlap: nat)
    requires target >= 1 && 1 <= k < WindowCount(|words|, target, overlap)
    ensures var o, n := Min(overlap, target - 1), |words|;
      var window := Window(words, k, target, overlap);
      && o <= |window| && End(n, k - 1, target, overlap) <= End(n, k, target, overlap) <= n
      && window[o..] == words[End(n, k - 1, target, overlap)..End(n, k, target, overlap)]
  {
    hide Start, WindowCount;
    LastWindow(|words|, target, overlap, k - 1);
    LastWindow(|words|, target, overlap, k);
    StartStep(k - 1, target, overlap);
  }

  lemma FirstWindow(words: seq<string>, target: nat, overlap: nat)
    requires target >= 1 && words != []
    ensures Window(words, 0, target, overlap) == words[..End(|words|, 0, target, overlap)]
  {
    StartStep(0, target, overlap);
  }

  lemma RebuiltLast(texts: seq<string>, repeated: nat)
    requires texts != []
    ensures var last := Split(texts[|texts| - 1]);
      Rebuilt(texts, repeated) ==
        if |texts| == 1 then last
        else Rebuilt(texts[..|texts| - 1], repeated) + (if repeated <= |last| then last[repeated..] else [])
  {
  }

  lemma {:induction false} RebuiltPrefix(words: seq<string>, target: nat, overlap: nat, count: nat)
    requires target >= 1 && forall i | 0 <= i < |words| :: IsWord(words[i])
    requires 1 <= count <= WindowCount(|words|, target, overlap)
    ensures Rebuilt(WindowTexts(words, count, target, overlap), Min(overlap, target - 1))
         == words[..End(|words|, count - 1, target, overlap)]
  {
    hide Start, WindowCount, WindowText, WindowTexts, Rebuilt, Split, Window, Stride;
    var texts := WindowTexts(words, count, target, overlap);
    WindowReads(words, count - 1, target, overlap);
    RebuiltLast(texts, Min(overlap, target - 1));
    if count == 1 {
      WindowCountEnd(0, target, overlap);
      FirstWindow(words, target, overlap);
    } else {
      RebuiltPrefix(words, target, overlap, count - 1);
      WindowContinues(words, count - 1, target, overlap);
      assert texts[..count - 1] == WindowTexts(words, count - 1, target, overlap);
    }
  }

  /** A section's words come back from the texts of its chunks, for every target and overlap;
      every chunk has between 1 and `target` words. */
  lemma WindowsRoundTrip(section: Section, target: nat, overlap: nat)
    requires target >= 1
    ensures var words := Split(section.text);
      var texts := WindowTexts(words, WindowCount(|words|, target, overlap), target, overlap);
      && Rebuilt(texts, Min(overlap, target - 1)) == words
      && forall k | 0 <= k < |texts| :: 1 <= Words(texts[k]) <= target
  {
    hide Start, WindowCount, WindowText, WindowTexts, Window, Stride, Rebuilt, Split;
    var words := Split(section.text);
    var count := WindowCount(|words|, target, overlap);
    SplitGivesWords(section.text);
    WindowCountEnd(0, target, overlap);
    if words == [] {
      WindowTextsStep(words, 0, target, overlap);
      NothingRebuilt(Min(overlap, target - 1));
    } else {
      SomeWindow(|words|, target, overlap);
      RebuiltPrefix(words, target, overlap, count);
      LastWindow(|words|, target, overlap, count - 1);
      assert words[..|words|] == words;
    }
    forall k | 0 <= k < count ensures 1 <= Words(WindowText(words, k, target, overlap)) <= target {
      LastWindow(|words|, target, overlap, k);
      WindowReads(words, k, target, overlap);
      WindowSize(words, k, target, overlap);
    }
  }

  lemma SomeWindow(n: nat, target: nat, overlap: nat)
    requires target >= 1 && n >= 1
    ensures WindowCount(n, target, overlap) >= 1
  {
  }

  lemma NothingRebuilt(repeated: nat)
    ensures Rebuilt([], repeated) == []
  {
  }

  lemma WindowSize(words: seq<string>, k: nat, target: nat, overlap: nat)
    requires target >= 1 && Start(k, target, overlap) < |words|
    ensures 1 <= |Window(words, k, target, overlap)| <= target
  {
    hide Start;
  }
}
