/** The incremental filter that keeps a model's reasoning blocks out of a streamed answer. */
module ReasoningFilter {
  import opened Options

  // -------------------------------------------------------------------- tags

  const NAMES: seq<string> := ["think", "thinking", "analysis", "reasoning"]

  /** `c` matches the lower-case pattern character `p` under re.IGNORECASE, with the four
      non-ASCII letters whose case folds to an ASCII letter. */
  predicate Same(c: char, p: char) {
    || c == p
    || ('a' <= p <= 'z' && 'A' <= c <= 'Z' && c as int + 32 == p as int)
    || (p == 'i' && c in {'\U{130}', '\U{131}'})
    || (p == 'k' && c == '\U{212a}')
    || (p == 's' && c == '\U{17f}')
  }

  function Tag(name: string, closing: bool): string {
    (if closing then "</" else "<") + name + ">"
  }

  predicate Begins(s: string, tag: string) {
    |tag| <= |s| && forall k | 0 <= k < |tag| :: Same(s[k], tag[k])
  }

  /** The length of the tag at the front of `s`, or 0. */
  function TagLength(s: string, closing: bool): nat {
    if Begins(s, Tag(NAMES[0], closing)) then |Tag(NAMES[0], closing)|
    else if Begins(s, Tag(NAMES[1], closing)) then |Tag(NAMES[1], closing)|
    else if Begins(s, Tag(NAMES[2], closing)) then |Tag(NAMES[2], closing)|
    else if Begins(s, Tag(NAMES[3], closing)) then |Tag(NAMES[3], closing)|
    else 0
  }

  lemma TagShape(name: string, closing: bool)
    requires name in NAMES
    ensures var tag := Tag(name, closing);
      && 7 <= |tag| <= 12 && tag[0] == '<' && tag[|tag| - 1] == '>'
      && (forall k | 0 < k < |tag| :: tag[k] != '<') && (forall k | 0 <= k < |tag| - 1 :: tag[k] != '>')
  {
    assert forall k | 0 <= k < |name| :: name[k] != '<' && name[k] != '>';
  }

  lemma WhichTag(s: string, closing: bool) returns (name: string)
    requires TagLength(s, closing) > 0
    ensures name in NAMES && Begins(s, Tag(name, closing)) && TagLength(s, closing) == |Tag(name, closing)|
  {
    name := if Begins(s, Tag(NAMES[0], closing)) then NAMES[0]
            else if Begins(s, Tag(NAMES[1], closing)) then NAMES[1]
            else if Begins(s, Tag(NAMES[2], closing)) then NAMES[2]
            else NAMES[3];
  }

  lemma SomeTag(s: string, name: string, closing: bool)
    requires name in NAMES && Begins(s, Tag(name, closing))
    ensures TagLength(s, closing) > 0
  {
    TagShape(NAMES[0], closing);
    TagShape(NAMES[1], closing);
    TagShape(NAMES[2], closing);
    TagShape(NAMES[3], closing);
  }

  /** A tag runs from a '<' to the next '>' with no other '<' on the way, within 12 characters. */
  lemma TagFacts(s: string, closing: bool)
    requires TagLength(s, closing) > 0
    ensures var n := TagLength(s, closing);
      && 7 <= n <= 12 && n <= |s| && s[0] == '<' && s[n - 1] == '>'
      && (forall k | 0 < k < n :: s[k] != '<') && (forall k | 0 <= k < n - 1 :: s[k] != '>')
  {
    var name := WhichTag(s, closing);
    TagShape(name, closing);
    var tag := Tag(name, closing);
    assert forall k | 0 <= k < |tag| :: Same(s[k], tag[k]);
  }

  /** Text that follows neither removes a tag nor changes its length: it ends at the first '>'. */
  lemma TagExtends(s: string, rest: string, closing: bool)
    requires TagLength(s, closing) > 0
    ensures TagLength(s + rest, closing) == TagLength(s, closing)
  {
    TagFacts(s, closing);
    var name := WhichTag(s, closing);
    var tag := Tag(name, closing);
    assert forall k | 0 <= k < |tag| :: (s + rest)[k] == s[k];
    SomeTag(s + rest, name, closing);
    TagFacts(s + rest, closing);
    var n, m := TagLength(s + rest, closing), TagLength(s, closing);
    assert (s + rest)[m - 1] == '>';
    assert forall k | 0 <= k < m :: (s + rest)[k] == s[k];
  }

  lemma TagWithin(s: string, rest: string, closing: bool)
    requires 0 < TagLength(s + rest, closing) <= |s|
    ensures TagLength(s, closing) > 0
  {
    var name := WhichTag(s + rest, closing);
    var tag := Tag(name, closing);
    assert forall k | 0 <= k < |tag| :: (s + rest)[k] == s[k];
    SomeTag(s, name, closing);
  }

  /** A tag that appears only once more text arrives must reach past the old end. */
  lemma NewTagReachesPast(s: string, rest: string, closing: bool)
    requires TagLength(s, closing) == 0 && TagLength(s + rest, closing) > 0
    ensures TagLength(s + rest, closing) > |s|
  {
    if TagLength(s + rest, closing) <= |s| {
      TagWithin(s, rest, closing);
    }
  }

  // ------------------------------------------------ which texts are tags

  /** In any mixture of cases; re.IGNORECASE adds the dotted and the dotless i, the Kelvin sign and the long s. */
  ghost predicate IsThink(w: string) {
    |w| == 5 && w[0] in {'t', 'T'} && w[1] in {'h', 'H'} && w[2] in {'i', 'I', '\U{130}', '\U{131}'} && w[3] in {'n', 'N'}
    && w[4] in {'k', 'K', '\U{212a}'}
  }

  ghost predicate IsThinking(w: string) {
    |w| == 8 && w[0] in {'t', 'T'} && w[1] in {'h', 'H'} && w[2] in {'i', 'I', '\U{130}', '\U{131}'} && w[3] in {'n', 'N'}
    && w[4] in {'k', 'K', '\U{212a}'} && w[5] in {'i', 'I', '\U{130}', '\U{131}'} && w[6] in {'n', 'N'} && w[7] in {'g', 'G'}
  }

  ghost predicate IsAnalysis(w: string) {
    |w| == 8 && w[0] in {'a', 'A'} && w[1] in {'n', 'N'} && w[2] in {'a', 'A'} && w[3] in {'l', 'L'} && w[4] in {'y', 'Y'}
    && w[5] in {'s', 'S', '\U{17f}'} && w[6] in {'i', 'I', '\U{130}', '\U{131}'} && w[7] in {'s', 'S', '\U{17f}'}
  }

  ghost predicate IsReasoning(w: string) {
    |w| == 9 && w[0] in {'r', 'R'} && w[1] in {'e', 'E'} && w[2] in {'a', 'A'} && w[3] in {'s', 'S', '\U{17f}'}
    && w[4] in {'o', 'O'} && w[5] in {'n', 'N'} && w[6] in {'i', 'I', '\U{130}', '\U{131}'} && w[7] in {'n', 'N'}
    && w[8] in {'g', 'G'}
  }

  ghost predicate IsName(w: string) {
    IsThink(w) || IsThinking(w) || IsAnalysis(w) || IsReasoning(w)
  }

  /** `text` is a tag: an open one is "<", a name and ">", and a close one begins with "</". */
  ghost predicate IsTag(text: string, closing: bool) {
    if closing then |text| > 3 && text[0] == '<' && text[1] == '/' && text[|text| - 1] == '>' && IsName(text[2..|text| - 1])
    else |text| > 2 && text[0] == '<' && text[|text| - 1] == '>' && IsName(text[1..|text| - 1])
  }

  ghost predicate Spells(w: string, name: string) {
    |w| == |name| && forall k | 0 <= k < |name| :: Same(w[k], name[k])
  }

  lemma NamesSpelled(w: string)
    ensures Spells(w, "think") <==> IsThink(w)
    ensures Spells(w, "thinking") <==> IsThinking(w)
    ensures Spells(w, "analysis") <==> IsAnalysis(w)
    ensures Spells(w, "reasoning") <==> IsReasoning(w)
  {
  }

  lemma TagSpelled(text: string, name: string, closing: bool)
    requires |text| == |Tag(name, closing)| && |name| > 0
    ensures var open := if closing then 2 else 1;
      Begins(text, Tag(name, closing)) <==>
        text[0] == '<' && (closing ==> text[1] == '/') && text[|text| - 1] == '>' && Spells(text[open..|text| - 1], name)
  {
    hide Same;
    var tag := Tag(name, closing);
    var open := if closing then 2 else 1;
    SameSign('<');
    SameSign('/');
    SameSign('>');
    assert forall k | 0 <= k < |name| :: tag[open + k] == name[k] && text[open..|text| - 1][k] == text[open + k];
    if Begins(text, tag) {
      forall k | 0 <= k < |name| ensures Same(text[open..|text| - 1][k], name[k]) {
        assert Same(text[open + k], tag[open + k]);
      }
    }
    if text[0] == '<' && (closing ==> text[1] == '/') && text[|text| - 1] == '>' && Spells(text[open..|text| - 1], name) {
      forall k | 0 <= k < |tag| ensures Same(text[k], tag[k]) {
        if open <= k < |tag| - 1 {
          assert tag[k] == name[k - open] && text[open..|text| - 1][k - open] == text[k];
        }
      }
    }
  }

  lemma SameSign(p: char)
    requires p in {'<', '/', '>'}
    ensures forall c :: Same(c, p) <==> c == p
  {
  }

  lemma NamedLength(s: string, name: string, closing: bool)
    requires name in NAMES && Begins(s, Tag(name, closing))
    ensures TagLength(s, closing) == |Tag(name, closing)|
  {
    var tag := Tag(name, closing);
    SomeTag(s, name, closing);
    TagFacts(s, closing);
    TagShape(name, closing);
    assert forall k | 0 <= k < |tag| :: Same(s[k], tag[k]);
    assert s[|tag| - 1] == '>' && forall k | 0 <= k < |tag| - 1 :: s[k] != '>';
  }

  lemma NameOf(w: string) returns (name: string)
    requires IsName(w)
    ensures name in NAMES && Spells(w, name) && |name| > 0
  {
    hide Spells, IsThink, IsThinking, IsAnalysis, IsReasoning;
    NamesSpelled(w);
    name := if IsThink(w) then NAMES[0] else if IsThinking(w) then NAMES[1] else if IsAnalysis(w) then NAMES[2] else NAMES[3];
  }

  lemma SpelledName(w: string, name: string)
    requires name in NAMES && Spells(w, name)
    ensures IsName(w)
  {
    hide Spells, IsThink, IsThinking, IsAnalysis, IsReasoning;
    NamesSpelled(w);
    assert name == "think" || name == "thinking" || name == "analysis" || name == "reasoning";
  }

  /** What the filter takes for a tag at the front of a text is what the words say, no more and no less. */
  lemma TagIff(s: string, closing: bool, n: nat)
    requires n <= |s|
    ensures n > 0 && TagLength(s, closing) == n <==> IsTag(s[..n], closing)
  {
    hide Same, IsName, Spells;
    var open := if closing then 2 else 1;
    if n > 0 && TagLength(s, closing) == n {
      var name := WhichTag(s, closing);
      TagShape(name, closing);
      TagSpelled(s[..n], name, closing);
      SpelledName(s[..n][open..n - 1], name);
    }
    if IsTag(s[..n], closing) {
      var name := NameOf(s[..n][open..n - 1]);
      SpelledSize(s[..n][open..n - 1], name);
      TagSpelled(s[..n], name, closing);
      NamedLength(s, name, closing);
    }
  }

  lemma SpelledSize(w: string, name: string)
    requires Spells(w, name)
    ensures |w| == |name|
  {
  }

  // ---------------------------------------------------------- one-pass scan

  /** The reference: drop each open tag through the next close tag, and an unclosed tail. */
  function Scan(s: string, inside: bool): string
    decreases |s|
  {
    if s == [] then []
    else
      var n := TagLength(s, inside);
      if 0 < n <= |s| then Scan(s[n..], !inside)
      else (if inside then [] else [s[0]]) + Scan(s[1..], inside)
  }

  /** No tag starts in the first `m` characters of `s`. */
  ghost predicate Plain(s: string, m: nat, closing: bool) {
    m <= |s| && forall p | 0 <= p < m :: TagLength(s[p..], closing) == 0
  }

  /** Scanning passes over text in which no tag starts: it is kept outside and dropped inside. */
  lemma {:induction false} ScanPlain(s: string, m: nat, inside: bool)
    requires Plain(s, m, inside)
    ensures Scan(s, inside) == (if inside then [] else s[..m]) + Scan(s[m..], inside)
    decreases m
  {
    hide TagLength;
    if m == 0 {
      assert s[0..] == s;
    } else {
      assert s[0..] == s;
      forall p | 0 <= p < m - 1 ensures TagLength(s[1..][p..], inside) == 0 {
        assert s[1..][p..] == s[p + 1..];
      }
      ScanPlain(s[1..], m - 1, inside);
      assert s[1..][m - 1..] == s[m..];
      assert [s[0]] + s[1..][..m - 1] == s[..m];
    }
  }

  // ------------------------------------------------------------- the filter

  /** `pattern.search`: the first place where a tag starts. */
  function Find(s: string, closing: bool): (m: Option<nat>)
    ensures m.None? ==> Plain(s, |s|, closing)
    ensures m.Some? ==> Plain(s, m.value, closing) && m.value < |s| && TagLength(s[m.value..], closing) > 0
  {
    if s == [] then None
    else if TagLength(s, closing) > 0 then
      assert s[0..] == s;
      Some(0)
    else
      var later := Find(s[1..], closing);
      assert s[0..] == s;
      assert forall p | 0 < p <= |s| :: s[p..] == s[1..][p - 1..];
      if later.None? then None else Some(later.value + 1)
  }

  /** `rfind("<")`, with -1 for absent. */
  function LastOpen(s: string): (i: int)
    ensures -1 <= i < |s| && (i >= 0 ==> s[i] == '<') && forall k | i < k < |s| :: s[k] != '<'
  {
    if s == [] then -1
    else if s[|s| - 1] == '<' then |s| - 1
    else LastOpen(s[..|s| - 1])
  }

  datatype Memory = Memory(buffer: string, inside: bool)

  datatype Fed = Fed(output: string, memory: Memory)

  /** What a buffer with a complete tag lets out, and what is left of it. */
  function Before(buffer: string, inside: bool): string
    requires Find(buffer, inside).Some?
  {
    if inside then [] else buffer[..Find(buffer, inside).value]
  }

  function Beyond(buffer: string, inside: bool): (left: string)
    requires Find(buffer, inside).Some?
    ensures |left| < |buffer|
  {
    var m := Find(buffer, inside).value;
    TagFacts(buffer[m..], inside);
    buffer[m + TagLength(buffer[m..], inside)..]
  }

  /** The loop of `feed` up to the point where no tag is left in the buffer. */
  function Drain(buffer: string, inside: bool): (r: Fed)
    ensures Find(r.memory.buffer, r.memory.inside).None?
    decreases |buffer|
  {
    if Find(buffer, inside).None? then Fed([], Memory(buffer, inside))
    else
      var next := Drain(Beyond(buffer, inside), !inside);
      Fed(Before(buffer, inside) + next.output, next.memory)
  }

  /** What is emitted and kept of a buffer without a complete tag. */
  function Trim(memory: Memory, final: bool): Fed {
    var buffer := memory.buffer;
    if memory.inside then
      Fed([], memory.(buffer := if final then [] else if |buffer| > 32 then buffer[|buffer| - 32..] else buffer))
    else if final then Fed(buffer, memory.(buffer := []))
    else
      var possible := LastOpen(buffer);
      if possible < 0 then Fed(buffer, memory.(buffer := []))
      else Fed(buffer[..possible], memory.(buffer := buffer[possible..]))
  }

  function Consume(memory: Memory, value: string, final: bool): Fed {
    var drained := Drain(memory.buffer + value, memory.inside);
    var trimmed := Trim(drained.memory, final);
    Fed(drained.output + trimmed.output, trimmed.memory)
  }

  // ---------------------------------------------------------- nothing is lost

  /** A first tag found in the buffer stays the first tag whatever follows. */
  lemma FirstTagStays(s: string, m: nat, rest: string, closing: bool)
    requires m < |s| && Plain(s, m, closing) && TagLength(s[m..], closing) > 0
    ensures Plain(s + rest, m, closing)
  {
    TagFacts(s[m..], closing);
    forall p | 0 <= p < m ensures TagLength((s + rest)[p..], closing) == 0 {
      assert (s + rest)[p..] == s[p..] + rest;
      assert (s[p..] + rest)[m - p] == s[m] == s[m..][0] == '<';
      if TagLength(s[p..] + rest, closing) > 0 {
        NewTagReachesPast(s[p..], rest, closing);
        TagFacts(s[p..] + rest, closing);
      }
    }
  }

  /** Scanning up to and over the first tag. */
  lemma ScanFirst(s: string, m: nat, inside: bool)
    requires Plain(s, m, inside) && TagLength(s[m..], inside) > 0
    ensures m + TagLength(s[m..], inside) <= |s|
    ensures Scan(s, inside) == (if inside then [] else s[..m]) + Scan(s[m + TagLength(s[m..], inside)..], !inside)
  {
    TagFacts(s[m..], inside);
    ScanPlain(s, m, inside);
    assert s[m..][TagLength(s[m..], inside)..] == s[m + TagLength(s[m..], inside)..];
  }

  lemma ScanBeyond(buffer: string, inside: bool, rest: string)
    requires Find(buffer, inside).Some?
    ensures Scan(buffer + rest, inside) == Before(buffer, inside) + Scan(Beyond(buffer, inside) + rest, !inside)
  {
    hide TagLength, Scan;
    var m := Find(buffer, inside).value;
    var n := TagLength(buffer[m..], inside);
    TagFacts(buffer[m..], inside);
    FirstTagStays(buffer, m, rest, inside);
    assert (buffer + rest)[m..] == buffer[m..] + rest && (buffer + rest)[..m] == buffer[..m];
    TagExtends(buffer[m..], rest, inside);
    ScanFirst(buffer + rest, m, inside);
    assert (buffer + rest)[m + n..] == buffer[m + n..] + rest;
  }

  lemma {:induction false} DrainKeepsMeaning(buffer: string, inside: bool, rest: string)
    ensures var r := Drain(buffer, inside);
      Scan(buffer + rest, inside) == r.output + Scan(r.memory.buffer + rest, r.memory.inside)
    decreases |buffer|
  {
    hide TagLength, Scan, Find, Before, Beyond;
    if Find(buffer, inside).Some? {
      ScanBeyond(buffer, inside, rest);
      DrainKeepsMeaning(Beyond(buffer, inside), !inside, rest);
    }
  }

  /** No tag can start in the part of the buffer that is not kept, whatever follows. */
  lemma DroppedPartIsPlain(s: string, inside: bool, m: nat, rest: string)
    requires Find(s, inside).None? && m <= |s|
    requires if inside then m + 12 <= |s| || m == 0 else m == |s| || s[m] == '<'
    requires !inside && m == |s| ==> forall k | 0 <= k < |s| :: s[k] != '<'
    ensures Plain(s + rest, m, inside)
  {
    forall p | 0 <= p < m ensures TagLength((s + rest)[p..], inside) == 0 {
      assert (s + rest)[p..] == s[p..] + rest;
      assert (s[p..] + rest)[0] == s[p] && (m < |s| ==> (s[p..] + rest)[m - p] == s[m]);
      if TagLength(s[p..] + rest, inside) > 0 {
        NewTagReachesPast(s[p..], rest, inside);
        TagFacts(s[p..] + rest, inside);
      }
    }
  }

  /** The two windows are wide enough: from the last '<' outside, 32 characters inside. */
  lemma TrimKeepsMeaning(memory: Memory, rest: string)
    requires Find(memory.buffer, memory.inside).None?
    ensures var r := Trim(memory, false);
      r.memory.inside == memory.inside
      && Scan(memory.buffer + rest, memory.inside) == r.output + Scan(r.memory.buffer + rest, memory.inside)
  {
    hide TagLength, Scan;
    var s := memory.buffer;
    var m: nat := if memory.inside then (if |s| > 32 then |s| - 32 else 0)
                  else if LastOpen(s) < 0 then |s| else LastOpen(s);
    DroppedPartIsPlain(s, memory.inside, m, rest);
    ScanPlain(s + rest, m, memory.inside);
    assert (s + rest)[m..] == s[m..] + rest && (s + rest)[..m] == s[..m];
    assert s[0..] == s && s[|s|..] == [] && s[..|s|] == s && s[..0] == [];
  }

  /** A feed in the middle of the stream: what is still to be scanned is unchanged. */
  lemma FeedKeepsMeaning(memory: Memory, value: string, rest: string)
    ensures var r := Consume(memory, value, false);
      Scan(memory.buffer + value + rest, memory.inside) == r.output + Scan(r.memory.buffer + rest, r.memory.inside)
  {
    hide Drain, Trim, Scan, Find;
    var drained := Drain(memory.buffer + value, memory.inside);
    DrainKeepsMeaning(memory.buffer + value, memory.inside, rest);
    TrimKeepsMeaning(drained.memory, rest);
  }

  lemma FinalFlush(memory: Memory, value: string)
    ensures Consume(memory, value, true).output == Scan(memory.buffer + value, memory.inside)
    ensures Consume(memory, value, true).memory.buffer == []
  {
    var drained := Drain(memory.buffer + value, memory.inside);
    DrainKeepsMeaning(memory.buffer + value, memory.inside, []);
    assert memory.buffer + value + [] == memory.buffer + value;
    var s := drained.memory.buffer;
    ScanPlain(s, |s|, drained.memory.inside);
    assert s + [] == s && s[|s|..] == [] && s[..|s|] == s;
  }

  /** Nothing is held back without need: outside no more than a last '<' with what follows it, and inside 32 characters. */
  lemma FeedIsPrompt(memory: Memory, value: string)
    ensures var left := Consume(memory, value, false).memory;
      if left.inside then |left.buffer| <= 32
      else left.buffer == [] || (left.buffer[0] == '<' && forall k | 0 < k < |left.buffer| :: left.buffer[k] != '<')
  {
    hide Drain, Find;
  }

  function Joined(parts: seq<string>): string {
    if parts == [] then [] else parts[0] + Joined(parts[1..])
  }

  /** What a stream of chunks emits, with the closing `feed("", final=True)`. */
  function Stream(memory: Memory, chunks: seq<string>): string
    decreases |chunks|
  {
    if chunks == [] then Consume(memory, [], true).output
    else
      var r := Consume(memory, chunks[0], false);
      r.output + Stream(r.memory, chunks[1..])
  }

  lemma {:induction false} StreamIsScan(memory: Memory, chunks: seq<string>)
    ensures Stream(memory, chunks) == Scan(memory.buffer + Joined(chunks), memory.inside)
    decreases |chunks|
  {
    hide TagLength, Scan, Consume, Drain;
    if chunks == [] {
      FinalFlush(memory, []);
    } else {
      var r := Consume(memory, chunks[0], false);
      FeedKeepsMeaning(memory, chunks[0], Joined(chunks[1..]));
      StreamIsScan(r.memory, chunks[1..]);
      assert memory.buffer + Joined(chunks) == memory.buffer + chunks[0] + Joined(chunks[1..]);
    }
  }

  /** Streaming equals batch: however a text is cut into chunks, a fresh filter emits the
      one-pass scan of the text. */
  lemma StreamingEqualsBatch(chunks: seq<string>)
    ensures Stream(Memory([], false), chunks) == Scan(Joined(chunks), false)
  {
    StreamIsScan(Memory([], false), chunks);
    assert [] + Joined(chunks) == Joined(chunks);
  }

  // ----------------------------------------- what the stream keeps and drops

  /** No stretch of `text` is a tag. */
  ghost predicate Free(text: string, closing: bool) {
    forall p, n | 0 <= p <= n <= |text| :: !IsTag(text[p..n], closing)
  }

  lemma FreeIff(text: string, closing: bool)
    ensures Free(text, closing) <==> Find(text, closing).None?
  {
    hide TagLength, IsTag;
    var found := Find(text, closing);
    if found.Some? {
      var p := found.value;
      var n := TagLength(text[p..], closing);
      TagFacts(text[p..], closing);
      TagIff(text[p..], closing, n);
      assert text[p..][..n] == text[p..p + n];
    } else {
      forall p, n | 0 <= p <= n <= |text| ensures !IsTag(text[p..n], closing) {
        assert text[p..][..n - p] == text[p..n];
        TagIff(text[p..], closing, n - p);
      }
    }
  }

  /** Up to a '<' that is not part of them, texts without a tag stay so whatever follows. */
  lemma PlainBefore(u: string, t: string, closing: bool)
    requires Free(u, closing) && t != [] && t[0] == '<'
    ensures Plain(u + t, |u|, closing)
  {
    hide TagLength, IsTag;
    FreeIff(u, closing);
    forall p | 0 <= p < |u| ensures TagLength((u + t)[p..], closing) == 0 {
      assert (u + t)[p..] == u[p..] + t;
      assert (u[p..] + t)[|u| - p] == t[0];
      if TagLength(u[p..] + t, closing) > 0 {
        NewTagReachesPast(u[p..], t, closing);
        TagFacts(u[p..] + t, closing);
      }
    }
  }

  lemma ScanOver(u: string, tag: string, rest: string, inside: bool)
    requires Free(u, inside) && IsTag(tag, inside)
    ensures Scan(u + tag + rest, inside) == (if inside then [] else u) + Scan(rest, !inside)
  {
    hide TagLength, Scan, Free;
    var s := u + tag + rest;
    assert s == u + (tag + rest);
    PlainBefore(u, tag + rest, inside);
    assert s[|u|..] == tag + rest && (tag + rest)[..|tag|] == tag;
    TagIff(tag + rest, inside, |tag|);
    ScanFirst(s, |u|, inside);
    assert s[|u| + |tag|..] == rest && s[..|u|] == u;
  }

  lemma ScanFree(u: string, inside: bool)
    requires Free(u, inside)
    ensures Scan(u, inside) == if inside then [] else u
  {
    FreeIff(u, inside);
    ScanPlain(u, |u|, inside);
    assert u[..|u|] == u && u[|u|..] == [];
  }

  lemma Regroup(a: string, b: string, c: string)
    ensures a + b + c == a + (b + c)
  {
  }

  lemma ScanBlock(u: string, open: string, x: string, close: string, rest: string)
    requires Free(u, false) && IsTag(open, false) && Free(x, true) && IsTag(close, true)
    ensures Scan(u + open + x + close + rest, false) == u + Scan(rest, false)
  {
    hide IsTag, Free, Scan;
    ScanOver(u, open, x + close + rest, false);
    ScanOver(x, close, rest, true);
    Regroup(u + open, x, close);
    Regroup(u + open, x + close, rest);
  }

  /** However it is cut into chunks: what stands between an open tag and the next close tag is dropped with
      the two, what stands around them is kept, and what follows an open tag that is never closed is dropped. */
  lemma StreamDropsReasoning(chunks: seq<string>, u: string, open: string, x: string, close: string, y: string)
    requires Free(u, false) && IsTag(open, false) && Free(x, true) && IsTag(close, true) && Free(y, false)
    ensures Joined(chunks) == u + open + x + close + y ==> Stream(Memory([], false), chunks) == u + y
    ensures Joined(chunks) == u + open + x ==> Stream(Memory([], false), chunks) == u
    ensures Joined(chunks) == u ==> Stream(Memory([], false), chunks) == u
  {
    hide IsTag, Free, Scan, Stream, Joined;
    StreamingEqualsBatch(chunks);
    ScanBlock(u, open, x, close, y);
    ScanOver(u, open, x, false);
    ScanFree(x, true);
    ScanFree(y, false);
    ScanFree(u, false);
  }

  /** After a close tag the stream goes on as from the beginning. */
  lemma StreamGoesOn(chunks: seq<string>, rest: seq<string>, u: string, open: string, x: string, close: string)
    requires Free(u, false) && IsTag(open, false) && Free(x, true) && IsTag(close, true)
    requires Joined(chunks) == u + open + x + close + Joined(rest)
    ensures Stream(Memory([], false), chunks) == u + Stream(Memory([], false), rest)
  {
    hide IsTag, Free, Scan, Stream, Joined;
    StreamingEqualsBatch(chunks);
    StreamingEqualsBatch(rest);
    ScanBlock(u, open, x, close, Joined(rest));
  }

  lemma {:induction false} ScanLength(s: string, inside: bool)
    ensures |Scan(s, inside)| <= |s|
    ensures inside && s != [] ==> |Scan(s, inside)| < |s|
    decreases |s|
  {
    if s != [] {
      var n := TagLength(s, inside);
      if 0 < n <= |s| {
        ScanLength(s[n..], !inside);
      } else {
        ScanLength(s[1..], inside);
      }
    }
  }

  /** The filter leaves a text alone exactly when the text contains no opening tag. */
  lemma {:induction false} UntouchedIff(s: string)
    ensures Scan(s, false) == s <==> Find(s, false).None?
    ensures Scan(s, false) == s <==> Free(s, false)
  {
    hide Free;
    FreeIff(s, false);
    var found := Find(s, false);
    if found.None? {
      ScanPlain(s, |s|, false);
      assert s[|s|..] == [] && s[..|s|] == s;
    } else {
      var m := found.value;
      TagFacts(s[m..], false);
      ScanPlain(s, m, false);
      ScanLength(s[m..][TagLength(s[m..], false)..], true);
    }
  }

  // --------------------------------------------------------------- the class

  /** `_StreamingReasoningFilter`. */
  class StreamingReasoningFilter {
    var buffer: string
    var inside: bool

    constructor ()
      ensures Contents() == Memory([], false)
    {
      buffer, inside := [], false;
    }

    ghost function Contents(): Memory
      reads this
    {
      Memory(buffer, inside)
    }

    /** One match of the loop: the text before the tag, with the tag taken off the buffer. */
    method TakeTag() returns (found: bool, piece: string)
      modifies this
      ensures found == Find(old(buffer), old(inside)).Some?
      ensures if found
              then piece == Before(old(buffer), old(inside)) && Contents() == Memory(Beyond(old(buffer), old(inside)), !old(inside))
              else piece == [] && Contents() == old(Contents())
    {
      var first := Find(buffer, inside);
      if first.None? {
        return false, [];
      }
      var m := first.value;
      TagFacts(buffer[m..], inside);
      piece := if inside then [] else buffer[..m];
      buffer := buffer[m + TagLength(buffer[m..], inside)..];
      inside := !inside;
      return true, piece;
    }

    /** What happens to a buffer without a tag. */
    method Keep(final: bool) returns (piece: string)
      modifies this
      ensures Fed(piece, Contents()) == Trim(old(Contents()), final)
    {
      piece := [];
      if inside {
        if final {
          buffer := [];
        } else if |buffer| > 32 {
          buffer := buffer[|buffer| - 32..];
        }
      } else if final {
        piece := buffer;
        buffer := [];
      } else {
        var possible := LastOpen(buffer);
        if possible < 0 {
          piece := buffer;
          buffer := [];
        } else if possible > 0 {
          piece := buffer[..possible];
          buffer := buffer[possible..];
        }
      }
    }

    method TakeTags() returns (output: seq<string>)
      modifies this
      ensures Fed(Joined(output), Contents()) == Drain(old(buffer), old(inside))
      ensures [] !in output
    {
      hide Drain, Find, TagLength, LastOpen;
      output := [];
      ghost var all := Drain(buffer, inside);
      while buffer != []
        invariant all.output == Joined(output) + Drain(buffer, inside).output
        invariant all.memory == Drain(buffer, inside).memory
        invariant [] !in output
        decreases |buffer|
      {
        DrainStep(buffer, inside);
        var found, piece := TakeTag();
        if !found {
          return;
        }
        if piece != [] {
          JoinedAppend(output, piece);
          output := output + [piece];
        }
      }
      DrainStep(buffer, inside);
    }

    method Feed(value: string, final: bool) returns (output: seq<string>)
      modifies this
      ensures Fed(Joined(output), Contents()) == Consume(old(Contents()), value, final)
      ensures [] !in output
    {
      buffer := buffer + value;
      output := TakeTags();
      var piece := Keep(final);
      if piece != [] {
        JoinedAppend(output, piece);
        output := output + [piece];
      }
    }
  }

  lemma DrainStep(buffer: string, inside: bool)
    ensures Find(buffer, inside).None? ==> Drain(buffer, inside) == Fed([], Memory(buffer, inside))
    ensures Find(buffer, inside).Some? ==>
              var next := Drain(Beyond(buffer, inside), !inside);
              Drain(buffer, inside) == Fed(Before(buffer, inside) + next.output, next.memory)
    ensures buffer == [] ==> Find(buffer, inside).None?
  {
  }

  lemma {:induction false} JoinedAppend(parts: seq<string>, part: string)
    ensures Joined(parts + [part]) == Joined(parts) + part
  {
    if parts == [] {
      assert parts + [part] == [part];
    } else {
      assert (parts + [part])[1..] == parts[1..] + [part];
      JoinedAppend(parts[1..], part);
    }
  }
}
