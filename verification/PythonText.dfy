/** The part of Python's `str` the modelled code relies on: white space, `strip`, `split`,
    `splitlines` and `join`, and how they undo one another. */
module PythonText {

  // -------------------------------------------------------------- characters

  /** `str.isspace` for one character. */
  predicate IsSpace(c: char) {
    || '\t' <= c <= '\r'
    || '\U{1c}' <= c <= ' '
    || c in {'\U{85}', '\U{a0}', '\U{1680}', '\U{2028}', '\U{2029}', '\U{202f}', '\U{205f}', '\U{3000}'}
    || '\U{2000}' <= c <= '\U{200a}'
  }

  /** The characters at which `str.splitlines` ends a line. */
  predicate IsBreak(c: char) {
    '\n' <= c <= '\r' || '\U{1c}' <= c <= '\U{1e}' || c in {'\U{85}', '\U{2028}', '\U{2029}'}
  }

  /** The code points of the decimal zeros of Unicode 14; nine more digits follow each. */
  predicate IsZero(n: int) {
    n in {
      0x30, 0x660, 0x6f0, 0x7c0, 0x966, 0x9e6, 0xa66, 0xae6, 0xb66, 0xbe6, 0xc66, 0xce6, 0xd66, 0xde6, 0xe50,
      0xed0, 0xf20, 0x1040, 0x1090, 0x17e0, 0x1810, 0x1946, 0x19d0, 0x1a80, 0x1a90, 0x1b50, 0x1bb0, 0x1c40,
      0x1c50, 0xa620, 0xa8d0, 0xa900, 0xa9d0, 0xa9f0, 0xaa50, 0xabf0, 0xff10, 0x104a0, 0x10d30, 0x11066,
      0x110f0, 0x11136, 0x111d0, 0x112f0, 0x11450, 0x114d0, 0x11650, 0x116c0, 0x11730, 0x118e0, 0x11950,
      0x11c50, 0x11d50, 0x11da0, 0x16a60, 0x16ac0, 0x16b50, 0x1d7ce, 0x1d7d8, 0x1d7e2, 0x1d7ec, 0x1d7f6,
      0x1e140, 0x1e2f0, 0x1e950, 0x1fbf0}
  }

  /** The class `\d` of Python's `re` on text. */
  predicate IsDecimal(c: char) {
    var n := c as int;
    || IsZero(n) || IsZero(n - 1) || IsZero(n - 2) || IsZero(n - 3) || IsZero(n - 4)
    || IsZero(n - 5) || IsZero(n - 6) || IsZero(n - 7) || IsZero(n - 8) || IsZero(n - 9)
  }

  /** The code points of white space. */
  lemma SpaceTable(c: char)
    ensures IsSpace(c) <==>
              c as int in {9, 10, 11, 12, 13, 28, 29, 30, 31, 32, 0x85, 0xa0, 0x1680, 0x2000, 0x2001, 0x2002, 0x2003, 0x2004,
                           0x2005, 0x2006, 0x2007, 0x2008, 0x2009, 0x200a, 0x2028, 0x2029, 0x202f, 0x205f, 0x3000}
  {
  }

  lemma BreakTable(c: char)
    ensures IsBreak(c) <==> c as int in {10, 11, 12, 13, 28, 29, 30, 0x85, 0x2028, 0x2029}
  {
  }

  /** The first ten decimal digits; the next are the Arabic-Indic ones. */
  lemma FirstDigits(c: char)
    ensures c as int < 0x660 ==> (IsDecimal(c) <==> '0' <= c <= '9')
    ensures 0x660 <= c as int < 0x6f0 ==> (IsDecimal(c) <==> c as int < 0x66a)
  {
  }

  /** The length of the run of decimal digits at the front of `text`. */
  function DigitRun(text: string): (n: nat)
    ensures n <= |text|
  {
    if text == "" || !IsDecimal(text[0]) then 0 else 1 + DigitRun(text[1..])
  }

  lemma {:induction false} DigitRunIs(text: string)
    ensures forall i | 0 <= i < DigitRun(text) :: IsDecimal(text[i])
    ensures DigitRun(text) < |text| ==> !IsDecimal(text[DigitRun(text)])
  {
    hide IsDecimal;
    if text != "" && IsDecimal(text[0]) {
      DigitRunIs(text[1..]);
      forall i | 1 <= i < DigitRun(text) ensures IsDecimal(text[i]) {
        assert text[1..][i - 1] == text[i];
      }
    }
  }

  /** `not text.strip()`. */
  predicate Blank(text: string) {
    forall i | 0 <= i < |text| :: IsSpace(text[i])
  }

  predicate StartsWith(text: string, prefix: string) {
    |prefix| <= |text| && text[..|prefix|] == prefix
  }

  // ------------------------------------------------------------------- strip

  function LStrip(text: string): (r: string)
    ensures |r| <= |text| && r == text[|text| - |r|..]
  {
    if text != "" && IsSpace(text[0]) then LStrip(text[1..]) else text
  }

  function RStrip(text: string): (r: string)
    ensures |r| <= |text| && r == text[..|r|]
  {
    if text != "" && IsSpace(text[|text| - 1]) then RStrip(text[..|text| - 1]) else text
  }

  function Strip(text: string): string {
    RStrip(LStrip(text))
  }

  lemma {:induction false} LStripIs(text: string)
    ensures forall i | 0 <= i < |text| - |LStrip(text)| :: IsSpace(text[i])
    ensures LStrip(text) != "" ==> !IsSpace(LStrip(text)[0])
  {
    hide IsSpace;
    if text != "" && IsSpace(text[0]) {
      var rest, n := text[1..], |text| - |LStrip(text)|;
      LStripIs(rest);
      hide LStrip;
      forall i | 1 <= i < n ensures IsSpace(text[i]) {
        assert rest[i - 1] == text[i];
      }
    }
  }

  lemma {:induction false} RStripIs(text: string)
    ensures var r := RStrip(text);
      && (forall i | |r| <= i < |text| :: IsSpace(text[i]))
      && (r != "" ==> !IsSpace(r[|r| - 1]))
  {
    hide IsSpace;
    if text != "" && IsSpace(text[|text| - 1]) {
      RStripIs(text[..|text| - 1]);
      forall i | |RStrip(text)| <= i < |text| - 1 ensures IsSpace(text[i]) {
        assert text[..|text| - 1][i] == text[i];
      }
    }
  }

  /** `strip` takes away white space on both sides, and all of it: from `a` on and up to `b`. */
  lemma StripIs(text: string) returns (a: nat, b: nat)
    ensures a <= b <= |text| && Strip(text) == text[a..b]
    ensures (forall i | 0 <= i < a :: IsSpace(text[i])) && (forall i | b <= i < |text| :: IsSpace(text[i]))
    ensures a < b ==> !IsSpace(text[a]) && !IsSpace(text[b - 1])
  {
    hide IsSpace, LStrip, RStrip;
    var left := LStrip(text);
    var both := RStrip(left);
    LStripIs(text);
    RStripIs(left);
    a, b := |text| - |left|, |text| - |left| + |both|;
    forall i | b <= i < |text| ensures IsSpace(text[i]) {
      assert left[i - a] == text[i];
    }
    if a < b {
      assert both[0] == left[0] == text[a] && both[|both| - 1] == left[|both| - 1] == text[b - 1];
    }
  }

  /** `lstrip` finds the one place where the white space in front ends. */
  lemma {:induction false} LStripAt(text: string, n: nat)
    requires n < |text| && (forall i | 0 <= i < n :: IsSpace(text[i])) && !IsSpace(text[n])
    ensures LStrip(text) == text[n..]
  {
    hide IsSpace;
    if n > 0 {
      assert text[1..][n - 1] == text[n];
      LStripAt(text[1..], n - 1);
    }
  }

  // ------------------------------------------------------------------- split

  /** The length of the white-space-free run at the front of `text`. */
  function WordLength(text: string): (n: nat)
    ensures n <= |text| && (forall i | 0 <= i < n :: !IsSpace(text[i]))
    ensures n < |text| ==> IsSpace(text[n])
  {
    if text == "" || IsSpace(text[0]) then 0 else 1 + WordLength(text[1..])
  }

  /** `text.split()`: the maximal runs of characters that are not white space. */
  function Split(text: string): seq<string>
    decreases |text|
  {
    if text == "" then []
    else if IsSpace(text[0]) then Split(text[1..])
    else [text[..WordLength(text)]] + Split(text[WordLength(text)..])
  }

  function Words(text: string): nat {
    |Split(text)|
  }

  predicate IsWord(text: string) {
    text != "" && forall i | 0 <= i < |text| :: !IsSpace(text[i])
  }

  lemma {:induction false} SplitGivesWords(text: string)
    ensures forall i | 0 <= i < |Split(text)| :: IsWord(Split(text)[i])
    decreases |text|
  {
    if text != "" {
      SplitGivesWords(if IsSpace(text[0]) then text[1..] else text[WordLength(text)..]);
    }
  }

  lemma WordLengthBefore(a: string, c: char, b: string)
    requires IsSpace(c)
    ensures WordLength(a + [c] + b) == WordLength(a)
  {
    assert (a + [c] + b)[|a|] == c;
    assert forall i | 0 <= i < |a| :: (a + [c] + b)[i] == a[i];
  }

  /** A white-space character separates words, whatever stands on its two sides. */
  lemma {:induction false} SplitAtSpace(a: string, c: char, b: string)
    requires IsSpace(c)
    ensures Split(a + [c] + b) == Split(a) + Split(b)
    decreases |a|
  {
    var t := a + [c] + b;
    if a == "" {
      assert t[1..] == b;
    } else if IsSpace(a[0]) {
      assert t[1..] == a[1..] + [c] + b;
      SplitAtSpace(a[1..], c, b);
    } else {
      var n := WordLength(a);
      WordLengthBefore(a, c, b);
      assert t[..n] == a[..n] && t[n..] == a[n..] + [c] + b;
      SplitAtSpace(a[n..], c, b);
      assert Split(t) == [t[..n]] + Split(t[n..]);
      assert Split(a) == [a[..n]] + Split(a[n..]);
    }
  }

  lemma {:induction false} SplitAcross(a: string, sep: string, b: string)
    requires sep != "" && Blank(sep)
    ensures Split(a + sep + b) == Split(a) + Split(b)
    decreases |sep|
  {
    if |sep| == 1 {
      SplitAtSpace(a, sep[0], b);
      assert a + sep + b == a + [sep[0]] + b;
    } else {
      SplitAtSpace(a, sep[0], sep[1..] + b);
      assert a + sep + b == a + [sep[0]] + (sep[1..] + b);
      assert sep[1..] + b == "" + sep[1..] + b;
      SplitAcross("", sep[1..], b);
    }
  }

  lemma SplitWord(word: string)
    requires IsWord(word)
    ensures Split(word) == [word]
  {
    assert WordLength(word) == |word|;
    assert word[..|word|] == word && word[|word|..] == "";
  }

  lemma {:induction false} SplitBlank(text: string)
    ensures Split(text) == [] <==> Blank(text)
  {
    if text != "" && IsSpace(text[0]) {
      SplitBlank(text[1..]);
      assert Blank(text) <==> Blank(text[1..]);
    }
  }

  lemma {:induction false} SplitLStrip(text: string)
    ensures Split(LStrip(text)) == Split(text)
  {
    if text != "" && IsSpace(text[0]) {
      SplitLStrip(text[1..]);
    }
  }

  lemma {:induction false} SplitRStrip(text: string)
    ensures Split(RStrip(text)) == Split(text)
  {
    if text != "" && IsSpace(text[|text| - 1]) {
      var n := |text| - 1;
      SplitRStrip(text[..n]);
      SplitAtSpace(text[..n], text[n], "");
      assert text == text[..n] + [text[n]] + "";
    }
  }

  lemma SplitStrip(text: string)
    ensures Split(Strip(text)) == Split(text)
  {
    SplitLStrip(text);
    SplitRStrip(LStrip(text));
  }

  // -------------------------------------------------------------------- join

  function Join(sep: string, parts: seq<string>): string {
    if parts == [] then "" else if |parts| == 1 then parts[0] else parts[0] + sep + Join(sep, parts[1..])
  }

  function Flat<T>(parts: seq<seq<T>>): seq<T> {
    if parts == [] then [] else parts[0] + Flat(parts[1..])
  }

  lemma {:induction false} FlatAppend<T>(a: seq<seq<T>>, b: seq<seq<T>>)
    ensures Flat(a + b) == Flat(a) + Flat(b)
  {
    if a == [] {
      assert a + b == b;
    } else {
      FlatAppend(a[1..], b);
      assert (a + b)[1..] == a[1..] + b && (a + b)[0] == a[0];
      assert a[0] + Flat(a[1..] + b) == a[0] + Flat(a[1..]) + Flat(b);
    }
  }

  lemma FlatSnoc<T>(a: seq<seq<T>>, x: seq<T>)
    ensures Flat(a + [x]) == Flat(a) + x
  {
    FlatAppend(a, [x]);
    assert [x][1..] == [] && Flat([x]) == x + [];
  }

  /** The words of every part, in order. */
  function WordsOf(parts: seq<string>): seq<string> {
    if parts == [] then [] else Split(parts[0]) + WordsOf(parts[1..])
  }

  lemma {:induction false} WordsOfAppend(a: seq<string>, b: seq<string>)
    ensures WordsOf(a + b) == WordsOf(a) + WordsOf(b)
  {
    if a == [] {
      assert a + b == b;
    } else {
      WordsOfAppend(a[1..], b);
      assert (a + b)[1..] == a[1..] + b && (a + b)[0] == a[0];
    }
  }

  lemma WordsOfOne(x: string)
    ensures WordsOf([x]) == Split(x)
  {
    assert [x][1..] == [];
    assert Split(x) + [] == Split(x);
  }

  /** Joining with white space keeps the words of the parts. */
  lemma {:induction false} SplitJoin(sep: string, parts: seq<string>)
    requires sep != "" && Blank(sep)
    ensures Split(Join(sep, parts)) == WordsOf(parts)
  {
    if |parts| == 1 {
      WordsOfOne(parts[0]);
      assert parts == [parts[0]];
    } else if |parts| > 1 {
      SplitJoin(sep, parts[1..]);
      SplitAcross(parts[0], sep, Join(sep, parts[1..]));
    }
  }

  lemma {:induction false} WordsOfWords(words: seq<string>)
    requires forall i | 0 <= i < |words| :: IsWord(words[i])
    ensures WordsOf(words) == words
  {
    if words != [] {
      SplitWord(words[0]);
      WordsOfWords(words[1..]);
      assert words == [words[0]] + words[1..];
    }
  }

  lemma {:induction false} JoinAppend(sep: string, a: seq<string>, b: seq<string>)
    requires a != [] && b != []
    ensures Join(sep, a + b) == Join(sep, a) + sep + Join(sep, b)
  {
    if |a| == 1 {
      assert (a + b)[1..] == b;
    } else {
      JoinAppend(sep, a[1..], b);
      assert (a + b)[1..] == a[1..] + b;
      assert a[0] + sep + (Join(sep, a[1..]) + sep + Join(sep, b)) == a[0] + sep + Join(sep, a[1..]) + sep + Join(sep, b);
    }
  }

  // -------------------------------------------------------------- splitlines

  function LineLength(text: string): (n: nat)
    ensures n <= |text| && (forall i | 0 <= i < n :: !IsBreak(text[i]))
    ensures n < |text| ==> IsBreak(text[n])
  {
    if text == "" || IsBreak(text[0]) then 0 else 1 + LineLength(text[1..])
  }

  /** The rest of a text whose first line is `n` characters long; "\r\n" is one break. */
  function AfterLine(text: string, n: nat): (rest: string)
    requires n <= |text|
    ensures text != "" ==> n < |text| || rest == ""
    ensures n < |text| ==> |rest| < |text| && rest == text[|text| - |rest|..]
  {
    if n == |text| then ""
    else if text[n] == '\r' && n + 1 < |text| && text[n + 1] == '\n' then text[n + 2..]
    else text[n + 1..]
  }

  /** `text.splitlines()`. */
  function SplitLines(text: string): seq<string>
    decreases |text|
  {
    if text == "" then []
    else [text[..LineLength(text)]] + SplitLines(AfterLine(text, LineLength(text)))
  }

  predicate IsLine(text: string) {
    forall i | 0 <= i < |text| :: !IsBreak(text[i])
  }

  ghost predicate AreLines(lines: seq<string>) {
    forall i | 0 <= i < |lines| :: IsLine(lines[i])
  }

  lemma {:induction false} SplitLinesGivesLines(text: string)
    ensures AreLines(SplitLines(text))
    decreases |text|
  {
    if text != "" {
      SplitLinesGivesLines(AfterLine(text, LineLength(text)));
    }
  }

  /** `splitlines` undoes joining with "\n" unless the last line is empty. */
  lemma {:induction false} SplitLinesJoin(lines: seq<string>)
    requires lines != [] && AreLines(lines) && lines[|lines| - 1] != ""
    ensures SplitLines(Join("\n", lines)) == lines
  {
    var text := Join("\n", lines);
    var n := |lines[0]|;
    if |lines| == 1 {
      assert LineLength(text) == n;
      assert text[..n] == text;
      assert lines == [lines[0]];
    } else {
      assert text[n] == '\n' && forall i | 0 <= i < n :: text[i] == lines[0][i];
      assert LineLength(text) == n;
      assert text[..n] == lines[0] && text[n + 1..] == Join("\n", lines[1..]);
      SplitLinesJoin(lines[1..]);
      assert lines == [lines[0]] + lines[1..];
    }
  }

  /** A line ends at its first break; "\r\n" is one. */
  lemma SplitLinesAt(line: string, sep: string, rest: string)
    requires IsLine(line)
    requires sep == "\r\n" || (|sep| == 1 && IsBreak(sep[0]) && (sep == "\r" ==> rest == "" || rest[0] != '\n'))
    ensures SplitLines(line + sep + rest) == [line] + SplitLines(rest)
    ensures line != "" ==> SplitLines(line) == [line]
  {
    var text := line + sep + rest;
    assert text[|line|] == sep[0] && forall i | 0 <= i < |line| :: text[i] == line[i];
    assert LineLength(text) == |line| && text[..|line|] == line;
    assert sep == "\r\n" ==> text[|line| + 1] == '\n';
    assert |sep| == 1 && rest != "" ==> text[|line| + 1] == rest[0];
    assert text[|line| + |sep|..] == rest;
    assert AfterLine(text, |line|) == rest;
    if line != "" {
      assert LineLength(line) == |line| && line[..|line|] == line;
    }
  }

  lemma BreakBetween(text: string, n: nat) returns (sep: string)
    requires n < |text| && IsBreak(text[n])
    ensures sep != "" && Blank(sep) && text == text[..n] + sep + AfterLine(text, n)
  {
    var rest := AfterLine(text, n);
    sep := text[n..|text| - |rest|];
    assert text[|text| - |rest|..] == rest;
    assert |sep| == 2 ==> sep[1] == text[n + 1];
    assert sep[0] == text[n];
  }

  /** Line breaks are white space: splitting into lines keeps the words. */
  lemma {:induction false} SplitByLines(text: string)
    ensures WordsOf(SplitLines(text)) == Split(text)
    decreases |text|
  {
    if text != "" {
      var n := LineLength(text);
      var rest := AfterLine(text, n);
      SplitByLines(rest);
      assert SplitLines(text)[0] == text[..n] && SplitLines(text)[1..] == SplitLines(rest);
      if n == |text| {
        assert text[..n] == text;
        assert Split(text) + [] == Split(text);
      } else {
        var sep := BreakBetween(text, n);
        SplitAcross(text[..n], sep, rest);
      }
    }
  }
}
