/** What fits into a prompt: packing of evidence under a token budget, and the choice of the
    conversation's history. */
module PromptBudget {
  import opened Options
  import opened PythonText

  // ---------------------------------------------------------------- estimates

  /** A quarter of the length, rounded up, and at least 1. */
  function Estimate(text: string): (n: nat)
    ensures 1 <= n && |text| <= 4 * n
    ensures n == 1 || 4 * (n - 1) < |text|
  {
    if text == "" then 1 else (|text| + 3) / 4
  }

  function Estimates(texts: seq<string>): nat {
    if texts == [] then 0 else Estimates(texts[..|texts| - 1]) + Estimate(texts[|texts| - 1])
  }

  function Concat(texts: seq<string>): string {
    if texts == [] then "" else Concat(texts[..|texts| - 1]) + texts[|texts| - 1]
  }

  /** Putting texts together never costs more than the texts. */
  lemma SubAdditive(a: string, b: string)
    ensures Estimate(a + b) <= Estimate(a) + Estimate(b)
  {
  }

  lemma {:induction false} ConcatCost(before: string, texts: seq<string>)
    ensures Estimate(before + Concat(texts)) <= Estimate(before) + Estimates(texts)
  {
    if texts == [] {
      assert before + "" == before;
    } else {
      var front, last := texts[..|texts| - 1], texts[|texts| - 1];
      ConcatCost(before, front);
      SubAdditive(before + Concat(front), last);
      assert before + Concat(texts) == before + Concat(front) + last;
    }
  }

  lemma {:induction false} ConcatSplits(a: seq<string>, text: string, b: seq<string>)
    ensures Concat(a + [text] + b) == Concat(a) + text + Concat(b)
    ensures Estimates(a + [text] + b) == Estimates(a) + Estimate(text) + Estimates(b)
  {
    hide Estimate;
    var all := a + [text] + b;
    if b == [] {
      assert all[..|all| - 1] == a && all[|all| - 1] == text;
      assert Concat(a) + text + "" == Concat(a) + text;
    } else {
      var front, last := b[..|b| - 1], b[|b| - 1];
      assert all[..|all| - 1] == a + [text] + front && all[|all| - 1] == last;
      ConcatSplits(a, text, front);
      assert Concat(a) + text + Concat(front) + last == Concat(a) + text + (Concat(front) + last);
    }
  }

  // ------------------------------------------------------------------ numbers

  function Decimal(n: nat): (s: string)
    ensures s != ""
  {
    if n < 10 then [(n as char) + '0'] else Decimal(n / 10) + [((n % 10) as char) + '0']
  }

  function Value(s: string): int {
    if s == "" then 0 else 10 * Value(s[..|s| - 1]) + (s[|s| - 1] as int - '0' as int)
  }

  /** The digits of a number read back as it, without a leading zero. */
  lemma {:induction false} DecimalReads(n: nat)
    ensures Value(Decimal(n)) == n
    ensures forall i | 0 <= i < |Decimal(n)| :: '0' <= Decimal(n)[i] <= '9'
    ensures n > 0 ==> Decimal(n)[0] != '0'
  {
    if n >= 10 {
      DecimalReads(n / 10);
      var s := Decimal(n);
      assert s[..|s| - 1] == Decimal(n / 10);
    } else {
      assert Decimal(n)[..0] == "";
    }
  }

  function Str(n: int): string {
    if n < 0 then "-" + Decimal(-n) else Decimal(n)
  }

  /** "C1", "C2", and so on. */
  function CitationId(n: nat): string {
    "C" + Decimal(n)
  }

  lemma CitationIdsDiffer(m: nat, n: nat)
    ensures CitationId(m) == CitationId(n) ==> m == n
  {
    DecimalReads(m);
    DecimalReads(n);
    assert CitationId(m)[1..] == Decimal(m) && CitationId(n)[1..] == Decimal(n);
  }

  // ------------------------------------------------------------------ builder

  datatype Citation = Citation(
    section: Option<string>, page: Option<int>, sheet: Option<string>, rowStart: Option<int>, rowEnd: Option<int>)

  datatype Evidence = Evidence(title: string, text: string, citation: Citation)

  /** The fixed texts of the prompt. */
  datatype Wording = Wording(policy: string, prior: string, question: string, untrusted: string, requirements: string)

  /** `normal` is the normal form in which evidence is compared, `similar` the comparison of long texts. */
  datatype Builder = Builder(
    wording: Wording, contextWindow: int, reservation: int, maxCharacters: nat,
    maxEvidence: Option<int>, maxTotal: Option<int>, normal: string -> string, similar: (string, string) -> bool)
  {
    /** None and 0 both mean no limit of its own. */
    function EvidenceLimit(): int {
      if maxEvidence.Some? && maxEvidence.value != 0 then maxEvidence.value else contextWindow
    }

    function TotalLimit(): int {
      var own := if maxTotal.Some? && maxTotal.value != 0 then maxTotal.value else contextWindow;
      if own < contextWindow then own else contextWindow
    }

    function FixedUser(question: string, context: string): string {
      (if context != "" then wording.prior + context + "\n\n" else "") + wording.question + question + wording.untrusted
    }

    function FixedTokens(question: string, context: string): int {
      Estimate(wording.policy) + Estimate(FixedUser(question, context)) + Estimate(wording.requirements) + reservation
    }

    function Text(e: Evidence): string {
      Strip(if |e.text| <= maxCharacters then e.text else e.text[..maxCharacters])
    }

    predicate Same(text: string, other: string) {
      || normal(text) == normal(other)
      || (|normal(text)| >= 100 && |normal(other)| >= 100 && similar(normal(text), normal(other)))
    }
  }

  function SourceLines(e: Evidence): seq<string> {
    ["Source: " + e.title]
    + (if e.citation.section.Some? && e.citation.section.value != "" then ["Section: " + e.citation.section.value] else [])
    + (if e.citation.page.Some? then ["Page: " + Str(e.citation.page.value)] else [])
    + (if e.citation.sheet.Some? && e.citation.sheet.value != "" then ["Sheet: " + e.citation.sheet.value] else [])
    + (if e.citation.rowStart.Some? then
         ["Rows: " + Str(e.citation.rowStart.value)
          + if e.citation.rowEnd.Some? && e.citation.rowEnd != e.citation.rowStart
            then "-" + Str(e.citation.rowEnd.value) else ""]
       else [])
  }

  function Block(b: Builder, n: nat, e: Evidence): string {
    "--- BEGIN EVIDENCE " + CitationId(n) + " ---\n" + Join("\n", SourceLines(e)) + "\n\n" + b.Text(e)
    + "\n--- END EVIDENCE " + CitationId(n) + " ---\n\n"
  }

  predicate Among(chosen: seq<int>, n: nat) {
    forall i | 0 <= i < |chosen| :: 0 <= chosen[i] < n
  }

  /** The blocks of the chosen results, numbered from C1 in their order. */
  function Blocks(b: Builder, results: seq<Evidence>, chosen: seq<int>): (r: seq<string>)
    requires Among(chosen, |results|)
    ensures |r| == |chosen|
  {
    if chosen == [] then [] else
      Blocks(b, results, chosen[..|chosen| - 1]) + [Block(b, |chosen|, results[chosen[|chosen| - 1]])]
  }

  /** Result `j` has text and is like none of the chosen ones. */
  predicate Novel(b: Builder, results: seq<Evidence>, chosen: seq<int>, j: nat)
    requires j < |results| && Among(chosen, |results|)
  {
    && b.Text(results[j]) != ""
    && forall i | 0 <= i < |chosen| :: !b.Same(b.Text(results[j]), b.Text(results[chosen[i]]))
  }

  /** Its block fits both budgets. */
  predicate Affordable(b: Builder, fixed: int, results: seq<Evidence>, chosen: seq<int>, j: nat)
    requires j < |results| && Among(chosen, |results|)
  {
    var cost := Estimate(Block(b, |chosen| + 1, results[j]));
    var used := Estimates(Blocks(b, results, chosen));
    fixed + used + cost <= b.TotalLimit() && used + cost <= b.EvidenceLimit()
  }

  predicate Takes(b: Builder, fixed: int, results: seq<Evidence>, chosen: seq<int>, j: nat)
    requires j < |results| && Among(chosen, |results|)
  {
    Novel(b, results, chosen, j) && Affordable(b, fixed, results, chosen, j)
  }

  /** The results taken among the first `n`. */
  function Chosen(b: Builder, fixed: int, results: seq<Evidence>, n: nat): (r: seq<int>)
    requires n <= |results|
    ensures |r| <= n && Among(r, n)
  {
    if n == 0 then [] else
      var before := Chosen(b, fixed, results, n - 1);
      if Takes(b, fixed, results, before, n - 1) then before + [n - 1] else before
  }

  datatype Prompt =
    | PolicyTooLong
    | NoEvidenceFits
    | Prompt(system: string, user: string, citations: map<string, Evidence>, ids: seq<string>, excluded: nat, estimate: nat)

  /** Ids C1..Cn in order, each standing for the result it was given to. */
  ghost predicate Cites(results: seq<Evidence>, chosen: seq<int>, citations: map<string, Evidence>, ids: seq<string>)
    requires Among(chosen, |results|)
  {
    && |ids| == |chosen| && |citations| == |chosen|
    && (forall i | 0 <= i < |chosen| ::
          ids[i] == CitationId(i + 1) && ids[i] in citations && citations[ids[i]] == results[chosen[i]])
    && forall k | k in citations :: k in ids
  }

  lemma OneMore(citations: map<string, Evidence>, id: string, e: Evidence)
    requires id !in citations
    ensures |citations[id := e]| == |citations| + 1
  {
    var after := citations[id := e];
    assert after.Keys == citations.Keys + {id};
    assert |after| == |after.Keys| && |citations| == |citations.Keys|;
  }

  lemma CiteNext(
    results: seq<Evidence>, chosen: seq<int>, citations: map<string, Evidence>, ids: seq<string>, j: nat)
    requires j < |results| && Among(chosen, |results|)
    requires Cites(results, chosen, citations, ids)
    ensures var id := CitationId(|citations| + 1);
      && id !in citations && Cites(results, chosen + [j], citations[id := results[j]], ids + [id])
      && |citations[id := results[j]]| == |chosen| + 1
  {
    hide CitationId, Among;
    var id := CitationId(|citations| + 1);
    forall i | 0 <= i < |ids| ensures ids[i] != id {
      CitationIdsDiffer(i + 1, |citations| + 1);
    }
    AmongNext(chosen, j, |results|);
    OneMore(citations, id, results[j]);
  }

  method IsDuplicate(b: Builder, text: string, included: seq<string>) returns (r: bool)
    ensures r <==> exists i | 0 <= i < |included| ::
              b.normal(text) == included[i]
              || (|b.normal(text)| >= 100 && |included[i]| >= 100 && b.similar(b.normal(text), included[i]))
  {
    for k := 0 to |included|
      invariant forall i | 0 <= i < k ::
                  b.normal(text) != included[i]
                  && !(|b.normal(text)| >= 100 && |included[i]| >= 100 && b.similar(b.normal(text), included[i]))
    {
      if b.normal(text) == included[k] {
        return true;
      }
      if (if |b.normal(text)| <= |included[k]| then |b.normal(text)| else |included[k]|) >= 100
         && b.similar(b.normal(text), included[k]) {
        return true;
      }
    }
    return false;
  }

  /** The normal forms of the chosen texts. */
  ghost predicate NormalsOf(b: Builder, results: seq<Evidence>, chosen: seq<int>, normals: seq<string>)
    requires Among(chosen, |results|)
  {
    |normals| == |chosen| && forall i | 0 <= i < |chosen| :: normals[i] == b.normal(b.Text(results[chosen[i]]))
  }

  lemma NormalsNext(b: Builder, results: seq<Evidence>, chosen: seq<int>, normals: seq<string>, j: nat, after: seq<int>)
    requires Among(chosen, |results|) && Among(after, |results|)
    requires NormalsOf(b, results, chosen, normals) && j < |results| && after == chosen + [j]
    ensures NormalsOf(b, results, after, normals + [b.normal(b.Text(results[j]))])
  {
    hide Strip;
  }

  lemma AmongNext(chosen: seq<int>, j: nat, n: nat)
    requires Among(chosen, n) && j < n
    ensures Among(chosen + [j], n)
  {
  }

  /** The first test of the loop: text that is there and new. */
  method IsNovel(b: Builder, results: seq<Evidence>, ghost chosen: seq<int>, normals: seq<string>, j: nat)
    returns (r: bool)
    requires j < |results| && Among(chosen, |results|) && NormalsOf(b, results, chosen, normals)
    ensures r <==> Novel(b, results, chosen, j)
  {
    hide Strip;
    var text := b.Text(results[j]);
    var duplicate := IsDuplicate(b, text, normals);
    DuplicateIff(b, results, chosen, normals, text);
    r := text != "" && !duplicate;
  }

  lemma TakesIff(b: Builder, fixed: int, results: seq<Evidence>, chosen: seq<int>, j: nat)
    requires j < |results| && Among(chosen, |results|)
    ensures Takes(b, fixed, results, chosen, j) <==>
              var used := Estimates(Blocks(b, results, chosen)) + Estimate(Block(b, |chosen| + 1, results[j]));
              Novel(b, results, chosen, j) && fixed + used <= b.TotalLimit() && used <= b.EvidenceLimit()
  {
    hide Novel, Blocks, Estimates, Estimate, Block;
  }

  /** The loop over the results, under a prompt whose fixed part costs `fixed`. */
  method Pack(b: Builder, fixed: int, results: seq<Evidence>)
    returns (blocks: seq<string>, citations: map<string, Evidence>, ids: seq<string>, excluded: nat)
    ensures var chosen := Chosen(b, fixed, results, |results|);
      && Among(chosen, |results|) && blocks == Blocks(b, results, chosen) && Cites(results, chosen, citations, ids)
      && |citations| == |chosen| && excluded == |results| - |chosen|
  {
    hide Block, CitationId, Estimate, Novel, Takes, Affordable, Chosen, Blocks, Estimates, Cites, NormalsOf, Among, Builder.Text;
    blocks, citations, ids := [], map[], [];
    var normals: seq<string> := [];
    var used, evidence := fixed, 0;
    excluded := 0;
    ghost var chosen: seq<int> := [];
    NothingYet(b, fixed, results);
    for j := 0 to |results|
      invariant chosen == Chosen(b, fixed, results, j) && Among(chosen, |results|)
      invariant blocks == Blocks(b, results, chosen) && evidence == Estimates(blocks) && used == fixed + evidence
      invariant NormalsOf(b, results, chosen, normals) && |citations| == |chosen|
      invariant Cites(results, chosen, citations, ids) && excluded + |chosen| == j
    {
      ChosenStep(b, fixed, results, j + 1);
      TakesIff(b, fixed, results, chosen, j);
      var novel := IsNovel(b, results, chosen, normals, j);
      if !novel {
        excluded := excluded + 1;
        continue;
      }
      var id := CitationId(|citations| + 1);
      var block := Block(b, |citations| + 1, results[j]);
      var cost := Estimate(block);
      if used + cost > b.TotalLimit() || evidence + cost > b.EvidenceLimit() {
        excluded := excluded + 1;
        continue;
      }
      AmongNext(chosen, j, |results|);
      CiteNext(results, chosen, citations, ids, j);
      BlocksNext(b, results, chosen, j);
      EstimatesNext(blocks, block);
      NormalsNext(b, results, chosen, normals, j, chosen + [j]);
      blocks := blocks + [block];
      citations := citations[id := results[j]];
      ids := ids + [id];
      normals := normals + [b.normal(b.Text(results[j]))];
      used, evidence := used + cost, evidence + cost;
      chosen := chosen + [j];
    }
  }

  method Build(b: Builder, question: string, results: seq<Evidence>, context: string) returns (p: Prompt)
    ensures var fixed := b.FixedTokens(question, context);
      var chosen := Chosen(b, fixed, results, |results|);
      && (p.PolicyTooLong? <==> fixed >= b.TotalLimit())
      && (p.NoEvidenceFits? <==> fixed < b.TotalLimit() && chosen == [])
      && (p.Prompt? ==>
            && p.system == b.wording.policy
            && p.user == b.FixedUser(question, context) + Concat(Blocks(b, results, chosen)) + b.wording.requirements
            && Cites(results, chosen, p.citations, p.ids)
            && p.excluded == |results| - |chosen|
            && p.estimate == Estimate(p.system) + Estimate(p.user))
  {
    hide Chosen, Blocks, Cites, Concat, Estimate, Among;
    var fixed := b.FixedTokens(question, context);
    if fixed >= b.TotalLimit() {
      return PolicyTooLong;
    }
    var blocks, citations, ids, excluded := Pack(b, fixed, results);
    if |citations| == 0 {
      return NoEvidenceFits;
    }
    var user := b.FixedUser(question, context) + Concat(blocks) + b.wording.requirements;
    p := Prompt(b.wording.policy, user, citations, ids, excluded, Estimate(b.wording.policy) + Estimate(user));
  }

  lemma NothingYet(b: Builder, fixed: int, results: seq<Evidence>)
    ensures Among([], |results|) && Chosen(b, fixed, results, 0) == [] && Blocks(b, results, []) == [] && Estimates([]) == 0
    ensures Cites(results, [], map[], []) && NormalsOf(b, results, [], []) && Differ(b, results, [])
  {
  }

  lemma DuplicateIff(b: Builder, results: seq<Evidence>, chosen: seq<int>, normals: seq<string>, text: string)
    requires |normals| == |chosen| && Among(chosen, |results|)
    requires forall i | 0 <= i < |chosen| :: normals[i] == b.normal(b.Text(results[chosen[i]]))
    ensures (exists i | 0 <= i < |normals| ::
               b.normal(text) == normals[i]
               || (|b.normal(text)| >= 100 && |normals[i]| >= 100 && b.similar(b.normal(text), normals[i])))
       <==> (exists i | 0 <= i < |chosen| :: b.Same(text, b.Text(results[chosen[i]])))
  {
  }

  lemma BlocksNext(b: Builder, results: seq<Evidence>, chosen: seq<int>, j: nat)
    requires j < |results| && Among(chosen, |results|)
    ensures Blocks(b, results, chosen + [j]) == Blocks(b, results, chosen) + [Block(b, |chosen| + 1, results[j])]
  {
    hide Block;
    assert (chosen + [j])[..|chosen|] == chosen;
  }

  lemma EstimatesNext(texts: seq<string>, text: string)
    ensures Estimates(texts + [text]) == Estimates(texts) + Estimate(text)
  {
    assert (texts + [text])[..|texts|] == texts;
  }

  // ------------------------------------------------------- limits and wording

  /** The limits: the context window bounds both, and a limit that is missing or zero says nothing of its own. */
  lemma LimitsAre(b: Builder)
    ensures b.maxEvidence in {None, Some(0)} ==> b.EvidenceLimit() == b.contextWindow
    ensures b.maxEvidence !in {None, Some(0)} ==> b.maxEvidence == Some(b.EvidenceLimit())
    ensures b.maxTotal in {None, Some(0)} ==> b.TotalLimit() == b.contextWindow
    ensures b.maxTotal !in {None, Some(0)} ==>
              b.TotalLimit() <= b.contextWindow && b.TotalLimit() <= b.maxTotal.value
              && (b.TotalLimit() == b.contextWindow || b.maxTotal == Some(b.TotalLimit()))
  {
  }

  /** The fixed part of a prompt names the question, and the conversation only if there is one. */
  lemma FixedUserIs(b: Builder, question: string, context: string)
    ensures b.FixedUser(question, context)
         == (if context == "" then "" else b.wording.prior + context + "\n\n") + b.wording.question + question + b.wording.untrusted
  {
  }

  /** It costs its three texts and what is reserved for the answer. */
  lemma FixedTokensAre(b: Builder, question: string, context: string)
    ensures b.FixedTokens(question, context) == b.reservation
              + Estimates([b.wording.policy, b.FixedUser(question, context), b.wording.requirements])
  {
    hide Estimate, Estimates, Builder.FixedUser;
    EstimatesOfThree(b.wording.policy, b.FixedUser(question, context), b.wording.requirements);
  }

  lemma EstimatesOfThree(x: string, y: string, z: string)
    ensures Estimates([x, y, z]) == Estimate(x) + Estimate(y) + Estimate(z)
  {
    hide Estimate;
    assert [x, y, z][..2] == [x, y] && [x, y][..1] == [x] && [x][..0] == [];
    assert Estimates([x, y]) == Estimates([x]) + Estimate(y);
  }

  /** The text of a result is cut to the character limit and then stripped. */
  lemma TextIs(b: Builder, e: Evidence) returns (from: nat, to: nat)
    ensures from <= to <= |e.text| && to <= b.maxCharacters && b.Text(e) == e.text[from..to]
    ensures from < to ==> !IsSpace(e.text[from]) && !IsSpace(e.text[to - 1])
    ensures forall i | 0 <= i < |e.text| && i < b.maxCharacters && (i < from || to <= i) :: IsSpace(e.text[i])
  {
    hide IsSpace, Strip;
    var text := if |e.text| <= b.maxCharacters then e.text else e.text[..b.maxCharacters];
    from, to := StripIs(text);
    assert forall i | 0 <= i < |text| :: text[i] == e.text[i];
    assert text[from..to] == e.text[from..to];
  }

  function Optional(title: string, value: Option<string>): seq<string> {
    if value.Some? then [title + value.value] else []
  }

  function Filled(value: Option<string>): Option<string> {
    if value == Some("") then None else value
  }

  function Number(value: Option<int>): Option<string> {
    match value case Some(n) => Some(Str(n)) case None => None
  }

  function RowRange(c: Citation): Option<string> {
    match c.rowStart
    case None => None
    case Some(start) =>
      Some(match c.rowEnd
           case None => Str(start)
           case Some(end) => (if end == start then Str(start) else Str(start) + "-" + Str(end)))
  }

  lemma LinesRead(e: Evidence)
    ensures SourceLines(e)
         == ["Source: " + e.title] + Optional("Section: ", Filled(e.citation.section)) + Optional("Page: ", Number(e.citation.page))
            + Optional("Sheet: ", Filled(e.citation.sheet)) + Optional("Rows: ", RowRange(e.citation))
  {
    hide Str;
    var c := e.citation;
    if c.rowStart.Some? {
      var start := Str(c.rowStart.value);
      assert "Rows: " + start + "" == "Rows: " + start;
      if c.rowEnd.Some? {
        var end := Str(c.rowEnd.value);
        assert "Rows: " + start + ("-" + end) == "Rows: " + (start + "-" + end);
      }
    }
  }

  /** The evidence block of a result: its label on both ends, what is known of where it stands, and its text. */
  lemma BlockReads(b: Builder, n: nat, e: Evidence)
    ensures
      var c, name := e.citation, "C" + Decimal(n);
      Block(b, n, e)
      == "--- BEGIN EVIDENCE " + name + " ---\n"
         + Join("\n", ["Source: " + e.title] + Optional("Section: ", Filled(c.section)) + Optional("Page: ", Number(c.page))
                        + Optional("Sheet: ", Filled(c.sheet)) + Optional("Rows: ", RowRange(c)))
         + "\n\n" + b.Text(e) + "\n--- END EVIDENCE " + name + " ---\n\n"
  {
    hide Decimal, Join, Builder.Text, SourceLines, Optional;
    LinesRead(e);
  }

  // ------------------------------------------------------------- main results

  lemma {:induction false} ChosenFits(b: Builder, fixed: int, results: seq<Evidence>, n: nat)
    requires n <= |results|
    ensures var chosen := Chosen(b, fixed, results, n);
      var used := Estimates(Blocks(b, results, chosen));
      chosen == [] || (fixed + used <= b.TotalLimit() && used <= b.EvidenceLimit())
  {
    hide Block, Estimate, Blocks, Estimates, Chosen, Novel;
    if n == 0 {
      ChosenNone(b, fixed, results);
    } else {
      ChosenFits(b, fixed, results, n - 1);
      var before := Chosen(b, fixed, results, n - 1);
      ChosenStep(b, fixed, results, n);
      if Takes(b, fixed, results, before, n - 1) {
        BlocksNext(b, results, before, n - 1);
        EstimatesNext(Blocks(b, results, before), Block(b, |before| + 1, results[n - 1]));
      }
    }
  }

  lemma ChosenNone(b: Builder, fixed: int, results: seq<Evidence>)
    ensures Chosen(b, fixed, results, 0) == []
  {
  }

  lemma ChosenStep(b: Builder, fixed: int, results: seq<Evidence>, n: nat)
    requires 1 <= n <= |results|
    ensures var before := Chosen(b, fixed, results, n - 1);
      Chosen(b, fixed, results, n) == if Takes(b, fixed, results, before, n - 1) then before + [n - 1] else before
  {
    hide Takes;
  }

  /** No chosen result is empty or like an earlier one. */
  ghost predicate Differ(b: Builder, results: seq<Evidence>, chosen: seq<int>)
    requires Among(chosen, |results|)
  {
    && (forall i, j | 0 <= i < j < |chosen| :: chosen[i] < chosen[j])
    && (forall i, j | 0 <= i < j < |chosen| :: !b.Same(b.Text(results[chosen[j]]), b.Text(results[chosen[i]])))
    && (forall i | 0 <= i < |chosen| :: b.Text(results[chosen[i]]) != "")
  }

  lemma DifferNext(b: Builder, results: seq<Evidence>, chosen: seq<int>, j: nat, after: seq<int>)
    requires j < |results| && Among(chosen, j) && Differ(b, results, chosen) && Novel(b, results, chosen, j)
    requires after == chosen + [j] && Among(after, |results|)
    ensures Differ(b, results, after)
  {
    hide Strip;
  }

  /** The chosen results keep the order they came in, and none is empty or like an earlier one. */
  lemma {:induction false} ChosenDiffer(b: Builder, fixed: int, results: seq<Evidence>, n: nat)
    requires n <= |results|
    ensures Among(Chosen(b, fixed, results, n), |results|) && Differ(b, results, Chosen(b, fixed, results, n))
  {
    hide Differ, Novel, Affordable, Chosen;
    if n == 0 {
      NothingYet(b, fixed, results);
    } else {
      ChosenDiffer(b, fixed, results, n - 1);
      ChosenStep(b, fixed, results, n);
      var before := Chosen(b, fixed, results, n - 1);
      if Takes(b, fixed, results, before, n - 1) {
        AmongNext(before, n - 1, |results|);
        DifferNext(b, results, before, n - 1, before + [n - 1]);
      }
    }
  }

  /** The real budget: the estimate of the two assembled messages and the output reservation stay within
      the total limit and the context window, and the evidence within its own limit. */
  lemma BudgetHolds(b: Builder, question: string, results: seq<Evidence>, context: string)
    requires Chosen(b, b.FixedTokens(question, context), results, |results|) != []
    ensures var chosen := Chosen(b, b.FixedTokens(question, context), results, |results|);
      var blocks := Blocks(b, results, chosen);
      var user := b.FixedUser(question, context) + Concat(blocks) + b.wording.requirements;
      && Estimate(b.wording.policy) + Estimate(user) + b.reservation <= b.TotalLimit() <= b.contextWindow
      && Estimate(Concat(blocks)) <= Estimates(blocks) <= b.EvidenceLimit()
  {
    var fixed := b.FixedTokens(question, context);
    var chosen := Chosen(b, fixed, results, |results|);
    var blocks := Blocks(b, results, chosen);
    hide Chosen, Blocks, Estimate, Block;
    ChosenFits(b, fixed, results, |results|);
    ConcatCost(b.FixedUser(question, context), blocks);
    SubAdditive(b.FixedUser(question, context) + Concat(blocks), b.wording.requirements);
    ConcatAlone(blocks);
  }

  lemma {:induction false} ConcatAlone(texts: seq<string>)
    requires texts != []
    ensures Estimate(Concat(texts)) <= Estimates(texts)
  {
    var front, last := texts[..|texts| - 1], texts[|texts| - 1];
    if front == [] {
      assert Concat(front) == "" && "" + last == last;
    } else {
      ConcatAlone(front);
      SubAdditive(Concat(front), last);
    }
  }

  /** A result is left out only because it has no text, is like an earlier chosen one, or did not fit the
      budget left by those chosen before it. */
  lemma {:induction false} LeftOutIff(b: Builder, fixed: int, results: seq<Evidence>, n: nat, j: nat)
    requires j < n <= |results|
    ensures
      var earlier, text := Chosen(b, fixed, results, j), b.normal(b.Text(results[j]));
      var used := Estimates(Blocks(b, results, earlier)) + Estimate(Block(b, |earlier| + 1, results[j]));
      j in Chosen(b, fixed, results, n) <==>
        && b.Text(results[j]) != "" && fixed + used <= b.TotalLimit() && used <= b.EvidenceLimit()
        && forall i | i in earlier ::
             var other := b.normal(b.Text(results[i]));
             text != other && !(|text| >= 100 && |other| >= 100 && b.similar(text, other))
  {
    hide Block, Blocks, Estimate, Estimates, Builder.Text;
    if n > j + 1 {
      LeftOutIff(b, fixed, results, n - 1, j);
    } else {
      var earlier := Chosen(b, fixed, results, j);
      assert j !in earlier;
      assert forall i | 0 <= i < |earlier| :: earlier[i] in earlier;
    }
  }

  // ------------------------------------------------------------------ history

  datatype Message = Message(completed: bool, role: string, content: string)

  /** The length of a citation label at the front of `text`, or 0. */
  function LabelLength(text: string): (n: nat)
    ensures n <= |text|
  {
    if |text| < 4 || text[0] != '[' || text[1] != 'C' then 0 else
      var d := DigitRun(text[2..]);
      if d > 0 && 2 + d < |text| && text[2 + d] == ']' then 3 + d else 0
  }

  function WithoutLabels(text: string): string
    decreases |text|
  {
    if text == "" then ""
    else if LabelLength(text) > 0 then WithoutLabels(text[LabelLength(text)..])
    else [text[0]] + WithoutLabels(text[1..])
  }

  /** A label is "[C", digits and "]". */
  ghost predicate IsLabel(text: string) {
    && |text| >= 4 && text[0] == '[' && text[1] == 'C' && text[|text| - 1] == ']'
    && forall i | 2 <= i < |text| - 1 :: IsDecimal(text[i])
  }

  lemma {:induction false} RunOfDigits(digits: string, rest: string)
    requires (forall i | 0 <= i < |digits| :: IsDecimal(digits[i])) && (rest == "" || !IsDecimal(rest[0]))
    ensures DigitRun(digits + rest) == |digits|
  {
    hide IsDecimal;
    if digits == "" {
      assert digits + rest == rest;
    } else {
      assert (digits + rest)[1..] == digits[1..] + rest && (digits + rest)[0] == digits[0];
      RunOfDigits(digits[1..], rest);
    }
  }

  lemma LabelAtFront(mark: string, rest: string)
    requires IsLabel(mark)
    ensures LabelLength(mark + rest) == |mark|
  {
    hide IsDecimal;
    FirstDigits(']');
    var digits, all := mark[2..|mark| - 1], mark + rest;
    assert all[2..] == digits + ("]" + rest);
    assert forall i | 0 <= i < |digits| :: digits[i] == mark[i + 2];
    RunOfDigits(digits, "]" + rest);
    assert all[2 + |digits|] == mark[|mark| - 1];
  }

  lemma {:induction false} DigitRunStops(text: string, rest: string)
    requires rest != "" && !IsDecimal(rest[0])
    ensures DigitRun(text + rest) == DigitRun(text)
  {
    hide IsDecimal;
    if text == "" {
      assert text + rest == rest;
    } else {
      assert (text + rest)[0] == text[0] && (text + rest)[1..] == text[1..] + rest;
      DigitRunStops(text[1..], rest);
    }
  }

  /** A label found at the front ends before the next '[', and what follows does not matter. */
  lemma LabelStays(text: string, rest: string)
    requires text != "" && rest != "" && rest[0] == '['
    ensures LabelLength(text + rest) == LabelLength(text)
  {
    hide IsDecimal;
    FirstDigits('[');
    var all := text + rest;
    assert all[0] == text[0];
    if |text| >= 2 {
      assert all[1] == text[1] && all[2..] == text[2..] + rest;
      DigitRunStops(text[2..], rest);
      var d := DigitRun(text[2..]);
      assert 2 + d < |text| ==> all[2 + d] == text[2 + d];
      assert 2 + d == |text| ==> all[2 + d] == '[';
    } else {
      assert all[1] == rest[0];
    }
  }

  /** Every label is taken out, whatever stands around it; */
  lemma {:induction false} LabelGoes(a: string, mark: string, b: string)
    requires IsLabel(mark)
    ensures WithoutLabels(a + mark + b) == WithoutLabels(a) + WithoutLabels(b)
    decreases |a|
  {
    hide IsLabel, LabelLength;
    var all := a + mark + b;
    if a == "" {
      LabelNotEmpty(mark);
      LabelAtFront(mark, b);
      assert all == mark + b && all[|mark|..] == b;
    } else {
      LabelNotEmpty(mark);
      assert all == a + (mark + b) && (mark + b)[0] == '[';
      LabelStays(a, mark + b);
      var n := if LabelLength(a) > 0 then LabelLength(a) else 1;
      assert all[n..] == a[n..] + mark + b && all[0] == a[0];
      LabelGoes(a[n..], mark, b);
    }
  }

  lemma LabelNotEmpty(mark: string)
    requires IsLabel(mark)
    ensures mark != "" && mark[0] == '['
  {
  }

  lemma LabelFound(text: string)
    requires LabelLength(text) > 0
    ensures IsLabel(text[..LabelLength(text)])
  {
    hide IsDecimal;
    var n := LabelLength(text);
    DigitRunIs(text[2..]);
    assert forall i | 2 <= i < n - 1 :: text[..n][i] == text[2..][i - 2];
  }

  /** and a text without one is left alone. */
  lemma {:induction false} NoLabelStays(text: string)
    requires forall i, j | 0 <= i <= j <= |text| :: !IsLabel(text[i..j])
    ensures WithoutLabels(text) == text
  {
    hide IsLabel, LabelLength;
    if text != "" {
      assert LabelLength(text) == 0 by {
        if LabelLength(text) > 0 {
          assert text[0..LabelLength(text)] == text[..LabelLength(text)];
          LabelFound(text);
        }
      }
      forall i, j | 0 <= i <= j <= |text[1..]| ensures !IsLabel(text[1..][i..j]) {
        assert text[1..][i..j] == text[i + 1..j + 1];
      }
      NoLabelStays(text[1..]);
    }
  }

  /** `role` is the upper-case name of the message's role. */
  function Line(m: Message): string {
    var content := Join(" ", Split(WithoutLabels(m.content)));
    m.role + ": " + if |content| <= 1000 then content else content[..1000]
  }

  function Eligible(messages: seq<Message>): seq<Message> {
    if messages == [] then [] else
      var last := messages[|messages| - 1];
      Eligible(messages[..|messages| - 1]) + if last.completed && last.content != "" then [last] else []
  }

  /** A line is the role and at most a thousand characters of the words of the message, without labels. */
  lemma LineIs(m: Message)
    ensures
      var content := Join(" ", Split(WithoutLabels(m.content)));
      m.role + ": " <= Line(m) && Line(m)[|m.role| + 2..] <= content
      && |Line(m)| == |m.role| + 2 + if |content| < 1000 then |content| else 1000
  {
    var content := Join(" ", Split(WithoutLabels(m.content)));
    hide Join, Split, WithoutLabels;
    assert Line(m)[|m.role| + 2..] == if |content| <= 1000 then content else content[..1000];
  }

  /** Every message is judged by itself: it counts if it is completed and not empty. */
  lemma {:induction false} EligibleAre(a: seq<Message>, m: Message, b: seq<Message>)
    ensures Eligible([]) == []
    ensures Eligible(a + [m] + b) == Eligible(a) + (if m.completed && m.content != "" then [m] else []) + Eligible(b)
  {
    var all := a + [m] + b;
    if b == [] {
      assert all[..|all| - 1] == a && all[|all| - 1] == m;
    } else {
      var front, last := b[..|b| - 1], b[|b| - 1];
      assert all[..|all| - 1] == a + [m] + front && all[|all| - 1] == last;
      EligibleAre(a, m, front);
    }
  }

  function Lines(messages: seq<Message>): (r: seq<string>)
    ensures |r| == |messages| && forall i | 0 <= i < |r| :: r[i] == Line(messages[i])
  {
    if messages == [] then [] else [Line(messages[0])] + Lines(messages[1..])
  }

  /** The sum of the estimates, from the last line back. */
  function Cost(lines: seq<string>): nat {
    if lines == [] then 0 else Estimate(lines[0]) + Cost(lines[1..])
  }

  predicate Within(lines: seq<string>, maxMessages: nat, maxTokens: nat) {
    |lines| <= maxMessages && Cost(lines) <= maxTokens
  }

  /** The suffix from `k` is within the limits, and no longer suffix is. */
  ghost predicate Longest(lines: seq<string>, k: nat, maxMessages: nat, maxTokens: nat) {
    && k <= |lines| && Within(lines[k..], maxMessages, maxTokens)
    && forall j | 0 <= j < k :: !Within(lines[j..], maxMessages, maxTokens)
  }

  lemma {:induction false} CostGrows(lines: seq<string>, j: nat, k: nat)
    requires j <= k <= |lines|
    ensures Cost(lines[j..]) >= Cost(lines[k..])
    decreases k - j
  {
    if j < k {
      assert lines[j..][1..] == lines[j + 1..];
      CostGrows(lines, j + 1, k);
    }
  }

  lemma {:induction false} CostIs(lines: seq<string>)
    ensures Cost(lines) == Estimates(lines)
  {
    hide Estimate;
    if lines != [] {
      CostIs(lines[1..]);
      ConcatSplits([], lines[0], lines[1..]);
      assert [] + [lines[0]] + lines[1..] == lines;
    }
  }

  /** As many of the latest lines as neither limit forbids. */
  lemma LongestIff(lines: seq<string>, k: nat, maxMessages: nat, maxTokens: nat)
    ensures Longest(lines, k, maxMessages, maxTokens) <==>
              && k <= |lines| && |lines| - k <= maxMessages && Estimates(lines[k..]) <= maxTokens
              && (k > 0 ==> |lines| - k == maxMessages || Estimates(lines[k - 1..]) > maxTokens)
  {
    hide Estimates;
    if k <= |lines| {
      CostIs(lines[k..]);
      if k > 0 {
        CostIs(lines[k - 1..]);
        forall j | 0 <= j < k ensures Cost(lines[j..]) >= Cost(lines[k - 1..]) {
          CostGrows(lines, j, k - 1);
        }
      }
    }
  }

  method SelectEligible(all: seq<Message>) returns (messages: seq<Message>)
    ensures messages == Eligible(all)
  {
    messages := [];
    for i := 0 to |all|
      invariant messages == Eligible(all[..i])
    {
      assert all[..i + 1][..i] == all[..i];
      if all[i].completed && all[i].content != "" {
        messages := messages + [all[i]];
      }
    }
    assert all[..|all|] == all;
  }

  method GenerationContext(all: seq<Message>, maxMessages: nat, maxTokens: nat)
    returns (text: string, selected: seq<Message>)
    ensures var messages := Eligible(all);
      exists k: nat ::
        && Longest(Lines(messages), k, maxMessages, maxTokens)
        && selected == messages[k..] && text == Join("\n", Lines(messages)[k..])
  {
    hide Line, Estimate;
    var messages := SelectEligible(all);
    ghost var lines := Lines(messages);
    var chosen: seq<string> := [];
    selected := [];
    var used := 0;
    var i := |messages|;
    while i > 0
      invariant 0 <= i <= |messages|
      invariant selected == messages[i..] && chosen == lines[i..] && used == Cost(lines[i..])
      invariant Within(lines[i..], maxMessages, maxTokens)
    {
      var line := Line(messages[i - 1]);
      var tokens := Estimate(line);
      assert lines[i - 1..] == [line] + lines[i..];
      assert lines[i - 1..][1..] == lines[i..];
      if |selected| >= maxMessages || used + tokens > maxTokens {
        break;
      }
      selected := [messages[i - 1]] + selected;
      chosen := [line] + chosen;
      used := used + tokens;
      i := i - 1;
    }
    text := Join("\n", chosen);
    forall j | 0 <= j < i ensures !Within(lines[j..], maxMessages, maxTokens) {
      CostGrows(lines, j, i - 1);
    }
    assert Longest(lines, i, maxMessages, maxTokens);
  }

  function Ceil4(n: nat): nat {
    (n + 3) / 4
  }

  function Length(lines: seq<string>): nat {
    if lines == [] then 0 else |lines[0]| + Length(lines[1..])
  }

  lemma {:induction false} JoinLength(lines: seq<string>)
    requires lines != []
    ensures |Join("\n", lines)| == Length(lines) + |lines| - 1
  {
    if |lines| > 1 {
      JoinLength(lines[1..]);
    } else {
      assert lines[1..] == [];
    }
  }

  lemma {:induction false} LengthCost(lines: seq<string>)
    ensures Length(lines) <= 4 * Cost(lines)
  {
    if lines != [] {
      LengthCost(lines[1..]);
    }
  }

  /** The text of the selected lines may cost more than the limit they were selected under, for the
      line breaks between them: by at most a quarter of their number, rounded up. */
  lemma HistoryTextCost(lines: seq<string>, maxMessages: nat, maxTokens: nat)
    requires lines != [] && Within(lines, maxMessages, maxTokens)
    ensures Estimate(Join("\n", lines)) <= maxTokens + Ceil4(|lines| - 1)
  {
    JoinLength(lines);
    LengthCost(lines);
    var m := maxTokens + Ceil4(|lines| - 1);
    assert |Join("\n", lines)| <= 4 * m;
  }

  lemma {:induction false} EvenLines(lines: seq<string>)
    requires forall i | 0 <= i < |lines| :: lines[i] != "" && |lines[i]| % 4 == 0
    ensures Length(lines) == 4 * Cost(lines)
  {
    if lines != [] {
      EvenLines(lines[1..]);
    }
  }

  /** The bound is reached whenever every line's length is a multiple of four. */
  lemma HistoryBoundIsTight(lines: seq<string>)
    requires lines != [] && forall i | 0 <= i < |lines| :: lines[i] != "" && |lines[i]| % 4 == 0
    ensures Estimate(Join("\n", lines)) == Cost(lines) + Ceil4(|lines| - 1)
  {
    JoinLength(lines);
    EvenLines(lines);
  }
}
