/** What the chunkers read and write. */
module DocumentChunks {
  import opened Options

  /** Where a section or a chunk stands in its document. */
  datatype Place = Place(
    page: Option<int>, sheet: Option<string>, rowStart: Option<int>, rowEnd: Option<int>, title: Option<string>)

  /** `headers` is the "headers" entry of a section's metadata. */
  datatype Section = Section(text: string, place: Place, headers: Option<seq<string>>)

  /** `header` is the "header" entry of a chunk's metadata, which only row chunks have. */
  datatype Chunk = Chunk(index: nat, text: string, place: Place, header: Option<string>)

  /** The chunks with these texts, numbered from `first`. */
  function Numbered(first: nat, texts: seq<string>, place: Place): (r: seq<Chunk>)
    ensures |r| == |texts|
    ensures forall i | 0 <= i < |texts| :: r[i] == Chunk(first + i, texts[i], place, None)
    decreases |texts|
  {
    if texts == [] then []
    else [Chunk(first, texts[0], place, None)] + Numbered(first + 1, texts[1..], place)
  }

  lemma {:induction false} NumberedSnoc(first: nat, texts: seq<string>, text: string, place: Place)
    ensures Numbered(first, texts + [text], place)
         == Numbered(first, texts, place) + [Chunk(first + |texts|, text, place, None)]
  {
    var a, b := Numbered(first, texts + [text], place), Numbered(first, texts, place);
    assert forall i | 0 <= i < |texts| :: (texts + [text])[i] == texts[i];
    assert (texts + [text])[|texts|] == text;
    assert forall i | 0 <= i < |a| :: a[i] == (b + [Chunk(first + |texts|, text, place, None)])[i];
  }

  /** A chunk's index is its position. */
  ghost predicate Indexed(chunks: seq<Chunk>) {
    forall i | 0 <= i < |chunks| :: chunks[i].index == i
  }
}
