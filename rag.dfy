/**
  The document index of the backend: splitting a document's text into overlapping chunks,
  appending one record per embedded chunk to the index, and ranking the index's chunks by
  similarity score for a query. The embedding vectors and the cosine similarity are
  external: an embedding is carried as opaque data and a score is given as a function.
 */
module Rag {
  import opened Wrappers
  import opened Sorting

  const DefaultChunkSize := 1500
  const DefaultOverlap := 200

  function Min(a: int, b: int): int { if a <= b then a else b }

  // ---------------------------------------------------------------- chunking

  /**
    The chunks the sliding window produces from position `start` on: a window of at most
    `size` characters, then the next window starting `overlap` characters before its end.
   */
  function ChunksFrom(text: string, start: nat, size: nat, overlap: nat): seq<string>
    requires overlap < size && start <= |text|
    decreases |text| - start
  {
    if start == |text| then []
    else
      var end := Min(start + size, |text|);
      if end == |text| then [text[start..end]]
      else [text[start..end]] + ChunksFrom(text, end - overlap, size, overlap)
  }

  /** Each chunk minus its first `overlap` characters, concatenated. */
  function Tails(chunks: seq<string>, overlap: nat): string {
    if chunks == [] then []
    else (if overlap <= |chunks[0]| then chunks[0][overlap..] else []) + Tails(chunks[1..], overlap)
  }

  /** The first chunk followed by every later chunk minus its first `overlap` characters. */
  function Reassemble(chunks: seq<string>, overlap: nat): string {
    if chunks == [] then [] else chunks[0] + Tails(chunks[1..], overlap)
  }

  /** Every chunk is non-empty and at most `size` long; all but the last are exactly `size` long. */
  ghost predicate WellSized(cs: seq<string>, size: nat) {
    && (forall i :: 0 <= i < |cs| ==> 0 < |cs[i]| <= size)
    && (forall i :: 0 <= i < |cs| - 1 ==> |cs[i]| == size)
  }

  /** The last `overlap` characters of each chunk are the first `overlap` characters of the next. */
  ghost predicate Overlapping(cs: seq<string>, overlap: nat) {
    forall i :: 0 <= i < |cs| - 1 ==> SharesOverlap(cs[i], cs[i + 1], overlap)
  }

  ghost predicate SharesOverlap(a: string, b: string, overlap: nat) {
    overlap <= |a| && overlap <= |b| && a[|a| - overlap..] == b[..overlap]
  }

  lemma {:induction false} ChunkLengths(text: string, start: nat, size: nat, overlap: nat)
    requires overlap < size && start <= |text|
    ensures WellSized(ChunksFrom(text, start, size, overlap), size)
    decreases |text| - start
  {
    if start < |text| {
      var end := Min(start + size, |text|);
      if end < |text| {
        ChunkLengths(text, end - overlap, size, overlap);
        var rest := ChunksFrom(text, end - overlap, size, overlap);
        var cs := [text[start..end]] + rest;
        assert ChunksFrom(text, start, size, overlap) == cs;
        assert forall i :: 1 <= i < |cs| ==> cs[i] == rest[i - 1];
      }
    }
  }

  /** Adjacent chunks share exactly `overlap` characters. */
  lemma {:induction false} ChunkOverlaps(text: string, start: nat, size: nat, overlap: nat)
    requires overlap < size && start <= |text|
    ensures Overlapping(ChunksFrom(text, start, size, overlap), overlap)
    decreases |text| - start
  {
    if start < |text| {
      var end := Min(start + size, |text|);
      if end < |text| {
        var next := end - overlap;
        ChunkOverlaps(text, next, size, overlap);
        var rest := ChunksFrom(text, next, size, overlap);
        var nextEnd := Min(next + size, |text|);
        assert rest[0] == text[next..nextEnd];
        var cs := [text[start..end]] + rest;
        assert ChunksFrom(text, start, size, overlap) == cs;
        assert cs[0][|cs[0]| - overlap..] == text[next..end];
        assert cs[1][..overlap] == text[next..end];
        assert SharesOverlap(cs[0], cs[1], overlap);
        forall i | 1 <= i < |cs| - 1 ensures SharesOverlap(cs[i], cs[i + 1], overlap) {
          assert cs[i] == rest[i - 1] && cs[i + 1] == rest[i];
        }
      }
    }
  }

  /** The last chunk ends at the end of the text. */
  lemma {:induction false} LastChunkIsSuffix(text: string, start: nat, size: nat, overlap: nat)
    requires overlap < size && start < |text|
    ensures var cs := ChunksFrom(text, start, size, overlap);
      |cs| > 0 && |cs[|cs| - 1]| <= |text| && cs[|cs| - 1] == text[|text| - |cs[|cs| - 1]|..]
    decreases |text| - start
  {
    var end := Min(start + size, |text|);
    if end < |text| {
      LastChunkIsSuffix(text, end - overlap, size, overlap);
    }
  }

  lemma {:induction false} TailsCover(text: string, start: nat, size: nat, overlap: nat)
    requires overlap < size && start < |text| && start + overlap <= |text|
    ensures Tails(ChunksFrom(text, start, size, overlap), overlap) == text[start + overlap..]
    decreases |text| - start
  {
    var end := Min(start + size, |text|);
    var cs := ChunksFrom(text, start, size, overlap);
    var first := text[start..end];
    assert cs[0] == first && first[overlap..] == text[start + overlap..end];
    if end == |text| {
      assert cs[1..] == [];
    } else {
      var rest := ChunksFrom(text, end - overlap, size, overlap);
      TailsCover(text, end - overlap, size, overlap);
      assert cs[1..] == rest;
      assert text[start + overlap..end] + text[end..] == text[start + overlap..];
    }
  }

  /** Joining the first chunk with every later chunk minus its overlap gives back the text. */
  lemma ChunksReassemble(text: string, size: nat, overlap: nat)
    requires overlap < size
    ensures Reassemble(ChunksFrom(text, 0, size, overlap), overlap) == text
  {
    if |text| > 0 {
      var end := Min(size, |text|);
      var cs := ChunksFrom(text, 0, size, overlap);
      if end == |text| {
        assert cs == [text[0..end]];
        assert text[0..end] == text;
      } else {
        TailsCover(text, end - overlap, size, overlap);
        assert cs[1..] == ChunksFrom(text, end - overlap, size, overlap);
        assert text[0..end] + text[end..] == text;
      }
    }
  }

  /**
    The chunking loop. It terminates because, with `0 <= overlap < chunkSize`, each next
    start is strictly after the previous one.
   */
  method ChunkText(text: string, chunkSize: int, overlap: int) returns (chunks: seq<string>)
    requires 0 <= overlap < chunkSize
    ensures chunks == ChunksFrom(text, 0, chunkSize, overlap)
  {
    chunks := [];
    var start := 0;
    while start < |text|
      invariant 0 <= start <= |text|
      invariant chunks + ChunksFrom(text, start, chunkSize, overlap) == ChunksFrom(text, 0, chunkSize, overlap)
      decreases |text| - start
    {
      var end := Min(start + chunkSize, |text|);
      var chunk := text[start..end];
      chunks := chunks + [chunk];
      if end == |text| {
        break;
      }
      start := end - overlap;
      if start < 0 {
        start := 0;
      }
    }
  }

  /** There are no chunks exactly when the text is empty; the first chunk is the text's first window. */
  lemma FirstChunk(text: string, size: nat, overlap: nat)
    requires overlap < size
    ensures ChunksFrom(text, 0, size, overlap) == [] <==> text == []
    ensures text != [] ==> ChunksFrom(text, 0, size, overlap)[0] == text[..Min(size, |text|)]
  {
  }

  // ---------------------------------------------------------------- the index

  type Embedding = seq<real>

  /** One entry of `index["chunks"]`. */
  datatype ChunkRecord = ChunkRecord(docId: string, name: string, text: string, embedding: Embedding)

  /** `original_name or stored_path`: an absent or empty original name falls back to the stored path. */
  function DisplayName(originalName: Option<string>, storedPath: string): string {
    if originalName.Some? && originalName.value != "" then originalName.value else storedPath
  }

  /** Python's `zip(texts, embeddings)` turned into index records of one document. */
  function Records(docId: string, name: string, texts: seq<string>, embeddings: seq<Embedding>): (r: seq<ChunkRecord>)
    ensures |r| == Min(|texts|, |embeddings|)
    ensures forall i :: 0 <= i < |r| ==> r[i] == ChunkRecord(docId, name, texts[i], embeddings[i])
  {
    if texts == [] || embeddings == [] then []
    else [ChunkRecord(docId, name, texts[0], embeddings[0])]
         + Records(docId, name, texts[1..], embeddings[1..])
  }

  /** The chunks `add_pdf` cuts a document's text into: the default window and overlap. */
  function DocumentChunks(text: string): seq<string> {
    ChunksFrom(text, 0, DefaultChunkSize, DefaultOverlap)
  }

  /** The path a document is stored under: `os.path.join(STORE_DIR, f"{doc_id}.pdf")`. */
  function StoredPath(storeDir: string, docId: string): string {
    storeDir + "/" + docId + ".pdf"
  }

  class ChunkIndex {
    var chunks: seq<ChunkRecord>

    constructor (initial: seq<ChunkRecord>)
      ensures chunks == initial
    {
      chunks := initial;
    }

    /** The append loop of `add_pdf`: one record per (chunk, embedding) pair, after the existing ones. */
    method AppendDocument(docId: string, name: string, texts: seq<string>, embeddings: seq<Embedding>)
      modifies this
      ensures chunks == old(chunks) + Records(docId, name, texts, embeddings)
    {
      var n := Min(|texts|, |embeddings|);
      for i := 0 to n
        invariant chunks == old(chunks) + Records(docId, name, texts[..i], embeddings[..i])
      {
        assert Records(docId, name, texts[..i + 1], embeddings[..i + 1])
            == Records(docId, name, texts[..i], embeddings[..i])
               + [ChunkRecord(docId, name, texts[i], embeddings[i])];
        chunks := chunks + [ChunkRecord(docId, name, texts[i], embeddings[i])];
      }
      assert texts[..n] == texts[..|texts|] || embeddings[..n] == embeddings[..|embeddings|];
      assert Records(docId, name, texts[..n], embeddings[..n]) == Records(docId, name, texts, embeddings);
    }

    /**
      `add_pdf` once the file is stored: extract the text, chunk it with the default window,
      embed the chunks, append the records under the new document id and return that id.
      `text` is the extracted text, absent when the PDF reader raises (the content is not a
      PDF); `embed` stands for the embedding service, absent when it raises (no API key, an
      HTTP error). Either exception escapes before the index is touched: the result is then
      absent and the index is unchanged.
     */
    method AddPdf(docId: string, originalName: Option<string>, storeDir: string, text: Option<string>,
                  embed: seq<string> -> Option<seq<Embedding>>) returns (id: Option<string>)
      modifies this
      ensures text.None? || embed(DocumentChunks(text.value)).None? ==>
        id.None? && chunks == old(chunks)
      ensures text.Some? && embed(DocumentChunks(text.value)).Some? ==>
        && id == Some(docId)
        && chunks == old(chunks)
           + Records(docId, DisplayName(originalName, StoredPath(storeDir, docId)),
                     DocumentChunks(text.value), embed(DocumentChunks(text.value)).value)
    {
      var storedPath := StoredPath(storeDir, docId);
      if text.None? {
        return None;
      }
      var pieces := ChunkText(text.value, DefaultChunkSize, DefaultOverlap);
      var embeddings := embed(pieces);
      if embeddings.None? {
        return None;
      }
      AppendDocument(docId, DisplayName(originalName, storedPath), pieces, embeddings.value);
      id := Some(docId);
    }
  }

  // ---------------------------------------------------------------- ranking

  /** One `(sim, chunk)` pair of the `scored` list. */
  datatype ScoredChunk = ScoredChunk(sim: int, chunk: ChunkRecord)

  /** Python's `s[:k]`: a negative `k` drops that many elements from the end. */
  function PyTake<T>(s: seq<T>, k: int): (r: seq<T>)
    ensures |r| <= |s| && r == s[..|r|]
    ensures 0 <= k ==> |r| == Min(k, |s|)
  {
    if k >= 0 then s[..Min(k, |s|)]
    else if |s| + k >= 0 then s[..|s| + k]
    else []
  }

  /** The ranking key for chunks: the negated score, so an ascending sort is by score, descending. */
  function Desc(score: ChunkRecord -> int): ChunkRecord -> int {
    (c: ChunkRecord) => -score(c)
  }

  /** `scored.sort(key=lambda x: x[0], reverse=True)` as an ascending key. */
  function NegFirst(p: ScoredChunk): int { -p.sim }

  /** The loop that pairs every chunk with its score. */
  function Scored(chunks: seq<ChunkRecord>, score: ChunkRecord -> int): (r: seq<ScoredChunk>)
    ensures |r| == |chunks|
    ensures forall i :: 0 <= i < |r| ==> r[i] == ScoredChunk(score(chunks[i]), chunks[i])
  {
    seq(|chunks|, i requires 0 <= i < |chunks| => ScoredChunk(score(chunks[i]), chunks[i]))
  }

  function Seconds(ps: seq<ScoredChunk>): (r: seq<ChunkRecord>)
    ensures |r| == |ps|
    ensures forall i :: 0 <= i < |r| ==> r[i] == ps[i].chunk
  {
    if ps == [] then [] else [ps[0].chunk] + Seconds(ps[1..])
  }

  /** Ranks a (score, chunk) pair by its chunk's score, descending: the source's sort key, negated
      so that an ascending sort gives the `reverse=True` order. */
  function PairDesc(score: ChunkRecord -> int): ScoredChunk -> int {
    (p: ScoredChunk) => -score(p.chunk)
  }

  lemma {:induction false} SortByAgree<T>(s: seq<T>, k1: T -> int, k2: T -> int)
    requires forall y :: y in s ==> k1(y) == k2(y)
    ensures SortBy(s, k1) == SortBy(s, k2)
  {
    if s != [] {
      SortByAgree(s[1..], k1, k2);
      var t := SortBy(s[1..], k1);
      assert forall y :: y in t ==> y in multiset(s[1..]);
      InsertAgree(s[0], t, k1, k2);
    }
  }

  lemma {:induction false} InsertAgree<T>(x: T, s: seq<T>, k1: T -> int, k2: T -> int)
    requires k1(x) == k2(x) && forall y :: y in s ==> k1(y) == k2(y)
    ensures InsertBy(x, s, k1) == InsertBy(x, s, k2)
  {
    if s != [] && k1(x) > k1(s[0]) {
      InsertAgree(x, s[1..], k1, k2);
    }
  }

  lemma {:induction false} SecondsInsert(p: ScoredChunk, ps: seq<ScoredChunk>, score: ChunkRecord -> int)
    ensures Seconds(InsertBy(p, ps, PairDesc(score))) == InsertBy(p.chunk, Seconds(ps), Desc(score))
  {
    var qs := Seconds(ps);
    if ps == [] || PairDesc(score)(p) <= PairDesc(score)(ps[0]) {
      assert ([p] + ps)[1..] == ps;
    } else {
      var tail := InsertBy(p, ps[1..], PairDesc(score));
      SecondsInsert(p, ps[1..], score);
      assert ([ps[0]] + tail)[1..] == tail;
    }
  }

  /** Sorting the scored pairs and dropping the scores is sorting the chunks by score, descending. */
  lemma {:induction false} SecondsSort(chunks: seq<ChunkRecord>, score: ChunkRecord -> int)
    ensures Seconds(SortBy(Scored(chunks, score), PairDesc(score))) == SortBy(chunks, Desc(score))
  {
    if chunks != [] {
      var ps := Scored(chunks, score);
      assert ps[1..] == Scored(chunks[1..], score);
      SecondsSort(chunks[1..], score);
      SecondsInsert(ps[0], SortBy(ps[1..], PairDesc(score)), score);
    }
  }

  /**
    `search` with the query's similarity to each chunk given as `score`: nothing for an
    empty index; otherwise the `topK` best chunks, best first, ties in index order.
   */
  method Search(chunks: seq<ChunkRecord>, score: ChunkRecord -> int, topK: int) returns (hits: seq<ChunkRecord>)
    ensures hits == PyTake(SortBy(chunks, Desc(score)), topK)
  {
    if chunks == [] {
      return [];
    }
    var scored: seq<ScoredChunk> := [];
    for i := 0 to |chunks|
      invariant |scored| == i
      invariant forall j :: 0 <= j < i ==> scored[j] == ScoredChunk(score(chunks[j]), chunks[j])
    {
      scored := scored + [ScoredChunk(score(chunks[i]), chunks[i])];
    }
    assert scored == Scored(chunks, score);
    var ranked := SortBy(scored, NegFirst);
    hits := Seconds(PyTake(ranked, topK));
    RankingIsByScore(chunks, score, topK);
  }

  /** Every pair carries its chunk's score, so the stored score and the recomputed one rank alike. */
  lemma ScoredKeysAgree(chunks: seq<ChunkRecord>, score: ChunkRecord -> int)
    ensures SortBy(Scored(chunks, score), NegFirst) == SortBy(Scored(chunks, score), PairDesc(score))
  {
    var scored := Scored(chunks, score);
    forall y | y in scored ensures NegFirst(y) == PairDesc(score)(y) {
      var i :| 0 <= i < |scored| && scored[i] == y;
    }
    SortByAgree(scored, NegFirst, PairDesc(score));
  }

  /** Dropping the scores commutes with taking a prefix. */
  lemma SecondsTake(ps: seq<ScoredChunk>, k: int)
    ensures Seconds(PyTake(ps, k)) == PyTake(Seconds(ps), k)
  {
    var top := PyTake(ps, k);
    assert |PyTake(Seconds(ps), k)| == |top|;
    assert Seconds(top) == Seconds(ps)[..|top|];
  }

  /** Sorting the pairs on their stored score ranks the chunks by score, descending. */
  lemma RankingIsByScore(chunks: seq<ChunkRecord>, score: ChunkRecord -> int, topK: int)
    ensures Seconds(PyTake(SortBy(Scored(chunks, score), NegFirst), topK))
         == PyTake(SortBy(chunks, Desc(score)), topK)
  {
    ScoredKeysAgree(chunks, score);
    SecondsSort(chunks, score);
    SecondsTake(SortBy(Scored(chunks, score), NegFirst), topK);
  }

  /** The hits come best first: scores never increase along the result. */
  lemma TopKOrdered(chunks: seq<ChunkRecord>, score: ChunkRecord -> int, topK: int)
    ensures var hits := PyTake(SortBy(chunks, Desc(score)), topK);
      forall i, j :: 0 <= i < j < |hits| ==> score(hits[i]) >= score(hits[j])
  {
    var ranked := SortBy(chunks, Desc(score));
    var hits := PyTake(ranked, topK);
    forall i, j | 0 <= i < j < |hits| ensures score(hits[i]) >= score(hits[j]) {
      assert hits[i] == ranked[i] && hits[j] == ranked[j];
      assert Desc(score)(ranked[i]) <= Desc(score)(ranked[j]);
    }
  }

  /** The hits are drawn from the index, and there are `topK` of them when the index is large enough. */
  lemma TopKDrawn(chunks: seq<ChunkRecord>, score: ChunkRecord -> int, topK: int)
    ensures var hits := PyTake(SortBy(chunks, Desc(score)), topK);
      && (0 <= topK ==> |hits| == Min(topK, |chunks|))
      && multiset(hits) <= multiset(chunks)
  {
    var ranked := SortBy(chunks, Desc(score));
    var hits := PyTake(ranked, topK);
    assert ranked == hits + ranked[|hits|..];
  }

  /** No chunk left out scores above a chunk returned. */
  lemma TopKBest(chunks: seq<ChunkRecord>, score: ChunkRecord -> int, topK: int)
    ensures var hits := PyTake(SortBy(chunks, Desc(score)), topK);
      forall c, h :: c in multiset(chunks) - multiset(hits) && h in hits ==> score(c) <= score(h)
  {
    var ranked := SortBy(chunks, Desc(score));
    var hits := PyTake(ranked, topK);
    var rest := ranked[|hits|..];
    assert multiset(chunks) == multiset(hits) + multiset(rest) by {
      assert ranked == hits + rest;
    }
    forall c, h | c in multiset(chunks) - multiset(hits) && h in hits ensures score(c) <= score(h) {
      assert c in multiset(rest);
      var j :| 0 <= j < |rest| && rest[j] == c;
      var i :| 0 <= i < |hits| && hits[i] == h;
      assert ranked[i] == h && ranked[|hits| + j] == c;
      assert Desc(score)(ranked[i]) <= Desc(score)(ranked[|hits| + j]);
    }
  }
}
