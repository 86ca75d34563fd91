/** The novel ingestor: cutting a book into overlapping windows of words. */
module Ingest {
  import opened Strings
  import opened Seqs
  import opened Records
  import opened Wrappers

  /** The `pathway` section of the configuration. */
  datatype ChunkingConfig = ChunkingConfig(chunkSize: int, chunkOverlap: int, minChunkSize: int)

  /** How far the window moves from one round to the next. */
  function Stride(config: ChunkingConfig): int
  {
    config.chunkSize - config.chunkOverlap
  }

  /** Python's `s[a:b]` for a start inside the list and any stop: a negative stop counts from the end. */
  function Slice<T>(s: seq<T>, a: nat, b: int): (r: seq<T>)
    requires a <= |s|
    ensures 0 <= b <= |s| && a <= b ==> r == s[a..b]
    ensures b >= 0 && b <= a ==> r == []
    ensures |r| <= |s| - a
  {
    var stop := if b >= 0 then Min(b, |s|) else if |s| + b < 0 then 0 else |s| + b;
    if stop <= a then [] else s[a..stop]
  }

  /** The identifier of the chunk at a position: `f"{book_id}_chunk_{chunk_idx}"`. */
  function ChunkId(bookId: string, idx: nat): string
  {
    bookId + "_chunk_" + NatToString(idx)
  }

  /** Chunks of different positions of one book have different identifiers. */
  lemma ChunkIdInjective(bookId: string, a: nat, b: nat)
    ensures ChunkId(bookId, a) == ChunkId(bookId, b) ==> a == b
  {
    var head := bookId + "_chunk_";
    if ChunkId(bookId, a) == ChunkId(bookId, b) {
      assert NatToString(a) == ChunkId(bookId, a)[|head|..];
      assert NatToString(b) == ChunkId(bookId, b)[|head|..];
      NatToStringInjective(a, b);
    }
  }

  /** The words of the window that starts at `start`: `words[start:min(start + chunk_size, len(words))]`. */
  function Window(config: ChunkingConfig, words: seq<string>, start: nat): seq<string>
    requires start <= |words|
  {
    Slice(words, start, Min(start + config.chunkSize, |words|))
  }

  /** The chunk the window at `start` gives when `kept` chunks are already kept. */
  function ChunkAt(config: ChunkingConfig, words: seq<string>, bookId: string, start: nat, kept: nat): (c: Chunk)
    requires start <= |words|
    ensures c.bookId == bookId && c.chunkId == ChunkId(bookId, kept) && c.position == kept
  {
    var text := Join(Window(config, words, start), " ");
    Chunk(text, bookId, ChunkId(bookId, kept), kept, |Words(text)|)
  }

  /**
   * The chunks the loop ends with when it reaches the window at `start` having kept `done`:
   * a window's chunk is kept when it has at least `min_chunk_size` words or nothing is kept yet.
   */
  function ChunksAcc(config: ChunkingConfig, words: seq<string>, bookId: string, start: nat, done: seq<Chunk>): seq<Chunk>
    requires start < |words| ==> Stride(config) > 0
    decreases |words| - start
  {
    if start >= |words| then done
    else
      var chunk := ChunkAt(config, words, bookId, start, |done|);
      var next := start + Stride(config);
      if chunk.wordCount >= config.minChunkSize || |done| == 0 then
        ChunksAcc(config, words, bookId, next, done + [chunk])
      else
        ChunksAcc(config, words, bookId, next, done)
  }

  /** The chunks of a whole text. The loop ends only when the window moves forward, so a text with words needs a positive stride. */
  function Chunks(config: ChunkingConfig, text: string, bookId: string): seq<Chunk>
    requires Words(text) != [] ==> Stride(config) > 0
  {
    ChunksAcc(config, Words(text), bookId, 0, [])
  }

  /** `NovelIngestor.chunk_text`. */
  method ChunkText(config: ChunkingConfig, text: string, bookId: string) returns (chunks: seq<Chunk>)
    requires Words(text) != [] ==> Stride(config) > 0
    ensures chunks == Chunks(config, text, bookId)
  {
    var words := Words(text);
    chunks := [];
    var start: nat := 0;
    var chunkIdx: nat := 0;
    while start < |words|
      invariant chunkIdx == |chunks|
      invariant ChunksAcc(config, words, bookId, start, chunks) == Chunks(config, text, bookId)
      decreases |words| - start
    {
      var chunk := ChunkAt(config, words, bookId, start, chunkIdx);
      if chunk.wordCount >= config.minChunkSize || chunkIdx == 0 {
        chunks := chunks + [chunk];
        chunkIdx := chunkIdx + 1;
      }
      start := start + Stride(config);
    }
  }

  /** The loop only appends: what is kept stays at the front. */
  lemma {:induction false} ChunksAccExtends(config: ChunkingConfig, words: seq<string>, bookId: string, start: nat, done: seq<Chunk>)
    requires start < |words| ==> Stride(config) > 0
    ensures |ChunksAcc(config, words, bookId, start, done)| >= |done|
    ensures ChunksAcc(config, words, bookId, start, done)[..|done|] == done
    decreases |words| - start
  {
    if start < |words| {
      var chunk := ChunkAt(config, words, bookId, start, |done|);
      var next := start + Stride(config);
      if chunk.wordCount >= config.minChunkSize || |done| == 0 {
        ChunksAccExtends(config, words, bookId, next, done + [chunk]);
        var r := ChunksAcc(config, words, bookId, next, done + [chunk]);
        assert r[..|done|] == r[..|done| + 1][..|done|];
      } else {
        ChunksAccExtends(config, words, bookId, next, done);
      }
    }
  }

  /** Chunk `i` sits at position `i`, carries identifier `f"{book_id}_chunk_{i}"` and names its book. */
  ghost predicate Numbered(bookId: string, chunks: seq<Chunk>)
  {
    forall i :: 0 <= i < |chunks| ==>
      chunks[i].position == i && chunks[i].chunkId == ChunkId(bookId, i) && chunks[i].bookId == bookId
  }

  lemma {:induction false} ChunksAccNumbered(config: ChunkingConfig, words: seq<string>, bookId: string, start: nat, done: seq<Chunk>)
    requires start < |words| ==> Stride(config) > 0
    requires Numbered(bookId, done)
    ensures Numbered(bookId, ChunksAcc(config, words, bookId, start, done))
    decreases |words| - start
  {
    if start < |words| {
      var chunk := ChunkAt(config, words, bookId, start, |done|);
      var next := start + Stride(config);
      if chunk.wordCount >= config.minChunkSize || |done| == 0 {
        assert Numbered(bookId, done + [chunk]);
        ChunksAccNumbered(config, words, bookId, next, done + [chunk]);
      } else {
        ChunksAccNumbered(config, words, bookId, next, done);
      }
    }
  }

  /** Every chunk after the first has at least `min_chunk_size` words. */
  ghost predicate LaterAreLarge(config: ChunkingConfig, chunks: seq<Chunk>)
  {
    forall i :: 0 < i < |chunks| ==> chunks[i].wordCount >= config.minChunkSize
  }

  lemma {:induction false} ChunksAccLaterAreLarge(config: ChunkingConfig, words: seq<string>, bookId: string, start: nat, done: seq<Chunk>)
    requires start < |words| ==> Stride(config) > 0
    requires LaterAreLarge(config, done)
    ensures LaterAreLarge(config, ChunksAcc(config, words, bookId, start, done))
    decreases |words| - start
  {
    if start < |words| {
      var chunk := ChunkAt(config, words, bookId, start, |done|);
      var next := start + Stride(config);
      if chunk.wordCount >= config.minChunkSize || |done| == 0 {
        assert LaterAreLarge(config, done + [chunk]);
        ChunksAccLaterAreLarge(config, words, bookId, next, done + [chunk]);
      } else {
        ChunksAccLaterAreLarge(config, words, bookId, next, done);
      }
    }
  }

  /** Where the window of round `j` starts: `start` grows by the stride once per round. */
  function WindowStart(config: ChunkingConfig, j: nat): int
  {
    j * Stride(config)
  }

  /** A chunk is the joined window of some round whose start lies inside the text, and counts the words of its text. */
  ghost predicate IsWindowChunk(config: ChunkingConfig, words: seq<string>, c: Chunk)
  {
    && (exists j: nat :: 0 <= WindowStart(config, j) < |words| && c.text == Join(Window(config, words, WindowStart(config, j)), " "))
    && c.wordCount == |Words(c.text)|
  }

  ghost predicate FromWindows(config: ChunkingConfig, words: seq<string>, chunks: seq<Chunk>)
  {
    forall i :: 0 <= i < |chunks| ==> IsWindowChunk(config, words, chunks[i])
  }

  lemma {:induction false} ChunksAccFromWindows(config: ChunkingConfig, words: seq<string>, bookId: string, start: nat, done: seq<Chunk>, round: nat)
    requires start < |words| ==> Stride(config) > 0
    requires start == WindowStart(config, round)
    requires FromWindows(config, words, done)
    ensures FromWindows(config, words, ChunksAcc(config, words, bookId, start, done))
    decreases |words| - start
  {
    if start < |words| {
      var chunk := ChunkAt(config, words, bookId, start, |done|);
      var next := start + Stride(config);
      assert next == WindowStart(config, round + 1);
      if chunk.wordCount >= config.minChunkSize || |done| == 0 {
        assert chunk.text == Join(Window(config, words, start), " ");
        assert IsWindowChunk(config, words, chunk);
        assert FromWindows(config, words, done + [chunk]);
        ChunksAccFromWindows(config, words, bookId, next, done + [chunk], round + 1);
      } else {
        ChunksAccFromWindows(config, words, bookId, next, done, round + 1);
      }
    }
  }

  /** The window starts the loop visits from `start` on: each one stride past the last, while inside the text. */
  function StartsFrom(config: ChunkingConfig, n: nat, start: nat): seq<nat>
    requires start < n ==> Stride(config) > 0
    decreases n - start
  {
    if start >= n then [] else [start] + StartsFrom(config, n, start + Stride(config))
  }

  /**
   * The visited starts are `start`, then one stride further each time, all below `n`, up to the
   * last one from which a further stride leaves the text.
   */
  lemma {:induction false} StartsFromShape(config: ChunkingConfig, n: nat, start: nat)
    requires start < n ==> Stride(config) > 0
    ensures StartsFrom(config, n, start) == [] <==> start >= n
    ensures StartsFrom(config, n, start) != [] ==> StartsFrom(config, n, start)[0] == start
    ensures forall j :: 0 <= j < |StartsFrom(config, n, start)| ==> StartsFrom(config, n, start)[j] < n
    ensures forall j :: 0 <= j < |StartsFrom(config, n, start)| - 1 ==>
      StartsFrom(config, n, start)[j + 1] == StartsFrom(config, n, start)[j] + Stride(config)
    ensures StartsFrom(config, n, start) != [] ==>
      StartsFrom(config, n, start)[|StartsFrom(config, n, start)| - 1] + Stride(config) >= n
    decreases n - start
  {
    if start < n {
      var next := start + Stride(config);
      var rest := StartsFrom(config, n, next);
      StartsFromShape(config, n, next);
      assert StartsFrom(config, n, start) == [start] + rest;
    }
  }

  /** The text of the window at `start` if the loop keeps it: the first window always, a later one when it has at least `min_chunk_size` words. */
  function KeptText(config: ChunkingConfig, words: seq<string>, start: nat): Option<string>
  {
    if start > |words| then None
    else
      var text := Join(Window(config, words, start), " ");
      if start == 0 || |Words(text)| >= config.minChunkSize then Some(text) else None
  }

  /** `KeptText` as a function of the start, for filtering the visited starts. */
  function Keeper(config: ChunkingConfig, words: seq<string>): nat -> Option<string>
  {
    (start: nat) => KeptText(config, words, start)
  }

  /** The texts of a list of chunks, in order. */
  function Texts(chunks: seq<Chunk>): (texts: seq<string>)
    ensures |texts| == |chunks|
  {
    if chunks == [] then [] else Texts(chunks[..|chunks| - 1]) + [chunks[|chunks| - 1].text]
  }

  /** Each listed text is the text of the chunk at the same position. */
  lemma {:induction false} TextsAt(chunks: seq<Chunk>)
    ensures forall i :: 0 <= i < |chunks| ==> Texts(chunks)[i] == chunks[i].text
  {
    if chunks != [] {
      TextsAt(chunks[..|chunks| - 1]);
    }
  }

  lemma TextsAppend(done: seq<Chunk>, chunk: Chunk)
    ensures Texts(done + [chunk]) == Texts(done) + [chunk.text]
  {
    assert (done + [chunk])[..|done|] == done;
  }

  /** The window the loop reads at `start` is kept exactly when `KeptText` has its text. */
  lemma KeptTextOfChunk(config: ChunkingConfig, words: seq<string>, bookId: string, start: nat, kept: nat)
    requires start <= |words|
    ensures KeptText(config, words, start)
      == if start == 0 || ChunkAt(config, words, bookId, start, kept).wordCount >= config.minChunkSize
         then Some(ChunkAt(config, words, bookId, start, kept).text) else None
  {
  }

  /** One round of the loop that keeps its window, moving on to `next`. */
  lemma ChunksAccKeeps(config: ChunkingConfig, words: seq<string>, bookId: string, start: nat, next: nat, done: seq<Chunk>, kept: seq<Chunk>)
    requires start < |words| && Stride(config) > 0 && next == start + Stride(config)
    requires ChunkAt(config, words, bookId, start, |done|).wordCount >= config.minChunkSize || |done| == 0
    requires kept == done + [ChunkAt(config, words, bookId, start, |done|)]
    ensures ChunksAcc(config, words, bookId, start, done) == ChunksAcc(config, words, bookId, next, kept)
  {
  }

  /** One round of the loop that drops its window, moving on to `next`. */
  lemma ChunksAccDrops(config: ChunkingConfig, words: seq<string>, bookId: string, start: nat, next: nat, done: seq<Chunk>)
    requires start < |words| && Stride(config) > 0 && next == start + Stride(config)
    requires ChunkAt(config, words, bookId, start, |done|).wordCount < config.minChunkSize && |done| != 0
    ensures ChunksAcc(config, words, bookId, start, done) == ChunksAcc(config, words, bookId, next, done)
  {
  }

  /** The starts from `start` are `start` and then those from `next`, one stride further. */
  lemma StartsFromStep(config: ChunkingConfig, words: seq<string>, start: nat, next: nat)
    requires start < |words| && Stride(config) > 0 && next == start + Stride(config)
    ensures FilterMap(StartsFrom(config, |words|, start), Keeper(config, words))
      == Hit(KeptText(config, words, start)) + FilterMap(StartsFrom(config, |words|, next), Keeper(config, words))
  {
    var rest := StartsFrom(config, |words|, next);
    assert StartsFrom(config, |words|, start) == [start] + rest;
    FilterMapCons(start, rest, Keeper(config, words));
  }

  /** A window the loop keeps leads the kept texts from its start. */
  lemma KeptWindowLeads(config: ChunkingConfig, words: seq<string>, bookId: string, start: nat, next: nat, kept: nat)
    requires start < |words| && Stride(config) > 0 && next == start + Stride(config)
    requires ChunkAt(config, words, bookId, start, kept).wordCount >= config.minChunkSize || start == 0
    ensures FilterMap(StartsFrom(config, |words|, start), Keeper(config, words))
      == [ChunkAt(config, words, bookId, start, kept).text] + FilterMap(StartsFrom(config, |words|, next), Keeper(config, words))
  {
    StartsFromStep(config, words, start, next);
    KeptTextOfChunk(config, words, bookId, start, kept);
  }

  /** A window the loop drops adds nothing to the kept texts from its start. */
  lemma DroppedWindowAddsNothing(config: ChunkingConfig, words: seq<string>, bookId: string, start: nat, next: nat, kept: nat)
    requires start < |words| && Stride(config) > 0 && next == start + Stride(config)
    requires ChunkAt(config, words, bookId, start, kept).wordCount < config.minChunkSize && start != 0
    ensures FilterMap(StartsFrom(config, |words|, start), Keeper(config, words))
      == FilterMap(StartsFrom(config, |words|, next), Keeper(config, words))
  {
    StartsFromStep(config, words, start, next);
    KeptTextOfChunk(config, words, bookId, start, kept);
    var later := FilterMap(StartsFrom(config, |words|, next), Keeper(config, words));
    assert [] + later == later;
  }

  /** From `start` on, the loop appends the texts of the kept windows at the starts it visits, in order. */
  ghost predicate AppendsKeptTexts(config: ChunkingConfig, words: seq<string>, bookId: string, start: nat, done: seq<Chunk>)
    requires start < |words| ==> Stride(config) > 0
  {
    Texts(ChunksAcc(config, words, bookId, start, done))
      == Texts(done) + FilterMap(StartsFrom(config, |words|, start), Keeper(config, words))
  }

  /** A round that keeps its window adds that window's text in front of the later kept texts. */
  lemma {:induction false} KeptRoundTexts(config: ChunkingConfig, words: seq<string>, bookId: string, start: nat, next: nat, done: seq<Chunk>, kept: seq<Chunk>)
    requires start < |words| && Stride(config) > 0 && next == start + Stride(config)
    requires ChunkAt(config, words, bookId, start, |done|).wordCount >= config.minChunkSize || |done| == 0
    requires start == 0 <==> done == []
    requires kept == done + [ChunkAt(config, words, bookId, start, |done|)]
    requires AppendsKeptTexts(config, words, bookId, next, kept)
    ensures AppendsKeptTexts(config, words, bookId, start, done)
  {
    var chunk := ChunkAt(config, words, bookId, start, |done|);
    ChunksAccKeeps(config, words, bookId, start, next, done, kept);
    TextsAppend(done, chunk);
    KeptWindowLeads(config, words, bookId, start, next, |done|);
    AppendThenPrepend(Texts(done), chunk.text, FilterMap(StartsFrom(config, |words|, next), Keeper(config, words)));
  }

  /** A round that drops its window adds nothing in front of the later kept texts. */
  lemma {:induction false} DroppedRoundTexts(config: ChunkingConfig, words: seq<string>, bookId: string, start: nat, next: nat, done: seq<Chunk>)
    requires start < |words| && Stride(config) > 0 && next == start + Stride(config)
    requires ChunkAt(config, words, bookId, start, |done|).wordCount < config.minChunkSize && |done| != 0
    requires start == 0 <==> done == []
    requires AppendsKeptTexts(config, words, bookId, next, done)
    ensures AppendsKeptTexts(config, words, bookId, start, done)
  {
    ChunksAccDrops(config, words, bookId, start, next, done);
    DroppedWindowAddsNothing(config, words, bookId, start, next, |done|);
  }

  lemma {:induction false} ChunksAccKeptWindows(config: ChunkingConfig, words: seq<string>, bookId: string, start: nat, done: seq<Chunk>)
    requires start < |words| ==> Stride(config) > 0
    requires start == 0 <==> done == []
    ensures AppendsKeptTexts(config, words, bookId, start, done)
    decreases |words| - start
  {
    if start < |words| {
      var next := start + Stride(config);
      var chunk := ChunkAt(config, words, bookId, start, |done|);
      if chunk.wordCount >= config.minChunkSize || |done| == 0 {
        var kept := done + [chunk];
        ChunksAccKeptWindows(config, words, bookId, next, kept);
        KeptRoundTexts(config, words, bookId, start, next, done, kept);
      } else {
        ChunksAccKeptWindows(config, words, bookId, next, done);
        DroppedRoundTexts(config, words, bookId, start, next, done);
      }
    } else {
      assert StartsFrom(config, |words|, start) == [];
    }
  }

  /** A text without words gives no chunks; a text with words gives at least one, and the first is its first window, kept whatever its size. */
  lemma ChunksStart(config: ChunkingConfig, text: string, bookId: string)
    requires Words(text) != [] ==> Stride(config) > 0
    ensures Words(text) == [] <==> Chunks(config, text, bookId) == []
    ensures Words(text) != [] ==> Chunks(config, text, bookId)[0] == ChunkAt(config, Words(text), bookId, 0, 0)
  {
    var words := Words(text);
    if words != [] {
      var first := ChunkAt(config, words, bookId, 0, 0);
      ChunksAccExtends(config, words, bookId, Stride(config), [first]);
      var r := ChunksAcc(config, words, bookId, Stride(config), [first]);
      assert [] + [first] == [first];
      assert ChunksAcc(config, words, bookId, 0, []) == ChunksAcc(config, words, bookId, 0 + Stride(config), [] + [first]);
      assert Chunks(config, text, bookId) == r;
      assert r[0] == r[..1][0];
    }
  }

  /** Chunk `i` of a book sits at position `i` and is called `f"{book_id}_chunk_{i}"`, so identifiers never repeat. */
  lemma ChunksNumbered(config: ChunkingConfig, text: string, bookId: string)
    requires Words(text) != [] ==> Stride(config) > 0
    ensures Numbered(bookId, Chunks(config, text, bookId))
    ensures forall i, j :: 0 <= i < j < |Chunks(config, text, bookId)| ==>
      Chunks(config, text, bookId)[i].chunkId != Chunks(config, text, bookId)[j].chunkId
  {
    var chunks := Chunks(config, text, bookId);
    ChunksAccNumbered(config, Words(text), bookId, 0, []);
    forall i, j | 0 <= i < j < |chunks|
      ensures chunks[i].chunkId != chunks[j].chunkId
    {
      ChunkIdInjective(bookId, i, j);
    }
  }

  /** Only the first chunk may fall short of `min_chunk_size` words. */
  lemma ChunksLaterAreLarge(config: ChunkingConfig, text: string, bookId: string)
    requires Words(text) != [] ==> Stride(config) > 0
    ensures LaterAreLarge(config, Chunks(config, text, bookId))
  {
    ChunksAccLaterAreLarge(config, Words(text), bookId, 0, []);
  }

  /**
   * The chunks are exactly the kept windows in window order: their texts are the texts `KeptText`
   * gives at the starts the loop visits, and each chunk is the joined window of some round and
   * counts the words of its own text.
   */
  lemma ChunksFromWindows(config: ChunkingConfig, text: string, bookId: string)
    requires Words(text) != [] ==> Stride(config) > 0
    ensures Texts(Chunks(config, text, bookId)) == FilterMap(StartsFrom(config, |Words(text)|, 0), Keeper(config, Words(text)))
    ensures FromWindows(config, Words(text), Chunks(config, text, bookId))
  {
    ChunksAccKeptWindows(config, Words(text), bookId, 0, []);
    assert AppendsKeptTexts(config, Words(text), bookId, 0, []);
    assert Texts([]) == [];
    assert WindowStart(config, 0) == 0;
    ChunksAccFromWindows(config, Words(text), bookId, 0, [], 0);
  }

  /**
   * `chunk_text` as written with a chunk overlap at least the chunk size: the window never moves
   * forward, so at every round the start is still at or before the first word and the loop test
   * `start < len(words)` holds again on a text with words. The loop does not end.
   */
  lemma {:induction false} ChunkLoopNeverEnds(config: ChunkingConfig, words: seq<string>, round: nat)
    requires Stride(config) <= 0 && words != []
    ensures WindowStart(config, round) <= 0
    ensures WindowStart(config, round) < |words|
    decreases round
  {
    if round > 0 {
      ChunkLoopNeverEnds(config, words, round - 1);
      assert WindowStart(config, round) == WindowStart(config, round - 1) + Stride(config);
    }
  }

  /** With a positive `chunk_size`, a window's chunk holds between one and `chunk_size` of the text's words, consecutive and in order. */
  lemma WindowChunkWords(config: ChunkingConfig, text: string, c: Chunk)
    requires config.chunkSize > 0
    requires IsWindowChunk(config, Words(text), c)
    ensures 1 <= c.wordCount <= config.chunkSize
    ensures exists a, b :: 0 <= a < b <= |Words(text)| && Words(c.text) == Words(text)[a..b]
  {
    var words := Words(text);
    var j: nat :| 0 <= WindowStart(config, j) < |words| && c.text == Join(Window(config, words, WindowStart(config, j)), " ");
    WindowWords(config, text, WindowStart(config, j), c.text);
  }

  /** The words of the joined window at `a` are the window itself. */
  lemma WindowWords(config: ChunkingConfig, text: string, a: nat, chunkText: string)
    requires config.chunkSize > 0
    requires a < |Words(text)| && chunkText == Join(Window(config, Words(text), a), " ")
    ensures 1 <= |Words(chunkText)| <= config.chunkSize
    ensures Words(chunkText) == Words(text)[a..Min(a + config.chunkSize, |Words(text)|)]
  {
    var words := Words(text);
    var b := Min(a + config.chunkSize, |words|);
    assert Window(config, words, a) == words[a..b];
    WordsAreWords(text);
    forall k | 0 <= k < |words[a..b]|
      ensures IsWord(words[a..b][k])
    {
      assert words[a..b][k] == words[a + k];
    }
    WordsOfJoin(words[a..b]);
  }
}
