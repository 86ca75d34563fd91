/**
 * The evidence retriever (retrieval/retrieve.py): ranks a book's chunks by
 * their similarity to a query, keeps the `top_k` best and, of those, the ones
 * at or above the similarity threshold, each as a copy of the stored chunk with
 * its similarity attached.
 */
module Retrieve {
  import opened Wrappers
  import opened Seqs
  import opened Records

  /** The `retrieval` section of the configuration. */
  datatype RetrievalConfig = RetrievalConfig(topK: nat, threshold: real)

  /**
   * What the index holds for one book: its chunks, and the similarity of chunk
   * `i` to a query (the cosine of their embeddings, which this model takes as given).
   */
  datatype BookIndex = BookIndex(chunks: seq<Chunk>, similarity: (string, nat) -> real)

  /** The index of every book, by book id; `get_book_index` gives `None` for a missing id. */
  type Index = map<string, BookIndex>

  /** The similarity of each of the book's chunks to the query, in chunk order. */
  function Similarities(book: BookIndex, query: string): (sims: seq<real>)
    ensures |sims| == |book.chunks|
    ensures forall i :: 0 <= i < |sims| ==> sims[i] == book.similarity(query, i)
  {
    seq(|book.chunks|, i requires 0 <= i < |book.chunks| => book.similarity(query, i))
  }

  // ---------------------------------------------------------------------------
  // Ranking: `np.argsort(similarities)[::-1]`
  // ---------------------------------------------------------------------------

  /** Every entry is a position of a list of length `n`. */
  predicate Indexes(rank: seq<nat>, n: nat)
  {
    forall p :: 0 <= p < |rank| ==> rank[p] < n
  }

  /** No entry of `rank` has a similarity above `v`. */
  predicate Bounded(rank: seq<nat>, sims: seq<real>, v: real)
    requires Indexes(rank, |sims|)
  {
    forall p :: 0 <= p < |rank| ==> sims[rank[p]] <= v
  }

  /** The entries' similarities never increase along `rank`. */
  predicate Descending(rank: seq<nat>, sims: seq<real>)
    requires Indexes(rank, |sims|)
  {
    forall p, q :: 0 <= p < q < |rank| ==> sims[rank[q]] <= sims[rank[p]]
  }

  /** The positions `0, 1, ..., n - 1`. */
  function Range(n: nat): (r: seq<nat>)
    ensures |r| == n && forall i :: 0 <= i < n ==> r[i] == i
  {
    seq(n, i => i)
  }

  /**
   * What a descending argsort returns, whatever its order among equal
   * similarities: every position exactly once, by non-increasing similarity.
   */
  predicate IsRanking(rank: seq<nat>, sims: seq<real>)
  {
    && Indexes(rank, |sims|)
    && multiset(rank) == multiset(Range(|sims|))
    && Descending(rank, sims)
  }

  /** Places position `i` before the first entry of `rank` whose similarity is lower than its own. */
  function Insert(i: nat, rank: seq<nat>, sims: seq<real>): (r: seq<nat>)
    requires i < |sims| && Indexes(rank, |sims|)
    ensures Indexes(r, |sims|)
    ensures multiset(r) == multiset(rank) + multiset{i}
  {
    if rank == [] then [i]
    else if sims[rank[0]] < sims[i] then [i] + rank
    else
      assert rank == [rank[0]] + rank[1..];
      [rank[0]] + Insert(i, rank[1..], sims)
  }

  /** The first `n` positions, ranked by insertion. */
  function RankPrefix(sims: seq<real>, n: nat): (r: seq<nat>)
    requires n <= |sims|
    ensures Indexes(r, |sims|)
    ensures multiset(r) == multiset(Range(n))
  {
    if n == 0 then []
    else
      assert Range(n) == Range(n - 1) + [n - 1];
      Insert(n - 1, RankPrefix(sims, n - 1), sims)
  }

  /** `np.argsort(similarities)[::-1]`, with ties listed in position order. */
  function Argsort(sims: seq<real>): seq<nat>
  {
    RankPrefix(sims, |sims|)
  }

  lemma {:induction false} InsertBounded(i: nat, rank: seq<nat>, sims: seq<real>, v: real)
    requires i < |sims| && Indexes(rank, |sims|)
    requires Bounded(rank, sims, v) && sims[i] <= v
    ensures Bounded(Insert(i, rank, sims), sims, v)
  {
    if rank != [] && sims[i] <= sims[rank[0]] {
      InsertBounded(i, rank[1..], sims, v);
    }
  }

  lemma DescendingCons(x: nat, rank: seq<nat>, sims: seq<real>)
    requires x < |sims| && Indexes(rank, |sims|)
    requires Descending(rank, sims) && Bounded(rank, sims, sims[x])
    ensures Indexes([x] + rank, |sims|) && Descending([x] + rank, sims)
  {
    var r := [x] + rank;
    forall p, q | 0 <= p < q < |r|
      ensures sims[r[q]] <= sims[r[p]]
    {
      assert r[q] == rank[q - 1];
      if p > 0 {
        assert r[p] == rank[p - 1];
      }
    }
  }

  /** Insertion keeps a ranking descending. */
  lemma {:induction false} InsertDescending(i: nat, rank: seq<nat>, sims: seq<real>)
    requires i < |sims| && Indexes(rank, |sims|) && Descending(rank, sims)
    ensures Descending(Insert(i, rank, sims), sims)
  {
    if rank == [] {
    } else if sims[rank[0]] < sims[i] {
      assert Bounded(rank, sims, sims[i]) by {
        forall p | 0 <= p < |rank|
          ensures sims[rank[p]] <= sims[i]
        {
          assert sims[rank[p]] <= sims[rank[0]];
        }
      }
      DescendingCons(i, rank, sims);
    } else {
      var tail := rank[1..];
      assert Descending(tail, sims) by {
        forall p, q | 0 <= p < q < |tail|
          ensures sims[tail[q]] <= sims[tail[p]]
        {
          assert tail[p] == rank[p + 1] && tail[q] == rank[q + 1];
        }
      }
      assert Bounded(tail, sims, sims[rank[0]]) by {
        forall p | 0 <= p < |tail|
          ensures sims[tail[p]] <= sims[rank[0]]
        {
          assert tail[p] == rank[p + 1];
        }
      }
      InsertDescending(i, tail, sims);
      InsertBounded(i, tail, sims, sims[rank[0]]);
      DescendingCons(rank[0], Insert(i, tail, sims), sims);
    }
  }

  lemma {:induction false} RankPrefixDescending(sims: seq<real>, n: nat)
    requires n <= |sims|
    ensures Descending(RankPrefix(sims, n), sims)
  {
    if n > 0 {
      RankPrefixDescending(sims, n - 1);
      InsertDescending(n - 1, RankPrefix(sims, n - 1), sims);
    }
  }

  /** The argsort lists every position once, by non-increasing similarity. */
  lemma ArgsortIsRanking(sims: seq<real>)
    ensures IsRanking(Argsort(sims), sims)
  {
    RankPrefixDescending(sims, |sims|);
  }

  /** A ranking has one entry per position, and every position is an entry. */
  lemma RankingCovers(rank: seq<nat>, sims: seq<real>, k: nat)
    requires IsRanking(rank, sims) && k < |sims|
    ensures |rank| == |sims|
    ensures exists q :: 0 <= q < |rank| && rank[q] == k
  {
    assert |multiset(rank)| == |multiset(Range(|sims|))|;
    assert Range(|sims|)[k] == k;
    assert k in multiset(Range(|sims|));
    assert k in rank;
  }

  // ---------------------------------------------------------------------------
  // Selection: the loop over the top-k positions
  // ---------------------------------------------------------------------------

  /** The loop body for one ranked position: a copy of the chunk with its similarity, if that reaches the threshold. */
  function Pick(chunks: seq<Chunk>, sims: seq<real>, threshold: real, idx: nat): (e: Option<Evidence>)
    ensures e.Some? <==> idx < |chunks| && idx < |sims| && sims[idx] >= threshold
    ensures e.Some? ==> e.value == Evidence(chunks[idx], sims[idx])
  {
    if idx < |chunks| && idx < |sims| && sims[idx] >= threshold then Some(Evidence(chunks[idx], sims[idx])) else None
  }

  function Picker(chunks: seq<Chunk>, sims: seq<real>, threshold: real): nat -> Option<Evidence>
  {
    (idx: nat) => Pick(chunks, sims, threshold, idx)
  }

  /** The evidence the loop gathers when the chunks are ranked by `rank`. */
  function Selection(config: RetrievalConfig, chunks: seq<Chunk>, sims: seq<real>, rank: seq<nat>): seq<Evidence>
  {
    FilterMap<nat, Evidence>(Take(rank, config.topK), Picker(chunks, sims, config.threshold))
  }

  /** `retrieve(query, book_id)` for a book in the index. */
  function Retrieved(config: RetrievalConfig, book: BookIndex, query: string): seq<Evidence>
  {
    var sims := Similarities(book, query);
    Selection(config, book.chunks, sims, Argsort(sims))
  }

  /** `retrieve(query, book_id)`: nothing for a book the index does not hold. */
  function RetrievedFor(config: RetrievalConfig, index: Index, query: string, bookId: string): seq<Evidence>
  {
    if bookId in index then Retrieved(config, index[bookId], query) else []
  }

  /** `EvidenceRetriever.retrieve`: rank, cut to `top_k`, then copy each chunk that reaches the threshold. */
  method RetrieveEvidence(config: RetrievalConfig, index: Index, query: string, bookId: string) returns (results: seq<Evidence>)
    ensures results == RetrievedFor(config, index, query, bookId)
  {
    if bookId !in index {
      return [];
    }
    var book := index[bookId];
    var sims := Similarities(book, query);
    var top := Take(Argsort(sims), config.topK);
    ghost var pick := Picker(book.chunks, sims, config.threshold);
    results := [];
    var i := 0;
    while i < |top|
      invariant 0 <= i <= |top|
      invariant results == FilterMap<nat, Evidence>(top[..i], pick)
    {
      var idx := top[i];
      FilterMapStep(top, pick, i);
      if idx < |sims| && sims[idx] >= config.threshold {
        results := results + [Evidence(book.chunks[idx], sims[idx])];
      }
      i := i + 1;
    }
    assert top[..|top|] == top;
  }

  // ---------------------------------------------------------------------------
  // What the selection promises, for every ranking an argsort may return
  // ---------------------------------------------------------------------------

  /** At most `top_k` chunks are returned. */
  lemma SelectionBound(config: RetrievalConfig, chunks: seq<Chunk>, sims: seq<real>, rank: seq<nat>)
    ensures |Selection(config, chunks, sims, rank)| <= config.topK
  {
  }

  /**
   * The i-th result is the chunk at the i-th kept entry of the top `top_k`,
   * copied with its similarity, which reaches the threshold.
   */
  lemma SelectionPicks(config: RetrievalConfig, chunks: seq<Chunk>, sims: seq<real>, rank: seq<nat>)
    ensures var top := Take(rank, config.topK);
      var kept := KeptPositions<nat, Evidence>(top, Picker(chunks, sims, config.threshold));
      && |kept| == |Selection(config, chunks, sims, rank)|
      && forall i :: 0 <= i < |kept| ==>
           && kept[i] < |top| && top[kept[i]] < |chunks| && top[kept[i]] < |sims|
           && Selection(config, chunks, sims, rank)[i] == Evidence(chunks[top[kept[i]]], sims[top[kept[i]]])
           && Selection(config, chunks, sims, rank)[i].similarity >= config.threshold
  {
    var top := Take(rank, config.topK);
    var pick := Picker(chunks, sims, config.threshold);
    KeptPositionsCount(top, pick);
    FilterMapKeeps(top, pick);
  }

  /** Every result is a copy of some stored chunk carrying that chunk's similarity, at or above the threshold. */
  lemma SelectionCopies(config: RetrievalConfig, chunks: seq<Chunk>, sims: seq<real>, rank: seq<nat>)
    ensures forall i :: 0 <= i < |Selection(config, chunks, sims, rank)| ==>
      && Selection(config, chunks, sims, rank)[i].similarity >= config.threshold
      && exists k :: 0 <= k < |chunks| && k < |sims| && Selection(config, chunks, sims, rank)[i] == Evidence(chunks[k], sims[k])
  {
    var top := Take(rank, config.topK);
    var pick := Picker(chunks, sims, config.threshold);
    var kept := KeptPositions<nat, Evidence>(top, pick);
    SelectionPicks(config, chunks, sims, rank);
    forall i | 0 <= i < |Selection(config, chunks, sims, rank)|
      ensures exists k :: 0 <= k < |chunks| && k < |sims| && Selection(config, chunks, sims, rank)[i] == Evidence(chunks[k], sims[k])
    {
      var k := top[kept[i]];
      assert Selection(config, chunks, sims, rank)[i] == Evidence(chunks[k], sims[k]);
    }
  }

  /** Along a descending ranking, the results come by non-increasing similarity. */
  lemma SelectionDescending(config: RetrievalConfig, chunks: seq<Chunk>, sims: seq<real>, rank: seq<nat>)
    requires IsRanking(rank, sims)
    ensures forall i, j :: 0 <= i < j < |Selection(config, chunks, sims, rank)| ==>
      Selection(config, chunks, sims, rank)[j].similarity <= Selection(config, chunks, sims, rank)[i].similarity
  {
    var r := Selection(config, chunks, sims, rank);
    var top := Take(rank, config.topK);
    var pick := Picker(chunks, sims, config.threshold);
    var kept := KeptPositions<nat, Evidence>(top, pick);
    SelectionPicks(config, chunks, sims, rank);
    KeptPositionsIncrease(top, pick);
    forall i, j | 0 <= i < j < |r|
      ensures r[j].similarity <= r[i].similarity
    {
      assert kept[i] < kept[j];
      assert top[kept[i]] == rank[kept[i]] && top[kept[j]] == rank[kept[j]];
    }
  }

  /**
   * A chunk whose similarity is strictly above that of a returned chunk is
   * returned too: it is ranked earlier, so it is within the top `top_k`, and
   * it reaches the threshold.
   */
  lemma SelectionKeepsBetter(config: RetrievalConfig, chunks: seq<Chunk>, sims: seq<real>, rank: seq<nat>, i: nat, k: nat)
    requires IsRanking(rank, sims) && |chunks| == |sims|
    requires i < |Selection(config, chunks, sims, rank)| && k < |sims|
    requires sims[k] > Selection(config, chunks, sims, rank)[i].similarity
    ensures exists j :: 0 <= j < |Selection(config, chunks, sims, rank)| && Selection(config, chunks, sims, rank)[j] == Evidence(chunks[k], sims[k])
  {
    var r := Selection(config, chunks, sims, rank);
    var top := Take(rank, config.topK);
    var pick := Picker(chunks, sims, config.threshold);
    var kept := KeptPositions<nat, Evidence>(top, pick);
    SelectionPicks(config, chunks, sims, rank);
    RankingCovers(rank, sims, k);
    var q :| 0 <= q < |rank| && rank[q] == k;
    var p := kept[i];
    assert top[p] == rank[p];
    assert q < p;
    assert top[q] == k;
    assert pick(top[q]).Some?;
    KeptPositionsComplete(top, pick);
    assert q in kept;
    var j :| 0 <= j < |kept| && kept[j] == q;
    assert r[j] == Evidence(chunks[k], sims[k]);
  }

  // ---------------------------------------------------------------------------
  // `retrieve_for_claims`
  // ---------------------------------------------------------------------------

  /**
   * `retrieve_for_claims`: one entry per distinct claim text, holding what
   * `retrieve` returns for it.
   */
  method RetrieveForClaims(config: RetrievalConfig, index: Index, claims: seq<string>, bookId: string)
    returns (evidenceMap: map<string, seq<Evidence>>)
    ensures evidenceMap.Keys == set c | c in claims
    ensures forall c :: c in evidenceMap ==> evidenceMap[c] == RetrievedFor(config, index, c, bookId)
  {
    evidenceMap := map[];
    var i := 0;
    while i < |claims|
      invariant 0 <= i <= |claims|
      invariant evidenceMap.Keys == set c | c in claims[..i]
      invariant forall c :: c in evidenceMap ==> evidenceMap[c] == RetrievedFor(config, index, c, bookId)
    {
      var evidence := RetrieveEvidence(config, index, claims[i], bookId);
      evidenceMap := evidenceMap[claims[i] := evidence];
      assert claims[..i + 1] == claims[..i] + [claims[i]];
      ClaimSetStep(claims[..i], claims[i]);
      i := i + 1;
    }
    assert claims[..|claims|] == claims;
  }

  lemma ClaimSetStep(prefix: seq<string>, claim: string)
    ensures (set c | c in prefix + [claim]) == (set c | c in prefix) + {claim}
  {
  }
}
