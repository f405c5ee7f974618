/**
 * `searchRelevantChunks(knowledgeBaseIds, queryEmbedding, limit)` (lib/db.ts):
 * the chunks of the given knowledge bases ordered by their distance to the
 * query vector, closest first, cut at `limit` rows.
 *
 * pgvector's cosine distance is replaced by an abstract integer distance
 * `dist(chunkEmbedding, query)`; rows at equal distance may come back in any
 * order, so the specification is a predicate and the method computes one of
 * the results it admits.
 */
module ChunkSearch {
  import opened Wrappers
  import opened Store

  /** One row of the query: `kc.id, kc.content, kc."knowledgeBaseId"` and the distance. */
  datatype Hit = Hit(id: string, content: string, knowledgeBaseId: string, similarity: int)

  function HitOf(c: Chunk, query: seq<real>, dist: (seq<real>, seq<real>) -> int): Hit {
    Hit(c.id, c.content, c.knowledgeBaseId, dist(c.embedding, query))
  }

  /** The rows the `WHERE kc."knowledgeBaseId" IN (…)` clause admits. */
  function Candidates(db: Db, kbIds: seq<string>, query: seq<real>, dist: (seq<real>, seq<real>) -> int)
    : (r: set<Hit>)
    ensures forall h :: h in r ==> h.knowledgeBaseId in kbIds
    ensures forall k :: k in db.chunks && db.chunks[k].knowledgeBaseId in kbIds ==> HitOf(db.chunks[k], query, dist) in r
    ensures forall h :: h in r ==> exists k :: k in db.chunks && HitOf(db.chunks[k], query, dist) == h
  {
    set c | c in db.chunks.Values && c.knowledgeBaseId in kbIds :: HitOf(c, query, dist)
  }

  /** `ORDER BY similarity ASC LIMIT limit` over the candidate rows: as many rows
      as the limit allows, no row twice, closest first, and no row left out is
      strictly closer than a row returned. */
  ghost predicate NearestFirst(cands: set<Hit>, limit: nat, hits: seq<Hit>) {
    && |hits| == (if limit <= |cands| then limit else |cands|)
    && (forall i :: 0 <= i < |hits| ==> hits[i] in cands)
    && (forall i, j :: 0 <= i < j < |hits| ==> hits[i] != hits[j])
    && (forall i, j :: 0 <= i < j < |hits| ==> hits[i].similarity <= hits[j].similarity)
    && (forall h, i :: h in cands && h !in hits && 0 <= i < |hits| ==> hits[i].similarity <= h.similarity)
  }

  /** With a limit that covers every candidate, every candidate is returned. */
  lemma NearestFirstTakesAll(cands: set<Hit>, limit: nat, hits: seq<Hit>)
    requires NearestFirst(cands, limit, hits) && |cands| <= limit
    ensures forall h :: h in cands ==> h in hits
  {
    forall h | h in cands
      ensures h in hits
    {
      if h !in hits {
        DistinctWithin(hits, cands - {h});
      }
    }
  }

  /** A sequence without repeats drawn from a set is no longer than the set. */
  lemma {:induction false} DistinctWithin(hits: seq<Hit>, pool: set<Hit>)
    requires forall i :: 0 <= i < |hits| ==> hits[i] in pool
    requires forall i, j :: 0 <= i < j < |hits| ==> hits[i] != hits[j]
    ensures |hits| <= |pool|
  {
    if |hits| > 0 {
      DistinctWithin(hits[1..], pool - {hits[0]});
    }
  }

  /** A row of the pool at the smallest distance. */
  method Closest(pool: set<Hit>) returns (h: Hit)
    requires pool != {}
    ensures h in pool
    ensures forall g :: g in pool ==> h.similarity <= g.similarity
  {
    h :| h in pool;
    var rest := pool - {h};
    while rest != {}
      invariant rest <= pool && h in pool
      invariant forall g :: g in pool && g !in rest ==> h.similarity <= g.similarity
      decreases rest
    {
      var g :| g in rest;
      if g.similarity < h.similarity {
        h := g;
      }
      rest := rest - {g};
    }
  }

  /** `ORDER BY similarity ASC LIMIT limit`: repeatedly takes a closest
      remaining row. */
  method TakeNearest(cands: set<Hit>, limit: nat) returns (hits: seq<Hit>)
    ensures NearestFirst(cands, limit, hits)
  {
    var pool := cands;
    hits := [];
    while |hits| < limit && pool != {}
      invariant |hits| <= limit
      invariant |hits| + |pool| == |cands|
      invariant forall g :: g in pool <==> g in cands && g !in hits
      invariant forall i :: 0 <= i < |hits| ==> hits[i] in cands
      invariant forall i, j :: 0 <= i < j < |hits| ==> hits[i] != hits[j]
      invariant forall i, j :: 0 <= i < j < |hits| ==> hits[i].similarity <= hits[j].similarity
      invariant forall g, i :: g in pool && 0 <= i < |hits| ==> hits[i].similarity <= g.similarity
      decreases pool
    {
      var h := Closest(pool);
      assert |pool - {h}| == |pool| - 1;
      assert forall i :: 0 <= i < |hits| ==> hits[i] != h;
      hits := hits + [h];
      pool := pool - {h};
    }
  }

  /** The query itself. `Prisma.join` refuses an empty list, so an empty
      `knowledgeBaseIds` makes the call throw. */
  method SearchRelevantChunks(db: Db, kbIds: seq<string>, query: seq<real>, limit: nat,
                              dist: (seq<real>, seq<real>) -> int)
    returns (r: Result<seq<Hit>, DbError>)
    ensures r.Failure? <==> |kbIds| == 0
    ensures r.Failure? ==> r.error == EmptyIdList
    ensures r.Success? ==> |r.value| <= limit
    ensures r.Success? ==> NearestFirst(Candidates(db, kbIds, query, dist), limit, r.value)
    ensures r.Success? ==> forall i :: 0 <= i < |r.value| ==> r.value[i].knowledgeBaseId in kbIds
  {
    if |kbIds| == 0 {
      return Failure(EmptyIdList);
    }
    var cands := Candidates(db, kbIds, query, dist);
    var hits := TakeNearest(cands, limit);
    assert forall h :: h in cands ==> h.knowledgeBaseId in kbIds;
    return Success(hits);
  }
}
