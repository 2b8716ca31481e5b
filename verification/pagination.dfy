/** The pagination arithmetic of `get_characters`: how many chunks, and the
    `(offset, limit)` of each. */
module Pagination {
  import opened Fetch

  /** `(total + limit - 1) // limit`, the ceiling of `total / limit`: the
      fewest chunks of `limit` records that hold `total` records. With a
      positive divisor Python's floor division agrees with Dafny's `/`. */
  function NumChunks(total: int, limit: int): (n: int)
    requires limit > 0
    ensures total <= 0 ==> n <= 0
    ensures total == 0 ==> n == 0
    ensures total > 0 ==> n >= 1
    ensures total > 0 ==> n * limit >= total
    ensures total > 0 ==> (n - 1) * limit < total
  {
    CeilingDivision(total, limit);
    (total + limit - 1) / limit
  }

  /** The arithmetic behind `NumChunks`. */
  lemma CeilingDivision(total: int, limit: int)
    requires limit > 0
    ensures total <= 0 ==> (total + limit - 1) / limit <= 0
    ensures total == 0 ==> (total + limit - 1) / limit == 0
    ensures total > 0 ==> (total + limit - 1) / limit >= 1
    ensures total > 0 ==> (total + limit - 1) / limit * limit >= total
    ensures total > 0 ==> ((total + limit - 1) / limit - 1) * limit < total
  {
    var m := total + limit - 1;
    var n := m / limit;
    assert m == n * limit + m % limit;
    assert 0 <= m % limit < limit;
    assert (n - 1) * limit == n * limit - limit;
  }

  /** `len(range(num_chunks))`: a non-positive count gives no chunks. */
  function ChunkCount(total: int, limit: int): nat
    requires limit > 0
  {
    var n := NumChunks(total, limit);
    if n <= 0 then 0 else n
  }

  /** `args_list`: one entry per chunk; chunk `i` starts at `i * limit` and
      asks for the full `limit` records, the last one included, with the
      configured credentials and endpoint. */
  function ChunkPlan(cfg: Config, total: int, limit: int): (plan: seq<ChunkArgs>)
    requires limit > 0
    ensures |plan| == ChunkCount(total, limit)
    ensures total <= 0 ==> plan == []
    ensures total > 0 ==> |plan| == NumChunks(total, limit)
    ensures forall i :: 0 <= i < |plan| ==>
      && plan[i].offset == i * limit
      && plan[i].limit == limit
      && plan[i].publicKey == cfg.publicKey
      && plan[i].privateKey == cfg.privateKey
      && plan[i].url == cfg.url
      && plan[i].endpoint == cfg.endpoint
  {
    seq(ChunkCount(total, limit),
        i => ChunkArgs(cfg.publicKey, cfg.privateKey, cfg.url, cfg.endpoint, i * limit, limit))
  }

  /** The record indices chunk `a` asks for: `[offset, offset + limit)`. */
  predicate Covers(a: ChunkArgs, k: int) {
    a.offset <= k < a.offset + a.limit
  }

  lemma MulAtLeastFactor(n: int, limit: int)
    requires n >= 1 && limit > 0
    ensures n * limit >= limit
  {
    assert n * limit == (n - 1) * limit + limit;
    assert (n - 1) * limit >= 0;
  }

  lemma MulStrictlyMonotone(i: int, j: int, limit: int)
    requires 0 <= i < j && limit > 0
    ensures i * limit + limit <= j * limit
  {
    assert j * limit == i * limit + (j - i) * limit;
    MulAtLeastFactor(j - i, limit);
  }

  /** Offsets strictly increase and the ranges are pairwise disjoint: each
      range ends no later than the next one starts. */
  lemma PlanRangesDisjoint(cfg: Config, total: int, limit: int)
    requires limit > 0
    ensures var plan := ChunkPlan(cfg, total, limit);
      forall i, j :: 0 <= i < j < |plan| ==> plan[i].offset + plan[i].limit <= plan[j].offset
    ensures var plan := ChunkPlan(cfg, total, limit);
      forall i, j, k ::
        (0 <= i < |plan| && 0 <= j < |plan| && Covers(plan[i], k) && Covers(plan[j], k)) ==> i == j
  {
    var plan := ChunkPlan(cfg, total, limit);
    forall i, j | 0 <= i < j < |plan|
      ensures plan[i].offset + plan[i].limit <= plan[j].offset
    {
      MulStrictlyMonotone(i, j, limit);
    }
    forall i, j, k | 0 <= i < |plan| && 0 <= j < |plan| && Covers(plan[i], k) && Covers(plan[j], k)
      ensures i == j
    {
      if i < j {
        MulStrictlyMonotone(i, j, limit);
      } else if j < i {
        MulStrictlyMonotone(j, i, limit);
      }
    }
  }

  /** Every record index in `[0, total)` lies in exactly one planned range,
      the one of chunk `k / limit`. */
  lemma PlanCoversEachIndexOnce(cfg: Config, total: int, limit: int, k: int)
    requires limit > 0
    requires 0 <= k < total
    ensures var plan := ChunkPlan(cfg, total, limit);
      && k / limit < |plan|
      && forall j :: 0 <= j < |plan| ==> (Covers(plan[j], k) <==> j == k / limit)
  {
    var plan := ChunkPlan(cfg, total, limit);
    var q := k / limit;
    var n := NumChunks(total, limit);
    assert k == q * limit + k % limit;
    assert q * limit <= k;
    if q >= n {
      MulStrictlyMonotone(n - 1, q, limit);
    }
    assert q < n;
    assert Covers(plan[q], k);
    PlanRangesDisjoint(cfg, total, limit);
  }

  /** The plan asks for nothing it does not need: every chunk starts inside
      `[0, total)`, so no chunk lies wholly past the end. */
  lemma PlanStartsInsideTotal(cfg: Config, total: int, limit: int)
    requires limit > 0
    ensures var plan := ChunkPlan(cfg, total, limit);
      forall j :: 0 <= j < |plan| ==> 0 <= plan[j].offset < total
  {
    var plan := ChunkPlan(cfg, total, limit);
    var n := NumChunks(total, limit);
    forall j | 0 <= j < |plan|
      ensures 0 <= plan[j].offset < total
    {
      assert plan[j].offset == j * limit;
      if j < n - 1 {
        MulStrictlyMonotone(j, n - 1, limit);
      }
    }
  }

  /** Euclidean division is determined by quotient and remainder. */
  lemma DivUnique(m: int, limit: int, q: int, r: int)
    requires limit > 0 && 0 <= r < limit
    requires m == q * limit + r
    ensures m / limit == q
  {
    var q' := m / limit;
    assert m == q' * limit + m % limit;
    if q' > q {
      assert q' * limit == q * limit + (q' - q) * limit;
      MulStrictlyMonotone(0, q' - q, limit);
    } else if q' < q {
      assert q * limit == q' * limit + (q - q') * limit;
      MulStrictlyMonotone(0, q - q', limit);
    }
  }

  /** The planned chunks hold exactly `total` records when `limit` divides
      it, and overshoot it otherwise. */
  lemma ChunkSpanVersusTotal(total: int, limit: int)
    requires limit > 0 && total > 0
    ensures NumChunks(total, limit) * limit >= total
    ensures NumChunks(total, limit) * limit > total <==> total % limit != 0
  {
    var t := total / limit;
    var r := total % limit;
    assert total == t * limit + r;
    if r == 0 {
      DivUnique(total + limit - 1, limit, t, limit - 1);
    } else {
      assert total + limit - 1 == (t + 1) * limit + (r - 1);
      DivUnique(total + limit - 1, limit, t + 1, r - 1);
    }
  }

  /** For a non-negative count, the planned chunks span fewer than
      `total + limit` records: the overshoot is less than one page. */
  lemma ChunkSpanBelowOnePageOver(total: int, limit: int)
    requires limit > 0 && total >= 0
    ensures ChunkCount(total, limit) * limit < total + limit
  {
    if total > 0 {
      var n := NumChunks(total, limit);
      assert n * limit == (n - 1) * limit + limit;
    }
  }

  /** The last chunk is not shortened: it asks for the full `limit`, ends at
      or after `total`, and strictly after exactly when `limit` does not
      divide `total`. */
  lemma LastChunkNotShortened(cfg: Config, total: int, limit: int)
    requires limit > 0
    requires total > 0
    ensures var plan := ChunkPlan(cfg, total, limit);
      && |plan| > 0
      && plan[|plan| - 1].limit == limit
      && plan[|plan| - 1].offset + limit >= total
      && (plan[|plan| - 1].offset + limit > total <==> total % limit != 0)
  {
    ChunkSpanVersusTotal(total, limit);
    var n := NumChunks(total, limit);
    var plan := ChunkPlan(cfg, total, limit);
    assert plan[n - 1].offset + limit == n * limit;
  }
}
