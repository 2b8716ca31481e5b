/** `get_characters`: count the records, plan the chunks, fetch them
    (sequentially or through the pool) and flatten the results. */
module Orchestrator {
  import opened Common
  import opened Records
  import opened Signing
  import opened Fetch
  import opened Pagination
  import opened Flattening
  import opened Pool

  /** The default page size, the API's maximum. */
  const DefaultLimit: int := 100

  /** The count request: a one-record page at offset 0, signed with the
      count's own timestamp. */
  function CountRequest(cfg: Config, io: Io): (req: Request)
    ensures req.endpointUrl == cfg.url + "/" + cfg.endpoint
    ensures req.params.limit == 1 && req.params.offset == 0
    ensures req.params.apikey == cfg.publicKey
    ensures req.params.ts == io.countTs
    ensures req.params.hash == io.md5(io.countTs + cfg.privateKey + cfg.publicKey)
  {
    Request(EndpointUrl(cfg.url, cfg.endpoint),
            BuildRequestParams(io.countTs, cfg.publicKey, cfg.privateKey, 1, 0, io.md5))
  }

  /** `raise_for_status()` then `response.json()['data']['total']`; nothing
      here is caught, so every failure propagates. */
  function ReadTotal(o: HttpOutcome): (r: Result<int>)
    ensures r.Ok? <==> o.Response? && o.payload.data.Some? && o.payload.data.value.total.Some?
    ensures r.Ok? ==> r.value == o.payload.data.value.total.value
    ensures r == Err(RequestFailed) <==> o.RequestError?
    ensures r.Err? && o.Response? ==> r.fault in {MissingKey("data"), MissingKey("total")}
    ensures o.Response? && o.payload.data.None? ==> r == Err(MissingKey("data"))
    ensures o.Response? && o.payload.data.Some? && o.payload.data.value.total.None? ==>
      r == Err(MissingKey("total"))
  {
    match o
    case RequestError => Err(RequestFailed)
    case Response(p) =>
      match p.data
      case None => Err(MissingKey("data"))
      case Some(d) =>
        match d.total
        case None => Err(MissingKey("total"))
        case Some(t) => Ok(t)
  }

  /** The worker every chunk is handed to. */
  function ChunkFetcher(io: Io): ChunkArgs -> Result<seq<Character>> {
    args => FetchCharactersChunk(args, io)
  }

  /** The records a chunk contributes when its fetch did not raise. */
  function ChunkRecords(args: ChunkArgs, io: Io): seq<Character> {
    match FetchCharactersChunk(args, io)
    case Ok(records) => records
    case Err(_) => []
  }

  /** The per-chunk results, by either execution strategy. */
  function FetchAll(args: seq<ChunkArgs>, useMultiprocessing: bool, io: Io): Result<seq<seq<Character>>> {
    if useMultiprocessing then PoolMap(ChunkFetcher(io), args, io.finish)
    else SequentialMap(ChunkFetcher(io), args)
  }

  /** `get_characters`. A failed or unreadable count propagates. Otherwise
      the result succeeds exactly when every planned chunk fetch does, and
      is then the planned chunks' records flattened in plan order. When
      chunks raise, the comprehension lets the first failing chunk's
      `KeyError` escape, and the pool that of the failed chunk whose task
      finished first. */
  function GetCharacters(cfg: Config, limit: int, useMultiprocessing: bool, io: Io): (r: Result<seq<Character>>)
    requires limit > 0
    ensures r == Err(RequestFailed) <==> io.net(CountRequest(cfg, io)).RequestError?
    ensures r.Err? ==> ReadTotal(io.net(CountRequest(cfg, io))).Err? || r.fault.MissingKey?
    ensures ReadTotal(io.net(CountRequest(cfg, io))).Err? ==> r == Err(ReadTotal(io.net(CountRequest(cfg, io))).fault)
    ensures ReadTotal(io.net(CountRequest(cfg, io))).Ok? ==>
      var plan := ChunkPlan(cfg, ReadTotal(io.net(CountRequest(cfg, io))).value, limit);
      && (r.Ok? <==> forall i :: 0 <= i < |plan| ==> FetchCharactersChunk(plan[i], io).Ok?)
      && (r.Ok? ==> r.value == Flatten(seq(|plan|, i requires 0 <= i < |plan| => ChunkRecords(plan[i], io))))
      && (r.Err? ==> exists i :: 0 <= i < |plan| && FetchCharactersChunk(plan[i], io) == Err(r.fault))
      && (!useMultiprocessing && r.Err? ==>
            exists i :: && 0 <= i < |plan|
                        && (forall j :: 0 <= j < i ==> FetchCharactersChunk(plan[j], io).Ok?)
                        && FetchCharactersChunk(plan[i], io) == Err(r.fault))
      && (useMultiprocessing && r.Err? ==>
            exists i :: && 0 <= i < |plan|
                        && FetchCharactersChunk(plan[i], io) == Err(r.fault)
                        && forall j :: 0 <= j < |plan| && FetchCharactersChunk(plan[j], io).Err? ==>
                             io.finish(plan[i]) <= io.finish(plan[j]))
  {
    match ReadTotal(io.net(CountRequest(cfg, io)))
    case Err(e) => Err(e)
    case Ok(total) =>
      var plan := ChunkPlan(cfg, total, limit);
      match FetchAll(plan, useMultiprocessing, io)
      case Err(e) => Err(e)
      case Ok(chunks) =>
        assert chunks == seq(|plan|, i requires 0 <= i < |plan| => ChunkRecords(plan[i], io));
        Ok(Flatten(chunks))
  }

  /** Whether the pool is used does not change whether `get_characters`
      succeeds, nor the records it returns. */
  lemma GetCharactersIgnoresMultiprocessing(cfg: Config, limit: int, io: Io)
    requires limit > 0
    ensures GetCharacters(cfg, limit, true, io).Ok? <==> GetCharacters(cfg, limit, false, io).Ok?
    ensures GetCharacters(cfg, limit, true, io).Ok? ==>
      GetCharacters(cfg, limit, true, io) == GetCharacters(cfg, limit, false, io)
  {
    match ReadTotal(io.net(CountRequest(cfg, io)))
    case Err(e) =>
    case Ok(total) =>
      PoolAgreesWithSequential(ChunkFetcher(io), ChunkPlan(cfg, total, limit), io.finish);
  }

  /** When the pool's tasks finish in plan order, using the pool changes
      nothing at all, not even which `KeyError` is raised. */
  lemma GetCharactersInOrderPoolIsSequential(cfg: Config, limit: int, io: Io)
    requires limit > 0
    requires ReadTotal(io.net(CountRequest(cfg, io))).Ok? ==>
      var plan := ChunkPlan(cfg, ReadTotal(io.net(CountRequest(cfg, io))).value, limit);
      forall i, j :: 0 <= i < j < |plan| ==> io.finish(plan[i]) <= io.finish(plan[j])
    ensures GetCharacters(cfg, limit, true, io) == GetCharacters(cfg, limit, false, io)
  {
    match ReadTotal(io.net(CountRequest(cfg, io)))
    case Err(e) =>
    case Ok(total) =>
      PoolMatchesSequentialInOrder(ChunkFetcher(io), ChunkPlan(cfg, total, limit), io.finish);
  }

  /** The response to a chunk request holds at most `limit` records. */
  predicate HonoursLimit(o: HttpOutcome, limit: int) {
    o.Response? ==> match ReadResults(o.payload)
                    case Ok(rs) => |rs| <= limit
                    case Err(_) => true
  }

  /** When every planned chunk's response honours its page size, the result
      holds at most `ChunkCount * limit` records, which for a non-negative
      count is fewer than `total + limit`. */
  lemma GetCharactersSizeBound(cfg: Config, limit: int, useMultiprocessing: bool, io: Io)
    requires limit > 0
    requires ReadTotal(io.net(CountRequest(cfg, io))).Ok?
    requires forall a :: a in ChunkPlan(cfg, ReadTotal(io.net(CountRequest(cfg, io))).value, limit) ==>
      HonoursLimit(io.net(ChunkRequest(a, io)), a.limit)
    ensures var total := ReadTotal(io.net(CountRequest(cfg, io))).value;
      GetCharacters(cfg, limit, useMultiprocessing, io).Ok? ==>
      && |GetCharacters(cfg, limit, useMultiprocessing, io).value| <= ChunkCount(total, limit) * limit
      && (total >= 0 ==> |GetCharacters(cfg, limit, useMultiprocessing, io).value| < total + limit)
  {
    var total := ReadTotal(io.net(CountRequest(cfg, io))).value;
    var plan := ChunkPlan(cfg, total, limit);
    var r := GetCharacters(cfg, limit, useMultiprocessing, io);
    if r.Ok? {
      var chunks := seq(|plan|, i requires 0 <= i < |plan| => ChunkRecords(plan[i], io));
      forall i | 0 <= i < |chunks|
        ensures |chunks[i]| <= limit
      {
        assert plan[i] in plan;
        assert HonoursLimit(io.net(ChunkRequest(plan[i], io)), plan[i].limit);
      }
      FlattenBound(chunks, limit);
      if total >= 0 {
        ChunkSpanBelowOnePageOver(total, limit);
      }
    }
  }

  /** Best effort: when the count succeeds and every planned chunk request
      fails, the result is the empty list, not an error. */
  lemma AllChunksFailingGivesNoRecords(cfg: Config, limit: int, useMultiprocessing: bool, io: Io)
    requires limit > 0
    requires ReadTotal(io.net(CountRequest(cfg, io))).Ok?
    requires forall a :: a in ChunkPlan(cfg, ReadTotal(io.net(CountRequest(cfg, io))).value, limit) ==>
      io.net(ChunkRequest(a, io)).RequestError?
    ensures GetCharacters(cfg, limit, useMultiprocessing, io) == Ok([])
  {
    var total := ReadTotal(io.net(CountRequest(cfg, io))).value;
    var plan := ChunkPlan(cfg, total, limit);
    forall i | 0 <= i < |plan|
      ensures FetchCharactersChunk(plan[i], io) == Ok([])
    {
      assert plan[i] in plan;
    }
    var chunks := seq(|plan|, i requires 0 <= i < |plan| => ChunkRecords(plan[i], io));
    AllEmptySize(chunks);
  }

  /** With the default page size, 250 records are fetched as three chunks at
      offsets 0, 100 and 200, each asking for 100 records. */
  lemma PlanFor250Records(cfg: Config)
    ensures NumChunks(250, DefaultLimit) == 3
    ensures |ChunkPlan(cfg, 250, DefaultLimit)| == 3
    ensures ChunkPlan(cfg, 250, DefaultLimit)[0].offset == 0
    ensures ChunkPlan(cfg, 250, DefaultLimit)[1].offset == 100
    ensures ChunkPlan(cfg, 250, DefaultLimit)[2].offset == 200
    ensures forall i :: 0 <= i < 3 ==> ChunkPlan(cfg, 250, DefaultLimit)[i].limit == 100
  {
  }
}
