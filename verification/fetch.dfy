/** One chunk fetch (`fetch_characters_chunk`) and the abstract network it
    talks to. */
module Fetch {
  import opened Common
  import opened Records
  import opened Signing

  /** The four configuration values `get_characters` is called with. */
  datatype Config = Config(publicKey: string, privateKey: string, url: string, endpoint: string)

  /** The argument tuple of one chunk fetch:
      `(public_key, private_key, url, characters_endpoint, offset, limit)`. */
  datatype ChunkArgs = ChunkArgs(publicKey: string, privateKey: string, url: string, endpoint: string,
                                 offset: int, limit: int)

  /** The `data` object of a decoded response body; either key may be absent. */
  datatype Data = Data(results: Option<seq<RawRecord>>, total: Option<int>)

  /** A decoded JSON response body; its `data` key may be absent. */
  datatype Payload = Payload(data: Option<Data>)

  /** What `requests.get` + `raise_for_status` + `.json()` produce: either one
      of them raised a `RequestException`, or a decoded body. */
  datatype HttpOutcome = RequestError | Response(payload: Payload)

  /** One GET request: the endpoint URL and its query parameters. */
  datatype Request = Request(endpointUrl: string, params: RequestParams)

  /** The collaborators the program reaches through I/O: the timestamp of the
      count request, the timestamp taken by each chunk fetch, the MD5 digest,
      the network, and the moment each chunk's pool task finished. Chunk
      offsets are distinct, so a per-chunk timestamp or finishing time can be
      written as a function of the chunk's arguments. */
  datatype Io = Io(countTs: string, chunkTs: ChunkArgs -> string, md5: string -> string,
                   net: Request -> HttpOutcome, finish: ChunkArgs -> int)

  function EndpointUrl(url: string, endpoint: string): string {
    url + "/" + endpoint
  }

  /** The request a chunk fetch sends. */
  function ChunkRequest(args: ChunkArgs, io: Io): Request {
    Request(EndpointUrl(args.url, args.endpoint),
            BuildRequestParams(io.chunkTs(args), args.publicKey, args.privateKey, args.limit, args.offset, io.md5))
  }

  /** `response.json()['data']['results']`: a missing key raises. */
  function ReadResults(p: Payload): Result<seq<RawRecord>> {
    match p.data
    case None => Err(MissingKey("data"))
    case Some(d) =>
      match d.results
      case None => Err(MissingKey("results"))
      case Some(rs) => Ok(rs)
  }

  /** Best-effort fetch of one chunk: a request failure is caught and gives
      no records; a decoded body is mapped through `BuildCharacters`; a
      `KeyError` is not caught and propagates. */
  function FetchCharactersChunk(args: ChunkArgs, io: Io): (r: Result<seq<Character>>)
    ensures io.net(ChunkRequest(args, io)).RequestError? ==> r == Ok([])
    ensures io.net(ChunkRequest(args, io)).Response? ==>
      match ReadResults(io.net(ChunkRequest(args, io)).payload)
      case Ok(rs) => r == BuildCharacters(rs)
      case Err(f) => r == Err(f)
    ensures r.Err? ==> r.fault.MissingKey?
  {
    match io.net(ChunkRequest(args, io))
    case RequestError => Ok([])
    case Response(p) =>
      match ReadResults(p)
      case Err(f) => Err(f)
      case Ok(rs) => BuildCharacters(rs)
  }

  /** The request a chunk fetch sends carries that chunk's paging and the
      configured public key, signed with the chunk's own timestamp. */
  lemma ChunkRequestCarriesArgs(args: ChunkArgs, io: Io)
    ensures ChunkRequest(args, io).endpointUrl == args.url + "/" + args.endpoint
    ensures ChunkRequest(args, io).params.offset == args.offset
    ensures ChunkRequest(args, io).params.limit == args.limit
    ensures ChunkRequest(args, io).params.apikey == args.publicKey
    ensures ChunkRequest(args, io).params.ts == io.chunkTs(args)
    ensures ChunkRequest(args, io).params.hash == io.md5(io.chunkTs(args) + args.privateKey + args.publicKey)
  {
  }
}
