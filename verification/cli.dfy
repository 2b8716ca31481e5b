/** The command-line entry point (`main.py`): flag normalisation, the
    configuration check, and the export dispatch. */
module Cli {
  import opened Common
  import opened Records
  import opened Fetch
  import opened Pagination
  import opened Orchestrator

  /** The four environment variables `main` reads. */
  datatype Env = Env(url: Option<string>, endpoint: Option<string>,
                     publicKey: Option<string>, privateKey: Option<string>)

  /** What `main` ends up doing with the fetched list. */
  datatype Export =
    | NoData                                          // empty list: warning, nothing saved
    | SavedJson(objects: seq<Character>, fileName: string)
    | SavedCsv(objects: seq<Character>, fileName: string)
    | NoWriter                                        // unrecognised format: nothing saved, no warning

  /** How a run of `main` ends. */
  datatype MainOutcome =
    | MissingConfig            // returned before any request
    | Raised(fault: Fault)     // `get_characters` raised
    | Completed(saved: Export)

  /** `args.use_multiprocessing` after the `if`/`elif` chain: a boolean, or
      the raw string left in place when it was neither `'True'` nor
      `'False'`. */
  datatype FlagValue = FlagBool(b: bool) | FlagText(s: string)

  function ParseMultiprocessingFlag(raw: Option<string>): FlagValue {
    match raw
    case None => FlagBool(false)
    case Some(s) =>
      if s == "True" then FlagBool(true)
      else if s == "False" then FlagBool(false)
      else FlagText(s)
  }

  /** Python's `bool(...)` of that value. */
  function FlagTruth(v: FlagValue): bool {
    match v
    case FlagBool(b) => b
    case FlagText(s) => s != ""
  }

  /** The `use_multiprocessing` argument `main` receives. An unrecognised
      non-empty string is reported but still ends up true. The last two
      clauses are corollaries of the first, spelling out the documented
      values. */
  function NormaliseMultiprocessing(raw: Option<string>): (r: bool)
    ensures r <==> raw.Some? && raw.value != "False" && raw.value != ""
    ensures raw == Some("True") ==> r
    ensures raw == None || raw == Some("False") ==> !r
  {
    FlagTruth(ParseMultiprocessingFlag(raw))
  }

  /** The flag value for which an error is logged. */
  predicate MultiprocessingFlagRejected(raw: Option<string>) {
    raw.Some? && raw.value != "True" && raw.value != "False"
  }

  /** A rejected flag is logged, then turned on if it is non-empty. */
  lemma RejectedFlagFollowsTruthiness(raw: Option<string>)
    requires MultiprocessingFlagRejected(raw)
    ensures NormaliseMultiprocessing(raw) <==> Truthy(raw)
  {
  }

  /** The output format for which an error is logged. */
  predicate OutputFormatRejected(raw: Option<string>) {
    raw.Some? && raw.value != "json" && raw.value != "csv"
  }

  /** Python's `x if x else fallback` for an optional string. */
  function OrDefault(raw: Option<string>, fallback: string): string {
    if Truthy(raw) then raw.value else fallback
  }

  /** The `output_format` argument `main` receives: absent or empty becomes
      `'csv'`, anything else is passed through, even a rejected value. So
      `main` sees a format other than `'json'` or `'csv'` only after an
      error was logged for it. */
  function NormaliseOutputFormat(raw: Option<string>): (r: string)
    ensures r == "json" || r == "csv" || OutputFormatRejected(raw)
    ensures Truthy(raw) ==> r == raw.value
    ensures !Truthy(raw) ==> r == "csv"
  {
    OrDefault(raw, "csv")
  }

  /** The `file_name` argument `main` receives: absent or empty becomes
      `'marvel_output'`, anything else is passed through. The name is never
      empty. */
  function NormaliseFileName(raw: Option<string>): (r: string)
    ensures r != ""
    ensures Truthy(raw) ==> r == raw.value
    ensures Truthy(raw) <==> (r != "marvel_output" || raw == Some("marvel_output"))
  {
    OrDefault(raw, "marvel_output")
  }

  /** Normalising an already normalised value changes nothing. */
  lemma NormalisationIsIdempotent(format: Option<string>, fileName: Option<string>)
    ensures NormaliseOutputFormat(Some(NormaliseOutputFormat(format))) == NormaliseOutputFormat(format)
    ensures NormaliseFileName(Some(NormaliseFileName(fileName))) == NormaliseFileName(fileName)
  {
  }

  /** Every configuration value is present and non-empty. */
  predicate ConfigComplete(env: Env) {
    Truthy(env.url) && Truthy(env.endpoint) && Truthy(env.publicKey) && Truthy(env.privateKey)
  }

  function ConfigOf(env: Env): Config
    requires ConfigComplete(env)
  {
    Config(env.publicKey.value, env.privateKey.value, env.url.value, env.endpoint.value)
  }

  /** The save step for a fetched list: at most one save function runs,
      and it is the one the format names (`'json'` only `save_as_json`,
      `'csv'` only `save_as_csv`, any other format neither), each given the
      whole list and the file name; an empty list is never saved. */
  function Dispatch(characters: seq<Character>, outputFormat: string, fileName: string): (e: Export)
    ensures e == NoData <==> |characters| == 0
    ensures e.SavedJson? <==> |characters| > 0 && outputFormat == "json"
    ensures e.SavedCsv? <==> |characters| > 0 && outputFormat == "csv"
    ensures e == NoWriter <==> |characters| > 0 && outputFormat != "json" && outputFormat != "csv"
    ensures e.SavedJson? || e.SavedCsv? ==> e.objects == characters && e.fileName == fileName
  {
    if |characters| == 0 then NoData
    else if outputFormat == "json" then SavedJson(characters, fileName)
    else if outputFormat == "csv" then SavedCsv(characters, fileName)
    else NoWriter
  }

  /** `main`: check the configuration, fetch, save. The last clause is a
      corollary of the one before through `Dispatch`'s contract, spelled
      out for the two writers. */
  function Main(env: Env, useMultiprocessing: bool, outputFormat: string, fileName: string, io: Io): (r: MainOutcome)
    ensures r == MissingConfig <==> !ConfigComplete(env)
    ensures r.Raised? ==>
      && ConfigComplete(env)
      && GetCharacters(ConfigOf(env), DefaultLimit, useMultiprocessing, io) == Err(r.fault)
    ensures r.Completed? <==>
      && ConfigComplete(env)
      && GetCharacters(ConfigOf(env), DefaultLimit, useMultiprocessing, io).Ok?
    ensures r.Completed? ==>
      r.saved == Dispatch(GetCharacters(ConfigOf(env), DefaultLimit, useMultiprocessing, io).value,
                          outputFormat, fileName)
    ensures r.Completed? && (r.saved.SavedJson? || r.saved.SavedCsv?) ==>
      && r.saved.objects == GetCharacters(ConfigOf(env), DefaultLimit, useMultiprocessing, io).value
      && |r.saved.objects| > 0
      && r.saved.fileName == fileName
  {
    if !ConfigComplete(env) then MissingConfig
    else
      match GetCharacters(ConfigOf(env), DefaultLimit, useMultiprocessing, io)
      case Err(f) => Raised(f)
      case Ok(characters) => Completed(Dispatch(characters, outputFormat, fileName))
  }

  /** The script as invoked: normalise the raw flags, then run `main`. A JSON
      file is written only for `--output_format json`, a CSV file only for
      `csv`, an empty value or no format at all. The clauses after the
      `Dispatch` one are its corollaries in terms of the raw flags. */
  function Run(rawMultiprocessing: Option<string>, rawFormat: Option<string>, rawFileName: Option<string>,
               env: Env, io: Io): (r: MainOutcome)
    ensures r == MissingConfig <==> !ConfigComplete(env)
    ensures r.Raised? ==>
      && ConfigComplete(env)
      && GetCharacters(ConfigOf(env), DefaultLimit, NormaliseMultiprocessing(rawMultiprocessing), io) == Err(r.fault)
    ensures r.Completed? <==>
      && ConfigComplete(env)
      && GetCharacters(ConfigOf(env), DefaultLimit, NormaliseMultiprocessing(rawMultiprocessing), io).Ok?
    ensures r.Completed? ==>
      r.saved == Dispatch(GetCharacters(ConfigOf(env), DefaultLimit, NormaliseMultiprocessing(rawMultiprocessing), io).value,
                          NormaliseOutputFormat(rawFormat), NormaliseFileName(rawFileName))
    ensures r.Completed? && r.saved.SavedJson? ==> rawFormat == Some("json")
    ensures r.Completed? && r.saved.SavedCsv? ==> rawFormat == Some("csv") || !Truthy(rawFormat)
    ensures r.Completed? && (r.saved.SavedJson? || r.saved.SavedCsv?) ==>
      r.saved.fileName == NormaliseFileName(rawFileName)
  {
    Main(env, NormaliseMultiprocessing(rawMultiprocessing), NormaliseOutputFormat(rawFormat),
         NormaliseFileName(rawFileName), io)
  }

  /** A missing or empty configuration value stops `main` before any
      request: the outcome is the same whatever the network would answer. */
  lemma MissingConfigMakesNoRequest(env: Env, useMultiprocessing: bool, outputFormat: string, fileName: string,
                                    io1: Io, io2: Io)
    requires !ConfigComplete(env)
    ensures Main(env, useMultiprocessing, outputFormat, fileName, io1) == MissingConfig
    ensures Main(env, useMultiprocessing, outputFormat, fileName, io1)
         == Main(env, useMultiprocessing, outputFormat, fileName, io2)
  {
  }

  /** The `--use_multiprocessing` flag, valid or not, never changes whether
      the script raises, and when it does not, never changes what it
      exports. */
  lemma RunIgnoresMultiprocessingFlag(raw1: Option<string>, raw2: Option<string>, rawFormat: Option<string>,
                                      rawFileName: Option<string>, env: Env, io: Io)
    ensures Run(raw1, rawFormat, rawFileName, env, io).Raised? <==> Run(raw2, rawFormat, rawFileName, env, io).Raised?
    ensures !Run(raw1, rawFormat, rawFileName, env, io).Raised? ==>
      Run(raw1, rawFormat, rawFileName, env, io) == Run(raw2, rawFormat, rawFileName, env, io)
  {
    if ConfigComplete(env) {
      GetCharactersIgnoresMultiprocessing(ConfigOf(env), DefaultLimit, io);
    }
  }

  /** When the pool's tasks finish in plan order, the flag does not even
      change which exception is raised. */
  lemma RunIgnoresFlagWhenPoolFinishesInOrder(raw1: Option<string>, raw2: Option<string>, rawFormat: Option<string>,
                                              rawFileName: Option<string>, env: Env, io: Io)
    requires ConfigComplete(env) && ReadTotal(io.net(CountRequest(ConfigOf(env), io))).Ok? ==>
      var plan := ChunkPlan(ConfigOf(env), ReadTotal(io.net(CountRequest(ConfigOf(env), io))).value, DefaultLimit);
      forall i, j :: 0 <= i < j < |plan| ==> io.finish(plan[i]) <= io.finish(plan[j])
    ensures Run(raw1, rawFormat, rawFileName, env, io) == Run(raw2, rawFormat, rawFileName, env, io)
  {
    if ConfigComplete(env) {
      GetCharactersInOrderPoolIsSequential(ConfigOf(env), DefaultLimit, io);
    }
  }

  /** A rejected, non-empty output format is logged and passed on, so
      records are fetched but nothing is saved. */
  lemma RejectedFormatSavesNothing(rawMultiprocessing: Option<string>, rawFormat: Option<string>,
                                   rawFileName: Option<string>, env: Env, io: Io)
    requires OutputFormatRejected(rawFormat) && Truthy(rawFormat)
    ensures Run(rawMultiprocessing, rawFormat, rawFileName, env, io).Completed? ==>
      Run(rawMultiprocessing, rawFormat, rawFileName, env, io).saved in {NoData, NoWriter}
  {
  }

  /** An empty `--output_format` is rejected with an error, yet falls back
      to `'csv'`, so a non-empty fetch is still saved as CSV. */
  lemma EmptyFormatSavesCsv(rawMultiprocessing: Option<string>, rawFileName: Option<string>, env: Env, io: Io)
    requires ConfigComplete(env)
    requires GetCharacters(ConfigOf(env), DefaultLimit, NormaliseMultiprocessing(rawMultiprocessing), io).Ok?
    requires |GetCharacters(ConfigOf(env), DefaultLimit, NormaliseMultiprocessing(rawMultiprocessing), io).value| > 0
    ensures OutputFormatRejected(Some(""))
    ensures Run(rawMultiprocessing, Some(""), rawFileName, env, io).Completed?
    ensures Run(rawMultiprocessing, Some(""), rawFileName, env, io).saved.SavedCsv?
  {
  }

  /** End to end: with complete configuration, a readable count and every
      planned chunk request failing, the run completes with nothing to
      save. */
  lemma AllChunksFailingSkipsExport(env: Env, useMultiprocessing: bool, outputFormat: string, fileName: string, io: Io)
    requires ConfigComplete(env)
    requires ReadTotal(io.net(CountRequest(ConfigOf(env), io))).Ok?
    requires forall a :: a in ChunkPlan(ConfigOf(env), ReadTotal(io.net(CountRequest(ConfigOf(env), io))).value,
                                        DefaultLimit) ==>
      io.net(ChunkRequest(a, io)).RequestError?
    ensures Main(env, useMultiprocessing, outputFormat, fileName, io) == Completed(NoData)
  {
    AllChunksFailingGivesNoRecords(ConfigOf(env), DefaultLimit, useMultiprocessing, io);
  }
}
