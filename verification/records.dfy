/** The mapping from raw API records to exported character rows
    (`build_characters`). */
module Records {
  import opened Common

  /** The `comics` object of a raw record; its `available` key may be absent. */
  datatype RawComics = RawComics(available: Option<int>)

  /** One element of `data.results` as the API sends it. Either key may be
      absent, in which case the lookup raises `KeyError`. */
  datatype RawRecord = RawRecord(name: Option<string>, comics: Option<RawComics>)

  /** One exported row: `{character_name, comic_count}`. */
  datatype Character = Character(characterName: string, comicCount: int)

  /** Every key the mapping reads is present. */
  predicate WellFormed(raw: RawRecord) {
    raw.name.Some? && raw.comics.Some? && raw.comics.value.available.Some?
  }

  /** The loop body for one record: reads `name`, then `comics`, then
      `available`, raising on the first key that is missing. */
  function ToCharacter(raw: RawRecord): (r: Result<Character>)
    ensures r.Ok? <==> WellFormed(raw)
    ensures r.Ok? ==>
      && r.value.characterName == raw.name.value
      && r.value.comicCount == raw.comics.value.available.value
    ensures raw.name.None? ==> r == Err(MissingKey("name"))
    ensures raw.name.Some? && raw.comics.None? ==> r == Err(MissingKey("comics"))
    ensures raw.name.Some? && raw.comics.Some? && raw.comics.value.available.None? ==>
      r == Err(MissingKey("available"))
    ensures r.Err? ==> r.fault in {MissingKey("name"), MissingKey("comics"), MissingKey("available")}
  {
    match raw.name
    case None => Err(MissingKey("name"))
    case Some(name) =>
      match raw.comics
      case None => Err(MissingKey("comics"))
      case Some(comics) =>
        match comics.available
        case None => Err(MissingKey("available"))
        case Some(count) => Ok(Character(name, count))
  }

  /** The whole loop: maps records in order and stops at the first record
      whose lookup raises, propagating that `KeyError`. */
  function BuildCharacters(data: seq<RawRecord>): (r: Result<seq<Character>>)
    ensures r.Ok? <==> forall i :: 0 <= i < |data| ==> WellFormed(data[i])
    ensures r.Ok? ==> |r.value| == |data|
    ensures r.Ok? ==> forall i :: 0 <= i < |data| ==>
      && r.value[i].characterName == data[i].name.value
      && r.value[i].comicCount == data[i].comics.value.available.value
    ensures r.Err? ==> r.fault.MissingKey?
    ensures r.Err? ==>
      exists i :: && 0 <= i < |data|
                  && (forall j :: 0 <= j < i ==> WellFormed(data[j]))
                  && ToCharacter(data[i]) == Err(r.fault)
  {
    if |data| == 0 then Ok([])
    else
      match ToCharacter(data[0])
      case Err(f) => Err(f)
      case Ok(c) =>
        match BuildCharacters(data[1..])
        case Err(f) => Err(f)
        case Ok(rest) => Ok([c] + rest)
  }
}
