/** The three BeatLeader lookups of the tournament bot (`getBeatleaderInfoByDiscord`,
    `getBeatleaderInfoById`, `getBeatleaderInfoByName`, index.js:187-247).
    The HTTP call and the JSON decoding are outside the model: what `fetch`
    yields for an endpoint is given as a `Fetched` value by an `Api`. */
module Ranking {
  import opened Wrappers
  import opened Region

  /** The fields of a BeatLeader player object that the bot reads. */
  datatype Payload = Payload(name: string, avatar: string, rank: int, countryRank: int, country: string)

  /** The record the lookups return. */
  datatype PlayerInfo = PlayerInfo(
    name: string, profilePicture: string, rank: int, countryRank: int, country: string, isEU: bool)

  /** What one `fetch` call yields: a rejected promise (network failure), or a
      response with its `ok` flag and its body decoded into the expected shape
      (`Failure` when `response.json()` or reading the payload throws). */
  datatype Fetched<B> = Rejected(reason: string) | Responded(ok: bool, body: Result<B, string>)

  /** Why a lookup threw. */
  datatype LookupError =
    | NetworkError(reason: string)   // fetch itself rejected
    | NotOk                          // response.ok was false
    | Malformed(reason: string)      // the body could not be read as a player
    | NoSearchResult                 // the name search returned an empty `data` list

  /** The two per-player endpoints: `/player/discord/<id>` and `/player/<id>`. */
  datatype Endpoint = DiscordEndpoint(discordId: string) | PlayerEndpoint(beatleaderId: string)

  /** The ranking service as seen by the bot: what fetching each endpoint yields,
      and what the `/players?search=<name>` endpoint yields as its `data` list,
      each entry read as a player or not. */
  datatype Api = Api(player: Endpoint -> Fetched<Payload>, search: string -> Fetched<seq<Result<Payload, string>>>)

  /** The `message` of each error, as shown to the user. */
  function ErrorMessage(e: LookupError): string
  {
    match e
    case NetworkError(reason) => reason
    case NotOk => "Failed to fetch player info"
    case Malformed(reason) => reason
    case NoSearchResult => "Cannot read properties of undefined (reading 'name')"
  }

  /** The object literal shared by the three lookups: it keeps every payload
      field and its `isEU` flag agrees with the country. */
  function ToPlayerInfo(p: Payload): (info: PlayerInfo)
    ensures Source(info) == p && Consistent(info)
  {
    PlayerInfo(p.name, p.avatar, p.rank, p.countryRank, p.country, IsEUCountry(p.country))
  }

  /** The payload fields a record was copied from (its `isEU` flag dropped). */
  function Source(info: PlayerInfo): Payload
  {
    Payload(info.name, info.profilePicture, info.rank, info.countryRank, info.country)
  }

  /** A record whose `isEU` flag agrees with its country code. */
  predicate Consistent(info: PlayerInfo)
  {
    info.isEU == IsEUCountry(info.country)
  }

  /** The mapping is a bijection between payloads and consistent records:
      every consistent record is the mapping of the payload it was copied from. */
  lemma MappingRoundTrip(info: PlayerInfo)
    ensures Consistent(info) ==> ToPlayerInfo(Source(info)) == info
  {
  }

  /** Reading the response of a per-player endpoint. */
  function FromPlayerResponse(f: Fetched<Payload>): (r: Result<PlayerInfo, LookupError>)
    ensures r.Success? <==> f.Responded? && f.ok && f.body.Success?
    ensures r.Success? ==> Source(r.value) == f.body.value && Consistent(r.value)
    ensures f.Rejected? ==> r == Failure(NetworkError(f.reason))
    ensures f.Responded? && !f.ok ==> r == Failure(NotOk)
    ensures f.Responded? && f.ok && f.body.Failure? ==> r == Failure(Malformed(f.body.error))
  {
    match f
    case Rejected(reason) => Failure(NetworkError(reason))
    case Responded(ok, body) =>
      if !ok then Failure(NotOk)
      else match body
        case Failure(reason) => Failure(Malformed(reason))
        case Success(p) => Success(ToPlayerInfo(p))
  }

  /** Reading the response of the name search: the first hit is read exactly
      as a per-player response would be, later hits are never looked at, and
      no hit is an error. */
  function FromSearchResponse(f: Fetched<seq<Result<Payload, string>>>): (r: Result<PlayerInfo, LookupError>)
    ensures r.Success? <==> f.Responded? && f.ok && f.body.Success? && |f.body.value| > 0 && f.body.value[0].Success?
    ensures f.Responded? && f.ok && f.body.Success? && |f.body.value| > 0 ==>
      r == FromPlayerResponse(Responded(true, f.body.value[0]))
    ensures f.Rejected? ==> r == Failure(NetworkError(f.reason))
    ensures f.Responded? && !f.ok ==> r == Failure(NotOk)
    ensures f.Responded? && f.ok && f.body.Success? && f.body.value == [] ==> r == Failure(NoSearchResult)
    ensures f.Responded? && f.ok && f.body.Failure? ==> r == Failure(Malformed(f.body.error))
  {
    match f
    case Rejected(reason) => Failure(NetworkError(reason))
    case Responded(ok, body) =>
      if !ok then Failure(NotOk)
      else match body
        case Failure(reason) => Failure(Malformed(reason))
        case Success(data) =>
          if |data| == 0 then Failure(NoSearchResult)
          else match data[0]
            case Failure(reason) => Failure(Malformed(reason))
            case Success(p) => Success(ToPlayerInfo(p))
  }

  /** `getBeatleaderInfoByDiscord(user)`: a record exactly when `/player/discord/<id>`
      answers ok with a readable player, and then it is that player's record. */
  function InfoByDiscord(api: Api, discordId: string): (r: Result<PlayerInfo, LookupError>)
    ensures var f := api.player(DiscordEndpoint(discordId));
      && (r.Success? <==> f.Responded? && f.ok && f.body.Success?)
      && (r.Success? ==> r.value == ToPlayerInfo(f.body.value))
  {
    FromPlayerResponse(api.player(DiscordEndpoint(discordId)))
  }

  /** `getBeatleaderInfoById(beatleaderId)`: a record exactly when `/player/<id>`
      answers ok with a readable player, and then it is that player's record. */
  function InfoById(api: Api, beatleaderId: string): (r: Result<PlayerInfo, LookupError>)
    ensures var f := api.player(PlayerEndpoint(beatleaderId));
      && (r.Success? <==> f.Responded? && f.ok && f.body.Success?)
      && (r.Success? ==> r.value == ToPlayerInfo(f.body.value))
  {
    FromPlayerResponse(api.player(PlayerEndpoint(beatleaderId)))
  }

  /** `getBeatleaderInfoByName(beatleaderName)`: a record exactly when the search
      answers ok with a readable first hit, and then it is that hit's record. */
  function InfoByName(api: Api, beatleaderName: string): (r: Result<PlayerInfo, LookupError>)
    ensures var f := api.search(beatleaderName);
      && (r.Success? <==> f.Responded? && f.ok && f.body.Success? && |f.body.value| > 0 && f.body.value[0].Success?)
      && (r.Success? ==> r.value == ToPlayerInfo(f.body.value[0].value))
  {
    FromSearchResponse(api.search(beatleaderName))
  }

  /** The name search ignores every hit after the first, even unreadable ones. */
  lemma SearchUsesFirstHit(api: Api, name: string, p: Payload, rest: seq<Result<Payload, string>>)
    requires api.search(name) == Responded(true, Success([Success(p)] + rest))
    ensures InfoByName(api, name) == Success(ToPlayerInfo(p))
  {
  }

  /** All three lookups produce the same record from the same player payload. */
  lemma LookupsShareOneMapping(api: Api, discordId: string, beatleaderId: string, name: string, p: Payload)
    requires api.player(DiscordEndpoint(discordId)) == Responded(true, Success(p))
    requires api.player(PlayerEndpoint(beatleaderId)) == Responded(true, Success(p))
    requires api.search(name) == Responded(true, Success([Success(p)]))
    ensures InfoByDiscord(api, discordId) == InfoById(api, beatleaderId) == InfoByName(api, name) == Success(ToPlayerInfo(p))
  {
  }

  /** The worked example: searching "Zatler" whose only hit is a German player
      ranked 12th gives an EU record with global rank 12. */
  lemma ZatlerExample(api: Api)
    requires api.search("Zatler") == Responded(true, Success([Success(Payload("Zatler", "u.png", 12, 1, "DE"))]))
    ensures InfoByName(api, "Zatler") == Success(PlayerInfo("Zatler", "u.png", 12, 1, "DE", true))
  {
    EuCodesHaveTwoLetters("DE");
  }
}
