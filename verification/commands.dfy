/**
 * The cache-aside fetch GetData of main.go and the paging commands map and
 * mapb, which move Config.Next and Config.Previous.
 *
 * The network is not modelled: the way the HTTP request would end is an
 * input (`fetch`), and json.Unmarshal is an input function (`decode`).
 */
module Commands {
  import opened Wrappers
  import opened Pokecache

  /** How io.ReadAll of the response body ends. */
  datatype BodyRead = ReadFailed | ReadBody(bytes: Bytes)

  /** How http.Get of the url ends: a transport error, or a status code and a body. */
  datatype FetchOutcome = TransportFailed | Responded(status: int, body: BodyRead)

  /** The errors the commands return. */
  datatype Error = TransportError | StatusError(status: int) | ReadError | DecodeError

  /** What GetData returns, with the cache map it leaves behind. */
  datatype Fetched = Fetched(result: Result<Bytes, Error>, cache: map<string, Entry>)

  /** GetData on the map `m`: a hit answers from the cache; a miss fetches and stores only a 200 body that was read. */
  function GetDataSpec(m: map<string, Entry>, url: string, fetch: FetchOutcome, now: nat): Fetched
  {
    if url in m then Fetched(Success(m[url].val), m)
    else
      match fetch
      case TransportFailed => Fetched(Failure(TransportError), m)
      case Responded(status, body) =>
        if status != 200 then Fetched(Failure(StatusError(status)), m)
        else
          match body
          case ReadFailed => Fetched(Failure(ReadError), m)
          case ReadBody(bytes) => Fetched(Success(bytes), m[url := Entry(now, bytes)])
  }

  /** The fetch outcome is a successful read of a 200 response. */
  predicate Fetchable(fetch: FetchOutcome)
  {
    fetch.Responded? && fetch.status == 200 && fetch.body.ReadBody?
  }

  method GetData(c: Cache, url: string, fetch: FetchOutcome, now: nat) returns (r: Result<Bytes, Error>)
    modifies c
    ensures Fetched(r, c.cacheData) == GetDataSpec(old(c.cacheData), url, fetch, now)
  {
    var data, ok := c.Get(url);
    if ok {
      return Success(data);
    }
    match fetch {
      case TransportFailed =>
        return Failure(TransportError);
      case Responded(status, body) =>
        if status != 200 {
          return Failure(StatusError(status));
        }
        match body {
          case ReadFailed =>
            return Failure(ReadError);
          case ReadBody(bytes) =>
            c.Add(url, bytes, now);
            return Success(bytes);
        }
    }
  }

  /** On a hit the cached bytes are returned, whatever the network would do, and the cache is unchanged. */
  lemma GetDataHit(m: map<string, Entry>, url: string, fetch: FetchOutcome, now: nat)
    requires Lookup(m, url).1
    ensures GetDataSpec(m, url, fetch, now) == Fetched(Success(Lookup(m, url).0), m)
  {
  }

  /** On a miss GetData succeeds exactly when a 200 response was read. */
  lemma GetDataMiss(m: map<string, Entry>, url: string, fetch: FetchOutcome, now: nat)
    requires !Lookup(m, url).1
    ensures GetDataSpec(m, url, fetch, now).result.Success? <==> Fetchable(fetch)
    ensures Fetchable(fetch) ==> GetDataSpec(m, url, fetch, now).result == Success(fetch.body.bytes)
  {
  }

  /** After a success, a later Get of the url returns the same bytes. */
  lemma GetDataThenGet(m: map<string, Entry>, url: string, fetch: FetchOutcome, now: nat)
    requires GetDataSpec(m, url, fetch, now).result.Success?
    ensures Lookup(GetDataSpec(m, url, fetch, now).cache, url) == (GetDataSpec(m, url, fetch, now).result.value, true)
  {
  }

  /** A failure leaves the cache as it was, and no other key ever changes. */
  lemma GetDataFrame(m: map<string, Entry>, url: string, fetch: FetchOutcome, now: nat, other: string)
    requires other != url
    ensures GetDataSpec(m, url, fetch, now).result.Failure? ==> GetDataSpec(m, url, fetch, now).cache == m
    ensures Lookup(GetDataSpec(m, url, fetch, now).cache, other) == Lookup(m, other)
  {
  }

  /** The bytes of {"field":"value"}, the payload of the GetData test. */
  const FakeResp: Bytes := [0x7b, 0x22, 0x66, 0x69, 0x65, 0x6c, 0x64, 0x22, 0x3a, 0x22, 0x76, 0x61, 0x6c, 0x75, 0x65, 0x22, 0x7d]

  /** The cache-hit half of the GetData test: an entry added first is returned without a fetch. */
  method CacheHitScenario() returns (out: Result<Bytes, Error>)
    ensures out == Success(FakeResp)
  {
    var cache := new Cache(5);
    var testUrl := "https://pokeapi.co/api/v2/location-area/1";
    cache.Add(testUrl, FakeResp, 0);
    out := GetData(cache, testUrl, TransportFailed, 0);
  }

  // ---------------------------------------------------------------------------
  // Paging through the location areas.

  const FirstPageUrl: string := "https://pokeapi.co/api/v2/location-area?offset=0&limit=20"

  /** The fields of LocationAreaResponse the commands use. */
  datatype LocationPage = LocationPage(next: string, previous: string, names: seq<string>)

  /** The outcome of map or mapb: the first-page notice, the names listed, or an error. */
  datatype Listing = OnFirstPage | Listed(names: seq<string>) | Failed(error: Error)

  /** The paging links of a Config. */
  datatype Links = Links(next: string, previous: string)

  class Config {
    var next: string
    var previous: string

    /** &Config{}: both links empty. */
    constructor ()
      ensures next == "" && previous == ""
    {
      next, previous := "", "";
    }
  }

  /** The url map requests: the first page while Next is empty, else Next. */
  function MapUrl(next: string): (url: string)
    ensures next == "" ==> url == FirstPageUrl
    ensures next != "" ==> url == next
  {
    if next == "" then FirstPageUrl else next
  }

  /** What map and mapb do with the bytes GetData returned: list the page and adopt its links, or keep the old links. */
  function Turn(got: Result<Bytes, Error>, decode: Bytes -> Option<LocationPage>, links: Links): (r: (Listing, Links))
    ensures got.Failure? ==> r == (Failed(got.error), links)
    ensures got.Success? && decode(got.value).None? ==> r == (Failed(DecodeError), links)
    ensures got.Success? && decode(got.value).Some? ==>
      r == (Listed(decode(got.value).value.names), Links(decode(got.value).value.next, decode(got.value).value.previous))
  {
    match got
    case Failure(e) => (Failed(e), links)
    case Success(data) =>
      match decode(data)
      case None => (Failed(DecodeError), links)
      case Some(page) => (Listed(page.names), Links(page.next, page.previous))
  }

  /** The links change only when a page was listed, and then they are that page's links. */
  lemma TurnLinks(got: Result<Bytes, Error>, decode: Bytes -> Option<LocationPage>, links: Links)
    ensures Turn(got, decode, links).0.Listed? <==> got.Success? && decode(got.value).Some?
    ensures !Turn(got, decode, links).0.Listed? ==> Turn(got, decode, links).1 == links
    ensures Turn(got, decode, links).0.Listed? ==>
      var page := decode(got.value).value;
      Turn(got, decode, links) == (Listed(page.names), Links(page.next, page.previous))
  {
  }

  /** commandMap */
  method CommandMap(cfg: Config, c: Cache, fetch: FetchOutcome, decode: Bytes -> Option<LocationPage>, now: nat)
    returns (r: Listing)
    modifies cfg, c
    ensures var f := GetDataSpec(old(c.cacheData), MapUrl(old(cfg.next)), fetch, now);
      && c.cacheData == f.cache
      && (r, Links(cfg.next, cfg.previous)) == Turn(f.result, decode, Links(old(cfg.next), old(cfg.previous)))
  {
    var url := MapUrl(cfg.next);
    var got := GetData(c, url, fetch, now);
    var (listing, links) := Turn(got, decode, Links(cfg.next, cfg.previous));
    cfg.next, cfg.previous := links.next, links.previous;
    r := listing;
  }

  /** commandMapb: on the first page it neither fetches nor changes anything. */
  method CommandMapb(cfg: Config, c: Cache, fetch: FetchOutcome, decode: Bytes -> Option<LocationPage>, now: nat)
    returns (r: Listing)
    modifies cfg, c
    ensures old(cfg.previous) == "" ==>
      && r == OnFirstPage
      && cfg.next == old(cfg.next) && cfg.previous == old(cfg.previous)
      && c.cacheData == old(c.cacheData)
    ensures old(cfg.previous) != "" ==>
      var f := GetDataSpec(old(c.cacheData), old(cfg.previous), fetch, now);
      && c.cacheData == f.cache
      && (r, Links(cfg.next, cfg.previous)) == Turn(f.result, decode, Links(old(cfg.next), old(cfg.previous)))
  {
    if cfg.previous == "" {
      return OnFirstPage;
    }
    var got := GetData(c, cfg.previous, fetch, now);
    var (listing, links) := Turn(got, decode, Links(cfg.next, cfg.previous));
    cfg.next, cfg.previous := links.next, links.previous;
    r := listing;
  }

  /** A fresh session: map lists the first page and moves Next on; mapb then stays on the first page. */
  method PagingScenario() returns (first: Listing, back: Listing, next: string)
    ensures first == Listed(["canalave-city-area"])
    ensures back == OnFirstPage
    ensures next == "https://pokeapi.co/api/v2/location-area?offset=20&limit=20"
  {
    var cfg := new Config();
    var cache := new Cache(60);
    var body: Bytes := [0x7b, 0x7d];
    var page := LocationPage("https://pokeapi.co/api/v2/location-area?offset=20&limit=20", "", ["canalave-city-area"]);
    var decode := (data: Bytes) => if data == body then Some(page) else None;
    first := CommandMap(cfg, cache, Responded(200, ReadBody(body)), decode, 0);
    back := CommandMapb(cfg, cache, TransportFailed, decode, 1);
    next := cfg.next;
  }
}
