/** The data client: base-URL resolution, the bundled fallback collections
    and the resilient fetch that never rejects (src/api.ts). */
module Api {
  import opened Outcomes

  /** One artisan or place record. `itemType` is the source's `type` field
      (a reserved word here); `lat`/`lng` are carried, never computed on. */
  datatype Item = Item(
    id: int,
    name: string,
    description: Option<string>,
    category: Option<string>,
    itemType: Option<string>,
    lat: real,
    lng: real,
    photoUrl: Option<string>)

  /** `{ data, isFallback }`: what a fetch hands to its caller. */
  datatype FetchResult<+T> = FetchResult(data: T, isFallback: bool)

  /** The build-time `extra` configuration object; only `apiUrl` is read. */
  datatype Extra = Extra(apiUrl: Option<string>)

  /** The decoded body of an HTTP response: an array or some other JSON value. */
  datatype Body = JArray(items: seq<Item>) | JOther

  /** What `axios.get` yields: a decoded 2xx body, or an error it throws
      (transport failure or a non-2xx status). */
  datatype Response = Received(body: Body) | Failed(reason: string)

  const AndroidDefaultUrl := "http://10.0.2.2:4000"
  const LoopbackDefaultUrl := "http://localhost:4000"

  /** `extra.apiUrl || DEFAULT_API_URL`, where `extra` is the configuration's
      `extra` object or `{}` when the configuration has none, and the default
      depends on `Platform.OS`. */
  function ResolveApiUrl(os: string, extra: Option<Extra>): (url: string)
    ensures url != ""
    ensures extra.Some? && Truthy(extra.value.apiUrl) ==> url == extra.value.apiUrl.value
    ensures !(extra.Some? && Truthy(extra.value.apiUrl)) ==>
              url == (if os == "android" then AndroidDefaultUrl else LoopbackDefaultUrl)
  {
    var configured := if extra.Some? then extra.value else Extra(None);
    var defaultUrl := if os == "android" then AndroidDefaultUrl else LoopbackDefaultUrl;
    if Truthy(configured.apiUrl) then configured.apiUrl.value else defaultUrl
  }

  /** Runs a request and absorbs its failure: a fulfilled request is passed
      through as live data, a rejected one is replaced by the fallback. */
  function WithFallback<T>(request: Settled<T>, fallback: T): (r: FetchResult<T>)
    ensures r.isFallback <==> request.Rejected?
    ensures request.Fulfilled? ==> r.data == request.value
    ensures request.Rejected? ==> r.data == fallback
  {
    match request
    case Fulfilled(data) => FetchResult(data, false)
    case Rejected(_) => FetchResult(fallback, true)
  }

  /** The request body of `fetchArtisans`/`fetchPlaces`: GET the resource and
      reject anything that is not an array. */
  function ItemsRequest(response: Response, invalidMessage: string): (r: Settled<seq<Item>>)
    ensures r.Fulfilled? <==> response.Received? && response.body.JArray?
    ensures r.Fulfilled? ==> r.value == response.body.items
  {
    match response
    case Failed(reason) => Rejected(reason)
    case Received(JOther) => Rejected(invalidMessage)
    case Received(JArray(items)) => Fulfilled(items)
  }

  /** Whether a response yields live data. */
  predicate IsLive(response: Response)
  {
    response.Received? && response.body.JArray?
  }

  function ArtisansUrl(apiUrl: string): string
  {
    apiUrl + "/artisans"
  }

  function PlacesUrl(apiUrl: string): string
  {
    apiUrl + "/places"
  }

  /** `fetchArtisans()`: `get` stands for the network, answering each URL. */
  function FetchArtisans(apiUrl: string, get: string -> Response): (r: FetchResult<seq<Item>>)
    ensures !r.isFallback <==> IsLive(get(apiUrl + "/artisans"))
    ensures !r.isFallback ==> r.data == get(apiUrl + "/artisans").body.items
    ensures r.isFallback ==> r.data == FallbackArtisans()
  {
    WithFallback(ItemsRequest(get(ArtisansUrl(apiUrl)), "Invalid artisans response payload"), FallbackArtisans())
  }

  /** `fetchPlaces()`: `get` stands for the network, answering each URL. */
  function FetchPlaces(apiUrl: string, get: string -> Response): (r: FetchResult<seq<Item>>)
    ensures !r.isFallback <==> IsLive(get(apiUrl + "/places"))
    ensures !r.isFallback ==> r.data == get(apiUrl + "/places").body.items
    ensures r.isFallback ==> r.data == FallbackPlaces()
  {
    WithFallback(ItemsRequest(get(PlacesUrl(apiUrl)), "Invalid places response payload"), FallbackPlaces())
  }

  /** A payload that is not an array is indistinguishable, to the caller,
      from a request that failed in transport. */
  lemma NonArrayLikeFailure(apiUrl: string, broken: string -> Response, garbled: string -> Response)
    requires broken(apiUrl + "/artisans").Failed? && garbled(apiUrl + "/artisans") == Received(JOther)
    requires broken(apiUrl + "/places").Failed? && garbled(apiUrl + "/places") == Received(JOther)
    ensures FetchArtisans(apiUrl, broken) == FetchArtisans(apiUrl, garbled) == FetchResult(FallbackArtisans(), true)
    ensures FetchPlaces(apiUrl, broken) == FetchPlaces(apiUrl, garbled) == FetchResult(FallbackPlaces(), true)
  {
  }

  /** Ids are unique within a collection. */
  predicate IdsUnique(xs: seq<Item>)
  {
    forall i, j :: 0 <= i < j < |xs| ==> xs[i].id != xs[j].id
  }

  /** `FALLBACK_ARTISANS`: two artisans, each with a category and no type. */
  function FallbackArtisans(): (r: seq<Item>)
    ensures |r| == 2 && IdsUnique(r)
    ensures forall i :: 0 <= i < |r| ==> Truthy(r[i].category) && r[i].itemType.None?
  {
    [ Item(1, "Colectivo Textil Xochitla",
           Some("Taller familiar dedicado al bordado tradicional otomí."),
           Some("Textiles"), None, 20.0696, -99.3367, None),
      Item(2, "Alfarería Rivera",
           Some("Piezas de barro bruñido hechas a mano por artesanos locales."),
           Some("Cerámica"), None, 20.0542, -99.341, None) ]
  }

  /** `FALLBACK_PLACES`: two places, each with a type and no category. */
  function FallbackPlaces(): (r: seq<Item>)
    ensures |r| == 2 && IdsUnique(r)
    ensures forall i :: 0 <= i < |r| ==> Truthy(r[i].itemType) && r[i].category.None?
  {
    [ Item(1, "Mercado de Artesanías",
           Some("Espacio comunitario donde podrás encontrar artesanías locales."),
           None, Some("Mercado"), 20.0623, -99.3351, None),
      Item(2, "Museo del Maguey",
           Some("Centro cultural dedicado a la historia del maguey y el pulque."),
           None, Some("Museo"), 20.0579, -99.3458, None) ]
  }

  /** The two bundled collections reuse the same ids, so an id alone does not
      identify a record once they are shown together. */
  lemma FallbackIdsOverlap()
    ensures forall i :: 0 <= i < 2 ==> FallbackArtisans()[i].id == FallbackPlaces()[i].id
    ensures FallbackArtisans()[0].id == FallbackPlaces()[0].id == 1
    ensures FallbackArtisans()[1].id == FallbackPlaces()[1].id == 2
  {
  }
}
