/** The list screen (src/screens/ListScreen.tsx): it tags the artisans and the
    places, concatenates them, keys each row by kind and id, and keeps the
    result in its one state cell, `items`. */
module ListScreen {
  import opened Outcomes
  import opened Api
  import NumberText

  /** The tag the screen gives each record: `'Artesano'` or `'Lugar'`. */
  datatype Kind = Artesano | Lugar

  function KindLabel(k: Kind): (text: string)
    ensures |text| >= 1
  {
    match k
    case Artesano => "Artesano"
    case Lugar => "Lugar"
  }

  /** `{...x, kind}`: the record with every field kept and a kind added. */
  datatype TaggedItem = TaggedItem(item: Item, kind: Kind)

  /** `xs.map(x => ({...x, kind}))`. */
  function Tag(xs: seq<Item>, kind: Kind): (r: seq<TaggedItem>)
    ensures |r| == |xs|
    ensures forall i :: 0 <= i < |xs| ==> r[i] == TaggedItem(xs[i], kind)
    decreases |xs|
  {
    if xs == [] then [] else [TaggedItem(xs[0], kind)] + Tag(xs[1..], kind)
  }

  /** The intended merge: every artisan tagged `'Artesano'`, then every place
      tagged `'Lugar'`, each in source order. */
  function Merge(artisans: seq<Item>, places: seq<Item>): (r: seq<TaggedItem>)
    ensures |r| == |artisans| + |places|
    ensures forall i :: 0 <= i < |artisans| ==> r[i] == TaggedItem(artisans[i], Artesano)
    ensures forall i :: |artisans| <= i < |r| ==> r[i] == TaggedItem(places[i - |artisans|], Lugar)
  {
    Tag(artisans, Artesano) + Tag(places, Lugar)
  }

  /** The records of one kind, in list order, with the tag removed. */
  function RecordsOfKind(rows: seq<TaggedItem>, kind: Kind): seq<Item>
    decreases |rows|
  {
    if rows == [] then []
    else (if rows[0].kind == kind then [rows[0].item] else []) + RecordsOfKind(rows[1..], kind)
  }

  lemma {:induction false} RecordsOfKindAppend(u: seq<TaggedItem>, v: seq<TaggedItem>, kind: Kind)
    ensures RecordsOfKind(u + v, kind) == RecordsOfKind(u, kind) + RecordsOfKind(v, kind)
    decreases |u|
  {
    if u == [] {
      assert u + v == v;
    } else {
      assert (u + v)[0] == u[0] && (u + v)[1..] == u[1..] + v;
      RecordsOfKindAppend(u[1..], v, kind);
    }
  }

  lemma {:induction false} RecordsOfTag(xs: seq<Item>, tagged: Kind, kind: Kind)
    ensures RecordsOfKind(Tag(xs, tagged), kind) == if tagged == kind then xs else []
    decreases |xs|
  {
    if xs != [] {
      assert Tag(xs, tagged)[1..] == Tag(xs[1..], tagged);
      RecordsOfTag(xs[1..], tagged, kind);
    }
  }

  /** Merging loses and alters nothing: selecting each kind gives back exactly
      the collection it came from. */
  lemma MergeSplitsBack(artisans: seq<Item>, places: seq<Item>)
    ensures RecordsOfKind(Merge(artisans, places), Artesano) == artisans
    ensures RecordsOfKind(Merge(artisans, places), Lugar) == places
  {
    RecordsOfKindAppend(Tag(artisans, Artesano), Tag(places, Lugar), Artesano);
    RecordsOfKindAppend(Tag(artisans, Artesano), Tag(places, Lugar), Lugar);
    RecordsOfTag(artisans, Artesano, Artesano);
    RecordsOfTag(artisans, Artesano, Lugar);
    RecordsOfTag(places, Lugar, Artesano);
    RecordsOfTag(places, Lugar, Lugar);
  }

  /** `keyExtractor`: `${it.kind}-${it.id}`. */
  function Key(row: TaggedItem): (k: string)
    ensures |k| > |KindLabel(row.kind)|
    ensures k[..|KindLabel(row.kind)| + 1] == KindLabel(row.kind) + "-"
    ensures k[|KindLabel(row.kind)| + 1..] == NumberText.NumberToString(row.item.id)
  {
    KindLabel(row.kind) + "-" + NumberText.NumberToString(row.item.id)
  }

  /** A key names its row's kind and id and nothing else. */
  lemma KeyInjective(u: TaggedItem, v: TaggedItem)
    ensures Key(u) == Key(v) <==> u.kind == v.kind && u.item.id == v.item.id
  {
    if Key(u) == Key(v) {
      assert u.kind == v.kind by { assert Key(u)[0] == Key(v)[0]; }
      var n := |KindLabel(u.kind)| + 1;
      assert Key(u)[n..] == NumberText.NumberToString(u.item.id);
      assert Key(v)[n..] == NumberText.NumberToString(v.item.id);
      NumberText.NumberToStringInjective(u.item.id, v.item.id);
    }
  }

  /** Every row of the list has its own key. */
  predicate KeysUnique(rows: seq<TaggedItem>)
  {
    forall i, j :: 0 <= i < j < |rows| ==> Key(rows[i]) != Key(rows[j])
  }

  lemma UniqueIdsGiveUniqueKeys(artisans: seq<Item>, places: seq<Item>)
    requires IdsUnique(artisans) && IdsUnique(places)
    ensures KeysUnique(Merge(artisans, places))
  {
    var rows := Merge(artisans, places);
    forall i, j | 0 <= i < j < |rows|
      ensures Key(rows[i]) != Key(rows[j])
    {
      KeyInjective(rows[i], rows[j]);
    }
  }

  lemma UniqueKeysGiveUniqueIds(artisans: seq<Item>, places: seq<Item>)
    requires KeysUnique(Merge(artisans, places))
    ensures IdsUnique(artisans) && IdsUnique(places)
  {
    var rows := Merge(artisans, places);
    var na := |artisans|;
    forall i, j | 0 <= i < j < na
      ensures artisans[i].id != artisans[j].id
    {
      assert Key(rows[i]) != Key(rows[j]);
      assert rows[i].kind == rows[j].kind == Artesano;
      KeyInjective(rows[i], rows[j]);
    }
    forall i, j | 0 <= i < j < |places|
      ensures places[i].id != places[j].id
    {
      assert Key(rows[na + i]) != Key(rows[na + j]);
      assert rows[na + i].kind == rows[na + j].kind == Lugar;
      KeyInjective(rows[na + i], rows[na + j]);
    }
  }

  /** The merged rows have distinct keys exactly when the ids are unique within
      each collection; ids shared between an artisan and a place do no harm. */
  lemma MergedKeysUnique(artisans: seq<Item>, places: seq<Item>)
    ensures KeysUnique(Merge(artisans, places)) <==> IdsUnique(artisans) && IdsUnique(places)
  {
    if IdsUnique(artisans) && IdsUnique(places) {
      UniqueIdsGiveUniqueKeys(artisans, places);
    }
    if KeysUnique(Merge(artisans, places)) {
      UniqueKeysGiveUniqueIds(artisans, places);
    }
  }

  /** The row subtitle, `item.category || item.type`. */
  function Subtitle(row: TaggedItem): (s: Option<string>)
    ensures Truthy(s) <==> Truthy(row.item.category) || Truthy(row.item.itemType)
    ensures Truthy(row.item.category) ==> s == row.item.category
    ensures !Truthy(row.item.category) ==> s == row.item.itemType
  {
    if Truthy(row.item.category) then row.item.category else row.item.itemType
  }

  /** What `.then`'s callback receives for `a` and `p`: an array, which has a
      `map` method, or a `FetchResult` record, which does not. */
  datatype JsValue = JsArray(elems: seq<Item>) | JsRecord(result: FetchResult<seq<Item>>)

  /** The reason `.catch` receives; its exact wording is engine-specific and
      no contract depends on it. */
  const MapIsNotAFunction := "TypeError: map is not a function"

  /** `v.map(x => ({...x, kind}))`: throws when `v` is not an array. */
  function MapTag(v: JsValue, kind: Kind): (r: Settled<seq<TaggedItem>>)
    ensures r.Fulfilled? <==> v.JsArray?
    ensures v.JsArray? ==> r.value == Tag(v.elems, kind)
  {
    match v
    case JsArray(xs) => Fulfilled(Tag(xs, kind))
    case JsRecord(_) => Rejected(MapIsNotAFunction)
  }

  /** The `.then` callback: map `a`, then map `p`, then concatenate; a throw
      anywhere rejects the chain, which `.catch` receives. */
  function ThenCallback(a: JsValue, p: JsValue): (r: Settled<seq<TaggedItem>>)
    ensures r.Fulfilled? <==> a.JsArray? && p.JsArray?
    ensures r.Fulfilled? ==> r.value == Merge(a.elems, p.elems)
  {
    match MapTag(a, Artesano)
    case Rejected(e) => Rejected(e)
    case Fulfilled(taggedArtisans) =>
      match MapTag(p, Lugar)
      case Rejected(e) => Rejected(e)
      case Fulfilled(taggedPlaces) => Fulfilled(taggedArtisans + taggedPlaces)
  }

  /** The effect's promise chain as written: `Promise.all` hands the callback
      the two `FetchResult` records themselves. */
  function EffectAsWritten(apiUrl: string, get: string -> Response): (r: Settled<seq<TaggedItem>>)
    ensures r.Rejected?
  {
    ThenCallback(JsRecord(FetchArtisans(apiUrl, get)), JsRecord(FetchPlaces(apiUrl, get)))
  }

  /** The effect's promise chain as intended: the callback maps each result's
      `data`. It always succeeds, because neither fetch ever rejects. */
  function Effect(apiUrl: string, get: string -> Response): (r: Settled<seq<TaggedItem>>)
    ensures r == Fulfilled(Merge(FetchArtisans(apiUrl, get).data, FetchPlaces(apiUrl, get).data))
    ensures RecordsOfKind(r.value, Artesano) == FetchArtisans(apiUrl, get).data
    ensures RecordsOfKind(r.value, Lugar) == FetchPlaces(apiUrl, get).data
  {
    var artisans := FetchArtisans(apiUrl, get);
    var places := FetchPlaces(apiUrl, get);
    MergeSplitsBack(artisans.data, places.data);
    ThenCallback(JsArray(artisans.data), JsArray(places.data))
  }

  /** With the network down, the intended screen lists the four bundled records,
      artisans first, under four distinct keys, although their ids collide. */
  lemma OfflineListing(apiUrl: string, get: string -> Response)
    requires get(apiUrl + "/artisans").Failed? && get(apiUrl + "/places").Failed?
    ensures Effect(apiUrl, get) == Fulfilled(Merge(FallbackArtisans(), FallbackPlaces()))
    ensures |Effect(apiUrl, get).value| == 4
    ensures KeysUnique(Effect(apiUrl, get).value)
  {
    MergedKeysUnique(FallbackArtisans(), FallbackPlaces());
  }

  /** The component's state: the `items` cell of `useState`. */
  class ListScreenState {
    var items: seq<TaggedItem>

    /** `useState([])`. */
    constructor ()
      ensures items == []
    {
      items := [];
    }

    /** How the promise chain ends: `setItems` replaces the whole list when
        the callback completes; `.catch(console.error)` changes nothing. */
    method Settle(outcome: Settled<seq<TaggedItem>>)
      modifies this
      ensures outcome.Fulfilled? ==> items == outcome.value
      ensures outcome.Rejected? ==> items == old(items)
    {
      if outcome.Fulfilled? {
        items := outcome.value;
      }
    }

    /** The mount effect as written: the callback throws, so `items` is never set. */
    method RunEffectAsWritten(apiUrl: string, get: string -> Response)
      modifies this
      ensures items == old(items)
    {
      Settle(EffectAsWritten(apiUrl, get));
    }

    /** The mount effect as intended: `items` becomes the merged fetch results. */
    method RunEffect(apiUrl: string, get: string -> Response)
      modifies this
      ensures items == Merge(FetchArtisans(apiUrl, get).data, FetchPlaces(apiUrl, get).data)
    {
      Settle(Effect(apiUrl, get));
    }
  }

  /** Mounting the screen as written: whatever the platform, configuration and
      network, the list stays empty. */
  method MountAsWritten(os: string, extra: Option<Extra>, get: string -> Response)
    returns (screen: ListScreenState)
    ensures fresh(screen) && screen.items == []
  {
    screen := new ListScreenState();
    screen.RunEffectAsWritten(ResolveApiUrl(os, extra), get);
  }

  /** Mounting the screen as intended: the list holds the live or bundled
      artisans, then the live or bundled places. */
  method Mount(os: string, extra: Option<Extra>, get: string -> Response)
    returns (screen: ListScreenState)
    ensures fresh(screen)
    ensures screen.items == Merge(FetchArtisans(ResolveApiUrl(os, extra), get).data,
                                  FetchPlaces(ResolveApiUrl(os, extra), get).data)
  {
    screen := new ListScreenState();
    screen.RunEffect(ResolveApiUrl(os, extra), get);
  }
}
