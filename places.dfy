/**
 * The Places enricher: it turns a raw business name returned by an AI platform into a business
 * profile, from the decoded bodies of a Places text search and a Places details request.
 *
 * The HTTP requests themselves are outside the model: a reply is either an HTTP failure (on which
 * `raise_for_status` raises) or a decoded JSON body carrying the keys the code indexes directly.
 */
module Places {
  import opened Common
  import opened Seqs

  datatype Reply<T> = HttpFailure | Decoded(body: T)

  /** One entry of a text search's `results`. */
  datatype PlaceJson = PlaceJson(
    placeId: string, name: string, formattedAddress: Option<string>, lat: int, lng: int,
    priceLevel: Option<int>, rating: Option<real>, userRatingsTotal: Option<int>)

  datatype SearchBody = SearchBody(status: string, results: Option<seq<PlaceJson>>)

  /** The `result` object of a details request. */
  datatype DetailsJson = DetailsJson(
    name: Option<string>, formattedAddress: Option<string>, lat: int, lng: int,
    types: Option<seq<string>>, priceLevel: Option<int>, rating: Option<real>,
    userRatingsTotal: Option<int>, openingHours: Option<seq<string>>,
    website: Option<string>, phone: Option<string>)

  datatype DetailsBody = DetailsBody(status: string, result: DetailsJson)

  datatype PlaceResult = PlaceResult(
    googlePlaceId: string, name: string, address: string, lat: int, lng: int,
    cuisineType: Option<string>, priceLevel: Option<int>, rating: Option<real>,
    userRatingsTotal: Option<int>)

  datatype PlaceDetails = PlaceDetails(
    name: Option<string>, address: Option<string>, lat: int, lng: int,
    cuisineType: Option<string>, priceLevel: Option<int>, rating: Option<real>,
    userRatingsTotal: Option<int>, openingHours: Option<seq<string>>,
    website: Option<string>, phone: Option<string>)

  /** The standard profile of a resolved business. */
  datatype Business = Business(
    googlePlaceId: string, officialName: string, address: string, lat: int, lng: int,
    district: string, h3Index: string, cuisine: Option<string>, priceRange: Option<string>)

  /** What resolving one raw name can end in; an exception is caught by the caller. */
  datatype ResolveOutcome = ResolveFailed | Unresolved | Resolved(business: Business)

  const CUISINE_MAPPING: map<string, string> := map[
    "chinese_restaurant" := "Chinese",
    "japanese_restaurant" := "Japanese",
    "italian_restaurant" := "Italian",
    "french_restaurant" := "French",
    "indian_restaurant" := "Indian",
    "thai_restaurant" := "Thai",
    "mexican_restaurant" := "Mexican",
    "korean_restaurant" := "Korean",
    "vietnamese_restaurant" := "Vietnamese"
  ]

  const PRICE_RANGES: map<int, string> := map[1 := "$", 2 := "$$", 3 := "$$$", 4 := "$$$$"]

  /** `_price_level_to_range`: levels 1 to 4 become that many dollar signs; anything else, and a
      missing level, gives no range. */
  function PriceLevelToRange(level: Option<int>): (r: Option<string>)
    ensures r.Some? <==> level.Some? && 1 <= level.value <= 4
    ensures r.Some? ==> |r.value| == level.value && forall i :: 0 <= i < |r.value| ==> r.value[i] == '$'
  {
    if level.None? then None
    else if level.value in PRICE_RANGES then Some(PRICE_RANGES[level.value])
    else None
  }

  /** `search_place`, once the body is decoded: nothing unless the status is OK and there is at
      least one result; otherwise the first result, with an absent address read as "". */
  function SearchPlace(body: SearchBody): (r: Option<PlaceResult>)
    ensures r.None? <==> body.status != "OK" || body.results.None? || body.results.value == []
    ensures r.Some? ==>
      var p := body.results.value[0];
      && r.value.googlePlaceId == p.placeId && r.value.name == p.name
      && r.value.address == (if p.formattedAddress.Some? then p.formattedAddress.value else "")
      && r.value.lat == p.lat && r.value.lng == p.lng
      && r.value.priceLevel == p.priceLevel && r.value.cuisineType.None?
  {
    if body.status != "OK" || body.results.None? || body.results.value == [] then None
    else
      var p := body.results.value[0];
      Some(PlaceResult(p.placeId, p.name,
        if p.formattedAddress.Some? then p.formattedAddress.value else "",
        p.lat, p.lng, None, p.priceLevel, p.rating, p.userRatingsTotal))
  }

  const IsCuisineType: string -> bool := (t: string) => t in CUISINE_MAPPING

  /** The cuisine named by the first place type that the mapping table knows. */
  function FirstCuisine(types: seq<string>): (r: Option<string>)
    ensures r.None? <==> forall i :: 0 <= i < |types| ==> types[i] !in CUISINE_MAPPING
    ensures r.Some? ==>
      exists i :: 0 <= i < |types| && types[i] in CUISINE_MAPPING &&
        r.value == CUISINE_MAPPING[types[i]] && forall j :: 0 <= j < i ==> types[j] !in CUISINE_MAPPING
  {
    var k := FindIndex(types, IsCuisineType);
    if k.None? then None else Some(CUISINE_MAPPING[types[k.value]])
  }

  /** The cuisine loop of `get_place_details`: the first mapped type wins and the loop stops. */
  method CuisineOf(types: seq<string>) returns (cuisine: Option<string>)
    ensures cuisine == FirstCuisine(types)
  {
    cuisine := None;
    var i := 0;
    while i < |types|
      invariant 0 <= i <= |types|
      invariant forall j :: 0 <= j < i ==> types[j] !in CUISINE_MAPPING
      invariant cuisine.None?
    {
      if types[i] in CUISINE_MAPPING {
        cuisine := Some(CUISINE_MAPPING[types[i]]);
        break;
      }
      i := i + 1;
    }
    ghost var k := FindIndex(types, IsCuisineType);
    if k.Some? {
      assert k.value == i;
    }
  }

  /** `result.get('types', [])`. */
  function TypesOf(result: DetailsJson): seq<string>
  {
    if result.types.Some? then result.types.value else []
  }

  /** `get_place_details`, once the body is decoded: nothing unless the status is OK. */
  method GetPlaceDetails(body: DetailsBody) returns (d: Option<PlaceDetails>)
    ensures d.None? <==> body.status != "OK"
    ensures d.Some? ==>
      && d.value.cuisineType == FirstCuisine(TypesOf(body.result))
      && d.value.name == body.result.name && d.value.address == body.result.formattedAddress
      && d.value.lat == body.result.lat && d.value.lng == body.result.lng
      && d.value.priceLevel == body.result.priceLevel
      && d.value.rating == body.result.rating && d.value.userRatingsTotal == body.result.userRatingsTotal
      && d.value.openingHours == body.result.openingHours
      && d.value.website == body.result.website && d.value.phone == body.result.phone
  {
    if body.status != "OK" {
      return None;
    }
    var result := body.result;
    var cuisine := CuisineOf(TypesOf(result));
    d := Some(PlaceDetails(result.name, result.formattedAddress, result.lat, result.lng, cuisine,
      result.priceLevel, result.rating, result.userRatingsTotal, result.openingHours,
      result.website, result.phone));
  }

  /** `resolve_and_create_business`: an HTTP failure raises, a failed search resolves nothing,
      otherwise the search's first place becomes a business profile whose cuisine comes from the
      details (when there are any) and whose price range comes from the search's price level. */
  method ResolveAndCreateBusiness(
    search: Reply<SearchBody>, details: string -> Reply<DetailsBody>,
    cellOf: (int, int) -> string, district: string)
    returns (r: ResolveOutcome)
    ensures search.HttpFailure? ==> r.ResolveFailed?
    ensures search.Decoded? && SearchPlace(search.body).None? ==> r.Unresolved?
    ensures search.Decoded? && SearchPlace(search.body).Some? ==>
      var place := SearchPlace(search.body).value;
      var reply := details(place.googlePlaceId);
      && (reply.HttpFailure? ==> r.ResolveFailed?)
      && (reply.Decoded? ==> r == Resolved(Business(
            place.googlePlaceId, place.name, place.address, place.lat, place.lng, district,
            cellOf(place.lat, place.lng),
            if reply.body.status == "OK" then FirstCuisine(TypesOf(reply.body.result)) else None,
            PriceLevelToRange(place.priceLevel))))
  {
    if search.HttpFailure? {
      return ResolveFailed;
    }
    var place := SearchPlace(search.body);
    if place.None? {
      return Unresolved;
    }
    var reply := details(place.value.googlePlaceId);
    if reply.HttpFailure? {
      return ResolveFailed;
    }
    var info := GetPlaceDetails(reply.body);
    var p := place.value;
    r := Resolved(Business(p.googlePlaceId, p.name, p.address, p.lat, p.lng, district,
      cellOf(p.lat, p.lng),
      if info.Some? then info.value.cuisineType else None,
      PriceLevelToRange(p.priceLevel)));
  }
}
