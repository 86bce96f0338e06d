/**
 * `ETGHotelsClient`: the hotel resources of the ETG API v3. Each method maps its arguments to a
 * parameter mapping, calls `ETGClient.request` on the client, and picks its payload out of the
 * result.
 */
module EtgHotels {
  import opened Wrappers
  import opened Json
  import opened Results
  import opened Http
  import opened EtgModels
  import opened EtgApi
  import opened Dates
  import opened Regions

  const SerpHotelsEndpoint := "api/b2b/v3/search/serp/hotels/"
  const SerpRegionEndpoint := "api/b2b/v3/search/serp/region/"
  const HotelRatesEndpoint := "/hotel/rates"
  const HotelpagePrefix := "/hotelpage/"

  const SearchKeys: set<string> :=
    {"ids", "region_id", "checkin", "checkout", "guests", "currency", "residency", "timeout", "upsells", "language"}

  /** The endpoint `search` picks from the type of `ids`: hotels for a list, a region for an int, '' otherwise. */
  function SearchEndpoint(ids: Json): string {
    if ids.JArr? then SerpHotelsEndpoint
    else if IsInstanceInt(ids) then SerpRegionEndpoint
    else ""
  }

  /** The key `ids` is sent under: `ids` for a list, `region_id` for an int, none otherwise. */
  function IdsEntry(ids: Json): map<string, Json> {
    if ids.JArr? then map["ids" := ids]
    else if IsInstanceInt(ids) then map["region_id" := ids]
    else map[]
  }

  /** The parameters of `search` always sent: the ids under the key their type selects, the dates as `YYYY-MM-DD`, the guests. */
  function SearchBase(ids: Json, checkin: Date, checkout: Date, guests: Json): (d: map<string, Json>)
    ensures d.Keys <= {"ids", "region_id", "checkin", "checkout", "guests"}
    ensures ("ids" in d <==> ids.JArr?) && ("ids" in d ==> d["ids"] == ids)
    ensures ("region_id" in d <==> !ids.JArr? && IsInstanceInt(ids)) && ("region_id" in d ==> d["region_id"] == ids)
    ensures "checkin" in d && d["checkin"] == JStr(FormatDate(checkin))
    ensures "checkout" in d && d["checkout"] == JStr(FormatDate(checkout))
    ensures "guests" in d && d["guests"] == guests
  {
    IdsEntry(ids) + map["checkin" := JStr(FormatDate(checkin)), "checkout" := JStr(FormatDate(checkout)), "guests" := guests]
  }

  /** The optional parameters of `search`, in the order it inserts them. */
  function SearchOptions(currency: Json, residency: Json, timeout: Json, upsells: Json, language: Json)
    : seq<(string, Json)>
  {
    [("currency", currency), ("residency", residency), ("timeout", timeout), ("upsells", upsells), ("language", language)]
  }

  /** The parameters of `search`: those always sent, then each optional parameter that is given. */
  function SearchData(ids: Json, checkin: Date, checkout: Date, guests: Json,
                      currency: Json, residency: Json, timeout: Json, upsells: Json, language: Json)
    : map<string, Json>
  {
    var base := SearchBase(ids, checkin, checkout, guests);
    PutIfPresent(PutIfPresent(PutIfPresent(PutIfPresent(PutIfPresent(base,
      "currency", currency), "residency", residency), "timeout", timeout), "upsells", upsells), "language", language)
  }

  /** No optional parameter of `search` is one of those always sent, and none of them repeats. */
  lemma SearchOptionsFresh(ids: Json, checkin: Date, checkout: Date, guests: Json,
                           currency: Json, residency: Json, timeout: Json, upsells: Json, language: Json)
    ensures FreshKeys(SearchBase(ids, checkin, checkout, guests), SearchOptions(currency, residency, timeout, upsells, language))
    ensures var options := SearchOptions(currency, residency, timeout, upsells, language);
            forall i :: 0 <= i < |options| ==>
              options[i].0 in SearchKeys && options[i].0 !in {"ids", "region_id", "checkin", "checkout", "guests"}
  {
  }

  /** The insertions of `search` are the conditional insertions of its optional parameters in order. */
  lemma SearchDataIsFold(ids: Json, checkin: Date, checkout: Date, guests: Json,
                         currency: Json, residency: Json, timeout: Json, upsells: Json, language: Json)
    ensures SearchData(ids, checkin, checkout, guests, currency, residency, timeout, upsells, language)
            == WithOptionals(SearchBase(ids, checkin, checkout, guests), SearchOptions(currency, residency, timeout, upsells, language))
  {
    var options := SearchOptions(currency, residency, timeout, upsells, language);
    var d0 := SearchBase(ids, checkin, checkout, guests);
    var d1 := PutIfPresent(d0, "currency", currency);
    var d2 := PutIfPresent(d1, "residency", residency);
    var d3 := PutIfPresent(d2, "timeout", timeout);
    var d4 := PutIfPresent(d3, "upsells", upsells);
    var d5 := PutIfPresent(d4, "language", language);
    var rest := options[1..];
    assert options[0] == ("currency", currency);
    assert WithOptionals(d0, options) == WithOptionals(d1, rest);
    assert rest[0] == ("residency", residency);
    assert WithOptionals(d1, rest) == WithOptionals(d2, rest[1..]);
    rest := rest[1..];
    assert rest[0] == ("timeout", timeout);
    assert WithOptionals(d2, rest) == WithOptionals(d3, rest[1..]);
    rest := rest[1..];
    assert rest[0] == ("upsells", upsells);
    assert WithOptionals(d3, rest) == WithOptionals(d4, rest[1..]);
    rest := rest[1..];
    assert rest[0] == ("language", language);
    assert WithOptionals(d4, rest) == WithOptionals(d5, rest[1..]);
    assert |rest[1..]| == 0;
  }

  /**
   * `search` sends the ids under the key their type selects, the dates as `YYYY-MM-DD` and the
   * guests, whatever optional parameters are given, and no key outside its ten.
   */
  lemma SearchDataRequired(ids: Json, checkin: Date, checkout: Date, guests: Json,
                           currency: Json, residency: Json, timeout: Json, upsells: Json, language: Json)
    ensures var d := SearchData(ids, checkin, checkout, guests, currency, residency, timeout, upsells, language);
            && d.Keys <= SearchKeys
            && ("ids" in d <==> ids.JArr?) && ("ids" in d ==> d["ids"] == ids)
            && ("region_id" in d <==> !ids.JArr? && IsInstanceInt(ids)) && ("region_id" in d ==> d["region_id"] == ids)
            && "checkin" in d && d["checkin"] == JStr(FormatDate(checkin))
            && "checkout" in d && d["checkout"] == JStr(FormatDate(checkout))
            && "guests" in d && d["guests"] == guests
  {
    var base := SearchBase(ids, checkin, checkout, guests);
    var options := SearchOptions(currency, residency, timeout, upsells, language);
    SearchDataIsFold(ids, checkin, checkout, guests, currency, residency, timeout, upsells, language);
    SearchOptionsFresh(ids, checkin, checkout, guests, currency, residency, timeout, upsells, language);
    WithOptionalsLookup(base, options);
    var d := SearchData(ids, checkin, checkout, guests, currency, residency, timeout, upsells, language);
    forall k | k in d ensures k in SearchKeys {
      if k !in base {
        var i :| 0 <= i < |options| && options[i].0 == k;
      }
    }
  }

  /** `search` sends each optional parameter exactly when it is given, with its value unchanged. */
  lemma SearchDataOptional(ids: Json, checkin: Date, checkout: Date, guests: Json,
                           currency: Json, residency: Json, timeout: Json, upsells: Json, language: Json)
    ensures var d := SearchData(ids, checkin, checkout, guests, currency, residency, timeout, upsells, language);
            && ("currency" in d <==> currency != JNull) && ("currency" in d ==> d["currency"] == currency)
            && ("residency" in d <==> residency != JNull) && ("residency" in d ==> d["residency"] == residency)
            && ("timeout" in d <==> timeout != JNull) && ("timeout" in d ==> d["timeout"] == timeout)
            && ("upsells" in d <==> upsells != JNull) && ("upsells" in d ==> d["upsells"] == upsells)
            && ("language" in d <==> language != JNull) && ("language" in d ==> d["language"] == language)
  {
    var base := SearchBase(ids, checkin, checkout, guests);
    var options := SearchOptions(currency, residency, timeout, upsells, language);
    assert options[0].0 == "currency" && options[1].0 == "residency" && options[2].0 == "timeout"
        && options[3].0 == "upsells" && options[4].0 == "language";
    SearchDataIsFold(ids, checkin, checkout, guests, currency, residency, timeout, upsells, language);
    SearchOptionsFresh(ids, checkin, checkout, guests, currency, residency, timeout, upsells, language);
    WithOptionalsLookup(base, options);
  }

  /** The request `search` sends: POST to the endpoint the ids select. */
  function SearchCall(client: EtgClient, ids: Json, checkin: Date, checkout: Date, guests: Json,
                      currency: Json, residency: Json, timeout: Json, upsells: Json, language: Json)
    : HttpRequest
  {
    client.Outgoing("POST", SearchEndpoint(ids),
                    JObj(SearchData(ids, checkin, checkout, guests, currency, residency, timeout, upsells, language)))
  }

  /** `hotels = list(); if isinstance(response, dict): hotels = response.get('hotels')`, after a successful request. */
  function HotelsOf(o: Outcome<Json, ApiError>): (h: Outcome<Json, ApiError>)
    ensures !o.Done? ==> h == o
    ensures o.Done? && o.value.JObj? ==> h == Done(Get(o.value, "hotels"))
    ensures o.Done? && !o.value.JObj? ==> h == Done(JArr([]))
  {
    match o
    case Done(response) => Done(if response.JObj? then Get(response, "hotels") else JArr([]))
    case Raised(e) => Raised(e)
    case Fault => Fault
  }

  /**
   * The first half of `search`: the endpoint and the parameter mapping, built step by step by
   * insertion into an initially empty dict.
   */
  method BuildSearchData(ids: Json, checkin: Date, checkout: Date, guests: Json,
                         currency: Json, residency: Json, timeout: Json, upsells: Json, language: Json)
    returns (endpoint: string, data: map<string, Json>)
    ensures endpoint == SearchEndpoint(ids)
    ensures data == SearchData(ids, checkin, checkout, guests, currency, residency, timeout, upsells, language)
  {
    endpoint := "";
    data := map[];
    if ids.JArr? {
      endpoint := SerpHotelsEndpoint;
      data := data["ids" := ids];
    } else if IsInstanceInt(ids) {
      endpoint := SerpRegionEndpoint;
      data := data["region_id" := ids];
    }
    assert data == IdsEntry(ids);
    data := data + map["checkin" := JStr(FormatDate(checkin)), "checkout" := JStr(FormatDate(checkout)), "guests" := guests];
    assert data == SearchBase(ids, checkin, checkout, guests);
    data := SetIfPresent(data, "currency", currency);
    data := SetIfPresent(data, "residency", residency);
    data := SetIfPresent(data, "timeout", timeout);
    data := SetIfPresent(data, "upsells", upsells);
    data := SetIfPresent(data, "language", language);
  }

  /** `ETGHotelsClient.search`: POST the search, then pick `hotels` out of the result. */
  method Search(client: EtgClient, server: Server, ids: Json, checkin: Date, checkout: Date, guests: Json,
                currency: Json := JNull, residency: Json := JNull, timeout: Json := JNull,
                upsells: Json := JNull, language: Json := JNull)
    returns (hotels: Outcome<Json, ApiError>)
    modifies client
    ensures client.req == JNull
    ensures client.resp
            == FromKwargs(server(SearchCall(client, ids, checkin, checkout, guests, currency, residency, timeout, upsells, language)))
    ensures hotels
            == HotelsOf(Unwrap(server(SearchCall(client, ids, checkin, checkout, guests, currency, residency, timeout, upsells, language))))
  {
    var endpoint, data := BuildSearchData(ids, checkin, checkout, guests, currency, residency, timeout, upsells, language);
    ghost var call := SearchCall(client, ids, checkin, checkout, guests, currency, residency, timeout, upsells, language);
    assert call == client.Outgoing("POST", endpoint, JObj(data));
    var response := client.Request("POST", endpoint, server, JObj(data));
    assert response == Unwrap(server(call));
    match response {
      case Done(result) =>
        var found := JArr([]);
        if result.JObj? {
          found := Get(result, "hotels");
        }
        hotels := Done(found);
      case Raised(e) => hotels := Raised(e);
      case Fault => hotels := Fault;
    }
  }

  /** `ETGHotelsClient.search_by_hotels`: `search` with the same arguments. */
  method SearchByHotels(client: EtgClient, server: Server, ids: Json, checkin: Date, checkout: Date, guests: Json,
                        currency: Json := JNull, residency: Json := JNull, timeout: Json := JNull,
                        upsells: Json := JNull, language: Json := JNull)
    returns (hotels: Outcome<Json, ApiError>)
    modifies client
    ensures client.req == JNull
    ensures client.resp
            == FromKwargs(server(SearchCall(client, ids, checkin, checkout, guests, currency, residency, timeout, upsells, language)))
    ensures hotels
            == HotelsOf(Unwrap(server(SearchCall(client, ids, checkin, checkout, guests, currency, residency, timeout, upsells, language))))
  {
    hotels := Search(client, server, ids, checkin, checkout, guests, currency, residency, timeout, upsells, language);
  }

  /** `ETGHotelsClient.search_by_region`: `search` with the same arguments. */
  method SearchByRegion(client: EtgClient, server: Server, regionId: Json, checkin: Date, checkout: Date, guests: Json,
                        currency: Json := JNull, residency: Json := JNull, timeout: Json := JNull,
                        upsells: Json := JNull, language: Json := JNull)
    returns (hotels: Outcome<Json, ApiError>)
    modifies client
    ensures client.req == JNull
    ensures client.resp
            == FromKwargs(server(SearchCall(client, regionId, checkin, checkout, guests, currency, residency, timeout, upsells, language)))
    ensures hotels
            == HotelsOf(Unwrap(server(SearchCall(client, regionId, checkin, checkout, guests, currency, residency, timeout, upsells, language))))
  {
    hotels := Search(client, server, regionId, checkin, checkout, guests, currency, residency, timeout, upsells, language);
  }

  /** The parameters of `hotel_rates`: the ids under the key their type selects and the two dates, nothing else. */
  function HotelRatesData(ids: Json, checkin: Date, checkout: Date): (d: map<string, Json>)
    ensures d.Keys <= {"ids", "region_id", "checkin", "checkout"}
    ensures ("ids" in d <==> ids.JArr?) && ("ids" in d ==> d["ids"] == ids)
    ensures ("region_id" in d <==> !ids.JArr? && IsInstanceInt(ids)) && ("region_id" in d ==> d["region_id"] == ids)
    ensures "checkin" in d && d["checkin"] == JStr(FormatDate(checkin))
    ensures "checkout" in d && d["checkout"] == JStr(FormatDate(checkout))
  {
    IdsEntry(ids)["checkin" := JStr(FormatDate(checkin))]["checkout" := JStr(FormatDate(checkout))]
  }

  /** `ETGHotelsClient.hotel_rates`: GET `/hotel/rates`, the hotels picked as in `search`. */
  method HotelRates(client: EtgClient, server: Server, ids: Json, checkin: Date, checkout: Date)
    returns (hotels: Outcome<Json, ApiError>)
    modifies client
    ensures client.req == JNull
    ensures client.resp == FromKwargs(server(client.Outgoing("GET", HotelRatesEndpoint, JObj(HotelRatesData(ids, checkin, checkout)))))
    ensures hotels == HotelsOf(Unwrap(server(client.Outgoing("GET", HotelRatesEndpoint, JObj(HotelRatesData(ids, checkin, checkout))))))
  {
    var data: map<string, Json> := map[];
    if ids.JArr? {
      data := data["ids" := ids];
    } else if IsInstanceInt(ids) {
      data := data["region_id" := ids];
    }
    data := data["checkin" := JStr(FormatDate(checkin))];
    data := data["checkout" := JStr(FormatDate(checkout))];
    var response := client.Request("GET", HotelRatesEndpoint, server, JObj(data));
    match response {
      case Done(result) =>
        var found := JArr([]);
        if result.JObj? {
          found := Get(result, "hotels");
        }
        hotels := Done(found);
      case Raised(e) => hotels := Raised(e);
      case Fault => hotels := Fault;
    }
  }

  /** The parameters of `hotelpage`: always the same five keys, with absent children sent as `[]`. */
  function HotelpageData(checkin: Date, checkout: Date, adults: Json, children: Json, currency: Json)
    : (d: map<string, Json>)
    ensures d.Keys == {"checkin", "checkout", "adults", "children", "currency"}
    ensures d["checkin"] == JStr(FormatDate(checkin)) && d["checkout"] == JStr(FormatDate(checkout))
    ensures d["adults"] == adults && d["currency"] == currency
    ensures d["children"] == if children == JNull then JArr([]) else children
  {
    map["checkin" := JStr(FormatDate(checkin)), "checkout" := JStr(FormatDate(checkout)),
        "adults" := adults, "children" := (if children == JNull then JArr([]) else children),
        "currency" := currency]
  }

  /** The hotel `hotelpage` returns: the first of `result['hotels']` when that is a non-empty list, else None. */
  function FirstHotel(result: Json): (hotel: Json)
    ensures result.JObj? && Get(result, "hotels").JArr? && |Get(result, "hotels").items| > 0
            ==> hotel == Get(result, "hotels").items[0]
    ensures !(result.JObj? && Get(result, "hotels").JArr? && |Get(result, "hotels").items| > 0) ==> hotel == JNull
  {
    if result.JObj? && Get(result, "hotels").JArr? && |Get(result, "hotels").items| > 0
    then Get(result, "hotels").items[0]
    else JNull
  }

  /** `ETGHotelsClient.hotelpage`, with its defaults of two adults and the contract's currency. */
  method Hotelpage(client: EtgClient, server: Server, hotelId: string, checkin: Date, checkout: Date,
                   adults: Json := JInt(2), children: Json := JNull, currency: Json := JStr("default"))
    returns (hotel: Outcome<Json, ApiError>)
    modifies client
    ensures client.req == JNull
    ensures client.resp
            == FromKwargs(server(client.Outgoing("GET", HotelpagePrefix + hotelId,
                                                 JObj(HotelpageData(checkin, checkout, adults, children, currency)))))
    ensures var o := Unwrap(server(client.Outgoing("GET", HotelpagePrefix + hotelId,
                                                   JObj(HotelpageData(checkin, checkout, adults, children, currency)))));
            hotel == if o.Done? then Done(FirstHotel(o.value)) else o
  {
    var data := HotelpageData(checkin, checkout, adults, children, currency);
    var result := client.Request("GET", HotelpagePrefix + hotelId, server, JObj(data));
    if result.Done? {
      hotel := Done(FirstHotel(result.value));
    } else {
      hotel := result;
    }
  }

  /** `ETGHotelsClient.region_list`: GET `/region/list` with the given filters, the result returned unchanged. */
  method RegionList(client: EtgClient, server: Server, lastId: Json := JNull, limit: Json := JNull, types: Json := JNull)
    returns (regions: Outcome<Json, ApiError>)
    modifies client
    ensures client.req == JNull
    ensures client.resp == FromKwargs(server(client.Outgoing("GET", RegionListResource, JObj(RegionFilters(lastId, limit, types)))))
    ensures regions == Unwrap(server(client.Outgoing("GET", RegionListResource, JObj(RegionFilters(lastId, limit, types)))))
  {
    var data := BuildRegionFilters(lastId, limit, types);
    regions := client.Request("GET", RegionListResource, server, JObj(data));
  }
}
