/** The filters of `region_list`, which both clients build the same way. */
module Regions {
  import opened Json

  const RegionListResource := "/region/list"

  /** The `last_id`, `limit` and `types` filters, each present exactly when it is given, and unchanged. */
  function RegionFilters(lastId: Json, limit: Json, types: Json): (d: map<string, Json>)
    ensures d.Keys <= {"last_id", "limit", "types"}
    ensures ("last_id" in d <==> lastId != JNull) && ("last_id" in d ==> d["last_id"] == lastId)
    ensures ("limit" in d <==> limit != JNull) && ("limit" in d ==> d["limit"] == limit)
    ensures ("types" in d <==> types != JNull) && ("types" in d ==> d["types"] == types)
  {
    var entries := [("last_id", lastId), ("limit", limit), ("types", types)];
    WithOptionalsLookup(map[], entries);
    assert entries[0].0 == "last_id" && entries[1].0 == "limit" && entries[2].0 == "types";
    WithOptionals(map[], entries)
  }

  /** `data = dict()` followed by one conditional insertion per filter. */
  method BuildRegionFilters(lastId: Json, limit: Json, types: Json) returns (data: map<string, Json>)
    ensures data == RegionFilters(lastId, limit, types)
  {
    data := map[];
    if lastId != JNull {
      data := data["last_id" := lastId];
    }
    if limit != JNull {
      data := data["limit" := limit];
    }
    if types != JNull {
      data := data["types" := types];
    }
  }
}
