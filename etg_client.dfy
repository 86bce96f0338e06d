/** `ETGClient`: the request facade of the ETG API v3 and its general resources. */
module EtgApi {
  import opened Wrappers
  import opened Json
  import opened Results
  import opened Http
  import opened EtgModels

  const ApiHost := "https://api.worldota.net"
  const ContractDataInfoEndpoint := "api/b2b/v3/general/contract/data/info/"
  const FinancialInfoEndpoint := "api/b2b/v3/general/financial/info/"

  /**
   * What `request` returns for a decoded reply: the envelope's `data` when it is ok, the
   * classified error otherwise, and a fault when the reply is not an envelope.
   */
  function Unwrap(reply: Json): (o: Outcome<Json, ApiError>)
    ensures o.Done? <==> FromKwargs(reply).Some? && IsOk(FromKwargs(reply).value)
    ensures o.Done? ==> o.value == reply.fields["data"]
    ensures o.Raised? ==> FromKwargs(reply).Some? && RaiseForError(FromKwargs(reply).value) == Raised(o.error)
    ensures o.Fault? <==> FromKwargs(reply).None? || RaiseForError(FromKwargs(reply).value).Fault?
  {
    match FromKwargs(reply)
    case None => Fault
    case Some(r) =>
      match RaiseForError(r)
      case Done(_) => Done(r.data)
      case Raised(e) => Raised(e)
      case Fault => Fault
  }

  /** A successful region listing returns the envelope's `data` unchanged. */
  lemma UnwrapRegionListExample(first: Json, second: Json)
    ensures Unwrap(JObj(map["data" := JArr([first, second]), "debug" := JObj(map[]),
                            "error" := JNull, "status" := JStr("ok")]))
            == Done(JArr([first, second]))
  {
  }

  class EtgClient {
    const auth: Credential
    const verifySsl: bool

    /** The last request and response envelope, kept for diagnostics. */
    var req: Json
    var resp: Option<Response>

    constructor (auth: Credential, verifySsl: bool := true)
      ensures this.auth == auth && this.verifySsl == verifySsl
      ensures req == JNull && resp == None
    {
      this.auth := auth;
      this.verifySsl := verifySsl;
      req := JNull;
      resp := None;
    }

    /**
     * The HTTP request `request` sends. Parameters are sent only when given: as the JSON text in
     * the query parameter `data` for GET, as the JSON body for POST, and not at all for any other
     * method. The URL joins host and endpoint with one `/`, whatever the endpoint starts with.
     */
    function Outgoing(verb: string, endpoint: string, data: Json): (rq: HttpRequest)
      ensures rq.verb == verb && rq.url == "https://api.worldota.net/" + endpoint
      ensures rq.auth == auth && rq.verify == verifySsl
      ensures rq.params.Some? <==> data != JNull && verb == "GET"
      ensures rq.body.Some? <==> data != JNull && verb == "POST"
      ensures rq.params.Some? ==> rq.params.value == map["data" := Dumps(data)]
      ensures rq.body.Some? ==> rq.body.value == Dumps(data)
    {
      HttpRequest(verb, ApiHost + "/" + endpoint,
                  if data != JNull && verb == "GET" then Some(map["data" := Dumps(data)]) else None,
                  if data != JNull && verb == "POST" then Some(Dumps(data)) else None,
                  auth, verifySsl)
    }

    /**
     * `ETGClient.request`: clears `req` and `resp`, sends the request, stores the envelope built
     * from the decoded reply in `resp` (`req` is never assigned) and returns its `data` unless an
     * error is raised.
     */
    method Request(verb: string, endpoint: string, server: Server, data: Json := JNull)
      returns (o: Outcome<Json, ApiError>)
      modifies this
      ensures req == JNull
      ensures resp == FromKwargs(server(Outgoing(verb, endpoint, data)))
      ensures o == Unwrap(server(Outgoing(verb, endpoint, data)))
    {
      req, resp := JNull, None;
      var params: Option<map<string, JsonText>> := None;
      var body: Option<JsonText> := None;
      if data != JNull {
        if verb == "GET" {
          params := Some(map["data" := Dumps(data)]);
        } else if verb == "POST" {
          body := Some(Dumps(data));
        }
      }
      var url := ApiHost + "/" + endpoint;
      var reply := server(HttpRequest(verb, url, params, body, auth, verifySsl));
      var envelope := FromKwargs(reply);
      if envelope.None? {
        return Fault;
      }
      resp := envelope;
      match RaiseForError(envelope.value) {
        case Done(_) => o := Done(envelope.value.data);
        case Raised(e) => o := Raised(e);
        case Fault => o := Fault;
      }
    }

    /** `ETGClient.contract_data_info`: GET the contracts' general information, returned unchanged. */
    method ContractDataInfo(server: Server) returns (info: Outcome<Json, ApiError>)
      modifies this
      ensures req == JNull
      ensures resp == FromKwargs(server(Outgoing("GET", ContractDataInfoEndpoint, JNull)))
      ensures info == Unwrap(server(Outgoing("GET", ContractDataInfoEndpoint, JNull)))
    {
      info := Request("GET", ContractDataInfoEndpoint, server);
    }

    /** `ETGClient.financial_info`: GET the contracts' financial information, returned unchanged. */
    method FinancialInfo(server: Server) returns (info: Outcome<Json, ApiError>)
      modifies this
      ensures req == JNull
      ensures resp == FromKwargs(server(Outgoing("GET", FinancialInfoEndpoint, JNull)))
      ensures info == Unwrap(server(Outgoing("GET", FinancialInfoEndpoint, JNull)))
    {
      info := Request("GET", FinancialInfoEndpoint, server);
    }

    /** An endpoint given with a leading slash produces a doubled slash after the host. */
    lemma LeadingSlashDoubles(endpoint: string)
      requires |endpoint| > 0 && endpoint[0] == '/'
      ensures Outgoing("GET", endpoint, JNull).url == "https://api.worldota.net//" + endpoint[1..]
    {
      assert endpoint == "/" + endpoint[1..];
    }
  }
}
