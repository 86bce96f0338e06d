/** `OstrovokClient`: the request facade of the Ostrovok API v2 and its own error classifier. */
module OstrovokApi {
  import opened Wrappers
  import opened Json
  import opened Results
  import opened Text
  import opened Http
  import opened Regions
  import OstrovokModels

  const Host := "https://partner.ostrovok.ru"
  const ApiPath := "/api/b2b/v2"

  /** An exception raised by the client: its kind, its message, and the request and response kept for diagnostics. */
  datatype ClientError = ClientError(kind: ErrorKind, message: string, request: Json, response: Json)

  /** `'. '.join(extra['errors'])`, or "" when there is no `extra` or no `errors`; None where Python fails. */
  function ExtraErrors(error: Json): (e: Option<string>)
    requires error.JObj?
    ensures Get(error, "extra") == JNull ==> e == Some("")
    ensures Get(error, "extra").JObj? && Get(Get(error, "extra"), "errors") == JNull ==> e == Some("")
    ensures Get(error, "extra").JObj? && Get(Get(error, "extra"), "errors").JArr?
            && StringsOf(Get(Get(error, "extra"), "errors").items).Some?
            ==> e == Some(Join(". ", StringsOf(Get(Get(error, "extra"), "errors").items).value))
    ensures Get(error, "extra").JObj? && Get(Get(error, "extra"), "errors") != JNull
            && IterStrings(Get(Get(error, "extra"), "errors")).Some?
            ==> e == Some(Join(". ", IterStrings(Get(Get(error, "extra"), "errors")).value))
    ensures e.None? <==> (Get(error, "extra") != JNull && !Get(error, "extra").JObj?)
                         || (Get(error, "extra").JObj? && Get(Get(error, "extra"), "errors") != JNull
                             && IterStrings(Get(Get(error, "extra"), "errors")).None?)
  {
    var extra := Get(error, "extra");
    if extra == JNull then Some("")
    else if !extra.JObj? then None
    else
      var errors := Get(extra, "errors");
      if errors == JNull then Some("")
      else match IterStrings(errors)
        case None => None
        case Some(msgs) => Some(Join(". ", msgs))
  }

  /** The `slug` of the error, `None` when absent. */
  function Slug(error: Json): Json
    requires error.JObj?
  {
    GetOr(error, "slug", JNull)
  }

  /** The `description` of the error, `''` when absent. */
  function Description(error: Json): Json
    requires error.JObj?
  {
    GetOr(error, "description", JStr(""))
  }

  /**
   * `OstrovokClient.raise_for_error` over the stored `req` and `resp`: nothing when the response
   * has no error; otherwise one message for every kind, `description + '. ' + extras`, and the
   * slug picks AuthError, BadRequest or the generic error.
   */
  function RaiseForError(req: Json, resp: Json): (o: Outcome<(), ClientError>)
    ensures o.Done? <==> resp.JObj? && GetOr(resp, "error", JNull) == JNull
    ensures o.Raised? ==> o.error.request == req && o.error.response == resp
    ensures o.Raised? ==>
              && resp.JObj? && "error" in resp.fields && resp.fields["error"].JObj?
              && Description(resp.fields["error"]).JStr? && ExtraErrors(resp.fields["error"]).Some?
              && o.error.message == Description(resp.fields["error"]).s + ". " + ExtraErrors(resp.fields["error"]).value
    ensures o.Raised? ==>
              && (o.error.kind == AuthError <==> Slug(resp.fields["error"]) == JStr("auth_failed"))
              && (o.error.kind == BadRequest <==> Slug(resp.fields["error"]) == JStr("validation_invalid_params"))
    ensures resp.JObj? && GetOr(resp, "error", JNull).JObj?
            && Description(resp.fields["error"]).JStr? && ExtraErrors(resp.fields["error"]).Some?
            ==> o.Raised?
  {
    if !resp.JObj? then Fault
    else
      var error := GetOr(resp, "error", JNull);
      if error == JNull then Done(())
      else if !error.JObj? then Fault
      else
        var code := Slug(error);
        var description := Description(error);
        match ExtraErrors(error)
        case None => Fault
        case Some(extra) =>
          if !description.JStr? then Fault
          else
            JoinPair(". ", description.s, extra);
            var message := Join(". ", [description.s, extra]);
            if code == JStr("auth_failed") then Raised(ClientError(AuthError, message, req, resp))
            else if code == JStr("validation_invalid_params") then Raised(ClientError(BadRequest, message, req, resp))
            else Raised(ClientError(Generic, message, req, resp))
  }

  /** What `request` returns once the reply is stored: `resp.get('result')`, unless an error is raised first. */
  function Returned(req: Json, resp: Json): (o: Outcome<Json, ClientError>)
    ensures o.Done? <==> RaiseForError(req, resp).Done?
    ensures o.Done? ==> resp.JObj? && o.value == Get(resp, "result")
    ensures o.Raised? ==> RaiseForError(req, resp) == Raised(o.error)
    ensures o.Fault? <==> RaiseForError(req, resp).Fault?
  {
    match RaiseForError(req, resp)
    case Done(_) => Done(Get(resp, "result"))
    case Raised(e) => Raised(e)
    case Fault => Fault
  }

  class OstrovokClient {
    const auth: Credential
    const verifySsl: bool

    /** The last request and response, kept for diagnostics. */
    var req: Json
    var resp: Json

    constructor (auth: Credential, verifySsl: bool := true)
      ensures this.auth == auth && this.verifySsl == verifySsl
      ensures req == JNull && resp == JNull
    {
      this.auth := auth;
      this.verifySsl := verifySsl;
      req := JNull;
      resp := JNull;
    }

    /** The HTTP request `request` sends: parameters only ever go in the query string, never in a body. */
    function Outgoing(verb: string, resource: string, data: Json): (rq: HttpRequest)
      ensures rq.verb == verb && rq.url == "https://partner.ostrovok.ru/api/b2b/v2" + resource
      ensures rq.body.None?
      ensures rq.params.None? <==> data == JNull
      ensures data != JNull ==> rq.params == Some(map["data" := Dumps(data)])
      ensures rq.auth == auth && rq.verify == verifySsl
    {
      HttpRequest(verb, Host + ApiPath + resource,
                  if data == JNull then None else Some(map["data" := Dumps(data)]),
                  None, auth, verifySsl)
    }

    /**
     * `OstrovokClient.request`: clears `req` and `resp`, sends the request, stores the decoded reply
     * in `resp` (`req` is never assigned) and returns its `result` unless an error is raised.
     */
    method Request(verb: string, resource: string, server: Server, data: Json := JNull)
      returns (o: Outcome<Json, ClientError>)
      modifies this
      ensures req == JNull
      ensures resp == server(Outgoing(verb, resource, data))
      ensures o == Returned(JNull, resp)
    {
      req, resp := JNull, JNull;
      var url := Host + ApiPath + resource;
      var params := if data == JNull then None else Some(map["data" := Dumps(data)]);
      var response := server(HttpRequest(verb, url, params, None, auth, verifySsl));
      resp := response;
      var check := RaiseForError(req, resp);
      match check {
        case Done(_) => o := Done(Get(response, "result"));
        case Raised(e) => o := Raised(e);
        case Fault => o := Fault;
      }
    }

    /** `OstrovokClient.region_list`: GET `/region/list` with the given filters. */
    method RegionList(server: Server, lastId: Json := JNull, limit: Json := JNull, types: Json := JNull)
      returns (regions: Outcome<Json, ClientError>)
      modifies this
      ensures req == JNull
      ensures resp == server(Outgoing("GET", RegionListResource, JObj(RegionFilters(lastId, limit, types))))
      ensures regions == Returned(JNull, resp)
    {
      var data := BuildRegionFilters(lastId, limit, types);
      regions := Request("GET", RegionListResource, server, JObj(data));
    }
  }

  /** Without `extra`, every error message still ends in the separator: `description + '. '`. */
  lemma MessageWithoutExtras(req: Json, resp: Json, description: string)
    requires resp.JObj? && "error" in resp.fields && resp.fields["error"].JObj?
    requires "extra" !in resp.fields["error"].fields
    requires Description(resp.fields["error"]) == JStr(description)
    ensures RaiseForError(req, resp).Raised?
    ensures RaiseForError(req, resp).error.message == description + ". "
  {
  }

  /** A model `Response` as the decoded mapping the client stores. */
  function AsJson(r: OstrovokModels.Response): (j: Json)
    ensures OstrovokModels.FromKwargs(j) == Some(r)
  {
    JObj(map["debug" := r.debug, "result" := r.result, "error" := r.error])
  }

  /**
   * The client's classifier and `Response.raise_for_error` return without raising on the same
   * responses, and when both raise they raise the same kind. Their messages differ, and one of
   * them may fail where the other raises (see ClassifiersDisagree).
   */
  lemma ClassifiersAgree(r: OstrovokModels.Response, req: Json)
    ensures OstrovokModels.RaiseForError(r).Done? <==> RaiseForError(req, AsJson(r)).Done?
    ensures OstrovokModels.RaiseForError(r).Raised? && RaiseForError(req, AsJson(r)).Raised?
            ==> OstrovokModels.RaiseForError(r).error.kind == RaiseForError(req, AsJson(r)).error.kind
  {
  }

  /** Where the messages differ: an `auth_failed` error without extras. */
  lemma MessagesDiffer(req: Json, description: string)
    ensures var error := JObj(map["slug" := JStr("auth_failed"), "description" := JStr(description)]);
            && OstrovokModels.RaiseForError(OstrovokModels.Response(JNull, JNull, error))
               == Raised(ApiError(AuthError, JStr(description)))
            && RaiseForError(req, JObj(map["error" := error])).Raised?
            && RaiseForError(req, JObj(map["error" := error])).error.message == description + ". "
  {
    var error := JObj(map["slug" := JStr("auth_failed"), "description" := JStr(description)]);
    MessageWithoutExtras(req, JObj(map["error" := error]), description);
  }

  /**
   * Where only one classifier raises: an `auth_failed` error whose `extra` has no `errors` fails
   * in `Response.raise_for_error` at `len(None)`, while the client raises AuthError; a generic
   * error with a null description is raised by the envelope with that None, while the client
   * fails joining it.
   */
  lemma ClassifiersDisagree(req: Json, description: string)
    ensures var error := JObj(map["slug" := JStr("auth_failed"), "description" := JStr(description), "extra" := JObj(map[])]);
            && OstrovokModels.RaiseForError(OstrovokModels.Response(JNull, JNull, error)).Fault?
            && RaiseForError(req, JObj(map["error" := error])) == Raised(ClientError(AuthError, description + ". ", req, JObj(map["error" := error])))
    ensures var error := JObj(map["slug" := JStr("x"), "description" := JNull]);
            && OstrovokModels.RaiseForError(OstrovokModels.Response(JNull, JNull, error)) == Raised(ApiError(Generic, JNull))
            && RaiseForError(req, JObj(map["error" := error])).Fault?
  {
    var error := JObj(map["slug" := JStr("auth_failed"), "description" := JStr(description), "extra" := JObj(map[])]);
    assert ExtraErrors(error) == Some("");
    assert Join(". ", [description, ""]) == description + ". ";
  }
}
