/** The ETG API v3 response envelope, its error classifier, and the guest-composition record. */
module EtgModels {
  import opened Wrappers
  import opened Json
  import opened Results
  import opened Text

  /** `Response`: the envelope `{data, debug, error, status}` of every ETG reply. */
  datatype Response = Response(data: Json, debug: Json, error: Json, status: Json)

  /** `Response.__attrs__` */
  const Attrs: set<string> := {"data", "debug", "error", "status"}

  const InvalidParams := "invalid_params"

  /**
   * `Response(**kwargs)`: each field is popped from the keyword arguments. None where Python
   * raises: TypeError when the decoded body is not a mapping or has a key `self`, which collides
   * with the bound instance of `__init__`, and KeyError when a field is missing.
   */
  function FromKwargs(kwargs: Json): (r: Option<Response>)
    ensures r.Some? <==> kwargs.JObj? && Attrs <= kwargs.fields.Keys && "self" !in kwargs.fields
    ensures r.Some? ==>
              && r.value.data == kwargs.fields["data"] && r.value.debug == kwargs.fields["debug"]
              && r.value.error == kwargs.fields["error"] && r.value.status == kwargs.fields["status"]
  {
    if kwargs.JObj? && "data" in kwargs.fields && "debug" in kwargs.fields
       && "error" in kwargs.fields && "status" in kwargs.fields && "self" !in kwargs.fields
    then Some(Response(kwargs.fields["data"], kwargs.fields["debug"], kwargs.fields["error"], kwargs.fields["status"]))
    else None
  }

  /** The envelope as the mapping of its `__attrs__`. */
  function ToKwargs(r: Response): (j: Json)
    ensures j.JObj? && j.fields.Keys == Attrs
  {
    JObj(map["data" := r.data, "debug" := r.debug, "error" := r.error, "status" := r.status])
  }

  /** Construction stores the four fields unchanged. */
  lemma FromKwargsRoundTrip(r: Response)
    ensures FromKwargs(ToKwargs(r)) == Some(r)
  {
  }

  /** Keys other than the four fields and `self` are ignored by construction. */
  lemma FromKwargsIgnoresExtraKeys(kwargs: Json, key: string, v: Json)
    requires kwargs.JObj? && key !in Attrs && key != "self"
    ensures FromKwargs(JObj(kwargs.fields[key := v])) == FromKwargs(kwargs)
  {
  }

  /** A key `self` makes construction fail, whatever the other keys hold. */
  lemma FromKwargsRejectsSelf(kwargs: Json, v: Json)
    requires kwargs.JObj?
    ensures FromKwargs(JObj(kwargs.fields["self" := v])).None?
  {
  }

  /** `Response.ok` */
  predicate IsOk(r: Response) {
    r.status == JStr("ok")
  }

  /** `Response.__bool__` */
  function Bool(r: Response): (b: bool)
    ensures b <==> r.status == JStr("ok")
  {
    IsOk(r)
  }

  /** The three error codes that mean the credentials were rejected. */
  predicate IsAuthCode(code: Json) {
    code == JStr("incorrect_credentials") || code == JStr("no_auth_header") || code == JStr("invalid_auth_header")
  }

  /**
   * The message of an `invalid_params` error: the code, joined with `": "` to
   * `debug['validation_error']` when `debug` holds one. None where Python fails: a non-null
   * `debug` that is not a dict, or a validation error that is not a string.
   */
  function InvalidParamsMessage(debug: Json): (m: Option<string>)
    ensures debug == JNull ==> m == Some(InvalidParams)
    ensures debug.JObj? && Get(debug, "validation_error") == JNull ==> m == Some(InvalidParams)
    ensures debug.JObj? && Get(debug, "validation_error").JStr?
            ==> m == Some(InvalidParams + ": " + Get(debug, "validation_error").s)
    ensures m.None? <==> (debug != JNull && !debug.JObj?)
                         || (debug.JObj? && Get(debug, "validation_error") != JNull && !Get(debug, "validation_error").JStr?)
  {
    if debug == JNull then Some(InvalidParams)
    else if !debug.JObj? then None
    else
      var detail := Get(debug, "validation_error");
      if detail == JNull then Some(InvalidParams)
      else if detail.JStr? then (JoinPair(": ", InvalidParams, detail.s); Some(Join(": ", [InvalidParams, detail.s])))
      else None
  }

  /**
   * `Response.raise_for_error`: nothing on success; otherwise AuthError for the three auth
   * codes, then BadRequest for `invalid_params`, else the generic error with the raw code.
   */
  function RaiseForError(r: Response): (o: Outcome<(), ApiError>)
    ensures o.Done? <==> IsOk(r)
    ensures o.Raised? && o.error.kind == AuthError <==> !IsOk(r) && IsAuthCode(r.error)
    ensures o.Raised? && o.error.kind == BadRequest
            <==> !IsOk(r) && r.error == JStr(InvalidParams) && InvalidParamsMessage(r.debug).Some?
    ensures o.Raised? && o.error.kind == Generic
            <==> !IsOk(r) && !IsAuthCode(r.error) && r.error != JStr(InvalidParams)
    ensures o.Raised? && o.error.kind != BadRequest ==> o.error.message == r.error
    ensures o.Raised? && o.error.kind == BadRequest ==> o.error.message == JStr(InvalidParamsMessage(r.debug).value)
    ensures o.Fault? <==> !IsOk(r) && r.error == JStr(InvalidParams) && InvalidParamsMessage(r.debug).None?
  {
    if IsOk(r) then Done(())
    else if IsAuthCode(r.error) then Raised(ApiError(AuthError, r.error))
    else if r.error == JStr(InvalidParams) then
      match InvalidParamsMessage(r.debug)
      case Some(m) => Raised(ApiError(BadRequest, JStr(m)))
      case None => Fault
    else Raised(ApiError(Generic, r.error))
  }

  /** On success nothing is raised, whatever `error` and `debug` hold. */
  lemma OkIgnoresErrorAndDebug(r: Response, error: Json, debug: Json)
    requires IsOk(r)
    ensures RaiseForError(r.(error := error, debug := debug)) == Done(())
  {
  }

  /** A rejected field: the code and the validation error, joined by `": "`. */
  lemma InvalidParamsExample(data: Json)
    ensures RaiseForError(Response(data, JObj(map["validation_error" := JStr("field required")]),
                                   JStr(InvalidParams), JStr("error")))
            == Raised(ApiError(BadRequest, JStr("invalid_params: field required")))
  {
    var debug := JObj(map["validation_error" := JStr("field required")]);
    assert InvalidParamsMessage(debug) == Some(InvalidParams + ": " + "field required");
    assert InvalidParams + ": " + "field required" == "invalid_params: field required";
  }

  /** Codes outside the auth and validation tables fall through to the generic error. */
  lemma UnknownCodesAreGeneric(data: Json, debug: Json, code: string)
    requires code !in {"incorrect_credentials", "no_auth_header", "invalid_auth_header", InvalidParams}
    ensures RaiseForError(Response(data, debug, JStr(code), JStr("error"))) == Raised(ApiError(Generic, JStr(code)))
  {
  }

  /** `GuestData`: the adults and the children's ages of one room. */
  datatype GuestData = GuestData(adults: Json, children: Json)

  /** `GuestData(adults, children=None)`: absent children are stored as an empty list. */
  function NewGuestData(adults: Json, children: Json := JNull): (g: GuestData)
    ensures g.adults == adults
    ensures children == JNull ==> g.children == JArr([])
    ensures children != JNull ==> g.children == children
  {
    GuestData(adults, if children == JNull then JArr([]) else children)
  }

  /** `GuestData.to_json`: the plain mapping of the two stored fields. */
  function ToJson(g: GuestData): (j: Json)
    ensures j.JObj? && j.fields.Keys == {"adults", "children"}
    ensures j.fields["adults"] == g.adults && j.fields["children"] == g.children
  {
    JObj(map["adults" := g.adults, "children" := g.children])
  }

  /** The projection of a constructed record gives back its arguments, with None children as `[]`. */
  lemma GuestDataRoundTrip(adults: Json, children: Json)
    ensures ToJson(NewGuestData(adults, children))
            == JObj(map["adults" := adults, "children" := if children == JNull then JArr([]) else children])
  {
  }
}
