/** The Ostrovok API v2 response envelope and its error classifier. */
module OstrovokModels {
  import opened Wrappers
  import opened Json
  import opened Results
  import opened Text

  /** `Response`: the envelope `{debug, result, error}` of every Ostrovok reply. */
  datatype Response = Response(debug: Json, result: Json, error: Json)

  const Attrs: set<string> := {"debug", "result", "error"}

  const AuthFailed := "auth_failed"
  const ValidationInvalidParams := "validation_invalid_params"

  /**
   * `Response(**kwargs)`; None where Python raises: a non-mapping, a key `self` (which collides
   * with the bound instance of `__init__`), a missing field.
   */
  function FromKwargs(kwargs: Json): (r: Option<Response>)
    ensures r.Some? <==> kwargs.JObj? && Attrs <= kwargs.fields.Keys && "self" !in kwargs.fields
    ensures r.Some? ==>
              && r.value.debug == kwargs.fields["debug"] && r.value.result == kwargs.fields["result"]
              && r.value.error == kwargs.fields["error"]
  {
    if kwargs.JObj? && "debug" in kwargs.fields && "result" in kwargs.fields && "error" in kwargs.fields
       && "self" !in kwargs.fields
    then Some(Response(kwargs.fields["debug"], kwargs.fields["result"], kwargs.fields["error"]))
    else None
  }

  /** `Response.success` */
  predicate Success(r: Response) {
    r.error == JNull
  }

  /** `Response.__bool__` */
  function Bool(r: Response): (b: bool)
    ensures b <==> r.error == JNull
  {
    Success(r)
  }

  /** `errors[0]` for the `error` entry of one validation error: a list's first element or a string's first character. */
  function FirstEntry(errors: Json): (e: Option<Json>)
    ensures e.Some? <==> (errors.JArr? && |errors.items| > 0) || (errors.JStr? && |errors.s| > 0)
    ensures errors.JArr? && |errors.items| > 0 ==> e == Some(errors.items[0])
    ensures errors.JStr? && |errors.s| > 0 ==> e == Some(JStr([errors.s[0]]))
  {
    match errors
    case JArr(items) => if |items| > 0 then Some(items[0]) else None
    case JStr(s) => if |s| > 0 then Some(JStr([s[0]])) else None
    case _ => None
  }

  /** `err.get('field') + ': ' + err.get('error', [])[0]`; None where Python fails. */
  function FieldError(err: Json): (m: Option<string>)
    ensures m.Some? <==> err.JObj? && Get(err, "field").JStr?
                         && var first := FirstEntry(GetOr(err, "error", JArr([]))); first.Some? && first.value.JStr?
    ensures m.Some? ==> m.value == Get(err, "field").s + ": " + FirstEntry(GetOr(err, "error", JArr([]))).value.s
  {
    if !err.JObj? then None
    else
      var field := Get(err, "field");
      var first := FirstEntry(GetOr(err, "error", JArr([])));
      if field.JStr? && first.Some? && first.value.JStr? then Some(field.s + ": " + first.value.s) else None
  }

  /** The list comprehension over `validation_errors`, in list order. */
  function FieldErrors(errs: seq<Json>): (r: Option<seq<string>>)
    ensures r.Some? <==> forall i :: 0 <= i < |errs| ==> FieldError(errs[i]).Some?
    ensures r.Some? ==> |r.value| == |errs| && forall i :: 0 <= i < |errs| ==> r.value[i] == FieldError(errs[i]).value
    decreases |errs|
  {
    if |errs| == 0 then Some([])
    else match (FieldError(errs[0]), FieldErrors(errs[1..]))
      case (Some(m), Some(rest)) => Some([m] + rest)
      case _ => None
  }

  /**
   * The message of an `auth_failed` error: `description`, followed by `". "` and the entries of
   * `extra.errors` joined with `". "` when `extra` is present and `errors` is not empty.
   * None where Python fails (`extra` not a dict, `errors` missing or of no length, an entry or the
   * description not a string).
   */
  function AuthFailedMessage(description: Json, extra: Json): (m: Option<Json>)
    ensures extra == JNull ==> m == Some(description)
    ensures extra.JObj? && Len(Get(extra, "errors")) == Some(0) ==> m == Some(description)
    ensures extra.JObj? && Get(extra, "errors").JArr? && |Get(extra, "errors").items| > 0
            && StringsOf(Get(extra, "errors").items).Some? && description.JStr?
            ==> m == Some(JStr(description.s + ". " + Join(". ", StringsOf(Get(extra, "errors").items).value)))
    ensures extra.JObj? && Len(Get(extra, "errors")).Some? && Len(Get(extra, "errors")).value > 0
            && IterStrings(Get(extra, "errors")).Some? && description.JStr?
            ==> m == Some(JStr(description.s + ". " + Join(". ", IterStrings(Get(extra, "errors")).value)))
    ensures extra.JObj? && Get(extra, "errors") == JNull ==> m.None?
    ensures extra != JNull && !extra.JObj? ==> m.None?
    ensures extra.JObj? && Len(Get(extra, "errors")).Some? && Len(Get(extra, "errors")).value > 0 && !description.JStr? ==> m.None?
    ensures m.None? <==>
              && extra != JNull
              && (|| !extra.JObj?
                  || (var errors := Get(extra, "errors");
                      || Len(errors).None?
                      || (Len(errors).value > 0 && (IterStrings(errors).None? || !description.JStr?))))
  {
    if extra == JNull then Some(description)
    else if !extra.JObj? then None
    else
      var errors := Get(extra, "errors");
      match Len(errors)
      case None => None
      case Some(n) =>
        if n == 0 then Some(description)
        else match IterStrings(errors)
          case None => None
          case Some(msgs) =>
            if description.JStr?
            then (JoinPair(". ", description.s, Join(". ", msgs));
                  Some(JStr(Join(". ", [description.s, Join(". ", msgs)]))))
            else None
  }

  /**
   * The message of a `validation_invalid_params` error: `description`, followed by `". "` and the
   * `field: first error` pairs of `extra.validation_errors` joined with `", "` when `extra` is
   * present and the list is not empty. None where Python fails.
   */
  function InvalidParamsMessage(description: Json, extra: Json): (m: Option<Json>)
    ensures extra == JNull ==> m == Some(description)
    ensures extra.JObj? && Len(Get(extra, "validation_errors")) == Some(0) ==> m == Some(description)
    ensures extra.JObj? && Get(extra, "validation_errors").JArr? && |Get(extra, "validation_errors").items| > 0
            && FieldErrors(Get(extra, "validation_errors").items).Some? && description.JStr?
            ==> m == Some(JStr(description.s + ". " + Join(", ", FieldErrors(Get(extra, "validation_errors").items).value)))
    ensures extra.JObj? && Get(extra, "validation_errors") == JNull ==> m.None?
    ensures extra != JNull && !extra.JObj? ==> m.None?
    ensures (extra.JObj? && Len(Get(extra, "validation_errors")).Some? && Len(Get(extra, "validation_errors")).value > 0
             && !Get(extra, "validation_errors").JArr?) ==> m.None?
    ensures m.None? <==>
              && extra != JNull
              && (|| !extra.JObj?
                  || (var errs := Get(extra, "validation_errors");
                      || Len(errs).None?
                      || (Len(errs).value > 0 && (!errs.JArr? || FieldErrors(errs.items).None? || !description.JStr?))))
  {
    if extra == JNull then Some(description)
    else if !extra.JObj? then None
    else
      var errs := Get(extra, "validation_errors");
      match Len(errs)
      case None => None
      case Some(n) =>
        if n == 0 then Some(description)
        else if !errs.JArr? then None  // a string's characters and a dict's keys have no `.get`
        else match FieldErrors(errs.items)
          case None => None
          case Some(pairs) =>
            if description.JStr?
            then (JoinPair(". ", description.s, Join(", ", pairs));
                  Some(JStr(Join(". ", [description.s, Join(", ", pairs)]))))
            else None
  }

  /**
   * `Response.raise_for_error`: nothing on success; otherwise the slug decides between AuthError,
   * BadRequest and the generic error, which carries `description` alone.
   */
  function RaiseForError(r: Response): (o: Outcome<(), ApiError>)
    ensures o.Done? <==> Success(r)
    ensures r.error != JNull && !r.error.JObj? ==> o.Fault?
    ensures o.Raised? && o.error.kind == AuthError
            <==> r.error.JObj? && Get(r.error, "slug") == JStr(AuthFailed)
                 && AuthFailedMessage(Get(r.error, "description"), Get(r.error, "extra")).Some?
    ensures o.Raised? && o.error.kind == AuthError
            ==> o.error.message == AuthFailedMessage(Get(r.error, "description"), Get(r.error, "extra")).value
    ensures o.Raised? && o.error.kind == BadRequest
            <==> r.error.JObj? && Get(r.error, "slug") == JStr(ValidationInvalidParams)
                 && InvalidParamsMessage(Get(r.error, "description"), Get(r.error, "extra")).Some?
    ensures o.Raised? && o.error.kind == BadRequest
            ==> o.error.message == InvalidParamsMessage(Get(r.error, "description"), Get(r.error, "extra")).value
    ensures o.Raised? && o.error.kind == Generic
            <==> r.error.JObj? && Get(r.error, "slug") != JStr(AuthFailed) && Get(r.error, "slug") != JStr(ValidationInvalidParams)
    ensures o.Raised? && o.error.kind == Generic ==> o.error.message == Get(r.error, "description")
  {
    if Success(r) then Done(())
    else if !r.error.JObj? then Fault
    else
      var slug := Get(r.error, "slug");
      var extra := Get(r.error, "extra");
      var description := Get(r.error, "description");
      if slug == JStr(AuthFailed) then
        match AuthFailedMessage(description, extra)
        case Some(m) => Raised(ApiError(AuthError, m))
        case None => Fault
      else if slug == JStr(ValidationInvalidParams) then
        match InvalidParamsMessage(description, extra)
        case Some(m) => Raised(ApiError(BadRequest, m))
        case None => Fault
      else Raised(ApiError(Generic, description))
  }

  /** A generic error ignores `extra`: replacing it changes nothing. */
  lemma GenericIgnoresExtra(r: Response, extra: Json)
    requires r.error.JObj?
    requires Get(r.error, "slug") != JStr(AuthFailed) && Get(r.error, "slug") != JStr(ValidationInvalidParams)
    ensures RaiseForError(r.(error := JObj(r.error.fields["extra" := extra]))) == RaiseForError(r)
  {
  }

  /** Every `field: first error` pair appears in the BadRequest message. */
  lemma {:induction false} InvalidParamsMessageNamesEveryField(description: string, errs: seq<Json>, i: nat)
    requires i < |errs| && FieldErrors(errs).Some?
    ensures var extra := JObj(map["validation_errors" := JArr(errs)]);
            InvalidParamsMessage(JStr(description), extra).Some?
            && Contains(InvalidParamsMessage(JStr(description), extra).value.s, FieldError(errs[i]).value)
  {
    var extra := JObj(map["validation_errors" := JArr(errs)]);
    var pairs := FieldErrors(errs).value;
    var joined := Join(", ", pairs);
    JoinContains(", ", pairs, i);
    var before, after :| before + pairs[i] + after == joined;
    assert InvalidParamsMessage(JStr(description), extra) == Some(JStr(description + ". " + joined));
    assert (description + ". " + before) + pairs[i] + after == description + ". " + joined;
  }

  /** An entry whose `error` list is empty, or missing, fails at `[0]`. */
  lemma EmptyErrorListFails(description: string, field: string, entry: Json)
    requires entry == JObj(map["field" := JStr(field), "error" := JArr([])]) || entry == JObj(map["field" := JStr(field)])
    ensures InvalidParamsMessage(JStr(description), JObj(map["validation_errors" := JArr([entry])])).None?
  {
    assert FieldError(entry).None?;
    assert FieldErrors([entry]).None?;
  }

  /** A missing check-in date: the description, then the field and its first error. */
  lemma InvalidParamsExample(description: string)
    ensures var err := JObj(map["field" := JStr("checkin"), "error" := JArr([JStr("required")])]);
            InvalidParamsMessage(JStr(description), JObj(map["validation_errors" := JArr([err])]))
            == Some(JStr(description + ". checkin: required"))
  {
    var err := JObj(map["field" := JStr("checkin"), "error" := JArr([JStr("required")])]);
    assert FieldError(err) == Some("checkin" + ": " + "required");
    assert "checkin" + ": " + "required" == "checkin: required";
    assert [err][1..] == [];
    assert FieldErrors([]) == Some([]);
    assert ["checkin: required"] + [] == ["checkin: required"];
    assert FieldErrors([err]) == Some(["checkin: required"]);
    assert Join(", ", ["checkin: required"]) == "checkin: required";
    assert description + ". " + "checkin: required" == description + ". checkin: required";
  }
}
