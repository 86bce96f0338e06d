# ETG / Ostrovok hotel API clients in Dafny

This project models the decision-making core of two Python SDKs for hotel-booking APIs. The first is
ETG API v3 (`ETGClient`, `ETGHotelsClient`). The second is the older Ostrovok API v2 (`OstrovokClient`).
It covers:

- how each client places the request parameters: ETG puts them in the `data` query parameter for
  GET, in the body for POST, and nowhere for any other verb; Ostrovok always puts them in the query
  string;
- how each client composes the URL;
- what each client records in `req` and `resp`;
- how it reads the JSON response envelope and sorts a failed envelope into one of three error
  kinds: auth, bad request, or generic;
- how the ETG hotel methods map their arguments to a parameter dict and pick their payload out of
  the result;
- the `GuestData` record.

Modules:

- `Json` (json.dfy): decoded JSON values as the Python code sees them. It has `dict.get`, `len`,
  `isinstance(x, int)` (also true for `bool`) and iteration. It defines the conditional insertion
  `if v is not None: d[k] = v` as a method proved against a function, and a fold of such insertions
  with its lookup lemma.
- `Text`, `Dates`: `str.join`, and `date.strftime('%Y-%m-%d')`. The date text is an RFC 3339
  `full-date` (section 5.6 of RFC 3339) and reads back to the same date.
- `Http`: the request handed to `requests.request`. The network is a parameter
  `server: HttpRequest -> Json` that maps a request to the decoded reply.
- `Results`: `Outcome` is what a Python call ends in. It returns (`Done`), raises one of the SDK's
  exceptions (`Raised`), or fails inside Python itself (`Fault`): a KeyError, TypeError,
  AttributeError or IndexError on a value of an unexpected shape. Every operation is therefore
  total over any server reply.
- `EtgModels`, `OstrovokModels`: the two `Response` envelopes, their `raise_for_error`
  classifiers, and `GuestData`.
- `OstrovokApi`: the class `OstrovokClient` and the client's own second classifier. The lemma
  `ClassifiersAgree` proves that the two Ostrovok classifiers return without raising on the same
  responses, and raise the same kind when both raise. `MessagesDiffer` shows that their messages
  differ. `ClassifiersDisagree` shows responses where one raises and the other fails.
- `EtgApi`: the class `EtgClient` with `request`, `contract_data_info` and `financial_info`.
- `Regions`: the `region_list` filters, which both clients build the same way.
- `EtgHotels`: the `ETGHotelsClient` methods. They are module-level methods that take the
  `EtgClient` they modify.

Each `request` method is proved against a specification function. Its `ensures` states the new
`req`/`resp` and the outcome through `Outgoing`, the exact HTTP request sent, and `Unwrap` or
`Returned`, what the call returns for a reply. The properties of those functions are stated in
their own contracts and lemmas.

The ETG hotel endpoints `/hotel/rates`, `/hotelpage/<id>` and `/region/list` start with a slash, and the client
joins host and endpoint with another one. These requests therefore go to
`https://api.worldota.net//…`, which `LeadingSlashDoubles` states. This is modelled as written.

## Model

| member | source | states |
|---|---|---|
| Json.StringsOf | ostrovok/client.py:64 | the strings of a list exist exactly when every element is a string, and are those strings in order |
| Json.IterStrings | ostrovok/models.py:35 | iterating a list gives its strings, as StringsOf; iterating a string gives its one-character strings in order; only a string or a list can be iterated into strings |
| Json.SetIfPresent | etg/hotels.py:54-63 | `if v is not None: d[key] = v` has `key` exactly when it was there or `v` is not None, adds no other key, and is the specification's conditional insertion |
| Json.WithOptionalsLookup | etg/hotels.py:54-63 | a sequence of conditional insertions of fresh keys keeps every existing entry, adds each key exactly when its value is not None, with that value, and adds nothing else |
| Text.JoinPair | etg/models.py:48 | joining two strings puts the separator between them |
| Text.JoinSplit | ostrovok/models.py:35 | a join splits at any element boundary into two joins around one separator |
| Text.JoinContains | ostrovok/models.py:40-42 | every joined part occurs in the joined string |
| Dates.Padded | etg/hotels.py:50-51 | a number in `%Y`/`%m`/`%d` form has exactly the field width |
| Dates.PaddedValue | etg/hotels.py:50-51 | the zero-padded digits denote the number again |
| Dates.FormatDate | etg/hotels.py:50-51 | `strftime('%Y-%m-%d')` is ten characters with dashes at positions 4 and 7 |
| Dates.FormatDateRoundTrip | etg/hotels.py:50-51 | the formatted date is a full-date that parses back to the same date |
| EtgModels.FromKwargs | etg/models.py:19-31 | construction succeeds exactly when the reply is a mapping holding `data`, `debug`, `error` and `status` and no key `self` (which collides with the instance argument of `__init__`), and stores those four values unchanged |
| EtgModels.ToKwargs | etg/models.py:14-17 | an envelope as a mapping has exactly the keys of `__attrs__` |
| EtgModels.FromKwargsRoundTrip | etg/models.py:19-31 | constructing from an envelope's own mapping gives back that envelope |
| EtgModels.FromKwargsIgnoresExtraKeys | etg/models.py:19-31 | a key outside the four fields, other than `self`, does not change what is constructed |
| EtgModels.FromKwargsRejectsSelf | etg/models.py:19 | a key `self` makes construction fail whatever the other keys hold |
| EtgModels.Bool | etg/models.py:33-36 | `__bool__` is true exactly when `status == 'ok'` (the `ok` property) |
| EtgModels.InvalidParamsMessage | etg/models.py:45-49 | the message is `invalid_params`, or `invalid_params: <validation_error>` when `debug` holds one; Python fails exactly for a non-dict `debug` or a non-string validation error |
| EtgModels.RaiseForError | etg/models.py:38-51 | nothing is raised iff ok; otherwise AuthError iff the code is one of the three auth codes, BadRequest iff it is `invalid_params`, the generic error iff neither, the code as message except for BadRequest; the kinds are exclusive and cover every case |
| EtgModels.OkIgnoresErrorAndDebug | etg/models.py:40-41 | on success nothing is raised, whatever `error` and `debug` hold |
| EtgModels.InvalidParamsExample | tests/test_models.py:18 | an `invalid_params` error with a validation error raises BadRequest with `invalid_params: field required` |
| EtgModels.UnknownCodesAreGeneric | etg/models.py:43-51 | any string code outside the three auth codes and `invalid_params`, such as the tested `decoding_json`, `endpoint_exceeded_limit` and `unknown`, raises the generic error carrying the code |
| EtgModels.NewGuestData | etg/models.py:59-68 | `adults` is stored unchanged; `children` is stored as given, or as `[]` when None |
| EtgModels.ToJson | etg/models.py:70-74 | `to_json` has exactly the keys `adults` and `children`, holding the stored fields |
| EtgModels.GuestDataRoundTrip | etg/models/hotels.py:11-18 | `GuestData(a, c).to_json() == {'adults': a, 'children': c if c is not None else []}` |
| OstrovokModels.FromKwargs | ostrovok/models.py:15-18 | construction succeeds exactly when the reply is a mapping holding `debug`, `result` and `error` and no key `self`, and stores them unchanged |
| OstrovokModels.Bool | ostrovok/models.py:20-23 | `__bool__` is true exactly when `error is None` (the `success` property) |
| OstrovokModels.FirstEntry | ostrovok/models.py:40 | `error[0]` exists exactly for a non-empty list or string and is its first element or character |
| OstrovokModels.FieldError | ostrovok/models.py:40 | `field + ': ' + error[0]` exists exactly when the entry is a dict with a string field and a first error that is a string, and is that concatenation |
| OstrovokModels.FieldErrors | ostrovok/models.py:40-41 | the comprehension succeeds exactly when every entry does, and keeps list order |
| OstrovokModels.AuthFailedMessage | ostrovok/models.py:33-37 | the message is `description`, or `description + '. ' + '. '.join(errors)` when `extra` has a non-empty `errors` that iterates into strings (a list of strings, or a string by its characters); it fails exactly for a non-dict `extra`, an `errors` without a length (missing included), or a non-empty `errors` that does not iterate into strings or comes with a non-string description |
| OstrovokModels.InvalidParamsMessage | ostrovok/models.py:38-43 | the message is `description`, or `description + '. ' + ', '.join(field: first error)` when `extra` has a non-empty `validation_errors` list; it fails exactly for a non-dict `extra`, a `validation_errors` without a length (missing included), or a non-empty one that is not a list, has an entry that fails, or comes with a non-string description |
| OstrovokModels.EmptyErrorListFails | ostrovok/models.py:40 | an entry whose `error` list is empty or missing fails at `[0]` |
| OstrovokModels.RaiseForError | ostrovok/models.py:25-45 | nothing is raised iff `error is None`; `auth_failed` raises AuthError and `validation_invalid_params` raises BadRequest with their messages; any other slug, a missing one included, raises the generic error with `description` alone |
| OstrovokModels.GenericIgnoresExtra | ostrovok/models.py:44-45 | the generic error does not depend on `extra` |
| OstrovokModels.InvalidParamsMessageNamesEveryField | ostrovok/models.py:39-42 | every `field: first error` pair occurs in the BadRequest message |
| OstrovokModels.InvalidParamsExample | ostrovok/models.py:38-43 | a missing check-in gives `<description>. checkin: required` |
| Regions.RegionFilters | ostrovok/client.py:90-96 | `last_id`, `limit` and `types` are each present exactly when given, with the value unchanged, and no other key is present |
| Regions.BuildRegionFilters | etg/hotels.py:191-197 | the step-by-step insertions into an empty dict build exactly those filters |
| OstrovokApi.ExtraErrors | ostrovok/client.py:62-64 | the extras are `''` without `extra` or `errors`, else `'. '.join(errors)` over what `errors` iterates into (a list of strings, or a string by its characters); Python fails exactly for a non-dict `extra` or `errors` that are not strings |
| OstrovokApi.RaiseForError | ostrovok/client.py:55-72 | nothing is raised iff the stored response has no error; every raised error has the message `description + '. ' + extras`, carries `req` and `resp`, and is AuthError iff the slug is `auth_failed` and BadRequest iff it is `validation_invalid_params` |
| OstrovokApi.Returned | ostrovok/client.py:51-53 | `request` returns `resp.get('result')` exactly when nothing is raised; the error `raise_for_error` raises propagates as that same error, and a Python failure in it as a failure |
| OstrovokApi.OstrovokClient.constructor | ostrovok/client.py:14-27 | credentials and the TLS flag are stored; `req` and `resp` start as None |
| OstrovokApi.OstrovokClient.Outgoing | ostrovok/client.py:44-47 | the URL is `https://partner.ostrovok.ru/api/b2b/v2` + resource; no body is ever sent; the query holds `{'data': json(data)}` exactly when `data` is given |
| OstrovokApi.OstrovokClient.Request | ostrovok/client.py:29-53 | `req` stays None, `resp` is the decoded reply to exactly the request above, and the outcome is what `Returned` gives for it |
| OstrovokApi.OstrovokClient.RegionList | ostrovok/client.py:74-100 | GET `/region/list` with the region filters, the result returned as `request` returns it |
| OstrovokApi.MessageWithoutExtras | ostrovok/client.py:60-65 | without `extra` the message still ends in the separator: `description + '. '` |
| OstrovokApi.AsJson | ostrovok/models.py:15-18 | an envelope as the mapping the client stores constructs back into that envelope |
| OstrovokApi.ClassifiersAgree | ostrovok/client.py:57-72 | the client's classifier and `Response.raise_for_error` return without raising on the same responses and, when both raise, raise the same kind |
| OstrovokApi.ClassifiersDisagree | ostrovok/client.py:59-65 | an `auth_failed` error whose `extra` lacks `errors` faults in the envelope but raises AuthError `description + '. '` in the client; a generic error with a null description is raised by the envelope and faults in the client |
| OstrovokApi.MessagesDiffer | ostrovok/client.py:65 | for `auth_failed` without extras the envelope's message is `description` while the client's is `description + '. '` |
| EtgApi.Unwrap | etg/client.py:57-61 | the call returns `data` exactly when the reply is an envelope whose status is ok; it raises exactly what `raise_for_error` raises; it faults exactly when the reply is no envelope or the classifier faults |
| EtgApi.UnwrapRegionListExample | etg/client.py:57-61 | an ok envelope's `data` is returned unchanged |
| EtgApi.EtgClient.constructor | etg/client.py:17-29 | credentials and the TLS flag are stored; `req` and `resp` start as None |
| EtgApi.EtgClient.Outgoing | etg/client.py:47-56 | the URL is `https://api.worldota.net/` + endpoint; GET with data sends only the query `{'data': json(data)}`, POST with data only the body `json(data)`, anything else neither |
| EtgApi.EtgClient.Request | etg/client.py:31-61 | `req` stays None, `resp` is the envelope built from the reply to exactly that request (None when it cannot be built), and the outcome is `Unwrap` of the reply |
| EtgApi.EtgClient.ContractDataInfo | etg/client.py:63-71 | GET the fixed contract-info endpoint with no data; the payload is returned unchanged |
| EtgApi.EtgClient.FinancialInfo | etg/client.py:73-81 | GET the fixed financial-info endpoint with no data; the payload is returned unchanged |
| EtgApi.EtgClient.LeadingSlashDoubles | etg/client.py:54 | an endpoint with a leading slash gives `//` after the host |
| EtgHotels.SearchBase | etg/hotels.py:41-53 | the ids go under `ids` for a list, under `region_id` for an int, and under neither otherwise; the dates are formatted and `guests` is included |
| EtgHotels.SearchOptionsFresh | etg/hotels.py:54-63 | the five optional keys are distinct, belong to the search keys and are none of the keys always sent |
| EtgHotels.SearchDataIsFold | etg/hotels.py:54-63 | the five `if ... is not None` insertions are one fold of conditional insertions over the optional parameters |
| EtgHotels.SearchDataRequired | etg/hotels.py:41-53 | the search parameters hold the ids under the key their type selects, both dates as `YYYY-MM-DD`, the guests, and no key outside the ten |
| EtgHotels.SearchDataOptional | etg/hotels.py:54-63 | `currency`, `residency`, `timeout`, `upsells` and `language` are each present exactly when not None, with the value unchanged |
| EtgHotels.HotelsOf | etg/hotels.py:66-70 | a successful call yields `response.get('hotels')` for a dict and `[]` otherwise; errors pass through |
| EtgHotels.BuildSearchData | etg/hotels.py:41-63 | the step-by-step construction gives the endpoint the ids select and exactly the specified parameters |
| EtgHotels.Search | etg/hotels.py:8-70 | POST to the selected endpoint with those parameters; `resp` is the reply's envelope and the hotels are picked from the result |
| EtgHotels.SearchByHotels | etg/hotels.py:72-88 | exactly `search` with the same arguments |
| EtgHotels.SearchByRegion | etg/hotels.py:90-106 | exactly `search` with the same arguments |
| EtgHotels.HotelRatesData | etg/hotels.py:122-128 | the ids mapping of `search` and the two formatted dates, and no optional key |
| EtgHotels.HotelRates | etg/hotels.py:108-136 | GET `/hotel/rates` with those parameters; the hotels are picked as in `search` |
| EtgHotels.HotelpageData | etg/hotels.py:160-166 | always exactly the five keys `checkin`, `checkout`, `adults`, `children` and `currency`, with None children sent as `[]` |
| EtgHotels.FirstHotel | etg/hotels.py:169-173 | `hotels[0]` when the result is a dict whose `hotels` is a non-empty list, else None |
| EtgHotels.Hotelpage | etg/hotels.py:138-173 | GET `/hotelpage/` + id with those parameters and the defaults of 2 adults and currency `default`; a successful call yields the first hotel |
| EtgHotels.RegionList | etg/hotels.py:175-201 | GET `/region/list` with the region filters; the result is returned unchanged |

## Left out

- The HTTP transport, `requests`, `HTTPBasicAuth` and JSON decoding of the reply are not modelled. The reply a server gives for a request is the parameter `server`.
- `json.dumps` is not modelled: the text is the symbolic `Dumps(value)`, so key order and escaping are not modelled.
- Floating-point JSON numbers are not modelled; numbers are integers.
- Python dict insertion order is not modelled: a dict is a `map`.
- OstrovokApi.ExtraErrors, OstrovokModels.AuthFailedMessage: an `errors` dict is a `Fault` in the model, where Python joins its keys (see the next line).
- IterStrings: iterating a dict yields its keys in insertion order, which a `map` does not keep. `'. '.join(...)` over an `errors` dict is therefore a `Fault` in the model, where Python joins the keys.
- Dates.FormatDate: `%Y` is always four zero-padded digits. For years below 1000 the Python output is platform-dependent.
- The exception classes and their `IOError`/`ValueError` bases are not modelled: an error is its kind and its message or arguments.
- ostrovok/client.py imports `BadRequest` and `AuthError`, which its exceptions module does not define. The model follows the evident intent, with AuthError and BadRequest kinds. The model also leaves out that these `IOError` subclasses reject the `request=`/`response=` keyword arguments.
- A Python failure is a `Fault` outcome, not a precondition: a non-dict reply or field, a missing key, `len(None)`, `[0]` of an empty list, or a non-string in a join or concatenation. The model gives every input an outcome.
- etg/models/hotels.py repeats the `GuestData` of etg/models.py; one datatype models both.
- EtgHotels.Hotelpage: `hotel_id` is a string, as documented. A non-string id, which fails at the concatenation, is not modelled.
- Retries, timeouts and streaming do not exist in the source.
- Package plumbing (`__init__` re-exports, logging setup, `setup.py`) and the tests' file loading are not part of this model.
