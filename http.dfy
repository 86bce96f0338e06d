/** The HTTP request a client hands to `requests.request`, and the transport that answers it. */
module Http {
  import opened Wrappers
  import opened Json

  /** `HTTPBasicAuth(key_id, key)` */
  datatype Credential = Credential(keyId: string, key: string)

  /**
   * `requests.request(verb, url, params=..., data=..., auth=..., verify=...)`: the query
   * parameters, the body, the credentials and the TLS-verification flag.
   */
  datatype HttpRequest = HttpRequest(
    verb: string,
    url: string,
    params: Option<map<string, JsonText>>,
    body: Option<JsonText>,
    auth: Credential,
    verify: bool)

  /** The network and the remote API, from a request to the JSON document decoded from the reply. */
  type Server = HttpRequest -> Json
}
