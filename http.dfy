/**
 * The request and response shapes shared by the two backend calls: a POST of a plain
 * key/value body, answered by an envelope `{code, msg, data}`.
 */
module Http {
  import opened Wrappers
  import opened JsValue

  /** A call `post(route, body, errorMessage)`; the error-message ref is not modelled. */
  datatype PostRequest = PostRequest(route: string, body: map<string, Value>)

  /**
   * What `post` settles to for a request. The backend and the HTTP layer are an oracle:
   * any response value (`undefined` included), or a rejection.
   */
  type Post = PostRequest -> Outcome<Value>

  /**
   * The envelope check both API wrappers make on a response: it is truthy, of type "object",
   * has both the keys `code` and `data`, its `code` is (strictly) the number 200 and its
   * `data` is truthy. Yields that `data`, or None for every other response.
   */
  function SuccessData(response: Value): (r: Option<Value>)
    ensures r.Some? <==>
      && response.Object?
      && "code" in response.props && "data" in response.props
      && response.props["code"] == Number(200.0)
      && Truthy(response.props["data"])
    ensures r.Some? ==> r.value == response.props["data"] && !Nullish(r.value)
  {
    if Truthy(response) && TypeOf(response) == "object"
       && HasProperty(response, "code") && HasProperty(response, "data")
    then
      var code := Read(response, "code");
      var data := Read(response, "data");
      // `code === 200` holds of the number 200 and of nothing else
      if code == Number(200.0) && Truthy(data) then Some(data) else None
    else
      None
  }
}
