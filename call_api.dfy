/**
  * The request configuration `callApi` builds before handing it to the HTTP client: the method
  * (GET by default) and URL, and the payload as query parameters for GET and DELETE or as the
  * request body for POST and PUT.
  */
module CallApi {
  import opened Wrappers

  datatype Method = Post | Put | Get | Delete

  /** The configuration object (`httpMethod` is its `method` field); an unset `params` or `data` is `None`. */
  datatype RequestConfig<P> = RequestConfig(httpMethod: Method, url: string, params: Option<P>, data: Option<P>)

  /**
    * The configuration `callApi(url, payload, method)` passes to the HTTP client, built as the
    * source builds it: first method and URL, then one of the two payload fields.
    */
  method BuildConfig<P>(url: string, payload: Option<P>, httpMethod: Option<Method>) returns (config: RequestConfig<P>)
    ensures config.url == url
    ensures config.httpMethod == (if httpMethod.Some? then httpMethod.value else Get)
    ensures config.httpMethod == Get || config.httpMethod == Delete ==> config.params == payload && config.data == None
    ensures config.httpMethod == Post || config.httpMethod == Put ==> config.data == payload && config.params == None
  {
    var m := if httpMethod.Some? then httpMethod.value else Get;
    config := RequestConfig(m, url, None, None);
    if m == Get || m == Delete {
      config := config.(params := payload);
    } else {
      config := config.(data := payload);
    }
  }
}
