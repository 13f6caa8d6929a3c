/**
 * The stream handler of src/Handlers/CodexStream.php: the same body as the
 * text handler, sent with the transport's stream option, and the upstream
 * response returned untouched for the event parser.
 */
module CodexStream {
  import opened Wrappers
  import opened PhpArray
  import opened RequestBody
  import CodexText

  /** `sendRequest`. */
  function SendRequest(req: TextRequest, upstream: CodexText.ClientResponse): (r: Option<(Outbound, CodexText.ClientResponse)>)
    ensures r.Some? <==> Body(req).Some?
    ensures r.Some? ==> r.value.0.streamOption && r.value.0.body == Body(req).value
                        && r.value.0.path == ResponsesPath && r.value.0.timeoutSeconds == RequestTimeout
    ensures r.Some? ==> r.value.1 == upstream
  {
    var body := Body(req);
    if body.None? then None
    else Some((Outbound(ResponsesPath, RequestTimeout, true, body.value), upstream))
  }

  /** Both handlers send the same body; only the transport option differs. */
  lemma SameBodyAsText(req: TextRequest, upstream: CodexText.ClientResponse, decode: string -> Value, encode: Value -> string)
    requires Body(req).Some?
    ensures SendRequest(req, upstream).value.0 == CodexText.SendRequest(req, upstream, decode, encode).value.0.(streamOption := true)
  {
  }

  /** Streaming is requested twice over: by the transport and in the body. */
  lemma StreamRequestedTwice(req: TextRequest, upstream: CodexText.ClientResponse)
    requires Body(req).Some?
    ensures SendRequest(req, upstream).value.0.streamOption
    ensures Lookup(SendRequest(req, upstream).value.0.body, StrKey("stream")) == Some(Bool(true))
    ensures Lookup(SendRequest(req, upstream).value.0.body, StrKey("store")) == Some(Bool(false))
  {
  }
}
