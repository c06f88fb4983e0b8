/**
 * Geckoboard::Push#push: the API key guard, the request it posts and the
 * reading of the response envelope. The class-level settings are passed in
 * as a Config value, and the remote service is a function from the posted
 * request to its decoded reply.
 */
module PushClient {
  import opened Results
  import opened Json

  /** The class-level `api_key` and `api_version` settings; nil is None. */
  datatype Config = Config(apiKey: Option<string>, apiVersion: Option<string>)

  /** One POST: its path under the service's base URI and its JSON body. */
  datatype Request = Request(path: string, body: Value)

  /** The response body after JSON.parse: a decoded envelope, or text that does not parse. */
  datatype Reply = Unparseable | Envelope(fields: Hash)

  /**
   * Why a push failed: the key guard with its fixed message, JSON.parse
   * rejecting the response, or the service rejecting the request with its
   * "error" field (nil when absent) as the message.
   */
  datatype PushError = NotConfigured(message: string) | ParseError | Rejected(error: Value)

  /** What a push did: the requests it posted and what it returned or raised. */
  datatype Exchange = Exchange(posted: seq<Request>, outcome: Result<Value, PushError>)

  /** The guard of `push`: an API key that is set and not empty. */
  predicate Configured(cfg: Config)
  {
    cfg.apiKey.Some? && cfg.apiKey.value != ""
  }

  /** `"/#{api_version || 'v1'}/send/#{widget_key}"`; an empty version is truthy in Ruby and kept. */
  function Path(apiVersion: Option<string>, widgetKey: string): (p: string)
    ensures apiVersion.None? ==> p == "/v1/send/" + widgetKey
    ensures apiVersion.Some? ==> p == "/" + apiVersion.value + "/send/" + widgetKey
  {
    var version := if apiVersion.Some? then apiVersion.value else "v1";
    "/" + version + "/send/" + widgetKey
  }

  /** Under one version setting, different widgets are posted to different paths. */
  lemma PathIdentifiesWidget(apiVersion: Option<string>, k1: string, k2: string)
    requires Path(apiVersion, k1) == Path(apiVersion, k2)
    ensures k1 == k2
  {
    var prefix := Path(apiVersion, "");
    assert Path(apiVersion, k1) == prefix + k1;
    assert Path(apiVersion, k2) == prefix + k2;
    assert k1 == (prefix + k1)[|prefix|..];
    assert k2 == (prefix + k2)[|prefix|..];
  }

  /** The JSON body `{api_key, data}`. */
  function Body(apiKey: string, data: Value): (b: Value)
    ensures b.Obj? && b.fields.Keys == {"api_key", "data"}
    ensures b.fields["api_key"] == Str(apiKey) && b.fields["data"] == data
  {
    Obj(map["api_key" := Str(apiKey), "data" := data])
  }

  /**
   * The decision on the decoded envelope: raise with `result["error"]` unless
   * `result["success"]` is truthy, and return `result["success"]` otherwise.
   */
  function Interpret(reply: Reply): (r: Result<Value, PushError>)
    ensures reply.Unparseable? ==> r == Failure(ParseError)
    ensures reply.Envelope? ==> (r.Success? <==> Truthy(Field(reply.fields, "success")))
    ensures r.Success? ==> reply.Envelope? && r.value == Field(reply.fields, "success") && Truthy(r.value)
    ensures reply.Envelope? && r.Failure? ==> r.error == Rejected(Field(reply.fields, "error"))
  {
    match reply
    case Unparseable => Failure(ParseError)
    case Envelope(fields) =>
      var success := Field(fields, "success");
      if Truthy(success) then Success(success) else Failure(Rejected(Field(fields, "error")))
  }

  /** push(data) for the widget `widgetKey`: at most one POST, and none without an API key. */
  function Push(cfg: Config, widgetKey: string, data: Value, server: Request -> Reply): (x: Exchange)
    ensures |x.posted| <= 1
    ensures !Configured(cfg) <==> x.posted == []
    ensures !Configured(cfg) ==> x.outcome == Failure(NotConfigured("Api key not configured."))
    ensures Configured(cfg) ==>
      && x.posted == [Request(Path(cfg.apiVersion, widgetKey), Body(cfg.apiKey.value, data))]
      && x.outcome == Interpret(server(x.posted[0]))
    ensures x.outcome.Success? ==> Configured(cfg) && |x.posted| == 1
  {
    if !Configured(cfg) then
      Exchange([], Failure(NotConfigured("Api key not configured.")))
    else
      var request := Request(Path(cfg.apiVersion, widgetKey), Body(cfg.apiKey.value, data));
      Exchange([request], Interpret(server(request)))
  }

  /** The outcome of a push depends on the service only through its reply to the one request posted. */
  lemma PushDependsOnlyOnReply(cfg: Config, widgetKey: string, data: Value, s1: Request -> Reply, s2: Request -> Reply)
    requires Configured(cfg) ==>
      var request := Request(Path(cfg.apiVersion, widgetKey), Body(cfg.apiKey.value, data));
      s1(request) == s2(request)
    ensures Push(cfg, widgetKey, data, s1) == Push(cfg, widgetKey, data, s2)
  {
  }
}
