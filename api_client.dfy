/**
 * The HTTP client wrapper: reading the stored session, building the request
 * configuration (bearer header, optional `user` attachment), and turning a
 * failed request into an `Error` with a normalised message. The HTTP
 * transport, `localStorage` and `JSON.parse` are inputs.
 */
module ApiClient {
  import opened Wrappers
  import opened Js

  /** `JSON.parse`: the parsed value, or `None` when it throws. */
  type Parser = string -> Option<Value>

  const NotAuthenticated := "User not authenticated"
  const DefaultFallback := "Request failed"

  /**
   * `parsed?.[key] || null` on the `user` entry of `localStorage`, where a
   * missing or empty entry and an unparseable one both give `null`.
   */
  function SessionField(raw: Option<string>, parse: Parser, key: string): (r: Value)
    ensures r == Null || Truthy(r)
    ensures r != Null <==>
              raw.Some? && raw.value != "" && parse(raw.value).Some? && Truthy(Get(parse(raw.value).value, key))
    ensures r != Null ==> r == Get(parse(raw.value).value, key)
  {
    if raw.None? || raw.value == "" then Null
    else match parse(raw.value)
      case None => Null
      case Some(parsed) => Or(Get(parsed, key), Null)
  }

  /** `getToken()`: a truthy token, or `null` when there is no usable one. */
  function GetToken(raw: Option<string>, parse: Parser): (r: Value)
    ensures r == Null || Truthy(r)
    ensures r != Null <==>
              raw.Some? && raw.value != "" && parse(raw.value).Some? && Truthy(Get(parse(raw.value).value, "token"))
    ensures r != Null ==> r == Get(parse(raw.value).value, "token")
  {
    SessionField(raw, parse, "token")
  }

  /** `getUserId()`: a truthy id, or `null` when there is no usable one. */
  function GetUserId(raw: Option<string>, parse: Parser): (r: Value)
    ensures r == Null || Truthy(r)
    ensures r != Null <==>
              raw.Some? && raw.value != "" && parse(raw.value).Some? && Truthy(Get(parse(raw.value).value, "id"))
    ensures r != Null ==> r == Get(parse(raw.value).value, "id")
  {
    SessionField(raw, parse, "id")
  }

  /** The operands of `normalizeError`'s `||` chain, in order. */
  function ErrorCandidates(err: Value, fallback: string): (xs: seq<Value>)
    ensures |xs| == 4 && xs[3] == Str(fallback)
  {
    var data := Get(Get(err, "response"), "data");
    [Get(data, "error"), Get(data, "message"), Get(err, "message"), Str(fallback)]
  }

  /**
   * `normalizeError(err, fallback)`: the server's `error`, else the server's
   * `message`, else the exception's own `message`, else the fallback.
   */
  function NormalizeError(err: Value, fallback: string): (r: Value)
    ensures r == ErrorCandidates(err, fallback)[FirstTruthyIndex(ErrorCandidates(err, fallback))]
    ensures fallback != "" ==> Truthy(r)
  {
    var data := Get(Get(err, "response"), "data");
    OrChainIsFirstTruthy(ErrorCandidates(err, fallback));
    OrChainOfFour(Get(data, "error"), Get(data, "message"), Get(err, "message"), Str(fallback));
    Or(Get(data, "error"), Or(Get(data, "message"), Or(Get(err, "message"), Str(fallback))))
  }

  /** The `fallback = 'Request failed'` default, which applies when no message is passed. */
  function FallbackOr(fallbackMessage: Option<string>): string
  {
    if fallbackMessage.None? then DefaultFallback else fallbackMessage.value
  }

  /** The options object `request` destructures; `data` and `params` may be `undefined`. */
  datatype Options = Options(
    data: Value,
    params: Value,
    headers: map<string, string>,
    auth: bool,
    attachUser: bool,
    fallbackMessage: Option<string>)

  /** `{}`: every option at its default. */
  const NoOptions := Options(Undefined, Undefined, map[], false, false, None)

  /** The configuration handed to the HTTP transport. */
  datatype Config = Config(
    verb: string,
    url: string,
    params: Value,
    data: Value,
    headers: map<string, string>)

  /** `typeof v === 'object'`. */
  predicate IsObjectType(v: Value)
  {
    v.Obj? || v.Arr? || v == Null
  }

  /** The condition under which `request` looks up the user id to attach. */
  predicate WantsUser(opts: Options)
  {
    opts.attachUser && Truthy(opts.data) && IsObjectType(opts.data) && !Truthy(Get(opts.data, "user"))
  }

  /** `{ ...data, user: { id: userId } }`. */
  function WithUser(data: Value, userId: Value): (r: Value)
    ensures r.Obj?
    ensures Get(r, "user") == Obj(map["id" := userId])
    ensures data.Obj? ==> forall k :: k in data.fields && k != "user" ==> k in r.fields && r.fields[k] == data.fields[k]
    ensures data.Obj? ==> r.fields.Keys == data.fields.Keys + {"user"}
  {
    Obj(With(SpreadFields(data), "user", Obj(map["id" := userId])))
  }

  function Bearer(token: Value): string
  {
    "Bearer " + StringOf(token)
  }

  /**
   * What `request` sends, or the error it throws before sending. Without
   * `auth` the caller's data and headers go out as they are; with it, a
   * token is required, the `Authorization` header is set on a copy of the
   * caller's headers, and the user id is attached only when asked for,
   * when `data` is an object without a user, and when an id is stored.
   */
  function ConfigFor(verb: string, url: string, opts: Options, raw: Option<string>, parse: Parser): (r: Result<Config, string>)
    ensures r.Err? <==> opts.auth && !Truthy(GetToken(raw, parse))
    ensures r.Err? ==> r.error == NotAuthenticated
    ensures r.Ok? ==> r.value.verb == verb && r.value.url == url && r.value.params == opts.params
    ensures r.Ok? && !opts.auth ==> r.value.headers == opts.headers && r.value.data == opts.data
    ensures r.Ok? && opts.auth ==> r.value.headers.Keys == opts.headers.Keys + {"Authorization"}
    ensures r.Ok? && opts.auth ==> r.value.headers["Authorization"] == Bearer(GetToken(raw, parse))
    ensures r.Ok? ==> forall h :: h in opts.headers && h != "Authorization" ==> h in r.value.headers && r.value.headers[h] == opts.headers[h]
    ensures r.Ok? && !(opts.auth && WantsUser(opts) && Truthy(GetUserId(raw, parse))) ==> r.value.data == opts.data
    ensures r.Ok? && opts.auth && WantsUser(opts) && Truthy(GetUserId(raw, parse)) ==> r.value.data == WithUser(opts.data, GetUserId(raw, parse))
  {
    var token := GetToken(raw, parse);
    var userId := GetUserId(raw, parse);
    if !opts.auth then Ok(Config(verb, url, opts.params, opts.data, opts.headers))
    else if !Truthy(token) then Err(NotAuthenticated)
    else
      var data := if WantsUser(opts) && Truthy(userId) then WithUser(opts.data, userId) else opts.data;
      Ok(Config(verb, url, opts.params, data, opts.headers["Authorization" := Bearer(token)]))
  }

  /**
   * The configuration-building part of `request`, step by step: copy, then
   * set the header, then replace the data.
   */
  method BuildConfig(verb: string, url: string, opts: Options, raw: Option<string>, parse: Parser)
    returns (r: Result<Config, string>)
    ensures r == ConfigFor(verb, url, opts, raw, parse)
  {
    var config := Config(verb, url, opts.params, opts.data, opts.headers);
    if opts.auth {
      var token := GetToken(raw, parse);
      if !Truthy(token) {
        return Err(NotAuthenticated);
      }
      config := config.(headers := config.headers["Authorization" := Bearer(token)]);
      if opts.attachUser && Truthy(opts.data) && IsObjectType(opts.data) && !Truthy(Get(opts.data, "user")) {
        var userId := GetUserId(raw, parse);
        if Truthy(userId) {
          config := config.(data := WithUser(opts.data, userId));
        }
      }
    }
    r := Ok(config);
  }

  /** What the transport reports: the response body, or the error object axios rejects with. */
  datatype NetResult = Response(data: Value) | Failure(err: Value)

  /** After the transport: `res.data`, or `new Error(normalizeError(err, fallbackMessage))`. */
  function Settle(result: NetResult, fallbackMessage: Option<string>): (r: Result<Value, string>)
    ensures result.Response? ==> r == Ok(result.data)
    ensures result.Failure? ==> r == Err(StringOf(NormalizeError(result.err, FallbackOr(fallbackMessage))))
  {
    match result
    case Response(data) => Ok(data)
    case Failure(err) => Err(StringOf(NormalizeError(err, FallbackOr(fallbackMessage))))
  }

  /**
   * `request(method, url, options)`. `sent` is the configuration given to the
   * transport, `None` when the request fails before any network call.
   */
  method Request(verb: string, url: string, opts: Options, raw: Option<string>, parse: Parser, transport: Config -> NetResult)
    returns (sent: Option<Config>, r: Result<Value, string>)
    ensures opts.auth && !Truthy(GetToken(raw, parse)) ==> sent == None && r == Err(NotAuthenticated)
    ensures !(opts.auth && !Truthy(GetToken(raw, parse))) ==> sent.Some? && Ok(sent.value) == ConfigFor(verb, url, opts, raw, parse)
    ensures sent.Some? ==> r == Settle(transport(sent.value), opts.fallbackMessage)
  {
    var config := BuildConfig(verb, url, opts, raw, parse);
    if config.Err? {
      return None, Err(config.error);
    }
    sent := Some(config.value);
    r := Settle(transport(config.value), opts.fallbackMessage);
  }

  /** A call of `request`, as the `api` helpers make it. */
  datatype Call = Call(verb: string, url: string, opts: Options)

  /** `options` when given, `{}` when left out. */
  function OptionsOr(options: Option<Options>): Options
  {
    if options.None? then NoOptions else options.value
  }

  /** `api.get(url, options)` and `api.delete(url, options)`: a body, if any, travels in `options.data`. */
  function ApiWithOptions(verb: string, url: string, options: Option<Options>): (c: Call)
    requires verb == "get" || verb == "delete"
    ensures c.verb == verb && c.url == url && c.opts == OptionsOr(options)
    ensures options.None? ==> c.opts == NoOptions
  {
    Call(verb, url, OptionsOr(options))
  }

  /** `api.post(url, data, options)` and `api.put(url, data, options)`: `data` replaces any `data` among the options. */
  function ApiWithData(verb: string, url: string, data: Value, options: Option<Options>): (c: Call)
    requires verb == "post" || verb == "put"
    ensures c.verb == verb && c.url == url
    ensures c.opts == OptionsOr(options).(data := data)
  {
    Call(verb, url, OptionsOr(options).(data := data))
  }

  /** Without `auth`, nothing is added: no `Authorization` header and no `user`. */
  lemma NoAuthSendsAsGiven(verb: string, url: string, opts: Options, raw: Option<string>, parse: Parser)
    requires !opts.auth
    ensures ConfigFor(verb, url, opts, raw, parse) == Ok(Config(verb, url, opts.params, opts.data, opts.headers))
  {
  }

  /** An empty stored session, or one that does not parse, has neither a token nor an id. */
  lemma NoSessionNoCredentials(raw: Option<string>, parse: Parser)
    requires raw.None? || raw == Some("") || parse(raw.value).None?
    ensures GetToken(raw, parse) == Null && GetUserId(raw, parse) == Null
  {
  }

  /** A failed request's message falls back to the given message only when nothing else is truthy. */
  lemma NormalizeErrorFallsBack(err: Value, fallback: string)
    ensures NormalizeError(err, fallback) == Str(fallback) || Truthy(NormalizeError(err, fallback))
    ensures (forall j :: 0 <= j < 3 ==> !Truthy(ErrorCandidates(err, fallback)[j])) ==> NormalizeError(err, fallback) == Str(fallback)
    ensures Truthy(Get(Get(Get(err, "response"), "data"), "error")) ==> NormalizeError(err, fallback) == Get(Get(Get(err, "response"), "data"), "error")
  {
  }
}
