/** The request-level logic of the MCP server's entry point: reading the per-request
    configuration from two headers or an encoded query parameter, falling back to the
    process environment and a built-in default, choosing the HTTP outcome of a request
    to the `/mcp` endpoint, and choosing the transport at start-up. */
module Server {
  import opened JsValues

  /** Name of the header that carries the API token. */
  const HackmdApiTokenHeader: string := "Hackmd-Api-Token"
  /** Base URL of the note service used when no other source supplies one. */
  const DefaultHackmdApiUrl: string := "https://api.hackmd.io/v1"

  /** Property names of the configuration object. */
  const TokenKey: string := "hackmdApiToken"
  const UrlKey: string := "hackmdApiUrl"

  /** Error codes of section 5.1 of the JSON-RPC 2.0 specification: -32603 is
      "Internal error"; -32000 lies in the range reserved for implementation-defined
      server errors. */
  const ServerErrorCode: int := -32000
  const InternalErrorCode: int := -32603

  /** The process environment (after the `.env` file has been loaded). */
  datatype Env = Env(vars: map<string, string>)

  /** `process.env[name]`: a string, or `undefined` when the variable is unset. */
  function EnvVar(env: Env, name: string): (r: JsValue)
    ensures r.Undefined? <==> name !in env.vars
    ensures name in env.vars ==> r == Str(env.vars[name])
  {
    if name in env.vars then Str(env.vars[name]) else Undefined
  }

  /** What the handler reads of an incoming request: the value of the token header, of the
      URL header (a header value is a string, a list of strings, or absent) and the parsed
      `config` query parameter (a string, a list, an object, or absent). */
  datatype Request = Request(tokenHeader: JsValue, urlHeader: JsValue, configParam: JsValue)

  /** `JSON.parse(Buffer.from(s, "base64").toString())`: the parsed value, or Threw
      when the decoded text is not JSON. */
  type Decoder = string -> Completion

  /** The configuration the client is built from; `ConfigSchema.parse` leaves it as it is. */
  datatype Config = Config(hackmdApiToken: string, hackmdApiUrl: JsValue)

  datatype RpcError = RpcError(code: int, message: string)
  /** The JSON body `{ jsonrpc, error, id }` of an error reply. */
  datatype ErrorBody = ErrorBody(jsonrpc: string, error: RpcError, id: JsValue)
  datatype HttpReply = HttpReply(status: int, body: ErrorBody)

  /** How a request to `/mcp` is answered: with an error reply, or by building a server
      and transport for the given configuration and handing the request to them. */
  datatype Outcome = Respond(reply: HttpReply) | Serve(config: Config)

  /** What the process does at start-up. */
  datatype StartUpAction =
    | ListenHttp(port: JsValue)
    | Exit(code: int)
    | ServeStdio(config: Config)

  function ErrorReply(status: int, code: int, message: string): (r: HttpReply)
    ensures r.status == status && r.body.error == RpcError(code, message)
    ensures r.body.jsonrpc == "2.0" && r.body.id == Null
  {
    HttpReply(status, ErrorBody("2.0", RpcError(code, message), Null))
  }

  const MissingTokenMessage: string :=
    "Bad Request: Please provide a HackMD API token via header '" + HackmdApiTokenHeader + "'."
  const MissingTokenReply: HttpReply := ErrorReply(400, ServerErrorCode, MissingTokenMessage)
  const InternalErrorReply: HttpReply := ErrorReply(500, InternalErrorCode, "Internal server error")
  const MethodNotAllowedReply: HttpReply := ErrorReply(405, ServerErrorCode, "Method not allowed.")

  /** The configuration object the two headers yield: each header whose value is a
      string that is not blank contributes that value, untrimmed. */
  function HeaderConfig(req: Request): (c: map<string, JsValue>)
    ensures TokenKey in c <==> IsNonBlankString(req.tokenHeader)
    ensures UrlKey in c <==> IsNonBlankString(req.urlHeader)
    ensures TokenKey in c ==> c[TokenKey] == req.tokenHeader
    ensures UrlKey in c ==> c[UrlKey] == req.urlHeader
    ensures c.Keys <= {TokenKey, UrlKey}
  {
    var withToken := if IsNonBlankString(req.tokenHeader) then map[TokenKey := req.tokenHeader] else map[];
    if IsNonBlankString(req.urlHeader) then withToken[UrlKey := req.urlHeader] else withToken
  }

  /** Some header contributes to the configuration object. */
  predicate HeaderContributes(req: Request) {
    IsNonBlankString(req.tokenHeader) || IsNonBlankString(req.urlHeader)
  }

  /** What `parseConfig` returns, or Threw when it throws: the header configuration when a
      header contributed; otherwise the decoded query parameter when that is a string that
      is not blank; otherwise the empty object. */
  function ParsedConfig(req: Request, decode: Decoder): Completion {
    if HeaderContributes(req) then Returned(Obj(HeaderConfig(req)))
    else if IsNonBlankString(req.configParam) then decode(req.configParam.s)
    else Returned(Obj(map[]))
  }

  /** `parseConfig`: builds the configuration object one header at a time, returns it as soon
      as it holds a key, and only then looks at the query parameter. */
  method ParseConfig(req: Request, decode: Decoder) returns (r: Completion)
    ensures r == ParsedConfig(req, decode)
    ensures HeaderContributes(req) ==> r == Returned(Obj(HeaderConfig(req)))
    ensures !HeaderContributes(req) && !IsNonBlankString(req.configParam) ==> r == Returned(Obj(map[]))
    // a token other than the token header's can only come from the decoded query parameter
    ensures r.Returned? && r.value.Obj? && TokenKey in r.value.props && r.value.props[TokenKey] != req.tokenHeader ==>
              !HeaderContributes(req) && IsNonBlankString(req.configParam) && r == decode(req.configParam.s)
    ensures r.Threw? ==> IsNonBlankString(req.configParam) && decode(req.configParam.s).Threw?
  {
    var config: map<string, JsValue> := map[];
    if IsNonBlankString(req.tokenHeader) {
      config := map[TokenKey := req.tokenHeader];
    }
    if IsNonBlankString(req.urlHeader) {
      config := config[UrlKey := req.urlHeader];
    }
    if |config| > 0 {
      assert config == HeaderConfig(req);
      return Returned(Obj(config));
    }
    assert !HeaderContributes(req);
    var configParam := req.configParam;
    if IsNonBlankString(configParam) {
      var smitheryConfig := decode(configParam.s);
      return smitheryConfig;
    }
    return Returned(Obj(config));
  }

  /** `configToken || process.env.HACKMD_API_TOKEN` */
  function EffectiveToken(configToken: JsValue, env: Env): (t: JsValue)
    ensures Truthy(configToken) ==> t == configToken
    ensures !Truthy(configToken) ==> t == EnvVar(env, "HACKMD_API_TOKEN")
  {
    Or(configToken, EnvVar(env, "HACKMD_API_TOKEN"))
  }

  /** `configUrl || process.env.HACKMD_API_URL || DEFAULT_HACKMD_API_URL`: the first of the
      three that is truthy, so an empty string counts as absent at every stage. */
  function EffectiveUrl(configUrl: JsValue, env: Env): (u: JsValue)
    ensures Truthy(u)
    ensures Truthy(configUrl) ==> u == configUrl
    ensures !Truthy(configUrl) && "HACKMD_API_URL" in env.vars && env.vars["HACKMD_API_URL"] != "" ==>
              u == Str(env.vars["HACKMD_API_URL"])
    ensures !Truthy(configUrl) && ("HACKMD_API_URL" !in env.vars || env.vars["HACKMD_API_URL"] == "") ==>
              u == Str(DefaultHackmdApiUrl)
  {
    Or(Or(configUrl, EnvVar(env, "HACKMD_API_URL")), Str(DefaultHackmdApiUrl))
  }

  /** The part of the `POST /mcp` handler that runs before any server is built, given what
      `parseConfig` did. An exception there (a JSON.parse failure, a property read on a
      `null` configuration, `trim` called on a token that is not a string) reaches the catch
      block while no header has been sent, so it is answered with the internal-error reply. */
  function Resolve(parsed: Completion, env: Env): (o: Outcome)
    ensures o.Respond? ==> o.reply == MissingTokenReply || o.reply == InternalErrorReply
    ensures o.Serve? ==> !Blank(o.config.hackmdApiToken) && Truthy(o.config.hackmdApiUrl)
    // served exactly when the configuration was read and its effective token is a non-blank string
    ensures o.Serve? <==>
              parsed.Returned? && !parsed.value.Undefined? && !parsed.value.Null? &&
              var t := EffectiveToken(GetProp(parsed.value, TokenKey).value, env);
              t.Str? && !Blank(t.s)
    // the internal error exactly when something throws: decoding, reading a property of
    // `null`, or calling `trim` on a truthy token that is not a string
    ensures o == Respond(InternalErrorReply) <==>
              parsed.Threw? || parsed.value.Undefined? || parsed.value.Null? ||
              var t := EffectiveToken(GetProp(parsed.value, TokenKey).value, env);
              Truthy(t) && !t.Str?
  {
    match parsed
    case Threw => Respond(CatchReply(false).value)
    case Returned(rawConfig) =>
      match GetProp(rawConfig, TokenKey)
      case None => Respond(CatchReply(false).value)
      case Some(configToken) =>
        var token := EffectiveToken(configToken, env);
        if !Truthy(token) then Respond(MissingTokenReply)
        else if !token.Str? then Respond(CatchReply(false).value)
        else if Blank(token.s) then Respond(MissingTokenReply)
        else Serve(Config(token.s, EffectiveUrl(GetProp(rawConfig, UrlKey).value, env)))
  }

  /** The catch block of the `POST /mcp` handler: the internal-error reply, written only when
      the response headers have not been sent yet. */
  function CatchReply(headersSent: bool): (r: Option<HttpReply>)
    ensures r.Some? <==> !headersSent
    ensures r.Some? ==> r.value.status == 500 && r.value.body.error.code == InternalErrorCode
  {
    if headersSent then None else Some(InternalErrorReply)
  }

  /** The outcome of `POST /mcp` up to the hand-off to the transport. */
  function PostOutcome(req: Request, env: Env, decode: Decoder): (o: Outcome)
    ensures o.Respond? ==> o.reply == MissingTokenReply || o.reply == InternalErrorReply
    // headers and the environment alone never make the handler throw: the internal error
    // needs a query parameter that is decoded
    ensures o == Respond(InternalErrorReply) ==> !HeaderContributes(req) && IsNonBlankString(req.configParam)
    ensures IsNonBlankString(req.tokenHeader) ==>
              o == Serve(Config(req.tokenHeader.s, EffectiveUrl(if IsNonBlankString(req.urlHeader) then req.urlHeader else Undefined, env)))
  {
    Resolve(ParsedConfig(req, decode), env)
  }

  datatype HttpMethod = Get | Post | Delete

  /** The three routes of `/mcp`: POST is handled; GET (no event stream) and DELETE (no
      session to end) are refused by a server that keeps no sessions. */
  function HandleMcp(m: HttpMethod, req: Request, env: Env, decode: Decoder): (o: Outcome)
    ensures m.Post? ==> o == PostOutcome(req, env, decode)
    ensures !m.Post? ==> o == Respond(MethodNotAllowedReply)
  {
    match m
    case Post => PostOutcome(req, env, decode)
    case Get => Respond(MethodNotAllowedReply)
    case Delete => Respond(MethodNotAllowedReply)
  }

  /** `main`: `TRANSPORT` (default "stdio") selects HTTP only when it is exactly "http"; every
      other value runs over standard input and output, which needs a token in the
      environment and exits with status 1 before building anything when there is none. */
  function StartUp(env: Env): (a: StartUpAction)
    ensures a.ListenHttp? <==> "TRANSPORT" in env.vars && env.vars["TRANSPORT"] == "http"
    ensures a.Exit? <==> !a.ListenHttp? && ("HACKMD_API_TOKEN" !in env.vars || env.vars["HACKMD_API_TOKEN"] == "")
    ensures a.Exit? ==> a.code == 1
    ensures a.ServeStdio? ==>
              "HACKMD_API_TOKEN" in env.vars &&
              a.config == Config(env.vars["HACKMD_API_TOKEN"], EffectiveUrl(Undefined, env))
  {
    var transport := Or(EnvVar(env, "TRANSPORT"), Str("stdio"));
    if transport == Str("http") then ListenHttp(Or(EnvVar(env, "PORT"), Num(8081.0)))
    else
      var apiToken := EnvVar(env, "HACKMD_API_TOKEN");
      if !Truthy(apiToken) then Exit(1)
      else ServeStdio(Config(apiToken.s, EffectiveUrl(Undefined, env)))
  }

  // ---------------------------------------------------------------------------------
  // Properties of the configuration resolution

  /** When a header contributes, the query parameter is never consulted: neither its value
      nor the decoder changes the outcome. */
  lemma HeadersShadowQuery(req: Request, env: Env, decode: Decoder, otherParam: JsValue, otherDecode: Decoder)
    requires HeaderContributes(req)
    ensures ParsedConfig(req, decode) == Returned(Obj(HeaderConfig(req)))
    ensures PostOutcome(req.(configParam := otherParam), env, otherDecode) == PostOutcome(req, env, decode)
  {
    assert HeaderConfig(req.(configParam := otherParam)) == HeaderConfig(req);
  }

  /** A URL header on its own switches the query parameter off, so a token carried there is
      ignored: the token comes from the environment and the URL from the header. */
  lemma UrlHeaderAloneIgnoresQueryToken(req: Request, env: Env, decode: Decoder)
    requires !IsNonBlankString(req.tokenHeader) && IsNonBlankString(req.urlHeader)
    ensures var t := EnvVar(env, "HACKMD_API_TOKEN");
            PostOutcome(req, env, decode) ==
              if !t.Str? || Blank(t.s) then Respond(MissingTokenReply)
              else Serve(Config(t.s, req.urlHeader))
  {
    var h := HeaderConfig(req);
    assert UrlKey in h && TokenKey !in h;
    assert ParsedConfig(req, decode) == Returned(Obj(h));
    assert GetProp(Obj(h), TokenKey) == Some(Undefined);
    assert GetProp(Obj(h), UrlKey) == Some(req.urlHeader);
    assert EffectiveToken(Undefined, env) == EnvVar(env, "HACKMD_API_TOKEN");
    assert EffectiveUrl(req.urlHeader, env) == req.urlHeader by { EmptyIsBlank(); }
    EmptyIsBlank();
  }

  /** Precedence of the token, first source: a token header that is not blank is
      served as it is, untrimmed, whatever the query parameter and environment hold. */
  lemma TokenHeaderWins(req: Request, env: Env, decode: Decoder)
    requires IsNonBlankString(req.tokenHeader)
    ensures PostOutcome(req, env, decode).Serve?
    ensures PostOutcome(req, env, decode).config.hackmdApiToken == req.tokenHeader.s
  {
    var h := HeaderConfig(req);
    assert TokenKey in h;
    assert req.tokenHeader.s != "" by { EmptyIsBlank(); }
  }

  /** Precedence of the token, second source: with no header, a decoded query object whose
      token is a string that is not blank is served, whatever the environment holds. */
  lemma QueryTokenBeatsEnvironment(req: Request, env: Env, decode: Decoder, token: string)
    requires !HeaderContributes(req) && IsNonBlankString(req.configParam)
    requires decode(req.configParam.s).Returned? && decode(req.configParam.s).value.Obj?
    requires var props := decode(req.configParam.s).value.props;
             TokenKey in props && props[TokenKey] == Str(token) && !Blank(token)
    ensures PostOutcome(req, env, decode).Serve?
    ensures PostOutcome(req, env, decode).config.hackmdApiToken == token
  {
    var p := decode(req.configParam.s);
    assert ParsedConfig(req, decode) == p;
    assert GetProp(p.value, TokenKey) == Some(Str(token));
    assert token != "" by { EmptyIsBlank(); }
    assert EffectiveToken(Str(token), env) == Str(token);
  }

  /** Precedence of the token, last source: with no header and no query parameter worth
      decoding, the environment token decides between serving and the missing-token reply. */
  lemma EnvironmentTokenLast(req: Request, env: Env, decode: Decoder)
    requires !HeaderContributes(req) && !IsNonBlankString(req.configParam)
    ensures var t := EnvVar(env, "HACKMD_API_TOKEN");
            PostOutcome(req, env, decode) ==
              if !t.Str? || Blank(t.s) then Respond(MissingTokenReply)
              else Serve(Config(t.s, EffectiveUrl(Undefined, env)))
  {
    assert ParsedConfig(req, decode) == Returned(Obj(map[]));
    assert GetProp(Obj(map[]), TokenKey) == Some(Undefined);
    assert GetProp(Obj(map[]), UrlKey) == Some(Undefined);
    var t := EnvVar(env, "HACKMD_API_TOKEN");
    assert EffectiveToken(Undefined, env) == t;
    EmptyIsBlank();
  }

  /** A query token made of white space only is truthy, so it hides the environment token
      and the request is refused even when the environment holds a valid token. */
  lemma WhitespaceQueryTokenShadowsEnvironment(req: Request, env: Env, decode: Decoder, token: string)
    requires !HeaderContributes(req) && IsNonBlankString(req.configParam)
    requires decode(req.configParam.s).Returned? && decode(req.configParam.s).value.Obj?
    requires var props := decode(req.configParam.s).value.props;
             TokenKey in props && props[TokenKey] == Str(token)
    requires token != [] && forall i :: 0 <= i < |token| ==> IsSpace(token[i])
    ensures PostOutcome(req, env, decode) == Respond(MissingTokenReply)
  {
    var p := decode(req.configParam.s);
    assert ParsedConfig(req, decode) == p;
    assert GetProp(p.value, TokenKey) == Some(Str(token));
    BlankIffAllSpace(token);
  }

  /** The missing-token reply is given exactly when the configuration was read without an
      exception and the effective token is absent, empty, or a string of white space. */
  lemma MissingTokenIff(req: Request, env: Env, decode: Decoder)
    ensures PostOutcome(req, env, decode) == Respond(MissingTokenReply) <==>
              var p := ParsedConfig(req, decode);
              p.Returned? && !p.value.Undefined? && !p.value.Null? &&
              var t := EffectiveToken(GetProp(p.value, TokenKey).value, env);
              !Truthy(t) || (t.Str? && Blank(t.s))
  {
    assert MissingTokenReply != InternalErrorReply;
  }

  /** A query parameter that fails to decode, or decodes to `null`, is answered with status
      500 and code -32603, not with the missing-token reply, for any environment. */
  lemma UndecodableQueryIsInternalError(req: Request, env: Env, decode: Decoder)
    requires !HeaderContributes(req) && IsNonBlankString(req.configParam)
    requires decode(req.configParam.s) == Threw || decode(req.configParam.s) == Returned(Null)
    ensures PostOutcome(req, env, decode) == Respond(InternalErrorReply)
    ensures InternalErrorReply.status == 500 && InternalErrorReply.body.error == RpcError(-32603, "Internal server error")
    ensures InternalErrorReply.body.id == Null
  {
  }

  /** A truthy token that is not a string (a number, an array, an object from the decoded
      query parameter) makes `trim` throw, which is answered with the internal-error reply,
      whatever else the decoded object holds and whatever the environment holds. */
  lemma NonStringTokenIsInternalError(req: Request, env: Env, decode: Decoder, token: JsValue)
    requires !HeaderContributes(req) && IsNonBlankString(req.configParam)
    requires decode(req.configParam.s).Returned? && decode(req.configParam.s).value.Obj?
    requires var props := decode(req.configParam.s).value.props;
             TokenKey in props && props[TokenKey] == token
    requires Truthy(token) && !token.Str?
    ensures PostOutcome(req, env, decode) == Respond(InternalErrorReply)
  {
    var p := decode(req.configParam.s);
    assert ParsedConfig(req, decode) == p;
    assert GetProp(p.value, TokenKey) == Some(token);
  }

  /** A decoded query value that carries no token (a number, a string, an array, or an object
      without the token key) falls back to the environment token, as if it were empty; only
      its URL, if any, is used. */
  lemma QueryWithoutTokenUsesEnvironment(req: Request, env: Env, decode: Decoder)
    requires !HeaderContributes(req) && IsNonBlankString(req.configParam)
    requires var p := decode(req.configParam.s);
             p.Returned? && !p.value.Undefined? && !p.value.Null? &&
             !(p.value.Obj? && TokenKey in p.value.props)
    ensures var v := decode(req.configParam.s).value;
            var t := EnvVar(env, "HACKMD_API_TOKEN");
            PostOutcome(req, env, decode) ==
              if !t.Str? || Blank(t.s) then Respond(MissingTokenReply)
              else Serve(Config(t.s, EffectiveUrl(GetProp(v, UrlKey).value, env)))
  {
    var v := decode(req.configParam.s).value;
    assert ParsedConfig(req, decode) == Returned(v);
    assert GetProp(v, TokenKey) == Some(Undefined);
    assert EffectiveToken(Undefined, env) == EnvVar(env, "HACKMD_API_TOKEN");
    EmptyIsBlank();
  }

  /** The served configuration: the effective token, and the URL from the configuration
      object, else the environment, else the default, an empty string counting as absent. */
  lemma ServedConfig(req: Request, env: Env, decode: Decoder)
    requires PostOutcome(req, env, decode).Serve?
    ensures var p := ParsedConfig(req, decode).value;
            var c := PostOutcome(req, env, decode).config;
            Str(c.hackmdApiToken) == EffectiveToken(GetProp(p, TokenKey).value, env) &&
            c.hackmdApiUrl == EffectiveUrl(GetProp(p, UrlKey).value, env)
  {
  }

  /** GET and DELETE on `/mcp` are refused with status 405 and code -32000 whatever the
      request and the environment. */
  lemma GetAndDeleteRefused(m: HttpMethod, req: Request, env: Env, decode: Decoder)
    requires m != Post
    ensures HandleMcp(m, req, env, decode) == Respond(MethodNotAllowedReply)
    ensures MethodNotAllowedReply == HttpReply(405, ErrorBody("2.0", RpcError(-32000, "Method not allowed."), Null))
  {
  }

  // ---------------------------------------------------------------------------------
  // Properties of start-up

  /** HTTP mode is chosen exactly when `TRANSPORT` is "http"; unset, empty, "stdio" or any
      other value runs over standard input and output. */
  lemma HttpOnlyWhenRequested(env: Env)
    ensures StartUp(env).ListenHttp? <==> "TRANSPORT" in env.vars && env.vars["TRANSPORT"] == "http"
  {
  }

  /** In HTTP mode the port is `PORT` unless that is unset or empty, and 8081 otherwise. */
  lemma HttpPort(env: Env)
    requires StartUp(env).ListenHttp?
    ensures "PORT" in env.vars && env.vars["PORT"] != "" ==> StartUp(env).port == Str(env.vars["PORT"])
    ensures ("PORT" !in env.vars || env.vars["PORT"] == "") ==> StartUp(env).port == Num(8081.0)
  {
  }

  /** In stdio mode an unset or empty token exits with status 1, and otherwise the
      environment's token and URL (or the default URL) are served. */
  lemma StdioStartUp(env: Env)
    requires !StartUp(env).ListenHttp?
    ensures var t := EnvVar(env, "HACKMD_API_TOKEN");
            StartUp(env) == if !Truthy(t) then Exit(1)
                            else ServeStdio(Config(t.s, EffectiveUrl(Undefined, env)))
  {
  }

  /** Start-up checks the token only for emptiness, a request checks it after trimming: a
      token of white space alone serves over stdio but is refused on every HTTP request
      that carries no configuration of its own. */
  lemma WhitespaceTokenStdioVersusHttp(env: Env, req: Request, decode: Decoder, token: string)
    requires !StartUp(env).ListenHttp?
    requires "HACKMD_API_TOKEN" in env.vars && env.vars["HACKMD_API_TOKEN"] == token
    requires token != [] && forall i :: 0 <= i < |token| ==> IsSpace(token[i])
    requires !HeaderContributes(req) && !IsNonBlankString(req.configParam)
    ensures StartUp(env).ServeStdio? && StartUp(env).config.hackmdApiToken == token
    ensures PostOutcome(req, env, decode) == Respond(MissingTokenReply)
  {
    BlankIffAllSpace(token);
    EnvironmentTokenLast(req, env, decode);
  }
}
