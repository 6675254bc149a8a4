/**
 * The browser and solver configuration of the worker (apps/worker/lib/browser.ts):
 * launch options and context options built from the process environment, the
 * FlareSolverr endpoint normalisation, and the mapping of the solver's reply (or of
 * the failed request) to the result the archive run consumes.
 */
module Browser {
  import opened Wrappers
  import opened Text

  /** The process environment: a variable that is not in the map reads as `undefined`. */
  type Env = map<string, string>

  /** JavaScript truthiness of `process.env[k]`: the variable is set and not empty. */
  predicate IsSet(env: Env, k: string) {
    k in env && env[k] != ""
  }

  /** `process.env[k]` as a value: `None` when the variable is absent. */
  function Lookup(env: Env, k: string): (r: Option<string>)
    ensures r.Some? <==> k in env
    ensures r.Some? ==> r.value == env[k]
  {
    if k in env then Some(env[k]) else None
  }

  const Proxy := "PROXY"
  const ProxyBypass := "PROXY_BYPASS"
  const ProxyUsername := "PROXY_USERNAME"
  const ProxyPassword := "PROXY_PASSWORD"
  const ExecutablePath := "PLAYWRIGHT_LAUNCH_OPTIONS_EXECUTABLE_PATH"
  const WsUrl := "PLAYWRIGHT_WS_URL"
  const IgnoreHttpsErrors := "IGNORE_HTTPS_ERRORS"
  const FlareSolverrUrl := "FLARESOLVERR_URL"

  // ---------------------------------------------------------------------------
  // Launch options

  datatype ProxySettings = ProxySettings(
    server: string,
    bypass: Option<string>,
    username: Option<string>,
    password: Option<string>)

  /** The keys of Playwright's `LaunchOptions` that the worker sets; `None` is an absent key. */
  datatype LaunchOptions = LaunchOptions(proxy: Option<ProxySettings>, executablePath: Option<string>)

  /** The launch options the environment asks for. */
  function BrowserOptions(env: Env): (o: LaunchOptions)
    ensures o.proxy.Some? <==> IsSet(env, Proxy)
    ensures o.proxy.Some? ==>
      o.proxy.value == ProxySettings(env[Proxy], Lookup(env, ProxyBypass),
                                     Lookup(env, ProxyUsername), Lookup(env, ProxyPassword))
    ensures o.executablePath.Some? <==> IsSet(env, ExecutablePath) && !IsSet(env, WsUrl)
    ensures o.executablePath.Some? ==> o.executablePath.value == env[ExecutablePath]
  {
    LaunchOptions(
      if IsSet(env, Proxy)
      then Some(ProxySettings(env[Proxy], Lookup(env, ProxyBypass),
                              Lookup(env, ProxyUsername), Lookup(env, ProxyPassword)))
      else None,
      if IsSet(env, ExecutablePath) && !IsSet(env, WsUrl) then Some(env[ExecutablePath]) else None)
  }

  /** `getBrowserOptions`: starts from no keys and assigns them one at a time. */
  method GetBrowserOptions(env: Env) returns (o: LaunchOptions)
    ensures o == BrowserOptions(env)
  {
    o := LaunchOptions(None, None);
    if IsSet(env, Proxy) {
      o := o.(proxy := Some(ProxySettings(env[Proxy], Lookup(env, ProxyBypass),
                                          Lookup(env, ProxyUsername), Lookup(env, ProxyPassword))));
    }
    if IsSet(env, ExecutablePath) && !IsSet(env, WsUrl) {
      o := o.(executablePath := Some(env[ExecutablePath]));
    }
  }

  // ---------------------------------------------------------------------------
  // Context options

  /** A width and a height in CSS pixels, as Playwright's `viewport` and `screen` are given. */
  datatype Size = Size(width: nat, height: nat)

  /** Playwright's device descriptor (`devices["Desktop Chrome"]`), an input of the model. */
  datatype DeviceProfile = DeviceProfile(
    userAgent: string,
    screen: Size,
    viewport: Size,
    deviceScaleFactor: nat,
    isMobile: bool,
    hasTouch: bool,
    defaultBrowserType: string)

  /** The keys of `BrowserContextOptions` that the worker produces; `None` is an absent key. */
  datatype ContextOptions = ContextOptions(
    userAgent: string,
    screen: Size,
    viewport: Size,
    deviceScaleFactor: nat,
    isMobile: bool,
    hasTouch: bool,
    defaultBrowserType: string,
    ignoreHTTPSErrors: bool,
    proxy: Option<ProxySettings>,
    executablePath: Option<string>)

  /** `{...base, ...launch}`: every key present in `launch` replaces the base's. */
  function Spread(base: ContextOptions, launch: LaunchOptions): (r: ContextOptions)
    ensures r.proxy == (if launch.proxy.Some? then launch.proxy else base.proxy)
    ensures r.executablePath == (if launch.executablePath.Some? then launch.executablePath else base.executablePath)
    ensures r.(proxy := base.proxy, executablePath := base.executablePath) == base
  {
    base.(proxy := if launch.proxy.Some? then launch.proxy else base.proxy,
          executablePath := if launch.executablePath.Some? then launch.executablePath else base.executablePath)
  }

  /** `{...device, ignoreHTTPSErrors}` */
  function BaseContextOptions(env: Env, device: DeviceProfile): ContextOptions {
    ContextOptions(device.userAgent, device.screen, device.viewport, device.deviceScaleFactor, device.isMobile,
                   device.hasTouch, device.defaultBrowserType,
                   Lookup(env, IgnoreHttpsErrors) == Some("true"), None, None)
  }

  /** `getDefaultContextOptions` */
  function GetDefaultContextOptions(env: Env, device: DeviceProfile): (r: ContextOptions)
    ensures r.userAgent == device.userAgent && r.screen == device.screen && r.viewport == device.viewport
    ensures r.deviceScaleFactor == device.deviceScaleFactor && r.isMobile == device.isMobile
    ensures r.hasTouch == device.hasTouch && r.defaultBrowserType == device.defaultBrowserType
    ensures r.ignoreHTTPSErrors <==> IgnoreHttpsErrors in env && env[IgnoreHttpsErrors] == "true"
    ensures r.proxy.Some? <==> IsSet(env, WsUrl) && IsSet(env, Proxy)
    ensures r.proxy.Some? ==> r.proxy == BrowserOptions(env).proxy
    // under a remote browser the executable path is never set, so it never reaches the context
    ensures r.executablePath.None?
    ensures !IsSet(env, WsUrl) ==> r == BaseContextOptions(env, device)
  {
    var base := BaseContextOptions(env, device);
    if IsSet(env, WsUrl) then Spread(base, BrowserOptions(env)) else base
  }

  // ---------------------------------------------------------------------------
  // FlareSolverr

  const V1 := "/v1"

  /** The solver endpoint: kept when it already ends in `/v1`, otherwise one trailing `/`
      (if any) is dropped and `/v1` appended. */
  function NormalizeEndpoint(url: string): (r: string)
    ensures EndsWith(r, V1)
    ensures EndsWith(url, V1) ==> r == url
    ensures !EndsWith(url, V1) && EndsWith(url, "/") ==> r == url[..|url| - 1] + V1
    ensures !EndsWith(url, V1) && !EndsWith(url, "/") ==> r == url + V1
  {
    if EndsWith(url, V1) then url
    else
      var stripped := if |url| > 0 && url[|url| - 1] == '/' then url[..|url| - 1] else url;
      EndsWithAppend(stripped, V1);
      stripped + V1
  }

  /** Normalising an endpoint twice is normalising it once. */
  lemma NormalizeIdempotent(url: string)
    ensures NormalizeEndpoint(NormalizeEndpoint(url)) == NormalizeEndpoint(url)
  {
  }

  /** Only the tail changes: the normalised endpoint keeps all of the configured URL but
      at most one trailing `/`. */
  lemma NormalizeKeepsStem(url: string)
    ensures var r := NormalizeEndpoint(url);
      (r == url) || (r == url + V1) || (|url| > 0 && url[|url| - 1] == '/' && r == url[..|url| - 1] + V1)
  {
  }

  datatype SameSite = Strict | Lax | NoneSameSite

  datatype Cookie = Cookie(
    name: string,
    value: string,
    domain: string,
    path: string,
    secure: bool,
    expires: Option<int>,
    httpOnly: Option<bool>,
    sameSite: Option<SameSite>)

  /** The `solution` object of a FlareSolverr reply, each member possibly absent. */
  datatype ReplySolution = ReplySolution(
    cookies: Option<seq<Cookie>>,
    userAgent: Option<string>,
    response: Option<string>)

  /** The body of a FlareSolverr reply (`response.data`). */
  datatype Reply = Reply(status: Option<string>, solution: Option<ReplySolution>)

  /** What the POST to the solver yields: it throws, or it returns a body (possibly none). */
  datatype PostOutcome = PostThrew | Returned(data: Option<Reply>)

  /** The POST the worker sends. */
  datatype SolverRequest = SolverRequest(endpoint: string, cmd: string, url: string, maxTimeout: nat)

  datatype CaptchaSolution = CaptchaSolution(cookies: seq<Cookie>, response: Option<string>)

  /** The result of `solveCaptcha`. */
  datatype CaptchaSolve = CaptchaSolve(
    status: Option<string>,
    userAgent: Option<string>,
    solution: Option<CaptchaSolution>)

  /** `solveCaptcha` with its POST made explicit: the request it sends (if any) and its result,
      given what the POST would yield. */
  datatype SolveAttempt = SolveAttempt(request: Option<SolverRequest>, result: CaptchaSolve)

  const DefaultMaxTimeout: nat := 90000

  function SolveCaptcha(env: Env, url: string, maxTimeout: nat, post: PostOutcome): (a: SolveAttempt)
    // no endpoint configured: nothing is sent and the result is a bare "skip"
    ensures a.request.None? <==> !IsSet(env, FlareSolverrUrl)
    ensures a.request.None? ==> a.result == CaptchaSolve(Some("skip"), None, None)
    ensures a.request.Some? ==>
      a.request.value == SolverRequest(NormalizeEndpoint(env[FlareSolverrUrl]), "request.get", url, maxTimeout)
    // a thrown request is an "error" with nothing else
    ensures a.request.Some? && post.PostThrew? ==> a.result == CaptchaSolve(Some("error"), None, None)
    // a reply is passed through: its status, its user agent, its solution with cookies defaulting to []
    ensures a.request.Some? && post.Returned? ==>
      var data := post.data;
      && a.result.status == (if data.Some? then data.value.status else None)
      && (a.result.solution.Some? <==> data.Some? && data.value.solution.Some?)
      && (a.result.solution.Some? ==>
            a.result.solution.value.cookies == data.value.solution.value.cookies.GetOr([])
            && a.result.solution.value.response == data.value.solution.value.response
            && a.result.userAgent == data.value.solution.value.userAgent)
      && (a.result.solution.None? ==> a.result.userAgent.None?)
  {
    if !IsSet(env, FlareSolverrUrl) then SolveAttempt(None, CaptchaSolve(Some("skip"), None, None))
    else
      var request := SolverRequest(NormalizeEndpoint(env[FlareSolverrUrl]), "request.get", url, maxTimeout);
      match post
      case PostThrew => SolveAttempt(Some(request), CaptchaSolve(Some("error"), None, None))
      case Returned(data) =>
        var status := if data.Some? then data.value.status else None;
        var solution := if data.Some? then data.value.solution else None;
        SolveAttempt(Some(request), CaptchaSolve(
          status,
          if solution.Some? then solution.value.userAgent else None,
          if solution.Some? then Some(CaptchaSolution(solution.value.cookies.GetOr([]), solution.value.response))
          else None))
  }

  /** Without an endpoint the solver's reply plays no part. */
  lemma SkipIgnoresReply(env: Env, url: string, maxTimeout: nat, p1: PostOutcome, p2: PostOutcome)
    requires !IsSet(env, FlareSolverrUrl)
    ensures SolveCaptcha(env, url, maxTimeout, p1) == SolveCaptcha(env, url, maxTimeout, p2)
  {
  }
}
