/** The configuration constants of the harness (utils/defaultEnvs.ts): the
    environment is an abstract input, read once, and every constant is a
    function of it. */
module DefaultEnvs {
  import opened Wrappers

  /** A window rectangle, in CSS pixels. */
  datatype Rect = Rect(width: int, height: int)

  /** The two fixed viewport presets. */
  const MOBILE_SIZE: Rect := Rect(425, 812)
  const DESKTOP_SIZE: Rect := Rect(1440, 900)

  /** The path appended to the base address of the site under test. */
  const TESTING_SITE: string := ""

  const DEFAULT_TIMEOUT: int := 1000 * 60
  const DEFAULT_TIMETOLIVE: int := 1000 * 30

  /** The process environment as the configuration sees it. String variables
      are `None` when unset. `timeout` and `timeToLive` are TIMEOUT and
      TIMETOLIVE after JavaScript's unary `+`: `None` is NaN (which is also
      what an unset variable coerces to). */
  datatype ProcessEnv = ProcessEnv(
    routerAddr: Option<string>,
    binaryChrome: Option<string>,
    binaryEdge: Option<string>,
    binaryFirefox: Option<string>,
    binaries: Option<string>,
    location: Option<string>,
    ui: Option<string>,
    enviro: Option<string>,
    webdriver: Option<string>,
    timeout: Option<int>,
    timeToLive: Option<int>)

  /** The exported constants, one field per `ENV_*` export. */
  datatype Config = Config(
    gridRouterAddress: Option<string>,
    chromeBinariesPath: Option<string>,
    edgeBinariesPath: Option<string>,
    firefoxBinariesPath: Option<string>,
    binaries: Option<string>,
    location: Option<string>,
    ui: Option<string>,
    address: string,
    timeout: int,
    browserDriver: Option<string>,
    timeToLive: int)

  /** JavaScript's `x || fallback` for a coerced number `x`: NaN and 0 are
      falsy, every other number is kept as it is. */
  function NumberOr(coerced: Option<int>, fallback: int): (r: int)
    ensures r == fallback || (coerced == Some(r) && r != 0)
    ensures r != fallback ==> coerced == Some(r)
    ensures coerced.Some? && coerced.value != 0 ==> r == coerced.value
    ensures (coerced.None? || coerced == Some(0)) ==> r == fallback
    ensures fallback != 0 ==> r != 0
  {
    if coerced.Some? && coerced.value != 0 then coerced.value else fallback
  }

  /** JavaScript's string concatenation of a possibly undefined value: an
      undefined operand is rendered as the text "undefined". */
  function Concat(s: Option<string>, t: string): string
  {
    match s
    case Some(v) => v + t
    case None => "undefined" + t
  }

  /** Loading the configuration from the environment. */
  function LoadConfig(env: ProcessEnv): (c: Config)
    // the builder's inputs are passed through unchanged
    ensures c.gridRouterAddress == env.routerAddr
    ensures c.chromeBinariesPath == env.binaryChrome
    ensures c.edgeBinariesPath == env.binaryEdge
    ensures c.firefoxBinariesPath == env.binaryFirefox
    ensures c.binaries == env.binaries && c.location == env.location && c.ui == env.ui
    ensures c.browserDriver == env.webdriver
    // TESTING_SITE adds nothing to ENVIRO
    ensures env.enviro.Some? ==> c.address == env.enviro.value
    ensures env.enviro.None? ==> c.address == "undefined"
    // the timeouts: a nonzero coerced value, else 60 s and 30 s
    ensures c.timeout != 0 && c.timeToLive != 0
    ensures c.timeout == 60000 <==> env.timeout in {None, Some(0), Some(60000)}
    ensures c.timeout != 60000 ==> env.timeout == Some(c.timeout)
    ensures c.timeToLive == 30000 <==> env.timeToLive in {None, Some(0), Some(30000)}
    ensures c.timeToLive != 30000 ==> env.timeToLive == Some(c.timeToLive)
  {
    Config(
      gridRouterAddress := env.routerAddr,
      chromeBinariesPath := env.binaryChrome,
      edgeBinariesPath := env.binaryEdge,
      firefoxBinariesPath := env.binaryFirefox,
      binaries := env.binaries,
      location := env.location,
      ui := env.ui,
      address := Concat(env.enviro, TESTING_SITE),
      timeout := NumberOr(env.timeout, DEFAULT_TIMEOUT),
      browserDriver := env.webdriver,
      timeToLive := NumberOr(env.timeToLive, DEFAULT_TIMETOLIVE))
  }
}
