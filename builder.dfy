/** The driver builder of utils/builder.ts. The Selenium library is not
    modelled: what the builder asks of it is recorded in a DriverPlan (the
    options it sets, the server it connects to, the window rectangle it sets
    once the driver is built), and whether the library throws is an input. */
module Builder {
  import opened Wrappers
  import opened DefaultEnvs

  datatype Browser = Chrome | Edge | Firefox | Safari

  /** The names `GetDriver` accepts, compared with `===`. */
  const BROWSER_NAMES: map<string, Browser> :=
    map["MicrosoftEdge" := Edge, "chrome" := Chrome, "safari" := Safari, "firefox" := Firefox]

  /** Where the browser executable comes from: default discovery, or a path
      taken from the environment (itself possibly undefined). */
  datatype Binary = DefaultBinary | CustomBinary(path: Option<string>)

  /** A local driver process, or the grid router at the given address. */
  datatype Server = Local | Remote(address: Option<string>)

  /** What is set on a browser options object. */
  datatype Options = Options(
    arguments: seq<string>,
    headless: bool,
    binary: Binary,
    windowSize: Option<Rect>)

  /** A freshly constructed options object: nothing set. */
  const NEW_OPTIONS: Options := Options([], false, DefaultBinary, None)

  /** Keeps Chrome's and Edge's drivers to fatal errors on the console. */
  const LOG_LEVEL_ARGUMENT: string := "--log-level=3"

  /** What `new Builder()...build()` is asked for, and the window rectangle
      set on the driver after it is built (`None`: left as it is). */
  datatype DriverPlan = DriverPlan(
    browser: Browser,
    options: Options,
    server: Server,
    windowRect: Option<Rect>)

  /** The result of GetDriver: `undefined`, `null`, or a driver. */
  datatype Outcome = Unsupported | Failed | Built(plan: DriverPlan)

  /** The four string flags after JavaScript's default parameters. */
  datatype Flags = Flags(
    size: Option<string>,
    ui: Option<string>,
    binaries: Option<string>,
    location: Option<string>)

  /** `flag === s`; an undefined flag equals no string. */
  predicate Is(flag: Option<string>, s: string) {
    flag == Some(s)
  }

  /** The preset a size class names: 425x812 for "mobile", 1440x900 for
      "desktop", none for anything else. */
  function SizePreset(size: Option<string>): (r: Option<Rect>)
    ensures Is(size, "mobile") ==> r == Some(Rect(425, 812))
    ensures Is(size, "desktop") ==> r == Some(Rect(1440, 900))
    ensures r.None? <==> !Is(size, "mobile") && !Is(size, "desktop")
  {
    if Is(size, "mobile") then Some(MOBILE_SIZE)
    else if Is(size, "desktop") then Some(DESKTOP_SIZE)
    else None
  }

  /** The server for a location flag: the grid router iff "remote". */
  function ServerFor(location: Option<string>, config: Config): Server {
    if Is(location, "remote") then Remote(config.gridRouterAddress) else Local
  }

  /** The configured custom executable of a browser. */
  function BinaryPathFor(browser: Browser, config: Config): Option<string> {
    match browser
    case Chrome => config.chromeBinariesPath
    case Edge => config.edgeBinariesPath
    case Firefox => config.firefoxBinariesPath
    case Safari => None
  }

  /** The binary setting for a binaries flag: the custom path iff "custom". */
  function BinaryFor(binaries: Option<string>, browser: Browser, config: Config): Binary {
    if Is(binaries, "custom") then CustomBinary(BinaryPathFor(browser, config)) else DefaultBinary
  }

  /** The window size the plan gives the browser, through the options or
      through the post-build rectangle. */
  function AppliedSize(plan: DriverPlan): Option<Rect> {
    if plan.options.windowSize.Some? then plan.options.windowSize else plan.windowRect
  }

  /** What a plan for its browser must be, given the flags.
      Safari: no options, a local driver, the preset (if any) set after the
      build. Chrome and Edge: the log-level argument, headless iff
      UI === "headless", the custom binary iff binaries === "custom", the
      preset in the options, the grid iff location === "remote", nothing set
      after the build. Firefox: no arguments, the same headless, binary and
      server rules, and the preset in the options when headless but set on
      the window after the build when not. */
  predicate Conforms(plan: DriverPlan, flags: Flags, config: Config) {
    var headless := Is(flags.ui, "headless");
    match plan.browser
    case Safari =>
      && plan.options == NEW_OPTIONS
      && plan.server == Local
      && plan.windowRect == SizePreset(flags.size)
    case Chrome | Edge =>
      && plan.options.arguments == [LOG_LEVEL_ARGUMENT]
      && plan.options.headless == headless
      && plan.options.binary == BinaryFor(flags.binaries, plan.browser, config)
      && plan.options.windowSize == SizePreset(flags.size)
      && plan.server == ServerFor(flags.location, config)
      && plan.windowRect.None?
    case Firefox =>
      && plan.options.arguments == []
      && plan.options.headless == headless
      && plan.options.binary == BinaryFor(flags.binaries, Firefox, config)
      && plan.options.windowSize == (if headless then SizePreset(flags.size) else None)
      && plan.server == ServerFor(flags.location, config)
      && plan.windowRect == (if headless then None else SizePreset(flags.size))
  }

  /** `GetDriver`: dispatch on the browser name. An unknown name yields
      `undefined` and builds nothing; a known one yields `null` when the
      library throws and the driver otherwise. Omitted arguments take their
      defaults: "" for the size, the configured UI, binaries and location for
      the others. */
  method GetDriver(
    config: Config, browserDriver: Option<string>, size: Option<string>, ui: Option<string>,
    binaries: Option<string>, location: Option<string>, libraryFails: bool)
    returns (r: Outcome)
    ensures r == Unsupported <==> browserDriver.None? || browserDriver.value !in BROWSER_NAMES
    ensures r == Failed <==> browserDriver.Some? && browserDriver.value in BROWSER_NAMES && libraryFails
    ensures r.Built? ==>
      && browserDriver.Some? && r.plan.browser == BROWSER_NAMES[browserDriver.value]
      && Conforms(r.plan, DefaultFlags(config, size, ui, binaries, location), config)
  {
    var flags := DefaultFlags(config, size, ui, binaries, location);
    var driver: Option<DriverPlan>;
    if Is(browserDriver, "MicrosoftEdge") {
      driver := BuildEdgeDriver(config, flags.size, flags.ui, flags.binaries, flags.location, libraryFails);
    } else if Is(browserDriver, "chrome") {
      driver := BuildChromeDriver(config, flags.size, flags.ui, flags.binaries, flags.location, libraryFails);
    } else if Is(browserDriver, "safari") {
      driver := BuildSafariDriver(flags.size, libraryFails);
    } else if Is(browserDriver, "firefox") {
      driver := BuildFirefoxDriver(config, flags.size, flags.ui, flags.binaries, flags.location, libraryFails);
    } else {
      return Unsupported;
    }
    // the catch clause: whatever the library threw becomes null
    r := if driver.None? then Failed else Built(driver.value);
  }

  /** JavaScript's default parameters of GetDriver. */
  function DefaultFlags(
    config: Config, size: Option<string>, ui: Option<string>,
    binaries: Option<string>, location: Option<string>): Flags
  {
    Flags(
      if size.Some? then size else Some(""),
      if ui.Some? then ui else config.ui,
      if binaries.Some? then binaries else config.binaries,
      if location.Some? then location else config.location)
  }

  /** `BuildSafariDriver`: Safari takes no options and always runs locally;
      the preset for the size class is set on the window after the build.
      `None` when the library throws. */
  method BuildSafariDriver(size: Option<string>, libraryFails: bool) returns (driver: Option<DriverPlan>)
    ensures driver.Some? <==> !libraryFails
    ensures driver.Some? ==>
      && driver.value.browser == Safari
      && driver.value.options == NEW_OPTIONS
      && driver.value.server == Local
      && driver.value.windowRect == SizePreset(size)
  {
    if libraryFails {
      return None;
    }
    var rect: Option<Rect> := None;
    if Is(size, "mobile") {
      rect := Some(MOBILE_SIZE);
    } else if Is(size, "desktop") {
      rect := Some(DESKTOP_SIZE);
    }
    driver := Some(DriverPlan(Safari, NEW_OPTIONS, Local, rect));
  }

  /** `BuildChromeDriver`: sets the Chrome options one by one, then builds
      locally or on the grid. `None` when the library throws. */
  method BuildChromeDriver(
    config: Config, size: Option<string>, ui: Option<string>,
    binaries: Option<string>, location: Option<string>, libraryFails: bool)
    returns (driver: Option<DriverPlan>)
    ensures driver.Some? <==> !libraryFails
    ensures driver.Some? ==>
      driver.value.browser == Chrome && Conforms(driver.value, Flags(size, ui, binaries, location), config)
  {
    var settings := NEW_OPTIONS;
    settings := settings.(arguments := settings.arguments + [LOG_LEVEL_ARGUMENT]);
    if Is(ui, "headless") {
      settings := settings.(headless := true);
    }
    if Is(binaries, "custom") {
      settings := settings.(binary := CustomBinary(config.chromeBinariesPath));
    }
    if Is(size, "mobile") {
      settings := settings.(windowSize := Some(MOBILE_SIZE));
    } else if Is(size, "desktop") {
      settings := settings.(windowSize := Some(DESKTOP_SIZE));
    }
    if libraryFails {
      return None;
    }
    if Is(location, "remote") {
      driver := Some(DriverPlan(Chrome, settings, Remote(config.gridRouterAddress), None));
    } else {
      driver := Some(DriverPlan(Chrome, settings, Local, None));
    }
  }

  /** `BuildEdgeDriver`: as for Chrome, with Edge's options and binary. */
  method BuildEdgeDriver(
    config: Config, size: Option<string>, ui: Option<string>,
    binaries: Option<string>, location: Option<string>, libraryFails: bool)
    returns (driver: Option<DriverPlan>)
    ensures driver.Some? <==> !libraryFails
    ensures driver.Some? ==>
      driver.value.browser == Edge && Conforms(driver.value, Flags(size, ui, binaries, location), config)
  {
    var settings := NEW_OPTIONS;
    settings := settings.(arguments := settings.arguments + [LOG_LEVEL_ARGUMENT]);
    if Is(ui, "headless") {
      settings := settings.(headless := true);
    }
    if Is(binaries, "custom") {
      settings := settings.(binary := CustomBinary(config.edgeBinariesPath));
    }
    if Is(size, "mobile") {
      settings := settings.(windowSize := Some(MOBILE_SIZE));
    } else if Is(size, "desktop") {
      settings := settings.(windowSize := Some(DESKTOP_SIZE));
    }
    if libraryFails {
      return None;
    }
    if Is(location, "remote") {
      driver := Some(DriverPlan(Edge, settings, Remote(config.gridRouterAddress), None));
    } else {
      driver := Some(DriverPlan(Edge, settings, Local, None));
    }
  }

  /** `BuildFirefoxDriver`: builds with the options of SetFirefoxSettings,
      then, in GUI mode only, sets the preset on the window. */
  method BuildFirefoxDriver(
    config: Config, size: Option<string>, ui: Option<string>,
    binaries: Option<string>, location: Option<string>, libraryFails: bool)
    returns (driver: Option<DriverPlan>)
    ensures driver.Some? <==> !libraryFails
    ensures driver.Some? ==>
      driver.value.browser == Firefox && Conforms(driver.value, Flags(size, ui, binaries, location), config)
  {
    var settings := SetFirefoxSettings(config, size, ui, binaries);
    if libraryFails {
      return None;
    }
    var server := if Is(location, "remote") then Remote(config.gridRouterAddress) else Local;
    var rect: Option<Rect> := None;
    if !Is(ui, "headless") && Is(size, "mobile") {
      rect := Some(MOBILE_SIZE);
    } else if !Is(ui, "headless") && Is(size, "desktop") {
      rect := Some(DESKTOP_SIZE);
    }
    driver := Some(DriverPlan(Firefox, settings, server, rect));
  }

  /** `SetFirefoxSettings`: the Firefox options, one case per combination of
      binaries (custom or not), UI (headless or not) and, when headless, size
      (mobile, desktop or other). Custom binary iff binaries === "custom",
      headless iff UI === "headless", and a window size only when headless. */
  function SetFirefoxSettings(
    config: Config, size: Option<string>, ui: Option<string>, binaries: Option<string>): (settings: Options)
    ensures settings.arguments == []
    ensures settings.headless <==> Is(ui, "headless")
    ensures settings.binary.CustomBinary? <==> Is(binaries, "custom")
    ensures settings.binary.CustomBinary? ==> settings.binary.path == config.firefoxBinariesPath
    ensures settings.windowSize.Some? ==> settings.headless
    ensures settings.headless ==> settings.windowSize == SizePreset(size)
  {
    var binary := CustomBinary(config.firefoxBinariesPath);
    if Is(binaries, "custom") then
      if Is(ui, "headless") then
        if Is(size, "mobile") then
          NEW_OPTIONS.(binary := binary, windowSize := Some(MOBILE_SIZE), headless := true)
        else if Is(size, "desktop") then
          NEW_OPTIONS.(binary := binary, windowSize := Some(DESKTOP_SIZE), headless := true)
        else
          NEW_OPTIONS.(binary := binary, headless := true)
      else
        NEW_OPTIONS.(binary := binary)
    else
      if Is(ui, "headless") then
        if Is(size, "mobile") then
          NEW_OPTIONS.(windowSize := Some(MOBILE_SIZE), headless := true)
        else if Is(size, "desktop") then
          NEW_OPTIONS.(windowSize := Some(DESKTOP_SIZE), headless := true)
        else
          NEW_OPTIONS.(headless := true)
      else
        NEW_OPTIONS
  }

  /** Whatever the browser and the flags, a conforming plan applies exactly
      the preset of the size class, and never through both the options and
      the window at once. */
  lemma AppliedSizeIsPreset(plan: DriverPlan, flags: Flags, config: Config)
    requires Conforms(plan, flags, config)
    ensures AppliedSize(plan) == SizePreset(flags.size)
    ensures plan.options.windowSize.None? || plan.windowRect.None?
  {
  }

  /** Firefox resizing: for "mobile" or "desktop" exactly one mechanism
      applies, the options when headless and the window after the build when
      not; for any other size neither does. */
  lemma FirefoxSizing(plan: DriverPlan, flags: Flags, config: Config)
    requires plan.browser == Firefox && Conforms(plan, flags, config)
    ensures SizePreset(flags.size).Some? ==>
      (plan.options.windowSize.Some? != plan.windowRect.Some?)
    ensures Is(flags.ui, "headless") && SizePreset(flags.size).Some? ==>
      plan.options.windowSize == SizePreset(flags.size) && plan.windowRect.None?
    ensures !Is(flags.ui, "headless") ==>
      plan.options.windowSize.None? && plan.windowRect == SizePreset(flags.size)
    ensures SizePreset(flags.size).None? ==>
      plan.options.windowSize.None? && plan.windowRect.None?
  {
  }

  /** Safari's plan depends on the size class alone: UI, binaries, location
      and the configuration make no difference. */
  lemma SafariIgnoresFlags(p: DriverPlan, q: DriverPlan, f: Flags, g: Flags, c: Config, d: Config)
    requires p.browser == Safari && q.browser == Safari
    requires Conforms(p, f, c) && Conforms(q, g, d)
    requires f.size == g.size
    ensures p == q
  {
  }

  /** Conforms leaves nothing open: for a browser and flags there is exactly
      one plan. */
  lemma ConformsUnique(p: DriverPlan, q: DriverPlan, flags: Flags, config: Config)
    requires p.browser == q.browser
    requires Conforms(p, flags, config) && Conforms(q, flags, config)
    ensures p == q
  {
  }
}
