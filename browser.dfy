/** One remote browser session (lib/browser/index.js): the launch pipeline, the
    one-shot choice of element locator, full-screen capture with calibration
    crop, and the pure helpers they use.

    The remote client, the calibrator, the polyfill service and the script
    bundler are collaborators whose answers come from an `Env` value. Every
    request the session sends them is appended to the ghost log `calls`, so
    that which stages ran, and in which order, can be stated. */
module BrowserSession {
  import opened Js

  const OperaNotSupported: string := "Not supported in OperaDriver yet"
  /** The protocol status of "no such element" (`Browser.ELEMENT_NOT_FOUND`). */
  const ElementNotFound: int := 7
  const UserAgentExpr: string := "navigator.userAgent"
  const LocatorNotChosen: string := "findElement is called before appropriate locator is chosen"
  const UnableToFind: string := "Unable to find element"
  /** The TypeError raised when the client bridge is used before it is built. */
  const BridgeMissing: string := "Cannot read property 'call' of undefined"
  const ConnectAdvice: string :=
    "Make sure that URL in config file is correct and selenium\nserver is running."

  type Caps = map<string, Value>

  datatype Size = Size(width: int, height: int)

  datatype Rect = Rect(left: int, top: int, width: int, height: int)

  /** What the calibrator learns about a browser: whether its native selector
      engine understands CSS3, and how far the page is offset in screenshots. */
  datatype Calibration = Calibration(hasCSS3Selectors: bool, left: int, top: int)

  /** The part of the project configuration the session reads
      (`config.http` is only handed to the remote client and is not modelled). */
  datatype Config = Config(
    gridUrl: string,
    windowSize: Option<Size>,
    coverage: Value,
    capabilities: Caps,
    browsers: map<string, Caps>)

  /** Which lookup `findElement` is bound to: none yet, the remote client's own
      CSS lookup, or `query.first` in the injected client script. */
  datatype LocatorMode = Unset | Native | Script

  /** The query library aliased into the client bundle. */
  datatype QueryLib = QuerySizzle | QueryNative

  /** How the client bundle is configured: whether `./gemini.coverage` is
      excluded, and which query library `./query` resolves to. */
  datatype BundleConfig = BundleConfig(excludeCoverage: bool, queryLib: QueryLib)

  /** A request sent to a collaborator during launch. */
  datatype Call =
    | ConfigureHttp
    | Init(capabilities: Caps)
    | SetWindowSize(width: int, height: int)
    | WindowHandle
    | MaximizeWindow(handle: string)
    | RunCalibrator
    | Eval(expr: string)
    | GetPolyfillString(userAgent: string)
    | BundleScripts(config: BundleConfig)

  /** The collaborators' answers. The polyfill service answers per user agent
      and the bundler per bundle configuration. */
  datatype Env = Env(
    configureHttp: Outcome,
    init: Outcome,
    setWindowSize: Outcome,
    windowHandle: Result<string, Error>,
    maximize: Outcome,
    calibrate: Result<Calibration, Error>,
    userAgent: Result<string, Error>,
    polyfill: string -> Result<string, Error>,
    bundle: BundleConfig -> Result<string, Error>)

  /** What a session is constructed with and never changes. */
  datatype Setup = Setup(id: string, config: Config, caps: Caps)

  /** The mutable state of a session, plus the log of requests it has sent. */
  datatype Session = Session(
    calibration: Option<Calibration>,
    polyfill: Option<string>,
    bridge: Option<string>,
    locatorMode: LocatorMode,
    calls: seq<Call>)

  /** The state after one or more launch stages, and the error that stopped
      them, if any. */
  datatype Run = Run(session: Session, failure: Option<Error>)

  /** The error `launch` rejects with: a message and an optional hint. */
  datatype GeminiError = GeminiError(message: string, advice: Option<string>)

  datatype Launched = Launched(session: Session, result: Result<(), GeminiError>)

  /** A call into the injected client script through the client bridge. */
  datatype BridgeCall = BridgeCall(name: string, args: seq<Value>)

  // ---------------------------------------------------------------------------
  // Pure helpers

  /** The capabilities sent on session init: the browser's own capabilities
      override the configured ones, which override `takesScreenshot: true`. */
  function MergeCapabilities(fromConfig: Caps, own: Caps): (r: Caps)
    ensures r.Keys == {"takesScreenshot"} + fromConfig.Keys + own.Keys
    ensures forall k :: k in own ==> r[k] == own[k]
    ensures forall k :: k in fromConfig && k !in own ==> r[k] == fromConfig[k]
    ensures "takesScreenshot" !in fromConfig && "takesScreenshot" !in own ==>
              r["takesScreenshot"] == Bool(true)
  {
    map["takesScreenshot" := Bool(true)] + fromConfig + own
  }

  function Capabilities(b: Setup): Caps
  {
    MergeCapabilities(b.config.capabilities, b.caps)
  }

  /** Only PhantomJS is maximized: its default window is too small for some
      shadows to fit. */
  predicate ShouldMaximize(caps: Caps)
  {
    Get(caps, "browserName") == Str("phantomjs")
  }

  predicate NoCalibrate(caps: Caps)
  {
    Truthy(Get(caps, "--noCalibrate"))
  }

  /** The native selector engine cannot be trusted: a calibration exists and
      found no CSS3 selector support. */
  predicate NeedsSizzle(calibration: Option<Calibration>)
  {
    calibration.Some? && !calibration.value.hasCSS3Selectors
  }

  function ModeFor(calibration: Option<Calibration>): LocatorMode
  {
    if NeedsSizzle(calibration) then Script else Native
  }

  function BundleFor(config: Config, calibration: Option<Calibration>): BundleConfig
  {
    BundleConfig(!Truthy(config.coverage),
                 if NeedsSizzle(calibration) then QuerySizzle else QueryNative)
  }

  /** `String(x)` of an optional string: an unset polyfill prints as "undefined". */
  function Text(s: Option<string>): string
  {
    if s.Some? then s.value else "undefined"
  }

  /** The script the client bridge treats as already injected: the polyfill,
      a newline, then the bundle. */
  function ClientScript(polyfill: Option<string>, bundle: string): (r: string)
    ensures |r| == |Text(polyfill)| + 1 + |bundle|
    ensures r[..|Text(polyfill)|] == Text(polyfill) && r[|Text(polyfill)|] == '\n'
    ensures r[|Text(polyfill)| + 1..] == bundle
  {
    Text(polyfill) + "\n" + bundle
  }

  /** The legacy OperaDriver's "resize unsupported" answer, recognised only by
      the message inside its `cause` payload. */
  predicate IsOperaNotSupported(e: Error)
  {
    e.causeMessage == Some(OperaNotSupported)
  }

  /** How `launch` reports a failure from any of its stages. */
  function LaunchError(b: Setup, e: Error): (r: GeminiError)
    ensures e.code == Some("ECONNREFUSED") ==>
              r.message == "Unable to connect to " + b.config.gridUrl && r.advice == Some(ConnectAdvice)
    ensures e.code != Some("ECONNREFUSED") ==>
              r.message == "Cannot launch browser " + b.id + ":\n" + e.message && r.advice.None?
  {
    if e.code == Some("ECONNREFUSED") then
      GeminiError("Unable to connect to " + b.config.gridUrl, Some(ConnectAdvice))
    else
      GeminiError("Cannot launch browser " + b.id + ":\n" + e.message, None)
  }

  /** The region of the raw screenshot that `captureFullscreenImage` returns:
      all of it without a calibration, otherwise everything right of the
      calibrated left offset and below the calibrated top offset. */
  function CropRegion(calibration: Option<Calibration>, size: Size): (r: Rect)
    ensures calibration.None? ==> r == Rect(0, 0, size.width, size.height)
    ensures calibration.Some? ==>
              r.left == calibration.value.left && r.top == calibration.value.top
    ensures r.left + r.width == size.width && r.top + r.height == size.height
  {
    match calibration
    case None => Rect(0, 0, size.width, size.height)
    case Some(c) => Rect(c.left, c.top, size.width - c.left, size.height - c.top)
  }

  /** The bridge call made by `prepareScreenshot`; missing options become `{}`. */
  function PrepareScreenshotCall(selectors: seq<string>, opts: Value): (c: BridgeCall)
    ensures c.name == "prepareScreenshot" && |c.args| == 2
    ensures c.args[0].Arr? && |c.args[0].items| == |selectors|
    ensures forall i :: 0 <= i < |selectors| ==> c.args[0].items[i] == Str(selectors[i])
    ensures Truthy(opts) ==> c.args[1] == opts
    ensures !Truthy(opts) ==> c.args[1] == Obj(map[])
  {
    BridgeCall("prepareScreenshot",
               [Arr(seq(|selectors|, i requires 0 <= i < |selectors| => Str(selectors[i]))),
                if Truthy(opts) then opts else Obj(map[])])
  }

  // ---------------------------------------------------------------------------
  // The launch stages, as functions of the session state

  function Append(s: Session, c: Call): Session
  {
    s.(calls := s.calls + [c])
  }

  /** Configure the HTTP transport, then init the remote session with the
      merged capabilities. */
  function InitSessionStep(b: Setup, s: Session, env: Env): Run
  {
    var s1 := Append(s, ConfigureHttp);
    if env.configureHttp.Fail? then Run(s1, Some(env.configureHttp.error))
    else
      var s2 := Append(s1, Init(Capabilities(b)));
      Run(s2, if env.init.Fail? then Some(env.init.error) else None)
  }

  /** Resize to the configured window size, if any; OperaDriver's refusal is
      swallowed, every other failure is passed on unchanged. */
  function SetDefaultSizeStep(b: Setup, s: Session, env: Env): Run
  {
    match b.config.windowSize
    case None => Run(s, None)
    case Some(size) =>
      var s1 := Append(s, SetWindowSize(size.width, size.height));
      match env.setWindowSize
      case Ok => Run(s1, None)
      case Fail(e) => Run(s1, if IsOperaNotSupported(e) then None else Some(e))
  }

  function MaximizeStep(b: Setup, s: Session, env: Env): Run
  {
    if !ShouldMaximize(b.caps) then Run(s, None)
    else
      var s1 := Append(s, WindowHandle);
      match env.windowHandle
      case Failure(e) => Run(s1, Some(e))
      case Success(h) =>
        var s2 := Append(s1, MaximizeWindow(h));
        Run(s2, if env.maximize.Fail? then Some(env.maximize.error) else None)
  }

  /** Run the calibrator unless `--noCalibrate` is set or a calibration is
      already stored, and store what it finds. */
  function CalibrateStep(b: Setup, s: Session, env: Env): Run
  {
    if NoCalibrate(b.caps) || s.calibration.Some? then Run(s, None)
    else
      var s1 := Append(s, RunCalibrator);
      match env.calibrate
      case Failure(e) => Run(s1, Some(e))
      case Success(c) => Run(s1.(calibration := Some(c)), None)
  }

  /** Read the user agent, then fetch the polyfills it needs. */
  function BuildPolyfillsStep(s: Session, env: Env): Run
  {
    var s1 := Append(s, Eval(UserAgentExpr));
    match env.userAgent
    case Failure(e) => Run(s1, Some(e))
    case Success(ua) =>
      var s2 := Append(s1, GetPolyfillString(ua));
      match env.polyfill(ua)
      case Failure(e) => Run(s2, Some(e))
      case Success(p) => Run(s2.(polyfill := Some(p)), None)
  }

  /** Bundle the client script and build the client bridge around it. */
  function BuildScriptsStep(b: Setup, s: Session, env: Env): Run
  {
    var cfg := BundleFor(b.config, s.calibration);
    var s1 := Append(s, BundleScripts(cfg));
    match env.bundle(cfg)
    case Failure(e) => Run(s1, Some(e))
    case Success(text) => Run(s1.(bridge := Some(ClientScript(s.polyfill, text))), None)
  }

  function ChooseLocatorStep(s: Session): Session
  {
    s.(locatorMode := ModeFor(s.calibration))
  }

  /** The number of stages that can fail; choosing the locator comes after them. */
  const StageCount: nat := 6

  /** Stage `k` of `launch`: init session, default size, maximize, calibrate,
      polyfills, scripts. */
  function RunStage(k: nat, b: Setup, s: Session, env: Env): Run
    requires k < StageCount
  {
    if k == 0 then InitSessionStep(b, s, env)
    else if k == 1 then SetDefaultSizeStep(b, s, env)
    else if k == 2 then MaximizeStep(b, s, env)
    else if k == 3 then CalibrateStep(b, s, env)
    else if k == 4 then BuildPolyfillsStep(s, env)
    else BuildScriptsStep(b, s, env)
  }

  /** Stages `k` onwards, in order; the first failure skips all the rest, and
      the locator is chosen only when every stage succeeded. */
  function RunFrom(k: nat, b: Setup, s: Session, env: Env): Run
    requires k <= StageCount
    decreases StageCount - k
  {
    if k == StageCount then Run(ChooseLocatorStep(s), None)
    else
      var r := RunStage(k, b, s, env);
      if r.failure.Some? then r else RunFrom(k + 1, b, r.session, env)
  }

  function Pipeline(b: Setup, s: Session, env: Env): Run
  {
    RunFrom(0, b, s, env)
  }

  function Launching(b: Setup, s: Session, env: Env): Launched
  {
    var r := Pipeline(b, s, env);
    Launched(r.session,
             if r.failure.Some? then Failure(LaunchError(b, r.failure.value)) else Success(()))
  }

  // ---------------------------------------------------------------------------
  // The session object

  class Browser {
    const id: string
    const config: Config
    const caps: Caps
    var calibration: Option<Calibration>
    var polyfill: Option<string>
    var bridge: Option<string>
    var locatorMode: LocatorMode
    /** Every request sent to a collaborator, oldest first. */
    ghost var calls: seq<Call>

    function Settings(): Setup
    {
      Setup(id, config, caps)
    }

    ghost function View(): Session
      reads this
    {
      Session(calibration, polyfill, bridge, locatorMode, calls)
    }

    /** The session for the configured browser `id`; nothing is sent yet. */
    constructor (config: Config, id: string)
      requires id in config.browsers
      ensures this.config == config && this.id == id && caps == config.browsers[id]
      ensures View() == Session(None, None, None, Unset, [])
    {
      this.config := config;
      this.id := id;
      this.caps := config.browsers[id];
      calibration := None;
      polyfill := None;
      bridge := None;
      locatorMode := Unset;
      calls := [];
    }

    method InitSession(env: Env) returns (failure: Option<Error>)
      modifies this`calls
      ensures Run(View(), failure) == InitSessionStep(Settings(), old(View()), env)
    {
      calls := calls + [ConfigureHttp];
      if env.configureHttp.Fail? {
        return Some(env.configureHttp.error);
      }
      calls := calls + [Init(MergeCapabilities(config.capabilities, caps))];
      failure := if env.init.Fail? then Some(env.init.error) else None;
    }

    method SetDefaultSize(env: Env) returns (failure: Option<Error>)
      modifies this`calls
      ensures Run(View(), failure) == SetDefaultSizeStep(Settings(), old(View()), env)
    {
      var size := config.windowSize;
      if size.None? {
        return None;
      }
      calls := calls + [SetWindowSize(size.value.width, size.value.height)];
      match env.setWindowSize
      case Ok =>
        failure := None;
      case Fail(e) =>
        if IsOperaNotSupported(e) {
          failure := None;
        } else {
          failure := Some(e);
        }
    }

    method Maximize(env: Env) returns (failure: Option<Error>)
      modifies this`calls
      ensures Run(View(), failure) == MaximizeStep(Settings(), old(View()), env)
    {
      if !ShouldMaximize(caps) {
        return None;
      }
      calls := calls + [WindowHandle];
      if env.windowHandle.Failure? {
        return Some(env.windowHandle.error);
      }
      var handle := env.windowHandle.value;
      calls := calls + [MaximizeWindow(handle)];
      failure := if env.maximize.Fail? then Some(env.maximize.error) else None;
    }

    method Calibrate(env: Env) returns (failure: Option<Error>)
      modifies this`calls, this`calibration
      ensures Run(View(), failure) == CalibrateStep(Settings(), old(View()), env)
    {
      if NoCalibrate(caps) || calibration.Some? {
        return None;
      }
      calls := calls + [RunCalibrator];
      match env.calibrate
      case Failure(e) =>
        failure := Some(e);
      case Success(c) =>
        calibration := Some(c);
        failure := None;
    }

    method BuildPolyfills(env: Env) returns (failure: Option<Error>)
      modifies this`calls, this`polyfill
      ensures Run(View(), failure) == BuildPolyfillsStep(old(View()), env)
    {
      calls := calls + [Eval(UserAgentExpr)];
      if env.userAgent.Failure? {
        return Some(env.userAgent.error);
      }
      var ua := env.userAgent.value;
      calls := calls + [GetPolyfillString(ua)];
      var p := env.polyfill(ua);
      if p.Failure? {
        return Some(p.error);
      }
      polyfill := Some(p.value);
      failure := None;
    }

    method BuildScripts(env: Env) returns (failure: Option<Error>)
      modifies this`calls, this`bridge
      ensures Run(View(), failure) == BuildScriptsStep(Settings(), old(View()), env)
    {
      var cfg := BundleFor(config, calibration);
      calls := calls + [BundleScripts(cfg)];
      var built := env.bundle(cfg);
      if built.Failure? {
        return Some(built.error);
      }
      bridge := Some(ClientScript(polyfill, built.value));
      failure := None;
    }

    method ChooseLocator()
      modifies this`locatorMode
      ensures View() == ChooseLocatorStep(old(View()))
    {
      locatorMode := if NeedsSizzle(calibration) then Script else Native;
    }

    /** Runs the stages in order and stops at the first failure, which is
        reported through `LaunchError`. */
    method Launch(env: Env) returns (r: Result<(), GeminiError>)
      modifies this
      ensures Launched(View(), r) == Launching(Settings(), old(View()), env)
    {
      ghost var whole := Pipeline(Settings(), View(), env);
      var failure := InitSession(env);
      if failure.None? {
        assert whole == RunFrom(1, Settings(), View(), env);
        failure := SetDefaultSize(env);
      }
      if failure.None? {
        assert whole == RunFrom(2, Settings(), View(), env);
        failure := Maximize(env);
      }
      if failure.None? {
        assert whole == RunFrom(3, Settings(), View(), env);
        failure := Calibrate(env);
      }
      if failure.None? {
        assert whole == RunFrom(4, Settings(), View(), env);
        failure := BuildPolyfills(env);
      }
      if failure.None? {
        assert whole == RunFrom(5, Settings(), View(), env);
        failure := BuildScripts(env);
      }
      if failure.None? {
        assert whole == RunFrom(6, Settings(), View(), env);
        ChooseLocator();
        r := Success(());
      } else {
        r := Failure(LaunchError(Settings(), failure.value));
      }
    }

    /** Looks up `selector` with the locator chosen at launch. `native` is the
        remote client's answer to a CSS lookup, `script` the client bridge's
        answer to `query.first(selector)`. */
    method FindElement(selector: string, native: Result<Value, Error>, script: Result<Value, Error>)
      returns (r: Result<Value, Error>)
      ensures locatorMode == Unset ==> r.Failure? && r.error.message == LocatorNotChosen
      ensures locatorMode == Native && native.Success? ==> r == native
      ensures locatorMode == Native && native.Failure? ==>
                r == Failure(native.error.(selector := if native.error.status == Some(ElementNotFound)
                                                       then Some(selector) else native.error.selector))
      ensures locatorMode == Script && bridge.Some? ==>
                (r.Success? <==> script.Success? && Truthy(script.value))
      ensures locatorMode == Script && r.Success? ==> r == script
      ensures locatorMode == Script && bridge.Some? && script.Success? && !Truthy(script.value) ==>
                r == Failure(Error(UnableToFind, None, Some(ElementNotFound), None, Some(selector)))
      ensures locatorMode == Script && bridge.Some? && script.Failure? ==> r == script
      ensures locatorMode == Script && bridge.None? ==> r.Failure? && r.error.message == BridgeMissing
    {
      match locatorMode
      case Unset =>
        r := Failure(Error(LocatorNotChosen, None, None, None, None));
      case Native =>
        if native.Success? {
          r := native;
        } else if native.error.status == Some(ElementNotFound) {
          r := Failure(native.error.(selector := Some(selector)));
        } else {
          r := native;
        }
      case Script =>
        if bridge.None? {
          r := Failure(Error(BridgeMissing, None, None, None, None));
        } else if script.Failure? {
          r := script;
        } else if Truthy(script.value) {
          r := script;
        } else {
          r := Failure(Error(UnableToFind, None, Some(ElementNotFound), None, Some(selector)));
        }
    }

    /** Takes a screenshot (`screenshot` is the decoded image's size, or the
        remote failure) and returns the region of it that is kept. */
    method CaptureFullscreenImage(screenshot: Result<Size, Error>) returns (r: Result<Rect, Error>)
      ensures screenshot.Failure? ==> r == Failure(screenshot.error)
      ensures screenshot.Success? ==> r == Success(CropRegion(calibration, screenshot.value))
    {
      if screenshot.Failure? {
        return Failure(screenshot.error);
      }
      r := Success(CropRegion(calibration, screenshot.value));
    }
  }
}
