# Gemini browser session and capture tester, in Dafny

Gemini is a screenshot-regression tool. This project models two of its parts.

- **The browser session** (`lib/browser/index.js`). Launching a session runs a fixed pipeline of stages in order: init the remote session, set the default window size, maximize (PhantomJS only), calibrate, fetch polyfills, bundle the client scripts and choose the element locator. The first failure stops the pipeline and is reported as one of two launch errors. The same calibration decides both the locator and the query library bundled into the client script. The module also covers the two element locators, the calibrated screenshot crop, the capability merge and the `prepareScreenshot` bridge call.
- **The capture tester** (`lib/tester.js`). For each capture it resolves the reference path and the effective tolerance. A missing reference is refused. Otherwise it saves the current image to a temporary file, compares the two images and emits one END_TEST record. The record carries a lazy diff action.

The remote WebDriver client, the calibrator, the polyfill service, the script bundler, the file system and the image library are not modelled. Their answers are parameters:

- `BrowserSession.Env` gives one answer per launch request. The polyfill service answers per user agent, and the bundler per bundle configuration.
- `CaptureTester.Disk` says which files exist, whether saving succeeds and what a comparison finds.
- `FindElement`, `CaptureFullscreenImage`, `Prepare` and `SaveDiffTo` take their collaborator's answer as an argument.

Two kinds of method are modelled differently.

- The launch stages (`InitSession` through `ChooseLocator`, and `Launch`) append every request they send to the ghost log `Browser.calls`. Each is proved equal to a pure step function over a `Session` value (`Browser.View()`), and the lemmas in `LaunchProperties` are proved about those functions. The log makes the order of stages and the absence of a step statable.
- `ProcessCapture`, `Prepare` and `SaveDiffTo` append their requests to the ghost log `Tester.effects`. `ProcessCapture` is proved equal to the pure function `CaptureTester.Processing`, which the tester lemmas are about. `Prepare` and `SaveDiffTo` state their one new log entry and their result directly.
- `FindElement` and `CaptureFullscreenImage` log nothing. They take the remote client's or the bridge's answer as an argument, and their contracts give the result for every answer.

Modules:

- `Js`: JS values and truthiness, the error object, Option/Result.
- `BrowserSession`: the session class, its stage functions and pure helpers.
- `LaunchProperties`: what a launch guarantees, proved by induction over the stages.
- `CaptureTester`: the tester class, `Processing` and its lemmas.

## Model

| member | source | states |
|---|---|---|
| BrowserSession.MergeCapabilities | lib/browser/index.js:219-221 | The merged keys are the union of the browser's keys, the configured keys and `takesScreenshot`. The browser's own capabilities win over the configured ones, and those win over the default `takesScreenshot: true`. |
| BrowserSession.ClientScript | lib/browser/index.js:187-192 | The built script is the polyfill text (`undefined` if none), one newline, then the bundle: its length, prefix, separator and suffix. |
| BrowserSession.LaunchError | lib/browser/index.js:86-98 | A cause with code ECONNREFUSED gives "Unable to connect to " + gridUrl with the advice to check the URL and the selenium server. Any other cause gives "Cannot launch browser <id>:\n<cause message>" with no advice. |
| BrowserSession.CropRegion | lib/browser/index.js:271-286 | With no calibration the whole screenshot is kept. With one, the kept region starts at the calibrated (left, top) and runs to the right and bottom edges. |
| BrowserSession.PrepareScreenshotCall | lib/browser/index.js:263-269 | The bridge call is `prepareScreenshot` with the selectors and the options. Falsy options are replaced by `{}`, and truthy options are passed through. |
| BrowserSession.Browser.constructor | lib/browser/index.js:22-26 | A session keeps the config, the id and that id's capabilities. It starts with no calibration, no polyfill, no client bridge, no locator and no request sent. |
| BrowserSession.Browser.InitSession | lib/browser/index.js:101-108 | Configures HTTP, then inits the remote session with the merged capabilities. Init is skipped if configuring fails, and the first refusal is returned. |
| BrowserSession.Browser.SetDefaultSize | lib/browser/index.js:110-128 | With no window size configured, nothing is sent. Otherwise one resize is sent. OperaDriver's "Not supported in OperaDriver yet" refusal is swallowed, and any other refusal is returned unchanged. |
| BrowserSession.Browser.Maximize | lib/browser/index.js:223-233 | Only a `phantomjs` browser is maximized: the window handle is read, then that handle is maximized. Any refusal stops the step. |
| BrowserSession.Browser.Calibrate | lib/browser/index.js:68-76 | The calibrator runs unless `--noCalibrate` is truthy or a calibration is already stored. Its result is stored and its failure returned. |
| BrowserSession.Browser.BuildPolyfills | lib/browser/index.js:130-151 | Evaluates `navigator.userAgent`, then asks for the polyfill for that user agent and stores it. Either failure stops the step. |
| BrowserSession.Browser.BuildScripts | lib/browser/index.js:166-197 | Bundles with coverage excluded unless `config.coverage` is truthy, and with the sizzle query library exactly when sizzle is needed. On success the client bridge holds polyfill + "\n" + bundle. |
| BrowserSession.Browser.ChooseLocator | lib/browser/index.js:195-201 | The locator becomes the script locator when a calibration exists without CSS3 selector support, and the native locator otherwise. |
| BrowserSession.Browser.Launch | lib/browser/index.js:54-99 | The new session state and the result are those of the staged pipeline `Launching`. Its properties are the `LaunchProperties` lemmas below. |
| BrowserSession.Browser.FindElement | lib/browser/index.js:235-261 | Before a locator is chosen, the lookup fails with "findElement is called before appropriate locator is chosen". The native locator passes success through. On failure it returns the client's whole error, with the selector attached exactly when the status is 7 and left as it was otherwise. The script locator succeeds exactly when the bridge answers a truthy element. A falsy answer gives "Unable to find element" with status 7 and the selector, and a bridge failure passes through. |
| BrowserSession.Browser.CaptureFullscreenImage | lib/browser/index.js:271-287 | A screenshot failure passes through. Otherwise the result is the crop region for the stored calibration. |
| LaunchProperties.LaunchStopsAtFirstFailure | lib/browser/index.js:54-99 | Only appends to the request log. The requests run in strictly increasing stage order, and none but the last was refused. Launch fails exactly when the last request was refused, and it fails with `LaunchError` of that refusal. After a failure the locator is unchanged; after success it is the one the calibration selects. |
| LaunchProperties.SuccessfulLaunchSends | lib/browser/index.js:54-85 | A successful launch sends exactly this sequence: configure HTTP and init with the merged capabilities; the resize if a size is configured; the window handle and its maximize for `phantomjs`; the calibrator when needed; `navigator.userAgent`, the polyfill request for that user agent and the bundling for the final calibration. The session keeps the polyfill fetched for that user agent. |
| LaunchProperties.LocatorChosenLast | lib/browser/index.js:83-85 | From any stage on, a failure leaves the locator as it was, and success sets it from the final calibration. |
| LaunchProperties.MaximizeOnlyForPhantom | lib/browser/index.js:60-67 | A window-handle or maximize request is sent only for `phantomjs`. A successful launch of `phantomjs` has maximized the window handle it was given. |
| LaunchProperties.CalibratorOnlyWhenNeeded | lib/browser/index.js:68-76 | The calibrator is called only when `--noCalibrate` is unset and no calibration is stored, and a successful calibration is stored. A stored calibration is never replaced, and under `--noCalibrate` the calibration never changes. After a successful launch a calibration exists unless `--noCalibrate` is set. |
| LaunchProperties.CalibratedOnSuccess | lib/browser/index.js:68-76 | From any stage up to calibration, success implies that a calibration is stored or `--noCalibrate` is set. |
| LaunchProperties.RelaunchIsStable | lib/browser/index.js:68-76 | After a successful launch, launching the same session again never calls the calibrator. It keeps the calibration, and on success chooses the same locator. |
| LaunchProperties.BundleAgreesWithLocator | lib/browser/index.js:166-201 | After a successful launch, the bundle was requested with the sizzle query library exactly when the script locator was chosen. Coverage was excluded exactly when `config.coverage` is falsy, and the bridge holds polyfill + "\n" + that bundle. |
| LaunchProperties.NoWindowSizeNoResize | lib/browser/index.js:110-114 | With no window size configured, a launch sends no resize request. |
| LaunchProperties.OperaResizeIsSwallowed | lib/browser/index.js:116-125 | A launch whose resize is refused with OperaDriver's message ends exactly like one whose resize succeeded: same state and same result. |
| LaunchProperties.OtherResizeFailurePropagates | lib/browser/index.js:110-127 | When the session inits, a window size is configured and the resize is refused for any other reason, launch fails with `LaunchError` of that very refusal. |
| LaunchProperties.ConnectionRefusedIsDistinct | lib/browser/index.js:86-98 | A refused connection and any other cause never produce the same launch message. |
| CaptureTester.ChooseTempDir | lib/tester.js:20-21 | The temp dir is the given `tempDir` unless it is missing or empty, and the generated `gemini` path otherwise. |
| CaptureTester.TempPath | lib/tester.js:94-96 | The temporary file lies in the temp dir and ends in `.png`. |
| CaptureTester.EffectiveTolerance | lib/tester.js:35-40 | The state's tolerance is kept when it is truthy or exactly 0, and the configured tolerance is used otherwise. |
| CaptureTester.Render | lib/tester.js:74-83 | Invoking the lazy diff builds it into the given path from the captured reference, current path, tolerance, strictness and diff colour. |
| CaptureTester.Tester.constructor | lib/tester.js:18-22 | The tester's temp dir is `ChooseTempDir` of the option, with nothing requested and nothing emitted yet. |
| CaptureTester.Tester.Prepare | lib/tester.js:24-26 | Requests creation of the temp dir and settles as that request does. |
| CaptureTester.Tester.ProcessCapture | lib/tester.js:28-92 | The requests made, the records emitted and the result are exactly those of `Processing`. Its properties are the lemmas below. |
| CaptureTester.Tester.SaveDiffTo | lib/tester.js:74-83 | Invoking a record's diff makes exactly one build-diff request, `Render` of the record's diff request, and settles as it does. |
| CaptureTester.ReferenceFollowsIdentity | lib/tester.js:29-66 | Two captures with the same suite, state name and browser id, whatever their images, tolerances and caret flags, check the same reference first, compare against it, record it in their END_TEST records, and either both reject as missing or neither does. |
| CaptureTester.ToleranceResolution | lib/tester.js:35-40 | An explicit 0 is never replaced, `undefined` and `null` fall back to the configured tolerance, and resolving twice changes nothing. |
| CaptureTester.MissingReferenceRejects | lib/tester.js:42-55 | A missing reference rejects with `NoRefImageError(refPath, {suite, suiteName, suiteId, stateName, suitePath, browserId})`. No image is saved, no comparison runs and no record is emitted. |
| CaptureTester.ComparesSavedImage | lib/tester.js:56-65 | Every comparison is of the temporary file against the reference, with `{strictComparison, canHaveCaret, tolerance}` from the config, the capture and the effective tolerance. It comes after the image was saved to that file successfully. |
| CaptureTester.ComparedCaptureSucceeds | lib/tester.js:42-90 | With the reference present, a successful save and a comparison that answers, processing succeeds: it checks the reference, saves the image to the temporary file, compares, and emits exactly one END_TEST record for that verdict with its lazy diff. |
| CaptureTester.SaveFailureRejects | lib/tester.js:56-58 | A failed save rejects with the save's own error after the check and the save. No comparison runs and no record is emitted. |
| CaptureTester.CompareFailureRejects | lib/tester.js:59-66 | A comparison that fails rejects with its own error after the check, the save and the comparison. No record is emitted. |
| CaptureTester.OneEndTestOnSuccess | lib/tester.js:66-90 | Processing succeeds exactly when one END_TEST record is emitted. That record holds the reference path, the temporary path, the browser id, the comparison's verdict and the suite and state identity, deprecated copies included. |
| CaptureTester.DiffReusesComparisonInputs | lib/tester.js:74-83 | Processing itself never builds a diff. Invoking the record's diff later uses the comparison's reference, current path, tolerance and strictness plus the configured diff colour. |

## Left out

- Debug logging of the remote client's events and the console warnings on the Opera resize: output only.
- The WebDriver transport, `config.http`, `open`, `injectScript`, `evalScript`, `quit`, `reset`, `browserName`/`version` getters and `createActionSequence`: foreign network calls outside the launch and lookup logic.
- The work inside browserify, uglifyify, aliasify and the polyfill service: only the bundle configuration and the concatenation of the client script are modelled. The polyfill's feature list and minify flag are fixed constants of the request and are not represented.
- `ClientBridge` and `Image` internals are not part of this model. This covers pixel cropping, `compare`, `buildDiff`, `save` and base64 decoding. Only the crop geometry is modelled, and each of the others is an answer given as a parameter.
- The `temp` and `q-io/fs` layers and `temp.track()` cleanup. The random part of a temporary file name is a parameter.
- Promise mechanics: each asynchronous chain is modelled as sequential steps with the first rejection ending it. `findElement` before the locator is chosen throws synchronously in JS, and the model returns that error as a failure.
- `FindElement` models the error object as a value: attaching the selector yields a new error rather than mutating the one the client rejected with.
- BrowserSession.Browser.constructor: requires the browser id to be configured. With an unknown id the source stores `undefined` capabilities, and the session fails later with a TypeError that is not modelled.
- BrowserSession.CropRegion: offsets larger than the screenshot give a negative width or height, which is what the source computes. What the image library then does with it is not modelled.
- CaptureTester.TempPath: joins the temp dir and the name with a plain "/". The source's `temp.path` goes through `path.join`, which normalises the result: a trailing "/" or a leading "./" in the temp dir gives a different string for the same file. Path normalisation is not modelled, so the path in the comparison request and in the END_TEST record is the unnormalised one.
- BrowserSession.Browser.FindElement: with the script locator but no client bridge, the source throws a TypeError synchronously, and its message depends on the JavaScript engine. The model returns it as a failure with one fixed message, `BridgeMissing`.
- CaptureTester.Processing: the lazy diff it records captures the diff colour and the strictness when the comparison is processed, whereas the source reads them from the tester's configuration when the diff is invoked. The two agree because a tester's configuration never changes.
- CaptureTester.ChooseTempDir: only a string or missing `tempDir` option is modelled; a non-string truthy value would be used as-is by the source.
