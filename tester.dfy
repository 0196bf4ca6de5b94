/** The test runner's capture step (lib/tester.js): resolve the reference
    image and the tolerance, refuse a missing reference, save the current
    image to a temporary file, compare, and emit one END_TEST record whose
    diff is rendered only on demand.

    The file system and the image library are collaborators whose answers come
    from a `Disk` value; what the tester asks of them is appended to the ghost
    log `effects`, and the END_TEST records it emits to the runner's `events`. */
module CaptureTester {
  import opened Js

  type Path = string

  /** An encoded image, as `capture.image.save` writes it. */
  type Png = seq<bv8>

  datatype Suite = Suite(name: string, id: int, path: seq<string>)

  /** A test state; `tolerance` is whatever the suite set, `undefined` if nothing. */
  datatype State = State(name: string, tolerance: Value)

  datatype Capture = Capture(suite: Suite, state: State, browserId: string, image: Png, canHaveCaret: bool)

  /** The configuration the tester reads. `screenshotPath` is
      `config.getScreenshotPath(suite, stateName, browserId)`. */
  datatype Config = Config(
    screenshotPath: (Suite, string, string) -> Path,
    tolerance: Value,
    strictComparison: bool,
    diffColor: string)

  datatype CompareOptions = CompareOptions(strictComparison: bool, canHaveCaret: bool, tolerance: Value)

  /** `Image.compare(current, reference, options)`. */
  datatype CompareRequest = CompareRequest(current: Path, reference: Path, options: CompareOptions)

  /** The lazy `saveDiffTo` action of an END_TEST record: the inputs it
      captured at comparison time. Nothing is rendered until `Render`. The
      source reads the diff colour and the strictness from the configuration
      only when the action is invoked; taking them here is the same because a
      tester's configuration never changes (`Tester.config` is a `const`). */
  datatype DiffRequest = DiffRequest(
    reference: Path,
    current: Path,
    diffColor: string,
    tolerance: Value,
    strictComparison: bool)

  /** The options `Image.buildDiff` is called with. */
  datatype BuildDiffOptions = BuildDiffOptions(
    reference: Path,
    current: Path,
    diff: Path,
    diffColor: string,
    tolerance: Value,
    strictComparison: bool)

  /** The END_TEST record. The last four fields are deprecated copies of the
      suite and state identity. */
  datatype EndTest = EndTest(
    suite: Suite,
    state: State,
    referencePath: Path,
    currentPath: Path,
    browserId: string,
    equal: bool,
    saveDiffTo: DiffRequest,
    suiteName: string,
    suiteId: int,
    stateName: string,
    suitePath: seq<string>)

  datatype NoRefImageError = NoRefImageError(
    path: Path,
    suite: Suite,
    suiteName: string,
    suiteId: int,
    stateName: string,
    suitePath: seq<string>,
    browserId: string)

  datatype CaptureError = NoRefImage(missing: NoRefImageError) | Rejected(error: Error)

  /** What the tester asks of the file system and the image library. */
  datatype Effect =
    | MakeTree(dir: Path)
    | Exists(path: Path)
    | Save(path: Path, image: Png)
    | Compare(request: CompareRequest)
    | BuildDiff(options: BuildDiffOptions)

  /** The collaborators' answers: which files exist, whether saving to a path
      works, and what a comparison finds. */
  datatype Disk = Disk(
    present: Path -> bool,
    save: Path -> Outcome,
    compare: CompareRequest -> Result<bool, Error>)

  /** What processing one capture does: its effects, in order, the records it
      emits, and how its promise settles. */
  datatype Processed = Processed(effects: seq<Effect>, events: seq<EndTest>, result: Result<(), CaptureError>)

  // ---------------------------------------------------------------------------
  // Pure helpers

  /** `options.tempDir || temp.path('gemini')`: the given directory unless it
      is missing or empty, else the generated one. */
  function ChooseTempDir(given: Option<Path>, generated: Path): (dir: Path)
    ensures given.Some? && given.value != "" ==> dir == given.value
    ensures given.None? || given.value == "" ==> dir == generated
  {
    if given.Some? && given.value != "" then given.value else generated
  }

  /** `temp.path({dir: tempDir, suffix: '.png'})`; `name` is the random part. */
  function TempPath(tempDir: Path, name: string): (p: Path)
    ensures |p| == |tempDir| + |name| + 5
    ensures p[..|tempDir| + 1] == tempDir + "/" && p[|p| - 4..] == ".png"
  {
    tempDir + "/" + name + ".png"
  }

  function ReferencePath(config: Config, capture: Capture): Path
  {
    config.screenshotPath(capture.suite, capture.state.name, capture.browserId)
  }

  /** The tolerance a comparison uses: the state's own if it is truthy or
      exactly zero, otherwise the configured one. */
  function EffectiveTolerance(own: Value, configured: Value): (t: Value)
    ensures t == own || t == configured
    ensures own == Num(0.0) ==> t == own
    ensures Truthy(own) ==> t == own
    ensures !Truthy(own) && own != Num(0.0) ==> t == configured
  {
    if !Truthy(own) && own != Num(0.0) then configured else own
  }

  function MissingReference(refPath: Path, capture: Capture): NoRefImageError
  {
    NoRefImageError(refPath, capture.suite, capture.suite.name, capture.suite.id,
                    capture.state.name, capture.suite.path, capture.browserId)
  }

  /** Invoking the lazy diff with a destination: `Image.buildDiff` options. */
  function Render(request: DiffRequest, diffPath: Path): (o: BuildDiffOptions)
    ensures o.diff == diffPath
    ensures o.reference == request.reference && o.current == request.current
    ensures o.tolerance == request.tolerance && o.strictComparison == request.strictComparison
    ensures o.diffColor == request.diffColor
  {
    BuildDiffOptions(request.reference, request.current, diffPath,
                     request.diffColor, request.tolerance, request.strictComparison)
  }

  function EndTestFor(capture: Capture, refPath: Path, tmpPath: Path, equal: bool, diff: DiffRequest): EndTest
  {
    EndTest(capture.suite, capture.state, refPath, tmpPath, capture.browserId, equal, diff,
            capture.suite.name, capture.suite.id, capture.state.name, capture.suite.path)
  }

  /** `_processCapture`, as a function of the collaborators' answers. */
  function Processing(config: Config, tempDir: Path, capture: Capture, tmpName: string, disk: Disk): Processed
  {
    var refPath := ReferencePath(config, capture);
    var tmpPath := TempPath(tempDir, tmpName);
    var tolerance := EffectiveTolerance(capture.state.tolerance, config.tolerance);
    var checked := [Exists(refPath)];
    if !disk.present(refPath) then
      Processed(checked, [], Failure(NoRefImage(MissingReference(refPath, capture))))
    else
      var saved := checked + [Save(tmpPath, capture.image)];
      match disk.save(tmpPath)
      case Fail(e) => Processed(saved, [], Failure(Rejected(e)))
      case Ok =>
        var options := CompareOptions(config.strictComparison, capture.canHaveCaret, tolerance);
        var request := CompareRequest(tmpPath, refPath, options);
        var compared := saved + [Compare(request)];
        match disk.compare(request)
        case Failure(e) => Processed(compared, [], Failure(Rejected(e)))
        case Success(equal) =>
          var diff := DiffRequest(refPath, tmpPath, config.diffColor, tolerance, config.strictComparison);
          Processed(compared, [EndTestFor(capture, refPath, tmpPath, equal, diff)], Success(()))
  }

  // ---------------------------------------------------------------------------
  // The tester object

  class Tester {
    const config: Config
    const tempDir: Path
    /** The END_TEST records emitted to the runner, oldest first. */
    var events: seq<EndTest>
    /** Every request made to the file system and the image library. */
    ghost var effects: seq<Effect>

    /** `given` is `options.tempDir`; `generated` is what `temp.path('gemini')`
        returns. */
    constructor (config: Config, given: Option<Path>, generated: Path)
      ensures this.config == config && tempDir == ChooseTempDir(given, generated)
      ensures events == [] && effects == []
    {
      this.config := config;
      tempDir := ChooseTempDir(given, generated);
      events := [];
      effects := [];
    }

    /** `_prepare`: create the temporary directory; `made` is how
        `fs.makeTree` settles. */
    method Prepare(made: Outcome) returns (r: Outcome)
      modifies this`effects
      ensures effects == old(effects) + [MakeTree(tempDir)] && r == made
    {
      effects := effects + [MakeTree(tempDir)];
      r := made;
    }

    /** `_processCapture`; `tmpName` is the random part of the temporary file
        name. */
    method ProcessCapture(capture: Capture, tmpName: string, disk: Disk) returns (r: Result<(), CaptureError>)
      modifies this`effects, this`events
      ensures var p := Processing(config, tempDir, capture, tmpName, disk);
        effects == old(effects) + p.effects && events == old(events) + p.events && r == p.result
    {
      var refPath := ReferencePath(config, capture);
      var tmpPath := TempPath(tempDir, tmpName);
      var tolerance := EffectiveTolerance(capture.state.tolerance, config.tolerance);
      effects := effects + [Exists(refPath)];
      if !disk.present(refPath) {
        return Failure(NoRefImage(MissingReference(refPath, capture)));
      }
      effects := effects + [Save(tmpPath, capture.image)];
      var saved := disk.save(tmpPath);
      if saved.Fail? {
        return Failure(Rejected(saved.error));
      }
      var request := CompareRequest(tmpPath, refPath,
                                    CompareOptions(config.strictComparison, capture.canHaveCaret, tolerance));
      effects := effects + [Compare(request)];
      var compared := disk.compare(request);
      if compared.Failure? {
        return Failure(Rejected(compared.error));
      }
      var diff := DiffRequest(refPath, tmpPath, config.diffColor, tolerance, config.strictComparison);
      events := events + [EndTestFor(capture, refPath, tmpPath, compared.value, diff)];
      r := Success(());
    }

    /** Invoking an END_TEST record's `saveDiffTo(diffPath)`; `built` is how
        `Image.buildDiff` settles. */
    method SaveDiffTo(request: DiffRequest, diffPath: Path, built: Outcome) returns (r: Outcome)
      modifies this`effects
      ensures effects == old(effects) + [BuildDiff(Render(request, diffPath))] && r == built
    {
      effects := effects + [BuildDiff(Render(request, diffPath))];
      r := built;
    }
  }

  // ---------------------------------------------------------------------------
  // Properties

  /** Two captures of the same suite, state and browser check, compare
      against and report the same reference, whatever their images,
      tolerances or caret flags: both reject as missing or neither does. */
  lemma ReferenceFollowsIdentity(config: Config, tempDir: Path, a: Capture, b: Capture,
                                 tmpName: string, disk: Disk)
    requires a.suite == b.suite && a.state.name == b.state.name && a.browserId == b.browserId
    ensures var pa := Processing(config, tempDir, a, tmpName, disk);
      var pb := Processing(config, tempDir, b, tmpName, disk);
      var refPath := config.screenshotPath(a.suite, a.state.name, a.browserId);
      |pa.effects| > 0 && |pb.effects| > 0 &&
      pa.effects[0] == pb.effects[0] == Exists(refPath) &&
      (forall e :: e in pa.effects + pb.effects && e.Compare? ==> e.request.reference == refPath) &&
      (forall ev :: ev in pa.events + pb.events ==> ev.referencePath == refPath) &&
      ((pa.result.Failure? && pa.result.error.NoRefImage?) <==>
       (pb.result.Failure? && pb.result.error.NoRefImage?))
  {
  }

  /** An explicit zero tolerance is kept; an unset one falls back to the
      configured tolerance; resolving twice changes nothing. */
  lemma ToleranceResolution(own: Value, configured: Value)
    ensures EffectiveTolerance(Num(0.0), configured) == Num(0.0)
    ensures EffectiveTolerance(Undefined, configured) == configured
    ensures EffectiveTolerance(Null, configured) == configured
    ensures EffectiveTolerance(EffectiveTolerance(own, configured), configured) == EffectiveTolerance(own, configured)
  {
  }

  /** A missing reference rejects with `NoRefImageError` carrying the capture's
      identity, after checking existence only: nothing is saved, nothing is
      compared, nothing is emitted. */
  lemma MissingReferenceRejects(config: Config, tempDir: Path, capture: Capture, tmpName: string, disk: Disk)
    requires !disk.present(ReferencePath(config, capture))
    ensures var p := Processing(config, tempDir, capture, tmpName, disk);
      var refPath := ReferencePath(config, capture);
      p.result == Failure(NoRefImage(NoRefImageError(refPath, capture.suite, capture.suite.name,
                            capture.suite.id, capture.state.name, capture.suite.path, capture.browserId))) &&
      p.events == [] &&
      forall e :: e in p.effects ==> !e.Save? && !e.Compare?
  {
  }

  /** The comparison sees the saved temporary file, the reference and
      `{strictComparison, canHaveCaret, tolerance}`, and runs only after the
      image was saved there successfully. */
  lemma ComparesSavedImage(config: Config, tempDir: Path, capture: Capture, tmpName: string, disk: Disk)
    ensures var p := Processing(config, tempDir, capture, tmpName, disk);
      var tmpPath := TempPath(tempDir, tmpName);
      var tolerance := EffectiveTolerance(capture.state.tolerance, config.tolerance);
      forall j :: 0 <= j < |p.effects| && p.effects[j].Compare? ==>
        j == 2 && p.effects[1] == Save(tmpPath, capture.image) && disk.save(tmpPath).Ok? &&
        p.effects[j].request ==
          CompareRequest(tmpPath, ReferencePath(config, capture),
                         CompareOptions(config.strictComparison, capture.canHaveCaret, tolerance))
  {
  }

  /** With the reference present, a successful save and a comparison that
      answers, processing checks, saves and compares, in that order, then
      emits exactly one END_TEST record carrying the verdict and settles
      successfully. */
  lemma ComparedCaptureSucceeds(config: Config, tempDir: Path, capture: Capture, tmpName: string, disk: Disk)
    requires disk.present(ReferencePath(config, capture))
    requires disk.save(TempPath(tempDir, tmpName)).Ok?
    requires disk.compare(CompareRequest(TempPath(tempDir, tmpName), ReferencePath(config, capture),
                            CompareOptions(config.strictComparison, capture.canHaveCaret,
                                           EffectiveTolerance(capture.state.tolerance, config.tolerance)))).Success?
    ensures var p := Processing(config, tempDir, capture, tmpName, disk);
      var refPath := ReferencePath(config, capture);
      var tmpPath := TempPath(tempDir, tmpName);
      var tolerance := EffectiveTolerance(capture.state.tolerance, config.tolerance);
      var request := CompareRequest(tmpPath, refPath,
                                    CompareOptions(config.strictComparison, capture.canHaveCaret, tolerance));
      p.result == Success(()) &&
      p.effects == [Exists(refPath), Save(tmpPath, capture.image), Compare(request)] &&
      p.events == [EndTestFor(capture, refPath, tmpPath, disk.compare(request).value,
                              DiffRequest(refPath, tmpPath, config.diffColor, tolerance, config.strictComparison))]
  {
  }

  /** A failed save rejects with the save's own error: the comparison never
      runs and nothing is emitted. */
  lemma SaveFailureRejects(config: Config, tempDir: Path, capture: Capture, tmpName: string, disk: Disk)
    requires disk.present(ReferencePath(config, capture))
    requires disk.save(TempPath(tempDir, tmpName)).Fail?
    ensures var p := Processing(config, tempDir, capture, tmpName, disk);
      var tmpPath := TempPath(tempDir, tmpName);
      p.result == Failure(Rejected(disk.save(tmpPath).error)) &&
      p.effects == [Exists(ReferencePath(config, capture)), Save(tmpPath, capture.image)] &&
      p.events == []
  {
  }

  /** A comparison that fails rejects with its own error after the check, the
      save and the comparison, and nothing is emitted. */
  lemma CompareFailureRejects(config: Config, tempDir: Path, capture: Capture, tmpName: string, disk: Disk)
    requires disk.present(ReferencePath(config, capture))
    requires disk.save(TempPath(tempDir, tmpName)).Ok?
    requires disk.compare(CompareRequest(TempPath(tempDir, tmpName), ReferencePath(config, capture),
                            CompareOptions(config.strictComparison, capture.canHaveCaret,
                                           EffectiveTolerance(capture.state.tolerance, config.tolerance)))).Failure?
    ensures var p := Processing(config, tempDir, capture, tmpName, disk);
      var refPath := ReferencePath(config, capture);
      var tmpPath := TempPath(tempDir, tmpName);
      var request := CompareRequest(tmpPath, refPath,
                       CompareOptions(config.strictComparison, capture.canHaveCaret,
                                      EffectiveTolerance(capture.state.tolerance, config.tolerance)));
      p.result == Failure(Rejected(disk.compare(request).error)) &&
      p.effects == [Exists(refPath), Save(tmpPath, capture.image), Compare(request)] &&
      p.events == []
  {
  }

  /** Processing settles successfully exactly when one END_TEST record is
      emitted, and that record carries the reference and temporary paths, the
      browser id, the comparison's verdict and the suite and state identity. */
  lemma OneEndTestOnSuccess(config: Config, tempDir: Path, capture: Capture, tmpName: string, disk: Disk)
    ensures var p := Processing(config, tempDir, capture, tmpName, disk);
      (p.result.Success? <==> |p.events| == 1) &&
      (p.result.Success? ==>
         var e := p.events[0];
         var request := p.effects[|p.effects| - 1].request;
         p.effects[|p.effects| - 1].Compare? &&
         e.referencePath == ReferencePath(config, capture) &&
         e.currentPath == TempPath(tempDir, tmpName) &&
         e.browserId == capture.browserId &&
         e.equal == disk.compare(request).value &&
         e.suite == capture.suite && e.state == capture.state &&
         e.suiteName == capture.suite.name && e.suiteId == capture.suite.id &&
         e.stateName == capture.state.name && e.suitePath == capture.suite.path)
  {
  }

  /** Processing never renders a diff; rendering the record's diff later uses
      exactly the paths, tolerance and strictness of the comparison, plus the
      configured diff colour. */
  lemma DiffReusesComparisonInputs(config: Config, tempDir: Path, capture: Capture, tmpName: string,
                                   disk: Disk, diffPath: Path)
    ensures var p := Processing(config, tempDir, capture, tmpName, disk);
      (forall e :: e in p.effects ==> !e.BuildDiff?) &&
      (p.result.Success? ==>
         var request := p.effects[|p.effects| - 1].request;
         var o := Render(p.events[0].saveDiffTo, diffPath);
         o.diff == diffPath &&
         o.reference == request.reference && o.current == request.current &&
         o.tolerance == request.options.tolerance &&
         o.strictComparison == request.options.strictComparison &&
         o.diffColor == config.diffColor)
  {
  }
}
