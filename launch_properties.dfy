/** What `launch` (lib/browser/index.js:54-99) guarantees, stated over the
    stage functions of `BrowserSession` and the log of requests they issue. */
module LaunchProperties {
  import opened Js
  import opened BrowserSession

  /** The position of each kind of request in the launch order. */
  function Rank(c: Call): nat
  {
    match c
    case ConfigureHttp => 0
    case Init(_) => 1
    case SetWindowSize(_, _) => 2
    case WindowHandle => 3
    case MaximizeWindow(_) => 4
    case RunCalibrator => 5
    case Eval(_) => 6
    case GetPolyfillString(_) => 7
    case BundleScripts(_) => 8
  }

  /** The error with which the answer to `c` stops the launch, if it does. A
      refused resize with OperaDriver's payload does not stop it. */
  function StopError(env: Env, c: Call): Option<Error>
  {
    match c
    case ConfigureHttp => if env.configureHttp.Fail? then Some(env.configureHttp.error) else None
    case Init(_) => if env.init.Fail? then Some(env.init.error) else None
    case SetWindowSize(_, _) =>
      if env.setWindowSize.Fail? && !IsOperaNotSupported(env.setWindowSize.error)
      then Some(env.setWindowSize.error) else None
    case WindowHandle => if env.windowHandle.Failure? then Some(env.windowHandle.error) else None
    case MaximizeWindow(_) => if env.maximize.Fail? then Some(env.maximize.error) else None
    case RunCalibrator => if env.calibrate.Failure? then Some(env.calibrate.error) else None
    case Eval(_) => if env.userAgent.Failure? then Some(env.userAgent.error) else None
    case GetPolyfillString(ua) =>
      var p := env.polyfill(ua);
      if p.Failure? then Some(p.error) else None
    case BundleScripts(cfg) =>
      var b := env.bundle(cfg);
      if b.Failure? then Some(b.error) else None
  }

  predicate IsPrefix(s: Session, s': Session)
  {
    |s.calls| <= |s'.calls| && s'.calls[..|s.calls|] == s.calls
  }

  /** The requests issued going from `s` to `s'`. */
  function Issued(s: Session, s': Session): seq<Call>
    requires IsPrefix(s, s')
  {
    s'.calls[|s.calls|..]
  }

  predicate Ordered(t: seq<Call>)
  {
    forall i, j :: 0 <= i < j < |t| ==> Rank(t[i]) < Rank(t[j])
  }

  /** The requests `t` have ranks in [lo, hi), in strictly increasing order;
      none but the last was refused, and the last was refused exactly when
      `failure` is set, with that error. */
  predicate Grows(env: Env, t: seq<Call>, failure: Option<Error>, lo: nat, hi: nat)
  {
    Ordered(t) &&
    (forall i :: 0 <= i < |t| ==> lo <= Rank(t[i]) < hi) &&
    (forall i :: 0 <= i < |t| && StopError(env, t[i]).Some? ==> i == |t| - 1 && failure.Some?) &&
    (failure.Some? ==> |t| > 0 && StopError(env, t[|t| - 1]) == failure)
  }

  predicate Extends(env: Env, s: Session, r: Run, lo: nat, hi: nat)
  {
    IsPrefix(s, r.session) && Grows(env, Issued(s, r.session), r.failure, lo, hi)
  }

  lemma {:induction false} GrowsJoin(env: Env, a: seq<Call>, b: seq<Call>, failure: Option<Error>,
                                     lo: nat, mid: nat, hi: nat)
    requires lo <= mid <= hi
    requires Grows(env, a, None, lo, mid) && Grows(env, b, failure, mid, hi)
    ensures Grows(env, a + b, failure, lo, hi)
  {
    var t := a + b;
    forall i, j | 0 <= i < j < |t| ensures Rank(t[i]) < Rank(t[j]) {
      if j < |a| {
        assert t[i] == a[i] && t[j] == a[j];
      } else if i < |a| {
        assert t[i] == a[i] && t[j] == b[j - |a|];
      } else {
        assert t[i] == b[i - |a|] && t[j] == b[j - |a|];
      }
    }
    forall i | 0 <= i < |t| ensures lo <= Rank(t[i]) < hi {
      if i < |a| { assert t[i] == a[i]; } else { assert t[i] == b[i - |a|]; }
    }
    forall i | 0 <= i < |t| && StopError(env, t[i]).Some? ensures i == |t| - 1 && failure.Some? {
      if i >= |a| {
        assert t[i] == b[i - |a|];
      }
    }
    if failure.Some? {
      assert t[|t| - 1] == b[|b| - 1];
    }
  }

  lemma {:induction false} ExtendsJoin(env: Env, s1: Session, r2: Run, r3: Run, lo: nat, mid: nat, hi: nat)
    requires lo <= mid <= hi
    requires Extends(env, s1, r2, lo, mid) && r2.failure.None?
    requires Extends(env, r2.session, r3, mid, hi)
    ensures Extends(env, s1, r3, lo, hi)
    ensures Issued(s1, r3.session) == Issued(s1, r2.session) + Issued(r2.session, r3.session)
  {
    var a, b := Issued(s1, r2.session), Issued(r2.session, r3.session);
    assert r2.session.calls == s1.calls + a;
    assert r3.session.calls == r2.session.calls + b;
    assert r3.session.calls == s1.calls + (a + b);
    assert IsPrefix(s1, r3.session);
    assert Issued(s1, r3.session) == a + b;
    GrowsJoin(env, a, b, r3.failure, lo, mid, hi);
  }

  lemma GrowsOne(env: Env, c: Call, failure: Option<Error>, lo: nat, hi: nat)
    requires lo <= Rank(c) < hi && StopError(env, c) == failure
    ensures Grows(env, [c], failure, lo, hi)
  {
  }

  lemma GrowsTwo(env: Env, c: Call, d: Call, failure: Option<Error>, lo: nat, hi: nat)
    requires lo <= Rank(c) < Rank(d) < hi
    requires StopError(env, c).None? && StopError(env, d) == failure
    ensures Grows(env, [c, d], failure, lo, hi)
  {
  }

  /** Where each stage's requests lie in the rank order. */
  function Lo(k: nat): nat
    requires k <= StageCount
  {
    if k == 0 then 0 else if k == 1 then 2 else if k == 2 then 3
    else if k == 3 then 5 else if k == 4 then 6 else if k == 5 then 8 else 9
  }

  /** `s'` is `s` with the requests `t` appended. */
  lemma AppendedIssued(s: Session, s': Session, t: seq<Call>)
    requires s'.calls == s.calls + t
    ensures IsPrefix(s, s') && Issued(s, s') == t
  {
    assert s'.calls[..|s.calls|] == s.calls;
  }

  lemma InitSessionExtends(b: Setup, s: Session, env: Env)
    ensures Extends(env, s, InitSessionStep(b, s, env), 0, 2)
  {
    var r := InitSessionStep(b, s, env);
    if env.configureHttp.Fail? {
      AppendedIssued(s, r.session, [ConfigureHttp]);
      GrowsOne(env, ConfigureHttp, r.failure, 0, 2);
    } else {
      AppendedIssued(s, r.session, [ConfigureHttp, Init(Capabilities(b))]);
      GrowsTwo(env, ConfigureHttp, Init(Capabilities(b)), r.failure, 0, 2);
    }
  }

  lemma SetDefaultSizeExtends(b: Setup, s: Session, env: Env)
    ensures Extends(env, s, SetDefaultSizeStep(b, s, env), 2, 3)
  {
    var r := SetDefaultSizeStep(b, s, env);
    match b.config.windowSize
    case None => AppendedIssued(s, r.session, []);
    case Some(size) =>
      AppendedIssued(s, r.session, [SetWindowSize(size.width, size.height)]);
      GrowsOne(env, SetWindowSize(size.width, size.height), r.failure, 2, 3);
  }

  lemma MaximizeExtends(b: Setup, s: Session, env: Env)
    ensures Extends(env, s, MaximizeStep(b, s, env), 3, 5)
  {
    var r := MaximizeStep(b, s, env);
    if !ShouldMaximize(b.caps) {
      AppendedIssued(s, r.session, []);
    } else if env.windowHandle.Failure? {
      AppendedIssued(s, r.session, [WindowHandle]);
      GrowsOne(env, WindowHandle, r.failure, 3, 5);
    } else {
      var h := env.windowHandle.value;
      AppendedIssued(s, r.session, [WindowHandle, MaximizeWindow(h)]);
      GrowsTwo(env, WindowHandle, MaximizeWindow(h), r.failure, 3, 5);
    }
  }

  lemma CalibrateExtends(b: Setup, s: Session, env: Env)
    ensures Extends(env, s, CalibrateStep(b, s, env), 5, 6)
  {
    var r := CalibrateStep(b, s, env);
    if NoCalibrate(b.caps) || s.calibration.Some? {
      AppendedIssued(s, r.session, []);
    } else {
      AppendedIssued(s, r.session, [RunCalibrator]);
      GrowsOne(env, RunCalibrator, r.failure, 5, 6);
    }
  }

  lemma BuildPolyfillsExtends(s: Session, env: Env)
    ensures Extends(env, s, BuildPolyfillsStep(s, env), 6, 8)
  {
    var r := BuildPolyfillsStep(s, env);
    match env.userAgent
    case Failure(e) =>
      AppendedIssued(s, r.session, [Eval(UserAgentExpr)]);
      GrowsOne(env, Eval(UserAgentExpr), r.failure, 6, 8);
    case Success(ua) =>
      AppendedIssued(s, r.session, [Eval(UserAgentExpr), GetPolyfillString(ua)]);
      GrowsTwo(env, Eval(UserAgentExpr), GetPolyfillString(ua), r.failure, 6, 8);
  }

  lemma BuildScriptsExtends(b: Setup, s: Session, env: Env)
    ensures Extends(env, s, BuildScriptsStep(b, s, env), 8, 9)
  {
    var r := BuildScriptsStep(b, s, env);
    var cfg := BundleFor(b.config, s.calibration);
    AppendedIssued(s, r.session, [BundleScripts(cfg)]);
    GrowsOne(env, BundleScripts(cfg), r.failure, 8, 9);
  }

  lemma StageExtends(k: nat, b: Setup, s: Session, env: Env)
    requires k < StageCount
    ensures Extends(env, s, RunStage(k, b, s, env), Lo(k), Lo(k + 1))
  {
    if k == 0 {
      InitSessionExtends(b, s, env);
    } else if k == 1 {
      SetDefaultSizeExtends(b, s, env);
    } else if k == 2 {
      MaximizeExtends(b, s, env);
    } else if k == 3 {
      CalibrateExtends(b, s, env);
    } else if k == 4 {
      BuildPolyfillsExtends(s, env);
    } else {
      BuildScriptsExtends(b, s, env);
    }
  }

  /** Stages `k` onwards issue their requests in stage order and stop at the
      first refused one. */
  lemma {:induction false} RunFromExtends(k: nat, b: Setup, s: Session, env: Env)
    requires k <= StageCount
    ensures Extends(env, s, RunFrom(k, b, s, env), Lo(k), Lo(StageCount))
    decreases StageCount - k, 1
  {
    if k == StageCount {
      assert Issued(s, RunFrom(k, b, s, env).session) == [];
    } else {
      StageExtends(k, b, s, env);
      if RunStage(k, b, s, env).failure.None? {
        ExtendsAfterStage(k, b, s, env);
      }
    }
  }

  lemma {:induction false} ExtendsAfterStage(k: nat, b: Setup, s: Session, env: Env)
    requires k < StageCount && RunStage(k, b, s, env).failure.None?
    ensures Extends(env, s, RunFrom(k, b, s, env), Lo(k), Lo(StageCount))
    decreases StageCount - k, 0
  {
    var r := RunStage(k, b, s, env);
    StageExtends(k, b, s, env);
    RunFromExtends(k + 1, b, r.session, env);
    ExtendsJoin(env, s, r, RunFrom(k + 1, b, r.session, env), Lo(k), Lo(k + 1), Lo(StageCount));
  }

  /** The requests of stages `k` onwards are those of stage `k` followed, if
      it succeeded, by those of the later stages. */
  lemma {:induction false} IssuedSplit(k: nat, b: Setup, s: Session, env: Env)
    requires k < StageCount
    ensures var r := RunStage(k, b, s, env);
      var all := RunFrom(k, b, s, env);
      IsPrefix(s, r.session) && IsPrefix(s, all.session) &&
      (r.failure.Some? ==> all == r) &&
      (r.failure.None? ==>
         all == RunFrom(k + 1, b, r.session, env) && IsPrefix(r.session, all.session) &&
         Issued(s, all.session) == Issued(s, r.session) + Issued(r.session, all.session))
  {
    var r := RunStage(k, b, s, env);
    StageExtends(k, b, s, env);
    RunFromExtends(k, b, s, env);
    if r.failure.None? {
      RunFromExtends(k + 1, b, r.session, env);
      ExtendsJoin(env, s, r, RunFrom(k + 1, b, r.session, env), Lo(k), Lo(k + 1), Lo(StageCount));
    }
  }

  /** A request of rank `Rank(c)` can only come from the stage whose band
      holds that rank. */
  lemma StageOfRank(k: nat, b: Setup, s: Session, env: Env, c: Call)
    requires k < StageCount
    requires IsPrefix(s, RunStage(k, b, s, env).session)
    requires c in Issued(s, RunStage(k, b, s, env).session)
    ensures Lo(k) <= Rank(c) < Lo(k + 1)
  {
    StageExtends(k, b, s, env);
  }

  // ---------------------------------------------------------------------------
  // Stages that issue nothing

  /** No request in `t` has a rank in [lo, hi). */
  predicate NoneInBand(t: seq<Call>, lo: nat, hi: nat)
  {
    forall c :: c in t ==> !(lo <= Rank(c) < hi)
  }

  lemma NoneInBandJoin(a: seq<Call>, b: seq<Call>, lo: nat, hi: nat)
    requires NoneInBand(a, lo, hi) && NoneInBand(b, lo, hi)
    ensures NoneInBand(a + b, lo, hi)
  {
  }

  /** Stage `j` sends nothing whatever the state: the resize stage when no
      window size is configured, the maximize stage for a browser other than
      PhantomJS. */
  predicate Silent(j: nat, b: Setup)
  {
    (j == 1 && b.config.windowSize.None?) || (j == 2 && !ShouldMaximize(b.caps))
  }

  lemma StageSilent(j: nat, k: nat, b: Setup, s: Session, env: Env)
    requires k < StageCount && Silent(j, b)
    ensures var r := RunStage(k, b, s, env);
      IsPrefix(s, r.session) && NoneInBand(Issued(s, r.session), Lo(j), Lo(j + 1))
  {
    var r := RunStage(k, b, s, env);
    StageExtends(k, b, s, env);
    if k == j {
      AppendedIssued(s, r.session, []);
    } else {
      forall c | c in Issued(s, r.session) ensures !(Lo(j) <= Rank(c) < Lo(j + 1)) {
        StageOfRank(k, b, s, env, c);
      }
    }
  }

  /** A silent stage's requests appear nowhere in a launch. */
  lemma {:induction false} SilentThroughout(j: nat, k: nat, b: Setup, s: Session, env: Env)
    requires k <= StageCount && Silent(j, b)
    ensures var r := RunFrom(k, b, s, env);
      IsPrefix(s, r.session) && NoneInBand(Issued(s, r.session), Lo(j), Lo(j + 1))
    decreases StageCount - k, 1
  {
    if k == StageCount {
      assert Issued(s, RunFrom(k, b, s, env).session) == [];
    } else {
      IssuedSplit(k, b, s, env);
      StageSilent(j, k, b, s, env);
      if RunStage(k, b, s, env).failure.None? {
        SilentAfterStage(j, k, b, s, env);
      }
    }
  }

  lemma {:induction false} SilentAfterStage(j: nat, k: nat, b: Setup, s: Session, env: Env)
    requires k < StageCount && Silent(j, b) && RunStage(k, b, s, env).failure.None?
    ensures var r := RunFrom(k, b, s, env);
      IsPrefix(s, r.session) && NoneInBand(Issued(s, r.session), Lo(j), Lo(j + 1))
    decreases StageCount - k, 0
  {
    var r := RunStage(k, b, s, env);
    var rest := RunFrom(k + 1, b, r.session, env);
    IssuedSplit(k, b, s, env);
    StageSilent(j, k, b, s, env);
    SilentThroughout(j, k + 1, b, r.session, env);
    NoneInBandJoin(Issued(s, r.session), Issued(r.session, rest.session), Lo(j), Lo(j + 1));
  }

  // ---------------------------------------------------------------------------
  // Locator

  lemma {:induction false} LocatorChosenLast(k: nat, b: Setup, s: Session, env: Env)
    requires k <= StageCount
    ensures var r := RunFrom(k, b, s, env);
      (r.failure.Some? ==> r.session.locatorMode == s.locatorMode) &&
      (r.failure.None? ==> r.session.locatorMode == ModeFor(r.session.calibration))
    decreases StageCount - k
  {
    if k < StageCount {
      var r := RunStage(k, b, s, env);
      if r.failure.None? {
        LocatorChosenLast(k + 1, b, r.session, env);
      }
    }
  }

  /** Launch sends its requests strictly in stage order (HTTP setup, init,
      resize, window handle, maximize, calibrator, user agent, polyfills,
      bundle), each at most once, and only appends to the log. A failure at
      any request stops everything after it: the failing request is the last
      one sent, no request before it failed, the locator stays as it was, and
      the rejection is `LaunchError` of that request's error. On success no
      request failed and the locator is chosen from the calibration. */
  lemma {:induction false} LaunchStopsAtFirstFailure(b: Setup, s: Session, env: Env)
    ensures var l := Launching(b, s, env);
      IsPrefix(s, l.session) &&
      var t := Issued(s, l.session);
      Ordered(t) &&
      (forall i :: 0 <= i < |t| - 1 ==> StopError(env, t[i]).None?) &&
      (l.result.Failure? <==> |t| > 0 && StopError(env, t[|t| - 1]).Some?) &&
      (l.result.Failure? ==>
         |t| > 0 && StopError(env, t[|t| - 1]).Some? &&
         l.result.error == LaunchError(b, StopError(env, t[|t| - 1]).value) &&
         l.session.locatorMode == s.locatorMode) &&
      (l.result.Success? ==> l.session.locatorMode == ModeFor(l.session.calibration))
  {
    RunFromExtends(0, b, s, env);
    LocatorChosenLast(0, b, s, env);
  }

  // ---------------------------------------------------------------------------
  // Maximize

  lemma {:induction false} PhantomIsMaximized(k: nat, b: Setup, s: Session, env: Env)
    requires k <= 2
    ensures var r := RunFrom(k, b, s, env);
      IsPrefix(s, r.session) &&
      (r.failure.None? && ShouldMaximize(b.caps) ==> MaximizeWindow(env.windowHandle.value) in Issued(s, r.session))
    decreases StageCount - k
  {
    var r := RunStage(k, b, s, env);
    IssuedSplit(k, b, s, env);
    if r.failure.None? && k < 2 {
      PhantomIsMaximized(k + 1, b, r.session, env);
    } else if r.failure.None? && ShouldMaximize(b.caps) {
      AppendedIssued(s, r.session, [WindowHandle, MaximizeWindow(env.windowHandle.value)]);
    }
  }

  /** Maximizing happens only for PhantomJS, and a successful launch of
      PhantomJS always maximizes. */
  lemma {:induction false} MaximizeOnlyForPhantom(b: Setup, s: Session, env: Env)
    ensures var l := Launching(b, s, env);
      IsPrefix(s, l.session) &&
      var t := Issued(s, l.session);
      ((WindowHandle in t || exists h :: MaximizeWindow(h) in t) ==> ShouldMaximize(b.caps)) &&
      (l.result.Success? && ShouldMaximize(b.caps) ==> MaximizeWindow(env.windowHandle.value) in t)
  {
    var l := Launching(b, s, env);
    if !ShouldMaximize(b.caps) {
      SilentThroughout(2, 0, b, s, env);
      var t := Issued(s, l.session);
      assert WindowHandle !in t;
      forall h ensures MaximizeWindow(h) !in t {
        assert Rank(MaximizeWindow(h)) == 4;
      }
    }
    PhantomIsMaximized(0, b, s, env);
  }

  // ---------------------------------------------------------------------------
  // Calibration

  lemma {:induction false} CalibrationKept(k: nat, b: Setup, s: Session, env: Env)
    requires k <= StageCount
    requires k > 3 || s.calibration.Some? || NoCalibrate(b.caps)
    ensures RunFrom(k, b, s, env).session.calibration == s.calibration
    decreases StageCount - k
  {
    if k < StageCount {
      var r := RunStage(k, b, s, env);
      if r.failure.None? {
        CalibrationKept(k + 1, b, r.session, env);
      }
    }
  }

  predicate Calibrates(t: seq<Call>)
  {
    RunCalibrator in t
  }

  /** Only the calibration stage calls the calibrator or changes the stored
      calibration. */
  lemma StageCalibration(k: nat, b: Setup, s: Session, env: Env)
    requires k < StageCount
    ensures var r := RunStage(k, b, s, env);
      IsPrefix(s, r.session) &&
      (k != 3 ==> r.session.calibration == s.calibration && !Calibrates(Issued(s, r.session))) &&
      (k == 3 && Calibrates(Issued(s, r.session)) ==>
         !NoCalibrate(b.caps) && s.calibration.None? &&
         (env.calibrate.Success? ==> r.session.calibration == Some(env.calibrate.value)))
  {
    var r := RunStage(k, b, s, env);
    StageExtends(k, b, s, env);
    if k == 3 {
      if NoCalibrate(b.caps) || s.calibration.Some? {
        AppendedIssued(s, r.session, []);
      }
    } else if Calibrates(Issued(s, r.session)) {
      StageOfRank(k, b, s, env, RunCalibrator);
    }
  }

  lemma {:induction false} CalibratorCalledWhenNeeded(k: nat, b: Setup, s: Session, env: Env)
    requires k <= StageCount
    ensures var r := RunFrom(k, b, s, env);
      IsPrefix(s, r.session) &&
      (Calibrates(Issued(s, r.session)) ==> k <= 3 && !NoCalibrate(b.caps) && s.calibration.None?)
    decreases StageCount - k, 2
  {
    if k == StageCount {
      assert Issued(s, RunFrom(k, b, s, env).session) == [];
    } else {
      CalibratorFromStage(k, b, s, env);
    }
  }

  lemma {:induction false} CalibratorFromStage(k: nat, b: Setup, s: Session, env: Env)
    requires k < StageCount
    ensures var r := RunFrom(k, b, s, env);
      IsPrefix(s, r.session) &&
      (Calibrates(Issued(s, r.session)) ==> k <= 3 && !NoCalibrate(b.caps) && s.calibration.None?)
    decreases StageCount - k, 1
  {
    IssuedSplit(k, b, s, env);
    StageCalibration(k, b, s, env);
    if RunStage(k, b, s, env).failure.None? {
      CalibratorAfterStage(k, b, s, env);
    }
  }

  lemma {:induction false} CalibratorAfterStage(k: nat, b: Setup, s: Session, env: Env)
    requires k < StageCount && RunStage(k, b, s, env).failure.None?
    ensures var r := RunFrom(k, b, s, env);
      IsPrefix(s, r.session) &&
      (Calibrates(Issued(s, r.session)) ==> k <= 3 && !NoCalibrate(b.caps) && s.calibration.None?)
    decreases StageCount - k, 0
  {
    var r := RunStage(k, b, s, env);
    var rest := RunFrom(k + 1, b, r.session, env);
    IssuedSplit(k, b, s, env);
    StageCalibration(k, b, s, env);
    CalibratorCalledWhenNeeded(k + 1, b, r.session, env);
    CalibratorChain(k, NoCalibrate(b.caps), s.calibration, r.session.calibration,
                    Issued(s, r.session), Issued(r.session, rest.session));
  }

  /** Joins what the calibration facts of one stage and of the later stages
      say about the requests they issue together. */
  lemma CalibratorChain(k: nat, noCalibrate: bool, before: Option<Calibration>, after: Option<Calibration>,
                        first: seq<Call>, later: seq<Call>)
    requires k != 3 ==> after == before && !Calibrates(first)
    requires k == 3 && Calibrates(first) ==> !noCalibrate && before.None?
    requires Calibrates(later) ==> k + 1 <= 3 && !noCalibrate && after.None?
    ensures Calibrates(first + later) ==> k <= 3 && !noCalibrate && before.None?
  {
    CalibratesJoin(first, later);
  }

  lemma CalibratesJoin(a: seq<Call>, b: seq<Call>)
    ensures Calibrates(a + b) <==> Calibrates(a) || Calibrates(b)
  {
  }

  lemma {:induction false} CalibrationStored(k: nat, b: Setup, s: Session, env: Env)
    requires k <= StageCount
    ensures var r := RunFrom(k, b, s, env);
      IsPrefix(s, r.session) &&
      (Calibrates(Issued(s, r.session)) && env.calibrate.Success? ==>
         r.session.calibration == Some(env.calibrate.value))
    decreases StageCount - k, 2
  {
    if k == StageCount {
      assert Issued(s, RunFrom(k, b, s, env).session) == [];
    } else {
      IssuedSplit(k, b, s, env);
      StageCalibration(k, b, s, env);
      if RunStage(k, b, s, env).failure.None? {
        CalibrationStoredAfterStage(k, b, s, env);
      }
    }
  }

  lemma {:induction false} CalibrationStoredAfterStage(k: nat, b: Setup, s: Session, env: Env)
    requires k < StageCount && RunStage(k, b, s, env).failure.None?
    ensures var r := RunFrom(k, b, s, env);
      IsPrefix(s, r.session) &&
      (Calibrates(Issued(s, r.session)) && env.calibrate.Success? ==>
         r.session.calibration == Some(env.calibrate.value))
    decreases StageCount - k, 1
  {
    var r := RunStage(k, b, s, env);
    var rest := RunFrom(k + 1, b, r.session, env);
    IssuedSplit(k, b, s, env);
    StageCalibration(k, b, s, env);
    CalibrationStored(k + 1, b, r.session, env);
    if k == 3 {
      CalibrationKept(k + 1, b, r.session, env);
    }
    CalibratesJoin(Issued(s, r.session), Issued(r.session, rest.session));
  }

  lemma {:induction false} CalibratedOnSuccess(k: nat, b: Setup, s: Session, env: Env)
    requires k <= 3
    ensures var r := RunFrom(k, b, s, env);
      r.failure.None? ==> r.session.calibration.Some? || NoCalibrate(b.caps)
    decreases StageCount - k
  {
    var r := RunStage(k, b, s, env);
    if r.failure.None? {
      if k < 3 {
        CalibratedOnSuccess(k + 1, b, r.session, env);
      } else if r.session.calibration.Some? {
        CalibrationKept(k + 1, b, r.session, env);
      }
    }
  }

  /** The calibrator runs only when `--noCalibrate` is unset and nothing is
      stored yet; what it returns is stored; a stored calibration is never
      replaced, nor is the calibration changed under `--noCalibrate`; and a
      successful launch leaves a calibration unless `--noCalibrate` is set. */
  lemma {:induction false} CalibratorOnlyWhenNeeded(b: Setup, s: Session, env: Env)
    ensures var l := Launching(b, s, env);
      IsPrefix(s, l.session) &&
      var t := Issued(s, l.session);
      (RunCalibrator in t ==> !NoCalibrate(b.caps) && s.calibration.None?) &&
      (RunCalibrator in t && env.calibrate.Success? ==> l.session.calibration == Some(env.calibrate.value)) &&
      (s.calibration.Some? || NoCalibrate(b.caps) ==> l.session.calibration == s.calibration) &&
      (l.result.Success? ==> l.session.calibration.Some? || NoCalibrate(b.caps))
  {
    CalibratorCalledWhenNeeded(0, b, s, env);
    CalibrationStored(0, b, s, env);
    CalibratedOnSuccess(0, b, s, env);
    if s.calibration.Some? || NoCalibrate(b.caps) {
      CalibrationKept(0, b, s, env);
    }
  }

  /** Launching again after a successful launch never calibrates again,
      keeps the calibration, and, if it succeeds, picks the same locator. */
  lemma {:induction false} RelaunchIsStable(b: Setup, s: Session, env1: Env, env2: Env)
    ensures var l1 := Launching(b, s, env1);
      var l2 := Launching(b, l1.session, env2);
      l1.result.Success? ==>
        IsPrefix(l1.session, l2.session) &&
        RunCalibrator !in Issued(l1.session, l2.session) &&
        l2.session.calibration == l1.session.calibration &&
        (l2.result.Success? ==> l2.session.locatorMode == l1.session.locatorMode)
  {
    var l1 := Launching(b, s, env1);
    if l1.result.Success? {
      CalibratorOnlyWhenNeeded(b, s, env1);
      CalibratorOnlyWhenNeeded(b, l1.session, env2);
      LocatorChosenLast(0, b, s, env1);
      LocatorChosenLast(0, b, l1.session, env2);
    }
  }

  // ---------------------------------------------------------------------------
  // Bundle and locator

  lemma {:induction false} BundleBuiltFromFinalState(k: nat, b: Setup, s: Session, env: Env)
    requires k < StageCount
    ensures var r := RunFrom(k, b, s, env);
      var cfg := BundleFor(b.config, r.session.calibration);
      IsPrefix(s, r.session) &&
      (r.failure.None? ==>
         BundleScripts(cfg) in Issued(s, r.session) && env.bundle(cfg).Success? &&
         r.session.bridge == Some(ClientScript(r.session.polyfill, env.bundle(cfg).value)))
    decreases StageCount - k, 1
  {
    IssuedSplit(k, b, s, env);
    if RunStage(k, b, s, env).failure.None? {
      if k == StageCount - 1 {
        BundleBuiltLast(b, s, env);
      } else {
        BundleBuiltAfterStage(k, b, s, env);
      }
    }
  }

  lemma BundleBuiltLast(b: Setup, s: Session, env: Env)
    requires RunStage(StageCount - 1, b, s, env).failure.None?
    ensures var r := RunFrom(StageCount - 1, b, s, env);
      var cfg := BundleFor(b.config, r.session.calibration);
      IsPrefix(s, r.session) &&
      BundleScripts(cfg) in Issued(s, r.session) && env.bundle(cfg).Success? &&
      r.session.bridge == Some(ClientScript(r.session.polyfill, env.bundle(cfg).value))
  {
    var r := RunStage(StageCount - 1, b, s, env);
    IssuedSplit(StageCount - 1, b, s, env);
    AppendedIssued(s, r.session, [BundleScripts(BundleFor(b.config, s.calibration))]);
    AppendedIssued(r.session, RunFrom(StageCount, b, r.session, env).session, []);
  }

  lemma {:induction false} BundleBuiltAfterStage(k: nat, b: Setup, s: Session, env: Env)
    requires k < StageCount - 1 && RunStage(k, b, s, env).failure.None?
    ensures var r := RunFrom(k, b, s, env);
      var cfg := BundleFor(b.config, r.session.calibration);
      IsPrefix(s, r.session) &&
      (r.failure.None? ==>
         BundleScripts(cfg) in Issued(s, r.session) && env.bundle(cfg).Success? &&
         r.session.bridge == Some(ClientScript(r.session.polyfill, env.bundle(cfg).value)))
    decreases StageCount - k, 0
  {
    var r := RunStage(k, b, s, env);
    var rest := RunFrom(k + 1, b, r.session, env);
    IssuedSplit(k, b, s, env);
    BundleBuiltFromFinalState(k + 1, b, r.session, env);
    InJoin(Issued(s, r.session), Issued(r.session, rest.session),
           BundleScripts(BundleFor(b.config, rest.session.calibration)));
  }

  lemma InJoin(a: seq<Call>, b: seq<Call>, c: Call)
    ensures c in a + b <==> c in a || c in b
  {
  }

  /** On success the bundle was built with the query library that matches the
      chosen locator (sizzle exactly when the script locator is chosen), with
      the coverage module excluded unless coverage is on, and the client
      bridge holds the polyfill, a newline and that bundle. */
  lemma {:induction false} BundleAgreesWithLocator(b: Setup, s: Session, env: Env)
    ensures var l := Launching(b, s, env);
      var cfg := BundleFor(b.config, l.session.calibration);
      l.result.Success? ==>
        IsPrefix(s, l.session) &&
        BundleScripts(cfg) in Issued(s, l.session) &&
        (cfg.queryLib == QuerySizzle <==> l.session.locatorMode == Script) &&
        (cfg.excludeCoverage <==> !Truthy(b.config.coverage)) &&
        env.bundle(cfg).Success? &&
        l.session.bridge == Some(ClientScript(l.session.polyfill, env.bundle(cfg).value))
  {
    BundleBuiltFromFinalState(0, b, s, env);
    LocatorChosenLast(0, b, s, env);
  }

  // ---------------------------------------------------------------------------
  // Default size

  /** Without a configured window size no resize is requested. */
  lemma {:induction false} NoWindowSizeNoResize(b: Setup, s: Session, env: Env)
    requires b.config.windowSize.None?
    ensures var l := Launching(b, s, env);
      IsPrefix(s, l.session) && forall c :: c in Issued(s, l.session) ==> !c.SetWindowSize?
  {
    SilentThroughout(1, 0, b, s, env);
  }

  lemma {:induction false} OperaSameRun(k: nat, b: Setup, s: Session, env: Env, e: Error)
    requires k <= StageCount && IsOperaNotSupported(e)
    ensures RunFrom(k, b, s, env.(setWindowSize := Fail(e))) == RunFrom(k, b, s, env.(setWindowSize := Ok))
    decreases StageCount - k
  {
    var bad, good := env.(setWindowSize := Fail(e)), env.(setWindowSize := Ok);
    if k < StageCount {
      var r := RunStage(k, b, s, good);
      assert RunStage(k, b, s, bad) == r;
      if r.failure.None? {
        OperaSameRun(k + 1, b, r.session, env, e);
      }
    }
  }

  /** OperaDriver's "not supported" answer to the resize is swallowed: launch
      ends exactly as if the resize had worked. */
  lemma {:induction false} OperaResizeIsSwallowed(b: Setup, s: Session, env: Env, e: Error)
    requires IsOperaNotSupported(e)
    ensures Launching(b, s, env.(setWindowSize := Fail(e))) == Launching(b, s, env.(setWindowSize := Ok))
  {
    OperaSameRun(0, b, s, env, e);
  }

  /** Any other refused resize stops the launch with that very error. */
  lemma {:induction false} OtherResizeFailurePropagates(b: Setup, s: Session, env: Env, e: Error)
    requires !IsOperaNotSupported(e) && b.config.windowSize.Some?
    requires env.configureHttp.Ok? && env.init.Ok? && env.setWindowSize == Fail(e)
    ensures Launching(b, s, env).result == Failure(LaunchError(b, e))
  {
    var r0 := RunStage(0, b, s, env);
    assert RunFrom(0, b, s, env) == RunFrom(1, b, r0.session, env);
  }

  // ---------------------------------------------------------------------------
  // What a successful launch sends

  /** The resize request, when a window size is configured. */
  function ResizeCalls(b: Setup): seq<Call>
  {
    match b.config.windowSize
    case None => []
    case Some(size) => [SetWindowSize(size.width, size.height)]
  }

  /** The window-handle query and the maximize request, for PhantomJS only. */
  function MaximizeCalls(b: Setup, env: Env): seq<Call>
  {
    if !ShouldMaximize(b.caps) then []
    else match env.windowHandle
      case Success(h) => [WindowHandle, MaximizeWindow(h)]
      case Failure(_) => [WindowHandle]
  }

  /** The calibrator, unless `--noCalibrate` is set or `s` is calibrated. */
  function CalibratorCalls(b: Setup, s: Session): seq<Call>
  {
    if NoCalibrate(b.caps) || s.calibration.Some? then [] else [RunCalibrator]
  }

  lemma SuccessStep(k: nat, b: Setup, s: Session, env: Env)
    requires k < StageCount && RunFrom(k, b, s, env).failure.None?
    ensures RunStage(k, b, s, env).failure.None?
    ensures RunFrom(k, b, s, env) == RunFrom(k + 1, b, RunStage(k, b, s, env).session, env)
  {
  }

  lemma InitSends(b: Setup, s: Session, env: Env)
    requires InitSessionStep(b, s, env).failure.None?
    ensures InitSessionStep(b, s, env).session ==
            s.(calls := s.calls + [ConfigureHttp, Init(Capabilities(b))])
  {
  }

  lemma ResizeSends(b: Setup, s: Session, env: Env)
    requires SetDefaultSizeStep(b, s, env).failure.None?
    ensures SetDefaultSizeStep(b, s, env).session == s.(calls := s.calls + ResizeCalls(b))
  {
  }

  lemma MaximizeSends(b: Setup, s: Session, env: Env)
    requires MaximizeStep(b, s, env).failure.None?
    ensures ShouldMaximize(b.caps) ==> env.windowHandle.Success?
    ensures MaximizeStep(b, s, env).session == s.(calls := s.calls + MaximizeCalls(b, env))
  {
  }

  lemma CalibrateSends(b: Setup, s: Session, env: Env)
    requires CalibrateStep(b, s, env).failure.None?
    ensures var r := CalibrateStep(b, s, env);
      r.session.calls == s.calls + CalibratorCalls(b, s) && r.session.polyfill == s.polyfill
  {
  }

  lemma PolyfillsSend(s: Session, env: Env)
    requires BuildPolyfillsStep(s, env).failure.None?
    ensures env.userAgent.Success? && env.polyfill(env.userAgent.value).Success?
    ensures BuildPolyfillsStep(s, env).session ==
            s.(calls := s.calls + [Eval(UserAgentExpr), GetPolyfillString(env.userAgent.value)],
               polyfill := Some(env.polyfill(env.userAgent.value).value))
  {
  }

  lemma ScriptsSend(b: Setup, s: Session, env: Env)
    requires BuildScriptsStep(b, s, env).failure.None?
    ensures var r := BuildScriptsStep(b, s, env);
      r.session.calls == s.calls + [BundleScripts(BundleFor(b.config, s.calibration))] &&
      r.session.calibration == s.calibration && r.session.polyfill == s.polyfill
  {
  }

  lemma AppendAssoc(x: seq<Call>, a: seq<Call>, b: seq<Call>)
    ensures (x + a) + b == x + (a + b)
  {
  }

  /** The requests of the first three stages of a successful launch. */
  function OpeningCalls(b: Setup, env: Env): seq<Call>
  {
    [ConfigureHttp, Init(Capabilities(b))] + ResizeCalls(b) + MaximizeCalls(b, env)
  }

  /** A successful launch sends exactly: the HTTP configuration and the
      session init with the merged capabilities; the resize when a size is
      configured; the handle query and maximize for PhantomJS; the calibrator
      when needed; the user-agent read and the polyfill request for that user
      agent; the bundling of the client script for the final calibration. The
      session keeps the polyfills fetched for that user agent. */
  lemma {:induction false} SuccessfulLaunchSends(b: Setup, s: Session, env: Env)
    ensures var l := Launching(b, s, env);
      l.result.Success? ==>
        IsPrefix(s, l.session) &&
        (ShouldMaximize(b.caps) ==> env.windowHandle.Success?) &&
        env.userAgent.Success? && env.polyfill(env.userAgent.value).Success? &&
        Issued(s, l.session) ==
          ([ConfigureHttp, Init(Capabilities(b))] + ResizeCalls(b) + MaximizeCalls(b, env)) +
          (CalibratorCalls(b, s) +
           [Eval(UserAgentExpr), GetPolyfillString(env.userAgent.value),
            BundleScripts(BundleFor(b.config, l.session.calibration))]) &&
        l.session.polyfill == Some(env.polyfill(env.userAgent.value).value)
  {
    var l := Launching(b, s, env);
    if l.result.Success? {
      var s2 := FirstStagesSend(b, s, env);
      LastStagesSend(b, s2, env);
      assert l.session == RunFrom(3, b, s2, env).session;
      var closing := CalibratorCalls(b, s) +
                     [Eval(UserAgentExpr), GetPolyfillString(env.userAgent.value),
                      BundleScripts(BundleFor(b.config, l.session.calibration))];
      AppendAssoc(s.calls, OpeningCalls(b, env), closing);
      AppendedIssued(s, l.session, OpeningCalls(b, env) + closing);
    }
  }

  /** The first three stages of a successful launch send the opening requests
      and change nothing else; the session they reach is `s2`. */
  lemma {:induction false} FirstStagesSend(b: Setup, s: Session, env: Env) returns (s2: Session)
    requires RunFrom(0, b, s, env).failure.None?
    ensures ShouldMaximize(b.caps) ==> env.windowHandle.Success?
    ensures s2 == s.(calls := s.calls + OpeningCalls(b, env))
    ensures RunFrom(0, b, s, env) == RunFrom(3, b, s2, env)
  {
    SuccessStep(0, b, s, env);
    var s0 := RunStage(0, b, s, env).session;
    InitSends(b, s, env);
    SuccessStep(1, b, s0, env);
    var s1 := RunStage(1, b, s0, env).session;
    ResizeSends(b, s0, env);
    SuccessStep(2, b, s1, env);
    s2 := RunStage(2, b, s1, env).session;
    MaximizeSends(b, s1, env);
    AppendAssoc(s.calls, [ConfigureHttp, Init(Capabilities(b))], ResizeCalls(b));
    AppendAssoc(s.calls, [ConfigureHttp, Init(Capabilities(b))] + ResizeCalls(b), MaximizeCalls(b, env));
  }

  /** The last three stages of a successful run from `s` send the calibrator
      when needed, the user-agent read, the polyfill request and the bundling
      for the final calibration, and keep the polyfills fetched. */
  lemma {:induction false} LastStagesSend(b: Setup, s: Session, env: Env)
    requires RunFrom(3, b, s, env).failure.None?
    ensures env.userAgent.Success? && env.polyfill(env.userAgent.value).Success?
    ensures var f := RunFrom(3, b, s, env).session;
      f.calls == s.calls + (CalibratorCalls(b, s) +
                            [Eval(UserAgentExpr), GetPolyfillString(env.userAgent.value),
                             BundleScripts(BundleFor(b.config, f.calibration))]) &&
      f.polyfill == Some(env.polyfill(env.userAgent.value).value)
  {
    SuccessStep(3, b, s, env);
    var s3 := RunStage(3, b, s, env).session;
    CalibrateSends(b, s, env);
    SuccessStep(4, b, s3, env);
    var s4 := RunStage(4, b, s3, env).session;
    PolyfillsSend(s3, env);
    SuccessStep(5, b, s4, env);
    var s5 := RunStage(5, b, s4, env).session;
    ScriptsSend(b, s4, env);
    assert RunFrom(3, b, s, env).session == ChooseLocatorStep(s5);
    var ua := env.userAgent.value;
    var bundle := BundleScripts(BundleFor(b.config, s5.calibration));
    AppendAssoc(s.calls, CalibratorCalls(b, s), [Eval(UserAgentExpr), GetPolyfillString(ua)]);
    AppendAssoc(s.calls, CalibratorCalls(b, s) + [Eval(UserAgentExpr), GetPolyfillString(ua)], [bundle]);
    assert CalibratorCalls(b, s) + [Eval(UserAgentExpr), GetPolyfillString(ua)] + [bundle] ==
           CalibratorCalls(b, s) + [Eval(UserAgentExpr), GetPolyfillString(ua), bundle];
  }

  /** A refused connection and any other failure give different messages, so
      the user can tell them apart. */
  lemma {:induction false} ConnectionRefusedIsDistinct(b: Setup, refused: Error, other: Error)
    requires refused.code == Some("ECONNREFUSED") && other.code != Some("ECONNREFUSED")
    ensures LaunchError(b, refused).message != LaunchError(b, other).message
  {
    assert LaunchError(b, refused).message[0] == 'U';
    assert LaunchError(b, other).message[0] == 'C';
  }
}
