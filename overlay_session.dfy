/**
 * The overlay session as a state machine over discrete events: the state the
 * controller in Halftone/UI/OverlayWindowController.swift changes (window
 * shown, view paused, the capture manager's excluded window ID and stream,
 * `AppState.isEnabled`) and the asynchronous work it has scheduled and not
 * yet run (start tasks, stop tasks, safety timers). Each `Task`, main-queue
 * hop, timer and OS callback is one event, applied one at a time.
 *
 * `Overlay.OverlayWindowController` is proved to move its `View()` exactly as
 * `Step` says; the lemmas here are about every sequence of events.
 */
module Session {
  import opened Wrappers

  /** What setup produced: the overlay window (by window number), the Metal view, renderer and capture manager. */
  datatype Setup = Setup(windowNumber: Option<nat>, hasMetalView: bool, hasRenderer: bool, hasManager: bool)

  /** `setupMetal` needs the window for the view, the view for the renderer, and makes the manager only with the renderer. */
  predicate WellFormed(cfg: Setup) {
    && (cfg.hasMetalView ==> cfg.windowNumber.Some?)
    && (cfg.hasRenderer ==> cfg.hasMetalView)
    && (cfg.hasManager <==> cfg.hasRenderer)
  }

  datatype State = State(
    visible: bool,             // the window is ordered front
    paused: bool,              // metalView.isPaused
    excludedID: Option<nat>,   // the capture manager's excludedWindowID
    hasStream: bool,           // the capture manager holds an SCStream
    enabled: bool,             // AppState.shared.isEnabled
    pendingStarts: nat,        // start tasks scheduled by showOverlay, not yet finished
    pendingStops: nat,         // stop tasks scheduled by hideOverlay, not yet finished
    armedTimers: nat)          // safety timeouts armed by showOverlay, not yet fired

  /** How a start task's `startCapture` ended. */
  datatype StartOutcome =
    | Started             // returned normally
    | FailedBeforeStream  // threw before a stream was stored (query failed, no display)
    | FailedAfterStream   // threw after the stream was stored (addStreamOutput or startCapture)

  datatype Event =
    | Show                             // showOverlay()
    | Hide                             // hideOverlay()
    | StartTaskEnds(outcome: StartOutcome) // a start task finishes, with its failure handler
    | StopTaskEnds                     // a stop task's stopCapture finishes
    | SafetyTimerFires                 // a 30-second timeout fires
    | FrameDelivered                   // a texture delivery runs on the main queue
    | CaptureStopped                   // a didStop delivery runs on the main queue
    | EnabledSet(value: bool)          // the menu or hotkey writes isEnabled
    | EffectStateChanged               // the app delegate reacts to a change notification

  /** Right after setup: hidden, paused, nothing excluded, no stream, nothing scheduled. */
  function Initial(enabled: bool): State {
    State(false, true, None, false, enabled, 0, 0, 0)
  }

  /** `showOverlay`: without a window, nothing; else exclude the window, show, unpause, schedule a start and a timer. */
  function AfterShow(cfg: Setup, s: State): (t: State)
    ensures cfg.windowNumber.None? ==> t == s
    ensures cfg.windowNumber.Some? ==>
      && t.visible
      && (cfg.hasMetalView ==> !t.paused)
      && (cfg.hasManager ==> t.excludedID == cfg.windowNumber)
      && t.pendingStarts == s.pendingStarts + 1 && t.armedTimers == s.armedTimers + 1
    ensures t.hasStream == s.hasStream && t.enabled == s.enabled && t.pendingStops == s.pendingStops
  {
    if cfg.windowNumber.None? then s
    else s.(
      excludedID := if cfg.hasManager then cfg.windowNumber else s.excludedID,
      visible := true,
      paused := if cfg.hasMetalView then false else s.paused,
      pendingStarts := s.pendingStarts + 1,
      armedTimers := s.armedTimers + 1)
  }

  /** `hideOverlay`: pause, order out, schedule a stop. */
  function AfterHide(cfg: Setup, s: State): (t: State)
    ensures !t.visible && (cfg.hasMetalView ==> t.paused)
    ensures t.pendingStops == s.pendingStops + 1
    ensures t.excludedID == s.excludedID && t.hasStream == s.hasStream && t.enabled == s.enabled
    ensures t.pendingStarts == s.pendingStarts && t.armedTimers == s.armedTimers
  {
    s.(
      paused := if cfg.hasMetalView then true else s.paused,
      visible := false,
      pendingStops := s.pendingStops + 1)
  }

  /** The failure path of a start task, and the stop handler: hide, then disable. */
  function HideAndDisable(cfg: Setup, s: State): (t: State)
    ensures !t.visible && !t.enabled && (cfg.hasMetalView ==> t.paused)
    ensures t.pendingStops == s.pendingStops + 1
    ensures t.excludedID == s.excludedID && t.hasStream == s.hasStream
    ensures t.pendingStarts == s.pendingStarts && t.armedTimers == s.armedTimers
  {
    AfterHide(cfg, s).(enabled := false)
  }

  /** A start task's end: the stream is stored unless the query or the display failed; a throw hides and disables. */
  function StartEnds(cfg: Setup, s: State, outcome: StartOutcome): (t: State)
    ensures !cfg.hasManager ==> t == s
    ensures cfg.hasManager ==> (t.hasStream <==> outcome != FailedBeforeStream || s.hasStream)
    ensures cfg.hasManager && outcome == Started ==> t == s.(hasStream := true)
    ensures cfg.hasManager && outcome != Started ==>
      && !t.visible && !t.enabled && (cfg.hasMetalView ==> t.paused)
      && t.pendingStops == s.pendingStops + 1
    ensures t.excludedID == s.excludedID && t.pendingStarts == s.pendingStarts && t.armedTimers == s.armedTimers
  {
    if !cfg.hasManager then s  // `captureManager?.startCapture()` on nil neither runs nor throws
    else match outcome
      case Started => s.(hasStream := true)
      case FailedBeforeStream => HideAndDisable(cfg, s)
      case FailedAfterStream => HideAndDisable(cfg, s.(hasStream := true))
  }

  /**
   * One event. Only a show moves the excluded ID, and only to the overlay's
   * window; only a start task's end brings a stream; only writing `true`
   * enables the effect; only a show makes the overlay visible.
   */
  function Step(cfg: Setup, s: State, e: Event): (t: State)
    ensures t.excludedID != s.excludedID ==> (e.Show? || e.EffectStateChanged?) && t.excludedID == cfg.windowNumber
    ensures t.hasStream && !s.hasStream ==> e.StartTaskEnds? && s.pendingStarts > 0
    ensures t.enabled && !s.enabled ==> e == EnabledSet(true)
    ensures t.visible && !s.visible ==> e.Show? || (e.EffectStateChanged? && s.enabled)
    ensures t.pendingStarts <= s.pendingStarts + 1
  {
    match e
    case Show => AfterShow(cfg, s)
    case Hide => AfterHide(cfg, s)
    case StartTaskEnds(outcome) =>
      if s.pendingStarts == 0 then s
      else StartEnds(cfg, s.(pendingStarts := s.pendingStarts - 1), outcome)
    case StopTaskEnds =>
      if s.pendingStops == 0 then s
      else s.(pendingStops := s.pendingStops - 1, hasStream := if cfg.hasManager then false else s.hasStream)
    case SafetyTimerFires =>
      if s.armedTimers == 0 then s
      else s.(armedTimers := s.armedTimers - 1, enabled := false)
    case FrameDelivered => s
    case CaptureStopped => HideAndDisable(cfg, s)
    case EnabledSet(value) => s.(enabled := value)
    case EffectStateChanged => if s.enabled then AfterShow(cfg, s) else AfterHide(cfg, s)
  }

  function Run(cfg: Setup, s: State, trace: seq<Event>): State
    decreases |trace|
  {
    if trace == [] then s else Run(cfg, Step(cfg, s, trace[0]), trace[1..])
  }

  /**
   * The feedback-loop invariant: while a start task is pending or a stream
   * exists, the capture manager's excluded ID is the overlay's own window.
   */
  predicate ExclusionHolds(cfg: Setup, s: State) {
    cfg.hasManager && (s.pendingStarts > 0 || s.hasStream) ==> s.excludedID == cfg.windowNumber && s.excludedID.Some?
  }

  lemma ExclusionHoldsInitially(cfg: Setup, enabled: bool)
    ensures ExclusionHolds(cfg, Initial(enabled))
  {
  }

  lemma StepKeepsExclusion(cfg: Setup, s: State, e: Event)
    requires WellFormed(cfg) && ExclusionHolds(cfg, s)
    ensures ExclusionHolds(cfg, Step(cfg, s, e))
  {
  }

  /** No sequence of events lets a start task or a stream exist without the overlay window excluded. */
  lemma {:induction false} RunKeepsExclusion(cfg: Setup, s: State, trace: seq<Event>)
    requires WellFormed(cfg) && ExclusionHolds(cfg, s)
    ensures ExclusionHolds(cfg, Run(cfg, s, trace))
    decreases |trace|
  {
    if trace != [] {
      StepKeepsExclusion(cfg, s, trace[0]);
      RunKeepsExclusion(cfg, Step(cfg, s, trace[0]), trace[1..]);
    }
  }

  /** `showOverlay` with a window: shown, unpaused, own window excluded, one start and one timer scheduled. */
  lemma ShowExcludesBeforeStart(cfg: Setup, s: State)
    requires WellFormed(cfg) && cfg.windowNumber.Some? && cfg.hasManager
    ensures var t := Step(cfg, s, Show);
      && t.visible && !t.paused
      && t.excludedID == cfg.windowNumber
      && t.pendingStarts == s.pendingStarts + 1 && t.armedTimers == s.armedTimers + 1
  {
  }

  /** `showOverlay` without a window changes nothing. */
  lemma ShowWithoutWindowIsNoOp(cfg: Setup, s: State)
    requires cfg.windowNumber.None?
    ensures Step(cfg, s, Show) == s
  {
  }

  /** A start task that throws leaves the overlay hidden, paused, disabled and with a stop scheduled. */
  lemma StartFailureDisables(cfg: Setup, s: State, outcome: StartOutcome)
    requires WellFormed(cfg) && cfg.hasManager && s.pendingStarts > 0 && outcome != Started
    ensures var t := Step(cfg, s, StartTaskEnds(outcome));
      && !t.visible && t.paused && !t.enabled
      && t.pendingStops == s.pendingStops + 1
      && t.pendingStarts == s.pendingStarts - 1
  {
  }

  /** Once the stop scheduled by a failed start has run, no stream is left. */
  lemma StartFailureThenStopReleasesStream(cfg: Setup, s: State, outcome: StartOutcome)
    requires WellFormed(cfg) && cfg.hasManager && s.pendingStarts > 0 && outcome != Started
    ensures var t := Run(cfg, s, [StartTaskEnds(outcome), StopTaskEnds]);
      !t.visible && t.paused && !t.enabled && !t.hasStream
  {
    var failed := Step(cfg, s, StartTaskEnds(outcome));
    assert [StartTaskEnds(outcome), StopTaskEnds][1..] == [StopTaskEnds];
    assert Run(cfg, failed, [StopTaskEnds]) == Run(cfg, Step(cfg, failed, StopTaskEnds), []);
  }

  /** What can be observed of a session, leaving out the scheduled work. */
  datatype Observed = Observed(visible: bool, paused: bool, excludedID: Option<nat>, hasStream: bool, enabled: bool)

  function Observe(s: State): Observed {
    Observed(s.visible, s.paused, s.excludedID, s.hasStream, s.enabled)
  }

  /** Hiding twice is observably hiding once, also after the scheduled stops have run. */
  lemma HideIdempotent(cfg: Setup, s: State)
    ensures Observe(AfterHide(cfg, AfterHide(cfg, s))) == Observe(AfterHide(cfg, s))
    ensures Observe(Run(cfg, s, [Hide, Hide, StopTaskEnds, StopTaskEnds])) == Observe(Run(cfg, s, [Hide, StopTaskEnds]))
  {
    var twice := [Hide, Hide, StopTaskEnds, StopTaskEnds];
    assert twice[1..] == [Hide, StopTaskEnds, StopTaskEnds];
    assert twice[1..][1..] == [StopTaskEnds, StopTaskEnds];
    assert twice[1..][1..][1..] == [StopTaskEnds];
    var once := [Hide, StopTaskEnds];
    assert once[1..] == [StopTaskEnds];
  }

  /** A stop task run twice leaves the same state, apart from the count, as run once. */
  lemma StopTaskIdempotent(cfg: Setup, s: State)
    requires s.pendingStops >= 2
    ensures var once := Step(cfg, s, StopTaskEnds);
      Step(cfg, once, StopTaskEnds) == once.(pendingStops := s.pendingStops - 2)
  {
  }

  /** After a safety timer fires the effect is disabled; it is written only if it was enabled. */
  lemma SafetyTimerDisables(cfg: Setup, s: State)
    requires s.armedTimers > 0
    ensures var t := Step(cfg, s, SafetyTimerFires);
      && !t.enabled
      && t == s.(armedTimers := s.armedTimers - 1, enabled := false)
      && (!s.enabled ==> Observe(t) == Observe(s))
  {
  }

  /** An unsolicited stream stop leaves the overlay hidden, paused, disabled, with a stop scheduled. */
  lemma CaptureStopDisables(cfg: Setup, s: State)
    requires WellFormed(cfg) && cfg.hasMetalView
    ensures var t := Step(cfg, s, CaptureStopped);
      !t.visible && t.paused && !t.enabled && t.pendingStops == s.pendingStops + 1
  {
  }

  /**
   * Once the stop scheduled by an unsolicited stream stop has run, no stream
   * is left, provided no start task is in flight (otherwise a late start can
   * store a new stream, as `LateStartOutlivesHide` shows for a hide).
   */
  lemma CaptureStopThenStopReleasesStream(cfg: Setup, s: State)
    requires WellFormed(cfg) && cfg.hasManager && s.pendingStarts == 0
    ensures var t := Run(cfg, s, [CaptureStopped, StopTaskEnds]);
      !t.visible && t.paused && !t.enabled && !t.hasStream && t.pendingStarts == 0
  {
    var stopped := Step(cfg, s, CaptureStopped);
    assert [CaptureStopped, StopTaskEnds][1..] == [StopTaskEnds];
    assert Run(cfg, stopped, [StopTaskEnds]) == Run(cfg, Step(cfg, stopped, StopTaskEnds), []);
  }

  /** Hidden, disabled, and with no start in flight. */
  predicate Quiet(s: State) {
    !s.visible && !s.enabled && s.pendingStarts == 0
  }

  /** Events that cannot bring the overlay back on their own: anything but `showOverlay` and enabling. */
  predicate KeepsOff(e: Event) {
    !e.Show? && e != EnabledSet(true)
  }

  /**
   * From a quiet state, no sequence of events other than showing or enabling
   * shows the overlay, enables the effect or starts a stream. Releasing a
   * stream already held takes a stop task (`CaptureStopThenStopReleasesStream`).
   */
  lemma {:induction false} QuietStaysQuiet(cfg: Setup, s: State, trace: seq<Event>)
    requires Quiet(s)
    requires forall i :: 0 <= i < |trace| ==> KeepsOff(trace[i])
    ensures var t := Run(cfg, s, trace);
      && Quiet(t)
      && (s.hasStream || !t.hasStream)
    decreases |trace|
  {
    if trace != [] {
      var next := Step(cfg, s, trace[0]);
      assert KeepsOff(trace[0]);
      assert Quiet(next) && (s.hasStream || !next.hasStream);
      QuietStaysQuiet(cfg, next, trace[1..]);
    }
  }

  /**
   * A hide cannot cancel a start already in flight: show, hide, let the stop
   * finish first, then the start succeeds, and the stream runs with the
   * overlay hidden and the effect disabled.
   */
  lemma LateStartOutlivesHide()
    ensures var cfg := Setup(Some(7), true, true, true);
      var t := Run(cfg, Initial(false),
        [EnabledSet(true), EffectStateChanged, EnabledSet(false), EffectStateChanged, StopTaskEnds, StartTaskEnds(Started)]);
      t.hasStream && !t.visible && !t.enabled && t.excludedID == Some(7)
  {
    var cfg := Setup(Some(7), true, true, true);
    var trace := [EnabledSet(true), EffectStateChanged, EnabledSet(false), EffectStateChanged, StopTaskEnds, StartTaskEnds(Started)];
    var s1 := Step(cfg, Initial(false), trace[0]);
    var s2 := Step(cfg, s1, trace[1]);
    var s3 := Step(cfg, s2, trace[2]);
    var s4 := Step(cfg, s3, trace[3]);
    var s5 := Step(cfg, s4, trace[4]);
    var s6 := Step(cfg, s5, trace[5]);
    assert Run(cfg, s6, []) == s6;
    assert trace[5..] == [trace[5]];
    assert Run(cfg, s5, trace[5..]) == s6;
    assert trace[4..] == [trace[4]] + trace[5..];
    assert Run(cfg, s4, trace[4..]) == s6;
    assert trace[3..] == [trace[3]] + trace[4..];
    assert Run(cfg, s3, trace[3..]) == s6;
    assert trace[2..] == [trace[2]] + trace[3..];
    assert Run(cfg, s2, trace[2..]) == s6;
    assert trace[1..] == [trace[1]] + trace[2..];
    assert Run(cfg, s1, trace[1..]) == s6;
  }
}
