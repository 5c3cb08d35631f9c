/**
 * The overlay session controller (Halftone/UI/OverlayWindowController.swift):
 * it owns the click-through window, the Metal view, the renderer and the
 * capture manager, shows and hides the overlay, and is the capture manager's
 * delegate. Each method is proved to change `View()` exactly as
 * `Session.Step` does for the matching event, so the lemmas of `Session`
 * hold of the controller.
 *
 * The asynchronous work `showOverlay` and `hideOverlay` schedule is counted
 * in `pendingStarts`, `pendingStops` and `armedTimers`; running one of them
 * is a separate method (`RunStartTask`, `RunStopTask`, `FireSafetyTimer`).
 */
module Overlay {
  import opened Wrappers
  import opened MetalTypes
  import State
  import Rendering
  import Capture
  import Session

  /** What the window server and the Metal device hand out while the controller sets itself up. */
  datatype Platform = Platform(
    mainScreen: bool,          // NSScreen.main exists
    windowNumber: nat,         // the window number the overlay window gets
    metalDevice: bool,         // MTLCreateSystemDefaultDevice() returns a device
    gpu: Rendering.GpuSetup,   // the renderer's device calls
    textureCacheCreated: bool) // CVMetalTextureCacheCreate produces a cache

  /** How a start task ends, read off its inputs. */
  function StartOutcomeOf(content: Option<Capture.ShareableContent>, addOutputSucceeds: bool, startSucceeds: bool): (r: Session.StartOutcome)
    ensures r == Session.FailedBeforeStream <==> content.None? || Capture.PrepareStream(content.value, None).Failure?
    ensures r == Session.Started <==> content.Some? && content.value.displays != [] && addOutputSucceeds && startSucceeds
  {
    if content.None? || content.value.displays == [] then Session.FailedBeforeStream
    else if !addOutputSucceeds || !startSucceeds then Session.FailedAfterStream
    else Session.Started
  }

  /** The session event a main-queue delivery from the capture manager is. */
  function EventOf(e: Capture.CaptureEvent): Session.Event {
    match e
    case DidCaptureTexture(_) => Session.FrameDelivered
    case DidStop => Session.CaptureStopped
  }

  class OverlayWindowController {
    /** The overlay window's number, when `setupWindow` found a main screen. */
    const window: Option<nat>
    const hasMetalView: bool
    const renderer: Rendering.HalftoneRenderer?
    const captureManager: Capture.ScreenCaptureManager?
    /** `AppState.shared`. */
    const appState: State.AppState
    /** The window is ordered front. */
    var visible: bool
    /** `metalView.isPaused`. */
    var paused: bool
    var pendingStarts: nat
    var pendingStops: nat
    var armedTimers: nat

    function Cfg(): Session.Setup {
      Session.Setup(window, hasMetalView, renderer != null, captureManager != null)
    }

    /** The session state as `Session` sees it. */
    function View(): Session.State
      reads this, captureManager, appState
    {
      Session.State(
        visible,
        paused,
        if captureManager != null then captureManager.excludedWindowID else None,
        captureManager != null && captureManager.stream.Some?,
        appState.isEnabled,
        pendingStarts,
        pendingStops,
        armedTimers)
    }

    /**
     * Setup is well formed, the renderer holds the quad and pipeline, only an
     * existing window is shown, and the exclusion invariant holds: while a
     * start is pending or a stream exists, the overlay's window is excluded.
     */
    ghost predicate Valid()
      reads this, renderer, captureManager
    {
      && Session.WellFormed(Cfg())
      && (renderer != null ==> renderer.Valid())
      && (visible ==> window.Some?)
      && (captureManager != null && (pendingStarts > 0 || captureManager.stream.Some?) ==>
            captureManager.excludedWindowID == window && window.Some?)
    }

    /** `init`: `setupWindow` then `setupMetal`, each stopping at the first missing resource. */
    constructor (platform: Platform, app: State.AppState)
      ensures Valid()
      ensures window == (if platform.mainScreen then Some(platform.windowNumber) else None)
      ensures hasMetalView == (platform.mainScreen && platform.metalDevice)
      ensures (renderer != null) == (hasMetalView && platform.gpu.commandQueue)
      ensures renderer != null ==>
        && fresh(renderer) && renderer.screenTexture == None
        && renderer.pipelineState == Rendering.SetupPipeline(platform.gpu)
        && renderer.vertexBuffer == (if platform.gpu.vertexBuffer then Some(Rendering.Quad) else None)
        && renderer.uniforms == Rendering.InitialUniforms && renderer.gpuLog == []
      ensures captureManager != null ==>
        && fresh(captureManager) && captureManager.hasTextureCache == platform.textureCacheCreated
        && captureManager.stream == None && !captureManager.hasStreamOutput
        && captureManager.outbox == []
      ensures appState == app
      ensures View() == Session.Initial(app.isEnabled)
    {
      window := if platform.mainScreen then Some(platform.windowNumber) else None;
      hasMetalView := platform.mainScreen && platform.metalDevice;
      var r: Rendering.HalftoneRenderer? := null;
      var m: Capture.ScreenCaptureManager? := null;
      if platform.mainScreen && platform.metalDevice {
        r := Rendering.NewRenderer(platform.gpu);
        if r != null {
          m := new Capture.ScreenCaptureManager(platform.textureCacheCreated);
        }
      }
      renderer := r;
      captureManager := m;
      appState := app;
      visible := false;
      paused := true;
      pendingStarts, pendingStops, armedTimers := 0, 0, 0;
    }

    /**
     * `showOverlay`: without a window, nothing. Otherwise the capture manager
     * is told to exclude the overlay window first, then the window is shown
     * and the view unpaused, and a start task and a safety timer are scheduled.
     */
    method ShowOverlay()
      requires Valid()
      modifies this`visible, this`paused, this`pendingStarts, this`armedTimers, captureManager
      ensures Valid()
      ensures captureManager != null ==>
        && captureManager.stream == old(captureManager.stream)
        && captureManager.hasStreamOutput == old(captureManager.hasStreamOutput)
        && captureManager.outbox == old(captureManager.outbox)
      ensures View() == Session.AfterShow(Cfg(), old(View()))
      ensures window.Some? && captureManager != null ==>
        captureManager.excludedWindowID == window && pendingStarts == old(pendingStarts) + 1
    {
      if window.None? {
        return;
      }
      if captureManager != null {
        captureManager.SetExcludedWindow(window.value);
      }
      visible := true;
      if hasMetalView {
        paused := false;
      }
      pendingStarts := pendingStarts + 1;
      armedTimers := armedTimers + 1;
    }

    /** `hideOverlay`: pause the view, order the window out, schedule a stop. */
    method HideOverlay()
      requires Valid()
      modifies this`paused, this`visible, this`pendingStops
      ensures Valid()
      ensures View() == Session.AfterHide(Cfg(), old(View()))
    {
      if hasMetalView {
        paused := true;
      }
      if window.Some? {
        visible := false;
      }
      pendingStops := pendingStops + 1;
    }

    /**
     * One scheduled start task runs to its end: `startCapture` on the
     * capture manager, and on a throw the main-actor block that hides the
     * overlay and disables the effect.
     */
    method RunStartTask(content: Option<Capture.ShareableContent>, addOutputSucceeds: bool, startSucceeds: bool)
      requires Valid() && pendingStarts > 0
      modifies this`pendingStarts, this`paused, this`visible, this`pendingStops
      modifies captureManager
      modifies appState`isEnabled, appState`defaults, appState`saveCount, appState`notifyCount
      ensures Valid()
      ensures captureManager != null ==>
        && captureManager.excludedWindowID == old(captureManager.excludedWindowID)
        && captureManager.outbox == old(captureManager.outbox)
      ensures View() == Session.Step(Cfg(), old(View()), Session.StartTaskEnds(StartOutcomeOf(content, addOutputSucceeds, startSucceeds)))
      ensures captureManager != null && content.Some? && content.value.displays != [] ==>
        captureManager.stream == Some(Capture.PrepareStream(content.value, window).value) && captureManager.hasStreamOutput
      ensures captureManager != null && (content.None? || content.value.displays == []) ==>
        captureManager.stream == old(captureManager.stream) && captureManager.hasStreamOutput == old(captureManager.hasStreamOutput)
      // A successful start leaves the settings alone; a failed one writes `isEnabled = false` once.
      ensures var failed := captureManager != null && StartOutcomeOf(content, addOutputSucceeds, startSucceeds) != Session.Started;
        var written := failed && old(appState.isEnabled);
        && appState.saveCount == old(appState.saveCount) + (if written then 1 else 0)
        && appState.notifyCount == old(appState.notifyCount) + (if written then 1 else 0)
        && appState.defaults == (if written then State.Persisted(appState.Current()) else old(appState.defaults))
    {
      pendingStarts := pendingStarts - 1;
      if captureManager == null {
        return;
      }
      var r := captureManager.StartCapture(content, addOutputSucceeds, startSucceeds);
      if r.Fail? {
        HideOverlay();
        appState.SetIsEnabled(false);
      }
    }

    /** One scheduled stop task runs: `stopCapture` on the capture manager, if there is one. */
    method RunStopTask(stopThrows: bool)
      requires Valid() && pendingStops > 0
      modifies this`pendingStops, captureManager
      ensures Valid()
      ensures captureManager != null ==>
        && captureManager.excludedWindowID == old(captureManager.excludedWindowID)
        && captureManager.outbox == old(captureManager.outbox)
      ensures View() == Session.Step(Cfg(), old(View()), Session.StopTaskEnds)
      ensures captureManager != null ==>
        captureManager.hasStreamOutput == (old(captureManager.stream).None? && old(captureManager.hasStreamOutput))
    {
      pendingStops := pendingStops - 1;
      if captureManager != null {
        captureManager.StopCapture(stopThrows);
      }
    }

    /** A safety timeout fires: the effect is disabled if, and only if, it is still enabled. */
    method FireSafetyTimer()
      requires Valid() && armedTimers > 0
      modifies this`armedTimers, appState`isEnabled, appState`defaults, appState`saveCount, appState`notifyCount
      ensures Valid()
      ensures View() == Session.Step(Cfg(), old(View()), Session.SafetyTimerFires)
      ensures !appState.isEnabled
      ensures var written := old(appState.isEnabled);
        && appState.saveCount == old(appState.saveCount) + (if written then 1 else 0)
        && appState.notifyCount == old(appState.notifyCount) + (if written then 1 else 0)
        && appState.defaults == (if written then State.Persisted(appState.Current()) else old(appState.defaults))
    {
      armedTimers := armedTimers - 1;
      if appState.isEnabled {
        appState.SetIsEnabled(false);
      }
    }

    /**
     * `screenCaptureManager(_:didCaptureTexture:)`: the texture goes into the
     * renderer's slot, then the view draws, so every texture the draw binds
     * is the delivered one.
     */
    method DidCaptureTexture(texture: Texture, env: Rendering.DrawEnv)
      requires Valid()
      modifies renderer
      ensures Valid()
      ensures View() == old(View())
      ensures renderer != null ==>
        && renderer.pipelineState == old(renderer.pipelineState)
        && renderer.vertexBuffer == old(renderer.vertexBuffer)
      ensures renderer != null ==>
        && renderer.screenTexture == Some(texture)
        && var refreshed := Rendering.Uniforms(appState.DotSize(), appState.intensity, env.drawableSize);
           renderer.gpuLog == old(renderer.gpuLog) + (if hasMetalView then renderer.FrameCalls(env, refreshed) else [])
      ensures renderer != null ==> Rendering.BindsOnly(renderer.gpuLog[|old(renderer.gpuLog)|..], texture)
      ensures renderer != null ==>
        renderer.uniforms == (if hasMetalView && renderer.ResourcesReady(env)
                              then Rendering.Uniforms(appState.DotSize(), appState.intensity, env.drawableSize)
                              else old(renderer.uniforms))
    {
      if renderer != null {
        renderer.UpdateScreenTexture(texture);
      }
      if hasMetalView && renderer != null {
        renderer.Draw(env, appState);
      }
    }

    /** `screenCaptureManagerDidStop`: hide the overlay, then disable the effect. */
    method DidStop()
      requires Valid()
      modifies this`paused, this`visible, this`pendingStops
      modifies appState`isEnabled, appState`defaults, appState`saveCount, appState`notifyCount
      ensures Valid()
      ensures View() == Session.Step(Cfg(), old(View()), Session.CaptureStopped)
      ensures var written := old(appState.isEnabled);
        && appState.saveCount == old(appState.saveCount) + (if written then 1 else 0)
        && appState.notifyCount == old(appState.notifyCount) + (if written then 1 else 0)
        && appState.defaults == (if written then State.Persisted(appState.Current()) else old(appState.defaults))
    {
      HideOverlay();
      appState.SetIsEnabled(false);
    }

    /**
     * One tick of the Metal view's own redraw loop. Setup leaves the view
     * with `enableSetNeedsDisplay = false`, so once `showOverlay` unpauses
     * it the view calls the renderer's `draw(in:)` on its own timer, besides
     * the draws that texture deliveries trigger. A paused view does not tick.
     */
    method ViewTick(env: Rendering.DrawEnv)
      requires Valid()
      modifies renderer
      ensures Valid()
      ensures View() == old(View())
      ensures renderer != null ==>
        && renderer.pipelineState == old(renderer.pipelineState)
        && renderer.vertexBuffer == old(renderer.vertexBuffer)
        && renderer.screenTexture == old(renderer.screenTexture)
      ensures renderer != null ==>
        var ticks := hasMetalView && !paused;
        var refreshed := Rendering.Uniforms(appState.DotSize(), appState.intensity, env.drawableSize);
        && renderer.uniforms == (if ticks && old(renderer.ResourcesReady(env)) then refreshed else old(renderer.uniforms))
        && renderer.gpuLog == old(renderer.gpuLog) + (if ticks then old(renderer.FrameCalls(env, refreshed)) else [])
    {
      if hasMetalView && !paused && renderer != null {
        renderer.Draw(env, appState);
      }
    }

    /** The main queue runs the oldest block the capture manager posted to its delegate. */
    method RunNextDelivery(env: Rendering.DrawEnv)
      requires Valid() && captureManager != null && captureManager.outbox != []
      modifies this`paused, this`visible, this`pendingStops, captureManager, renderer
      modifies appState`isEnabled, appState`defaults, appState`saveCount, appState`notifyCount
      ensures Valid()
      ensures captureManager.outbox == old(captureManager.outbox[1..])
      ensures captureManager.excludedWindowID == old(captureManager.excludedWindowID)
      ensures captureManager.stream == old(captureManager.stream)
      ensures captureManager.hasStreamOutput == old(captureManager.hasStreamOutput)
      ensures View() == Session.Step(Cfg(), old(View()), EventOf(old(captureManager.outbox[0])))
      // Only a stop delivery writes the settings, and then `isEnabled = false` once.
      ensures var written := old(captureManager.outbox[0]).DidStop? && old(appState.isEnabled);
        && appState.saveCount == old(appState.saveCount) + (if written then 1 else 0)
        && appState.notifyCount == old(appState.notifyCount) + (if written then 1 else 0)
        && appState.defaults == (if written then State.Persisted(appState.Current()) else old(appState.defaults))
      ensures old(captureManager.outbox[0]).DidCaptureTexture? && renderer != null ==>
        && renderer.screenTexture == Some(old(captureManager.outbox[0]).texture)
        && var refreshed := Rendering.Uniforms(appState.DotSize(), appState.intensity, env.drawableSize);
           renderer.gpuLog == old(renderer.gpuLog) + (if hasMetalView then renderer.FrameCalls(env, refreshed) else [])
      ensures renderer != null ==>
        renderer.pipelineState == old(renderer.pipelineState) && renderer.vertexBuffer == old(renderer.vertexBuffer)
      ensures old(captureManager.outbox[0]).DidCaptureTexture? && renderer != null ==>
        renderer.uniforms == (if hasMetalView && renderer.ResourcesReady(env)
                              then Rendering.Uniforms(appState.DotSize(), appState.intensity, env.drawableSize)
                              else old(renderer.uniforms))
      ensures old(captureManager.outbox[0]).DidStop? && renderer != null ==>
        && renderer.screenTexture == old(renderer.screenTexture)
        && renderer.uniforms == old(renderer.uniforms)
        && renderer.gpuLog == old(renderer.gpuLog)
    {
      var next := captureManager.outbox[0];
      captureManager.outbox := captureManager.outbox[1..];
      match next
      case DidCaptureTexture(texture) =>
        DidCaptureTexture(texture, env);
      case DidStop =>
        DidStop();
    }
  }

  /** The app delegate's `updateEffectState`, run on every settings change: enabled shows, disabled hides. */
  method UpdateEffectState(controller: OverlayWindowController)
    requires controller.Valid()
    modifies controller`visible, controller`paused, controller`pendingStarts, controller`pendingStops, controller`armedTimers
    modifies controller.captureManager
    ensures controller.Valid()
    ensures controller.View() == Session.Step(controller.Cfg(), old(controller.View()), Session.EffectStateChanged)
    ensures controller.captureManager != null ==>
      && controller.captureManager.stream == old(controller.captureManager.stream)
      && controller.captureManager.hasStreamOutput == old(controller.captureManager.hasStreamOutput)
      && controller.captureManager.outbox == old(controller.captureManager.outbox)
  {
    if controller.appState.isEnabled {
      controller.ShowOverlay();
    } else {
      controller.HideOverlay();
    }
  }
}
