# Halftone capture-to-render core, in Dafny

A model of the sequential logic under the Halftone macOS app: the app captures
the display continuously, turns each captured frame into a Metal texture and
redraws it through a halftone shader into a transparent, click-through overlay
window that is left out of its own capture.

The model has four parts, one per source file:

- `State` (Halftone/Core/AppState.swift): the `DotSizePreset` enumeration with
  its raw values, dot sizes and titles; the settings object `AppState` with its
  persisted keys. Every setter changes the value and then saves and notifies
  only when the value really changed; the intensity setter clamps to [0,1].
  `UserDefaults` is a field of the object and the posted notifications are
  counted.
- `Rendering` (Halftone/Core/HalftoneRenderer.swift): the fixed six-vertex
  full-screen quad, the pipeline setup chain, the texture slot, the uniforms,
  and `draw(in:)` as a guard chain. The calls a draw commits to the GPU are
  recorded in order.
- `Capture` (Halftone/Core/ScreenCaptureManager.swift): the exclusion filter,
  the stream configuration, `startCapture`, a best-effort `stopCapture`, the
  per-frame conversion and the `.screen` output filter. The blocks posted to
  the main queue for the delegate are kept in an outbox.
- `Overlay` (Halftone/UI/OverlayWindowController.swift): the controller class,
  with the app delegate's `updateEffectState` as the rule that drives it.
  `Session` is its specification: the observable session state and one
  transition function over discrete events. These events are the show and
  hide calls, the end of a start task or a stop task, a safety timer firing,
  a main-queue delivery, and a settings write. Each controller method is
  proved to move its `View()` as `Session.Step` does. The lemmas about
  `Session` hold for every sequence of events.

Metal, ScreenCaptureKit and CoreVideo calls are inputs to the model: whether a
call returns a value, returns nil or throws is a parameter (`GpuSetup`,
`DrawEnv`, `Platform`, the `content` of a start, `TextureFromImage`). Floats
are modelled as reals and integers as unbounded integers.

Where the code behaves differently from what its comments or its apparent intent suggest, the model follows the code:

- A missing preset key reads as 0 through `integer(forKey:)`, so first launch
  loads `.fine`. Only an unknown raw value falls back to `.medium`
  (`State.FirstLaunchSettings`).
- Swift does not run `didSet` inside `init`, so a persisted intensity outside
  [0,1] is loaded unclamped (`State.LoadKeepsOutOfRangeIntensity`). The
  constructor of `State.AppState` states when `InRange()` holds afterwards.
- When `addStreamOutput` or `SCStream.startCapture` throws, the stream stays
  stored until the scheduled stop task runs. So a failed start does not
  return the service to idle at once.
- An unsolicited stream stop does not clear the stream. The controller hides
  the overlay, and the stop task scheduled by that hide drops the stream.
- `draw(in:)` also needs a drawable and a render-pass descriptor. It refreshes
  the uniforms before it tries to make the command buffer and encoder.
- A hide cannot cancel a start that is already in flight. Take show, then
  hide, then the stop task finishing first, then the start succeeding: a
  stream ends up held while the overlay is hidden and the effect disabled
  (`Session.LateStartOutlivesHide`).
- Setup pauses the Metal view with the comment that rendering is driven from
  capture callbacks, but it also sets `enableSetNeedsDisplay = false`. Once
  `showOverlay` unpauses the view, it redraws on its own timer as well as
  after each texture delivery (`Overlay.OverlayWindowController.ViewTick`).

## Model

| member | source | states |
|---|---|---|
| `State.FromRawValue` | Halftone/Core/AppState.swift:11-15 | `DotSizePreset(rawValue:)` succeeds exactly for 0, 1, 2, and returns the preset with that raw value |
| `State.DecodePreset` | Halftone/Core/AppState.swift:92 | a raw value 0...2 decodes to its preset; any other decodes to `.medium` |
| `State.RawValueRoundTrip` | Halftone/Core/AppState.swift:11-15 | every preset decodes back from its raw value |
| `State.DotSizePreset.DotSize` | Halftone/Core/AppState.swift:16-22 | every dot size is positive |
| `State.DotSizeDoublesPerStep` | Halftone/Core/AppState.swift:16-22 | the dot size is 4·2^raw: fine 4, medium 8, coarse 16 |
| `State.DotSizeOrderedByRawValue` | Halftone/Core/AppState.swift:16-22 | the dot size increases strictly with the raw value, in both directions, and determines the preset |
| `State.DotSizePreset.DisplayName` | Halftone/Core/AppState.swift:24-30 | every preset has a non-empty title |
| `State.DisplayNamesDistinct` | Halftone/Core/AppState.swift:24-30 | two presets have the same title exactly when they are the same preset |
| `State.Clamp` | Halftone/Core/AppState.swift:70-73 | the clamped intensity lies in [0,1], equals an in-range input, and is 0 below the range and 1 above it |
| `State.ClampIsNearest` | Halftone/Core/AppState.swift:70-73 | the clamped value is the point of [0,1] nearest to the written value |
| `State.ClampIdempotent` | Halftone/Core/AppState.swift:70-73 | clamping a clamped value changes nothing |
| `State.LoadPersistedRoundTrip` | Halftone/Core/AppState.swift:88-109 | the settings `save()` writes are the settings `init` reads back |
| `State.FirstLaunchSettings` | Halftone/Core/AppState.swift:91-99 | with no persisted keys the settings are disabled, `.fine`, intensity 1.0 |
| `State.UnknownRawLoadsMedium` | Halftone/Core/AppState.swift:92 | a persisted raw value outside 0...2 loads as `.medium` |
| `State.LoadKeepsOutOfRangeIntensity` | Halftone/Core/AppState.swift:95-96 | a persisted intensity outside [0,1] is loaded as it is, not clamped |
| `State.Load` | Halftone/Core/AppState.swift:88-100 | `init` reads the enabled flag as true only when `true` is stored; a missing preset key gives `.fine`, a stored 0...2 that preset, anything else `.medium`; a stored intensity is taken as it is, a missing one gives 1.0 |
| `State.Persisted` | Halftone/Core/AppState.swift:104-109 | `save()` writes all three keys: the flag and the intensity as they are, the preset as a raw value that decodes back to it |
| `State.AppState.constructor` | Halftone/Core/AppState.swift:88-100 | the settings are those loaded from the persisted keys; nothing is saved or posted; in range exactly when the stored intensity is |
| `State.AppState.DotSize` | Halftone/Core/AppState.swift:82-84 | the current dot size is 4 doubled once per preset step, so it lies in [4,16] |
| `State.AppState.Save` | Halftone/Core/AppState.swift:104-109 | afterwards the persisted keys hold the current three settings |
| `State.AppState.NotifyChange` | Halftone/Core/AppState.swift:111-113 | one notification is posted |
| `State.AppState.SetIsEnabled` | Halftone/Core/AppState.swift:50-57 | stores the value; saves and notifies exactly once if it changed, otherwise not at all; the other settings are unchanged |
| `State.AppState.SetDotSizePreset` | Halftone/Core/AppState.swift:59-66 | stores the preset; saves and notifies exactly once if it changed, otherwise not at all |
| `State.AppState.SetIntensity` | Halftone/Core/AppState.swift:68-79 | stores the clamped value, so the intensity lies in [0,1]; saves and notifies exactly once if the clamped value differs from the old one, otherwise not at all |
| `Rendering.QuadVerticesAreFlippedCorners` | Halftone/Core/HalftoneRenderer.swift:71-80 | the quad has six vertices, each a corner of [-1,1]² with texture coordinate ((x+1)/2, (1-y)/2) |
| `Rendering.QuadTrianglesShareDiagonal` | Halftone/Core/HalftoneRenderer.swift:71-80 | the two triangles have three distinct corners each, use all four corners together, and share exactly the corners (1,-1) and (-1,1) |
| `Rendering.SetupPipeline` | Halftone/Core/HalftoneRenderer.swift:40-66 | a pipeline exists exactly when the library, both shader functions and the compilation succeed, and it renders to `.bgra8Unorm` |
| `Rendering.EncodeFrameOrder` | Halftone/Core/HalftoneRenderer.swift:150-159 | a frame binds the texture and the uniforms before a 6-vertex triangle draw over the whole quad; every encoder call precedes `endEncoding`, which precedes present, which precedes commit, which is last |
| `Rendering.HalftoneRenderer.constructor` | Halftone/Core/HalftoneRenderer.swift:24-36 | after setup the pipeline is whatever the setup chain produced, the buffer is the quad when allocated, there is no texture, and the uniforms are (8, 1, (0,0)) |
| `Rendering.NewRenderer` | Halftone/Core/HalftoneRenderer.swift:24-36 | `init?` fails exactly when no command queue can be made |
| `Rendering.HalftoneRenderer.UpdateScreenTexture` | Halftone/Core/HalftoneRenderer.swift:88-90 | the slot holds the last texture written; no other field changes |
| `Rendering.HalftoneRenderer.UpdateUniforms` | Halftone/Core/HalftoneRenderer.swift:93-97 | the uniforms become exactly the given dot size, intensity and screen size; no other field changes |
| `Rendering.HalftoneRenderer.DrawableSizeWillChange` | Halftone/Core/HalftoneRenderer.swift:104-107 | only the screen size of the uniforms changes |
| `Rendering.HalftoneRenderer.Draw` | Halftone/Core/HalftoneRenderer.swift:111-160 | with a resource missing nothing changes; otherwise the uniforms are refreshed from the settings and the drawable size, and exactly one frame is committed, or none when the command buffer or encoder cannot be made |
| `Rendering.ReadyDrawCommitsOneFrame` | Halftone/Core/HalftoneRenderer.swift:136-159 | a draw that clears every guard commits eight calls that draw the quad, bind only the current texture, bind the refreshed uniforms before the draw, and present after ending and before committing |
| `Capture.WindowsWithID` | Halftone/Core/ScreenCaptureManager.swift:58 | the filter keeps exactly the windows with the given ID |
| `Capture.ExcludedWindows` | Halftone/Core/ScreenCaptureManager.swift:56-59 | the excluded list is exactly the shareable windows whose ID is the excluded ID, and empty when no ID was set |
| `Capture.WindowsWithIDSplits` | Halftone/Core/ScreenCaptureManager.swift:58 | filtering a concatenated window list gives the concatenation of the filtered parts |
| `Capture.WindowsWithIDNone` | Halftone/Core/ScreenCaptureManager.swift:58 | a list with no window carrying the ID gives an empty excluded list |
| `Capture.WindowsWithIDIgnoresOthers` | Halftone/Core/ScreenCaptureManager.swift:58 | windows without the ID appended to the list change nothing in the excluded list |
| `Capture.StreamConfigurationFor` | Halftone/Core/ScreenCaptureManager.swift:64-70 | the configuration is twice the display size, a 1/30 s minimum frame interval, 32-bit BGRA, cursor shown, queue depth 3 |
| `Capture.PrepareStream` | Halftone/Core/ScreenCaptureManager.swift:51-70 | fails with `noDisplay` exactly when no display is enumerated; otherwise filters the first display, excludes exactly the windows with the excluded ID, and uses that display's configuration |
| `Capture.ConvertFrame` | Halftone/Core/ScreenCaptureManager.swift:102-131 | a texture results exactly when the cache, the image buffer, a success status, the CoreVideo texture and its Metal texture all exist; it has the pixel buffer's size |
| `Capture.ScreenCaptureManager.constructor` | Halftone/Core/ScreenCaptureManager.swift:31-39 | no excluded ID, no stream, nothing posted; the cache exists exactly when its creation succeeded |
| `Capture.ScreenCaptureManager.SetExcludedWindow` | Halftone/Core/ScreenCaptureManager.swift:42-44 | stores the ID, so the last call wins; nothing else changes |
| `Capture.ScreenCaptureManager.StartCapture` | Halftone/Core/ScreenCaptureManager.swift:47-85 | a failed query or no display throws with the stream untouched; otherwise the prepared stream and its output are stored, and the call then throws if adding the output or starting fails |
| `Capture.ScreenCaptureManager.StopCapture` | Halftone/Core/ScreenCaptureManager.swift:88-99 | without a stream nothing changes; with one, stream and output are dropped even when stopping throws |
| `Capture.ScreenCaptureManager.ProcessSampleBuffer` | Halftone/Core/ScreenCaptureManager.swift:102-138 | posts exactly one texture delivery when conversion succeeds and nothing otherwise |
| `Capture.ScreenCaptureManager.DidOutputSampleBuffer` | Halftone/Core/ScreenCaptureManager.swift:168-171 | only `.screen` buffers are processed; other types post nothing |
| `Capture.ScreenCaptureManager.DidStopWithError` | Halftone/Core/ScreenCaptureManager.swift:149-155 | posts exactly one stop delivery |
| `Session.AfterShow` | Halftone/UI/OverlayWindowController.swift:87-121 | without a window nothing changes; with one the window is shown, the view unpaused, the excluded ID set to the window, and one start and one timer scheduled; stream, flag and stops are untouched |
| `Session.AfterHide` | Halftone/UI/OverlayWindowController.swift:124-132 | the window is hidden, the view paused and one stop scheduled; nothing else changes |
| `Session.HideAndDisable` | Halftone/UI/OverlayWindowController.swift:107-110 | hidden, paused, disabled, one stop scheduled; excluded ID, stream, starts and timers unchanged |
| `Session.StartEnds` | Halftone/UI/OverlayWindowController.swift:99-112 | without a manager nothing happens; a stream is held afterwards unless the query or the display failed; a success changes only the stream; a throw hides and disables with a stop scheduled |
| `Session.Step` | Halftone/UI/OverlayWindowController.swift:87-158 | only a show moves the excluded ID, and only to the overlay window; only a pending start brings a stream; only writing true enables the effect; only a show makes the overlay visible; at most one start is added |
| `Session.ExclusionHoldsInitially` | Halftone/UI/OverlayWindowController.swift:51-82 | the exclusion invariant holds right after setup |
| `Session.StepKeepsExclusion` | Halftone/UI/OverlayWindowController.swift:87-158 | every event keeps the exclusion invariant: with a start pending or a stream held, the excluded ID is the overlay's window |
| `Session.RunKeepsExclusion` | Halftone/UI/OverlayWindowController.swift:87-158 | no sequence of events (any number of show, hide, start and stop) breaks the exclusion invariant |
| `Session.ShowExcludesBeforeStart` | Halftone/UI/OverlayWindowController.swift:93-102 | `showOverlay` sets the excluded ID to the overlay window as it schedules the start, shows the window and unpauses the view |
| `Session.ShowWithoutWindowIsNoOp` | Halftone/UI/OverlayWindowController.swift:88 | `showOverlay` without a window changes nothing |
| `Session.StartFailureDisables` | Halftone/UI/OverlayWindowController.swift:104-110 | a start that throws leaves the overlay hidden, paused and disabled, with a stop scheduled |
| `Session.StartFailureThenStopReleasesStream` | Halftone/UI/OverlayWindowController.swift:104-131 | once that stop has run, no stream is held |
| `Session.HideIdempotent` | Halftone/UI/OverlayWindowController.swift:124-132 | hiding twice is observably the same as hiding once, also after the scheduled stops run |
| `Session.StopTaskIdempotent` | Halftone/Core/ScreenCaptureManager.swift:88-99 | a second stop leaves the same state as the first |
| `Session.SafetyTimerDisables` | Halftone/UI/OverlayWindowController.swift:115-120 | after the timer fires the effect is disabled, and nothing observable changes if it already was |
| `Session.CaptureStopDisables` | Halftone/UI/OverlayWindowController.swift:154-158 | an unsolicited stop leaves the overlay hidden, paused and disabled, with a stop scheduled |
| `Session.CaptureStopThenStopReleasesStream` | Halftone/UI/OverlayWindowController.swift:124-158 | after an unsolicited stop and the stop task it schedules, with no start in flight, the overlay is hidden, paused and disabled and no stream is held |
| `Session.QuietStaysQuiet` | Halftone/UI/OverlayWindowController.swift:87-158 | once hidden, disabled and with no start pending, only a show or an enable can change that, and no stream can appear that was not already held |
| `Session.LateStartOutlivesHide` | Halftone/UI/OverlayWindowController.swift:99-131 | a start still in flight when the overlay is hidden and stopped can still succeed, leaving a stream with the overlay hidden |
| `Overlay.OverlayWindowController.constructor` | Halftone/UI/OverlayWindowController.swift:18-82 | the window exists with a main screen, the view with the window and a device, the renderer when its command queue exists, the capture manager with the renderer; the renderer holds the setup pipeline, the quad exactly when its buffer was allocated, no texture, the initial uniforms and no committed calls; the manager holds no stream, no output and nothing posted; the session starts hidden and paused with nothing scheduled |
| `Overlay.StartOutcomeOf` | Halftone/Core/ScreenCaptureManager.swift:47-85 | a start fails before storing a stream exactly when the content query throws or finds no display, and succeeds exactly when, in addition, adding the output and starting both return |
| `Overlay.OverlayWindowController.ShowOverlay` | Halftone/UI/OverlayWindowController.swift:87-121 | moves the session as a show event does, and keeps the exclusion invariant |
| `Overlay.OverlayWindowController.HideOverlay` | Halftone/UI/OverlayWindowController.swift:124-132 | moves the session as a hide event does |
| `Overlay.OverlayWindowController.RunStartTask` | Halftone/UI/OverlayWindowController.swift:99-112 | moves the session as the start outcome says; with a display the stored stream is the one prepared for the overlay window; a success leaves the settings alone, a throw saves and notifies once exactly when the effect was enabled |
| `Overlay.OverlayWindowController.RunStopTask` | Halftone/UI/OverlayWindowController.swift:129-131 | moves the session as a finished stop does: no stream is held afterwards, and the stream output is dropped whenever a stream was held |
| `Overlay.OverlayWindowController.FireSafetyTimer` | Halftone/UI/OverlayWindowController.swift:115-120 | the effect is disabled afterwards, with one save and one notification exactly when it was enabled |
| `Overlay.OverlayWindowController.DidCaptureTexture` | Halftone/UI/OverlayWindowController.swift:141-152 | the texture reaches the renderer's slot, then one draw runs that binds only that texture; the uniforms are refreshed from the settings and drawable size exactly when the draw's resource guards pass |
| `Overlay.OverlayWindowController.ViewTick` | Halftone/UI/OverlayWindowController.swift:63-96 | a tick of the unpaused view runs one draw (refreshed uniforms, the committed frame); a paused view or a missing view draws nothing; the session state does not change |
| `Overlay.OverlayWindowController.DidStop` | Halftone/UI/OverlayWindowController.swift:154-158 | moves the session as an unsolicited stop does; saves and notifies once exactly when the effect was enabled |
| `Overlay.OverlayWindowController.RunNextDelivery` | Halftone/Core/ScreenCaptureManager.swift:133-154 | the oldest posted delivery runs and leaves the outbox; neither delivery changes the renderer's pipeline or vertex buffer; a texture delivery reaches the renderer's slot, refreshes the uniforms exactly when the draw's resource guards pass, commits the frame the draw makes and writes no setting; a stop delivery leaves the renderer's slot, uniforms and committed calls untouched and saves and notifies once exactly when the effect was enabled; the stream is untouched |
| `Overlay.UpdateEffectState` | Halftone/App/AppDelegate.swift:67-73 | an enabled effect shows the overlay, a disabled one hides it; the stream, its output and the pending deliveries are untouched |

## Left out

- `State.DotSizePreset.DotSize`: the contract states only positivity; the exact sizes are in `State.DotSizeDoublesPerStep`.
- `State.Clamp`: `Float` rounding and NaN are not modelled (intensity is a real), so a NaN write is outside the model.
- The app delegate's reaction to a settings notification (`Overlay.UpdateEffectState`, the event `EffectStateChanged`) is a separate event in the model, while in the app it runs synchronously inside the write that posts it. This concerns every write of `isEnabled`: the failed start in `RunStartTask`, `FireSafetyTimer`, `DidStop` and the `EnabledSet` event. For instance, the app hides the overlay in the same main-queue turn in which the timer disables the effect, while `Session.SafetyTimerDisables` leaves `visible` as it was. Every run of the app is still a trace of the model (the write followed at once by `EffectStateChanged`), so the lemmas over all traces hold of it.
- Threading: `Task`, `MainActor.run`, `DispatchQueue.main.async`, the capture queue and the 30-second `asyncAfter` delay are discrete events applied one at a time; no interleaving inside a method is modelled.
- Weak references: the delegate and `StreamOutput`'s manager are assumed alive.
- The capture manager's stream stands for capturing; whether the OS stream is running is not modelled. A start that replaces a held stream leaves the old one unstopped.
- `CaptureError.noPermission` is declared but never thrown by the code, so it is not modelled; permission failures come out of the content query.
- The halftone fragment shader and the GPU floating point are not part of this model.
- Window configuration (level, transparency, click-through, sharing type, collection behaviour) and the Metal view's properties other than `isPaused` and `enableSetNeedsDisplay` are presentation only; `enableSetNeedsDisplay` is modelled as fixed at its setup value `false`, which is why an unpaused view redraws on its own (`Overlay.OverlayWindowController.ViewTick`).
- The debug `print`s and the `drawCount` and `frameCount` log counters are left out.
- `CGSize` and `Float` conversions are left out: sizes are reals.
- Halftone/UI/StatusBarController.swift (menus, slider, and its `useBlackOnly`, which `AppState` does not declare) is not part of this model.
- Halftone/Core/HotkeyManager.swift (Carbon hotkey registration) is not part of this model.
- The rest of Halftone/App/AppDelegate.swift (launch, permission prompt, terminate-time save) is not part of this model.
