/**
 * The capture service (Halftone/Core/ScreenCaptureManager.swift): the filter
 * that leaves the overlay's own window out of the capture, the stream
 * configuration, best-effort stop, and the per-frame conversion that either
 * drops the frame or delivers exactly one texture.
 *
 * ScreenCaptureKit and CoreVideo calls are opaque inputs (what the query
 * returned, whether a call threw, what the texture cache produced). The
 * blocks the manager posts to the main queue for its delegate are recorded in
 * `outbox`, oldest first, and consumed by the overlay controller.
 */
module Capture {
  import opened Wrappers
  import opened MetalTypes

  /** `CGWindowID`. */
  type WindowID = nat

  /** `SCWindow`, reduced to its window ID. */
  datatype Window = Window(windowID: WindowID)

  /** `SCDisplay`: an identifier and its size in points. */
  datatype Display = Display(displayID: nat, width: nat, height: nat)

  /** `SCShareableContent`: the displays and on-screen windows, in the order enumerated. */
  datatype ShareableContent = ShareableContent(displays: seq<Display>, windows: seq<Window>)

  /** `SCContentFilter(display:excludingWindows:)`. */
  datatype ContentFilter = ContentFilter(display: Display, excludingWindows: seq<Window>)

  /** `CMTime`: `value / timescale` seconds. */
  datatype CMTime = CMTime(value: int, timescale: int)

  function Seconds(t: CMTime): real
    requires t.timescale != 0
  {
    t.value as real / t.timescale as real
  }

  /** The `SCStreamConfiguration` fields the manager sets. */
  datatype StreamConfiguration = StreamConfiguration(
    width: nat,
    height: nat,
    minimumFrameInterval: CMTime,
    pixelFormat: PixelFormat,
    showsCursor: bool,
    queueDepth: nat)

  /** An `SCStream` as built: its filter and configuration. */
  datatype Stream = Stream(filter: ContentFilter, configuration: StreamConfiguration)

  /** `targetFrameRate`. */
  const TargetFrameRate: int := 30

  /** Why `startCapture` throws. */
  datatype StartError =
    | ShareableContentFailed  // the content query threw (for instance, no capture permission)
    | NoDisplay               // CaptureError.noDisplay
    | AddStreamOutputFailed   // addStreamOutput threw
    | StartCaptureFailed      // SCStream.startCapture threw

  /** The windows among `windows` whose ID is `id`, in their order. */
  function WindowsWithID(windows: seq<Window>, id: WindowID): (r: seq<Window>)
    ensures |r| <= |windows|
    ensures forall w :: w in r <==> w in windows && w.windowID == id
  {
    if windows == [] then []
    else (if windows[0].windowID == id then [windows[0]] else []) + WindowsWithID(windows[1..], id)
  }

  /** The excluded-window list: every shareable window with the excluded ID, none when no ID was set. */
  function ExcludedWindows(windows: seq<Window>, excludedID: Option<WindowID>): (r: seq<Window>)
    ensures excludedID.None? ==> r == []
    ensures forall w :: w in r <==> w in windows && excludedID == Some(w.windowID)
  {
    match excludedID
    case None => []
    case Some(id) => WindowsWithID(windows, id)
  }

  /** The stream configuration for a display. */
  function StreamConfigurationFor(display: Display): (c: StreamConfiguration)
    ensures c.width == 2 * display.width && c.height == 2 * display.height
    ensures c.minimumFrameInterval.timescale != 0 && Seconds(c.minimumFrameInterval) == 1.0 / 30.0
    ensures c.pixelFormat == BGRA32 && c.showsCursor && c.queueDepth == 3
  {
    StreamConfiguration(
      display.width * 2,
      display.height * 2,
      CMTime(1, TargetFrameRate),
      BGRA32,
      true,
      3)
  }

  /**
   * The part of `startCapture` before the stream exists: the first display,
   * the exclusion filter and the configuration; `noDisplay` when the query
   * found no display.
   */
  function PrepareStream(content: ShareableContent, excludedID: Option<WindowID>): (r: Result<Stream, StartError>)
    ensures r.Failure? <==> content.displays == []
    ensures r.Failure? ==> r.error == NoDisplay
    ensures r.Success? ==>
      && r.value.filter.display == content.displays[0]
      && (forall w :: w in r.value.filter.excludingWindows <==> w in content.windows && excludedID == Some(w.windowID))
      && r.value.configuration == StreamConfigurationFor(content.displays[0])
  {
    if content.displays == [] then Failure(NoDisplay)
    else
      var display := content.displays[0];
      Success(Stream(ContentFilter(display, ExcludedWindows(content.windows, excludedID)), StreamConfigurationFor(display)))
  }

  /** `SCStreamOutputType`. */
  datatype OutputType = Screen | Audio | Microphone

  /** A `CVPixelBuffer`: its size in pixels. */
  datatype PixelBuffer = PixelBuffer(width: nat, height: nat)

  /** A `CMSampleBuffer`: its image buffer, if any. */
  datatype SampleBuffer = SampleBuffer(imageBuffer: Option<PixelBuffer>)

  /** `kCVReturnSuccess`. */
  const KCVReturnSuccess: int := 0

  /**
   * What CoreVideo gives back for one frame: the status and `CVMetalTexture`
   * of `CVMetalTextureCacheCreateTextureFromImage`, and the handle
   * `CVMetalTextureGetTexture` returns for it (`None` for nil).
   */
  datatype TextureFromImage = TextureFromImage(status: int, cvTexture: Option<Option<nat>>)

  /**
   * The texture one sample buffer turns into, if it gets through the guard
   * chain; it has the pixel buffer's size and the `.bgra8Unorm` format.
   */
  function ConvertFrame(hasTextureCache: bool, sample: SampleBuffer, made: TextureFromImage): (r: Option<Texture>)
    ensures r.Some? <==>
      && hasTextureCache
      && sample.imageBuffer.Some?
      && made.status == KCVReturnSuccess
      && made.cvTexture.Some?
      && made.cvTexture.value.Some?
    ensures r.Some? ==>
      && r.value.width == sample.imageBuffer.value.width
      && r.value.height == sample.imageBuffer.value.height
      && r.value.handle == made.cvTexture.value.value
      && r.value.pixelFormat == BGRA8Unorm
  {
    if !hasTextureCache then None
    else if sample.imageBuffer.None? then None
    else
      var buffer := sample.imageBuffer.value;
      if made.status != KCVReturnSuccess || made.cvTexture.None? then None
      else if made.cvTexture.value.None? then None
      else Some(Texture(made.cvTexture.value.value, buffer.width, buffer.height, BGRA8Unorm))
  }

  /** What the manager posts to the main queue for its delegate. */
  datatype CaptureEvent = DidCaptureTexture(texture: Texture) | DidStop

  class ScreenCaptureManager {
    /** Whether `CVMetalTextureCacheCreate` produced a cache in `init`. */
    const hasTextureCache: bool
    var excludedWindowID: Option<WindowID>
    var stream: Option<Stream>
    var hasStreamOutput: bool
    /** Deliveries posted to the main queue and not yet run, oldest first. */
    var outbox: seq<CaptureEvent>

    constructor (textureCacheCreated: bool)
      ensures hasTextureCache == textureCacheCreated
      ensures excludedWindowID == None && stream == None && !hasStreamOutput && outbox == []
    {
      hasTextureCache := textureCacheCreated;
      excludedWindowID := None;
      stream := None;
      hasStreamOutput := false;
      outbox := [];
    }

    /** `setExcludedWindow`: stores the ID, so the last call wins. */
    method SetExcludedWindow(windowID: WindowID)
      modifies this`excludedWindowID
      ensures excludedWindowID == Some(windowID)
    {
      excludedWindowID := Some(windowID);
    }

    /**
     * `startCapture`. `content` is what the shareable-content query returned
     * (`None` when it threw), `addOutputSucceeds` and `startSucceeds` whether
     * `addStreamOutput` and `SCStream.startCapture` returned normally. The
     * stream and its output are stored before either of those two calls, so
     * they stay stored when one of them throws.
     */
    method StartCapture(content: Option<ShareableContent>, addOutputSucceeds: bool, startSucceeds: bool)
      returns (r: Outcome<StartError>)
      modifies this`stream, this`hasStreamOutput
      ensures content.None? ==> r == Fail(ShareableContentFailed)
      ensures var prepared := if content.None? then Failure(ShareableContentFailed) else PrepareStream(content.value, excludedWindowID);
        match prepared
        case Failure(e) =>
          r == Fail(e) && stream == old(stream) && hasStreamOutput == old(hasStreamOutput)
        case Success(s) =>
          && stream == Some(s) && hasStreamOutput
          && r == (if !addOutputSucceeds then Fail(AddStreamOutputFailed)
                   else if !startSucceeds then Fail(StartCaptureFailed)
                   else Pass)
    {
      if content.None? {
        return Fail(ShareableContentFailed);
      }
      var shareable := content.value;
      if shareable.displays == [] {
        return Fail(NoDisplay);
      }
      var display := shareable.displays[0];
      var excludedWindows := [];
      if excludedWindowID.Some? {
        excludedWindows := WindowsWithID(shareable.windows, excludedWindowID.value);
      }
      var filter := ContentFilter(display, excludedWindows);
      var config := StreamConfigurationFor(display);
      stream := Some(Stream(filter, config));
      hasStreamOutput := true;
      if !addOutputSucceeds {
        return Fail(AddStreamOutputFailed);
      }
      if !startSucceeds {
        return Fail(StartCaptureFailed);
      }
      return Pass;
    }

    /**
     * `stopCapture`: a no-op without a stream; otherwise the stream and its
     * output are dropped whether or not `SCStream.stopCapture` throws
     * (`stopThrows`), so a second call is a no-op.
     */
    method StopCapture(stopThrows: bool)
      modifies this`stream, this`hasStreamOutput
      ensures old(stream).None? ==> stream == None && hasStreamOutput == old(hasStreamOutput)
      ensures old(stream).Some? ==> stream == None && !hasStreamOutput
    {
      if stream.None? {
        return;
      }
      // Swift: the error of `stopCapture` is printed and dropped.
      stream := None;
      hasStreamOutput := false;
    }

    /** `processSampleBuffer`: drops the frame on any failure, else posts one texture delivery. */
    method ProcessSampleBuffer(sample: SampleBuffer, made: TextureFromImage)
      modifies this`outbox
      ensures var t := ConvertFrame(hasTextureCache, sample, made);
        outbox == old(outbox) + (if t.Some? then [DidCaptureTexture(t.value)] else [])
    {
      if !hasTextureCache { return; }
      if sample.imageBuffer.None? { return; }
      var width := sample.imageBuffer.value.width;
      var height := sample.imageBuffer.value.height;
      if made.status != KCVReturnSuccess || made.cvTexture.None? { return; }
      if made.cvTexture.value.None? { return; }
      var texture := Texture(made.cvTexture.value.value, width, height, BGRA8Unorm);
      outbox := outbox + [DidCaptureTexture(texture)];
    }

    /** `StreamOutput.stream(_:didOutputSampleBuffer:of:)`: only `.screen` buffers are processed. */
    method DidOutputSampleBuffer(sample: SampleBuffer, outputType: OutputType, made: TextureFromImage)
      modifies this`outbox
      ensures outputType != Screen ==> outbox == old(outbox)
      ensures outputType == Screen ==>
        var t := ConvertFrame(hasTextureCache, sample, made);
        outbox == old(outbox) + (if t.Some? then [DidCaptureTexture(t.value)] else [])
    {
      if outputType != Screen {
        return;
      }
      ProcessSampleBuffer(sample, made);
    }

    /** `stream(_:didStopWithError:)`: posts exactly one stop notification. */
    method DidStopWithError()
      modifies this`outbox
      ensures outbox == old(outbox) + [DidStop]
    {
      outbox := outbox + [DidStop];
    }
  }

  /** The excluded list splits along the window list: filtering a concatenation concatenates the filtered parts. */
  lemma {:induction false} WindowsWithIDSplits(windows: seq<Window>, other: seq<Window>, id: WindowID)
    ensures WindowsWithID(windows + other, id) == WindowsWithID(windows, id) + WindowsWithID(other, id)
  {
    if windows == [] {
      assert windows + other == other;
    } else {
      assert (windows + other)[1..] == windows[1..] + other;
      WindowsWithIDSplits(windows[1..], other, id);
    }
  }

  /** Windows that do not carry the ID add nothing to the excluded list, wherever they are appended. */
  lemma WindowsWithIDIgnoresOthers(windows: seq<Window>, id: WindowID, other: seq<Window>)
    requires forall w :: w in other ==> w.windowID != id
    ensures WindowsWithID(windows + other, id) == WindowsWithID(windows, id)
  {
    WindowsWithIDSplits(windows, other, id);
    WindowsWithIDNone(other, id);
  }

  /** A list with no window carrying the ID excludes nothing. */
  lemma {:induction false} WindowsWithIDNone(windows: seq<Window>, id: WindowID)
    requires forall w :: w in windows ==> w.windowID != id
    ensures WindowsWithID(windows, id) == []
  {
    if windows != [] {
      WindowsWithIDNone(windows[1..], id);
    }
  }
}
