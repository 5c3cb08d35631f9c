/**
 * The Metal renderer (Halftone/Core/HalftoneRenderer.swift): a fixed
 * full-screen quad, a last-writer-wins texture slot, the uniforms, and a
 * `draw` that is a guard chain followed by encode, present and commit.
 *
 * Device calls are opaque: a `GpuSetup` says which setup calls succeed and a
 * `DrawEnv` what the view and queue hand out at draw time. The command
 * buffers the renderer commits are recorded, in order, in `gpuLog`.
 */
module Rendering {
  import opened Wrappers
  import opened MetalTypes
  import State

  /** `Vertex` of ShaderTypes.h: clip-space position and texture coordinate. */
  datatype Vertex = Vertex(position: Vec2, texCoord: Vec2)

  /** `HalftoneUniforms` of ShaderTypes.h. */
  datatype Uniforms = Uniforms(dotSize: real, intensity: real, screenSize: Vec2)

  /** Argument-table indices from ShaderTypes.h. */
  const VertexInputIndexVertices: nat := 0
  const TextureIndexScreen: nat := 0
  /** The uniforms go to fragment buffer 0. */
  const FragmentUniformsIndex: nat := 0

  /** The uniforms the renderer starts with. */
  const InitialUniforms := Uniforms(8.0, 1.0, Vec2(0.0, 0.0))

  /** The full-screen quad of `setupVertexBuffer`: two triangles, six vertices. */
  const Quad: seq<Vertex> := [
    Vertex(Vec2(-1.0, -1.0), Vec2(0.0, 1.0)),
    Vertex(Vec2(1.0, -1.0), Vec2(1.0, 1.0)),
    Vertex(Vec2(-1.0, 1.0), Vec2(0.0, 0.0)),
    Vertex(Vec2(1.0, -1.0), Vec2(1.0, 1.0)),
    Vertex(Vec2(1.0, 1.0), Vec2(1.0, 0.0)),
    Vertex(Vec2(-1.0, 1.0), Vec2(0.0, 0.0))
  ]

  /** A corner of the clip-space square [-1,1]². */
  predicate IsCorner(p: Vec2) {
    (p.x == -1.0 || p.x == 1.0) && (p.y == -1.0 || p.y == 1.0)
  }

  /** Texture coordinate of a clip-space point, flipped vertically (top-left origin). */
  function FlippedTexCoord(p: Vec2): Vec2 {
    Vec2((p.x + 1.0) / 2.0, (1.0 - p.y) / 2.0)
  }

  function Positions(vs: seq<Vertex>): set<Vec2> {
    set v | v in vs :: v.position
  }

  const Corners: set<Vec2> := {Vec2(-1.0, -1.0), Vec2(1.0, -1.0), Vec2(-1.0, 1.0), Vec2(1.0, 1.0)}

  /** Every vertex is a corner and carries the flipped texture coordinate of its position. */
  lemma QuadVerticesAreFlippedCorners()
    ensures |Quad| == 6
    ensures forall i :: 0 <= i < |Quad| ==> IsCorner(Quad[i].position) && Quad[i].texCoord == FlippedTexCoord(Quad[i].position)
  {
  }

  /** Together the two triangles use all four corners and share exactly the diagonal (1,-1)–(-1,1). */
  lemma QuadTrianglesShareDiagonal()
    ensures Positions(Quad) == Corners
    ensures Positions(Quad[..3]) * Positions(Quad[3..]) == {Vec2(1.0, -1.0), Vec2(-1.0, 1.0)}
    ensures |Positions(Quad[..3])| == 3 && |Positions(Quad[3..])| == 3
  {
    assert Quad[..3] == [Quad[0], Quad[1], Quad[2]];
    assert Quad[3..] == [Quad[3], Quad[4], Quad[5]];
    assert Positions(Quad[..3]) == {Vec2(-1.0, -1.0), Vec2(1.0, -1.0), Vec2(-1.0, 1.0)};
    assert Positions(Quad[3..]) == {Vec2(1.0, -1.0), Vec2(1.0, 1.0), Vec2(-1.0, 1.0)};
    assert Positions(Quad) == Positions(Quad[..3]) + Positions(Quad[3..]) by {
      assert Quad == Quad[..3] + Quad[3..];
    }
  }

  /** The shader entry points and the colour format `setupPipeline` compiles. */
  datatype PipelineState = PipelineState(vertexFunction: string, fragmentFunction: string, colorPixelFormat: PixelFormat)

  const HalftonePipeline := PipelineState("vertexShader", "fragmentShader", BGRA8Unorm)

  /** Which device calls succeed while the renderer is set up. */
  datatype GpuSetup = GpuSetup(
    commandQueue: bool,     // makeCommandQueue() returns a queue
    defaultLibrary: bool,   // makeDefaultLibrary() returns a library
    shaderFunctions: bool,  // both makeFunction(name:) calls return a function
    pipelineCompiles: bool, // makeRenderPipelineState does not throw
    vertexBuffer: bool)     // makeBuffer returns a buffer

  /** `setupPipeline`: a pipeline exists only when every step of the chain succeeds. */
  function SetupPipeline(gpu: GpuSetup): (p: Option<PipelineState>)
    ensures p.Some? <==> gpu.defaultLibrary && gpu.shaderFunctions && gpu.pipelineCompiles
    ensures p.Some? ==> p.value.colorPixelFormat == BGRA8Unorm
  {
    if gpu.defaultLibrary && gpu.shaderFunctions && gpu.pipelineCompiles then Some(HalftonePipeline) else None
  }

  /** `currentDrawable` of the view: an opaque handle. */
  type Drawable = nat

  /** What the view and the command queue hand out to one `draw(in:)`. */
  datatype DrawEnv = DrawEnv(
    currentDrawable: Option<Drawable>,
    hasRenderPassDescriptor: bool,
    drawableSize: Vec2,
    commandBufferCreated: bool,
    encoderCreated: bool)

  datatype PrimitiveType = Triangle

  /** The calls a draw makes on its render encoder and command buffer. */
  datatype GpuCall =
    | SetRenderPipelineState(pipeline: PipelineState)
    | SetVertexBuffer(buffer: seq<Vertex>, offset: nat, index: nat)
    | SetFragmentTexture(texture: Texture, index: nat)
    | SetFragmentBytes(uniforms: Uniforms, index: nat)
    | DrawPrimitives(primitive: PrimitiveType, vertexStart: nat, vertexCount: nat)
    | EndEncoding
    | Present(drawable: Drawable)
    | Commit

  predicate IsEncoderCall(c: GpuCall) {
    c.SetRenderPipelineState? || c.SetVertexBuffer? || c.SetFragmentTexture? || c.SetFragmentBytes? || c.DrawPrimitives?
  }

  /** `a` is issued at some position strictly before some `b`. */
  predicate Precedes(calls: seq<GpuCall>, a: GpuCall, b: GpuCall) {
    exists i, j :: 0 <= i < j < |calls| && calls[i] == a && calls[j] == b
  }

  /** The command stream of one frame that clears every guard. */
  function EncodeFrame(pipeline: PipelineState, buffer: seq<Vertex>, texture: Texture, uniforms: Uniforms, drawable: Drawable): seq<GpuCall> {
    [ SetRenderPipelineState(pipeline),
      SetVertexBuffer(buffer, 0, VertexInputIndexVertices),
      SetFragmentTexture(texture, TextureIndexScreen),
      SetFragmentBytes(uniforms, FragmentUniformsIndex),
      DrawPrimitives(Triangle, 0, 6),
      EndEncoding,
      Present(drawable),
      Commit ]
  }

  /**
   * One frame binds the texture and the uniforms before a 6-vertex triangle
   * draw covering the whole quad, ends encoding before present, and commits
   * last; every encoder call comes before `EndEncoding`.
   */
  lemma EncodeFrameOrder(pipeline: PipelineState, texture: Texture, uniforms: Uniforms, drawable: Drawable)
    ensures var calls := EncodeFrame(pipeline, Quad, texture, uniforms, drawable);
      && Precedes(calls, SetFragmentTexture(texture, TextureIndexScreen), DrawPrimitives(Triangle, 0, |Quad|))
      && Precedes(calls, SetFragmentBytes(uniforms, FragmentUniformsIndex), DrawPrimitives(Triangle, 0, |Quad|))
      && Precedes(calls, EndEncoding, Present(drawable))
      && Precedes(calls, Present(drawable), Commit)
      && calls[|calls| - 1] == Commit
      && calls[|calls| - 3] == EndEncoding
      && (forall i :: 0 <= i < |calls| && IsEncoderCall(calls[i]) ==> i < |calls| - 3)
  {
    var calls := EncodeFrame(pipeline, Quad, texture, uniforms, drawable);
    assert calls[2] == SetFragmentTexture(texture, TextureIndexScreen) && calls[4] == DrawPrimitives(Triangle, 0, |Quad|);
    assert calls[3] == SetFragmentBytes(uniforms, FragmentUniformsIndex);
    assert calls[5] == EndEncoding && calls[6] == Present(drawable) && calls[7] == Commit;
  }

  /** Every texture bound in a stretch of calls is `t`. */
  predicate BindsOnly(calls: seq<GpuCall>, t: Texture) {
    forall i :: 0 <= i < |calls| && calls[i].SetFragmentTexture? ==> calls[i].texture == t
  }

  class HalftoneRenderer {
    var pipelineState: Option<PipelineState>
    var vertexBuffer: Option<seq<Vertex>>
    var screenTexture: Option<Texture>
    var uniforms: Uniforms
    /** Every call committed to the command queue so far, oldest first. */
    var gpuLog: seq<GpuCall>

    /** Whatever setup produced is the halftone pipeline and the quad. */
    ghost predicate Valid()
      reads this
    {
      && (pipelineState.Some? ==> pipelineState.value == HalftonePipeline)
      && (vertexBuffer.Some? ==> vertexBuffer.value == Quad)
    }

    /** `init?(device:)` once the command queue exists: runs both setup steps. */
    constructor (gpu: GpuSetup)
      requires gpu.commandQueue
      ensures Valid()
      ensures pipelineState == SetupPipeline(gpu)
      ensures vertexBuffer == (if gpu.vertexBuffer then Some(Quad) else None)
      ensures screenTexture == None && uniforms == InitialUniforms && gpuLog == []
    {
      pipelineState := SetupPipeline(gpu);
      vertexBuffer := if gpu.vertexBuffer then Some(Quad) else None;
      screenTexture := None;
      uniforms := InitialUniforms;
      gpuLog := [];
    }

    /** The guards of `draw(in:)` before the uniforms are refreshed. */
    predicate ResourcesReady(env: DrawEnv)
      reads this
    {
      && pipelineState.Some?
      && vertexBuffer.Some?
      && screenTexture.Some?
      && env.currentDrawable.Some?
      && env.hasRenderPassDescriptor
    }

    /** The calls one draw commits: none unless every guard passes. */
    function FrameCalls(env: DrawEnv, refreshed: Uniforms): seq<GpuCall>
      reads this
    {
      if ResourcesReady(env) && env.commandBufferCreated && env.encoderCreated
      then EncodeFrame(pipelineState.value, vertexBuffer.value, screenTexture.value, refreshed, env.currentDrawable.value)
      else []
    }

    /** `updateScreenTexture`: the last texture written wins. */
    method UpdateScreenTexture(texture: Texture)
      modifies this`screenTexture
      ensures screenTexture == Some(texture)
    {
      screenTexture := Some(texture);
    }

    /** `updateUniforms`: sets all three uniforms. */
    method UpdateUniforms(dotSize: real, intensity: real, screenSize: Vec2)
      modifies this`uniforms
      ensures uniforms == Uniforms(dotSize, intensity, screenSize)
    {
      uniforms := Uniforms(dotSize, intensity, screenSize);
    }

    /** `mtkView(_:drawableSizeWillChange:)`: only the screen size changes. */
    method DrawableSizeWillChange(size: Vec2)
      modifies this`uniforms
      ensures uniforms == old(uniforms).(screenSize := size)
    {
      uniforms := uniforms.(screenSize := size);
    }

    /**
     * `draw(in:)`: a missing pipeline, vertex buffer, texture, drawable or
     * render-pass descriptor makes it a no-op; otherwise the uniforms are
     * refreshed from the settings and the drawable size, and the frame is
     * encoded, presented and committed unless the command buffer or encoder
     * cannot be made.
     */
    method Draw(env: DrawEnv, state: State.AppState)
      requires Valid()
      modifies this`uniforms, this`gpuLog
      ensures Valid()
      ensures var refreshed := Uniforms(state.DotSize(), state.intensity, env.drawableSize);
        && uniforms == (if old(ResourcesReady(env)) then refreshed else old(uniforms))
        && gpuLog == old(gpuLog) + old(FrameCalls(env, refreshed))
    {
      if pipelineState.None? { return; }
      if vertexBuffer.None? { return; }
      if screenTexture.None? { return; }
      if env.currentDrawable.None? { return; }
      if !env.hasRenderPassDescriptor { return; }

      uniforms := uniforms.(dotSize := state.DotSize());
      uniforms := uniforms.(intensity := state.intensity);
      uniforms := uniforms.(screenSize := env.drawableSize);

      if !env.commandBufferCreated || !env.encoderCreated { return; }

      var encoder := [];
      encoder := encoder + [SetRenderPipelineState(pipelineState.value)];
      encoder := encoder + [SetVertexBuffer(vertexBuffer.value, 0, VertexInputIndexVertices)];
      encoder := encoder + [SetFragmentTexture(screenTexture.value, TextureIndexScreen)];
      encoder := encoder + [SetFragmentBytes(uniforms, FragmentUniformsIndex)];
      encoder := encoder + [DrawPrimitives(Triangle, 0, 6)];
      encoder := encoder + [EndEncoding];
      gpuLog := gpuLog + encoder + [Present(env.currentDrawable.value), Commit];
    }
  }

  /** `init?(device:)`: fails (nil) exactly when no command queue can be made. */
  method NewRenderer(gpu: GpuSetup) returns (r: HalftoneRenderer?)
    ensures r == null <==> !gpu.commandQueue
    ensures r != null ==>
      && fresh(r) && r.Valid() && r.pipelineState == SetupPipeline(gpu)
      && r.vertexBuffer == (if gpu.vertexBuffer then Some(Quad) else None)
      && r.screenTexture == None && r.uniforms == InitialUniforms && r.gpuLog == []
  {
    if !gpu.commandQueue {
      return null;
    }
    r := new HalftoneRenderer(gpu);
  }

  /** A draw that clears the guards commits exactly one frame drawing the quad with the current texture. */
  lemma ReadyDrawCommitsOneFrame(r: HalftoneRenderer, env: DrawEnv, refreshed: Uniforms)
    requires r.Valid() && r.ResourcesReady(env) && env.commandBufferCreated && env.encoderCreated
    ensures var calls := r.FrameCalls(env, refreshed);
      && |calls| == 8
      && calls[4] == DrawPrimitives(Triangle, 0, |Quad|)
      && calls[1].buffer == Quad
      && BindsOnly(calls, r.screenTexture.value)
      && Precedes(calls, SetFragmentBytes(refreshed, FragmentUniformsIndex), DrawPrimitives(Triangle, 0, |Quad|))
      && Precedes(calls, EndEncoding, Present(env.currentDrawable.value))
      && Precedes(calls, Present(env.currentDrawable.value), Commit)
  {
    EncodeFrameOrder(r.pipelineState.value, r.screenTexture.value, refreshed, env.currentDrawable.value);
  }
}
