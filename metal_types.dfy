/**
 * Values that cross from capture to rendering: Metal textures and pixel
 * formats, and the two-component vectors of `simd` (Halftone/Shaders/ShaderTypes.h).
 */
module MetalTypes {

  /** Pixel formats named by the core: `.bgra8Unorm` and `kCVPixelFormatType_32BGRA`. */
  datatype PixelFormat = BGRA8Unorm | BGRA32

  /** A GPU texture: an opaque handle and its size in pixels. */
  datatype Texture = Texture(handle: nat, width: nat, height: nat, pixelFormat: PixelFormat)

  /** `SIMD2<Float>`, with reals in place of floats. */
  datatype Vec2 = Vec2(x: real, y: real)
}
