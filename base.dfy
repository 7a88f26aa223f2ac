/** Shared vocabulary of the model: an optional value (JavaScript's
    `null`/`undefined` versus a present value) and the 0..255 byte that
    canvas pixel buffers (Uint8ClampedArray) hold. */
module Base {

  datatype Option<+T> = None | Some(value: T)

  /** One element of a canvas ImageData buffer. */
  type Byte = x: int | 0 <= x < 256

  /** Bytes per RGBA pixel in an ImageData buffer. */
  const Stride: nat := 4
}
