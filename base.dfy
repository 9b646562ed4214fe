/** Vocabulary shared by the Controller (main.c) and the Renderer
    (renderer.c): the 32-bit values carried by the control link, the C
    integer conversions applied to them, the fatal conditions both processes
    abort on, and the result wrappers that stand for "continue or abort". */
module Base {

  const U32_LIMIT: int := 0x1_0000_0000
  const I32_LIMIT: int := 0x8000_0000

  /** A uint32_t: the only kind of value the control link carries. */
  type u32 = x: int | 0 <= x < U32_LIMIT

  /** C's conversion of an integer (size_t, VkDeviceSize or int) to uint32_t:
      reduction modulo 2^32. */
  function ToU32(x: int): (v: u32)
    ensures 0 <= x < U32_LIMIT ==> v == x
    ensures (x - v) % U32_LIMIT == 0
  {
    x % U32_LIMIT
  }

  /** The conversion `const int output = renderer_recv(...)`: a uint32_t read
      as a two's-complement 32-bit int. Converting back with ToU32 gives the
      value that was read, so an echo through an int loses nothing. */
  function ToI32(v: u32): (x: int)
    ensures -I32_LIMIT <= x < I32_LIMIT
    ensures ToU32(x) == v
    ensures v < I32_LIMIT ==> x == v
  {
    if v < I32_LIMIT then v else v - U32_LIMIT
  }

  /** Every condition on which either process prints a diagnostic and
      aborts (app_fatal / renderer_fatal), restricted to the modelled core. */
  datatype Fault =
    | ShortRead              // "failed to receive a value"
    | ShortWrite             // a write to a closed pipe: neither process ignores
                             // SIGPIPE, so the signal ends it before
                             // "failed to send a value" can be printed
    | UnexpectedOutput       // the Renderer echoed a different slot
    | InvalidRendererArgs    // a renderer- token that does not scan
    | RendererStringTooLong  // the renderer- token does not fit 32 bytes
    | InvalidUboSize         // received colour block smaller than a vec4
    | InvalidOutputSize      // received slot smaller than one image
    | HeapTooSmall           // the layout does not fit the heap
    | NotImportable          // external memory not importable
    | DedicatedSizeConflict  // rounding needed but allocation is dedicated-only
    | ImportRejected         // the device rejected the heap range to import
    | NoUsableMemoryType     // no memory type both wanted and importable
    | MissingExtensions      // a required device extension is absent

  datatype Option<T> = None | Some(value: T)

  datatype Result<T> = Ok(value: T) | Err(error: Fault)

  /** The outcome of a step that produces no value. */
  datatype Outcome = Pass | Fail(fault: Fault)
}
