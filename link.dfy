/** The control link (main.c:187-201, renderer.c:890-903): two one-way
    pipes of 32-bit values. Each direction is a Pipe. The two processes are
    not interleaved here: a Pipe holds every value its writer will ever put
    into it, so a read from an empty Pipe is the short read that follows the
    writer closing its end. */
module ControlLink {
  import opened Base
  import opened HeapLayout

  class Pipe {
    /** Values written and not yet read, oldest first. */
    var buffered: seq<u32>
    /** False once the reading process has closed its end; a write fails. */
    var readerOpen: bool

    constructor (contents: seq<u32>, readerOpen: bool)
      ensures buffered == contents && this.readerOpen == readerOpen
    {
      buffered := contents;
      this.readerOpen := readerOpen;
    }

    /** app_recv / renderer_recv: a read of exactly four bytes, fatal when
        fewer arrive. */
    method Receive() returns (r: Result<u32>)
      modifies this
      ensures readerOpen == old(readerOpen)
      ensures old(buffered) == [] ==> r == Err(ShortRead) && buffered == []
      ensures old(buffered) != [] ==> r == Ok(old(buffered)[0]) && buffered == old(buffered)[1..]
    {
      if buffered == [] {
        r := Err(ShortRead);
      } else {
        r := Ok(buffered[0]);
        buffered := buffered[1..];
      }
    }

    /** app_send / renderer_send: a write of exactly four bytes, fatal when
        the write does not go through. Once the reader is gone the write
        raises SIGPIPE, which ends the writer since neither process ignores
        it; Fail(ShortWrite) stands for that death. */
    method Send(v: u32) returns (r: Outcome)
      modifies this
      ensures readerOpen == old(readerOpen)
      ensures r == if old(readerOpen) then Pass else Fail(ShortWrite)
      ensures buffered == if old(readerOpen) then old(buffered) + [v] else old(buffered)
    {
      if readerOpen {
        buffered := buffered + [v];
        r := Pass;
      } else {
        r := Fail(ShortWrite);
      }
    }
  }

  /** The layout as the Renderer sends it (renderer.c:951-953): base_skip,
      ubo_size, output_size, each truncated to uint32. */
  function LayoutMessage(l: Layout): (m: seq<u32>)
    ensures |m| == 3
  {
    [ToU32(l.baseSkip), ToU32(l.uboSize), ToU32(l.outputSize)]
  }

  /** The layout as the Controller reads it (main.c:368-370): heap_skip,
      ubo_size, output_size, in that order, each widened to size_t. */
  function ReceivedLayout(m: seq<u32>): Layout
    requires |m| >= 3
  {
    Layout(m[0], m[1], m[2])
  }

  predicate FitsWire(l: Layout)
  {
    l.baseSkip < U32_LIMIT && l.uboSize < U32_LIMIT && l.outputSize < U32_LIMIT
  }

  /** The Controller learns exactly the Renderer's layout if and only if
      none of the three values needs more than 32 bits. */
  lemma LayoutRoundTrip(l: Layout)
    ensures ReceivedLayout(LayoutMessage(l)) == l <==> FitsWire(l)
  {
    if !FitsWire(l) {
      var v := if l.baseSkip >= U32_LIMIT then l.baseSkip
               else if l.uboSize >= U32_LIMIT then l.uboSize else l.outputSize;
      assert ToU32(v) < U32_LIMIT <= v;
    }
  }

  /** A slot index survives the trip Controller -> Renderer -> Controller:
      the Renderer reads request `ToU32(slot)` as the int `slot` (the command
      buffer it submits) and sends back the value the Controller compares
      against. */
  lemma SlotRoundTrip(slot: int)
    requires 0 <= slot < I32_LIMIT
    ensures ToI32(ToU32(slot)) == slot
    ensures ToU32(ToI32(ToU32(slot))) == ToU32(slot)
  {
  }
}
