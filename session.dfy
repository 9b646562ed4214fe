/** The two processes together: what the Renderer sends during the
    handshake is what the Controller accepts, and the requests the
    Controller sends are slots the Renderer can render. */
module Session {
  import opened Base
  import opened HeapLayout
  import opened ControlLink
  import opened Traversal
  import opened Controller
  import opened RendererProcess

  /** When the device's requirements cover the colour block and the image
      (as Vulkan guarantees for buffers created with those sizes) and the
      negotiated values fit the 32-bit link, the Controller receives exactly
      the Renderer's layout and all three of its checks pass: both processes
      place the colour block and every slot at the same heap offsets. */
  lemma HandshakeAgreement(useUdmabuf: bool, heapBase: nat, heapSize: nat, outputCount: nat,
                           dev: DeviceReport, width: nat, height: nat)
    requires MemAlign(useUdmabuf, dev) > 0
    requires NegotiateLayout(useUdmabuf, heapBase, heapSize, outputCount, dev).Ok?
    requires dev.uboQuery.requiredSize >= COLOR_BLOCK_BYTES
    requires dev.outputQuery.requiredSize >= width * height * BYTES_PER_PIXEL
    requires FitsWire(NegotiateLayout(useUdmabuf, heapBase, heapSize, outputCount, dev).value)
    ensures var l := NegotiateLayout(useUdmabuf, heapBase, heapSize, outputCount, dev).value;
            ReceivedLayout(LayoutMessage(l)) == l
            && ControllerAccepts(ReceivedLayout(LayoutMessage(l)), width * height * BYTES_PER_PIXEL,
                                 outputCount, heapSize)
  {
    var l := NegotiateLayout(useUdmabuf, heapBase, heapSize, outputCount, dev).value;
    LayoutRoundTrip(l);
  }

  /** Every request of the Controller's traversal is a slot the Renderer
      accepts, and the Renderer reads back the very slot the Controller
      meant: the `int` received is FrameSlot(count, k). */
  lemma RequestsAreValidSlots(outputCount: nat, n: nat)
    requires 2 <= outputCount < I32_LIMIT
    ensures ValidRequests(Requests(outputCount, n), outputCount)
    ensures forall k :: 0 <= k < n ==> Slots(Requests(outputCount, n))[k] == FrameSlot(outputCount, k)
  {
    forall k | 0 <= k < n
      ensures ToI32(Requests(outputCount, n)[k]) == FrameSlot(outputCount, k)
    {
      StepsValid(outputCount, k);
      SlotRoundTrip(FrameSlot(outputCount, k));
    }
  }

  /** With the fit check as written the Renderer can accept a layout that
      the Controller then rejects: a host-pointer heap at 4096 with an 8192
      alignment skips 4096 bytes, and an 8192-byte colour block plus two
      8192-byte slots "fit" a 24576-byte heap. The corrected negotiation
      refuses the same device. */
  lemma AsWrittenHandshakeAborts()
    ensures var q := BufferQuery(true, false, 100, 1);
            var dev := DeviceReport(8192, 4096, q, q);
            var l := Layout(4096, 8192, 8192);
            NegotiateLayoutAsWritten(false, 4096, 24576, 1, 1, 2, dev) == Ok(l)
            && FitsWire(l)
            && !ControllerAccepts(ReceivedLayout(LayoutMessage(l)), 4, 2, 24576)
            && RejectionFault(ReceivedLayout(LayoutMessage(l)), 4) == HeapTooSmall
            && NegotiateLayout(false, 4096, 24576, 2, dev) == Err(HeapTooSmall)
  {
    var q := BufferQuery(true, false, 100, 1);
    var dev := DeviceReport(8192, 4096, q, q);
    var l := Layout(4096, 8192, 8192);
    assert BaseSkip(4096, 8192) == 4096;
    assert HeapBufferAlloc(q, 8192) == Ok(8192);
    LayoutRoundTrip(l);
  }
}
