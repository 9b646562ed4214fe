/** The Renderer process (renderer.c:188-480, 890-965) as far as the heap
    and the control link are concerned: it enables its extensions,
    negotiates the heap layout, sends it to the Controller, imports the
    colour block and the output slots, and then echoes slot requests.
    Vulkan calls whose outcome decides a fatal error are inputs: the device
    extension list, the DeviceReport of the layout queries and the
    memory-type bits the device reports for an imported range. */
module RendererProcess {
  import opened Base
  import opened HeapLayout
  import opened ControlLink
  import opened Extensions

  /** One imported heap buffer: where it starts in the heap, how much of it
      is bound, and the memory type it was allocated with. */
  datatype HeapBuffer = HeapBuffer(offset: nat, size: nat, memoryType: bv32)

  /** renderer_alloc_heap_buffer: `importBits` is what the device reports
      for the dma-buf or host pointer of the range (None when it rejects
      it); the memory type is the lowest one both masks allow. */
  function ImportHeapBuffer(offset: nat, size: nat, reqBits: bv32, importBits: Option<bv32>): (r: Result<HeapBuffer>)
    ensures importBits.None? ==> r == Err(ImportRejected)
    ensures importBits.Some? ==> (r.Ok? <==> ChooseMemoryType(reqBits, importBits.value).Ok?)
    ensures importBits.Some? && r.Err? ==> r.error == NoUsableMemoryType
    ensures r.Ok? ==> r.value.offset == offset && r.value.size == size
    ensures r.Ok? ==> r.value.memoryType == ChooseMemoryType(reqBits, importBits.value).value
  {
    if importBits.None? then Err(ImportRejected)
    else
      var t := ChooseMemoryType(reqBits, importBits.value);
      if t.Err? then Err(t.error) else Ok(HeapBuffer(offset, size, t.value))
  }

  /** The slot indexes a sequence of requests decodes to: each received
      uint32 read as an int. */
  function Slots(requests: seq<u32>): (s: seq<int>)
    ensures |s| == |requests|
    ensures forall k :: 0 <= k < |requests| ==> ToU32(s[k]) == requests[k]
  {
    seq(|requests|, k requires 0 <= k < |requests| => ToI32(requests[k]))
  }

  /** Every request names one of the Renderer's command buffers. The
      Renderer does not check this itself (renderer.c:911, 922-923). */
  predicate ValidRequests(requests: seq<u32>, outputCount: nat)
  {
    forall k :: 0 <= k < |requests| ==> 0 <= ToI32(requests[k]) < outputCount
  }

  /** The import of output slot i of layout l, whose offsets are relative
      to `origin`, with the requirements q of an output buffer. */
  function SlotImport(probe: (nat, nat) -> Option<bv32>, origin: nat, l: Layout, q: BufferQuery, i: nat): Result<HeapBuffer>
  {
    ImportHeapBuffer(OutputOffset(l, i), l.outputSize, q.memoryTypeBits,
                     probe(origin + OutputOffset(l, i), l.outputSize))
  }

  class Renderer {
    const width: nat
    const height: nat
    const outputCount: nat
    const useUdmabuf: bool
    const heapSize: nat
    /** Address of the Renderer's own mapping of the heap. */
    const heapBase: nat
    /** The control link: requests in, layout and echoes out. */
    const ctrlIn: Pipe
    const ctrlOut: Pipe

    var enabledExtensions: seq<string>
    var layout: Layout
    var uboQuery: BufferQuery
    var outputQuery: BufferQuery
    var ubo: HeapBuffer
    var outputs: array<HeapBuffer>
    /** The command buffers submitted so far, by slot index. */
    var submitted: seq<int>

    constructor (width: nat, height: nat, outputCount: nat, ctrlIn: Pipe, ctrlOut: Pipe,
                 heapSize: nat, heapBase: nat, useUdmabuf: bool)
      ensures this.width == width && this.height == height && this.outputCount == outputCount
      ensures this.ctrlIn == ctrlIn && this.ctrlOut == ctrlOut
      ensures this.heapSize == heapSize && this.heapBase == heapBase && this.useUdmabuf == useUdmabuf
      ensures enabledExtensions == [] && submitted == [] && outputs.Length == 0
    {
      this.width := width;
      this.height := height;
      this.outputCount := outputCount;
      this.useUdmabuf := useUdmabuf;
      this.heapSize := heapSize;
      this.heapBase := heapBase;
      this.ctrlIn := ctrlIn;
      this.ctrlOut := ctrlOut;
      enabledExtensions := [];
      layout := Layout(0, 0, 0);
      uboQuery := BufferQuery(false, false, 0, 0);
      outputQuery := BufferQuery(false, false, 0, 0);
      ubo := HeapBuffer(0, 0, 0);
      outputs := new HeapBuffer[0];
      submitted := [];
    }

    /** The extension part of renderer_init_vk_device. */
    method InitVkDevice(available: seq<string>) returns (r: Outcome)
      modifies this`enabledExtensions
      ensures r.Pass? <==> Supported(useUdmabuf, available)
      ensures r.Fail? ==> r.fault == MissingExtensions
      ensures r.Pass? ==> enabledExtensions == RequiredNames(ExtensionTable(useUdmabuf))
    {
      var names := EnableExtensions(useUdmabuf, available);
      if names.Err? {
        return Fail(names.error);
      }
      enabledExtensions := names.value;
      r := Pass;
    }

    /** renderer_init_heap_layout (with the corrections of NegotiateLayout):
        the skip, then the colour block's size, then the slot size, then the
        fit check. */
    method InitHeapLayout(dev: DeviceReport) returns (r: Outcome)
      requires MemAlign(useUdmabuf, dev) > 0
      modifies this`layout, this`uboQuery, this`outputQuery
      ensures var n := NegotiateLayout(useUdmabuf, heapBase, heapSize, outputCount, dev);
              (r.Pass? <==> n.Ok?) && (r.Fail? ==> r.fault == n.error)
              && (r.Pass? ==> layout == n.value)
      ensures uboQuery == dev.uboQuery && outputQuery == dev.outputQuery
    {
      var memAlign := MemAlign(useUdmabuf, dev);
      var baseSkip := 0;
      if !useUdmabuf {
        var rem := heapBase % memAlign;
        baseSkip := if rem != 0 then memAlign - rem else 0;
      }
      assert baseSkip == SkipFor(useUdmabuf, heapBase, memAlign);
      uboQuery := dev.uboQuery;
      var uboSize := HeapBufferAlloc(uboQuery, memAlign);
      outputQuery := dev.outputQuery;
      if uboSize.Err? {
        return Fail(uboSize.error);
      }
      var outputSize := HeapBufferAlloc(outputQuery, memAlign);
      if outputSize.Err? {
        return Fail(outputSize.error);
      }
      layout := Layout(baseSkip, uboSize.value, outputSize.value);
      if !HeapFits(layout, outputCount, heapSize) {
        return Fail(HeapTooSmall);
      }
      r := Pass;
    }

    /** The three sends of `renderer` after the layout is known
        (renderer.c:951-953). */
    method SendLayout() returns (r: Outcome)
      modifies ctrlOut
      ensures ctrlOut.readerOpen == old(ctrlOut.readerOpen)
      ensures r == if ctrlOut.readerOpen then Pass else Fail(ShortWrite)
      ensures ctrlOut.buffered == if ctrlOut.readerOpen then old(ctrlOut.buffered) + LayoutMessage(layout)
                                  else old(ctrlOut.buffered)
    {
      r := ctrlOut.Send(ToU32(layout.baseSkip));
      if r.Fail? {
        return;
      }
      r := ctrlOut.Send(ToU32(layout.uboSize));
      r := ctrlOut.Send(ToU32(layout.outputSize));
    }

    /** The import of the colour block: at base_skip, ubo_size bytes. */
    function UboImport(probe: (nat, nat) -> Option<bv32>): Result<HeapBuffer>
      reads this`layout, this`uboQuery
    {
      ImportHeapBuffer(ColorBlockOffset(layout), layout.uboSize, uboQuery.memoryTypeBits,
                       probe(ImportOrigin(useUdmabuf, heapBase) + ColorBlockOffset(layout), layout.uboSize))
    }

    /** The import of output slot i. */
    function OutputImport(probe: (nat, nat) -> Option<bv32>, i: nat): Result<HeapBuffer>
      reads this`layout, this`outputQuery
    {
      SlotImport(probe, ImportOrigin(useUdmabuf, heapBase), layout, outputQuery, i)
    }

    /** renderer_init_heap_buffers: the colour block at base_skip, then the
        slots, advancing one offset by each buffer's size. `probe` answers
        the device's query for an import address (a dma-buf file offset or
        a host pointer) and a size. */
    method InitHeapBuffers(probe: (nat, nat) -> Option<bv32>) returns (r: Outcome)
      modifies this`ubo, this`outputs
      ensures r.Pass? <==> UboImport(probe).Ok? && forall i :: 0 <= i < outputCount ==> OutputImport(probe, i).Ok?
      ensures r.Fail? ==> r.fault in {ImportRejected, NoUsableMemoryType}
      ensures r.Fail? ==> (UboImport(probe).Err? && r.fault == UboImport(probe).error)
                          || (UboImport(probe).Ok? && exists j :: 0 <= j < outputCount && ImportFailsFirstAt(probe, j)
                                                                  && r.fault == OutputImport(probe, j).error)
      ensures r.Pass? ==> ubo == UboImport(probe).value && outputs.Length == outputCount
      ensures r.Pass? ==> forall i :: 0 <= i < outputCount ==> outputs[i] == OutputImport(probe, i).value
    {
      var offset := layout.baseSkip;
      var u := ImportHeapBuffer(offset, layout.uboSize, uboQuery.memoryTypeBits,
                                probe(ImportOrigin(useUdmabuf, heapBase) + offset, layout.uboSize));
      assert u == UboImport(probe);
      if u.Err? {
        return Fail(u.error);
      }
      ubo := u.value;
      offset := offset + layout.uboSize;
      var a;
      r, a := ImportOutputs(probe, offset);
      if r.Pass? {
        outputs := a;
      }
    }

    /** The loop of renderer_init_heap_buffers over the output slots,
        starting at the offset just past the colour block. */
    method ImportOutputs(probe: (nat, nat) -> Option<bv32>, start: nat) returns (r: Outcome, a: array<HeapBuffer>)
      requires start == OutputOffset(layout, 0)
      ensures fresh(a) && a.Length == outputCount
      ensures r.Pass? <==> forall i :: 0 <= i < outputCount ==> OutputImport(probe, i).Ok?
      ensures r.Fail? ==> exists j :: 0 <= j < outputCount && ImportFailsFirstAt(probe, j)
                                     && r.fault == OutputImport(probe, j).error
      ensures r.Pass? ==> forall i :: 0 <= i < outputCount ==> a[i] == OutputImport(probe, i).value
    {
      a := new HeapBuffer[outputCount](_ => HeapBuffer(0, 0, 0));
      ghost var origin := ImportOrigin(useUdmabuf, heapBase);
      var offset := start;
      for i := 0 to outputCount
        invariant offset == OutputOffset(layout, i)
        invariant forall k :: 0 <= k < i ==> SlotImport(probe, origin, layout, outputQuery, k).Ok?
                                             && a[k] == SlotImport(probe, origin, layout, outputQuery, k).value
      {
        var o := ImportHeapBuffer(offset, layout.outputSize, outputQuery.memoryTypeBits,
                                  probe(ImportOrigin(useUdmabuf, heapBase) + offset, layout.outputSize));
        assert o == SlotImport(probe, origin, layout, outputQuery, i);
        if o.Err? {
          assert ImportFailsFirstAt(probe, i);
          return Fail(o.error), a;
        }
        a[i] := o.value;
        OutputsConsecutive(layout, i);
        offset := offset + layout.outputSize;
      }
      r := Pass;
    }

    /** Slot j is the first whose import fails. */
    ghost predicate ImportFailsFirstAt(probe: (nat, nat) -> Option<bv32>, j: nat)
      reads this`layout, this`outputQuery
    {
      OutputImport(probe, j).Err? && forall i :: 0 <= i < j ==> OutputImport(probe, i).Ok?
    }

    /** renderer_render: submit the command buffer of slot `output`. */
    method Render(output: int)
      requires 0 <= output < outputCount
      modifies this`submitted
      ensures submitted == old(submitted) + [output]
    {
      submitted := submitted + [output];
    }

    /** renderer_mainloop: receive a slot, render it, send it back, until a
        read or a write fails. Every request must name a slot. */
    method MainLoop() returns (f: Fault)
      requires ctrlIn != ctrlOut
      requires ValidRequests(ctrlIn.buffered, outputCount)
      modifies this`submitted, ctrlIn, ctrlOut
      ensures ctrlIn.readerOpen == old(ctrlIn.readerOpen) && ctrlOut.readerOpen == old(ctrlOut.readerOpen)
      ensures ctrlOut.readerOpen || old(ctrlIn.buffered) == [] ==>
                f == ShortRead && ctrlIn.buffered == []
                && ctrlOut.buffered == old(ctrlOut.buffered) + (if ctrlOut.readerOpen then old(ctrlIn.buffered) else [])
                && submitted == old(submitted) + Slots(old(ctrlIn.buffered))
      ensures !ctrlOut.readerOpen && old(ctrlIn.buffered) != [] ==>
                f == ShortWrite && ctrlIn.buffered == old(ctrlIn.buffered)[1..]
                && ctrlOut.buffered == old(ctrlOut.buffered)
                && submitted == old(submitted) + [ToI32(old(ctrlIn.buffered)[0])]
    {
      ghost var requests := ctrlIn.buffered;
      var n := 0;
      while true
        invariant 0 <= n <= |requests| && ctrlIn.buffered == requests[n..]
        invariant ctrlIn.readerOpen == old(ctrlIn.readerOpen) && ctrlOut.readerOpen == old(ctrlOut.readerOpen)
        invariant ctrlOut.buffered == old(ctrlOut.buffered) + requests[..n]
        invariant !ctrlOut.readerOpen ==> n == 0
        invariant submitted == old(submitted) + Slots(requests[..n])
        decreases |ctrlIn.buffered|
      {
        var v := ctrlIn.Receive();
        if v.Err? {
          assert requests[..n] == requests;
          return ShortRead;
        }
        assert v.value == requests[n];
        var output := ToI32(v.value);
        Render(output);
        var s := ctrlOut.Send(ToU32(output));
        if s.Fail? {
          assert Slots(requests[..1]) == [output];
          return ShortWrite;
        }
        assert requests[..n + 1] == requests[..n] + [requests[n]];
        assert Slots(requests[..n + 1]) == Slots(requests[..n]) + [output];
        n := n + 1;
      }
    }

    /** Every heap buffer of the current layout imports. */
    ghost predicate ImportsOk(probe: (nat, nat) -> Option<bv32>)
      reads this`layout, this`uboQuery, this`outputQuery
    {
      UboImport(probe).Ok? && forall i :: 0 <= i < outputCount ==> OutputImport(probe, i).Ok?
    }

    /** `renderer` up to the layout send (renderer.c:946-953): enable the
        extensions, negotiate the layout, send it. */
    method Handshake(available: seq<string>, dev: DeviceReport) returns (r: Outcome)
      requires MemAlign(useUdmabuf, dev) > 0
      modifies this`enabledExtensions, this`layout, this`uboQuery, this`outputQuery, ctrlOut
      ensures ctrlOut.readerOpen == old(ctrlOut.readerOpen)
      ensures !Supported(useUdmabuf, available) ==>
                r == Fail(MissingExtensions) && ctrlOut.buffered == old(ctrlOut.buffered)
      ensures var n := NegotiateLayout(useUdmabuf, heapBase, heapSize, outputCount, dev);
              Supported(useUdmabuf, available) && n.Err? ==>
                r == Fail(n.error) && ctrlOut.buffered == old(ctrlOut.buffered)
      ensures var n := NegotiateLayout(useUdmabuf, heapBase, heapSize, outputCount, dev);
              Supported(useUdmabuf, available) && n.Ok? ==>
                layout == n.value && uboQuery == dev.uboQuery && outputQuery == dev.outputQuery
                && r == (if ctrlOut.readerOpen then Pass else Fail(ShortWrite))
                && ctrlOut.buffered == if ctrlOut.readerOpen then old(ctrlOut.buffered) + LayoutMessage(n.value)
                                       else old(ctrlOut.buffered)
    {
      r := InitVkDevice(available);
      if r.Fail? {
        return;
      }
      r := InitHeapLayout(dev);
      if r.Fail? {
        return;
      }
      r := SendLayout();
    }

    /** `renderer` from renderer_init_vk_device on: the Renderer's only
        output is the layout followed by one echo per request, and it ends
        on the first fatal error or when the requests run out. */
    method Run(available: seq<string>, dev: DeviceReport, probe: (nat, nat) -> Option<bv32>) returns (f: Fault)
      requires ctrlIn != ctrlOut
      requires MemAlign(useUdmabuf, dev) > 0
      requires ValidRequests(ctrlIn.buffered, outputCount)
      modifies this, ctrlIn, ctrlOut
      ensures !Supported(useUdmabuf, available) ==>
                f == MissingExtensions && ctrlOut.buffered == old(ctrlOut.buffered)
      ensures var n := NegotiateLayout(useUdmabuf, heapBase, heapSize, outputCount, dev);
              Supported(useUdmabuf, available) && n.Err? ==>
                f == n.error && ctrlOut.buffered == old(ctrlOut.buffered)
      ensures var n := NegotiateLayout(useUdmabuf, heapBase, heapSize, outputCount, dev);
              Supported(useUdmabuf, available) && n.Ok? && !old(ctrlOut.readerOpen) ==>
                f == ShortWrite && ctrlOut.buffered == old(ctrlOut.buffered)
      ensures var n := NegotiateLayout(useUdmabuf, heapBase, heapSize, outputCount, dev);
              Supported(useUdmabuf, available) && n.Ok? && old(ctrlOut.readerOpen) ==>
                layout == n.value
                && (!ImportsOk(probe) ==>
                      f in {ImportRejected, NoUsableMemoryType}
                      && ctrlOut.buffered == old(ctrlOut.buffered) + LayoutMessage(n.value))
                && (ImportsOk(probe) ==>
                      f == ShortRead
                      && ctrlOut.buffered == old(ctrlOut.buffered) + LayoutMessage(n.value) + old(ctrlIn.buffered)
                      && submitted == old(submitted) + Slots(old(ctrlIn.buffered)))
    {
      var ok := Handshake(available, dev);
      if ok.Fail? {
        return ok.fault;
      }
      ghost var sentLayout := ctrlOut.buffered;
      ok := InitHeapBuffers(probe);
      if ok.Fail? {
        return ok.fault;
      }
      f := MainLoop();
      assert ctrlOut.buffered == sentLayout + old(ctrlIn.buffered);
    }
  }
}
