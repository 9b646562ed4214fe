/** The Controller process (main.c:161-284, 364-373): it receives the heap
    layout, points into its own mapping of the heap, and then renders and
    presents frames, asking the Renderer for one slot per frame and checking
    the echo. The window, the event queue, the image upload and the colour
    values are not modelled. */
module Controller {
  import opened Base
  import opened HeapLayout
  import opened ControlLink
  import opened Coherency
  import opened Traversal

  /** The checks of app_init_memories (main.c:179-184): a colour block of at
      least a vec4, slots of at least one image, and everything from the
      start of the heap to the end of the last slot inside the heap. */
  predicate ControllerAccepts(l: Layout, imgSize: nat, outputCount: nat, heapSize: nat)
  {
    l.uboSize >= COLOR_BLOCK_BYTES && l.outputSize >= imgSize && HeapFits(l, outputCount, heapSize)
  }

  /** The fault app_init_memories aborts with, checked in its order. */
  function RejectionFault(l: Layout, imgSize: nat): Fault
  {
    if l.uboSize < COLOR_BLOCK_BYTES then InvalidUboSize
    else if l.outputSize < imgSize then InvalidOutputSize
    else HeapTooSmall
  }

  /** The request the Controller sends in frame k: the slot, as uint32. */
  function Request(count: int, k: nat): u32
  {
    ToU32(FrameSlot(count, k))
  }

  /** The requests of the first n frames. */
  function Requests(count: int, n: nat): (s: seq<u32>)
    ensures |s| == n
  {
    seq(n, k requires 0 <= k => Request(count, k))
  }

  /** The cache maintenance of app_render_frame: a fence and one flush of
      the colour block, only when the heap is incoherent. */
  function RenderOps(isCoherent: bool, ubo: nat): seq<CacheOp>
  {
    if isCoherent then [] else [Fence, Flush(ubo)]
  }

  /** The cache maintenance of app_present_frame: a flush of every line of
      the slot, then a fence, only when the heap is incoherent. */
  function PresentOps(isCoherent: bool, slot: nat, imgSize: nat): seq<CacheOp>
  {
    if isCoherent then [] else Flushes(FlushLines(slot, imgSize)) + [Fence]
  }

  /** Presenting from a coherent heap issues nothing. From an incoherent
      one it flushes ceil(imgSize / 64) addresses, all inside the slot,
      and then fences. */
  lemma PresentOpsInSlot(slot: nat, imgSize: nat)
    ensures PresentOps(true, slot, imgSize) == []
    ensures var ops := PresentOps(false, slot, imgSize);
            |ops| == LineCount(imgSize) + 1 && ops[|ops| - 1] == Fence
            && forall k :: 0 <= k < |ops| - 1 ==> ops[k].Flush? && slot <= ops[k].addr < slot + imgSize
  {
    var ops := PresentOps(false, slot, imgSize);
    forall k | 0 <= k < |ops| - 1
      ensures ops[k].Flush? && slot <= ops[k].addr < slot + imgSize
    {
      FlushLinesInRange(slot, imgSize, k);
    }
  }

  /** Every byte of the slot lies in the 64-byte line of one of the
      flushes issued before the fence. */
  lemma PresentOpsCoverSlot(slot: nat, imgSize: nat, b: nat)
    requires slot <= b < slot + imgSize
    ensures var ops := PresentOps(false, slot, imgSize);
            var k := (b - slot) / CACHE_LINE;
            k < |ops| - 1 && ops[k].Flush? && ops[k].addr <= b < ops[k].addr + CACHE_LINE
  {
    FlushLinesCover(slot, imgSize, b);
  }

  /** The cache maintenance of the first n frames, over slot pointers
      `slots`. */
  function CacheTrace(isCoherent: bool, ubo: nat, slots: seq<nat>, imgSize: nat, n: nat): (ops: seq<CacheOp>)
    requires |slots| >= 2
    ensures isCoherent ==> ops == []
  {
    if n == 0 then []
    else
      StepsValid(|slots|, n - 1);
      CacheTrace(isCoherent, ubo, slots, imgSize, n - 1) + RenderOps(isCoherent, ubo)
        + PresentOps(isCoherent, slots[FrameSlot(|slots|, n - 1)], imgSize)
  }

  /** Helpers for the main loop's invariant: one more request, one more
      reply consumed, and regrouping of appended traces. */
  lemma RequestsNext(count: int, n: nat)
    ensures Requests(count, n + 1) == Requests(count, n) + [Request(count, n)]
  {
  }

  lemma ReplyNext(replies: seq<u32>, n: nat)
    requires n <= |replies|
    ensures n < |replies| ==> replies[..n + 1] == replies[..n] + [replies[n]]
    ensures n < |replies| ==> replies[n..] != [] && replies[n..][0] == replies[n] && replies[n..][1..] == replies[n + 1..]
    ensures n == |replies| ==> replies[n..] == []
  {
  }

  lemma Assoc<T>(a: seq<T>, b: seq<T>, c: seq<T>)
    ensures (a + b) + c == a + (b + c)
  {
  }

  class App {
    const width: nat
    const height: nat
    const outputCount: nat
    const heapSize: nat
    const isCoherent: bool
    /** Address of the Controller's mapping of the heap. */
    const heapBase: nat
    /** B8G8R8A8 bytes of one window image (main.c:155). */
    const imgSize: nat
    /** The control link: layout and echoes in, requests out. */
    const fromRenderer: Pipe
    const toRenderer: Pipe

    /** mems.ubo and mems.outputs: pointers into the heap. */
    var uboPtr: nat
    var outputs: array<nat>
    /** The cache maintenance issued so far. */
    var cacheOps: seq<CacheOp>

    constructor (width: nat, height: nat, outputCount: nat, heapSize: nat, isCoherent: bool,
                 heapBase: nat, fromRenderer: Pipe, toRenderer: Pipe)
      ensures this.width == width && this.height == height && this.outputCount == outputCount
      ensures this.heapSize == heapSize && this.isCoherent == isCoherent && this.heapBase == heapBase
      ensures this.fromRenderer == fromRenderer && this.toRenderer == toRenderer
      ensures imgSize == width * height * BYTES_PER_PIXEL
      ensures cacheOps == [] && outputs.Length == 0
    {
      this.width := width;
      this.height := height;
      this.outputCount := outputCount;
      this.heapSize := heapSize;
      this.isCoherent := isCoherent;
      this.heapBase := heapBase;
      this.imgSize := width * height * BYTES_PER_PIXEL;
      this.fromRenderer := fromRenderer;
      this.toRenderer := toRenderer;
      uboPtr := heapBase;
      outputs := new nat[0];
      cacheOps := [];
    }

    /** heap_skip, ubo_size, output_size, in that order (main.c:368-370). */
    method ReceiveLayout() returns (r: Result<Layout>)
      modifies fromRenderer
      ensures fromRenderer.readerOpen == old(fromRenderer.readerOpen)
      ensures |old(fromRenderer.buffered)| >= 3 ==>
                r == Ok(ReceivedLayout(old(fromRenderer.buffered)))
                && fromRenderer.buffered == old(fromRenderer.buffered)[3..]
      ensures |old(fromRenderer.buffered)| < 3 ==> r == Err(ShortRead) && fromRenderer.buffered == []
    {
      var heapSkip := fromRenderer.Receive();
      if heapSkip.Err? {
        return Err(ShortRead);
      }
      var uboSize := fromRenderer.Receive();
      if uboSize.Err? {
        return Err(ShortRead);
      }
      var outputSize := fromRenderer.Receive();
      if outputSize.Err? {
        return Err(ShortRead);
      }
      r := Ok(Layout(heapSkip.value, uboSize.value, outputSize.value));
    }

    /** app_init_memories: the colour block pointer, then one pointer per
        slot advancing by output_size, then the three checks. */
    method InitMemories(l: Layout) returns (r: Outcome)
      modifies this`uboPtr, this`outputs
      ensures fresh(outputs) && outputs.Length == outputCount
      ensures uboPtr == heapBase + ColorBlockOffset(l)
      ensures forall i :: 0 <= i < outputCount ==> outputs[i] == heapBase + OutputOffset(l, i)
      ensures r.Pass? <==> ControllerAccepts(l, imgSize, outputCount, heapSize)
      ensures r.Fail? ==> r.fault == RejectionFault(l, imgSize)
    {
      var ptr := heapBase + l.baseSkip;
      uboPtr := ptr;
      ptr := ptr + l.uboSize;
      var a := new nat[outputCount];
      for i := 0 to outputCount
        invariant uboPtr == heapBase + ColorBlockOffset(l)
        invariant ptr == heapBase + OutputOffset(l, i)
        invariant forall k :: 0 <= k < i ==> a[k] == heapBase + OutputOffset(l, k)
      {
        a[i] := ptr;
        OutputsConsecutive(l, i);
        ptr := ptr + l.outputSize;
      }
      outputs := a;
      if l.uboSize < COLOR_BLOCK_BYTES {
        return Fail(InvalidUboSize);
      }
      if l.outputSize < imgSize {
        return Fail(InvalidOutputSize);
      }
      if ptr - heapBase > heapSize {
        return Fail(HeapTooSmall);
      }
      r := Pass;
    }

    /** app_render_frame: send the slot, then fail unless the Renderer sends
        the same value back. */
    method RenderFrame(output: int) returns (r: Outcome)
      requires fromRenderer != toRenderer
      modifies this`cacheOps, toRenderer, fromRenderer
      ensures cacheOps == old(cacheOps) + RenderOps(isCoherent, uboPtr)
      ensures toRenderer.readerOpen == old(toRenderer.readerOpen)
      ensures fromRenderer.readerOpen == old(fromRenderer.readerOpen)
      ensures !toRenderer.readerOpen ==>
                r == Fail(ShortWrite) && toRenderer.buffered == old(toRenderer.buffered)
                && fromRenderer.buffered == old(fromRenderer.buffered)
      ensures toRenderer.readerOpen ==> toRenderer.buffered == old(toRenderer.buffered) + [ToU32(output)]
      ensures toRenderer.readerOpen && old(fromRenderer.buffered) == [] ==>
                r == Fail(ShortRead) && fromRenderer.buffered == []
      ensures toRenderer.readerOpen && old(fromRenderer.buffered) != [] ==>
                fromRenderer.buffered == old(fromRenderer.buffered)[1..]
                && r == if old(fromRenderer.buffered)[0] == ToU32(output) then Pass else Fail(UnexpectedOutput)
    {
      if !isCoherent {
        cacheOps := cacheOps + [Fence, Flush(uboPtr)];
      }
      var sent := toRenderer.Send(ToU32(output));
      if sent.Fail? {
        return sent;
      }
      var echo := fromRenderer.Receive();
      if echo.Err? {
        return Fail(echo.error);
      }
      if echo.value != ToU32(output) {
        return Fail(UnexpectedOutput);
      }
      r := Pass;
    }

    /** app_present_frame: the stride loop over the slot, 64 bytes at a
        time, then a fence, only when the heap is incoherent. */
    method PresentFrame(output: int)
      requires 0 <= output < outputs.Length
      modifies this`cacheOps
      ensures cacheOps == old(cacheOps) + PresentOps(isCoherent, outputs[output], imgSize)
    {
      if !isCoherent {
        var start := outputs[output];
        var ptr := start;
        var end := start + imgSize;
        ghost var lines := FlushLines(start, imgSize);
        ghost var k := 0;
        while ptr < end
          invariant k <= |lines| && ptr == start + CACHE_LINE * k
          invariant cacheOps == old(cacheOps) + Flushes(lines)[..k]
          decreases end - ptr
        {
          StrideInSlot(imgSize, k);
          assert Flushes(lines)[..k + 1] == Flushes(lines)[..k] + [Flush(ptr)];
          cacheOps := cacheOps + [Flush(ptr)];
          ptr := ptr + CACHE_LINE;
          k := k + 1;
        }
        StrideInSlot(imgSize, k);
        assert Flushes(lines)[..k] == Flushes(lines);
        cacheOps := cacheOps + [Fence];
      }
    }

    /** One iteration of app_mainloop's body: render, then present. */
    method Frame(output: int) returns (r: Outcome)
      requires 0 <= output < outputs.Length
      requires fromRenderer != toRenderer
      modifies this`cacheOps, toRenderer, fromRenderer
      ensures toRenderer.readerOpen == old(toRenderer.readerOpen)
      ensures r.Pass? <==> toRenderer.readerOpen && old(fromRenderer.buffered) != []
                           && old(fromRenderer.buffered)[0] == ToU32(output)
      ensures r.Pass? ==>
                fromRenderer.buffered == old(fromRenderer.buffered)[1..]
                && toRenderer.buffered == old(toRenderer.buffered) + [ToU32(output)]
                && cacheOps == old(cacheOps) + RenderOps(isCoherent, uboPtr)
                               + PresentOps(isCoherent, outputs[output], imgSize)
      ensures r.Fail? ==> cacheOps == old(cacheOps) + RenderOps(isCoherent, uboPtr)
      ensures r.Fail? && !toRenderer.readerOpen ==>
                r.fault == ShortWrite && toRenderer.buffered == old(toRenderer.buffered)
                && fromRenderer.buffered == old(fromRenderer.buffered)
      ensures r.Fail? && toRenderer.readerOpen ==>
                toRenderer.buffered == old(toRenderer.buffered) + [ToU32(output)]
                && (old(fromRenderer.buffered) == [] ==> r.fault == ShortRead && fromRenderer.buffered == [])
                && (old(fromRenderer.buffered) != [] ==>
                      r.fault == UnexpectedOutput && fromRenderer.buffered == old(fromRenderer.buffered)[1..])
    {
      r := RenderFrame(output);
      if r.Pass? {
        PresentFrame(output);
      }
    }

    /** The state of the link and the cache trace after `frames` echoed
        frames: the replies consumed so far matched the requests, and the
        requests and the cache maintenance of those frames were issued. */
    ghost predicate Echoed(slots: seq<nat>, frames: nat, replies: seq<u32>, sent: seq<u32>, ops0: seq<CacheOp>)
      requires outputCount >= 2 && |slots| == outputCount
      reads this`cacheOps, this`uboPtr, fromRenderer, toRenderer
    {
      && frames <= |replies| && fromRenderer.buffered == replies[frames..]
      && replies[..frames] == Requests(outputCount, frames)
      && toRenderer.buffered == sent + Requests(outputCount, frames)
      && (!toRenderer.readerOpen ==> frames == 0)
      && cacheOps == ops0 + CacheTrace(isCoherent, uboPtr, slots, imgSize, frames)
    }

    /** The state after the frame numbered `frames` failed with f. */
    ghost predicate Stopped(slots: seq<nat>, f: Fault, frames: nat, replies: seq<u32>, sent: seq<u32>, ops0: seq<CacheOp>)
      requires outputCount >= 2 && |slots| == outputCount
      reads this`cacheOps, this`uboPtr, fromRenderer, toRenderer
    {
      && frames <= |replies| && replies[..frames] == Requests(outputCount, frames)
      && (!toRenderer.readerOpen ==>
            f == ShortWrite && frames == 0 && toRenderer.buffered == sent && fromRenderer.buffered == replies)
      && (toRenderer.readerOpen ==> toRenderer.buffered == sent + Requests(outputCount, frames + 1))
      && (toRenderer.readerOpen && frames == |replies| ==> f == ShortRead && fromRenderer.buffered == [])
      && (toRenderer.readerOpen && frames < |replies| ==>
            f == UnexpectedOutput && replies[frames] != Request(outputCount, frames)
            && fromRenderer.buffered == replies[frames + 1..])
      && cacheOps == ops0 + CacheTrace(isCoherent, uboPtr, slots, imgSize, frames) + RenderOps(isCoherent, uboPtr)
    }

    /** One pass of app_mainloop's body: render and present the current
        slot, then the "next value/channel" update. */
    method Iterate(output: int, inc: int, channel: int, ghost slots: seq<nat>, ghost frames: nat,
                   ghost replies: seq<u32>, ghost sent: seq<u32>, ghost ops0: seq<CacheOp>)
      returns (r: Outcome, output': int, inc': int, channel': int)
      requires outputCount >= 2 && outputs.Length == outputCount
      requires fromRenderer != toRenderer
      requires slots == outputs[..]
      requires Position(output, inc, channel) == Steps(Start, outputCount, frames)
      requires Echoed(slots, frames, replies, sent, ops0)
      modifies this`cacheOps, toRenderer, fromRenderer
      ensures toRenderer.readerOpen == old(toRenderer.readerOpen)
      ensures r.Pass? ==> Position(output', inc', channel') == Steps(Start, outputCount, frames + 1)
      ensures r.Pass? ==> Echoed(slots, frames + 1, replies, sent, ops0)
      ensures r.Pass? ==> |fromRenderer.buffered| < |old(fromRenderer.buffered)|
      ensures r.Fail? ==> Stopped(slots, r.fault, frames, replies, sent, ops0)
    {
      StepsValid(outputCount, frames);
      RequestsNext(outputCount, frames);
      ReplyNext(replies, frames);
      ghost var next := CacheTrace(isCoherent, uboPtr, slots, imgSize, frames + 1);
      assert next == CacheTrace(isCoherent, uboPtr, slots, imgSize, frames)
                     + RenderOps(isCoherent, uboPtr) + PresentOps(isCoherent, slots[output], imgSize);
      ghost var renderOps := RenderOps(isCoherent, uboPtr);
      ghost var presentOps := PresentOps(isCoherent, slots[output], imgSize);
      ghost var trace := CacheTrace(isCoherent, uboPtr, slots, imgSize, frames);
      ghost var requests := Requests(outputCount, frames);
      Assoc(ops0, trace, renderOps);
      Assoc(ops0, trace + renderOps, presentOps);
      Assoc(sent, requests, [ToU32(output)]);
      r := Frame(output);
      output', inc', channel' := output, inc, channel;
      if r.Fail? {
        return;
      }
      output' := output + inc;
      if output' >= outputCount {
        output' := outputCount - 1;
        inc' := -1;
      } else if output' < 0 {
        output' := 1;
        inc' := 1;
        channel' := (channel + 1) % 3;
      }
      assert Position(output', inc', channel') == Step(Position(output, inc, channel), outputCount);
    }

    /** app_mainloop: frame after frame, the slot of the traversal is
        rendered and presented, until a frame fails. `frames` counts the
        frames that completed; the failing frame has already sent its
        request and issued its render-side cache maintenance. */
    method MainLoop() returns (f: Fault, frames: nat)
      requires outputCount >= 2 && outputs.Length == outputCount
      requires fromRenderer != toRenderer
      modifies this`cacheOps, toRenderer, fromRenderer
      ensures toRenderer.readerOpen == old(toRenderer.readerOpen)
      ensures frames <= |old(fromRenderer.buffered)|
      ensures old(fromRenderer.buffered)[..frames] == Requests(outputCount, frames)
      ensures !toRenderer.readerOpen ==>
                f == ShortWrite && frames == 0 && toRenderer.buffered == old(toRenderer.buffered)
                && fromRenderer.buffered == old(fromRenderer.buffered)
      ensures toRenderer.readerOpen ==>
                toRenderer.buffered == old(toRenderer.buffered) + Requests(outputCount, frames + 1)
      ensures toRenderer.readerOpen && frames == |old(fromRenderer.buffered)| ==>
                f == ShortRead && fromRenderer.buffered == []
      ensures toRenderer.readerOpen && frames < |old(fromRenderer.buffered)| ==>
                f == UnexpectedOutput && old(fromRenderer.buffered)[frames] != Request(outputCount, frames)
                && fromRenderer.buffered == old(fromRenderer.buffered)[frames + 1..]
      ensures cacheOps == old(cacheOps) + CacheTrace(isCoherent, uboPtr, outputs[..], imgSize, frames)
                          + RenderOps(isCoherent, uboPtr)
    {
      ghost var slots := outputs[..];
      ghost var replies := fromRenderer.buffered;
      ghost var sent := toRenderer.buffered;
      ghost var ops0 := cacheOps;
      var output, inc, channel := 0, 1, 0;
      frames := 0;
      while true
        invariant Position(output, inc, channel) == Steps(Start, outputCount, frames)
        invariant toRenderer.readerOpen == old(toRenderer.readerOpen)
        invariant outputs[..] == slots
        invariant Echoed(slots, frames, replies, sent, ops0)
        decreases |fromRenderer.buffered|
      {
        var r;
        r, output, inc, channel := Iterate(output, inc, channel, slots, frames, replies, sent, ops0);
        if r.Fail? {
          return r.fault, frames;
        }
        frames := frames + 1;
      }
    }

    /** The Controller after it has spawned the Renderer (main.c:366-373):
        receive the layout, point into the heap, run the main loop. The
        result is the fault the Controller aborts with (app_mainloop never
        returns otherwise) and the number of frames completed. */
    method Run() returns (f: Fault, frames: nat)
      requires outputCount >= 2
      requires fromRenderer != toRenderer
      modifies this, fromRenderer, toRenderer
      ensures |old(fromRenderer.buffered)| < 3 ==>
                f == ShortRead && frames == 0 && toRenderer.buffered == old(toRenderer.buffered)
      ensures |old(fromRenderer.buffered)| >= 3
              && !ControllerAccepts(ReceivedLayout(old(fromRenderer.buffered)), imgSize, outputCount, heapSize) ==>
                f == RejectionFault(ReceivedLayout(old(fromRenderer.buffered)), imgSize)
                && frames == 0 && toRenderer.buffered == old(toRenderer.buffered)
      ensures |old(fromRenderer.buffered)| >= 3 && !old(toRenderer.readerOpen)
              && ControllerAccepts(ReceivedLayout(old(fromRenderer.buffered)), imgSize, outputCount, heapSize) ==>
                f == ShortWrite && frames == 0 && toRenderer.buffered == old(toRenderer.buffered)
                && fromRenderer.buffered == old(fromRenderer.buffered)[3..]
      ensures |old(fromRenderer.buffered)| >= 3 && old(toRenderer.readerOpen)
              && ControllerAccepts(ReceivedLayout(old(fromRenderer.buffered)), imgSize, outputCount, heapSize) ==>
                frames <= |old(fromRenderer.buffered)| - 3
                && old(fromRenderer.buffered)[3..][..frames] == Requests(outputCount, frames)
                && toRenderer.buffered == old(toRenderer.buffered) + Requests(outputCount, frames + 1)
                && (frames == |old(fromRenderer.buffered)| - 3 ==> f == ShortRead)
                && (frames < |old(fromRenderer.buffered)| - 3 ==>
                      f == UnexpectedOutput && old(fromRenderer.buffered)[3 + frames] != Request(outputCount, frames))
    {
      var received := ReceiveLayout();
      if received.Err? {
        return received.error, 0;
      }
      var init := InitMemories(received.value);
      if init.Fail? {
        return init.fault, 0;
      }
      f, frames := MainLoop();
    }
  }
}
