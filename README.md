# vkmemfd heap negotiation and control link, in Dafny

vkmemfd runs two processes over one shared memory heap.

- The **Renderer** (renderer.c) imports regions of the heap into Vulkan. It renders into them.
- The **Controller** (main.c) maps the same heap and shows the rendered images in a window.

The Renderer decides the heap layout. It chooses how many bytes to skip so the start is aligned, the size of the colour (uniform) block, and the size of one output slot. The Renderer then sends these three values over a pipe of 32-bit values. The Controller checks them, points into its own mapping, and asks for one slot per frame. The Renderer echoes each request back.

This project models that integer and sequence logic. It covers both processes and how they agree:

- `base.dfy` (`Base`): the 32-bit link values and the C conversions applied to them. It also holds every fatal condition of the modelled core, as `Fault`.
- `layout.dfy` (`HeapLayout`): the Renderer's layout arithmetic. This covers `base_skip`, the rounding of allocation sizes, the fit check, region placement, and the memory-type choice by `ffs`.
- `link.dfy` (`ControlLink`): one direction of the control link as a `Pipe` class. Short reads and writes are fatal. The module also fixes the wire order of the layout.
- `extensions.dfy` (`Extensions`): the required-extension table and its nested search.
- `renderer.dfy` (`RendererProcess`): the `Renderer` class. It enables extensions, negotiates the layout, sends it, imports the buffers, then runs the echo loop.
- `coherency.dfy` (`Coherency`): the cache lines flushed when the heap is not coherent.
- `traversal.dfy` (`Traversal`): the Controller's `(output, output_inc, channel)` state machine.
- `arguments.dfy` (`Arguments`): `printf`/`sscanf` `%d`, the `renderer-%d-%d-%d` token, and the argv loop of `main`.
- `controller.dfy` (`Controller`): the `App` class. It receives the layout, computes its pointers, and runs frames that render, check the echo and present.
- `session.dfy` (`Session`): lemmas about the two processes together.

The Vulkan queries, the device's extension list, and the answer of the import query for an address range are inputs to the model. The heap's base addresses in each process are inputs too. The link has no interleaving. A `Pipe` holds every value its writer will ever write. One process reading from an empty `Pipe` is the short read that follows the other process closing its end. So the two endless main loops end in the model only on a fatal error.

## Model

| member | source | states |
|---|---|---|
| `Base.ToU32` | renderer.c:899-903 | Passing a wider integer as `uint32_t` keeps values below 2^32 and otherwise reduces modulo 2^32. |
| `Base.ToI32` | renderer.c:922 | A received `uint32_t` read as `int` is in the 32-bit range, and converting it back gives the value received. |
| `HeapLayout.BaseSkip` | renderer.c:422-423 | The skip is less than the alignment and makes the base aligned. It is zero exactly when the base is already aligned. It is the fewest such bytes: no address before it is aligned. |
| `HeapLayout.SkipFor` | renderer.c:406-423 | The skip is zero for dma-buf import. For host-pointer import it aligns the mapping's address. |
| `HeapLayout.HeapBufferAlloc` | renderer.c:278-311 | Fatal when not importable, or when rounding is needed but the memory is dedicated-only. Otherwise the size is aligned and lies in `[required, required + align)`. This is the corrected rule (Findings). |
| `HeapLayout.HeapBufferAllocAsWritten` | renderer.c:303-311 | As written: when the required size is already aligned, the allocation is the logical `size` argument. Otherwise it agrees with the corrected rule. |
| `HeapLayout.AllocAsWrittenBelowRequirement` | renderer.c:309-310 | As written, an aligned requirement above the logical size gives an allocation below the device's requirement. |
| `HeapLayout.AllocAsWrittenWitness` | renderer.c:434-440 | A 16-byte colour block whose buffer needs one 4096-byte page gets 16 bytes, which is not aligned. The corrected rule gives 4096. |
| `HeapLayout.OutputsConsecutive` | renderer.c:464-479 | The first slot starts where the colour block ends. Each slot starts where the previous one ends. |
| `HeapLayout.RegionsDisjoint` | renderer.c:464-479 | The colour block and the slots are pairwise disjoint. |
| `HeapLayout.RegionsWithinHeap` | main.c:183-184 | Under the fit check that counts the skip, the colour block and every slot end inside the heap. |
| `HeapLayout.FitAsWrittenOverruns` | renderer.c:452-454 | The check without `base_skip` accepts a layout whose last slot runs past the heap's end. |
| `HeapLayout.OutputsAligned` | renderer.c:464-479 | Every slot is aligned when the start, the colour block size and the slot size are aligned. |
| `HeapLayout.NegotiateLayout` | renderer.c:402-455 | Failures come in source order: colour block, output buffer, then fit. A negotiated layout fits the heap and has every part aligned. Each size covers the device's requirement, and the skip is below the alignment (zero for dma-buf). |
| `HeapLayout.AlignedLeast` | renderer.c:303-308 | An aligned size below `required + align` is the least aligned size at or above `required`. |
| `HeapLayout.NegotiateFailsOnlyWhenTooSmall` | renderer.c:452-454 | The negotiated layout is the least one the import accepts. If any layout fits the heap, the negotiation succeeds with one no larger in every part. That layout needs an aligned start, aligned sizes and sizes covering the device's requirements. |
| `HeapLayout.NegotiateLayoutAsWritten` | renderer.c:402-455 | As written, the sizes are the as-written allocations of 16 bytes and `width*height*4` bytes, and their faults come in source order. Once both sizes are known, the layout is fatal (`heap size too small`) exactly when `ubo_size + output_size * output_count > heap_size`. The skip is not counted. |
| `HeapLayout.NegotiatedRegionsUsable` | renderer.c:457-479 | Every slot of a negotiated layout ends inside the heap and starts at an address the import alignment accepts. |
| `HeapLayout.LowestFromFinds` | renderer.c:372 | With no bit below k set, the scan returns a set bit with no set bit below it, or 32 when there is none. |
| `HeapLayout.LowestFromBelow` | renderer.c:370-372 | A non-zero mask has a set bit below position 32. |
| `HeapLayout.Ffs` | renderer.c:372 | `ffs` is at most 32 and is zero exactly for zero. |
| `HeapLayout.FfsLowest` | renderer.c:372 | For a non-zero mask, `ffs(x) - 1` is a set bit and no lower bit is set. |
| `HeapLayout.ChooseMemoryType` | renderer.c:370-372 | Fatal (`no usable memory type`) exactly when the requirement and import masks share no bit. Otherwise the result is a type index below 32. |
| `HeapLayout.ChosenTypeLowest` | renderer.c:331-372 | The chosen type is allowed by both masks, and it is the lowest such type. |
| `ControlLink.Pipe.Receive` | renderer.c:890-897 | A read takes the oldest value. It is fatal (short read) when nothing is left. |
| `ControlLink.Pipe.Send` | main.c:196-201 | A write appends the value. It is fatal (short write) once the reader is gone, and then nothing is written. |
| `ControlLink.LayoutMessage` | renderer.c:951-953 | The layout is exactly three link values. |
| `ControlLink.LayoutRoundTrip` | main.c:368-370 | The Controller reads back exactly the Renderer's layout if and only if every value fits 32 bits. |
| `ControlLink.SlotRoundTrip` | renderer.c:919-926 | A slot index goes out as `uint32_t`, is read as `int`, and is sent back unchanged. |
| `Extensions.RequiredByMode` | renderer.c:190-198 | dma-buf mode requires the fd and dma_buf extensions, in that order. Host-pointer mode requires only the host extension. |
| `Extensions.RequiredNamesPrefix` | renderer.c:214-229 | A name required by a prefix of the table is required by the whole table. |
| `Extensions.FindExtension` | renderer.c:218-224 | The inner search finds the name if and only if the device lists it. |
| `Extensions.EnableExtensions` | renderer.c:212-229 | It succeeds if and only if every required name is available. The enabled list is then exactly the required names, in table order. Otherwise it fails with `missing extensions`. |
| `RendererProcess.ImportHeapBuffer` | renderer.c:331-372 | A rejected range is fatal. A mask intersection with no common bit is fatal. Otherwise the buffer keeps its offset and size and gets the chosen type. |
| `RendererProcess.Slots` | renderer.c:922 | Each received request becomes one slot index that converts back to the request. |
| `RendererProcess.Renderer.constructor` | renderer.c:931-942 | The configuration and the two link ends are those given. Nothing is enabled or submitted yet. |
| `RendererProcess.Renderer.InitVkDevice` | renderer.c:188-229 | Passes if and only if the device supports every required extension. The enabled list is then the required names. |
| `RendererProcess.Renderer.InitHeapLayout` | renderer.c:402-455 | Passes if and only if the corrected negotiation `NegotiateLayout` succeeds, and then stores that layout. A failure carries the negotiation's fault. The queries are recorded. |
| `RendererProcess.Renderer.SendLayout` | renderer.c:950-953 | The link gains exactly `LayoutMessage(layout)`, or nothing and a short write when the reader is gone. |
| `RendererProcess.Renderer.InitHeapBuffers` | renderer.c:457-480 | Passes if and only if the colour block and every slot import. It then stores exactly those buffers, at their layout offsets. A failure carries the fault of the colour block or of the first slot that failed. |
| `RendererProcess.Renderer.ImportOutputs` | renderer.c:472-479 | The slot loop passes if and only if every slot imports, and it fills slot i with slot i's import. Otherwise it stops with the fault of the first slot that fails. |
| `RendererProcess.Renderer.Render` | renderer.c:905-917 | Submits exactly the command buffer of the requested slot. |
| `RendererProcess.Renderer.MainLoop` | renderer.c:919-926 | Every request is rendered and sent back unchanged, in order. The loop ends with a short read when the requests run out. It ends with a short write after the first render when the Controller is gone. |
| `RendererProcess.Renderer.Handshake` | renderer.c:944-953 | Missing extensions or a failed (corrected) negotiation abort before anything is sent. Otherwise the negotiated layout is stored and sent, or a short write is reported. |
| `RendererProcess.Renderer.Run` | renderer.c:928-962 | The Renderer's whole output is the layout of the corrected negotiation followed by one echo per request. It aborts in source order: missing extensions, a failed negotiation, a failed send, or a failed import. Otherwise it ends with a short read, having rendered every request. |
| `Coherency.FlushLinesInRange` | main.c:232-238 | The stride loop visits `start + 64k`, and every such address is inside the slot. |
| `Coherency.FlushLinesCover` | main.c:233-238 | Every byte of the slot lies in one visited 64-byte line. |
| `Coherency.FlushLinesMinimal` | main.c:235-238 | The number of lines is `ceil(img_size / 64)`. One fewer would leave the last byte uncovered. |
| `Coherency.StrideInSlot` | main.c:235 | `ptr < end` holds for stride k exactly when k is one of those lines. |
| `Traversal.Step` | main.c:273-282 | With at least two slots the update keeps the invariant. The channel changes exactly at the bottom bounce, and then it advances by one modulo 3. |
| `Traversal.StepsValid` | main.c:258-283 | In every frame `0 <= output < output_count`, `output_inc` is ±1 and `channel` is in {0, 1, 2}. |
| `Traversal.Bounces` | main.c:273-282 | Past the top, `output` stays at the top and turns down. Below 0, it goes to slot 1 going up, with the next channel. |
| `Traversal.SweepUp` | main.c:273 | Going up without reaching the top advances one slot per frame. |
| `Traversal.SweepDown` | main.c:273 | Going down without passing 0 moves down one slot per frame. |
| `Traversal.RiseToTop` | main.c:273-276 | From slot 1 going up, `output_count - 1` frames reach the top and turn down. |
| `Traversal.FallToBottom` | main.c:273-282 | From the top going down, `output_count` frames reach slot 1 going up, with the next channel. |
| `Traversal.FullCycle` | main.c:273-282 | One sweep takes `2*output_count - 1` frames and returns to slot 1 with the next channel. |
| `Traversal.AfterTop` | main.c:273-276 | k frames after the turn at the top, the sweep is k slots below the top, going down. |
| `Traversal.TopTwiceBottomOnce` | main.c:273-282 | Within a sweep, the top slot is shown in two consecutive frames. Slot 0 is shown in one frame, between two frames of slot 1. |
| `Traversal.Periodic` | main.c:258-282 | After frame 1, every `2*output_count - 1` frames the state is slot 1 going up, with the channel equal to the number of sweeps modulo 3. |
| `Traversal.NextCycle` | main.c:273-282 | A sweep appended at any frame where the state is slot 1 going up advances the channel. |
| `Traversal.SingleSlotEscapes` | main.c:273-282 | With one slot, `output` leaves the slot range in the third frame, so the invariant needs `output_count >= 2`. |
| `Arguments.NatDigits` | main.c:117-119 | `%d` of a magnitude is a non-empty run of decimal digits. |
| `Arguments.DigitsValueOfNatDigits` | main.c:117-119 | The digits `%d` prints have the value printed. |
| `Arguments.ScanDecimal` | main.c:330 | `%d` scanning reads back any printed int, when a non-digit or the end follows. |
| `Arguments.ScanFields` | main.c:330-333 | A successful scan yields exactly as many values as conversions. |
| `Arguments.ScanFormatted` | main.c:330-333 | `"%d-%d-%d"` scanning of a formatted triple gives back the triple. |
| `Arguments.FormatRendererToken` | main.c:116-120 | Fatal exactly when `renderer-`, the three decimals and their two dashes need 32 bytes or more, leaving no room for the NUL. A token that fits starts with `renderer-` and scans back to the same three descriptors. |
| `Arguments.SmallFdsFit` | main.c:116-120 | Descriptors below one million always fit. |
| `Arguments.Classify` | main.c:328-345 | The compare chain in its order: the `renderer-` prefix wins, each mode or coherency word is recognised as itself, and anything else is unknown. |
| `Arguments.ClassifyWords` | main.c:122-127 | The words the parent passes to its child are recognised as themselves. |
| `Arguments.Apply` | main.c:328-347 | One argument continues the loop exactly when it is accepted. Otherwise it ends with usage, or with the `invalid renderer args` fatal for a renderer token that does not scan. |
| `Arguments.ParseArguments` | main.c:327-348 | The loop over argv computes `Interpret`, stopping at the first rejected token. |
| `Arguments.ApplyLast` | main.c:335-344 | An accepted last token turns the settings of the earlier tokens into the settings of all of them. |
| `Arguments.InterpretRuns` | main.c:327-348 | The loop runs to the end if and only if every token is accepted. The last occurrence of each setting then wins, with the defaults of main.c:294-325 otherwise. |
| `Arguments.InterpretStops` | main.c:345-347 | Once the loop has stopped, later tokens change nothing. |
| `Arguments.InterpretStopsAtFirstRejected` | main.c:327-348 | The first rejected token alone decides between usage and the fatal error. |
| `Arguments.ChildArgvRoundTrip` | main.c:116-127 | The child's argv selects the Renderer role with exactly the parent's descriptors and import mode. |
| `Controller.PresentOpsInSlot` | main.c:232-240 | A coherent heap gets no present-side maintenance. An incoherent heap gets `ceil(img_size / 64)` flushes, all inside the slot, and then one fence. |
| `Controller.PresentOpsCoverSlot` | main.c:232-240 | Every byte of the slot lies in the 64-byte line of a flush issued before the fence. |
| `Controller.CacheTrace` | main.c:254-284 | A coherent heap issues no cache maintenance in any number of frames. |
| `Controller.App.constructor` | main.c:155 | `img_size` is `width * height * 4`. |
| `Controller.App.ReceiveLayout` | main.c:368-370 | Reads `heap_skip`, `ubo_size`, `output_size` in that order. It is a short read when fewer arrive. |
| `Controller.App.InitMemories` | main.c:161-185 | The colour block pointer and the slot pointers are the heap base plus the Renderer's offsets. It passes if and only if the three checks hold, and it fails with the first that does not. |
| `Controller.App.RenderFrame` | main.c:203-222 | Issues a fence and one flush of the colour block when the heap is incoherent, and nothing when it is coherent. Sends the slot. It passes if and only if the same value comes back. A mismatch is `unexpected renderer output`. Short reads and writes are fatal. |
| `Controller.App.PresentFrame` | main.c:224-240 | The stride loop issues exactly `PresentOps` for the slot. |
| `Controller.App.Frame` | main.c:269-270 | A frame passes if and only if its request goes out and comes back unchanged. Only then is the slot presented. |
| `Controller.App.Iterate` | main.c:261-283 | One pass keeps the link and the cache trace consistent with the traversal. Its next state is one `Step` further on. |
| `Controller.App.MainLoop` | main.c:254-284 | The requests are the traversal's slots, as `uint32_t`. Every completed frame was echoed. The loop ends on the first short write, short read or mismatched echo. The cache trace is that of the completed frames plus the failing frame's render. |
| `Controller.App.Run` | main.c:366-373 | A short or rejected layout ends the Controller before any request. An accepted layout with the Renderer already gone ends in a short write before any frame. Otherwise it runs the main loop over the rest of the link. |
| `Session.HandshakeAgreement` | main.c:161-185 | A layout the Renderer negotiates and sends is received unchanged. All three Controller checks accept it, so both processes place every region at the same heap offset. |
| `Session.RequestsAreValidSlots` | renderer.c:919-926 | Every request of the traversal names one of the Renderer's command buffers, and the Renderer reads the very slot meant. |
| `Session.AsWrittenHandshakeAborts` | renderer.c:452-454 | As written, the Renderer can send a layout that the Controller rejects with `heap size too small`. The corrected negotiation refuses it. |

## Left out

- Vulkan itself: instance, device, queue, buffer, descriptor, pipeline and command-buffer creation; `vkAllocateMemory`/`vkBindBufferMemory2`; the queue submit and wait. What the queries report is an input: extension list, alignment, memory requirements, external-memory features, and memory-type bits of an imported range. A Vulkan call that fails with an error code is not modelled.
- memfd, `ftruncate`, seals, `mmap`, udmabuf creation, `pipe`, `fork`, `dup` and `execv`. The heap is a size and two base addresses, and the link is two `Pipe`s.
- Concurrency: the two processes are not interleaved. Each `Pipe` holds everything its writer writes, and a read beyond it is the peer closing its end.
- XCB: the window, event polling (`unexpected XCB event`), the maximum-request check on `img_size` (main.c:156-158), `xcb_put_image` and `usleep`.
- Floating point: the colour value `rgba[channel]`, the clear colour and the viewport. The `mfence`/`clflush` instructions are recorded only as `CacheOp`s naming their address.
- 64-bit arithmetic: `VkDeviceSize`, `size_t` and pointer sums are unbounded. Wrap-around of the fit or pointer arithmetic is not modelled. Only the `uint32_t` link conversion is.
- `Arguments.ScanInt`: values outside `int` are not modelled, since C leaves them undefined.
- `Arguments.FormatRendererToken`: the NUL and the truncated text `snprintf` leaves in the buffer are not modelled, because the program aborts then.
- `Controller.App.Run`: requires `output_count >= 2`. The source fixes it at 64, and `Traversal.SingleSlotEscapes` shows the traversal breaks with one slot.
- `RendererProcess.Renderer.MainLoop`: takes `ValidRequests` as a precondition. The Renderer indexes its command buffers by the received value without a check (renderer.c:911, 922-923).
- `RendererProcess.Renderer.InitHeapLayout`: runs the corrected negotiation `NegotiateLayout`, not renderer.c:303-311 and 452-454 as written. The as-written rule is `HeapLayout.NegotiateLayoutAsWritten`, and "## Findings" shows where the two differ.
- `RendererProcess.Renderer.Handshake`: sends the layout of the corrected negotiation. Where the two negotiations differ, the program as written sends the as-written layout instead.
- `RendererProcess.Renderer.Run`: on the corrected negotiation it aborts with `HeapTooSmall` where the program as written goes on. A layout the program as written sends and the Controller rejects is `Session.AsWrittenHandshakeAborts`.
- `HeapLayout.ChooseMemoryType`: its contract states the fatal case and the range of the result. The lowest-bit property is stated by `HeapLayout.ChosenTypeLowest`.
- `Arguments.ScanFields`: its contract states only the number of values. What they are is stated by `Arguments.ScanFormatted` for the formatted token.
- `Controller.CacheTrace`: its contract states only the coherent case. The incoherent trace is stated through `Controller.App.MainLoop`.
- The Renderer's `printf` of the import mode and the Controller's `printf` of the coherency.

## Findings

| source | as written | input that shows it | evidently intended | confidence | as-written member | corrected member |
|---|---|---|---|---|---|---|
| renderer.c:452-454 | The fit check is `ubo_size + output_size * output_count > heap.size`, so the skipped `base_skip` bytes are not counted. The Controller's check (main.c:183) counts them. | Host-pointer import, heap at 4096 with an 8192-byte alignment (skip 4096), 24576-byte heap, 8192-byte colour block and slots, `output_count` 2: the Renderer accepts and sends the layout, and the Controller aborts with `heap size too small`. | Count `base_skip` as the Controller does, so that every slot lies inside the heap. | not executed | `Session.AsWrittenHandshakeAborts` | `HeapLayout.NegotiateLayout` |
| renderer.c:303-311 | When the required size is already a multiple of the alignment, the allocation is the logical `size` argument, not the required size. | Colour block of 16 bytes whose buffer requires 4096 bytes, alignment 4096: allocation 16, below the requirement, and every slot after it starts misaligned. | Use the required size, which is then already aligned. | not executed | `HeapLayout.AllocAsWrittenBelowRequirement` | `HeapLayout.HeapBufferAlloc` |
