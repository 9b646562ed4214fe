/** The Renderer's heap layout arithmetic (renderer.c:260-312, 331-372,
    402-480): where the colour block and the output slots live in the shared
    heap, how large each is, and which memory type imports them.

    The Vulkan queries themselves are not modelled; what they report is an
    input (BufferQuery, DeviceReport). Offsets are byte offsets from the
    start of the heap; the base address a host pointer is formed from is a
    parameter. */
module HeapLayout {
  import opened Base

  /** sizeof(float[4]): the logical size of the colour block. */
  const COLOR_BLOCK_BYTES: nat := 16
  /** B8G8R8A8: bytes per pixel of an output image. */
  const BYTES_PER_PIXEL: nat := 4

  /** The three negotiated values: the bytes skipped at the start of the
      heap, the size of the colour block and the size of one output slot. */
  datatype Layout = Layout(baseSkip: nat, uboSize: nat, outputSize: nat)

  /** What the device reports for one temporary buffer: whether its external
      memory is importable or dedicated-only, and its memory requirements. */
  datatype BufferQuery = BufferQuery(importable: bool, dedicatedOnly: bool,
                                     requiredSize: nat, memoryTypeBits: bv32)

  /** The device facts the negotiation depends on: the host-pointer import
      alignment, the page size, and the reports for the colour block buffer
      and for an output buffer. */
  datatype DeviceReport = DeviceReport(hostPointerAlignment: nat, pageSize: nat,
                                       uboQuery: BufferQuery, outputQuery: BufferQuery)

  predicate Aligned(x: nat, a: nat)
    requires a > 0
  {
    x % a == 0
  }

  /** Import alignment: the page size for dma-buf import, the device's
      minimum host-pointer alignment otherwise. */
  function MemAlign(useUdmabuf: bool, dev: DeviceReport): nat
  {
    if useUdmabuf then dev.pageSize else dev.hostPointerAlignment
  }

  /** What an offset is relative to when it is imported: file offsets for a
      dma-buf, host addresses from the Renderer's mapping otherwise. */
  function ImportOrigin(useUdmabuf: bool, heapBase: nat): nat
  {
    if useUdmabuf then 0 else heapBase
  }

  // ---------------------------------------------------------------------
  // Arithmetic helpers

  lemma ModUnique(n: int, a: int, q: int, s: int)
    requires a > 0 && n == a * q + s && 0 <= s < a
    ensures n % a == s && n / a == q
  {
    var q', s' := n / a, n % a;
    assert n == a * q' + s';
    assert a * (q - q') == s' - s;
    MulBounds(a, q - q');
  }

  lemma MulBounds(a: int, k: int)
    requires a > 0
    ensures k >= 1 ==> a * k >= a
    ensures k <= -1 ==> a * k <= -a
  {
    if k >= 1 {
      assert a * k == a + a * (k - 1);
    } else if k <= -1 {
      assert a * k == -a + a * (k + 1);
    }
  }

  lemma MulMono(i: nat, j: nat, o: nat)
    requires i <= j
    ensures i * o <= j * o
  {
    assert j * o == i * o + (j - i) * o;
  }

  lemma AlignedAdd(x: nat, y: nat, a: nat)
    requires a > 0 && Aligned(x, a) && Aligned(y, a)
    ensures Aligned(x + y, a)
  {
    assert x == a * (x / a);
    assert y == a * (y / a);
    assert x + y == a * (x / a + y / a);
    ModUnique(x + y, a, x / a + y / a, 0);
  }

  // ---------------------------------------------------------------------
  // base_skip (renderer.c:406-408, 422-423)

  lemma BaseSkipLeast(base: nat, memAlign: nat, x: nat)
    requires memAlign > 0 && base % memAlign != 0
    requires base <= x < base + (memAlign - base % memAlign)
    ensures !Aligned(x, memAlign)
  {
    var q, rem := base / memAlign, base % memAlign;
    assert x == memAlign * q + (rem + (x - base));
    ModUnique(x, memAlign, q, rem + (x - base));
  }

  /** base_skip: the fewest bytes to skip from `base` to reach an address
      aligned to `memAlign`. */
  function BaseSkip(base: nat, memAlign: nat): (skip: nat)
    requires memAlign > 0
    ensures skip < memAlign
    ensures Aligned(base + skip, memAlign)
    ensures forall x :: base <= x < base + skip ==> !Aligned(x, memAlign)
    ensures Aligned(base, memAlign) <==> skip == 0
  {
    var rem := base % memAlign;
    if rem != 0 then
      var q := base / memAlign;
      assert base + (memAlign - rem) == memAlign * (q + 1);
      ModUnique(base + (memAlign - rem), memAlign, q + 1, 0);
      assert forall x :: base <= x < base + (memAlign - rem) ==> !Aligned(x, memAlign) by {
        forall x | base <= x < base + (memAlign - rem) {
          BaseSkipLeast(base, memAlign, x);
        }
      }
      memAlign - rem
    else
      0
  }

  /** The skip the Renderer uses: none for a dma-buf import (file offsets
      are already page aligned), BaseSkip of its mapping otherwise. */
  function SkipFor(useUdmabuf: bool, heapBase: nat, memAlign: nat): (skip: nat)
    requires memAlign > 0
    ensures skip < memAlign
    ensures Aligned(ImportOrigin(useUdmabuf, heapBase) + skip, memAlign)
    ensures useUdmabuf ==> skip == 0
  {
    if useUdmabuf then 0 else BaseSkip(heapBase, memAlign)
  }

  // ---------------------------------------------------------------------
  // allocation sizes (renderer.c:278-280, 303-311)

  /** The allocation size of one heap buffer: the required size rounded up
      to the import alignment. Fatal when the memory is not importable, or
      when rounding is needed but the memory is dedicated-only. This is the
      corrected form of renderer.c:303-311 (see HeapBufferAllocAsWritten). */
  function HeapBufferAlloc(q: BufferQuery, memAlign: nat): (r: Result<nat>)
    requires memAlign > 0
    ensures r.Ok? <==> q.importable && (Aligned(q.requiredSize, memAlign) || !q.dedicatedOnly)
    ensures !q.importable ==> r == Err(NotImportable)
    ensures q.importable && r.Err? ==> r.error == DedicatedSizeConflict
    ensures r.Ok? ==> Aligned(r.value, memAlign)
    ensures r.Ok? ==> q.requiredSize <= r.value < q.requiredSize + memAlign
  {
    if !q.importable then Err(NotImportable)
    else
      var rem := q.requiredSize % memAlign;
      if rem != 0 then
        if q.dedicatedOnly then Err(DedicatedSizeConflict)
        else
          var k := q.requiredSize / memAlign;
          assert q.requiredSize - rem + memAlign == memAlign * (k + 1);
          ModUnique(q.requiredSize - rem + memAlign, memAlign, k + 1, 0);
          Ok(q.requiredSize - rem + memAlign)
      else
        Ok(q.requiredSize)
  }

  /** renderer_get_heap_buffer_props as written: when the required size is
      already a multiple of the alignment, the allocation is the logical
      `size` that was asked for, not the required size. */
  function HeapBufferAllocAsWritten(size: nat, q: BufferQuery, memAlign: nat): (r: Result<nat>)
    requires memAlign > 0
    ensures r == if q.importable && Aligned(q.requiredSize, memAlign) then Ok(size)
                 else HeapBufferAlloc(q, memAlign)
  {
    if !q.importable then Err(NotImportable)
    else
      var rem := q.requiredSize % memAlign;
      if rem != 0 then
        if q.dedicatedOnly then Err(DedicatedSizeConflict)
        else Ok(q.requiredSize - rem + memAlign)
      else
        Ok(size)
  }

  /** As written, a buffer whose required size is aligned but larger than
      its logical size gets an allocation below the requirement, and one
      that breaks the alignment of every buffer placed after it. */
  lemma AllocAsWrittenBelowRequirement(size: nat, q: BufferQuery, memAlign: nat)
    requires memAlign > 0 && q.importable && Aligned(q.requiredSize, memAlign)
    requires size < q.requiredSize
    ensures HeapBufferAllocAsWritten(size, q, memAlign) == Ok(size)
    ensures size < q.requiredSize <= HeapBufferAlloc(q, memAlign).value
  {
  }

  /** A concrete witness: a 16-byte colour block whose buffer requires one
      4096-byte page, with a 4096-byte import alignment. */
  lemma AllocAsWrittenWitness()
    ensures var q := BufferQuery(true, false, 4096, 1);
            HeapBufferAllocAsWritten(COLOR_BLOCK_BYTES, q, 4096) == Ok(16)
            && !Aligned(16, 4096)
            && HeapBufferAlloc(q, 4096) == Ok(4096)
  {
  }

  // ---------------------------------------------------------------------
  // the fit check (renderer.c:452-454) and region placement (464-479)

  /** The Renderer's check as written: base_skip is not counted. */
  predicate HeapFitsAsWritten(l: Layout, outputCount: nat, heapSize: nat)
  {
    l.uboSize + l.outputSize * outputCount <= heapSize
  }

  /** The corrected check: the skipped bytes, the colour block and every
      output slot fit in the heap. */
  predicate HeapFits(l: Layout, outputCount: nat, heapSize: nat)
  {
    l.baseSkip + l.uboSize + l.outputSize * outputCount <= heapSize
  }

  function ColorBlockOffset(l: Layout): nat
  {
    l.baseSkip
  }

  /** Offset of output slot i: after the skip, the colour block and i slots. */
  function OutputOffset(l: Layout, i: nat): nat
  {
    l.baseSkip + l.uboSize + i * l.outputSize
  }

  /** Slots follow the colour block and each other without gaps. */
  lemma OutputsConsecutive(l: Layout, i: nat)
    ensures OutputOffset(l, 0) == ColorBlockOffset(l) + l.uboSize
    ensures OutputOffset(l, i + 1) == OutputOffset(l, i) + l.outputSize
  {
    assert (i + 1) * l.outputSize == i * l.outputSize + l.outputSize;
  }

  /** Distinct regions never overlap: the colour block ends before every
      slot, and slot i ends before slot j starts when i < j. */
  lemma RegionsDisjoint(l: Layout, i: nat, j: nat)
    requires i < j
    ensures ColorBlockOffset(l) + l.uboSize <= OutputOffset(l, i)
    ensures OutputOffset(l, i) + l.outputSize <= OutputOffset(l, j)
  {
    MulMono(i + 1, j, l.outputSize);
    assert (i + 1) * l.outputSize == i * l.outputSize + l.outputSize;
  }

  /** Under the corrected check every one of the outputCount slots lies
      inside the heap. */
  lemma RegionsWithinHeap(l: Layout, outputCount: nat, heapSize: nat, i: nat)
    requires HeapFits(l, outputCount, heapSize) && i < outputCount
    ensures ColorBlockOffset(l) + l.uboSize <= heapSize
    ensures OutputOffset(l, i) + l.outputSize <= heapSize
  {
    MulMono(i + 1, outputCount, l.outputSize);
    assert (i + 1) * l.outputSize == i * l.outputSize + l.outputSize;
  }

  /** The check as written can accept a layout whose last slot runs past the
      end of the heap: base 4096 aligned to 8192 skips 4096 bytes, and a
      8192-byte colour block plus one 8192-byte slot "fit" a 16384-byte heap. */
  lemma FitAsWrittenOverruns()
    ensures var l := Layout(4096, 8192, 8192);
            BaseSkip(4096, 8192) == l.baseSkip
            && HeapFitsAsWritten(l, 1, 16384)
            && !HeapFits(l, 1, 16384)
            && OutputOffset(l, 0) + l.outputSize > 16384
  {
  }

  /** When the start, the colour block size and the slot size are aligned,
      every slot starts aligned. */
  lemma {:induction false} OutputsAligned(l: Layout, origin: nat, a: nat, i: nat)
    requires a > 0
    requires Aligned(origin + l.baseSkip, a) && Aligned(l.uboSize, a) && Aligned(l.outputSize, a)
    ensures Aligned(origin + OutputOffset(l, i), a)
  {
    if i == 0 {
      AlignedAdd(origin + l.baseSkip, l.uboSize, a);
    } else {
      OutputsAligned(l, origin, a, i - 1);
      OutputsConsecutive(l, i - 1);
      AlignedAdd(origin + OutputOffset(l, i - 1), l.outputSize, a);
    }
  }

  // ---------------------------------------------------------------------
  // negotiation (renderer.c:402-455)

  /** renderer_init_heap_layout, with both corrections: the colour block and
      the slot are sized by HeapBufferAlloc and the fit check counts the
      skip. The failures come in the source's order: the colour block's
      buffer, then the output buffer, then the fit. */
  function NegotiateLayout(useUdmabuf: bool, heapBase: nat, heapSize: nat,
                           outputCount: nat, dev: DeviceReport): (r: Result<Layout>)
    requires MemAlign(useUdmabuf, dev) > 0
    ensures var a := MemAlign(useUdmabuf, dev);
            HeapBufferAlloc(dev.uboQuery, a).Err? ==> r == Err(HeapBufferAlloc(dev.uboQuery, a).error)
    ensures var a := MemAlign(useUdmabuf, dev);
            HeapBufferAlloc(dev.uboQuery, a).Ok? && HeapBufferAlloc(dev.outputQuery, a).Err? ==>
              r == Err(HeapBufferAlloc(dev.outputQuery, a).error)
    ensures var a := MemAlign(useUdmabuf, dev);
            r.Err? ==> r.error in {NotImportable, DedicatedSizeConflict, HeapTooSmall}
    ensures r.Ok? ==> HeapFits(r.value, outputCount, heapSize)
    ensures var a := MemAlign(useUdmabuf, dev);
            r.Ok? ==> Aligned(ImportOrigin(useUdmabuf, heapBase) + r.value.baseSkip, a)
                      && Aligned(r.value.uboSize, a) && Aligned(r.value.outputSize, a)
    ensures r.Ok? ==> r.value.baseSkip < MemAlign(useUdmabuf, dev) && (useUdmabuf ==> r.value.baseSkip == 0)
    ensures r.Ok? ==> r.value.uboSize >= dev.uboQuery.requiredSize
                      && r.value.outputSize >= dev.outputQuery.requiredSize
  {
    var a := MemAlign(useUdmabuf, dev);
    var skip := SkipFor(useUdmabuf, heapBase, a);
    var ubo := HeapBufferAlloc(dev.uboQuery, a);
    if ubo.Err? then Err(ubo.error)
    else
      var output := HeapBufferAlloc(dev.outputQuery, a);
      if output.Err? then Err(output.error)
      else
        var l := Layout(skip, ubo.value, output.value);
        if !HeapFits(l, outputCount, heapSize) then Err(HeapTooSmall) else Ok(l)
  }

  /** Of two aligned sizes at or above r, the one below r + a is the
      smaller. */
  lemma AlignedLeast(x: nat, y: nat, r: nat, a: nat)
    requires a > 0 && Aligned(x, a) && Aligned(y, a)
    requires r <= x < r + a && r <= y
    ensures x <= y
  {
    if y < x {
      assert x == a * (x / a) && y == a * (y / a);
      assert x - y == a * (x / a - y / a);
      MulBounds(a, x / a - y / a);
    }
  }

  /** The negotiation fails on the fit only when no layout fits: the one it
      picks is the least layout the import accepts, so whenever any layout
      with an aligned start, aligned sizes covering the device's requirements
      fits the heap, the negotiation succeeds with one no larger. */
  lemma NegotiateFailsOnlyWhenTooSmall(useUdmabuf: bool, heapBase: nat, heapSize: nat,
                                       outputCount: nat, dev: DeviceReport, l: Layout)
    requires MemAlign(useUdmabuf, dev) > 0
    requires var a := MemAlign(useUdmabuf, dev);
             HeapBufferAlloc(dev.uboQuery, a).Ok? && HeapBufferAlloc(dev.outputQuery, a).Ok?
    requires var a := MemAlign(useUdmabuf, dev);
             Aligned(ImportOrigin(useUdmabuf, heapBase) + l.baseSkip, a)
             && Aligned(l.uboSize, a) && Aligned(l.outputSize, a)
    requires l.uboSize >= dev.uboQuery.requiredSize && l.outputSize >= dev.outputQuery.requiredSize
    requires HeapFits(l, outputCount, heapSize)
    ensures NegotiateLayout(useUdmabuf, heapBase, heapSize, outputCount, dev).Ok?
    ensures var n := NegotiateLayout(useUdmabuf, heapBase, heapSize, outputCount, dev).value;
            n.baseSkip <= l.baseSkip && n.uboSize <= l.uboSize && n.outputSize <= l.outputSize
  {
    var a := MemAlign(useUdmabuf, dev);
    var skip := SkipFor(useUdmabuf, heapBase, a);
    var ubo := HeapBufferAlloc(dev.uboQuery, a).value;
    var output := HeapBufferAlloc(dev.outputQuery, a).value;
    AlignedLeast(ubo, l.uboSize, dev.uboQuery.requiredSize, a);
    AlignedLeast(output, l.outputSize, dev.outputQuery.requiredSize, a);
    MulMono(output, l.outputSize, outputCount);
    assert output * outputCount == outputCount * output;
    assert HeapFits(Layout(skip, ubo, output), outputCount, heapSize);
  }

  /** renderer_init_heap_layout exactly as written (renderer.c:402-455). */
  function NegotiateLayoutAsWritten(useUdmabuf: bool, heapBase: nat, heapSize: nat,
                                    width: nat, height: nat, outputCount: nat,
                                    dev: DeviceReport): (r: Result<Layout>)
    requires MemAlign(useUdmabuf, dev) > 0
    ensures var a := MemAlign(useUdmabuf, dev);
            var u := HeapBufferAllocAsWritten(COLOR_BLOCK_BYTES, dev.uboQuery, a);
            var o := HeapBufferAllocAsWritten(width * height * BYTES_PER_PIXEL, dev.outputQuery, a);
            && (u.Err? ==> r == Err(u.error))
            && (u.Ok? && o.Err? ==> r == Err(o.error))
            && (u.Ok? && o.Ok? ==>
                  && (r.Ok? <==> u.value + o.value * outputCount <= heapSize)
                  && (r.Err? ==> r.error == HeapTooSmall)
                  && (r.Ok? ==> r.value == Layout(SkipFor(useUdmabuf, heapBase, a), u.value, o.value)))
    ensures r.Err? ==> r.error in {NotImportable, DedicatedSizeConflict, HeapTooSmall}
    ensures r.Ok? ==> HeapFitsAsWritten(r.value, outputCount, heapSize)
    ensures r.Ok? ==> r.value.baseSkip == SkipFor(useUdmabuf, heapBase, MemAlign(useUdmabuf, dev))
  {
    var a := MemAlign(useUdmabuf, dev);
    var skip := SkipFor(useUdmabuf, heapBase, a);
    var ubo := HeapBufferAllocAsWritten(COLOR_BLOCK_BYTES, dev.uboQuery, a);
    if ubo.Err? then Err(ubo.error)
    else
      var output := HeapBufferAllocAsWritten(width * height * BYTES_PER_PIXEL, dev.outputQuery, a);
      if output.Err? then Err(output.error)
      else
        var l := Layout(skip, ubo.value, output.value);
        if !HeapFitsAsWritten(l, outputCount, heapSize) then Err(HeapTooSmall) else Ok(l)
  }

  /** Every slot of a negotiated layout is inside the heap and starts at an
      address (or file offset) the import accepts. */
  lemma NegotiatedRegionsUsable(useUdmabuf: bool, heapBase: nat, heapSize: nat,
                                outputCount: nat, dev: DeviceReport, i: nat)
    requires MemAlign(useUdmabuf, dev) > 0
    requires NegotiateLayout(useUdmabuf, heapBase, heapSize, outputCount, dev).Ok?
    requires i < outputCount
    ensures var l := NegotiateLayout(useUdmabuf, heapBase, heapSize, outputCount, dev).value;
            OutputOffset(l, i) + l.outputSize <= heapSize
            && Aligned(ImportOrigin(useUdmabuf, heapBase) + OutputOffset(l, i), MemAlign(useUdmabuf, dev))
  {
    var l := NegotiateLayout(useUdmabuf, heapBase, heapSize, outputCount, dev).value;
    RegionsWithinHeap(l, outputCount, heapSize, i);
    OutputsAligned(l, ImportOrigin(useUdmabuf, heapBase), MemAlign(useUdmabuf, dev), i);
  }

  // ---------------------------------------------------------------------
  // memory type choice (renderer.c:331, 350, 366, 370-372)

  /** Bit i of a memory-type mask. */
  predicate HasBit(x: bv32, i: bv32)
    requires i < 32
  {
    (x >> i) & 1 == 1
  }

  /** The mask of the bits below position i. */
  function LowMask(i: bv32): bv32
    requires i <= 32
  {
    if i == 32 then 0xFFFF_FFFF else (1 << i) - 1
  }

  /** No bit below position i is set. */
  predicate ClearBelow(x: bv32, i: bv32)
    requires i <= 32
  {
    x & LowMask(i) == 0
  }

  lemma ClearStep(x: bv32, k: bv32)
    requires k < 32 && ClearBelow(x, k) && !HasBit(x, k)
    ensures ClearBelow(x, k + 1)
  {
  }

  lemma AndBit(x: bv32, y: bv32, i: bv32)
    requires i < 32
    ensures HasBit(x & y, i) <==> HasBit(x, i) && HasBit(y, i)
  {
  }

  /** Position of the lowest set bit at or above k (32 when there is none). */
  function LowestFrom(x: bv32, k: bv32): (r: bv32)
    requires k <= 32
    ensures k <= r <= 32
    decreases 32 - k
  {
    if k == 32 then 32
    else if HasBit(x, k) then k
    else LowestFrom(x, k + 1)
  }

  /** When no bit below k is set, LowestFrom finds the lowest set bit. */
  lemma {:induction false} LowestFromFinds(x: bv32, k: bv32)
    requires k <= 32 && ClearBelow(x, k)
    ensures LowestFrom(x, k) < 32 ==> HasBit(x, LowestFrom(x, k))
    ensures ClearBelow(x, LowestFrom(x, k))
    decreases 32 - k
  {
    if k < 32 && !HasBit(x, k) {
      ClearStep(x, k);
      LowestFromFinds(x, k + 1);
    }
  }

  /** ffs(3): one plus the position of the lowest set bit, 0 for no bit. */
  function Ffs(x: bv32): (r: bv32)
    ensures r <= 32
    ensures r == 0 <==> x == 0
  {
    if x == 0 then 0
    else
      LowestFromBelow(x);
      LowestFrom(x, 0) + 1
  }

  /** A non-zero mask has a set bit. */
  lemma LowestFromBelow(x: bv32)
    requires x != 0
    ensures LowestFrom(x, 0) < 32
  {
    LowestFromFinds(x, 0);
  }

  /** ffs returns one plus the index of the lowest set bit. */
  lemma FfsLowest(x: bv32)
    requires x != 0
    ensures HasBit(x, Ffs(x) - 1) && ClearBelow(x, Ffs(x) - 1)
  {
    LowestFromFinds(x, 0);
    assert Ffs(x) - 1 == LowestFrom(x, 0);
  }

  /** The memory type of an imported buffer (renderer.c:370-372): fatal
      when no type is both wanted and importable, otherwise the index of the
      lowest set bit of the intersection. */
  function ChooseMemoryType(reqBits: bv32, importBits: bv32): (r: Result<bv32>)
    ensures r.Ok? <==> reqBits & importBits != 0
    ensures r.Err? ==> r.error == NoUsableMemoryType
    ensures r.Ok? ==> r.value < 32
  {
    var types := reqBits & importBits;
    if types == 0 then Err(NoUsableMemoryType) else Ok(Ffs(types) - 1)
  }

  /** The chosen type is the lowest one both masks allow. */
  lemma ChosenTypeLowest(reqBits: bv32, importBits: bv32)
    requires reqBits & importBits != 0
    ensures var t := ChooseMemoryType(reqBits, importBits).value;
            HasBit(reqBits, t) && HasBit(importBits, t) && ClearBelow(reqBits & importBits, t)
  {
    var t := ChooseMemoryType(reqBits, importBits).value;
    FfsLowest(reqBits & importBits);
    AndBit(reqBits, importBits, t);
  }
}
