/** Cache maintenance of the Controller when the heap is not coherent
    (main.c:214-217, 232-240): which addresses are flushed, and in what
    order relative to the memory fences. The instructions themselves have
    hardware semantics and are not modelled; a CacheOp records that one was
    issued and on which address. */
module Coherency {

  /** The stride of the invalidation loop: one x86 cache line. */
  const CACHE_LINE: nat := 64

  datatype CacheOp = Fence | Flush(addr: nat)

  /** The number of lines the stride loop visits over `size` bytes. */
  function LineCount(size: nat): nat
  {
    (size + CACHE_LINE - 1) / CACHE_LINE
  }

  /** The addresses start, start + 64, ... below start + size. */
  function FlushLines(start: nat, size: nat): seq<nat>
  {
    seq(LineCount(size), k requires 0 <= k => start + CACHE_LINE * k)
  }

  function Flushes(lines: seq<nat>): (ops: seq<CacheOp>)
    ensures |ops| == |lines|
    ensures forall k :: 0 <= k < |lines| ==> ops[k] == Flush(lines[k])
  {
    seq(|lines|, k requires 0 <= k < |lines| => Flush(lines[k]))
  }

  /** The lines are LineCount(size) = ceil(size / 64) consecutive strides,
      each inside the slot. */
  lemma FlushLinesInRange(start: nat, size: nat, k: nat)
    requires k < |FlushLines(start, size)|
    ensures |FlushLines(start, size)| * CACHE_LINE < size + CACHE_LINE
    ensures FlushLines(start, size)[k] == start + CACHE_LINE * k
    ensures start <= FlushLines(start, size)[k] < start + size
  {
  }

  /** Every byte of the slot lies in exactly the line whose index is its
      distance from the start divided by 64. */
  lemma FlushLinesCover(start: nat, size: nat, b: nat)
    requires start <= b < start + size
    ensures var k := (b - start) / CACHE_LINE;
            k < |FlushLines(start, size)|
            && FlushLines(start, size)[k] <= b < FlushLines(start, size)[k] + CACHE_LINE
  {
    var k := (b - start) / CACHE_LINE;
    assert CACHE_LINE * k <= b - start < CACHE_LINE * k + CACHE_LINE;
  }

  /** No fewer lines would do: the lines up to the last one leave the last
      byte of the slot uncovered. */
  lemma FlushLinesMinimal(start: nat, size: nat)
    requires size > 0
    ensures |FlushLines(start, size)| > 0
    ensures CACHE_LINE * (|FlushLines(start, size)| - 1) < size <= CACHE_LINE * |FlushLines(start, size)|
  {
  }

  /** The loop condition `ptr < end` of the stride loop holds for stride
      k exactly when k is one of the LineCount(size) lines. */
  lemma StrideInSlot(size: nat, k: nat)
    ensures CACHE_LINE * k < size <==> k < LineCount(size)
  {
  }
}
