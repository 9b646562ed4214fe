/** The Controller's frame-index traversal (main.c:254-284): the slot index
    `output` bounces between 0 and output_count - 1 with direction
    `output_inc`, and the colour channel advances at every bounce off the
    bottom. The top index is rendered twice in a row, the bottom index once. */
module Traversal {

  /** The three loop variables of app_mainloop. */
  datatype Position = Position(output: int, inc: int, channel: int)

  /** output = 0, output_inc = 1, channel = 0. */
  const Start: Position := Position(0, 1, 0)

  /** The traversal invariant: a slot index in range, a unit direction and
      one of the three colour channels. */
  predicate Valid(p: Position, count: int)
  {
    0 <= p.output < count && (p.inc == 1 || p.inc == -1) && 0 <= p.channel < 3
  }

  /** One "next value/channel" update (main.c:273-282). */
  function Step(p: Position, count: int): (q: Position)
    ensures count >= 2 && Valid(p, count) ==> Valid(q, count)
    ensures Valid(p, count) ==> (q.channel != p.channel <==> p.output + p.inc < 0)
    ensures Valid(p, count) && p.output + p.inc < 0 ==> q.channel == (p.channel + 1) % 3
  {
    var o := p.output + p.inc;
    if o >= count then Position(count - 1, -1, p.channel)
    else if o < 0 then Position(1, 1, (p.channel + 1) % 3)
    else Position(o, p.inc, p.channel)
  }

  /** The position after n updates from p. */
  function Steps(p: Position, count: int, n: nat): Position
  {
    if n == 0 then p else Step(Steps(p, count, n - 1), count)
  }

  /** The slot the Controller renders in frame k. */
  function FrameSlot(count: int, k: nat): int
  {
    Steps(Start, count, k).output
  }

  /** With at least two slots, the invariant holds in every frame. */
  lemma {:induction false} StepsValid(count: int, n: nat)
    requires count >= 2
    ensures Valid(Steps(Start, count, n), count)
  {
    if n > 0 {
      StepsValid(count, n - 1);
    }
  }

  lemma {:induction false} StepsAdd(p: Position, count: int, m: nat, n: nat)
    ensures Steps(p, count, m + n) == Steps(Steps(p, count, m), count, n)
  {
    if n > 0 {
      StepsAdd(p, count, m, n - 1);
    }
  }

  /** Stepping past the top keeps the top index and turns downwards, so the
      top slot is rendered twice; stepping below 0 goes to slot 1 upwards
      and advances the channel. */
  lemma Bounces(count: int, channel: int)
    requires count >= 2 && 0 <= channel < 3
    ensures Step(Position(count - 1, 1, channel), count) == Position(count - 1, -1, channel)
    ensures Step(Position(0, -1, channel), count) == Position(1, 1, (channel + 1) % 3)
  {
  }

  /** Going up from slot o without reaching the top. */
  lemma {:induction false} SweepUp(count: int, o: int, channel: int, k: nat)
    requires 0 <= o && o + k < count
    ensures Steps(Position(o, 1, channel), count, k) == Position(o + k, 1, channel)
  {
    if k > 0 {
      SweepUp(count, o, channel, k - 1);
    }
  }

  /** Going down from slot o without passing below 0. */
  lemma {:induction false} SweepDown(count: int, o: int, channel: int, k: nat)
    requires o < count && 0 <= o - k
    ensures Steps(Position(o, -1, channel), count, k) == Position(o - k, -1, channel)
  {
    if k > 0 {
      SweepDown(count, o, channel, k - 1);
    }
  }

  /** From slot 1 going up, count - 1 frames reach the top and turn. */
  lemma RiseToTop(count: int, channel: int)
    requires count >= 2
    ensures Steps(Position(1, 1, channel), count, count - 1) == Position(count - 1, -1, channel)
  {
    SweepUp(count, 1, channel, count - 2);
    StepsAdd(Position(1, 1, channel), count, count - 2, 1);
  }

  /** From the top going down, count frames pass slot 0 and turn up, with
      the next channel. */
  lemma FallToBottom(count: int, channel: int)
    requires count >= 2 && 0 <= channel < 3
    ensures Steps(Position(count - 1, -1, channel), count, count) == Position(1, 1, (channel + 1) % 3)
  {
    var top := Position(count - 1, -1, channel);
    SweepDown(count, count - 1, channel, count - 1);
    StepsAdd(top, count, count - 1, 1);
  }

  /** One full sweep from slot 1 upwards (slots 1 .. count-1, count-1 again,
      count-2 .. 0) takes 2*count - 1 frames and comes back to slot 1 with
      the next channel. */
  lemma FullCycle(count: int, channel: int)
    requires count >= 2 && 0 <= channel < 3
    ensures Steps(Position(1, 1, channel), count, 2 * count - 1) == Position(1, 1, (channel + 1) % 3)
  {
    RiseToTop(count, channel);
    FallToBottom(count, channel);
    StepsAdd(Position(1, 1, channel), count, count - 1, count);
  }

  /** k frames after turning at the top, the sweep is k slots below it. */
  lemma AfterTop(count: int, channel: int, k: nat)
    requires count >= 2 && k <= count - 1
    ensures Steps(Position(1, 1, channel), count, count - 1 + k) == Position(count - 1 - k, -1, channel)
  {
    RiseToTop(count, channel);
    SweepDown(count, count - 1, channel, k);
    StepsAdd(Position(1, 1, channel), count, count - 1, k);
  }

  /** Within a sweep the top slot is shown in two consecutive frames, and
      the bottom slot in one frame, between two frames of slot 1. */
  lemma TopTwiceBottomOnce(count: int, channel: int)
    requires count >= 2 && 0 <= channel < 3
    ensures Steps(Position(1, 1, channel), count, count - 2).output == count - 1
    ensures Steps(Position(1, 1, channel), count, count - 1).output == count - 1
    ensures Steps(Position(1, 1, channel), count, 2 * count - 3).output == 1
    ensures Steps(Position(1, 1, channel), count, 2 * count - 2).output == 0
    ensures Steps(Position(1, 1, channel), count, 2 * count - 1).output == 1
  {
    SweepUp(count, 1, channel, count - 2);
    AfterTop(count, channel, count - 2);
    AfterTop(count, channel, count - 1);
    FullCycle(count, channel);
  }

  /** The traversal is periodic: after the first frame, every 2*count - 1
      frames it is back at slot 1 going up, and the channel has advanced by
      the number of sweeps, modulo 3. */
  lemma {:induction false} Periodic(count: int, sweeps: nat)
    requires count >= 2
    ensures Steps(Start, count, 1 + sweeps * (2 * count - 1)) == Position(1, 1, sweeps % 3)
  {
    if sweeps > 0 {
      var period := 2 * count - 1;
      var k := sweeps - 1;
      MulSucc(k, period);
      var m := 1 + k * period;
      Periodic(count, k);
      NextCycle(count, m, k % 3);
      ModSucc(k);
    }
  }

  /** A sweep appended to frame m, where the traversal is at slot 1 going up. */
  lemma NextCycle(count: int, m: nat, channel: int)
    requires count >= 2 && 0 <= channel < 3
    requires Steps(Start, count, m) == Position(1, 1, channel)
    ensures Steps(Start, count, m + (2 * count - 1)) == Position(1, 1, (channel + 1) % 3)
  {
    StepsAdd(Start, count, m, 2 * count - 1);
    FullCycle(count, channel);
  }

  lemma ModSucc(k: nat)
    ensures (k % 3 + 1) % 3 == (k + 1) % 3
  {
    var q, r := k / 3, k % 3;
    assert k == 3 * q + r;
    if r == 2 {
      assert k + 1 == 3 * (q + 1);
    } else {
      assert k + 1 == 3 * q + (r + 1);
    }
  }

  lemma MulSucc(k: nat, period: nat)
    ensures k * period >= 0
    ensures (k + 1) * period == k * period + period
  {
  }

  /** With a single slot the traversal leaves the slot range in its third
      frame: why the invariant needs output_count >= 2. */
  lemma SingleSlotEscapes()
    ensures Steps(Start, 1, 2) == Position(1, 1, 1)
    ensures !Valid(Steps(Start, 1, 2), 1)
  {
  }
}
