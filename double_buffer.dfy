/** The earlier double-buffer capture driver: a ring of two 1024-sample
    buffers with separate write (DMA) and read (consumer) indices, and a reader
    that copies a FULL buffer out and marks it EMPTY.

    As for the pool, the driver is a value `Ring` with pure step functions
    that carry the promises, and a class `RingDriver` with the firmware's
    arrays whose methods are proved to perform those steps. The buffer tags
    are the pool's `BufferState`. */
module DoubleBuffer {
  import opened Fixed
  import opened AdcPool

  const RING_BUFFERS: nat := 2

  function RingNext(i: nat): (j: nat)
    ensures j < RING_BUFFERS
  {
    (i + 1) % RING_BUFFERS
  }

  datatype Ring = Ring(
    states: seq<BufferState>,
    data: seq<seq<int>>,
    stamps: seq<int>,
    writeIndex: nat,
    readIndex: nat,
    running: bool)
  {
    predicate Valid()
    {
      && |states| == RING_BUFFERS && |data| == RING_BUFFERS && |stamps| == RING_BUFFERS
      && writeIndex < RING_BUFFERS && readIndex < RING_BUFFERS
      && (forall i :: 0 <= i < RING_BUFFERS ==> IsU32(stamps[i]) && IsCapture(data[i]))
    }
  }

  /** Static zero initialisation. */
  function RingPowerOn(): (r: Ring)
    ensures r.Valid() && !r.running && r.writeIndex == 0 && r.readIndex == 0
    ensures forall i :: 0 <= i < RING_BUFFERS ==> r.states[i] == Empty
  {
    var zeros := seq(ADC_BUFFER_SIZE, _ => 0);
    Ring([Empty, Empty], [zeros, zeros], [0, 0], 0, 0, false)
  }

  /** Initialisation marks every buffer EMPTY and touches nothing else. */
  function RingInitialized(r: Ring): (q: Ring)
    requires r.Valid()
    ensures q.Valid()
    ensures forall i :: 0 <= i < RING_BUFFERS ==> q.states[i] == Empty
    ensures q.data == r.data && q.stamps == r.stamps
    ensures q.writeIndex == r.writeIndex && q.readIndex == r.readIndex && q.running == r.running
  {
    r.(states := [Empty, Empty])
  }

  /** Start: running, both indices at 0, buffer 0 FILLING. */
  function RingStarted(r: Ring): (q: Ring)
    requires r.Valid()
    ensures q.Valid() && q.running && q.writeIndex == 0 && q.readIndex == 0
    ensures q.states[0] == Filling && q.states[1] == r.states[1]
    ensures q.data == r.data && q.stamps == r.stamps
  {
    r.(running := true, writeIndex := 0, readIndex := 0, states := r.states[0 := Filling])
  }

  /** Stop only clears the running flag. */
  function RingStopped(r: Ring): (q: Ring)
    requires r.Valid()
    ensures q.Valid() && !q.running
    ensures q.states == r.states && q.data == r.data && q.stamps == r.stamps
    ensures q.writeIndex == r.writeIndex && q.readIndex == r.readIndex
  {
    r.(running := false)
  }

  /** DMA completion: the write buffer is FULL with `capture` at `now`, the
      write index advances, and while running the new write buffer becomes
      FILLING whatever it held, even an unread FULL frame. */
  function RingCompleted(r: Ring, now: int, capture: seq<int>): (q: Ring)
    requires r.Valid() && IsU32(now) && IsCapture(capture)
    ensures q.Valid() && q.running == r.running && q.readIndex == r.readIndex
    ensures q.writeIndex == RingNext(r.writeIndex)
    ensures q.data[r.writeIndex] == capture && q.stamps[r.writeIndex] == now
    ensures q.data[q.writeIndex] == r.data[q.writeIndex] && q.stamps[q.writeIndex] == r.stamps[q.writeIndex]
    ensures q.states[r.writeIndex] == Full
    ensures q.states[q.writeIndex] == if r.running then Filling else r.states[q.writeIndex]
  {
    var w := r.writeIndex;
    var next := RingNext(w);
    var full := r.states[w := Full];
    r.(states := if r.running then full[next := Filling] else full,
       data := r.data[w := capture],
       stamps := r.stamps[w := now],
       writeIndex := next)
  }

  /** Outcome of a read: success, the copied samples and timestamp, and the ring afterwards. */
  datatype Copy = Copy(ok: bool, samples: seq<int>, stamp: int, ring: Ring)

  /** Copy the buffer at the read index out if it is FULL; it becomes EMPTY and
      the read index advances. Otherwise nothing changes. */
  function RingGot(r: Ring): (c: Copy)
    requires r.Valid()
    ensures c.ring.Valid()
    ensures c.ok <==> r.states[r.readIndex] == Full
    ensures c.ok ==> && c.samples == r.data[r.readIndex] && c.stamp == r.stamps[r.readIndex]
                     && c.ring.states == r.states[r.readIndex := Empty]
                     && c.ring.readIndex == RingNext(r.readIndex)
                     && c.ring.writeIndex == r.writeIndex && c.ring.data == r.data
                     && c.ring.stamps == r.stamps && c.ring.running == r.running
    ensures !c.ok ==> c.ring == r
  {
    var i := r.readIndex;
    if r.states[i] == Full then
      Copy(true, r.data[i], r.stamps[i], r.(states := r.states[i := Empty], readIndex := RingNext(i)))
    else
      Copy(false, [], 0, r)
  }

  /** A completion into the buffer the reader waits on makes the next read
      return exactly that transfer. */
  lemma CompletionThenGot(r: Ring, now: int, capture: seq<int>)
    requires r.Valid() && IsU32(now) && IsCapture(capture)
    requires r.readIndex == r.writeIndex
    ensures var c := RingGot(RingCompleted(r, now, capture));
            c.ok && c.samples == capture && c.stamp == now
  {
  }

  /** Two completions without a read in between while running: the first
      frame's buffer is FILLING again, so the reader waiting on it gets nothing
      and the frame is lost. */
  lemma UnreadFrameOverwritten(r: Ring, t1: int, c1: seq<int>, t2: int, c2: seq<int>)
    requires r.Valid() && IsU32(t1) && IsCapture(c1) && IsU32(t2) && IsCapture(c2)
    requires r.running && r.readIndex == r.writeIndex
    ensures var q := RingCompleted(RingCompleted(r, t1, c1), t2, c2);
            q.states[r.writeIndex] == Filling && !RingGot(q).ok
  {
    var q1 := RingCompleted(r, t1, c1);
    assert q1.writeIndex == RingNext(r.writeIndex);
    assert RingNext(q1.writeIndex) == r.writeIndex;
  }

  /** A stop taken mid-transfer leaves that buffer FILLING: after start,
      completion, stop and start both buffers are FILLING although the DMA
      writes only buffer 0. */
  lemma RestartLeavesStaleFilling(now: int, capture: seq<int>)
    requires IsU32(now) && IsCapture(capture)
    ensures var r := RingStarted(RingStopped(RingCompleted(RingStarted(RingPowerOn()), now, capture)));
            r.states == [Filling, Filling] && r.writeIndex == 0
  {
  }

  /** The driver's static buffers, indices and running flag. */
  class RingDriver {
    const states: array<BufferState>
    const data: array<seq<int>>
    const stamps: array<int>
    var writeIndex: nat
    var readIndex: nat
    var running: bool

    ghost function Abs(): Ring
      reads this, states, data, stamps
    {
      Ring(states[..], data[..], stamps[..], writeIndex, readIndex, running)
    }

    ghost predicate Valid()
      reads this, states, data, stamps
    {
      Abs().Valid()
    }

    constructor ()
      ensures Valid() && Abs() == RingPowerOn()
      ensures fresh(states) && fresh(data) && fresh(stamps)
    {
      var zeros := seq(ADC_BUFFER_SIZE, _ => 0);
      states := new BufferState[RING_BUFFERS](_ => Empty);
      data := new seq<int>[RING_BUFFERS](_ => zeros);
      stamps := new int[RING_BUFFERS](_ => 0);
      writeIndex, readIndex, running := 0, 0, false;
      new;
      assert states[..] == [Empty, Empty];
      assert data[..] == [zeros, zeros];
      assert stamps[..] == [0, 0];
    }

    method DmaHandler(now: int, capture: seq<int>)
      requires Valid() && IsU32(now) && IsCapture(capture)
      modifies this, states, data, stamps
      ensures Valid() && Abs() == RingCompleted(old(Abs()), now, capture)
    {
      states[writeIndex] := Full;
      data[writeIndex] := capture;
      stamps[writeIndex] := now;
      writeIndex := RingNext(writeIndex);
      if running {
        states[writeIndex] := Filling;
      }
    }

    /** The buffer-state reset of the initialisation. */
    method Init()
      requires Valid()
      modifies states
      ensures Valid() && Abs() == RingInitialized(old(Abs()))
    {
      for i := 0 to RING_BUFFERS
        invariant forall j :: 0 <= j < i ==> states[j] == Empty
        invariant Valid()
      {
        states[i] := Empty;
      }
      assert states[..] == [Empty, Empty];
    }

    method StartContinuous()
      requires Valid()
      modifies this, states
      ensures Valid() && Abs() == RingStarted(old(Abs()))
    {
      running := true;
      writeIndex := 0;
      readIndex := 0;
      states[writeIndex] := Filling;
    }

    method Stop()
      requires Valid()
      modifies this
      ensures Valid() && Abs() == RingStopped(old(Abs()))
    {
      running := false;
    }

    /** Non-blocking copying read into `dest`, returning the timestamp. */
    method GetLatestBuffer(dest: array<int>) returns (ok: bool, stamp: int)
      requires Valid() && ADC_BUFFER_SIZE <= dest.Length
      modifies this, states, dest
      ensures Valid()
      ensures var c := RingGot(old(Abs()));
              && ok == c.ok && Abs() == c.ring
              && (ok ==> dest[..ADC_BUFFER_SIZE] == c.samples && stamp == c.stamp)
              && dest[ADC_BUFFER_SIZE..] == old(dest[ADC_BUFFER_SIZE..])
              && (!ok ==> dest[..] == old(dest[..]))
    {
      if states[readIndex] != Full {
        return false, 0;
      }
      var src := data[readIndex];
      forall i | 0 <= i < ADC_BUFFER_SIZE {
        dest[i] := src[i];
      }
      stamp := stamps[readIndex];
      states[readIndex] := Empty;
      readIndex := RingNext(readIndex);
      ok := true;
    }
  }
}
