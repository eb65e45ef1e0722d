/** The triple-buffer DMA sample pool of the acquisition driver.

    Three buffers of 1024 samples each carry a state tag. The DMA completion
    interrupt fills them in turn; the acquisition task takes the newest FULL one
    (it becomes PROCESSING) and later releases it (it becomes EMPTY again).

    The pool is modelled twice: as the value `PoolState`, on which every driver
    operation is a pure step function whose contract states what the firmware
    promises, and as the class `Pool` with the firmware's arrays and fields,
    whose methods are proved to perform exactly those steps. A buffer pointer is
    the buffer's index: `Some(i)` with `i < NUM_BUFFERS` is `xBuffers[i].usData`,
    `Some(i)` with a larger `i` is a pointer into no pool buffer, `None` is NULL. */
module AdcPool {
  import opened Fixed

  const NUM_BUFFERS: nat := 3
  const ADC_BUFFER_SIZE: nat := 1024

  datatype BufferState = Empty | Filling | Full | Processing

  /** The samples one finished transfer leaves in a buffer. */
  predicate IsCapture(s: seq<int>) { |s| == ADC_BUFFER_SIZE && AllU16(s) }

  /** Index of the buffer after `i` in the ring. */
  function NextIndex(i: nat): (j: nat)
    ensures j < NUM_BUFFERS
  {
    (i + 1) % NUM_BUFFERS
  }

  /** The driver's module state: tags, sample arrays and timestamps per buffer,
      the write index, the last-completed index, the overrun counter and the
      running flag. */
  datatype PoolState = PoolState(
    states: seq<BufferState>,
    data: seq<seq<int>>,
    stamps: seq<int>,
    writeIndex: nat,
    lastCompleted: nat,
    overruns: int,
    running: bool)
  {
    predicate Valid()
    {
      && |states| == NUM_BUFFERS && |data| == NUM_BUFFERS && |stamps| == NUM_BUFFERS
      && writeIndex < NUM_BUFFERS && lastCompleted < NUM_BUFFERS
      && IsU32(overruns)
      && (forall i :: 0 <= i < NUM_BUFFERS ==> IsU32(stamps[i]) && IsCapture(data[i]))
    }

    /** While capture runs, exactly one buffer is FILLING and it is the one at
        the write index; while it is stopped, none is. */
    predicate FillingAtWriteIndex()
      requires Valid()
    {
      && (running ==> states[writeIndex] == Filling)
      && (forall i :: 0 <= i < NUM_BUFFERS && states[i] == Filling ==> running && i == writeIndex)
    }

    /** The candidate buffer after the write index is held by the consumer. */
    predicate WouldOverrun()
      requires Valid()
    {
      states[NextIndex(writeIndex)] == Processing
    }
  }

  /** Static zero initialisation: every buffer EMPTY and zeroed, capture stopped. */
  function PowerOn(): (p: PoolState)
    ensures p.Valid() && p.FillingAtWriteIndex() && !p.running
  {
    var zeros := seq(ADC_BUFFER_SIZE, _ => 0);
    PoolState([Empty, Empty, Empty], [zeros, zeros, zeros], [0, 0, 0], 0, 0, 0, false)
  }

  /** The DMA completion interrupt: the transfer into the write buffer has
      finished and left `capture` in it at time `now`. The hardware re-arm is
      not modelled. */
  function Completed(p: PoolState, now: int, capture: seq<int>): (q: PoolState)
    requires p.Valid() && IsU32(now) && IsCapture(capture)
    ensures q.Valid() && q.running == p.running
    // The finished buffer is stamped and remembered; DMA wrote into it and nowhere else.
    ensures q.lastCompleted == p.writeIndex && q.stamps[p.writeIndex] == now
    ensures q.data[p.writeIndex] == capture
    ensures forall i :: 0 <= i < NUM_BUFFERS && i != p.writeIndex ==>
              q.data[i] == p.data[i] && q.stamps[i] == p.stamps[i]
    // The overrun counter moves by exactly one, and only when the candidate is held.
    ensures q.overruns == if p.WouldOverrun() then (p.overruns + 1) % U32 else p.overruns
    // A buffer held by the consumer is never taken back while the write buffer was filling.
    ensures p.states[p.writeIndex] == Filling ==>
              forall i :: 0 <= i < NUM_BUFFERS && p.states[i] == Processing ==> q.states[i] == Processing
    ensures p.FillingAtWriteIndex() ==> q.FillingAtWriteIndex()
    // The finished buffer is FULL; while running, DMA moves on to the next
    // buffer (or stays on this one when the next is held) and marks it FILLING.
    ensures q.writeIndex == if p.running && !p.WouldOverrun() then NextIndex(p.writeIndex) else p.writeIndex
    ensures q.states == if p.running then p.states[p.writeIndex := Full][q.writeIndex := Filling]
                        else p.states[p.writeIndex := Full]
  {
    var c := p.writeIndex;
    var overrun := p.WouldOverrun();
    var next := if overrun then c else NextIndex(c);
    var full := p.states[c := Full];
    p.(states := if p.running then full[next := Filling] else full,
       data := p.data[c := capture],
       stamps := p.stamps[c := now],
       lastCompleted := c,
       writeIndex := if p.running then next else c,
       overruns := if overrun then (p.overruns + 1) % U32 else p.overruns)
  }

  /** Buffer and index reset of the driver initialisation (a running capture is
      stopped first); the overrun counter is cleared too. */
  function Initialized(p: PoolState): (q: PoolState)
    requires p.Valid()
    ensures q.Valid() && q.FillingAtWriteIndex() && !q.running
    ensures forall i :: 0 <= i < NUM_BUFFERS ==> q.states[i] == Empty && q.stamps[i] == 0
    ensures q.writeIndex == 0 && q.lastCompleted == 0 && q.overruns == 0
    ensures q.data == p.data
  {
    p.(states := [Empty, Empty, Empty], stamps := [0, 0, 0],
       writeIndex := 0, lastCompleted := 0, overruns := 0, running := false)
  }

  /** Start continuous capture into buffer 0, whatever its tag was. */
  function Started(p: PoolState): (q: PoolState)
    requires p.Valid()
    ensures q.Valid() && q.running && q.writeIndex == 0 && q.states[0] == Filling
    ensures forall i :: 1 <= i < NUM_BUFFERS ==> q.states[i] == p.states[i]
    ensures q.data == p.data && q.stamps == p.stamps
    ensures q.lastCompleted == p.lastCompleted && q.overruns == p.overruns
    ensures !p.running && p.FillingAtWriteIndex() ==> q.FillingAtWriteIndex()
  {
    p.(running := true, writeIndex := 0, states := p.states[0 := Filling])
  }

  /** Stop capture: a no-op unless running; otherwise every tag (even of a
      buffer the consumer still holds) becomes EMPTY and the bookkeeping is reset. */
  function Stopped(p: PoolState): (q: PoolState)
    requires p.Valid()
    ensures q.Valid() && !q.running && q.data == p.data && q.overruns == p.overruns
    ensures !p.running ==> q == p
    ensures p.running ==> && (forall i :: 0 <= i < NUM_BUFFERS ==> q.states[i] == Empty && q.stamps[i] == 0)
                          && q.writeIndex == 0 && q.lastCompleted == 0
    ensures p.FillingAtWriteIndex() ==> q.FillingAtWriteIndex()
  {
    if !p.running then p
    else p.(states := [Empty, Empty, Empty], stamps := [0, 0, 0],
            writeIndex := 0, lastCompleted := 0, running := false)
  }

  /** Outcome of "take latest": success, the buffer pointer and timestamp
      written to the out-parameters, and the pool afterwards. */
  datatype Take = Take(ok: bool, ptr: Option<nat>, stamp: int, pool: PoolState)

  /** Hand out the last completed buffer if it is FULL, making it PROCESSING.
      `outPresent` is false when either out-parameter pointer is NULL. */
  function Taken(p: PoolState, outPresent: bool): (t: Take)
    requires p.Valid()
    ensures t.pool.Valid()
    ensures t.ok <==> outPresent && p.states[p.lastCompleted] == Full
    ensures t.ok ==> && t.ptr == Some(p.lastCompleted)
                     && t.stamp == p.stamps[p.lastCompleted]
                     && t.pool == p.(states := p.states[p.lastCompleted := Processing])
    ensures !t.ok ==> t.pool == p && t.ptr == None
    ensures p.FillingAtWriteIndex() ==> t.pool.FillingAtWriteIndex()
  {
    if outPresent && p.states[p.lastCompleted] == Full then
      Take(true, Some(p.lastCompleted), p.stamps[p.lastCompleted],
           p.(states := p.states[p.lastCompleted := Processing]))
    else
      Take(false, None, 0, p)
  }

  /** `ptr` names a pool buffer that is PROCESSING. */
  predicate Releasable(p: PoolState, ptr: Option<nat>)
    requires p.Valid()
  {
    ptr.Some? && ptr.value < NUM_BUFFERS && p.states[ptr.value] == Processing
  }

  /** Return a handed-out buffer: the PROCESSING buffer that `ptr` names
      becomes EMPTY; any other pointer, and NULL, change nothing. */
  function Released(p: PoolState, ptr: Option<nat>): (q: PoolState)
    requires p.Valid()
    ensures q.Valid()
    ensures Releasable(p, ptr) ==> q == p.(states := p.states[ptr.value := Empty])
    ensures !Releasable(p, ptr) ==> q == p
    ensures p.FillingAtWriteIndex() ==> q.FillingAtWriteIndex()
  {
    if Releasable(p, ptr) then p.(states := p.states[ptr.value := Empty]) else p
  }

  /** Releasing twice is releasing once. */
  lemma ReleaseIdempotent(p: PoolState, ptr: Option<nat>)
    requires p.Valid()
    ensures Released(Released(p, ptr), ptr) == Released(p, ptr)
  {
  }

  /** After an overrun while running, the last completed buffer is being
      refilled, so nothing can be taken until the next completion. */
  lemma OverrunBlocksTake(p: PoolState, now: int, capture: seq<int>, outPresent: bool)
    requires p.Valid() && IsU32(now) && IsCapture(capture)
    requires p.running && p.WouldOverrun()
    ensures var q := Completed(p, now, capture);
            q.states[q.lastCompleted] == Filling && !Taken(q, outPresent).ok
  {
  }

  /** Without an overrun, the completed buffer is FULL and the next take
      hands out exactly what the transfer wrote, with its timestamp. */
  lemma CompletionThenTake(p: PoolState, now: int, capture: seq<int>)
    requires p.Valid() && IsU32(now) && IsCapture(capture)
    requires !p.WouldOverrun()
    ensures var q := Completed(p, now, capture);
            var t := Taken(q, true);
            t.ok && t.ptr == Some(p.writeIndex) && t.stamp == now && t.pool.data[p.writeIndex] == capture
  {
  }

  /** The driver itself: the firmware's static arrays and variables. `overruns`
      is the counter the header declares `static`; here it is a field of the
      driver, written only by the completion handler and initialisation. */
  class Pool {
    const states: array<BufferState>
    const data: array<seq<int>>
    const stamps: array<int>
    var writeIndex: nat
    var lastCompleted: nat
    var overruns: int
    var running: bool

    ghost function Abs(): PoolState
      reads this, states, data, stamps
    {
      PoolState(states[..], data[..], stamps[..], writeIndex, lastCompleted, overruns, running)
    }

    ghost predicate Valid()
      reads this, states, data, stamps
    {
      Abs().Valid()
    }

    constructor ()
      ensures Valid() && Abs() == PowerOn()
      ensures fresh(states) && fresh(data) && fresh(stamps)
    {
      var zeros := seq(ADC_BUFFER_SIZE, _ => 0);
      states := new BufferState[NUM_BUFFERS](_ => Empty);
      data := new seq<int>[NUM_BUFFERS](_ => zeros);
      stamps := new int[NUM_BUFFERS](_ => 0);
      writeIndex, lastCompleted, overruns, running := 0, 0, 0, false;
      new;
      assert states[..] == [Empty, Empty, Empty];
      assert data[..] == [zeros, zeros, zeros];
      assert stamps[..] == [0, 0, 0];
    }

    /** DMA completion handler; `now` is the millisecond clock and `capture`
        the samples the finished transfer wrote. */
    method DmaHandler(now: int, capture: seq<int>)
      requires Valid() && IsU32(now) && IsCapture(capture)
      modifies this, states, data, stamps
      ensures Valid() && Abs() == Completed(old(Abs()), now, capture)
    {
      var completed := writeIndex;
      states[completed] := Full;
      data[completed] := capture;
      stamps[completed] := now;
      lastCompleted := completed;
      var next := NextIndex(completed);
      if states[next] == Processing {
        next := completed;
        overruns := (overruns + 1) % U32;
      }
      if running {
        writeIndex := next;
        states[writeIndex] := Filling;
      }
    }

    /** Reset every tag and timestamp and the indices (after stopping a
        running capture). */
    method Init()
      requires Valid()
      modifies this, states, stamps
      ensures Valid() && Abs() == Initialized(old(Abs()))
    {
      if running {
        Stop();
      }
      ResetBuffers();
      writeIndex := 0;
      lastCompleted := 0;
      overruns := 0;
    }

    /** The reset loop shared by initialisation and stop. */
    method ResetBuffers()
      requires Valid()
      modifies states, stamps
      ensures Valid() && states[..] == [Empty, Empty, Empty] && stamps[..] == [0, 0, 0]
    {
      for i := 0 to NUM_BUFFERS
        invariant forall j :: 0 <= j < i ==> states[j] == Empty && stamps[j] == 0
        invariant Valid()
      {
        states[i] := Empty;
        stamps[i] := 0;
      }
    }

    method StartContinuous()
      requires Valid()
      modifies this, states
      ensures Valid() && Abs() == Started(old(Abs()))
    {
      running := true;
      writeIndex := 0;
      states[writeIndex] := Filling;
    }

    method Stop()
      requires Valid()
      modifies this, states, stamps
      ensures Valid() && Abs() == Stopped(old(Abs()))
    {
      if !running {
        return;
      }
      running := false;
      ResetBuffers();
      writeIndex := 0;
      lastCompleted := 0;
    }

    /** Zero-copy take of the newest FULL buffer. */
    method GetLatestBufferPtr(outPresent: bool) returns (ok: bool, ptr: Option<nat>, stamp: int)
      requires Valid()
      modifies states
      ensures Valid()
      ensures var t := Taken(old(Abs()), outPresent);
              ok == t.ok && ptr == t.ptr && stamp == t.stamp && Abs() == t.pool
    {
      ok, ptr, stamp := false, None, 0;
      if !outPresent {
        return;
      }
      var latest := lastCompleted;
      if states[latest] == Full {
        states[latest] := Processing;
        ptr := Some(latest);
        stamp := stamps[latest];
        ok := true;
      }
    }

    /** Return a buffer: search the pool for the PROCESSING buffer `ptr` names. */
    method ReleaseBuffer(ptr: Option<nat>)
      requires Valid()
      modifies states
      ensures Valid() && Abs() == Released(old(Abs()), ptr)
    {
      if ptr.None? {
        return;
      }
      for i := 0 to NUM_BUFFERS
        invariant states[..] == old(states[..])
        invariant forall j :: 0 <= j < i ==> !(ptr == Some(j) && states[j] == Processing)
      {
        if ptr == Some(i) && states[i] == Processing {
          states[i] := Empty;
          return;
        }
      }
    }
  }
}
