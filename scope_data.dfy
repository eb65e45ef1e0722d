/** The zero-copy handoff between the acquisition task and the web-server task.

    Two slots, "ready" (the newest published capture) and "in use" (the capture
    the consumer is streaming), hold buffer pointers into the driver's pool.
    Publishing drops an older unclaimed ready buffer back to the driver; reading
    promotes ready to in use whenever ready is non-empty, releasing whatever was
    in use. Statistics are computed lazily outside the critical section and
    committed only if the in-use buffer has not changed meanwhile.

    `Scope` is the combined value of the pool and the two slots; the step
    functions below are what the operations do to it, and `Inv` is the
    ownership invariant: every buffer named by a slot is PROCESSING in the pool,
    so the DMA completion interrupt never writes it. */
module ScopeData {
  import opened Fixed
  import opened AdcPool

  /** Minimum, maximum and average of a capture in volts (3.3 V reference,
      12-bit codes); exact rationals stand for the firmware's floats. */
  datatype Stats = Stats(avg: real, min: real, max: real)

  /** One slot (`ScopeBuffer_t`): buffer pointer, capture timestamp, cached
      statistics and whether they are valid. */
  datatype Slot = Slot(ptr: Option<nat>, stamp: int, stats: Stats, statsValid: bool)

  /** A zero-filled slot: NULL pointer, statistics invalid. */
  const EmptySlot: Slot := Slot(None, 0, Stats(0.0, 0.0, 0.0), false)

  function Volts(code: real): real { code * 3.3 / 4095.0 }

  /** The statistics of one capture, as the firmware converts them to volts. */
  function StatsOf(s: seq<int>): Stats
  {
    Stats(Volts(Sum(s) as real / ADC_BUFFER_SIZE as real), Volts(FoldMin(s) as real), Volts(FoldMax(s) as real))
  }

  /** Compute a slot's statistics from the samples its pointer names; a NULL
      slot or one whose statistics are already valid is left as it is. The
      32-bit sum cannot wrap over 1024 samples of 16 bits. */
  method CalculateStatistics(b: Slot, samples: seq<int>) returns (r: Slot)
    requires IsCapture(samples)
    ensures b.ptr.None? || b.statsValid ==> r == b
    ensures b.ptr.Some? && !b.statsValid ==> r == b.(stats := StatsOf(samples), statsValid := true)
    ensures r.stats.min <= r.stats.max || r == b
  {
    if b.ptr.None? || b.statsValid {
      return b;
    }
    var sum, minv, maxv := 0, MAX_CODE, 0;
    for i := 0 to ADC_BUFFER_SIZE
      invariant sum == Sum(samples[..i]) && minv == FoldMin(samples[..i]) && maxv == FoldMax(samples[..i])
      invariant IsU32(sum)
    {
      assert samples[..i + 1][..i] == samples[..i];
      SumBounds(samples[..i + 1]);
      var s := samples[i];
      sum := (sum + s) % U32;
      if s < minv { minv := s; }
      if s > maxv { maxv := s; }
    }
    assert samples[..ADC_BUFFER_SIZE] == samples;
    FoldBounds(samples);
    r := b.(stats := Stats(Volts(sum as real / ADC_BUFFER_SIZE as real), Volts(minv as real), Volts(maxv as real)),
            statsValid := true);
  }

  /** The pool together with the two slots. */
  datatype Scope = Scope(pool: PoolState, ready: Slot, inUse: Slot)

  /** Slots are NULL or name a pool buffer (the producer publishes only pointers
      it took from the driver). */
  predicate InPool(ptr: Option<nat>) { ptr.None? || ptr.value < NUM_BUFFERS }

  predicate Wf(s: Scope)
  {
    s.pool.Valid() && InPool(s.ready.ptr) && InPool(s.inUse.ptr)
  }

  /** The ownership claim: each slot's buffer is PROCESSING, the two slots name
      different buffers, at most the write buffer is FILLING, and a stopped
      pool holds no buffer at all. */
  predicate Inv(s: Scope)
  {
    && Wf(s)
    && s.pool.FillingAtWriteIndex()
    && (s.ready.ptr.Some? ==> s.pool.states[s.ready.ptr.value] == Processing)
    && (s.inUse.ptr.Some? ==> s.pool.states[s.inUse.ptr.value] == Processing)
    && (s.ready.ptr.Some? && s.inUse.ptr.Some? ==> s.ready.ptr != s.inUse.ptr)
    && (!s.pool.running ==> s.ready.ptr.None? && s.inUse.ptr.None?
                            && forall i :: 0 <= i < NUM_BUFFERS ==> s.pool.states[i] == Empty)
  }

  /** Give a slot's buffer back to the driver if the slot holds one. */
  function ReleaseSlot(p: PoolState, b: Slot): (q: PoolState)
    requires p.Valid()
    ensures q.Valid()
  {
    if b.ptr.Some? then Released(p, b.ptr) else p
  }

  /** Initialisation: both slots empty; the pool is not touched. */
  function ScopeInit(s: Scope): (t: Scope)
    ensures t.ready == EmptySlot && t.inUse == EmptySlot && t.pool == s.pool
  {
    s.(ready := EmptySlot, inUse := EmptySlot)
  }

  /** Publish `ptr` captured at `stamp`: an older ready buffer is released to the
      driver first (newest wins), then ready holds the new pointer with
      statistics invalid; in use is untouched. */
  function Published(s: Scope, ptr: Option<nat>, stamp: int): (t: Scope)
    requires Wf(s) && InPool(ptr)
    ensures Wf(t)
    ensures t.pool == ReleaseSlot(s.pool, s.ready)
    ensures t.ready.ptr == ptr && t.ready.stamp == stamp && !t.ready.statsValid
    ensures t.inUse == s.inUse
  {
    var cleared := if s.ready.ptr.Some? then EmptySlot else s.ready;
    Scope(ReleaseSlot(s.pool, s.ready), cleared.(ptr := ptr, stamp := stamp, statsValid := false), s.inUse)
  }

  /** First critical section of a read: if ready holds a buffer, release the
      in-use buffer and promote ready into in use. */
  function Promoted(s: Scope): (t: Scope)
    requires Wf(s)
    ensures Wf(t)
    ensures s.ready.ptr.Some? ==> && t.pool == ReleaseSlot(s.pool, s.inUse)
                                  && t.inUse == s.ready && t.ready == EmptySlot
    ensures s.ready.ptr.None? ==> t == s
  {
    if s.ready.ptr.Some? then Scope(ReleaseSlot(s.pool, s.inUse), EmptySlot, s.ready) else s
  }

  /** Second critical section: commit statistics computed for buffer `ptr`
      only if in use still names it; the returned snapshot is in use as it now is. */
  function Committed(s: Scope, ptr: Option<nat>, stats: Stats): (t: Scope)
    ensures t.pool == s.pool && t.ready == s.ready
    ensures s.inUse.ptr == ptr ==> t.inUse == s.inUse.(stats := stats, statsValid := true)
    ensures s.inUse.ptr != ptr ==> t == s
  {
    if s.inUse.ptr == ptr then s.(inUse := s.inUse.(stats := stats, statsValid := true)) else s
  }

  /** Outcome of a read: success, the snapshot copied out, and the new state. */
  datatype Read = Read(ok: bool, snapshot: Slot, scope: Scope)

  /** `bGetLatestScopeData`; `outPresent` is false for a NULL output pointer. */
  function Got(s: Scope, outPresent: bool, calcStats: bool): (r: Read)
    requires Wf(s)
    ensures Wf(r.scope)
    ensures !outPresent ==> !r.ok && r.scope == s
    ensures outPresent ==> && r.ok == r.scope.inUse.ptr.Some?
                           && r.scope.pool == Promoted(s).pool
                           && r.scope.ready == Promoted(s).ready
                           && r.scope.inUse.ptr == Promoted(s).inUse.ptr
    ensures outPresent && !r.ok ==> r.scope == Promoted(s)
    ensures r.ok ==> r.snapshot == r.scope.inUse
    ensures r.ok && calcStats ==> r.snapshot.statsValid
    // The snapshot is the promoted in-use slot: its timestamp, and statistics
    // computed from its own buffer when they were requested and not yet valid.
    ensures r.ok ==> var t := Promoted(s);
                     && t.inUse.ptr.Some?
                     && r.snapshot.stamp == t.inUse.stamp
                     && r.scope.inUse == if calcStats && !t.inUse.statsValid
                                         then t.inUse.(stats := StatsOf(t.pool.data[t.inUse.ptr.value]), statsValid := true)
                                         else t.inUse
  {
    if !outPresent then Read(false, EmptySlot, s)
    else
      var t := Promoted(s);
      if t.inUse.ptr.None? then Read(false, EmptySlot, t)
      else if calcStats && !t.inUse.statsValid then
        var u := Committed(t, t.inUse.ptr, StatsOf(t.pool.data[t.inUse.ptr.value]));
        Read(true, u.inUse, u)
      else Read(true, t.inUse, t)
  }

  /** The acquisition task's cycle: take the newest FULL buffer from the driver
      and, if there was one, publish it. */
  function Acquired(s: Scope): (t: Scope)
    requires Wf(s)
    ensures Wf(t)
    // A FULL last-completed buffer becomes PROCESSING and is published with its
    // timestamp; otherwise nothing changes.
    ensures var i := s.pool.lastCompleted;
            s.pool.states[i] == Full ==>
              t == Published(s.(pool := s.pool.(states := s.pool.states[i := Processing])), Some(i), s.pool.stamps[i])
    ensures s.pool.states[s.pool.lastCompleted] != Full ==> t == s
  {
    var take := Taken(s.pool, true);
    if take.ok then Published(s.(pool := take.pool), take.ptr, take.stamp) else s
  }

  // ---- Properties of the handoff ----

  /** Reading twice with no publish in between yields the same buffer and
      gives nothing back to the driver the second time. */
  lemma ReadTwiceSameBuffer(s: Scope, calcStats: bool)
    requires Wf(s)
    ensures var r1 := Got(s, true, calcStats);
            var r2 := Got(r1.scope, true, calcStats);
            r2.ok == r1.ok && r2.snapshot.ptr == r1.snapshot.ptr && r2.scope.pool == r1.scope.pool
  {
  }

  /** Two publishes in a row leave only the second in ready, and the first
      buffer (held, not in use, not republished) is EMPTY again in the pool. */
  lemma PublishTwiceDropsFirst(s: Scope, a: nat, b: nat, ta: int, tb: int)
    requires Inv(s) && s.pool.running
    requires a < NUM_BUFFERS && b < NUM_BUFFERS && a != b
    requires Some(a) != s.inUse.ptr
    requires s.pool.states[a] == Processing
    ensures var t := Published(Published(s, Some(a), ta), Some(b), tb);
            t.ready.ptr == Some(b) && t.ready.stamp == tb && t.pool.states[a] == Empty
  {
  }

  /** The acquisition cycle keeps the ownership invariant. */
  lemma AcquiredKeepsInv(s: Scope)
    requires Inv(s)
    ensures Inv(Acquired(s))
  {
    var take := Taken(s.pool, true);
    if take.ok {
      var p := take.pool;
      var i := s.pool.lastCompleted;
      assert s.pool.states[i] == Full;
      var q := ReleaseSlot(p, s.ready);
      assert s.ready.ptr.Some? ==> s.ready.ptr.value != i;
      assert q.states[i] == Processing;
    }
  }

  /** A read keeps the ownership invariant. */
  lemma GotKeepsInv(s: Scope, outPresent: bool, calcStats: bool)
    requires Inv(s)
    ensures Inv(Got(s, outPresent, calcStats).scope)
  {
  }

  /** DMA completions (which happen only while capture runs) keep the
      invariant and never touch the samples of a buffer named by a slot. */
  lemma CompletionKeepsInv(s: Scope, now: int, capture: seq<int>)
    requires Inv(s) && s.pool.running && IsU32(now) && IsCapture(capture)
    ensures var t := s.(pool := Completed(s.pool, now, capture));
            && Inv(t)
            && (s.ready.ptr.Some? ==> t.pool.data[s.ready.ptr.value] == s.pool.data[s.ready.ptr.value])
            && (s.inUse.ptr.Some? ==> t.pool.data[s.inUse.ptr.value] == s.pool.data[s.inUse.ptr.value])
  {
  }

  /** Starting a stopped capture keeps the invariant. */
  lemma StartKeepsInv(s: Scope)
    requires Inv(s) && !s.pool.running
    ensures Inv(s.(pool := Started(s.pool)))
  {
  }

  /** Start has no running guard: a second start while capture runs hands
      buffer 0 back to DMA even when the consumer holds it, and leaves the old
      write buffer FILLING as well. */
  lemma RestartWhileRunningBreaksInv(s: Scope)
    requires Inv(s) && s.pool.running && s.inUse.ptr == Some(0)
    ensures !Inv(s.(pool := Started(s.pool)))
    ensures s.pool.writeIndex != 0 ==> Started(s.pool).states[s.pool.writeIndex] == Filling
  {
    assert Started(s.pool).states[0] == Filling;
  }

  /** Stopping a running capture keeps the ownership invariant exactly when no
      slot holds a buffer: stop turns the tag of a held buffer to EMPTY. */
  lemma StopKeepsInvIffNothingHeld(s: Scope)
    requires Inv(s) && s.pool.running
    ensures Inv(s.(pool := Stopped(s.pool))) <==> s.ready.ptr.None? && s.inUse.ptr.None?
  {
  }

  /** The consequence: a buffer still in use when capture is stopped and
      restarted can be buffer 0, which start hands straight back to DMA; the
      next completion overwrites the samples the consumer is streaming. */
  lemma StopStartOverwritesInUse(s: Scope, now: int, capture: seq<int>)
    requires Inv(s) && s.pool.running && s.inUse.ptr == Some(0)
    requires IsU32(now) && IsCapture(capture)
    ensures var t := s.(pool := Completed(Started(Stopped(s.pool)), now, capture));
            t.inUse.ptr == Some(0) && t.pool.data[0] == capture && t.pool.states[0] != Processing
  {
  }

  /** The firmware's slots, wired to the driver's pool. `notify` records that
      a web-server task handle is registered for wake-ups. */
  class Arbiter {
    var ready: Slot
    var inUse: Slot
    var notify: bool
    const pool: Pool

    ghost function Abs(): Scope
      reads this, pool, pool.states, pool.data, pool.stamps
      requires pool.Valid()
    {
      Scope(pool.Abs(), ready, inUse)
    }

    ghost predicate Valid()
      reads this, pool, pool.states, pool.data, pool.stamps
    {
      pool.Valid() && Wf(Abs())
    }

    /** Static zero initialisation of both slots over the given pool. */
    constructor (pool: Pool)
      requires pool.Valid()
      ensures Valid() && this.pool == pool && pool.Abs() == old(pool.Abs())
      ensures ready == EmptySlot && inUse == EmptySlot && !notify
    {
      this.pool := pool;
      ready, inUse, notify := EmptySlot, EmptySlot, false;
    }

    method Init()
      requires Valid()
      modifies this
      ensures Valid() && Abs() == ScopeInit(old(Abs())) && !notify
    {
      ready, inUse, notify := EmptySlot, EmptySlot, false;
    }

    method SetWebServerHandle(registered: bool)
      requires Valid()
      modifies this
      ensures Valid() && Abs() == old(Abs()) && notify == registered
    {
      notify := registered;
    }

    /** Publish a buffer; returns whether the web-server task was woken. */
    method PublishBuffer(ptr: Option<nat>, stamp: int) returns (woke: bool)
      requires Valid() && InPool(ptr)
      modifies this, pool.states
      ensures Valid() && Abs() == Published(old(Abs()), ptr, stamp)
      ensures woke == notify && notify == old(notify)
    {
      if ready.ptr.Some? {
        pool.ReleaseBuffer(ready.ptr);
        ready := EmptySlot;
      }
      ready := ready.(ptr := ptr, stamp := stamp, statsValid := false);
      woke := notify;
    }

    /** Read the latest snapshot: promote under the first critical section,
        compute statistics outside it, commit them under the second. */
    method GetLatestScopeData(outPresent: bool, calcStats: bool) returns (ok: bool, snapshot: Slot)
      requires Valid()
      modifies this, pool.states
      ensures Valid() && notify == old(notify)
      ensures var r := Got(old(Abs()), outPresent, calcStats);
              ok == r.ok && Abs() == r.scope && (ok ==> snapshot == r.snapshot)
    {
      ok, snapshot := false, EmptySlot;
      if !outPresent {
        return;
      }
      var local := EmptySlot;
      var have, needStats := false, false;
      if ready.ptr.Some? {
        if inUse.ptr.Some? {
          pool.ReleaseBuffer(inUse.ptr);
          inUse := EmptySlot;
        }
        inUse := ready;
        ready := EmptySlot;
      }
      if inUse.ptr.Some? {
        local := inUse;
        have := true;
        needStats := calcStats && !inUse.statsValid;
      }
      if !have {
        return;
      }
      if needStats {
        var tmp := CalculateStatistics(local, pool.data[local.ptr.value]);
        local := CommitStats(local.ptr, tmp.stats);
      }
      ok, snapshot := true, local;
    }

    /** The stale-write guard: commit only if in use still names `ptr`. */
    method CommitStats(ptr: Option<nat>, stats: Stats) returns (local: Slot)
      requires Valid()
      modifies this
      ensures Valid() && notify == old(notify)
      ensures Abs() == Committed(old(Abs()), ptr, stats) && local == inUse
    {
      if inUse.ptr == ptr {
        inUse := inUse.(stats := stats, statsValid := true);
      }
      local := inUse;
    }
  }
}
