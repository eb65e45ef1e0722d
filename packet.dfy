/** The binary frame streamed to the browser over the WebSocket: a packed
    record of three 32-bit counters, three 32-bit floats and 256 16-bit
    samples, 536 bytes, little-endian. The browser decodes it with
    little-endian reads at fixed offsets (samples from byte 24).

    Bytes are ints in [0, 256). The float fields are carried as their 32-bit
    patterns: the frame stores and the browser reads them bit for bit. */
module Packet {
  import opened Fixed
  import opened AdcPool
  import opened Trigger
  import opened WebServer

  const PACKET_SIZE: nat := 536
  const SAMPLES_OFFSET: nat := 24

  predicate IsByte(x: int) { 0 <= x < 256 }
  predicate AllBytes(b: seq<int>) { forall i :: 0 <= i < |b| ==> IsByte(b[i]) }

  /** `ScopePacket_t`. */
  datatype ScopePacket = ScopePacket(
    timestampMs: int,
    ageMs: int,
    sampleCount: int,
    vminBits: int,
    vmaxBits: int,
    vavgBits: int,
    samples: seq<int>)
  {
    predicate Valid()
    {
      && IsU32(timestampMs) && IsU32(ageMs) && IsU32(sampleCount)
      && IsU32(vminBits) && IsU32(vmaxBits) && IsU32(vavgBits)
      && |samples| == DISPLAY_POINTS && AllU16(samples)
    }
  }

  /** The frame for one snapshot: its timestamp, its age at `now`, the raw
      capture length, the three statistics and the capture decimated to the
      display points. */
  function BuildPacket(stamp: int, now: int, vminBits: int, vmaxBits: int, vavgBits: int, capture: seq<int>): (p: ScopePacket)
    requires IsU32(stamp) && IsU32(now) && IsU32(vminBits) && IsU32(vmaxBits) && IsU32(vavgBits)
    requires IsCapture(capture)
    ensures p.Valid()
    ensures p.timestampMs == stamp && p.ageMs == Age(stamp, now) && p.sampleCount == ADC_BUFFER_SIZE
    ensures p.vminBits == vminBits && p.vmaxBits == vmaxBits && p.vavgBits == vavgBits
    ensures p.samples == Decimated(capture, DISPLAY_POINTS)
  {
    var points := Decimated(capture, DISPLAY_POINTS);
    DecimatedU16(capture, DISPLAY_POINTS);
    ScopePacket(stamp, Age(stamp, now), ADC_BUFFER_SIZE, vminBits, vmaxBits, vavgBits, points)
  }

  /** Little-endian bytes of a 32-bit and a 16-bit value. */
  function U32Le(x: int): (b: seq<int>)
    ensures |b| == 4 && AllBytes(b)
  {
    [x % 256, x / 256 % 256, x / 256 / 256 % 256, x / 256 / 256 / 256 % 256]
  }

  function U16Le(x: int): (b: seq<int>)
    ensures |b| == 2 && AllBytes(b)
  {
    [x % 256, x / 256 % 256]
  }

  /** Little-endian reads, as `DataView.getUint32(off, true)` and a
      `Uint16Array` element on a little-endian host. */
  function GetU32(b: seq<int>, off: int): int
    requires 0 <= off && off + 4 <= |b|
  {
    b[off] + 256 * b[off + 1] + 65536 * b[off + 2] + 16777216 * b[off + 3]
  }

  function GetU16(b: seq<int>, off: int): int
    requires 0 <= off && off + 2 <= |b|
  {
    b[off] + 256 * b[off + 1]
  }

  /** The samples, two bytes each, in order. */
  function SamplesLe(s: seq<int>): (b: seq<int>)
    ensures |b| == 2 * |s| && AllBytes(b)
    ensures forall i :: 0 <= i < |s| ==> b[2 * i] == s[i] % 256 && b[2 * i + 1] == s[i] / 256 % 256
  {
    if s == [] then []
    else
      var b := SamplesLe(s[..|s| - 1]) + U16Le(s[|s| - 1]);
      assert forall i :: 0 <= i < |s| - 1 ==> s[..|s| - 1][i] == s[i];
      b
  }

  /** The packed layout: six 32-bit fields, then the samples. */
  function Encode(p: ScopePacket): (b: seq<int>)
    requires p.Valid()
    ensures |b| == PACKET_SIZE && AllBytes(b)
    ensures forall i :: 0 <= i < DISPLAY_POINTS ==> GetU16(b, SAMPLES_OFFSET + 2 * i) == p.samples[i]
  {
    var b := U32Le(p.timestampMs) + U32Le(p.ageMs) + U32Le(p.sampleCount)
           + U32Le(p.vminBits) + U32Le(p.vmaxBits) + U32Le(p.vavgBits) + SamplesLe(p.samples);
    forall i | 0 <= i < DISPLAY_POINTS
      ensures GetU16(b, SAMPLES_OFFSET + 2 * i) == p.samples[i]
    {
      U16Split(p.samples[i]);
    }
    b
  }

  /** The browser's reads; a buffer shorter than the frame is rejected. */
  function Decode(b: seq<int>): (p: Option<ScopePacket>)
    ensures p.Some? <==> |b| >= PACKET_SIZE
  {
    if |b| < PACKET_SIZE then None
    else Some(ScopePacket(GetU32(b, 0), GetU32(b, 4), GetU32(b, 8), GetU32(b, 12), GetU32(b, 16), GetU32(b, 20),
                          seq(DISPLAY_POINTS, i requires 0 <= i < DISPLAY_POINTS => GetU16(b, SAMPLES_OFFSET + 2 * i))))
  }

  lemma U32Split(x: int)
    requires IsU32(x)
    ensures var b := U32Le(x); b[0] + 256 * b[1] + 65536 * b[2] + 16777216 * b[3] == x
  {
    var q1 := x / 256;
    var q2 := q1 / 256;
    var q3 := q2 / 256;
    assert x == 256 * q1 + x % 256;
    assert q1 == 256 * q2 + q1 % 256;
    assert q2 == 256 * q3 + q2 % 256;
    assert q3 < 256;
  }

  lemma U16Split(x: int)
    requires IsU16(x)
    ensures var b := U16Le(x); b[0] + 256 * b[1] == x
  {
    assert x == 256 * (x / 256) + x % 256;
  }

  lemma U32Join(b0: int, b1: int, b2: int, b3: int)
    requires IsByte(b0) && IsByte(b1) && IsByte(b2) && IsByte(b3)
    ensures U32Le(b0 + 256 * b1 + 65536 * b2 + 16777216 * b3) == [b0, b1, b2, b3]
  {
    var x := b0 + 256 * b1 + 65536 * b2 + 16777216 * b3;
    assert x / 256 == b1 + 256 * b2 + 65536 * b3;
    assert x / 256 / 256 == b2 + 256 * b3;
    assert x / 256 / 256 / 256 == b3;
  }

  /** What the firmware sends, the browser reads back field for field. */
  lemma DecodeEncode(p: ScopePacket)
    requires p.Valid()
    ensures Decode(Encode(p)) == Some(p)
  {
    var b := Encode(p);
    U32Split(p.timestampMs);
    U32Split(p.ageMs);
    U32Split(p.sampleCount);
    U32Split(p.vminBits);
    U32Split(p.vmaxBits);
    U32Split(p.vavgBits);
    var q := Decode(b).value;
    assert q.samples == p.samples;
  }

  /** Every 536-byte buffer is the encoding of the frame the browser reads
      from it: the layout has no padding and no unused byte. */
  lemma EncodeDecode(b: seq<int>)
    requires |b| == PACKET_SIZE && AllBytes(b)
    ensures Decode(b).value.Valid() && Encode(Decode(b).value) == b
  {
    var p := Decode(b).value;
    forall off | 0 <= off <= 20 && off % 4 == 0
      ensures U32Le(GetU32(b, off)) == b[off..off + 4]
    {
      U32Join(b[off], b[off + 1], b[off + 2], b[off + 3]);
    }
    assert b[..SAMPLES_OFFSET] == b[0..4] + b[4..8] + b[8..12] + b[12..16] + b[16..20] + b[20..24];
    SampleBytes(b, p.samples);
    assert b == b[..SAMPLES_OFFSET] + b[SAMPLES_OFFSET..];
  }

  /** The sample area read as 16-bit values re-encodes to the same bytes. */
  lemma SampleBytes(b: seq<int>, s: seq<int>)
    requires |b| == PACKET_SIZE && AllBytes(b)
    requires |s| == DISPLAY_POINTS && forall i :: 0 <= i < DISPLAY_POINTS ==> s[i] == GetU16(b, SAMPLES_OFFSET + 2 * i)
    ensures AllU16(s) && SamplesLe(s) == b[SAMPLES_OFFSET..]
  {
    var e := SamplesLe(s);
    forall i | 0 <= i < DISPLAY_POINTS
      ensures IsU16(s[i]) && e[2 * i] == b[SAMPLES_OFFSET + 2 * i] && e[2 * i + 1] == b[SAMPLES_OFFSET + 2 * i + 1]
    {
      ByteJoin(b[SAMPLES_OFFSET + 2 * i], b[SAMPLES_OFFSET + 2 * i + 1]);
    }
    forall k | 0 <= k < 2 * DISPLAY_POINTS
      ensures e[k] == b[SAMPLES_OFFSET + k]
    {
      var i := k / 2;
      assert k == 2 * i || k == 2 * i + 1;
    }
  }

  /** Two bytes joined little-endian split back into the same two bytes. */
  lemma ByteJoin(lo: int, hi: int)
    requires IsByte(lo) && IsByte(hi)
    ensures IsU16(lo + 256 * hi)
    ensures (lo + 256 * hi) % 256 == lo && (lo + 256 * hi) / 256 % 256 == hi
  {
    var x := lo + 256 * hi;
    assert x / 256 == hi;
  }
}
