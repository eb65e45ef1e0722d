/** The trigger/resample framer: maps one raw capture onto a fixed number of
    display points, aligned to the first edge that crosses a hysteresis band
    around the trigger level, with part of the window before the edge.

    Integer arithmetic is the firmware's 32-bit arithmetic written out (`% U32`
    where it can wrap); the firmware's single-precision floats (pretrigger
    fraction, sub-sample crossing position, window start) are exact `real`s. */
module Trigger {
  import opened Fixed

  const DISPLAY_POINTS: nat := 256
  const Q16_ONE: int := 0x1_0000

  datatype TriggerMode = ModeAuto | ModeNormal | ModeNone
  datatype TriggerEdge = Rising | Falling
  datatype Smoothing = SmoothMinMax | SmoothAverage

  /** `TriggerConfig_t`. Time per division and the smoothing policy are carried
      but not read by the framer. */
  datatype TriggerConfig = TriggerConfig(
    mode: TriggerMode,
    edge: TriggerEdge,
    levelCounts: int,
    hysteresis: int,
    timePerDivMs: real,
    pretriggerFrac: real,
    smoothing: Smoothing)

  /** The two `uint16_t` fields hold 16-bit values. */
  predicate ConfigWf(c: TriggerConfig) { IsU16(c.levelCounts) && IsU16(c.hysteresis) }

  /** `TriggerResult_t`. */
  datatype TriggerResult = TriggerResult(triggerIndex: int, start: int, len: int, outCount: int, triggered: bool)

  /** The defaults: auto mode, rising edge, mid-scale level, a 50-count band,
      10 ms per division, 30 % pretrigger, min/max smoothing. */
  function DefaultConfig(): (c: TriggerConfig)
    ensures ConfigWf(c) && c.levelCounts <= MAX_CODE && 0.0 <= c.pretriggerFrac <= 0.9
  {
    TriggerConfig(ModeAuto, Rising, 2048, 50, 10.0, 0.30, SmoothMinMax)
  }

  /** Fill the configuration a pointer names with the defaults; NULL is a no-op. */
  function InitDefault(cfg: Option<TriggerConfig>): (r: Option<TriggerConfig>)
    ensures r.Some? <==> cfg.Some?
    ensures r.Some? ==> r.value == DefaultConfig()
  {
    if cfg.Some? then Some(DefaultConfig()) else None
  }

  // ---- Q16 linear interpolation ----

  /** `a*(1-f) + b*f` in Q16 with rounding, in 32-bit arithmetic, cast to 16 bits. */
  function LerpU16(a: int, b: int, frac: int): (r: int)
    requires IsU16(a) && IsU16(b) && IsU32(frac)
    ensures IsU16(r)
    ensures frac == 0 ==> r == a
    ensures frac <= Q16_ONE ==> Min(a, b) <= r <= Max(a, b)
  {
    if frac <= Q16_ONE then LerpInRange(a, b, frac); Lerp32(a, b, frac) else Lerp32(a, b, frac)
  }

  /** The firmware's expression: `((a*fa + b*frac + 32768) >> 16)` with every
      operation in 32 bits, then the cast to 16 bits. */
  function Lerp32(a: int, b: int, frac: int): (r: int)
    ensures IsU16(r)
  {
    ((a * ((Q16_ONE - frac) % U32) + b * frac + 32768) % U32 / Q16_ONE) % U16
  }

  /** For a fraction in [0, 1] (Q16) nothing wraps: the weighted sum stays
      between the extremes and rounding cannot leave them. */
  lemma LerpInRange(a: int, b: int, f: int)
    requires IsU16(a) && IsU16(b) && 0 <= f <= Q16_ONE
    ensures Min(a, b) <= Lerp32(a, b, f) <= Max(a, b)
    ensures f == 0 ==> Lerp32(a, b, f) == a
  {
    var fa := (Q16_ONE - f) % U32;
    assert fa == Q16_ONE - f;
    WeightBounds(a, b, f);
    var w := a * fa + b * f;
    assert w + 32768 < U32;
    assert (w + 32768) % U32 == w + 32768;
    var q := (w + 32768) / Q16_ONE;
    assert Min(a, b) <= q <= Max(a, b);
    assert q % U16 == q;
  }

  /** The Q16 weights a*(1-f) + b*f lie between 65536*min(a, b) and
      65536*max(a, b), and are exactly 65536*a when f is 0. */
  lemma WeightBounds(a: int, b: int, f: int)
    requires IsU16(a) && IsU16(b) && 0 <= f <= Q16_ONE
    ensures var w := a * (Q16_ONE - f) + b * f;
            && Q16_ONE * Min(a, b) <= w <= Q16_ONE * Max(a, b)
            && (f == 0 ==> w == Q16_ONE * a)
  {
    assert a * (Q16_ONE - f) == a * Q16_ONE - a * f;
    assert b * f - a * f == (b - a) * f;
    if a <= b {
      MulMono(b - a, f, Q16_ONE);
    } else {
      MulMono(a - b, f, Q16_ONE);
      assert (a - b) * f == -((b - a) * f);
    }
  }

  lemma MulMono(x: int, y: int, z: int)
    requires 0 <= x && 0 <= y <= z
    ensures 0 <= x * y <= x * z
  {
  }

  /** Read `src` at the Q16 position `pos`: interpolate between the two samples
      around it, or return the last sample at or beyond index n-1. */
  function ReadLerpQ16(src: seq<int>, n: int, pos: int): (r: int)
    requires 1 <= n <= |src| && AllU16(src) && IsU32(pos)
    ensures pos / Q16_ONE >= n - 1 ==> r == src[n - 1]
    ensures SeqMin(src[..n]) <= r <= SeqMax(src[..n])
  {
    var index := pos / Q16_ONE;
    var frac := pos % Q16_ONE;
    assert src[..n][n - 1] == src[n - 1];
    if index >= n - 1 then src[n - 1]
    else
      assert src[..n][index] == src[index] && src[..n][index + 1] == src[index + 1];
      LerpU16(src[index], src[index + 1], frac)
  }

  /** The Q16 step between output points: `(span << 16) / dstLen` in 64 bits,
      truncated to 32. */
  function StepQ16(span: int, dstLen: int): int
    requires dstLen >= 1
  {
    (span * Q16_ONE / dstLen) % U32
  }

  /** The Q16 source position of output `i`: half a step in, then one step per
      output, each addition wrapping in 32 bits. */
  function PosQ16(start: int, step: int, i: nat): (r: int)
    ensures IsU32(r)
  {
    if i == 0 then (start + step / 2) % U32 else (PosQ16(start, step, i - 1) + step) % U32
  }

  /** The resampled window: exactly `dstLen` outputs, each between the smallest
      and the largest of the first `n` source samples. */
  function Resampled(src: seq<int>, n: int, start: int, span: int, dstLen: int): (r: seq<int>)
    requires 1 <= n <= |src| && AllU16(src) && dstLen >= 1
    ensures |r| == dstLen
    ensures forall i :: 0 <= i < dstLen ==> SeqMin(src[..n]) <= r[i] <= SeqMax(src[..n])
  {
    ResampledBy(src, n, start, StepQ16(span, dstLen), dstLen)
  }

  /** The window for a given Q16 step: output `i` read at `PosQ16(start, step, i)`. */
  function ResampledBy(src: seq<int>, n: int, start: int, step: int, dstLen: int): (r: seq<int>)
    requires 1 <= n <= |src| && AllU16(src) && dstLen >= 0
    ensures |r| == dstLen
    ensures forall i :: 0 <= i < dstLen ==> SeqMin(src[..n]) <= r[i] <= SeqMax(src[..n])
  {
    seq(dstLen, i requires 0 <= i < dstLen => ReadLerpQ16(src, n, PosQ16(start, step, i)))
  }

  /** Fill `dst[..dstLen]` by linear resampling of `src[..srcLen]` from the Q16
      position `start` across `span` source samples; with a NULL pointer or a
      zero span or length nothing is written. */
  method DecimateResampleLinear(src: array?<int>, srcLen: int, start: int, span: int,
                                dst: array?<int>, dstLen: int)
    requires IsU32(srcLen) && IsU32(start) && IsU32(span) && IsU32(dstLen)
    requires src != null && dst != null && span > 0 && dstLen > 0 ==>
               1 <= srcLen <= src.Length && AllU16(src[..]) && dstLen <= dst.Length && src != dst
    modifies dst
    ensures src == null || dst == null || span == 0 || dstLen == 0 ==> dst == null || dst[..] == old(dst[..])
    ensures src != null && dst != null && span > 0 && dstLen > 0 ==>
              && dst[..dstLen] == Resampled(src[..], srcLen, start, span, dstLen)
              && dst[dstLen..] == old(dst[dstLen..])
  {
    if src == null || dst == null || span == 0 || dstLen == 0 {
      return;
    }
    var step := (span * Q16_ONE / dstLen) % U32;
    ResampleInto(src, srcLen, start, step, dst, dstLen);
  }

  /** The resampling loop: the Q16 position advances by one step per output. */
  method ResampleInto(src: array<int>, srcLen: int, start: int, step: int, dst: array<int>, dstLen: int)
    requires 1 <= srcLen <= src.Length && AllU16(src[..]) && 1 <= dstLen <= dst.Length && src != dst
    modifies dst
    ensures dst[..dstLen] == ResampledBy(src[..], srcLen, start, step, dstLen)
    ensures dst[dstLen..] == old(dst[dstLen..])
  {
    var s := (start + step / 2) % U32;
    ghost var want := ResampledBy(src[..], srcLen, start, step, dstLen);
    for i := 0 to dstLen
      invariant s == PosQ16(start, step, i)
      invariant dst[..i] == want[..i]
      invariant dst[dstLen..] == old(dst[dstLen..])
    {
      ResampledStep(src[..], srcLen, start, step, dstLen, i, s);
      dst[i] := ReadLerpQ16(src[..], srcLen, s);
      s := (s + step) % U32;
    }
  }

  /** Output `i` is read at position `pos`, and the next position is one step on. */
  lemma ResampledStep(a: seq<int>, n: int, start: int, step: int, dstLen: int, i: nat, pos: int)
    requires 1 <= n <= |a| && AllU16(a) && 0 <= i < dstLen
    requires pos == PosQ16(start, step, i)
    ensures ResampledBy(a, n, start, step, dstLen)[i] == ReadLerpQ16(a, n, pos)
    ensures PosQ16(start, step, i + 1) == (pos + step) % U32
  {
  }

  // ---- Edge search ----

  /** The hysteresis band around `level`: floored at 0, capped at 4095. */
  function BandLo(level: int, hyst: int): (lo: int)
    requires IsU16(level) && IsU16(hyst)
    ensures 0 <= lo <= level && (level >= hyst ==> lo == level - hyst)
  {
    if level > hyst then level - hyst else 0
  }

  function BandHi(level: int, hyst: int): (hi: int)
    requires IsU16(level) && IsU16(hyst)
    ensures hi <= MAX_CODE && (level + hyst <= MAX_CODE ==> hi == level + hyst)
    ensures level <= MAX_CODE ==> level <= hi
  {
    if level + hyst <= MAX_CODE then level + hyst else MAX_CODE
  }

  /** Consecutive samples `a`, `b` cross the band in the configured direction. */
  predicate Crossed(edge: TriggerEdge, a: int, b: int, lo: int, hi: int)
  {
    match edge
    case Rising => a < lo && b >= hi
    case Falling => a > hi && b <= lo
  }

  predicate CrossesAt(s: seq<int>, i: int, edge: TriggerEdge, lo: int, hi: int)
    requires 1 <= i < |s|
  {
    Crossed(edge, s[i - 1], s[i], lo, hi)
  }

  /** The first index in [i, end) at which the samples cross the band, or -1. */
  function FirstCrossing(s: seq<int>, i: int, end: int, edge: TriggerEdge, lo: int, hi: int): (r: int)
    requires 1 <= i && end <= |s|
    decreases end - i
    ensures r == -1 || (i <= r < end && CrossesAt(s, r, edge, lo, hi))
    ensures forall j :: i <= j < end && (r == -1 || j < r) ==> !CrossesAt(s, j, edge, lo, hi)
  {
    if i >= end then -1
    else if CrossesAt(s, i, edge, lo, hi) then i
    else FirstCrossing(s, i + 1, end, edge, lo, hi)
  }

  /** The search in (begin, end): -1 when the range holds no pair of samples,
      otherwise the smallest crossing index, or -1 when there is none. */
  function FindTriggerSpec(s: seq<int>, begin: int, end: int, level: int, edge: TriggerEdge, hyst: int): (r: int)
    requires 0 <= begin && end <= |s| && IsU16(level) && IsU16(hyst)
    ensures end <= begin + 1 ==> r == -1
    ensures r == -1 || (begin < r < end && CrossesAt(s, r, edge, BandLo(level, hyst), BandHi(level, hyst)))
    ensures r == -1 <==> forall j :: begin < j < end ==> !CrossesAt(s, j, edge, BandLo(level, hyst), BandHi(level, hyst))
    ensures r != -1 ==> forall j :: begin < j < r ==> !CrossesAt(s, j, edge, BandLo(level, hyst), BandHi(level, hyst))
  {
    if end <= begin + 1 then -1
    else FirstCrossing(s, begin + 1, end, edge, BandLo(level, hyst), BandHi(level, hyst))
  }

  /** Where between samples i-1 and i the signal meets the level, clamped to
      [0, 1]; 0 for a flat pair. */
  function CrossFrac(level: int, a: int, b: int): (f: real)
    ensures 0.0 <= f <= 1.0
  {
    if b - a == 0 then 0.0
    else
      var f := (level - a) as real / (b - a) as real;
      if f < 0.0 then 0.0 else if f > 1.0 then 1.0 else f
  }

  /** Sub-sample crossing position for a hit at index i. */
  function CrossPos(s: seq<int>, i: int, level: int): (x: real)
    requires 1 <= i < |s|
    ensures (i - 1) as real <= x <= i as real
  {
    (i - 1) as real + CrossFrac(level, s[i - 1], s[i])
  }

  /** The edge search over `src` in (begin, end); returns the hit index (or -1)
      and the crossing position written through `pfCross` on a hit. */
  method FindTrigger(src: array?<int>, begin: int, end: int, level: int, edge: TriggerEdge, hyst: int)
    returns (idx: int, cross: Option<real>)
    requires IsU32(begin) && IsU32(begin + 1) && IsU32(end) && IsU16(level) && IsU16(hyst)
    requires src != null ==> end <= src.Length
    ensures src == null ==> idx == -1 && cross == None
    ensures src != null ==> idx == FindTriggerSpec(src[..], begin, end, level, edge, hyst)
    ensures idx == -1 <==> cross == None
    ensures src != null && idx != -1 ==> cross == Some(CrossPos(src[..], idx, level))
  {
    if src == null || end <= begin + 1 {
      return -1, None;
    }
    var lo := if level > hyst then level - hyst else 0;
    var hi := if level + hyst <= MAX_CODE then level + hyst else MAX_CODE;
    assert lo == BandLo(level, hyst) && hi == BandHi(level, hyst);
    idx, cross := ScanEdges(src, begin + 1, end, level, edge, lo, hi);
  }

  /** The scan of `FindTrigger`: the first crossing in [from, end) and its
      sub-sample position. */
  method ScanEdges(src: array<int>, from: int, end: int, level: int, edge: TriggerEdge, lo: int, hi: int)
    returns (idx: int, cross: Option<real>)
    requires 1 <= from && end <= src.Length
    ensures idx == FirstCrossing(src[..], from, end, edge, lo, hi)
    ensures idx == -1 ==> cross == None
    ensures idx != -1 ==> cross == Some(CrossPos(src[..], idx, level))
  {
    ghost var s := src[..];
    var i := from;
    while i < end
      invariant from <= i && (from <= end ==> i <= end)
      invariant FirstCrossing(s, from, end, edge, lo, hi) == FirstCrossing(s, i, end, edge, lo, hi)
    {
      var a, b := src[i - 1], src[i];
      var crossed := if edge == Rising then a < lo && b >= hi else a > hi && b <= lo;
      assert crossed == CrossesAt(s, i, edge, lo, hi);
      if crossed {
        var dy := b - a;
        var frac := if dy != 0 then (level - a) as real / dy as real else 0.0;
        if frac < 0.0 { frac := 0.0; }
        if frac > 1.0 { frac := 1.0; }
        assert frac == CrossFrac(level, s[i - 1], s[i]);
        return i, Some((i - 1) as real + frac);
      }
      i := i + 1;
    }
    return -1, None;
  }

  // ---- Frame construction ----

  /** Input samples mapped onto `dstLen` outputs: one less than the whole
      decimation step (at least 1) times `dstLen`, or min(srcLen, dstLen) when
      that does not fit. */
  function Span(srcLen: int, dstLen: int): (span: int)
    requires 1 <= srcLen && 1 <= dstLen
    ensures 1 <= span <= srcLen
    ensures srcLen < dstLen ==> span == srcLen
    ensures srcLen >= dstLen ==> span % dstLen == 0 && dstLen <= span
    ensures srcLen >= 2 * dstLen ==> span + dstLen <= srcLen
  {
    var maxStep := if srcLen / dstLen == 0 then 1 else srcLen / dstLen;
    var step := if maxStep > 1 then maxStep - 1 else maxStep;
    var span := step * dstLen;
    var r := if span == 0 || span > srcLen then Min(srcLen, dstLen) else span;
    SpanFacts(srcLen, dstLen, srcLen / dstLen, step, span, r);
    r
  }

  /** The step arithmetic behind `Span`, with k = srcLen / dstLen. */
  lemma SpanFacts(srcLen: int, dstLen: int, k: int, step: int, span: int, r: int)
    requires 1 <= srcLen && 1 <= dstLen && k == srcLen / dstLen
    requires step == (if k <= 1 then 1 else k - 1) && span == step * dstLen
    requires r == if span == 0 || span > srcLen then Min(srcLen, dstLen) else span
    ensures 1 <= r <= srcLen
    ensures srcLen < dstLen ==> r == srcLen
    ensures srcLen >= dstLen ==> r % dstLen == 0 && dstLen <= r
    ensures srcLen >= 2 * dstLen ==> r + dstLen <= srcLen
  {
    var rem := srcLen % dstLen;
    assert srcLen == k * dstLen + rem && 0 <= rem < dstLen;
    if srcLen < dstLen {
      QuotientZero(srcLen, dstLen, k, rem);
    } else {
      QuotientPositive(srcLen, dstLen, k, rem);
      SpanFits(srcLen, dstLen, k, step, span);
    }
  }

  lemma QuotientZero(n: int, d: int, k: int, rem: int)
    requires 0 <= n < d && n == k * d + rem && 0 <= rem < d
    ensures k == 0
  {
    if k >= 1 {
      MulMono(d, 1, k);
      assert false;
    } else if k <= -1 {
      MulMono(d, 1, -k);
      assert false;
    }
  }

  lemma QuotientPositive(n: int, d: int, k: int, rem: int)
    requires 1 <= d <= n && n == k * d + rem && 0 <= rem < d
    ensures 1 <= k && (n >= 2 * d ==> 2 <= k)
  {
    if k <= 0 {
      MulMono(d, 0, -k);
      assert false;
    }
    if n >= 2 * d && k < 2 {
      assert false;
    }
  }

  /** With k >= 1 the span is a multiple of `dstLen` that fits the source,
      leaving a bin spare when k >= 2. */
  lemma SpanFits(srcLen: int, dstLen: int, k: int, step: int, span: int)
    requires 1 <= dstLen && 1 <= k && k * dstLen <= srcLen
    requires step == (if k <= 1 then 1 else k - 1) && span == step * dstLen
    ensures dstLen <= span <= srcLen && span % dstLen == 0
    ensures 2 <= k ==> span + dstLen <= srcLen
  {
    MulModZero(step, dstLen);
    MulMono(dstLen, 1, step);
    MulMono(dstLen, step, k);
    if 2 <= k {
      assert (k - 1) * dstLen == k * dstLen - dstLen;
    }
  }

  lemma MulModZero(k: int, d: int)
    requires 0 <= k && 1 <= d
    ensures (k * d) % d == 0
  {
    var q, r := (k * d) / d, (k * d) % d;
    assert k * d == q * d + r && 0 <= r < d;
    assert (k - q) * d == r;
    if k - q >= 1 {
      MulMono(d, 1, k - q);
    } else if q - k >= 1 {
      MulMono(d, 1, q - k);
    }
  }

  /** The pretrigger fraction, clamped to [0, 0.9]. */
  function ClampPretrigger(f: real): (r: real)
    ensures 0.0 <= r <= 0.9
    ensures 0.0 <= f <= 0.9 ==> r == f
  {
    if f < 0.0 then 0.0 else if f > 0.9 then 0.9 else f
  }

  /** How the capture is cut: the span, the pretrigger length (exact and
      rounded), the latest window start, and the edge-search range. */
  datatype Plan = Plan(span: int, preF: real, pre: int, startMax: int, begin: int, end: int)

  function PlanFor(srcLen: int, dstLen: int, pretriggerFrac: real): (p: Plan)
    requires 1 <= srcLen && 1 <= dstLen
    ensures p.span == Span(srcLen, dstLen)
    ensures 0.0 <= p.preF && 0 <= p.pre <= p.span
    ensures p.startMax == srcLen - p.span
    ensures p.begin == Max(p.pre, 1) && p.end == Min(srcLen - 1, p.startMax + p.pre)
  {
    var span := Span(srcLen, dstLen);
    var f := ClampPretrigger(pretriggerFrac);
    var preF := f * span as real;
    var pre := (preF + 0.5).Floor;
    PreBound(f, span, preF, pre);
    var startMax := if srcLen > span then srcLen - span else 0;
    var end := if startMax + pre < srcLen - 1 then startMax + pre else srcLen - 1;
    Plan(span, preF, pre, startMax, if pre > 1 then pre else 1, end)
  }

  lemma PreBound(f: real, span: int, preF: real, pre: int)
    requires 0.0 <= f <= 0.9 && span >= 1
    requires preF == f * span as real && pre == (preF + 0.5).Floor
    ensures 0.0 <= preF <= 0.9 * span as real
    ensures 0 <= pre <= span
  {
    var x := span as real;
    RealMulNonneg(f, x);
    RealMulNonneg(0.9 - f, x);
    assert (0.9 - f) * x == 0.9 * x - preF;
  }

  lemma RealMulNonneg(a: real, b: real)
    requires 0.0 <= a && 0.0 <= b
    ensures 0.0 <= a * b
  {
  }

  /** The search runs unless the mode is NONE or the range is empty. */
  predicate Searches(cfg: TriggerConfig, p: Plan) { cfg.mode != ModeNone && p.begin < p.end }

  /** Index of the trigger the frame aligns to, or -1. */
  function FoundIndex(s: seq<int>, dstLen: int, cfg: TriggerConfig): (r: int)
    requires 1 <= |s| && 1 <= dstLen && ConfigWf(cfg)
    ensures var p := PlanFor(|s|, dstLen, cfg.pretriggerFrac);
            && (r == -1 || (Searches(cfg, p) && p.begin < r < p.end))
            && (r != -1 ==> CrossesAt(s, r, cfg.edge, BandLo(cfg.levelCounts, cfg.hysteresis),
                                      BandHi(cfg.levelCounts, cfg.hysteresis)))
  {
    var p := PlanFor(|s|, dstLen, cfg.pretriggerFrac);
    if Searches(cfg, p) then FindTriggerSpec(s, p.begin, p.end, cfg.levelCounts, cfg.edge, cfg.hysteresis)
    else -1
  }

  /** The window start as a fractional index: the crossing minus the
      pretrigger length, clamped to [0, startMax]; 0 without a trigger. */
  function StartF(s: seq<int>, dstLen: int, cfg: TriggerConfig): (x: real)
    requires 1 <= |s| && 1 <= dstLen && ConfigWf(cfg)
    ensures 0.0 <= x <= PlanFor(|s|, dstLen, cfg.pretriggerFrac).startMax as real
    ensures FoundIndex(s, dstLen, cfg) == -1 ==> x == 0.0
  {
    var p := PlanFor(|s|, dstLen, cfg.pretriggerFrac);
    var t := FoundIndex(s, dstLen, cfg);
    if t >= 0 && CrossPos(s, t, cfg.levelCounts) >= 0.0 then
      var x := CrossPos(s, t, cfg.levelCounts) - p.preF;
      if x < 0.0 then 0.0 else if x > p.startMax as real then p.startMax as real else x
    else 0.0
  }

  /** `llroundf(x * 65536)` for a non-negative x, stored in 32 bits. */
  function StartQ16(x: real): (r: int)
    requires x >= 0.0
    ensures IsU32(r)
    // Below 2^32 the result is x * 65536 rounded to nearest, halves up.
    ensures x * 65536.0 + 0.5 < U32 as real ==> r as real <= x * 65536.0 + 0.5 < r as real + 1.0
  {
    (x * 65536.0 + 0.5).Floor % U32
  }

  /** The result record of a frame. */
  function FrameResult(s: seq<int>, dstLen: int, cfg: TriggerConfig): (r: TriggerResult)
    requires 1 <= |s| && 1 <= dstLen && ConfigWf(cfg)
    ensures r.len == Span(|s|, dstLen) && r.outCount == dstLen
    ensures 0 <= r.start <= |s| - r.len
    ensures r.triggered <==> r.triggerIndex >= 0
    ensures !r.triggered ==> r.triggerIndex == -1 && r.start == 0
    ensures r.triggered ==> cfg.mode != ModeNone && 1 <= r.triggerIndex < |s| - 1
  {
    var p := PlanFor(|s|, dstLen, cfg.pretriggerFrac);
    var t := FoundIndex(s, dstLen, cfg);
    var x := StartF(s, dstLen, cfg);
    TriggerResult(t, (x + 0.5).Floor, p.span, dstLen, t >= 0)
  }

  /** The samples of a frame. */
  function FrameSamples(s: seq<int>, dstLen: int, cfg: TriggerConfig): (r: seq<int>)
    requires 1 <= |s| && 1 <= dstLen && ConfigWf(cfg) && AllU16(s)
    ensures |r| == dstLen
    ensures forall i :: 0 <= i < dstLen ==> SeqMin(s) <= r[i] <= SeqMax(s)
  {
    assert s[..|s|] == s;
    Resampled(s, |s|, StartQ16(StartF(s, dstLen, cfg)), Span(|s|, dstLen), dstLen)
  }

  /** The trigger search and window placement of one frame: the hit index
      (or -1) and the fractional window start. */
  method PlaceWindow(src: array<int>, srcLen: int, dstLen: int, c: TriggerConfig) returns (triggerIndex: int, start: real)
    requires 1 <= srcLen <= src.Length && IsU32(srcLen) && 1 <= dstLen && ConfigWf(c)
    ensures triggerIndex == FoundIndex(src[..srcLen], dstLen, c)
    ensures start == StartF(src[..srcLen], dstLen, c)
  {
    ghost var s := src[..srcLen];
    var p := PlanFor(srcLen, dstLen, c.pretriggerFrac);
    triggerIndex := -1;
    var fine: real := -1.0;
    if c.mode != ModeNone && p.begin < p.end {
      var lt, cross := FindTrigger(src, p.begin, p.end, c.levelCounts, c.edge, c.hysteresis);
      FindTriggerPrefix(src[..], srcLen, p.begin, p.end, c);
      if lt >= 0 {
        triggerIndex := lt;
        fine := cross.value;
      }
    }
    assert triggerIndex == FoundIndex(s, dstLen, c);
    start := 0.0;
    if triggerIndex >= 0 && fine >= 0.0 {
      assert fine == CrossPos(s, triggerIndex, c.levelCounts);
      start := fine - p.preF;
      if start < 0.0 { start := 0.0; }
      if start > p.startMax as real { start := p.startMax as real; }
    }
  }

  /** Build one frame into `dst[..dstLen]`; false, with nothing written, for a
      NULL pointer or a zero length. The sample rate is not read. */
  method BuildFrame(src: array?<int>, srcLen: int, fsHz: int, cfg: Option<TriggerConfig>,
                    dst: array?<int>, dstLen: int) returns (ok: bool, res: TriggerResult)
    requires IsU32(srcLen) && IsU32(dstLen)
    requires src != null ==> srcLen <= src.Length && AllU16(src[..])
    requires dst != null ==> dstLen <= dst.Length
    requires src != null && dst != null ==> src != dst
    requires cfg.Some? ==> ConfigWf(cfg.value)
    modifies dst
    ensures ok <==> src != null && srcLen > 0 && cfg.Some? && dst != null && dstLen > 0
    ensures !ok ==> dst == null || dst[..] == old(dst[..])
    ensures ok ==> && res == FrameResult(src[..srcLen], dstLen, cfg.value)
                   && dst[..dstLen] == FrameSamples(src[..srcLen], dstLen, cfg.value)
                   && dst[dstLen..] == old(dst[dstLen..])
  {
    ok, res := false, TriggerResult(-1, 0, 0, 0, false);
    if src == null || srcLen == 0 || cfg.None? || dst == null || dstLen == 0 {
      return;
    }
    var c := cfg.value;
    var span := Span(srcLen, dstLen);
    var triggerIndex, start := PlaceWindow(src, srcLen, dstLen, c);
    res := TriggerResult(triggerIndex, (start + 0.5).Floor, span, dstLen, triggerIndex >= 0);
    var startQ16 := StartQ16(start);
    DecimateResampleLinear(src, srcLen, startQ16, span, dst, dstLen);
    ResampledPrefix(src[..], srcLen, startQ16, span, dstLen);
    ok := true;
  }

  /** The search reads only the first `srcLen` samples. */
  lemma FindTriggerPrefix(a: seq<int>, srcLen: int, begin: int, end: int, c: TriggerConfig)
    requires 0 <= begin && 0 <= end < srcLen <= |a| && ConfigWf(c)
    ensures FindTriggerSpec(a, begin, end, c.levelCounts, c.edge, c.hysteresis)
         == FindTriggerSpec(a[..srcLen], begin, end, c.levelCounts, c.edge, c.hysteresis)
    ensures forall i :: 1 <= i < end ==> CrossPos(a, i, c.levelCounts) == CrossPos(a[..srcLen], i, c.levelCounts)
  {
    var lo, hi := BandLo(c.levelCounts, c.hysteresis), BandHi(c.levelCounts, c.hysteresis);
    if end > begin + 1 {
      FirstCrossingPrefix(a, srcLen, begin + 1, end, c.edge, lo, hi);
    }
  }

  lemma {:induction false} FirstCrossingPrefix(a: seq<int>, n: int, i: int, end: int, edge: TriggerEdge, lo: int, hi: int)
    requires 1 <= i && end < n <= |a| && 0 <= n
    decreases end - i
    ensures FirstCrossing(a, i, end, edge, lo, hi) == FirstCrossing(a[..n], i, end, edge, lo, hi)
  {
    if i < end {
      assert a[..n][i - 1] == a[i - 1] && a[..n][i] == a[i];
      FirstCrossingPrefix(a, n, i + 1, end, edge, lo, hi);
    }
  }

  /** Resampling reads only the first `n` samples. */
  lemma ResampledPrefix(a: seq<int>, n: int, start: int, span: int, dstLen: int)
    requires 1 <= n <= |a| && AllU16(a) && dstLen >= 1
    ensures Resampled(a, n, start, span, dstLen) == Resampled(a[..n], n, start, span, dstLen)
  {
    var step := StepQ16(span, dstLen);
    forall i | 0 <= i < dstLen
      ensures ReadLerpQ16(a, n, PosQ16(start, step, i)) == ReadLerpQ16(a[..n], n, PosQ16(start, step, i))
    {
      var pos := PosQ16(start, step, i);
      var index := pos / Q16_ONE;
      if index < n - 1 {
        assert a[..n][index] == a[index] && a[..n][index + 1] == a[index + 1];
      }
    }
  }

  // ---- Properties of the framer ----

  /** With mode NONE the window always starts at 0 and nothing is triggered. */
  lemma NoneModeFreeRuns(s: seq<int>, dstLen: int, cfg: TriggerConfig)
    requires 1 <= |s| && 1 <= dstLen && ConfigWf(cfg) && cfg.mode == ModeNone
    ensures var r := FrameResult(s, dstLen, cfg);
            r.start == 0 && !r.triggered && r.triggerIndex == -1
  {
  }

  /** AUTO and NORMAL build identical frames. */
  lemma AutoIsNormal(s: seq<int>, dstLen: int, cfg: TriggerConfig)
    requires 1 <= |s| && 1 <= dstLen && ConfigWf(cfg) && AllU16(s)
    ensures FrameResult(s, dstLen, cfg.(mode := ModeAuto)) == FrameResult(s, dstLen, cfg.(mode := ModeNormal))
    ensures FrameSamples(s, dstLen, cfg.(mode := ModeAuto)) == FrameSamples(s, dstLen, cfg.(mode := ModeNormal))
  {
    var a, n := cfg.(mode := ModeAuto), cfg.(mode := ModeNormal);
    var p := PlanFor(|s|, dstLen, cfg.pretriggerFrac);
    assert Searches(a, p) == Searches(n, p);
    assert FoundIndex(s, dstLen, a) == FoundIndex(s, dstLen, n);
    assert StartF(s, dstLen, a) == StartF(s, dstLen, n);
  }

  /** A pretrigger fraction above 0.9 gives the same frame as 0.9. */
  lemma PretriggerClamped(s: seq<int>, dstLen: int, cfg: TriggerConfig)
    requires 1 <= |s| && 1 <= dstLen && ConfigWf(cfg) && AllU16(s)
    requires cfg.pretriggerFrac >= 0.9
    ensures FrameResult(s, dstLen, cfg) == FrameResult(s, dstLen, cfg.(pretriggerFrac := 0.9))
    ensures FrameSamples(s, dstLen, cfg) == FrameSamples(s, dstLen, cfg.(pretriggerFrac := 0.9))
  {
    var c' := cfg.(pretriggerFrac := 0.9);
    PlanClamped(|s|, dstLen, cfg.pretriggerFrac);
    var p := PlanFor(|s|, dstLen, cfg.pretriggerFrac);
    assert Searches(cfg, p) == Searches(c', p);
    assert FoundIndex(s, dstLen, cfg) == FoundIndex(s, dstLen, c');
    assert StartF(s, dstLen, cfg) == StartF(s, dstLen, c');
  }

  lemma PlanClamped(srcLen: int, dstLen: int, f: real)
    requires 1 <= srcLen && 1 <= dstLen && f >= 0.9
    ensures PlanFor(srcLen, dstLen, f) == PlanFor(srcLen, dstLen, 0.9)
  {
    assert ClampPretrigger(f) == ClampPretrigger(0.9);
  }

  /** When a trigger lies at least the pretrigger length into the capture, the
      window starts exactly the pretrigger length before the crossing: the
      search range is capped so that the upper clamp never moves it. */
  lemma PretriggerHonoured(s: seq<int>, dstLen: int, cfg: TriggerConfig)
    requires 1 <= |s| && 1 <= dstLen && ConfigWf(cfg)
    ensures var t := FoundIndex(s, dstLen, cfg);
            var p := PlanFor(|s|, dstLen, cfg.pretriggerFrac);
            t >= 0 && CrossPos(s, t, cfg.levelCounts) >= p.preF ==>
              StartF(s, dstLen, cfg) == CrossPos(s, t, cfg.levelCounts) - p.preF
  {
    var t := FoundIndex(s, dstLen, cfg);
    var p := PlanFor(|s|, dstLen, cfg.pretriggerFrac);
    if t >= 0 {
      assert p.pre as real <= p.preF + 0.5;
      assert t < p.startMax + p.pre;
      assert CrossPos(s, t, cfg.levelCounts) - p.preF <= p.startMax as real - 0.5;
    }
  }

  /** A rising ramp 0, 4, 8, ... that first reaches 2048 at index 512. */
  function Ramp(): (s: seq<int>)
    ensures |s| == 1024 && AllU16(s)
    ensures forall i :: 0 <= i < 1024 ==> (s[i] >= 2048 <==> i >= 512)
  {
    seq(1024, i => 4 * i)
  }

  /** With the default 30 % pretrigger and 256 output points the span is 768,
      so a trigger is searched only in (230, 486): the ramp's crossing at 512
      is not found and the frame free-runs from index 0. */
  lemma RampMissedAtDefaultPretrigger()
    ensures var r := FrameResult(Ramp(), DISPLAY_POINTS, DefaultConfig().(hysteresis := 0));
            !r.triggered && r.start == 0 && r.len == 768
  {
    var p := PlanFor(1024, DISPLAY_POINTS, 0.30);
    assert Span(1024, DISPLAY_POINTS) == 768;
    assert p.pre == 230;
    assert p.end == 486;
  }

  /** With a 50 % pretrigger the same ramp triggers at index 512, the crossing
      is at exactly 512.0, and the window starts 384 samples earlier. */
  lemma RampFoundAtHalfPretrigger()
    ensures var c := DefaultConfig().(hysteresis := 0, pretriggerFrac := 0.5);
            var r := FrameResult(Ramp(), DISPLAY_POINTS, c);
            && r.triggered && r.triggerIndex == 512
            && CrossPos(Ramp(), 512, 2048) == 512.0
            && r.start == 128
  {
    var s := Ramp();
    var c := DefaultConfig().(hysteresis := 0, pretriggerFrac := 0.5);
    var p := PlanFor(1024, DISPLAY_POINTS, 0.5);
    assert Span(1024, DISPLAY_POINTS) == 768;
    assert p.pre == 384 && p.begin == 384 && p.end == 640;
    assert CrossesAt(s, 512, Rising, 2048, 2048);
    var t := FoundIndex(s, DISPLAY_POINTS, c);
    assert t == 512;
    assert s[511] == 2044 && s[512] == 2048;
    assert CrossPos(s, 512, 2048) == 512.0;
    PretriggerHonoured(s, DISPLAY_POINTS, c);
  }
}
