/** The stream side of the web server: the min/max decimator that shrinks a
    1024-sample capture to the 256 display points, the fixed-capacity table of
    open WebSocket connections, request-URI matching, and the capture age
    sent with each frame. */
module WebServer {
  import opened Fixed

  const WS_CAPACITY: nat := 4

  // ---- Min/max decimation ----

  /** Samples per bin: srcLen / dstLen, at least 1. */
  function DecimationStep(srcLen: int, dstLen: int): (step: int)
    requires 0 <= srcLen && 1 <= dstLen
    ensures 1 <= step && (srcLen >= dstLen ==> step == srcLen / dstLen)
  {
    if srcLen / dstLen == 0 then 1 else srcLen / dstLen
  }

  /** The samples s[lo..min(hi, |s|)); empty when that range is. */
  function Slice(s: seq<int>, lo: int, hi: int): (r: seq<int>)
    requires 0 <= lo
    ensures |r| == (if lo < Min(hi, |s|) then Min(hi, |s|) - lo else 0)
    ensures forall k :: 0 <= k < |r| ==> r[k] == s[lo + k]
  {
    var end := Min(hi, |s|);
    if lo < end then s[lo..end] else []
  }

  /** Bin `i` of width `step`: [i*step, min(i*step + step, |s|)). */
  function Bin(s: seq<int>, i: int, step: int): seq<int>
    requires 0 <= i && 1 <= step
  {
    Slice(s, i * step, i * step + step)
  }

  /** Output `i` of the decimator: the minimum of bin `i` at even `i`, its
      maximum at odd `i`, with the scan's initial values for an empty bin. */
  function DecimatedPoint(s: seq<int>, dstLen: int, i: int): (v: int)
    requires 1 <= dstLen && 0 <= i
  {
    var b := Bin(s, i, DecimationStep(|s|, dstLen));
    if i % 2 == 1 then FoldMax(b) else FoldMin(b)
  }

  /** The decimated frame: exactly `dstLen` points, point `i` taken from bin `i`. */
  function Decimated(s: seq<int>, dstLen: int): (r: seq<int>)
    requires 1 <= dstLen
    ensures |r| == dstLen
  {
    seq(dstLen, i requires 0 <= i < dstLen => DecimatedPoint(s, dstLen, i))
  }

  /** An even point is at most every sample of its bin and is 4095 or one of
      them; an odd point is at least every sample of its bin and is 0 or one
      of them. */
  lemma DecimatedBrackets(s: seq<int>, dstLen: int, i: int)
    requires 1 <= dstLen && 0 <= i < dstLen
    ensures var b := Bin(s, i, DecimationStep(|s|, dstLen));
            var v := Decimated(s, dstLen)[i];
            && (i % 2 == 0 ==> (forall k :: 0 <= k < |b| ==> v <= b[k]) && (v == MAX_CODE || v in b))
            && (i % 2 == 1 ==> (forall k :: 0 <= k < |b| ==> b[k] <= v) && (v == 0 || v in b))
  {
    FoldBounds(Bin(s, i, DecimationStep(|s|, dstLen)));
  }

  /** Decimating 16-bit samples gives 16-bit points: each is a sample or one
      of the scan's initial values 4095 and 0. */
  lemma DecimatedU16(s: seq<int>, dstLen: int)
    requires 1 <= dstLen && AllU16(s)
    ensures AllU16(Decimated(s, dstLen))
  {
    forall i | 0 <= i < dstLen
      ensures IsU16(Decimated(s, dstLen)[i])
    {
      DecimatedBrackets(s, dstLen, i);
      var b := Bin(s, i, DecimationStep(|s|, dstLen));
      assert forall k :: 0 <= k < |b| ==> IsU16(b[k]);
    }
  }

  /** With at least one sample per output, bin `i` is exactly the `step`
      samples from i*step: the bins tile s[..dstLen*step] in order. */
  lemma BinsTile(s: seq<int>, dstLen: int, i: int)
    requires 1 <= dstLen <= |s| && 0 <= i < dstLen
    ensures var step := DecimationStep(|s|, dstLen);
            (i + 1) * step <= |s| && Bin(s, i, step) == s[i * step..(i + 1) * step]
  {
    var step := DecimationStep(|s|, dstLen);
    assert step * dstLen <= |s|;
    MulLe(i + 1, dstLen, step);
  }

  lemma MulLe(a: int, b: int, c: int)
    requires 0 <= a <= b && 0 <= c
    ensures a * c <= b * c
  {
  }

  /** With fewer samples than outputs each sample has its own bin, and the
      outputs past the input alternate 4095 and 0. */
  lemma ShortInputPadded(s: seq<int>, dstLen: int, i: int)
    requires |s| < dstLen && 0 <= i < dstLen
    ensures var r := Decimated(s, dstLen);
            && (i < |s| ==> r[i] == if i % 2 == 0 then Min(MAX_CODE, s[i]) else Max(0, s[i]))
            && (i >= |s| ==> r[i] == if i % 2 == 0 then MAX_CODE else 0)
  {
    assert DecimationStep(|s|, dstLen) == 1;
    assert Decimated(s, dstLen)[i] == DecimatedPoint(s, dstLen, i);
    if i < |s| {
      assert Bin(s, i, 1) == [s[i]];
      assert [s[i]][..0] == [];
      assert FoldMin([s[i]]) == Min(MAX_CODE, s[i]) && FoldMax([s[i]]) == Max(0, s[i]);
    } else {
      assert Bin(s, i, 1) == [];
    }
  }

  /** Fill `dst[..dstLen]` with the min/max decimation of `src[..srcLen]`;
      nothing is written for an empty source or destination. */
  method DecimateMinmax(src: array<int>, srcLen: int, dst: array<int>, dstLen: int)
    requires IsU32(srcLen) && IsU32(dstLen) && srcLen <= src.Length
    requires srcLen > 0 && dstLen > 0 ==> dstLen <= dst.Length
    requires src != dst
    modifies dst
    ensures dstLen == 0 || srcLen == 0 ==> dst[..] == old(dst[..])
    ensures dstLen > 0 && srcLen > 0 ==>
              dst[..dstLen] == Decimated(src[..srcLen], dstLen) && dst[dstLen..] == old(dst[dstLen..])
  {
    if dstLen == 0 || srcLen == 0 {
      return;
    }
    DecimateInto(src, srcLen, dst, dstLen);
  }

  /** The bin loop of `DecimateMinmax`, for a non-empty source and destination. */
  method DecimateInto(src: array<int>, srcLen: int, dst: array<int>, dstLen: int)
    requires 1 <= srcLen <= src.Length && 1 <= dstLen <= dst.Length && src != dst
    modifies dst
    ensures dst[..dstLen] == Decimated(src[..srcLen], dstLen) && dst[dstLen..] == old(dst[dstLen..])
  {
    ghost var s := src[..srcLen];
    var step := srcLen / dstLen;
    if step == 0 {
      step := 1;
    }
    assert step == DecimationStep(|s|, dstLen);
    for i := 0 to dstLen
      invariant forall k :: 0 <= k < i ==> dst[k] == DecimatedPoint(s, dstLen, k)
      invariant dst[dstLen..] == old(dst[dstLen..])
    {
      var minv, maxv := BinExtremes(src, srcLen, step, i);
      dst[i] := if i % 2 == 1 then maxv else minv;
    }
    assert dst[..dstLen] == Decimated(s, dstLen);
  }

  /** The samples src[start..end) the inner scan visits; none when start >= end. */
  function Range(a: seq<int>, start: int, end: int): (r: seq<int>)
    requires 0 <= start && end <= |a|
    ensures start < end ==> r == a[start..end]
    ensures start >= end ==> r == []
  {
    Slice(a, start, end)
  }

  /** The inner scan of `DecimateMinmax`: minimum and maximum of one bin,
      starting from 4095 and 0. */
  method ScanBin(src: array<int>, start: int, end: int) returns (minv: int, maxv: int)
    requires 0 <= start && end <= src.Length
    ensures minv == FoldMin(Range(src[..], start, end)) && maxv == FoldMax(Range(src[..], start, end))
  {
    minv, maxv := MAX_CODE, 0;
    var j := start;
    while j < end
      invariant start < end ==> start <= j <= end && minv == FoldMin(src[start..j]) && maxv == FoldMax(src[start..j])
      invariant start >= end ==> j == start && minv == MAX_CODE && maxv == 0
    {
      assert src[start..j + 1][..j - start] == src[start..j];
      var x := src[j];
      if x < minv {
        minv := x;
      }
      if x > maxv {
        maxv := x;
      }
      j := j + 1;
    }
    if start < end {
      assert src[start..j] == Range(src[..], start, end);
    } else {
      assert Range(src[..], start, end) == [];
    }
  }

  /** Bounds of bin `i` clipped to the source, and its minimum and maximum. */
  method BinExtremes(src: array<int>, srcLen: int, step: int, i: int) returns (minv: int, maxv: int)
    requires 0 <= srcLen <= src.Length && 1 <= step && 0 <= i
    ensures minv == FoldMin(Bin(src[..srcLen], i, step)) && maxv == FoldMax(Bin(src[..srcLen], i, step))
  {
    var start := i * step;
    var end := start + step;
    if end > srcLen {
      end := srcLen;
    }
    minv, maxv := ScanBin(src, start, end);
    BinIsRange(src[..srcLen], src[..], srcLen, i, step, start, end);
  }

  /** Bin `i` of the first `n` samples is the range the scan visits. */
  lemma BinIsRange(s: seq<int>, a: seq<int>, n: int, i: int, step: int, start: int, end: int)
    requires 0 <= n <= |a| && s == a[..n] && 0 <= i && 1 <= step
    requires start == i * step && end == Min(start + step, n)
    ensures Bin(s, i, step) == Range(a, start, end)
  {
    MulLe(0, i, step);
    if start < end {
      assert s[start..end] == a[start..end];
    }
  }

  // ---- A peak in an even bin is dropped (finding) ----

  /** A single 4000-count spike at index 0 of an otherwise zero capture. */
  function Spike(): (s: seq<int>)
    ensures |s| == 1024 && s[0] == 4000 && forall j :: 1 <= j < 1024 ==> s[j] == 0
  {
    [4000] + seq(1023, _ => 0)
  }

  /** The spike falls in bin 0, which contributes only its minimum: no point
      of the 256-point frame shows it. */
  lemma SpikeLost()
    ensures forall i :: 0 <= i < 256 ==> Decimated(Spike(), 256)[i] == 0
  {
    forall i | 0 <= i < 256
      ensures Decimated(Spike(), 256)[i] == 0
    {
      SpikePointZero(i);
    }
  }

  lemma SpikePointZero(i: int)
    requires 0 <= i < 256
    ensures Decimated(Spike(), 256)[i] == 0
  {
    var s := Spike();
    assert DecimationStep(|s|, 256) == 4;
    assert Decimated(s, 256)[i] == DecimatedPoint(s, 256, i);
    var b := Bin(s, i, 4);
    assert |b| == 4 && forall k :: 0 <= k < 4 ==> b[k] == s[4 * i + k];
    assert forall k :: 0 <= k < 4 ==> 0 <= b[k] && (k >= 1 || i >= 1 ==> b[k] == 0);
    FoldBounds(b);
    if i % 2 == 0 {
      assert b[1] == 0;
    } else {
      assert b[0] == 0;
    }
  }

  /** Point `i` of the pairs frame: bin i/2, its minimum at even `i` and its
      maximum at odd `i`. */
  function PairPoint(s: seq<int>, step: int, i: int): int
    requires 1 <= step && 0 <= i
  {
    var b := Bin(s, i / 2, step);
    if i % 2 == 1 then FoldMax(b) else FoldMin(b)
  }

  /** Min/max pairs: (dstLen + 1) / 2 bins, each giving its minimum at an
      even point and its maximum at the next odd one, so every sample of a
      bin with both points lies between them. */
  function DecimatedPairs(s: seq<int>, dstLen: int): (r: seq<int>)
    requires 1 <= dstLen
    ensures |r| == dstLen
    ensures var step := DecimationStep(|s|, (dstLen + 1) / 2);
            forall k, m :: 0 <= k && 2 * k + 1 < dstLen && 0 <= m < |Bin(s, k, step)| ==>
              r[2 * k] <= Bin(s, k, step)[m] <= r[2 * k + 1]
  {
    var step := DecimationStep(|s|, (dstLen + 1) / 2);
    var r := seq(dstLen, i requires 0 <= i < dstLen => PairPoint(s, step, i));
    forall k, m | 0 <= k && 2 * k + 1 < dstLen && 0 <= m < |Bin(s, k, step)|
      ensures r[2 * k] <= Bin(s, k, step)[m] <= r[2 * k + 1]
    {
      PairBrackets(s, step, k);
      assert r[2 * k] == PairPoint(s, step, 2 * k) && r[2 * k + 1] == PairPoint(s, step, 2 * k + 1);
    }
    r
  }

  /** The pair of bin k brackets every sample of that bin. */
  lemma PairBrackets(s: seq<int>, step: int, k: int)
    requires 1 <= step && 0 <= k
    ensures var b := Bin(s, k, step);
            forall m :: 0 <= m < |b| ==> PairPoint(s, step, 2 * k) <= b[m] <= PairPoint(s, step, 2 * k + 1)
  {
    FoldBounds(Bin(s, k, step));
    assert (2 * k) / 2 == k && (2 * k) % 2 == 0;
    assert (2 * k + 1) / 2 == k && (2 * k + 1) % 2 == 1;
  }

  /** With pairs the spike survives as the maximum point of the first pair. */
  lemma SpikeKeptInPairs()
    ensures DecimatedPairs(Spike(), 256)[1] == 4000
  {
    var s := Spike();
    var step := DecimationStep(1024, 128);
    assert step == 8;
    assert DecimatedPairs(s, 256)[1] == PairPoint(s, 8, 1);
    var b := Bin(s, 0, 8);
    assert b == s[0..8];
    assert PairPoint(s, 8, 1) == FoldMax(b);
    FoldBounds(b);
    assert b[0] == 4000 && forall k :: 1 <= k < 8 ==> b[k] == 0;
  }

  // ---- WebSocket connection table ----

  /** The table is a prefix of `count` live connections followed by NULLs. */
  predicate TableWf(slots: seq<Option<nat>>, count: nat)
  {
    && |slots| == WS_CAPACITY && count <= WS_CAPACITY
    && (forall i :: 0 <= i < count ==> slots[i].Some?)
    && (forall i :: count <= i < WS_CAPACITY ==> slots[i].None?)
  }

  /** The live connections, in table order. */
  function LiveOf(slots: seq<Option<nat>>, count: nat): (live: seq<nat>)
    requires TableWf(slots, count)
    ensures |live| == count && forall i :: 0 <= i < count ==> slots[i] == Some(live[i])
  {
    seq(count, i requires 0 <= i < count => slots[i].value)
  }

  /** Registering appends when there is room and is ignored otherwise. */
  function Added(live: seq<nat>, c: nat): (r: seq<nat>)
    requires |live| <= WS_CAPACITY
    ensures |r| <= WS_CAPACITY
    ensures |live| < WS_CAPACITY ==> r == live + [c]
    ensures |live| == WS_CAPACITY ==> r == live
  {
    if |live| < WS_CAPACITY then live + [c] else live
  }

  /** Index of the first `c` in `live`, or |live| when absent. */
  function FirstIndex(live: seq<nat>, c: nat): (k: nat)
    ensures k <= |live| && (k < |live| <==> c in live)
    ensures k < |live| ==> live[k] == c
    ensures c !in live[..k]
  {
    if live == [] then 0
    else if live[0] == c then 0
    else
      assert live[1..][..FirstIndex(live[1..], c)] == live[1..1 + FirstIndex(live[1..], c)];
      1 + FirstIndex(live[1..], c)
  }

  /** Unregistering deletes the first occurrence and keeps the order of the
      rest; an unknown connection changes nothing. */
  function Removed(live: seq<nat>, c: nat): (r: seq<nat>)
    ensures c !in live ==> r == live
    ensures c in live ==> && |r| == |live| - 1
                          && r == live[..FirstIndex(live, c)] + live[FirstIndex(live, c) + 1..]
                          && multiset(r) == multiset(live) - multiset{c}
  {
    var k := FirstIndex(live, c);
    if k == |live| then live
    else
      assert live == live[..k] + [live[k]] + live[k + 1..];
      live[..k] + live[k + 1..]
  }

  /** Registering a new connection and unregistering it again restores the table. */
  lemma AddThenRemove(live: seq<nat>, c: nat)
    requires |live| < WS_CAPACITY && c !in live
    ensures Removed(Added(live, c), c) == live
  {
    var a := live + [c];
    assert a[..|live|] == live;
    assert FirstIndex(a, c) == |live|;
  }

  /** A connection registered twice stays registered after one removal. */
  lemma DuplicateSurvivesOneRemove(live: seq<nat>, c: nat)
    requires |live| + 2 <= WS_CAPACITY
    ensures c in Removed(Added(Added(live, c), c), c)
  {
    var a: seq<nat> := live + [c] + [c];
    var r: seq<nat> := Removed(a, c);
    var ma: multiset<nat> := multiset(a);
    assert ma[c] >= 2;
    var mr: multiset<nat> := multiset(r);
    assert mr[c] >= 1;
  }

  /** The connection table: four slots and a count. */
  class Registry {
    const slots: array<Option<nat>>
    var count: nat

    ghost predicate Valid()
      reads this, slots
    {
      TableWf(slots[..], count)
    }

    ghost function Live(): seq<nat>
      reads this, slots
      requires Valid()
    {
      LiveOf(slots[..], count)
    }

    /** Static initialisation: every slot NULL. */
    constructor ()
      ensures Valid() && Live() == [] && fresh(slots)
    {
      slots := new Option<nat>[WS_CAPACITY](_ => None);
      count := 0;
    }

    method Add(c: nat)
      requires Valid()
      modifies this, slots
      ensures Valid() && Live() == Added(old(Live()), c)
    {
      if count < slots.Length {
        slots[count] := Some(c);
        count := count + 1;
        assert Live() == old(Live()) + [c];
      }
    }

    method Remove(c: nat)
      requires Valid()
      modifies this, slots
      ensures Valid() && Live() == Removed(old(Live()), c)
    {
      ghost var live := Live();
      for i := 0 to count
        invariant slots[..] == old(slots[..]) && count == old(count)
        invariant forall k :: 0 <= k < i ==> slots[k] != Some(c)
      {
        if slots[i] == Some(c) {
          assert FirstIndex(live, c) == i by {
            assert live[..i] == live[..FirstIndex(live, c)] || FirstIndex(live, c) < i;
          }
          CloseGap(i);
          return;
        }
      }
      assert c !in live;
    }

    /** Shift the slots after `i` down by one and clear the last live slot. */
    method CloseGap(i: nat)
      requires Valid() && i < count
      modifies this, slots
      ensures Valid() && Live() == old(Live()[..i] + Live()[i + 1..])
    {
      ghost var live := Live();
      for j := i + 1 to count
        invariant count == old(count)
        invariant forall k :: 0 <= k < i ==> slots[k] == old(slots[k])
        invariant forall k :: i <= k < j - 1 ==> slots[k] == old(slots[k + 1])
        invariant forall k :: j - 1 <= k < WS_CAPACITY ==> slots[k] == old(slots[k])
      {
        slots[j - 1] := slots[j];
      }
      count := count - 1;
      slots[count] := None;
      ghost var r := live[..i] + live[i + 1..];
      assert forall k :: 0 <= k < count ==> slots[k] == Some(r[k]);
      assert TableWf(slots[..], count);
      assert LiveOf(slots[..], count) == r;
    }
  }

  // ---- Request matching and frame age ----

  /** `strlen`: the index of the first NUL. */
  function Strlen(s: seq<char>): (n: nat)
    requires '\0' in s
    ensures n < |s| && s[n] == '\0' && forall i :: 0 <= i < n ==> s[i] != '\0'
  {
    if s[0] == '\0' then 0 else 1 + Strlen(s[1..])
  }

  /** A C string literal: its characters and the terminating NUL. */
  function CString(t: seq<char>): seq<char>
  {
    t + ['\0']
  }

  /** The URI (a length-delimited slice) matches the C string `s`: the lengths
      agree and the first `strlen(s)` bytes compare equal. */
  function UriEquals(uri: seq<char>, s: seq<char>): (r: bool)
    requires '\0' in s
    ensures r <==> uri == s[..Strlen(s)]
  {
    var n := Strlen(s);
    |uri| == n && uri[..n] == s[..n]
  }

  /** For a literal without NULs, the match is plain equality. */
  lemma UriEqualsLiteral(uri: seq<char>, t: seq<char>)
    requires '\0' !in t
    ensures '\0' in CString(t) && (UriEquals(uri, CString(t)) <==> uri == t)
  {
    var s := CString(t);
    assert s[|t|] == '\0';
    assert Strlen(s) == |t| by {
      assert forall i :: 0 <= i < |t| ==> s[i] == t[i];
    }
    assert s[..|t|] == t;
  }

  /** Milliseconds since the capture; 0 when its timestamp is ahead of `now`. */
  function Age(stamp: int, now: int): (a: int)
    requires IsU32(stamp) && IsU32(now)
    ensures IsU32(a) && a <= now
    ensures stamp <= now ==> a + stamp == now
    ensures stamp > now ==> a == 0
  {
    if stamp <= now then now - stamp else 0
  }

  /** Across a wrap of the 32-bit millisecond clock the age reads 0, not the
      wrapped difference. */
  lemma AgeAcrossClockWrap()
    ensures Age(U32 - 10, 5) == 0 && (5 - (U32 - 10)) % U32 == 15
  {
  }
}
