/** Fixed-width integer helpers and small shared datatypes used by every module
    of the oscilloscope firmware model. C integer widths are written out here:
    every value that the firmware keeps in a `uint16_t` or `uint32_t` is an `int`
    constrained by `IsU16`/`IsU32`, and every wrap-around is an explicit `% U32`. */
module Fixed {

  const U16: int := 0x1_0000
  const U32: int := 0x1_0000_0000

  /** Largest 12-bit ADC code. */
  const MAX_CODE: int := 4095

  predicate IsU16(x: int) { 0 <= x < U16 }
  predicate IsU32(x: int) { 0 <= x < U32 }

  /** Every element of `s` fits in a `uint16_t`. */
  predicate AllU16(s: seq<int>) { forall i :: 0 <= i < |s| ==> IsU16(s[i]) }

  /** A pointer that is either NULL or names something. */
  datatype Option<+T> = None | Some(value: T)

  function Min(a: int, b: int): int { if a <= b then a else b }
  function Max(a: int, b: int): int { if a >= b then a else b }

  /** Smallest element of a non-empty sequence. */
  function SeqMin(s: seq<int>): (m: int)
    requires |s| > 0
    ensures forall i :: 0 <= i < |s| ==> m <= s[i]
    ensures exists i :: 0 <= i < |s| && m == s[i]
  {
    if |s| == 1 then s[0]
    else
      var m' := SeqMin(s[1..]);
      assert forall i :: 1 <= i < |s| ==> s[1..][i - 1] == s[i];
      if s[0] <= m' then s[0] else m'
  }

  /** Largest element of a non-empty sequence. */
  function SeqMax(s: seq<int>): (m: int)
    requires |s| > 0
    ensures forall i :: 0 <= i < |s| ==> s[i] <= m
    ensures exists i :: 0 <= i < |s| && m == s[i]
  {
    if |s| == 1 then s[0]
    else
      var m' := SeqMax(s[1..]);
      assert forall i :: 1 <= i < |s| ==> s[1..][i - 1] == s[i];
      if s[0] >= m' then s[0] else m'
  }

  /** Sum of a sequence. */
  function Sum(s: seq<int>): int
  {
    if s == [] then 0 else Sum(s[..|s| - 1]) + s[|s| - 1]
  }

  /** A sum of `uint16_t` values is between 0 and |s| * 65535. */
  lemma {:induction false} SumBounds(s: seq<int>)
    requires AllU16(s)
    ensures 0 <= Sum(s) <= |s| * (U16 - 1)
  {
    if s != [] {
      SumBounds(s[..|s| - 1]);
    }
  }

  /** The running minimum of a scan that starts at 4095, as the statistics
      loop and the min/max decimator keep it. */
  function FoldMin(s: seq<int>): int
  {
    if s == [] then MAX_CODE else Min(FoldMin(s[..|s| - 1]), s[|s| - 1])
  }

  /** The running maximum of a scan that starts at 0. */
  function FoldMax(s: seq<int>): int
  {
    if s == [] then 0 else Max(FoldMax(s[..|s| - 1]), s[|s| - 1])
  }

  /** The scan's minimum is a lower bound of every sample and is either 4095
      or one of the samples; its maximum is an upper bound of every sample and
      is either 0 or one of them. So over a non-empty sequence the minimum never
      exceeds the maximum. */
  lemma {:induction false} FoldBounds(s: seq<int>)
    ensures forall i :: 0 <= i < |s| ==> FoldMin(s) <= s[i] <= FoldMax(s)
    ensures FoldMin(s) == MAX_CODE || exists i :: 0 <= i < |s| && FoldMin(s) == s[i]
    ensures FoldMax(s) == 0 || exists i :: 0 <= i < |s| && FoldMax(s) == s[i]
    ensures FoldMin(s) <= MAX_CODE && 0 <= FoldMax(s)
    ensures |s| > 0 ==> FoldMin(s) <= FoldMax(s)
  {
    if s != [] {
      var n := |s| - 1;
      var pre := s[..n];
      FoldBounds(pre);
      assert forall i :: 0 <= i < n ==> pre[i] == s[i];
      if FoldMin(pre) != MAX_CODE && FoldMin(s) != s[n] {
        var j :| 0 <= j < n && FoldMin(pre) == pre[j];
        assert FoldMin(s) == s[j];
      }
      if FoldMax(pre) != 0 && FoldMax(s) != s[n] {
        var j :| 0 <= j < n && FoldMax(pre) == pre[j];
        assert FoldMax(s) == s[j];
      }
    }
  }
}
