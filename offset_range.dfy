/**
 * The detail offset and its bounds.
 *
 * The control keeps one signed offset shared by every tracked layer. Its
 * bounds are fixed at construction (a missing bound takes a default, a given
 * one is clamped), and a change by `delta` is allowed exactly when the new
 * offset stays inside the inclusive bounds.
 */
module OffsetRange {
  import opened LayerConfig

  /** The upper bound when none is given: 2^3 = 8 tiles per canonical tile. */
  const DefaultMaxOffset := 3
  /** The lower bound when none is given. */
  const DefaultMinOffset := 0
  /** A given lower bound is raised to at least this. */
  const LowestMinOffset := -10

  /** The upper offset bound for the constructor argument `arg` (None when the
      caller passed null or nothing): the default, or the argument raised to 0. */
  function MaxOffsetBound(arg: Option<int>): (r: int)
    ensures r >= 0
    ensures arg.None? ==> r == DefaultMaxOffset
    ensures arg.Some? ==> r >= arg.value && (arg.value >= 0 ==> r == arg.value)
    ensures arg.Some? ==> r == arg.value || r == 0
  {
    match arg
    case None => DefaultMaxOffset
    case Some(v) => if v >= 0 then v else 0
  }

  /** The lower offset bound for the constructor argument `arg`: the default,
      or the argument raised to -10. */
  function MinOffsetBound(arg: Option<int>): (r: int)
    ensures r >= LowestMinOffset
    ensures arg.None? ==> r == DefaultMinOffset
    ensures arg.Some? ==> r >= arg.value && (arg.value >= LowestMinOffset ==> r == arg.value)
    ensures arg.Some? ==> r == arg.value || r == LowestMinOffset
  {
    match arg
    case None => DefaultMinOffset
    case Some(v) => if v >= LowestMinOffset then v else LowestMinOffset
  }

  /** Whether offset x lies within the inclusive bounds. */
  predicate InRange(x: int, minOffset: int, maxOffset: int) {
    minOffset <= x <= maxOffset
  }

  /** Whether the offset may change by `delta`: the new offset must stay in
      range. Only the global range is checked. A change is never allowed when
      the bounds cross, and a refresh (delta 0) is allowed exactly when the
      offset is already in range. */
  predicate CanApply(offset: int, delta: int, minOffset: int, maxOffset: int): (r: bool)
    ensures r ==> minOffset <= maxOffset
    ensures delta == 0 ==> (r <==> InRange(offset, minOffset, maxOffset))
  {
    InRange(offset + delta, minOffset, maxOffset)
  }

  /** The offset after an unlocked request to change it by `delta`: moved when
      allowed, otherwise kept. A moved offset is always in range, and an offset
      in range stays in range. */
  function NextOffset(offset: int, delta: int, minOffset: int, maxOffset: int): (r: int)
    ensures r == offset || r == offset + delta
    ensures r != offset ==> InRange(r, minOffset, maxOffset)
    ensures InRange(offset, minOffset, maxOffset) ==> InRange(r, minOffset, maxOffset)
    ensures InRange(offset + delta, minOffset, maxOffset) ==> r == offset + delta
  {
    if CanApply(offset, delta, minOffset, maxOffset) then offset + delta else offset
  }

  /** The offset after `k` unlocked requests to change it by `delta` each. */
  function Repeated(offset: int, delta: int, k: nat, minOffset: int, maxOffset: int): int
    decreases k
  {
    if k == 0 then offset
    else Repeated(NextOffset(offset, delta, minOffset, maxOffset), delta, k - 1, minOffset, maxOffset)
  }

  function Min(a: int, b: int): int { if a <= b then a else b }
  function Max(a: int, b: int): int { if a >= b then a else b }

  /** Pressing "more detail" k times from an offset in range climbs one step
      per press and stops at the upper bound. */
  lemma {:induction false} IncreasesSaturate(offset: int, k: nat, minOffset: int, maxOffset: int)
    requires InRange(offset, minOffset, maxOffset)
    ensures Repeated(offset, 1, k, minOffset, maxOffset) == Min(offset + k, maxOffset)
    decreases k
  {
    if k > 0 {
      var next := NextOffset(offset, 1, minOffset, maxOffset);
      IncreasesSaturate(next, k - 1, minOffset, maxOffset);
    }
  }

  /** Pressing "less detail" k times from an offset in range descends one step
      per press and stops at the lower bound. */
  lemma {:induction false} DecreasesSaturate(offset: int, k: nat, minOffset: int, maxOffset: int)
    requires InRange(offset, minOffset, maxOffset)
    ensures Repeated(offset, -1, k, minOffset, maxOffset) == Max(offset - k, minOffset)
    decreases k
  {
    if k > 0 {
      var next := NextOffset(offset, -1, minOffset, maxOffset);
      DecreasesSaturate(next, k - 1, minOffset, maxOffset);
    }
  }

  /** With the default bounds, three presses from 0 reach 3 and a fourth
      press changes nothing. */
  lemma DefaultBoundsStopAtThree()
    ensures Repeated(0, 1, 3, MinOffsetBound(None), MaxOffsetBound(None)) == 3
    ensures Repeated(0, 1, 4, MinOffsetBound(None), MaxOffsetBound(None)) == 3
  {
    IncreasesSaturate(0, 3, 0, 3);
    IncreasesSaturate(0, 4, 0, 3);
  }

  /** When the bounds cross (a lower bound above the upper one) no request can
      ever move the offset. */
  lemma CrossedBoundsFreeze(offset: int, delta: int, minOffset: int, maxOffset: int)
    requires minOffset > maxOffset
    ensures NextOffset(offset, delta, minOffset, maxOffset) == offset
  {
  }

  /** The default level is not clamped, so a counter that starts two or more
      steps outside the bounds is never moved by presses of either button or
      by refreshes: the control stays inert and no layer is ever rewritten. */
  lemma {:induction false} FarOutsideIsInert(offset: int, delta: int, k: nat, minOffset: int, maxOffset: int)
    requires -1 <= delta <= 1
    requires offset > maxOffset + 1 || offset < minOffset - 1
    ensures Repeated(offset, delta, k, minOffset, maxOffset) == offset
    decreases k
  {
    if k > 0 {
      assert NextOffset(offset, delta, minOffset, maxOffset) == offset;
      FarOutsideIsInert(offset, delta, k - 1, minOffset, maxOffset);
    }
  }
}
