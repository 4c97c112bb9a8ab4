/** The per-character size and vertical-position jitter of the conversion
    (`_get_random_char_size`, `_get_random_char_position` and the offset
    conversion of `_apply_character_position` / `_apply_character_tilt`,
    src/enhanced_font_randomizer.py:860-937). Both jitters are bounded
    random walks: each value is drawn from an interval around the previous
    one, clipped to the walk's absolute bounds. */
module Jitter {
  import opened Draws

  /** The lower clip of every size interval, in points: a size is at least
      this whenever its interval is not empty. */
  const MinCharSize: real := 6.0
  /** The largest difference between neighbouring sizes or positions. */
  const MaxStep: real := 0.5
  /** Positions lie in `[-PositionLimit, PositionLimit]` points. */
  const PositionLimit: real := 2.5

  /** The bounds of the size interval after a character of size `last`. */
  function SizeLow(baseSize: real, last: real, sizeRange: real): real {
    Max(Max(MinCharSize, last - MaxStep), baseSize - sizeRange)
  }

  function SizeHigh(baseSize: real, last: real, sizeRange: real): real {
    Min(last + MaxStep, baseSize + sizeRange)
  }

  /** `_get_random_char_size(base_size, last_char_size, size_range)`.
      Whenever its interval is not empty, a first character gets a size
      within `sizeRange` of the base and at least 6pt, and a later one also
      stays within 0.5pt of the previous size. When the interval is empty
      (a small base, or a previous size far from the base) the draw still
      succeeds, between the two crossed bounds, and may fall below 6pt. */
  function CharSize(baseSize: real, lastCharSize: Option<real>, sizeRange: real, u: real): (size: real)
    requires IsUnit(u)
    ensures lastCharSize.None? ==> Between(Max(MinCharSize, baseSize - sizeRange), baseSize + sizeRange, size)
    ensures lastCharSize.None? && Max(MinCharSize, baseSize - sizeRange) <= baseSize + sizeRange ==>
      && MinCharSize <= size
      && baseSize - sizeRange <= size <= baseSize + sizeRange
    ensures lastCharSize.Some? ==>
      var last := lastCharSize.value;
      && Between(SizeLow(baseSize, last, sizeRange), SizeHigh(baseSize, last, sizeRange), size)
      && (SizeLow(baseSize, last, sizeRange) <= SizeHigh(baseSize, last, sizeRange) ==>
            && MinCharSize <= size
            && Abs(size - last) <= MaxStep
            && baseSize - sizeRange <= size <= baseSize + sizeRange)
  {
    match lastCharSize
    case None =>
      var minSize := Max(MinCharSize, baseSize - sizeRange);
      var maxSize := baseSize + sizeRange;
      Uniform(minSize, maxSize, u)
    case Some(last) =>
      var minSize := SizeLow(baseSize, last, sizeRange);
      var maxSize := SizeHigh(baseSize, last, sizeRange);
      Uniform(minSize, maxSize, u)
  }

  /** The last of `values`, or `before` when there is none. */
  function LastOr(values: seq<real>, before: Option<real>): Option<real> {
    if values == [] then before else Some(values[|values| - 1])
  }

  /** The sizes of consecutive characters, all drawn against the same base
      size, starting after a character of size `last` (if any). */
  function SizeRun(baseSize: real, sizeRange: real, last: Option<real>, us: seq<real>): (sizes: seq<real>)
    requires forall i :: 0 <= i < |us| ==> IsUnit(us[i])
    ensures |sizes| == |us|
    decreases |us|
  {
    if us == [] then []
    else
      var before := SizeRun(baseSize, sizeRange, last, us[..|us| - 1]);
      before + [CharSize(baseSize, LastOr(before, last), sizeRange, us[|us| - 1])]
  }

  /** `sizes` are at least 6pt and within the range of the base, and each
      one is within 0.5pt of the one before it (the first: of `last`, if any). */
  predicate AdjacentSizes(sizes: seq<real>, baseSize: real, sizeRange: real, last: Option<real>) {
    && (forall i :: 0 <= i < |sizes| ==>
          MinCharSize <= sizes[i] && baseSize - sizeRange <= sizes[i] <= baseSize + sizeRange)
    && (forall i :: 0 < i < |sizes| ==> Abs(sizes[i] - sizes[i - 1]) <= MaxStep)
    && (last.Some? && |sizes| > 0 ==> Abs(sizes[0] - last.value) <= MaxStep)
  }

  /** Within a run of one base size whose interval reaches 6pt, every size
      is at least 6pt and within the range of the base, and neighbouring
      sizes differ by at most 0.5pt. */
  lemma {:induction false} SizeRunStaysAdjacent(baseSize: real, sizeRange: real, last: Option<real>, us: seq<real>)
    requires forall i :: 0 <= i < |us| ==> IsUnit(us[i])
    requires sizeRange >= 0.0 && baseSize + sizeRange >= MinCharSize
    requires last.Some? ==> Max(MinCharSize, baseSize - sizeRange) <= last.value <= baseSize + sizeRange
    ensures AdjacentSizes(SizeRun(baseSize, sizeRange, last, us), baseSize, sizeRange, last)
    decreases |us|
  {
    if us != [] {
      var init := us[..|us| - 1];
      SizeRunStaysAdjacent(baseSize, sizeRange, last, init);
      var before := SizeRun(baseSize, sizeRange, last, init);
      var previous := LastOr(before, last);
      var size := CharSize(baseSize, previous, sizeRange, us[|us| - 1]);
      SizeFits(baseSize, sizeRange, previous, us[|us| - 1]);
      assert SizeRun(baseSize, sizeRange, last, us) == before + [size];
      AdjacentSizesExtend(before, size, baseSize, sizeRange, last);
    }
  }

  /** One more size adjacent to the last one keeps the walk adjacent. */
  lemma AdjacentSizesExtend(sizes: seq<real>, size: real, baseSize: real, sizeRange: real, last: Option<real>)
    requires AdjacentSizes(sizes, baseSize, sizeRange, last)
    requires MinCharSize <= size && baseSize - sizeRange <= size <= baseSize + sizeRange
    requires LastOr(sizes, last).Some? ==> Abs(size - LastOr(sizes, last).value) <= MaxStep
    ensures AdjacentSizes(sizes + [size], baseSize, sizeRange, last)
  {
    var longer := sizes + [size];
    assert forall i :: 0 <= i < |sizes| ==> longer[i] == sizes[i];
  }

  /** From a size within the interval of the base, the next interval is not
      empty, so the next size is adjacent. */
  lemma SizeFits(baseSize: real, sizeRange: real, previous: Option<real>, u: real)
    requires IsUnit(u)
    requires sizeRange >= 0.0 && baseSize + sizeRange >= MinCharSize
    requires previous.Some? ==> Max(MinCharSize, baseSize - sizeRange) <= previous.value <= baseSize + sizeRange
    ensures var size := CharSize(baseSize, previous, sizeRange, u);
      && MinCharSize <= size && baseSize - sizeRange <= size <= baseSize + sizeRange
      && (previous.Some? ==> Abs(size - previous.value) <= MaxStep)
  {
    if previous.Some? {
      var last := previous.value;
      assert SizeLow(baseSize, last, sizeRange) <= last <= SizeHigh(baseSize, last, sizeRange);
    }
  }

  /** `last_char_size` carries over to the next run of the paragraph. When
      that run has a smaller base size, the interval is empty and the next
      size falls more than 0.5pt below the previous one. */
  lemma SizeStepBreaksAcrossRuns(baseSize: real, last: real, sizeRange: real, u: real)
    requires IsUnit(u) && u > 0.0
    requires sizeRange >= 0.0 && last - MaxStep >= MinCharSize
    requires baseSize + sizeRange < last - MaxStep
    ensures CharSize(baseSize, Some(last), sizeRange, u) < last - MaxStep
  {
    var lo := SizeLow(baseSize, last, sizeRange);
    var hi := SizeHigh(baseSize, last, sizeRange);
    assert lo == last - MaxStep && hi == baseSize + sizeRange;
    ScaledUnit(hi - lo, u);
  }

  /** `_get_random_char_position`'s draw: the first position of a paragraph
      anywhere in `[-2.5, 2.5]`, a later one within 0.5 of the previous one
      and still within those bounds. */
  function NextPosition(last: Option<real>, u: real): (position: real)
    requires IsUnit(u)
    ensures (last.None? || -PositionLimit <= last.value <= PositionLimit) ==>
      -PositionLimit <= position <= PositionLimit
    ensures last.Some? && -PositionLimit <= last.value <= PositionLimit ==>
      Abs(position - last.value) <= MaxStep
  {
    match last
    case None => Uniform(-PositionLimit, PositionLimit, u)
    case Some(previous) =>
      var minPosition := Max(-PositionLimit, previous - MaxStep);
      var maxPosition := Min(PositionLimit, previous + MaxStep);
      Uniform(minPosition, maxPosition, u)
  }

  /** The positions of consecutive characters of one paragraph. */
  function PositionRun(last: Option<real>, us: seq<real>): (positions: seq<real>)
    requires forall i :: 0 <= i < |us| ==> IsUnit(us[i])
    ensures |positions| == |us|
    decreases |us|
  {
    if us == [] then []
    else
      var before := PositionRun(last, us[..|us| - 1]);
      before + [NextPosition(LastOr(before, last), us[|us| - 1])]
  }

  /** `positions` stay within `[-2.5, 2.5]` and each one is within 0.5
      of the one before it (the first: of `last`, if any). */
  predicate BoundedWalk(positions: seq<real>, last: Option<real>) {
    && (forall i :: 0 <= i < |positions| ==> -PositionLimit <= positions[i] <= PositionLimit)
    && (forall i :: 0 < i < |positions| ==> Abs(positions[i] - positions[i - 1]) <= MaxStep)
    && (last.Some? && |positions| > 0 ==> Abs(positions[0] - last.value) <= MaxStep)
  }

  /** Every position of a paragraph lies in `[-2.5, 2.5]` and each one after
      the first is within 0.5 of the one before. */
  lemma {:induction false} PositionRunBounded(last: Option<real>, us: seq<real>)
    requires forall i :: 0 <= i < |us| ==> IsUnit(us[i])
    requires last.Some? ==> -PositionLimit <= last.value <= PositionLimit
    ensures BoundedWalk(PositionRun(last, us), last)
    decreases |us|
  {
    if us != [] {
      var init := us[..|us| - 1];
      PositionRunBounded(last, init);
      var before := PositionRun(last, init);
      var p := NextPosition(LastOr(before, last), us[|us| - 1]);
      assert PositionRun(last, us) == before + [p];
      BoundedWalkExtend(before, p, last);
    }
  }

  /** One more position within the bounds and adjacent to the last one
      keeps the walk bounded. */
  lemma BoundedWalkExtend(positions: seq<real>, p: real, last: Option<real>)
    requires BoundedWalk(positions, last)
    requires -PositionLimit <= p <= PositionLimit
    requires LastOr(positions, last).Some? ==> Abs(p - LastOr(positions, last).value) <= MaxStep
    ensures BoundedWalk(positions + [p], last)
  {
    var longer := positions + [p];
    assert forall i :: 0 <= i < |positions| ==> longer[i] == positions[i];
  }

  /** The `w:position` value (in half-points) written for an offset in
      points: none when the offset is below 0.1 in magnitude, else
      `int(offset * 2)`, truncated toward zero. */
  function HalfPoints(offset: real): (value: Option<int>)
    ensures value.None? <==> Abs(offset) < 0.1
    ensures value.Some? ==>
      Abs(value.value as real) <= 2.0 * Abs(offset) < Abs(value.value as real) + 1.0
    ensures value.Some? ==> (offset > 0.0 ==> value.value >= 0) && (offset < 0.0 ==> value.value <= 0)
  {
    if Abs(offset) < 0.1 then None else Some(Trunc(offset * 2.0))
  }

  /** A position drawn by the walk is written as at most 5 half-points. */
  lemma PositionHalfPointsBounded(position: real)
    requires -PositionLimit <= position <= PositionLimit
    ensures HalfPoints(position).Some? ==> -5 <= HalfPoints(position).value <= 5
  {
  }
}
