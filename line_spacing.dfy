/** `LineSpacingManager` (src/enhanced_font_randomizer.py:161-179): one
    spacing multiplier per line index, drawn on first request and then
    remembered. */
module LineSpacing {
  import opened Draws

  class LineSpacingManager {
    var lineSpacingCache: map<int, real>

    /** Every remembered spacing was drawn from `[0.8, 1.2]`. */
    ghost predicate Valid()
      reads this
    {
      forall i :: i in lineSpacingCache ==> 0.8 <= lineSpacingCache[i] <= 1.2
    }

    constructor ()
      ensures Valid() && lineSpacingCache == map[]
    {
      lineSpacingCache := map[];
    }

    /** `get_random_line_spacing`: the remembered value for a known line,
        else a fresh draw that is remembered under that line alone. */
    method GetRandomLineSpacing(lineIndex: int, u: real) returns (spacing: real)
      requires Valid() && IsUnit(u)
      modifies this
      ensures Valid()
      ensures 0.8 <= spacing <= 1.2
      ensures lineIndex in old(lineSpacingCache) ==>
        spacing == old(lineSpacingCache)[lineIndex] && lineSpacingCache == old(lineSpacingCache)
      ensures lineIndex !in old(lineSpacingCache) ==>
        spacing == Uniform(0.8, 1.2, u) && lineSpacingCache == old(lineSpacingCache)[lineIndex := spacing]
    {
      if lineIndex in lineSpacingCache {
        return lineSpacingCache[lineIndex];
      }
      spacing := Uniform(0.8, 1.2, u);
      lineSpacingCache := lineSpacingCache[lineIndex := spacing];
    }
  }

  /** A new manager asked twice for the same line answers with the first
      draw both times, and that draw lies in `[0.8, 1.2]`. */
  method RepeatedLineSpacing(lineIndex: int, u1: real, u2: real) returns (first: real, second: real)
    requires IsUnit(u1) && IsUnit(u2)
    ensures first == second
    ensures 0.8 <= first <= 1.2
    ensures first == Uniform(0.8, 1.2, u1)
  {
    var manager := new LineSpacingManager();
    first := manager.GetRandomLineSpacing(lineIndex, u1);
    second := manager.GetRandomLineSpacing(lineIndex, u2);
  }
}
