/** The strength sliders of `convert_document` and the parameters derived
    from them (src/enhanced_font_randomizer.py:637-649). Each slider is an
    integer from 1 to 5. */
module Strength {

  /** A slider value. */
  predicate IsStrength(s: int) {
    1 <= s <= 5
  }

  /** The factor applied to every tilt. */
  function MaxTiltMultiplier(strength: int): (m: real)
    ensures IsStrength(strength) ==> 0.8 <= m <= 2.0
  {
    0.5 + strength as real * 0.3
  }

  /** How far a character's size may stray from its run's size. */
  function CharSizeRange(strength: int): (r: real)
    ensures IsStrength(strength) ==> 0.6 <= r <= 1.8
  {
    0.3 + strength as real * 0.3
  }

  /** The lower end of the line-spacing interval. */
  function LineSpacingMin(strength: int): (lo: real)
    ensures IsStrength(strength) ==> 0.4 <= lo <= 0.8
  {
    0.9 - strength as real * 0.1
  }

  /** The upper end of the line-spacing interval. */
  function LineSpacingMax(strength: int): (hi: real)
    ensures IsStrength(strength) ==> 1.2 <= hi <= 1.6
  {
    1.1 + strength as real * 0.1
  }

  /** A stronger slider setting tilts more, varies sizes more and widens
      the line-spacing interval on both sides. */
  lemma StrongerSliderWidens(strength: int)
    requires IsStrength(strength) && IsStrength(strength + 1)
    ensures MaxTiltMultiplier(strength) < MaxTiltMultiplier(strength + 1)
    ensures CharSizeRange(strength) < CharSizeRange(strength + 1)
    ensures LineSpacingMin(strength + 1) < LineSpacingMin(strength)
    ensures LineSpacingMax(strength) < LineSpacingMax(strength + 1)
    ensures IndentMax(strength) <= IndentMax(strength + 1)
  {
  }

  /** The fewest indentation spaces. */
  const IndentMin: int := 1

  /** The most indentation spaces: one more than the strength, at most 5. */
  function IndentMax(strength: int): (n: int)
    ensures IsStrength(strength) ==> IndentMin < n <= 5
    ensures n <= 5
    ensures strength <= 4 ==> n == strength + 1
  {
    if 1 + strength <= 5 then 1 + strength else 5
  }

  /** The parameters one conversion uses. */
  datatype Settings = Settings(
    maxTiltMultiplier: real,
    charSizeRange: real,
    lineSpacingMin: real,
    lineSpacingMax: real,
    indentMax: int)

  /** The ranges every slider position yields. */
  predicate ValidSettings(s: Settings) {
    && 0.8 <= s.maxTiltMultiplier <= 2.0
    && 0.6 <= s.charSizeRange <= 1.8
    && 0.4 <= s.lineSpacingMin <= 0.8
    && 1.2 <= s.lineSpacingMax <= 1.6
    && IndentMin < s.indentMax <= 5
  }

  /** The parameters for the four sliders. */
  function SettingsFor(handwriting: int, charSize: int, lineSpacing: int, indent: int): (s: Settings)
    ensures IsStrength(handwriting) && IsStrength(charSize) && IsStrength(lineSpacing) && IsStrength(indent) ==>
      ValidSettings(s)
  {
    Settings(
      MaxTiltMultiplier(handwriting),
      CharSizeRange(charSize),
      LineSpacingMin(lineSpacing),
      LineSpacingMax(lineSpacing),
      IndentMax(indent))
  }

  /** The line-spacing interval is never empty and contains single
      spacing; `randint(1, indent_max)` always has a choice. */
  lemma ValidSettingsIntervals(s: Settings)
    requires ValidSettings(s)
    ensures s.lineSpacingMin < 1.0 < s.lineSpacingMax
    ensures IndentMin <= s.indentMax
  {
  }
}
