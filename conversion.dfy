/** The per-character transform of `convert_document`
    (src/enhanced_font_randomizer.py:619-851): every paragraph of the body,
    then every paragraph of every table cell, is split into one run per
    character, each with its own font, size jitter, tilt and vertical
    position, while counters are kept.

    A document is modelled as values: a paragraph is the sequence of its
    runs, the text it holds outside runs and its line spacing. The random
    draws are supplied by the caller, one `CharDraws` per character in the
    order the characters are visited. */
module Conversion {
  import opened Draws
  import opened FontCatalog
  import opened Strength
  import Handwriting
  import Jitter
  import EnhancedFonts
  import LineSpacing

  /** The characters for which Python's `str.isspace` holds, which `strip()`
      removes. */
  predicate IsWhitespace(c: char) {
    var n := c as int;
    || 9 <= n <= 13 || 28 <= n <= 32 || n == 133 || n == 160 || n == 5760
    || 8192 <= n <= 8202 || n == 8232 || n == 8233 || n == 8239 || n == 8287 || n == 12288
  }

  /** `text.strip()` is empty. */
  predicate IsBlank(s: string) {
    s == [] || (IsWhitespace(s[0]) && IsBlank(s[1..]))
  }

  /** A run's basic format; `None` means the run inherits the property. */
  datatype Format = Format(bold: Option<bool>, italic: Option<bool>, underline: Option<bool>)

  /** A run: its text, its basic format, its size in points (`None` when it
      inherits one), the font name set on it, and the values of the
      `w:position` elements appended to its properties, in order. */
  datatype Run = Run(text: string, format: Format, size: Option<real>, font: Option<string>, positions: seq<int>)

  /** A paragraph: its runs, the text it holds outside runs (in hyperlinks),
      and its line spacing. */
  datatype Paragraph = Paragraph(runs: seq<Run>, outsideText: string, lineSpacing: Option<real>)

  /** The text of a list of runs, one after the other. */
  function RunsText(runs: seq<Run>): string
    decreases |runs|
  {
    if runs == [] then "" else RunsText(runs[..|runs| - 1]) + runs[|runs| - 1].text
  }

  /** `paragraph.text`; only whether it is blank matters, so the place of
      the text outside runs is immaterial. */
  function ParagraphText(p: Paragraph): string {
    RunsText(p.runs) + p.outsideText
  }

  /** A run size counts as set when it is present and not zero (a python-docx
      `Length` is false when it is 0). */
  predicate HasSize(size: Option<real>) {
    size.Some? && size.value != 0.0
  }

  /** The four switches of the dialog that `convert_document` consults. */
  datatype Toggles = Toggles(
    randomLineSpacing: bool,
    randomIndent: bool,
    randomCharSize: bool,
    handwritingEffect: bool)

  /** The `stats` dictionary. */
  datatype Stats = Stats(
    totalChars: nat,
    charsWithFont: nat,
    charsWithoutFont: nat,
    usedFonts: set<string>,
    handwritingTrends: int,
    linesWithRandomSpacing: nat,
    charsWithRandomSize: nat,
    linesWithRandomIndent: nat)

  const NoStats: Stats := Stats(0, 0, 0, {}, 0, 0, 0, 0)

  /** Every character counted is counted once as with or without a font, and
      at most once as resized. */
  predicate Balanced(s: Stats) {
    s.totalChars == s.charsWithFont + s.charsWithoutFont && s.charsWithRandomSize <= s.totalChars
  }

  /** The fonts of the application's `FontManager`: the dict order of the
      names and the cache. */
  datatype FontView = FontView(names: seq<string>, cache: map<string, FontInfo>)

  /** The random values one character consumes: the font names as
      shuffled, the size draw, the tilt draws and the position draw. */
  datatype CharDraws = CharDraws(shuffled: seq<string>, size: real, tilt: Handwriting.TiltDraws, position: real)

  /** The draws of one character lie in their ranges. */
  predicate InRange(d: CharDraws) {
    IsUnit(d.size) && Handwriting.ValidDraws(d.tilt) && IsUnit(d.position)
  }

  /** ... and the names are shuffled from the loaded ones. */
  predicate ValidCharDraws(d: CharDraws, fontNames: seq<string>) {
    IsShuffleOf(d.shuffled, fontNames) && InRange(d)
  }

  /** The random values one paragraph consumes: the line-spacing draw, the
      number of indentation spaces, and the draws of its k-th character. */
  datatype ParagraphDraws = ParagraphDraws(spacing: real, indent: int, chars: nat -> CharDraws)

  ghost predicate ValidParagraphDraws(d: ParagraphDraws, s: Settings, fontNames: seq<string>) {
    && IsUnit(d.spacing)
    && IndentMin <= d.indent <= s.indentMax
    && forall k: nat :: ValidCharDraws(d.chars(k), fontNames)
  }

  // ---------------------------------------------------------------------
  // Line spacing and indentation (lines 668-689)

  function Spaces(n: nat): (s: string)
    ensures |s| == n && IsBlank(s)
    ensures forall i :: 0 <= i < n ==> s[i] == ' '
  {
    if n == 0 then "" else
      var rest := Spaces(n - 1);
      assert ([' '] + rest)[1..] == rest;
      [' '] + rest
  }

  /** The run `paragraph.add_run(text)` appends: no format of its own. */
  function PlainRun(text: string): Run {
    Run(text, Format(None, None, None), None, None, [])
  }

  /** Random line spacing and indentation, with their two counters, for a
      paragraph whose text is not blank. */
  datatype Prepared = Prepared(paragraph: Paragraph, stats: Stats)

  function Prepare(p: Paragraph, t: Toggles, s: Settings, stats: Stats, d: ParagraphDraws): (r: Prepared)
    requires IsUnit(d.spacing) && d.indent >= 0
  {
    var spaced :=
      if t.randomLineSpacing && !IsBlank(ParagraphText(p)) then
        Prepared(p.(lineSpacing := Some(Uniform(s.lineSpacingMin, s.lineSpacingMax, d.spacing))),
                 stats.(linesWithRandomSpacing := stats.linesWithRandomSpacing + 1))
      else Prepared(p, stats);
    var q := spaced.paragraph;
    if t.randomIndent && !IsBlank(ParagraphText(q)) then
      var spaces := Spaces(d.indent);
      var runs := if q.runs != [] then q.runs[0 := q.runs[0].(text := spaces + q.runs[0].text)]
                  else [PlainRun(spaces)];
      Prepared(q.(runs := runs), spaced.stats.(linesWithRandomIndent := spaced.stats.linesWithRandomIndent + 1))
    else spaced
  }

  lemma {:induction false} RunsTextAppend(a: seq<Run>, b: seq<Run>)
    ensures RunsText(a + b) == RunsText(a) + RunsText(b)
    decreases |b|
  {
    if b != [] {
      var init := b[..|b| - 1];
      assert (a + b)[..|a + b| - 1] == a + init;
      assert (a + b)[|a + b| - 1] == b[|b| - 1];
      RunsTextAppend(a, init);
      calc {
        RunsText(a + b);
        RunsText(a + init) + b[|b| - 1].text;
        RunsText(a) + RunsText(init) + b[|b| - 1].text;
        RunsText(a) + (RunsText(init) + b[|b| - 1].text);
      }
    } else {
      assert a + b == a;
    }
  }

  /** Indentation puts the spaces in front of the text of the runs. */
  lemma IndentedText(runs: seq<Run>, spaces: string)
    ensures RunsText(if runs != [] then runs[0 := runs[0].(text := spaces + runs[0].text)] else [PlainRun(spaces)])
         == spaces + RunsText(runs)
  {
    if runs != [] {
      IndentedFirstRun(runs, spaces);
    } else {
      RunsTextSingle(PlainRun(spaces));
    }
  }

  lemma IndentedFirstRun(runs: seq<Run>, spaces: string)
    requires runs != []
    ensures RunsText(runs[0 := runs[0].(text := spaces + runs[0].text)]) == spaces + RunsText(runs)
  {
    var first := runs[0].(text := spaces + runs[0].text);
    var rest := runs[1..];
    calc {
      RunsText(runs[0 := first]);
    == { assert runs[0 := first] == [first] + rest; }
      RunsText([first] + rest);
    == { RunsTextAppend([first], rest); RunsTextSingle(first); }
      spaces + runs[0].text + RunsText(rest);
    == { RunsTextAppend([runs[0]], rest); RunsTextSingle(runs[0]); assert runs == [runs[0]] + rest; }
      spaces + RunsText(runs);
    }
  }

  /** Spacing and indentation change no text but the leading spaces, and the
      spacing drawn lies in the interval of the settings. */
  lemma PrepareEffect(p: Paragraph, t: Toggles, s: Settings, stats: Stats, d: ParagraphDraws)
    requires IsUnit(d.spacing) && d.indent >= 0 && ValidSettings(s)
    ensures var r := Prepare(p, t, s, stats, d);
      && r.paragraph.outsideText == p.outsideText
      && (if t.randomIndent && !IsBlank(ParagraphText(p))
          then (&& ParagraphText(r.paragraph) == Spaces(d.indent) + ParagraphText(p)
                && r.stats.linesWithRandomIndent == stats.linesWithRandomIndent + 1)
          else (r.paragraph.runs == p.runs && r.stats.linesWithRandomIndent == stats.linesWithRandomIndent))
      && (if t.randomLineSpacing && !IsBlank(ParagraphText(p))
          then (&& r.paragraph.lineSpacing.Some?
                && s.lineSpacingMin <= r.paragraph.lineSpacing.value <= s.lineSpacingMax
                && r.stats.linesWithRandomSpacing == stats.linesWithRandomSpacing + 1)
          else (&& r.paragraph.lineSpacing == p.lineSpacing
                && r.stats.linesWithRandomSpacing == stats.linesWithRandomSpacing))
      && r.stats.totalChars == stats.totalChars
      && r.stats.charsWithFont == stats.charsWithFont
      && r.stats.charsWithoutFont == stats.charsWithoutFont
      && r.stats.usedFonts == stats.usedFonts
      && r.stats.handwritingTrends == stats.handwritingTrends
      && r.stats.charsWithRandomSize == stats.charsWithRandomSize
  {
    var blank := IsBlank(ParagraphText(p));
    var spaced :=
      if t.randomLineSpacing && !blank then
        p.(lineSpacing := Some(Uniform(s.lineSpacingMin, s.lineSpacingMax, d.spacing)))
      else p;
    assert ParagraphText(spaced) == ParagraphText(p);
    IndentedText(p.runs, Spaces(d.indent));
  }

  // ---------------------------------------------------------------------
  // Splitting the runs (lines 695-707 and 750)

  /** A run after `run.text = ""` when its text is not blank. */
  function ClearRun(r: Run): Run {
    if IsBlank(r.text) then r else r.(text := "")
  }

  /** The original runs after the loop: non-blank ones emptied in place,
      whitespace-only ones kept whole. */
  function Cleared(runs: seq<Run>): (r: seq<Run>)
    ensures |r| == |runs|
  {
    seq(|runs|, i requires 0 <= i < |runs| => ClearRun(runs[i]))
  }

  /** A character waiting for its own run, with the format and size of the
      run it came from. */
  datatype PendingChar = PendingChar(c: char, format: Format, size: Option<real>)

  function RunChars(r: Run): (cs: seq<PendingChar>)
    ensures |cs| == |r.text|
  {
    seq(|r.text|, j requires 0 <= j < |r.text| => PendingChar(r.text[j], r.format, r.size))
  }

  lemma RunCharsPrefix(r: Run, j: nat)
    requires j < |r.text|
    ensures RunChars(r)[..j + 1] == RunChars(r)[..j] + [PendingChar(r.text[j], r.format, r.size)]
  {
  }

  /** One more run: its characters follow those of the runs before it when
      its text is not blank. */
  lemma PendingPrefix(runs: seq<Run>, i: nat)
    requires i < |runs|
    ensures !IsBlank(runs[i].text) ==> Pending(runs[..i + 1]) == Pending(runs[..i]) + RunChars(runs[i])
    ensures IsBlank(runs[i].text) ==> Pending(runs[..i + 1]) == Pending(runs[..i])
  {
    assert runs[..i + 1][..i] == runs[..i];
    assert Pending(runs[..i]) + [] == Pending(runs[..i]);
  }

  /** The characters pending after one more character of a run. */
  lemma DoneAndChars(done: seq<PendingChar>, r: Run, j: nat)
    requires j < |r.text|
    ensures |done + RunChars(r)[..j]| == |done| + j
    ensures done + RunChars(r)[..j + 1] == (done + RunChars(r)[..j]) + [PendingChar(r.text[j], r.format, r.size)]
  {
    RunCharsPrefix(r, j);
  }

  /** All of the runs, cleared and pending. */
  lemma WholeRuns(runs: seq<Run>)
    ensures Cleared(runs[..|runs|]) + runs[|runs|..] == Cleared(runs)
    ensures Pending(runs[..|runs|]) == Pending(runs)
  {
    assert runs[..|runs|] == runs;
    assert Cleared(runs) + [] == Cleared(runs);
  }

  /** Emptying one more run in place. */
  lemma ClearedPrefix(runs: seq<Run>, i: nat)
    requires i < |runs|
    ensures Cleared(runs[..i + 1]) + runs[i + 1..] == (Cleared(runs[..i]) + runs[i..])[i := ClearRun(runs[i])]
  {
  }

  /** The characters of the non-blank runs, in order. */
  function Pending(runs: seq<Run>): seq<PendingChar>
    decreases |runs|
  {
    if runs == [] then []
    else
      var last := runs[|runs| - 1];
      Pending(runs[..|runs| - 1]) + (if IsBlank(last.text) then [] else RunChars(last))
  }

  function Chars(cs: seq<PendingChar>): (s: string)
    ensures |s| == |cs|
  {
    seq(|cs|, k requires 0 <= k < |cs| => cs[k].c)
  }

  function BlankRuns(runs: seq<Run>): seq<Run>
    decreases |runs|
  {
    if runs == [] then []
    else
      var last := runs[|runs| - 1];
      BlankRuns(runs[..|runs| - 1]) + (if IsBlank(last.text) then [last] else [])
  }

  function NonBlankRuns(runs: seq<Run>): seq<Run>
    decreases |runs|
  {
    if runs == [] then []
    else
      var last := runs[|runs| - 1];
      NonBlankRuns(runs[..|runs| - 1]) + (if IsBlank(last.text) then [] else [last])
  }

  /** What text remains of the cleared runs is that of the whitespace-only
      runs. */
  lemma {:induction false} ClearedText(runs: seq<Run>)
    ensures RunsText(Cleared(runs)) == RunsText(BlankRuns(runs))
    decreases |runs|
  {
    if runs != [] {
      var init := runs[..|runs| - 1];
      var last := runs[|runs| - 1];
      ClearedText(init);
      assert Cleared(runs)[..|runs| - 1] == Cleared(init);
      assert RunsText(Cleared(runs)) == RunsText(Cleared(init)) + ClearRun(last).text;
      var kept := if IsBlank(last.text) then [last] else [];
      RunsTextAppend(BlankRuns(init), kept);
      assert RunsText(kept) == ClearRun(last).text by {
        if kept != [] {
          assert kept[..0] == [];
        }
      }
    }
  }

  lemma CharsAppend(a: seq<PendingChar>, b: seq<PendingChar>)
    ensures Chars(a + b) == Chars(a) + Chars(b)
  {
  }

  lemma RunsTextSingle(r: Run)
    ensures RunsText([r]) == r.text
  {
    assert [r][..0] == [];
  }

  /** The pending characters spell out the non-blank runs, in order. */
  lemma {:induction false} PendingSpellsNonBlankRuns(runs: seq<Run>)
    ensures Chars(Pending(runs)) == RunsText(NonBlankRuns(runs))
    decreases |runs|
  {
    if runs != [] {
      var init := runs[..|runs| - 1];
      var last := runs[|runs| - 1];
      PendingSpellsNonBlankRuns(init);
      if IsBlank(last.text) {
        assert Pending(runs) == Pending(init) + [];
        assert Pending(init) + [] == Pending(init);
        assert NonBlankRuns(runs) == NonBlankRuns(init) + [];
        assert NonBlankRuns(init) + [] == NonBlankRuns(init);
      } else {
        RunsTextAppend(NonBlankRuns(init), [last]);
        RunsTextSingle(last);
        CharsAppend(Pending(init), RunChars(last));
        assert Chars(RunChars(last)) == last.text;
      }
    }
  }

  // ---------------------------------------------------------------------
  // One character (lines 708-750)

  /** What carries from one character of a paragraph to the next: the
      previous size, the previous position, the simulator and the counters. */
  datatype CharState = CharState(
    lastCharSize: Option<real>,
    lastCharPosition: Option<real>,
    tilt: Handwriting.TiltState,
    stats: Stats)

  /** The `w:position` values `_apply_character_position` and
      `_apply_character_tilt` append for an offset: none when it is
      negligible. */
  function PositionElements(offset: real): seq<int> {
    match Jitter.HalfPoints(offset)
    case None => []
    case Some(v) => [v]
  }

  /** The values the tilt of a character appends, when the effect is on. */
  function TiltElements(t: Toggles, s: Settings, tilt: real): seq<int> {
    if t.handwritingEffect then PositionElements(tilt * s.maxTiltMultiplier) else []
  }

  /** Lines 727-736: the size of the new run, the size the next character
      is measured against, and whether the size was drawn at random. */
  datatype Sized = Sized(size: Option<real>, lastCharSize: Option<real>, random: bool)

  function SizeStep(size: Option<real>, randomCharSize: bool, sizeRange: real, lastCharSize: Option<real>, u: real): Sized
    requires IsUnit(u)
  {
    if randomCharSize && HasSize(size) then
      var currentSize := Jitter.CharSize(size.value, lastCharSize, sizeRange, u);
      Sized(Some(currentSize), Some(currentSize), true)
    else if HasSize(size) then
      Sized(size, Some(size.value), false)
    else
      Sized(None, lastCharSize, false)
  }

  /** The counters after one character, given the font found for it and
      whether its size was drawn. */
  function CountChar(stats: Stats, font: Option<string>, randomSize: bool): Stats {
    var found :=
      if font.Some? then stats.(charsWithFont := stats.charsWithFont + 1, usedFonts := stats.usedFonts + {font.value})
      else stats.(charsWithoutFont := stats.charsWithoutFont + 1);
    var sized := if randomSize then found.(charsWithRandomSize := found.charsWithRandomSize + 1) else found;
    sized.(totalChars := sized.totalChars + 1)
  }

  datatype CharOut = CharOut(run: Run, state: CharState)

  /** One iteration of the character loop: the new run of `pc` and the
      state after it. The simulator and the position walk each take one
      step; the simulator only when the effect is on. */
  function CharStep(pc: PendingChar, fonts: FontView, t: Toggles, s: Settings, st: CharState, d: CharDraws): CharOut
    requires InRange(d)
  {
    var font := EnhancedFonts.FirstSupporting(d.shuffled, fonts.cache, pc.c as int);
    var sized := SizeStep(pc.size, t.randomCharSize, s.charSizeRange, st.lastCharSize, d.size);
    var step := Handwriting.NextTilt(st.tilt, d.tilt);
    var position := Jitter.NextPosition(st.lastCharPosition, d.position);
    CharOut(
      Run([pc.c], pc.format, sized.size, font, TiltElements(t, s, step.tilt) + PositionElements(position)),
      CharState(sized.lastCharSize, Some(position), if t.handwritingEffect then step.state else st.tilt,
                CountChar(st.stats, font, sized.random)))
  }

  // ---------------------------------------------------------------------
  // All characters of a paragraph (lines 695-750)

  ghost predicate ValidFonts(fonts: FontView) {
    OrderedKeys(fonts.names, fonts.cache)
  }

  /** The draws of the first `n` characters lie in their ranges. */
  predicate ValidStream(ds: nat -> CharDraws, n: nat) {
    forall k: nat :: k < n ==> InRange(ds(k))
  }

  /** Every character's draws are valid, its shuffle included. */
  ghost predicate ValidCharStream(ds: nat -> CharDraws, fontNames: seq<string>) {
    forall k: nat :: ValidCharDraws(ds(k), fontNames)
  }

  lemma StreamInRange(ds: nat -> CharDraws, fontNames: seq<string>, n: nat)
    requires ValidCharStream(ds, fontNames)
    ensures ValidStream(ds, n)
  {
  }

  /** The font found for each character. */
  function FontsFound(ps: seq<PendingChar>, fonts: FontView, ds: nat -> CharDraws): (found: seq<Option<string>>)
    ensures |found| == |ps|
  {
    seq(|ps|, k requires 0 <= k < |ps| => EnhancedFonts.FirstSupporting(ds(k).shuffled, fonts.cache, ps[k].c as int))
  }

  /** The size walk of a paragraph: the size written for each character and
      the size carried to the next. */
  datatype SizeWalk = SizeWalk(sizes: seq<Option<real>>, last: Option<real>)

  function Sizes(ps: seq<PendingChar>, t: Toggles, s: Settings, ds: nat -> CharDraws): (w: SizeWalk)
    requires ValidStream(ds, |ps|)
    ensures |w.sizes| == |ps|
    decreases |ps|
  {
    if ps == [] then SizeWalk([], None)
    else
      var n := |ps|;
      var before := Sizes(ps[..n - 1], t, s, ds);
      var sized := SizeStep(ps[n - 1].size, t.randomCharSize, s.charSizeRange, before.last, ds(n - 1).size);
      SizeWalk(before.sizes + [sized.size], sized.lastCharSize)
  }

  /** The tilt draws of the first `n` characters. */
  function TiltDrawsOf(ds: nat -> CharDraws, n: nat): (tds: seq<Handwriting.TiltDraws>)
    ensures |tds| == n
  {
    seq(n, k requires 0 <= k < n => ds(k).tilt)
  }

  /** The position draws of the first `n` characters. */
  function PositionDraws(ds: nat -> CharDraws, n: nat): (us: seq<real>)
    ensures |us| == n
  {
    seq(n, k requires 0 <= k < n => ds(k).position)
  }

  /** The simulator of a paragraph after tilting its first `n` characters,
      and the angles it returned. */
  function Tilts(ds: nat -> CharDraws, n: nat): (r: Handwriting.TiltRun)
    requires ValidStream(ds, n)
    ensures |r.tilts| == n
  {
    Handwriting.RunTilts(Handwriting.Fresh, TiltDrawsOf(ds, n))
  }

  /** The positions of the first `n` characters of a paragraph. */
  function Positions(ds: nat -> CharDraws, n: nat): (positions: seq<real>)
    requires ValidStream(ds, n)
    ensures |positions| == n
  {
    Jitter.PositionRun(None, PositionDraws(ds, n))
  }

  /** The runs lines 708-750 append for the characters `ps`, in order: each
      is one character with the format of its run, the size of the size
      walk, the font found for it, and the `w:position` values of the tilt
      walk (when the effect is on) and of the position walk. */
  function NewRuns(ps: seq<PendingChar>, fonts: FontView, t: Toggles, s: Settings, ds: nat -> CharDraws): (runs: seq<Run>)
    requires ValidStream(ds, |ps|)
    ensures |runs| == |ps|
  {
    var found := FontsFound(ps, fonts, ds);
    var sizes := Sizes(ps, t, s, ds).sizes;
    var tilts := Tilts(ds, |ps|).tilts;
    var positions := Positions(ds, |ps|);
    seq(|ps|, k requires 0 <= k < |ps| =>
      Run([ps[k].c], ps[k].format, sizes[k], found[k], TiltElements(t, s, tilts[k]) + PositionElements(positions[k])))
  }

  /** The counters after the characters `ps`. */
  function StatsAfter(stats: Stats, ps: seq<PendingChar>, fonts: FontView, t: Toggles, ds: nat -> CharDraws): Stats
    decreases |ps|
  {
    if ps == [] then stats
    else
      var n := |ps|;
      var font := EnhancedFonts.FirstSupporting(ds(n - 1).shuffled, fonts.cache, ps[n - 1].c as int);
      CountChar(StatsAfter(stats, ps[..n - 1], fonts, t, ds), font, t.randomCharSize && HasSize(ps[n - 1].size))
  }

  /** The state after the characters `ps` of a paragraph, which starts with
      no previous size or position and a fresh simulator. */
  function StateAfter(ps: seq<PendingChar>, fonts: FontView, t: Toggles, s: Settings, stats: Stats, ds: nat -> CharDraws): CharState
    requires ValidStream(ds, |ps|)
  {
    CharState(
      Sizes(ps, t, s, ds).last,
      Jitter.LastOr(Positions(ds, |ps|), None),
      if t.handwritingEffect then Tilts(ds, |ps|).state else Handwriting.Fresh,
      StatsAfter(stats, ps, fonts, t, ds))
  }

  /** One more character: the simulator takes one step. */
  lemma TiltsStep(ds: nat -> CharDraws, n: nat)
    requires ValidStream(ds, n + 1)
    ensures var before := Tilts(ds, n);
      var step := Handwriting.NextTilt(before.state, ds(n).tilt);
      Tilts(ds, n + 1) == Handwriting.TiltRun(step.state, before.tilts + [step.tilt])
  {
    assert TiltDrawsOf(ds, n + 1)[..n] == TiltDrawsOf(ds, n);
  }

  /** One more character: the position walk takes one step. */
  lemma PositionsStep(ds: nat -> CharDraws, n: nat)
    requires ValidStream(ds, n + 1)
    ensures Positions(ds, n + 1) ==
      Positions(ds, n) + [Jitter.NextPosition(Jitter.LastOr(Positions(ds, n), None), ds(n).position)]
  {
    assert PositionDraws(ds, n + 1)[..n] == PositionDraws(ds, n);
  }

  /** One more character: the size walk takes one step. */
  lemma SizesStep(ps: seq<PendingChar>, pc: PendingChar, t: Toggles, s: Settings, ds: nat -> CharDraws)
    requires ValidStream(ds, |ps| + 1)
    ensures var before := Sizes(ps, t, s, ds);
      var sized := SizeStep(pc.size, t.randomCharSize, s.charSizeRange, before.last, ds(|ps|).size);
      Sizes(ps + [pc], t, s, ds) == SizeWalk(before.sizes + [sized.size], sized.lastCharSize)
  {
    assert (ps + [pc])[..|ps|] == ps;
  }

  /** One more character: one more font is looked up. */
  lemma FontsStep(ps: seq<PendingChar>, pc: PendingChar, fonts: FontView, ds: nat -> CharDraws)
    ensures FontsFound(ps + [pc], fonts, ds) ==
      FontsFound(ps, fonts, ds) + [EnhancedFonts.FirstSupporting(ds(|ps|).shuffled, fonts.cache, pc.c as int)]
  {
    var qs := ps + [pc];
    assert forall k :: 0 <= k < |ps| ==> qs[k] == ps[k];
  }

  /** One more character: one more is counted. */
  lemma StatsStep(ps: seq<PendingChar>, pc: PendingChar, fonts: FontView, t: Toggles, stats: Stats, ds: nat -> CharDraws)
    ensures StatsAfter(stats, ps + [pc], fonts, t, ds) ==
      CountChar(StatsAfter(stats, ps, fonts, t, ds),
                EnhancedFonts.FirstSupporting(ds(|ps|).shuffled, fonts.cache, pc.c as int),
                t.randomCharSize && HasSize(pc.size))
  {
    assert (ps + [pc])[..|ps|] == ps;
  }

  /** One more character: the walks take one step each, as `CharStep` does
      from the state after the characters before it. */
  lemma NewRunsStep(ps: seq<PendingChar>, pc: PendingChar, fonts: FontView, t: Toggles, s: Settings, stats: Stats, ds: nat -> CharDraws)
    requires ValidStream(ds, |ps| + 1)
    ensures var out := CharStep(pc, fonts, t, s, StateAfter(ps, fonts, t, s, stats, ds), ds(|ps|));
      && NewRuns(ps + [pc], fonts, t, s, ds) == NewRuns(ps, fonts, t, s, ds) + [out.run]
      && StateAfter(ps + [pc], fonts, t, s, stats, ds) == out.state
  {
    NewRunsExtend(ps, pc, fonts, t, s, stats, ds);
    StateAfterStep(ps, pc, fonts, t, s, stats, ds);
  }

  lemma NewRunsExtend(ps: seq<PendingChar>, pc: PendingChar, fonts: FontView, t: Toggles, s: Settings, stats: Stats, ds: nat -> CharDraws)
    requires ValidStream(ds, |ps| + 1)
    ensures NewRuns(ps + [pc], fonts, t, s, ds) ==
      NewRuns(ps, fonts, t, s, ds) + [CharStep(pc, fonts, t, s, StateAfter(ps, fonts, t, s, stats, ds), ds(|ps|)).run]
  {
    NewRunsKeepsPrefix(ps, pc, fonts, t, s, ds);
    NewRunsLast(ps, pc, fonts, t, s, stats, ds);
    PrefixAndLast(NewRuns(ps + [pc], fonts, t, s, ds), NewRuns(ps, fonts, t, s, ds));
  }

  /** A sequence is its prefix followed by its last element. */
  lemma PrefixAndLast<T>(longer: seq<T>, shorter: seq<T>)
    requires |longer| == |shorter| + 1 && longer[..|shorter|] == shorter
    ensures longer == shorter + [longer[|shorter|]]
  {
  }

  /** The runs of the characters before are unchanged by one more. */
  lemma NewRunsKeepsPrefix(ps: seq<PendingChar>, pc: PendingChar, fonts: FontView, t: Toggles, s: Settings, ds: nat -> CharDraws)
    requires ValidStream(ds, |ps| + 1)
    ensures NewRuns(ps + [pc], fonts, t, s, ds)[..|ps|] == NewRuns(ps, fonts, t, s, ds)
  {
    var n := |ps|;
    var qs := ps + [pc];
    TiltsStep(ds, n);
    PositionsStep(ds, n);
    SizesStep(ps, pc, t, s, ds);
    FontsStep(ps, pc, fonts, ds);
    var longer := NewRuns(qs, fonts, t, s, ds);
    var shorter := NewRuns(ps, fonts, t, s, ds);
    assert forall k :: 0 <= k < n ==> qs[k] == ps[k];
    assert forall k :: 0 <= k < n ==> longer[k] == shorter[k];
  }

  /** The run of the one more character is the one `CharStep` makes. */
  lemma NewRunsLast(ps: seq<PendingChar>, pc: PendingChar, fonts: FontView, t: Toggles, s: Settings, stats: Stats, ds: nat -> CharDraws)
    requires ValidStream(ds, |ps| + 1)
    ensures NewRuns(ps + [pc], fonts, t, s, ds)[|ps|] ==
      CharStep(pc, fonts, t, s, StateAfter(ps, fonts, t, s, stats, ds), ds(|ps|)).run
  {
    var n := |ps|;
    TiltsStep(ds, n);
    PositionsStep(ds, n);
    SizesStep(ps, pc, t, s, ds);
    FontsStep(ps, pc, fonts, ds);
    assert (ps + [pc])[n] == pc;
  }

  lemma StateAfterStep(ps: seq<PendingChar>, pc: PendingChar, fonts: FontView, t: Toggles, s: Settings, stats: Stats, ds: nat -> CharDraws)
    requires ValidStream(ds, |ps| + 1)
    ensures StateAfter(ps + [pc], fonts, t, s, stats, ds) ==
      CharStep(pc, fonts, t, s, StateAfter(ps, fonts, t, s, stats, ds), ds(|ps|)).state
  {
    var n := |ps|;
    TiltsStep(ds, n);
    PositionsStep(ds, n);
    SizesStep(ps, pc, t, s, ds);
    StatsStep(ps, pc, fonts, t, stats, ds);
  }

  /** The runs appended so far and the state reached. */
  datatype Emitted = Emitted(runs: seq<Run>, state: CharState)

  /** The character loop as it runs: `CharStep` applied to each character
      in turn, from the state `start`. */
  function Emit(ps: seq<PendingChar>, fonts: FontView, t: Toggles, s: Settings, start: CharState, ds: nat -> CharDraws): (e: Emitted)
    requires ValidStream(ds, |ps|)
    ensures |e.runs| == |ps|
    decreases |ps|, 1
  {
    if ps == [] then Emitted([], start) else EmitLast(ps, fonts, t, s, start, ds)
  }

  /** The loop over all of `ps` but its last character, then one more step. */
  function EmitLast(ps: seq<PendingChar>, fonts: FontView, t: Toggles, s: Settings, start: CharState, ds: nat -> CharDraws): (e: Emitted)
    requires ps != [] && ValidStream(ds, |ps|)
    ensures |e.runs| == |ps|
    decreases |ps|, 0
  {
    var n := |ps|;
    var before := Emit(ps[..n - 1], fonts, t, s, start, ds);
    var out := CharStep(ps[n - 1], fonts, t, s, before.state, ds(n - 1));
    Emitted(before.runs + [out.run], out.state)
  }

  /** The state at the start of a paragraph's characters. */
  function ParagraphStart(stats: Stats): CharState {
    CharState(None, None, Handwriting.Fresh, stats)
  }

  /** One more character for the loop. */
  lemma EmitStep(ps: seq<PendingChar>, pc: PendingChar, fonts: FontView, t: Toggles, s: Settings, start: CharState, ds: nat -> CharDraws)
    requires ValidStream(ds, |ps| + 1)
    ensures var before := Emit(ps, fonts, t, s, start, ds);
      var out := CharStep(pc, fonts, t, s, before.state, ds(|ps|));
      Emit(ps + [pc], fonts, t, s, start, ds) == Emitted(before.runs + [out.run], out.state)
  {
    assert (ps + [pc])[..|ps|] == ps;
    assert Emit(ps + [pc], fonts, t, s, start, ds) == EmitLast(ps + [pc], fonts, t, s, start, ds);
  }

  /** Running the loop character by character yields the four walks side
      by side. */
  lemma {:induction false} EmitIsNewRuns(ps: seq<PendingChar>, fonts: FontView, t: Toggles, s: Settings, stats: Stats, ds: nat -> CharDraws)
    requires ValidStream(ds, |ps|)
    ensures Emit(ps, fonts, t, s, ParagraphStart(stats), ds) ==
      Emitted(NewRuns(ps, fonts, t, s, ds), StateAfter(ps, fonts, t, s, stats, ds))
    decreases |ps|
  {
    if ps == [] {
      assert NewRuns(ps, fonts, t, s, ds) == [];
    } else {
      var n := |ps|;
      var init := ps[..n - 1];
      assert init + [ps[n - 1]] == ps;
      EmitIsNewRuns(init, fonts, t, s, stats, ds);
      EmitStep(init, ps[n - 1], fonts, t, s, ParagraphStart(stats), ds);
      NewRunsStep(init, ps[n - 1], fonts, t, s, stats, ds);
    }
  }

  // ---------------------------------------------------------------------
  // What the character loop promises

  /** Runs of one character each spell out their characters. */
  lemma {:induction false} SingleCharRunsText(runs: seq<Run>, cs: string)
    requires |runs| == |cs|
    requires forall k :: 0 <= k < |runs| ==> runs[k].text == [cs[k]]
    ensures RunsText(runs) == cs
    decreases |runs|
  {
    if runs != [] {
      var n := |runs|;
      SingleCharRunsText(runs[..n - 1], cs[..n - 1]);
      assert cs == cs[..n - 1] + [cs[n - 1]];
    }
  }

  /** Each new run holds one character of `ps`, in order, with the format
      of the run it came from; together they spell the characters out. */
  lemma NewRunsSpellChars(ps: seq<PendingChar>, fonts: FontView, t: Toggles, s: Settings, ds: nat -> CharDraws)
    requires ValidStream(ds, |ps|)
    ensures forall k :: 0 <= k < |ps| ==>
      NewRuns(ps, fonts, t, s, ds)[k].text == [ps[k].c] && NewRuns(ps, fonts, t, s, ds)[k].format == ps[k].format
    ensures RunsText(NewRuns(ps, fonts, t, s, ds)) == Chars(ps)
  {
    SingleCharRunsText(NewRuns(ps, fonts, t, s, ds), Chars(ps));
  }

  /** Each new run carries a font exactly when some loaded font covers its
      character, and then one that does: the first in that character's
      shuffled order. */
  lemma NewRunsFonts(ps: seq<PendingChar>, fonts: FontView, t: Toggles, s: Settings, ds: nat -> CharDraws)
    requires ValidFonts(fonts) && ValidCharStream(ds, fonts.names) && ValidStream(ds, |ps|)
    ensures forall k :: 0 <= k < |ps| ==>
      (NewRuns(ps, fonts, t, s, ds)[k].font.None? <==>
        forall n :: n in fonts.cache ==> ps[k].c as int !in fonts.cache[n].chars)
    ensures forall k :: 0 <= k < |ps| && NewRuns(ps, fonts, t, s, ds)[k].font.Some? ==>
      var name := NewRuns(ps, fonts, t, s, ds)[k].font.value;
      && name in fonts.cache && ps[k].c as int in fonts.cache[name].chars
      && EnhancedFonts.ChosenFirst(ds(k).shuffled, fonts.cache, ps[k].c as int, name)
  {
    var runs := NewRuns(ps, fonts, t, s, ds);
    forall k | 0 <= k < |ps|
      ensures (runs[k].font.None? <==> forall n :: n in fonts.cache ==> ps[k].c as int !in fonts.cache[n].chars)
    {
      var order := ds(k).shuffled;
      var code := ps[k].c as int;
      assert ValidCharDraws(ds(k), fonts.names);
      EnhancedFonts.FirstSupportingIsFirst(order, fonts.cache, code);
      if runs[k].font.None? {
        forall n | n in fonts.cache
          ensures code !in fonts.cache[n].chars
        {
          assert n in multiset(fonts.names);
          assert n in multiset(order);
          var i :| 0 <= i < |order| && order[i] == n;
        }
      }
    }
    forall k | 0 <= k < |ps| && runs[k].font.Some?
      ensures EnhancedFonts.ChosenFirst(ds(k).shuffled, fonts.cache, ps[k].c as int, runs[k].font.value)
    {
      EnhancedFonts.FirstSupportingIsFirst(ds(k).shuffled, fonts.cache, ps[k].c as int);
    }
  }

  /** A tilt of at most 1.7 degrees, scaled by the strength multiplier, is
      written as at most one value of at most 6 half-points. */
  lemma TiltElementsBounded(t: Toggles, s: Settings, tilt: real)
    requires ValidSettings(s) && -1.7 <= tilt <= 1.7
    ensures |TiltElements(t, s, tilt)| <= 1
    ensures forall i :: 0 <= i < |TiltElements(t, s, tilt)| ==> -6 <= TiltElements(t, s, tilt)[i] <= 6
  {
    var m := s.maxTiltMultiplier;
    if tilt >= 0.0 {
      NonNegativeProduct(tilt, m);
      NonNegativeProduct(1.7 - tilt, m);
      NonNegativeProduct(1.7, 2.0 - m);
      assert (1.7 - tilt) * m == 1.7 * m - tilt * m;
      assert 1.7 * (2.0 - m) == 3.4 - 1.7 * m;
    } else {
      NonNegativeProduct(-tilt, m);
      NonNegativeProduct(1.7 + tilt, m);
      NonNegativeProduct(1.7, 2.0 - m);
      assert (-tilt) * m == -(tilt * m);
      assert (1.7 + tilt) * m == 1.7 * m + tilt * m;
      assert 1.7 * (2.0 - m) == 3.4 - 1.7 * m;
    }
    assert -3.4 <= tilt * m <= 3.4;
  }

  /** Every new run carries at most two `w:position` values, each within 6
      half-points of the baseline; without the handwriting effect, only
      that of the position walk. The positions themselves stay within
      2.5pt and move by at most 0.5pt from one character to the next, and
      the simulator keeps a tilt of 0 whatever it is asked. */
  lemma NewRunsPositions(ps: seq<PendingChar>, fonts: FontView, t: Toggles, s: Settings, ds: nat -> CharDraws)
    requires ValidStream(ds, |ps|) && ValidSettings(s)
    ensures forall k :: 0 <= k < |ps| ==>
      && |NewRuns(ps, fonts, t, s, ds)[k].positions| <= 2
      && forall i :: 0 <= i < |NewRuns(ps, fonts, t, s, ds)[k].positions| ==>
           -6 <= NewRuns(ps, fonts, t, s, ds)[k].positions[i] <= 6
    ensures !t.handwritingEffect ==> forall k :: 0 <= k < |ps| ==>
      NewRuns(ps, fonts, t, s, ds)[k].positions == PositionElements(Positions(ds, |ps|)[k])
    ensures Jitter.BoundedWalk(Positions(ds, |ps|), None)
    ensures Handwriting.Reachable(Tilts(ds, |ps|).state)
  {
    var runs := NewRuns(ps, fonts, t, s, ds);
    var n := |ps|;
    var tilts := Tilts(ds, n).tilts;
    var positions := Positions(ds, n);
    Handwriting.FreshIsReachable();
    Handwriting.RunKeepsTiltAtZero(Handwriting.Fresh, TiltDrawsOf(ds, n));
    Jitter.PositionRunBounded(None, PositionDraws(ds, n));
    forall k | 0 <= k < n
      ensures |runs[k].positions| <= 2
      ensures forall i :: 0 <= i < |runs[k].positions| ==> -6 <= runs[k].positions[i] <= 6
    {
      assert runs[k].positions == TiltElements(t, s, tilts[k]) + PositionElements(positions[k]);
      OffsetsBounded(t, s, tilts[k], positions[k]);
    }
  }

  /** The values written for a tilt and a position of the walks are at most
      two, each within 6 half-points. */
  lemma OffsetsBounded(t: Toggles, s: Settings, tilt: real, position: real)
    requires ValidSettings(s) && -1.7 <= tilt <= 1.7
    requires -Jitter.PositionLimit <= position <= Jitter.PositionLimit
    ensures var values := TiltElements(t, s, tilt) + PositionElements(position);
      && |values| <= 2
      && forall i :: 0 <= i < |values| ==> -6 <= values[i] <= 6
  {
    TiltElementsBounded(t, s, tilt);
    Jitter.PositionHalfPointsBounded(position);
  }

  /** The size draws of the first `n` characters. */
  function SizeDraws(ds: nat -> CharDraws, n: nat): (us: seq<real>)
    ensures |us| == n
  {
    seq(n, k requires 0 <= k < n => ds(k).size)
  }

  /** With random sizes on and every character of one base size, the size
      walk is that of `_get_random_char_size` from no previous size. */
  lemma {:induction false} SizesOfOneBase(ps: seq<PendingChar>, t: Toggles, s: Settings, ds: nat -> CharDraws, base: real)
    requires ValidStream(ds, |ps|) && t.randomCharSize && base != 0.0
    requires forall k :: 0 <= k < |ps| ==> ps[k].size == Some(base)
    ensures forall k :: 0 <= k < |ps| ==>
      Sizes(ps, t, s, ds).sizes[k] == Some(Jitter.SizeRun(base, s.charSizeRange, None, SizeDraws(ds, |ps|))[k])
    ensures Sizes(ps, t, s, ds).last == Jitter.LastOr(Jitter.SizeRun(base, s.charSizeRange, None, SizeDraws(ds, |ps|)), None)
    decreases |ps|
  {
    if ps != [] {
      var n := |ps|;
      var init := ps[..n - 1];
      SizesOfOneBase(init, t, s, ds, base);
      assert SizeDraws(ds, n)[..n - 1] == SizeDraws(ds, n - 1);
      var before := Jitter.SizeRun(base, s.charSizeRange, None, SizeDraws(ds, n - 1));
      assert Jitter.SizeRun(base, s.charSizeRange, None, SizeDraws(ds, n)) ==
        before + [Jitter.CharSize(base, Jitter.LastOr(before, None), s.charSizeRange, ds(n - 1).size)];
    }
  }

  /** Within a paragraph whose characters share one base size, with random
      sizes on, every size is at least 6pt and within the range of the base,
      and neighbouring characters differ by at most 0.5pt. */
  lemma SizesOfOneBaseAdjacent(ps: seq<PendingChar>, t: Toggles, s: Settings, ds: nat -> CharDraws, base: real)
    requires ValidStream(ds, |ps|) && ValidSettings(s) && t.randomCharSize && base != 0.0
    requires base + s.charSizeRange >= Jitter.MinCharSize
    requires forall k :: 0 <= k < |ps| ==> ps[k].size == Some(base)
    ensures forall k :: 0 <= k < |ps| ==>
      var size := Sizes(ps, t, s, ds).sizes[k];
      size.Some? && Jitter.MinCharSize <= size.value && base - s.charSizeRange <= size.value <= base + s.charSizeRange
    ensures forall k :: 0 < k < |ps| ==>
      Abs(Sizes(ps, t, s, ds).sizes[k].value - Sizes(ps, t, s, ds).sizes[k - 1].value) <= Jitter.MaxStep
  {
    SizesOfOneBase(ps, t, s, ds, base);
    Jitter.SizeRunStaysAdjacent(base, s.charSizeRange, None, SizeDraws(ds, |ps|));
  }

  /** With random sizes off, each new run keeps the size of the run its
      character came from, when that size is set. */
  lemma {:induction false} SizesKept(ps: seq<PendingChar>, t: Toggles, s: Settings, ds: nat -> CharDraws)
    requires ValidStream(ds, |ps|) && !t.randomCharSize
    ensures forall k :: 0 <= k < |ps| ==>
      Sizes(ps, t, s, ds).sizes[k] == (if HasSize(ps[k].size) then ps[k].size else None)
    decreases |ps|
  {
    if ps != [] {
      var n := |ps|;
      SizesKept(ps[..n - 1], t, s, ds);
    }
  }

  /** The counters after the characters `ps`: each is counted once, with or
      without a font, and as resized only when random sizes are on; the
      other counters are untouched. */
  lemma {:induction false} StatsAfterCounts(stats: Stats, ps: seq<PendingChar>, fonts: FontView, t: Toggles, ds: nat -> CharDraws)
    ensures var r := StatsAfter(stats, ps, fonts, t, ds);
      && r.totalChars == stats.totalChars + |ps|
      && r.charsWithFont + r.charsWithoutFont == stats.charsWithFont + stats.charsWithoutFont + |ps|
      && stats.charsWithRandomSize <= r.charsWithRandomSize <= stats.charsWithRandomSize + |ps|
      && (!t.randomCharSize ==> r.charsWithRandomSize == stats.charsWithRandomSize)
      && r.handwritingTrends == stats.handwritingTrends
      && r.linesWithRandomSpacing == stats.linesWithRandomSpacing
      && r.linesWithRandomIndent == stats.linesWithRandomIndent
      && (Balanced(stats) ==> Balanced(r))
    decreases |ps|
  {
    if ps != [] {
      StatsAfterCounts(stats, ps[..|ps| - 1], fonts, t, ds);
    }
  }

  /** The fonts recorded as used are those recorded before and those found
      for the characters `ps`. */
  lemma {:induction false} UsedFontsAfter(stats: Stats, ps: seq<PendingChar>, fonts: FontView, t: Toggles, ds: nat -> CharDraws)
    ensures forall f :: f in StatsAfter(stats, ps, fonts, t, ds).usedFonts <==>
      f in stats.usedFonts || exists k :: 0 <= k < |ps| && FontsFound(ps, fonts, ds)[k] == Some(f)
    decreases |ps|
  {
    if ps != [] {
      var n := |ps|;
      var init := ps[..n - 1];
      UsedFontsAfter(stats, init, fonts, t, ds);
      var found := FontsFound(ps, fonts, ds);
      var before := FontsFound(init, fonts, ds);
      assert forall k :: 0 <= k < n - 1 ==> found[k] == before[k];
      var used := StatsAfter(stats, ps, fonts, t, ds).usedFonts;
      var usedBefore := StatsAfter(stats, init, fonts, t, ds).usedFonts;
      assert used == usedBefore + (if found[n - 1].Some? then {found[n - 1].value} else {});
      forall f
        ensures f in used <==> f in stats.usedFonts || exists k :: 0 <= k < n && found[k] == Some(f)
      {
        if exists k :: 0 <= k < n && found[k] == Some(f) {
          var k :| 0 <= k < n && found[k] == Some(f);
          if k < n - 1 {
            assert before[k] == Some(f);
          }
        }
      }
    }
  }

  // ---------------------------------------------------------------------
  // One paragraph (lines 661-753; for a cell, lines 775-847)

  /** A paragraph after the loop, the counters, and the position the
      converter remembers. */
  datatype Processed = Processed(paragraph: Paragraph, stats: Stats, lastCharPosition: Option<real>)

  /** One paragraph: line spacing and indentation, then every non-blank run
      emptied and one run per character of those runs appended at the end.
      The walks start afresh. For a body paragraph (`countTrends`) the
      simulator's `char_count_since_correction` is then added to the
      trend counter; cell paragraphs do not add it. */
  function ConvertParagraph(p: Paragraph, fonts: FontView, t: Toggles, s: Settings, stats: Stats, d: ParagraphDraws, countTrends: bool): Processed
    requires ValidParagraphDraws(d, s, fonts.names)
  {
    var prep := Prepare(p, t, s, stats, d);
    var q := prep.paragraph;
    var ps := Pending(q.runs);
    var st := StateAfter(ps, fonts, t, s, prep.stats, d.chars);
    var trends := if countTrends then st.tilt.charCountSinceCorrection else 0;
    Processed(
      q.(runs := Cleared(q.runs) + NewRuns(ps, fonts, t, s, d.chars)),
      st.stats.(handwritingTrends := st.stats.handwritingTrends + trends),
      st.lastCharPosition)
  }

  /** The runs of a converted paragraph: those it had after indentation,
      where they were, non-blank ones emptied; then one run per character
      of the non-blank ones, in order. Its text is therefore that of the
      whitespace-only runs followed by that of the others. */
  lemma ConvertParagraphRuns(p: Paragraph, fonts: FontView, t: Toggles, s: Settings, stats: Stats, d: ParagraphDraws, countTrends: bool)
    requires ValidParagraphDraws(d, s, fonts.names) && ValidSettings(s)
    ensures var q := Prepare(p, t, s, stats, d).paragraph;
      var r := ConvertParagraph(p, fonts, t, s, stats, d, countTrends).paragraph;
      var cs := RunsText(NonBlankRuns(q.runs));
      && r.outsideText == p.outsideText
      && |r.runs| == |q.runs| + |cs|
      && (forall i :: 0 <= i < |q.runs| ==>
            r.runs[i] == (if IsBlank(q.runs[i].text) then q.runs[i] else q.runs[i].(text := "")))
      && (forall k :: 0 <= k < |cs| ==> r.runs[|q.runs| + k].text == [cs[k]])
      && RunsText(r.runs) == RunsText(BlankRuns(q.runs)) + cs
  {
    var q := Prepare(p, t, s, stats, d).paragraph;
    PrepareEffect(p, t, s, stats, d);
    var ps := Pending(q.runs);
    var added := NewRuns(ps, fonts, t, s, d.chars);
    PendingSpellsNonBlankRuns(q.runs);
    NewRunsSpellChars(ps, fonts, t, s, d.chars);
    RunsTextAppend(Cleared(q.runs), added);
    ClearedText(q.runs);
  }

  /** The counters after one paragraph: each character of its non-blank
      runs is counted once, with or without a font, so the two agree with
      the total; only a body paragraph adds to the trend counter, and only
      with the handwriting effect on, by at most 25. */
  lemma ConvertParagraphStats(p: Paragraph, fonts: FontView, t: Toggles, s: Settings, stats: Stats, d: ParagraphDraws, countTrends: bool)
    requires ValidParagraphDraws(d, s, fonts.names) && ValidSettings(s)
    requires Balanced(stats)
    ensures var q := Prepare(p, t, s, stats, d).paragraph;
      var r := ConvertParagraph(p, fonts, t, s, stats, d, countTrends).stats;
      && Balanced(r)
      && r.totalChars == stats.totalChars + |RunsText(NonBlankRuns(q.runs))|
      && stats.usedFonts <= r.usedFonts
      && (!(countTrends && t.handwritingEffect) ==> r.handwritingTrends == stats.handwritingTrends)
      && stats.handwritingTrends <= r.handwritingTrends <= stats.handwritingTrends + 25
  {
    var prep := Prepare(p, t, s, stats, d);
    PrepareEffect(p, t, s, stats, d);
    var ps := Pending(prep.paragraph.runs);
    PendingSpellsNonBlankRuns(prep.paragraph.runs);
    StatsAfterCounts(prep.stats, ps, fonts, t, d.chars);
    UsedFontsAfter(prep.stats, ps, fonts, t, d.chars);
    Handwriting.FreshIsReachable();
    Handwriting.RunKeepsTiltAtZero(Handwriting.Fresh, TiltDrawsOf(d.chars, |ps|));
  }

  // ---------------------------------------------------------------------
  // The whole document (lines 651-851)

  /** A document: its body paragraphs, then the paragraphs of its table
      cells in the order the loops of lines 762-767 visit them. */
  datatype Document = Document(body: seq<Paragraph>, cells: seq<Paragraph>)

  /** The draws of the k-th body paragraph and of the k-th cell paragraph. */
  datatype DocumentDraws = DocumentDraws(body: nat -> ParagraphDraws, cells: nat -> ParagraphDraws)

  ghost predicate ValidDocumentDraws(dd: DocumentDraws, s: Settings, fontNames: seq<string>) {
    && (forall k: nat :: ValidParagraphDraws(dd.body(k), s, fontNames))
    && (forall k: nat :: ValidParagraphDraws(dd.cells(k), s, fontNames))
  }

  datatype Converted = Converted(paragraphs: seq<Paragraph>, stats: Stats, lastCharPosition: Option<real>)

  /** Paragraphs converted one after the other, the counters and the
      converter's position carried from each to the next. */
  function ConvertAll(ps: seq<Paragraph>, fonts: FontView, t: Toggles, s: Settings, stats: Stats, last: Option<real>,
                      ds: nat -> ParagraphDraws, countTrends: bool): (r: Converted)
    requires forall k: nat :: ValidParagraphDraws(ds(k), s, fonts.names)
    ensures |r.paragraphs| == |ps|
    decreases |ps|, 1
  {
    if ps == [] then Converted([], stats, last) else ConvertAllLast(ps, fonts, t, s, stats, last, ds, countTrends)
  }

  /** All paragraphs of `ps` but the last, then the last. */
  function ConvertAllLast(ps: seq<Paragraph>, fonts: FontView, t: Toggles, s: Settings, stats: Stats, last: Option<real>,
                          ds: nat -> ParagraphDraws, countTrends: bool): (r: Converted)
    requires ps != [] && forall k: nat :: ValidParagraphDraws(ds(k), s, fonts.names)
    ensures |r.paragraphs| == |ps|
    decreases |ps|, 0
  {
    var n := |ps|;
    var before := ConvertAll(ps[..n - 1], fonts, t, s, stats, last, ds, countTrends);
    var out := ConvertParagraph(ps[n - 1], fonts, t, s, before.stats, ds(n - 1), countTrends);
    Converted(before.paragraphs + [out.paragraph], out.stats, out.lastCharPosition)
  }

  /** One more paragraph, converted with what the ones before it left. */
  lemma ConvertAllStep(ps: seq<Paragraph>, i: nat, fonts: FontView, t: Toggles, s: Settings, stats: Stats, last: Option<real>,
                       ds: nat -> ParagraphDraws, countTrends: bool)
    requires i < |ps| && forall k: nat :: ValidParagraphDraws(ds(k), s, fonts.names)
    ensures var before := ConvertAll(ps[..i], fonts, t, s, stats, last, ds, countTrends);
      var out := ConvertParagraph(ps[i], fonts, t, s, before.stats, ds(i), countTrends);
      ConvertAll(ps[..i + 1], fonts, t, s, stats, last, ds, countTrends) ==
        Converted(before.paragraphs + [out.paragraph], out.stats, out.lastCharPosition)
  {
    assert ps[..i + 1][..i] == ps[..i];
    assert ConvertAll(ps[..i + 1], fonts, t, s, stats, last, ds, countTrends) ==
      ConvertAllLast(ps[..i + 1], fonts, t, s, stats, last, ds, countTrends);
  }

  /** Paragraph by paragraph, the counters stay balanced and never lose a
      font; cell paragraphs leave the trend counter alone. */
  lemma {:induction false} ConvertAllStats(ps: seq<Paragraph>, fonts: FontView, t: Toggles, s: Settings, stats: Stats, last: Option<real>,
                                           ds: nat -> ParagraphDraws, countTrends: bool)
    requires forall k: nat :: ValidParagraphDraws(ds(k), s, fonts.names)
    requires ValidSettings(s) && Balanced(stats)
    ensures var r := ConvertAll(ps, fonts, t, s, stats, last, ds, countTrends).stats;
      && Balanced(r)
      && stats.totalChars <= r.totalChars
      && stats.usedFonts <= r.usedFonts
      && (!countTrends ==> r.handwritingTrends == stats.handwritingTrends)
    decreases |ps|
  {
    if ps != [] {
      var n := |ps|;
      ConvertAllStats(ps[..n - 1], fonts, t, s, stats, last, ds, countTrends);
      var before := ConvertAll(ps[..n - 1], fonts, t, s, stats, last, ds, countTrends);
      ConvertParagraphStats(ps[n - 1], fonts, t, s, before.stats, ds(n - 1), countTrends);
    }
  }

  /** `convert_document` on a document: the body, then the cells, from
      empty counters. */
  function ConvertDocumentOf(doc: Document, fonts: FontView, t: Toggles, s: Settings, last: Option<real>, dd: DocumentDraws): (r: Converted)
    requires ValidDocumentDraws(dd, s, fonts.names)
  {
    var body := ConvertAll(doc.body, fonts, t, s, NoStats, last, dd.body, true);
    var cells := ConvertAll(doc.cells, fonts, t, s, body.stats, body.lastCharPosition, dd.cells, false);
    Converted(body.paragraphs + cells.paragraphs, cells.stats, cells.lastCharPosition)
  }

  /** The counters reported for a document are balanced, and the trend
      counter holds what the body paragraphs added and nothing from the
      cells. */
  lemma ConvertDocumentStats(doc: Document, fonts: FontView, t: Toggles, s: Settings, last: Option<real>, dd: DocumentDraws)
    requires ValidDocumentDraws(dd, s, fonts.names) && ValidSettings(s)
    ensures var r := ConvertDocumentOf(doc, fonts, t, s, last, dd);
      && |r.paragraphs| == |doc.body| + |doc.cells|
      && Balanced(r.stats)
      && r.stats.handwritingTrends == ConvertAll(doc.body, fonts, t, s, NoStats, last, dd.body, true).stats.handwritingTrends
      && (!t.handwritingEffect ==> r.stats.handwritingTrends == 0)
  {
    var body := ConvertAll(doc.body, fonts, t, s, NoStats, last, dd.body, true);
    ConvertAllStats(doc.body, fonts, t, s, NoStats, last, dd.body, true);
    ConvertAllStats(doc.cells, fonts, t, s, body.stats, body.lastCharPosition, dd.cells, false);
    if !t.handwritingEffect {
      BodyTrendsNeedEffect(doc.body, fonts, t, s, NoStats, last, dd.body);
    }
  }

  /** Without the handwriting effect no simulator moves, and the trend
      counter stays where it was. */
  lemma {:induction false} BodyTrendsNeedEffect(ps: seq<Paragraph>, fonts: FontView, t: Toggles, s: Settings, stats: Stats, last: Option<real>,
                                                ds: nat -> ParagraphDraws)
    requires forall k: nat :: ValidParagraphDraws(ds(k), s, fonts.names)
    requires !t.handwritingEffect
    ensures ConvertAll(ps, fonts, t, s, stats, last, ds, true).stats.handwritingTrends == stats.handwritingTrends
    decreases |ps|
  {
    if ps != [] {
      var n := |ps|;
      BodyTrendsNeedEffect(ps[..n - 1], fonts, t, s, stats, last, ds);
      var before := ConvertAll(ps[..n - 1], fonts, t, s, stats, last, ds, true);
      var prep := Prepare(ps[n - 1], t, s, before.stats, ds(n - 1));
      StatsAfterCounts(prep.stats, Pending(prep.paragraph.runs), fonts, t, ds(n - 1).chars);
    }
  }

  // ---------------------------------------------------------------------
  // The converter

  /** The part of `WordFontRandomizerEnhanced` that converts: its font
      manager and the position walk's memory. */
  class Converter {
    const fontManager: EnhancedFonts.FontManager
    var lastCharPosition: Option<real>

    constructor (fontManager: EnhancedFonts.FontManager)
      ensures this.fontManager == fontManager && lastCharPosition == None
    {
      this.fontManager := fontManager;
      lastCharPosition := None;
    }

    function Fonts(): FontView
      reads fontManager
    {
      FontView(fontManager.fontNames, fontManager.fontCache)
    }

    /** `_get_random_char_position`. */
    method GetRandomCharPosition(u: real) returns (position: real)
      requires IsUnit(u)
      modifies this
      ensures position == Jitter.NextPosition(old(lastCharPosition), u)
      ensures lastCharPosition == Some(position)
    {
      if lastCharPosition.None? {
        position := Uniform(-Jitter.PositionLimit, Jitter.PositionLimit, u);
      } else {
        var minPosition := Max(-Jitter.PositionLimit, lastCharPosition.value - Jitter.MaxStep);
        var maxPosition := Min(Jitter.PositionLimit, lastCharPosition.value + Jitter.MaxStep);
        position := Uniform(minPosition, maxPosition, u);
      }
      lastCharPosition := Some(position);
    }

    /** The counters of lines 716-724, 734 and 748 for one character. */
    static method Tally(stats: Stats, fontName: Option<string>, randomSize: bool) returns (newStats: Stats)
      ensures newStats == CountChar(stats, fontName, randomSize)
    {
      newStats := stats;
      if fontName.Some? {
        newStats := newStats.(charsWithFont := newStats.charsWithFont + 1, usedFonts := newStats.usedFonts + {fontName.value});
      } else {
        newStats := newStats.(charsWithoutFont := newStats.charsWithoutFont + 1);
      }
      if randomSize {
        newStats := newStats.(charsWithRandomSize := newStats.charsWithRandomSize + 1);
      }
      newStats := newStats.(totalChars := newStats.totalChars + 1);
    }

    /** Lines 727-736: the size of the new run and the size the next
        character is measured against. */
    static method ResizeChar(size: Option<real>, t: Toggles, s: Settings, lastCharSize: Option<real>, u: real)
      returns (sized: Sized)
      requires IsUnit(u)
      ensures sized == SizeStep(size, t.randomCharSize, s.charSizeRange, lastCharSize, u)
    {
      if t.randomCharSize && HasSize(size) {
        var currentSize := Jitter.CharSize(size.value, lastCharSize, s.charSizeRange, u);
        sized := Sized(Some(currentSize), Some(currentSize), true);
      } else if HasSize(size) {
        sized := Sized(size, Some(size.value), false);
      } else {
        sized := Sized(None, lastCharSize, false);
      }
    }

    /** Lines 738-742: the simulator tilts the character when the effect is
        on, and the angle, scaled by the strength multiplier, is written. */
    static method TiltChar(c: char, t: Toggles, s: Settings, simulator: Handwriting.HandwritingSimulator, d: Handwriting.TiltDraws)
      returns (positions: seq<int>)
      requires Handwriting.ValidDraws(d)
      modifies simulator
      ensures var step := Handwriting.NextTilt(old(simulator.State()), d);
        && positions == TiltElements(t, s, step.tilt)
        && simulator.State() == (if t.handwritingEffect then step.state else old(simulator.State()))
    {
      positions := [];
      if t.handwritingEffect {
        var tiltAngle := simulator.GetCharTilt(c, d);
        positions := TiltElements(t, s, tiltAngle);
      }
    }

    /** The body of the character loop (lines 708-750) for one character. */
    method ProcessChar(pc: PendingChar, t: Toggles, s: Settings, simulator: Handwriting.HandwritingSimulator,
                       lastCharSize: Option<real>, stats: Stats, d: CharDraws)
      returns (run: Run, newLastCharSize: Option<real>, newStats: Stats)
      requires fontManager.Valid() && ValidCharDraws(d, fontManager.fontNames)
      modifies this, simulator
      ensures var out := CharStep(pc, Fonts(), t, s, CharState(lastCharSize, old(lastCharPosition), old(simulator.State()), stats), d);
        && run == out.run
        && newLastCharSize == out.state.lastCharSize
        && lastCharPosition == out.state.lastCharPosition
        && simulator.State() == out.state.tilt
        && newStats == out.state.stats
    {
      var fontName := fontManager.GetFontForChar(pc.c, d.shuffled);
      var sized := ResizeChar(pc.size, t, s, lastCharSize, d.size);
      newLastCharSize := sized.lastCharSize;
      var positions := TiltChar(pc.c, t, s, simulator, d.tilt);
      var charPosition := GetRandomCharPosition(d.position);
      positions := positions + PositionElements(charPosition);
      run := Run([pc.c], pc.format, sized.size, fontName, positions);
      newStats := Tally(stats, fontName, sized.random);
    }

    /** Lines 668-689: random line spacing, then random indentation, for a
        paragraph whose text is not blank. */
    static method PrepareParagraph(p: Paragraph, t: Toggles, s: Settings, stats: Stats, d: ParagraphDraws)
      returns (q: Paragraph, newStats: Stats)
      requires IsUnit(d.spacing) && d.indent >= 0
      ensures Prepared(q, newStats) == Prepare(p, t, s, stats, d)
    {
      q := p;
      newStats := stats;
      if t.randomLineSpacing && !IsBlank(ParagraphText(q)) {
        var randomSpacing := Uniform(s.lineSpacingMin, s.lineSpacingMax, d.spacing);
        q := q.(lineSpacing := Some(randomSpacing));
        newStats := newStats.(linesWithRandomSpacing := newStats.linesWithRandomSpacing + 1);
      }
      if t.randomIndent && !IsBlank(ParagraphText(q)) {
        var spaces := Spaces(d.indent);
        if q.runs != [] {
          var firstRun := q.runs[0];
          q := q.(runs := q.runs[0 := firstRun.(text := spaces + firstRun.text)]);
        } else {
          q := q.(runs := [PlainRun(spaces)]);
        }
        newStats := newStats.(linesWithRandomIndent := newStats.linesWithRandomIndent + 1);
      }
    }

    /** One pass of the character loop: `ProcessChar`, with its run
        appended to those added so far. */
    method EmitChar(pc: PendingChar, t: Toggles, s: Settings, simulator: Handwriting.HandwritingSimulator,
                    ghost start: Stats, ds: nat -> CharDraws, ghost sofar: seq<PendingChar>, k: nat,
                    added: seq<Run>, lastCharSize: Option<real>, stats: Stats)
      returns (newAdded: seq<Run>, newLastCharSize: Option<real>, newStats: Stats)
      requires fontManager.Valid() && ValidCharDraws(ds(k), fontManager.fontNames)
      requires k == |sofar| && ValidStream(ds, k + 1)
      requires Emitted(added, CharState(lastCharSize, lastCharPosition, simulator.State(), stats)) ==
        Emit(sofar, Fonts(), t, s, ParagraphStart(start), ds)
      modifies this, simulator
      ensures Emitted(newAdded, CharState(newLastCharSize, lastCharPosition, simulator.State(), newStats)) ==
        Emit(sofar + [pc], Fonts(), t, s, ParagraphStart(start), ds)
    {
      var run;
      run, newLastCharSize, newStats := ProcessChar(pc, t, s, simulator, lastCharSize, stats, ds(k));
      EmitStep(sofar, pc, Fonts(), t, s, ParagraphStart(start), ds);
      newAdded := added + [run];
    }

    /** Lines 708-750 for the characters of one run: the characters `done`
        of the paragraph came before it, and the runs added for them are
        `added`. */
    method SplitRun(r: Run, t: Toggles, s: Settings, simulator: Handwriting.HandwritingSimulator,
                    ghost start: Stats, ds: nat -> CharDraws, ghost done: seq<PendingChar>, n: nat,
                    added: seq<Run>, lastCharSize: Option<real>, stats: Stats)
      returns (newAdded: seq<Run>, newLastCharSize: Option<real>, newStats: Stats)
      requires fontManager.Valid() && ValidCharStream(ds, fontManager.fontNames)
      requires n == |done| && ValidStream(ds, n + |r.text|)
      requires Emitted(added, CharState(lastCharSize, lastCharPosition, simulator.State(), stats)) ==
        Emit(done, Fonts(), t, s, ParagraphStart(start), ds)
      modifies this, simulator
      ensures Emitted(newAdded, CharState(newLastCharSize, lastCharPosition, simulator.State(), newStats)) ==
        Emit(done + RunChars(r), Fonts(), t, s, ParagraphStart(start), ds)
    {
      newAdded, newLastCharSize, newStats := added, lastCharSize, stats;
      assert done + RunChars(r)[..0] == done;
      var j := 0;
      while j < |r.text|
        invariant 0 <= j <= |r.text|
        invariant Emitted(newAdded, CharState(newLastCharSize, lastCharPosition, simulator.State(), newStats)) ==
          Emit(done + RunChars(r)[..j], Fonts(), t, s, ParagraphStart(start), ds)
      {
        var pc := PendingChar(r.text[j], r.format, r.size);
        DoneAndChars(done, r, j);
        newAdded, newLastCharSize, newStats := EmitChar(pc, t, s, simulator, start, ds, done + RunChars(r)[..j], n + j, newAdded, newLastCharSize, newStats);
        j := j + 1;
      }
      assert RunChars(r)[..j] == RunChars(r);
    }

    /** Lines 695-750: every non-blank run of `runs` is emptied in place and
        each of its characters gets a run of its own, appended in order.
        Returns the runs as emptied, the runs added, and the size carried. */
    method SplitRuns(runs: seq<Run>, t: Toggles, s: Settings, simulator: Handwriting.HandwritingSimulator, stats: Stats, ds: nat -> CharDraws)
      returns (cleared: seq<Run>, added: seq<Run>, lastCharSize: Option<real>, newStats: Stats)
      requires fontManager.Valid() && ValidCharStream(ds, fontManager.fontNames)
      requires lastCharPosition.None? && simulator.State() == Handwriting.Fresh
      modifies this, simulator
      ensures cleared == Cleared(runs)
      ensures Emitted(added, CharState(lastCharSize, lastCharPosition, simulator.State(), newStats)) ==
        Emit(Pending(runs), Fonts(), t, s, ParagraphStart(stats), ds)
    {
      cleared, added, lastCharSize, newStats := runs, [], None, stats;
      var n := 0;
      var i := 0;
      while i < |runs|
        invariant 0 <= i <= |runs|
        invariant cleared == Cleared(runs[..i]) + runs[i..]
        invariant n == |Pending(runs[..i])|
        invariant Emitted(added, CharState(lastCharSize, lastCharPosition, simulator.State(), newStats)) ==
          Emit(Pending(runs[..i]), Fonts(), t, s, ParagraphStart(stats), ds)
      {
        ClearedPrefix(runs, i);
        PendingPrefix(runs, i);
        if !IsBlank(runs[i].text) {
          cleared := cleared[i := runs[i].(text := "")];
          StreamInRange(ds, fontManager.fontNames, n + |runs[i].text|);
          added, lastCharSize, newStats := SplitRun(runs[i], t, s, simulator, stats, ds, Pending(runs[..i]), n, added, lastCharSize, newStats);
          n := n + |runs[i].text|;
        }
        i := i + 1;
      }
      WholeRuns(runs);
    }

    /** One paragraph, body or cell: a fresh simulator, spacing and
        indentation, the walks reset, the runs split; a body paragraph then
        adds its simulator's count to the trend counter (line 753). */
    method ProcessParagraph(p: Paragraph, t: Toggles, s: Settings, stats: Stats, d: ParagraphDraws, countTrends: bool)
      returns (q: Paragraph, newStats: Stats)
      requires fontManager.Valid() && ValidParagraphDraws(d, s, fontManager.fontNames)
      modifies this
      ensures var r := ConvertParagraph(p, Fonts(), t, s, stats, d, countTrends);
        q == r.paragraph && newStats == r.stats && lastCharPosition == r.lastCharPosition
    {
      var simulator := new Handwriting.HandwritingSimulator();
      var prepared, st := PrepareParagraph(p, t, s, stats, d);
      lastCharPosition := None;
      var cleared, added, lastCharSize;
      ghost var prepStats := st;
      cleared, added, lastCharSize, st := SplitRuns(prepared.runs, t, s, simulator, st, d.chars);
      StreamInRange(d.chars, fontManager.fontNames, |Pending(prepared.runs)|);
      EmitIsNewRuns(Pending(prepared.runs), Fonts(), t, s, prepStats, d.chars);
      q := prepared.(runs := cleared + added);
      if countTrends {
        st := st.(handwritingTrends := st.handwritingTrends + simulator.charCountSinceCorrection);
      }
      newStats := st;
    }

    /** Lines 619-851 once the document is open: the four slider strengths
        fix the settings, a `LineSpacingManager` is created (and never
        asked), then the body paragraphs are processed in order, adding
        their trends, and after them the cell paragraphs, which do not. */
    method ConvertDocument(doc: Document, t: Toggles, handwriting: int, charSize: int, lineSpacing: int, indent: int,
                           dd: DocumentDraws)
      returns (paragraphs: seq<Paragraph>, stats: Stats)
      requires IsStrength(handwriting) && IsStrength(charSize) && IsStrength(lineSpacing) && IsStrength(indent)
      requires fontManager.Valid()
      requires ValidDocumentDraws(dd, SettingsFor(handwriting, charSize, lineSpacing, indent), fontManager.fontNames)
      modifies this
      ensures var r := ConvertDocumentOf(doc, Fonts(), t, SettingsFor(handwriting, charSize, lineSpacing, indent),
                                         old(lastCharPosition), dd);
        paragraphs == r.paragraphs && stats == r.stats && lastCharPosition == r.lastCharPosition
    {
      var s := SettingsFor(handwriting, charSize, lineSpacing, indent);
      var lineSpacingManager := new LineSpacing.LineSpacingManager();
      stats := NoStats;
      var body: seq<Paragraph> := [];
      var i := 0;
      while i < |doc.body|
        invariant 0 <= i <= |doc.body|
        invariant Converted(body, stats, lastCharPosition) ==
          ConvertAll(doc.body[..i], Fonts(), t, s, NoStats, old(lastCharPosition), dd.body, true)
      {
        ConvertAllStep(doc.body, i, Fonts(), t, s, NoStats, old(lastCharPosition), dd.body, true);
        var q;
        q, stats := ProcessParagraph(doc.body[i], t, s, stats, dd.body(i), true);
        body := body + [q];
        i := i + 1;
      }
      assert doc.body[..i] == doc.body;
      ghost var bodyStats, bodyLast := stats, lastCharPosition;
      var cells: seq<Paragraph> := [];
      var j := 0;
      while j < |doc.cells|
        invariant 0 <= j <= |doc.cells|
        invariant Converted(cells, stats, lastCharPosition) ==
          ConvertAll(doc.cells[..j], Fonts(), t, s, bodyStats, bodyLast, dd.cells, false)
      {
        ConvertAllStep(doc.cells, j, Fonts(), t, s, bodyStats, bodyLast, dd.cells, false);
        var q;
        q, stats := ProcessParagraph(doc.cells[j], t, s, stats, dd.cells(j), false);
        cells := cells + [q];
        j := j + 1;
      }
      assert doc.cells[..j] == doc.cells;
      paragraphs := body + cells;
    }
  }
}
