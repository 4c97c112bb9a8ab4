# word-font-randomizer: a model of the character randomiser

This project models the core of word-font-randomizer in Dafny. The tool rewrites a
Word document so that it looks handwritten. Each character of every
non-blank run gets a run of its own, with:

- a font chosen at random among the loaded fonts that cover it;
- a font size jittered around the size of its run;
- a vertical position walk;
- optionally, a slight tilt from a handwriting simulator.

Paragraphs may also get a random line spacing and a random number of
leading spaces. Counters record what was done.

The model covers these pieces of the code:

- `HandwritingSimulator` (module `Handwriting`), modelled exactly as written.
- The application's `FontManager` (module `EnhancedFonts`).
- The packaged `FontManager` of `src/font_manager.py` (module `PackagedFonts`).
  Its directory scan is shared with the application's copy through `FontCatalog`.
- `LineSpacingManager` (module `LineSpacing`).
- The slider-derived parameters (module `Strength`).
- The size and position walks and the half-point conversion (module `Jitter`).
- The conversion of a whole document, body then table cells (module `Conversion`).

Randomness is handled the same way throughout. Python's `random` is replaced by
the values it would have produced, passed in by the caller (module `Draws`):

- A `random()` draw is a real `u` with `0 <= u < 1`.
- `uniform(a, b)` is `a + (b - a) * u`, so an inverted interval still yields a
  value between its ends.
- `choice` picks index `floor(u * n)`.
- `randint(a, b)` is an integer the caller promises lies in `[a, b]`.
- `shuffle` is any rearrangement, that is, a list with the same multiset.

Each loop or in-place update of the source is a method. Each method is proved
equal to a specification function, and the properties are proved about those
functions. For example:

- `Converter.ProcessParagraph` equals `ConvertParagraph`.
- `Converter.ConvertDocument` equals `ConvertDocumentOf`.
- `HandwritingSimulator.GetCharTilt` equals `NextTilt`.

Points where the code and its comments disagree:

- **`current_tilt` never changes.** The eased tilt goes to a local variable
  (line 40), and `_start_new_trend` assigns `current_tilt` to itself (line 76).
  So `current_tilt` stays 0. The branch that keeps the current direction
  (line 62) needs a tilt of at least 0.5, so it never runs, and neither does
  the "return to baseline" branch (lines 69-73). The model keeps this behaviour, and
  `CorrectionUnreachable` and `RunKeepsTiltAtZero` prove its consequences.
- **Progress follows the code.** It is `min(1, duration / 15)` as in line 39.
  So a trend of 15 or more characters starts at its target, and every trend
  eases back toward `current_tilt` as its remaining duration runs down; a
  shorter trend starts part of the way to its target. `NextTilt` states the
  angle: between `current_tilt` and the target, equal to the target while 15
  or more characters remain, plus a tremor of at most 0.2 degrees.
- **The line-spacing minimum follows the code.** The comment at line 643 gives
  the range 0.8 to 0.5, but the code yields 0.8 down to 0.4.
- **The tilt multiplier follows the code.** The comment at line 639 gives
  1.0-2.0, but the code yields 0.8 to 2.0.
- **The position walk follows the code.** The docstring at line 879 gives
  positions from -2 to 2 points with steps of at most 1 point, but lines
  883-888 draw from -2.5 to 2.5 with steps of at most 0.5.

## Model

| member | source | states |
|---|---|---|
| Draws.Uniform | src/enhanced_font_randomizer.py:177 | `random.uniform(a, b)` lies between `a` and `b` (in `[a, b]` when `a <= b`, below `b` when `a < b`) |
| Draws.ChoiceIndex | src/font_manager.py:85 | the index `random.choice` picks is within the list |
| Draws.Trunc | src/enhanced_font_randomizer.py:906 | Python's `int()` truncates toward zero: the result has the sign of the input and lies less than 1 closer to zero |
| Handwriting.StartsNewTrend | src/enhanced_font_randomizer.py:31-33 | a new trend always starts after 20 characters or when the trend has run out, and never before 10 characters of a running trend |
| Handwriting.TrendDirection | src/enhanced_font_randomizer.py:58-62 | the direction is -1 or 1, and when it is not drawn at random it follows the sign of the current tilt |
| Handwriting.NewTrend | src/enhanced_font_randomizer.py:51-76 | the count restarts at 0 and the tilt is kept; either a trend of 8-25 characters toward a target of 0.8-1.5 degrees in the chosen direction, or (only when the tilt is not 0) a correction of 3-8 characters toward 0 |
| Handwriting.EaseInOut | src/enhanced_font_randomizer.py:78-84 | the eased value lies between start and end, is the start at `t <= 0` and the end at `t >= 1` |
| Handwriting.SmoothStepInUnit | src/enhanced_font_randomizer.py:84 | the cubic easing weight of a clamped position lies in `[0, 1]` |
| Handwriting.Progress | src/enhanced_font_randomizer.py:39 | the progress is in `(0, 1]` for a trend of at least one character, and 1 from 15 characters on |
| Handwriting.BeforeEase | src/enhanced_font_randomizer.py:31-36 | after the new-trend check the trend has at least one character left, the tilt is kept and the target stays within 1.5 degrees |
| Handwriting.NextTilt | src/enhanced_font_randomizer.py:25-49 | one call keeps the tilt; after a new trend the count is 1, the target is the new one, and the duration is one less than the new trend's (2-24 characters remain), else the count grows by one, the duration shrinks by one and the target and direction are kept; the angle lies between `current_tilt` and the target (the target itself from 15 remaining characters on), plus a tremor within 0.2 |
| Handwriting.ProgressInUnitInterval | src/enhanced_font_randomizer.py:31-39 | every call eases with a progress in `(0, 1]` |
| Handwriting.CorrectionUnreachable | src/enhanced_font_randomizer.py:58-73 | with the tilt at 0, a new trend takes the randomly picked direction, the drawn duration and a target of the drawn magnitude in that direction: the correction branch never runs |
| Handwriting.NextTiltKeepsReachable | src/enhanced_font_randomizer.py:25-76 | from a reachable state one call stays reachable and returns an angle within 1.7 degrees |
| Handwriting.RunKeepsTiltAtZero | src/enhanced_font_randomizer.py:25-76 | over any number of calls `current_tilt` stays 0 and every returned angle is within 1.7 degrees |
| Handwriting.FreshIsReachable | src/enhanced_font_randomizer.py:18-23 | a new simulator is in a reachable state |
| Handwriting.HandwritingSimulator.constructor | src/enhanced_font_randomizer.py:18-23 | all five fields start at 0 |
| Handwriting.HandwritingSimulator.GetCharTilt | src/enhanced_font_randomizer.py:25-49 | the new fields and the returned angle are those of `NextTilt` on the old fields: an eased point between `current_tilt` and the target plus a tremor within 0.2 |
| Handwriting.HandwritingSimulator.StartNewTrend | src/enhanced_font_randomizer.py:51-76 | the new fields are those of `NewTrend` on the old fields |
| FontCatalog.Files | src/enhanced_font_randomizer.py:119 | the loaded paths are at most as many as the scanned ones, each a path that parsed |
| FontCatalog.NamesAreOrderedKeys | src/enhanced_font_randomizer.py:114 | the dict order lists every cached font name exactly once |
| FontCatalog.CacheEntriesFromFiles | src/enhanced_font_randomizer.py:106-119 | every cache entry is a loaded file whose derived name is its key |
| FontCatalog.DistinctCardinality | src/enhanced_font_randomizer.py:155 | a list without repeats is as long as the set of its elements |
| FontCatalog.CacheNoLargerThanFiles | src/enhanced_font_randomizer.py:114-126 | the cache never has more entries than files were loaded |
| FontCatalog.LaterEntryWins | src/enhanced_font_randomizer.py:101-119 | a name is cached exactly when some file of that name parsed, and its entry is the last such file in scan order (`.otf` after `.ttf`) |
| FontCatalog.LoadStep | src/enhanced_font_randomizer.py:103-124 | a file that fails to parse changes nothing; one that parses appends its path and sets only its own entry |
| EnhancedFonts.FirstSupporting | src/enhanced_font_randomizer.py:140-145 | a chosen name is in the order, cached, and its font holds the code point |
| EnhancedFonts.FirstSupportingIsFirst | src/enhanced_font_randomizer.py:140-145 | no font is chosen exactly when none in the order holds the code point; a chosen one precedes every other that does |
| EnhancedFonts.ShuffledNamesCached | src/enhanced_font_randomizer.py:136-137 | a shuffle of the dict keys holds exactly the cached names |
| EnhancedFonts.ShuffledChoice | src/enhanced_font_randomizer.py:133-145 | over a shuffle of the keys, no font is chosen exactly when no cached font holds the code point, and a chosen font comes first among those that do |
| EnhancedFonts.FontManager.constructor | src/enhanced_font_randomizer.py:89-93 | the manager keeps its directory and holds what `load_fonts` loads |
| EnhancedFonts.FontManager.LoadFonts | src/enhanced_font_randomizer.py:95-126 | the lists are emptied and refilled from the scan (left empty for a missing directory); returns the number of loaded files, at least the number of cached fonts |
| EnhancedFonts.FontManager.GetFontForChar | src/enhanced_font_randomizer.py:128-145 | returns the first font of the shuffled order that covers the character; `None` exactly when no cached font covers it |
| EnhancedFonts.FontManager.GetRandomFontName | src/enhanced_font_randomizer.py:147-151 | `None` exactly when no font is loaded, else a cached name |
| EnhancedFonts.FontManager.GetFontCount | src/enhanced_font_randomizer.py:153-155 | the count equals the number of names `get_font_names` lists |
| EnhancedFonts.FontManager.GetFontNames | src/enhanced_font_randomizer.py:157-159 | every cached name, once each |
| PackagedFonts.Supporting | src/font_manager.py:78-81 | the collected fonts are exactly the listed, cached fonts that hold the code point |
| PackagedFonts.FontManager.constructor | src/font_manager.py:12-16 | the manager keeps its directory and holds what `load_fonts` loads |
| PackagedFonts.FontManager.LoadFonts | src/font_manager.py:18-60 | a missing directory leaves everything empty and returns 0; otherwise the scan's files, cache and names, and the count of loaded files |
| PackagedFonts.FontManager.GetFontForChar | src/font_manager.py:62-88 | `None` exactly when no cached font covers the character; otherwise the `random.choice` among exactly the supporting fonts, one for which `is_char_supported` holds |
| PackagedFonts.FontManager.GetRandomFontName | src/font_manager.py:90-99 | `None` exactly when no font is loaded, else a cached name |
| PackagedFonts.FontManager.GetFontCount | src/font_manager.py:101-103 | the count equals the number of names `get_font_names` lists |
| PackagedFonts.FontManager.GetFontNames | src/font_manager.py:105-107 | every cached name, once each |
| PackagedFonts.FontManager.GetFontInfo | src/font_manager.py:109-119 | a record exactly for a cached name: the stored one, whose path was loaded |
| PackagedFonts.FontManager.IsCharSupported | src/font_manager.py:121-137 | holds exactly for the fonts `get_font_for_char` chooses among: cached fonts that hold the code point |
| LineSpacing.LineSpacingManager.constructor | src/enhanced_font_randomizer.py:164-165 | the cache starts empty |
| LineSpacing.LineSpacingManager.GetRandomLineSpacing | src/enhanced_font_randomizer.py:167-179 | a known line gets its remembered spacing and nothing changes; a new one gets a fresh draw in `[0.8, 1.2]`, remembered under that line alone |
| LineSpacing.RepeatedLineSpacing | src/enhanced_font_randomizer.py:167-179 | asking twice for the same line gives the first draw both times |
| Strength.MaxTiltMultiplier | src/enhanced_font_randomizer.py:638-639 | the multiplier lies in `[0.8, 2.0]` for a slider in 1..5 |
| Strength.CharSizeRange | src/enhanced_font_randomizer.py:642 | the size range lies in `[0.6, 1.8]` |
| Strength.LineSpacingMin | src/enhanced_font_randomizer.py:643 | the lower spacing bound lies in `[0.4, 0.8]` |
| Strength.LineSpacingMax | src/enhanced_font_randomizer.py:644 | the upper spacing bound lies in `[1.2, 1.6]` |
| Strength.IndentMax | src/enhanced_font_randomizer.py:647-649 | the most spaces is `strength + 1`, capped at 5, and above the minimum of 1 |
| Strength.StrongerSliderWidens | src/enhanced_font_randomizer.py:637-649 | a stronger slider tilts more, widens the size range and the spacing interval on both sides, and never lowers the indentation cap |
| Strength.SettingsFor | src/enhanced_font_randomizer.py:637-649 | the four sliders give settings within the ranges above |
| Strength.ValidSettingsIntervals | src/enhanced_font_randomizer.py:643-649 | the spacing interval contains single spacing and `randint(1, indent_max)` always has a choice |
| Jitter.CharSize | src/enhanced_font_randomizer.py:860-874 | every size lies between the bounds of its interval, crossed or not; when the interval is not empty (`max(6, base - range) <= base + range` for a first size), the size is at least 6pt and within the range of the base, and a later one also within 0.5pt of the previous |
| Jitter.SizeRunStaysAdjacent | src/enhanced_font_randomizer.py:860-874 | along characters of one base size with `base + range >= 6`, every size is at least 6pt, within the range of the base, and within 0.5pt of its neighbour |
| Jitter.SizeFits | src/enhanced_font_randomizer.py:870-874 | from a size within the base's interval, the next size is adjacent and within it |
| Jitter.SizeStepBreaksAcrossRuns | src/enhanced_font_randomizer.py:872-874 | when a run of a much smaller base follows, the next size falls more than 0.5pt below the previous one |
| Jitter.NextPosition | src/enhanced_font_randomizer.py:876-891 | a position lies in `[-2.5, 2.5]` and, after another, within 0.5 of it |
| Jitter.PositionRunBounded | src/enhanced_font_randomizer.py:876-891 | every position of a paragraph lies in `[-2.5, 2.5]` and within 0.5 of the one before |
| Jitter.HalfPoints | src/enhanced_font_randomizer.py:893-937 | no value is written exactly for an offset below 0.1 in magnitude; otherwise the truncated double of the offset, with its sign |
| Jitter.PositionHalfPointsBounded | src/enhanced_font_randomizer.py:896-906 | a walk position is written as at most 5 half-points |
| Conversion.Spaces | src/enhanced_font_randomizer.py:683 | the indentation string is exactly the requested number of spaces |
| Conversion.PrepareEffect | src/enhanced_font_randomizer.py:668-689 | for non-blank text, spacing is drawn from the interval and the indentation spaces go in front of the text, each with its counter; otherwise runs, spacing and counters are unchanged |
| Conversion.IndentedText | src/enhanced_font_randomizer.py:680-688 | indentation puts the spaces in front of the text, into the first run or a new run |
| Conversion.ClearedText | src/enhanced_font_randomizer.py:696-706 | the text left in the emptied runs is that of the whitespace-only runs |
| Conversion.PendingSpellsNonBlankRuns | src/enhanced_font_randomizer.py:696-713 | the characters given runs of their own spell the non-blank runs in order |
| Conversion.NewRunsStep | src/enhanced_font_randomizer.py:709-750 | one more character appends the run one loop pass makes from the state the characters before it left |
| Conversion.EmitIsNewRuns | src/enhanced_font_randomizer.py:709-750 | the loop pass repeated over a paragraph's characters yields the font, size, tilt and position walks side by side |
| Conversion.NewRunsSpellChars | src/enhanced_font_randomizer.py:709-726 | each new run holds one character in order with the format of its run |
| Conversion.NewRunsFonts | src/enhanced_font_randomizer.py:711-721 | a new run carries a font exactly when some loaded font covers its character, and then the first covering one of its shuffle |
| Conversion.TiltElementsBounded | src/enhanced_font_randomizer.py:740-744 | a tilt within 1.7 degrees, scaled by the multiplier, is written as at most one value of at most 6 half-points |
| Conversion.NewRunsPositions | src/enhanced_font_randomizer.py:739-748 | each new run carries at most two position values within 6 half-points, only the walk's without the effect; positions form a bounded walk; the simulator stays reachable |
| Conversion.OffsetsBounded | src/enhanced_font_randomizer.py:740-748 | a tilt and a position together write at most two values within 6 half-points |
| Conversion.SizesOfOneBase | src/enhanced_font_randomizer.py:728-732 | with random sizes on, characters of one base size get the sizes of the size walk |
| Conversion.SizesOfOneBaseAdjacent | src/enhanced_font_randomizer.py:728-732 | when `base + range >= 6`, such sizes are at least 6pt, within the base's range and within 0.5pt of their neighbours |
| Conversion.SizesKept | src/enhanced_font_randomizer.py:734-737 | with random sizes off, each new run keeps its run's size when that is set |
| Conversion.StatsAfterCounts | src/enhanced_font_randomizer.py:715-750 | each character is counted once, with or without a font, resized only with random sizes on; other counters untouched; balance is kept |
| Conversion.UsedFontsAfter | src/enhanced_font_randomizer.py:715-719 | the used fonts are those used before plus those found for the characters |
| Conversion.ConvertParagraphRuns | src/enhanced_font_randomizer.py:661-750 | a converted paragraph keeps its runs in place, non-blank ones emptied, followed by one run per character of those; its text is the blank runs' then the others' |
| Conversion.ConvertParagraphStats | src/enhanced_font_randomizer.py:661-753 | the counters stay balanced, gain one per character, keep every used font, and only a body paragraph with the effect on adds to the trend counter, by at most 25 |
| Conversion.ConvertAllStep | src/enhanced_font_randomizer.py:661-666 | one more paragraph is converted with the counters and position the ones before it left |
| Conversion.ConvertAllStats | src/enhanced_font_randomizer.py:661-847 | paragraph by paragraph the counters stay balanced, never lose a font, and cell paragraphs leave the trend counter alone |
| Conversion.ConvertDocumentStats | src/enhanced_font_randomizer.py:619-851 | a document yields one paragraph per input paragraph, balanced counters, and trends from the body only, none without the effect |
| Conversion.BodyTrendsNeedEffect | src/enhanced_font_randomizer.py:740-753 | without the handwriting effect the trend counter stays where it was |
| Conversion.Converter.constructor | src/enhanced_font_randomizer.py:692-693 | the converter holds its font manager and no remembered position |
| Conversion.Converter.GetRandomCharPosition | src/enhanced_font_randomizer.py:876-891 | returns the next position of the walk and remembers it |
| Conversion.Converter.Tally | src/enhanced_font_randomizer.py:715-750 | the counters after one character |
| Conversion.Converter.ResizeChar | src/enhanced_font_randomizer.py:728-737 | the new run's size and the size carried on are those of the size step |
| Conversion.Converter.TiltChar | src/enhanced_font_randomizer.py:739-744 | with the effect on the simulator takes one step and its scaled angle is written; off, nothing moves |
| Conversion.Converter.ProcessChar | src/enhanced_font_randomizer.py:709-750 | the new run, carried size, remembered position, simulator and counters are those of one loop pass |
| Conversion.Converter.PrepareParagraph | src/enhanced_font_randomizer.py:668-689 | spacing and indentation as `Prepare` states |
| Conversion.Converter.EmitChar | src/enhanced_font_randomizer.py:709-750 | one loop pass extends the runs and state by one character |
| Conversion.Converter.SplitRun | src/enhanced_font_randomizer.py:697-750 | the characters of one non-blank run extend the runs and state as the loop over them does |
| Conversion.Converter.SplitRuns | src/enhanced_font_randomizer.py:695-750 | non-blank runs are emptied in place and the runs of their characters appended, from a fresh start |
| Conversion.Converter.ProcessParagraph | src/enhanced_font_randomizer.py:661-753 | the paragraph, counters and remembered position are those of `ConvertParagraph` |
| Conversion.Converter.ConvertDocument | src/enhanced_font_randomizer.py:619-851 | the paragraphs, counters and remembered position are those of `ConvertDocumentOf` for the settings of the four sliders |

## Left out

- The tkinter window, its dialogs, logging (`self.log`) and the worker thread are not modelled. Nor is the check at line 603 that refuses to start with fewer than two font files, since it belongs to the UI.
- Opening and saving the `.docx` file is not modelled, and neither is the XML of python-docx. A document is the list of its body paragraphs followed by its cell paragraphs. A paragraph is its runs, its text outside runs (hyperlinks) and its line spacing.
- Table structure is flattened: rows, cells, merged cells (which python-docx lists more than once) and nested tables are reduced to the order in which the cell loops visit paragraphs.
- Setting the east-Asian font attribute (lines 717 and 815) is folded into the single `font` of a run.
- fontTools, `glob`, `os.path.exists` and `os.path.basename` are parameters of the model:
  - the scan is a list of parse results, `.ttf` paths before `.otf` paths;
  - the name of a font is a function of its path;
  - a missing directory is a boolean.
  The font object kept in the cache is not modelled.
- Random draws are supplied per character, by the index of the character within its paragraph. The model does not fix the order in which Python's single random stream is consumed across the draws of one character.
- Floating point is modelled as exact reals. `Pt` conversion and python-docx `Length` rounding are not modelled.
- `open_font_folder`, `setup.py` and `src/__init__.py` are not part of this model.
- The `LineSpacingManager` created by `convert_document` is modelled, but the conversion never asks it. Nothing else in the conversion uses it either.
- `enable_fine_line_spacing` is never read by the conversion, so it has no counterpart.
- Conversion.Converter.ConvertDocument: models the stats returned on success, not the exception path (lines 855-858). No failure is modelled in the operations it covers.
