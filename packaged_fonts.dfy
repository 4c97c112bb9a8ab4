/** The packaged `FontManager` (src/font_manager.py:6-137). It differs from
    the application's copy in three ways: `load_fonts` returns 0 at once for
    a missing directory and otherwise counts loaded files itself,
    `get_font_for_char` collects every supporting font and picks one, and
    two more queries (`get_font_info`, `is_char_supported`) exist. */
module PackagedFonts {
  import opened Draws
  import opened FontCatalog

  /** The supporting fonts in `names` order: those whose character set holds
      `code`. */
  function Supporting(names: seq<string>, cache: map<string, FontInfo>, code: int): (r: seq<string>)
    ensures |r| <= |names|
    ensures forall n :: n in r <==> n in names && n in cache && code in cache[n].chars
    decreases |names|
  {
    if names == [] then []
    else
      var last := names[|names| - 1];
      var before := Supporting(names[..|names| - 1], cache, code);
      assert forall n :: n in names <==> n in names[..|names| - 1] || n == last;
      if last in cache && code in cache[last].chars then before + [last] else before
  }

  class FontManager {
    const fontsDir: string
    var fontFiles: seq<string>
    var fontCache: map<string, FontInfo>
    /** The key order of the `font_cache` dict. */
    var fontNames: seq<string>

    ghost predicate Valid()
      reads this
    {
      OrderedKeys(fontNames, fontCache) && PathsLoaded(fontFiles, fontCache)
    }

    constructor (fontsDir: string, dirExists: bool, parses: seq<ParseResult>, nameOf: string -> string)
      ensures this.fontsDir == fontsDir
      ensures Valid()
      ensures fontFiles == (if dirExists then Files(parses) else [])
      ensures fontCache == (if dirExists then Cache(parses, nameOf) else map[])
      ensures fontNames == (if dirExists then Names(parses, nameOf) else [])
    {
      this.fontsDir := fontsDir;
      fontFiles := [];
      fontCache := map[];
      fontNames := [];
      new;
      var count := LoadFonts(dirExists, parses, nameOf);
    }

    /** `load_fonts`: a missing directory leaves both structures empty and
        returns 0; otherwise every font that parses is added and counted. */
    method LoadFonts(dirExists: bool, parses: seq<ParseResult>, nameOf: string -> string) returns (loadedCount: int)
      modifies this
      ensures Valid()
      ensures !dirExists ==> fontFiles == [] && fontCache == map[] && fontNames == [] && loadedCount == 0
      ensures dirExists ==>
        && fontFiles == Files(parses)
        && fontCache == Cache(parses, nameOf)
        && fontNames == Names(parses, nameOf)
      ensures loadedCount == |fontFiles| && loadedCount >= |fontCache|
    {
      fontFiles := [];
      fontCache := map[];
      fontNames := [];
      if !dirExists {
        return 0;
      }
      loadedCount := 0;
      var i := 0;
      while i < |parses|
        invariant 0 <= i <= |parses|
        invariant fontFiles == Files(parses[..i])
        invariant fontCache == Cache(parses[..i], nameOf)
        invariant fontNames == Names(parses[..i], nameOf)
        invariant loadedCount == |fontFiles|
      {
        var parse := parses[i];
        assert parses[..i + 1][..i] == parses[..i];
        match parse.chars {
          case Some(chars) =>
            var fontName := nameOf(parse.path);
            if fontName !in fontNames {
              fontNames := fontNames + [fontName];
            }
            fontCache := fontCache[fontName := FontInfo(parse.path, chars)];
            fontFiles := fontFiles + [parse.path];
            loadedCount := loadedCount + 1;
          case None =>
        }
        i := i + 1;
      }
      assert parses[..|parses|] == parses;
      NamesAreOrderedKeys(parses, nameOf);
      CacheEntriesFromFiles(parses, nameOf);
      CacheNoLargerThanFiles(parses, nameOf);
    }

    /** The fonts `get_font_for_char` chooses among. */
    function SupportingFonts(c: char): seq<string>
      reads this
    {
      Supporting(fontNames, fontCache, c as int)
    }

    /** `get_font_for_char`: a font picked by `random.choice` among exactly
        the fonts that support the character, or `None` when there is none. */
    method GetFontForChar(c: char, u: real) returns (r: Option<string>)
      requires Valid() && IsUnit(u)
      ensures r.None? <==> forall n :: n in fontCache ==> c as int !in fontCache[n].chars
      ensures r.Some? ==> r.value in SupportingFonts(c)
      ensures r.Some? ==> r.value == SupportingFonts(c)[ChoiceIndex(|SupportingFonts(c)|, u)]
      ensures r.Some? ==> IsCharSupported(r.value, c)
    {
      if fontCache == map[] {
        return None;
      }
      var charCode := c as int;
      var supportedFonts := [];
      var i := 0;
      while i < |fontNames|
        invariant 0 <= i <= |fontNames|
        invariant supportedFonts == Supporting(fontNames[..i], fontCache, charCode)
      {
        var fontName := fontNames[i];
        assert fontNames[..i + 1][..i] == fontNames[..i];
        if charCode in fontCache[fontName].chars {
          supportedFonts := supportedFonts + [fontName];
        }
        i := i + 1;
      }
      assert fontNames[..|fontNames|] == fontNames;
      assert forall n :: n in supportedFonts <==> n in fontCache && charCode in fontCache[n].chars;
      if |supportedFonts| > 0 {
        r := Some(supportedFonts[ChoiceIndex(|supportedFonts|, u)]);
        assert r.value in supportedFonts;
      } else {
        r := None;
      }
    }

    /** `get_random_font_name`. */
    function GetRandomFontName(u: real): (r: Option<string>)
      reads this
      requires Valid() && IsUnit(u)
      ensures r.None? <==> fontCache == map[]
      ensures r.Some? ==> r.value in fontCache
    {
      if fontCache == map[] then None
      else
        var k :| k in fontCache;
        assert k in fontNames;
        Some(fontNames[ChoiceIndex(|fontNames|, u)])
    }

    /** `get_font_count`: as many fonts as `get_font_names` lists. */
    function GetFontCount(): (n: nat)
      reads this
      requires Valid()
      ensures n == |GetFontNames()|
    {
      DistinctCardinality(fontNames, fontCache.Keys);
      |fontCache|
    }

    /** `get_font_names`: every cached name once, in dict order. */
    function GetFontNames(): (names: seq<string>)
      reads this
      requires Valid()
      ensures Distinct(names)
      ensures forall n :: n in names <==> n in fontCache
    {
      fontNames
    }

    /** `get_font_info`: the stored record of a loaded font, or `None`. */
    function GetFontInfo(fontName: string): (r: Option<FontInfo>)
      reads this
      requires Valid()
      ensures r.Some? <==> fontName in fontCache
      ensures r.Some? ==> r.value == fontCache[fontName] && r.value.path in fontFiles
    {
      if fontName in fontCache then Some(fontCache[fontName]) else None
    }

    /** `is_char_supported`: holds exactly for the fonts among which
        `get_font_for_char` chooses. */
    function IsCharSupported(fontName: string, c: char): (b: bool)
      reads this
      requires Valid()
      ensures b <==> fontName in SupportingFonts(c)
      ensures !b <==> fontName !in fontCache || c as int !in fontCache[fontName].chars
    {
      match GetFontInfo(fontName)
      case None => false
      case Some(info) => c as int in info.chars
    }
  }
}
