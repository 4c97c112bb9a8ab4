/** The `FontManager` that the application uses
    (src/enhanced_font_randomizer.py:86-159). */
module EnhancedFonts {
  import opened Draws
  import opened FontCatalog

  /** The first name in `order` whose cached font holds `code`. */
  function FirstSupporting(order: seq<string>, cache: map<string, FontInfo>, code: int): (r: Option<string>)
    ensures r.Some? ==> r.value in order && r.value in cache && code in cache[r.value].chars
    decreases |order|
  {
    if order == [] then None
    else if order[0] in cache && code in cache[order[0]].chars then Some(order[0])
    else FirstSupporting(order[1..], cache, code)
  }

  /** `name` occurs in `order` before every other name whose font holds
      `code`. */
  ghost predicate ChosenFirst(order: seq<string>, cache: map<string, FontInfo>, code: int, name: string) {
    exists i :: && 0 <= i < |order| && order[i] == name
                && forall j :: 0 <= j < i ==> !(order[j] in cache && code in cache[order[j]].chars)
  }

  /** A font in `order` is chosen exactly when one holds `code`, and the
      chosen one comes before every other that does. */
  lemma {:induction false} FirstSupportingIsFirst(order: seq<string>, cache: map<string, FontInfo>, code: int)
    ensures FirstSupporting(order, cache, code).None? <==>
      forall i :: 0 <= i < |order| ==> !(order[i] in cache && code in cache[order[i]].chars)
    ensures FirstSupporting(order, cache, code).Some? ==>
      ChosenFirst(order, cache, code, FirstSupporting(order, cache, code).value)
    decreases |order|
  {
    if order != [] && !(order[0] in cache && code in cache[order[0]].chars) {
      var rest := order[1..];
      FirstSupportingIsFirst(rest, cache, code);
      assert forall i :: 1 <= i < |order| ==> order[i] == rest[i - 1];
      var r := FirstSupporting(rest, cache, code);
      if r.Some? {
        var i :| && 0 <= i < |rest| && rest[i] == r.value
                 && forall j :: 0 <= j < i ==> !(rest[j] in cache && code in cache[rest[j]].chars);
        assert order[i + 1] == r.value;
      }
    }
  }

  /** A shuffle of the dict's keys holds exactly the cached names. */
  lemma ShuffledNamesCached(shuffled: seq<string>, names: seq<string>, cache: map<string, FontInfo>)
    requires OrderedKeys(names, cache) && IsShuffleOf(shuffled, names)
    ensures forall n :: n in shuffled <==> n in cache
  {
    forall n
      ensures n in shuffled <==> n in cache
    {
      assert n in shuffled <==> n in multiset(shuffled);
      assert n in names <==> n in multiset(names);
    }
  }

  /** Over a shuffle of the dict's keys, no font is chosen exactly when no
      cached font holds `code`, and a chosen font comes first. */
  lemma ShuffledChoice(shuffled: seq<string>, names: seq<string>, cache: map<string, FontInfo>, code: int)
    requires OrderedKeys(names, cache) && IsShuffleOf(shuffled, names)
    ensures forall n :: n in shuffled <==> n in cache
    ensures FirstSupporting(shuffled, cache, code).None? <==> forall n :: n in cache ==> code !in cache[n].chars
    ensures FirstSupporting(shuffled, cache, code).Some? ==>
      ChosenFirst(shuffled, cache, code, FirstSupporting(shuffled, cache, code).value)
  {
    ShuffledNamesCached(shuffled, names, cache);
    FirstSupportingIsFirst(shuffled, cache, code);
    if FirstSupporting(shuffled, cache, code).None? {
      forall n | n in cache
        ensures code !in cache[n].chars
      {
        var i :| 0 <= i < |shuffled| && shuffled[i] == n;
      }
    }
  }

  class FontManager {
    const fontsDir: string
    var fontFiles: seq<string>
    var fontCache: map<string, FontInfo>
    /** The key order of the `font_cache` dict. */
    var fontNames: seq<string>

    ghost predicate Valid()
      reads this
    {
      OrderedKeys(fontNames, fontCache) && PathsLoaded(fontFiles, fontCache)
    }

    /** `FontManager(fonts_dir)`: loads the fonts at once. `dirExists` stands
        for `os.path.exists(fonts_dir)` and `parses` for the scan. */
    constructor (fontsDir: string, dirExists: bool, parses: seq<ParseResult>, nameOf: string -> string)
      ensures this.fontsDir == fontsDir
      ensures Valid()
      ensures fontFiles == (if dirExists then Files(parses) else [])
      ensures fontCache == (if dirExists then Cache(parses, nameOf) else map[])
      ensures fontNames == (if dirExists then Names(parses, nameOf) else [])
    {
      this.fontsDir := fontsDir;
      fontFiles := [];
      fontCache := map[];
      fontNames := [];
      new;
      var count := LoadFonts(dirExists, parses, nameOf);
    }

    /** `load_fonts`: empties both structures, then adds every font that
        parses; returns the number of loaded files. */
    method LoadFonts(dirExists: bool, parses: seq<ParseResult>, nameOf: string -> string) returns (count: int)
      modifies this
      ensures Valid()
      ensures fontFiles == (if dirExists then Files(parses) else [])
      ensures fontCache == (if dirExists then Cache(parses, nameOf) else map[])
      ensures fontNames == (if dirExists then Names(parses, nameOf) else [])
      ensures count == |fontFiles| && count >= |fontCache|
    {
      fontFiles := [];
      fontCache := map[];
      fontNames := [];
      if dirExists {
        var i := 0;
        while i < |parses|
          invariant 0 <= i <= |parses|
          invariant fontFiles == Files(parses[..i])
          invariant fontCache == Cache(parses[..i], nameOf)
          invariant fontNames == Names(parses[..i], nameOf)
        {
          var parse := parses[i];
          assert parses[..i + 1][..i] == parses[..i];
          match parse.chars {
            case Some(chars) =>
              var fontName := nameOf(parse.path);
              if fontName !in fontNames {
                fontNames := fontNames + [fontName];
              }
              fontCache := fontCache[fontName := FontInfo(parse.path, chars)];
              fontFiles := fontFiles + [parse.path];
            case None =>
          }
          i := i + 1;
        }
        assert parses[..|parses|] == parses;
        NamesAreOrderedKeys(parses, nameOf);
        CacheEntriesFromFiles(parses, nameOf);
        CacheNoLargerThanFiles(parses, nameOf);
      }
      count := |fontFiles|;
    }

    /** `get_font_for_char`: the first font, in the order the names were
        shuffled into, whose character set holds the character's code point. */
    method GetFontForChar(c: char, shuffled: seq<string>) returns (r: Option<string>)
      requires Valid()
      requires IsShuffleOf(shuffled, fontNames)
      ensures r == FirstSupporting(shuffled, fontCache, c as int)
      ensures r.None? <==> forall n :: n in fontCache ==> c as int !in fontCache[n].chars
      ensures r.Some? ==> r.value in fontCache && c as int in fontCache[r.value].chars
      ensures r.Some? ==> ChosenFirst(shuffled, fontCache, c as int, r.value)
    {
      ShuffledChoice(shuffled, fontNames, fontCache, c as int);
      if fontCache == map[] {
        return None;
      }
      var charCode := c as int;
      var i := 0;
      while i < |shuffled|
        invariant 0 <= i <= |shuffled|
        invariant FirstSupporting(shuffled, fontCache, charCode) == FirstSupporting(shuffled[i..], fontCache, charCode)
      {
        var fontName := shuffled[i];
        assert shuffled[i..][0] == fontName && fontName in shuffled;
        if charCode in fontCache[fontName].chars {
          return Some(fontName);
        }
        assert shuffled[i..][1..] == shuffled[i + 1..];
        i := i + 1;
      }
      return None;
    }

    /** `get_random_font_name`. */
    function GetRandomFontName(u: real): (r: Option<string>)
      reads this
      requires Valid() && IsUnit(u)
      ensures r.None? <==> fontCache == map[]
      ensures r.Some? ==> r.value in fontCache
    {
      if fontCache == map[] then None
      else
        var k :| k in fontCache;
        assert k in fontNames;
        Some(fontNames[ChoiceIndex(|fontNames|, u)])
    }

    /** `get_font_count`: as many fonts as `get_font_names` lists. */
    function GetFontCount(): (n: nat)
      reads this
      requires Valid()
      ensures n == |GetFontNames()|
    {
      DistinctCardinality(fontNames, fontCache.Keys);
      |fontCache|
    }

    /** `get_font_names`: every cached name once, in dict order. */
    function GetFontNames(): (names: seq<string>)
      reads this
      requires Valid()
      ensures Distinct(names)
      ensures forall n :: n in names <==> n in fontCache
    {
      fontNames
    }
  }
}
