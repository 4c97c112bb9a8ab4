/** What `load_fonts` builds, in both copies of `FontManager`
    (src/enhanced_font_randomizer.py:95-126 and src/font_manager.py:18-60),
    as a fold over the results of parsing the font files.

    The directory scan yields the `*.ttf` paths followed by the `*.otf` paths;
    each path is parsed by fontTools, which either fails or yields the set of
    code points in the font's cmap tables. A font's name is derived from its
    path (base name without extension) by `nameOf`, so `a.ttf` and `a.otf`
    share a name and the later entry overwrites the earlier one. The cache is
    a Python dict: `Names` gives its keys in insertion order, which a key
    keeps when its entry is overwritten. */
module FontCatalog {
  import opened Draws

  /** The outcome of parsing one font file: `None` when `TTFont` raised. */
  datatype ParseResult = ParseResult(path: string, chars: Option<set<int>>)

  /** A cache entry: the font's path and its supported code points. */
  datatype FontInfo = FontInfo(path: string, chars: set<int>)

  predicate Parsed(p: ParseResult) {
    p.chars.Some?
  }

  /** `font_files` after a scan: the paths that parsed, in scan order. */
  function Files(parses: seq<ParseResult>): (files: seq<string>)
    ensures |files| <= |parses|
    ensures forall f :: f in files ==> exists i :: 0 <= i < |parses| && parses[i].path == f && Parsed(parses[i])
    decreases |parses|
  {
    if parses == [] then []
    else
      var last := parses[|parses| - 1];
      var before := Files(parses[..|parses| - 1]);
      if Parsed(last) then before + [last.path] else before
  }

  /** `font_cache` after a scan. */
  function Cache(parses: seq<ParseResult>, nameOf: string -> string): map<string, FontInfo>
    decreases |parses|
  {
    if parses == [] then map[]
    else
      var last := parses[|parses| - 1];
      var before := Cache(parses[..|parses| - 1], nameOf);
      if Parsed(last) then before[nameOf(last.path) := FontInfo(last.path, last.chars.value)]
      else before
  }

  /** The keys of `font_cache` after a scan, in dict order. */
  function Names(parses: seq<ParseResult>, nameOf: string -> string): seq<string>
    decreases |parses|
  {
    if parses == [] then []
    else
      var last := parses[|parses| - 1];
      var before := Names(parses[..|parses| - 1], nameOf);
      if Parsed(last) && nameOf(last.path) !in before then before + [nameOf(last.path)]
      else before
  }

  predicate Distinct(s: seq<string>) {
    forall i, j :: 0 <= i < j < |s| ==> s[i] != s[j]
  }

  /** The dict order lists every key of the cache exactly once. */
  ghost predicate OrderedKeys(names: seq<string>, cache: map<string, FontInfo>) {
    Distinct(names) && (forall n :: n in names <==> n in cache)
  }

  /** Every cache entry comes from a loaded file. */
  ghost predicate PathsLoaded(files: seq<string>, cache: map<string, FontInfo>) {
    forall n :: n in cache ==> cache[n].path in files
  }

  /** Every cache entry comes from a loaded file whose name is its key. */
  ghost predicate EntriesFromFiles(files: seq<string>, cache: map<string, FontInfo>, nameOf: string -> string) {
    PathsLoaded(files, cache) && forall n :: n in cache ==> nameOf(cache[n].path) == n
  }

  lemma {:induction false} NamesAreOrderedKeys(parses: seq<ParseResult>, nameOf: string -> string)
    ensures OrderedKeys(Names(parses, nameOf), Cache(parses, nameOf))
    decreases |parses|
  {
    if parses != [] {
      NamesAreOrderedKeys(parses[..|parses| - 1], nameOf);
    }
  }

  lemma {:induction false} CacheEntriesFromFiles(parses: seq<ParseResult>, nameOf: string -> string)
    ensures EntriesFromFiles(Files(parses), Cache(parses, nameOf), nameOf)
    decreases |parses|
  {
    if parses != [] {
      CacheEntriesFromFiles(parses[..|parses| - 1], nameOf);
    }
  }

  /** A list without repeats is as long as the set of its elements. */
  lemma {:induction false} DistinctCardinality(s: seq<string>, keys: set<string>)
    requires Distinct(s)
    requires forall x :: x in s <==> x in keys
    ensures |s| == |keys|
    decreases |s|
  {
    if s != [] {
      var x := s[|s| - 1];
      var rest := s[..|s| - 1];
      assert forall y :: y in rest <==> y in keys - {x} by {
        forall y
          ensures y in rest <==> y in keys - {x}
        {
          if y in rest {
            var i :| 0 <= i < |rest| && rest[i] == y;
            assert s[i] == y && i < |s| - 1;
          }
        }
      }
      DistinctCardinality(rest, keys - {x});
    }
  }

  /** The cache never has more entries than the scan loaded files: names
      that collide share one entry. */
  lemma {:induction false} CacheNoLargerThanFiles(parses: seq<ParseResult>, nameOf: string -> string)
    ensures |Cache(parses, nameOf)| <= |Files(parses)|
    decreases |parses|
  {
    if parses != [] {
      var before := parses[..|parses| - 1];
      CacheNoLargerThanFiles(before, nameOf);
      var last := parses[|parses| - 1];
      if Parsed(last) {
        var c := Cache(before, nameOf);
        var k := nameOf(last.path);
        assert c[k := FontInfo(last.path, last.chars.value)].Keys == c.Keys + {k};
      }
    }
  }

  /** The entry under a name comes from the LAST file that parsed under
      that name: a later `.otf` overrides a `.ttf` of the same stem. */
  lemma {:induction false} LaterEntryWins(parses: seq<ParseResult>, nameOf: string -> string, n: string)
    ensures n in Cache(parses, nameOf) <==>
      exists i :: 0 <= i < |parses| && Parsed(parses[i]) && nameOf(parses[i].path) == n
    ensures n in Cache(parses, nameOf) ==>
      exists i :: && 0 <= i < |parses| && Parsed(parses[i]) && nameOf(parses[i].path) == n
                  && Cache(parses, nameOf)[n] == FontInfo(parses[i].path, parses[i].chars.value)
                  && forall j :: i < j < |parses| && Parsed(parses[j]) ==> nameOf(parses[j].path) != n
    decreases |parses|
  {
    if parses != [] {
      var before := parses[..|parses| - 1];
      var last := parses[|parses| - 1];
      LaterEntryWins(before, nameOf, n);
      if Parsed(last) && nameOf(last.path) == n {
        assert Cache(parses, nameOf)[n] == FontInfo(last.path, last.chars.value);
      } else {
        if exists i :: 0 <= i < |parses| && Parsed(parses[i]) && nameOf(parses[i].path) == n {
          var i :| 0 <= i < |parses| && Parsed(parses[i]) && nameOf(parses[i].path) == n;
          assert i < |parses| - 1 && before[i] == parses[i];
        }
        if n in Cache(parses, nameOf) {
          var i :| && 0 <= i < |before| && Parsed(before[i]) && nameOf(before[i].path) == n
                   && Cache(before, nameOf)[n] == FontInfo(before[i].path, before[i].chars.value)
                   && forall j :: i < j < |before| && Parsed(before[j]) ==> nameOf(before[j].path) != n;
          assert parses[i] == before[i];
          assert forall j :: i < j < |parses| && Parsed(parses[j]) ==> nameOf(parses[j].path) != n by {
            forall j | i < j < |parses| && Parsed(parses[j])
              ensures nameOf(parses[j].path) != n
            {
              if j < |before| {
                assert parses[j] == before[j];
              }
            }
          }
        }
      }
    }
  }

  /** One step of the scan: a file that fails to parse changes nothing; one
      that parses appends its path and sets exactly its own entry. */
  lemma LoadStep(parses: seq<ParseResult>, p: ParseResult, nameOf: string -> string)
    ensures !Parsed(p) ==>
      && Files(parses + [p]) == Files(parses)
      && Cache(parses + [p], nameOf) == Cache(parses, nameOf)
    ensures Parsed(p) ==>
      && Files(parses + [p]) == Files(parses) + [p.path]
      && Cache(parses + [p], nameOf) == Cache(parses, nameOf)[nameOf(p.path) := FontInfo(p.path, p.chars.value)]
  {
    assert (parses + [p])[..|parses|] == parses;
  }
}
