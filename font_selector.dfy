/**
 * The overlay font list (src/com/android/gamebar/GameBarFontSelectorActivity.kt and
 * FontItem.kt): the system default first, then every `.ttf`/`.otf` asset with a title-cased
 * display name, sorted by that name; the entry whose path is the stored preference is selected.
 */
module FontSelector {
  import opened Wrappers
  import opened Strings
  import opened Sorting

  /** `FontItem`. */
  datatype FontItem = FontItem(name: string, displayName: string, path: string, isSelected: bool)

  const DEFAULT_PATH: string := "default"

  /** The stored `game_bar_font_path`, with "default" when it is absent. */
  function CurrentFontPath(stored: Option<string>): string {
    stored.GetOr(DEFAULT_PATH)
  }

  function DefaultItem(currentPath: string): FontItem {
    FontItem("default", "System Default", DEFAULT_PATH, currentPath == DEFAULT_PATH)
  }

  /** The asset filter: a `.ttf` or `.otf` extension in any letter case. */
  predicate IsFontFile(fileName: string) {
    EndsWithIgnoreCase(fileName, ".ttf") || EndsWithIgnoreCase(fileName, ".otf")
  }

  /** `replaceFirstChar { it.uppercase() }` for ASCII letters. */
  function Capitalize(word: string): (r: string)
    ensures |r| == |word|
  {
    if word == [] then [] else [ToUpperAscii(word[0])] + word[1..]
  }

  function CapitalizeAll(words: seq<string>): (r: seq<string>)
    ensures |r| == |words|
  {
    if words == [] then [] else [Capitalize(words[0])] + CapitalizeAll(words[1..])
  }

  /**
   * The display name of an asset's base name: dashes and underscores become spaces, and each
   * space-separated word gets an upper-case first letter.
   */
  function DisplayName(baseName: string): string {
    var spaced := ReplaceChar(ReplaceChar(baseName, '-', ' '), '_', ' ');
    Join(CapitalizeAll(Split(spaced, ' ')), " ")
  }

  /**
   * The same title case, character by character: a character is upper-cased when it starts the
   * text (`atStart`) or follows a space.
   */
  function TitleCase(s: string, atStart: bool): (r: string)
    ensures |r| == |s|
    ensures |s| > 0 ==> r[0] == if atStart then ToUpperAscii(s[0]) else s[0]
    ensures forall i :: 0 < i < |s| ==> r[i] == if s[i - 1] == ' ' then ToUpperAscii(s[i]) else s[i]
  {
    if s == [] then []
    else
      var rest := TitleCase(s[1..], s[0] == ' ');
      [if atStart then ToUpperAscii(s[0]) else s[0]] + rest
  }

  /** Splitting on spaces, capitalising the words and joining them is the character-wise title case. */
  lemma {:induction false} CapitalizeWordsIsTitleCase(s: string, atStart: bool)
    ensures var words := Split(s, ' ');
      Join([if atStart then Capitalize(words[0]) else words[0]] + CapitalizeAll(words[1..]), " ")
        == TitleCase(s, atStart)
  {
    if s != [] {
      var words := Split(s, ' ');
      var rest := Split(s[1..], ' ');
      var first := if atStart then Capitalize(words[0]) else words[0];
      CapitalizeWordsIsTitleCase(s[1..], s[0] == ' ');
      if s[0] == ' ' {
        SpaceStep(s, atStart);
      } else {
        assert words == [[s[0]] + rest[0]] + rest[1..];
        var c := if atStart then ToUpperAscii(s[0]) else s[0];
        var others := CapitalizeAll(rest[1..]);
        assert first == [c] + rest[0];
        assert words[1..] == rest[1..];
        JoinExtendFirst([c], [rest[0]] + others, " ");
        assert ([rest[0]] + others)[1..] == others;
        assert TitleCase(s, atStart) == [c] + TitleCase(s[1..], false);
      }
    }
  }

  /** A leading space: the first word is empty and the rest is title-cased from its start. */
  lemma SpaceStep(s: string, atStart: bool)
    requires s != [] && s[0] == ' '
    requires var rest := Split(s[1..], ' ');
      Join([Capitalize(rest[0])] + CapitalizeAll(rest[1..]), " ") == TitleCase(s[1..], true)
    ensures var words := Split(s, ' ');
      Join([if atStart then Capitalize(words[0]) else words[0]] + CapitalizeAll(words[1..]), " ")
        == TitleCase(s, atStart)
  {
    var words := Split(s, ' ');
    var rest := Split(s[1..], ' ');
    assert words == [""] + rest;
    assert words[1..] == rest;
    var capRest := CapitalizeAll(rest);
    assert capRest == [Capitalize(rest[0])] + CapitalizeAll(rest[1..]);
    var first := if atStart then Capitalize(words[0]) else words[0];
    assert first == "";
    assert ([first] + capRest)[1..] == capRest;
    assert Join([first] + capRest, " ") == " " + Join(capRest, " ");
    assert TitleCase(s, atStart) == [' '] + TitleCase(s[1..], true);
  }

  /** The display name is the title case of the name with separators turned into spaces. */
  lemma DisplayNameIsTitleCase(baseName: string)
    ensures DisplayName(baseName) == TitleCase(ReplaceChar(ReplaceChar(baseName, '-', ' '), '_', ' '), true)
  {
    var spaced := ReplaceChar(ReplaceChar(baseName, '-', ' '), '_', ' ');
    var words := Split(spaced, ' ');
    CapitalizeWordsIsTitleCase(spaced, true);
    assert CapitalizeAll(words) == [Capitalize(words[0])] + CapitalizeAll(words[1..]);
  }

  /**
   * The display name keeps the base name's length, has no dash or underscore left, and
   * upper-cases exactly the first letter of the name and the letter after each separator.
   */
  lemma DisplayNameCharacters(baseName: string)
    ensures |DisplayName(baseName)| == |baseName|
    ensures '-' !in DisplayName(baseName) && '_' !in DisplayName(baseName)
    ensures forall i :: 0 <= i < |baseName| ==>
      var c := if baseName[i] == '-' || baseName[i] == '_' then ' ' else baseName[i];
      var afterSeparator := i > 0 && (baseName[i - 1] == ' ' || baseName[i - 1] == '-' || baseName[i - 1] == '_');
      DisplayName(baseName)[i] == if i == 0 || afterSeparator then ToUpperAscii(c) else c
  {
    var spaced := ReplaceChar(ReplaceChar(baseName, '-', ' '), '_', ' ');
    var d := DisplayName(baseName);
    DisplayNameIsTitleCase(baseName);
    var t := TitleCase(spaced, true);
    assert d == t;
    forall i | 0 <= i < |d| ensures d[i] != '-' && d[i] != '_' {
      var once := ReplaceChar(baseName, '-', ' ');
      assert once[i] != '-';
      assert spaced[i] != '-' && spaced[i] != '_';
      if i > 0 {
        assert t[i] == if spaced[i - 1] == ' ' then ToUpperAscii(spaced[i]) else spaced[i];
      }
    }
  }

  /** Kotlin's `String.compareTo(other) <= 0`: code-unit order, a prefix first. */
  predicate StrLe(a: string, b: string)
    decreases |a|
  {
    if a == [] then true
    else if b == [] then false
    else if a[0] != b[0] then a[0] < b[0]
    else StrLe(a[1..], b[1..])
  }

  lemma {:induction false} StrLeTotal(a: string, b: string)
    ensures StrLe(a, b) || StrLe(b, a)
    decreases |a|
  {
    if a != [] && b != [] && a[0] == b[0] {
      StrLeTotal(a[1..], b[1..]);
    }
  }

  lemma {:induction false} StrLeTransitive(a: string, b: string, c: string)
    requires StrLe(a, b) && StrLe(b, c)
    ensures StrLe(a, c)
    decreases |a|
  {
    if a != [] && b != [] && c != [] && a[0] == b[0] && b[0] == c[0] {
      StrLeTransitive(a[1..], b[1..], c[1..]);
    }
  }

  /** `sortBy { it.displayName }`. */
  function ByDisplayName(x: FontItem, y: FontItem): bool {
    StrLe(x.displayName, y.displayName)
  }

  lemma ByDisplayNameIsPreorder()
    ensures TotalPreorder(ByDisplayName)
  {
    forall x: FontItem, y: FontItem ensures ByDisplayName(x, y) || ByDisplayName(y, x) {
      StrLeTotal(x.displayName, y.displayName);
    }
    forall x: FontItem, y: FontItem, z: FontItem | ByDisplayName(x, y) && ByDisplayName(y, z)
      ensures ByDisplayName(x, z)
    {
      StrLeTransitive(x.displayName, y.displayName, z.displayName);
    }
  }

  /** The item built for one font asset. */
  function FontEntry(fileName: string, currentPath: string): FontItem {
    var baseName := SubstringBeforeLast(fileName, '.');
    FontItem(baseName, DisplayName(baseName), "fonts/" + fileName, "fonts/" + fileName == currentPath)
  }

  /** The items for the font assets of a listing, in listing order. */
  function FontEntries(fileNames: seq<string>, currentPath: string): (r: seq<FontItem>)
    ensures |r| <= |fileNames|
  {
    if fileNames == [] then []
    else
      var last := fileNames[|fileNames| - 1];
      FontEntries(fileNames[..|fileNames| - 1], currentPath) + (if IsFontFile(last) then [FontEntry(last, currentPath)] else [])
  }

  /** The number of font assets in a listing: `filter { … }.size`. */
  function FontFileCount(fileNames: seq<string>): nat {
    if fileNames == [] then 0
    else FontFileCount(fileNames[1..]) + (if IsFontFile(fileNames[0]) then 1 else 0)
  }

  /** Every font asset gives exactly one entry. */
  lemma {:induction false} FontEntriesCount(fileNames: seq<string>, currentPath: string)
    ensures |FontEntries(fileNames, currentPath)| == FontFileCount(fileNames)
  {
    if fileNames != [] {
      var n := |fileNames| - 1;
      FontEntriesCount(fileNames[..n], currentPath);
      FontFileCountLast(fileNames);
    }
  }

  /** Counting from the back gives the same number. */
  lemma {:induction false} FontFileCountLast(fileNames: seq<string>)
    requires fileNames != []
    ensures FontFileCount(fileNames) == FontFileCount(fileNames[..|fileNames| - 1])
      + (if IsFontFile(fileNames[|fileNames| - 1]) then 1 else 0)
  {
    var n := |fileNames| - 1;
    if n > 0 {
      assert fileNames[1..][..n - 1] == fileNames[1..n];
      assert fileNames[..n][1..] == fileNames[1..n];
      FontFileCountLast(fileNames[1..]);
    }
  }

  /** `item` is the entry of some font asset of the listing. */
  predicate IsEntryOf(item: FontItem, fileNames: seq<string>, currentPath: string) {
    exists i :: 0 <= i < |fileNames| && IsFontFile(fileNames[i]) && item == FontEntry(fileNames[i], currentPath)
  }

  /** Every entry is the item of a font asset of the listing. */
  lemma {:induction false} FontEntriesFromAssets(fileNames: seq<string>, currentPath: string)
    ensures forall k :: 0 <= k < |FontEntries(fileNames, currentPath)| ==>
      IsEntryOf(FontEntries(fileNames, currentPath)[k], fileNames, currentPath)
  {
    if fileNames != [] {
      var n := |fileNames| - 1;
      var prefix := fileNames[..n];
      var r := FontEntries(fileNames, currentPath);
      var p := FontEntries(prefix, currentPath);
      FontEntriesFromAssets(prefix, currentPath);
      forall k | 0 <= k < |r| ensures IsEntryOf(r[k], fileNames, currentPath) {
        if k < |p| {
          assert r[k] == p[k];
          assert IsEntryOf(p[k], prefix, currentPath);
          var i :| 0 <= i < |prefix| && IsFontFile(prefix[i]) && p[k] == FontEntry(prefix[i], currentPath);
          assert prefix[i] == fileNames[i];
        } else {
          assert r[k] == FontEntry(fileNames[n], currentPath);
        }
      }
    }
  }

  /** Every font asset of the listing gives an entry. */
  lemma FontEntriesComplete(fileNames: seq<string>, currentPath: string)
    ensures forall i :: 0 <= i < |fileNames| && IsFontFile(fileNames[i]) ==>
      FontEntry(fileNames[i], currentPath) in FontEntries(fileNames, currentPath)
  {
    forall i | 0 <= i < |fileNames| && IsFontFile(fileNames[i])
      ensures FontEntry(fileNames[i], currentPath) in FontEntries(fileNames, currentPath)
    {
      EntryOfAsset(fileNames, currentPath, i);
    }
  }

  /** The font asset at position `i` gives an entry. */
  lemma {:induction false} EntryOfAsset(fileNames: seq<string>, currentPath: string, i: nat)
    requires i < |fileNames| && IsFontFile(fileNames[i])
    ensures FontEntry(fileNames[i], currentPath) in FontEntries(fileNames, currentPath)
    decreases |fileNames|, 1
  {
    if i < |fileNames| - 1 {
      EntryOfEarlierAsset(fileNames, currentPath, i);
    } else {
      EntryOfLastAsset(fileNames, currentPath);
    }
  }

  /** An asset before the last keeps the entry it has in the shorter listing. */
  lemma {:induction false} EntryOfEarlierAsset(fileNames: seq<string>, currentPath: string, i: nat)
    requires i < |fileNames| - 1 && IsFontFile(fileNames[i])
    ensures FontEntry(fileNames[i], currentPath) in FontEntries(fileNames, currentPath)
    decreases |fileNames|, 0
  {
    var n := |fileNames| - 1;
    var prefix := fileNames[..n];
    assert prefix[i] == fileNames[i];
    EntryOfAsset(prefix, currentPath, i);
    FontEntriesLast(fileNames, currentPath);
    InSnoc(FontEntry(fileNames[i], currentPath), FontEntries(prefix, currentPath),
      FontEntry(fileNames[n], currentPath), IsFontFile(fileNames[n]), FontEntries(fileNames, currentPath));
  }

  /** A font asset at the end of the listing gives the last entry. */
  lemma EntryOfLastAsset(fileNames: seq<string>, currentPath: string)
    requires fileNames != [] && IsFontFile(fileNames[|fileNames| - 1])
    ensures FontEntry(fileNames[|fileNames| - 1], currentPath) in FontEntries(fileNames, currentPath)
  {
    var n := |fileNames| - 1;
    FontEntriesLast(fileNames, currentPath);
    InSnoc(FontEntry(fileNames[n], currentPath), FontEntries(fileNames[..n], currentPath),
      FontEntry(fileNames[n], currentPath), true, FontEntries(fileNames, currentPath));
  }

  /** The entries of a listing are those of all but its last name, then that name's entry. */
  lemma FontEntriesLast(fileNames: seq<string>, currentPath: string)
    requires fileNames != []
    ensures var n := |fileNames| - 1;
      FontEntries(fileNames, currentPath) == FontEntries(fileNames[..n], currentPath)
        + (if IsFontFile(fileNames[n]) then [FontEntry(fileNames[n], currentPath)] else [])
  {
  }

  /** An element of `p`, or the kept last element, is in `p` extended by it. */
  lemma InSnoc<T>(x: T, p: seq<T>, last: T, keep: bool, whole: seq<T>)
    requires whole == p + (if keep then [last] else [])
    requires x in p || (keep && x == last)
    ensures x in whole
  {
  }

  /**
   * The list `loadFonts` leaves behind, starting from `initial`: the default item and the font
   * entries are appended, then the head is kept in front of the rest sorted by display name. A
   * failed or missing asset listing adds no entries.
   */
  function LoadedFontList(initial: seq<FontItem>, stored: Option<string>, assets: Option<seq<string>>): (r: seq<FontItem>)
    ensures |r| == |initial| + 1 + (if assets.None? then 0 else |FontEntries(assets.value, CurrentFontPath(stored))|)
  {
    var currentPath := CurrentFontPath(stored);
    var entries := if assets.None? then [] else FontEntries(assets.value, currentPath);
    var all := initial + [DefaultItem(currentPath)] + entries;
    [all[0]] + SortBy(all[1..], ByDisplayName)
  }

  /**
   * From an empty list: the default item first, selected exactly when the stored path is
   * "default"; then every font entry once, sorted by display name; every item is selected
   * exactly when its path is the stored path.
   */
  lemma LoadedFontListShape(stored: Option<string>, assets: Option<seq<string>>)
    ensures var r := LoadedFontList([], stored, assets);
      var currentPath := CurrentFontPath(stored);
      var entries := if assets.None? then [] else FontEntries(assets.value, currentPath);
      && r[0] == DefaultItem(currentPath)
      && (r[0].isSelected <==> currentPath == DEFAULT_PATH)
      && multiset(r[1..]) == multiset(entries)
      && Sorted(r[1..], ByDisplayName)
      && SelectionMatches(r, currentPath)
  {
    var r := LoadedFontList([], stored, assets);
    var currentPath := CurrentFontPath(stored);
    var entries := if assets.None? then [] else FontEntries(assets.value, currentPath);
    var all := [] + [DefaultItem(currentPath)] + entries;
    assert all[0] == DefaultItem(currentPath) && all[1..] == entries;
    var sorted := SortBy(entries, ByDisplayName);
    assert r == [DefaultItem(currentPath)] + sorted;
    assert Sorted(sorted, ByDisplayName) by {
      ByDisplayNameIsPreorder();
      SortBySorted(entries, ByDisplayName);
    }
    assert SelectionMatches(sorted, currentPath) by {
      if assets.Some? {
        EntriesSelection(assets.value, currentPath);
      }
      SelectionPermutation(entries, sorted, currentPath);
    }
    assert r[1..] == sorted;
  }

  /**
   * Fonts that share a display name (such as "a-b.ttf" and "a_b.otf", both "A B") stay in
   * listing order after the sort.
   */
  lemma LoadedFontListStable(stored: Option<string>, assets: Option<seq<string>>, item: FontItem)
    ensures var r := LoadedFontList([], stored, assets);
      var entries := if assets.None? then [] else FontEntries(assets.value, CurrentFontPath(stored));
      EquivalentsOf(r[1..], item, ByDisplayName) == EquivalentsOf(entries, item, ByDisplayName)
  {
    var r := LoadedFontList([], stored, assets);
    var currentPath := CurrentFontPath(stored);
    var entries := if assets.None? then [] else FontEntries(assets.value, currentPath);
    var all := [] + [DefaultItem(currentPath)] + entries;
    assert all[0] == DefaultItem(currentPath) && all[1..] == entries;
    assert r[1..] == SortBy(entries, ByDisplayName);
    ByDisplayNameIsPreorder();
    SortByStable(entries, item, ByDisplayName);
  }

  /** The list holds the default item and one entry per font asset; none when the listing fails. */
  lemma LoadedFontListLength(stored: Option<string>, assets: Option<seq<string>>)
    ensures |LoadedFontList([], stored, assets)| == 1 + (if assets.None? then 0 else FontFileCount(assets.value))
  {
    if assets.Some? {
      FontEntriesCount(assets.value, CurrentFontPath(stored));
    }
  }

  /** Each item is selected exactly when its path is the stored path. */
  predicate SelectionMatches(items: seq<FontItem>, currentPath: string) {
    forall k :: 0 <= k < |items| ==> (items[k].isSelected <==> items[k].path == currentPath)
  }

  lemma {:induction false} EntriesSelection(fileNames: seq<string>, currentPath: string)
    ensures SelectionMatches(FontEntries(fileNames, currentPath), currentPath)
  {
    if fileNames != [] {
      EntriesSelection(fileNames[..|fileNames| - 1], currentPath);
    }
  }

  lemma SelectionPermutation(a: seq<FontItem>, b: seq<FontItem>, currentPath: string)
    requires multiset(a) == multiset(b)
    requires SelectionMatches(a, currentPath)
    ensures SelectionMatches(b, currentPath)
  {
    forall k | 0 <= k < |b| ensures b[k].isSelected <==> b[k].path == currentPath {
      assert b[k] in multiset(a);
      var j :| 0 <= j < |a| && a[j] == b[k];
    }
  }

  /** `GameBarFontSelectorActivity`'s list. */
  class FontSelectorActivity {
    var fontList: seq<FontItem>

    constructor ()
      ensures fontList == []
    {
      fontList := [];
    }

    /**
     * `loadFonts`, given the stored font path (`None` when unset) and the `fonts` asset
     * directory listing (`None` when the listing is null or throws).
     */
    method LoadFonts(stored: Option<string>, assets: Option<seq<string>>)
      modifies this
      ensures fontList == LoadedFontList(old(fontList), stored, assets)
    {
      var currentFontPath := CurrentFontPath(stored);
      fontList := fontList + [DefaultItem(currentFontPath)];
      if assets.Some? {
        AddFontEntries(assets.value, currentFontPath);
      }
      ghost var all := old(fontList) + [DefaultItem(currentFontPath)]
        + (if assets.None? then [] else FontEntries(assets.value, currentFontPath));
      assert fontList == all;
      SortKeepingHead();
    }

    /** The `forEach` over the filtered asset names. */
    method AddFontEntries(fontFiles: seq<string>, currentFontPath: string)
      modifies this
      ensures fontList == old(fontList) + FontEntries(fontFiles, currentFontPath)
    {
      for i := 0 to |fontFiles|
        invariant fontList == old(fontList) + FontEntries(fontFiles[..i], currentFontPath)
      {
        var fileName := fontFiles[i];
        assert fontFiles[..i + 1][..i] == fontFiles[..i];
        if IsFontFile(fileName) {
          fontList := fontList + [FontEntry(fileName, currentFontPath)];
        }
      }
      assert fontFiles[..|fontFiles|] == fontFiles;
    }

    /** `removeAt(0)`, `sortBy { it.displayName }`, `add(0, …)` on a non-empty list. */
    method SortKeepingHead()
      modifies this
      ensures fontList == if old(fontList) == [] then [] else [old(fontList)[0]] + SortBy(old(fontList)[1..], ByDisplayName)
    {
      if |fontList| > 0 {
        var defaultFont := fontList[0];
        fontList := fontList[1..];
        fontList := SortBy(fontList, ByDisplayName);
        fontList := [defaultFont] + fontList;
      }
    }
  }
}
