/**
 * RAM usage (src/com/android/gamebar/GameBarMemInfo.kt): `/proc/meminfo` is scanned until both
 * `MemTotal:` and `MemAvailable:` are known, and the used memory is reported in MiB.
 */
module MemInfo {
  import opened Wrappers
  import opened Strings
  import opened Numbers

  /** `parseMemValue`: the second field of a `Key:  value kB` line, or 0. */
  function ParseMemValue(line: string): int {
    var parts := SplitOnSpaces(line);
    if |parts| < 3 then 0
    else
      match ParseLong(parts[1])
      case None => 0
      case Some(v) => v
  }

  /**
   * The fallbacks of `parseMemValue`: 0 for a line of fewer than three fields; otherwise field 1
   * as a `Long`, or 0 when that field is not one.
   */
  lemma ParseMemValueFallbacks(line: string)
    ensures |SplitOnSpaces(line)| < 3 ==> ParseMemValue(line) == 0
    ensures |SplitOnSpaces(line)| >= 3 ==> ParseMemValue(line) == ParseLong(SplitOnSpaces(line)[1]).GetOr(0)
  {
  }

  /** A string of regex spaces, at least one. */
  predicate IsSpaceRun(s: string) {
    s != [] && forall k :: 0 <= k < |s| ==> IsRegexSpace(s[k])
  }

  /** The kernel's line format: a key, spaces, the value, spaces, "kB". */
  function MeminfoLine(key: string, spaces1: string, value: int, spaces2: string): string {
    key + spaces1 + Render(value) + spaces2 + "kB"
  }

  /** `parseMemValue` reads back the value of a well-formed line. */
  lemma ParseMeminfoLine(key: string, spaces1: string, value: int, spaces2: string)
    requires NoRegexSpace(key) && IsSpaceRun(spaces1) && IsSpaceRun(spaces2)
    requires LONG_MIN <= value <= LONG_MAX
    ensures ParseMemValue(MeminfoLine(key, spaces1, value, spaces2)) == value
  {
    MeminfoLineFields(key, spaces1, value, spaces2);
    ParseRender(value, LONG_MIN, LONG_MAX);
  }

  /** A well-formed line splits into key, value and unit. */
  lemma MeminfoLineFields(key: string, spaces1: string, value: int, spaces2: string)
    requires NoRegexSpace(key) && IsSpaceRun(spaces1) && IsSpaceRun(spaces2)
    ensures SplitOnSpaces(MeminfoLine(key, spaces1, value, spaces2)) == [key, Render(value), "kB"]
  {
    RenderCharacters(value);
    LineFields(key, spaces1, Render(value), spaces2);
  }

  /** A key, a value without spaces and the unit, separated by spaces, are three fields. */
  lemma LineFields(key: string, spaces1: string, text: string, spaces2: string)
    requires NoRegexSpace(key) && IsSpaceRun(spaces1) && IsSpaceRun(spaces2)
    requires text != [] && NoRegexSpace(text)
    ensures SplitOnSpaces(key + spaces1 + text + spaces2 + "kB") == [key, text, "kB"]
  {
    var unit := text + spaces2 + "kB";
    var line := key + spaces1 + text + spaces2 + "kB";
    assert line == key + spaces1 + unit;
    assert SplitOnSpaces(unit) == [text, "kB"] by {
      ValueAndUnit(text, spaces2);
    }
    assert SplitOnSpaces(line) == [key] + SplitOnSpaces(unit) by {
      assert unit[0] == text[0];
      SplitOnSpacesCons(key, spaces1, unit);
    }
  }

  lemma ValueAndUnit(digits: string, spaces: string)
    requires digits != [] && NoRegexSpace(digits) && IsSpaceRun(spaces)
    ensures SplitOnSpaces(digits + spaces + "kB") == [digits, "kB"]
  {
    assert NoRegexSpace("kB");
    SplitOnSpacesSingle("kB");
    SplitOnSpacesCons(digits, spaces, "kB");
  }

  /** A key line with no value, `Key:  kB`, has only two fields and reads as 0. */
  lemma MissingValue(key: string, spaces: string)
    requires NoRegexSpace(key) && IsSpaceRun(spaces)
    ensures ParseMemValue(key + spaces + "kB") == 0
  {
    assert NoRegexSpace("kB");
    SplitOnSpacesSingle("kB");
    SplitOnSpacesCons(key, spaces, "kB");
  }

  /** A key line whose value is not a `Long` reads as 0. */
  lemma NonNumericValue(key: string, spaces1: string, text: string, spaces2: string)
    requires NoRegexSpace(key) && IsSpaceRun(spaces1) && IsSpaceRun(spaces2)
    requires text != [] && NoRegexSpace(text) && ParseLong(text).None?
    ensures ParseMemValue(key + spaces1 + text + spaces2 + "kB") == 0
  {
    LineFields(key, spaces1, text, spaces2);
    ParseMemValueFallbacks(key + spaces1 + text + spaces2 + "kB");
  }

  /** The two values found so far. */
  datatype MemScan = MemScan(memTotal: int, memAvailable: int)

  /** The loop's exit test: both values positive. */
  predicate Done(acc: MemScan) { acc.memTotal > 0 && acc.memAvailable > 0 }

  /** The `when` of one line: a `MemTotal:` or `MemAvailable:` line overwrites its value. */
  function ScanLine(acc: MemScan, line: string): MemScan {
    if StartsWith(line, "MemTotal:") then acc.(memTotal := ParseMemValue(line))
    else if StartsWith(line, "MemAvailable:") then acc.(memAvailable := ParseMemValue(line))
    else acc
  }

  /** The lines read in order, stopping right after the line that makes the scan `Done`. */
  function Scan(acc: MemScan, lines: seq<string>): MemScan
    decreases |lines|
  {
    if lines == [] then acc
    else
      var next := ScanLine(acc, lines[0]);
      if Done(next) then next else Scan(next, lines[1..])
  }

  /**
   * `getRamUsage` on the lines of `/proc/meminfo` (`None` when it cannot be read): "N/A" when
   * the file is unreadable or MemTotal stayed 0 (a negative total is reported like any other),
   * otherwise used KiB over 1024.
   */
  function RamUsage(lines: Option<seq<string>>): (r: string)
    ensures r == "N/A" <==> lines.None? || Scan(MemScan(0, 0), lines.value).memTotal == 0
  {
    if lines.None? then "N/A" else UsageText(Scan(MemScan(0, 0), lines.value))
  }

  /** The text reported for the two values the scan kept: "N/A" for a zero total. */
  function UsageText(scan: MemScan): (r: string)
    ensures r == "N/A" <==> scan.memTotal == 0
  {
    if scan.memTotal == 0 then "N/A"
    else
      var used := Quot(scan.memTotal - scan.memAvailable, 1024);
      RenderCharacters(used);
      assert Render(used) != "N/A" by { assert Render(used)[0] != 'N'; }
      Render(used)
  }

  /**
   * Once a prefix has made the scan stop, whatever follows is never read: the early exit
   * of the loop.
   */
  lemma {:induction false} ScanStopsEarly(acc: MemScan, prefix: seq<string>, rest: seq<string>)
    requires !Done(acc)
    requires Done(Scan(acc, prefix))
    ensures Scan(acc, prefix + rest) == Scan(acc, prefix)
    decreases |prefix|
  {
    assert prefix != [];
    assert (prefix + rest)[0] == prefix[0];
    var next := ScanLine(acc, prefix[0]);
    if !Done(next) {
      assert (prefix + rest)[1..] == prefix[1..] + rest;
      ScanStopsEarly(next, prefix[1..], rest);
    }
  }

  /** A scan that has not stopped keeps the last value seen for each key. */
  lemma {:induction false} ScanAppend(acc: MemScan, lines: seq<string>, line: string)
    requires !Done(Scan(acc, lines))
    ensures Scan(acc, lines + [line]) == Scan(Scan(acc, lines), [line])
    decreases |lines|
  {
    if lines != [] {
      var next := ScanLine(acc, lines[0]);
      assert (lines + [line])[0] == lines[0];
      assert (lines + [line])[1..] == lines[1..] + [line];
      ScanAppend(next, lines[1..], line);
    }
  }

  /** The usual layout: the total first, unrelated lines, then the available memory. */
  lemma TypicalMeminfo(total: int, available: int, other: seq<string>, rest: seq<string>,
                       spaces1: string, spaces2: string)
    requires 0 < total <= LONG_MAX && 0 < available <= total
    requires IsSpaceRun(spaces1) && IsSpaceRun(spaces2)
    requires forall i :: 0 <= i < |other| ==>
      !StartsWith(other[i], "MemTotal:") && !StartsWith(other[i], "MemAvailable:")
    ensures var lines := [MeminfoLine("MemTotal:", spaces1, total, spaces2)] + other
                         + [MeminfoLine("MemAvailable:", spaces1, available, spaces2)] + rest;
      RamUsage(Some(lines)) == Render((total - available) / 1024)
  {
    var lines := [MeminfoLine("MemTotal:", spaces1, total, spaces2)] + other
                 + [MeminfoLine("MemAvailable:", spaces1, available, spaces2)] + rest;
    TypicalScan(total, available, other, rest, spaces1, spaces2);
    UsageOfScan(lines);
  }

  /**
   * When every `MemTotal:` line reads as 0 (missing or non-numeric value), the total stays 0 and
   * the usage is "N/A".
   */
  lemma TotalUnreadableNotAvailable(lines: seq<string>)
    requires forall i :: 0 <= i < |lines| && StartsWith(lines[i], "MemTotal:") ==> ParseMemValue(lines[i]) == 0
    ensures RamUsage(Some(lines)) == "N/A"
  {
    ScanKeepsZeroTotal(MemScan(0, 0), lines);
  }

  /** A `MemTotal:` line without a value, followed by no other total line, gives "N/A". */
  lemma TotalWithoutValue(spaces: string, other: seq<string>)
    requires IsSpaceRun(spaces)
    requires forall i :: 0 <= i < |other| ==> !StartsWith(other[i], "MemTotal:")
    ensures RamUsage(Some(["MemTotal:" + spaces + "kB"] + other)) == "N/A"
  {
    assert NoRegexSpace("MemTotal:");
    MissingValue("MemTotal:", spaces);
    var lines := ["MemTotal:" + spaces + "kB"] + other;
    assert forall i :: 0 < i < |lines| ==> lines[i] == other[i - 1];
    TotalUnreadableNotAvailable(lines);
  }

  lemma {:induction false} ScanKeepsZeroTotal(acc: MemScan, lines: seq<string>)
    requires acc.memTotal == 0
    requires forall i :: 0 <= i < |lines| && StartsWith(lines[i], "MemTotal:") ==> ParseMemValue(lines[i]) == 0
    ensures Scan(acc, lines).memTotal == 0
    decreases |lines|
  {
    if lines != [] {
      var next := ScanLine(acc, lines[0]);
      assert next.memTotal == 0;
      assert forall i :: 0 <= i < |lines[1..]| ==> lines[1..][i] == lines[i + 1];
      ScanKeepsZeroTotal(next, lines[1..]);
    }
  }

  /** With a non-zero total kept, the usage is the rendered truncated quotient. */
  lemma UsageOfScan(lines: seq<string>)
    requires Scan(MemScan(0, 0), lines).memTotal != 0
    ensures var scan := Scan(MemScan(0, 0), lines);
      RamUsage(Some(lines)) == Render(Quot(scan.memTotal - scan.memAvailable, 1024))
  {
    RamUsageOfScan(lines);
    UsageTextOf(Scan(MemScan(0, 0), lines));
  }

  /** A readable file reports the text of its scan. */
  lemma RamUsageOfScan(lines: seq<string>)
    ensures RamUsage(Some(lines)) == UsageText(Scan(MemScan(0, 0), lines))
  {
  }

  /** A non-zero total reports the rendered truncated MiB difference. */
  lemma UsageTextOf(scan: MemScan)
    requires scan.memTotal != 0
    ensures UsageText(scan) == Render(Quot(scan.memTotal - scan.memAvailable, 1024))
  {
  }

  /** A reported usage reads back as a number of MiB between 0 and the total. */
  lemma RamUsageReadsBack(lines: seq<string>)
    requires var scan := Scan(MemScan(0, 0), lines);
      0 < scan.memTotal <= LONG_MAX && 0 <= scan.memAvailable <= scan.memTotal
    ensures var scan := Scan(MemScan(0, 0), lines);
      ParseLong(RamUsage(Some(lines))) == Some((scan.memTotal - scan.memAvailable) / 1024)
      && 0 <= (scan.memTotal - scan.memAvailable) / 1024 <= scan.memTotal / 1024
  {
    RamUsageOfScan(lines);
    UsageTextReadsBack(Scan(MemScan(0, 0), lines));
  }

  /** The text for a total and an available amount within it reads back as used MiB. */
  lemma UsageTextReadsBack(scan: MemScan)
    requires 0 < scan.memTotal <= LONG_MAX && 0 <= scan.memAvailable <= scan.memTotal
    ensures ParseLong(UsageText(scan)) == Some((scan.memTotal - scan.memAvailable) / 1024)
    ensures 0 <= (scan.memTotal - scan.memAvailable) / 1024 <= scan.memTotal / 1024
  {
    var used := (scan.memTotal - scan.memAvailable) / 1024;
    assert 0 <= used <= scan.memTotal / 1024;
    assert ParseLong(Render(used)) == Some(used) by {
      ParseRender(used, LONG_MIN, LONG_MAX);
    }
    UsageTextOf(scan);
    assert Quot(scan.memTotal - scan.memAvailable, 1024) == used;
  }

  lemma TypicalScan(total: int, available: int, other: seq<string>, rest: seq<string>,
                    spaces1: string, spaces2: string)
    requires 0 < total <= LONG_MAX && 0 < available <= total
    requires IsSpaceRun(spaces1) && IsSpaceRun(spaces2)
    requires forall i :: 0 <= i < |other| ==>
      !StartsWith(other[i], "MemTotal:") && !StartsWith(other[i], "MemAvailable:")
    ensures var lines := [MeminfoLine("MemTotal:", spaces1, total, spaces2)] + other
                         + [MeminfoLine("MemAvailable:", spaces1, available, spaces2)] + rest;
      Scan(MemScan(0, 0), lines) == MemScan(total, available)
  {
    var first := MeminfoLine("MemTotal:", spaces1, total, spaces2);
    var last := MeminfoLine("MemAvailable:", spaces1, available, spaces2);
    assert NoRegexSpace("MemTotal:") && NoRegexSpace("MemAvailable:");
    ParseMeminfoLine("MemTotal:", spaces1, total, spaces2);
    ParseMeminfoLine("MemAvailable:", spaces1, available, spaces2);
    KeyPrefix("MemTotal:", spaces1, total, spaces2);
    KeyPrefix("MemAvailable:", spaces1, available, spaces2);
    AvailableIsNotTotal(last);
    ScanTwoKeys(first, other, last, rest);
  }

  lemma AvailableIsNotTotal(line: string)
    requires StartsWith(line, "MemAvailable:")
    ensures !StartsWith(line, "MemTotal:")
  {
    assert line[3] == "MemAvailable:"[3];
  }

  lemma KeyPrefix(key: string, spaces1: string, value: int, spaces2: string)
    ensures StartsWith(MeminfoLine(key, spaces1, value, spaces2), key)
  {
    assert MeminfoLine(key, spaces1, value, spaces2) == key + (spaces1 + Render(value) + spaces2 + "kB");
  }

  /** The total from its line, unrelated lines skipped, then the available memory stops the scan. */
  lemma ScanTwoKeys(first: string, other: seq<string>, last: string, rest: seq<string>)
    requires StartsWith(first, "MemTotal:") && ParseMemValue(first) > 0
    requires !StartsWith(last, "MemTotal:") && StartsWith(last, "MemAvailable:") && ParseMemValue(last) > 0
    requires forall i :: 0 <= i < |other| ==>
      !StartsWith(other[i], "MemTotal:") && !StartsWith(other[i], "MemAvailable:")
    ensures Scan(MemScan(0, 0), [first] + other + [last] + rest) == MemScan(ParseMemValue(first), ParseMemValue(last))
  {
    var start := ScanLine(MemScan(0, 0), first);
    var tail := [last] + rest;
    assert start == MemScan(ParseMemValue(first), 0);
    assert Scan(MemScan(0, 0), [first] + other + [last] + rest) == Scan(start, other + tail) by {
      assert [first] + other + [last] + rest == [first] + (other + tail);
      ScanFirst(MemScan(0, 0), first, other + tail);
    }
    assert Scan(start, other + tail) == Scan(start, tail) by {
      SkipOthers(start, other, tail);
    }
    assert Scan(start, tail) == MemScan(ParseMemValue(first), ParseMemValue(last)) by {
      ScanStop(start, last, rest);
    }
  }

  lemma ScanFirst(acc: MemScan, line: string, more: seq<string>)
    requires !Done(ScanLine(acc, line))
    ensures Scan(acc, [line] + more) == Scan(ScanLine(acc, line), more)
  {
    assert ([line] + more)[1..] == more;
  }

  lemma ScanStop(acc: MemScan, line: string, more: seq<string>)
    requires Done(ScanLine(acc, line))
    ensures Scan(acc, [line] + more) == ScanLine(acc, line)
  {
  }

  /** Lines with neither key leave the scan as it is. */
  lemma {:induction false} SkipOthers(acc: MemScan, other: seq<string>, tail: seq<string>)
    requires !Done(acc)
    requires forall i :: 0 <= i < |other| ==>
      !StartsWith(other[i], "MemTotal:") && !StartsWith(other[i], "MemAvailable:")
    ensures Scan(acc, other + tail) == Scan(acc, tail)
    decreases |other|
  {
    if other != [] {
      var lines := other + tail;
      assert lines[0] == other[0] && lines[1..] == other[1..] + tail;
      assert ScanLine(acc, other[0]) == acc;
      assert Scan(acc, lines) == Scan(acc, other[1..] + tail);
      SkipOthers(acc, other[1..], tail);
    } else {
      assert other + tail == tail;
    }
  }

  /** `getRamUsage`: "N/A" for an unreadable file, otherwise the loop's two values reported. */
  method GetRamUsage(lines: Option<seq<string>>) returns (r: string)
    ensures r == RamUsage(lines)
  {
    if lines.None? {
      return "N/A";
    }
    var memTotal, memAvailable := ScanMeminfo(lines.value);
    RamUsageOfScan(lines.value);
    if memTotal == 0 {
      return "N/A";
    }
    var usedKb := memTotal - memAvailable;
    var usedMb := Quot(usedKb, 1024);
    r := Render(usedMb);
    UsageTextOf(MemScan(memTotal, memAvailable));
  }

  /** The `while` of `getRamUsage` over the lines, with its early `return@use`. */
  method ScanMeminfo(ls: seq<string>) returns (memTotal: int, memAvailable: int)
    ensures MemScan(memTotal, memAvailable) == Scan(MemScan(0, 0), ls)
  {
    memTotal := 0;
    memAvailable := 0;
    var i := 0;
    while i < |ls|
      invariant 0 <= i <= |ls|
      invariant !Done(MemScan(memTotal, memAvailable))
      invariant Scan(MemScan(0, 0), ls) == Scan(MemScan(memTotal, memAvailable), ls[i..])
    {
      var line := ls[i];
      ScanAt(MemScan(memTotal, memAvailable), ls, i);
      if StartsWith(line, "MemTotal:") {
        memTotal := ParseMemValue(line);
      } else if StartsWith(line, "MemAvailable:") {
        memAvailable := ParseMemValue(line);
      }
      if memTotal > 0 && memAvailable > 0 {
        return;
      }
      i := i + 1;
    }
  }

  /** The scan of the lines from position `i` on reads line `i`, then stops or goes on. */
  lemma ScanAt(acc: MemScan, lines: seq<string>, i: nat)
    requires i < |lines|
    ensures var next := ScanLine(acc, lines[i]);
      Scan(acc, lines[i..]) == if Done(next) then next else Scan(next, lines[i + 1..])
  {
    assert lines[i..][0] == lines[i];
    assert lines[i..][1..] == lines[i + 1..];
  }
}
