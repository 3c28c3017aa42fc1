/**
 * CPU counters (src/com/android/gamebar/GameBarCpuInfo.kt): the usage percentage computed
 * from two successive `/proc/stat` aggregate lines, and the per-core frequency list whose
 * entries the session log stores in its CPU-clock column.
 */
module CpuInfo {
  import opened Wrappers
  import opened Strings
  import opened Numbers
  import opened Sorting

  /** The idle counter and the total of the counters of one aggregate `cpu ` line. */
  datatype CpuSample = CpuSample(idle: int, total: int)

  /** Parses every string of `xs` as a `Long`, failing if any of them fails. */
  function ParseLongs(xs: seq<string>): (r: Option<seq<int>>)
    ensures r.Some? <==> forall i :: 0 <= i < |xs| ==> ParseLong(xs[i]).Some?
    ensures r.Some? ==> |r.value| == |xs| && forall i :: 0 <= i < |xs| ==> Some(r.value[i]) == ParseLong(xs[i])
  {
    if xs == [] then Some([])
    else
      match ParseLong(xs[0])
      case None => None
      case Some(v) =>
        match ParseLongs(xs[1..])
        case None => None
        case Some(vs) => Some([v] + vs)
  }

  /**
   * The `try` block of `getCpuUsage`: user, nice, system, idle, iowait, irq and softirq are
   * fields 1 to 7, and steal is field 8 when a ninth field exists (0 otherwise); a field that is
   * not a `Long` makes the whole line unusable.
   */
  function ParseCounters(parts: seq<string>): (r: Option<CpuSample>)
    requires |parts| >= 8
    ensures r.Some? <==> ParseLongs(parts[1..8]).Some? && (|parts| > 8 ==> ParseLong(parts[8]).Some?)
    ensures r.Some? ==> Some(r.value.idle) == ParseLong(parts[4])
  {
    match ParseLongs(parts[1..8])
    case None => None
    case Some(v) =>
      var steal := if |parts| > 8 then ParseLong(parts[8]) else Some(0);
      match steal
      case None => None
      case Some(st) =>
        assert parts[1..8][3] == parts[4];
        Some(CpuSample(v[3], v[0] + v[1] + v[2] + v[3] + v[4] + v[5] + v[6] + st))
  }

  /** At least eight fields, of which fields 1 to 7, and field 8 when present, are `Long`s. */
  predicate CounterFieldsParse(parts: seq<string>) {
    && |parts| >= 8
    && (forall i :: 1 <= i < 8 ==> ParseLong(parts[i]).Some?)
    && (|parts| > 8 ==> ParseLong(parts[8]).Some?)
  }

  /**
   * user + nice + system + idle + iowait + irq + softirq, plus steal only when a ninth field
   * exists.
   */
  function CounterTotal(parts: seq<string>): int
    requires CounterFieldsParse(parts)
  {
    ParseLong(parts[1]).value + ParseLong(parts[2]).value + ParseLong(parts[3]).value
    + ParseLong(parts[4]).value + ParseLong(parts[5]).value + ParseLong(parts[6]).value
    + ParseLong(parts[7]).value + (if |parts| > 8 then ParseLong(parts[8]).value else 0)
  }

  /**
   * The counters of a `/proc/stat` line. There are none when the line is missing, does not
   * start with "cpu ", has fewer than eight whitespace-separated fields, or has a counter that
   * is not a `Long`; otherwise idle is field 4 and the total is `CounterTotal`.
   */
  function ReadSample(line: Option<string>): (r: Option<CpuSample>)
    ensures r.Some? <==>
      line.Some? && StartsWith(line.value, "cpu ") && CounterFieldsParse(SplitOnSpaces(line.value))
    ensures r.Some? ==> Some(r.value.idle) == ParseLong(SplitOnSpaces(line.value)[4])
    ensures r.Some? ==> r.value.total == CounterTotal(SplitOnSpaces(line.value))
  {
    if line.None? || !StartsWith(line.value, "cpu ") then None
    else
      var parts := SplitOnSpaces(line.value);
      if |parts| < 8 then None
      else
        CounterFieldsOfParse(parts);
        ParsedTotal(parts);
        ParseCounters(parts)
  }

  /** The counters parse exactly when the counter fields do. */
  lemma CounterFieldsOfParse(parts: seq<string>)
    requires |parts| >= 8
    ensures ParseCounters(parts).Some? <==> CounterFieldsParse(parts)
  {
    var fields := parts[1..8];
    assert forall i :: 1 <= i < 8 ==> fields[i - 1] == parts[i];
    if ParseLongs(fields).Some? {
      forall i | 1 <= i < 8 ensures ParseLong(parts[i]).Some? {
        assert ParseLong(fields[i - 1]).Some?;
      }
    }
    if forall i :: 1 <= i < 8 ==> ParseLong(parts[i]).Some? {
      forall k | 0 <= k < 7 ensures ParseLong(fields[k]).Some? {
        assert fields[k] == parts[k + 1];
      }
    }
  }

  /** Parsed counters total fields 1 to 7, plus steal only when a ninth field exists. */
  lemma ParsedTotal(parts: seq<string>)
    requires |parts| >= 8
    ensures ParseCounters(parts).Some? ==>
      CounterFieldsParse(parts) && ParseCounters(parts).value.total == CounterTotal(parts)
  {
    if ParseCounters(parts).Some? {
      var fields := parts[1..8];
      var v := ParseLongs(fields).value;
      var steal := if |parts| > 8 then ParseLong(parts[8]).value else 0;
      assert ParseCounters(parts).value.total == v[0] + v[1] + v[2] + v[3] + v[4] + v[5] + v[6] + steal;
      assert fields[0] == parts[1] && fields[1] == parts[2] && fields[2] == parts[3] && fields[3] == parts[4];
      assert fields[4] == parts[5] && fields[5] == parts[6] && fields[6] == parts[7];
      CounterFieldsOfParse(parts);
    }
  }

  /** The busy share of the elapsed time, in percent, with truncating `Long` division. */
  function UsagePercent(diffTotal: int, diffIdle: int): (u: int)
    requires diffTotal != 0
    ensures 0 <= diffIdle <= diffTotal ==> 0 <= u <= 100
  {
    var busy := 100 * (diffTotal - diffIdle);
    if 0 <= diffIdle <= diffTotal then
      assert 0 <= busy <= 100 * diffTotal;
      assert Quot(busy, diffTotal) == busy / diffTotal;
      DivBounds(busy, diffTotal);
      Quot(busy, diffTotal)
    else Quot(busy, diffTotal)
  }

  lemma DivBounds(a: int, b: int)
    requires b > 0 && 0 <= a <= 100 * b
    ensures 0 <= a / b <= 100
  {
  }

  /**
   * One call of `getCpuUsage`, as the text it returns and the new `prevIdle`/`prevTotal`.
   * An unusable line changes nothing; the first usable line (`prevTotal == -1`) and a line whose
   * total equals the previous one only record the counters.
   */
  function UsageStep(prevIdle: int, prevTotal: int, sample: Option<CpuSample>): (string, int, int) {
    match sample
    case None => ("N/A", prevIdle, prevTotal)
    case Some(s) =>
      if prevTotal != -1 && s.total != prevTotal
      then (Render(UsagePercent(s.total - prevTotal, s.idle - prevIdle)), s.idle, s.total)
      else ("N/A", s.idle, s.total)
  }

  /**
   * A reported usage reads back as a percentage between 0 and 100 whenever the counters moved
   * forward and idle time grew by no more than the total.
   */
  lemma UsageStepInRange(prevIdle: int, prevTotal: int, line: Option<string>)
    requires ReadSample(line).Some?
    requires prevTotal != -1
    requires 0 <= ReadSample(line).value.idle - prevIdle <= ReadSample(line).value.total - prevTotal
    requires ReadSample(line).value.total != prevTotal
    ensures var (text, _, _) := UsageStep(prevIdle, prevTotal, ReadSample(line));
      ParseLong(text).Some? && 0 <= ParseLong(text).value <= 100
  {
    var s := ReadSample(line).value;
    var u := UsagePercent(s.total - prevTotal, s.idle - prevIdle);
    ParseRender(u, LONG_MIN, LONG_MAX);
  }

  /** A line that cannot be used, or the first usable one, yields "N/A". */
  lemma UsageStepNotAvailable(prevIdle: int, prevTotal: int, line: Option<string>)
    requires ReadSample(line).None? || prevTotal == -1
    ensures UsageStep(prevIdle, prevTotal, ReadSample(line)).0 == "N/A"
    ensures ReadSample(line).None? ==> UsageStep(prevIdle, prevTotal, ReadSample(line)) == ("N/A", prevIdle, prevTotal)
  {
  }

  /** The object `GameBarCpuInfo` and its counters from the previous call. */
  class CpuUsageMeter {
    var prevIdle: int
    var prevTotal: int

    constructor ()
      ensures prevIdle == -1 && prevTotal == -1
    {
      prevIdle := -1;
      prevTotal := -1;
    }

    /** `getCpuUsage`, given the first line of `/proc/stat` (`None` when it cannot be read). */
    method GetCpuUsage(line: Option<string>) returns (usage: string)
      modifies this
      ensures (usage, prevIdle, prevTotal) == UsageStep(old(prevIdle), old(prevTotal), ReadSample(line))
    {
      var sample := ReadCounters(line);
      usage := Update(sample);
    }

    /** The part of `getCpuUsage` after the counters are read: compare, store, report. */
    method Update(sample: Option<CpuSample>) returns (usage: string)
      modifies this
      ensures (usage, prevIdle, prevTotal) == UsageStep(old(prevIdle), old(prevTotal), sample)
    {
      if sample.None? {
        return "N/A";
      }
      var idle, total := sample.value.idle, sample.value.total;
      if prevTotal != -1 && total != prevTotal {
        var diffTotal := total - prevTotal;
        var diffIdle := idle - prevIdle;
        usage := Render(UsagePercent(diffTotal, diffIdle));
      } else {
        usage := "N/A";
      }
      prevTotal := total;
      prevIdle := idle;
    }
  }

  /** The reading part of `getCpuUsage`: every path that returns "N/A" before the counters exist. */
  method ReadCounters(line: Option<string>) returns (sample: Option<CpuSample>)
    ensures sample == ReadSample(line)
  {
    if line.None? || !StartsWith(line.value, "cpu ") {
      return None;
    }
    var parts := SplitOnSpaces(line.value);
    if |parts| < 8 {
      return None;
    }
    sample := ParseCounters(parts);
  }

  /**
   * A meter's life: an unreadable line leaves it fresh, the first usable line only records
   * its counters, and a later line with moved counters reports a percentage within 0..100.
   */
  method UsageScenario(line1: Option<string>, line2: Option<string>)
    requires ReadSample(line1).Some? && ReadSample(line2).Some?
    requires 0 <= ReadSample(line2).value.idle - ReadSample(line1).value.idle
             < ReadSample(line2).value.total - ReadSample(line1).value.total
    requires ReadSample(line1).value.total != -1
  {
    var meter := new CpuUsageMeter();
    var none := meter.GetCpuUsage(None);
    assert none == "N/A" && meter.prevTotal == -1;
    var first := meter.GetCpuUsage(line1);
    assert first == "N/A" && meter.prevTotal == ReadSample(line1).value.total;
    var second := meter.GetCpuUsage(line2);
    UsageStepInRange(ReadSample(line1).value.idle, ReadSample(line1).value.total, line2);
    assert ParseLong(second).Some? && 0 <= ParseLong(second).value <= 100;
  }

  /** A name the directory filter `cpu\d+` accepts. */
  predicate IsCpuDirName(name: string) {
    |name| > 3 && name[..3] == "cpu" && AllDigits(name[3..])
  }

  /** The listing filtered to the `cpuN` directories, in listing order. */
  function CpuDirs(names: seq<string>): (dirs: seq<string>)
    ensures forall i :: 0 <= i < |dirs| ==> IsCpuDirName(dirs[i])
    ensures |dirs| <= |names|
  {
    if names == [] then []
    else (if IsCpuDirName(names[0]) then [names[0]] else []) + CpuDirs(names[1..])
  }

  /** A name is kept by the filter exactly when it is in the listing and matches `cpu\d+`. */
  lemma {:induction false} CpuDirsMembers(names: seq<string>, name: string)
    ensures name in CpuDirs(names) <==> name in names && IsCpuDirName(name)
  {
    if names != [] {
      CpuDirsMembers(names[1..], name);
      assert names == [names[0]] + names[1..];
    }
  }

  /** `extractCpuNumber`: every "cpu" removed, then `toInt()`, or -1 when that fails. */
  function ExtractCpuNumber(name: string): int {
    match ParseInt(RemoveAll(name, "cpu"))
    case None => -1
    case Some(n) => n
  }

  /** Digits contain no "cpu" to remove. */
  lemma {:induction false} RemoveAllFromDigits(d: string)
    requires AllDigits(d)
    ensures RemoveAll(d, "cpu") == d
  {
    if d != [] {
      assert !StartsWith(d, "cpu") by { assert IsAsciiDigit(d[0]); }
      RemoveAllFromDigits(d[1..]);
      assert [d[0]] + d[1..] == d;
    }
  }

  /** The number of a `cpuN` directory is N, when N fits in an `Int`. */
  lemma CpuNumberOfDirName(name: string)
    requires IsCpuDirName(name)
    requires DigitsValue(name[3..]) <= INT_MAX
    ensures ExtractCpuNumber(name) == DigitsValue(name[3..])
  {
    var d := name[3..];
    assert name == "cpu" + d;
    assert StartsWith(name, "cpu");
    assert RemoveAll(name, "cpu") == RemoveAll(d, "cpu");
    RemoveAllFromDigits(d);
    assert !(d[0] == '-' || d[0] == '+') by { assert IsAsciiDigit(d[0]); }
  }

  /**
   * A `cpuN` name whose N does not fit in an `Int` passes the directory filter, but `toInt()`
   * throws on it, so its number is -1.
   */
  lemma CpuNumberOverflow(name: string)
    requires IsCpuDirName(name)
    requires DigitsValue(name[3..]) > INT_MAX
    ensures ExtractCpuNumber(name) == -1
  {
    var d := name[3..];
    assert name == "cpu" + d;
    assert StartsWith(name, "cpu");
    assert RemoveAll(name, "cpu") == RemoveAll(d, "cpu");
    RemoveAllFromDigits(d);
    assert !(d[0] == '-' || d[0] == '+') by { assert IsAsciiDigit(d[0]); }
  }

  /**
   * Hence a directory whose number overflows an `Int` ("cpu2147483648") sorts before every
   * directory whose number fits, "cpu0" included.
   */
  lemma OverflowSortsFirst(big: nat, small: nat)
    requires big > INT_MAX && small <= INT_MAX
    ensures ExtractCpuNumber("cpu" + RenderNat(big)) == -1
    ensures ExtractCpuNumber("cpu" + RenderNat(small)) == small
    ensures ByCpuNumber("cpu" + RenderNat(big), "cpu" + RenderNat(small))
    ensures !ByCpuNumber("cpu" + RenderNat(small), "cpu" + RenderNat(big))
  {
    var b := "cpu" + RenderNat(big);
    var a := "cpu" + RenderNat(small);
    assert b[3..] == RenderNat(big) && a[3..] == RenderNat(small);
    CpuNumberOverflow(b);
    CpuNumberOfDirName(a);
  }

  /** `sortBy { extractCpuNumber(it) }`. */
  function ByCpuNumber(a: string, b: string): bool {
    ExtractCpuNumber(a) <= ExtractCpuNumber(b)
  }

  lemma ByCpuNumberIsPreorder()
    ensures TotalPreorder(ByCpuNumber)
  {
  }

  /** The `cpuN` directories in ascending order of N, a permutation of the filtered listing. */
  function OrderedCpuDirs(names: seq<string>): (dirs: seq<string>)
    ensures multiset(dirs) == multiset(CpuDirs(names))
    ensures forall i, j :: 0 <= i < j < |dirs| ==> ExtractCpuNumber(dirs[i]) <= ExtractCpuNumber(dirs[j])
  {
    ByCpuNumberIsPreorder();
    SortBySorted(CpuDirs(names), ByCpuNumber);
    SortBy(CpuDirs(names), ByCpuNumber)
  }

  /** The sorted folders are exactly the listing's `cpuN` names. */
  lemma OrderedCpuDirsMembers(names: seq<string>, name: string)
    ensures name in OrderedCpuDirs(names) <==> name in names && IsCpuDirName(name)
  {
    var dirs := OrderedCpuDirs(names);
    assert name in dirs <==> name in multiset(dirs);
    assert name in CpuDirs(names) <==> name in multiset(CpuDirs(names));
    CpuDirsMembers(names, name);
  }

  const OFFLINE: string := "offline or frequency not available"

  /**
   * The entry for one core, given the first line of its `scaling_cur_freq` (kHz): the MHz value
   * with truncating division, "N/A" for a non-`Int`, or the offline text when the file is
   * missing or its line is empty.
   */
  function FrequencyEntry(name: string, freqLine: Option<string>): (entry: string)
    ensures freqLine.None? || freqLine.value == [] ==> entry == name + ": " + OFFLINE
    ensures freqLine.Some? && freqLine.value != [] && ParseInt(Trim(freqLine.value)).None? ==>
      entry == name + ": N/A"
  {
    if freqLine.None? || freqLine.value == [] then name + ": " + OFFLINE
    else
      match ParseInt(Trim(freqLine.value))
      case None => name + ": N/A"
      case Some(khz) => name + ": " + Render(Quot(khz, 1000)) + " MHz"
  }

  /**
   * `getCpuFrequencies`, given the directory listing (`None` when it fails) and the first
   * line of each core's frequency file by directory name.
   */
  method GetCpuFrequencies(listing: Option<seq<string>>, freqLine: string -> Option<string>)
    returns (result: seq<string>)
    ensures listing.None? ==> result == []
    ensures listing.Some? ==>
      var dirs := OrderedCpuDirs(listing.value);
      |result| == |dirs| && forall i :: 0 <= i < |dirs| ==> result[i] == FrequencyEntry(dirs[i], freqLine(dirs[i]))
  {
    result := [];
    if listing.None? {
      return;
    }
    var files := CpuDirs(listing.value);
    if |files| == 0 {
      return;
    }
    var cpuFolders := OrderedCpuDirs(listing.value);
    for i := 0 to |cpuFolders|
      invariant |result| == i
      invariant forall k :: 0 <= k < i ==> result[k] == FrequencyEntry(cpuFolders[k], freqLine(cpuFolders[k]))
    {
      var cpu := cpuFolders[i];
      result := result + [FrequencyEntry(cpu, freqLine(cpu))];
    }
  }
}
