/**
 * Reading a session log back (src/com/android/gamebar/PerAppLogReader.kt, `analyzeLogFile`,
 * `calculateSessionDuration`, `extractSessionDate`): each comma-separated line feeds a set of
 * time series, the frame rates feed the statistics, and the first and last timestamps give the
 * session duration. The file's lines, the timestamp parser and the date formatter are
 * parameters.
 */
module PerAppLogReader {
  import opened Wrappers
  import opened Strings
  import opened Numbers
  import opened LogStatistics

  const COL_DATETIME: nat := 0
  const COL_PACKAGE_NAME: nat := 1
  const COL_FPS: nat := 2
  const COL_FRAME_TIME: nat := 3
  const COL_BATTERY_TEMP: nat := 4
  const COL_CPU_USAGE: nat := 5
  const COL_CPU_CLOCK: nat := 6
  const COL_CPU_TEMP: nat := 7
  const COL_RAM_USAGE: nat := 8
  const COL_RAM_SPEED: nat := 9
  const COL_RAM_TEMP: nat := 10
  const COL_GPU_USAGE: nat := 11
  const COL_GPU_CLOCK: nat := 12
  const COL_GPU_TEMP: nat := 13

  /** `Pair<Long, Double>`: milliseconds since the session start, and the sample. */
  datatype Point = Point(time: int, value: real)

  /** A metric's samples and, in the same order, its timed points. */
  datatype Channel = Channel(values: seq<real>, timeData: seq<Point>)

  /** Which samples a metric keeps: strictly positive ones, or also zero. */
  datatype Accept = Positive | NonNegative

  /**
   * The sample in one field: the trimmed text unless it is empty, "N/A", or (for the frame
   * rate and frame time) "-", read as a decimal and kept when the metric accepts its sign.
   */
  function FieldValue(field: string, accept: Accept, rejectDash: bool): (r: Option<real>)
    ensures r.Some? ==> ParseDecimal(Trim(field)) == r
    ensures r.Some? ==> if accept == Positive then r.value > 0.0 else r.value >= 0.0
  {
    var s := Trim(field);
    if s == [] || s == "N/A" || (rejectDash && s == "-") then None
    else
      match ParseDecimal(s)
      case None => None
      case Some(v) =>
        if (accept == Positive && v > 0.0) || (accept == NonNegative && v >= 0.0) then Some(v) else None
  }

  /** Conversely, a field whose trimmed text is a decimal of an accepted sign is kept. */
  lemma FieldValueKeeps(field: string, accept: Accept, rejectDash: bool)
    ensures var p := ParseDecimal(Trim(field));
      p.Some? && (if accept == Positive then p.value > 0.0 else p.value >= 0.0) ==>
        FieldValue(field, accept, rejectDash) == p
  {
    SentinelsDoNotParse();
  }

  /** Everything `analyzeLogFile` accumulates while reading. */
  datatype ParseState = ParseState(
    fps: Channel, frameTime: Channel, cpuUsage: Channel, cpuTemp: Channel,
    cpuClockTimeData: map<int, seq<Point>>,
    gpuUsage: Channel, gpuClock: Channel, gpuTemp: Channel,
    firstTimestamp: Option<string>, lastTimestamp: Option<string>, packageName: string,
    lineCount: int, sessionStartTimeMs: int)

  const EMPTY: Channel := Channel([], [])

  const INITIAL: ParseState := ParseState(EMPTY, EMPTY, EMPTY, EMPTY, map[], EMPTY, EMPTY, EMPTY,
                                          None, None, "", 0, 0)

  /**
   * The time of a non-FPS point: the latest FPS point's time once a session start is known,
   * otherwise the line number in seconds.
   */
  function RelativeTime(fps: Channel, sessionStartTimeMs: int, lineCount: int): int {
    if sessionStartTimeMs > 0 && fps.timeData != [] then fps.timeData[|fps.timeData| - 1].time
    else lineCount * 1000
  }

  /** A point appended to a channel when the column exists and its sample is kept. */
  function AddSample(ch: Channel, columns: seq<string>, col: nat, accept: Accept, rejectDash: bool, time: int): Channel {
    if |columns| > col then
      match FieldValue(columns[col], accept, rejectDash)
      case None => ch
      case Some(v) => Channel(ch.values + [v], ch.timeData + [Point(time, v)])
    else ch
  }

  /**
   * The FPS column, giving the new FPS channel and session start: a kept rate is timed by its
   * parsed timestamp relative to the session start (the first parsed timestamp, while the
   * start is still 0), or by the line number in seconds when the timestamp does not parse.
   */
  function FpsStep(fps: Channel, sessionStartTimeMs: int, lineCount: int, columns: seq<string>,
                   parseTime: string -> Option<int>): (r: (Channel, int))
    requires |columns| > COL_FPS
    ensures FieldValue(columns[COL_FPS], Positive, true).None? ==> r == (fps, sessionStartTimeMs)
    ensures sessionStartTimeMs != 0 ==> r.1 == sessionStartTimeMs
  {
    match FieldValue(columns[COL_FPS], Positive, true)
    case None => (fps, sessionStartTimeMs)
    case Some(value) =>
      match parseTime(Trim(columns[COL_DATETIME]))
      case None => (Channel(fps.values + [value], fps.timeData + [Point(lineCount * 1000, value)]), sessionStartTimeMs)
      case Some(timestamp) =>
        var start := if sessionStartTimeMs == 0 then timestamp else sessionStartTimeMs;
        (Channel(fps.values + [value], fps.timeData + [Point(timestamp - start, value)]), start)
  }

  /** The length of the run of ASCII digits at the start of `s`. */
  function DigitRun(s: string): (n: nat)
    ensures n <= |s|
    ensures forall k :: 0 <= k < n ==> IsAsciiDigit(s[k])
    ensures n < |s| ==> !IsAsciiDigit(s[n])
  {
    if s != [] && IsAsciiDigit(s[0]) then 1 + DigitRun(s[1..]) else 0
  }

  /**
   * A match of `(\d+)\s*MHz` at the start of `u`: the maximal digit run there, optional
   * spaces, then "MHz"; the value of the digits. Backtracking cannot help, as a shorter digit
   * run is followed by a digit.
   */
  function MhzPrefix(u: string): Option<nat> {
    var d := DigitRun(u);
    if d == 0 then None
    else
      var rest := u[d..];
      if StartsWith(rest[SpaceRun(rest)..], "MHz") then Some(DigitsValue(u[..d])) else None
  }

  /** A match starting at position `i` of `s`. */
  function MhzAt(s: string, i: nat): Option<nat>
    requires i <= |s|
  {
    MhzPrefix(s[i..])
  }

  /** The leftmost match at or after `i`. */
  function FindMhzFrom(s: string, i: nat): Option<nat>
    requires i <= |s|
    decreases |s| - i
  {
    if i == |s| then None
    else
      match MhzAt(s, i)
      case Some(v) => Some(v)
      case None => FindMhzFrom(s, i + 1)
  }

  /** `Regex("(\\d+)\\s*MHz").find(coreData)`, reduced to the captured number. */
  function FindMhz(s: string): Option<nat> {
    FindMhzFrom(s, 0)
  }

  /** The point for fragment `index` added under key `index` when the fragment matches. */
  function AddClock(clocks: map<int, seq<Point>>, index: nat, fragment: string, time: int): map<int, seq<Point>> {
    var mhz := FindMhz(fragment);
    if mhz.None? then clocks
    else clocks[index := (if index in clocks then clocks[index] else []) + [Point(time, mhz.value as real)]]
  }

  /** The clock map after the first `n` fragments, keyed by fragment position. */
  function AddClocks(clocks: map<int, seq<Point>>, fragments: seq<string>, n: nat, time: int): map<int, seq<Point>>
    requires n <= |fragments|
  {
    if n == 0 then clocks
    else AddClock(AddClocks(clocks, fragments, n - 1, time), n - 1, fragments[n - 1], time)
  }

  /** One more fragment adds its reading to the map built from the earlier ones. */
  lemma AddClocksNext(clocks: map<int, seq<Point>>, fragments: seq<string>, n: nat, time: int)
    requires n < |fragments|
    ensures AddClocks(clocks, fragments, n + 1, time) == AddClock(AddClocks(clocks, fragments, n, time), n, fragments[n], time)
  {
  }

  /** The CPU-clock column: the trimmed field split on ';', every fragment under its index. */
  function ClockStep(clocks: map<int, seq<Point>>, columns: seq<string>, time: int): map<int, seq<Point>> {
    if |columns| > COL_CPU_CLOCK then
      var s := Trim(columns[COL_CPU_CLOCK]);
      if s == [] || s == "N/A" then clocks
      else
        var fragments := Split(s, ';');
        AddClocks(clocks, fragments, |fragments|, time)
    else clocks
  }

  /** The columns of a line with at least three of them, after the line count was advanced. */
  function ColumnsStep(st: ParseState, columns: seq<string>, parseTime: string -> Option<int>): (r: ParseState)
    requires |columns| > COL_FPS
    ensures r.lineCount == st.lineCount
    ensures r.lastTimestamp == Some(Trim(columns[COL_DATETIME]))
    ensures st.firstTimestamp.Some? ==> r.firstTimestamp == st.firstTimestamp && r.packageName == st.packageName
    ensures st.firstTimestamp.None? ==>
      r.firstTimestamp == r.lastTimestamp && r.packageName == Trim(columns[COL_PACKAGE_NAME])
    ensures st.sessionStartTimeMs != 0 ==> r.sessionStartTimeMs == st.sessionStartTimeMs
  {
    var timestamp := Trim(columns[COL_DATETIME]);
    var (fps, start) := FpsStep(st.fps, st.sessionStartTimeMs, st.lineCount, columns, parseTime);
    var t := RelativeTime(fps, start, st.lineCount);
    ParseState(
      fps,
      AddSample(st.frameTime, columns, COL_FRAME_TIME, Positive, true, t),
      AddSample(st.cpuUsage, columns, COL_CPU_USAGE, NonNegative, false, t),
      AddSample(st.cpuTemp, columns, COL_CPU_TEMP, Positive, false, t),
      ClockStep(st.cpuClockTimeData, columns, t),
      AddSample(st.gpuUsage, columns, COL_GPU_USAGE, NonNegative, false, t),
      AddSample(st.gpuClock, columns, COL_GPU_CLOCK, Positive, false, t),
      AddSample(st.gpuTemp, columns, COL_GPU_TEMP, Positive, false, t),
      if st.firstTimestamp.None? then Some(timestamp) else st.firstTimestamp,
      Some(timestamp),
      if st.firstTimestamp.None? then Trim(columns[COL_PACKAGE_NAME]) else st.packageName,
      st.lineCount,
      start)
  }

  /** One data line: always counted; used only when it has at least three columns. */
  function ProcessLine(st: ParseState, line: string, parseTime: string -> Option<int>): ParseState {
    var columns := Split(line, ',');
    if |columns| > COL_FPS then ColumnsStep(Counted(st), columns, parseTime) else Counted(st)
  }

  /** The state with one more line counted. */
  function Counted(st: ParseState): ParseState {
    st.(lineCount := st.lineCount + 1)
  }

  /** The state after the data lines, in order. */
  function Fold(st: ParseState, lines: seq<string>, parseTime: string -> Option<int>): ParseState
    decreases |lines|
  {
    if lines == [] then st
    else ProcessLine(Fold(st, lines[..|lines| - 1], parseTime), lines[|lines| - 1], parseTime)
  }

  /** Folding one more line processes that line last. */
  lemma FoldExtend(st: ParseState, lines: seq<string>, i: nat, parseTime: string -> Option<int>)
    requires i < |lines|
    ensures Fold(st, lines[..i + 1], parseTime) == ProcessLine(Fold(st, lines[..i], parseTime), lines[i], parseTime)
  {
    assert lines[..i + 1][..i] == lines[..i];
  }

  /** The data lines: the first line is dropped when it contains "DateTime". */
  function DataLines(lines: seq<string>): seq<string> {
    if lines != [] && Contains(lines[0], "DateTime") then lines[1..] else lines
  }

  /**
   * A duration in milliseconds as "Xh Ym Zs", "Ym Zs" or "Zs", with truncating division and
   * remainder on each unit.
   */
  function FormatDuration(durationMs: int): string {
    var seconds := Rem(Quot(durationMs, 1000), 60);
    var minutes := Rem(Quot(durationMs, 1000 * 60), 60);
    var hours := Quot(durationMs, 1000 * 60 * 60);
    if hours > 0 then Render(hours) + "h " + Render(minutes) + "m " + Render(seconds) + "s"
    else if minutes > 0 then Render(minutes) + "m " + Render(seconds) + "s"
    else Render(seconds) + "s"
  }

  /**
   * The milliseconds between the first and last timestamps, when both are present and both
   * parse.
   */
  function ElapsedMs(first: Option<string>, last: Option<string>, parseTime: string -> Option<int>): Option<int> {
    if first.None? || last.None? then None
    else
      var start := parseTime(first.value);
      var end := parseTime(last.value);
      if start.Some? && end.Some? then Some(end.value - start.value) else None
  }

  /**
   * `calculateSessionDuration`: "Unknown" without both timestamps or when either does not
   * parse; otherwise the difference, formatted.
   */
  function SessionDuration(first: Option<string>, last: Option<string>, parseTime: string -> Option<int>): string {
    var elapsed := ElapsedMs(first, last, parseTime);
    if elapsed.Some? then FormatDuration(elapsed.value) else "Unknown"
  }

  /**
   * The length of the line terminator ending `s`, before which `$` also matches: "\r\n", or
   * one of '\n', '\r', U+0085, U+2028, U+2029.
   */
  function TerminatorLength(s: string): (n: nat)
    ensures n <= |s|
  {
    if |s| >= 2 && s[|s| - 2..] == "\r\n" then 2
    else if |s| >= 1 && (s[|s| - 1] == '\n' || s[|s| - 1] == '\r' || s[|s| - 1] == '\U{0085}'
                         || s[|s| - 1] == '\U{2028}' || s[|s| - 1] == '\U{2029}') then 1
    else 0
  }

  /** `s` ends in `_` + 8 digits + `_` + 6 digits + ".csv". */
  predicate EndsWithStamp(s: string) {
    |s| >= 20 && s[|s| - 20] == '_' && AllDigits(s[|s| - 19..|s| - 11]) && s[|s| - 11] == '_'
    && AllDigits(s[|s| - 10..|s| - 4]) && s[|s| - 4..] == ".csv"
  }

  /**
   * `Regex("_(\\d{8})_(\\d{6})\\.csv$").find(fileName)`: the two groups concatenated, when the
   * name (less a final line terminator) ends with the pattern.
   */
  function SessionStamp(fileName: string): (r: Option<string>)
    ensures r.Some? ==> |r.value| == 14 && AllDigits(r.value)
  {
    var core := fileName[..|fileName| - TerminatorLength(fileName)];
    if EndsWithStamp(core) then Some(core[|core| - 19..|core| - 11] + core[|core| - 10..|core| - 4])
    else None
  }

  /**
   * `extractSessionDate`, given the date conversion `yyyyMMddHHmmss` -> `MMM dd, yyyy HH:mm`
   * (`None` when the parse fails).
   */
  function SessionDate(fileName: string, formatStamp: string -> Option<string>): string {
    match SessionStamp(fileName)
    case None => "Unknown Date"
    case Some(stamp) =>
      match formatStamp(stamp)
      case None => "Unknown Date"
      case Some(date) => date
  }

  /** `LogAnalytics`, without the standard deviation. */
  datatype LogAnalytics = LogAnalytics(
    fpsStats: FpsStatistics, cpuStats: CpuStatistics, gpuStats: GpuStatistics,
    sessionDuration: string, totalSamples: int, appName: string, sessionDate: string,
    fpsTimeData: seq<Point>, frameTimeData: seq<Point>, cpuUsageTimeData: seq<Point>,
    cpuTempTimeData: seq<Point>, cpuClockTimeData: map<int, seq<Point>>,
    gpuUsageTimeData: seq<Point>, gpuTempTimeData: seq<Point>, gpuClockTimeData: seq<Point>)

  /** The analytics of a finished read: `None` when no FPS sample was kept. */
  function Report(st: ParseState, fileName: string, parseTime: string -> Option<int>,
                  formatStamp: string -> Option<string>): Option<LogAnalytics> {
    if st.fps.values == [] then None
    else
      Some(LogAnalytics(
        FpsStats(st.fps.values),
        CpuStats(st.cpuUsage.values, st.cpuTemp.values),
        GpuStats(st.gpuUsage.values, st.gpuClock.values, st.gpuTemp.values),
        SessionDuration(st.firstTimestamp, st.lastTimestamp, parseTime),
        |st.fps.values|, st.packageName, SessionDate(fileName, formatStamp),
        st.fps.timeData, st.frameTime.timeData, st.cpuUsage.timeData, st.cpuTemp.timeData,
        st.cpuClockTimeData, st.gpuUsage.timeData, st.gpuTemp.timeData, st.gpuClock.timeData))
  }

  /**
   * `analyzeLogFile` as a function of the file's lines (`None` when the file is missing or
   * unreadable).
   */
  function Analyze(file: Option<seq<string>>, fileName: string, parseTime: string -> Option<int>,
                   formatStamp: string -> Option<string>): Option<LogAnalytics> {
    if file.None? then None
    else Report(Fold(INITIAL, DataLines(file.value), parseTime), fileName, parseTime, formatStamp)
  }

  /** The `forEachIndexed` over the fragments of the CPU-clock field. */
  method AddClockFragments(clocks: map<int, seq<Point>>, fragments: seq<string>, time: int)
    returns (r: map<int, seq<Point>>)
    ensures r == AddClocks(clocks, fragments, |fragments|, time)
  {
    r := clocks;
    for index := 0 to |fragments|
      invariant r == AddClocks(clocks, fragments, index, time)
    {
      ghost var before := r;
      var mhz := FindMhz(fragments[index]);
      if mhz.Some? {
        var points := if index in r then r[index] else [];
        r := r[index := points + [Point(time, mhz.value as real)]];
      }
      assert r == AddClock(before, index, fragments[index], time);
      AddClocksNext(clocks, fragments, index, time);
    }
  }

  /**
   * The body of the read loop for a line with at least three columns, after the line count
   * was advanced: the FPS column first, then every other column the line has, each timed by
   * the same relative time, then the first and last timestamps.
   */
  method ReadColumns(st: ParseState, columns: seq<string>, parseTime: string -> Option<int>)
    returns (r: ParseState)
    requires |columns| > COL_FPS
    ensures r == ColumnsStep(st, columns, parseTime)
  {
    r := st;
    var timestampStr := Trim(columns[COL_DATETIME]);
    var fpsStep := FpsStep(r.fps, r.sessionStartTimeMs, r.lineCount, columns, parseTime);
    r := r.(fps := fpsStep.0, sessionStartTimeMs := fpsStep.1);
    var relativeTime := RelativeTime(r.fps, r.sessionStartTimeMs, r.lineCount);
    r := r.(frameTime := AddSample(r.frameTime, columns, COL_FRAME_TIME, Positive, true, relativeTime));
    r := r.(cpuUsage := AddSample(r.cpuUsage, columns, COL_CPU_USAGE, NonNegative, false, relativeTime));
    r := r.(cpuTemp := AddSample(r.cpuTemp, columns, COL_CPU_TEMP, Positive, false, relativeTime));
    if |columns| > COL_CPU_CLOCK {
      var cpuClockStr := Trim(columns[COL_CPU_CLOCK]);
      if cpuClockStr != [] && cpuClockStr != "N/A" {
        var clocks := AddClockFragments(r.cpuClockTimeData, Split(cpuClockStr, ';'), relativeTime);
        r := r.(cpuClockTimeData := clocks);
      }
    }
    r := r.(gpuUsage := AddSample(r.gpuUsage, columns, COL_GPU_USAGE, NonNegative, false, relativeTime));
    r := r.(gpuClock := AddSample(r.gpuClock, columns, COL_GPU_CLOCK, Positive, false, relativeTime));
    r := r.(gpuTemp := AddSample(r.gpuTemp, columns, COL_GPU_TEMP, Positive, false, relativeTime));
    if r.firstTimestamp.None? {
      r := r.(firstTimestamp := Some(timestampStr), packageName := Trim(columns[COL_PACKAGE_NAME]));
    }
    r := r.(lastTimestamp := Some(timestampStr));
  }

  /**
   * `analyzeLogFile`: the header is skipped, then every line is counted and, when it has at
   * least three columns, read by `ReadColumns`; the accumulated series are gathered in one
   * `ParseState`.
   */
  method AnalyzeLogFile(file: Option<seq<string>>, fileName: string, parseTime: string -> Option<int>,
                        formatStamp: string -> Option<string>)
    returns (r: Option<LogAnalytics>)
    ensures r == Analyze(file, fileName, parseTime, formatStamp)
  {
    if file.None? {
      return None;
    }
    var lines := DataLines(file.value);
    var st := INITIAL;
    var i := 0;
    while i < |lines|
      invariant 0 <= i <= |lines|
      invariant st == Fold(INITIAL, lines[..i], parseTime)
    {
      ghost var before := st;
      var line := lines[i];
      st := st.(lineCount := st.lineCount + 1);
      assert st == Counted(before);
      var columns := Split(line, ',');
      if |columns| > COL_FPS {
        st := ReadColumns(st, columns, parseTime);
        ProcessLineReadsColumns(before, line, parseTime);
      } else {
        ShortLineOnlyCounted(before, line, parseTime);
      }
      FoldExtend(INITIAL, lines, i, parseTime);
      i := i + 1;
    }
    assert lines[..|lines|] == lines;
    r := Report(st, fileName, parseTime, formatStamp);
  }

  /** The frame rates a list of data lines contributes, read line by line on their own. */
  function FpsSamples(lines: seq<string>): seq<real> {
    if lines == [] then []
    else
      var kept := KeptFps(lines[|lines| - 1]);
      FpsSamples(lines[..|lines| - 1]) + (if kept.Some? then [kept.value] else [])
  }

  /** The frame rate one line keeps, if any. */
  function KeptFps(line: string): Option<real> {
    var columns := Split(line, ',');
    if |columns| > COL_FPS then FieldValue(columns[COL_FPS], Positive, true) else None
  }

  /** One line appends its kept frame rate, if any, and advances the line count. */
  lemma ProcessLineCounts(st: ParseState, line: string, parseTime: string -> Option<int>)
    ensures var kept := KeptFps(line);
      ProcessLine(st, line, parseTime).fps.values == st.fps.values + (if kept.Some? then [kept.value] else [])
    ensures ProcessLine(st, line, parseTime).lineCount == st.lineCount + 1
  {
    var columns := Split(line, ',');
    if |columns| > COL_FPS {
      ProcessLineReadsColumns(st, line, parseTime);
      ColumnsStepCounts(Counted(st), columns, parseTime);
    } else {
      ShortLineOnlyCounted(st, line, parseTime);
    }
  }

  /** Reading the columns appends the kept frame rate, if any, and leaves the line count. */
  lemma ColumnsStepCounts(st: ParseState, columns: seq<string>, parseTime: string -> Option<int>)
    requires |columns| > COL_FPS
    ensures var kept := FieldValue(columns[COL_FPS], Positive, true);
      ColumnsStep(st, columns, parseTime).fps.values == st.fps.values + (if kept.Some? then [kept.value] else [])
    ensures ColumnsStep(st, columns, parseTime).lineCount == st.lineCount
  {
    var step := FpsStep(st.fps, st.sessionStartTimeMs, st.lineCount, columns, parseTime);
    assert ColumnsStep(st, columns, parseTime).fps == step.0;
    FpsStepValues(st.fps, st.sessionStartTimeMs, st.lineCount, columns, parseTime);
  }

  /** The FPS column appends its kept rate, if any, to the rates so far. */
  lemma FpsStepValues(fps: Channel, sessionStartTimeMs: int, lineCount: int, columns: seq<string>,
                      parseTime: string -> Option<int>)
    requires |columns| > COL_FPS
    ensures var kept := FieldValue(columns[COL_FPS], Positive, true);
      FpsStep(fps, sessionStartTimeMs, lineCount, columns, parseTime).0.values
        == fps.values + (if kept.Some? then [kept.value] else [])
  {
    var kept := FieldValue(columns[COL_FPS], Positive, true);
    var step := FpsStep(fps, sessionStartTimeMs, lineCount, columns, parseTime);
    if kept.None? {
      assert step.0 == fps;
    } else {
      assert step.0.values == fps.values + [kept.value];
    }
  }

  /**
   * Reading appends exactly the lines' kept frame rates, and counts every line, whatever its
   * shape.
   */
  lemma {:induction false} FoldCounts(st: ParseState, lines: seq<string>, parseTime: string -> Option<int>)
    ensures Fold(st, lines, parseTime).fps.values == st.fps.values + FpsSamples(lines)
    ensures Fold(st, lines, parseTime).lineCount == st.lineCount + |lines|
  {
    if lines != [] {
      var init := lines[..|lines| - 1];
      var last := lines[|lines| - 1];
      FoldCounts(st, init, parseTime);
      ProcessLineCounts(Fold(st, init, parseTime), last, parseTime);
      var kept := KeptFps(last);
      assert FpsSamples(lines) == FpsSamples(init) + (if kept.Some? then [kept.value] else []);
    }
  }

  /**
   * The log yields no analytics exactly when no frame rate is kept; otherwise `totalSamples`
   * is the number of kept rates and the statistics are those of the kept rates.
   */
  lemma AnalyzeReportsKeptFps(lines: seq<string>, fileName: string, parseTime: string -> Option<int>,
                              formatStamp: string -> Option<string>)
    ensures var r := Analyze(Some(lines), fileName, parseTime, formatStamp);
      var kept := FpsSamples(DataLines(lines));
      && (r.None? <==> kept == [])
      && (r.Some? ==> r.value.totalSamples == |kept| && r.value.fpsStats == FpsStats(kept))
  {
    var st := Fold(INITIAL, DataLines(lines), parseTime);
    FoldCounts(INITIAL, DataLines(lines), parseTime);
    assert st.fps.values == FpsSamples(DataLines(lines));
  }

  /** A line with fewer than three columns changes nothing but the line count. */
  lemma ShortLineOnlyCounted(st: ParseState, line: string, parseTime: string -> Option<int>)
    requires |Split(line, ',')| < 3
    ensures ProcessLine(st, line, parseTime) == st.(lineCount := st.lineCount + 1)
  {
  }

  /** Each sample list matches, in order, the values of its timed points. */
  predicate Aligned(ch: Channel) {
    ch.values == PointValues(ch.timeData)
  }

  /** The values of a series of points, in order. */
  function PointValues(points: seq<Point>): (r: seq<real>)
    ensures |r| == |points|
    ensures forall k :: 0 <= k < |points| ==> r[k] == points[k].value
  {
    if points == [] then [] else PointValues(points[..|points| - 1]) + [points[|points| - 1].value]
  }

  predicate AllAligned(st: ParseState) {
    Aligned(st.fps) && Aligned(st.frameTime) && Aligned(st.cpuUsage) && Aligned(st.cpuTemp)
    && Aligned(st.gpuUsage) && Aligned(st.gpuClock) && Aligned(st.gpuTemp)
  }

  /** Appending a value together with its timed point keeps a channel aligned. */
  lemma AppendAligned(ch: Channel, time: int, v: real)
    requires Aligned(ch)
    ensures Aligned(Channel(ch.values + [v], ch.timeData + [Point(time, v)]))
  {
    var points := ch.timeData + [Point(time, v)];
    assert points[..|points| - 1] == ch.timeData;
  }

  lemma AddSampleAligned(ch: Channel, columns: seq<string>, col: nat, accept: Accept, rejectDash: bool, time: int)
    requires Aligned(ch)
    ensures Aligned(AddSample(ch, columns, col, accept, rejectDash, time))
  {
    if |columns| > col {
      var v := FieldValue(columns[col], accept, rejectDash);
      if v.Some? {
        AppendAligned(ch, time, v.value);
      }
    }
  }

  lemma FpsStepAligned(fps: Channel, sessionStartTimeMs: int, lineCount: int, columns: seq<string>,
                       parseTime: string -> Option<int>)
    requires |columns| > COL_FPS && Aligned(fps)
    ensures Aligned(FpsStep(fps, sessionStartTimeMs, lineCount, columns, parseTime).0)
  {
    match FieldValue(columns[COL_FPS], Positive, true)
    case None =>
    case Some(value) =>
      match parseTime(Trim(columns[COL_DATETIME]))
      case None =>
        AppendAligned(fps, lineCount * 1000, value);
      case Some(timestamp) =>
        var start := if sessionStartTimeMs == 0 then timestamp else sessionStartTimeMs;
        AppendAligned(fps, timestamp - start, value);
  }

  /** One line with enough columns keeps every sample list in step with its timed points. */
  lemma ColumnsStepAligned(st: ParseState, columns: seq<string>, parseTime: string -> Option<int>)
    requires |columns| > COL_FPS && AllAligned(st)
    ensures AllAligned(ColumnsStep(st, columns, parseTime))
  {
    var step := FpsStep(st.fps, st.sessionStartTimeMs, st.lineCount, columns, parseTime);
    FpsStepAligned(st.fps, st.sessionStartTimeMs, st.lineCount, columns, parseTime);
    var t := RelativeTime(step.0, step.1, st.lineCount);
    AddSampleAligned(st.frameTime, columns, COL_FRAME_TIME, Positive, true, t);
    AddSampleAligned(st.cpuUsage, columns, COL_CPU_USAGE, NonNegative, false, t);
    AddSampleAligned(st.cpuTemp, columns, COL_CPU_TEMP, Positive, false, t);
    AddSampleAligned(st.gpuUsage, columns, COL_GPU_USAGE, NonNegative, false, t);
    AddSampleAligned(st.gpuClock, columns, COL_GPU_CLOCK, Positive, false, t);
    AddSampleAligned(st.gpuTemp, columns, COL_GPU_TEMP, Positive, false, t);
  }

  /** One line keeps every sample list in step with its timed points. */
  lemma ProcessLineAligned(st: ParseState, line: string, parseTime: string -> Option<int>)
    requires AllAligned(st)
    ensures AllAligned(ProcessLine(st, line, parseTime))
  {
    var counted := Counted(st);
    var columns := Split(line, ',');
    if |columns| > COL_FPS {
      ProcessLineReadsColumns(st, line, parseTime);
      ColumnsStepAligned(counted, columns, parseTime);
    } else {
      ShortLineOnlyCounted(st, line, parseTime);
      assert AllAligned(counted);
    }
  }

  /** A line with at least three columns is counted, then read column by column. */
  lemma ProcessLineReadsColumns(st: ParseState, line: string, parseTime: string -> Option<int>)
    requires |Split(line, ',')| > COL_FPS
    ensures ProcessLine(st, line, parseTime) ==
      ColumnsStep(Counted(st), Split(line, ','), parseTime)
  {
  }

  /** Reading keeps every sample list in step with its timed points. */
  lemma {:induction false} FoldAligned(st: ParseState, lines: seq<string>, parseTime: string -> Option<int>)
    requires AllAligned(st)
    ensures AllAligned(Fold(st, lines, parseTime))
  {
    if lines != [] {
      var prev := Fold(st, lines[..|lines| - 1], parseTime);
      FoldAligned(st, lines[..|lines| - 1], parseTime);
      ProcessLineAligned(prev, lines[|lines| - 1], parseTime);
    }
  }

  /** Once set to a non-zero time, the session start never moves again. */
  lemma {:induction false} SessionStartFixed(st: ParseState, lines: seq<string>, parseTime: string -> Option<int>)
    requires st.sessionStartTimeMs != 0
    ensures Fold(st, lines, parseTime).sessionStartTimeMs == st.sessionStartTimeMs
  {
    if lines != [] {
      SessionStartFixed(st, lines[..|lines| - 1], parseTime);
    }
  }

  /**
   * The point a kept frame rate gets: its timestamp minus the session start, where the first
   * parsed timestamp starts the session at 0; the line's number times 1000 when the timestamp
   * does not parse.
   */
  lemma FpsPointTime(st: ParseState, line: string, parseTime: string -> Option<int>)
    requires var columns := Split(line, ',');
      |columns| > COL_FPS && FieldValue(columns[COL_FPS], Positive, true).Some?
    ensures var columns := Split(line, ',');
      var after := ProcessLine(st, line, parseTime);
      var fps := FieldValue(columns[COL_FPS], Positive, true).value;
      && after.fps.values == st.fps.values + [fps]
      && |after.fps.timeData| == |st.fps.timeData| + 1
      && var p := after.fps.timeData[|after.fps.timeData| - 1];
      && p.value == fps
      && match parseTime(Trim(columns[COL_DATETIME]))
         case None => p.time == (st.lineCount + 1) * 1000 && after.sessionStartTimeMs == st.sessionStartTimeMs
         case Some(t) =>
           if st.sessionStartTimeMs == 0 then p.time == 0 && after.sessionStartTimeMs == t
           else p.time == t - st.sessionStartTimeMs && after.sessionStartTimeMs == st.sessionStartTimeMs
  {
  }

  /** A kept frame rate always adds a point. */
  lemma FpsStepKeeps(fps: Channel, sessionStartTimeMs: int, lineCount: int, columns: seq<string>,
                     parseTime: string -> Option<int>)
    requires |columns| > COL_FPS && FieldValue(columns[COL_FPS], Positive, true).Some?
    ensures |FpsStep(fps, sessionStartTimeMs, lineCount, columns, parseTime).0.timeData| == |fps.timeData| + 1
  {
  }

  /** A sample a channel gains is placed at the time it was given. */
  lemma AddSampleTimed(ch: Channel, columns: seq<string>, col: nat, accept: Accept, rejectDash: bool, time: int)
    ensures var r := AddSample(ch, columns, col, accept, rejectDash, time);
      |r.timeData| > |ch.timeData| ==> r.timeData[|r.timeData| - 1].time == time
  {
  }

  /** Whether a channel gained a point timed `time`, or stayed as it was. */
  predicate GainedAt(before: Channel, after: Channel, time: int) {
    |after.timeData| > |before.timeData| ==> after.timeData[|after.timeData| - 1].time == time
  }

  /** Whether every other channel gained its point, if any, at time `time`. */
  predicate AllGainedAt(before: ParseState, after: ParseState, time: int) {
    && GainedAt(before.frameTime, after.frameTime, time)
    && GainedAt(before.cpuUsage, after.cpuUsage, time)
    && GainedAt(before.cpuTemp, after.cpuTemp, time)
    && GainedAt(before.gpuUsage, after.gpuUsage, time)
    && GainedAt(before.gpuClock, after.gpuClock, time)
    && GainedAt(before.gpuTemp, after.gpuTemp, time)
  }

  /**
   * Once a session start is known, every other sample of a data line that keeps a frame rate
   * is placed at that frame rate's time.
   */
  lemma SameLineSameTime(st: ParseState, columns: seq<string>, parseTime: string -> Option<int>)
    requires |columns| > COL_FPS && FieldValue(columns[COL_FPS], Positive, true).Some?
    requires ColumnsStep(st, columns, parseTime).sessionStartTimeMs > 0
    ensures var after := ColumnsStep(st, columns, parseTime);
      && after.fps.timeData != []
      && AllGainedAt(st, after, after.fps.timeData[|after.fps.timeData| - 1].time)
  {
    var step := FpsStep(st.fps, st.sessionStartTimeMs, st.lineCount, columns, parseTime);
    FpsStepKeeps(st.fps, st.sessionStartTimeMs, st.lineCount, columns, parseTime);
    var t := RelativeTime(step.0, step.1, st.lineCount);
    AddSampleTimed(st.frameTime, columns, COL_FRAME_TIME, Positive, true, t);
    AddSampleTimed(st.cpuUsage, columns, COL_CPU_USAGE, NonNegative, false, t);
    AddSampleTimed(st.cpuTemp, columns, COL_CPU_TEMP, Positive, false, t);
    AddSampleTimed(st.gpuUsage, columns, COL_GPU_USAGE, NonNegative, false, t);
    AddSampleTimed(st.gpuClock, columns, COL_GPU_CLOCK, Positive, false, t);
    AddSampleTimed(st.gpuTemp, columns, COL_GPU_TEMP, Positive, false, t);
  }

  /**
   * Every sample of a data line other than the frame rate is placed at one time: the time of
   * the frame-rate point after this line once a session start is known, otherwise the line
   * number in seconds.
   */
  lemma ColumnsStepTimes(st: ParseState, columns: seq<string>, parseTime: string -> Option<int>)
    requires |columns| > COL_FPS
    ensures var step := FpsStep(st.fps, st.sessionStartTimeMs, st.lineCount, columns, parseTime);
      AllGainedAt(st, ColumnsStep(st, columns, parseTime), RelativeTime(step.0, step.1, st.lineCount))
    ensures var after := ColumnsStep(st, columns, parseTime);
      after.sessionStartTimeMs <= 0 ==> AllGainedAt(st, after, st.lineCount * 1000)
  {
    var step := FpsStep(st.fps, st.sessionStartTimeMs, st.lineCount, columns, parseTime);
    var t := RelativeTime(step.0, step.1, st.lineCount);
    AddSampleTimed(st.frameTime, columns, COL_FRAME_TIME, Positive, true, t);
    AddSampleTimed(st.cpuUsage, columns, COL_CPU_USAGE, NonNegative, false, t);
    AddSampleTimed(st.cpuTemp, columns, COL_CPU_TEMP, Positive, false, t);
    AddSampleTimed(st.gpuUsage, columns, COL_GPU_USAGE, NonNegative, false, t);
    AddSampleTimed(st.gpuClock, columns, COL_GPU_CLOCK, Positive, false, t);
    AddSampleTimed(st.gpuTemp, columns, COL_GPU_TEMP, Positive, false, t);
  }
}
