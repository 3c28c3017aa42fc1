# GameBar telemetry, modelled in Dafny

GameBar is an Android performance overlay. It samples the frame rate, CPU, GPU, memory and
temperature nodes of the device, buffers the samples as CSV rows, and later reads a session
log back into statistics. This project models the telemetry path of that app and proves
properties of it:

- **Session log reader** (`PerAppLogReader`, `LogStatistics`, `LogReaderClocks`,
  `LogReaderSessions`, `LogReaderCsv`). `analyzeLogFile` reads a comma-separated log line by
  line into per-metric sample lists, timed points and a per-core clock map. Its statistics
  are frame-rate min/max/mean, population variance, 1 % and 0.1 % lows and smoothness, plus
  CPU/GPU min/max/mean. It also gives the session duration from the first and last timestamps
  and the session date from the file name. The read loop is a method, proved equal to a fold
  over the lines; the statistics are functions over `real`.
- **Sysfs detector** (`SysfsDetection`). It picks the first readable node of a ranked
  candidate list and caches it per metric. It infers the temperature divider from one raw
  reading. The object is a class with two map fields.
- **Capture buffer** (`GameDataExport`). It holds a capture flag, a logging mode and the
  global row table. The table is capped at 10 000 rows by dropping the oldest half of the data
  rows while keeping the header row. It also holds the CSV header and the comma join that the
  reader later splits.
- **CPU counters** (`CpuInfo`). The usage delta between two `/proc/stat` aggregate lines is
  kept in a class holding the previous counters. The per-core frequency list is sorted by core
  number.
- **Memory usage** (`MemInfo`). `/proc/meminfo` is scanned with an early exit, and the used
  memory is reported in MiB.
- **GPU conversions** (`GpuInfo`). The busy percentage and the clock are parsed and
  normalised.
- **Font list** (`FontSelector`). The overlay's font choices are built from the asset listing:
  default first, then the assets sorted by a title-cased display name.

The shared modules `Numbers` (JVM `toInt`/`toLong`/`toString`, truncating `/` and `%`, decimal
parsing), `Strings` (Kotlin `split`, `joinToString`, `trim`, `\s+` splitting, …), `Sorting`
(the library's stable sort) and `Wrappers` (`Option`, `Result`) model the library calls the
code relies on.

I/O is passed in as values:
- a file's lines, or `None` when it cannot be read;
- the first line of a sysfs node;
- a `FileSystem` record (`readable`, `content`);
- the asset listing and the stored preference;
- the `yyyy-MM-dd HH:mm:ss` parser, as `string -> Option<int>` milliseconds;
- the session-date formatter, as `string -> Option<string>`.

Kotlin `Double` values are exact `real`s.

Four behaviours of the code are easy to misread, and the model keeps them as written:
- The temperature divider bands are inclusive at both ends (`20000..50000`, …), so 50000
  gives 1000 and 100 gives 1.
- A percentile low averages `max(1, ⌊n·p⌋)` values: `(n * p).toInt()` truncates, so any log
  with fewer than 100 samples reports both lows as the minimum.
- A last timestamp before the first still gives a formatted duration, not "Unknown": the
  truncating division and remainder give the negative seconds within the minute, so −65 000 ms
  shows as "-5s".
- `SysfsDetector` resolves only the FPS and battery-temperature paths; it has no
  CPU-temperature path resolver.

## Model

| member | source | states |
|---|---|---|
| SysfsDetection.DividerForReading | src/com/android/gamebar/utils/sysfsdetector.kt:42-48 | the divider chosen for any raw reading is one of 1, 10, 100, 1000 |
| SysfsDetection.BandedReadingIsPlausible | src/com/android/gamebar/utils/sysfsdetector.kt:42-48 | a reading in one of the four inclusive bands, divided by its divider, is a temperature between 20 and 100 °C |
| SysfsDetection.UnbandedReadingDefaults | src/com/android/gamebar/utils/sysfsdetector.kt:42-48 | a reading outside every band falls back to the divider 1000 |
| SysfsDetection.DividerExamples | src/com/android/gamebar/utils/sysfsdetector.kt:42-48 | 35000, 3500, 350 and 35 give 1000, 100, 10 and 1; 999999 gives 1000; the upper band ends 50000, 5000, 500, 100 are inside their bands |
| SysfsDetection.DetectTemperatureDivider | src/com/android/gamebar/utils/sysfsdetector.kt:31-56 | a missing or unreadable node, a failed read, or content that is not an `Int` gives 1000; otherwise the divider is that of the parsed reading; always in {1, 10, 100, 1000} |
| SysfsDetection.FirstReadable | src/com/android/gamebar/utils/sysfsdetector.kt:101-111 | nothing is found exactly when no candidate is readable; a found path is a readable candidate with no readable candidate before it |
| SysfsDetection.SysfsDetector.constructor | src/com/android/gamebar/utils/sysfsdetector.kt:19-22 | both caches start empty |
| SysfsDetection.SysfsDetector.DetectPath | src/com/android/gamebar/utils/sysfsdetector.kt:97-113 | a cached path is returned without probing; otherwise (nothing cached or a cached failure) the first readable candidate of the current filesystem; the outcome, found or not, is cached under the key and no other key changes |
| SysfsDetection.SysfsDetector.GetFpsPath | src/com/android/gamebar/utils/sysfsdetector.kt:117 | the FPS path is resolved over the FPS candidate list and cached under "fps" |
| SysfsDetection.SysfsDetector.GetBatteryTempPath | src/com/android/gamebar/utils/sysfsdetector.kt:119 | the battery path is resolved over the battery candidate list and cached under "battery_temp" |
| SysfsDetection.SysfsDetector.GetBatteryTempInfo | src/com/android/gamebar/utils/sysfsdetector.kt:61-73 | no path gives (none, 1000) and caches no divider; with a path, a cached divider is served unchanged, otherwise the divider is detected from that path and cached |
| SysfsDetection.SysfsDetector.ResetDetection | src/com/android/gamebar/utils/sysfsdetector.kt:124-127 | every cached path is forgotten while the cached dividers survive |
| SysfsDetection.SysfsDetector.IsComponentSupported | src/com/android/gamebar/utils/sysfsdetector.kt:132-138 | "fps" and "battery_temp" are supported exactly when their path resolves (and the lookup is cached); any other name is unsupported and changes nothing |
| GameDataExport.CsvLineRoundTrip | src/com/android/gamebar/GameDataExport.kt:201-203 | for comma-free fields, splitting the CSV line on commas recovers exactly the fields |
| GameDataExport.TrimOldestKeepsNewest | src/com/android/gamebar/GameDataExport.kt:123-133 | trimming keeps row 0, keeps the newest data rows in their order, halves a full table, leaves a table under the cap alone, and always leaves room for one more row |
| GameDataExport.OverlayRow | src/com/android/gamebar/GameDataExport.kt:135-150 | the appended row has one field per header column |
| GameDataExport.GameDataExport.constructor | src/com/android/gamebar/GameDataExport.kt:60-64 | a new exporter is idle, in per-app mode, with an empty table |
| GameDataExport.GameDataExport.StartCapture | src/com/android/gamebar/GameDataExport.kt:72-79 | capturing starts; in global mode the table restarts as the header alone, in per-app mode it is untouched |
| GameDataExport.GameDataExport.StopCapture | src/com/android/gamebar/GameDataExport.kt:81-87 | capturing stops |
| GameDataExport.GameDataExport.ClearData | src/com/android/gamebar/GameDataExport.kt:89-92 | the table becomes the header alone in any mode, so its size is 1 |
| GameDataExport.GameDataExport.GetDataSize | src/com/android/gamebar/GameDataExport.kt:94-96 | the number of rows, header included |
| GameDataExport.GameDataExport.IsCapturing | src/com/android/gamebar/GameDataExport.kt:98-100 | the capture flag |
| GameDataExport.GameDataExport.SetLoggingMode | src/com/android/gamebar/GameDataExport.kt:205-207 | the mode becomes the one given |
| GameDataExport.GameDataExport.RemoveOldestHalf | src/com/android/gamebar/GameDataExport.kt:125-132 | removing index 1 `size/2` times leaves row 0 followed by the rows after the oldest `size/2` data rows |
| GameDataExport.GameDataExport.AddOverlayData | src/com/android/gamebar/GameDataExport.kt:102-173 | nothing changes while not capturing or in per-app mode; in global mode the table is trimmed if full and the new row is appended last, and the table never exceeds 10 000 rows |
| GameDataExport.GameDataExport.ExportDataToCsv | src/com/android/gamebar/GameDataExport.kt:175-199 | nothing is written unless the mode is global and there are at least two rows; otherwise one CSV line per row, in table order |
| CpuInfo.ParseLongs | src/com/android/gamebar/GameBarCpuInfo.kt:27-34 | the counters parse exactly when every field is a `Long`, and then each value is its field's |
| CpuInfo.ParseCounters | src/com/android/gamebar/GameBarCpuInfo.kt:26-36 | a line is usable exactly when fields 1-7, and field 8 when present, are `Long`s; idle is field 4 |
| CpuInfo.UsagePercent | src/com/android/gamebar/GameBarCpuInfo.kt:39-41 | when idle time grew by no more than the total, the truncated busy percentage is within 0..100 |
| CpuInfo.UsageStepInRange | src/com/android/gamebar/GameBarCpuInfo.kt:38-45 | after a first usable line, a line whose counters moved forward reports a string that reads back as a percentage within 0..100 |
| CpuInfo.UsageStepNotAvailable | src/com/android/gamebar/GameBarCpuInfo.kt:21-52 | an unusable line, or the first usable one, reports "N/A"; an unusable line leaves the stored counters unchanged |
| CpuInfo.CpuUsageMeter.constructor | src/com/android/gamebar/GameBarCpuInfo.kt:17-18 | both stored counters start at -1 |
| CpuInfo.CpuUsageMeter.GetCpuUsage | src/com/android/gamebar/GameBarCpuInfo.kt:20-53 | the reported text and the new stored counters are those of one usage step on the line read |
| CpuInfo.CpuUsageMeter.Update | src/com/android/gamebar/GameBarCpuInfo.kt:36-49 | given the counters, compare with the stored ones, store them and report |
| CpuInfo.ReadSample | src/com/android/gamebar/GameBarCpuInfo.kt:21-36 | a line yields counters exactly when it is present, starts with "cpu ", has at least 8 whitespace-separated fields and fields 1-7 (and 8 when present) are `Long`s; a missing line, a non-aggregate line, a short line or a non-numeric counter gives none; idle is field 4 and the total is fields 1-7 plus steal only when a ninth field exists, the total every usage percentage is computed from |
| CpuInfo.ParsedTotal | src/com/android/gamebar/GameBarCpuInfo.kt:27-36 | parsed counters total fields 1-7 plus field 8 (steal) only when a ninth field exists |
| CpuInfo.CounterFieldsOfParse | src/com/android/gamebar/GameBarCpuInfo.kt:26-51 | the `try` block succeeds exactly when each counter field parses, so a `NumberFormatException` on any one of them means no sample |
| CpuInfo.ReadCounters | src/com/android/gamebar/GameBarCpuInfo.kt:21-24 | the early returns of `getCpuUsage` compute the sample ReadSample characterises |
| CpuInfo.CpuDirs | src/com/android/gamebar/GameBarCpuInfo.kt:58 | every directory kept is named `cpu` followed by digits, and the result is no longer than the listing |
| CpuInfo.CpuDirsMembers | src/com/android/gamebar/GameBarCpuInfo.kt:58 | a name is kept by the filter exactly when it is in the listing and matches `cpu\d+` |
| CpuInfo.OrderedCpuDirsMembers | src/com/android/gamebar/GameBarCpuInfo.kt:58-64 | the sorted folders are exactly the listing's `cpuN` names, so every such folder gets an entry |
| CpuInfo.RemoveAllFromDigits | src/com/android/gamebar/GameBarCpuInfo.kt:102 | removing "cpu" from a run of digits leaves it unchanged |
| CpuInfo.CpuNumberOfDirName | src/com/android/gamebar/GameBarCpuInfo.kt:101-108 | the number extracted from `cpuN` is N when N fits in an `Int` |
| CpuInfo.CpuNumberOverflow | src/com/android/gamebar/GameBarCpuInfo.kt:101-108 | a `cpuN` name that passes the filter but whose N exceeds the `Int` range makes `toInt()` throw, so its number is -1 |
| CpuInfo.OverflowSortsFirst | src/com/android/gamebar/GameBarCpuInfo.kt:101-108 | a `cpuN` directory whose N overflows an `Int` ("cpu2147483648") gets -1 and sorts before every directory whose N fits, "cpu0" included |
| CpuInfo.ByCpuNumberIsPreorder | src/com/android/gamebar/GameBarCpuInfo.kt:64 | ordering by extracted core number is total and transitive |
| CpuInfo.OrderedCpuDirs | src/com/android/gamebar/GameBarCpuInfo.kt:63-64 | the sorted folders are a permutation of the filtered listing, in ascending core number |
| CpuInfo.FrequencyEntry | src/com/android/gamebar/GameBarCpuInfo.kt:66-79 | a missing or empty reading gives the offline text, a non-`Int` reading "N/A" |
| CpuInfo.GetCpuFrequencies | src/com/android/gamebar/GameBarCpuInfo.kt:55-82 | a failed listing gives no entries; otherwise one entry per `cpuN` folder, in ascending core number |
| LogReaderClocks.FrequencyEntryParses | src/com/android/gamebar/GameBarCpuInfo.kt:71-73 | the entry the CPU reader writes for a non-negative kHz reading is found by the log reader's `(\d+)\s*MHz` search, which captures kHz/1000 |
| LogReaderClocks.CoreReads | src/com/android/gamebar/GameBarCpuInfo.kt:73 | a `cpuN: <digits> MHz` entry always holds a clock reading |
| MemInfo.ParseMemValueFallbacks | src/com/android/gamebar/GameBarMemInfo.kt:49-59 | a line of fewer than three whitespace-separated fields gives 0; otherwise field 1 as a `Long`, or 0 when it is not one |
| MemInfo.MissingValue | src/com/android/gamebar/GameBarMemInfo.kt:49-53 | a key line without a value (`Key:  kB`) reads as 0 |
| MemInfo.NonNumericValue | src/com/android/gamebar/GameBarMemInfo.kt:54-58 | a key line whose value is not a `Long` reads as 0 |
| MemInfo.TotalUnreadableNotAvailable | src/com/android/gamebar/GameBarMemInfo.kt:18-41 | when every `MemTotal:` line reads as 0, the total stays 0 and the usage is "N/A" |
| MemInfo.TotalWithoutValue | src/com/android/gamebar/GameBarMemInfo.kt:18-59 | a `MemTotal:` line with no value and no later total line gives "N/A" |
| MemInfo.ParseMeminfoLine | src/com/android/gamebar/GameBarMemInfo.kt:49-59 | the value of a well-formed `Key:  value kB` line reads back exactly |
| MemInfo.MeminfoLineFields | src/com/android/gamebar/GameBarMemInfo.kt:50 | a well-formed line splits on whitespace into key, value and unit |
| MemInfo.LineFields | src/com/android/gamebar/GameBarMemInfo.kt:50 | a key, any value text without whitespace and the unit `kB`, separated by runs of whitespace, split into exactly those three fields |
| MemInfo.RamUsage | src/com/android/gamebar/GameBarMemInfo.kt:17-47 | "N/A" exactly when the file cannot be read or MemTotal stayed 0; a negative total still gives a number |
| MemInfo.ScanStopsEarly | src/com/android/gamebar/GameBarMemInfo.kt:30-32 | once both values are positive, no later line is read |
| MemInfo.ScanAppend | src/com/android/gamebar/GameBarMemInfo.kt:24-29 | until the scan stops, each line is applied to the values kept so far, so a later key line overwrites an earlier one |
| MemInfo.SkipOthers | src/com/android/gamebar/GameBarMemInfo.kt:26-28 | lines with neither key leave the scan unchanged |
| MemInfo.ScanTwoKeys | src/com/android/gamebar/GameBarMemInfo.kt:24-34 | a total line, unrelated lines, then an available line: the scan ends with those two values |
| MemInfo.TypicalScan | src/com/android/gamebar/GameBarMemInfo.kt:24-34 | the kernel's usual layout yields its total and available memory |
| MemInfo.TypicalMeminfo | src/com/android/gamebar/GameBarMemInfo.kt:17-46 | for the usual layout the report is (total − available)/1024 |
| MemInfo.UsageOfScan | src/com/android/gamebar/GameBarMemInfo.kt:44-46 | with a non-zero total kept, the report is the truncated MiB difference |
| MemInfo.RamUsageReadsBack | src/com/android/gamebar/GameBarMemInfo.kt:44-46 | a report reads back as a number of MiB between 0 and the total |
| MemInfo.UsageTextReadsBack | src/com/android/gamebar/GameBarMemInfo.kt:44-46 | for any total within `Long` and available amount within the total, the text (`UsageText`) reads back as the used MiB, between 0 and the total in MiB |
| MemInfo.GetRamUsage | src/com/android/gamebar/GameBarMemInfo.kt:17-47 | the reported text is the usage `RamUsage` defines: "N/A" for an unreadable file or a zero total, otherwise used KiB over 1024 |
| MemInfo.ScanMeminfo | src/com/android/gamebar/GameBarMemInfo.kt:22-35 | the `while` with its early `return@use` ends with the two values `Scan` defines: the last MemTotal and MemAvailable read up to the first line after which both are positive |
| GpuInfo.GpuUsage | src/com/android/gamebar/GameBarGpuInfo.kt:15-24 | "N/A" exactly when the node cannot be read or its text without `%` is not an `Int`; a report reads back as that `Int` |
| GpuInfo.GpuUsageIdempotent | src/com/android/gamebar/GameBarGpuInfo.kt:15-24 | feeding a report back through the conversion returns it unchanged |
| GpuInfo.NotAvailableIsStable | src/com/android/gamebar/GameBarGpuInfo.kt:17-22 | the text "N/A" converts to "N/A" |
| GpuInfo.RenderedUsageIsStable | src/com/android/gamebar/GameBarGpuInfo.kt:19-20 | a rendered `Int` converts to itself |
| GpuInfo.GpuUsageOfPercentText | src/com/android/gamebar/GameBarGpuInfo.kt:17-20 | a node text such as "45%" reports the bare number |
| GpuInfo.GpuClock | src/com/android/gamebar/GameBarGpuInfo.kt:26-36 | "N/A" exactly when the node cannot be read or is not a `Long`; a zero divider raises an uncaught arithmetic exception exactly when the node holds a `Long` |
| GpuInfo.GpuClockReadsBack | src/com/android/gamebar/GameBarGpuInfo.kt:30-32 | a clock in hertz reads back, in the divider's unit, as the truncated quotient |
| GpuInfo.GpuClockValue | src/com/android/gamebar/GameBarGpuInfo.kt:30-32 | for any node text whose trimmed form is a `Long` and a non-zero divider, the reported clock reads back as that value divided with truncation |
| GpuInfo.GpuClockExample | src/com/android/gamebar/GameBarGpuInfo.kt:30-32 | 587000000 Hz with the divider 1000000 reports 587 |
| FontSelector.Capitalize | src/com/android/gamebar/GameBarFontSelectorActivity.kt:61 | capitalising a word keeps its length |
| FontSelector.TitleCase | src/com/android/gamebar/GameBarFontSelectorActivity.kt:56-62 | the independent character-wise definition: a character is upper-cased exactly when it starts the text or follows a space |
| FontSelector.CapitalizeWordsIsTitleCase | src/com/android/gamebar/GameBarFontSelectorActivity.kt:59-62 | split on spaces, capitalise each word, join with spaces equals the character-wise title case |
| FontSelector.DisplayNameIsTitleCase | src/com/android/gamebar/GameBarFontSelectorActivity.kt:56-62 | the display name is the title case of the name with '-' and '_' turned into spaces |
| FontSelector.DisplayNameCharacters | src/com/android/gamebar/GameBarFontSelectorActivity.kt:56-62 | the display name has the base name's length, no '-' or '_', and an upper-cased letter exactly at the start and after each separator |
| FontSelector.StrLeTotal | src/com/android/gamebar/GameBarFontSelectorActivity.kt:80 | any two names are ordered one way or the other |
| FontSelector.StrLeTransitive | src/com/android/gamebar/GameBarFontSelectorActivity.kt:80 | string order is transitive |
| FontSelector.ByDisplayNameIsPreorder | src/com/android/gamebar/GameBarFontSelectorActivity.kt:80 | ordering by display name is a total preorder, so the sort is well defined |
| FontSelector.FontEntries | src/com/android/gamebar/GameBarFontSelectorActivity.kt:51-72 | no more entries than asset names |
| FontSelector.FontEntriesFromAssets | src/com/android/gamebar/GameBarFontSelectorActivity.kt:51-72 | every entry is the item of some `.ttf`/`.otf` asset of the listing |
| FontSelector.FontEntriesComplete | src/com/android/gamebar/GameBarFontSelectorActivity.kt:51-72 | every `.ttf`/`.otf` asset of the listing has its entry |
| FontSelector.EntryOfAsset | src/com/android/gamebar/GameBarFontSelectorActivity.kt:51-72 | the font asset at any position of the listing has its entry among the entries |
| FontSelector.FontEntriesCount | src/com/android/gamebar/GameBarFontSelectorActivity.kt:51-72 | there is exactly one entry per font asset |
| FontSelector.EntriesSelection | src/com/android/gamebar/GameBarFontSelectorActivity.kt:69 | an entry is selected exactly when its asset path is the stored path |
| FontSelector.SelectionPermutation | src/com/android/gamebar/GameBarFontSelectorActivity.kt:80 | sorting cannot break the selection rule |
| FontSelector.LoadedFontList | src/com/android/gamebar/GameBarFontSelectorActivity.kt:33-83 | the list gains the default item and one item per entry |
| FontSelector.LoadedFontListShape | src/com/android/gamebar/GameBarFontSelectorActivity.kt:33-83 | the default item comes first, selected exactly when the stored path is "default"; the rest are the entries, permuted and sorted by display name; every item is selected exactly when its path is the stored path |
| FontSelector.LoadedFontListStable | src/com/android/gamebar/GameBarFontSelectorActivity.kt:78-82 | after the sort, the fonts sharing a display name appear in the same order as in the listing |
| FontSelector.LoadedFontListLength | src/com/android/gamebar/GameBarFontSelectorActivity.kt:38-75 | the list holds 1 + the number of font assets, and only the default item when the listing fails |
| FontSelector.FontSelectorActivity.constructor | src/com/android/gamebar/GameBarFontSelectorActivity.kt:19 | the list starts empty |
| FontSelector.FontSelectorActivity.LoadFonts | src/com/android/gamebar/GameBarFontSelectorActivity.kt:33-83 | the list left behind is the loaded font list built from the old list, the preference and the listing |
| FontSelector.FontSelectorActivity.AddFontEntries | src/com/android/gamebar/GameBarFontSelectorActivity.kt:51-72 | the loop appends exactly the entries of the font assets, in listing order |
| FontSelector.FontSelectorActivity.SortKeepingHead | src/com/android/gamebar/GameBarFontSelectorActivity.kt:78-82 | the head stays first and the rest is sorted by display name |
| PerAppLogReader.FieldValue | src/com/android/gamebar/PerAppLogReader.kt:140-143 | a kept sample is the decimal value of the trimmed field, positive (or non-negative for usage channels) |
| PerAppLogReader.FieldValueKeeps | src/com/android/gamebar/PerAppLogReader.kt:140-143 | conversely, a field whose trimmed text is a decimal of the accepted sign is always kept |
| PerAppLogReader.DigitRun | src/com/android/gamebar/PerAppLogReader.kt:230 | the run is the maximal prefix of ASCII digits |
| PerAppLogReader.AddClockFragments | src/com/android/gamebar/PerAppLogReader.kt:227-241 | the loop over the fragments builds the clock map the per-fragment definition gives |
| PerAppLogReader.ReadColumns | src/com/android/gamebar/PerAppLogReader.kt:135-301 | the body of the read loop for a line of three or more columns computes the column step |
| PerAppLogReader.AnalyzeLogFile | src/com/android/gamebar/PerAppLogReader.kt:92-354 | the read loop yields the analytics of the fold over the data lines; an unreadable file gives none |
| PerAppLogReader.ShortLineOnlyCounted | src/com/android/gamebar/PerAppLogReader.kt:131-134 | a line with fewer than three columns changes nothing but the line count |
| PerAppLogReader.ProcessLineCounts | src/com/android/gamebar/PerAppLogReader.kt:131-144 | one line appends its kept frame rate, if any, and advances the line count |
| PerAppLogReader.FpsStep | src/com/android/gamebar/PerAppLogReader.kt:140-161 | an FPS field that is not kept changes neither the FPS series nor the session start; a non-zero session start is never replaced |
| PerAppLogReader.ColumnsStep | src/com/android/gamebar/PerAppLogReader.kt:135-302 | the line count is left alone; the last timestamp becomes this line's; the first timestamp and the package name are taken from the first line read and kept afterwards; a non-zero session start is kept |
| PerAppLogReader.ColumnsStepCounts | src/com/android/gamebar/PerAppLogReader.kt:140-144 | the columns append the kept frame rate, if any, and leave the line count |
| PerAppLogReader.FpsStepValues | src/com/android/gamebar/PerAppLogReader.kt:140-157 | the FPS column appends its kept rate, if any, to the rates so far |
| PerAppLogReader.FoldCounts | src/com/android/gamebar/PerAppLogReader.kt:130-308 | reading appends exactly the lines' kept frame rates, and counts every line whatever its shape |
| PerAppLogReader.AnalyzeReportsKeptFps | src/com/android/gamebar/PerAppLogReader.kt:312-337 | `Analyze` gives no analytics exactly when no frame rate is kept; otherwise `totalSamples` is their number and the statistics are theirs |
| PerAppLogReader.PointValues | src/com/android/gamebar/PerAppLogReader.kt:100-114 | the values of a point series, in order |
| PerAppLogReader.AppendAligned | src/com/android/gamebar/PerAppLogReader.kt:144-157 | appending a sample together with its point keeps the sample list equal to the point values |
| PerAppLogReader.AddSampleAligned | src/com/android/gamebar/PerAppLogReader.kt:166-178 | a non-FPS channel keeps its samples in step with its points |
| PerAppLogReader.FpsStepAligned | src/com/android/gamebar/PerAppLogReader.kt:140-161 | the FPS channel keeps its samples in step with its points |
| PerAppLogReader.ColumnsStepAligned | src/com/android/gamebar/PerAppLogReader.kt:135-294 | one line keeps every channel's samples in step with its points |
| PerAppLogReader.ProcessLineAligned | src/com/android/gamebar/PerAppLogReader.kt:130-306 | any line keeps every channel's samples in step with its points; a line of three or more columns is counted, then read column by column (`ColumnsStep`) |
| PerAppLogReader.FoldAligned | src/com/android/gamebar/PerAppLogReader.kt:130-309 | after reading, each sample list equals, in order, the values of its timed points; the fold reads one more line after the earlier ones |
| PerAppLogReader.SessionStamp | src/com/android/gamebar/PerAppLogReader.kt:512-518 | a found stamp is 14 ASCII digits, `yyyyMMdd` then `HHmmss` |
| PerAppLogReader.SessionStartFixed | src/com/android/gamebar/PerAppLogReader.kt:151-153 | once the session start is non-zero it never moves |
| PerAppLogReader.FpsPointTime | src/com/android/gamebar/PerAppLogReader.kt:143-161 | a kept rate gets one point: its timestamp less the session start (0 for the first parsed one, which starts the session), or the line number times 1000 when the timestamp does not parse |
| PerAppLogReader.FpsStepKeeps | src/com/android/gamebar/PerAppLogReader.kt:143-161 | a kept frame rate always adds a point |
| PerAppLogReader.AddSampleTimed | src/com/android/gamebar/PerAppLogReader.kt:172-177 | a sample a channel gains is placed at the relative time given |
| PerAppLogReader.SameLineSameTime | src/com/android/gamebar/PerAppLogReader.kt:172-176 | once a session start is known, every other sample of a line that keeps a frame rate is placed at that frame rate's time (`RelativeTime`) |
| PerAppLogReader.ColumnsStepTimes | src/com/android/gamebar/PerAppLogReader.kt:165-293 | every sample a data line adds to the frame-time, CPU usage and temperature, GPU usage, clock and temperature series is placed at one time, `RelativeTime` of the frame-rate state after that line: the latest frame-rate point's time once a session start is known and such a point exists, otherwise the line number in seconds |
| LogReaderClocks.FindMhzSkip | src/com/android/gamebar/PerAppLogReader.kt:230 | the leftmost search passes over positions where no match starts |
| LogReaderClocks.NoMatchWithoutM | src/com/android/gamebar/PerAppLogReader.kt:230 | text without an 'M' holds no clock reading |
| LogReaderClocks.NoMatchInHead | src/com/android/gamebar/PerAppLogReader.kt:230 | no match starts inside the `cpuN: ` head of a core's entry |
| LogReaderClocks.MatchAtNumber | src/com/android/gamebar/PerAppLogReader.kt:230 | digits followed by " MHz" match and capture their value |
| LogReaderClocks.HeadThenNumber | src/com/android/gamebar/PerAppLogReader.kt:230 | in `cpuN: <digits> MHz` the first match is the number after the head |
| LogReaderClocks.AddClockEffect | src/com/android/gamebar/PerAppLogReader.kt:231-236 | a matching fragment adds a key for its position whose series ends with its reading; every other key keeps its series |
| LogReaderClocks.MatchingIndicesMembers | src/com/android/gamebar/PerAppLogReader.kt:227-237 | a position is matching exactly when it is among the fragments read and its fragment holds a reading |
| LogReaderClocks.ClockKeys | src/com/android/gamebar/PerAppLogReader.kt:227-241 | the clock map gains a key for exactly the fragment positions that hold a reading, one fragment at a time |
| LogReaderClocks.ClockReadings | src/com/android/gamebar/PerAppLogReader.kt:227-241 | each such position's series ends with that fragment's reading at the line's time |
| LogReaderClocks.ColumnsStepClockTimes | src/com/android/gamebar/PerAppLogReader.kt:216-242 | every per-core reading of a data line's CPU-clock field ends that core's series at the same `RelativeTime` as the line's other samples |
| LogReaderClocks.MiddleSkipped | src/com/android/gamebar/PerAppLogReader.kt:227-241 | of three fragments with only the middle one unreadable, positions 0 and 2 match |
| LogReaderClocks.SkippedFragmentKeepsKeys | src/com/android/gamebar/PerAppLogReader.kt:227-241 | "cpu0: … MHz", a fragment without a reading, "cpu2: … MHz" give the keys {0, 2}: a skipped fragment does not shift later keys |
| LogReaderCsv.ColumnsMatchHeader | src/com/android/gamebar/PerAppLogReader.kt:73-86 | each column index of the reader names the exporter's header column of the same meaning, and the header has 14 columns |
| LogReaderCsv.HeaderLineHasDateTime | src/com/android/gamebar/GameDataExport.kt:42-57 | the exporter's header line contains "DateTime" |
| LogReaderCsv.HeaderLineSkipped | src/com/android/gamebar/PerAppLogReader.kt:124-127 | the exporter's header line is skipped and the data lines are read as they are |
| LogReaderCsv.CsvLines | src/com/android/gamebar/GameDataExport.kt:186-189 | one CSV line per row, in row order |
| LogReaderCsv.ParseDecimalField | src/com/android/gamebar/PerAppLogReader.kt:140-143 | a frame-rate field read on its own is a positive decimal |
| LogReaderCsv.FpsFieldRead | src/com/android/gamebar/PerAppLogReader.kt:140-143 | the reader's FPS test keeps exactly the positive decimals |
| LogReaderCsv.ExportedRowFps | src/com/android/gamebar/PerAppLogReader.kt:132-143 | the line of an exported row yields exactly the row's own frame rate |
| LogReaderCsv.ExportedSamples | src/com/android/gamebar/PerAppLogReader.kt:130-163 | the lines of an exported table yield the table's frame rates, in row order |
| LogReaderCsv.ExportedLogAnalyzed | src/com/android/gamebar/PerAppLogReader.kt:124-337 | an exported log reads back to analytics exactly when some row recorded a frame rate, and then its statistics are those of the recorded rates |
| LogReaderSessions.DurationComponents | src/com/android/gamebar/PerAppLogReader.kt:487-490 | for a non-negative duration, hours, minutes below 60 and seconds below 60 account for it to within a second |
| LogReaderSessions.DurationShape | src/com/android/gamebar/PerAppLogReader.kt:488-495 | `FormatDuration` shows hours from one hour on, minutes from one minute on, and below a minute only the seconds |
| LogReaderSessions.FormatDurationEndsInS | src/com/android/gamebar/PerAppLogReader.kt:492-496 | a formatted duration ends in "s", so it is never the "Unknown" fallback |
| LogReaderSessions.ElapsedTime | src/com/android/gamebar/PerAppLogReader.kt:476-487 | the elapsed time is known exactly when both timestamps are present and parse, and is then the last less the first |
| LogReaderSessions.SessionDurationKnown | src/com/android/gamebar/PerAppLogReader.kt:486-496 | a known elapsed time is shown formatted |
| LogReaderSessions.SessionDurationUnknown | src/com/android/gamebar/PerAppLogReader.kt:475-503 | the duration is "Unknown" exactly when a timestamp is missing or does not parse |
| LogReaderSessions.FormatMinutesExample | src/com/android/gamebar/PerAppLogReader.kt:488-494 | 65 000 ms shows as "1m 5s" |
| LogReaderSessions.FormatHoursExample | src/com/android/gamebar/PerAppLogReader.kt:488-493 | 3 723 000 ms shows as "1h 2m 3s" |
| LogReaderSessions.FormatNegativeExample | src/com/android/gamebar/PerAppLogReader.kt:487-495 | −65 000 ms shows as "-5s" |
| LogReaderSessions.SessionStampOfLogName | src/com/android/gamebar/PerAppLogReader.kt:512-518 | a name `<prefix>_<yyyyMMdd>_<HHmmss>.csv`, with or without a final line terminator, yields the date and time digits |
| LogReaderSessions.NoStampWithoutCsv | src/com/android/gamebar/PerAppLogReader.kt:512-531 | `SessionDate` gives "Unknown Date" for a name that does not end in ".csv" |
| LogReaderSessions.NoStampUnlessPattern | src/com/android/gamebar/PerAppLogReader.kt:512-531 | a name has a session stamp exactly when it ends, before any final terminator, in `_` + 8 digits + `_` + 6 digits + ".csv"; every other name gives "Unknown Date" |
| LogReaderSessions.ShortStampUnknown | src/com/android/gamebar/PerAppLogReader.kt:512-531 | "log_2024_.csv" ends in ".csv" but gives "Unknown Date" |
| LogStatistics.Ascending | src/com/android/gamebar/PerAppLogReader.kt:364 | `sorted()` is an ascending permutation of the values |
| LogStatistics.SumAscending | src/com/android/gamebar/PerAppLogReader.kt:364-371 | sorting keeps the sum |
| LogStatistics.SumBounds | src/com/android/gamebar/PerAppLogReader.kt:371 | values within [lo, hi] sum to within [n·lo, n·hi] |
| LogStatistics.MeanBounds | src/com/android/gamebar/PerAppLogReader.kt:371 | a mean lies between any bounds of its values |
| LogStatistics.PrefixMeanMonotone | src/com/android/gamebar/PerAppLogReader.kt:462-466 | on ascending values, a longer prefix never has a smaller mean |
| LogStatistics.SmoothCount | src/com/android/gamebar/PerAppLogReader.kt:386 | the smooth frames are at most all of them |
| LogStatistics.SquaredDeviationsNonNegative | src/com/android/gamebar/PerAppLogReader.kt:375 | the sum of squared deviations is never negative |
| LogStatistics.PercentileCount | src/com/android/gamebar/PerAppLogReader.kt:462 | a percentile low averages at least one value |
| LogStatistics.LowWidth | src/com/android/gamebar/PerAppLogReader.kt:462-463 | the values a low averages are between one and all of them |
| LogStatistics.FpsStats | src/com/android/gamebar/PerAppLogReader.kt:359-362 | no values give all-zero statistics |
| LogStatistics.StatsFields | src/com/android/gamebar/PerAppLogReader.kt:364-383 | minimum and maximum are the ends of the ascending order, the average is the mean, the lows are the percentile lows of the ascending order |
| LogStatistics.AscendingEnds | src/com/android/gamebar/PerAppLogReader.kt:364-368 | the ends of the ascending order are samples, and every sample lies between them |
| LogStatistics.FpsExtremes | src/com/android/gamebar/PerAppLogReader.kt:364-368 | the reported minimum and maximum are samples and bound every sample |
| LogStatistics.LowIsPrefixMean | src/com/android/gamebar/PerAppLogReader.kt:459-470 | `PercentileLow` is the mean of the smallest `max(1, ⌊n·p⌋)` values, or of all when fewer |
| LogStatistics.FirstBelowPrefixMean | src/com/android/gamebar/PerAppLogReader.kt:463-466 | the smallest value is at most the mean of any prefix |
| LogStatistics.AverageIsFullMean | src/com/android/gamebar/PerAppLogReader.kt:371 | the mean of the values is the mean of them sorted |
| LogStatistics.FullMeanBelowLast | src/com/android/gamebar/PerAppLogReader.kt:367-371 | the mean is at most the largest value |
| LogStatistics.FpsOrdering | src/com/android/gamebar/PerAppLogReader.kt:359-470 | minFps ≤ 0.1 % low ≤ 1 % low ≤ avgFps ≤ maxFps |
| LogStatistics.FewSamplesLowsAreMinimum | src/com/android/gamebar/PerAppLogReader.kt:459-470 | with fewer than 100 samples both lows equal the minimum |
| LogStatistics.LowOfOne | src/com/android/gamebar/PerAppLogReader.kt:462-466 | a count of one averages the smallest value alone |
| LogStatistics.VarianceNonNegative | src/com/android/gamebar/PerAppLogReader.kt:374-378 | `Variance` is never negative and is 0 for a single sample |
| LogStatistics.SmoothnessInRange | src/com/android/gamebar/PerAppLogReader.kt:386-387 | smoothness is within 0..100 and is 100 exactly when every sample is at least 45 FPS |
| LogStatistics.AllSmooth | src/com/android/gamebar/PerAppLogReader.kt:386 | every sample is counted smooth exactly when every sample is at least 45 FPS |
| LogStatistics.RatioBounds | src/com/android/gamebar/PerAppLogReader.kt:387 | a share of k out of n, in percent, is within 0..100 and is 100 exactly when k = n |
| LogStatistics.Summarize | src/com/android/gamebar/PerAppLogReader.kt:404-453 | an empty channel reports 0 for max, min and avg; otherwise max and min are samples and bound every sample |
| LogStatistics.SummaryOrdered | src/com/android/gamebar/PerAppLogReader.kt:405-407 | a channel's mean lies between its minimum and maximum |
| LogStatistics.SummaryMean | src/com/android/gamebar/PerAppLogReader.kt:407 | a non-empty channel's reported mean is the mean of its samples |
| Numbers.Quot | src/com/android/gamebar/PerAppLogReader.kt:488-490 | JVM division truncates toward zero: the remainder is smaller than the divisor and takes the dividend's sign |
| Numbers.Rem | src/com/android/gamebar/PerAppLogReader.kt:488-489 | JVM `%` is the remainder of truncating division, with the dividend's sign |
| Numbers.ParseInteger | src/com/android/gamebar/GameBarGpuInfo.kt:19 | a parsed `Int` or `Long` lies within its type's range |
| Numbers.ParseRender | src/com/android/gamebar/GameBarGpuInfo.kt:19-20 | `toString()` of an integer parses back to it |
| Numbers.RenderNat | src/com/android/gamebar/GameBarMemInfo.kt:46 | the decimal text of a number is ASCII digits with no leading zero, and its value is the number |
| Numbers.ParseDecimalRender | src/com/android/gamebar/PerAppLogReader.kt:142 | an integer's text reads as the same decimal |
| Numbers.SentinelsDoNotParse | src/com/android/gamebar/PerAppLogReader.kt:141-142 | "N/A", "-" and the empty text are not numbers |
| Strings.Split | src/com/android/gamebar/PerAppLogReader.kt:132 | splitting on a character gives one more part than separators, none holding the separator |
| Strings.SplitJoin | src/com/android/gamebar/GameDataExport.kt:202 | joining separator-free parts and splitting again recovers them |
| Strings.JoinSplit | src/com/android/gamebar/PerAppLogReader.kt:132 | splitting and joining with the same separator gives back the text |
| Strings.Trim | src/com/android/gamebar/PerAppLogReader.kt:137 | the trimmed text neither starts nor ends with whitespace |
| Strings.SplitOnSpaces | src/com/android/gamebar/GameBarCpuInfo.kt:23 | splitting on `\s+` gives at least one part, none holding whitespace |
| Strings.SubstringBeforeLast | src/com/android/gamebar/GameBarFontSelectorActivity.kt:55 | the part before the last '.', or the whole name when there is none |
| Strings.ReplaceChar | src/com/android/gamebar/GameBarFontSelectorActivity.kt:57-58 | each occurrence of the character is replaced, nothing else changes |
| Sorting.SortBy | src/com/android/gamebar/GameBarFontSelectorActivity.kt:80 | sorting is a permutation of its input |
| Sorting.SortBySorted | src/com/android/gamebar/GameBarFontSelectorActivity.kt:80 | under a total preorder the sorted list is in order |
| Sorting.InsertEquivalents | src/com/android/gamebar/GameBarFontSelectorActivity.kt:80 | an inserted element goes in front of the elements with the same key and behind none of them |
| Sorting.SortByStable | src/com/android/gamebar/GameBarFontSelectorActivity.kt:80 | the sort is stable: for every key, the elements with that key appear in the result in their input order |

## Left out

- File and sysfs reads, `SimpleDateFormat` parsing and formatting, and the asset manager are
  inputs of the model: a line or file as `Option` values, the filesystem as a `FileSystem`
  record, the timestamp parser and the session-date formatter as functions. Their own
  behaviour (lenient date parsing, locale output) is not modelled.
- Floating point: `Double` is read as an exact `real`, so IEEE rounding in sums and means is
  not modelled. The standard deviation (`sqrt` of the variance) is not part of the modelled
  `FpsStatistics`.
- Numbers.ParseDecimal: accepts only plain decimal notation (an optional sign, digits, an
  optional point). Exponents, hexadecimal floats, "NaN", "Infinity" and type suffixes, which
  `toDoubleOrNull` also reads, are treated as non-numbers.
- CpuInfo.ParseCounters: the counter total is not wrapped at 64 bits; the same holds for the
  `100 * (…)` product in CpuInfo.UsagePercent.
- GpuInfo.GpuClock: the one overflowing quotient, `Long.MIN_VALUE / -1`, is not wrapped.
- MemInfo.RamUsage: the difference of two `Long` values is not wrapped.
- PerAppLogReader.FpsStep: `lineCount * 1000` and the timestamp difference are not wrapped at
  64 bits.
- Float-only conversions are not modelled: `getCpuTemp`, `getRamSpeed`, `getRamTemp` and
  `getGpuTemp`.
- Listeners, the `PerAppLogManager` forwarding in per-app mode and in `stopCapture`, and the
  singleton accessors are not modelled; nor are `getLoggingMode`, `getPerAppLogManager` and
  `setCaptureStateListener`.
- GameDataExport.GameDataExport.ExportDataToCsv: returns the lines it would write instead of
  creating `GameBar_log_<stamp>.csv`; write errors are not modelled.
- `Log.*` calls, the `@Volatile` and `@Synchronized` concurrency, and the per-line
  `catch (e: Exception)` of `analyzeLogFile` are not modelled. Once the timestamp parse is an
  input, nothing in a line's body throws.
- The display helpers after `analyzeLogFile` in the same file (`formatFpsStats` and
  following) are not modelled.
- Character handling is ASCII where the source uses Unicode:
  - FontSelector.Capitalize upper-cases ASCII letters only, whereas `uppercase()` can also
    change other letters or expand one character into several.
  - FontSelector.StrLe compares characters rather than UTF-16 code units, which differ only
    outside the Basic Multilingual Plane.
  - Numbers.ParseInteger: accepts ASCII digits only, whereas `toInt()` and `toLong()` also
    accept the other Unicode decimal digits (Arabic-Indic "٣٥" is 35), so such text is a number
    in the app and not in the model.
  - The locale's digits in `String.format("%d…")` are assumed to be ASCII.
- The activity's UI is not modelled: `onCreate`, `setupAdapter`, toasts and preference
  writes.
