/**
 * Reading back what the exporter writes (src/com/android/gamebar/GameDataExport.kt, read by
 * src/com/android/gamebar/PerAppLogReader.kt): the reader's column indices name the
 * exporter's header columns, the header line is skipped, and every exported row gives the
 * frame rate the overlay recorded for it.
 */
module LogReaderCsv {
  import opened Wrappers
  import opened Strings
  import opened LogStatistics
  import opened PerAppLogReader
  import GameDataExport

  /** The reader's column indices pick out the exporter's header names. */
  lemma ColumnsMatchHeader()
    ensures |GameDataExport.CSV_HEADER| == COL_GPU_TEMP + 1
    ensures GameDataExport.CSV_HEADER[COL_DATETIME] == "DateTime"
    ensures GameDataExport.CSV_HEADER[COL_PACKAGE_NAME] == "PackageName"
    ensures GameDataExport.CSV_HEADER[COL_FPS] == "FPS"
    ensures GameDataExport.CSV_HEADER[COL_FRAME_TIME] == "Frame_Time"
    ensures GameDataExport.CSV_HEADER[COL_BATTERY_TEMP] == "Battery_Temp"
    ensures GameDataExport.CSV_HEADER[COL_CPU_USAGE] == "CPU_Usage"
    ensures GameDataExport.CSV_HEADER[COL_CPU_CLOCK] == "CPU_Clock"
    ensures GameDataExport.CSV_HEADER[COL_CPU_TEMP] == "CPU_Temp"
    ensures GameDataExport.CSV_HEADER[COL_RAM_USAGE] == "RAM_Usage"
    ensures GameDataExport.CSV_HEADER[COL_RAM_SPEED] == "RAM_Speed"
    ensures GameDataExport.CSV_HEADER[COL_RAM_TEMP] == "RAM_Temp"
    ensures GameDataExport.CSV_HEADER[COL_GPU_USAGE] == "GPU_Usage"
    ensures GameDataExport.CSV_HEADER[COL_GPU_CLOCK] == "GPU_Clock"
    ensures GameDataExport.CSV_HEADER[COL_GPU_TEMP] == "GPU_Temp"
  {
  }

  /** The exporter's header line contains "DateTime": it starts with it. */
  lemma HeaderLineHasDateTime()
    ensures Contains(GameDataExport.ToCsvLine(GameDataExport.CSV_HEADER), "DateTime")
  {
    var header := GameDataExport.CSV_HEADER;
    var rest := "," + Join(header[1..], ",");
    JoinFirst(header, ",");
    assert header[0] == "DateTime";
    ContainsPrefix("DateTime", rest);
  }

  /** Joining two or more parts puts the first part, then the separator, in front. */
  lemma JoinFirst(parts: seq<string>, sep: string)
    requires |parts| >= 2
    ensures Join(parts, sep) == parts[0] + (sep + Join(parts[1..], sep))
  {
    assert parts[0] + sep + Join(parts[1..], sep) == parts[0] + (sep + Join(parts[1..], sep));
  }

  /** A string contains each of its prefixes. */
  lemma ContainsPrefix(p: string, t: string)
    ensures Contains(p + t, p)
  {
    assert (p + t)[..|p|] == p;
  }

  /** The exporter's header line is recognised and skipped; the data lines stay as they are. */
  lemma HeaderLineSkipped(rows: seq<string>)
    ensures DataLines([GameDataExport.ToCsvLine(GameDataExport.CSV_HEADER)] + rows) == rows
  {
    var lines := [GameDataExport.ToCsvLine(GameDataExport.CSV_HEADER)] + rows;
    HeaderLineHasDateTime();
    assert lines[1..] == rows;
  }

  /** A row as the exporter builds it: one field per header column, none holding a comma. */
  predicate ExportedRow(row: GameDataExport.Row) {
    |row| == |GameDataExport.CSV_HEADER| && forall i :: 0 <= i < |row| ==> ',' !in row[i]
  }

  /** The lines of an exported table, in order. */
  function CsvLines(rows: seq<GameDataExport.Row>): (lines: seq<string>)
    ensures |lines| == |rows|
    ensures forall i :: 0 <= i < |rows| ==> lines[i] == GameDataExport.ToCsvLine(rows[i])
  {
    if rows == [] then [] else CsvLines(rows[..|rows| - 1]) + [GameDataExport.ToCsvLine(rows[|rows| - 1])]
  }

  /**
   * The frame rates an exported table holds, taken from the rows themselves: the FPS field of
   * every row whose text is a positive decimal.
   */
  function RecordedFps(rows: seq<GameDataExport.Row>): seq<real>
    requires forall i :: 0 <= i < |rows| ==> ExportedRow(rows[i])
  {
    if rows == [] then []
    else
      var row := rows[|rows| - 1];
      assert ExportedRow(row) && |GameDataExport.CSV_HEADER| == 14;
      var v := ParseDecimalField(row[COL_FPS]);
      RecordedFps(rows[..|rows| - 1]) + (if v.Some? then [v.value] else [])
  }

  /** A frame-rate field read on its own: its trimmed text as a positive decimal. */
  function ParseDecimalField(field: string): (r: Option<real>)
    ensures r.Some? ==> r.value > 0.0
  {
    var p := Numbers.ParseDecimal(Trim(field));
    if p.Some? && p.value > 0.0 then p else None
  }

  /** The line of an exported row yields exactly the row's own frame rate. */
  lemma ExportedRowFps(row: GameDataExport.Row)
    requires ExportedRow(row)
    ensures KeptFps(GameDataExport.ToCsvLine(row)) == ParseDecimalField(row[COL_FPS])
  {
    var columns := Split(GameDataExport.ToCsvLine(row), ',');
    GameDataExport.CsvLineRoundTrip(row);
    assert columns == row;
    FpsFieldRead(row[COL_FPS]);
  }

  /** The reader's FPS field test keeps exactly the positive decimals. */
  lemma FpsFieldRead(field: string)
    ensures FieldValue(field, Positive, true) == ParseDecimalField(field)
  {
    FieldValueKeeps(field, Positive, true);
  }

  /** The lines of an exported table yield the table's frame rates, in row order. */
  lemma {:induction false} ExportedSamples(rows: seq<GameDataExport.Row>)
    requires forall i :: 0 <= i < |rows| ==> ExportedRow(rows[i])
    ensures FpsSamples(CsvLines(rows)) == RecordedFps(rows)
  {
    if rows != [] {
      var init := rows[..|rows| - 1];
      ExportedSamples(init);
      ExportedRowFps(rows[|rows| - 1]);
      assert CsvLines(rows)[..|rows| - 1] == CsvLines(init);
    }
  }

  /**
   * A log exported with its header reads back to analytics exactly when some row recorded a
   * frame rate, and then the statistics are those of the recorded rates.
   */
  lemma ExportedLogAnalyzed(rows: seq<GameDataExport.Row>, fileName: string,
                            parseTime: string -> Option<int>, formatStamp: string -> Option<string>)
    requires forall i :: 0 <= i < |rows| ==> ExportedRow(rows[i])
    ensures var r := Analyze(Some([GameDataExport.ToCsvLine(GameDataExport.CSV_HEADER)] + CsvLines(rows)),
                             fileName, parseTime, formatStamp);
      var fps := RecordedFps(rows);
      && (r.None? <==> fps == [])
      && (r.Some? ==> r.value.totalSamples == |fps| && r.value.fpsStats == FpsStats(fps))
  {
    var lines := [GameDataExport.ToCsvLine(GameDataExport.CSV_HEADER)] + CsvLines(rows);
    HeaderLineSkipped(CsvLines(rows));
    ExportedSamples(rows);
    AnalyzeReportsKeptFps(lines, fileName, parseTime, formatStamp);
  }
}
