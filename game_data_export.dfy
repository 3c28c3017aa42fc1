/**
 * The global capture buffer (src/com/android/gamebar/GameDataExport.kt): a capture flag, a
 * logging mode and an in-memory table of CSV rows, capped at MAX_ROWS by dropping the oldest
 * half of the data rows while keeping row 0.
 */
module GameDataExport {
  import opened Wrappers
  import opened Strings

  datatype LoggingMode = Global | PerApp

  /** One CSV row: the fields in column order. */
  type Row = seq<string>

  const MAX_ROWS: nat := 10000

  const CSV_HEADER: Row := [
    "DateTime", "PackageName", "FPS", "Frame_Time", "Battery_Temp", "CPU_Usage", "CPU_Clock",
    "CPU_Temp", "RAM_Usage", "RAM_Speed", "RAM_Temp", "GPU_Usage", "GPU_Clock", "GPU_Temp"
  ]

  /** `toCsvLine`: the fields joined with commas, without quoting. */
  function ToCsvLine(columns: Row): string {
    Join(columns, ",")
  }

  /** For comma-free fields, splitting a CSV line on commas recovers exactly the fields. */
  lemma CsvLineRoundTrip(columns: Row)
    requires |columns| >= 1
    requires forall i :: 0 <= i < |columns| ==> ',' !in columns[i]
    ensures Split(ToCsvLine(columns), ',') == columns
  {
    SplitJoin(columns, ',');
  }

  /**
   * The rows left when `addOverlayData` makes room: once the table holds MAX_ROWS rows, the
   * `size / 2` rows after row 0 are removed.
   */
  function TrimOldest(rows: seq<Row>): seq<Row> {
    if |rows| >= MAX_ROWS && |rows| > 1 then [rows[0]] + rows[1 + |rows| / 2..] else rows
  }

  /**
   * Trimming keeps row 0, drops only the oldest data rows, keeps the survivors in their order,
   * and leaves room for one more row under the cap.
   */
  lemma TrimOldestKeepsNewest(rows: seq<Row>)
    requires |rows| <= MAX_ROWS
    ensures |rows| >= 1 ==> TrimOldest(rows)[0] == rows[0]
    ensures |rows| >= 1 ==> TrimOldest(rows)[1..] == rows[|rows| - (|TrimOldest(rows)| - 1)..]
    ensures |rows| == MAX_ROWS ==> |TrimOldest(rows)| == MAX_ROWS / 2
    ensures |rows| < MAX_ROWS ==> TrimOldest(rows) == rows
    ensures |TrimOldest(rows)| < MAX_ROWS
  {
  }

  /** The row `addOverlayData` appends, its fields in the order of CSV_HEADER. */
  function OverlayRow(dateTime: string, packageName: string, fps: string, frameTime: string,
                      batteryTemp: string, cpuUsage: string, cpuClock: string, cpuTemp: string,
                      ramUsage: string, ramSpeed: string, ramTemp: string, gpuUsage: string,
                      gpuClock: string, gpuTemp: string): (row: Row)
    ensures |row| == |CSV_HEADER|
  {
    [dateTime, packageName, fps, frameTime, batteryTemp, cpuUsage, cpuClock, cpuTemp,
     ramUsage, ramSpeed, ramTemp, gpuUsage, gpuClock, gpuTemp]
  }

  /** The exporter singleton's state. */
  class GameDataExport {
    var capturing: bool
    var currentLoggingMode: LoggingMode
    var statsRows: seq<Row>

    /** The buffer never grows past its cap. */
    ghost predicate Valid()
      reads this
    {
      |statsRows| <= MAX_ROWS
    }

    /** A new exporter is idle, in per-app mode, with an empty table. */
    constructor ()
      ensures Valid()
      ensures !capturing && currentLoggingMode == PerApp && statsRows == []
    {
      capturing := false;
      currentLoggingMode := PerApp;
      statsRows := [];
    }

    /** `startCapture`: in global mode the table restarts from the header alone. */
    method StartCapture()
      requires Valid()
      modifies this`capturing, this`statsRows
      ensures Valid() && capturing
      ensures statsRows == if currentLoggingMode == Global then [CSV_HEADER] else old(statsRows)
    {
      capturing := true;
      if currentLoggingMode == Global {
        statsRows := [];
        statsRows := statsRows + [CSV_HEADER];
      }
    }

    /** `stopCapture`: only the flag changes here. */
    method StopCapture()
      modifies this`capturing
      ensures !capturing
    {
      capturing := false;
    }

    /** `clearData`: the table is reset to the header alone, whatever the mode. */
    method ClearData()
      modifies this`statsRows
      ensures Valid() && statsRows == [CSV_HEADER]
    {
      statsRows := [];
      statsRows := statsRows + [CSV_HEADER];
    }

    /** `getDataSize`. */
    method GetDataSize() returns (size: nat)
      ensures size == |statsRows|
    {
      size := |statsRows|;
    }

    method IsCapturing() returns (b: bool)
      ensures b == capturing
    {
      b := capturing;
    }

    method SetLoggingMode(mode: LoggingMode)
      modifies this`currentLoggingMode
      ensures currentLoggingMode == mode
    {
      currentLoggingMode := mode;
    }

    /** The `repeat(toRemove) { removeAt(1) }` loop of `addOverlayData`. */
    method RemoveOldestHalf()
      requires |statsRows| > 1
      modifies this`statsRows
      ensures statsRows == [old(statsRows)[0]] + old(statsRows)[1 + |old(statsRows)| / 2..]
    {
      var toRemove := |statsRows| / 2;
      var k := 0;
      while k < toRemove
        invariant 0 <= k <= toRemove
        invariant statsRows == [old(statsRows)[0]] + old(statsRows)[1 + k..]
      {
        if |statsRows| > 1 {
          statsRows := [statsRows[0]] + statsRows[2..];
        }
        k := k + 1;
      }
    }

    /**
     * `addOverlayData`: nothing happens while not capturing or in per-app mode (where the row
     * goes to the per-app logger instead); in global mode the table is trimmed if full and the
     * new row is appended last.
     */
    method AddOverlayData(dateTime: string, packageName: string, fps: string, frameTime: string,
                          batteryTemp: string, cpuUsage: string, cpuClock: string, cpuTemp: string,
                          ramUsage: string, ramSpeed: string, ramTemp: string, gpuUsage: string,
                          gpuClock: string, gpuTemp: string)
      requires Valid()
      modifies this`statsRows
      ensures Valid()
      ensures !capturing || currentLoggingMode == PerApp ==> statsRows == old(statsRows)
      ensures capturing && currentLoggingMode == Global ==>
        statsRows == TrimOldest(old(statsRows)) + [OverlayRow(dateTime, packageName, fps, frameTime,
          batteryTemp, cpuUsage, cpuClock, cpuTemp, ramUsage, ramSpeed, ramTemp, gpuUsage, gpuClock, gpuTemp)]
    {
      if !capturing {
        return;
      }
      match currentLoggingMode {
        case Global =>
          if |statsRows| >= MAX_ROWS {
            if |statsRows| > 1 {
              RemoveOldestHalf();
            }
          }
          TrimOldestKeepsNewest(old(statsRows));
          var row := OverlayRow(dateTime, packageName, fps, frameTime, batteryTemp, cpuUsage,
                                cpuClock, cpuTemp, ramUsage, ramSpeed, ramTemp, gpuUsage, gpuClock, gpuTemp);
          statsRows := statsRows + [row];
        case PerApp =>
      }
    }

    /**
     * The guard and the body of `exportDataToCsv`: in global mode with at least one data row,
     * the lines written, one per row in table order; otherwise nothing is written (`None`).
     */
    method ExportDataToCsv() returns (written: Option<seq<string>>)
      ensures currentLoggingMode != Global || |statsRows| <= 1 <==> written.None?
      ensures written.Some? ==>
        |written.value| == |statsRows|
        && forall i :: 0 <= i < |statsRows| ==> written.value[i] == ToCsvLine(statsRows[i])
    {
      if currentLoggingMode != Global {
        return None;
      }
      if |statsRows| <= 1 {
        return None;
      }
      var lines: seq<string> := [];
      for i := 0 to |statsRows|
        invariant |lines| == i
        invariant forall k :: 0 <= k < i ==> lines[k] == ToCsvLine(statsRows[k])
      {
        lines := lines + [ToCsvLine(statsRows[i])];
      }
      written := Some(lines);
    }
  }

  /** A capture session in global mode: the header first, then the rows in arrival order. */
  method CaptureScenario()
  {
    var exporter := new GameDataExport();
    exporter.SetLoggingMode(Global);
    exporter.StartCapture();
    var size := exporter.GetDataSize();
    assert size == 1;
    exporter.AddOverlayData("2025-01-01 10:00:00", "app", "60", "16.6", "30", "10", "cpu0: 1800 MHz",
                          "40", "1024", "N/A", "N/A", "20", "500", "45");
    assert exporter.statsRows[0] == CSV_HEADER && |exporter.statsRows| == 2;
    var lines := exporter.ExportDataToCsv();
    assert lines.Some?;
    exporter.StopCapture();
    exporter.AddOverlayData("", "", "", "", "", "", "", "", "", "", "", "", "", "");
    assert |exporter.statsRows| == 2;
  }
}
