/**
 * Automatic detection of sysfs nodes (src/com/android/gamebar/utils/sysfsdetector.kt): the first
 * readable path of a ranked candidate list, cached per metric, and the temperature divider
 * inferred from one raw reading.
 */
module SysfsDetection {
  import opened Wrappers
  import opened Strings
  import opened Numbers

  /**
   * The filesystem as the detector probes it: `readable(p)` is `File(p).exists() &&
   * File(p).canRead()`, and `content(p)` is `File(p).readText()`, `None` when reading throws.
   */
  datatype FileSystem = FileSystem(readable: string -> bool, content: string -> Option<string>)

  const DEFAULT_DIVIDER: int := 1000

  const BATTERY_TEMP_PATHS: seq<string> := [
    "/sys/class/power_supply/battery/temp",
    "/sys/class/power_supply/battery/batt_temp",
    "/sys/class/power_supply/bms/temp",
    "/sys/class/oplus_chg/battery/temp",
    "/sys/class/oplus_chg/battery/batt_temp",
    "/sys/class/oplus_chg/battery/temperature",
    "/sys/class/oplus_chg/bq27541/temp",
    "/sys/class/thermal/thermal_zone0/temp"
  ]

  const FPS_PATHS: seq<string> := [
    "/sys/class/drm/card0/sde_crtc_fps",
    "/sys/class/graphics/fb0/fps",
    "/sys/class/graphics/fb0/measured_fps",
    "/sys/class/drm/sde-crtc-0/measured_fps"
  ]

  /** The temperature bands, inclusive at both ends, and the unit each one implies. */
  function DividerForReading(raw: int): (d: int)
    ensures d == 1 || d == 10 || d == 100 || d == 1000
  {
    if 20000 <= raw <= 50000 then 1000      // milli-degrees
    else if 2000 <= raw <= 5000 then 100    // centi-degrees
    else if 200 <= raw <= 500 then 10       // deci-degrees
    else if 20 <= raw <= 100 then 1         // degrees
    else DEFAULT_DIVIDER
  }

  /** A reading in a recognised band converts to a plausible temperature of 20 to 100 degrees. */
  lemma {:induction false} BandedReadingIsPlausible(raw: int)
    requires (20000 <= raw <= 50000) || (2000 <= raw <= 5000) || (200 <= raw <= 500) || (20 <= raw <= 100)
    ensures 20.0 <= raw as real / DividerForReading(raw) as real <= 100.0
  {
  }

  /** Readings outside every band fall back to the milli-degree divider. */
  lemma UnbandedReadingDefaults(raw: int)
    requires !(20000 <= raw <= 50000) && !(2000 <= raw <= 5000)
    requires !(200 <= raw <= 500) && !(20 <= raw <= 100)
    ensures DividerForReading(raw) == 1000
  {
  }

  /** The worked examples of the detector, and the inclusive upper ends of the bands. */
  lemma DividerExamples()
    ensures DividerForReading(35000) == 1000 && DividerForReading(3500) == 100
    ensures DividerForReading(350) == 10 && DividerForReading(35) == 1
    ensures DividerForReading(999999) == 1000
    ensures DividerForReading(50000) == 1000 && DividerForReading(5000) == 100
    ensures DividerForReading(500) == 10 && DividerForReading(100) == 1
  {
  }

  /**
   * `detectTemperatureDivider`: a missing or unreadable node, a failed read, empty content or
   * content that is not an `Int` all give the default 1000.
   */
  function DetectTemperatureDivider(fs: FileSystem, path: string): (d: int)
    ensures d == 1 || d == 10 || d == 100 || d == 1000
    ensures !fs.readable(path) || fs.content(path).None? ==> d == 1000
    ensures fs.readable(path) && fs.content(path).Some? ==>
      match ParseInt(Trim(fs.content(path).value))
      case None => d == 1000
      case Some(raw) => d == DividerForReading(raw)
  {
    if !fs.readable(path) then DEFAULT_DIVIDER
    else
      match fs.content(path)
      case None => DEFAULT_DIVIDER
      case Some(text) =>
        var content := Trim(text);
        if content == [] then DEFAULT_DIVIDER
        else
          match ParseInt(content)
          case None => DEFAULT_DIVIDER
          case Some(raw) => DividerForReading(raw)
  }

  /** The first candidate, in list order, that exists and is readable. */
  function FirstReadable(candidates: seq<string>, fs: FileSystem): (r: Option<string>)
    ensures r.None? <==> forall i :: 0 <= i < |candidates| ==> !fs.readable(candidates[i])
    ensures r.Some? ==>
      exists i :: (0 <= i < |candidates| && candidates[i] == r.value && fs.readable(candidates[i])
                   && forall j :: 0 <= j < i ==> !fs.readable(candidates[j]))
  {
    if candidates == [] then None
    else if fs.readable(candidates[0]) then Some(candidates[0])
    else
      var r := FirstReadable(candidates[1..], fs);
      assert forall j :: 1 <= j < |candidates| ==> candidates[j] == candidates[1..][j - 1];
      r
  }

  /** The object `SysfsDetector`: its two caches, keyed by metric name. */
  class SysfsDetector {
    /** `detectedPaths`: a key mapped to `None` records a detection that found nothing. */
    var detectedPaths: map<string, Option<string>>
    var detectedDividers: map<string, int>

    constructor ()
      ensures detectedPaths == map[] && detectedDividers == map[]
    {
      detectedPaths := map[];
      detectedDividers := map[];
    }

    /** `detectedPaths[pathType]`, with a missing key and a cached null both read as `None`. */
    function CachedPath(pathType: string): Option<string>
      reads this
    {
      if pathType in detectedPaths then detectedPaths[pathType] else None
    }

    /**
     * What `detectPath` answers: a cached path without probing, otherwise (nothing cached, or a
     * cached failure) the first readable candidate of the current filesystem.
     */
    function Resolve(pathType: string, candidates: seq<string>, fs: FileSystem): Option<string>
      reads this
    {
      if CachedPath(pathType).Some? then CachedPath(pathType) else FirstReadable(candidates, fs)
    }

    /** `detectPath`: probe the candidates in order and cache the outcome, found or not. */
    method DetectPath(pathType: string, candidates: seq<string>, fs: FileSystem) returns (r: Option<string>)
      modifies this`detectedPaths
      ensures r == old(Resolve(pathType, candidates, fs))
      ensures detectedPaths == old(detectedPaths)[pathType := r]
    {
      if pathType in detectedPaths && detectedPaths[pathType].Some? {
        r := detectedPaths[pathType];
        return;
      }
      var i := 0;
      while i < |candidates|
        invariant 0 <= i <= |candidates|
        invariant FirstReadable(candidates, fs) == FirstReadable(candidates[i..], fs)
        invariant detectedPaths == old(detectedPaths)
      {
        if fs.readable(candidates[i]) {
          detectedPaths := detectedPaths[pathType := Some(candidates[i])];
          r := Some(candidates[i]);
          return;
        }
        assert candidates[i..][1..] == candidates[i + 1..];
        i := i + 1;
      }
      detectedPaths := detectedPaths[pathType := None];
      r := None;
    }

    /** `getFpsPath`. */
    method GetFpsPath(fs: FileSystem) returns (r: Option<string>)
      modifies this`detectedPaths
      ensures r == old(Resolve("fps", FPS_PATHS, fs))
      ensures detectedPaths == old(detectedPaths)["fps" := r]
    {
      r := DetectPath("fps", FPS_PATHS, fs);
    }

    /** `getBatteryTempPath`. */
    method GetBatteryTempPath(fs: FileSystem) returns (r: Option<string>)
      modifies this`detectedPaths
      ensures r == old(Resolve("battery_temp", BATTERY_TEMP_PATHS, fs))
      ensures detectedPaths == old(detectedPaths)["battery_temp" := r]
    {
      r := DetectPath("battery_temp", BATTERY_TEMP_PATHS, fs);
    }

    /**
     * `getBatteryTempInfo`: no path gives (null, 1000) and caches no divider; otherwise the
     * divider is detected once and then served from the cache.
     */
    method GetBatteryTempInfo(fs: FileSystem) returns (path: Option<string>, divider: int)
      modifies this
      ensures path == old(Resolve("battery_temp", BATTERY_TEMP_PATHS, fs))
      ensures detectedPaths == old(detectedPaths)["battery_temp" := path]
      ensures path.None? ==> divider == 1000 && detectedDividers == old(detectedDividers)
      ensures path.Some? && "battery_temp" in old(detectedDividers) ==>
        divider == old(detectedDividers)["battery_temp"] && detectedDividers == old(detectedDividers)
      ensures path.Some? && "battery_temp" !in old(detectedDividers) ==>
        divider == DetectTemperatureDivider(fs, path.value)
        && detectedDividers == old(detectedDividers)["battery_temp" := divider]
    {
      path := GetBatteryTempPath(fs);
      if path.None? {
        divider := DEFAULT_DIVIDER;
        return;
      }
      if "battery_temp" in detectedDividers {
        divider := detectedDividers["battery_temp"];
        return;
      }
      divider := DetectTemperatureDivider(fs, path.value);
      detectedDividers := detectedDividers["battery_temp" := divider];
    }

    /** `resetDetection`: forgets every path but keeps the dividers already detected. */
    method ResetDetection()
      modifies this`detectedPaths
      ensures detectedPaths == map[]
      ensures detectedDividers == old(detectedDividers)
    {
      detectedPaths := map[];
    }

    /** `isComponentSupported`: only "fps" and "battery_temp" are known components. */
    method IsComponentSupported(component: string, fs: FileSystem) returns (supported: bool)
      modifies this`detectedPaths
      ensures component == "fps" ==>
        supported == old(Resolve("fps", FPS_PATHS, fs)).Some?
        && detectedPaths == old(detectedPaths)["fps" := old(Resolve("fps", FPS_PATHS, fs))]
      ensures component == "battery_temp" ==>
        supported == old(Resolve("battery_temp", BATTERY_TEMP_PATHS, fs)).Some?
        && detectedPaths == old(detectedPaths)["battery_temp" := old(Resolve("battery_temp", BATTERY_TEMP_PATHS, fs))]
      ensures component != "fps" && component != "battery_temp" ==>
        !supported && detectedPaths == old(detectedPaths)
    {
      if component == "fps" {
        var p := GetFpsPath(fs);
        supported := p.Some?;
      } else if component == "battery_temp" {
        var p := GetBatteryTempPath(fs);
        supported := p.Some?;
      } else {
        supported := false;
      }
    }
  }

  /**
   * A found path is served from the cache on the next call, even after the filesystem
   * changed; a failed detection is retried against the current filesystem.
   */
  method CacheScenario(fs1: FileSystem, fs2: FileSystem)
    requires fs1.readable(FPS_PATHS[1]) && !fs1.readable(FPS_PATHS[0])
    requires forall i :: 0 <= i < |BATTERY_TEMP_PATHS| ==> !fs1.readable(BATTERY_TEMP_PATHS[i])
  {
    var detector := new SysfsDetector();
    var first := detector.GetFpsPath(fs1);
    assert first == Some(FPS_PATHS[1]);
    var second := detector.GetFpsPath(fs2);
    assert second == first;

    var battery := detector.GetBatteryTempPath(fs1);
    assert battery == None;
    var retried := detector.GetBatteryTempPath(fs2);
    assert retried == FirstReadable(BATTERY_TEMP_PATHS, fs2);

    detector.ResetDetection();
    var again := detector.GetFpsPath(fs2);
    assert again == FirstReadable(FPS_PATHS, fs2);
  }
}
