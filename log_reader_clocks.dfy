/**
 * How the log reader's `(\d+)\s*MHz` search and per-core clock map behave on the text the
 * CPU reader produces for each core (src/com/android/gamebar/GameBarCpuInfo.kt,
 * `getCpuFrequencies`, read back by src/com/android/gamebar/PerAppLogReader.kt).
 */
module LogReaderClocks {
  import opened Wrappers
  import opened Strings
  import opened Numbers
  import opened PerAppLogReader
  import CpuInfo

  /** A digit run ends where the digits end. */
  lemma {:induction false} DigitRunPrefix(d: string, rest: string)
    requires AllDigits(d)
    requires rest == [] || !IsAsciiDigit(rest[0])
    ensures DigitRun(d + rest) == |d|
  {
    if d != [] {
      assert (d + rest)[1..] == d[1..] + rest;
      DigitRunPrefix(d[1..], rest);
    }
  }

  /** Positions where no match starts are skipped by the leftmost search. */
  lemma {:induction false} FindMhzSkip(s: string, i: nat, j: nat)
    requires i <= j <= |s|
    requires forall k :: i <= k < j ==> MhzAt(s, k).None?
    ensures FindMhzFrom(s, i) == FindMhzFrom(s, j)
    decreases j - i
  {
    if i < j {
      assert MhzAt(s, i).None?;
      FindMhzSkip(s, i + 1, j);
    }
  }

  /** A match needs the letter 'M'. */
  lemma NoMatchPrefixWithoutM(u: string)
    requires 'M' !in u
    ensures MhzPrefix(u).None?
  {
  }

  /** Text without an 'M' holds no clock reading. */
  lemma NoMatchWithoutM(s: string)
    requires 'M' !in s
    ensures FindMhz(s) == None
  {
    forall k | 0 <= k < |s| ensures MhzAt(s, k).None? {
      assert forall c :: c in s[k..] ==> c in s;
      NoMatchPrefixWithoutM(s[k..]);
    }
    FindMhzSkip(s, 0, |s|);
  }

  /** Text that starts with a character other than a digit holds no match at its start. */
  lemma NoMatchAtNonDigit(u: string)
    requires u != [] && !IsAsciiDigit(u[0])
    ensures MhzPrefix(u).None?
  {
  }

  /** Digits followed by text that starts with ':' are no match. */
  lemma NoMatchBeforeColon(d: string, tail: string)
    requires AllDigits(d)
    ensures MhzPrefix(d + (":" + tail)).None?
  {
    var u := d + (":" + tail);
    DigitRunPrefix(d, ":" + tail);
    assert u[|d|..] == ":" + tail;
    assert SpaceRun(":" + tail) == 0;
  }

  /** No match starts inside the `cpuN: ` head of a core's line. */
  lemma NoMatchInHead(name: string, tail: string, k: nat)
    requires CpuInfo.IsCpuDirName(name)
    requires k < |name| + 2
    ensures MhzAt(name + ": " + tail, k).None?
  {
    var s := name + ": " + tail;
    var u := s[k..];
    if 3 <= k < |name| {
      assert u == name[k..] + (":" + (" " + tail));
      NoMatchBeforeColon(name[k..], " " + tail);
    } else {
      assert u[0] == s[k];
      NoMatchAtNonDigit(u);
    }
  }

  /** A number followed by " MHz" is a match. */
  lemma MatchAtNumber(digits: string)
    requires digits != [] && AllDigits(digits)
    ensures MhzPrefix(digits + " MHz") == Some(DigitsValue(digits))
  {
    var u := digits + " MHz";
    DigitRunPrefix(digits, " MHz");
    assert u[|digits|..] == " MHz";
    assert SpaceRun(" MHz") == 1;
    assert u[..|digits|] == digits;
  }

  /**
   * The line the CPU reader gives a core with a non-negative frequency reads back as that
   * frequency in MHz.
   */
  lemma FrequencyEntryParses(name: string, freqLine: string, khz: int)
    requires CpuInfo.IsCpuDirName(name)
    requires freqLine != [] && ParseInt(Trim(freqLine)) == Some(khz) && khz >= 0
    ensures FindMhz(CpuInfo.FrequencyEntry(name, Some(freqLine))) == Some(Quot(khz, 1000))
  {
    var mhz := Quot(khz, 1000);
    assert mhz >= 0;
    var digits := Render(mhz);
    assert CpuInfo.FrequencyEntry(name, Some(freqLine)) == name + ": " + (digits + " MHz");
    HeadThenNumber(name, digits);
    assert digits == RenderNat(mhz);
  }

  /** The `cpuN: ` head holds no match, so the number after it is the first. */
  lemma HeadThenNumber(name: string, digits: string)
    requires CpuInfo.IsCpuDirName(name)
    requires digits != [] && AllDigits(digits)
    ensures FindMhz(name + ": " + (digits + " MHz")) == Some(DigitsValue(digits))
  {
    var head := name + ": ";
    var s := head + (digits + " MHz");
    forall k | 0 <= k < |head| ensures MhzAt(s, k).None? {
      NoMatchInHead(name, digits + " MHz", k);
    }
    FindMhzSkip(s, 0, |head|);
    MatchAtNumber(digits);
    assert s[|head|..] == digits + " MHz";
    assert MhzAt(s, |head|) == Some(DigitsValue(digits));
  }

  /** One fragment adds its reading under its index and leaves every other key alone. */
  lemma AddClockEffect(clocks: map<int, seq<Point>>, index: nat, fragment: string, time: int)
    ensures var r := AddClock(clocks, index, fragment, time);
      && r.Keys == clocks.Keys + (if FindMhz(fragment).Some? then {index as int} else {})
      && (FindMhz(fragment).Some? ==> LastReading(r, index, Point(time, FindMhz(fragment).value as real)))
      && forall j :: j in clocks && j != index ==> r[j] == clocks[j]
  {
  }

  /** The key set after one fragment. */
  lemma AddClockKeys(clocks: map<int, seq<Point>>, index: nat, fragment: string, time: int)
    ensures AddClock(clocks, index, fragment, time).Keys
      == clocks.Keys + (if FindMhz(fragment).Some? then {index as int} else {})
  {
  }

  /** A fragment leaves the last reading of every other key as it was. */
  lemma AddClockKeepsReading(clocks: map<int, seq<Point>>, index: nat, fragment: string, time: int,
                             i: int, p: Point)
    requires LastReading(clocks, i, p) && i != index
    ensures LastReading(AddClock(clocks, index, fragment, time), i, p)
  {
  }

  /** A matching fragment ends its own key's series with its reading. */
  lemma AddClockReads(clocks: map<int, seq<Point>>, index: nat, fragment: string, time: int)
    requires FindMhz(fragment).Some?
    ensures LastReading(AddClock(clocks, index, fragment, time), index, Point(time, FindMhz(fragment).value as real))
  {
  }

  /** Key `i` is present and its series ends with `p`. */
  predicate LastReading(clocks: map<int, seq<Point>>, i: int, p: Point) {
    i in clocks && clocks[i] != [] && clocks[i][|clocks[i]| - 1] == p
  }

  /** The indices of the fragments, among the first `n`, that carry a clock reading. */
  function MatchingIndices(fragments: seq<string>, n: nat): set<int>
    requires n <= |fragments|
  {
    if n == 0 then {}
    else MatchingIndices(fragments, n - 1) + (if FindMhz(fragments[n - 1]).Some? then {n - 1} else {})
  }

  /** An index is matching exactly when it is among the first `n` and its fragment has a reading. */
  lemma {:induction false} MatchingIndicesMembers(fragments: seq<string>, n: nat, i: int)
    requires n <= |fragments|
    ensures i in MatchingIndices(fragments, n) <==> 0 <= i < n && FindMhz(fragments[i]).Some?
  {
    if n > 0 {
      MatchingIndicesMembers(fragments, n - 1, i);
    }
  }

  /** The clock map gains a key for exactly the fragment positions that carry a reading. */
  lemma {:induction false} ClockKeys(clocks: map<int, seq<Point>>, fragments: seq<string>, n: nat, time: int)
    requires n <= |fragments|
    ensures AddClocks(clocks, fragments, n, time).Keys == clocks.Keys + MatchingIndices(fragments, n)
  {
    if n > 0 {
      var prev := AddClocks(clocks, fragments, n - 1, time);
      ClockKeys(clocks, fragments, n - 1, time);
      AddClockKeys(prev, n - 1, fragments[n - 1], time);
    }
  }

  /** Each fragment position that carries a reading ends its series with that reading. */
  lemma {:induction false} ClockReadings(clocks: map<int, seq<Point>>, fragments: seq<string>, n: nat, time: int)
    requires n <= |fragments|
    ensures forall i :: 0 <= i < n && FindMhz(fragments[i]).Some? ==>
      LastReading(AddClocks(clocks, fragments, n, time), i, Point(time, FindMhz(fragments[i]).value as real))
  {
    if n > 0 {
      var prev := AddClocks(clocks, fragments, n - 1, time);
      var next := AddClocks(clocks, fragments, n, time);
      ClockReadings(clocks, fragments, n - 1, time);
      assert next == AddClock(prev, n - 1, fragments[n - 1], time);
      forall i | 0 <= i < n && FindMhz(fragments[i]).Some?
        ensures LastReading(next, i, Point(time, FindMhz(fragments[i]).value as real))
      {
        var p := Point(time, FindMhz(fragments[i]).value as real);
        if i < n - 1 {
          AddClockKeepsReading(prev, n - 1, fragments[n - 1], time, i, p);
        } else {
          AddClockReads(prev, n - 1, fragments[n - 1], time);
        }
      }
    }
  }

  /**
   * A fragment without a reading is skipped without shifting the later keys: for fields such
   * as "cpu0: 1800 MHz;cpu1: garbage;cpu2: 2000 MHz" the readings land under keys 0 and 2.
   */
  lemma SkippedFragmentKeepsKeys(mhz0: string, middle: string, mhz2: string, time: int)
    requires mhz0 != [] && AllDigits(mhz0) && mhz2 != [] && AllDigits(mhz2)
    requires 'M' !in middle
    ensures AddClocks(map[], ["cpu0: " + mhz0 + " MHz", middle, "cpu2: " + mhz2 + " MHz"], 3, time).Keys == {0, 2}
  {
    var fragments := ["cpu0: " + mhz0 + " MHz", middle, "cpu2: " + mhz2 + " MHz"];
    assert CpuInfo.IsCpuDirName("cpu0") && CpuInfo.IsCpuDirName("cpu2");
    CoreReads("cpu0", mhz0);
    NoMatchWithoutM(middle);
    CoreReads("cpu2", mhz2);
    assert "cpu0" + ": " + mhz0 + " MHz" == fragments[0];
    assert "cpu2" + ": " + mhz2 + " MHz" == fragments[2];
    ClockKeys(map[], fragments, 3, time);
    MiddleSkipped(fragments);
  }

  /** The line of a core with a reading matches. */
  lemma CoreReads(name: string, digits: string)
    requires CpuInfo.IsCpuDirName(name) && digits != [] && AllDigits(digits)
    ensures FindMhz(name + ": " + digits + " MHz").Some?
  {
    HeadThenNumber(name, digits);
    assert name + ": " + digits + " MHz" == name + ": " + (digits + " MHz");
  }

  /** Of three fragments, only the middle one without a reading: keys 0 and 2. */
  lemma MiddleSkipped(fragments: seq<string>)
    requires |fragments| == 3
    requires FindMhz(fragments[0]).Some? && FindMhz(fragments[1]).None? && FindMhz(fragments[2]).Some?
    ensures MatchingIndices(fragments, 3) == {0, 2}
  {
    assert MatchingIndices(fragments, 1) == {0};
    assert MatchingIndices(fragments, 2) == {0};
  }

  /**
   * Every per-core reading of a data line's CPU-clock field ends that core's series, placed at
   * the same time as the line's other samples (`RelativeTime` after the frame-rate column).
   */
  lemma ColumnsStepClockTimes(st: ParseState, columns: seq<string>, parseTime: string -> Option<int>)
    requires |columns| > COL_CPU_CLOCK && |columns| > COL_FPS
    requires Trim(columns[COL_CPU_CLOCK]) != [] && Trim(columns[COL_CPU_CLOCK]) != "N/A"
    ensures var step := FpsStep(st.fps, st.sessionStartTimeMs, st.lineCount, columns, parseTime);
      var fragments := Split(Trim(columns[COL_CPU_CLOCK]), ';');
      forall i :: 0 <= i < |fragments| && FindMhz(fragments[i]).Some? ==>
        LastReading(ColumnsStep(st, columns, parseTime).cpuClockTimeData, i,
                    Point(RelativeTime(step.0, step.1, st.lineCount), FindMhz(fragments[i]).value as real))
  {
    var step := FpsStep(st.fps, st.sessionStartTimeMs, st.lineCount, columns, parseTime);
    var t := RelativeTime(step.0, step.1, st.lineCount);
    var fragments := Split(Trim(columns[COL_CPU_CLOCK]), ';');
    assert ColumnsStep(st, columns, parseTime).cpuClockTimeData
      == AddClocks(st.cpuClockTimeData, fragments, |fragments|, t);
    ClockReadings(st.cpuClockTimeData, fragments, |fragments|, t);
  }
}
