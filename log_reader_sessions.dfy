/**
 * The session duration and session date the log reader derives
 * (src/com/android/gamebar/PerAppLogReader.kt, `calculateSessionDuration` and
 * `extractSessionDate`): what the rendered numbers mean, when each falls back to its
 * "Unknown" text, and how a log's file name yields its stamp.
 */
module LogReaderSessions {
  import opened Wrappers
  import opened Strings
  import opened Numbers
  import opened PerAppLogReader

  /** Euclidean division is determined by any quotient and remainder that fit. */
  lemma DivUnique(a: int, k: int, q: int, r: int)
    requires k > 0 && a == k * q + r && 0 <= r < k
    ensures a / k == q && a % k == r
  {
    var q0 := a / k;
    assert k * q + r == k * q0 + a % k;
    if q > q0 {
      MulAtLeast(k, q - q0);
    } else if q < q0 {
      MulAtLeast(k, q0 - q);
    }
  }

  lemma MulAtLeast(k: int, x: int)
    requires k > 0 && x >= 1
    ensures k * x >= k
  {
    assert k * x == k + k * (x - 1);
  }

  /** Dividing in two steps is dividing by the product. */
  lemma DivDiv(a: nat, b: int, c: int)
    requires b > 0 && c > 0
    ensures a / b / c == a / (b * c)
    ensures a / b % c == a % (b * c) / b
  {
    var q1 := a / b;
    var r1 := a % b;
    var q2 := q1 / c;
    var r2 := q1 % c;
    NestedQuotients(a, b, c, q1, r1, q2, r2);
    DivUnique(a, b * c, q2, b * r2 + r1);
    DivUnique(b * r2 + r1, b, r2, r1);
  }

  /** Two nested quotient-remainder splittings make one by the product. */
  lemma NestedQuotients(a: int, b: int, c: int, q1: int, r1: int, q2: int, r2: int)
    requires b > 0 && c > 0
    requires a == b * q1 + r1 && 0 <= r1 < b
    requires q1 == c * q2 + r2 && 0 <= r2 < c
    ensures a == (b * c) * q2 + (b * r2 + r1)
    ensures 0 <= b * r2 + r1 < b * c
  {
    assert b * q1 == (b * c) * q2 + b * r2;
    assert b * r2 + b <= b * c by {
      MulAtLeast(b, c - r2);
      assert b * (c - r2) == b * c - b * r2;
    }
    assert 0 <= b * r2 by {
      if r2 > 0 {
        MulAtLeast(b, r2);
      }
    }
  }

  /**
   * For a non-negative duration the hours, minutes (below 60) and seconds (below 60) shown
   * account for the duration down to the millisecond remainder.
   */
  lemma DurationComponents(durationMs: int)
    requires durationMs >= 0
    ensures var hours := Quot(durationMs, 1000 * 60 * 60);
      var minutes := Rem(Quot(durationMs, 1000 * 60), 60);
      var seconds := Rem(Quot(durationMs, 1000), 60);
      && hours >= 0 && 0 <= minutes < 60 && 0 <= seconds < 60
      && var shown := hours * 3600000 + minutes * 60000 + seconds * 1000;
      shown <= durationMs < shown + 1000
  {
    var d := durationMs;
    var hours := Quot(d, 1000 * 60 * 60);
    var minutes := Rem(Quot(d, 1000 * 60), 60);
    var seconds := Rem(Quot(d, 1000), 60);
    DivDiv(d, 1000, 60);
    DivDiv(d, 60000, 60);
    assert minutes == d / 60000 % 60;
    assert seconds == d / 1000 % 60;
    assert hours == d / 3600000;
    assert d / 1000 == 60 * (d / 60000) + seconds by {
      DivDiv(d, 1000, 60);
    }
    assert d / 60000 == 60 * hours + minutes;
    assert d == 1000 * (d / 1000) + d % 1000;
  }

  /**
   * Hours are shown from one hour on, minutes from one minute on; a negative duration shows
   * only its (negative) seconds within the minute.
   */
  lemma DurationShape(durationMs: int)
    ensures var hours := Quot(durationMs, 1000 * 60 * 60);
      var minutes := Rem(Quot(durationMs, 1000 * 60), 60);
      var seconds := Rem(Quot(durationMs, 1000), 60);
      && (durationMs >= 3600000 ==>
            FormatDuration(durationMs) == Render(hours) + "h " + Render(minutes) + "m " + Render(seconds) + "s")
      && (60000 <= durationMs < 3600000 ==>
            FormatDuration(durationMs) == Render(minutes) + "m " + Render(seconds) + "s")
      && (durationMs < 60000 ==> FormatDuration(durationMs) == Render(seconds) + "s")
  {
    var d := durationMs;
    if d >= 0 {
      DivDiv(d, 60000, 60);
      assert Quot(d, 1000 * 60 * 60) == d / 3600000;
      if d >= 60000 {
        assert d / 60000 >= 1;
      }
      if 60000 <= d < 3600000 {
        assert d / 3600000 == 0;
        assert d / 60000 % 60 == d / 60000;
      }
      if d < 60000 {
        assert d / 60000 == 0;
      }
    } else {
      assert Quot(d, 1000 * 60 * 60) <= 0;
      assert Quot(d, 1000 * 60) <= 0;
    }
  }

  /** A formatted duration always ends in "s", so it is never the "Unknown" fallback. */
  lemma FormatDurationEndsInS(durationMs: int)
    ensures var r := FormatDuration(durationMs); r != [] && r[|r| - 1] == 's'
    ensures FormatDuration(durationMs) != "Unknown"
  {
    var r := FormatDuration(durationMs);
    assert r[|r| - 1] == 's';
    assert "Unknown"[6] == 'n';
  }

  /**
   * The elapsed time is known exactly when both timestamps are present and parse, and it is
   * then the last one's time less the first one's.
   */
  lemma ElapsedTime(first: Option<string>, last: Option<string>, parseTime: string -> Option<int>)
    ensures ElapsedMs(first, last, parseTime).Some? <==>
      first.Some? && last.Some? && parseTime(first.value).Some? && parseTime(last.value).Some?
    ensures ElapsedMs(first, last, parseTime).Some? ==>
      ElapsedMs(first, last, parseTime).value == parseTime(last.value).value - parseTime(first.value).value
  {
  }

  /** A known elapsed time is shown formatted. */
  lemma SessionDurationKnown(first: Option<string>, last: Option<string>, parseTime: string -> Option<int>)
    requires ElapsedMs(first, last, parseTime).Some?
    ensures SessionDuration(first, last, parseTime) == FormatDuration(ElapsedMs(first, last, parseTime).value)
  {
  }

  /**
   * The duration is "Unknown" exactly when a timestamp is missing or does not parse.
   */
  lemma SessionDurationUnknown(first: Option<string>, last: Option<string>, parseTime: string -> Option<int>)
    ensures SessionDuration(first, last, parseTime) == "Unknown" <==>
      !(first.Some? && last.Some? && parseTime(first.value).Some? && parseTime(last.value).Some?)
  {
    ElapsedTime(first, last, parseTime);
    var elapsed := ElapsedMs(first, last, parseTime);
    if elapsed.Some? {
      SessionDurationKnown(first, last, parseTime);
      FormatDurationEndsInS(elapsed.value);
    }
  }

  /** 65 seconds show as "1m 5s". */
  lemma FormatMinutesExample()
    ensures FormatDuration(65000) == "1m 5s"
  {
    assert Quot(65000, 1000) == 65 && Rem(65, 60) == 5;
    assert Quot(65000, 60000) == 1 && Rem(1, 60) == 1;
    DurationShape(65000);
    assert FormatDuration(65000) == Render(1) + "m " + Render(5) + "s";
    assert Render(1) == "1" && Render(5) == "5";
  }

  /** 3723 seconds show as "1h 2m 3s". */
  lemma FormatHoursExample()
    ensures FormatDuration(3723000) == "1h 2m 3s"
  {
    assert Quot(3723000, 1000) == 3723;
    assert Quot(3723000, 60000) == 62;
    assert Quot(3723000, 3600000) == 1;
    assert Rem(3723, 60) == 3 && Rem(62, 60) == 2;
    assert Render(1) == "1" && Render(2) == "2" && Render(3) == "3";
  }

  /** A last timestamp 65 seconds before the first shows as "-5s": the minute is lost. */
  lemma FormatNegativeExample()
    ensures FormatDuration(-65000) == "-5s"
  {
    assert Quot(-65000, 1000) == -65;
    assert Quot(-65000, 60000) == -1;
    assert Quot(-65000, 3600000) == 0;
    assert Rem(-65, 60) == -5 && Rem(-1, 60) == -1;
    assert Render(-5) == "-5";
  }

  /**
   * A log named `<prefix>_<yyyyMMdd>_<HHmmss>.csv`, as the exporter names its files, yields
   * the date and time digits run together, with or without a final line terminator.
   */
  lemma SessionStampOfLogName(prefix: string, date: string, time: string, terminator: string)
    requires |date| == 8 && AllDigits(date) && |time| == 6 && AllDigits(time)
    requires terminator == "" || terminator == "\n" || terminator == "\r\n"
    ensures SessionStamp(prefix + "_" + date + "_" + time + ".csv" + terminator) == Some(date + time)
  {
    var core := prefix + "_" + date + "_" + time + ".csv";
    var name := core + terminator;
    assert TerminatorLength(name) == |terminator| by {
      if terminator == "" {
        assert name[|name| - 1] == 'v';
        if |name| >= 2 {
          assert name[|name| - 2..] == "sv";
        }
      } else if terminator == "\n" {
        assert name[|name| - 2..] == "v\n";
      }
    }
    assert name[..|name| - |terminator|] == core;
    var n := |core|;
    assert core[n - 20] == '_' && core[n - 11] == '_';
    assert core[n - 19..n - 11] == date;
    assert core[n - 10..n - 4] == time;
    assert core[n - 4..] == ".csv";
  }

  /**
   * A name has a session stamp exactly when it ends (before any final terminator) with
   * `_` + 8 digits + `_` + 6 digits + ".csv"; every other name has no session date.
   */
  lemma NoStampUnlessPattern(fileName: string, formatStamp: string -> Option<string>)
    ensures var core := fileName[..|fileName| - TerminatorLength(fileName)];
      SessionStamp(fileName).None? <==> !EndsWithStamp(core)
    ensures var core := fileName[..|fileName| - TerminatorLength(fileName)];
      !EndsWithStamp(core) ==> SessionDate(fileName, formatStamp) == "Unknown Date"
  {
  }

  /** A name that does not end in ".csv" (before any final terminator) has no session date. */
  lemma NoStampWithoutCsv(fileName: string, formatStamp: string -> Option<string>)
    requires var core := fileName[..|fileName| - TerminatorLength(fileName)]; !EndsWith(core, ".csv")
    ensures SessionStamp(fileName) == None
    ensures SessionDate(fileName, formatStamp) == "Unknown Date"
  {
  }

  /** "log_2024_.csv" ends in ".csv" but has no stamp before it, so it has no session date. */
  lemma ShortStampUnknown(formatStamp: string -> Option<string>)
    ensures SessionDate("log_2024_.csv", formatStamp) == "Unknown Date"
  {
    var name := "log_2024_.csv";
    assert TerminatorLength(name) == 0 by {
      assert name[|name| - 1] == 'v';
      assert name[|name| - 2..] == "sv";
    }
    assert name[..|name|] == name;
    assert |name| < 20;
    NoStampUnlessPattern(name, formatStamp);
  }
}
