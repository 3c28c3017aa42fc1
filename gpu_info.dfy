/**
 * GPU counters (src/com/android/gamebar/GameBarGpuInfo.kt): the busy percentage and the clock
 * read from one line of their sysfs nodes.
 */
module GpuInfo {
  import opened Wrappers
  import opened Strings
  import opened Numbers

  /** The text of the GPU-usage node once `%` signs and surrounding whitespace are dropped. */
  function CleanUsage(line: string): string {
    Trim(Remove(line, '%'))
  }

  /**
   * `getGpuUsage`, given the node's first line (`None` when it cannot be read): the value as an
   * `Int`, rendered again, or "N/A". A reported value reads back as the value the node held.
   */
  function GpuUsage(line: Option<string>): (r: string)
    ensures r == "N/A" <==> line.None? || ParseInt(CleanUsage(line.value)).None?
    ensures r != "N/A" ==> ParseInt(r) == ParseInt(CleanUsage(line.value))
  {
    if line.None? then "N/A"
    else
      match ParseInt(CleanUsage(line.value))
      case None => "N/A"
      case Some(value) =>
        ParseRender(value, INT_MIN, INT_MAX);
        assert Render(value) != "N/A" by {
          RenderCharacters(value);
          assert Render(value)[0] != 'N';
        }
        Render(value)
  }

  /** A rendered integer contains neither `%` nor whitespace. */
  lemma RenderIsClean(n: int)
    ensures '%' !in Render(n)
    ensures forall i :: 0 <= i < |Render(n)| ==> !IsWhitespace(Render(n)[i])
  {
    RenderCharacters(n);
  }

  /** Feeding a reported usage back through `getGpuUsage` changes nothing. */
  lemma GpuUsageIdempotent(line: Option<string>)
    ensures GpuUsage(Some(GpuUsage(line))) == GpuUsage(line)
  {
    if GpuUsage(line) == "N/A" {
      NotAvailableIsStable();
    } else {
      var v := ParseInt(CleanUsage(line.value)).value;
      assert GpuUsage(line) == Render(v);
      RenderedUsageIsStable(v);
    }
  }

  lemma NotAvailableIsStable()
    ensures GpuUsage(Some("N/A")) == "N/A"
  {
    assert CleanUsage("N/A") == "N/A" by {
      RemoveAbsent("N/A", '%');
      TrimNoWhitespace("N/A");
    }
    ParseNonNumeric("N/A", INT_MIN, INT_MAX);
  }

  lemma RenderedUsageIsStable(v: int)
    requires INT_MIN <= v <= INT_MAX
    ensures GpuUsage(Some(Render(v))) == Render(v)
  {
    assert CleanUsage(Render(v)) == Render(v) by {
      RenderIsClean(v);
      RemoveAbsent(Render(v), '%');
      TrimNoWhitespace(Render(v));
    }
    ParseRender(v, INT_MIN, INT_MAX);
  }

  /** A node reading such as "45%" reports the bare number. */
  lemma GpuUsageOfPercentText(v: int)
    requires INT_MIN <= v <= INT_MAX
    ensures GpuUsage(Some(Render(v) + "%")) == Render(v)
  {
    var r := Render(v);
    assert Remove(r + "%", '%') == r by {
      RenderIsClean(v);
      RemoveAppend(r, "%", '%');
      RemoveAbsent(r, '%');
    }
    assert CleanUsage(r + "%") == r by {
      RenderIsClean(v);
      TrimNoWhitespace(r);
    }
    ParseRender(v, INT_MIN, INT_MAX);
  }

  /** Removing a character distributes over concatenation. */
  lemma {:induction false} RemoveAppend(a: string, b: string, c: char)
    ensures Remove(a + b, c) == Remove(a, c) + Remove(b, c)
  {
    if a != [] {
      assert (a + b)[0] == a[0];
      assert (a + b)[1..] == a[1..] + b;
      RemoveAppend(a[1..], b, c);
    } else {
      assert a + b == b;
    }
  }

  /** The one failure `getGpuClock` does not catch. */
  datatype Uncaught = ArithmeticException

  /**
   * `getGpuClock` with the configured divider: the trimmed line as a `Long`, divided with
   * truncation; "N/A" when the line is missing or not a `Long`. A zero divider throws past the
   * `catch`, which only handles NumberFormatException.
   */
  function GpuClock(line: Option<string>, divider: int): (r: Result<string, Uncaught>)
    ensures line.None? || ParseLong(Trim(line.value)).None? <==> r == Success("N/A")
    ensures r.Failure? <==> line.Some? && ParseLong(Trim(line.value)).Some? && divider == 0
  {
    if line.None? then Success("N/A")
    else
      match ParseLong(Trim(line.value))
      case None => Success("N/A")
      case Some(hz) =>
        if divider == 0 then Failure(ArithmeticException)
        else
          assert Render(Quot(hz, divider)) != "N/A" by {
            RenderCharacters(Quot(hz, divider));
            assert Render(Quot(hz, divider))[0] != 'N';
          }
          Success(Render(Quot(hz, divider)))
  }

  /** A clock in hertz reads back, in the divider's unit, as the truncated quotient. */
  lemma GpuClockReadsBack(hz: int, divider: int)
    requires LONG_MIN <= hz <= LONG_MAX && divider != 0
    requires LONG_MIN <= Quot(hz, divider) <= LONG_MAX
    ensures GpuClock(Some(Render(hz)), divider).Success?
    ensures ParseLong(GpuClock(Some(Render(hz)), divider).value) == Some(Quot(hz, divider))
  {
    assert Trim(Render(hz)) == Render(hz) by {
      RenderIsClean(hz);
      TrimNoWhitespace(Render(hz));
    }
    ParseRender(hz, LONG_MIN, LONG_MAX);
    ParseRender(Quot(hz, divider), LONG_MIN, LONG_MAX);
  }

  /**
   * Any line whose trimmed text is a `Long` reads back, in the divider's unit, as that value
   * divided with truncation.
   */
  lemma GpuClockValue(line: string, divider: int)
    requires divider != 0 && ParseLong(Trim(line)).Some?
    requires LONG_MIN <= Quot(ParseLong(Trim(line)).value, divider) <= LONG_MAX
    ensures GpuClock(Some(line), divider).Success?
    ensures ParseLong(GpuClock(Some(line), divider).value) == Some(Quot(ParseLong(Trim(line)).value, divider))
  {
    ParseRender(Quot(ParseLong(Trim(line)).value, divider), LONG_MIN, LONG_MAX);
  }

  /** With the usual divider of 1000000, 587000000 Hz is reported as 587. */
  lemma GpuClockExample()
    ensures GpuClock(Some(Render(587000000)), 1000000) == Success(Render(587))
  {
    assert Quot(587000000, 1000000) == 587;
    assert Trim(Render(587000000)) == Render(587000000) by {
      RenderIsClean(587000000);
      TrimNoWhitespace(Render(587000000));
    }
    assert ParseLong(Render(587000000)) == Some(587000000) by {
      ParseRender(587000000, LONG_MIN, LONG_MAX);
    }
  }
}
