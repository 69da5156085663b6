/**
 * `Fps` (src/render.rs): per-frame times in milliseconds are accumulated
 * until they add up to at least 1000; then the window's frame count, minimum,
 * maximum and total are reported and the window starts afresh.
 */
module FrameStats {
  import opened Wrappers

  /** Rust's `u32`, the type of a frame-time sample. */
  type U32 = x: int | 0 <= x < 0x1_0000_0000

  /** A report is produced once the accumulated time reaches this many milliseconds. */
  const REPORT_MS := 1000

  function Sum(h: seq<int>): int {
    if h == [] then 0 else Sum(h[..|h| - 1]) + h[|h| - 1]
  }

  /**
   * What is reported about a window: the frame count, the shortest and
   * longest frame, and the total time (from which the program derives the
   * mean and variance in floating point).
   */
  datatype Report = Report(frames: nat, min: int, max: int, total: int)

  /** `r` describes the window `h`: count, least and greatest element, sum. */
  ghost predicate Describes(r: Report, h: seq<int>) {
    && r.frames == |h|
    && r.min in h && r.max in h
    && (forall e :: e in h ==> r.min <= e <= r.max)
    && r.total == Sum(h)
  }

  /**
   * The statistics loop of `Fps::frame`: min and max start at the first
   * sample and every sample is folded into min, max and the running sum.
   */
  method Summarise(h: seq<U32>) returns (r: Report)
    requires h != []
    ensures Describes(r, h)
  {
    var min := h[0];
    var max := h[0];
    var total: int := 0;
    for i := 0 to |h|
      invariant min in h && max in h
      invariant forall k :: 0 <= k < i ==> min <= h[k] <= max
      invariant total == Sum(h[..i])
    {
      min := if h[i] < min then h[i] else min;
      max := if h[i] > max then h[i] else max;
      assert h[..i + 1][..i] == h[..i];
      total := total + h[i];
    }
    assert h[..|h|] == h;
    r := Report(|h|, min, max, total);
  }

  class Fps {
    var msAccum: int
    var history: seq<U32>

    /** The accumulator is the sum of the window and stays below the threshold between calls. */
    ghost predicate Valid()
      reads this
    {
      0 <= msAccum < REPORT_MS && msAccum == Sum(history)
    }

    /** `Fps::new`. */
    constructor ()
      ensures Valid() && msAccum == 0 && history == []
    {
      msAccum := 0;
      history := [];
    }

    /**
     * `Fps::frame`: record one sample. Below the threshold it only appends
     * the sample; at or above it, it reports on the window including the new
     * sample and empties the window.
     */
    method Frame(time: U32) returns (report: Option<Report>)
      requires Valid()
      modifies this
      ensures Valid()
      ensures old(msAccum) + time < REPORT_MS ==>
        report == None && history == old(history) + [time] && msAccum == old(msAccum) + time
      ensures old(msAccum) + time >= REPORT_MS ==>
        && report.Some? && Describes(report.value, old(history) + [time])
        && report.value.total >= REPORT_MS
        && msAccum == 0 && history == []
    {
      msAccum := msAccum + time;
      history := history + [time];
      assert history[..|history| - 1] == old(history);
      if msAccum >= REPORT_MS {
        var r := Summarise(history);
        report := Some(r);
        msAccum := 0;
        history := [];
      } else {
        report := None;
      }
    }
  }

  /**
   * Samples of 10, 20 and 30 ms add up to 60 and report nothing; a fourth of
   * 940 ms brings the total to 1000 and reports four frames between 10 and
   * 940 ms, and empties the window.
   */
  method ReportAfterOneSecond() returns (r1: Option<Report>, r2: Option<Report>, r3: Option<Report>, r4: Option<Report>)
    ensures r1 == None && r2 == None && r3 == None
    ensures r4 == Some(Report(4, 10, 940, 1000))
  {
    var fps := new Fps();
    r1 := fps.Frame(10);
    r2 := fps.Frame(20);
    r3 := fps.Frame(30);
    assert fps.history == [10, 20, 30] && fps.msAccum == 60;
    r4 := fps.Frame(940);
    var h: seq<int> := [10, 20, 30] + [940];
    assert 10 in h && 940 in h && h[..3] == [10, 20, 30];
    assert fps.msAccum == 0 && fps.history == [];
  }
}
