/**
 * The output's skeleton: the timeline cut into equal source intervals, one per
 * output slot, each told which recordings overlap it.
 */
module Intervals {
  import opened Wrappers
  import opened Seqs
  import opened Timeline

  /** One output slot. Only its list of overlapping recordings is written after creation. */
  class Interval {
    const intervalId: int
    const startTime: real
    const endTime: real
    var videoFiles: seq<VideoFile>

    constructor (intervalId: int, startTime: real, endTime: real)
      ensures this.intervalId == intervalId && this.startTime == startTime && this.endTime == endTime
      ensures videoFiles == []
    {
      this.intervalId := intervalId;
      this.startTime := startTime;
      this.endTime := endTime;
      videoFiles := [];
    }
  }

  /** The partitioner's one failure: a division by zero (a zero interval duration or a zero count). */
  datatype ConfigError = ZeroDivision

  /** Conversion of a number to an integer by dropping its fraction (rounding toward zero). */
  function TruncateToInt(x: real): (n: int)
    ensures 0.0 <= x ==> 0 <= n && n as real <= x < n as real + 1.0
    ensures x < 0.0 ==> n <= 0 && n as real - 1.0 < x <= n as real
  {
    if x >= 0.0 then x.Floor else -((-x).Floor)
  }

  /** How many whole sample intervals fit in the requested output duration. */
  function IntervalCount(totalOutputDuration: real, intervalDuration: real): (n: int)
    requires intervalDuration != 0.0
    ensures n == 0 <==> -1.0 < totalOutputDuration / intervalDuration < 1.0
    ensures 0 < n <==> 1.0 <= totalOutputDuration / intervalDuration
  {
    TruncateToInt(totalOutputDuration / intervalDuration)
  }

  /** The length of timeline each interval covers. */
  function SourceIntervalDuration(totalVideoDuration: real, count: int): (d: real)
    requires count != 0
    ensures d * count as real == totalVideoDuration
  {
    totalVideoDuration / count as real
  }

  /** Where interval i starts, for intervals of length d. */
  function IntervalStart(i: int, d: real): real
  {
    i as real * d
  }

  /** Where interval i ends, for intervals of length d. */
  function IntervalEnd(i: int, d: real): real
  {
    (i + 1) as real * d
  }

  lemma ScaleMonotone(a: real, b: real, d: real)
    requires a <= b && 0.0 < d
    ensures a * d <= b * d
  {
  }

  lemma ScaleStrictlyMonotone(a: real, b: real, d: real)
    requires a < b && 0.0 < d
    ensures a * d < b * d
  {
  }

  /**
   * Cut the timeline into IntervalCount equal intervals, interval i spanning
   * [i*d, (i+1)*d) with d the source interval duration; a zero divisor fails, and a
   * negative count gives no intervals.
   */
  method CreateIntervals(totalVideoDuration: real, intervalDuration: real, totalOutputDuration: real)
    returns (r: Result<seq<Interval>, ConfigError>)
    ensures r.Failure? <==> intervalDuration == 0.0 || IntervalCount(totalOutputDuration, intervalDuration) == 0
    ensures r.Success? ==>
              var n := IntervalCount(totalOutputDuration, intervalDuration);
              var d := SourceIntervalDuration(totalVideoDuration, n);
              |r.value| == (if n < 0 then 0 else n) && Distinct(r.value) &&
              forall i :: 0 <= i < |r.value| ==>
                fresh(r.value[i]) && r.value[i].videoFiles == [] &&
                r.value[i].intervalId == i &&
                r.value[i].startTime == IntervalStart(i, d) && r.value[i].endTime == IntervalEnd(i, d)
  {
    if intervalDuration == 0.0 {
      return Failure(ZeroDivision);
    }
    var numIntervals := IntervalCount(totalOutputDuration, intervalDuration);
    if numIntervals == 0 {
      return Failure(ZeroDivision);
    }
    var sourceIntervalDuration := SourceIntervalDuration(totalVideoDuration, numIntervals);
    var intervals: seq<Interval> := [];
    var i := 0;
    while i < numIntervals
      invariant 0 <= i && (0 <= numIntervals ==> i <= numIntervals) && (numIntervals < 0 ==> i == 0)
      invariant |intervals| == i
      invariant Distinct(intervals)
      invariant forall k :: 0 <= k < i ==>
                  fresh(intervals[k]) && intervals[k].videoFiles == [] &&
                  intervals[k].intervalId == k &&
                  intervals[k].startTime == IntervalStart(k, sourceIntervalDuration) &&
                  intervals[k].endTime == IntervalEnd(k, sourceIntervalDuration)
    {
      var interval := new Interval(i, i as real * sourceIntervalDuration, (i + 1) as real * sourceIntervalDuration);
      assert interval !in intervals;
      intervals := intervals + [interval];
      i := i + 1;
    }
    return Success(intervals);
  }

  /**
   * Consecutive intervals meet, the first starts at 0, each is d long, and the last
   * ends at the timeline's total.
   */
  lemma IntervalsTileTimeline(totalVideoDuration: real, n: int)
    requires n > 0
    ensures var d := SourceIntervalDuration(totalVideoDuration, n);
            IntervalStart(0, d) == 0.0 && IntervalEnd(n - 1, d) == totalVideoDuration &&
            forall i :: 0 <= i < n ==> IntervalEnd(i, d) == IntervalStart(i + 1, d) &&
                                       IntervalEnd(i, d) - IntervalStart(i, d) == d
  {
  }

  /** The interval numbered by the whole part of position / d holds the position. */
  lemma IntervalIndexOf(position: real, d: real) returns (k: int)
    requires 0.0 < d && 0.0 <= position
    ensures 0 <= k && IntervalStart(k, d) <= position < IntervalEnd(k, d)
    ensures k == (position / d).Floor
  {
    var q := position / d;
    assert q * d == position;
    assert 0.0 <= q by {
      if q < 0.0 {
        ScaleStrictlyMonotone(q, 0.0, d);
      }
    }
    k := q.Floor;
    assert q < (k + 1) as real;
    ScaleMonotone(k as real, q, d);
    ScaleStrictlyMonotone(q, (k + 1) as real, d);
    assert position < (k + 1) as real * d by {
      assert q * d < (k + 1) as real * d;
      assert q * d == position;
    }
  }

  /** Intervals of positive length do not overlap: a position lies in at most one. */
  lemma IntervalsAreDisjoint(j: int, k: int, d: real, position: real)
    requires 0.0 < d
    requires IntervalStart(j, d) <= position < IntervalEnd(j, d)
    requires IntervalStart(k, d) <= position < IntervalEnd(k, d)
    ensures j == k
  {
    if j < k {
      EndsBeforeLaterStart(j, k, d);
    } else if k < j {
      EndsBeforeLaterStart(k, j, d);
    }
  }

  lemma EndsBeforeLaterStart(j: int, k: int, d: real)
    requires j < k && 0.0 < d
    ensures IntervalEnd(j, d) <= IntervalStart(k, d)
  {
    ScaleMonotone((j + 1) as real, k as real, d);
  }

  /**
   * On a timeline of positive length every position in [0, total) lies in exactly one
   * of the n intervals.
   */
  lemma PositionInOneInterval(totalVideoDuration: real, n: int, position: real) returns (k: int)
    requires n > 0 && 0.0 < totalVideoDuration
    requires 0.0 <= position < totalVideoDuration
    ensures var d := SourceIntervalDuration(totalVideoDuration, n);
            0 <= k < n && IntervalStart(k, d) <= position < IntervalEnd(k, d) &&
            forall j :: 0 <= j < n && IntervalStart(j, d) <= position < IntervalEnd(j, d) ==> j == k
  {
    var d := SourceIntervalDuration(totalVideoDuration, n);
    assert 0.0 < d && IntervalStart(n, d) == totalVideoDuration;
    k := IntervalIndexOf(position, d);
    if k >= n {
      ScaleMonotone(n as real, k as real, d);
    }
    forall j | 0 <= j < n && IntervalStart(j, d) <= position < IntervalEnd(j, d)
      ensures j == k
    {
      IntervalsAreDisjoint(j, k, d, position);
    }
  }

  // ---- Which recordings each interval overlaps ----

  /** The half-open spans [timelineStart, timelineEnd) and [startTime, endTime) share a point. */
  predicate Overlaps(f: VideoFile, startTime: real, endTime: real)
    reads f
  {
    f.timelineEnd > startTime && f.timelineStart < endTime
  }

  /**
   * The files, in list order, whose spans overlap [startTime, endTime). What it selects is
   * stated by OverlappingFilesSelectExactly and OverlappingFilesKeepOrder; the length bound
   * is only for callers that need it.
   */
  function OverlappingFiles(files: seq<VideoFile>, startTime: real, endTime: real): (r: seq<VideoFile>)
    reads set f | f in files
    ensures |r| <= |files|
  {
    if files == [] then []
    else
      var init, last := files[..|files| - 1], files[|files| - 1];
      OverlappingFiles(init, startTime, endTime) + (if Overlaps(last, startTime, endTime) then [last] else [])
  }

  /** A file is selected exactly when it is listed and its span overlaps [startTime, endTime). */
  lemma {:induction false} OverlappingFilesSelectExactly(files: seq<VideoFile>, startTime: real, endTime: real)
    ensures forall f :: f in OverlappingFiles(files, startTime, endTime) ==> f in files && Overlaps(f, startTime, endTime)
    ensures forall f :: f in files && Overlaps(f, startTime, endTime) ==> f in OverlappingFiles(files, startTime, endTime)
  {
    if files != [] {
      var init, last := files[..|files| - 1], files[|files| - 1];
      assert files == init + [last];
      OverlappingFilesSelectExactly(init, startTime, endTime);
    }
  }

  /** The overlapping files keep the order they have in the file list. */
  lemma {:induction false} OverlappingFilesKeepOrder(files: seq<VideoFile>, startTime: real, endTime: real)
    ensures Subsequence(OverlappingFiles(files, startTime, endTime), files)
  {
    if files != [] {
      var init, last := files[..|files| - 1], files[|files| - 1];
      OverlappingFilesKeepOrder(init, startTime, endTime);
      var r := OverlappingFiles(files, startTime, endTime);
      if Overlaps(last, startTime, endTime) {
        assert r[..|r| - 1] == OverlappingFiles(init, startTime, endTime);
      } else {
        assert r == OverlappingFiles(init, startTime, endTime);
      }
    }
  }

  /**
   * Append to each interval's list every file whose span overlaps the interval, in file
   * order; nothing else changes.
   */
  method MapVideosToIntervals(files: seq<VideoFile>, intervals: seq<Interval>)
    requires Distinct(intervals)
    modifies set iv | iv in intervals
    ensures forall k :: 0 <= k < |intervals| ==>
              intervals[k].videoFiles ==
                old(intervals[k].videoFiles) + OverlappingFiles(files, intervals[k].startTime, intervals[k].endTime)
  {
    for i := 0 to |intervals|
      invariant forall k :: 0 <= k < i ==>
                  intervals[k].videoFiles ==
                    old(intervals[k].videoFiles) + OverlappingFiles(files, intervals[k].startTime, intervals[k].endTime)
      invariant forall k :: i <= k < |intervals| ==> intervals[k].videoFiles == old(intervals[k].videoFiles)
    {
      AppendOverlapping(files, intervals[i]);
    }
  }

  /** The inner loop of the mapper: one interval against every file. */
  method AppendOverlapping(files: seq<VideoFile>, interval: Interval)
    modifies interval
    ensures interval.videoFiles ==
              old(interval.videoFiles) + OverlappingFiles(files, interval.startTime, interval.endTime)
  {
    for j := 0 to |files|
      invariant interval.videoFiles ==
                  old(interval.videoFiles) + OverlappingFiles(files[..j], interval.startTime, interval.endTime)
    {
      var vf := files[j];
      assert files[..j + 1][..j] == files[..j];
      if vf.timelineEnd > interval.startTime && vf.timelineStart < interval.endTime {
        interval.videoFiles := interval.videoFiles + [vf];
      }
    }
    assert files[..|files|] == files;
  }

  /** Each of the n intervals starts inside [0, total) and is d long. */
  lemma IntervalStartsInTimeline(totalVideoDuration: real, n: int, i: int)
    requires 0.0 < totalVideoDuration && 0 <= i < n
    ensures var d := SourceIntervalDuration(totalVideoDuration, n);
            0.0 < d && 0.0 <= IntervalStart(i, d) < totalVideoDuration &&
            IntervalEnd(i, d) == IntervalStart(i, d) + d
  {
    var d := SourceIntervalDuration(totalVideoDuration, n);
    assert 0.0 < d && IntervalStart(n, d) == totalVideoDuration;
    ScaleMonotone(0.0, i as real, d);
    ScaleStrictlyMonotone(i as real, n as real, d);
  }

  /**
   * When the intervals cut a laid-out timeline of positive length, no interval is left
   * without a file: each interval's start lies in some file's span.
   */
  lemma EveryIntervalHasAFile(files: seq<VideoFile>, n: int, i: int)
    requires LaidOut(files) && TotalDuration(files) > 0.0
    requires 0 <= i < n
    ensures var d := SourceIntervalDuration(TotalDuration(files), n);
            OverlappingFiles(files, IntervalStart(i, d), IntervalEnd(i, d)) != []
  {
    var d := SourceIntervalDuration(TotalDuration(files), n);
    IntervalStartsInTimeline(TotalDuration(files), n, i);
    assert files[..|files|] == files;
    var k := PositionIsCovered(files, IntervalStart(i, d), |files|);
    OverlappingFilesSelectExactly(files, IntervalStart(i, d), IntervalEnd(i, d));
    assert Overlaps(files[k], IntervalStart(i, d), IntervalEnd(i, d));
  }
}
