/**
 * The sampling planner: for each interval, up to MaxAttempts random starts, keeping
 * the first window that lies wholly inside one recording.
 *
 * Randomness is the stream `rand`: rand(n) is the n-th value of random(), a number in
 * [0, 1); the planner consumes the stream in order, one value per attempt.
 */
module Sampling {
  import opened Wrappers
  import opened Timeline
  import opened Intervals

  /** The window chosen for one interval: where it sits on the timeline, the recording it is cut from, and where in that recording it starts. */
  datatype Sample = Sample(intervalId: int, timelineStart: real, sourceFile: VideoFile, fileOffset: real, duration: real)

  /** Attempts per interval before it is given up. */
  const MaxAttempts: nat := 100

  /** The latest start that keeps the window inside the interval, but never before the interval's start. */
  function MaxStart(interval: Interval, sampleDuration: real): (m: real)
    ensures m >= interval.startTime && m >= interval.endTime - sampleDuration
    ensures m == interval.startTime || m == interval.endTime - sampleDuration
  {
    var m := interval.endTime - sampleDuration;
    if m < interval.startTime then interval.startTime else m
  }

  /** random.uniform(a, b), computed as a + (b - a) * u from a value u of random(). */
  function Uniform(a: real, b: real, u: real): real
  {
    a + (b - a) * u
  }

  /** For a <= b the drawn value lies in [a, b]. */
  lemma UniformInRange(a: real, b: real, u: real)
    requires a <= b && 0.0 <= u < 1.0
    ensures a <= Uniform(a, b, u) <= b
  {
    var length, rest := b - a, 1.0 - u;
    assert 0.0 <= length * u;
    assert 0.0 <= length * rest;
    assert length * rest == length - length * u;
  }

  /** The window reads only its own recording: it starts at or after the recording's start and ends at or before its end. */
  predicate WithinSource(s: Sample)
    reads s.sourceFile
  {
    s.fileOffset == s.timelineStart - s.sourceFile.timelineStart &&
    0.0 <= s.fileOffset &&
    s.fileOffset + s.duration <= s.sourceFile.timelineEnd - s.sourceFile.timelineStart
  }

  /**
   * One attempt with the random value u: the window at the drawn start, if the first
   * recording holding that start ends no earlier than the window.
   */
  function Attempt(files: seq<VideoFile>, interval: Interval, sampleDuration: real, u: real): Option<Sample>
    reads set f | f in files
  {
    var sampleStart := Uniform(interval.startTime, MaxStart(interval, sampleDuration), u);
    match FirstContaining(files, sampleStart, 0)
    case None => None
    case Some(k) =>
      var source := files[k];
      if sampleStart + sampleDuration <= source.timelineEnd then
        Some(Sample(interval.intervalId, sampleStart, source, sampleStart - source.timelineStart, sampleDuration))
      else None
  }

  /**
   * An accepted window is cut from a listed recording that holds the drawn start, lies
   * wholly inside that recording, has the requested duration and carries the interval's id.
   */
  lemma AttemptIsSound(files: seq<VideoFile>, interval: Interval, sampleDuration: real, u: real)
    ensures var r := Attempt(files, interval, sampleDuration, u);
            r.Some? ==>
              r.value.sourceFile in files && WithinSource(r.value) &&
              Contains(r.value.sourceFile, r.value.timelineStart) &&
              r.value.duration == sampleDuration && r.value.intervalId == interval.intervalId &&
              r.value.timelineStart == Uniform(interval.startTime, MaxStart(interval, sampleDuration), u)
  {
  }

  /**
   * On a laid-out timeline an attempt is accepted exactly when some recording holds the
   * drawn start and the window ends no later than that recording's end: the first
   * recording holding the start is the only one.
   */
  lemma AttemptAcceptsIffWindowFits(files: seq<VideoFile>, interval: Interval, sampleDuration: real, u: real)
    requires LaidOut(files) && forall f :: f in files ==> f.duration >= 0.0
    ensures var sampleStart := Uniform(interval.startTime, MaxStart(interval, sampleDuration), u);
            Attempt(files, interval, sampleDuration, u).Some? <==>
              exists k :: 0 <= k < |files| && Contains(files[k], sampleStart) &&
                          sampleStart + sampleDuration <= files[k].timelineEnd
  {
    var sampleStart := Uniform(interval.startTime, MaxStart(interval, sampleDuration), u);
    var first := FirstContaining(files, sampleStart, 0);
    if first.Some? {
      var j := first.value;
      forall k | 0 <= k < |files| && Contains(files[k], sampleStart)
        ensures k == j
      {
        if j < k {
          SpansAreDisjoint(files, j, k, sampleStart);
        }
      }
    }
  }

  /** How an interval's retry loop ends: the window it accepted, if any, and the index of the next unused random value. */
  datatype Outcome = Outcome(sample: Option<Sample>, nextDraw: nat)

  /**
   * Attempts number `attempt` onwards, the first using rand(next): the first accepted
   * window wins; after MaxAttempts attempts the interval is given up.
   */
  function Retry(files: seq<VideoFile>, interval: Interval, sampleDuration: real, rand: nat -> real,
                 next: nat, attempt: nat): (o: Outcome)
    requires attempt <= MaxAttempts
    reads set f | f in files
    decreases MaxAttempts - attempt
    ensures next <= o.nextDraw <= next + (MaxAttempts - attempt)
    ensures o.sample.Some? ==> next < o.nextDraw
    ensures o.sample.None? ==> o.nextDraw == next + (MaxAttempts - attempt)
  {
    if attempt == MaxAttempts then Outcome(None, next)
    else
      var r := Attempt(files, interval, sampleDuration, rand(next));
      if r.Some? then Outcome(r, next + 1)
      else Retry(files, interval, sampleDuration, rand, next + 1, attempt + 1)
  }

  /**
   * The retry loop keeps the window of the first accepting attempt: every earlier draw
   * was rejected, and when none is accepted all the loop's draws were rejected.
   */
  lemma {:induction false} RetryTakesFirstAccepted(files: seq<VideoFile>, interval: Interval, sampleDuration: real,
                                                  rand: nat -> real, next: nat, attempt: nat)
    requires attempt <= MaxAttempts
    ensures var o := Retry(files, interval, sampleDuration, rand, next, attempt);
            (forall a: nat :: next <= a < o.nextDraw - 1 ==> Attempt(files, interval, sampleDuration, rand(a)).None?) &&
            (o.sample.Some? ==> o.sample == Attempt(files, interval, sampleDuration, rand(o.nextDraw - 1))) &&
            (o.sample.None? ==> forall a: nat :: next <= a < o.nextDraw ==>
                                  Attempt(files, interval, sampleDuration, rand(a)).None?)
    decreases MaxAttempts - attempt
  {
    if attempt < MaxAttempts && Attempt(files, interval, sampleDuration, rand(next)).None? {
      RetryTakesFirstAccepted(files, interval, sampleDuration, rand, next + 1, attempt + 1);
    }
  }

  /** One interval's outcome: no attempt at all when no recording overlaps it, else the retry loop. */
  function IntervalOutcome(files: seq<VideoFile>, interval: Interval, sampleDuration: real, rand: nat -> real,
                           next: nat): (o: Outcome)
    reads interval, set f | f in files
    ensures interval.videoFiles == [] ==> o == Outcome(None, next)
    ensures next <= o.nextDraw <= next + MaxAttempts
  {
    if interval.videoFiles == [] then Outcome(None, next)
    else Retry(files, interval, sampleDuration, rand, next, 0)
  }

  /** The plan: the accepted samples in interval order, and how many random values were used. */
  datatype Plan = Plan(samples: seq<Sample>, drawsUsed: nat)

  /** The planner as a function of the intervals, the timeline and the random stream, from its first value. */
  function SamplingPlan(intervals: seq<Interval>, files: seq<VideoFile>, sampleDuration: real,
                        rand: nat -> real): (p: Plan)
    reads (set iv | iv in intervals), (set f | f in files)
    decreases |intervals|
  {
    if intervals == [] then Plan([], 0)
    else
      var prior := SamplingPlan(intervals[..|intervals| - 1], files, sampleDuration, rand);
      var o := IntervalOutcome(files, intervals[|intervals| - 1], sampleDuration, rand, prior.drawsUsed);
      Plan(prior.samples + (if o.sample.Some? then [o.sample.value] else []), o.nextDraw)
  }

  /** The sample belongs to the interval: same id, the interval has recordings, and the start lies in [start, MaxStart]. */
  predicate Fits(s: Sample, interval: Interval, sampleDuration: real)
    reads interval
  {
    s.intervalId == interval.intervalId && interval.videoFiles != [] &&
    interval.startTime <= s.timelineStart <= MaxStart(interval, sampleDuration)
  }

  /** The samples come from distinct intervals, in interval order, each fitting its own interval. */
  predicate InIntervalOrder(samples: seq<Sample>, intervals: seq<Interval>, sampleDuration: real)
    reads set iv | iv in intervals
    decreases |intervals|
  {
    if samples == [] then true
    else if intervals == [] then false
    else
      var earlier, last := intervals[..|intervals| - 1], intervals[|intervals| - 1];
      (Fits(samples[|samples| - 1], last, sampleDuration) &&
       InIntervalOrder(samples[..|samples| - 1], earlier, sampleDuration)) ||
      InIntervalOrder(samples, earlier, sampleDuration)
  }

  /** At most one sample per interval. */
  lemma {:induction false} InIntervalOrderBound(samples: seq<Sample>, intervals: seq<Interval>, sampleDuration: real)
    requires InIntervalOrder(samples, intervals, sampleDuration)
    ensures |samples| <= |intervals|
    decreases |intervals|
  {
    if samples != [] {
      var earlier := intervals[..|intervals| - 1];
      if InIntervalOrder(samples, earlier, sampleDuration) {
        InIntervalOrderBound(samples, earlier, sampleDuration);
      } else {
        InIntervalOrderBound(samples[..|samples| - 1], earlier, sampleDuration);
      }
    }
  }

  /** Every planned sample lies inside its own recording and has the requested duration. */
  lemma {:induction false} PlannedSamplesStayInSource(intervals: seq<Interval>, files: seq<VideoFile>,
                                                     sampleDuration: real, rand: nat -> real)
    ensures forall s :: s in SamplingPlan(intervals, files, sampleDuration, rand).samples ==>
              s.sourceFile in files && WithinSource(s) && s.duration == sampleDuration
    decreases |intervals|
  {
    if intervals != [] {
      var earlier, last := intervals[..|intervals| - 1], intervals[|intervals| - 1];
      PlannedSamplesStayInSource(earlier, files, sampleDuration, rand);
      var prior := SamplingPlan(earlier, files, sampleDuration, rand);
      var o := IntervalOutcome(files, last, sampleDuration, rand, prior.drawsUsed);
      if o.sample.Some? {
        RetryTakesFirstAccepted(files, last, sampleDuration, rand, prior.drawsUsed, 0);
        AttemptIsSound(files, last, sampleDuration, rand(o.nextDraw - 1));
      }
    }
  }

  /** The plan spends at most MaxAttempts times the number of intervals random values in all. */
  lemma {:induction false} PlanDrawsAreBounded(intervals: seq<Interval>, files: seq<VideoFile>,
                                              sampleDuration: real, rand: nat -> real)
    ensures SamplingPlan(intervals, files, sampleDuration, rand).drawsUsed <= MaxAttempts * |intervals|
    decreases |intervals|
  {
    if intervals != [] {
      PlanDrawsAreBounded(intervals[..|intervals| - 1], files, sampleDuration, rand);
    }
  }

  /**
   * The planned samples come from distinct intervals taken in order, each sample fitting
   * its interval: same id, the interval has recordings, and the start is in
   * [interval start, MaxStart].
   */
  lemma {:induction false} PlanFollowsIntervals(intervals: seq<Interval>, files: seq<VideoFile>,
                                               sampleDuration: real, rand: nat -> real)
    requires forall n :: 0.0 <= rand(n) < 1.0
    ensures InIntervalOrder(SamplingPlan(intervals, files, sampleDuration, rand).samples, intervals, sampleDuration)
    decreases |intervals|
  {
    if intervals != [] {
      var earlier, last := intervals[..|intervals| - 1], intervals[|intervals| - 1];
      PlanFollowsIntervals(earlier, files, sampleDuration, rand);
      var prior := SamplingPlan(earlier, files, sampleDuration, rand);
      var o := IntervalOutcome(files, last, sampleDuration, rand, prior.drawsUsed);
      var samples := SamplingPlan(intervals, files, sampleDuration, rand).samples;
      if o.sample.Some? {
        RetryTakesFirstAccepted(files, last, sampleDuration, rand, prior.drawsUsed, 0);
        AttemptIsSound(files, last, sampleDuration, rand(o.nextDraw - 1));
        UniformInRange(last.startTime, MaxStart(last, sampleDuration), rand(o.nextDraw - 1));
        assert Fits(o.sample.value, last, sampleDuration);
        assert samples == prior.samples + [o.sample.value];
        assert samples[..|samples| - 1] == prior.samples;
      } else {
        assert samples == prior.samples;
      }
    }
  }

  /**
   * A recording whose span is shorter than the sample duration can never be a source,
   * so when every span is that short the plan is empty.
   */
  lemma {:induction false} ShortRecordingsYieldNoSample(intervals: seq<Interval>, files: seq<VideoFile>,
                                                       sampleDuration: real, rand: nat -> real)
    requires forall f :: f in files ==> f.timelineEnd - f.timelineStart < sampleDuration
    ensures SamplingPlan(intervals, files, sampleDuration, rand).samples == []
    decreases |intervals|
  {
    if intervals != [] {
      var earlier, last := intervals[..|intervals| - 1], intervals[|intervals| - 1];
      ShortRecordingsYieldNoSample(earlier, files, sampleDuration, rand);
      var prior := SamplingPlan(earlier, files, sampleDuration, rand);
      var o := IntervalOutcome(files, last, sampleDuration, rand, prior.drawsUsed);
      if o.sample.Some? {
        RetryTakesFirstAccepted(files, last, sampleDuration, rand, prior.drawsUsed, 0);
        assert false;
      }
    }
  }

  /**
   * Pick at most one window per interval, in interval order, spending at most
   * MaxAttempts times the number of intervals random values in all.
   */
  method CreateSamplingPlan(intervals: seq<Interval>, files: seq<VideoFile>, sampleDuration: real,
                            rand: nat -> real)
    returns (samples: seq<Sample>, drawsUsed: nat)
    requires forall n :: 0.0 <= rand(n) < 1.0
    ensures Plan(samples, drawsUsed) == SamplingPlan(intervals, files, sampleDuration, rand)
    ensures InIntervalOrder(samples, intervals, sampleDuration) && |samples| <= |intervals|
    ensures drawsUsed <= MaxAttempts * |intervals|
    ensures forall s :: s in samples ==> s.sourceFile in files && WithinSource(s) && s.duration == sampleDuration
    ensures (forall f :: f in files ==> f.timelineEnd - f.timelineStart < sampleDuration) ==> samples == []
  {
    samples := [];
    drawsUsed := 0;
    for i := 0 to |intervals|
      invariant Plan(samples, drawsUsed) == SamplingPlan(intervals[..i], files, sampleDuration, rand)
    {
      var interval := intervals[i];
      assert intervals[..i + 1][..i] == intervals[..i];
      ghost var o := IntervalOutcome(files, interval, sampleDuration, rand, drawsUsed);
      assert SamplingPlan(intervals[..i + 1], files, sampleDuration, rand) ==
             Plan(samples + (if o.sample.Some? then [o.sample.value] else []), o.nextDraw);
      if interval.videoFiles == [] {
        // videin warns that the interval has no recordings and moves on.
        assert samples + [] == samples;
        continue;
      }
      var sample;
      sample, drawsUsed := SampleInterval(interval, files, sampleDuration, rand, drawsUsed);
      if sample.Some? {
        samples := samples + [sample.value];
      }
    }
    assert intervals[..|intervals|] == intervals;
    PlannedSamplesStayInSource(intervals, files, sampleDuration, rand);
    PlanDrawsAreBounded(intervals, files, sampleDuration, rand);
    PlanFollowsIntervals(intervals, files, sampleDuration, rand);
    InIntervalOrderBound(samples, intervals, sampleDuration);
    if forall f :: f in files ==> f.timelineEnd - f.timelineStart < sampleDuration {
      ShortRecordingsYieldNoSample(intervals, files, sampleDuration, rand);
    }
  }

  /**
   * The retry loop for one interval, starting at random value `first`: the first of at
   * most MaxAttempts attempts whose window lies in one recording, and the next unused
   * random value.
   */
  method SampleInterval(interval: Interval, files: seq<VideoFile>, sampleDuration: real, rand: nat -> real,
                        first: nat)
    returns (sample: Option<Sample>, drawsUsed: nat)
    ensures Outcome(sample, drawsUsed) == Retry(files, interval, sampleDuration, rand, first, 0)
  {
    sample := None;
    drawsUsed := first;
    var validSampleFound := false;
    var attempt := 0;
    ghost var outcome := Retry(files, interval, sampleDuration, rand, first, 0);
    while attempt < MaxAttempts
      invariant 0 <= attempt <= MaxAttempts && drawsUsed == first + attempt
      invariant outcome == Retry(files, interval, sampleDuration, rand, drawsUsed, attempt)
      invariant !validSampleFound && sample == None
    {
      var tried := TryWindow(interval, files, sampleDuration, rand(drawsUsed));
      drawsUsed := drawsUsed + 1;
      attempt := attempt + 1;
      if tried.Some? {
        sample := tried;
        validSampleFound := true;
        break;
      }
    }
    // When no window was found videin warns that the interval is skipped.
  }

  /**
   * One pass of the retry loop's body with the random value u: draw a start, find the
   * recording holding it, and keep the window when it ends no later than that recording's end.
   */
  method TryWindow(interval: Interval, files: seq<VideoFile>, sampleDuration: real, u: real)
    returns (sample: Option<Sample>)
    ensures sample == Attempt(files, interval, sampleDuration, u)
  {
    var maxStart := interval.endTime - sampleDuration;
    if maxStart < interval.startTime {
      maxStart := interval.startTime;
    }
    assert maxStart == MaxStart(interval, sampleDuration);
    var sampleStart := Uniform(interval.startTime, maxStart, u);
    var sampleEnd := sampleStart + sampleDuration;
    var sourceFile := FindFileAtTimelinePosition(files, sampleStart);
    if sourceFile.None? {
      return None;
    }
    if sampleEnd <= sourceFile.value.timelineEnd {
      var fileOffset := sampleStart - sourceFile.value.timelineStart;
      return Some(Sample(interval.intervalId, sampleStart, sourceFile.value, fileOffset, sampleDuration));
    }
    return None;
  }
}
