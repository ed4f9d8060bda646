# videin timeline and sampling planner, in Dafny

`videin.py` builds a short highlight video from a folder of dashcam-style recordings.
Each recording's capture time is read from its file name (`…_YYMMDD-HHMMSS…`). The
recordings are laid end to end on one continuous timeline in capture order. That timeline
is cut into as many equal intervals as the requested output has sample slots. Each
interval learns which recordings overlap it, and the planner draws one random window per
interval, keeping a window only when it lies inside a single recording. The ffmpeg work
that cuts and joins the windows comes after the plan.

This project models the planning steps, which involve no I/O:

- `Timestamps` holds the file-name parser, with the calendar checks that `datetime`
  performs, and the order on capture times.
- `Timeline` holds the `VideoFile` record as a class, since its timeline span is written
  in place. It has the stable sort by capture time, the running-cursor layout and the
  position lookup.
- `Intervals` holds the `Interval` record as a class, since its recording list is
  appended to in place. It has the partitioner and the overlap mapper.
- `Sampling` holds the `Sample` record, the retry loop and the plan. Python's
  `random.random()` becomes a parameter `rand: nat -> real`, where `rand(n)` is the n-th
  value drawn, each in [0, 1). `random.uniform(a, b)` is `a + (b - a) * rand(n)`, as
  CPython computes it. Every property below holds for every such stream.
- `Seqs` and `Wrappers` are small shared helpers: distinct lists, subsequences, and
  Option/Result.

Times are exact `real`s.

How the partitioner fails (videin.py:190-191):

- The interval count comes from `int()`, which truncates toward zero.
- With exact reals, the only failures are the two divisions by zero, reported as `ZeroDivision`. One comes
  from a zero interval duration, the other from a zero count.
- A timeline of total length 0 or less is not rejected.
- A negative count yields no intervals.

## Model

| member | source | states |
|---|---|---|
| Timestamps.FindStamp | videin.py:111-112 | the search returns the leftmost position at or after `from` where `_` + six digits + `-` + six digits occurs, and None exactly when there is none |
| Timestamps.DigitPairValue | videin.py:117-122 | a matched two-digit group reads as a number in 0..99 |
| Timestamps.StampFields | videin.py:117-122 | the fields read from a stamp are a year in 2000..2099 and five numbers in 0..99 |
| Timestamps.DaysInMonth | videin.py:124 | months have 28 to 31 days, and 29 exactly for February of a leap year (Gregorian rule) |
| Timestamps.ParseFilenameTimestamp | videin.py:106-124 | fails with NoTimestamp exactly when no stamp occurs. Otherwise the first stamp decides: (2000+YY, MM, DD, hh, mm, ss) when that is a valid date and time, else InvalidDate. A success is always a valid date and time |
| Timestamps.BeforeIsStrictTotalOrder | videin.py:176 | comparison of capture times is a strict total order, and its reflexive closure is transitive |
| Timestamps.FormatStampReadsBack | videin.py:111-122 | a date written as `_YYMMDD-HHMMSS` matches the pattern and reads back as the same fields |
| Timestamps.StampFieldsFormatBack | videin.py:111-122 | the fields read from a stamp write back to exactly the stamp's text |
| Timestamps.ParseFormattedFilename | videin.py:106-124 | parsing a name made of a prefix in which no stamp starts, the stamp of a valid date, and any suffix returns that date |
| Timestamps.DashcamNameParses | videin.py:106-124 | the name `cam_front_240229-235959.ts`, with `_` in its prefix, parses to 29 February 2024, 23:59:59 |
| Timeline.VideoFile.constructor | videin.py:22-30 | a new record carries its path, name, capture time and duration, with span [0, 0] |
| Timeline.InsertByTimestamp | videin.py:176 | inserting into a list sorted by capture time keeps it sorted and adds exactly the one file |
| Timeline.SortByTimestamp | videin.py:176 | the sort's result is ordered by capture time and is a permutation of the input |
| Timeline.SortIsStable | videin.py:176 | for every capture time, the files with that time keep their input order |
| Timeline.SortKeepsTotalDuration | videin.py:176-182 | sorting does not change the sum of durations |
| Timeline.TimelineIsContiguous | videin.py:178-182 | on a laid-out list the first file starts at 0, each span is as long as its file, consecutive spans meet, and the last ends at the sum of durations |
| Timeline.BuildTimelineIndex | videin.py:174-184 | returns the stable sort of the input, and every file's span is written from the running cursor (laid out) |
| Timeline.AssignTimelinePositions | videin.py:178-182 | the cursor loop writes each file's start as the sum of the durations before it, and its end one duration later |
| Timeline.FirstContaining | videin.py:232-237 | gives the index of the first file whose half-open span holds the position, or None when no file's span does |
| Timeline.FindFileAtTimelinePosition | videin.py:232-237 | returns the first file whose span holds the position, and None exactly when no file's span holds it |
| Timeline.PrefixTotalsGrow | videin.py:178-182 | with non-negative durations the cursor never moves backwards |
| Timeline.SpansAreDisjoint | videin.py:178-182 | with non-negative durations earlier spans end no later than later ones start, so no position is in two spans |
| Timeline.PositionIsCovered | videin.py:178-182 | every position in [0, sum of the first n durations) lies in the span of one of the first n files |
| Timeline.LookupSucceedsOnTimeline | videin.py:232-237 | on a laid-out timeline the lookup finds a file for every position in [0, total) |
| Intervals.Interval.constructor | videin.py:33-44 | a new interval carries its id, start and end, with an empty recording list |
| Intervals.TruncateToInt | videin.py:190 | `int()` drops the fraction, rounding toward zero for both signs |
| Intervals.IntervalCount | videin.py:190 | the count is 0 exactly when the quotient output total / interval duration lies strictly between -1 and 1, and positive exactly when the quotient is at least 1 |
| Intervals.SourceIntervalDuration | videin.py:191 | count intervals of the computed length add up to exactly the timeline total |
| Intervals.CreateIntervals | videin.py:187-202 | fails exactly when a division is by zero. Otherwise it returns max(0, count) fresh, distinct intervals; interval i has id i, spans [i*d, (i+1)*d) with d = total / count, and has an empty list |
| Intervals.IntervalsTileTimeline | videin.py:191-199 | the intervals start at 0, meet end to start, are each d long, and the last ends at the timeline's total |
| Intervals.IntervalIndexOf | videin.py:193-199 | every position at or after 0 lies in the interval whose number is the whole part of position / d |
| Intervals.IntervalsAreDisjoint | videin.py:193-199 | intervals of positive length share no position |
| Intervals.PositionInOneInterval | videin.py:187-202 | on a timeline of positive length, every position in [0, total) lies in exactly one of the intervals |
| Intervals.OverlappingFiles | videin.py:208-210 | the selection for one interval is no longer than the file list; which files it keeps, and in what order, is stated by Intervals.OverlappingFilesSelectExactly and Intervals.OverlappingFilesKeepOrder |
| Intervals.OverlappingFilesSelectExactly | videin.py:207-210 | a file is selected exactly when its span overlaps [start, end) in the half-open sense, and only listed files are selected |
| Intervals.OverlappingFilesKeepOrder | videin.py:208-210 | the selected files keep their relative order from the file list |
| Intervals.MapVideosToIntervals | videin.py:205-210 | each interval's list becomes its old list followed by the overlapping files in file order; nothing else changes |
| Intervals.AppendOverlapping | videin.py:208-210 | the inner loop appends exactly the overlapping files, in file order, to one interval |
| Intervals.IntervalStartsInTimeline | videin.py:191-199 | on a timeline of positive length every interval starts inside [0, total) and is d > 0 long |
| Intervals.EveryIntervalHasAFile | videin.py:205-210 | when the intervals cut a laid-out timeline of positive length, every interval overlaps at least one file |
| Sampling.MaxStart | videin.py:254-256 | the latest start is end minus the sample duration, but never earlier than the interval's start |
| Sampling.Uniform | videin.py:258 | `random.uniform(a, b)` as CPython computes it, a + (b - a) * u; that the value lies in [a, b] is stated by Sampling.UniformInRange |
| Sampling.UniformInRange | videin.py:258 | a drawn start lies in [interval start, latest start] |
| Sampling.Attempt | videin.py:254-276 | one draw of the retry loop; its properties are stated by Sampling.AttemptIsSound (an accepted window lies inside a listed recording) and Sampling.AttemptAcceptsIffWindowFits (accepted exactly when a recording holds the drawn start and the window ends no later than that recording's end) |
| Sampling.AttemptIsSound | videin.py:254-276 | an accepted window comes from a listed file whose span holds the drawn start. Its offset is start minus file start, at least 0, and offset plus duration fits the file's span. It has the requested duration and the interval's id |
| Sampling.AttemptAcceptsIffWindowFits | videin.py:260-265 | on a laid-out timeline a draw is accepted exactly when some file holds the drawn start and the window ends no later than that file's end |
| Sampling.Retry | videin.py:250-276 | the retry loop spends at most 100 draws, and all 100 when no draw is accepted |
| Sampling.RetryTakesFirstAccepted | videin.py:253-276 | the loop keeps the window of the first accepted draw, and every draw before it was rejected |
| Sampling.IntervalOutcome | videin.py:246-253 | an interval with no recordings spends no draw and yields no sample, and any interval spends at most 100 draws |
| Sampling.InIntervalOrderBound | videin.py:243-279 | samples taken one per interval in interval order are no more numerous than the intervals |
| Sampling.SamplingPlan | videin.py:240-281 | the plan built interval by interval; its properties are stated by Sampling.PlanFollowsIntervals, Sampling.PlannedSamplesStayInSource, Sampling.PlanDrawsAreBounded and Sampling.ShortRecordingsYieldNoSample |
| Sampling.PlannedSamplesStayInSource | videin.py:265-273 | every planned sample has the requested duration and lies wholly inside a listed recording |
| Sampling.PlanDrawsAreBounded | videin.py:251-253 | the plan spends at most 100 × (number of intervals) draws in all |
| Sampling.PlanFollowsIntervals | videin.py:243-279 | the samples come from distinct intervals in interval order. Each has its interval's id, comes from an interval with recordings, and starts in [start, latest start] |
| Sampling.ShortRecordingsYieldNoSample | videin.py:261-265 | when every recording's span is shorter than the sample duration, the plan is empty |
| Sampling.CreateSamplingPlan | videin.py:240-281 | the loop computes the plan: samples in interval order, at most one per interval, each inside its own recording, at most 100 × (number of intervals) draws in all, and none when all recordings are too short |
| Sampling.TryWindow | videin.py:254-276 | one pass of the retry loop's body computes exactly the attempt's outcome: the window when the first recording holding the drawn start also ends no earlier than the window, else none |
| Sampling.SampleInterval | videin.py:250-279 | the inner retry loop, with its `break` on the first accepted draw, yields exactly the outcome that `Retry` defines from the same first draw |

## Left out

- `find_ffmpeg`, `extract_samples` and `concatenate_samples` run external ffmpeg processes and write files. They are not part of this model.
- `get_video_duration` reads container metadata through PyAV. A recording's duration is a given real.
- `discover_video_files` globs a directory and skips files whose name does not parse or whose duration cannot be read. Only the parse itself is modelled.
- `parse_arguments` and `main` parse the command line and orchestrate the run. `main` passes the sum of durations as the timeline total and the interval duration as the sample duration; this model states the lemmas for arbitrary values instead.
- `display_*` and `format_duration` are console output. The planner's two warnings (an interval without recordings, an interval without an accepted window) are output only and are not modelled.
- Floating-point rounding is not modelled; all times are exact reals. For example, `random.uniform` can return its upper bound after rounding, and the last interval's end can miss the total by rounding.
- Intervals.CreateIntervals: Python's `int()` raises OverflowError when the quotient total_output / interval is infinite and ValueError when it is NaN. With exact reals neither quotient can occur, so these errors are not modelled.
- Timestamps.ParseFilenameTimestamp: `\d` in Python also matches non-ASCII decimal digits; the model accepts only `0`-`9`.
- Timeline.BuildTimelineIndex: requires the input list to hold each record at most once. With one record listed twice, videin's second write would overwrite the first; that aliasing is not modelled.
- Intervals.MapVideosToIntervals: requires each interval to be listed once, for the same reason.
- Timeline.SortByTimestamp: Python's `sorted` is Timsort. The model is a stable insertion sort, which yields the same list because a stable sort's result is unique.
- Sampling.CreateSamplingPlan: the random stream is a parameter, and the plan is stated for every stream with values in [0, 1). The distribution of the draws is not modelled.
