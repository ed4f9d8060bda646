/**
 * The timeline: recordings ordered by capture time and laid end to end from 0,
 * each owning the half-open span [timelineStart, timelineEnd).
 */
module Timeline {
  import opened Wrappers
  import opened Seqs
  import opened Timestamps

  /** A discovered recording. Only its two timeline positions are ever written after discovery. */
  class VideoFile {
    const path: string
    const filename: string
    const fileTimestamp: DateTime
    const duration: real
    var timelineStart: real
    var timelineEnd: real

    constructor (path: string, filename: string, fileTimestamp: DateTime, duration: real)
      ensures this.path == path && this.filename == filename
      ensures this.fileTimestamp == fileTimestamp && this.duration == duration
      ensures timelineStart == 0.0 && timelineEnd == 0.0
    {
      this.path := path;
      this.filename := filename;
      this.fileTimestamp := fileTimestamp;
      this.duration := duration;
      timelineStart := 0.0;
      timelineEnd := 0.0;
    }
  }

  // ---- Ordering by capture time ----

  predicate SortedByTimestamp(s: seq<VideoFile>)
  {
    forall i, j :: 0 <= i < j < |s| ==> NotAfter(s[i].fileTimestamp, s[j].fileTimestamp)
  }

  /** Every file of s is stamped no later than `t`. */
  predicate NoneLaterThan(s: seq<VideoFile>, t: DateTime)
  {
    forall i :: 0 <= i < |s| ==> NotAfter(s[i].fileTimestamp, t)
  }

  lemma AppendLatestKeepsSorted(s: seq<VideoFile>, f: VideoFile)
    requires SortedByTimestamp(s) && NoneLaterThan(s, f.fileTimestamp)
    ensures SortedByTimestamp(s + [f])
  {
  }

  /** In a sorted list the last file is the latest, so a file not earlier than it is not earlier than any. */
  lemma LastIsLatest(t: seq<VideoFile>, f: VideoFile)
    requires SortedByTimestamp(t) && (t == [] || NotAfter(t[|t| - 1].fileTimestamp, f.fileTimestamp))
    ensures NoneLaterThan(t, f.fileTimestamp)
  {
    forall i | 0 <= i < |t| ensures NotAfter(t[i].fileTimestamp, f.fileTimestamp) {
      BeforeIsStrictTotalOrder(t[i].fileTimestamp, t[|t| - 1].fileTimestamp, f.fileTimestamp);
    }
  }

  /** Inserting a file earlier than `t` into a list with nothing later than `t` leaves nothing later than `t`. */
  lemma InsertedStaysBelow(init: seq<VideoFile>, f: VideoFile, r: seq<VideoFile>, t: DateTime)
    requires multiset(r) == multiset(init) + multiset{f}
    requires NoneLaterThan(init, t) && Before(f.fileTimestamp, t)
    ensures NoneLaterThan(r, t)
  {
    forall i | 0 <= i < |r| ensures NotAfter(r[i].fileTimestamp, t) {
      assert r[i] in multiset(r);
      if r[i] != f {
        assert r[i] in multiset(init);
        assert r[i] in init;
      } else {
        BeforeIsStrictTotalOrder(f.fileTimestamp, t, t);
      }
    }
  }

  /** Insert `f` into a sorted list after every element that is not later than it. */
  function InsertByTimestamp(t: seq<VideoFile>, f: VideoFile): (r: seq<VideoFile>)
    requires SortedByTimestamp(t)
    ensures SortedByTimestamp(r)
    ensures multiset(r) == multiset(t) + multiset{f}
    decreases |t|
  {
    if t == [] || NotAfter(t[|t| - 1].fileTimestamp, f.fileTimestamp) then
      LastIsLatest(t, f);
      AppendLatestKeepsSorted(t, f);
      t + [f]
    else
      var init, last := t[..|t| - 1], t[|t| - 1];
      assert t == init + [last];
      var r' := InsertByTimestamp(init, f);
      InsertedStaysBelow(init, f, r', last.fileTimestamp);
      AppendLatestKeepsSorted(r', last);
      r' + [last]
  }

  /**
   * The list ordered by capture time, files with equal timestamps kept in their
   * input order (a stable sort).
   */
  function SortByTimestamp(s: seq<VideoFile>): (r: seq<VideoFile>)
    ensures SortedByTimestamp(r)
    ensures multiset(r) == multiset(s)
  {
    if s == [] then []
    else
      assert s == s[..|s| - 1] + [s[|s| - 1]];
      InsertByTimestamp(SortByTimestamp(s[..|s| - 1]), s[|s| - 1])
  }

  /** The files stamped `t`, in list order. */
  function WithTimestamp(s: seq<VideoFile>, t: DateTime): seq<VideoFile>
  {
    if s == [] then []
    else WithTimestamp(s[..|s| - 1], t) + (if s[|s| - 1].fileTimestamp == t then [s[|s| - 1]] else [])
  }

  lemma {:induction false} WithTimestampAppend(a: seq<VideoFile>, b: seq<VideoFile>, t: DateTime)
    ensures WithTimestamp(a + b, t) == WithTimestamp(a, t) + WithTimestamp(b, t)
    decreases |b|
  {
    if b == [] {
      assert a + b == a;
    } else {
      var init := b[..|b| - 1];
      assert (a + b)[..|a + b| - 1] == a + init;
      WithTimestampAppend(a, init, t);
    }
  }

  lemma {:induction false} InsertKeepsTies(s: seq<VideoFile>, f: VideoFile, t: DateTime)
    requires SortedByTimestamp(s)
    ensures WithTimestamp(InsertByTimestamp(s, f), t) == WithTimestamp(s, t) + WithTimestamp([f], t)
    decreases |s|
  {
    if s == [] || NotAfter(s[|s| - 1].fileTimestamp, f.fileTimestamp) {
      assert InsertByTimestamp(s, f) == s + [f];
      WithTimestampAppend(s, [f], t);
    } else {
      var init, last := s[..|s| - 1], s[|s| - 1];
      assert s == init + [last];
      InsertKeepsTies(init, f, t);
      var r' := InsertByTimestamp(init, f);
      assert InsertByTimestamp(s, f) == r' + [last];
      WithTimestampAppend(r', [last], t);
      WithTimestampAppend(init, [last], t);
      var before, mine, theirs := WithTimestamp(init, t), WithTimestamp([f], t), WithTimestamp([last], t);
      assert mine == [] || theirs == [] by {
        assert [f][..0] == [] && [last][..0] == [];
        assert WithTimestamp([], t) == [];
      }
      assert WithTimestamp(InsertByTimestamp(s, f), t) == before + mine + theirs;
      assert WithTimestamp(s, t) == before + theirs;
      TiesCommute(before, mine, theirs);
    }
  }

  /** Two lists of which one is empty can be appended in either order. */
  lemma TiesCommute(before: seq<VideoFile>, mine: seq<VideoFile>, theirs: seq<VideoFile>)
    requires mine == [] || theirs == []
    ensures before + mine + theirs == before + theirs + mine
  {
    if mine == [] {
      assert before + mine == before;
    } else {
      assert before + mine + theirs == before + mine;
    }
  }

  /** Stability: among files stamped with one timestamp the sort keeps input order. */
  lemma {:induction false} SortIsStable(s: seq<VideoFile>, t: DateTime)
    ensures WithTimestamp(SortByTimestamp(s), t) == WithTimestamp(s, t)
  {
    if s != [] {
      var init, last := s[..|s| - 1], s[|s| - 1];
      SortIsStable(init, t);
      InsertKeepsTies(SortByTimestamp(init), last, t);
      assert s == init + [last];
      WithTimestampAppend(init, [last], t);
    }
  }

  // ---- Durations and the laid-out timeline ----

  /** The summed durations of the files. */
  function TotalDuration(s: seq<VideoFile>): real
  {
    if s == [] then 0.0 else TotalDuration(s[..|s| - 1]) + s[|s| - 1].duration
  }

  lemma {:induction false} InsertAddsDuration(s: seq<VideoFile>, f: VideoFile)
    requires SortedByTimestamp(s)
    ensures TotalDuration(InsertByTimestamp(s, f)) == TotalDuration(s) + f.duration
    decreases |s|
  {
    if s == [] || NotAfter(s[|s| - 1].fileTimestamp, f.fileTimestamp) {
      assert (s + [f])[..|s|] == s;
    } else {
      var init, last := s[..|s| - 1], s[|s| - 1];
      InsertAddsDuration(init, f);
      var r' := InsertByTimestamp(init, f);
      assert (r' + [last])[..|r'|] == r';
    }
  }

  /** Sorting changes no total: the timeline is as long as the summed durations of the input. */
  lemma {:induction false} SortKeepsTotalDuration(s: seq<VideoFile>)
    ensures TotalDuration(SortByTimestamp(s)) == TotalDuration(s)
  {
    if s != [] {
      SortKeepsTotalDuration(s[..|s| - 1]);
      InsertAddsDuration(SortByTimestamp(s[..|s| - 1]), s[|s| - 1]);
    }
  }

  /** Each file starts where the durations before it sum to, and ends one duration later. */
  predicate LaidOut(s: seq<VideoFile>)
    reads set f | f in s
  {
    forall i :: 0 <= i < |s| ==>
      s[i].timelineStart == TotalDuration(s[..i]) && s[i].timelineEnd == TotalDuration(s[..i + 1])
  }

  /**
   * A laid-out timeline starts at 0, each span is as long as its file, consecutive spans
   * meet, and the last span ends at the summed duration.
   */
  lemma TimelineIsContiguous(s: seq<VideoFile>)
    requires LaidOut(s)
    ensures |s| > 0 ==> s[0].timelineStart == 0.0
    ensures forall i :: 0 <= i < |s| ==> s[i].timelineEnd == s[i].timelineStart + s[i].duration
    ensures forall i :: 0 <= i < |s| - 1 ==> s[i].timelineEnd == s[i + 1].timelineStart
    ensures |s| > 0 ==> s[|s| - 1].timelineEnd == TotalDuration(s)
  {
    forall i | 0 <= i < |s|
      ensures s[i].timelineEnd == s[i].timelineStart + s[i].duration
    {
      assert s[..i + 1][..i] == s[..i];
    }
    assert s[..|s|] == s;
  }

  /**
   * Lay the files out in timestamp order: the result is the stable sort of the input,
   * and each file's span is set from a running cursor that starts at 0.
   */
  method BuildTimelineIndex(files: seq<VideoFile>) returns (sorted: seq<VideoFile>)
    requires Distinct(files)
    modifies set f | f in files
    ensures sorted == SortByTimestamp(files)
    ensures LaidOut(sorted)
  {
    sorted := SortByTimestamp(files);
    DistinctPermutation(files, sorted);
    assert forall f :: f in sorted ==> f in files by {
      forall f | f in sorted ensures f in files {
        assert f in multiset(sorted);
      }
    }
    AssignTimelinePositions(sorted);
  }

  /** The running-cursor walk: each file starts where the previous one ended. */
  method AssignTimelinePositions(sorted: seq<VideoFile>)
    requires Distinct(sorted)
    modifies set f | f in sorted
    ensures LaidOut(sorted)
  {
    var currentTime := 0.0;
    for i := 0 to |sorted|
      invariant currentTime == TotalDuration(sorted[..i])
      invariant forall k :: 0 <= k < i ==>
                  sorted[k].timelineStart == TotalDuration(sorted[..k]) &&
                  sorted[k].timelineEnd == TotalDuration(sorted[..k + 1])
    {
      var vf := sorted[i];
      assert sorted[..i + 1][..i] == sorted[..i];
      assert TotalDuration(sorted[..i + 1]) == currentTime + vf.duration;
      vf.timelineStart := currentTime;
      vf.timelineEnd := currentTime + vf.duration;
      currentTime := vf.timelineEnd;
    }
  }

  // ---- Positions on the timeline ----

  /** The file's half-open span holds the position. */
  predicate Contains(f: VideoFile, position: real)
    reads f
  {
    f.timelineStart <= position < f.timelineEnd
  }

  /** Index of the first file, at or after `from`, whose span holds the position. */
  function FirstContaining(files: seq<VideoFile>, position: real, from: nat): (r: Option<nat>)
    requires from <= |files|
    reads set f | f in files
    decreases |files| - from
    ensures r.Some? ==> from <= r.value < |files| && Contains(files[r.value], position) &&
                        forall j :: from <= j < r.value ==> !Contains(files[j], position)
    ensures r.None? ==> forall j :: from <= j < |files| ==> !Contains(files[j], position)
  {
    if from == |files| then None
    else if Contains(files[from], position) then Some(from)
    else FirstContaining(files, position, from + 1)
  }

  /** The first file whose span holds the position, or None when no span holds it. */
  method FindFileAtTimelinePosition(files: seq<VideoFile>, position: real) returns (r: Option<VideoFile>)
    ensures match FirstContaining(files, position, 0)
            case Some(k) => r == Some(files[k])
            case None => r == None
    ensures r.None? <==> forall f :: f in files ==> !Contains(f, position)
    ensures r.Some? ==> r.value in files && Contains(r.value, position)
  {
    for i := 0 to |files|
      invariant forall j :: 0 <= j < i ==> !Contains(files[j], position)
    {
      if files[i].timelineStart <= position < files[i].timelineEnd {
        return Some(files[i]);
      }
    }
    return None;
  }

  lemma {:induction false} PrefixTotalsGrow(s: seq<VideoFile>, a: nat, b: nat)
    requires a <= b <= |s|
    requires forall f :: f in s ==> f.duration >= 0.0
    ensures TotalDuration(s[..a]) <= TotalDuration(s[..b])
    decreases b - a
  {
    if a < b {
      PrefixTotalsGrow(s, a, b - 1);
      assert s[..b][..b - 1] == s[..b - 1];
    }
  }

  /** With non-negative durations the spans of a laid-out timeline never overlap. */
  lemma SpansAreDisjoint(s: seq<VideoFile>, i: nat, j: nat, position: real)
    requires LaidOut(s) && i < j < |s|
    requires forall f :: f in s ==> f.duration >= 0.0
    ensures s[i].timelineEnd <= s[j].timelineStart
    ensures !(Contains(s[i], position) && Contains(s[j], position))
  {
    PrefixTotalsGrow(s, i + 1, j);
  }

  /** Every position in [0, total) lies in the span of some file of a laid-out timeline. */
  lemma {:induction false} PositionIsCovered(s: seq<VideoFile>, position: real, n: nat) returns (k: nat)
    requires LaidOut(s) && n <= |s|
    requires 0.0 <= position < TotalDuration(s[..n])
    ensures k < n && Contains(s[k], position)
    decreases n
  {
    if n == 0 {
      assert false;
    } else if position >= TotalDuration(s[..n - 1]) {
      assert s[..n][..n - 1] == s[..n - 1];
      k := n - 1;
    } else {
      k := PositionIsCovered(s, position, n - 1);
    }
  }

  /** Hence the lookup finds a file for every position in [0, total). */
  lemma LookupSucceedsOnTimeline(s: seq<VideoFile>, position: real)
    requires LaidOut(s)
    requires 0.0 <= position < TotalDuration(s)
    ensures FirstContaining(s, position, 0).Some?
  {
    assert s[..|s|] == s;
    var k := PositionIsCovered(s, position, |s|);
  }
}
