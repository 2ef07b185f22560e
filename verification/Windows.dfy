/** Sampling a target's visibility and finding the best observation window
    (scripts/astronomy_visibility.py:161-248). Times are microseconds, rounded altitudes are
    thousandths of a degree. */
module Windows {
  import opened Basics

  datatype Sample = Sample(time: int, altitude: int, visible: bool)
  datatype Window = Window(start: int, end: int, minutes: int, peak: int)
  datatype Refusal = BadStep | BadDuration

  const MICROS_PER_MINUTE := 60_000_000
  const LOWEST := -90_000

  /** Altitude of the target at a time, in degrees, and rounding to thousandths. */
  datatype Sky = Sky(altitude: int -> real, rounded: real -> int, minAltitude: real)

  // ---------------------------------------------------------------- sampling

  function SampleAt(sky: Sky, time: int): Sample {
    Sample(time, sky.rounded(sky.altitude(time)), sky.altitude(time) >= sky.minAltitude)
  }

  function Times(k: int, step: int): int {
    k * step
  }

  /** Samples at every step from the start to the end, both included. */
  function Samples(sky: Sky, start: int, duration: int, stepMinutes: int): seq<Sample>
    requires stepMinutes > 0 && duration >= 0
  {
    seq(duration / (stepMinutes * MICROS_PER_MINUTE) + 1,
        k requires k >= 0 => SampleAt(sky, start + Times(k, stepMinutes * MICROS_PER_MINUTE)))
  }

  method SampleVisibility(sky: Sky, start: int, duration: int, stepMinutes: int)
    returns (r: Result<seq<Sample>, Refusal>)
    ensures r == if stepMinutes <= 0 then Err(BadStep)
                 else if duration <= 0 then Err(BadDuration)
                 else Ok(Samples(sky, start, duration, stepMinutes))
  {
    hide Times;
    if stepMinutes <= 0 { return Err(BadStep); }
    if duration <= 0 { return Err(BadDuration); }
    var end, step := start + duration, stepMinutes * MICROS_PER_MINUTE;
    var samples: seq<Sample> := [];
    var current := start;
    ghost var all := Samples(sky, start, duration, stepMinutes);
    NoTimes(step);
    while current <= end
      invariant current == start + Times(|samples|, step)
      invariant |samples| <= |all| && samples == all[..|samples|]
      decreases end - current
    {
      TimesUpTo(duration, step, |samples|);
      NextTime(step, |samples|);
      assert all[|samples|] == SampleAt(sky, current);
      samples := samples + [SampleAt(sky, current)];
      current := current + step;
    }
    TimesUpTo(duration, step, |samples|);
    assert |samples| == |all| && all[..|all|] == all;
    return Ok(samples);
  }

  lemma NoTimes(step: int)
    ensures Times(0, step) == 0
  {
  }

  lemma NextTime(step: int, k: int)
    ensures Times(k + 1, step) == Times(k, step) + step
  {
  }

  lemma TimesUpTo(duration: int, step: int, k: int)
    requires step > 0 && duration >= 0 && k >= 0
    ensures Times(k, step) <= duration <==> k <= duration / step
  {
    LastStep(duration, step, k);
  }

  lemma NextStep(step: int, k: int)
    ensures (k + 1) * step == k * step + step
  {
  }

  lemma MulMonotone(a: int, b: int, c: int)
    requires a <= b && c >= 0
    ensures a * c <= b * c
  {
    assert (b - a) * c >= 0;
    assert (b - a) * c == b * c - a * c;
  }

  lemma LastStep(duration: int, step: int, k: int)
    requires step > 0 && duration >= 0 && k >= 0
    ensures k * step <= duration <==> k <= duration / step
  {
    var q := duration / step;
    assert duration == q * step + duration % step;
    NextStep(step, q);
    if k <= q {
      MulMonotone(k, q, step);
    } else {
      MulMonotone(q + 1, k, step);
    }
  }

  // ---------------------------------------------------------------- runs and windows

  /** Samples i to j are all visible. */
  predicate VisibleRun(s: seq<Sample>, i: int, j: int) {
    0 <= i <= j < |s| && forall k | i <= k <= j :: s[k].visible
  }

  predicate MaximalRun(s: seq<Sample>, i: int, j: int) {
    && VisibleRun(s, i, j)
    && (i == 0 || !s[i - 1].visible)
    && (j == |s| - 1 || !s[j + 1].visible)
  }

  function Peak(s: seq<Sample>, i: int, j: int): int
    requires 0 <= i <= j < |s|
    decreases j - i
  {
    Max(if i == j then LOWEST else Peak(s, i, j - 1), s[j].altitude)
  }

  /** `int(seconds / 60)`, never negative. */
  function Minutes(start: int, end: int): int {
    if end <= start then 0 else (end - start) / MICROS_PER_MINUTE
  }

  function WindowOf(s: seq<Sample>, i: int, j: int): Window
    requires 0 <= i <= j < |s|
  {
    Window(s[i].time, s[j].time, Minutes(s[i].time, s[j].time), Peak(s, i, j))
  }

  /** Among the maximal runs that end before n, (i, j) is the earliest of the longest. */
  ghost predicate BestUpTo(s: seq<Sample>, n: int, i: int, j: int) {
    && MaximalRun(s, i, j) && j < n
    && forall k, l | MaximalRun(s, k, l) && l < n ::
         && Minutes(s[k].time, s[l].time) <= Minutes(s[i].time, s[j].time)
         && (k < i ==> Minutes(s[k].time, s[l].time) < Minutes(s[i].time, s[j].time))
  }

  ghost predicate NoneUpTo(s: seq<Sample>, n: int) {
    forall k, l | MaximalRun(s, k, l) :: l >= n
  }

  /** What the scan remembers of the windows closed so far. */
  ghost predicate Remembers(s: seq<Sample>, n: int, best: Option<Window>, i: int, j: int) {
    if best.None? then NoneUpTo(s, n) else BestUpTo(s, n, i, j) && best.value == WindowOf(s, i, j)
  }

  lemma SameEnd(s: seq<Sample>, i: int, k: int, l: int)
    requires MaximalRun(s, i, l) && MaximalRun(s, k, l)
    ensures i == k
  {
  }

  /** A maximal run that ends before the last sample of a visible run ends before its first. */
  lemma RunsEndApart(s: seq<Sample>, a: int, n: int, k: int, l: int)
    requires VisibleRun(s, a, n - 1) && MaximalRun(s, k, l) && l < n - 1
    ensures k <= l < a
  {
    var next := s[l + 1];
    assert a <= l + 1 ==> next.visible;
  }

  lemma NothingYet(s: seq<Sample>, i: int, j: int)
    ensures Remembers(s, 0, None, i, j)
  {
  }

  /** A maximal run that ends before n ends before the run (a, n - 1) starts, or is that run. */
  lemma EarlierOrThis(s: seq<Sample>, n: int, a: int, k: int, l: int)
    requires MaximalRun(s, a, n - 1) && MaximalRun(s, k, l) && l < n
    ensures k <= l < a || (k == a && l == n - 1)
  {
    if l == n - 1 {
      SameEnd(s, a, k, l);
    } else {
      RunsEndApart(s, a, n, k, l);
    }
  }

  /** Taking a run that just ended into account. */
  lemma CloseRun(s: seq<Sample>, n: int, best: Option<Window>, i: int, j: int, a: int)
    requires MaximalRun(s, a, n - 1) && Remembers(s, a, best, i, j)
    ensures var w := WindowOf(s, a, n - 1);
            if best.None? || w.minutes > best.value.minutes then Remembers(s, n, Some(w), a, n - 1)
            else Remembers(s, n, best, i, j)
  {
    hide Minutes, Peak;
    var w := WindowOf(s, a, n - 1);
    if best.None? || w.minutes > best.value.minutes {
      forall k, l | MaximalRun(s, k, l) && l < n
        ensures Minutes(s[k].time, s[l].time) <= w.minutes && (k < a ==> Minutes(s[k].time, s[l].time) < w.minutes)
      {
        EarlierOrThis(s, n, a, k, l);
      }
    } else {
      assert MaximalRun(s, i, j) && j < a;
      RunBounds(s, i, j);
      forall k, l | MaximalRun(s, k, l) && l < n
        ensures Minutes(s[k].time, s[l].time) <= best.value.minutes
        ensures k < i ==> Minutes(s[k].time, s[l].time) < best.value.minutes
      {
        EarlierOrThis(s, n, a, k, l);
      }
    }
  }

  lemma RunBounds(s: seq<Sample>, i: int, j: int)
    requires MaximalRun(s, i, j)
    ensures 0 <= i <= j < |s|
  {
  }

  /** The scan's answer: no window, or the window of the best run. */
  ghost predicate IsBest(s: seq<Sample>, best: Option<Window>) {
    exists i, j :: Remembers(s, |s|, best, i, j)
  }

  method FindBestWindow(s: seq<Sample>) returns (best: Option<Window>)
    ensures IsBest(s, best)
  {
    hide Minutes, Remembers;
    best := None;
    ghost var i, j := 0, 0;
    var currentStart: Option<Sample> := None;
    var currentEnd: Option<Sample> := None;
    var currentPeak := LOWEST;
    ghost var a := 0;
    NothingYet(s, 0, 0);
    for n := 0 to |s|
      invariant currentStart.Some? <==> currentEnd.Some?
      invariant currentStart.None? ==>
                  (n == 0 || !s[n - 1].visible) && currentPeak == LOWEST && Remembers(s, n, best, i, j)
      invariant currentStart.Some? ==>
                  && VisibleRun(s, a, n - 1) && (a == 0 || !s[a - 1].visible)
                  && currentStart.value == s[a] && currentEnd.value == s[n - 1] && currentPeak == Peak(s, a, n - 1)
                  && Remembers(s, a, best, i, j)
    {
      var sample := s[n];
      if sample.visible {
        if currentStart.None? {
          currentStart := Some(sample);
          a := n;
        }
        currentEnd := Some(sample);
        currentPeak := Max(currentPeak, sample.altitude);
        continue;
      }
      if currentStart.Some? && currentEnd.Some? {
        CloseRun(s, n, best, i, j, a);
        var candidate := BuildWindow(currentStart.value, currentEnd.value, currentPeak);
        if best.None? || candidate.minutes > best.value.minutes {
          best, i, j := Some(candidate), a, n - 1;
        }
      }
      NoRunEndsHere(s, n, best, i, j);
      currentStart, currentEnd, currentPeak := None, None, LOWEST;
    }
    if currentStart.Some? && currentEnd.Some? {
      CloseRun(s, |s|, best, i, j, a);
      var candidate := BuildWindow(currentStart.value, currentEnd.value, currentPeak);
      if best.None? || candidate.minutes > best.value.minutes {
        best, i, j := Some(candidate), a, |s| - 1;
      }
    }
  }

  function BuildWindow(start: Sample, end: Sample, peak: int): Window {
    Window(start.time, end.time, Minutes(start.time, end.time), peak)
  }

  /** No run ends at an invisible sample. */
  lemma NoRunEndsHere(s: seq<Sample>, n: int, best: Option<Window>, i: int, j: int)
    requires 0 <= n < |s| && !s[n].visible && Remembers(s, n, best, i, j)
    ensures Remembers(s, n + 1, best, i, j)
  {
    forall k, l | MaximalRun(s, k, l) && l < n + 1 ensures l < n {
      assert s[l].visible;
    }
  }

  // ---------------------------------------------------------------- main results

  /** Every visible run lies inside a maximal one. */
  lemma {:induction false} GrowLeft(s: seq<Sample>, i: int, j: int) returns (a: int)
    requires VisibleRun(s, i, j)
    ensures a <= i && VisibleRun(s, a, j) && (a == 0 || !s[a - 1].visible)
    decreases i
  {
    if i > 0 && s[i - 1].visible {
      a := GrowLeft(s, i - 1, j);
    } else {
      a := i;
    }
  }

  lemma {:induction false} GrowRight(s: seq<Sample>, i: int, j: int) returns (b: int)
    requires VisibleRun(s, i, j)
    ensures j <= b && VisibleRun(s, i, b) && (b == |s| - 1 || !s[b + 1].visible)
    decreases |s| - j
  {
    if j + 1 < |s| && s[j + 1].visible {
      b := GrowRight(s, i, j + 1);
    } else {
      b := j;
    }
  }

  lemma {:induction false} PeakIsMaximum(s: seq<Sample>, i: int, j: int)
    requires 0 <= i <= j < |s| && forall k | i <= k <= j :: s[k].altitude >= LOWEST
    ensures forall k | i <= k <= j :: s[k].altitude <= Peak(s, i, j)
    ensures exists k | i <= k <= j :: s[k].altitude == Peak(s, i, j)
    decreases j - i
  {
    if i < j {
      PeakIsMaximum(s, i, j - 1);
      var k :| i <= k <= j - 1 && s[k].altitude == Peak(s, i, j - 1);
      assert s[if s[j].altitude >= s[k].altitude then j else k].altitude == Peak(s, i, j);
    } else {
      assert s[i].altitude == Peak(s, i, j);
    }
  }

  /** Samples a whole number of minutes apart. */
  predicate EvenlySpaced(s: seq<Sample>, stepMinutes: int) {
    stepMinutes > 0 && forall k | 0 <= k < |s| :: s[k].time == s[0].time + k * (stepMinutes * MICROS_PER_MINUTE)
  }

  lemma SamplesEvenlySpaced(sky: Sky, start: int, duration: int, stepMinutes: int)
    requires stepMinutes > 0 && duration >= 0
    ensures EvenlySpaced(Samples(sky, start, duration, stepMinutes), stepMinutes)
  {
  }

  lemma SamplesNotTooLow(sky: Sky, start: int, duration: int, stepMinutes: int)
    requires stepMinutes > 0 && duration >= 0 && forall t :: sky.rounded(sky.altitude(t)) >= LOWEST
    ensures forall k | 0 <= k < |Samples(sky, start, duration, stepMinutes)| ::
              Samples(sky, start, duration, stepMinutes)[k].altitude >= LOWEST
  {
  }

  lemma EvenMinutes(s: seq<Sample>, stepMinutes: int, k: int, l: int)
    requires EvenlySpaced(s, stepMinutes) && 0 <= k <= l < |s|
    ensures Minutes(s[k].time, s[l].time) == (l - k) * stepMinutes
  {
    Distribute(l, k, stepMinutes * MICROS_PER_MINUTE);
    Distribute(l, k, stepMinutes);
    MulMonotone(0, l - k, stepMinutes);
    assert s[l].time - s[k].time == (l - k) * (stepMinutes * MICROS_PER_MINUTE);
    WholeMinutes(l - k, stepMinutes);
  }

  lemma Distribute(l: int, k: int, step: int)
    ensures l * step - k * step == (l - k) * step
  {
  }

  lemma WholeMinutes(n: int, step: int)
    requires n * step >= 0
    ensures n * (step * MICROS_PER_MINUTE) == (n * step) * MICROS_PER_MINUTE
    ensures (n * step) * MICROS_PER_MINUTE / MICROS_PER_MINUTE == n * step
  {
    var m := n * step;
    assert n * (step * MICROS_PER_MINUTE) == m * MICROS_PER_MINUTE;
    assert m * MICROS_PER_MINUTE / MICROS_PER_MINUTE == m;
  }

  /** Samples i to j are the earliest longest visible run: maximal, no visible run is longer
      and none as long starts earlier; the window spans them, lasts (n - 1) steps for the n
      samples, and peaks at their highest altitude. */
  ghost predicate EarliestLongest(s: seq<Sample>, stepMinutes: int, w: Window, i: int, j: int) {
    && MaximalRun(s, i, j)
    && (forall k, l | VisibleRun(s, k, l) :: l - k <= j - i && (l - k == j - i ==> i <= k))
    && w.start == s[i].time && w.end == s[j].time && w.minutes == (j - i) * stepMinutes
    && (forall k | i <= k <= j :: s[k].altitude <= w.peak)
    && (exists k | i <= k <= j :: s[k].altitude == w.peak)
  }

  /** What the scan returns on evenly spaced samples: nothing exactly when no sample is
      visible, otherwise the window of the earliest longest visible run. */
  lemma BestWindowIsEarliestLongest(s: seq<Sample>, stepMinutes: int, best: Option<Window>) returns (i: int, j: int)
    requires EvenlySpaced(s, stepMinutes) && IsBest(s, best)
    requires forall k | 0 <= k < |s| :: s[k].altitude >= LOWEST
    ensures best.None? <==> forall k | 0 <= k < |s| :: !s[k].visible
    ensures best.Some? ==> EarliestLongest(s, stepMinutes, best.value, i, j)
  {
    hide Minutes, EvenlySpaced;
    i, j :| Remembers(s, |s|, best, i, j);
    forall k | 0 <= k < |s| && s[k].visible ensures best.Some? {
      assert VisibleRun(s, k, k);
      var a := GrowLeft(s, k, k);
      var b := GrowRight(s, a, k);
      assert MaximalRun(s, a, b);
    }
    if best.Some? {
      EvenMinutes(s, stepMinutes, i, j);
      PeakIsMaximum(s, i, j);
      forall k, l | VisibleRun(s, k, l) ensures l - k <= j - i && (l - k == j - i ==> i <= k) {
        RunInside(s, stepMinutes, i, j, k, l);
      }
      assert s[i].visible;
    }
  }

  // ---------------------------------------------------------------- in terms of the sky

  /** The time of a step. */
  function At(start: int, stepMinutes: int, k: int): int {
    start + k * (stepMinutes * MICROS_PER_MINUTE)
  }

  /** At this step the target is at or above the minimum altitude. */
  predicate Up(sky: Sky, start: int, stepMinutes: int, k: int) {
    sky.altitude(At(start, stepMinutes, k)) >= sky.minAltitude
  }

  predicate AllUp(sky: Sky, start: int, stepMinutes: int, i: int, j: int) {
    forall k | i <= k <= j :: Up(sky, start, stepMinutes, k)
  }

  /** Steps i to j, of those from 0 to n, are the earliest longest time for which the target is
      up: it is not just before and just after; no such time is longer, and none as long is
      earlier. The window spans them, lasts from step i to step j, and peaks at the highest
      rounded altitude. */
  ghost predicate LongestUp(sky: Sky, start: int, stepMinutes: int, n: int, w: Window, i: int, j: int) {
    && 0 <= i <= j <= n && AllUp(sky, start, stepMinutes, i, j)
    && (i == 0 || !Up(sky, start, stepMinutes, i - 1)) && (j == n || !Up(sky, start, stepMinutes, j + 1))
    && (forall k, l | 0 <= k <= l <= n && AllUp(sky, start, stepMinutes, k, l) ::
          l - k <= j - i && (l - k == j - i ==> i <= k))
    && w.start == At(start, stepMinutes, i) && w.end == At(start, stepMinutes, j) && w.minutes == (j - i) * stepMinutes
    && (forall k | i <= k <= j :: sky.rounded(sky.altitude(At(start, stepMinutes, k))) <= w.peak)
    && (exists k | i <= k <= j :: sky.rounded(sky.altitude(At(start, stepMinutes, k))) == w.peak)
  }

  /** Sample k is what the sky shows at step k; they go on to the last step in the time asked
      for. */
  lemma SamplesShowSky(sky: Sky, start: int, duration: int, stepMinutes: int)
    requires stepMinutes > 0 && duration >= 0
    ensures var s := Samples(sky, start, duration, stepMinutes); var n := |s| - 1;
            && n >= 0
            && At(start, stepMinutes, n) <= start + duration < At(start, stepMinutes, n + 1)
            && (forall k | 0 <= k <= n ::
                  && s[k].time == At(start, stepMinutes, k)
                  && s[k].altitude == sky.rounded(sky.altitude(At(start, stepMinutes, k)))
                  && (s[k].visible <==> Up(sky, start, stepMinutes, k)))
  {
    var step, n := stepMinutes * MICROS_PER_MINUTE, |Samples(sky, start, duration, stepMinutes)| - 1;
    LastStep(duration, step, n);
    LastStep(duration, step, n + 1);
  }

  lemma RunsAreUp(sky: Sky, start: int, duration: int, stepMinutes: int, i: int, j: int)
    requires stepMinutes > 0 && duration >= 0
    ensures var s := Samples(sky, start, duration, stepMinutes);
            VisibleRun(s, i, j) <==> 0 <= i <= j < |s| && AllUp(sky, start, stepMinutes, i, j)
  {
    hide Up, Samples, At;
    SamplesShowSky(sky, start, duration, stepMinutes);
    var s := Samples(sky, start, duration, stepMinutes);
    if 0 <= i <= j < |s| && AllUp(sky, start, stepMinutes, i, j) {
      forall k | i <= k <= j ensures s[k].visible {
        assert Up(sky, start, stepMinutes, k);
      }
    }
  }

  lemma LongestOfSky(sky: Sky, start: int, duration: int, stepMinutes: int, w: Window, i: int, j: int)
    requires stepMinutes > 0 && duration >= 0
    requires EarliestLongest(Samples(sky, start, duration, stepMinutes), stepMinutes, w, i, j)
    ensures LongestUp(sky, start, stepMinutes, |Samples(sky, start, duration, stepMinutes)| - 1, w, i, j)
  {
    hide Up, Samples, At, VisibleRun, AllUp;
    var s := Samples(sky, start, duration, stepMinutes);
    SamplesShowSky(sky, start, duration, stepMinutes);
    RunsAreUp(sky, start, duration, stepMinutes, i, j);
    forall k, l | 0 <= k <= l < |s| && AllUp(sky, start, stepMinutes, k, l)
      ensures l - k <= j - i && (l - k == j - i ==> i <= k)
    {
      RunsAreUp(sky, start, duration, stepMinutes, k, l);
    }
    var k :| i <= k <= j && s[k].altitude == w.peak;
    assert sky.rounded(sky.altitude(At(start, stepMinutes, k))) == w.peak;
  }

  datatype Analysis = Analysis(samples: seq<Sample>, visible: int, best: Option<Window>)

  /** Sampling and scanning together, as an analysis does: what it reports, in terms of the sky
      alone. */
  method AnalyzeVisibility(sky: Sky, start: int, duration: int, stepMinutes: int)
      returns (r: Result<Analysis, Refusal>, ghost i: int, ghost j: int)
    requires forall t :: sky.rounded(sky.altitude(t)) >= LOWEST
    ensures r.Ok? <==> stepMinutes > 0 && duration > 0
    ensures r.Ok? ==>
              var Analysis(samples, visible, best) := r.value; var n := |samples| - 1;
              && At(start, stepMinutes, n) <= start + duration < At(start, stepMinutes, n + 1)
              && (forall k | 0 <= k <= n ::
                    && samples[k].time == At(start, stepMinutes, k)
                    && samples[k].altitude == sky.rounded(sky.altitude(At(start, stepMinutes, k)))
                    && (samples[k].visible <==> Up(sky, start, stepMinutes, k)))
              && visible == |set k | 0 <= k <= n && Up(sky, start, stepMinutes, k)|
              && (best.None? <==> forall k | 0 <= k <= n :: sky.altitude(At(start, stepMinutes, k)) < sky.minAltitude)
              && (best.Some? ==> LongestUp(sky, start, stepMinutes, n, best.value, i, j))
  {
    hide EvenlySpaced, EarliestLongest, IsBest, Samples, LongestUp, At;
    var sampled := SampleVisibility(sky, start, duration, stepMinutes);
    if sampled.Err? { return Err(sampled.error), 0, 0; }
    var samples := sampled.value;
    var best := FindBestWindow(samples);
    var visible := CountVisible(samples);
    SamplesEvenlySpaced(sky, start, duration, stepMinutes);
    SamplesNotTooLow(sky, start, duration, stepMinutes);
    SamplesShowSky(sky, start, duration, stepMinutes);
    i, j := BestWindowIsEarliestLongest(samples, stepMinutes, best);
    if best.Some? {
      LongestOfSky(sky, start, duration, stepMinutes, best.value, i, j);
    }
    ghost var n := |samples| - 1;
    assert (set k | 0 <= k < |samples| && samples[k].visible) == set k | 0 <= k <= n && Up(sky, start, stepMinutes, k);
    assert best.None? <==> forall k | 0 <= k <= n :: !Up(sky, start, stepMinutes, k);
    return Ok(Analysis(samples, visible, best)), i, j;
  }

  method CountVisible(s: seq<Sample>) returns (count: int)
    ensures count == |set k | 0 <= k < |s| && s[k].visible|
  {
    count := 0;
    ghost var seen: set<int> := {};
    for n := 0 to |s|
      invariant seen == set k | 0 <= k < n && s[k].visible
      invariant count == |seen|
    {
      if s[n].visible {
        count := count + 1;
        seen := seen + {n};
      }
    }
  }

  lemma RunInside(s: seq<Sample>, stepMinutes: int, i: int, j: int, k: int, l: int)
    requires EvenlySpaced(s, stepMinutes) && BestUpTo(s, |s|, i, j) && VisibleRun(s, k, l)
    ensures l - k <= j - i && (l - k == j - i ==> i <= k)
  {
    hide Minutes, EvenlySpaced;
    var a := GrowLeft(s, k, l);
    var b := GrowRight(s, a, l);
    assert MaximalRun(s, a, b);
    LongerIsMore(s, stepMinutes, i, j, a, b);
    LongerIsMore(s, stepMinutes, a, b, i, j);
  }

  /** Of evenly spaced samples, more steps are more minutes. */
  lemma LongerIsMore(s: seq<Sample>, stepMinutes: int, i: int, j: int, a: int, b: int)
    requires EvenlySpaced(s, stepMinutes) && 0 <= i <= j < |s| && 0 <= a <= b < |s|
    ensures Minutes(s[a].time, s[b].time) <= Minutes(s[i].time, s[j].time) <==> b - a <= j - i
  {
    hide Minutes, EvenlySpaced;
    EvenMinutes(s, stepMinutes, i, j);
    EvenMinutes(s, stepMinutes, a, b);
    StepPositive(s, stepMinutes);
    StepsCompare(b - a, j - i, stepMinutes);
  }

  lemma StepPositive(s: seq<Sample>, stepMinutes: int)
    requires EvenlySpaced(s, stepMinutes)
    ensures stepMinutes > 0
  {
  }

  lemma StepsCompare(m: int, n: int, step: int)
    requires step > 0
    ensures m * step <= n * step <==> m <= n
  {
    if m <= n {
      MulMonotone(m, n, step);
    } else {
      MulMonotone(n + 1, m, step);
      NextStep(step, n);
    }
  }
}
