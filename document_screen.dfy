/**
 * The document view controller: it owns the current time and marshals it between the
 * document, the drawing canvas, the timeline and the video view. Leaving a tick records
 * the stroke still being drawn and clears the canvas; arriving at a tick loads the strokes
 * completed there and the focus points of the dynamic samples within half a second.
 * Assigning the canvas's finished lines notifies the controller, which stores them in the
 * document at the current tick.
 */
module DocumentScreen {
  import opened Wrappers
  import opened Media
  import opened Strokes
  import opened Documents
  import Timeline
  import Playback

  /** A focus point: how strongly to show it, and the samples it is made of. */
  datatype FocusPoint = FocusPoint(amount: real, points: seq<LinePoint>)

  /** The fields of the canvas the controller reads and writes. */
  datatype CanvasState = CanvasState(
    lines: seq<Line>,
    finishedLines: seq<Line>,
    focusPoints: seq<FocusPoint>,
    needsFullRedraw: bool)

  /** The state a time transition reads and writes: document, canvas, timeline and time. */
  datatype ScreenState = ScreenState(doc: DocState, canvas: CanvasState, timeline: Timeline.TimelineState, time: CMTime)

  /**
   * A transition from `before` to `after` acts when the times are different instants, or when
   * the old time still has the timescale 1 of `CMTime.zero` (the first run).
   */
  predicate Acts(before: CMTime, after: CMTime)
    requires Numeric(before) && Numeric(after)
  {
    !SameInstant(before, after) || before.timescale == Zero.timescale
  }

  /** The active stroke, if any, has a sample to record. */
  predicate ActiveLineHasPoint(lines: seq<Line>) {
    |lines| > 0 ==> |lines[0].points| > 0
  }

  /** The active stroke and its latest sample. */
  function ActiveSample(lines: seq<Line>): DynamicSample
    requires |lines| > 0 && ActiveLineHasPoint(lines)
  {
    DynamicSample(lines[0], lines[0].points[|lines[0].points| - 1])
  }

  /**
   * The dynamic drawings after leaving tick `key` with `lines` on the canvas: with an
   * active stroke, its latest sample is appended at `key` (the entry is created if absent
   * and its elements are kept); every other tick is untouched.
   */
  function Recorded(dyn: DynamicDrawings, lines: seq<Line>, key: int): (r: DynamicDrawings)
    requires ActiveLineHasPoint(lines)
    ensures |lines| == 0 ==> r == dyn
    ensures |lines| > 0 ==> r.Keys == dyn.Keys + {key}
    ensures |lines| > 0 && key in dyn ==> r[key] == dyn[key] + [ActiveSample(lines)]
    ensures |lines| > 0 && key !in dyn ==> r[key] == [ActiveSample(lines)]
    ensures forall k :: k in dyn && k != key ==> k in r && r[k] == dyn[k]
  {
    if |lines| == 0 then dyn
    else if key !in dyn then dyn[key := [ActiveSample(lines)]]
    else dyn[key := dyn[key] + [ActiveSample(lines)]]
  }

  /** Half of one second in the ticks of `t`: `timescale / 2`. */
  function HalfSpan(t: CMTime): int
    requires Numeric(t)
  {
    t.timescale / 2
  }

  /** The dynamic ticks strictly within half a second of `t`. */
  function Spread(dyn: DynamicDrawings, t: CMTime): set<int>
    requires Numeric(t)
  {
    set k | k in dyn && t.value - HalfSpan(t) < k < t.value + HalfSpan(t)
  }

  function Abs(n: int): nat {
    if n < 0 then -n else n
  }

  /**
   * The focus amount of tick `k` seen from `t`: `1 - |k - t| / span`. It is 1 at `t` and
   * strictly between 0 and 1 elsewhere in the open interval.
   */
  function FocusWeight(k: int, t: CMTime): (w: real)
    requires Numeric(t) && t.value - HalfSpan(t) < k < t.value + HalfSpan(t)
    ensures k == t.value ==> w == 1.0
    ensures k != t.value ==> 0.0 < w < 1.0
  {
    var span := HalfSpan(t);
    var d := Abs(k - t.value);
    assert 0 <= d < span;
    FractionBelowOne(d, span);
    1.0 - (d as real) / (span as real)
  }

  lemma FractionBelowOne(d: nat, span: int)
    requires d < span
    ensures 0.0 <= (d as real) / (span as real) < 1.0
    ensures d > 0 ==> 0.0 < (d as real) / (span as real)
  {
    var q := (d as real) / (span as real);
    assert q * (span as real) == d as real;
  }

  /** The points of a tick's samples, in order. */
  function PointsOf(samples: seq<DynamicSample>): (ps: seq<LinePoint>)
    ensures |ps| == |samples| && forall i :: 0 <= i < |samples| ==> ps[i] == samples[i].point
  {
    seq(|samples|, i requires 0 <= i < |samples| => samples[i].point)
  }

  /** The focus points for the ticks of `order`, in that order. */
  function FocusList(dyn: DynamicDrawings, t: CMTime, order: seq<int>): (fs: seq<FocusPoint>)
    requires Numeric(t) && AllIn(order, Spread(dyn, t))
    ensures |fs| == |order|
    ensures forall i :: 0 <= i < |order| ==>
              fs[i] == FocusPoint(FocusWeight(order[i], t), PointsOf(dyn[order[i]]))
  {
    if order == [] then []
    else
      var k := order[|order| - 1];
      FocusList(dyn, t, order[..|order| - 1]) + [FocusPoint(FocusWeight(k, t), PointsOf(dyn[k]))]
  }

  /** `order` lists each element of `keys` exactly once: one order the dictionary may iterate in. */
  predicate Enumerates(order: seq<int>, keys: set<int>) {
    && (forall i, j :: 0 <= i < j < |order| ==> order[i] != order[j])
    && AllIn(order, keys)
    && (forall k :: k in keys ==> k in order)
  }

  /** Every element of `order` is in `keys`. */
  predicate AllIn(order: seq<int>, keys: set<int>) {
    forall i :: 0 <= i < |order| ==> order[i] in keys
  }

  /** An enumeration has one element per key, so the focus list has one point per ticked key. */
  lemma {:induction false} EnumerationSize(order: seq<int>, keys: set<int>)
    requires Enumerates(order, keys)
    ensures |order| == |keys|
    decreases |order|
  {
    if order != [] {
      var last := order[|order| - 1];
      var front := order[..|order| - 1];
      assert forall k :: k in front <==> k in keys - {last} by {
        forall k
          ensures k in front <==> k in keys - {last}
        {
          if k in front {
            var i :| 0 <= i < |front| && front[i] == k;
            assert order[i] == k && i < |order| - 1;
          }
          if k in keys - {last} {
            var i :| 0 <= i < |order| && order[i] == k;
            assert i != |order| - 1;
            assert front[i] == k;
          }
        }
      }
      EnumerationSize(front, keys - {last});
    } else if |keys| > 0 {
      Timeline.HasElement(keys);
      assert false;
    }
  }

  /** Assigning the canvas's finished lines. */
  function WithFinishedLines(s: ScreenState, lines: seq<Line>): ScreenState {
    s.(canvas := s.canvas.(finishedLines := lines))
  }

  /**
   * `linesDidUpdate()`: with finished lines on the canvas, they become the static strokes at
   * the current tick, which the document counts as one change; with none, nothing happens.
   * No tick is removed and no other tick is touched.
   */
  function LinesUpdated(s: ScreenState): (r: ScreenState)
    ensures r.canvas == s.canvas && r.timeline == s.timeline && r.time == s.time
    ensures r.doc.dynamicDrawings == s.doc.dynamicDrawings && r.doc.movieURL == s.doc.movieURL
    ensures |s.canvas.finishedLines| == 0 ==> r == s
    ensures |s.canvas.finishedLines| > 0 ==>
              && s.time.value in r.doc.staticDrawings
              && r.doc.staticDrawings[s.time.value] == s.canvas.finishedLines
              && r.doc.changeCount == s.doc.changeCount + 1
    ensures r.doc.staticDrawings.Keys == s.doc.staticDrawings.Keys + (if |s.canvas.finishedLines| > 0 then {s.time.value} else {})
    ensures forall k :: k in s.doc.staticDrawings && k != s.time.value ==>
              r.doc.staticDrawings[k] == s.doc.staticDrawings[k]
  {
    if |s.canvas.finishedLines| > 0 then
      s.(doc := s.doc.(staticDrawings := s.doc.staticDrawings[s.time.value := s.canvas.finishedLines],
                       changeCount := s.doc.changeCount + 1))
    else s
  }

  /** The canvas setter's hook: assign the finished lines, then `linesDidUpdate()`. */
  function FinishedLinesSet(s: ScreenState, lines: seq<Line>): ScreenState {
    LinesUpdated(WithFinishedLines(s, lines))
  }

  /** Asking the canvas for a full redraw. */
  function Redrawn(s: ScreenState): ScreenState {
    s.(canvas := s.canvas.(needsFullRedraw := true))
  }

  /** The dynamic drawings as they are once `s` has been left. */
  function LeftDynamic(s: ScreenState): DynamicDrawings
    requires ActiveLineHasPoint(s.canvas.lines)
  {
    Recorded(s.doc.dynamicDrawings, s.canvas.lines, s.time.value)
  }

  /**
   * The `willSet` of `time`, at the old time: record the active stroke, clear the focus
   * points, clear the finished lines (whose hook then finds nothing to store). Only the
   * dynamic table, the change count and the canvas's finished lines, focus points and
   * redraw flag change.
   */
  function Leave(s: ScreenState): (r: ScreenState)
    requires ActiveLineHasPoint(s.canvas.lines)
    ensures r.time == s.time && r.timeline == s.timeline
    ensures r.doc == s.doc.(dynamicDrawings := LeftDynamic(s),
                            changeCount := s.doc.changeCount + (if |s.canvas.lines| > 0 then 1 else 0))
    ensures r.canvas.lines == s.canvas.lines
    ensures r.canvas.finishedLines == [] && r.canvas.focusPoints == []
  {
    var recorded :=
      if |s.canvas.lines| > 0 then
        s.(doc := s.doc.(dynamicDrawings := Recorded(s.doc.dynamicDrawings, s.canvas.lines, s.time.value),
                         changeCount := s.doc.changeCount + 1))
      else s;
    var unfocused :=
      if |recorded.canvas.focusPoints| > 0 then Redrawn(recorded.(canvas := recorded.canvas.(focusPoints := [])))
      else recorded;
    if |unfocused.canvas.finishedLines| > 0 then Redrawn(FinishedLinesSet(unfocused, []))
    else unfocused
  }

  /**
   * The `didSet` of `time`, at the new time: move the timeline, load the static strokes of
   * the tick if there are any, and append one focus point per tick of `order`. Loading
   * strokes writes back the same strokes, so the static table is unchanged while the change
   * count rises for a non-empty entry.
   */
  function Arrive(s: ScreenState, order: seq<int>): (r: ScreenState)
    requires Numeric(s.time) && Timeline.Consistent(s.timeline)
    requires AllIn(order, Spread(s.doc.dynamicDrawings, s.time))
    ensures r.time == s.time && r.timeline == Timeline.TimeSet(s.timeline, s.time).0
    ensures r.doc == s.doc.(changeCount := s.doc.changeCount
                              + (if s.time.value in s.doc.staticDrawings && |s.doc.staticDrawings[s.time.value]| > 0
                                 then 1 else 0))
    ensures r.canvas.lines == s.canvas.lines
    ensures r.canvas.finishedLines
            == (if s.time.value in s.doc.staticDrawings then s.doc.staticDrawings[s.time.value]
                else s.canvas.finishedLines)
    ensures r.canvas.focusPoints == s.canvas.focusPoints + FocusList(s.doc.dynamicDrawings, s.time, order)
  {
    var moved := s.(timeline := Timeline.TimeSet(s.timeline, s.time).0);
    var key := s.time.value;
    assert key in s.doc.staticDrawings ==> s.doc.staticDrawings[key := s.doc.staticDrawings[key]] == s.doc.staticDrawings;
    var loaded :=
      if key in s.doc.staticDrawings then Redrawn(FinishedLinesSet(moved, s.doc.staticDrawings[key]))
      else moved;
    loaded.(canvas := loaded.canvas.(focusPoints := loaded.canvas.focusPoints
                                                  + FocusList(loaded.doc.dynamicDrawings, s.time, order)))
  }

  /**
   * Assigning `time`. When the transition acts: the active stroke's latest sample is recorded
   * at the old tick; the timeline moves; the finished lines become the static strokes of the
   * new tick, or none; the focus points are those of `order`'s ticks; the static table is
   * left as it was, and the change count rises by one for a recorded sample and one for
   * loading strokes. When it does not act only the time changes.
   */
  function Transition(s: ScreenState, newValue: CMTime, order: seq<int>): (r: ScreenState)
    requires Numeric(s.time) && Numeric(newValue) && Timeline.Consistent(s.timeline)
    requires ActiveLineHasPoint(s.canvas.lines)
    requires AllIn(order, Spread(LeftDynamic(s), newValue))
    ensures r.time == newValue
    ensures !Acts(s.time, newValue) ==> r == s.(time := newValue)
    ensures r.doc.staticDrawings == s.doc.staticDrawings
    ensures r.doc.movieURL == s.doc.movieURL
    ensures r.canvas.lines == s.canvas.lines
    ensures Acts(s.time, newValue) ==>
              && r.doc.dynamicDrawings == LeftDynamic(s)
              && r.timeline == Timeline.TimeSet(s.timeline, newValue).0
              && r.canvas.finishedLines
                 == (if newValue.value in s.doc.staticDrawings then s.doc.staticDrawings[newValue.value] else [])
              && r.canvas.focusPoints == FocusList(LeftDynamic(s), newValue, order)
              && r.doc.changeCount
                 == s.doc.changeCount
                    + (if |s.canvas.lines| > 0 then 1 else 0)
                    + (if newValue.value in s.doc.staticDrawings && |s.doc.staticDrawings[newValue.value]| > 0 then 1 else 0)
  {
    if Acts(s.time, newValue) then Arrive(Leave(s).(time := newValue), order)
    else s.(time := newValue)
  }

  /** Only the dynamic ticks strictly inside the half-second window show: the bounds are excluded. */
  lemma FocusWindowExample(dyn: DynamicDrawings)
    requires 700 in dyn && 1000 in dyn && 1150 in dyn && 1300 in dyn
    ensures 700 !in Spread(dyn, CMTime(1000, 600)) && 1300 !in Spread(dyn, CMTime(1000, 600))
    ensures 1000 in Spread(dyn, CMTime(1000, 600)) && 1150 in Spread(dyn, CMTime(1000, 600))
    ensures FocusWeight(1150, CMTime(1000, 600)) == 0.5
    ensures FocusWeight(1000, CMTime(1000, 600)) == 1.0
  {
    assert HalfSpan(CMTime(1000, 600)) == 300;
  }

  /** At timescale 1 the half-second span is 0, so no tick is ever focused. */
  lemma NoFocusAtTimescaleOne(dyn: DynamicDrawings, t: CMTime)
    requires t.timescale == 1
    ensures Spread(dyn, t) == {}
  {
    assert HalfSpan(t) == 0;
  }

  /**
   * The first-run hack: a transition from `CMTime.zero` always acts, even to the same instant,
   * while a transition between two spellings of one instant at another timescale does not.
   */
  lemma TransitionGuardExamples()
    ensures Acts(Zero, Zero)
    ensures Acts(CMTime(1, 1), CMTime(600, 600))
    ensures !Acts(CMTime(600, 600), CMTime(1, 1))
    ensures !Acts(CMTime(600, 600), CMTime(1200, 1200))
    ensures Acts(CMTime(600, 600), CMTime(601, 600))
  {
  }

  /**
   * Stepping onto a tick with strokes and straight back again: the strokes are shown, then
   * replaced on leaving by those of the tick returned to, and neither table loses anything.
   */
  lemma VisitKeepsStrokes(s: ScreenState, t: CMTime)
    requires Numeric(s.time) && Numeric(t) && Timeline.Consistent(s.timeline)
    requires s.canvas.lines == [] && !SameInstant(s.time, t)
    requires t.value in s.doc.staticDrawings
    ensures var r := Transition(s, t, []);
            && r.canvas.finishedLines == s.doc.staticDrawings[t.value]
            && r.doc.staticDrawings == s.doc.staticDrawings
            && r.doc.dynamicDrawings == s.doc.dynamicDrawings
    ensures var back := Transition(Transition(s, t, []), s.time, []);
            && back.time == s.time
            && back.canvas.finishedLines
               == (if s.time.value in s.doc.staticDrawings then s.doc.staticDrawings[s.time.value] else [])
            && back.doc.staticDrawings == s.doc.staticDrawings
            && back.doc.dynamicDrawings == s.doc.dynamicDrawings
  {
    CompareAntisymmetric(s.time, t);
    assert Acts(t, s.time);
  }

  /** The drawing canvas (a `NotifyingCanvasView`): the fields the controller uses. */
  class Canvas {
    /** The strokes being drawn; the first is the active one. */
    var lines: seq<Line>
    var finishedLines: seq<Line>
    var focusPoints: seq<FocusPoint>
    var needsFullRedraw: bool

    ghost function State(): CanvasState
      reads this
    {
      CanvasState(lines, finishedLines, focusPoints, needsFullRedraw)
    }

    constructor ()
      ensures State() == CanvasState([], [], [], false)
    {
      lines := [];
      finishedLines := [];
      focusPoints := [];
      needsFullRedraw := false;
    }
  }

  /** `DocumentViewController`. */
  class DocumentViewController {
    const document: Document
    const canvas: Canvas
    const timeline: Timeline.VideoTimelineView
    const videoView: Playback.VideoView
    var rate: Playback.Rate
    var desiredTime: CMTime
    var time: CMTime
    var timeBounds: CMTimeRange

    ghost function Screen(): ScreenState
      reads this, document, canvas, timeline
    {
      ScreenState(document.State(), canvas.State(), timeline.State(), time)
    }

    ghost predicate Valid()
      reads this, timeline, videoView
    {
      && Numeric(time) && Numeric(desiredTime) && ValidRange(timeBounds)
      && timeline.Valid() && videoView.Valid()
    }

    /** A controller over its collaborators, at `CMTime.zero`, playing at rate 1, with zero bounds. */
    constructor (document: Document, canvas: Canvas, timeline: Timeline.VideoTimelineView, videoView: Playback.VideoView)
      requires timeline.Valid() && videoView.Valid()
      ensures Valid()
      ensures this.document == document && this.canvas == canvas
      ensures this.timeline == timeline && this.videoView == videoView
      ensures rate == Playback.Rate(1.0, false) && desiredTime == Zero && time == Zero && timeBounds == ZeroRange
    {
      this.document := document;
      this.canvas := canvas;
      this.timeline := timeline;
      this.videoView := videoView;
      rate := Playback.Rate(1.0, false);
      desiredTime := Zero;
      time := Zero;
      timeBounds := ZeroRange;
    }

    /** `linesDidUpdate()`. */
    method LinesDidUpdate()
      modifies document
      ensures Screen() == LinesUpdated(old(Screen()))
    {
      if |canvas.finishedLines| > 0 {
        document.SetStaticDrawings(document.staticDrawings[time.value := canvas.finishedLines]);
      }
    }

    /** Assigning `canvas.finishedLines`, whose setter calls back `linesDidUpdate()`. */
    method SetFinishedLines(lines: seq<Line>)
      modifies canvas, document
      ensures Screen() == FinishedLinesSet(old(Screen()), lines)
    {
      canvas.finishedLines := lines;
      LinesDidUpdate();
    }

    /** The `willSet` of `time`. */
    method WillSetTime()
      requires ActiveLineHasPoint(canvas.lines)
      modifies canvas, document
      ensures Screen() == Leave(old(Screen()))
    {
      ghost var s0 := Screen();
      if |canvas.lines| > 0 {
        var info := DynamicSample(canvas.lines[0], canvas.lines[0].points[|canvas.lines[0].points| - 1]);
        if time.value !in document.dynamicDrawings {
          document.SetDynamicDrawings(document.dynamicDrawings[time.value := [info]]);
        } else {
          document.SetDynamicDrawings(document.dynamicDrawings[time.value := document.dynamicDrawings[time.value] + [info]]);
        }
      }
      assert Screen() == (if |s0.canvas.lines| > 0 then
                            s0.(doc := s0.doc.(dynamicDrawings := LeftDynamic(s0), changeCount := s0.doc.changeCount + 1))
                          else s0);
      if |canvas.focusPoints| > 0 {
        canvas.focusPoints := [];
        canvas.needsFullRedraw := true;
      }
      if |canvas.finishedLines| > 0 {
        SetFinishedLines([]);
        canvas.needsFullRedraw := true;
      }
    }

    /** The `didSet` of `time`; `focusOrder` is the order the dictionary of focused ticks was iterated in. */
    method DidSetTime() returns (ghost focusOrder: seq<int>, requests: seq<CMTime>)
      requires Valid()
      modifies canvas, document, timeline
      ensures Valid()
      ensures Enumerates(focusOrder, Spread(old(document.dynamicDrawings), time))
      ensures Screen() == Arrive(old(Screen()), focusOrder)
      ensures Timeline.RequestsFor(requests, Timeline.TimeSet(old(timeline.State()), time).1, time.timescale)
    {
      requests := timeline.SetTime(time);
      if time.value in document.staticDrawings {
        SetFinishedLines(document.staticDrawings[time.value]);
        canvas.needsFullRedraw := true;
      }
      focusOrder := FocusLoop();
    }

    /** Appending the focus points of the dynamic ticks within half a second of the time. */
    method FocusLoop() returns (ghost order: seq<int>)
      requires Numeric(time)
      modifies canvas
      ensures Enumerates(order, Spread(document.dynamicDrawings, time))
      ensures canvas.State() == old(canvas.State()).(focusPoints := old(canvas.focusPoints)
                                                    + FocusList(document.dynamicDrawings, time, order))
    {
      var added;
      added, order := FocusPointsFor(document.dynamicDrawings, time);
      canvas.focusPoints := canvas.focusPoints + added;
    }

    /**
     * Assigning `time`: the observers run only when the transition acts, and the time is set
     * either way.
     */
    method SetTime(newValue: CMTime) returns (ghost focusOrder: seq<int>, requests: seq<CMTime>)
      requires Valid() && Numeric(newValue) && ActiveLineHasPoint(canvas.lines)
      modifies this, canvas, document, timeline
      ensures Valid()
      ensures Acts(old(time), newValue) ==> Enumerates(focusOrder, Spread(LeftDynamic(old(Screen())), newValue))
      ensures !Acts(old(time), newValue) ==> focusOrder == [] && requests == []
      ensures Screen() == Transition(old(Screen()), newValue, focusOrder)
      ensures Acts(old(time), newValue) ==>
                Timeline.RequestsFor(requests, Timeline.TimeSet(old(timeline.State()), newValue).1, newValue.timescale)
      ensures rate == old(rate) && desiredTime == old(desiredTime) && timeBounds == old(timeBounds)
    {
      var oldValue := time;
      focusOrder := [];
      requests := [];
      if Acts(oldValue, newValue) {
        ghost var s0 := Screen();
        WillSetTime();
        ghost var s1 := Screen();
        assert s1 == Leave(s0);
        time := newValue;
        assert Screen() == s1.(time := newValue);
        focusOrder, requests := DidSetTime();
      } else {
        time := newValue;
      }
    }

    /**
     * Assigning `desiredTime`: the current time is clamped into the time bounds (the desired
     * time itself is not), then the desired time is passed to the video view.
     */
    method SetDesiredTime(d: CMTime) returns (ghost focusOrder: seq<int>)
      requires Valid() && Numeric(d) && ActiveLineHasPoint(canvas.lines) && !EmptyRange(timeBounds)
      modifies this, canvas, document, timeline, videoView
      ensures Valid() && desiredTime == d
      ensures rate == old(rate) && timeBounds == old(timeBounds)
      ensures var clamped := ClampToRange(old(time), timeBounds);
              && (Acts(old(time), clamped) ==> Enumerates(focusOrder, Spread(LeftDynamic(old(Screen())), clamped)))
              && (!Acts(old(time), clamped) ==> focusOrder == [])
      ensures Screen() == Transition(old(Screen()), ClampToRange(old(time), timeBounds), focusOrder)
      ensures videoView.State() == Playback.TimeSet(old(videoView.State()), d)
    {
      ghost var s0 := Screen();
      desiredTime := d;
      assert Screen() == s0;
      var clamped := ClampToRange(time, timeBounds);
      var requests;
      focusOrder, requests := SetTime(clamped);
      videoView.SetTime(desiredTime);
    }

    /** Assigning `rate`: the player is given 0 when paused and the rate otherwise. */
    method SetRate(r: Playback.Rate)
      requires Valid()
      modifies this, videoView
      ensures Valid() && rate == r
      ensures videoView.State() == Playback.PlayerRateSet(old(videoView.State()), Playback.PlayerRate(r))
      ensures time == old(time) && desiredTime == old(desiredTime) && timeBounds == old(timeBounds)
      ensures Screen() == old(Screen())
    {
      rate := r;
      videoView.SetPlayerRate(Playback.PlayerRate(r));
    }

    /** Taking the video track's time range as the bounds. */
    method SetTimeBounds(r: CMTimeRange)
      requires Valid() && ValidRange(r)
      modifies this
      ensures Valid() && timeBounds == r && time == old(time) && desiredTime == old(desiredTime)
      ensures rate == old(rate) && Screen() == old(Screen())
    {
      timeBounds := r;
    }
  }

  /**
   * The loop over the dynamic ticks strictly within half a second of `t`, in the order
   * `order` the filtered dictionary is iterated in, making one focus point per tick.
   */
  method FocusPointsFor(dyn: DynamicDrawings, t: CMTime) returns (added: seq<FocusPoint>, ghost order: seq<int>)
    requires Numeric(t)
    ensures Enumerates(order, Spread(dyn, t))
    ensures added == FocusList(dyn, t, order)
  {
    var timeSpan := t.timescale / 2;
    var spread := map k | k in dyn && t.value - timeSpan < k < t.value + timeSpan :: dyn[k];
    ghost var keys := Spread(dyn, t);
    assert spread.Keys == keys;
    var remaining := spread.Keys;
    added := [];
    order := [];
    ghost var done: set<int> := {};
    while |remaining| > 0
      invariant remaining <= keys
      invariant forall k :: k in keys ==> (k in done <==> k !in remaining)
      invariant forall k :: k in done ==> k in keys
      invariant Enumerates(order, done)
      invariant added == FocusList(dyn, t, order)
      decreases |remaining|
    {
      Timeline.HasElement(remaining);
      var instantTime :| instantTime in remaining;
      var info := spread[instantTime];
      var focusAmount := 1.0 - (Abs(instantTime - t.value) as real) / (timeSpan as real);
      assert focusAmount == FocusWeight(instantTime, t);
      EnumerateOneMore(order, done, instantTime);
      FocusListStep(dyn, t, order, instantTime);
      added := added + [FocusPoint(focusAmount, PointsOf(info))];
      order := order + [instantTime];
      done := done + {instantTime};
      remaining := remaining - {instantTime};
    }
  }

  lemma FocusListStep(dyn: DynamicDrawings, t: CMTime, order: seq<int>, k: int)
    requires Numeric(t) && AllIn(order + [k], Spread(dyn, t))
    ensures AllIn(order, Spread(dyn, t)) && k in Spread(dyn, t)
    ensures FocusList(dyn, t, order + [k])
            == FocusList(dyn, t, order) + [FocusPoint(FocusWeight(k, t), PointsOf(dyn[k]))]
  {
    assert (order + [k])[..|order|] == order;
    assert forall i :: 0 <= i < |order| ==> order[i] == (order + [k])[i];
    assert (order + [k])[|order|] == k;
  }

  lemma EnumerateOneMore(order: seq<int>, done: set<int>, k: int)
    requires Enumerates(order, done) && k !in done
    ensures Enumerates(order + [k], done + {k})
  {
  }
}
