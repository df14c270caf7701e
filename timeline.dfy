/**
 * `VideoTimelineView`'s window of thumbnail images. Each time the time is set, the
 * window of `2 * imageCountOutwards` ticks around the time is recomputed; ticks that left
 * it are evicted, ticks that entered it get a pending (nil) entry, and the image generator
 * is asked for exactly the entering ticks. A generated image is stored at its tick
 * unconditionally.
 */
module Timeline {
  import opened Wrappers
  import opened Media

  /** The fields of the view that the window logic reads and writes. */
  datatype TimelineState = TimelineState(
    time: CMTime,
    hasGenerator: bool,
    images: map<int, Option<CGImage>>,
    displayPeriod: int,
    imageCountOutwards: nat)

  /** Once the generator is set, the time is numeric, so the window can be computed. */
  predicate Consistent(s: TimelineState) {
    s.hasGenerator ==> Numeric(s.time)
  }

  /** `(value / period) * period`, with Swift's truncating division. */
  function AnchorTime(value: int, period: int): int
    requires period > 0
  {
    TruncDiv(value, period) * period
  }

  /**
   * The anchor is a multiple of the period within one period of the value, at or below it
   * for a value that is not negative and at or above it for a negative one.
   */
  lemma AnchorBounds(value: int, period: int)
    requires period > 0
    ensures value >= 0 ==> AnchorTime(value, period) <= value < AnchorTime(value, period) + period
    ensures value < 0 ==> AnchorTime(value, period) - period < value <= AnchorTime(value, period)
    ensures AnchorTime(value, period) % period == 0
  {
    var q := TruncDiv(value, period);
    assert (q * period) % period == 0 by { MultipleMod(q, period); }
  }

  lemma MultipleMod(q: int, p: int)
    requires p > 0
    ensures (q * p) % p == 0
  {
    var m := (q * p) % p;
    var d := (q * p) / p;
    assert q * p == d * p + m && 0 <= m < p;
    assert (q - d) * p == m;
    if q - d >= 1 {
      MultiplyMonotone(1, q - d, p);
      assert false;
    } else if q - d <= -1 {
      MultiplyMonotone(q - d, -1, p);
      assert false;
    }
  }

  lemma MultiplyMonotone(x: int, y: int, s: int)
    requires x <= y && s > 0
    ensures x * s <= y * s
  {
    assert y * s - x * s == (y - x) * s;
  }

  /** The `n` ticks `start, start + period, ...`. */
  function Progression(start: int, n: nat, period: int): set<int> {
    set i | 0 <= i < n :: start + i * period
  }

  /** For a positive period, the progression has exactly `n` distinct ticks. */
  lemma {:induction false} ProgressionSize(start: int, n: nat, period: int)
    requires period > 0
    ensures |Progression(start, n, period)| == n
    ensures forall k :: k in Progression(start, n, period) ==> start <= k < start + n * period
  {
    if n > 0 {
      var smaller := Progression(start, n - 1, period);
      ProgressionSize(start, n - 1, period);
      var last := start + (n - 1) * period;
      assert Progression(start, n, period) == smaller + {last};
      assert last !in smaller;
      forall k | k in Progression(start, n, period) ensures start <= k < start + n * period {
        var i :| 0 <= i < n && k == start + i * period;
        MultiplyMonotone(0, i, period);
        MultiplyStrictly(i, n, period);
      }
    }
  }

  /** The ticks of the window around `t`: twice the count, the first count periods before the anchor. */
  function WindowTimes(t: CMTime, count: nat): set<int>
    requires Numeric(t)
  {
    var period := t.timescale;
    Progression(AnchorTime(t.value, period) - count * period, count * 2, period)
  }

  /** The window has `2 * count` distinct ticks, all within `count` periods of the anchor. */
  lemma WindowSize(t: CMTime, count: nat)
    requires Numeric(t)
    ensures |WindowTimes(t, count)| == 2 * count
    ensures forall k :: k in WindowTimes(t, count) ==>
              AnchorTime(t.value, t.timescale) - count * t.timescale <= k
              < AnchorTime(t.value, t.timescale) + count * t.timescale
  {
    var period := t.timescale;
    var lo := AnchorTime(t.value, period) - count * period;
    ProgressionSize(lo, count * 2, period);
    assert lo + (count * 2) * period == AnchorTime(t.value, period) + count * period;
  }

  /**
   * The images window moved onto `times`: ticks outside are evicted, ticks kept keep their
   * entry, ticks new to it are pending.
   */
  function Retarget(images: map<int, Option<CGImage>>, times: set<int>): (r: map<int, Option<CGImage>>)
    ensures r.Keys == times
    ensures forall k :: k in times && k in images ==> r[k] == images[k]
    ensures forall k :: k in times && k !in images ==> r[k] == None
  {
    map k | k in times :: if k in images then images[k] else None
  }

  /**
   * `updateImages()`: without a generator nothing changes and nothing is requested;
   * otherwise the period becomes the timescale, the images move onto the window, and the
   * ticks new to the window are returned as the generator's requests.
   */
  function ImagesUpdated(s: TimelineState): (out: (TimelineState, set<int>))
    requires Consistent(s)
    ensures Consistent(out.0)
    ensures !s.hasGenerator ==> out == (s, {})
    ensures out.0.(images := s.images, displayPeriod := s.displayPeriod) == s
  {
    if !s.hasGenerator then (s, {})
    else
      var times := WindowTimes(s.time, s.imageCountOutwards);
      (s.(displayPeriod := s.time.timescale, images := Retarget(s.images, times)), times - s.images.Keys)
  }

  /**
   * With a generator, an update moves the entries onto the window around the time: the
   * period becomes the timescale, the entries are exactly the window's ticks, entries kept
   * keep their image, and the requested ticks are exactly the entries that are new, each
   * of them pending.
   */
  lemma WindowMoved(s: TimelineState)
    requires Consistent(s) && s.hasGenerator
    ensures var out := ImagesUpdated(s);
            && out.0.displayPeriod == s.time.timescale
            && out.0.images.Keys == WindowTimes(s.time, s.imageCountOutwards)
            && (forall k :: k in out.0.images && k in s.images ==> out.0.images[k] == s.images[k])
            && (forall k :: k in out.1 <==> k in out.0.images && k !in s.images)
            && (forall k :: k in out.1 ==> out.0.images[k] == None)
  {
  }

  /** Setting `time`: its `didSet` updates the images, moving the window onto the new time. */
  function TimeSet(s: TimelineState, t: CMTime): (out: (TimelineState, set<int>))
    requires Consistent(s) && Numeric(t)
    ensures Consistent(out.0) && out.0.time == t
    ensures !s.hasGenerator ==> out == (s.(time := t), {})
    ensures s.hasGenerator ==>
              && out.0.images.Keys == WindowTimes(t, s.imageCountOutwards)
              && out.1 == WindowTimes(t, s.imageCountOutwards) - s.images.Keys
  {
    ImagesUpdated(s.(time := t))
  }

  /** The completion handler: an image is stored at the requested tick, whether or not it is still in the window. */
  function ImageStored(s: TimelineState, requested: CMTime, image: Option<CGImage>): (r: TimelineState)
    ensures image.None? ==> r == s
    ensures image.Some? ==> requested.value in r.images && r.images[requested.value] == image
    ensures r.images.Keys == s.images.Keys + (if image.Some? then {requested.value} else {})
    ensures forall k :: k in s.images && k != requested.value ==> r.images[k] == s.images[k]
    ensures r.(images := s.images) == s
  {
    if image.Some? then s.(images := s.images[requested.value := image]) else s
  }

  /** Updating again at the same time keeps every entry and requests nothing. */
  lemma RepeatedUpdateIsQuiet(s: TimelineState)
    requires Consistent(s) && s.hasGenerator
    ensures ImagesUpdated(ImagesUpdated(s).0) == (ImagesUpdated(s).0, {})
  {
    var s1 := ImagesUpdated(s).0;
    var times := WindowTimes(s.time, s.imageCountOutwards);
    assert s1.images.Keys == times;
    assert Retarget(s1.images, times) == s1.images;
    assert times - s1.images.Keys == {};
  }

  /** The entries of a freshly updated window are exactly its ticks, so the view holds `2 * count` of them. */
  lemma UpdatedWindowSize(s: TimelineState)
    requires Consistent(s) && s.hasGenerator
    ensures |ImagesUpdated(s).0.images.Keys| == 2 * s.imageCountOutwards
  {
    WindowSize(s.time, s.imageCountOutwards);
  }

  /**
   * A late image resurrects an evicted tick: after an update that evicted `k`, an image
   * generated for `k` puts it back, outside the window.
   */
  lemma LateImageResurrectsEvictedTick(s: TimelineState, k: int, image: CGImage)
    requires Consistent(s) && s.hasGenerator
    requires k !in WindowTimes(s.time, s.imageCountOutwards)
    ensures var s1 := ImageStored(ImagesUpdated(s).0, CMTime(k, s.time.timescale), Some(image));
            k in s1.images && s1.images.Keys != WindowTimes(s.time, s.imageCountOutwards)
  {
  }

  /**
   * The window at 1200 ticks at 600 per second with three images outwards is
   * {-600, 0, 600, 1200, 1800, 2400}; moving to 1800 evicts -600 and requests only 3000.
   */
  lemma WindowExample()
    ensures WindowTimes(CMTime(1200, 600), 3) == {-600, 0, 600, 1200, 1800, 2400}
    ensures WindowTimes(CMTime(1800, 600), 3) - WindowTimes(CMTime(1200, 600), 3) == {3000}
    ensures WindowTimes(CMTime(1200, 600), 3) - WindowTimes(CMTime(1800, 600), 3) == {-600}
  {
    ProgressionDisplay(-600);
    ProgressionDisplay(0);
  }

  lemma ProgressionDisplay(start: int)
    ensures Progression(start, 6, 600)
            == {start, start + 600, start + 1200, start + 1800, start + 2400, start + 3000}
  {
    var p := Progression(start, 6, 600);
    assert start + 0 * 600 in p && start + 1 * 600 in p && start + 2 * 600 in p;
    assert start + 3 * 600 in p && start + 4 * 600 in p && start + 5 * 600 in p;
    forall k | k in p
      ensures k in {start, start + 600, start + 1200, start + 1800, start + 2400, start + 3000}
    {
      var i :| 0 <= i < 6 && k == start + i * 600;
      assert i == 0 || i == 1 || i == 2 || i == 3 || i == 4 || i == 5;
    }
  }

  /** A set with a positive size has an element to pick. */
  lemma HasElement(s: set<int>)
    requires |s| > 0
    ensures exists x :: x in s
  {
    if forall x :: x !in s {
      assert false;
    }
  }

  /** The loop building `imageTimesNew`: the `n` ticks from `start`, one period apart. */
  method ProgressionOf(start: int, n: nat, period: int) returns (times: set<int>)
    ensures times == Progression(start, n, period)
  {
    times := {};
    for i := 0 to n
      invariant times == Progression(start, i, period)
    {
      assert Progression(start, i + 1, period) == Progression(start, i, period) + {start + i * period};
      times := times + {start + i * period};
    }
  }

  /** The loop removing each tick that left the window. */
  method RemoveTimes(images: map<int, Option<CGImage>>, imageTimesToRemove: set<int>)
    returns (r: map<int, Option<CGImage>>)
    ensures r.Keys == images.Keys - imageTimesToRemove
    ensures forall k :: k in r ==> r[k] == images[k]
  {
    r := images;
    var toRemove := imageTimesToRemove;
    while |toRemove| > 0
      invariant toRemove <= imageTimesToRemove
      invariant r.Keys == images.Keys - (imageTimesToRemove - toRemove)
      invariant forall k :: k in r ==> r[k] == images[k]
      decreases |toRemove|
    {
      HasElement(toRemove);
      var t :| t in toRemove;
      r := r - {t};
      toRemove := toRemove - {t};
    }
  }

  /** The loop giving each tick that entered the window a nil entry. */
  method AddPending(images: map<int, Option<CGImage>>, imageTimesToAdd: set<int>)
    returns (r: map<int, Option<CGImage>>)
    requires forall k :: k in imageTimesToAdd ==> k !in images
    ensures forall k :: k in r <==> k in images || k in imageTimesToAdd
    ensures forall k :: k in images ==> r[k] == images[k]
    ensures forall k :: k in imageTimesToAdd ==> r[k] == None
  {
    r := images;
    var toAdd := imageTimesToAdd;
    while |toAdd| > 0
      invariant toAdd <= imageTimesToAdd
      invariant forall k :: k in r <==> k in images || (k in imageTimesToAdd && k !in toAdd)
      invariant forall k :: k in images ==> r[k] == images[k]
      invariant forall k :: k in imageTimesToAdd && k !in toAdd ==> r[k] == None
      decreases |toAdd|
    {
      HasElement(toAdd);
      var t :| t in toAdd;
      r := r[t := None];
      toAdd := toAdd - {t};
    }
  }

  /** The removal and insertion loops of `updateImages()`: the entries moved onto the new window. */
  method RetargetImages(images: map<int, Option<CGImage>>, imageTimesNew: set<int>)
    returns (r: map<int, Option<CGImage>>)
    ensures r == Retarget(images, imageTimesNew)
  {
    var imageTimesOld := images.Keys;
    var kept := RemoveTimes(images, imageTimesOld - imageTimesNew);
    r := AddPending(kept, imageTimesNew - imageTimesOld);
    assert forall k :: k in r <==> k in imageTimesNew;
    assert r.Keys == imageTimesNew;
    assert forall k :: k in r ==> r[k] == Retarget(images, imageTimesNew)[k];
  }

  /** The generator's request list: one time per tick to add, at the view's timescale. */
  method RequestList(times: set<int>, timescale: int) returns (requests: seq<CMTime>)
    ensures RequestsFor(requests, times, timescale)
  {
    requests := [];
    var pending := times;
    while |pending| > 0
      invariant pending <= times
      invariant |requests| + |pending| == |times|
      invariant forall q :: q in requests ==> q.timescale == timescale && q.value in times - pending
      invariant forall k :: k in times - pending ==> CMTime(k, timescale) in requests
      decreases |pending|
    {
      HasElement(pending);
      var t :| t in pending;
      requests := requests + [CMTime(t, timescale)];
      pending := pending - {t};
    }
  }

  /** `VideoTimelineView`. */
  class VideoTimelineView {
    var time: CMTime
    var hasGenerator: bool
    var images: map<int, Option<CGImage>>
    var displayPeriod: int
    var imageCountOutwards: nat

    ghost function State(): TimelineState
      reads this
    {
      TimelineState(time, hasGenerator, images, displayPeriod, imageCountOutwards)
    }

    ghost predicate Valid()
      reads this
    {
      Consistent(State())
    }

    /** `init(frame:)`: an invalid time, no generator, no images. */
    constructor ()
      ensures Valid() && State() == TimelineState(Invalid, false, map[], 1, 1)
    {
      time := Invalid;
      hasGenerator := false;
      images := map[];
      displayPeriod := 1;
      imageCountOutwards := 1;
    }

    /**
     * The `asset` setter: a generator for the asset, the number of images outwards (which
     * the source derives from the layout), then the time set to the track's start.
     */
    method SetAsset(count: nat, start: CMTime) returns (requests: seq<CMTime>)
      requires Valid() && Numeric(start)
      modifies this
      ensures Valid()
      ensures var out := ImagesUpdated(old(State()).(hasGenerator := true, imageCountOutwards := count, time := start));
              State() == out.0 && RequestsFor(requests, out.1, start.timescale)
    {
      hasGenerator := true;
      imageCountOutwards := count;
      time := start;
      requests := UpdateImages();
    }

    /** Setting `time`; its `didSet` updates the images. */
    method SetTime(t: CMTime) returns (requests: seq<CMTime>)
      requires Valid() && Numeric(t)
      modifies this
      ensures Valid()
      ensures var out := TimeSet(old(State()), t);
              State() == out.0 && RequestsFor(requests, out.1, t.timescale)
    {
      time := t;
      requests := UpdateImages();
    }

    /** `updateImages()`, returning the times the generator is asked for. */
    method UpdateImages() returns (requests: seq<CMTime>)
      requires Valid()
      modifies this
      ensures Valid()
      ensures var out := ImagesUpdated(old(State()));
              State() == out.0 && RequestsFor(requests, out.1, time.timescale)
    {
      requests := [];
      if !hasGenerator {
        return;
      }
      ghost var s0 := State();
      displayPeriod := time.timescale;
      var anchorTime := AnchorTime(time.value, displayPeriod);
      var time0 := anchorTime - imageCountOutwards * displayPeriod;
      var imageTimesOld := images.Keys;
      assert time0 == AnchorTime(s0.time.value, s0.time.timescale) - s0.imageCountOutwards * s0.time.timescale;
      var imageTimesNew := ProgressionOf(time0, imageCountOutwards * 2, displayPeriod);
      ghost var window := WindowTimes(s0.time, s0.imageCountOutwards);
      assert imageTimesNew == window;
      var retargeted := RetargetImages(images, imageTimesNew);
      assert retargeted == Retarget(s0.images, window);
      images := retargeted;
      requests := RequestList(imageTimesNew - imageTimesOld, time.timescale);
    }

    /** The generator's completion handler for `requested`. */
    method ImageGenerated(requested: CMTime, image: Option<CGImage>)
      requires Valid()
      modifies this
      ensures Valid() && State() == ImageStored(old(State()), requested, image)
    {
      if image.Some? {
        images := images[requested.value := image];
      }
    }
  }

  /**
   * `requests` asks for each tick of `times` exactly once, at `timescale`, and for nothing else.
   */
  predicate RequestsFor(requests: seq<CMTime>, times: set<int>, timescale: int) {
    && |requests| == |times|
    && (forall r :: r in requests ==> r.timescale == timescale && r.value in times)
    && (forall k :: k in times ==> CMTime(k, timescale) in requests)
  }
}
