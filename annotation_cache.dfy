/**
 * `Annotations`: strokes per tick and two caches of their rendered images, one at full
 * frame size and one at thumbnail size, filled on demand and never invalidated.
 * Drawing is foreign: a `Renderer` clears a bitmap context, draws one stroke's committed
 * samples into it, and makes an image of it, which can fail.
 */
module AnnotationCache {
  import opened Wrappers
  import opened Media
  import opened Strokes

  /** Which of the two bitmap contexts is drawn into. */
  datatype Surface = FullFrame | Thumbnail

  /** The pixel contents of a bitmap context. */
  datatype Bitmap = Bitmap(pixels: seq<bv8>)

  /** The foreign drawing calls: clear a context, draw a stroke into it, make an image of it. */
  datatype Renderer = Renderer(
    clear: Surface -> Bitmap,
    draw: (Bitmap, Line) -> Bitmap,
    makeImage: Bitmap -> Option<CGImage>)

  /** The context after clearing it and drawing `lines` into it in order. */
  function Paint(r: Renderer, surface: Surface, lines: seq<Line>): Bitmap
    decreases |lines|
  {
    if lines == [] then r.clear(surface)
    else r.draw(Paint(r, surface, lines[..|lines| - 1]), lines[|lines| - 1])
  }

  /** The image of `lines` on `surface`, if the context yields one. */
  function Render(r: Renderer, surface: Surface, lines: seq<Line>): Option<CGImage> {
    r.makeImage(Paint(r, surface, lines))
  }

  /** Drawing one more stroke draws it on top of those already drawn. */
  lemma {:induction false} PaintInOrder(r: Renderer, surface: Surface, lines: seq<Line>, line: Line)
    ensures Paint(r, surface, lines + [line]) == r.draw(Paint(r, surface, lines), line)
  {
    assert (lines + [line])[..|lines|] == lines;
  }

  /**
   * Clears the context for `surface`, draws every stroke into it in order, and makes an
   * image of it.
   */
  method RenderLines(r: Renderer, surface: Surface, lines: seq<Line>) returns (image: Option<CGImage>)
    ensures image == Render(r, surface, lines)
  {
    var context := r.clear(surface);
    for i := 0 to |lines|
      invariant context == Paint(r, surface, lines[..i])
    {
      assert lines[..i + 1] == lines[..i] + [lines[i]];
      PaintInOrder(r, surface, lines[..i], lines[i]);
      context := r.draw(context, lines[i]);
    }
    assert lines[..|lines|] == lines;
    image := r.makeImage(context);
  }

  /** What `staticDrawingAt(time:)` returns: the strokes and their two images. */
  datatype Drawing = Drawing(lines: seq<Line>, fullImage: CGImage, thumbImage: CGImage)

  /** The three tables of `Annotations`. */
  datatype CacheState = CacheState(
    staticDrawings: map<int, seq<Line>>,
    fullFrame: map<int, CGImage>,
    thumb: map<int, CGImage>)

  /** `m` is `n` with entries possibly added, none removed or replaced. */
  predicate Extends<K, V(==)>(n: map<K, V>, m: map<K, V>) {
    n.Keys <= m.Keys && forall k :: k in n ==> m[k] == n[k]
  }

  /**
   * `staticDrawingAt(time:)` on the tick `key`. With no strokes at `key`, nothing happens.
   * Otherwise the full-frame image is rendered and stored unless cached; if rendering fails
   * it returns nothing and stores nothing. The thumbnail is then cached the same way; its
   * failure leaves the full-frame entry stored. On success the strokes are returned with
   * the two cached images.
   */
  function DrawingAt(s: CacheState, key: int, r: Renderer): (out: (CacheState, Option<Drawing>))
    ensures out.0.staticDrawings == s.staticDrawings
    ensures key !in s.staticDrawings ==> out == (s, None)
    ensures Extends(s.fullFrame, out.0.fullFrame) && Extends(s.thumb, out.0.thumb)
    ensures out.0.fullFrame - {key} == s.fullFrame - {key}
    ensures out.0.thumb - {key} == s.thumb - {key}
    ensures key in s.staticDrawings && key !in s.fullFrame ==>
              match Render(r, FullFrame, s.staticDrawings[key])
              case None => out == (s, None)
              case Some(image) => key in out.0.fullFrame && out.0.fullFrame[key] == image
    ensures key in s.staticDrawings && key in out.0.fullFrame && key !in s.thumb ==>
              match Render(r, Thumbnail, s.staticDrawings[key])
              case None => key !in out.0.thumb && out.1 == None
              case Some(image) => key in out.0.thumb && out.0.thumb[key] == image
    ensures out.1.Some? <==>
              && key in s.staticDrawings
              && (key in s.fullFrame || Render(r, FullFrame, s.staticDrawings[key]).Some?)
              && (key in s.thumb || Render(r, Thumbnail, s.staticDrawings[key]).Some?)
    ensures out.1.Some? ==>
              && key in out.0.fullFrame && key in out.0.thumb
              && out.1.value == Drawing(s.staticDrawings[key], out.0.fullFrame[key], out.0.thumb[key])
  {
    if key !in s.staticDrawings then (s, None)
    else
      var lines := s.staticDrawings[key];
      var full := if key in s.fullFrame then Some(s.fullFrame[key]) else Render(r, FullFrame, lines);
      if full.None? then (s, None)
      else
        var s1 := s.(fullFrame := s.fullFrame[key := full.value]);
        var thumb := if key in s.thumb then Some(s.thumb[key]) else Render(r, Thumbnail, lines);
        if thumb.None? then (s1, None)
        else
          var s2 := s1.(thumb := s.thumb[key := thumb.value]);
          (s2, Some(Drawing(lines, s2.fullFrame[key], s2.thumb[key])))
  }

  /**
   * A successful lookup fills both caches at `key`, so asking again renders nothing,
   * changes nothing and returns the same images.
   */
  lemma RepeatedLookupIsStable(s: CacheState, key: int, r: Renderer)
    requires DrawingAt(s, key, r).1.Some?
    ensures DrawingAt(DrawingAt(s, key, r).0, key, r) == DrawingAt(s, key, r)
  {
    var s1 := DrawingAt(s, key, r).0;
    assert s1.fullFrame[key := s1.fullFrame[key]] == s1.fullFrame;
    assert s1.thumb[key := s1.thumb[key]] == s1.thumb;
  }

  /**
   * Nothing invalidates the caches: after a successful lookup, replacing the strokes at
   * `key` returns the new strokes with the images rendered from the old ones.
   */
  lemma StaleImagesAfterEdit(s: CacheState, key: int, r: Renderer, lines: seq<Line>)
    requires DrawingAt(s, key, r).1.Some?
    ensures var s1 := DrawingAt(s, key, r).0;
            var old_ := DrawingAt(s, key, r).1.value;
            DrawingAt(s1.(staticDrawings := s1.staticDrawings[key := lines]), key, r).1
              == Some(Drawing(lines, old_.fullImage, old_.thumbImage))
  {
    var s1 := DrawingAt(s, key, r).0;
    var s2 := s1.(staticDrawings := s1.staticDrawings[key := lines]);
    assert s2.fullFrame[key := s2.fullFrame[key]] == s2.fullFrame;
    assert s2.thumb[key := s2.thumb[key]] == s2.thumb;
  }

  /** `Annotations`: the strokes per tick and the two image caches, filled in place. */
  class Annotations {
    var staticDrawings: map<int, seq<Line>>
    var staticDrawingsFullFrame: map<int, CGImage>
    var staticDrawingsThumb: map<int, CGImage>

    ghost function State(): CacheState
      reads this
    {
      CacheState(staticDrawings, staticDrawingsFullFrame, staticDrawingsThumb)
    }

    constructor ()
      ensures State() == CacheState(map[], map[], map[])
    {
      staticDrawings := map[];
      staticDrawingsFullFrame := map[];
      staticDrawingsThumb := map[];
    }

    /**
     * `staticDrawingAt(time:)`: looks the tick up by `time.value` alone, whatever the
     * timescale, and fills the caches as `DrawingAt` says.
     */
    method StaticDrawingAt(time: CMTime, r: Renderer) returns (result: Option<Drawing>)
      modifies this
      ensures (State(), result) == DrawingAt(old(State()), time.value, r)
    {
      var key := time.value;
      if key !in staticDrawings {
        return None;
      }
      var lines := staticDrawings[key];
      if key !in staticDrawingsFullFrame {
        var image := RenderLines(r, FullFrame, lines);
        if image.None? {
          return None;
        }
        staticDrawingsFullFrame := staticDrawingsFullFrame[key := image.value];
      }
      assert old(staticDrawingsFullFrame)[key := staticDrawingsFullFrame[key]] == staticDrawingsFullFrame;
      if key !in staticDrawingsThumb {
        var image := RenderLines(r, Thumbnail, lines);
        if image.None? {
          return None;
        }
        staticDrawingsThumb := staticDrawingsThumb[key := image.value];
      }
      assert old(staticDrawingsThumb)[key := staticDrawingsThumb[key]] == staticDrawingsThumb;
      return Some(Drawing(lines, staticDrawingsFullFrame[key], staticDrawingsThumb[key]));
    }
  }
}
