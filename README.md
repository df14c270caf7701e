# DrawingInteractions core, modelled in Dafny

DrawingInteractions lets a user draw pressure-sensitive strokes over a playing video and
recalls them when the video returns to the same instant. Time is an exact `CMTime`, a
count of ticks at a timescale. Annotations are stored per tick value in a document that is
saved as a package of three files. This project models the core of the app and proves
properties of it:

- **Strokes** (`strokes.dfy`): the `LineCodable` and `LinePointCodable` codecs. A stroke's
  committed samples are stored as seven parallel columns and zipped back into samples.
- **Documents** (`documents.dfy`): the `Document` fields and their change counting.
  `contents(forType:)` is modelled as `Save` and `load(fromContents:ofType:)` as `Load`,
  at the level of the three-member file package.
- **AnnotationCache** (`annotation_cache.dfy`): `Annotations.staticDrawingAt(time:)`, which
  renders and caches a tick's strokes at full-frame and thumbnail size.
- **Playback** (`playback.dfy`): the seek debouncer of `VideoView`. At most one seek is in
  flight. A completing seek either resumes playback or seeks again, to the latest desired
  time.
- **Timeline** (`timeline.dfy`): the image window of `VideoTimelineView`. It recomputes the
  window of `2 * imageCountOutwards` ticks around the time, evicts and adds entries, asks
  the generator for the new ticks, and stores generated images.
- **DocumentScreen** (`document_screen.dfy`): the controller around the time.
  - Leaving a tick (the `willSet` of `time`) records the active stroke's latest sample and
    clears the canvas.
  - Arriving at a tick (the `didSet`) moves the timeline, loads the tick's strokes and
    appends the focus points of the dynamic ticks within half a second.
  - It also covers `linesDidUpdate`, the `desiredTime` and `rate` observers, and the canvas's
    `finishedLines` setter hook, which calls `linesDidUpdate`.
- **Media** and **Wrappers**: `CMTime`, `CMTimeCompare`, `CMTimeClampToRange`, Int64
  truncating division, `CMTimeRange`, and the `Option`/`Result` types.

How the model is built:
- Objects whose fields the app updates in place are classes: `Document`, `Annotations`,
  `VideoView`, `VideoTimelineView`, the canvas and `DocumentViewController`. Each has a
  ghost `State()` and a pure transition function over a state datatype. Each method
  ensures that its new state is that function of its old state.
  - The properties are then proved about the functions: invariants preserved,
    convergence, round trips, window sizes and examples.
- Loops in the source are methods with invariants, proved equal to a specification function:
  - the codec's encode and decode loops;
  - the render loop;
  - the window, eviction, insertion and request loops;
  - the focus-point loop.
- JSON coding, bookmarks, Core Graphics drawing, the image generator and the AVPlayer are
  foreign. They enter as parameters (records of functions that may fail), or as recorded
  outputs: the seeks issued and the generator requests.
- Swift's `==` on `CMTime` is `CMTimeCompare(a, b) == 0`, a comparison of instants, so
  `1/1` equals `600/600`. The time observers' first-run test `time.timescale ==
  CMTime.zero.timescale` is a test for timescale 1.
- Behaviour of the code worth noting:
  - `LineCodable.line()` stops at the shortest column; it never fails.
  - `load` keeps the assignments made before a later step throws; it does not roll back.
  - A generated thumbnail is stored at its tick even after the tick left the window.
  - Every tick new to the window is requested; nothing is filtered by the media's range.
  - The window is `anchor - count*period ... anchor + (count-1)*period`.
  - The image caches of `Annotations` are never invalidated.

## Model

| member | source | states |
|---|---|---|
| Strokes.LineCodableFrom | DrawingInteractions/LineCodable.swift:25-60 | The encoding loop produces the columns of the stroke's committed samples, and only those: seven columns as long as the samples, with row i holding sample i's fields (`EncodePoints`). |
| Strokes.EncodePoints | DrawingInteractions/LineCodable.swift:43-51 | The columns have equal lengths, equal to the number of samples, and row i holds exactly the fields of sample i, with x and y taken from its location. |
| Strokes.DecodeColumns | DrawingInteractions/LineCodable.swift:74-94 | Decoding yields exactly as many samples as the shortest column has entries, and sample i is built from row i; it never fails. |
| Strokes.ToLine | DrawingInteractions/LineCodable.swift:62-98 | The lockstep draining loop stops when any column runs out, and returns a fresh line whose committed points are the decoded samples and whose pending points are empty. |
| Strokes.RoundTrip | DrawingInteractions/LineCodable.swift:25-98 | Decoding the encoding of a stroke gives back its committed samples field for field, with no pending samples. |
| Strokes.ReEncode | DrawingInteractions/LineCodable.swift:62-98 | Re-encoding a decoded record gives the record cut to its shortest column; for columns of equal length that is the record itself. |
| Strokes.DecodeIgnoresSurplus | DrawingInteractions/LineCodable.swift:74-85 | Entries beyond the shortest column are silently dropped: decoding the truncated record is the same as decoding the whole one. |
| Strokes.PointCodableFrom | DrawingInteractions/LineCodable.swift:110-128 | Reading back the stored sample gives the original sample. |
| Strokes.PointCodableRoundTrip | DrawingInteractions/LineCodable.swift:110-128 | Storing a read-back sample gives back the stored record. |
| Documents.ToStaticCodable | DrawingInteractions/Document.swift:34 | The saved static table has the same ticks and the same number of strokes per tick, each stroke replaced by its column encoding. |
| Documents.ToDynamicCodable | DrawingInteractions/Document.swift:38 | The saved dynamic table has the same ticks and entry counts, and each entry keeps only its sample. |
| Documents.FromStaticCodable | DrawingInteractions/Document.swift:69 | The loaded static table has the same ticks and counts, with each record decoded into a fresh stroke. |
| Documents.FromDynamicCodable | DrawingInteractions/Document.swift:72 | The loaded dynamic table has the same ticks and counts, and each sample is paired with a fresh, empty `Line()`. |
| Documents.Save | DrawingInteractions/Document.swift:30-50 | No movie URL fails with `movieURLNotSet`. Success holds exactly when the URL is set and all three foreign encodings succeed. A failed static or dynamic encoding fails with the encoding error, and a failed bookmark with the bookmark error, each in the order the source tries them. On success the package is a directory of exactly the three named regular files, holding the encoded tables and the bookmark. |
| Documents.Load | DrawingInteractions/Document.swift:52-77 | Non-wrapper contents are ignored without error. A missing member throws `malformedPackage` and changes nothing. The static table, dynamic table and URL are assigned in that order, one change each. A later failure keeps the earlier assignments. A failing decode throws `DecodingFailed` and a failing resolution `BookmarkFailed`. Otherwise the URL assigned is the resolved one, and `movieURLStale` is thrown exactly when the bookmark is stale. |
| Documents.StaticTableRoundTrip | DrawingInteractions/Document.swift:34-69 | Saving and loading the static table keeps every tick and, for each stroke, its committed samples only. |
| Documents.DynamicTableRoundTrip | DrawingInteractions/Document.swift:38-72 | Saving and loading the dynamic table keeps every sample but detaches it from its stroke. |
| Documents.SaveThenLoad | DrawingInteractions/Document.swift:30-77 | When the foreign coders invert each other and the bookmark is fresh, those tables come back, the movie URL is restored, three changes are counted, and no error is thrown. |
| Documents.Document.Contents | DrawingInteractions/Document.swift:30-50 | Without a movie URL it fails with `movieURLNotSet`. A failed table encoding gives the encoding error and a failed bookmark the bookmark error. On success the package holds exactly the three members: the encodings of the current tables and the bookmark of the current URL. |
| Documents.Document.constructor | DrawingInteractions/Document.swift:26-28 | A new document has empty tables, no movie URL and no changes. |
| Documents.Document.SetStaticDrawings | DrawingInteractions/Document.swift:26 | Assigning the static table replaces it and counts one change; nothing else changes. |
| Documents.Document.SetDynamicDrawings | DrawingInteractions/Document.swift:27 | Assigning the dynamic table replaces it and counts one change; nothing else changes. |
| Documents.Document.SetMovieURL | DrawingInteractions/Document.swift:28 | Assigning the movie URL replaces it and counts one change; nothing else changes. |
| Documents.Document.LoadContents | DrawingInteractions/Document.swift:52-77 | The method's assignments and thrown error are exactly those `Load` describes. |
| AnnotationCache.PaintInOrder | DrawingInteractions/Annotations.swift:27-30 | Drawing one more stroke draws it on top of everything drawn before, in order. |
| AnnotationCache.RenderLines | DrawingInteractions/Annotations.swift:27-31 | The render loop clears the context, draws every stroke in order and makes an image of the result. |
| AnnotationCache.DrawingAt | DrawingInteractions/Annotations.swift:22-53 | A tick without strokes returns nothing and changes nothing. The strokes never change, and caches only gain entries, only at the tick. An uncached full-frame image is rendered, and a failure returns nothing and stores nothing; the thumbnail likewise, except that its failure leaves the full-frame entry stored. The result exists exactly when both images are cached or render, and is the strokes with both cached images. |
| AnnotationCache.RepeatedLookupIsStable | DrawingInteractions/Annotations.swift:26-52 | After a successful lookup, asking again renders nothing, changes nothing and returns the same result. |
| AnnotationCache.StaleImagesAfterEdit | DrawingInteractions/Annotations.swift:26-52 | The caches are never invalidated: after the strokes at a tick are replaced, a lookup returns the new strokes with the images rendered from the old ones. |
| AnnotationCache.Annotations.constructor | DrawingInteractions/Annotations.swift:18-20 | A new cache has no strokes and no images. |
| AnnotationCache.Annotations.StaticDrawingAt | DrawingInteractions/Annotations.swift:22-53 | The lookup uses the time's value alone; the new caches and the result are exactly those of `DrawingAt`. |
| Media.Compare | DrawingInteractions/VideoView.swift:29 | Comparison of instants as rationals: 0 exactly when the cross products agree, negative exactly when the first is earlier. |
| Media.CompareAtOneTimescale | DrawingInteractions/VideoView.swift:91 | At a single timescale, comparing instants is comparing tick counts, in all three directions. |
| Media.CompareAntisymmetric | DrawingInteractions/VideoView.swift:29 | One time is earlier than another exactly when the other is later. |
| Media.ClampToRange | DrawingInteractions/DocumentViewController.swift:50 | An empty range gives the invalid time, and only an empty range gives a non-numeric time. Otherwise the clamped time lies between the range's start and end. A time inside the range is kept; one before it becomes the start and one after it becomes the end. |
| Media.TruncDiv | DrawingInteractions/VideoTimelineView.swift:81 | The quotient truncates toward zero: the product lies at or below a non-negative dividend, within one divisor, and at or above a negative one, within one divisor. |
| Playback.Initial | DrawingInteractions/VideoView.swift:84-85 | A new view is consistent and idle. It has no seek in flight, none issued or completed, a player rate of 0, and desires `CMTime.zero`. |
| Playback.SeekStarted | DrawingInteractions/VideoView.swift:86-89 | Starting a seek sets the in-progress flag, captures the desired time and issues exactly one seek to it when there is a player; nothing else changes, and the player stays attached or absent. The view stays consistent. |
| Playback.TimeSet | DrawingInteractions/VideoView.swift:23-37 | Without a player nothing changes. An idle view is stopped. The desired time changes only to a different instant. A seek is issued only by an idle view, and only when no seek is in flight. A seek in flight stays in flight. The in-progress flag becomes set exactly when it was set or a seek is issued, so an idle view asked for the instant it already wants stays idle. The seek issued is the one in flight, and the player is kept. Consistency is kept. |
| Playback.SeekFinished | DrawingInteractions/VideoView.swift:89-98 | A completion counts once. Without the view or its delegate nothing else happens, and the flag stays set. A seek that reached the desired time gives the player, if any, the delegate's rate, and clears the flag. One that did not issues one seek to the current desired time, which is then in flight, and keeps the flag. The player is kept. Consistency is kept. |
| Playback.PlayerRateSet | DrawingInteractions/VideoView.swift:92 | Only the player's rate changes, and only when there is a player; consistency is kept. |
| Playback.RequestsWhileSeeking | DrawingInteractions/VideoView.swift:23-37 | Any sequence of time requests while a seek is in flight issues no seek, keeps that seek in flight and leaves the latest request as the desired instant. |
| Playback.LatestRequestWins | DrawingInteractions/VideoView.swift:86-99 | After a burst of requests during a seek, its completion either finds the latest request reached and resumes, or issues exactly one seek, to the latest request; intermediate requests are never sought. |
| Playback.BurstOfRequests | DrawingInteractions/VideoView.swift:23-99 | In the example of requests 5, 9 and 12 on any idle view not already at 5/600, a new view included, 5 is sought at once and 12 is sought after it. 9 is never sought, and playback then resumes at the delegate's rate. |
| Playback.VideoView.constructor | DrawingInteractions/VideoView.swift:84-85 | A new view is in the initial debouncer state. |
| Playback.VideoView.SetTime | DrawingInteractions/VideoView.swift:23-37 | The `time` setter keeps the debouncer consistent and makes exactly the transition `TimeSet`. |
| Playback.VideoView.SeekToDesiredTime | DrawingInteractions/VideoView.swift:86-89 | Starting a seek keeps the debouncer consistent and makes exactly the transition `SeekStarted`. |
| Playback.VideoView.SeekCompleted | DrawingInteractions/VideoView.swift:89-98 | The completion handler keeps the debouncer consistent and makes exactly the transition `SeekFinished`. |
| Playback.VideoView.SetPlayerRate | DrawingInteractions/VideoView.swift:92 | Setting the player's rate changes only the rate, and only when there is a player. |
| Timeline.AnchorBounds | DrawingInteractions/VideoTimelineView.swift:79-81 | The anchor is a multiple of the period within one period of the time. It is at or below a non-negative time and at or above a negative one. |
| Timeline.ProgressionSize | DrawingInteractions/VideoTimelineView.swift:84-90 | The progression has exactly n distinct ticks, all within n periods of its start. |
| Timeline.WindowSize | DrawingInteractions/VideoTimelineView.swift:82-90 | The window has exactly `2 * imageCountOutwards` ticks, from `count` periods before the anchor to before `count` periods after it. |
| Timeline.ProgressionOf | DrawingInteractions/VideoTimelineView.swift:84-90 | The loop building `imageTimesNew` yields exactly the progression from `time0`, one period apart. |
| Timeline.RemoveTimes | DrawingInteractions/VideoTimelineView.swift:92-95 | The eviction loop leaves exactly the old keys not in the removal set, each with its old entry. |
| Timeline.AddPending | DrawingInteractions/VideoTimelineView.swift:97-100 | The insertion loop keeps every old entry and gives every added tick a nil entry, and no other key. |
| Timeline.RetargetImages | DrawingInteractions/VideoTimelineView.swift:92-100 | After both loops the keys are exactly the new window. Kept ticks keep their entries, and new ticks are pending. |
| Timeline.RequestList | DrawingInteractions/VideoTimelineView.swift:102-103 | The generator is asked for each added tick exactly once, at the view's timescale, and for nothing else. |
| Timeline.Retarget | DrawingInteractions/VideoTimelineView.swift:92-100 | The moved window has the new ticks as its keys; ticks kept keep their entry and new ticks are nil. |
| Timeline.ImagesUpdated | DrawingInteractions/VideoTimelineView.swift:76-110 | Without a generator nothing changes and nothing is requested. With one, only the images and the display period change, and consistency is kept. |
| Timeline.WindowMoved | DrawingInteractions/VideoTimelineView.swift:76-110 | With a generator, the period becomes the timescale and the entries are exactly the window's ticks. Kept entries keep their images, and the requested ticks are exactly the new entries, each pending. |
| Timeline.TimeSet | DrawingInteractions/VideoTimelineView.swift:31-36 | Setting the time moves the window onto the new time: its entries are the new window, and the requests are the window minus the old entries. Without a generator only the time changes. |
| Timeline.ImageStored | DrawingInteractions/VideoTimelineView.swift:104-107 | A generated image is stored at its requested tick, whether or not that tick is still in the window. A missing image changes nothing, and no other tick is touched. |
| Timeline.RepeatedUpdateIsQuiet | DrawingInteractions/VideoTimelineView.swift:76-110 | Updating again at the same time keeps every entry and requests nothing. |
| Timeline.UpdatedWindowSize | DrawingInteractions/VideoTimelineView.swift:82-100 | After an update the view holds exactly `2 * imageCountOutwards` entries. |
| Timeline.LateImageResurrectsEvictedTick | DrawingInteractions/VideoTimelineView.swift:104-107 | An image arriving for an evicted tick puts that tick back outside the window. |
| Timeline.WindowExample | DrawingInteractions/VideoTimelineView.swift:79-100 | At 1200 ticks of 600 with three images outwards the window is {-600, 0, 600, 1200, 1800, 2400}. Moving to 1800 evicts only -600 and adds only 3000. |
| Timeline.VideoTimelineView.constructor | DrawingInteractions/VideoTimelineView.swift:40-44 | A new view has an invalid time, no generator, no images, a period of 1 and one image outwards. |
| Timeline.VideoTimelineView.SetAsset | DrawingInteractions/VideoTimelineView.swift:20-28 | Setting the asset installs a generator, takes the count outwards, sets the time to the track's start and updates the images; the requests are the ticks new to the window. |
| Timeline.VideoTimelineView.SetTime | DrawingInteractions/VideoTimelineView.swift:31-36 | Setting the time updates the images as `TimeSet` says, and returns exactly the requests for the new ticks. |
| Timeline.VideoTimelineView.UpdateImages | DrawingInteractions/VideoTimelineView.swift:76-110 | The view's new state and the generator requests are exactly those of `ImagesUpdated`. |
| Timeline.VideoTimelineView.ImageGenerated | DrawingInteractions/VideoTimelineView.swift:104-107 | The completion handler stores the image as `ImageStored` says. |
| DocumentScreen.Recorded | DrawingInteractions/DocumentViewController.swift:63-71 | Leaving a tick with an active stroke appends its latest sample at that tick: the entry is created if absent, and earlier samples are kept. With no stroke nothing changes, and other ticks are never touched. |
| DocumentScreen.FocusWeight | DrawingInteractions/DocumentViewController.swift:99 | The focus amount is 1 at the current tick and strictly between 0 and 1 elsewhere in the half-second window. |
| DocumentScreen.FocusList | DrawingInteractions/DocumentViewController.swift:96-101 | One focus point per tick of the iteration order, in that order. Each has that tick's weight and the points of its samples. |
| DocumentScreen.EnumerationSize | DrawingInteractions/DocumentViewController.swift:97-98 | Iterating the filtered dictionary visits each tick once, so there is one focus point per focused tick. |
| DocumentScreen.LinesUpdated | DrawingInteractions/DocumentViewController.swift:114-119 | With finished lines on the canvas they become the static strokes at the current tick, counted as one change. That tick is added if missing, and no tick is removed or otherwise touched. With none nothing happens. |
| DocumentScreen.Leave | DrawingInteractions/DocumentViewController.swift:60-84 | The `willSet` only records the active stroke's sample and counts one change for it. It clears the focus points and finished lines. The time, timeline and active strokes are untouched. |
| DocumentScreen.Arrive | DrawingInteractions/DocumentViewController.swift:85-103 | The `didSet` moves the timeline and loads the tick's static strokes, if any, counting one change for a non-empty entry without changing the table. It appends one focus point per focused tick in iteration order. |
| DocumentScreen.Transition | DrawingInteractions/DocumentViewController.swift:59-104 | Assigning `time`: when the instant differs, or on the first run, the sample is recorded at the old tick and the timeline moves. The finished lines become the new tick's strokes, or none, and the focus points are those of the new window. The static table is kept, and the change count rises by one for a recorded sample and one for loaded strokes. Otherwise only the time changes. |
| DocumentScreen.FocusWindowExample | DrawingInteractions/DocumentViewController.swift:96-99 | At 1000 ticks of 600, ticks 700 and 1300 lie on the window's bounds and are excluded, while 1000 and 1150 are included. 1150 has weight 0.5 and 1000 has weight 1. |
| DocumentScreen.NoFocusAtTimescaleOne | DrawingInteractions/DocumentViewController.swift:96-97 | At timescale 1 the half-second span is 0 ticks, so no tick is ever focused. |
| DocumentScreen.TransitionGuardExamples | DrawingInteractions/DocumentViewController.swift:61 | The first-run test acts from `CMTime.zero` even to the same instant. Two spellings of one instant at another timescale do not act, and a different instant does. Line 86 applies the same test. |
| DocumentScreen.VisitKeepsStrokes | DrawingInteractions/DocumentViewController.swift:77-94 | Stepping onto a tick with strokes shows them. Stepping straight back shows the strokes of the tick returned to, or none. The document keeps its static and dynamic tables throughout. |
| DocumentScreen.FocusPointsFor | DrawingInteractions/DocumentViewController.swift:96-101 | The focus loop visits the filtered ticks in some order covering each exactly once, and builds exactly `FocusList` for that order. |
| DocumentScreen.DocumentViewController.constructor | DrawingInteractions/DocumentViewController.swift:40-59 | A new controller plays at rate 1 unpaused, at `CMTime.zero`, with a desired time of zero and zero bounds. |
| DocumentScreen.DocumentViewController.LinesDidUpdate | DrawingInteractions/DocumentViewController.swift:114-119 | `linesDidUpdate()` makes exactly the transition `LinesUpdated`. |
| DocumentScreen.DocumentViewController.SetFinishedLines | DrawingInteractions/NotifyingCanvasView.swift:11-16 | Assigning the canvas's finished lines stores them, then runs `linesDidUpdate()`. |
| DocumentScreen.DocumentViewController.WillSetTime | DrawingInteractions/DocumentViewController.swift:60-84 | The `willSet` makes exactly the transition `Leave`. |
| DocumentScreen.DocumentViewController.DidSetTime | DrawingInteractions/DocumentViewController.swift:85-103 | The `didSet` makes exactly the transition `Arrive`, for an order that enumerates the focused ticks. It returns the timeline's requests for the ticks new to its window. |
| DocumentScreen.DocumentViewController.FocusLoop | DrawingInteractions/DocumentViewController.swift:96-101 | The focus points gain exactly `FocusList` for an order enumerating the focused ticks; nothing else on the canvas changes. |
| DocumentScreen.DocumentViewController.SetTime | DrawingInteractions/DocumentViewController.swift:59-104 | Assigning `time` makes exactly the transition `Transition`. When it acts, the focus order enumerates the focused ticks and the timeline's requests are returned; otherwise nothing is requested. The rate, desired time and bounds are untouched. |
| DocumentScreen.DocumentViewController.SetDesiredTime | DrawingInteractions/DocumentViewController.swift:48-53 | Assigning `desiredTime` stores it. It then assigns the current time clamped into the bounds, making that transition, and sets the video view's time to the unclamped desired time. The rate and the bounds are unchanged. Requires non-empty bounds (see Left out). |
| DocumentScreen.DocumentViewController.SetRate | DrawingInteractions/DocumentViewController.swift:40-44 | Assigning `rate` stores it and gives the player 0 when paused and the rate otherwise. The time, desired time, bounds, document, canvas and timeline are unchanged. |
| DocumentScreen.DocumentViewController.SetTimeBounds | DrawingInteractions/DocumentViewController.swift:276 | Taking the track's time range as the bounds changes only the bounds. The time, desired time, rate, document, canvas and timeline are unchanged. |

## Left out

- Floating-point values (`CGFloat`, `TimeInterval`, `Float`) are modelled as exact reals, so rounding in the focus amount is not modelled.
- Int64 overflow in tick arithmetic (anchor, window bounds, `CMTimeCompare`'s products) is not modelled; integers are unbounded.
- DocumentScreen.DocumentViewController.SetTime: requires numeric (positive-timescale) times; invalid or indefinite `CMTime`s are not modelled.
- DocumentScreen.DocumentViewController.SetDesiredTime: requires a numeric desired time and valid bounds, for the same reason. It also requires non-empty bounds. With empty bounds, such as the initial `CMTimeRange.zero` before the video track's range is taken (DocumentViewController.swift:106), `CMTimeClampToRange` gives an invalid time. The app then assigns that invalid time to `time`, and the model's controller does not represent invalid times. `Media.ClampToRange` itself does model the empty case.
- DocumentScreen.DocumentViewController.WillSetTime: requires the active stroke to have a sample, because the source force-unwraps `points.last!` there.
- Playback.VideoView.SetTime: requires a numeric time, for the same reason as the controller.
- Playback: the `time` getter, the `player` setter and its periodic time observer, which emits player time to the delegate, are not modelled. They need the AVPlayer, a clock and rescaling with `CMTimeConvertScale`.
- Playback.SeekFinished: a deallocated view or delegate (the `weak` captures) is modelled as an absent delegate rate. The seek's `finished` flag is ignored, as in the source.
- The AVPlayer's actual seeking, the image generator's decoding, JSON coding, bookmark creation and resolution, and Core Graphics drawing are foreign. They are parameters, or recorded as the issued seeks and returned requests.
- Asynchronous delivery of seek and generator completions is modelled as separate event methods; interleavings with other threads are not modelled.
- Timeline.VideoTimelineView.SetAsset: the count of images outwards is a parameter, because the source derives it from view bounds and the track's aspect ratio.
- `VideoTimelineView.draw(_:)`, `setNeedsDisplay()` and the display size are not modelled; they are rendering only.
- `DocumentViewController.linesDidUpdate()` calls `timelineView.drawingsDidChange()`, which is not defined in this version of `VideoTimelineView.swift`; that call is not modelled.
- `NotifyingCanvasView`'s delegate is typed `ViewController`; the model routes the hook to `DocumentViewController`, which declares `linesDidUpdate()`. `ViewController.swift` is not part of this model.
- Strokes.Line: in the app `Line` is a class. The static table, the dynamic entries and the canvas's `lines` and `finishedLines` share stroke objects by reference. The model makes a stroke an immutable value, so aliasing and object identity are not captured. Neither is a later in-place change to a stroke becoming visible through every table holding it.
- Documents.FromDynamicCodable: each loaded sample gets its own fresh stroke value. Whether loaded samples share one `Line()` object or have distinct ones cannot be expressed without identity.
- DocumentScreen.Leave and DocumentScreen.Arrive record and load strokes by value. A stroke recorded into the dynamic table while it is still being drawn does not follow later changes to it on the canvas.
- Focus points keep the samples' `LinePoint`s rather than their `preciseLocation` projections, which need UIKit.
- DocumentScreen.FocusPointsFor: the source appends each focus point to the canvas inside the loop; the model builds the list and appends it once. Nothing reads the canvas in between, so the result is the same.
- `scrub(to:withDuration:)`, touch handling, view lifecycle, document opening and the alerts of `DocumentViewController` are not modelled; they are UI and timers.
- The lazily built bitmap contexts, frame sizes and screen scale of `Annotations` are not modelled; the renderer parameter stands for them.
- The movie file's name (`Settings.filenameMovie`) is not defined in `Settings.swift`; the model uses a name distinct from the other two members.
- `UIDocument`'s change counting is modelled as a counter that each assignment to a stored field increments.
