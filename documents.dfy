/**
 * The annotation document: the static and dynamic drawing tables and the movie
 * reference, saved as a package of three files and loaded back from one. JSON coding,
 * file wrappers' storage and bookmark resolution are foreign; they arrive as a
 * `Foreign` record of functions that may fail.
 */
module Documents {
  import opened Wrappers
  import opened Strokes

  /** A stroke still in progress at a tick, with its latest sample. */
  datatype DynamicSample = DynamicSample(line: Line, point: LinePoint)

  /** Strokes completed at each tick. */
  type StaticDrawings = map<int, seq<Line>>

  /** Samples of strokes still active at each tick. */
  type DynamicDrawings = map<int, seq<DynamicSample>>

  type StaticCodable = map<int, seq<LineCodable>>
  type DynamicCodable = map<int, seq<LinePointCodable>>

  type Data = seq<bv8>

  /** A movie location; resolving and bookmarking it is foreign. */
  datatype URL = URL(location: string)

  /**
   * The three `DocumentError` cases, and the errors thrown by the foreign JSON encoder,
   * JSON decoder and bookmark calls.
   */
  datatype Error = MalformedPackage | MovieURLStale | MovieURLNotSet
                 | EncodingFailed | DecodingFailed | BookmarkFailed

  /** A `FileWrapper`: a regular file, or a directory of named members. */
  datatype FileWrapper = RegularFile(contents: Data) | Directory(members: map<string, FileWrapper>)

  /** What `load` is handed: a file wrapper, or something else. */
  datatype Contents = NotAWrapper | Wrapper(wrapper: FileWrapper)

  /** The foreign calls, each of which can fail (resolution also reports staleness). */
  datatype Foreign = Foreign(
    encodeStatic: StaticCodable -> Option<Data>,
    encodeDynamic: DynamicCodable -> Option<Data>,
    bookmarkData: URL -> Option<Data>,
    decodeStatic: Data -> Option<StaticCodable>,
    decodeDynamic: Data -> Option<DynamicCodable>,
    resolveBookmark: Data -> Option<(URL, bool)>)

  const FilenameStaticDrawings: string := "staticDrawings.json"
  const FilenameDynamicDrawings: string := "dynamicDrawings.json"
  /** Not defined in Settings.swift; any name distinct from the other two will do. */
  const FilenameMovie: string := "movie"

  /** `docWrapper.fileWrappers?[name]?.regularFileContents`. */
  function MemberContents(w: FileWrapper, name: string): Option<Data> {
    if w.Directory? && name in w.members && w.members[name].RegularFile?
    then Some(w.members[name].contents)
    else None
  }

  /** The saved static table: the same ticks, each stroke replaced by its `LineCodable`. */
  function ToStaticCodable(m: StaticDrawings): (r: StaticCodable)
    ensures r.Keys == m.Keys
    ensures forall k :: k in r ==> |r[k]| == |m[k]|
    ensures forall k, i :: k in r && 0 <= i < |r[k]| ==> r[k][i] == EncodedLine(m[k][i])
  {
    map k | k in m :: seq(|m[k]|, i requires 0 <= i < |m[k]| => EncodedLine(m[k][i]))
  }

  /** The saved dynamic table: the same ticks, each entry reduced to its sample. */
  function ToDynamicCodable(m: DynamicDrawings): (r: DynamicCodable)
    ensures r.Keys == m.Keys
    ensures forall k :: k in r ==> |r[k]| == |m[k]|
    ensures forall k, i :: k in r && 0 <= i < |r[k]| ==> ToLinePoint(r[k][i]) == m[k][i].point
  {
    map k | k in m :: seq(|m[k]|, i requires 0 <= i < |m[k]| => PointCodableFrom(m[k][i].point))
  }

  /** The loaded static table: each record decoded into a fresh stroke. */
  function FromStaticCodable(m: StaticCodable): (r: StaticDrawings)
    ensures r.Keys == m.Keys
    ensures forall k :: k in r ==> |r[k]| == |m[k]|
    ensures forall k, i :: k in r && 0 <= i < |r[k]| ==> r[k][i] == DecodedLine(m[k][i])
  {
    map k | k in m :: seq(|m[k]|, i requires 0 <= i < |m[k]| => DecodedLine(m[k][i]))
  }

  /** The loaded dynamic table: each sample paired with a fresh, empty `Line()`. */
  function FromDynamicCodable(m: DynamicCodable): (r: DynamicDrawings)
    ensures r.Keys == m.Keys
    ensures forall k :: k in r ==> |r[k]| == |m[k]|
    ensures forall k, i :: k in r && 0 <= i < |r[k]| ==>
              r[k][i].line == EmptyLine && r[k][i].point == ToLinePoint(m[k][i])
  {
    map k | k in m :: seq(|m[k]|, i requires 0 <= i < |m[k]| => DynamicSample(EmptyLine, ToLinePoint(m[k][i])))
  }

  /** The stored fields of a document, and its change count. */
  datatype DocState = DocState(
    staticDrawings: StaticDrawings,
    dynamicDrawings: DynamicDrawings,
    movieURL: Option<URL>,
    changeCount: nat)

  /**
   * `contents(forType:)`: with no movie URL it throws `movieURLNotSet` before encoding
   * anything; otherwise it encodes the static table, the dynamic table and the bookmark, in
   * that order, and packages them as a directory of exactly three regular files.
   */
  function Save(s: DocState, f: Foreign): (r: Result<FileWrapper, Error>)
    ensures s.movieURL.None? ==> r == Failure(MovieURLNotSet)
    ensures r.Success? <==>
              && s.movieURL.Some?
              && f.encodeStatic(ToStaticCodable(s.staticDrawings)).Some?
              && f.encodeDynamic(ToDynamicCodable(s.dynamicDrawings)).Some?
              && f.bookmarkData(s.movieURL.value).Some?
    ensures s.movieURL.Some? && f.encodeStatic(ToStaticCodable(s.staticDrawings)).None? ==>
              r == Failure(EncodingFailed)
    ensures && s.movieURL.Some? && f.encodeStatic(ToStaticCodable(s.staticDrawings)).Some?
            && f.encodeDynamic(ToDynamicCodable(s.dynamicDrawings)).None? ==>
              r == Failure(EncodingFailed)
    ensures && s.movieURL.Some? && f.encodeStatic(ToStaticCodable(s.staticDrawings)).Some?
            && f.encodeDynamic(ToDynamicCodable(s.dynamicDrawings)).Some?
            && f.bookmarkData(s.movieURL.value).None? ==>
              r == Failure(BookmarkFailed)
    ensures r.Success? ==>
              && r.value.Directory?
              && r.value.members.Keys == {FilenameStaticDrawings, FilenameDynamicDrawings, FilenameMovie}
              && MemberContents(r.value, FilenameStaticDrawings) == f.encodeStatic(ToStaticCodable(s.staticDrawings))
              && MemberContents(r.value, FilenameDynamicDrawings) == f.encodeDynamic(ToDynamicCodable(s.dynamicDrawings))
              && MemberContents(r.value, FilenameMovie) == f.bookmarkData(s.movieURL.value)
  {
    match s.movieURL
    case None => Failure(MovieURLNotSet)
    case Some(url) =>
      match f.encodeStatic(ToStaticCodable(s.staticDrawings))
      case None => Failure(EncodingFailed)
      case Some(staticData) =>
        match f.encodeDynamic(ToDynamicCodable(s.dynamicDrawings))
        case None => Failure(EncodingFailed)
        case Some(dynamicData) =>
          match f.bookmarkData(url)
          case None => Failure(BookmarkFailed)
          case Some(movieData) =>
            Success(Directory(map[
              FilenameStaticDrawings := RegularFile(staticData),
              FilenameDynamicDrawings := RegularFile(dynamicData),
              FilenameMovie := RegularFile(movieData)]))
  }

  /** All three members are present as regular files. */
  predicate HasAllMembers(w: FileWrapper) {
    && MemberContents(w, FilenameStaticDrawings).Some?
    && MemberContents(w, FilenameDynamicDrawings).Some?
    && MemberContents(w, FilenameMovie).Some?
  }

  /** The decoded static member of a complete package. */
  function StaticDecoded(w: FileWrapper, f: Foreign): Option<StaticCodable>
    requires HasAllMembers(w)
  {
    f.decodeStatic(MemberContents(w, FilenameStaticDrawings).value)
  }

  /** The decoded dynamic member of a complete package. */
  function DynamicDecoded(w: FileWrapper, f: Foreign): Option<DynamicCodable>
    requires HasAllMembers(w)
  {
    f.decodeDynamic(MemberContents(w, FilenameDynamicDrawings).value)
  }

  /** The resolved movie bookmark of a complete package, with its staleness. */
  function BookmarkResolved(w: FileWrapper, f: Foreign): Option<(URL, bool)>
    requires HasAllMembers(w)
  {
    f.resolveBookmark(MemberContents(w, FilenameMovie).value)
  }

  /** The document after a load, and the error the load threw, if any. */
  datatype LoadOutcome = LoadOutcome(state: DocState, error: Option<Error>)

  /**
   * `load(fromContents:ofType:)`. Something other than a wrapper is ignored without
   * error; a missing member throws `malformedPackage` before anything is assigned.
   * Otherwise the static table, the dynamic table and the movie URL are decoded and
   * assigned in that order, each assignment counting as one change; a later failure
   * throws but leaves the earlier assignments in place.
   */
  function Load(s: DocState, contents: Contents, f: Foreign): (out: LoadOutcome)
    ensures contents.NotAWrapper? ==> out == LoadOutcome(s, None)
    ensures contents.Wrapper? && !HasAllMembers(contents.wrapper) ==>
              out == LoadOutcome(s, Some(MalformedPackage))
    ensures out.error.None? ==> out.state.changeCount == s.changeCount || out.state.changeCount == s.changeCount + 3
    ensures out.state.changeCount >= s.changeCount + 1 ==>
              && contents.Wrapper?
              && var sc := f.decodeStatic(MemberContents(contents.wrapper, FilenameStaticDrawings).value);
              && sc.Some? && out.state.staticDrawings == FromStaticCodable(sc.value)
    ensures out.state.changeCount >= s.changeCount + 2 ==>
              && contents.Wrapper?
              && var dc := f.decodeDynamic(MemberContents(contents.wrapper, FilenameDynamicDrawings).value);
              && dc.Some? && out.state.dynamicDrawings == FromDynamicCodable(dc.value)
    ensures out.state.changeCount <= s.changeCount + 3
    ensures out.state.changeCount < s.changeCount + 1 ==> out.state.staticDrawings == s.staticDrawings
    ensures out.state.changeCount < s.changeCount + 2 ==> out.state.dynamicDrawings == s.dynamicDrawings
    ensures out.state.changeCount < s.changeCount + 3 ==> out.state.movieURL == s.movieURL
    ensures out.state.changeCount == s.changeCount + 3 ==>
              out.state.movieURL.Some? && (out.error.Some? <==> out.error == Some(MovieURLStale))
    ensures contents.Wrapper? && HasAllMembers(contents.wrapper)
            && StaticDecoded(contents.wrapper, f).None? ==>
              out == LoadOutcome(s, Some(DecodingFailed))
    ensures contents.Wrapper? && HasAllMembers(contents.wrapper)
            && StaticDecoded(contents.wrapper, f).Some? && DynamicDecoded(contents.wrapper, f).None? ==>
              out == LoadOutcome(s.(staticDrawings := FromStaticCodable(StaticDecoded(contents.wrapper, f).value),
                                    changeCount := s.changeCount + 1),
                                 Some(DecodingFailed))
    ensures contents.Wrapper? && HasAllMembers(contents.wrapper)
            && StaticDecoded(contents.wrapper, f).Some? && DynamicDecoded(contents.wrapper, f).Some? ==>
              && out.state.staticDrawings == FromStaticCodable(StaticDecoded(contents.wrapper, f).value)
              && out.state.dynamicDrawings == FromDynamicCodable(DynamicDecoded(contents.wrapper, f).value)
              && (BookmarkResolved(contents.wrapper, f).None? ==>
                    out.state == s.(staticDrawings := out.state.staticDrawings,
                                    dynamicDrawings := out.state.dynamicDrawings,
                                    changeCount := s.changeCount + 2)
                    && out.error == Some(BookmarkFailed))
              && (BookmarkResolved(contents.wrapper, f).Some? ==>
                    && out.state.movieURL == Some(BookmarkResolved(contents.wrapper, f).value.0)
                    && out.state.changeCount == s.changeCount + 3
                    && out.error == (if BookmarkResolved(contents.wrapper, f).value.1 then Some(MovieURLStale) else None))
  {
    match contents
    case NotAWrapper => LoadOutcome(s, None)
    case Wrapper(w) =>
      if !HasAllMembers(w) then LoadOutcome(s, Some(MalformedPackage))
      else
        match StaticDecoded(w, f)
        case None => LoadOutcome(s, Some(DecodingFailed))
        case Some(sc) =>
          var s1 := s.(staticDrawings := FromStaticCodable(sc), changeCount := s.changeCount + 1);
          match DynamicDecoded(w, f)
          case None => LoadOutcome(s1, Some(DecodingFailed))
          case Some(dc) =>
            var s2 := s1.(dynamicDrawings := FromDynamicCodable(dc), changeCount := s1.changeCount + 1);
            match BookmarkResolved(w, f)
            case None => LoadOutcome(s2, Some(BookmarkFailed))
            case Some((url, isStale)) =>
              var s3 := s2.(movieURL := Some(url), changeCount := s2.changeCount + 1);
              LoadOutcome(s3, if isStale then Some(MovieURLStale) else None)
  }

  /** The static table with every stroke reduced to its committed samples. */
  function CommittedOnly(m: StaticDrawings): (r: StaticDrawings)
    ensures r.Keys == m.Keys
  {
    map k | k in m :: seq(|m[k]|, i requires 0 <= i < |m[k]| => Line(m[k][i].committedPoints, []))
  }

  /** The dynamic table with every sample detached from its stroke. */
  function Detached(m: DynamicDrawings): (r: DynamicDrawings)
    ensures r.Keys == m.Keys
  {
    map k | k in m :: seq(|m[k]|, i requires 0 <= i < |m[k]| => DynamicSample(EmptyLine, m[k][i].point))
  }

  /** Saving and then loading the static table keeps each stroke's committed samples only. */
  lemma StaticTableRoundTrip(m: StaticDrawings)
    ensures FromStaticCodable(ToStaticCodable(m)) == CommittedOnly(m)
  {
    var back := FromStaticCodable(ToStaticCodable(m));
    var want := CommittedOnly(m);
    forall k | k in m ensures back[k] == want[k] {
      forall i | 0 <= i < |m[k]| ensures back[k][i] == want[k][i] {
        RoundTrip(m[k][i]);
      }
    }
  }

  /** Saving and then loading the dynamic table keeps the samples but not the strokes. */
  lemma DynamicTableRoundTrip(m: DynamicDrawings)
    ensures FromDynamicCodable(ToDynamicCodable(m)) == Detached(m)
  {
    var back := FromDynamicCodable(ToDynamicCodable(m));
    var want := Detached(m);
    forall k | k in m ensures back[k] == want[k] {
      assert |back[k]| == |want[k]|;
    }
  }

  /**
   * When the foreign coders invert each other on the data at hand and the bookmark is not
   * stale, loading what was saved restores the movie URL and the committed samples, replaces
   * the strokes of dynamic entries by empty ones, and counts three changes.
   */
  lemma SaveThenLoad(s: DocState, f: Foreign, t: DocState)
    requires Save(s, f).Success?
    requires f.decodeStatic(f.encodeStatic(ToStaticCodable(s.staticDrawings)).value)
             == Some(ToStaticCodable(s.staticDrawings))
    requires f.decodeDynamic(f.encodeDynamic(ToDynamicCodable(s.dynamicDrawings)).value)
             == Some(ToDynamicCodable(s.dynamicDrawings))
    requires f.resolveBookmark(f.bookmarkData(s.movieURL.value).value) == Some((s.movieURL.value, false))
    ensures Load(t, Wrapper(Save(s, f).value), f) ==
            LoadOutcome(DocState(CommittedOnly(s.staticDrawings), Detached(s.dynamicDrawings),
                                 s.movieURL, t.changeCount + 3), None)
  {
    StaticTableRoundTrip(s.staticDrawings);
    DynamicTableRoundTrip(s.dynamicDrawings);
  }

  /**
   * `Document`, a `UIDocument`: the three stored fields, each of whose assignments bumps the
   * change count.
   */
  class Document {
    var staticDrawings: StaticDrawings
    var dynamicDrawings: DynamicDrawings
    var movieURL: Option<URL>
    var changeCount: nat

    ghost function State(): DocState
      reads this
    {
      DocState(staticDrawings, dynamicDrawings, movieURL, changeCount)
    }

    constructor ()
      ensures State() == DocState(map[], map[], None, 0)
    {
      staticDrawings := map[];
      dynamicDrawings := map[];
      movieURL := None;
      changeCount := 0;
    }

    /** Assigning `staticDrawings`: its `didSet` records one change. */
    method SetStaticDrawings(m: StaticDrawings)
      modifies this
      ensures State() == old(State()).(staticDrawings := m, changeCount := old(changeCount) + 1)
    {
      staticDrawings := m;
      changeCount := changeCount + 1;
    }

    /** Assigning `dynamicDrawings`: its `didSet` records one change. */
    method SetDynamicDrawings(m: DynamicDrawings)
      modifies this
      ensures State() == old(State()).(dynamicDrawings := m, changeCount := old(changeCount) + 1)
    {
      dynamicDrawings := m;
      changeCount := changeCount + 1;
    }

    /** Assigning `movieURL`: its `didSet` records one change. */
    method SetMovieURL(u: Option<URL>)
      modifies this
      ensures State() == old(State()).(movieURL := u, changeCount := old(changeCount) + 1)
    {
      movieURL := u;
      changeCount := changeCount + 1;
    }

    /**
     * `contents(forType:)`: the package for the current fields. It fails first of all
     * without a movie URL; on success it holds the encodings of the current tables and the
     * bookmark of the current URL.
     */
    function Contents(f: Foreign): (r: Result<FileWrapper, Error>)
      reads this
      ensures movieURL.None? ==> r == Failure(MovieURLNotSet)
      ensures movieURL.Some? && f.encodeStatic(ToStaticCodable(staticDrawings)).None? ==>
                r == Failure(EncodingFailed)
      ensures && movieURL.Some? && f.encodeStatic(ToStaticCodable(staticDrawings)).Some?
              && f.encodeDynamic(ToDynamicCodable(dynamicDrawings)).None? ==>
                r == Failure(EncodingFailed)
      ensures && movieURL.Some? && f.encodeStatic(ToStaticCodable(staticDrawings)).Some?
              && f.encodeDynamic(ToDynamicCodable(dynamicDrawings)).Some?
              && f.bookmarkData(movieURL.value).None? ==>
                r == Failure(BookmarkFailed)
      ensures r.Success? ==>
                && movieURL.Some?
                && r.value.Directory?
                && r.value.members.Keys == {FilenameStaticDrawings, FilenameDynamicDrawings, FilenameMovie}
                && MemberContents(r.value, FilenameStaticDrawings) == f.encodeStatic(ToStaticCodable(staticDrawings))
                && MemberContents(r.value, FilenameDynamicDrawings) == f.encodeDynamic(ToDynamicCodable(dynamicDrawings))
                && MemberContents(r.value, FilenameMovie) == f.bookmarkData(movieURL.value)
    {
      Save(DocState(staticDrawings, dynamicDrawings, movieURL, changeCount), f)
    }

    /** `load(fromContents:ofType:)`: assigns the decoded fields one by one, as `Load` says. */
    method LoadContents(contents: Contents, f: Foreign) returns (error: Option<Error>)
      modifies this
      ensures LoadOutcome(State(), error) == Load(old(State()), contents, f)
    {
      if contents.NotAWrapper? {
        return None;
      }
      var w := contents.wrapper;
      var staticData := MemberContents(w, FilenameStaticDrawings);
      var dynamicData := MemberContents(w, FilenameDynamicDrawings);
      var movieData := MemberContents(w, FilenameMovie);
      if staticData.None? || dynamicData.None? || movieData.None? {
        return Some(MalformedPackage);
      }
      var staticCodable := f.decodeStatic(staticData.value);
      if staticCodable.None? {
        return Some(DecodingFailed);
      }
      SetStaticDrawings(FromStaticCodable(staticCodable.value));
      var dynamicCodable := f.decodeDynamic(dynamicData.value);
      if dynamicCodable.None? {
        return Some(DecodingFailed);
      }
      SetDynamicDrawings(FromDynamicCodable(dynamicCodable.value));
      var resolved := f.resolveBookmark(movieData.value);
      if resolved.None? {
        return Some(BookmarkFailed);
      }
      SetMovieURL(Some(resolved.value.0));
      if resolved.value.1 {
        return Some(MovieURLStale);
      }
      return None;
    }
  }
}
