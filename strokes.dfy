/**
 * Strokes and their codec. A `Line` is an ordered sequence of committed samples plus
 * the samples still pending; `LineCodable` stores a stroke's committed samples as seven
 * parallel columns, and `LinePointCodable` stores one sample field by field.
 */
module Strokes {

  /** A location on the canvas. */
  datatype Point = Point(x: real, y: real)

  /** One stylus sample (floating-point fields are modelled as `real`). */
  datatype LinePoint = LinePoint(
    sequenceNumber: int,
    timestamp: real,
    force: real,
    location: Point,
    altitudeAngle: real,
    azimuthAngle: real)

  /** A stroke: its committed samples, and the samples still pending. */
  datatype Line = Line(committedPoints: seq<LinePoint>, points: seq<LinePoint>)

  /** `Line()`: a fresh stroke with no samples. */
  const EmptyLine: Line := Line([], [])

  /** `LineCodable`: one column per sample field. */
  datatype LineCodable = LineCodable(
    sequenceNumber: seq<int>,
    timestamp: seq<real>,
    force: seq<real>,
    x: seq<real>,
    y: seq<real>,
    altitudeAngle: seq<real>,
    azimuthAngle: seq<real>)

  /** `LinePointCodable`: one sample, field by field. */
  datatype LinePointCodable = LinePointCodable(
    sequenceNumber: int,
    timestamp: real,
    force: real,
    x: real,
    y: real,
    altitudeAngle: real,
    azimuthAngle: real)

  const NoColumns: LineCodable := LineCodable([], [], [], [], [], [], [])

  /** The length of the shortest column: how many samples can be read back. */
  function MinLength(c: LineCodable): nat {
    Min(Min(Min(|c.sequenceNumber|, |c.timestamp|), Min(|c.force|, |c.x|)),
        Min(Min(|c.y|, |c.altitudeAngle|), |c.azimuthAngle|))
  }

  function Min(a: nat, b: nat): nat {
    if a <= b then a else b
  }

  /** All seven columns have the same length. */
  predicate EqualLengths(c: LineCodable) {
    var n := |c.sequenceNumber|;
    |c.timestamp| == n && |c.force| == n && |c.x| == n && |c.y| == n
    && |c.altitudeAngle| == n && |c.azimuthAngle| == n
  }

  /** Row `i` of the columns holds exactly the fields of `p`, with x and y from its location. */
  predicate RowIs(c: LineCodable, i: nat, p: LinePoint) {
    && i < MinLength(c)
    && c.sequenceNumber[i] == p.sequenceNumber
    && c.timestamp[i] == p.timestamp
    && c.force[i] == p.force
    && c.x[i] == p.location.x
    && c.y[i] == p.location.y
    && c.altitudeAngle[i] == p.altitudeAngle
    && c.azimuthAngle[i] == p.azimuthAngle
  }

  /** The columns with one more row, holding the fields of `p`. */
  function Append(c: LineCodable, p: LinePoint): LineCodable {
    LineCodable(
      c.sequenceNumber + [p.sequenceNumber],
      c.timestamp + [p.timestamp],
      c.force + [p.force],
      c.x + [p.location.x],
      c.y + [p.location.y],
      c.altitudeAngle + [p.altitudeAngle],
      c.azimuthAngle + [p.azimuthAngle])
  }

  /** Every column cut to its first `n` entries. */
  function Prefix(c: LineCodable, n: nat): LineCodable
    requires n <= MinLength(c)
  {
    LineCodable(
      c.sequenceNumber[..n], c.timestamp[..n], c.force[..n], c.x[..n], c.y[..n],
      c.altitudeAngle[..n], c.azimuthAngle[..n])
  }

  /**
   * The columns of a sequence of samples: seven columns as long as `points`, whose
   * row i holds the fields of `points[i]`.
   */
  function EncodePoints(points: seq<LinePoint>): (c: LineCodable)
    ensures EqualLengths(c) && |c.sequenceNumber| == |points|
    ensures forall i :: 0 <= i < |points| ==> RowIs(c, i, points[i])
    decreases |points|
  {
    if points == [] then NoColumns
    else Append(EncodePoints(points[..|points| - 1]), points[|points| - 1])
  }

  /** The first row of the columns, read back as a sample. */
  function Head(c: LineCodable): (p: LinePoint)
    requires MinLength(c) > 0
  {
    LinePoint(c.sequenceNumber[0], c.timestamp[0], c.force[0], Point(c.x[0], c.y[0]),
              c.altitudeAngle[0], c.azimuthAngle[0])
  }

  /** The columns without their first row. */
  function Tail(c: LineCodable): (t: LineCodable)
    requires MinLength(c) > 0
    ensures MinLength(t) == MinLength(c) - 1 && |t.sequenceNumber| == |c.sequenceNumber| - 1
  {
    LineCodable(c.sequenceNumber[1..], c.timestamp[1..], c.force[1..], c.x[1..], c.y[1..],
                c.altitudeAngle[1..], c.azimuthAngle[1..])
  }

  /**
   * The samples zipped back out of the columns, stopping at the end of the shortest
   * column: exactly `MinLength(c)` samples, sample i built from row i. Surplus entries of
   * longer columns are dropped, and decoding never fails.
   */
  function DecodeColumns(c: LineCodable): (points: seq<LinePoint>)
    ensures |points| == MinLength(c)
    ensures forall i :: 0 <= i < |points| ==> RowIs(c, i, points[i])
    decreases |c.sequenceNumber|
  {
    if MinLength(c) == 0 then []
    else [Head(c)] + DecodeColumns(Tail(c))
  }

  /** What `LineCodable(from: line)` stores: the columns of the committed samples only. */
  function EncodedLine(line: Line): LineCodable {
    EncodePoints(line.committedPoints)
  }

  /** What `line()` returns: a fresh `Line()` whose committed samples are the decoded ones. */
  function DecodedLine(c: LineCodable): Line {
    Line(DecodeColumns(c), [])
  }

  /** `LineCodable(from: line)`: appends each committed sample's fields to seven columns. */
  method LineCodableFrom(line: Line) returns (c: LineCodable)
    ensures c == EncodedLine(line)
  {
    var sequenceNumber: seq<int> := [];
    var timestamp: seq<real> := [];
    var force: seq<real> := [];
    var x: seq<real> := [];
    var y: seq<real> := [];
    var altitudeAngle: seq<real> := [];
    var azimuthAngle: seq<real> := [];
    var points := line.committedPoints;
    for k := 0 to |points|
      invariant LineCodable(sequenceNumber, timestamp, force, x, y, altitudeAngle, azimuthAngle)
                == EncodePoints(points[..k])
    {
      var point := points[k];
      assert points[..k + 1][..k] == points[..k];
      sequenceNumber := sequenceNumber + [point.sequenceNumber];
      timestamp := timestamp + [point.timestamp];
      force := force + [point.force];
      x := x + [point.location.x];
      y := y + [point.location.y];
      altitudeAngle := altitudeAngle + [point.altitudeAngle];
      azimuthAngle := azimuthAngle + [point.azimuthAngle];
    }
    assert points[..|points|] == points;
    c := LineCodable(sequenceNumber, timestamp, force, x, y, altitudeAngle, azimuthAngle);
  }

  /**
   * `line()`: drains the seven columns in lockstep until one runs out, then returns a
   * fresh `Line()` holding the samples as its committed points.
   */
  method ToLine(c: LineCodable) returns (line: Line)
    ensures line == DecodedLine(c)
  {
    var points: seq<LinePoint> := [];
    var i := 0;
    while i < |c.sequenceNumber| && i < |c.timestamp| && i < |c.force| && i < |c.x|
          && i < |c.y| && i < |c.altitudeAngle| && i < |c.azimuthAngle|
      invariant i <= MinLength(c) && |points| == i
      invariant forall j :: 0 <= j < i ==> RowIs(c, j, points[j])
      decreases MinLength(c) - i
    {
      var point := LinePoint(c.sequenceNumber[i], c.timestamp[i], c.force[i],
                             Point(c.x[i], c.y[i]), c.altitudeAngle[i], c.azimuthAngle[i]);
      points := points + [point];
      i := i + 1;
    }
    var decoded := DecodeColumns(c);
    assert |decoded| == |points|;
    forall j | 0 <= j < |points| ensures points[j] == decoded[j] {
      RowDetermines(c, j, points[j], decoded[j]);
    }
    line := Line(points, []);
  }

  /** A row determines its sample. */
  lemma RowDetermines(c: LineCodable, i: nat, p: LinePoint, q: LinePoint)
    requires RowIs(c, i, p) && RowIs(c, i, q)
    ensures p == q
  {
  }

  /** Decoding the encoding of a stroke's committed samples gives them back field for field. */
  lemma RoundTrip(line: Line)
    ensures DecodedLine(EncodedLine(line)).committedPoints == line.committedPoints
    ensures DecodedLine(EncodedLine(line)).points == []
  {
    var pts := line.committedPoints;
    var back := DecodeColumns(EncodePoints(pts));
    forall i | 0 <= i < |pts| ensures back[i] == pts[i] {
      RowDetermines(EncodePoints(pts), i, back[i], pts[i]);
    }
  }

  /**
   * Re-encoding what was decoded gives the columns cut to the shortest one; for columns of
   * equal length that is the record itself.
   */
  lemma ReEncode(c: LineCodable)
    ensures EncodePoints(DecodeColumns(c)) == Prefix(c, MinLength(c))
    ensures EqualLengths(c) ==> EncodePoints(DecodeColumns(c)) == c
  {
    ReEncodePrefix(c);
    if EqualLengths(c) {
      assert MinLength(c) == |c.sequenceNumber|;
      ColumnsDetermined(Prefix(c, MinLength(c)), c);
    }
  }

  lemma ReEncodePrefix(c: LineCodable)
    ensures EncodePoints(DecodeColumns(c)) == Prefix(c, MinLength(c))
  {
    var n := MinLength(c);
    var d := DecodeColumns(c);
    var e := EncodePoints(d);
    var p := Prefix(c, n);
    forall i | 0 <= i < n
      ensures e.sequenceNumber[i] == p.sequenceNumber[i] && e.timestamp[i] == p.timestamp[i]
      ensures e.force[i] == p.force[i] && e.x[i] == p.x[i] && e.y[i] == p.y[i]
      ensures e.altitudeAngle[i] == p.altitudeAngle[i] && e.azimuthAngle[i] == p.azimuthAngle[i]
    {
      assert RowIs(e, i, d[i]) && RowIs(c, i, d[i]);
    }
    ColumnsDetermined(e, p);
  }

  /** Columns of equal lengths that agree row by row are equal. */
  lemma ColumnsDetermined(a: LineCodable, b: LineCodable)
    requires EqualLengths(a) && EqualLengths(b) && |a.sequenceNumber| == |b.sequenceNumber|
    requires forall i :: 0 <= i < |a.sequenceNumber| ==>
               && a.sequenceNumber[i] == b.sequenceNumber[i] && a.timestamp[i] == b.timestamp[i]
               && a.force[i] == b.force[i] && a.x[i] == b.x[i] && a.y[i] == b.y[i]
               && a.altitudeAngle[i] == b.altitudeAngle[i] && a.azimuthAngle[i] == b.azimuthAngle[i]
    ensures a == b
  {
    assert a.sequenceNumber == b.sequenceNumber;
    assert a.timestamp == b.timestamp;
    assert a.force == b.force;
    assert a.x == b.x;
    assert a.y == b.y;
    assert a.altitudeAngle == b.altitudeAngle;
    assert a.azimuthAngle == b.azimuthAngle;
  }

  /** Only the first `MinLength(c)` entries of each column matter to the decoder. */
  lemma DecodeIgnoresSurplus(c: LineCodable)
    ensures DecodeColumns(Prefix(c, MinLength(c))) == DecodeColumns(c)
  {
    var n := MinLength(c);
    var p := Prefix(c, n);
    assert MinLength(p) == n;
    var a, b := DecodeColumns(p), DecodeColumns(c);
    forall i | 0 <= i < n ensures a[i] == b[i] {
      assert RowIs(c, i, a[i]);
      RowDetermines(c, i, a[i], b[i]);
    }
  }

  /** `LinePointCodable(from: p)`: the seven fields of `p`, x and y from its location. */
  function PointCodableFrom(p: LinePoint): (q: LinePointCodable)
    ensures ToLinePoint(q) == p
  {
    LinePointCodable(p.sequenceNumber, p.timestamp, p.force, p.location.x, p.location.y,
                     p.altitudeAngle, p.azimuthAngle)
  }

  /** `linePoint()`: the sample with the seven stored fields. */
  function ToLinePoint(q: LinePointCodable): LinePoint {
    LinePoint(q.sequenceNumber, q.timestamp, q.force, Point(q.x, q.y), q.altitudeAngle,
              q.azimuthAngle)
  }

  /** Storing a decoded sample gives back the stored record. */
  lemma PointCodableRoundTrip(q: LinePointCodable)
    ensures PointCodableFrom(ToLinePoint(q)) == q
  {
  }
}
