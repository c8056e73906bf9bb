/** Range-image projection of imageProjection.cpp: the first point to land in a cell keeps it,
    the filled cells are compacted ring by ring, and the ring arrays determine the image. */
module ImageProjection {
  import opened Basics
  import F = FeatureExtraction

  /** The marker of an empty cell, the largest single-precision number. */
  const FLT_MAX: real := 340282346638528859811704183484516925440.0

  datatype Point = Point(x: real, y: real, z: real, intensity: real)

  /** A point as it comes in: its distance from the sensor, its ring, its relative time, and
      `turn`, the rounded azimuth in columns (minus the rounding of the horizontal angle less
      90 degrees over the column width). */
  datatype RawPoint = RawPoint(p: Point, range: real, ring: int, time: real, turn: int)

  datatype Config = Config(rings: nat, columns: nat, minRange: real, maxRange: real, downsampleRate: int) {
    /** The configuration the code relies on: positive sampling rate, ranges below the marker. */
    predicate Valid() {
      downsampleRate > 0 && maxRange < FLT_MAX
    }
  }

  function Column(c: Config, q: RawPoint): int {
    var columnIdn := q.turn + c.columns / 2;
    if columnIdn >= c.columns then columnIdn - c.columns else columnIdn
  }

  /** A point that passes the range, ring and column tests. */
  predicate Lands(c: Config, q: RawPoint)
    requires c.Valid()
  {
    && c.minRange <= q.range <= c.maxRange
    && 0 <= q.ring < c.rings && q.ring % c.downsampleRate == 0
    && 0 <= Column(c, q) < c.columns
  }

  predicate LandsIn(c: Config, q: RawPoint, row: int, col: int)
    requires c.Valid()
  {
    Lands(c, q) && q.ring == row && Column(c, q) == col
  }

  /** A point lands exactly if its range and ring pass, in the column half a turn on from its azimuth,
      less a whole turn when that is past the last one. */
  lemma LandsInMeaning(c: Config, q: RawPoint, row: int, col: int)
    requires c.Valid()
    ensures LandsIn(c, q, row, col) <==>
      && q.range >= c.minRange && q.range <= c.maxRange
      && row == q.ring && 0 <= row < c.rings && row % c.downsampleRate == 0
      && 0 <= col < c.columns && (q.turn + c.columns / 2 == col || q.turn + c.columns / 2 == col + c.columns)
  {}

  /** No azimuth is lost: the horizontal angle less 90 degrees runs from three quarters of a turn below
      zero to a quarter above, and every such point lands in the column that is half a turn on from it
      around the circle. */
  lemma EveryAzimuthLands(c: Config, q: RawPoint)
    requires c.Valid() && c.minRange <= q.range <= c.maxRange
    requires 0 <= q.ring < c.rings && q.ring % c.downsampleRate == 0
    requires c.columns > 0 && 0 - c.columns as int <= 4 * q.turn <= 3 * c.columns
    ensures LandsIn(c, q, q.ring, (q.turn + c.columns / 2) % c.columns)
  {
    var half := c.columns / 2;
    assert 2 * half <= c.columns <= 2 * half + 1;
    OneTurn(q.turn + half, c.columns);
  }

  lemma OneTurn(h: int, n: nat)
    requires 0 <= h < 2 * n
    ensures h % n == if h < n then h else h - n
  {
    if h >= n {
      assert h == 1 * n + (h - n);
      assert (1 * n + (h - n)) % n == h - n;
    }
  }

  // ---------------------------------------------------------------------------
  // One ring: filled columns and back

  /** The filled columns among the first `k` of a row, left to right. */
  function Columns(row: seq<real>, k: nat): (cols: seq<int>)
    requires k <= |row|
    ensures |cols| <= k
  {
    if k == 0 then []
    else if row[k - 1] != FLT_MAX then Columns(row, k - 1) + [k - 1]
    else Columns(row, k - 1)
  }

  lemma {:induction false} ColumnsInOrder(row: seq<real>, k: nat)
    requires k <= |row|
    ensures var cols := Columns(row, k);
      && (forall a, b :: 0 <= a < b < |cols| ==> cols[a] < cols[b])
      && (forall a :: 0 <= a < |cols| ==> 0 <= cols[a] < k && row[cols[a]] != FLT_MAX)
      && (forall j :: 0 <= j < k && row[j] != FLT_MAX ==> j in cols)
  {
    if k > 0 {
      ColumnsInOrder(row, k - 1);
      var prev, cols := Columns(row, k - 1), Columns(row, k);
      forall j | 0 <= j < k && row[j] != FLT_MAX ensures j in cols {
        if j < k - 1 {
          assert j in prev;
        } else {
          assert cols[|prev|] == j;
        }
      }
    }
  }

  /** Puts ranges back into an empty row. */
  function Rebuild(cols: seq<int>, ranges: seq<real>, width: nat): seq<real>
    requires |cols| == |ranges|
  {
    seq(width, j requires 0 <= j < width => RangeAt(cols, ranges, j))
  }

  function RangeAt(cols: seq<int>, ranges: seq<real>, j: int): real
    requires |cols| == |ranges|
  {
    if cols == [] then FLT_MAX
    else if cols[|cols| - 1] == j then ranges[|cols| - 1]
    else RangeAt(cols[..|cols| - 1], ranges[..|cols| - 1], j)
  }

  function RangesOf(row: seq<real>, cols: seq<int>): seq<real>
    requires forall a :: 0 <= a < |cols| ==> 0 <= cols[a] < |row|
  {
    seq(|cols|, a requires 0 <= a < |cols| => row[cols[a]])
  }

  lemma {:induction false} RangeAtColumn(row: seq<real>, cols: seq<int>, j: int)
    requires 0 <= j < |row|
    requires forall a :: 0 <= a < |cols| ==> 0 <= cols[a] < |row|
    ensures RangeAt(cols, RangesOf(row, cols), j) == if j in cols then row[j] else FLT_MAX
    decreases |cols|
  {
    if cols != [] {
      var front := cols[..|cols| - 1];
      RangeAtColumn(row, front, j);
      assert RangesOf(row, cols)[..|cols| - 1] == RangesOf(row, front);
      assert cols == front + [cols[|cols| - 1]];
    }
  }

  /** A row of the range image is recovered from its columns and ranges. */
  lemma RowRoundTrip(row: seq<real>)
    ensures var cols := Columns(row, |row|);
      && (forall a :: 0 <= a < |cols| ==> 0 <= cols[a] < |row|)
      && Rebuild(cols, RangesOf(row, cols), |row|) == row
  {
    var cols := Columns(row, |row|);
    ColumnsInOrder(row, |row|);
    forall j | 0 <= j < |row| ensures RangeAt(cols, RangesOf(row, cols), j) == row[j] {
      RangeAtColumn(row, cols, j);
    }
  }

  // ---------------------------------------------------------------------------
  // The whole image

  type Image = seq<seq<real>>

  /** How many points precede ring `i` after compaction. */
  function CountBefore(img: Image, i: nat): nat
    requires i <= |img|
  {
    if i == 0 then 0 else CountBefore(img, i - 1) + |Columns(img[i - 1], |img[i - 1]|)|
  }

  lemma {:induction false} CountMonotone(img: Image, i: nat, r: nat)
    requires i <= r <= |img|
    ensures CountBefore(img, i) <= CountBefore(img, r)
    decreases r
  {
    if i < r { CountMonotone(img, i, r - 1); }
  }

  /** The ring bounds, columns and ranges that compaction produces for `img`. */
  ghost predicate IsCompaction(img: Image, start: seq<int>, end: seq<int>, col: seq<int>, range: seq<real>) {
    && |start| == |end| == |img|
    && CountBefore(img, |img|) <= |col| && CountBefore(img, |img|) <= |range|
    && forall i :: 0 <= i < |img| ==> RingCompacted(img, i, start[i], end[i], col, range)
  }

  /** Ring `i` fills the positions from `start - 4` to `end + 5` with its filled columns. */
  ghost predicate RingCompacted(img: Image, i: nat, start: int, end: int, col: seq<int>, range: seq<real>)
    requires i < |img|
  {
    var cols, at := Columns(img[i], |img[i]|), CountBefore(img, i);
    && start == at - 1 + 5 && end == at + |cols| - 1 - 5
    && at + |cols| <= |col| && at + |cols| <= |range|
    && forall a :: 0 <= a < |cols| ==>
         && 0 <= cols[a] < |img[i]|
         && col[at + a] == cols[a] && range[at + a] == img[i][cols[a]]
  }

  /** The image read back from the ring arrays. */
  function RebuildImage(start: seq<int>, end: seq<int>, col: seq<int>, range: seq<real>, width: nat): Image
    requires |start| == |end|
  {
    seq(|start|, i requires 0 <= i < |start| =>
      if 0 <= start[i] - 4 <= end[i] + 6 && end[i] + 6 <= |col| && end[i] + 6 <= |range| then
        Rebuild(col[start[i] - 4..end[i] + 6], range[start[i] - 4..end[i] + 6], width)
      else [])
  }

  lemma RingRoundTrip(img: Image, i: nat, start: int, end: int, col: seq<int>, range: seq<real>)
    requires i < |img| && RingCompacted(img, i, start, end, col, range)
    ensures 0 <= start - 4 <= end + 6 && end + 6 <= |col| && end + 6 <= |range|
    ensures Rebuild(col[start - 4..end + 6], range[start - 4..end + 6], |img[i]|) == img[i]
  {
    var row := img[i];
    var cols, at := Columns(row, |row|), CountBefore(img, i);
    assert col[at..at + |cols|] == cols;
    assert range[at..at + |cols|] == RangesOf(row, cols);
    RowRoundTrip(row);
  }

  /** Nothing of the range image is lost: it is determined by the arrays that are published. */
  lemma ImageRoundTrip(img: Image, start: seq<int>, end: seq<int>, col: seq<int>, range: seq<real>, width: nat)
    requires IsCompaction(img, start, end, col, range)
    requires forall r :: 0 <= r < |img| ==> |img[r]| == width
    ensures RebuildImage(start, end, col, range, width) == img
  {
    var back := RebuildImage(start, end, col, range, width);
    forall i | 0 <= i < |img| ensures back[i] == img[i] {
      RingRoundTrip(img, i, start[i], end[i], col, range);
    }
  }

  function Counts(img: Image): seq<int> {
    seq(|img| + 1, i requires 0 <= i <= |img| => CountBefore(img, i))
  }

  /** The published ring bounds are what the feature extraction node assumes of them. */
  lemma CompactionFeedsFeatures(img: Image, info: F.CloudInfo)
    requires IsCompaction(img, info.startRing, info.endRing, info.col, info.range)
    requires info.size == CountBefore(img, |img|)
    ensures F.Compacted(info, Counts(img))
  {
    var counts := Counts(img);
    forall i, r | 0 <= i <= r < |counts| ensures counts[i] <= counts[r] {
      CountMonotone(img, i, r);
    }
    forall i | 0 <= i < |img|
      ensures info.startRing[i] == counts[i] + 4 && info.endRing[i] == counts[i + 1] - 6
    {
      assert RingCompacted(img, i, info.startRing[i], info.endRing[i], info.col, info.range);
    }
  }

  // ---------------------------------------------------------------------------
  // First wins

  /** The first point of the scan that lands in a cell. */
  function First(c: Config, pts: seq<RawPoint>, row: int, col: int): (r: Option<RawPoint>)
    requires c.Valid()
    ensures r.Some? ==> r.value in pts && LandsIn(c, r.value, row, col)
  {
    if pts == [] then None
    else
      var before := First(c, pts[..|pts| - 1], row, col);
      if before.Some? then before
      else if LandsIn(c, pts[|pts| - 1], row, col) then Some(pts[|pts| - 1])
      else None
  }

  /** The first point of the scan that lands anywhere: all rotations are taken relative to
      it. */
  function FirstLanding(c: Config, pts: seq<RawPoint>): (r: Option<RawPoint>)
    requires c.Valid()
    ensures r.Some? ==> r.value in pts && Lands(c, r.value)
  {
    if pts == [] then None
    else
      var before := FirstLanding(c, pts[..|pts| - 1]);
      if before.Some? then before
      else if Lands(c, pts[|pts| - 1]) then Some(pts[|pts| - 1])
      else None
  }

  predicate NoneBefore(c: Config, pts: seq<RawPoint>, row: int, col: int, k: int)
    requires c.Valid() && k <= |pts|
  {
    forall m :: 0 <= m < k ==> !LandsIn(c, pts[m], row, col)
  }

  /** `First` is the earliest: nothing before it landed there, and a cell nothing landed in
      has none. */
  lemma {:induction false} FirstIsEarliest(c: Config, pts: seq<RawPoint>, row: int, col: int)
    requires c.Valid()
    ensures match First(c, pts, row, col)
      case None => forall k :: 0 <= k < |pts| ==> !LandsIn(c, pts[k], row, col)
      case Some(q) => exists k :: 0 <= k < |pts| && pts[k] == q && NoneBefore(c, pts, row, col, k)
  {
    hide LandsIn;
    if pts != [] {
      var front := pts[..|pts| - 1];
      FirstIsEarliest(c, front, row, col);
      match First(c, front, row, col) {
        case Some(q) =>
          var k :| 0 <= k < |front| && front[k] == q && NoneBefore(c, front, row, col, k);
          assert pts[k] == q && NoneBefore(c, pts, row, col, k) by {
            assert forall m :: 0 <= m < k ==> pts[m] == front[m];
          }
        case None =>
          assert forall m :: 0 <= m < |front| ==> pts[m] == front[m];
          assert NoneBefore(c, pts, row, col, |front|);
      }
    }
  }

  /** The point all rotations are taken relative to is the earliest that lands anywhere. */
  lemma {:induction false} FirstLandingIsEarliest(c: Config, pts: seq<RawPoint>)
    requires c.Valid()
    ensures match FirstLanding(c, pts)
      case None => forall k, row, col :: 0 <= k < |pts| ==> !LandsIn(c, pts[k], row, col)
      case Some(q) => exists k :: 0 <= k < |pts| && pts[k] == q && Lands(c, q) && FirstToLand(c, pts, k)
  {
    hide Lands;
    if pts != [] {
      var front := pts[..|pts| - 1];
      FirstLandingIsEarliest(c, front);
      match FirstLanding(c, front) {
        case Some(q) =>
          var k :| 0 <= k < |front| && front[k] == q && FirstToLand(c, front, k);
          assert pts[k] == q && FirstToLand(c, pts, k) by {
            assert forall m :: 0 <= m < k ==> pts[m] == front[m];
          }
        case None =>
          assert forall m :: 0 <= m < |front| ==> pts[m] == front[m] && !Lands(c, front[m]) by {
            forall m | 0 <= m < |front| ensures !Lands(c, front[m]) {
              assert !LandsIn(c, front[m], front[m].ring, Column(c, front[m]));
            }
          }
          assert FirstToLand(c, pts, |front|);
      }
    }
  }

  predicate FirstToLand(c: Config, pts: seq<RawPoint>, k: nat)
    requires c.Valid() && k <= |pts|
  {
    forall m :: 0 <= m < k ==> !Lands(c, pts[m])
  }

  lemma {:induction false} FirstNeedsLanding(c: Config, pts: seq<RawPoint>, row: int, col: int)
    requires c.Valid() && FirstLanding(c, pts).None?
    ensures First(c, pts, row, col).None?
  {
    if pts != [] {
      FirstNeedsLanding(c, pts[..|pts| - 1], row, col);
    }
  }

  lemma Product(a: nat, b: nat)
    ensures 0 <= a * b
    ensures a >= 1 ==> b <= a * b
  {}

  lemma Distribute(a: int, b: int, w: int)
    ensures (a + b) * w == a * w + b * w
  {}

  lemma CellIndex(row: int, col: int, rings: nat, width: nat)
    requires 0 <= row < rings && 0 <= col < width
    ensures 0 <= col + row * width < rings * width
  {
    Product(row, width);
    Product(rings - row, width);
    Distribute(row, rings - row, width);
  }

  lemma CellIndexUnique(r1: int, c1: int, r2: int, c2: int, width: nat)
    requires 0 <= c1 < width && 0 <= c2 < width && c1 + r1 * width == c2 + r2 * width
    ensures r1 == r2 && c1 == c2
  {
    if r1 < r2 {
      Distribute(r1, r2 - r1, width);
      Product(r2 - r1, width);
    } else if r2 < r1 {
      Distribute(r2, r1 - r2, width);
      Product(r1 - r2, width);
    }
  }

  // ---------------------------------------------------------------------------
  // The node

  class Projector {
    const config: Config
    /** The transform of a point into the frame of the first one, a library computation. */
    const deskew: (RawPoint, RawPoint) -> Point
    const rangeMat: array2<real>
    const fullCloud: array<Point>
    const startRing: array<int>
    const endRing: array<int>
    const pointCol: array<int>
    const pointRange: array<real>
    var extractedCloud: seq<Point>
    /** Whether the scan's rotations are known. */
    var deskews: bool
    var firstPointFlag: bool
    var firstPoint: Option<RawPoint>

    ghost predicate Valid() {
      && config.Valid()
      && rangeMat.Length0 == config.rings && rangeMat.Length1 == config.columns
      && fullCloud.Length == config.rings * config.columns
      && pointCol.Length == config.rings * config.columns && pointRange.Length == config.rings * config.columns
      && startRing.Length == config.rings && endRing.Length == config.rings
      && startRing != endRing && startRing != pointCol && endRing != pointCol
    }

    constructor (c: Config, transform: (RawPoint, RawPoint) -> Point)
      requires c.Valid()
      ensures Valid() && config == c && deskew == transform
      ensures firstPointFlag && extractedCloud == [] && Empty()
    {
      config, deskew := c, transform;
      rangeMat := new real[c.rings, c.columns]((i, j) => FLT_MAX);
      fullCloud := new Point[c.rings * c.columns](i => Point(0.0, 0.0, 0.0, 0.0));
      startRing, endRing := new int[c.rings](i => 0), new int[c.rings](i => 0);
      pointCol := new int[c.rings * c.columns](i => 0);
      pointRange := new real[c.rings * c.columns](i => 0.0);
      extractedCloud, deskews, firstPointFlag, firstPoint := [], false, true, None;
    }

    ghost predicate Empty()
      requires Valid()
      reads rangeMat
    {
      forall i, j :: 0 <= i < config.rings && 0 <= j < config.columns ==> rangeMat[i, j] == FLT_MAX
    }

    function Row(i: int): (row: seq<real>)
      requires Valid() && 0 <= i < config.rings
      reads rangeMat
      ensures |row| == config.columns
    {
      seq(config.columns, j requires 0 <= j < config.columns reads rangeMat => rangeMat[i, j])
    }

    function Picture(): (img: Image)
      requires Valid()
      reads rangeMat
      ensures |img| == config.rings && forall i :: 0 <= i < |img| ==> |img[i]| == config.columns
    {
      seq(config.rings, i requires 0 <= i < config.rings reads rangeMat => Row(i))
    }

    /** Cell by cell: empty, or the range and the deskewed first point of the scan. */
    ghost predicate HoldsScan(pts: seq<RawPoint>)
      requires Valid()
      reads this`deskews, rangeMat, fullCloud
    {
      forall i, j :: 0 <= i < config.rings && 0 <= j < config.columns ==> CellHolds(pts, i, j)
    }

    ghost predicate CellHolds(pts: seq<RawPoint>, i: int, j: int)
      requires Valid() && 0 <= i < config.rings && 0 <= j < config.columns
      reads this`deskews, rangeMat, fullCloud
    {
      CellIndex(i, j, config.rings, config.columns);
      match First(config, pts, i, j)
      case None => rangeMat[i, j] == FLT_MAX
      case Some(q) =>
        && rangeMat[i, j] == q.range
        && FirstLanding(config, pts).Some?
        && fullCloud[j + i * config.columns] == Shown(deskews, deskew, FirstLanding(config, pts).value, q)
    }

    /** The flag is up until the first point that lands is deskewed, and stays up when none is. */
    ghost predicate FlagShows(pts: seq<RawPoint>)
      requires config.Valid()
      reads this
    {
      if !deskews then firstPointFlag
      else
        && (firstPointFlag <==> FirstLanding(config, pts).None?)
        && (!firstPointFlag ==> firstPoint == FirstLanding(config, pts))
    }

    /** Without rotations the point and the flag stay as they are. */
    method DeskewPoint(q: RawPoint) returns (p: Point)
      requires deskews && !firstPointFlag ==> firstPoint.Some?
      modifies this`firstPointFlag, this`firstPoint
      ensures !deskews ==> p == q.p && firstPointFlag == old(firstPointFlag) && firstPoint == old(firstPoint)
      ensures deskews ==>
        && !firstPointFlag && firstPoint == (if old(firstPointFlag) then Some(q) else old(firstPoint))
        && p == deskew(firstPoint.value, q)
    {
      if !deskews { return q.p; }
      if firstPointFlag {
        firstPoint := Some(q);
        firstPointFlag := false;
      }
      p := deskew(firstPoint.value, q);
    }

    /** Projects one scan into an empty image. */
    method ProjectPointCloud(cloudIn: seq<RawPoint>)
      requires Valid() && Empty() && firstPointFlag
      modifies rangeMat, fullCloud, this`firstPointFlag, this`firstPoint
      ensures HoldsScan(cloudIn)
    {
      var n := 0;
      assert HoldsScan(cloudIn[..0]);
      while n < |cloudIn|
        invariant 0 <= n <= |cloudIn|
        invariant HoldsScan(cloudIn[..n])
        invariant FlagShows(cloudIn[..n])
      {
        ProjectPoint(cloudIn[..n], cloudIn[n]);
        assert cloudIn[..n + 1] == cloudIn[..n] + [cloudIn[n]];
        n := n + 1;
      }
      assert cloudIn[..n] == cloudIn;
    }

    method ProjectPoint(ghost before: seq<RawPoint>, q: RawPoint)
      requires Valid() && HoldsScan(before)
      requires FlagShows(before)
      modifies rangeMat, fullCloud, this`firstPointFlag, this`firstPoint
      ensures HoldsScan(before + [q])
      ensures FlagShows(before + [q])
    {
      FirstAppend(config, before, q);
      hide First;
      hide FirstLanding;
      if !Lands(config, q) || First(config, before, q.ring, Column(config, q)).Some? {
        forall i, j | 0 <= i < config.rings && 0 <= j < config.columns ensures CellHolds(before + [q], i, j) {
          assert CellHolds(before, i, j);
        }
      }
      if q.range < config.minRange || q.range > config.maxRange { return; }
      var rowIdn := q.ring;
      if rowIdn < 0 || rowIdn >= config.rings { return; }
      if rowIdn % config.downsampleRate != 0 { return; }
      var columnIdn := q.turn + config.columns / 2;
      if columnIdn >= config.columns { columnIdn := columnIdn - config.columns; }
      if columnIdn < 0 || columnIdn >= config.columns { return; }
      assert LandsIn(config, q, rowIdn, columnIdn);
      assert CellHolds(before, rowIdn, columnIdn);
      if rangeMat[rowIdn, columnIdn] != FLT_MAX { return; }
      WriteCell(before, q, rowIdn, columnIdn);
    }

    /** Fills an empty cell. */
    method WriteCell(ghost before: seq<RawPoint>, q: RawPoint, row: int, col: int)
      requires Valid() && HoldsScan(before) && LandsIn(config, q, row, col)
      requires First(config, before, row, col).None?
      requires FlagShows(before)
      modifies rangeMat, fullCloud, this`firstPointFlag, this`firstPoint
      ensures HoldsScan(before + [q])
      ensures FlagShows(before + [q])
    {
      FirstAppend(config, before, q);
      hide First;
      hide FirstLanding;
      CellIndex(row, col, config.rings, config.columns);
      var thisPoint := DeskewPoint(q);
      rangeMat[row, col] := q.range;
      var index := col + row * config.columns;
      fullCloud[index] := thisPoint;
      forall i, j | 0 <= i < config.rings && 0 <= j < config.columns ensures CellHolds(before + [q], i, j) {
        assert old(CellHolds(before, i, j));
        CellIndex(i, j, config.rings, config.columns);
        if i != row || j != col {
          if j + i * config.columns == index { CellIndexUnique(i, j, row, col, config.columns); }
        }
      }
    }

    method ResetParameters()
      requires Valid()
      modifies rangeMat, this`extractedCloud, this`firstPointFlag
      ensures Empty() && firstPointFlag && extractedCloud == []
    {
      extractedCloud := [];
      firstPointFlag := true;
      for i := 0 to config.rings
        modifies rangeMat
        invariant forall r, j :: 0 <= r < i && 0 <= j < config.columns ==> rangeMat[r, j] == FLT_MAX
      {
        for j := 0 to config.columns
          invariant forall r, k :: 0 <= r < i && 0 <= k < config.columns ==> rangeMat[r, k] == FLT_MAX
          invariant forall k :: 0 <= k < j ==> rangeMat[i, k] == FLT_MAX
        {
          rangeMat[i, j] := FLT_MAX;
        }
      }
    }

    /** The first entries of the output are the cells of the list, in order. */
    ghost predicate Written(cells: seq<(int, int)>)
      requires Valid()
      reads this, rangeMat, fullCloud, pointCol, pointRange
    {
      && |cells| <= pointCol.Length && |extractedCloud| == |cells|
      && (forall k :: 0 <= k < |cells| ==>
            && 0 <= cells[k].0 < config.rings && 0 <= cells[k].1 < config.columns
            && EntryIs(k, cells[k].0, cells[k].1))
    }

    ghost predicate EntryIs(k: int, row: int, col: int)
      requires Valid() && 0 <= k < pointCol.Length && k < |extractedCloud|
      requires 0 <= row < config.rings && 0 <= col < config.columns
      reads this, rangeMat, fullCloud, pointCol, pointRange
    {
      CellIndex(row, col, config.rings, config.columns);
      && pointCol[k] == col && pointRange[k] == rangeMat[row, col]
      && extractedCloud[k] == fullCloud[col + row * config.columns]
    }

    /** Compacts the filled cells, ring by ring and left to right. */
    method CloudExtraction()
      requires Valid() && extractedCloud == []
      modifies this`extractedCloud, startRing, endRing, pointCol, pointRange
      ensures Written(Cells(Picture(), config.rings, 0))
      ensures IsCompaction(Picture(), startRing[..], endRing[..], pointCol[..], pointRange[..])
    {
      hide Cells;
      var count := 0;
      ghost var img := Picture();
      if config.rings > 0 { CellsTurn(img, 0); } else { CellsCount(img, 0); }
      for i := 0 to config.rings
        invariant Picture() == img
        invariant count == |Cells(img, i, 0)| && Written(Cells(img, i, 0))
        invariant BoundsSet(img, i)
      {
        startRing[i] := count - 1 + 5;
        for j := 0 to config.columns
          invariant Picture() == img
          invariant count == |Cells(img, i, j)| && Written(Cells(img, i, j))
          invariant startRing[i] == |Cells(img, i, 0)| + 4 && BoundsSet(img, i)
        {
          assert img[i][j] == rangeMat[i, j];
          CellsNext(img, i, j);
          if rangeMat[i, j] != FLT_MAX {
            CellsBound(img, i, j, config.columns);
            StoreCell(i, j, count, Cells(img, i, j));
            count := count + 1;
          }
        }
        endRing[i] := count - 1 - 5;
        CellsTurn(img, i);
      }
      CompactionOfCells(img, startRing[..], endRing[..], pointCol[..], pointRange[..], config.columns);
    }

    ghost predicate BoundsSet(img: Image, upto: nat)
      requires Valid() && upto <= config.rings == |img| && forall r :: 0 <= r < |img| ==> |img[r]| == config.columns
      reads startRing, endRing
    {
      forall r :: 0 <= r < upto ==>
        startRing[r] == |Cells(img, r, 0)| + 4 && endRing[r] == |Cells(img, r, config.columns)| - 6
    }

    method StoreCell(i: nat, j: nat, count: nat, ghost cells: seq<(int, int)>)
      requires Valid() && i < config.rings && j < config.columns && Written(cells)
      requires count == |cells| < pointCol.Length
      modifies this`extractedCloud, pointCol, pointRange
      ensures Written(cells + [(i, j)])
    {
      CellIndex(i, j, config.rings, config.columns);
      assert forall k :: 0 <= k < count ==> EntryIs(k, cells[k].0, cells[k].1);
      pointCol[count] := j;
      pointRange[count] := rangeMat[i, j];
      extractedCloud := extractedCloud + [fullCloud[j + i * config.columns]];
      forall k | 0 <= k < count ensures EntryIs(k, cells[k].0, cells[k].1) {
        assert old(EntryIs(k, cells[k].0, cells[k].1));
      }
      assert EntryIs(count, i, j);
    }

    /** One scan, from an empty image to the published message and back to an empty image. */
    method HandleCloud(cloudIn: seq<RawPoint>, imuAvailable: bool) returns (info: F.CloudInfo, cloud: seq<Point>, ghost img: Image)
      requires Valid() && Empty() && firstPointFlag && extractedCloud == []
      modifies this`extractedCloud, this`deskews, this`firstPointFlag, this`firstPoint
      modifies rangeMat, fullCloud, startRing, endRing, pointCol, pointRange
      ensures Empty() && firstPointFlag && extractedCloud == []
      ensures ShowsScan(config, img, cloudIn)
      ensures IsCompaction(img, info.startRing, info.endRing, info.col, info.range)
      ensures F.Compacted(info, Counts(img))
      ensures |cloud| == |Cells(img, |img|, 0)| == info.size
      ensures forall k :: 0 <= k < |cloud| ==>
        FromThisScan(config, imuAvailable, deskew, cloudIn, Cells(img, |img|, 0)[k], cloud[k])
    {
      hide Cells;
      hide First;
      hide FirstLanding;
      hide IsCompaction;
      deskews := imuAvailable;
      ProjectPointCloud(cloudIn);
      img := Picture();
      assert ShowsScan(config, img, cloudIn) by {
        forall r, c | 0 <= r < |img| && 0 <= c < config.columns
          ensures img[r][c] == RangeOf(First(config, cloudIn, r, c))
        {
          assert CellHolds(cloudIn, r, c);
        }
      }
      CloudExtraction();
      ghost var cells := Cells(img, config.rings, 0);
      CellsInBounds(img, config.rings, 0, config.columns);
      forall k | 0 <= k < |cells| ensures FromThisScan(config, imuAvailable, deskew, cloudIn, cells[k], extractedCloud[k]) {
        assert EntryIs(k, cells[k].0, cells[k].1);
        assert CellHolds(cloudIn, cells[k].0, cells[k].1);
      }
      CellsCount(img, config.rings);
      info := F.CloudInfo(startRing[..], endRing[..], pointCol[..], pointRange[..], |extractedCloud|);
      cloud := extractedCloud;
      CompactionFeedsFeatures(img, info);
      ResetParameters();
    }
  }

  function RangeOf(q: Option<RawPoint>): real {
    match q
    case None => FLT_MAX
    case Some(p) => p.range
  }

  /** Every cell shows the range of the first point of the scan that landed there. */
  ghost predicate ShowsScan(c: Config, img: Image, pts: seq<RawPoint>)
    requires c.Valid()
  {
    && |img| == c.rings && (forall r :: 0 <= r < |img| ==> |img[r]| == c.columns)
    && forall r, col :: 0 <= r < |img| && 0 <= col < c.columns ==> img[r][col] == RangeOf(First(c, pts, r, col))
  }

  /** A point as it is shown: as it came when the rotations are not known, and else carried to
      the frame of the first point. */
  function Shown(deskews: bool, deskew: (RawPoint, RawPoint) -> Point, first: RawPoint, q: RawPoint): Point {
    if deskews then deskew(first, q) else q.p
  }

  /** The point is the first point of this scan in its cell; never one left over in the cloud
      buffer, which is not cleared between scans. */
  ghost predicate FromThisScan(
    c: Config, deskews: bool, deskew: (RawPoint, RawPoint) -> Point, pts: seq<RawPoint>, cell: (int, int), p: Point)
    requires c.Valid()
  {
    && First(c, pts, cell.0, cell.1).Some?
    && FirstLanding(c, pts).Some?
    && p == Shown(deskews, deskew, FirstLanding(c, pts).value, First(c, pts, cell.0, cell.1).value)
  }

  // ---------------------------------------------------------------------------
  // The order of the output

  /** The filled cells of the first `i` rings and of the first `j` columns of ring `i`. */
  function Cells(img: Image, i: nat, j: nat): seq<(int, int)>
    requires i <= |img| && (if i < |img| then j <= |img[i]| else j == 0)
    decreases i, j
  {
    if j > 0 then Cells(img, i, j - 1) + (if img[i][j - 1] != FLT_MAX then [(i, j - 1)] else [])
    else if i > 0 then Cells(img, i - 1, |img[i - 1]|)
    else []
  }

  lemma CellsBound(img: Image, i: nat, j: nat, width: nat)
    requires i < |img| && j < width && forall r :: 0 <= r < |img| ==> |img[r]| == width
    ensures |Cells(img, i, j)| < |img| * width
  {
    CellsAtMost(img, i, j, width);
    CellIndex(i, j, |img|, width);
  }

  lemma {:induction false} CellsAtMost(img: Image, i: nat, j: nat, width: nat)
    requires i < |img| && j <= width && forall r :: 0 <= r < |img| ==> |img[r]| == width
    ensures |Cells(img, i, j)| <= j + i * width
    decreases i, j
  {
    if j > 0 {
      CellsAtMost(img, i, j - 1, width);
    } else if i > 0 {
      CellsAtMost(img, i - 1, width, width);
      Distribute(i - 1, 1, width);
    }
  }

  predicate Before(a: (int, int), b: (int, int)) {
    a.0 < b.0 || (a.0 == b.0 && a.1 < b.1)
  }

  lemma {:induction false} CellsInBounds(img: Image, i: nat, j: nat, width: nat)
    requires i <= |img| && (if i < |img| then j <= width else j == 0)
    requires forall r :: 0 <= r < |img| ==> |img[r]| == width
    ensures forall k :: 0 <= k < |Cells(img, i, j)| ==> var x := Cells(img, i, j)[k];
      0 <= x.0 < |img| && 0 <= x.1 < width && img[x.0][x.1] != FLT_MAX && Before(x, (i, j))
    decreases i, j
  {
    if j > 0 {
      CellsInBounds(img, i, j - 1, width);
    } else if i > 0 {
      CellsInBounds(img, i - 1, width, width);
    }
  }

  lemma {:induction false} CellsInOrder(img: Image, i: nat, j: nat, width: nat)
    requires i <= |img| && (if i < |img| then j <= width else j == 0)
    requires forall r :: 0 <= r < |img| ==> |img[r]| == width
    ensures forall a, b :: 0 <= a < b < |Cells(img, i, j)| ==> Before(Cells(img, i, j)[a], Cells(img, i, j)[b])
    decreases i, j
  {
    if j > 0 {
      CellsInOrder(img, i, j - 1, width);
      CellsInBounds(img, i, j - 1, width);
    } else if i > 0 {
      CellsInOrder(img, i - 1, width, width);
    }
  }

  lemma {:induction false} CellsComplete(img: Image, i: nat, j: nat, width: nat, r: nat, c: nat)
    requires i <= |img| && (if i < |img| then j <= width else j == 0)
    requires forall r :: 0 <= r < |img| ==> |img[r]| == width
    requires r < |img| && c < width && img[r][c] != FLT_MAX && Before((r, c), (i, j))
    ensures (r, c) in Cells(img, i, j)
    decreases i, j
  {
    if j > 0 {
      if (r, c) != (i, j - 1) {
        CellsComplete(img, i, j - 1, width, r, c);
      }
    } else if i > 0 {
      CellsComplete(img, i - 1, width, width, r, c);
    }
  }

  /** The output names each filled cell exactly once, in ring order and then column order. */
  lemma CellsAreFilled(img: Image, width: nat)
    requires forall r :: 0 <= r < |img| ==> |img[r]| == width
    ensures forall r, c :: (r, c) in Cells(img, |img|, 0) <==> 0 <= r < |img| && 0 <= c < width && img[r][c] != FLT_MAX
    ensures forall a, b :: 0 <= a < b < |Cells(img, |img|, 0)| ==>
      Before(Cells(img, |img|, 0)[a], Cells(img, |img|, 0)[b])
  {
    hide Cells;
    CellsInBounds(img, |img|, 0, width);
    CellsInOrder(img, |img|, 0, width);
    forall r, c | 0 <= r < |img| && 0 <= c < width && img[r][c] != FLT_MAX ensures (r, c) in Cells(img, |img|, 0) {
      CellsComplete(img, |img|, 0, width, r, c);
    }
  }

  lemma CellsNext(img: Image, i: nat, j: nat)
    requires i < |img| && j < |img[i]|
    ensures Cells(img, i, j + 1) == Cells(img, i, j) + (if img[i][j] != FLT_MAX then [(i, j)] else [])
  {}

  lemma CellsTurn(img: Image, i: nat)
    requires i < |img|
    ensures Cells(img, i + 1, 0) == Cells(img, i, |img[i]|)
    ensures Cells(img, 0, 0) == []
  {}

  lemma {:induction false} CellsOfRing(img: Image, i: nat, j: nat)
    requires i < |img| && j <= |img[i]|
    ensures var cols, at := Columns(img[i], j), |Cells(img, i, 0)|;
      && |Cells(img, i, j)| == at + |cols|
      && (forall k :: 0 <= k < at ==> Cells(img, i, j)[k] == Cells(img, i, 0)[k])
      && (forall a :: 0 <= a < |cols| ==> Cells(img, i, j)[at + a] == (i, cols[a]))
    decreases j
  {
    if j > 0 {
      CellsOfRing(img, i, j - 1);
    }
  }

  lemma {:induction false} CellsCount(img: Image, i: nat)
    requires i <= |img|
    ensures |Cells(img, i, 0)| == CountBefore(img, i)
    decreases i
  {
    if i > 0 {
      CellsCount(img, i - 1);
      CellsOfRing(img, i - 1, |img[i - 1]|);
    }
  }

  lemma {:induction false} CellsPrefix(img: Image, i: nat, r: nat)
    requires i <= r <= |img|
    ensures |Cells(img, i, 0)| <= |Cells(img, r, 0)|
    ensures forall k :: 0 <= k < |Cells(img, i, 0)| ==> Cells(img, r, 0)[k] == Cells(img, i, 0)[k]
    decreases r
  {
    if i < r {
      CellsPrefix(img, i, r - 1);
      CellsOfRing(img, r - 1, |img[r - 1]|);
    }
  }

  lemma CompactionOfCells(img: Image, start: seq<int>, end: seq<int>, col: seq<int>, range: seq<real>, width: nat)
    requires |start| == |end| == |img| && |col| == |range|
    requires forall r :: 0 <= r < |img| ==> |img[r]| == width
    requires forall r :: 0 <= r < |img| ==>
      start[r] == |Cells(img, r, 0)| + 4 && end[r] == |Cells(img, r, width)| - 6
    requires |Cells(img, |img|, 0)| <= |col|
    requires forall k :: 0 <= k < |Cells(img, |img|, 0)| ==> var x := Cells(img, |img|, 0)[k];
      0 <= x.0 < |img| && 0 <= x.1 < width && col[k] == x.1 && range[k] == img[x.0][x.1]
    ensures IsCompaction(img, start, end, col, range)
  {
    CellsCount(img, |img|);
    forall i | 0 <= i < |img| ensures RingCompacted(img, i, start[i], end[i], col, range) {
      CellsCount(img, i);
      CellsOfRing(img, i, width);
      CellsPrefix(img, i + 1, |img|);
      var cols, at := Columns(img[i], width), CountBefore(img, i);
      forall a | 0 <= a < |cols|
        ensures 0 <= cols[a] < width && col[at + a] == cols[a] && range[at + a] == img[i][cols[a]]
      {
        assert Cells(img, |img|, 0)[at + a] == (i, cols[a]);
      }
    }
  }

  lemma FirstAppend(c: Config, pts: seq<RawPoint>, q: RawPoint)
    requires c.Valid()
    ensures forall row, col :: (First(c, pts + [q], row, col)
                             == (if First(c, pts, row, col).Some? then First(c, pts, row, col)
                                 else if LandsIn(c, q, row, col) then Some(q) else None))
    ensures FirstLanding(c, pts + [q]) ==
      if FirstLanding(c, pts).Some? then FirstLanding(c, pts) else if Lands(c, q) then Some(q) else None
    ensures forall row, col :: FirstLanding(c, pts).None? ==> First(c, pts, row, col).None?
  {
    assert (pts + [q])[..|pts|] == pts;
    forall row, col | FirstLanding(c, pts).None? ensures First(c, pts, row, col).None? {
      FirstNeedsLanding(c, pts, row, col);
    }
  }
}
