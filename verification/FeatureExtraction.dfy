/** Feature extraction of LIO-SAM: curvature, occlusion marks, and the greedy choice of corner
    and planar points in six sectors per ring. Points are named by their position in the
    extracted cloud; depths and curvatures are reals. */
module FeatureExtraction {
  import opened Basics

  datatype Smoothness = Smoothness(value: real, ind: int)

  /** The fields of the incoming message that are used: ring bounds, column and depth of every
      point, and the number of points in the extracted cloud. */
  datatype CloudInfo = CloudInfo(startRing: seq<int>, endRing: seq<int>, col: seq<int>, range: seq<real>, size: nat)

  // ---------------------------------------------------------------------------
  // Neighbourhoods

  /** At most five positions apart with no column jump above ten on the way. */
  predicate Linked(col: seq<int>, p: int, q: int) {
    && 0 <= p < |col| && 0 <= q < |col| && Abs(p - q) <= 5
    && (forall m :: p < m <= q ==> Abs(col[m] - col[m - 1]) <= 10)
    && (forall m :: q < m <= p ==> Abs(col[m] - col[m - 1]) <= 10)
  }

  /** A position with five neighbours on each side in a cloud of `n` points. */
  predicate Inner(p: int, n: int) {
    5 <= p < n - 5
  }

  /** What an entry can name: a position with five neighbours on each side in arrays of `cells`, or
      position 0 if it was never written. */
  predicate Known(ind: int, cells: int) {
    ind == 0 || Inner(ind, cells)
  }

  /** No two labelled points stand close together on one stretch of surface. */
  ghost predicate Separated(labels: seq<int>, col: seq<int>, n: int)
    requires n <= |labels| && n <= |col|
  {
    forall p, q :: 5 <= p < q < n - 5 && q - p <= 5 && labels[p] != 0 && labels[q] != 0 ==>
      exists m :: p < m <= q && Abs(col[m] - col[m - 1]) > 10
  }

  /** Everything within reach of a labelled point is out of the race. */
  ghost predicate Covered(labels: seq<int>, picked: seq<bool>, col: seq<int>, n: int)
    requires n <= |labels| && n <= |col| <= |picked|
  {
    forall p, q :: Inner(p, n) && labels[p] != 0 && Linked(col, p, q) ==> picked[q]
  }

  lemma LinkedSelf(col: seq<int>, p: int)
    requires 0 <= p < |col|
    ensures Linked(col, p, p)
  {}

  /** Labelling a point that is still in the race, and marking its reach, keeps both. */
  lemma PickKeepsSeparation(labels: seq<int>, picked: seq<bool>, picked': seq<bool>, col: seq<int>, n: int, ind: int, value: int)
    requires n <= |labels| && n <= |col| == |picked| == |picked'| && 0 <= ind < |labels| && ind < |picked|
    requires Covered(labels, picked, col, n) && Separated(labels, col, n) && !picked[ind]
    requires forall q :: 0 <= q < |picked| ==> (picked'[q] <==> picked[q] || Linked(col, ind, q))
    ensures Covered(labels[ind := value], picked', col, n)
    ensures Separated(labels[ind := value], col, n)
  {
    var after := labels[ind := value];
    forall p, q | 5 <= p < q < n - 5 && q - p <= 5 && after[p] != 0 && after[q] != 0
      ensures exists m :: p < m <= q && Abs(col[m] - col[m - 1]) > 10
    {
      if p == ind || q == ind {
        var other := if p == ind then q else p;
        assert !Linked(col, other, ind);
      } else {
        assert labels[p] != 0 && labels[q] != 0;
      }
    }
  }

  // ---------------------------------------------------------------------------
  // Curvature and occlusion

  function DiffRange(range: seq<real>, i: int): real
    requires 5 <= i < |range| - 5
  {
    range[i - 5] + range[i - 4] + range[i - 3] + range[i - 2] + range[i - 1] - range[i] * 10.0
    + range[i + 1] + range[i + 2] + range[i + 3] + range[i + 4] + range[i + 5]
  }

  function Curvature(range: seq<real>, i: int): real
    requires 5 <= i < |range| - 5
  {
    DiffRange(range, i) * DiffRange(range, i)
  }

  /** How much farther the `d` neighbours on each side are, all together. */
  function Excess(range: seq<real>, i: int, d: nat): real
    requires d <= i < |range| - d
  {
    if d == 0 then 0.0 else Excess(range, i, d - 1) + (range[i - d] - range[i]) + (range[i + d] - range[i])
  }

  /** The curvature is the square of how much farther the ten neighbours are than the point itself, all
      together. */
  lemma CurvatureMeaning(range: seq<real>, i: int)
    requires 5 <= i < |range| - 5
    ensures Curvature(range, i) == Excess(range, i, 5) * Excess(range, i, 5)
  {
    var r := range[i];
    assert Excess(range, i, 1) == Excess(range, i, 0) + (range[i - 1] - r) + (range[i + 1] - r);
    assert Excess(range, i, 2) == Excess(range, i, 1) + (range[i - 2] - r) + (range[i + 2] - r);
    assert Excess(range, i, 3) == Excess(range, i, 2) + (range[i - 3] - r) + (range[i + 3] - r);
    assert Excess(range, i, 4) == Excess(range, i, 3) + (range[i - 4] - r) + (range[i + 4] - r);
    assert Excess(range, i, 5) == Excess(range, i, 4) + (range[i - 5] - r) + (range[i + 5] - r);
    assert DiffRange(range, i) == Excess(range, i, 5);
  }

  /** The depth step or grazing angle seen at position `i` rules out position `p`. */
  predicate Occludes(info: CloudInfo, i: int, p: int)
    requires 1 <= i && i + 1 < |info.col| == |info.range|
  {
    var near, far := info.range[i], info.range[i + 1];
    || (Abs(info.col[i + 1] - info.col[i]) < 10 && near - far > 0.3 && i - 5 <= p <= i)
    || (Abs(info.col[i + 1] - info.col[i]) < 10 && near - far <= 0.3 && far - near > 0.3 && i + 1 <= p <= i + 6)
    || (AbsReal(info.range[i - 1] - near) > near * 0.02 && AbsReal(far - near) > near * 0.02 && p == i)
  }

  /** Between positions `i` and `i + 1`, in neighbouring columns, the depth jumps by more than 0.3 and
      `p` is one of the six positions on the far side; or `p` is `i`, and its depth differs by more than
      a fiftieth from both neighbours. */
  predicate Behind(info: CloudInfo, i: int, p: int)
    requires 1 <= i && i + 1 < |info.col| == |info.range|
  {
    var step, before := info.range[i + 1] - info.range[i], info.range[i] - info.range[i - 1];
    var beside, least := -10 < info.col[i + 1] - info.col[i] < 10, info.range[i] / 50.0;
    || (beside && step < -0.3 && i - 5 <= p <= i)
    || (beside && step > 0.3 && i < p <= i + 6)
    || (p == i && (before > least || before < -least) && (step > least || step < -least))
  }

  lemma OccludesIsBehind(info: CloudInfo, i: int, p: int)
    requires 1 <= i && i + 1 < |info.col| == |info.range|
    ensures Occludes(info, i, p) <==> Behind(info, i, p)
  {}

  /** The depths rule out `p`. */
  ghost predicate RuledOut(info: CloudInfo, p: int)
    requires info.size <= |info.col| == |info.range|
  {
    exists i :: 5 <= i < info.size - 6 && Behind(info, i, p)
  }

  lemma RuledOutIs(info: CloudInfo)
    requires info.size <= |info.col| == |info.range|
    ensures forall p :: RuledOut(info, p) <==> exists i :: 5 <= i < info.size - 6 && Occludes(info, i, p)
  {
    forall i, p | 5 <= i < info.size - 6 ensures Occludes(info, i, p) <==> Behind(info, i, p) {
      OccludesIsBehind(info, i, p);
    }
    hide Occludes;
    hide Behind;
  }

  // ---------------------------------------------------------------------------
  // Sectors

  /** Integer division as the machine does it, toward zero. */
  function Div6(x: int): int {
    if x >= 0 then x / 6 else -((-x) / 6)
  }

  function SectorStart(s: int, e: int, j: int): int {
    Div6(s * (6 - j) + e * j)
  }

  function SectorEnd(s: int, e: int, j: int): int {
    Div6(s * (5 - j) + e * (j + 1)) - 1
  }

  lemma Div6Monotone(x: int, y: int)
    requires x <= y
    ensures Div6(x) <= Div6(y)
  {}

  /** Position `k` lies in the processed sector `j` of ring `i`. */
  predicate InSector(info: CloudInfo, i: int, j: int, k: int)
    requires |info.startRing| == |info.endRing|
  {
    && 0 <= i < |info.startRing| && 0 <= j < 6
    && SectorStart(info.startRing[i], info.endRing[i], j) < SectorEnd(info.startRing[i], info.endRing[i], j)
    && SectorStart(info.startRing[i], info.endRing[i], j) <= k <= SectorEnd(info.startRing[i], info.endRing[i], j)
  }

  ghost predicate InScan(info: CloudInfo, k: int)
    requires |info.startRing| == |info.endRing|
  {
    exists i, j :: InSector(info, i, j, k)
  }

  /** Six sectors in a row cover exactly the positions from `s` to `e - 1`, none twice; a ring
      with `e <= s` has no sector to process. */
  lemma SectorsTile(s: int, e: int)
    ensures s <= e ==> SectorStart(s, e, 0) == s && SectorEnd(s, e, 5) == e - 1
    ensures forall j :: 0 <= j < 5 ==> SectorEnd(s, e, j) + 1 == SectorStart(s, e, j + 1)
    ensures s <= e ==> forall j, k :: 0 <= j < k <= 5 ==> SectorEnd(s, e, j) < SectorStart(s, e, k)
    ensures s <= e ==> forall j :: 0 <= j <= 5 ==> s <= SectorStart(s, e, j) <= SectorEnd(s, e, j) + 1 <= e
    ensures e <= s ==> forall j :: 0 <= j <= 5 ==> SectorEnd(s, e, j) < SectorStart(s, e, j)
  {
    forall j | 0 <= j <= 5 ensures e <= s ==> SectorEnd(s, e, j) < SectorStart(s, e, j) {
      if e <= s { Div6Monotone(s * (5 - j) + e * (j + 1), s * (6 - j) + e * j); }
    }
    if s <= e {
      forall j, k | 0 <= j <= k <= 6 ensures SectorStart(s, e, j) <= SectorStart(s, e, k) {
        assert s * (6 - k) + e * k == s * (6 - j) + e * j + (e - s) * (k - j);
        assert (e - s) * (k - j) >= 0;
        Div6Monotone(s * (6 - j) + e * j, s * (6 - k) + e * k);
      }
      forall j | 0 <= j <= 5 ensures SectorEnd(s, e, j) + 1 == SectorStart(s, e, j + 1) {}
    }
  }

  /** The six sectors of a ring have a sixth of its length each, but for less than one. */
  lemma SectorsAreEqual(s: int, e: int, j: int)
    requires 0 <= s <= e && 0 <= j < 6
    ensures var length := SectorEnd(s, e, j) + 1 - SectorStart(s, e, j);
      (e - s) / 6 <= length <= (e - s) / 6 + 1
  {
    var n := s * (6 - j) + e * j;
    assert n == 6 * s + (e - s) * j && 0 <= (e - s) * j;
    assert s * (5 - j) + e * (j + 1) == n + (e - s);
  }

  // ---------------------------------------------------------------------------
  // What one sector leaves behind

  /** The positions of `[sp, ep]` labelled as corners. */
  function Corners(labels: seq<int>, sp: int, ep: int): set<int>
    requires 0 <= sp && ep < |labels|
  {
    set k | sp <= k <= ep && labels[k] == 1
  }

  datatype Thresholds = Thresholds(edge: real, surf: real)

  /** A finished stretch: every position is a corner or goes to the surface cloud, never both;
      corners are sharp, planar points flat, at most twenty corners; if there are fewer, every
      sharp position is a corner or suppressed; every flat position is chosen or suppressed;
      and a sharp position left over when the cap is reached is no sharper than any corner but
      the one at `ep`, which the sort leaves out. */
  ghost predicate SectorDone(labels: seq<int>, picked: seq<bool>, curvature: seq<real>, t: Thresholds,
                             cornerCloud: seq<int>, surf: seq<int>, sp: int, ep: int)
    requires |labels| == |picked| == |curvature| && 0 <= sp && ep < |labels|
  {
    && (forall k :: sp <= k <= ep ==> (k in cornerCloud <==> labels[k] == 1))
    && (forall k :: sp <= k <= ep ==> (k in surf <==> labels[k] != 1))
    && (forall k :: sp <= k <= ep && labels[k] == 1 ==> curvature[k] > t.edge)
    && (forall k :: sp <= k <= ep && labels[k] == -1 ==> curvature[k] < t.surf)
    && |Corners(labels, sp, ep)| <= 20
    && (|Corners(labels, sp, ep)| < 20 ==> forall k :: sp <= k <= ep && curvature[k] > t.edge ==> picked[k])
    && (forall k :: sp <= k <= ep && curvature[k] < t.surf ==> picked[k])
    && (forall k, d :: sp <= k <= ep && sp <= d < ep && labels[d] == 1 && curvature[k] > t.edge && !picked[k] ==>
          curvature[k] <= curvature[d])
  }

  /** Work elsewhere leaves a finished sector finished. */
  lemma SectorStaysDone(labels: seq<int>, picked: seq<bool>, labels': seq<int>, picked': seq<bool>,
                        curvature: seq<real>, t: Thresholds, corners: seq<int>, surf: seq<int>,
                        corners': seq<int>, surf': seq<int>, sp: int, ep: int)
    requires |labels| == |picked| == |labels'| == |picked'| == |curvature| && 0 <= sp && ep < |labels|
    requires SectorDone(labels, picked, curvature, t, corners, surf, sp, ep)
    requires forall k :: sp <= k <= ep ==> labels'[k] == labels[k]
    requires forall k :: 0 <= k < |picked| && picked[k] ==> picked'[k]
    requires forall k :: sp <= k <= ep ==> (k in corners' <==> k in corners) && (k in surf' <==> k in surf)
    ensures SectorDone(labels', picked', curvature, t, corners', surf', sp, ep)
  {
    assert Corners(labels', sp, ep) == Corners(labels, sp, ep);
  }

  /** Sorted by value on `[lo, hi)`. */
  predicate SortedRange(s: seq<Smoothness>, lo: int, hi: int)
    requires 0 <= lo && hi <= |s|
  {
    forall a, b :: lo <= a < b < hi ==> s[a].value <= s[b].value
  }

  lemma SwapKeepsMultiset<T>(s: seq<T>, i: int, j: int)
    requires 0 <= i < |s| && 0 <= j < |s|
    ensures multiset(s[i := s[j]][j := s[i]]) == multiset(s)
  {}

  lemma SwapInSlice<T>(was: seq<T>, s: seq<T>, lo: int, hi: int, i: int, j: int)
    requires |s| == |was| && 0 <= lo <= i <= j < hi <= |s|
    requires s == was[i := was[j]][j := was[i]]
    ensures multiset(s[lo..hi]) == multiset(was[lo..hi])
  {
    var a, c := was[lo..hi], s[lo..hi];
    var b := a[i - lo := a[j - lo]][j - lo := a[i - lo]];
    SwapKeepsMultiset(a, i - lo, j - lo);
    forall k | 0 <= k < |a| ensures c[k] == b[k] {
      assert c[k] == s[lo + k] && a[k] == was[lo + k];
    }
    assert c == b;
  }

  lemma SameMultisetSameElements<T>(a: seq<T>, b: seq<T>)
    requires multiset(a) == multiset(b)
    ensures forall x :: x in a <==> x in b
    ensures |a| == |b|
  {
    assert forall x :: x in a <==> x in multiset(a);
    assert forall x :: x in b <==> x in multiset(b);
    assert |multiset(a)| == |multiset(b)|;
  }

  /** Some point of `cs` reaches `q`. */
  ghost predicate Reached(cs: seq<int>, col: seq<int>, q: int) {
    exists c :: c in cs && Linked(col, c, q)
  }

  lemma ReachedAppend(cs: seq<int>, c: int, col: seq<int>)
    ensures forall q :: Reached(cs + [c], col, q) <==> (Reached(cs, col, q) || Linked(col, c, q))
  {
    hide Linked;
    forall q ensures Reached(cs + [c], col, q) <==> (Reached(cs, col, q) || Linked(col, c, q)) {
      assert forall d :: d in cs + [c] <==> (d in cs || d == c);
    }
  }

  predicate Distinct(s: seq<int>) {
    forall a, b :: 0 <= a < b < |s| ==> s[a] != s[b]
  }

  lemma NothingTwice()
    ensures Distinct([])
  {}

  lemma DistinctMore(cs: seq<int>, c: int)
    requires Distinct(cs) && c !in cs
    ensures Distinct(cs + [c])
  {}

  lemma NothingReached(col: seq<int>)
    ensures forall q :: !Reached([], col, q)
  {}

  lemma {:induction false} DistinctCount(s: seq<int>)
    requires Distinct(s)
    ensures |set x | x in s| == |s|
  {
    if s == [] {
      assert (set x | x in s) == {};
    } else {
      var front, last := s[..|s| - 1], s[|s| - 1];
      DistinctCount(front);
      assert s == front + [last];
      assert (set x | x in s) == (set x | x in front) + {last};
      assert last !in front;
    }
  }

  /** The labels of a frame and the positions out of the race. */
  datatype Marks = Marks(labels: seq<int>, picked: seq<bool>) {
    predicate Fits(col: seq<int>, curvature: seq<real>) { |labels| == |picked| == |col| == |curvature| }
  }

  /** `q` is out of the race because `p` was chosen between `a` and `b`. */
  predicate Suppresses(col: seq<int>, a: Marks, b: Marks, p: int, q: int)
    requires |a.labels| == |a.picked| == |b.labels| == |b.picked|
  {
    0 <= p < |a.labels| && !a.picked[p] && b.picked[p] && b.labels[p] != 0 && Linked(col, p, q)
  }

  /** From `a` to `b` only points in the race were labelled, sharp ones as corners and flat ones as
      planar, and only what a chosen point reaches left the race. */
  ghost predicate Marked(col: seq<int>, curvature: seq<real>, t: Thresholds, a: Marks, b: Marks) {
    && a.Fits(col, curvature) && b.Fits(col, curvature)
    && (forall q :: 0 <= q < |col| && a.picked[q] ==> b.picked[q] && b.labels[q] == a.labels[q])
    && (forall q :: 0 <= q < |col| && b.labels[q] != a.labels[q] ==>
          (b.labels[q] == 1 && curvature[q] > t.edge) || (b.labels[q] == -1 && curvature[q] < t.surf))
    && (forall q :: 0 <= q < |col| && b.picked[q] && !a.picked[q] ==> exists p :: Suppresses(col, a, b, p, q))
  }

  /** What two choices take out of the race: points in it, and their reach. */
  ghost predicate PickedBy(col: seq<int>, a: seq<bool>, b: seq<bool>, cs: seq<int>, fs: seq<int>) {
    && |a| == |b| == |col|
    && (forall c :: c in cs || c in fs ==> 0 <= c < |col| && !a[c])
    && (forall q :: 0 <= q < |col| ==> (b[q] <==> a[q] || Reached(cs, col, q) || Reached(fs, col, q)))
  }

  lemma PickedOnce(col: seq<int>, a: seq<bool>, b: seq<bool>, cs: seq<int>)
    requires |a| == |b| == |col| && forall c :: c in cs ==> 0 <= c < |col| && !a[c]
    requires forall q :: 0 <= q < |col| ==> (b[q] <==> a[q] || Reached(cs, col, q))
    ensures PickedBy(col, a, b, cs, [])
  {
    hide Linked;
  }

  lemma PickedTwice(col: seq<int>, a: seq<bool>, b: seq<bool>, c: seq<bool>, cs: seq<int>, fs: seq<int>)
    requires PickedBy(col, a, b, cs, []) && PickedBy(col, b, c, fs, [])
    ensures PickedBy(col, a, c, cs, fs)
  {
    hide Linked;
  }

  /** At most five positions from `p` to `q`, and no two columns next to each other on the way lie more
      than ten apart. */
  predicate OneStretch(col: seq<int>, p: int, q: int) {
    var first, last := if p < q then p else q, if p < q then q else p;
    && 0 <= first && last < |col| && last - first <= 5
    && forall m :: first < m <= last ==> -10 <= col[m] - col[m - 1] <= 10
  }

  lemma LinkedIsOneStretch(col: seq<int>, p: int, q: int)
    ensures Linked(col, p, q) <==> OneStretch(col, p, q)
  {}

  /** A finished frame: curvatures are those of the message; points that the depths rule out are out of
      the race without a label, and the others leave it exactly where a labelled point reaches them;
      labels stand on sharp and flat points. */
  ghost predicate FrameMarked(info: CloudInfo, curvature: seq<real>, t: Thresholds, m: Marks)
    requires m.Fits(info.col, curvature) && |info.range| == |info.col| && info.size <= |info.col|
  {
    forall q :: Inner(q, info.size) ==>
      && curvature[q] == Curvature(info.range[..info.size], q)
      && (RuledOut(info, q) ==> m.picked[q] && m.labels[q] == 0)
      && (m.picked[q] ==> RuledOut(info, q) || exists p :: 0 <= p < |info.col| && m.labels[p] != 0 && OneStretch(info.col, p, q))
      && (forall p :: Inner(p, info.size) && m.labels[p] != 0 && OneStretch(info.col, p, q) ==> m.picked[q])
      && (m.labels[q] == 0 || (m.labels[q] == 1 && curvature[q] > t.edge) || (m.labels[q] == -1 && curvature[q] < t.surf))
  }

  lemma FrameIsMarked(info: CloudInfo, curvature: seq<real>, t: Thresholds, a: Marks, b: Marks)
    requires Marked(info.col, curvature, t, a, b) && |info.range| == |info.col| && info.size <= |info.col|
    requires Covered(b.labels, b.picked, info.col, info.size)
    requires forall q :: Inner(q, info.size) ==>
      a.labels[q] == 0 && curvature[q] == Curvature(info.range[..info.size], q) && (a.picked[q] <==> RuledOut(info, q))
    ensures FrameMarked(info, curvature, t, b)
  {
    forall p, q ensures Linked(info.col, p, q) <==> OneStretch(info.col, p, q) {
      LinkedIsOneStretch(info.col, p, q);
    }
    hide Linked;
    hide OneStretch;
    hide RuledOut;
    hide Curvature;
    forall q | Inner(q, info.size) && b.picked[q] && !RuledOut(info, q)
      ensures exists p :: 0 <= p < |info.col| && b.labels[p] != 0 && OneStretch(info.col, p, q)
    {
      var p :| Suppresses(info.col, a, b, p, q);
    }
  }

  lemma MarkedStays(col: seq<int>, curvature: seq<real>, t: Thresholds, a: Marks)
    requires a.Fits(col, curvature)
    ensures Marked(col, curvature, t, a, a)
  {}

  lemma MarkedOn(col: seq<int>, curvature: seq<real>, t: Thresholds, a: Marks, b: Marks, c: Marks)
    requires Marked(col, curvature, t, a, b) && Marked(col, curvature, t, b, c)
    ensures Marked(col, curvature, t, a, c)
  {
    hide Linked;
    forall q | 0 <= q < |col| && c.picked[q] && !a.picked[q] ensures exists p :: Suppresses(col, a, c, p, q) {
      if b.picked[q] {
        var p :| Suppresses(col, a, b, p, q);
        assert Suppresses(col, a, c, p, q);
      } else {
        var p :| Suppresses(col, b, c, p, q);
        assert Suppresses(col, a, c, p, q);
      }
    }
  }

  /** Choosing the points of `cs`, all in the race, with one label. */
  lemma ChoosingMarks(col: seq<int>, curvature: seq<real>, t: Thresholds, a: Marks, b: Marks, cs: seq<int>, fs: seq<int>)
    requires a.Fits(col, curvature) && b.Fits(col, curvature)
    requires PickedBy(col, a.picked, b.picked, cs, fs)
    requires (forall c :: c in cs ==> curvature[c] > t.edge) && (forall c :: c in fs ==> curvature[c] < t.surf)
    requires forall q :: 0 <= q < |col| ==>
      b.labels[q] == (if q in fs then -1 else if q in cs then 1 else a.labels[q])
    ensures Marked(col, curvature, t, a, b)
  {
    forall c | c in cs || c in fs ensures b.picked[c] { LinkedSelf(col, c); }
    hide Linked;
    forall q | 0 <= q < |col| && b.picked[q] && !a.picked[q] ensures exists p :: Suppresses(col, a, b, p, q) {
      var c :| (c in cs || c in fs) && Linked(col, c, q);
      assert Suppresses(col, a, b, c, q);
    }
  }

  /** The entries of a sorted stretch are a rearrangement of what was there. */
  predicate Rearranged(s: seq<Smoothness>, was: seq<Smoothness>, sp: int, ep: int)
    requires |s| == |was| && 0 <= sp && ep < |s|
  {
    && (forall k :: sp <= k <= ep ==> s[k] in was[sp..ep + 1])
    && (forall k :: sp <= k <= ep ==> was[k] in s[sp..ep + 1])
    && (forall k :: 0 <= k < |s| && !(sp <= k <= ep) ==> s[k] == was[k])
  }

  function Sp(info: CloudInfo, i: int, j: int): int
    requires 0 <= i < |info.startRing| == |info.endRing|
  {
    SectorStart(info.startRing[i], info.endRing[i], j)
  }

  function Ep(info: CloudInfo, i: int, j: int): int
    requires 0 <= i < |info.startRing| == |info.endRing|
  {
    SectorEnd(info.startRing[i], info.endRing[i], j)
  }

  lemma SectorMember(info: CloudInfo, i: int, j: int, k: int)
    requires 0 <= i < |info.startRing| == |info.endRing|
    ensures InSector(info, i, j, k) <==>
      0 <= j < 6 && Sp(info, i, j) < Ep(info, i, j) && Sp(info, i, j) <= k <= Ep(info, i, j)
    ensures InSector(info, i, j, k) ==> InScan(info, k)
  {}

  /** The processed sectors of a ring lie inside it, one after the other. */
  lemma SectorOrder(info: CloudInfo, i: int)
    requires 0 <= i < |info.startRing| == |info.endRing|
    ensures forall j, m :: 0 <= j < m < 6 && Sp(info, i, j) < Ep(info, i, j) ==> Ep(info, i, j) < Sp(info, i, m)
    ensures forall j :: 0 <= j < 6 && Sp(info, i, j) < Ep(info, i, j) ==>
      info.startRing[i] <= Sp(info, i, j) && Ep(info, i, j) <= info.endRing[i] - 1
  {
    SectorsTile(info.startRing[i], info.endRing[i]);
  }

  /** The labels and marks of a frame, its corner cloud and the surface cloud of one ring. */
  datatype Frame = Frame(labels: seq<int>, picked: seq<bool>, curvature: seq<real>, corners: seq<int>, surf: seq<int>) {
    predicate Sized() {
      |labels| == |picked| == |curvature|
    }
  }

  /** A position that work on `[sp, ep]` may label or put into a cloud. */
  ghost predicate Touched(s: seq<Smoothness>, sp: int, ep: int, p: int)
    requires 0 <= sp && ep < |s|
  {
    sp <= p <= ep || Names(s, p, sp, ep)
  }

  /** At `p` labels and clouds are the same in both frames. */
  predicate SameAt(f: Frame, g: Frame, p: int)
    requires f.Sized() && g.Sized() && 0 <= p < |f.labels| == |g.labels|
  {
    g.labels[p] == f.labels[p] && (p in g.corners <==> p in f.corners) && (p in g.surf <==> p in f.surf)
  }

  /** Marks are never taken back, and curvatures stay. */
  predicate Later(f: Frame, g: Frame) {
    && f.Sized() && g.Sized() && |g.labels| == |f.labels| && g.curvature == f.curvature
    && forall q :: 0 <= q < |f.picked| && f.picked[q] ==> g.picked[q]
  }

  /** From `f` to `g` labels and clouds change only where work on `[sp, ep]` may change them. */
  ghost predicate Changed(f: Frame, g: Frame, s: seq<Smoothness>, sp: int, ep: int)
    requires 0 <= sp && ep < |s|
  {
    && Later(f, g)
    && forall p :: 0 <= p < |f.labels| && !Touched(s, sp, ep, p) ==> SameAt(f, g, p)
  }

  /** The first position of a sector that has an entry of its own: an entry that names 0 was never
      written. */
  function Lo(s: seq<Smoothness>, sp: int): int
    requires 0 <= sp < |s|
  {
    if s[sp].ind == 0 then sp + 1 else sp
  }

  /** Sector `j` of ring `i` is processed, and within the arrays. */
  predicate Processed(info: CloudInfo, i: int, j: int, cells: int)
    requires |info.startRing| == |info.endRing|
  {
    && 0 <= i < |info.startRing| && 0 <= j < 6 && 0 <= Sp(info, i, j) < Ep(info, i, j) < cells
  }

  /** Every entry of the sector holds its own curvature and names its own position, but for a first
      one that was never written; and no entry scanned elsewhere names a position of the sector. */
  ghost predicate Sound(info: CloudInfo, i: int, j: int, s: seq<Smoothness>, f: Frame)
    requires |info.startRing| == |info.endRing| && f.Sized() && |s| == |f.labels|
  {
    && Processed(info, i, j, |s|)
    && var sp, ep := Sp(info, i, j), Ep(info, i, j);
      && 5 <= Lo(s, sp) && ep < info.size
      && (forall k :: Lo(s, sp) <= k <= ep ==> s[k] == Smoothness(f.curvature[k], k) && f.labels[k] == 0)
      && Spared(info, s, sp, ep)
  }

  /** No entry scanned elsewhere names a position of `[sp, ep]`. */
  ghost predicate Spared(info: CloudInfo, s: seq<Smoothness>, sp: int, ep: int)
    requires |info.startRing| == |info.endRing|
  {
    forall k :: InScan(info, k) && !(sp <= k <= ep) ==> 0 <= k < |s| && !(sp <= s[k].ind <= ep)
  }

  /** Nothing has touched the sector so far. */
  ghost predicate Clean(info: CloudInfo, i: int, j: int, s0: seq<Smoothness>, s: seq<Smoothness>, f: Frame)
    requires |info.startRing| == |info.endRing| && f.Sized() && |s| == |s0| == |f.labels|
    requires Processed(info, i, j, |s|)
  {
    forall k :: Sp(info, i, j) <= k <= Ep(info, i, j) ==>
      s[k] == s0[k] && (Lo(s0, Sp(info, i, j)) <= k ==> f.labels[k] == 0 && k !in f.corners && k !in f.surf)
  }

  /** The sector holds an entry that was never written, and position 0, which it names, is still in
      the race and flat, or sharp with room below the cap: the choice of position 0 makes the code
      look at position -1. */
  predicate Exposed(s0: seq<Smoothness>, f: Frame, t: Thresholds, sp: int, ep: int)
    requires f.Sized() && |s0| == |f.labels| && 0 <= sp < ep < |s0|
  {
    s0[sp].ind == 0 && Zero(f, t, Lo(s0, sp), ep)
  }

  /** The sector is as the frame began: entries of its own, but perhaps for the first, no labels,
      nothing in the clouds. */
  ghost predicate Untouched(s: seq<Smoothness>, f: Frame, sp: int, ep: int, n: int)
    requires f.Sized() && |s| == |f.labels| && 0 <= sp < ep < |s|
  {
    && 5 <= Lo(s, sp) && ep < n
    && forall k :: Lo(s, sp) <= k <= ep ==>
         s[k] == Smoothness(f.curvature[k], k) && f.labels[k] == 0 && k !in f.corners && k !in f.surf
  }

  /** What a sound sector is when the work on it is over. */
  ghost predicate Finished(s0: seq<Smoothness>, f: Frame, t: Thresholds, sp: int, ep: int)
    requires f.Sized() && |s0| == |f.labels| && 0 <= sp < ep < |s0|
  {
    SectorDone(f.labels, f.picked, f.curvature, t, f.corners, f.surf, Lo(s0, sp), ep) && !Exposed(s0, f, t, sp, ep)
  }

  /** Work elsewhere leaves it so. */
  lemma StaysFinished(s0: seq<Smoothness>, f: Frame, g: Frame, t: Thresholds, sp: int, ep: int)
    requires Later(f, g) && |s0| == |f.labels| && 0 <= sp < ep < |s0|
    requires forall p :: sp <= p <= ep ==> SameAt(f, g, p)
    requires Finished(s0, f, t, sp, ep)
    ensures Finished(s0, g, t, sp, ep)
  {
    var lo := Lo(s0, sp);
    forall k | lo <= k <= ep
      ensures g.labels[k] == f.labels[k] && (k in g.corners <==> k in f.corners) && (k in g.surf <==> k in f.surf)
    {
      assert SameAt(f, g, k);
    }
    SectorStaysDone(f.labels, f.picked, g.labels, g.picked, f.curvature, t, f.corners, f.surf, g.corners, g.surf, lo, ep);
    assert Corners(g.labels, lo, ep) == Corners(f.labels, lo, ep);
    hide SectorDone;
  }

  lemma SectorInScan(info: CloudInfo, i: int, j: int, k: int)
    requires 0 <= i < |info.startRing| == |info.endRing|
    requires 0 <= j < 6 && Sp(info, i, j) < Ep(info, i, j) && Sp(info, i, j) <= k <= Ep(info, i, j)
    ensures InScan(info, k)
  {
    SectorMember(info, i, j, k);
  }

  /** Two processed sectors, one after the other, have no position in common. */
  lemma SectorsApart(info: CloudInfo, i: int, j: int, r: int, m: int)
    requires |info.startRing| == |info.endRing| && RingsOrdered(info)
    requires 0 <= i <= r < |info.startRing| && 0 <= j < 6 && 0 <= m < 6 && (i == r ==> j < m)
    requires Sp(info, i, j) < Ep(info, i, j) && Sp(info, r, m) < Ep(info, r, m)
    ensures Ep(info, i, j) < Sp(info, r, m)
  {
    SectorOrder(info, i);
    SectorOrder(info, r);
    hide Sp;
    hide Ep;
  }

  /** Work on one sector does not touch a sound one. */
  lemma SoundUntouched(info: CloudInfo, s0: seq<Smoothness>, f0: Frame, s: seq<Smoothness>, r: int, m: int, i: int, j: int)
    requires |info.startRing| == |info.endRing| && RingsOrdered(info) && f0.Sized() && |s| == |s0| == |f0.labels|
    requires Sound(info, r, m, s0, f0) && Processed(info, i, j, |s|) && (i, j) != (r, m)
    requires forall k :: Sp(info, i, j) <= k <= Ep(info, i, j) ==> s[k] == s0[k]
    ensures forall p :: Sp(info, r, m) <= p <= Ep(info, r, m) ==> !Touched(s, Sp(info, i, j), Ep(info, i, j), p)
  {
    if i < r || (i == r && j < m) { SectorsApart(info, i, j, r, m); } else { SectorsApart(info, r, m, i, j); }
    hide Sp;
    hide Ep;
    hide InScan;
    forall p | Sp(info, r, m) <= p <= Ep(info, r, m) ensures !Touched(s, Sp(info, i, j), Ep(info, i, j), p) {
      if k :| Sp(info, i, j) <= k <= Ep(info, i, j) && s[k].ind == p {
        SectorInScan(info, i, j, k);
      }
    }
  }

  // ---------------------------------------------------------------------------
  // The extractor

  class Extractor {
    const thresholds: Thresholds
    var info: CloudInfo
    const smoothness: array<Smoothness>
    const curvature: array<real>
    const neighborPicked: array<bool>
    const labels: array<int>
    /** Positions of the points in the corner cloud, and ring by ring of the surface cloud as
        it enters the voxel filter. */
    var cornerCloud: seq<int>
    var surfaceScans: seq<seq<int>>

    ghost predicate Valid()
      reads this
    {
      var n := smoothness.Length;
      && curvature.Length == n && neighborPicked.Length == n && labels.Length == n
      && |info.col| == n && |info.range| == n && info.size <= n
      && |info.startRing| == |info.endRing|
    }

    constructor (cells: nat, edge: real, surf: real)
      ensures Valid() && fresh(smoothness) && fresh(curvature) && fresh(neighborPicked) && fresh(labels)
      ensures thresholds == Thresholds(edge, surf) && smoothness.Length == cells
      ensures smoothness[..] == seq(cells, i => Smoothness(0.0, 0)) && KnownEntries()
    {
      thresholds := Thresholds(edge, surf);
      info := CloudInfo([], [], seq(cells, i => 0), seq(cells, i => 0.0), 0);
      smoothness := new Smoothness[cells](i => Smoothness(0.0, 0));
      curvature, neighborPicked, labels := new real[cells], new bool[cells], new int[cells];
      cornerCloud, surfaceScans := [], [];
    }

    method CalculateSmoothness()
      requires Valid()
      modifies smoothness, curvature, neighborPicked, labels
      ensures forall i :: Inner(i, info.size) ==>
        && curvature[i] == Curvature(info.range[..info.size], i)
        && smoothness[i] == Smoothness(curvature[i], i)
        && !neighborPicked[i] && labels[i] == 0
      ensures forall i :: 0 <= i < smoothness.Length && !Inner(i, info.size) ==>
        && curvature[i] == old(curvature[i]) && smoothness[i] == old(smoothness[i])
        && neighborPicked[i] == old(neighborPicked[i]) && labels[i] == old(labels[i])
    {
      hide DiffRange;
      var cloudSize: int := info.size;
      var i: int := 5;
      while i < cloudSize - 5
        invariant 5 <= i && (i <= cloudSize - 5 || i == 5)
        invariant forall k :: 5 <= k < i ==>
          && curvature[k] == Curvature(info.range[..info.size], k)
          && smoothness[k] == Smoothness(curvature[k], k)
          && !neighborPicked[k] && labels[k] == 0
        invariant forall k :: 0 <= k < smoothness.Length && !(5 <= k < i) ==>
          && curvature[k] == old(curvature[k]) && smoothness[k] == old(smoothness[k])
          && neighborPicked[k] == old(neighborPicked[k]) && labels[k] == old(labels[k])
      {
        var diffRange := DiffRange(info.range[..cloudSize], i);
        curvature[i] := diffRange * diffRange;
        neighborPicked[i] := false;
        labels[i] := 0;
        smoothness[i] := Smoothness(curvature[i], i);
        i := i + 1;
      }
    }

    method MarkBefore(i: int)
      requires 5 <= i < neighborPicked.Length
      modifies neighborPicked
      ensures forall p :: 0 <= p < neighborPicked.Length ==>
        (neighborPicked[p] <==> (old(neighborPicked[p]) || i - 5 <= p <= i))
    {
      neighborPicked[i - 5] := true;
      neighborPicked[i - 4] := true;
      neighborPicked[i - 3] := true;
      neighborPicked[i - 2] := true;
      neighborPicked[i - 1] := true;
      neighborPicked[i] := true;
    }

    method MarkAfter(i: int)
      requires 0 <= i && i + 6 < neighborPicked.Length
      modifies neighborPicked
      ensures forall p :: 0 <= p < neighborPicked.Length ==>
        (neighborPicked[p] <==> (old(neighborPicked[p]) || i + 1 <= p <= i + 6))
    {
      neighborPicked[i + 1] := true;
      neighborPicked[i + 2] := true;
      neighborPicked[i + 3] := true;
      neighborPicked[i + 4] := true;
      neighborPicked[i + 5] := true;
      neighborPicked[i + 6] := true;
    }

    /** The tests made at one position. */
    method MarkOccludedAt(i: int)
      requires Valid() && 5 <= i < info.size - 6
      modifies neighborPicked
      ensures forall p :: 0 <= p < neighborPicked.Length ==>
        (neighborPicked[p] <==> (old(neighborPicked[p]) || Occludes(info, i, p)))
    {
      var depth1, depth2 := info.range[i], info.range[i + 1];
      var columnDiff := Abs(info.col[i + 1] - info.col[i]);
      if columnDiff < 10 {
        if depth1 - depth2 > 0.3 {
          MarkBefore(i);
        } else if depth2 - depth1 > 0.3 {
          MarkAfter(i);
        }
      }
      var diff1 := AbsReal(info.range[i - 1] - info.range[i]);
      var diff2 := AbsReal(info.range[i + 1] - info.range[i]);
      if diff1 > info.range[i] * 0.02 && diff2 > info.range[i] * 0.02 {
        neighborPicked[i] := true;
      }
    }

    /** Some position before `limit` rules out `p`. */
    ghost predicate OccludedBefore(limit: int, p: int)
      requires Valid() && (limit <= info.size - 6 || limit == 5)
      reads this
    {
      exists i :: 5 <= i < limit && Occludes(info, i, p)
    }

    method MarkOccludedPoints()
      requires Valid()
      modifies neighborPicked
      ensures forall p :: 0 <= p < neighborPicked.Length ==>
        (neighborPicked[p] <==> (old(neighborPicked[p]) || exists i :: 5 <= i < info.size - 6 && Occludes(info, i, p)))
    {
      hide Occludes;
      var cloudSize: int := info.size;
      var i: int := 5;
      while i < cloudSize - 6
        invariant 5 <= i && (i <= cloudSize - 6 || i == 5)
        invariant forall p :: 0 <= p < neighborPicked.Length ==>
          (neighborPicked[p] <==> (old(neighborPicked[p]) || OccludedBefore(i, p)))
      {
        MarkOccludedAt(i);
        forall p | 0 <= p < neighborPicked.Length
          ensures OccludedBefore(i + 1, p) <==> (OccludedBefore(i, p) || Occludes(info, i, p))
        {}
        i := i + 1;
      }
    }

    method MarkRight(ind: int)
      requires Valid() && Inner(ind, neighborPicked.Length)
      modifies neighborPicked
      ensures forall q :: 0 <= q < neighborPicked.Length ==>
        (neighborPicked[q] <==> (old(neighborPicked[q]) || (ind < q && Linked(info.col, ind, q))))
    {
      var l := 1;
      while l <= 5
        invariant 1 <= l <= 6
        invariant forall m :: ind < m < ind + l ==> Abs(info.col[m] - info.col[m - 1]) <= 10
        invariant forall q :: 0 <= q < neighborPicked.Length ==>
          (neighborPicked[q] <==> (old(neighborPicked[q]) || ind < q < ind + l))
      {
        var columnDiff := Abs(info.col[ind + l] - info.col[ind + l - 1]);
        if columnDiff > 10 { break; }
        neighborPicked[ind + l] := true;
        l := l + 1;
      }
      assert forall q :: ind <= q < ind + l ==> Linked(info.col, ind, q);
      assert forall q :: ind + l <= q <= ind + 5 ==> !Linked(info.col, ind, q);
    }

    method MarkLeft(ind: int)
      requires Valid() && Inner(ind, neighborPicked.Length)
      modifies neighborPicked
      ensures forall q :: 0 <= q < neighborPicked.Length ==>
        (neighborPicked[q] <==> (old(neighborPicked[q]) || (q < ind && Linked(info.col, ind, q))))
    {
      var l := -1;
      while l >= -5
        invariant -6 <= l <= -1
        invariant forall m :: ind + l + 1 < m <= ind ==> Abs(info.col[m] - info.col[m - 1]) <= 10
        invariant forall q :: 0 <= q < neighborPicked.Length ==>
          (neighborPicked[q] <==> (old(neighborPicked[q]) || ind + l < q < ind))
      {
        var columnDiff := Abs(info.col[ind + l] - info.col[ind + l + 1]);
        if columnDiff > 10 { break; }
        neighborPicked[ind + l] := true;
        l := l - 1;
      }
      assert forall q :: ind + l < q <= ind ==> Linked(info.col, ind, q);
      forall q | ind - 5 <= q <= ind + l ensures !Linked(info.col, ind, q) {
        assert Abs(info.col[ind + l + 1] - info.col[ind + l]) > 10;
      }
    }

    /** Takes the chosen point out of the race, with its reach on both sides. */
    method MarkNeighbors(ind: int)
      requires Valid() && Inner(ind, neighborPicked.Length)
      modifies neighborPicked
      ensures forall q :: 0 <= q < neighborPicked.Length ==>
        (neighborPicked[q] <==> (old(neighborPicked[q]) || Linked(info.col, ind, q)))
    {
      LinkedSelf(info.col, ind);
      hide Linked;
      neighborPicked[ind] := true;
      MarkRight(ind);
      MarkLeft(ind);
    }

    method LeastIndex(i: int, hi: int) returns (least: int)
      requires 0 <= i < hi <= smoothness.Length
      ensures i <= least < hi && forall b :: i <= b < hi ==> smoothness[least].value <= smoothness[b].value
    {
      least := i;
      var j := i + 1;
      while j < hi
        invariant i <= least < j <= hi
        invariant forall b :: i <= b < j ==> smoothness[least].value <= smoothness[b].value
      {
        if smoothness[j].value < smoothness[least].value { least := j; }
        j := j + 1;
      }
    }

    method SwapEntries(lo: int, hi: int, i: int, j: int)
      requires 0 <= lo <= i <= j < hi <= smoothness.Length
      modifies smoothness
      ensures smoothness[i] == old(smoothness[j]) && smoothness[j] == old(smoothness[i])
      ensures forall k :: 0 <= k < smoothness.Length && k != i && k != j ==> smoothness[k] == old(smoothness[k])
      ensures multiset(smoothness[lo..hi]) == multiset(old(smoothness[lo..hi]))
    {
      ghost var was := smoothness[..];
      smoothness[i], smoothness[j] := smoothness[j], smoothness[i];
      SwapInSlice(was, smoothness[..], lo, hi, i, j);
      assert smoothness[lo..hi] == smoothness[..][lo..hi] && was[lo..hi] == old(smoothness[lo..hi]);
    }

    /** In-place sort of `[lo, hi)`. */
    method SortRange(lo: int, hi: int)
      requires 0 <= lo <= hi <= smoothness.Length
      modifies smoothness
      ensures SortedRange(smoothness[..], lo, hi)
      ensures multiset(smoothness[lo..hi]) == multiset(old(smoothness[lo..hi]))
      ensures forall k :: 0 <= k < smoothness.Length && !(lo <= k < hi) ==> smoothness[k] == old(smoothness[k])
    {
      var i := lo;
      while i < hi
        invariant lo <= i <= hi
        invariant forall a, b :: lo <= a < i && a < b < hi ==> smoothness[a].value <= smoothness[b].value
        invariant multiset(smoothness[lo..hi]) == multiset(old(smoothness[lo..hi]))
        invariant forall k :: 0 <= k < smoothness.Length && !(lo <= k < hi) ==> smoothness[k] == old(smoothness[k])
      {
        var least := LeastIndex(i, hi);
        ghost var before := smoothness[..];
        SwapEntries(lo, hi, i, least);
        forall a, b | lo <= a < i + 1 && a < b < hi ensures smoothness[a].value <= smoothness[b].value {
          assert before[i].value >= before[least].value;
          assert b != i && b != least ==> smoothness[b] == before[b];
        }
        i := i + 1;
      }
    }

    ghost predicate InvariantHolds()
      requires Valid()
      reads this, labels, neighborPicked
    {
      && Covered(labels[..], neighborPicked[..], info.col, info.size)
      && Separated(labels[..], info.col, info.size)
    }

    ghost predicate KnownEntries()
      reads this, smoothness
    {
      forall k :: 0 <= k < smoothness.Length ==> Known(smoothness[k].ind, smoothness.Length)
    }

    /** The choice of entry `k` as a corner would leave the arrays: its point has too few neighbours
        before it, or is not in the cloud. */
    ghost predicate SharpStray(k: int)
      requires Valid() && 0 <= k < smoothness.Length && KnownEntries()
      reads this, smoothness, curvature, neighborPicked
    {
      var ind := smoothness[k].ind;
      !(5 <= ind < info.size) && curvature[ind] > thresholds.edge && !neighborPicked[ind]
    }

    /** The choice of entry `k` as a planar point would. */
    ghost predicate FlatStray(k: int)
      requires Valid() && 0 <= k < smoothness.Length && KnownEntries()
      reads this, smoothness, curvature, neighborPicked
    {
      var ind := smoothness[k].ind;
      ind < 5 && curvature[ind] < thresholds.surf && !neighborPicked[ind]
    }

    /** Labels one point and takes its reach out of the race. */
    method Pick(ind: int, value: int, ghost cs: seq<int>, ghost base: seq<bool>)
      requires Valid() && Inner(ind, smoothness.Length) && !neighborPicked[ind] && InvariantHolds()
      requires |base| == neighborPicked.Length
      requires forall q :: 0 <= q < |base| ==> (neighborPicked[q] <==> (base[q] || Reached(cs, info.col, q)))
      modifies neighborPicked, labels
      ensures InvariantHolds()
      ensures labels[..] == old(labels[..])[ind := value]
      ensures neighborPicked[ind]
      ensures forall q :: 0 <= q < |base| && old(neighborPicked[q]) ==> neighborPicked[q]
      ensures forall q :: 0 <= q < |base| ==> (neighborPicked[q] <==> (base[q] || Reached(cs + [ind], info.col, q)))
    {
      hide Linked;
      hide Covered;
      hide Separated;
      LinkedSelf(info.col, ind);
      ReachedAppend(cs, ind, info.col);
      labels[ind] := value;
      MarkNeighbors(ind);
      PickKeepsSeparation(old(labels[..]), old(neighborPicked[..]), neighborPicked[..], info.col, info.size, ind, value);
    }

    /** Corners of one sector, sharpest first except that the entry at `ep` comes before all:
        `cs` are the points taken, `stop` the last entry looked at. It ends at once, `outside`,
        where the choice of a point would leave the arrays. */
    method PickCorners(sp: int, ep: int) returns (outside: bool, ghost cs: seq<int>, ghost stop: int)
      requires Valid() && 0 <= sp <= ep < smoothness.Length && KnownEntries() && InvariantHolds()
      modifies neighborPicked, labels, this`cornerCloud
      ensures InvariantHolds()
      ensures cornerCloud == old(cornerCloud) + cs
      ensures |cs| <= 20 && Distinct(cs)
      ensures forall c :: c in cs ==> Inner(c, labels.Length) && curvature[c] > thresholds.edge && neighborPicked[c]
      ensures PickedBy(info.col, old(neighborPicked[..]), neighborPicked[..], cs, [])
      ensures sp <= stop <= ep + 1 && (!outside && |cs| < 20 ==> stop == sp)
      ensures !outside && sp < stop ==>
        |cs| == 20 && curvature[smoothness[stop - 1].ind] > thresholds.edge && !neighborPicked[smoothness[stop - 1].ind]
      ensures forall c :: c in cs ==> Names(smoothness[..], c, stop, ep)
      ensures forall p :: 0 <= p < labels.Length ==> labels[p] == if p in cs then 1 else old(labels[p])
      ensures forall q :: 0 <= q < neighborPicked.Length ==>
        (neighborPicked[q] <==> (old(neighborPicked[q]) || Reached(cs, info.col, q)))
      ensures forall k :: stop <= k <= ep && curvature[smoothness[k].ind] > thresholds.edge ==>
        neighborPicked[smoothness[k].ind]
      ensures outside <==> |cs| < 20 && exists k :: sp <= k <= ep && SharpStray(k)
    {
      hide Linked;
      hide Covered;
      hide Separated;
      hide PickedBy;
      hide Names;
      hide Reached;
      hide Distinct;
      cs, outside := [], false;
      NothingReached(info.col);
      NothingTwice();
      ghost var base := neighborPicked[..];
      var largestPickedNum := 0;
      var k := ep;
      while k >= sp
        invariant sp - 1 <= k <= ep && !outside
        invariant InvariantHolds()
        invariant cornerCloud == old(cornerCloud) + cs
        invariant largestPickedNum == |cs| <= 20 && Distinct(cs)
        invariant forall c :: c in cs ==> Inner(c, labels.Length) && curvature[c] > thresholds.edge && neighborPicked[c]
        invariant forall c :: c in cs ==> !base[c]
        invariant forall c :: c in cs ==> Names(smoothness[..], c, k + 1, ep)
        invariant forall p :: 0 <= p < labels.Length ==> labels[p] == if p in cs then 1 else old(labels[p])
        invariant forall q :: 0 <= q < |base| ==> (neighborPicked[q] <==> (base[q] || Reached(cs, info.col, q)))
        invariant forall m :: k < m <= ep && curvature[smoothness[m].ind] > thresholds.edge ==>
          neighborPicked[smoothness[m].ind]
      {
        var ind := smoothness[k].ind;
        if !neighborPicked[ind] && curvature[ind] > thresholds.edge {
          if largestPickedNum == 20 { break; }
          if ind < 5 || ind >= info.size {
            assert SharpStray(k);
            PickedOnce(info.col, base, neighborPicked[..], cs);
            stop := k + 1;
            return true, cs, stop;
          }
          largestPickedNum := largestPickedNum + 1;
          cornerCloud := cornerCloud + [ind];
          ghost var pickedBefore := neighborPicked[..];
          Pick(ind, 1, cs, base);
          assert forall q :: 0 <= q < |base| && pickedBefore[q] ==> neighborPicked[q];
          NamedHere(smoothness[..], cs, k, ep);
          DistinctMore(cs, ind);
          cs := cs + [ind];
        } else {
          NamesWider(smoothness[..], cs, k + 1, k, ep);
        }
        k := k - 1;
      }
      PickedOnce(info.col, base, neighborPicked[..], cs);
      stop := k + 1;
    }

    /** Planar points of one sector; no cap. It ends at once, `outside`, where the choice of a point
        would leave the arrays. */
    method PickSurface(sp: int, ep: int) returns (outside: bool, ghost fs: seq<int>)
      requires Valid() && 0 <= sp <= ep < smoothness.Length && KnownEntries() && InvariantHolds()
      modifies neighborPicked, labels
      ensures InvariantHolds()
      ensures forall c :: c in fs ==>
        Inner(c, labels.Length) && curvature[c] < thresholds.surf && !old(neighborPicked[c])
      ensures forall c :: c in fs ==> Names(smoothness[..], c, sp, ep)
      ensures forall p :: 0 <= p < labels.Length ==> labels[p] == if p in fs then -1 else old(labels[p])
      ensures forall q :: 0 <= q < neighborPicked.Length ==>
        (neighborPicked[q] <==> (old(neighborPicked[q]) || Reached(fs, info.col, q)))
      ensures PickedBy(info.col, old(neighborPicked[..]), neighborPicked[..], fs, [])
      ensures !outside ==> forall k :: sp <= k <= ep && curvature[smoothness[k].ind] < thresholds.surf ==>
        neighborPicked[smoothness[k].ind]
      ensures outside <==> exists k :: sp <= k <= ep && FlatStray(k)
    {
      hide Linked;
      hide Covered;
      hide Separated;
      hide PickedBy;
      fs, outside := [], false;
      ghost var base := neighborPicked[..];
      var k := sp;
      while k <= ep
        invariant sp <= k <= ep + 1 && !outside
        invariant InvariantHolds()
        invariant forall c :: c in fs ==> Inner(c, labels.Length) && curvature[c] < thresholds.surf && !base[c]
        invariant forall c :: c in fs ==> Names(smoothness[..], c, sp, k - 1)
        invariant forall p :: 0 <= p < labels.Length ==> labels[p] == if p in fs then -1 else old(labels[p])
        invariant forall q :: 0 <= q < |base| ==> (neighborPicked[q] <==> (base[q] || Reached(fs, info.col, q)))
        invariant forall m :: sp <= m < k && curvature[smoothness[m].ind] < thresholds.surf ==>
          neighborPicked[smoothness[m].ind]
      {
        var ind := smoothness[k].ind;
        if !neighborPicked[ind] && curvature[ind] < thresholds.surf {
          if ind < 5 {
            assert FlatStray(k);
            PickedOnce(info.col, base, neighborPicked[..], fs);
            return true, fs;
          }
          ghost var pickedBefore := neighborPicked[..];
          Pick(ind, -1, fs, base);
          assert forall q :: 0 <= q < |base| && pickedBefore[q] ==> neighborPicked[q];
          assert Names(smoothness[..], ind, sp, k);
          fs := fs + [ind];
        }
        k := k + 1;
      }
      PickedOnce(info.col, base, neighborPicked[..], fs);
    }

    /** Everything in the sector that is not a corner goes to the surface cloud, in order. */
    method CollectSurface(sp: int, ep: int, scan: seq<int>) returns (scan': seq<int>)
      requires 0 <= sp <= ep < labels.Length
      ensures |scan| <= |scan'| && scan'[..|scan|] == scan
      ensures forall p :: p in scan' <==> (p in scan || (sp <= p <= ep && labels[p] <= 0))
      ensures forall a, b :: |scan| <= a < b < |scan'| ==> scan'[a] < scan'[b]
    {
      scan' := scan;
      var k := sp;
      while k <= ep
        invariant sp <= k <= ep + 1
        invariant |scan| <= |scan'| && scan'[..|scan|] == scan
        invariant forall p :: p in scan' <==> (p in scan || (sp <= p < k && labels[p] <= 0))
        invariant forall a :: |scan| <= a < |scan'| ==> scan'[a] < k
        invariant forall a, b :: |scan| <= a < b < |scan'| ==> scan'[a] < scan'[b]
      {
        if labels[k] <= 0 {
          scan' := scan' + [k];
        }
        k := k + 1;
      }
    }

    ghost function MarksNow(): Marks
      reads this, labels, neighborPicked
    {
      Marks(labels[..], neighborPicked[..])
    }

    ghost function Snapshot(scan: seq<int>): Frame
      requires Valid()
      reads this, curvature, labels, neighborPicked
    {
      Frame(labels[..], neighborPicked[..], curvature[..], cornerCloud, scan)
    }

    /** Sorts a sector but for its last entry. */
    method SortSector(sp: int, ep: int)
      requires Valid() && 0 <= sp < ep < smoothness.Length && KnownEntries()
      modifies smoothness
      ensures KnownEntries() && SortedRange(smoothness[..], sp, ep)
      ensures Rearranged(smoothness[..], old(smoothness[..]), sp, ep) && smoothness[ep] == old(smoothness[ep])
    {
      ghost var was := smoothness[..];
      SortRange(sp, ep);
      SortedEntries(was, smoothness[..], sp, ep);
      KnownRearranged(was, smoothness[..], sp, ep);
    }

    /** Corners and planar points of a sorted sector. */
    method RunPicks(sp: int, ep: int) returns (outside: bool, ghost cs: seq<int>, ghost fs: seq<int>, ghost stop: int)
      requires Valid() && 0 <= sp < ep < smoothness.Length && KnownEntries() && InvariantHolds()
      modifies neighborPicked, labels, this`cornerCloud
      ensures InvariantHolds()
      ensures cornerCloud == old(cornerCloud) + cs
      ensures Chosen(smoothness[..], curvature[..], old(labels[..]), labels[..], cs, fs, sp, ep, thresholds)
      ensures outside <==> (|cs| < 20 && exists k :: sp <= k <= ep && SharpStray(k))
                           || exists k :: sp <= k <= ep && FlatStray(k)
      ensures !outside ==> LoopsDone(smoothness[..], curvature[..], neighborPicked[..], cs, stop, sp, ep, thresholds)
      ensures PickedBy(info.col, old(neighborPicked[..]), neighborPicked[..], cs, fs)
    {
      hide Linked;
      hide Reached;
      hide Names;
      hide InvariantHolds;
      hide Chosen;
      hide LoopsDone;
      hide PickedBy;
      ghost var s, curv, labels0, picked0 := smoothness[..], curvature[..], labels[..], neighborPicked[..];
      fs := [];
      outside, cs, stop := PickCorners(sp, ep);
      NamesWider(s, cs, stop, sp, ep);
      ghost var labels1, picked1 := labels[..], neighborPicked[..];
      if outside {
        ChosenBoth(s, curv, labels0, labels1, labels1, picked1, cs, [], sp, ep, thresholds);
        return;
      }
      assert forall k :: sp <= k <= ep && |cs| < 20 ==> !SharpStray(k);
      outside, fs := PickSurface(sp, ep);
      assert forall k :: sp <= k <= ep && |cs| < 20 ==> !SharpStray(k);
      PickedTwice(info.col, picked0, picked1, neighborPicked[..], cs, fs);
      ChosenBoth(s, curv, labels0, labels1, labels[..], picked1, cs, fs, sp, ep, thresholds);
      if outside { return; }
      LoopsOver(s, curv, picked1, neighborPicked[..], cs, stop, sp, ep, thresholds);
    }

    /** Corners, planar points and surface cloud of a sorted sector. */
    method RunLoops(sp: int, ep: int, scan: seq<int>)
      returns (outside: bool, scan': seq<int>, ghost cs: seq<int>, ghost fs: seq<int>, ghost stop: int)
      requires Valid() && 0 <= sp < ep < smoothness.Length && KnownEntries() && InvariantHolds()
      modifies neighborPicked, labels, this`cornerCloud
      ensures InvariantHolds()
      ensures forall q :: 0 <= q < neighborPicked.Length && old(neighborPicked[q]) ==> neighborPicked[q]
      ensures cornerCloud == old(cornerCloud) + cs
      ensures Chosen(smoothness[..], curvature[..], old(labels[..]), labels[..], cs, fs, sp, ep, thresholds)
      ensures outside <==> (|cs| < 20 && exists k :: sp <= k <= ep && SharpStray(k))
                           || exists k :: sp <= k <= ep && FlatStray(k)
      ensures !outside ==> LoopsDone(smoothness[..], curvature[..], neighborPicked[..], cs, stop, sp, ep, thresholds)
      ensures PickedBy(info.col, old(neighborPicked[..]), neighborPicked[..], cs, fs)
      ensures forall p :: p in scan' <==> (p in scan || (!outside && sp <= p <= ep && labels[p] <= 0))
    {
      hide InvariantHolds;
      hide Chosen;
      hide LoopsDone;
      ghost var picked0 := neighborPicked[..];
      scan' := scan;
      outside, cs, fs, stop := RunPicks(sp, ep);
      assert forall q :: 0 <= q < |picked0| && picked0[q] ==> neighborPicked[..][q];
      hide PickedBy;
      if !outside { scan' := CollectSurface(sp, ep, scan); }
    }

    /** The sorted entries name the stretch from `lo` on, and no loop has touched it. */
    ghost predicate Ready(sp: int, lo: int, ep: int, scan: seq<int>)
      requires Valid() && 0 <= sp <= lo <= ep < smoothness.Length
      reads this, smoothness, curvature, labels
    {
      && 5 <= lo && ep < info.size
      && NamesSector(smoothness[..], curvature[..], sp, lo, ep) && SortedRange(smoothness[..], sp, ep)
      && forall k :: lo <= k <= ep ==> labels[k] == 0 && k !in cornerCloud && k !in scan
    }

    /** Corners, planar points and surface cloud of a sorted sector, which may begin with an entry
        that names 0. */
    method ProcessSorted(sp: int, ep: int, scan: seq<int>, ghost lo: int) returns (outside: bool, scan': seq<int>)
      requires Valid() && 0 <= sp < ep < smoothness.Length && KnownEntries() && InvariantHolds()
      requires lo == sp || lo == sp + 1
      modifies neighborPicked, labels, this`cornerCloud
      ensures InvariantHolds() && Marked(info.col, curvature[..], thresholds, old(MarksNow()), MarksNow())
      ensures Changed(old(Snapshot(scan)), Snapshot(scan'), smoothness[..], sp, ep)
      ensures old(Ready(sp, lo, ep, scan)) ==>
        && (outside <==> lo > sp && Zero(Snapshot(scan'), thresholds, lo, ep))
        && (!outside ==>
              SectorDone(labels[..], neighborPicked[..], curvature[..], thresholds, cornerCloud, scan', lo, ep))
    {
      hide Marked;
      hide Covered;
      hide Separated;
      hide SectorDone;
      hide SortedRange;
      hide NamesSector;
      hide LoopsDone;
      hide Chosen;
      hide Names;
      hide PickedBy;
      ghost var labels0, corners, s, curv := labels[..], cornerCloud, smoothness[..], curvature[..];
      ghost var cs, fs, stop;
      outside, scan', cs, fs, stop := RunLoops(sp, ep, scan);
      ChosenTouches(s, curv, labels0, labels[..], cs, fs, corners, sp, ep, thresholds);
      ChosenMarks(info.col, s, curv, old(MarksNow()), MarksNow(), cs, fs, sp, ep, thresholds);
      if old(Ready(sp, lo, ep, scan)) {
        CapOfSector(s, curv, labels0, labels[..], cs, fs, sp, lo, ep, thresholds);
        StraysNameZero(s, curv, sp, lo, ep, info.size);
        forall k | sp <= k <= ep
          ensures SharpStray(k) <==> s[k].ind == 0 && curvature[0] > thresholds.edge && !neighborPicked[0]
          ensures FlatStray(k) <==> s[k].ind == 0 && curvature[0] < thresholds.surf && !neighborPicked[0]
        {}
        if lo > sp {
          var k :| sp <= k <= ep && s[k].ind == 0;
          assert SharpStray(k) <==> curvature[0] > thresholds.edge && !neighborPicked[0];
          assert FlatStray(k) <==> curvature[0] < thresholds.surf && !neighborPicked[0];
        }
        if !outside {
          FinishSector(s, curv, labels0, labels[..], neighborPicked[..], cs, fs, stop,
            corners, scan, scan', sp, lo, ep, thresholds);
        }
      }
    }

    /** One sector: sort, corners, planar points, surface cloud. */
    method ProcessSector(sp: int, ep: int, scan: seq<int>) returns (outside: bool, scan': seq<int>)
      requires Valid() && 0 <= sp < ep < smoothness.Length && KnownEntries() && InvariantHolds()
      modifies smoothness, neighborPicked, labels, this`cornerCloud
      ensures InvariantHolds() && KnownEntries() && Marked(info.col, curvature[..], thresholds, old(MarksNow()), MarksNow())
      ensures Rearranged(smoothness[..], old(smoothness[..]), sp, ep)
      ensures Changed(old(Snapshot(scan)), Snapshot(scan'), old(smoothness[..]), sp, ep)
      ensures old(Untouched(smoothness[..], Snapshot(scan), sp, ep, info.size)) ==>
        && (outside <==> Exposed(old(smoothness[..]), Snapshot(scan'), thresholds, sp, ep))
        && (!outside ==> Finished(old(smoothness[..]), Snapshot(scan'), thresholds, sp, ep))
    {
      hide Marked;
      hide Covered;
      hide Separated;
      hide SectorDone;
      ghost var was, lo := smoothness[..], Lo(smoothness[..], sp);
      ghost var before := Snapshot(scan);
      ghost var fresh0 := Untouched(was, before, sp, ep, info.size);
      SortSector(sp, ep);
      hide SortedRange;
      hide NamesSector;
      if fresh0 {
        FreshEntries(was, smoothness[..], curvature[..], sp, lo, ep);
        assert Ready(sp, lo, ep, scan);
      }
      hide Known;
      outside, scan' := ProcessSorted(sp, ep, scan, lo);
      ChangedBeforeSort(before, Snapshot(scan'), was, smoothness[..], sp, ep);
    }

    /** Every position the sectors reach lies in the arrays. */
    ghost predicate ScanInBounds()
      requires Valid()
      reads this
    {
      forall k :: InScan(info, k) ==> 0 <= k < smoothness.Length
    }

    lemma SectorBounds(i: int, j: int)
      requires Valid() && ScanInBounds() && 0 <= i < |info.startRing| && 0 <= j < 6
      requires Sp(info, i, j) < Ep(info, i, j)
      ensures Processed(info, i, j, smoothness.Length)
    {
      hide InScan;
      SectorInScan(info, i, j, Sp(info, i, j));
      SectorInScan(info, i, j, Ep(info, i, j));
      hide Sp;
      hide Ep;
    }

    /** One sector inside its ring, with what it means for the others: `s0` and `f0` are the entries
        and the frame before the first. */
    method SectorStep(i: int, j: int, scan: seq<int>, ghost s0: seq<Smoothness>, ghost f0: Frame)
      returns (outside: bool, scan': seq<int>)
      requires Valid() && ScanInBounds() && 0 <= i < |info.startRing| && 0 <= j < 6
      requires Sp(info, i, j) < Ep(info, i, j) && KnownEntries() && InvariantHolds()
      requires f0.Sized() && |s0| == |f0.labels| == smoothness.Length && f0.curvature == curvature[..]
      requires i == |surfaceScans|
      modifies smoothness, neighborPicked, labels, this`cornerCloud
      ensures InvariantHolds() && KnownEntries() && Marked(info.col, curvature[..], thresholds, old(MarksNow()), MarksNow())
      ensures Later(old(Snapshot(scan)), Snapshot(scan'))
      ensures RingsOrdered(info) && old(Progress(info, s0, f0, i, j, smoothness[..], Snapshot(scan), surfaceScans, thresholds)) ==>
        && (outside && Sound(info, i, j, s0, f0) ==>
              Processed(info, i, j, |s0|) && Exposed(s0, Snapshot(scan'), thresholds, Sp(info, i, j), Ep(info, i, j)))
        && (!outside ==> Progress(info, s0, f0, i, j + 1, smoothness[..], Snapshot(scan'), surfaceScans, thresholds))
    {
      hide Marked;
      hide SectorDone;
      hide Finished;
      hide InvariantHolds;
      hide KnownEntries;
      hide Progress;
      hide Sound;
      hide Exposed;
      hide Untouched;
      hide Rearranged;
      hide Touched;
      hide RingsOrdered;
      hide InScan;
      SectorBounds(i, j);
      hide ScanInBounds;
      hide Sp;
      hide Ep;
      var sp, ep := Sp(info, i, j), Ep(info, i, j);
      ghost var was, before := smoothness[..], Snapshot(scan);
      outside, scan' := ProcessSector(sp, ep, scan);
      if RingsOrdered(info) && Progress(info, s0, f0, i, j, was, before, surfaceScans, thresholds) {
        SectorOver(info, s0, f0, i, j, was, smoothness[..], before, Snapshot(scan'), surfaceScans, thresholds, outside);
      }
    }

    /** The six sectors of one ring. */
    method ProcessRing(i: int, ghost s0: seq<Smoothness>, ghost f0: Frame)
      returns (outside: bool, scan: seq<int>, ghost j: int)
      requires Valid() && ScanInBounds() && 0 <= i < |info.startRing| && KnownEntries() && InvariantHolds()
      requires f0.Sized() && |s0| == |f0.labels| == smoothness.Length && f0.curvature == curvature[..]
      requires i == |surfaceScans|
      modifies smoothness, neighborPicked, labels, this`cornerCloud
      ensures InvariantHolds() && KnownEntries() && Marked(info.col, curvature[..], thresholds, old(MarksNow()), MarksNow())
      ensures Later(old(Snapshot([])), Snapshot(scan))
      ensures outside ==> 0 <= j < 6 && Processed(info, i, j, smoothness.Length)
      ensures RingsOrdered(info) && old(Progress(info, s0, f0, i, 0, smoothness[..], Snapshot([]), surfaceScans, thresholds)) ==>
        && (outside && Sound(info, i, j, s0, f0) ==>
              Exposed(s0, Snapshot(scan), thresholds, Sp(info, i, j), Ep(info, i, j)))
        && (!outside ==> Progress(info, s0, f0, i, 6, smoothness[..], Snapshot(scan), surfaceScans, thresholds))
    {
      hide Covered;
      hide Separated;
      hide SectorDone;
      hide Known;
      hide Finished;
      hide InScan;
      hide Progress;
      hide Sound;
      hide Exposed;
      hide Marked;
      MarkedStays(info.col, curvature[..], thresholds, MarksNow());
      scan, outside, j := [], false, 0;
      ghost var good := RingsOrdered(info) && Progress(info, s0, f0, i, 0, smoothness[..], Snapshot([]), surfaceScans, thresholds);
      for n := 0 to 6
        modifies smoothness, neighborPicked, labels, this`cornerCloud
        invariant InvariantHolds() && KnownEntries() && !outside
        invariant Later(old(Snapshot([])), Snapshot(scan)) && Marked(info.col, curvature[..], thresholds, old(MarksNow()), MarksNow())
        invariant good ==> Progress(info, s0, f0, i, n, smoothness[..], Snapshot(scan), surfaceScans, thresholds)
      {
        var sp, ep := Sp(info, i, n), Ep(info, i, n);
        if sp < ep {
          SectorBounds(i, n);
          ghost var marks := MarksNow();
          outside, scan := SectorStep(i, n, scan, s0, f0);
          MarkedOn(info.col, curvature[..], thresholds, old(MarksNow()), marks, MarksNow());
          if outside { return outside, scan, n; }
        } else if good {
          ProgressSkip(info, s0, f0, i, n, smoothness[..], Snapshot(scan), surfaceScans, thresholds);
        }
      }
    }

    /** The greedy choice over all rings. It ends at once, `outside`, where the choice of a point
        would leave the arrays; when rings follow one another and all processed sectors are sound,
        that is exactly when one of them is exposed. Otherwise every sound sector is finished. */
    method ExtractFeatures() returns (outside: bool)
      requires Valid() && ScanInBounds() && KnownEntries() && InvariantHolds()
      modifies smoothness, neighborPicked, labels, this`cornerCloud, this`surfaceScans
      ensures InvariantHolds() && KnownEntries() && Later(old(Snapshot([])), Snapshot([]))
      ensures Marked(info.col, curvature[..], thresholds, old(MarksNow()), MarksNow())
      ensures !outside ==> |surfaceScans| == |info.startRing|
      ensures RingsOrdered(info) && !outside ==>
        AllFinished(info, old(smoothness[..]), old(Snapshot([])), Snapshot([]), surfaceScans, thresholds)
      ensures RingsOrdered(info) && AllSound(info, old(smoothness[..]), old(Snapshot([]))) ==>
        (outside <==> SomeExposed(info, old(smoothness[..]), Snapshot([]), thresholds))
    {
      hide Covered;
      hide Separated;
      hide SectorDone;
      hide Known;
      hide Finished;
      hide InScan;
      hide Progress;
      hide Sound;
      hide Exposed;
      hide Marked;
      ghost var s0, f0, ordered := smoothness[..], Snapshot([]), RingsOrdered(info);
      ghost var marks0 := MarksNow();
      MarkedStays(info.col, curvature[..], thresholds, marks0);
      cornerCloud := [];
      surfaceScans := [];
      ghost var t0 := f0.(corners := []);
      ProgressStart(info, s0, t0, thresholds);
      SoundWithoutCorners(info, s0, f0);
      outside := false;
      for i := 0 to |info.startRing|
        invariant InvariantHolds() && KnownEntries() && !outside
        invariant |surfaceScans| == i
        invariant Later(f0, Snapshot([])) && Marked(info.col, curvature[..], thresholds, marks0, MarksNow())
        invariant ordered ==> Progress(info, s0, t0, i, 0, smoothness[..], Snapshot([]), surfaceScans, thresholds)
      {
        var scan;
        ghost var j, marks := 0, MarksNow();
        outside, scan, j := ProcessRing(i, s0, t0);
        MarkedOn(info.col, curvature[..], thresholds, marks0, marks, MarksNow());
        if outside {
          ExposedWithoutSurf(s0, Snapshot(scan), thresholds, Sp(info, i, j), Ep(info, i, j));
          return;
        }
        if ordered {
          ProgressRing(info, s0, t0, i, smoothness[..], Snapshot(scan), surfaceScans, thresholds);
          assert Snapshot([]) == Snapshot(scan).(surf := []);
        }
        surfaceScans := surfaceScans + [scan];
      }
      if ordered {
        ProgressEnd(info, s0, t0, smoothness[..], Snapshot([]), surfaceScans, thresholds);
        NoneExposed(info, s0, t0, Snapshot([]), surfaceScans, thresholds);
      }
    }

    /** Curvature and occlusion marks of a message. */
    method PrepareCloud(msg: CloudInfo)
      requires |msg.col| == smoothness.Length && |msg.range| == smoothness.Length && msg.size <= smoothness.Length
      requires |msg.startRing| == |msg.endRing| && Valid() && KnownEntries()
      modifies this`info, smoothness, curvature, neighborPicked, labels
      ensures Valid() && info == msg && KnownEntries() && InvariantHolds()
      ensures smoothness[..] == Refreshed(old(smoothness[..]), curvature[..], msg.size)
      ensures forall k :: Inner(k, msg.size) ==>
        && labels[k] == 0 && curvature[k] == Curvature(msg.range[..msg.size], k)
        && (neighborPicked[k] <==> RuledOut(msg, k))
      ensures forall q :: 0 <= q < neighborPicked.Length && !Inner(q, msg.size) ==>
        curvature[q] == old(curvature[q]) && (old(neighborPicked[q]) ==> neighborPicked[q])
    {
      hide Curvature;
      hide Occludes;
      info := msg;
      ghost var was := smoothness[..];
      CalculateSmoothness();
      assert InvariantHolds();
      assert smoothness[..] == Refreshed(was, curvature[..], msg.size);
      MarkOccludedPoints();
      RuledOutIs(msg);
      assert InvariantHolds();
    }

    /** One message from the projection node. Positions with five neighbours on each side are
        refreshed here; another position keeps whatever entry it had, position 0 if it was never
        written. `outside` when the choice of a point left the arrays, and the frame ended there:
        that takes a position 0 never marked before and flat or sharp. */
    method HandleCloud(msg: CloudInfo) returns (outside: bool)
      requires |msg.col| == smoothness.Length && |msg.range| == smoothness.Length && msg.size <= smoothness.Length
      requires |msg.startRing| == |msg.endRing| && Valid() && KnownEntries()
      requires forall k :: InScan(msg, k) ==> 0 <= k < smoothness.Length
      modifies this, smoothness, curvature, neighborPicked, labels
      ensures Valid() && info == msg && KnownEntries()
      ensures Separated(labels[..], msg.col, msg.size) && Covered(labels[..], neighborPicked[..], msg.col, msg.size)
      ensures FrameMarked(msg, curvature[..], thresholds, MarksNow())
      ensures !outside ==> |surfaceScans| == |msg.startRing|
      ensures RingsOrdered(msg) && !outside ==>
        forall i, j :: SectorFresh(msg, i, j, old(smoothness[..])) ==>
          Finished(Refreshed(old(smoothness[..]), curvature[..], msg.size), Snapshot(surfaceScans[i]), thresholds,
            Sp(msg, i, j), Ep(msg, i, j))
      ensures RingsOrdered(msg) && AllFresh(msg, old(smoothness[..])) ==>
        (outside <==> SomeExposed(msg, Refreshed(old(smoothness[..]), curvature[..], msg.size), Snapshot([]), thresholds))
      ensures RingsOrdered(msg) && AllFresh(msg, old(smoothness[..])) && outside ==>
        && smoothness.Length > 0 && !old(neighborPicked[0])
        && (old(curvature[0]) < thresholds.surf || old(curvature[0]) > thresholds.edge)
    {
      hide InScan;
      hide Sound;
      hide Finished;
      hide Exposed;
      hide Covered;
      hide Separated;
      hide Known;
      hide Refreshed;
      hide RingsOrdered;
      ghost var was := smoothness[..];
      PrepareCloud(msg);
      ghost var s0, f0 := smoothness[..], Snapshot([]);
      FreshIsSound(msg, was, s0, f0);
      hide SectorFresh;
      hide AllFresh;
      hide AllSound;
      hide SomeExposed;
      hide RuledOut;
      hide Curvature;
      hide Marked;
      hide FrameMarked;
      ghost var marks := MarksNow();
      outside := ExtractFeatures();
      FrameIsMarked(msg, curvature[..], thresholds, marks, MarksNow());
      ExposedNeedsZero(msg, s0, Snapshot([]), thresholds);
      if RingsOrdered(msg) && !outside {
        forall i, j | SectorFresh(msg, i, j, was)
          ensures Processed(msg, i, j, smoothness.Length)
               && Finished(s0, Snapshot(surfaceScans[i]), thresholds, Sp(msg, i, j), Ep(msg, i, j))
        {
          assert Sound(msg, i, j, s0, f0);
          assert Snapshot([]).(surf := surfaceScans[i]) == Snapshot(surfaceScans[i]);
        }
      }
    }
  }

  /** Rings follow one another in the extracted cloud. */
  predicate RingsOrdered(info: CloudInfo)
    requires |info.startRing| == |info.endRing|
  {
    forall i, r :: 0 <= i < r < |info.startRing| ==> info.endRing[i] <= info.startRing[r]
  }

  /** Position 0 is still in the race, and flat, or sharp with room below the cap. */
  predicate Zero(f: Frame, t: Thresholds, lo: int, ep: int)
    requires f.Sized() && 0 <= lo && ep < |f.labels| && |f.labels| > 0
  {
    !f.picked[0] && (f.curvature[0] < t.surf || (f.curvature[0] > t.edge && |Corners(f.labels, lo, ep)| < 20))
  }

  ghost predicate AllFinished(info: CloudInfo, s0: seq<Smoothness>, f0: Frame, f: Frame, scans: seq<seq<int>>, t: Thresholds)
    requires |info.startRing| == |info.endRing| == |scans| && f0.Sized() && f.Sized() && |s0| == |f0.labels| == |f.labels|
  {
    forall r, m :: Sound(info, r, m, s0, f0) ==>
      Finished(s0, f.(surf := scans[r]), t, Sp(info, r, m), Ep(info, r, m))
  }

  ghost predicate AllSound(info: CloudInfo, s0: seq<Smoothness>, f0: Frame)
    requires |info.startRing| == |info.endRing| && f0.Sized() && |s0| == |f0.labels|
  {
    forall r, m :: Processed(info, r, m, |s0|) ==> Sound(info, r, m, s0, f0)
  }

  ghost predicate SomeExposed(info: CloudInfo, s0: seq<Smoothness>, f: Frame, t: Thresholds)
    requires |info.startRing| == |info.endRing| && f.Sized() && |s0| == |f.labels|
  {
    exists r, m :: Processed(info, r, m, |s0|) && Exposed(s0, f, t, Sp(info, r, m), Ep(info, r, m))
  }

  // ---------------------------------------------------------------------------
  // From sector to sector

  /** The frame as ring `r` sees it, with its own surface cloud, while ring `i` is at work. */
  function FrameAt(f: Frame, scans: seq<seq<int>>, r: int, i: int): Frame
    requires 0 <= r && i == |scans|
  {
    if r < i then f.(surf := scans[r]) else if r == i then f else f.(surf := [])
  }

  /** Entries of the sectors from sector `j` of ring `i` on are those the frame began with. */
  ghost predicate Ahead(info: CloudInfo, i: int, j: int, s0: seq<Smoothness>, s: seq<Smoothness>)
    requires |info.startRing| == |info.endRing| && |s| == |s0|
  {
    forall r, m, k :: (
      (i < r || (i == r && j <= m)) && Processed(info, r, m, |s|) && Sp(info, r, m) <= k <= Ep(info, r, m)
      ==> s[k] == s0[k])
  }

  /** Of the sound sectors those before sector `j` of ring `i` are finished and the others clean. */
  ghost predicate Progress(info: CloudInfo, s0: seq<Smoothness>, f0: Frame, i: int, j: int, s: seq<Smoothness>,
                           f: Frame, scans: seq<seq<int>>, t: Thresholds)
    requires |info.startRing| == |info.endRing| && i == |scans|
    requires f0.Sized() && f.Sized() && |s| == |s0| == |f0.labels| == |f.labels|
  {
    && f.curvature == f0.curvature
    && Ahead(info, i, j, s0, s)
    && (forall r, m :: (r < i || (r == i && m < j)) && Sound(info, r, m, s0, f0) ==>
          Finished(s0, FrameAt(f, scans, r, i), t, Sp(info, r, m), Ep(info, r, m)))
    && (forall r, m :: (i < r || (i == r && j <= m)) && Sound(info, r, m, s0, f0) ==>
          Processed(info, r, m, |s|) && Clean(info, r, m, s0, s, FrameAt(f, scans, r, i)))
  }

  lemma ProgressStart(info: CloudInfo, s0: seq<Smoothness>, f0: Frame, t: Thresholds)
    requires |info.startRing| == |info.endRing| && f0.Sized() && |s0| == |f0.labels|
    requires f0.corners == [] && f0.surf == []
    ensures Progress(info, s0, f0, 0, 0, s0, f0, [], t)
  {
    hide Sp;
    hide Ep;
    hide Spared;
    hide Finished;
  }

  lemma SoundIsUntouched(info: CloudInfo, s0: seq<Smoothness>, f0: Frame, i: int, j: int, s: seq<Smoothness>,
                         f: Frame, scans: seq<seq<int>>, t: Thresholds)
    requires |info.startRing| == |info.endRing| && i == |scans|
    requires f0.Sized() && f.Sized() && |s| == |s0| == |f0.labels| == |f.labels|
    requires Progress(info, s0, f0, i, j, s, f, scans, t) && Sound(info, i, j, s0, f0)
    ensures Processed(info, i, j, |s|) && Untouched(s, f, Sp(info, i, j), Ep(info, i, j), info.size)
  {
    hide Spared;
    hide Finished;
    hide Ahead;
    assert Clean(info, i, j, s0, s, FrameAt(f, scans, i, i));
    hide Sp;
    hide Ep;
  }

  lemma SameEntries(info: CloudInfo, s0: seq<Smoothness>, f0: Frame, i: int, j: int, s: seq<Smoothness>,
                    f: Frame, scans: seq<seq<int>>, t: Thresholds)
    requires |info.startRing| == |info.endRing| && i == |scans|
    requires f0.Sized() && f.Sized() && |s| == |s0| == |f0.labels| == |f.labels|
    requires Progress(info, s0, f0, i, j, s, f, scans, t) && Processed(info, i, j, |s|)
    ensures forall k :: Sp(info, i, j) <= k <= Ep(info, i, j) ==> s[k] == s0[k]
  {
    hide Sound;
    hide Finished;
    hide Clean;
    hide Sp;
    hide Ep;
  }

  lemma AheadNext(info: CloudInfo, i: int, j: int, s0: seq<Smoothness>, was: seq<Smoothness>, s: seq<Smoothness>)
    requires |info.startRing| == |info.endRing| && RingsOrdered(info) && |s| == |was| == |s0|
    requires Ahead(info, i, j, s0, was) && Processed(info, i, j, |s|)
    requires forall k :: 0 <= k < |s| && !(Sp(info, i, j) <= k <= Ep(info, i, j)) ==> s[k] == was[k]
    ensures Ahead(info, i, j + 1, s0, s)
  {
    hide Sp;
    hide Ep;
    forall r, m, k | (i < r || (i == r && j + 1 <= m)) && Processed(info, r, m, |s|)
                     && Sp(info, r, m) <= k <= Ep(info, r, m)
      ensures s[k] == s0[k]
    {
      SectorsApart(info, i, j, r, m);
    }
  }

  lemma ProgressStep(info: CloudInfo, s0: seq<Smoothness>, f0: Frame, i: int, j: int, was: seq<Smoothness>,
                     s: seq<Smoothness>, f: Frame, g: Frame, scans: seq<seq<int>>, t: Thresholds)
    requires |info.startRing| == |info.endRing| && i == |scans| && RingsOrdered(info) && Processed(info, i, j, |s|)
    requires f0.Sized() && f.Sized() && |s| == |was| == |s0| == |f0.labels| == |f.labels|
    requires Progress(info, s0, f0, i, j, was, f, scans, t)
    requires Changed(f, g, was, Sp(info, i, j), Ep(info, i, j))
    requires forall k :: 0 <= k < |s| && !(Sp(info, i, j) <= k <= Ep(info, i, j)) ==> s[k] == was[k]
    requires Sound(info, i, j, s0, f0) ==> Finished(s0, g, t, Sp(info, i, j), Ep(info, i, j))
    ensures Progress(info, s0, f0, i, j + 1, s, g, scans, t)
  {
    SoundProcessed(info, s0, f0);
    SameEntries(info, s0, f0, i, j, was, f, scans, t);
    AheadNext(info, i, j, s0, was, s);
    StepFinishes(info, s0, f0, i, j, was, f, g, scans, t);
    StepKeepsClean(info, s0, f0, i, j, was, s, f, g, scans, t);
    hide Touched;
    hide Finished;
    hide Clean;
    hide Sound;
    hide InScan;
    hide Ahead;
    hide Sp;
    hide Ep;
    hide FrameAt;
  }

  lemma SoundProcessed(info: CloudInfo, s0: seq<Smoothness>, f0: Frame)
    requires |info.startRing| == |info.endRing| && f0.Sized() && |s0| == |f0.labels|
    ensures forall r, m :: Sound(info, r, m, s0, f0) ==> Processed(info, r, m, |s0|)
  {
    hide Sp;
    hide Ep;
    hide Spared;
  }

  lemma StepFinishes(info: CloudInfo, s0: seq<Smoothness>, f0: Frame, i: int, j: int, was: seq<Smoothness>,
                     f: Frame, g: Frame, scans: seq<seq<int>>, t: Thresholds)
    requires |info.startRing| == |info.endRing| && i == |scans| && RingsOrdered(info) && Processed(info, i, j, |was|)
    requires f0.Sized() && f.Sized() && |was| == |s0| == |f0.labels| == |f.labels|
    requires Progress(info, s0, f0, i, j, was, f, scans, t)
    requires Changed(f, g, was, Sp(info, i, j), Ep(info, i, j))
    requires forall k :: Sp(info, i, j) <= k <= Ep(info, i, j) ==> was[k] == s0[k]
    requires Sound(info, i, j, s0, f0) ==> Finished(s0, g, t, Sp(info, i, j), Ep(info, i, j))
    ensures forall r, m :: (r < i || (r == i && m < j + 1)) && Sound(info, r, m, s0, f0) ==>
      Finished(s0, FrameAt(g, scans, r, i), t, Sp(info, r, m), Ep(info, r, m))
  {
    SoundProcessed(info, s0, f0);
    hide Touched;
    hide Finished;
    hide Clean;
    hide Sound;
    hide InScan;
    hide Ahead;
    hide Sp;
    hide Ep;
    hide SameAt;
    forall r, m | (r < i || (r == i && m < j + 1)) && Sound(info, r, m, s0, f0)
      ensures Finished(s0, FrameAt(g, scans, r, i), t, Sp(info, r, m), Ep(info, r, m))
    {
      assert Processed(info, r, m, |s0|);
      if (r, m) != (i, j) {
        OtherSectorSame(info, s0, f0, r, m, i, j, was, f, g, scans);
        StaysFinished(s0, FrameAt(f, scans, r, i), FrameAt(g, scans, r, i), t, Sp(info, r, m), Ep(info, r, m));
      }
    }
  }

  lemma StepKeepsClean(info: CloudInfo, s0: seq<Smoothness>, f0: Frame, i: int, j: int, was: seq<Smoothness>,
                       s: seq<Smoothness>, f: Frame, g: Frame, scans: seq<seq<int>>, t: Thresholds)
    requires |info.startRing| == |info.endRing| && i == |scans| && RingsOrdered(info) && Processed(info, i, j, |was|)
    requires f0.Sized() && f.Sized() && |s| == |was| == |s0| == |f0.labels| == |f.labels|
    requires Progress(info, s0, f0, i, j, was, f, scans, t)
    requires Changed(f, g, was, Sp(info, i, j), Ep(info, i, j))
    requires forall k :: Sp(info, i, j) <= k <= Ep(info, i, j) ==> was[k] == s0[k]
    requires forall k :: 0 <= k < |s| && !(Sp(info, i, j) <= k <= Ep(info, i, j)) ==> s[k] == was[k]
    ensures forall r, m :: (i < r || (i == r && j + 1 <= m)) && Sound(info, r, m, s0, f0) ==>
      Processed(info, r, m, |s|) && Clean(info, r, m, s0, s, FrameAt(g, scans, r, i))
  {
    SoundProcessed(info, s0, f0);
    hide Touched;
    hide Finished;
    hide Clean;
    hide Sound;
    hide InScan;
    hide Ahead;
    hide Sp;
    hide Ep;
    hide SameAt;
    forall r, m | (i < r || (i == r && j + 1 <= m)) && Sound(info, r, m, s0, f0)
      ensures Processed(info, r, m, |s|) && Clean(info, r, m, s0, s, FrameAt(g, scans, r, i))
    {
      assert Processed(info, r, m, |s0|);
      OtherSectorSame(info, s0, f0, r, m, i, j, was, f, g, scans);
      CleanStays(info, r, m, s0, was, s, FrameAt(f, scans, r, i), FrameAt(g, scans, r, i));
    }
  }

  /** Work on one sector leaves the frame of another sound one the same on its positions. */
  lemma OtherSectorSame(info: CloudInfo, s0: seq<Smoothness>, f0: Frame, r: int, m: int, i: int, j: int,
                        was: seq<Smoothness>, f: Frame, g: Frame, scans: seq<seq<int>>)
    requires |info.startRing| == |info.endRing| && i == |scans| && RingsOrdered(info) && Processed(info, i, j, |was|)
    requires f0.Sized() && f.Sized() && |was| == |s0| == |f0.labels| == |f.labels|
    requires Sound(info, r, m, s0, f0) && (i, j) != (r, m) && Changed(f, g, was, Sp(info, i, j), Ep(info, i, j))
    requires forall k :: Sp(info, i, j) <= k <= Ep(info, i, j) ==> was[k] == s0[k]
    ensures Processed(info, r, m, |was|) && Later(FrameAt(f, scans, r, i), FrameAt(g, scans, r, i))
    ensures forall p :: Sp(info, r, m) <= p <= Ep(info, r, m) ==>
      SameAt(FrameAt(f, scans, r, i), FrameAt(g, scans, r, i), p)
    ensures (i < r || (i == r && j < m)) ==> Ep(info, i, j) < Sp(info, r, m)
  {
    SoundUntouched(info, s0, f0, was, r, m, i, j);
    assert Processed(info, r, m, |was|);
    hide Sound;
    hide Touched;
    hide Sp;
    hide Ep;
    forall p | Sp(info, r, m) <= p <= Ep(info, r, m)
      ensures SameAt(FrameAt(f, scans, r, i), FrameAt(g, scans, r, i), p)
    {
      assert SameAt(f, g, p);
    }
    if i < r || (i == r && j < m) { SectorsApart(info, i, j, r, m); }
  }

  lemma CleanStays(info: CloudInfo, r: int, m: int, s0: seq<Smoothness>, was: seq<Smoothness>, s: seq<Smoothness>,
                   f: Frame, g: Frame)
    requires |info.startRing| == |info.endRing| && f.Sized() && |s| == |was| == |s0| == |f.labels|
    requires Processed(info, r, m, |s|) && Later(f, g) && Clean(info, r, m, s0, was, f)
    requires forall p :: Sp(info, r, m) <= p <= Ep(info, r, m) ==> SameAt(f, g, p) && s[p] == was[p]
    ensures Clean(info, r, m, s0, s, g)
  {
    hide Sp;
    hide Ep;
    forall k | Sp(info, r, m) <= k <= Ep(info, r, m)
      ensures s[k] == s0[k] && (Lo(s0, Sp(info, r, m)) <= k ==> g.labels[k] == 0 && k !in g.corners && k !in g.surf)
    {
      assert SameAt(f, g, k);
    }
  }

  /** A sector has been processed. */
  lemma SectorOver(info: CloudInfo, s0: seq<Smoothness>, f0: Frame, i: int, j: int, was: seq<Smoothness>,
                   s: seq<Smoothness>, f: Frame, g: Frame, scans: seq<seq<int>>, t: Thresholds, outside: bool)
    requires |info.startRing| == |info.endRing| && i == |scans| && RingsOrdered(info) && Processed(info, i, j, |s|)
    requires f0.Sized() && f.Sized() && g.Sized() && |s| == |was| == |s0| == |f0.labels| == |f.labels| == |g.labels|
    requires Progress(info, s0, f0, i, j, was, f, scans, t)
    requires Changed(f, g, was, Sp(info, i, j), Ep(info, i, j))
    requires Rearranged(s, was, Sp(info, i, j), Ep(info, i, j))
    requires Untouched(was, f, Sp(info, i, j), Ep(info, i, j), info.size) ==>
      && (outside <==> Exposed(was, g, t, Sp(info, i, j), Ep(info, i, j)))
      && (!outside ==> Finished(was, g, t, Sp(info, i, j), Ep(info, i, j)))
    ensures outside && Sound(info, i, j, s0, f0) ==> Exposed(s0, g, t, Sp(info, i, j), Ep(info, i, j))
    ensures !outside ==> Progress(info, s0, f0, i, j + 1, s, g, scans, t)
  {
    hide SectorDone;
    hide Touched;
    hide Progress;
    hide Sound;
    hide Untouched;
    hide RingsOrdered;
    hide InScan;
    hide Sp;
    hide Ep;
    SameEntries(info, s0, f0, i, j, was, f, scans, t);
    assert Lo(was, Sp(info, i, j)) == Lo(s0, Sp(info, i, j));
    hide Zero;
    if Sound(info, i, j, s0, f0) {
      SoundIsUntouched(info, s0, f0, i, j, was, f, scans, t);
    }
    if !outside {
      ProgressStep(info, s0, f0, i, j, was, s, f, g, scans, t);
    }
  }

  lemma ProgressSkip(info: CloudInfo, s0: seq<Smoothness>, f0: Frame, i: int, j: int, s: seq<Smoothness>,
                     f: Frame, scans: seq<seq<int>>, t: Thresholds)
    requires |info.startRing| == |info.endRing| && i == |scans| < |info.startRing|
    requires f0.Sized() && f.Sized() && |s| == |s0| == |f0.labels| == |f.labels|
    requires Progress(info, s0, f0, i, j, s, f, scans, t) && Sp(info, i, j) >= Ep(info, i, j)
    ensures Progress(info, s0, f0, i, j + 1, s, f, scans, t)
  {
    assert !Processed(info, i, j, |s|) && !Sound(info, i, j, s0, f0);
    hide Sp;
    hide Ep;
    hide Sound;
    hide Finished;
    hide Clean;
  }

  /** A ring is over: its surface cloud is put away. */
  lemma ProgressRing(info: CloudInfo, s0: seq<Smoothness>, f0: Frame, i: int, s: seq<Smoothness>, f: Frame,
                     scans: seq<seq<int>>, t: Thresholds)
    requires |info.startRing| == |info.endRing| && i == |scans|
    requires f0.Sized() && f.Sized() && |s| == |s0| == |f0.labels| == |f.labels|
    requires Progress(info, s0, f0, i, 6, s, f, scans, t)
    ensures Progress(info, s0, f0, i + 1, 0, s, f.(surf := []), scans + [f.surf], t)
  {
    var g, more := f.(surf := []), scans + [f.surf];
    assert forall r :: 0 <= r ==> FrameAt(g, more, r, i + 1) == FrameAt(f, scans, r, i);
    assert forall r, m :: Sound(info, r, m, s0, f0) ==> 0 <= r && 0 <= m < 6;
    hide Sp;
    hide Ep;
    hide Sound;
    hide Finished;
    hide Clean;
    hide FrameAt;
  }

  lemma ProgressEnd(info: CloudInfo, s0: seq<Smoothness>, f0: Frame, s: seq<Smoothness>, f: Frame,
                    scans: seq<seq<int>>, t: Thresholds)
    requires |info.startRing| == |info.endRing| == |scans|
    requires f0.Sized() && f.Sized() && |s| == |s0| == |f0.labels| == |f.labels|
    requires Progress(info, s0, f0, |scans|, 0, s, f, scans, t)
    ensures AllFinished(info, s0, f0, f, scans, t)
  {
    assert forall r, m :: Sound(info, r, m, s0, f0) ==> 0 <= r < |scans|;
    hide Sp;
    hide Ep;
    hide Sound;
    hide Finished;
    hide Clean;
  }

  /** Finished sectors are not exposed. */
  lemma NoneExposed(info: CloudInfo, s0: seq<Smoothness>, f0: Frame, f: Frame, scans: seq<seq<int>>, t: Thresholds)
    requires |info.startRing| == |info.endRing| == |scans| && f0.Sized() && f.Sized()
    requires |s0| == |f0.labels| == |f.labels| && AllFinished(info, s0, f0, f, scans, t)
    ensures AllSound(info, s0, f0) ==> !SomeExposed(info, s0, f, t)
  {
    hide Sp;
    hide Ep;
    hide SectorDone;
    if AllSound(info, s0, f0) {
      forall r, m | Processed(info, r, m, |s0|) ensures !Exposed(s0, f, t, Sp(info, r, m), Ep(info, r, m)) {
        assert Sound(info, r, m, s0, f0);
        assert !Exposed(s0, f.(surf := scans[r]), t, Sp(info, r, m), Ep(info, r, m));
      }
    }
    hide Sound;
  }

  lemma ExposedWithoutSurf(s0: seq<Smoothness>, f: Frame, t: Thresholds, sp: int, ep: int)
    requires f.Sized() && |s0| == |f.labels| && 0 <= sp < ep < |s0|
    ensures Exposed(s0, f, t, sp, ep) <==> Exposed(s0, f.(surf := []), t, sp, ep)
  {}

  lemma ExposedNeedsZero(info: CloudInfo, s0: seq<Smoothness>, f: Frame, t: Thresholds)
    requires |info.startRing| == |info.endRing| && f.Sized() && |s0| == |f.labels|
    ensures SomeExposed(info, s0, f, t) ==>
      |s0| > 0 && !f.picked[0] && (f.curvature[0] < t.surf || f.curvature[0] > t.edge)
  {}

  lemma SoundWithoutCorners(info: CloudInfo, s0: seq<Smoothness>, f0: Frame)
    requires |info.startRing| == |info.endRing| && f0.Sized() && |s0| == |f0.labels|
    ensures forall r, m :: Sound(info, r, m, s0, f0) <==> Sound(info, r, m, s0, f0.(corners := []))
  {
    hide Sp;
    hide Ep;
    hide Spared;
  }

  // ---------------------------------------------------------------------------
  // What the projection node sends

  /** Ring bounds as `cloudExtraction` sets them: `counts[i]` points precede ring `i`. */
  predicate Compacted(info: CloudInfo, counts: seq<int>) {
    && |info.startRing| == |info.endRing| == |counts| - 1
    && counts[0] == 0 && counts[|counts| - 1] == info.size
    && (forall i, r :: 0 <= i <= r < |counts| ==> counts[i] <= counts[r])
    && (forall i :: 0 <= i < |info.startRing| ==>
          info.startRing[i] == counts[i] + 4 && info.endRing[i] == counts[i + 1] - 6)
  }

  /** Such rings are in order, and everything the sectors reach has five neighbours on each
      side, except position 4. That one is reached exactly when the first non-empty ring has
      at least 22 points; `CalculateSmoothness` never refreshes it. */
  lemma CompactedScan(info: CloudInfo, counts: seq<int>)
    requires Compacted(info, counts)
    ensures RingsOrdered(info)
    ensures forall k :: InScan(info, k) ==> Inner(k, info.size) || k == 4
    ensures InScan(info, 4) <==> exists i :: 0 <= i < |info.startRing| && counts[i] == 0 && counts[i + 1] >= 22
  {
    forall i, r | 0 <= i < r < |info.startRing| ensures info.endRing[i] <= info.startRing[r] {
      assert counts[i + 1] <= counts[r];
    }
    forall k | InScan(info, k)
      ensures Inner(k, info.size) || k == 4
      ensures k == 4 ==> exists i :: 0 <= i < |info.startRing| && counts[i] == 0 && counts[i + 1] >= 22
    {
      var i, j :| InSector(info, i, j, k);
      SectorsTile(info.startRing[i], info.endRing[i]);
      assert info.startRing[i] <= k <= info.endRing[i] - 1;
      assert counts[i + 1] <= info.size;
      if k == 4 {
        assert counts[i] == 0;
      }
    }
    if i :| 0 <= i < |info.startRing| && counts[i] == 0 && counts[i + 1] >= 22 {
      var e := info.endRing[i];
      assert SectorStart(4, e, 0) == 4 && SectorEnd(4, e, 0) >= 5;
      assert InSector(info, i, 0, 4);
    }
  }

  /** With the ring bounds the projection node sends, a processed sector is fresh unless it holds
      position 4, or the position that the old entry at 4 names while 4 is scanned; and also the
      sector of 4 is, when that entry was never written. */
  lemma CompactedSectors(info: CloudInfo, counts: seq<int>, s: seq<Smoothness>, i: int, j: int)
    requires Compacted(info, counts) && info.size <= |s| && Processed(info, i, j, |s|)
    ensures var sp, ep := Sp(info, i, j), Ep(info, i, j);
      SectorFresh(info, i, j, s) <==>
        if sp == 4 then s[4].ind == 0 else !(InScan(info, 4) && sp <= s[4].ind <= ep)
  {
    CompactedScan(info, counts);
    SectorPlaces(info, counts, i, j);
    hide InScan;
    hide Sp;
    hide Ep;
    hide Compacted;
    hide RingsOrdered;
  }

  /** A processed sector lies in the scan, from position 4 on. */
  lemma SectorPlaces(info: CloudInfo, counts: seq<int>, i: int, j: int)
    requires Compacted(info, counts)
    requires 0 <= i < |info.startRing| && 0 <= j < 6 && Sp(info, i, j) < Ep(info, i, j)
    ensures var sp, ep := Sp(info, i, j), Ep(info, i, j);
      sp >= 4 && InScan(info, sp) && InScan(info, sp + 1) && InScan(info, ep)
  {
    var sp, ep := Sp(info, i, j), Ep(info, i, j);
    SectorInScan(info, i, j, sp);
    SectorInScan(info, i, j, sp + 1);
    SectorInScan(info, i, j, ep);
    SectorOrder(info, i);
    assert info.startRing[i] == counts[i] + 4 && counts[0] <= counts[i];
    hide InScan;
    hide Sp;
    hide Ep;
  }

  /** So while the entry at 4 was never written, every processed sector of every such message is
      fresh. */
  lemma CompactedIsFresh(info: CloudInfo, counts: seq<int>, s: seq<Smoothness>)
    requires Compacted(info, counts) && info.size <= |s| && (InScan(info, 4) ==> |s| > 4 && s[4].ind == 0)
    ensures AllFresh(info, s)
    ensures forall k :: InScan(info, k) ==> 0 <= k < |s|
  {
    CompactedScan(info, counts);
    forall i, j | Processed(info, i, j, |s|) ensures SectorFresh(info, i, j, s) {
      CompactedSectors(info, counts, s, i, j);
      SectorPlaces(info, counts, i, j);
      hide Sp;
      hide Ep;
      hide InScan;
      hide SectorFresh;
      hide Compacted;
      hide RingsOrdered;
    }
    forall k | InScan(info, k) ensures 0 <= k < |s| {
      if k == 4 {
        var i :| 0 <= i < |info.startRing| && counts[i] == 0 && counts[i + 1] >= 22;
        assert counts[i + 1] <= counts[|counts| - 1];
      }
    }
  }

  // ---------------------------------------------------------------------------
  // What a message finds

  /** The entries after the smoothness pass: own ones where there are five neighbours on each side,
      what was there elsewhere. */
  function Refreshed(s: seq<Smoothness>, curvature: seq<real>, n: int): (r: seq<Smoothness>)
    requires |s| == |curvature|
    ensures |r| == |s|
  {
    seq(|s|, k requires 0 <= k < |s| => if Inner(k, n) then Smoothness(curvature[k], k) else s[k])
  }

  /** All positions of the sector get their own entry, but perhaps for a first one whose entry was
      never written; and no entry that stays names a position of the sector. */
  ghost predicate SectorFresh(info: CloudInfo, i: int, j: int, s: seq<Smoothness>)
    requires |info.startRing| == |info.endRing|
  {
    && Processed(info, i, j, |s|)
    && var sp, ep := Sp(info, i, j), Ep(info, i, j);
      && (Inner(sp, info.size) || (s[sp].ind == 0 && Inner(sp + 1, info.size))) && Inner(ep, info.size)
      && forall k :: InScan(info, k) && !Inner(k, info.size) && !(sp <= k <= ep) ==>
           0 <= k < |s| && !(sp <= s[k].ind <= ep)
  }

  ghost predicate AllFresh(info: CloudInfo, s: seq<Smoothness>)
    requires |info.startRing| == |info.endRing|
  {
    forall i, j :: Processed(info, i, j, |s|) ==> SectorFresh(info, i, j, s)
  }

  lemma FreshIsSound(info: CloudInfo, s: seq<Smoothness>, s0: seq<Smoothness>, f0: Frame)
    requires |info.startRing| == |info.endRing| && f0.Sized() && |s| == |s0| == |f0.labels| && info.size <= |s|
    requires s0 == Refreshed(s, f0.curvature, info.size)
    requires forall k :: Inner(k, info.size) ==> f0.labels[k] == 0
    ensures forall i, j :: SectorFresh(info, i, j, s) ==> Sound(info, i, j, s0, f0)
    ensures AllFresh(info, s) ==> AllSound(info, s0, f0)
  {
    hide Sp;
    hide Ep;
    hide InScan;
    forall i, j | SectorFresh(info, i, j, s) ensures Sound(info, i, j, s0, f0) {
      var sp, ep := Sp(info, i, j), Ep(info, i, j);
      forall k | InScan(info, k) && !(sp <= k <= ep) ensures 0 <= k < |s0| && !(sp <= s0[k].ind <= ep) {
        if Inner(k, info.size) { assert s0[k].ind == k; }
      }
      assert Spared(info, s0, sp, ep);
    }
  }

  lemma KnownRearranged(was: seq<Smoothness>, s: seq<Smoothness>, sp: int, ep: int)
    requires |s| == |was| && 0 <= sp && ep < |s| && Rearranged(s, was, sp, ep)
    requires forall k :: 0 <= k < |s| ==> Known(was[k].ind, |s|)
    ensures forall k :: 0 <= k < |s| ==> Known(s[k].ind, |s|)
  {
    hide Known;
    forall k | 0 <= k < |s| ensures Known(s[k].ind, |s|) {
      if sp <= k <= ep {
        var j := CameFrom(was, s, sp, ep, k);
      }
    }
  }

  /** Before and after sorting, work on a stretch touches the same positions. */
  lemma ChangedBeforeSort(f: Frame, g: Frame, was: seq<Smoothness>, s: seq<Smoothness>, sp: int, ep: int)
    requires |s| == |was| && 0 <= sp <= ep < |s| && Rearranged(s, was, sp, ep) && Changed(f, g, s, sp, ep)
    requires f.Sized() && |f.labels| == |s|
    ensures Changed(f, g, was, sp, ep)
  {
    hide SameAt;
    hide Later;
    forall p | Touched(s, sp, ep, p) ensures Touched(was, sp, ep, p) {
      if !(sp <= p <= ep) {
        var k :| sp <= k <= ep && s[k].ind == p;
        var j := CameFrom(was, s, sp, ep, k);
      }
    }
  }

  /** Sorting all but the last entry of a stretch permutes the stretch. */
  lemma SortedEntries(was: seq<Smoothness>, s: seq<Smoothness>, sp: int, ep: int)
    requires |s| == |was| && 0 <= sp <= ep < |s|
    requires multiset(s[sp..ep]) == multiset(was[sp..ep])
    requires forall k :: 0 <= k < |s| && !(sp <= k < ep) ==> s[k] == was[k]
    ensures Rearranged(s, was, sp, ep)
  {
    SameMultisetSameElements(s[sp..ep], was[sp..ep]);
    assert s[sp..ep + 1] == s[sp..ep] + [s[ep]];
    assert was[sp..ep + 1] == was[sp..ep] + [was[ep]];
    forall k | sp <= k <= ep ensures s[k] in was[sp..ep + 1] && was[k] in s[sp..ep + 1] {
      if k < ep {
        assert s[sp..ep][k - sp] == s[k] && was[sp..ep][k - sp] == was[k];
        assert s[k] in was[sp..ep] && was[k] in s[sp..ep];
      }
    }
  }

  /** The sorted entries name exactly the positions from `lo` on, each with its own curvature, but
      for one that names 0 when `lo` is not the first position. */
  ghost predicate NamesSector(s: seq<Smoothness>, curvature: seq<real>, sp: int, lo: int, ep: int)
    requires |s| == |curvature| && 0 <= sp <= lo <= ep < |s|
  {
    && (forall k :: sp <= k <= ep ==> s[k].ind == 0 || (lo <= s[k].ind <= ep && s[k].value == curvature[s[k].ind]))
    && (lo > sp <==> exists k :: sp <= k <= ep && s[k].ind == 0)
    && (forall p :: lo <= p <= ep ==> Names(s, p, sp, ep))
    && s[ep].ind == ep
  }

  ghost predicate Names(s: seq<Smoothness>, p: int, lo: int, hi: int)
    requires 0 <= lo && hi < |s|
  {
    exists k :: lo <= k <= hi && s[k].ind == p
  }

  lemma FreshEntries(was: seq<Smoothness>, s: seq<Smoothness>, curvature: seq<real>, sp: int, lo: int, ep: int)
    requires |s| == |was| == |curvature| && 0 <= sp <= lo <= ep < |s| && Rearranged(s, was, sp, ep)
    requires lo == Lo(was, sp) && 0 < lo && s[ep] == was[ep]
    requires forall k :: lo <= k <= ep ==> was[k] == Smoothness(curvature[k], k)
    ensures NamesSector(s, curvature, sp, lo, ep)
  {
    hide Rearranged;
    forall k | sp <= k <= ep
      ensures s[k].ind == 0 || (lo <= s[k].ind <= ep && s[k].value == curvature[s[k].ind])
      ensures s[k].ind == 0 ==> lo > sp
    {
      var m := CameFrom(was, s, sp, ep, k);
    }
    if lo > sp { var m := WentTo(was, s, sp, ep, sp); }
    forall p | lo <= p <= ep ensures Names(s, p, sp, ep) {
      var m := WentTo(was, s, sp, ep, p);
    }
  }

  /** Each entry of a rearranged stretch was somewhere in it, and is somewhere in it. */
  lemma CameFrom(was: seq<Smoothness>, s: seq<Smoothness>, sp: int, ep: int, k: int) returns (m: int)
    requires |s| == |was| && 0 <= sp <= k <= ep < |s| && Rearranged(s, was, sp, ep)
    ensures sp <= m <= ep && was[m] == s[k]
  {
    assert s[k] in was[sp..ep + 1];
    var j :| 0 <= j < |was[sp..ep + 1]| && was[sp..ep + 1][j] == s[k];
    m := sp + j;
  }

  lemma WentTo(was: seq<Smoothness>, s: seq<Smoothness>, sp: int, ep: int, k: int) returns (m: int)
    requires |s| == |was| && 0 <= sp <= k <= ep < |s| && Rearranged(s, was, sp, ep)
    ensures sp <= m <= ep && s[m] == was[k]
  {
    assert was[k] in s[sp..ep + 1];
    var j :| 0 <= j < |s[sp..ep + 1]| && s[sp..ep + 1][j] == was[k];
    m := sp + j;
  }

  /** What the loops of a sector have chosen: corners `cs` and planar points `fs`. `labels0` are the
      labels before. */
  ghost predicate Chosen(s: seq<Smoothness>, curvature: seq<real>, labels0: seq<int>, labels: seq<int>,
                         cs: seq<int>, fs: seq<int>, sp: int, ep: int, t: Thresholds)
    requires |s| == |curvature| == |labels| == |labels0| && 0 <= sp < ep < |s|
  {
    && |cs| <= 20 && Distinct(cs)
    && (forall c :: c in cs ==> 5 <= c < |s| && curvature[c] > t.edge && Names(s, c, sp, ep))
    && (forall c :: c in fs ==> 5 <= c < |s| && curvature[c] < t.surf && c !in cs && Names(s, c, sp, ep))
    && (forall p :: 0 <= p < |s| ==> labels[p] == if p in fs then -1 else if p in cs then 1 else labels0[p])
  }

  /** What the two loops have looked at, when they came to their end. */
  ghost predicate LoopsDone(s: seq<Smoothness>, curvature: seq<real>, picked: seq<bool>, cs: seq<int>, stop: int,
                            sp: int, ep: int, t: Thresholds)
    requires |s| == |curvature| == |picked| && 0 <= sp < ep < |s|
    requires forall k :: sp <= k <= ep ==> 0 <= s[k].ind < |s|
  {
    && sp <= stop <= ep + 1 && (|cs| < 20 ==> stop == sp)
    && (forall c :: c in cs ==> Names(s, c, stop, ep))
    && (forall k :: stop <= k <= ep && curvature[s[k].ind] > t.edge ==> picked[s[k].ind])
    && (forall k :: sp <= k <= ep && curvature[s[k].ind] < t.surf ==> picked[s[k].ind])
  }

  lemma ChosenBoth(s: seq<Smoothness>, curvature: seq<real>, labels0: seq<int>, labels1: seq<int>, labels: seq<int>,
                   picked1: seq<bool>, cs: seq<int>, fs: seq<int>, sp: int, ep: int, t: Thresholds)
    requires |s| == |curvature| == |labels| == |labels0| == |labels1| == |picked1| && 0 <= sp < ep < |s|
    requires |cs| <= 20 && Distinct(cs)
    requires forall c :: c in cs ==> 5 <= c < |s| && curvature[c] > t.edge && picked1[c] && Names(s, c, sp, ep)
    requires forall c :: c in fs ==> 5 <= c < |s| && curvature[c] < t.surf && !picked1[c] && Names(s, c, sp, ep)
    requires forall p :: 0 <= p < |s| ==> labels1[p] == if p in cs then 1 else labels0[p]
    requires forall p :: 0 <= p < |s| ==> labels[p] == if p in fs then -1 else labels1[p]
    ensures Chosen(s, curvature, labels0, labels, cs, fs, sp, ep, t)
  {
    hide Names;
  }

  lemma LoopsOver(s: seq<Smoothness>, curvature: seq<real>, picked1: seq<bool>, picked: seq<bool>, cs: seq<int>,
                  stop: int, sp: int, ep: int, t: Thresholds)
    requires |s| == |curvature| == |picked1| == |picked| && 0 <= sp < ep < |s|
    requires forall k :: sp <= k <= ep ==> 0 <= s[k].ind < |s|
    requires forall q :: 0 <= q < |s| && picked1[q] ==> picked[q]
    requires sp <= stop <= ep + 1 && (|cs| < 20 ==> stop == sp) && forall c :: c in cs ==> Names(s, c, stop, ep)
    requires forall k :: stop <= k <= ep && curvature[s[k].ind] > t.edge ==> picked1[s[k].ind]
    requires forall k :: sp <= k <= ep && curvature[s[k].ind] < t.surf ==> picked[s[k].ind]
    ensures LoopsDone(s, curvature, picked, cs, stop, sp, ep, t)
  {
    hide Names;
  }

  /** The points named so far and the one entry `k` names. */
  lemma NamedHere(s: seq<Smoothness>, cs: seq<int>, k: int, ep: int)
    requires 0 <= k <= ep < |s| && forall c :: c in cs ==> Names(s, c, k + 1, ep)
    ensures forall c :: c in cs + [s[k].ind] ==> Names(s, c, k, ep)
  {
    NamesWider(s, cs, k + 1, k, ep);
  }

  lemma NamesWider(s: seq<Smoothness>, cs: seq<int>, stop: int, sp: int, ep: int)
    requires 0 <= sp <= stop && ep < |s| && forall c :: c in cs ==> Names(s, c, stop, ep)
    ensures forall c :: c in cs ==> Names(s, c, sp, ep)
  {
    forall c | c in cs ensures Names(s, c, sp, ep) {
      var k :| stop <= k <= ep && s[k].ind == c;
    }
  }

  /** The loops label and collect only what the sector's entries name. */
  lemma ChosenMarks(col: seq<int>, s: seq<Smoothness>, curvature: seq<real>, a: Marks, b: Marks, cs: seq<int>,
                    fs: seq<int>, sp: int, ep: int, t: Thresholds)
    requires a.Fits(col, curvature) && b.Fits(col, curvature) && |s| == |col| && 0 <= sp < ep < |s|
    requires Chosen(s, curvature, a.labels, b.labels, cs, fs, sp, ep, t)
    requires PickedBy(col, a.picked, b.picked, cs, fs)
    ensures Marked(col, curvature, t, a, b)
  {
    hide Names;
    hide PickedBy;
    ChoosingMarks(col, curvature, t, a, b, cs, fs);
  }

  lemma ChosenTouches(s: seq<Smoothness>, curvature: seq<real>, labels0: seq<int>, labels: seq<int>, cs: seq<int>,
                      fs: seq<int>, corners: seq<int>, sp: int, ep: int, t: Thresholds)
    requires |s| == |curvature| == |labels| == |labels0| && 0 <= sp < ep < |s|
    requires Chosen(s, curvature, labels0, labels, cs, fs, sp, ep, t)
    ensures forall p :: 0 <= p < |s| && !Touched(s, sp, ep, p) ==>
      labels[p] == labels0[p] && (p in corners + cs <==> p in corners)
  {
    hide Names;
  }

  /** Of the stretch from `lo` on, the corners are exactly those chosen. */
  lemma CapOfSector(s: seq<Smoothness>, curvature: seq<real>, labels0: seq<int>, labels: seq<int>, cs: seq<int>,
                    fs: seq<int>, sp: int, lo: int, ep: int, t: Thresholds)
    requires |s| == |curvature| == |labels| == |labels0| && 0 <= sp <= lo <= ep < |s| && sp < ep
    requires Chosen(s, curvature, labels0, labels, cs, fs, sp, ep, t) && NamesSector(s, curvature, sp, lo, ep)
    requires forall k :: lo <= k <= ep ==> labels0[k] == 0
    ensures |Corners(labels, lo, ep)| == |cs|
    ensures forall c :: c in cs || c in fs ==> lo <= c <= ep
  {
    forall c | c in cs || c in fs ensures lo <= c <= ep {
      var m :| sp <= m <= ep && s[m].ind == c;
    }
    hide NamesSector;
    CornersOfSector(labels, cs, lo, ep);
  }

  /** An entry whose point has too few neighbours before it, or is not in the cloud, is the one that
      names 0. */
  lemma StraysNameZero(s: seq<Smoothness>, curvature: seq<real>, sp: int, lo: int, ep: int, n: int)
    requires |s| == |curvature| && 0 <= sp <= lo <= ep < |s| && 5 <= lo && ep < n
    requires NamesSector(s, curvature, sp, lo, ep)
    ensures forall k :: sp <= k <= ep && !(5 <= s[k].ind < n) ==> s[k].ind == 0
    ensures lo > sp <==> exists k :: sp <= k <= ep && s[k].ind == 0
  {
    hide Names;
  }

  lemma FinishSector(s: seq<Smoothness>, curvature: seq<real>, labels0: seq<int>, labels: seq<int>,
                     picked: seq<bool>, cs: seq<int>, fs: seq<int>, stop: int, corners: seq<int>, scan: seq<int>,
                     scan': seq<int>, sp: int, lo: int, ep: int, t: Thresholds)
    requires |s| == |curvature| == |labels| == |labels0| == |picked| && 0 <= sp <= lo <= ep < |s| && sp < ep && 0 < lo
    requires NamesSector(s, curvature, sp, lo, ep) && SortedRange(s, sp, ep)
    requires Chosen(s, curvature, labels0, labels, cs, fs, sp, ep, t)
    requires LoopsDone(s, curvature, picked, cs, stop, sp, ep, t)
    requires forall p :: p in scan' <==> (p in scan || (sp <= p <= ep && labels[p] <= 0))
    requires forall k :: lo <= k <= ep ==> labels0[k] == 0 && k !in corners && k !in scan
    ensures SectorDone(labels, picked, curvature, t, corners + cs, scan', lo, ep)
  {
    CapOfSector(s, curvature, labels0, labels, cs, fs, sp, lo, ep, t);
    SharpOnesPicked(s, curvature, picked, cs, stop, sp, lo, ep, t);
    LeftOversAreDuller(s, curvature, labels, picked, cs, stop, sp, lo, ep, t);
    hide Corners;
    hide NamesSector;
    hide SortedRange;
    hide LoopsDone;
    hide Names;
  }

  /** Greedy order: a sharp position that was never looked at lies below every entry that was. */
  lemma LeftOversAreDuller(s: seq<Smoothness>, curvature: seq<real>, labels: seq<int>, picked: seq<bool>,
                           cs: seq<int>, stop: int, sp: int, lo: int, ep: int, t: Thresholds)
    requires |s| == |curvature| == |picked| == |labels| && 0 <= sp <= lo <= ep < |s| && 0 < lo && sp <= stop
    requires NamesSector(s, curvature, sp, lo, ep) && SortedRange(s, sp, ep)
    requires forall p :: lo <= p <= ep && labels[p] == 1 ==> p in cs
    requires forall c :: c in cs ==> Names(s, c, stop, ep)
    requires forall k :: stop <= k <= ep && curvature[s[k].ind] > t.edge ==> picked[s[k].ind]
    ensures forall k, d :: lo <= k <= ep && lo <= d < ep && labels[d] == 1 && curvature[k] > t.edge && !picked[k] ==>
      curvature[k] <= curvature[d]
  {
    forall k, d | lo <= k <= ep && lo <= d < ep && labels[d] == 1 && curvature[k] > t.edge && !picked[k]
      ensures curvature[k] <= curvature[d]
    {
      assert d in cs && Names(s, k, sp, ep);
      var m :| sp <= m <= ep && s[m].ind == k;
      var n :| stop <= n <= ep && s[n].ind == d;
      assert m < stop <= n < ep;
    }
  }

  lemma SharpOnesPicked(s: seq<Smoothness>, curvature: seq<real>, picked: seq<bool>, cs: seq<int>, stop: int,
                        sp: int, lo: int, ep: int, t: Thresholds)
    requires |s| == |curvature| == |picked| && 0 <= sp <= lo <= ep < |s| && NamesSector(s, curvature, sp, lo, ep)
    requires |cs| < 20 ==> stop == sp
    requires forall k :: stop <= k <= ep && sp <= k && curvature[s[k].ind] > t.edge ==> picked[s[k].ind]
    requires forall k :: sp <= k <= ep && curvature[s[k].ind] < t.surf ==> picked[s[k].ind]
    ensures |cs| < 20 ==> forall k :: lo <= k <= ep && curvature[k] > t.edge ==> picked[k]
    ensures forall k :: lo <= k <= ep && curvature[k] < t.surf ==> picked[k]
  {
    forall k | lo <= k <= ep
      ensures (|cs| < 20 && curvature[k] > t.edge ==> picked[k]) && (curvature[k] < t.surf ==> picked[k])
    {
      assert Names(s, k, sp, ep);
      var m :| sp <= m <= ep && s[m].ind == k;
    }
  }

  lemma CornersOfSector(labels: seq<int>, cs: seq<int>, sp: int, ep: int)
    requires 0 <= sp && ep < |labels| && Distinct(cs)
    requires forall c :: c in cs ==> sp <= c <= ep
    requires forall p :: sp <= p <= ep ==> (labels[p] == 1 <==> p in cs)
    ensures |Corners(labels, sp, ep)| == |cs|
  {
    assert Corners(labels, sp, ep) == set x | x in cs;
    DistinctCount(cs);
  }
}
